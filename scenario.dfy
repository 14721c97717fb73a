/** A worked scenario: a pool of five candidates whose predicted properties
    are fixed, ranked by the proposal agent and re-ranked under "balanced".
    Candidate k (k = 1..5) is told apart by its api_load of k; the models
    look its predictions up from that value. */
module Scenario {
  import opened Frames
  import opened Schema
  import opened Agents
  import opened Orchestrator

  /** The prediction for candidate 1..5, chosen by api_load. */
  function ByCandidate(x: Features, c1: real, c2: real, c3: real, c4: real, c5: real): real
  {
    if x.apiLoad == 1.0 then c1
    else if x.apiLoad == 2.0 then c2
    else if x.apiLoad == 3.0 then c3
    else if x.apiLoad == 4.0 then c4
    else c5
  }

  function ScenarioModels(): Models
  {
    Models(
      x => ByCandidate(x, 80.0, 60.0, 40.0, 90.0, 10.0),
      x => ByCandidate(x, 0.1, 0.3, 0.5, 0.05, 0.9),
      x => ByCandidate(x, 300.0, 200.0, 100.0, 350.0, 20.0),
      x => ByCandidate(x, 0.05, 0.1, 0.2, 0.02, 0.8))
  }

  function Candidate(k: real): Features
  {
    Features(k, 0.0, 0.0, 0.0, 0.0, 0.0, 0.0, 0.0)
  }

  function Pool(): seq<Features>
  {
    [Candidate(1.0), Candidate(2.0), Candidate(3.0), Candidate(4.0), Candidate(5.0)]
  }

  /** The five rated rows, candidate by candidate, each with its utility. */
  function Row(k: real, perm: real, irr: real, stab: real, fail: real): Rated
  {
    Rated(Scored(Candidate(k), perm, irr, stab, fail),
      0.45 * (perm / 100.0) + 0.35 * (stab / 365.0) - 0.15 * irr - 0.20 * fail)
  }

  function RatedRows(): seq<Rated>
  {
    [Row(1.0, 80.0, 0.1, 300.0, 0.05), Row(2.0, 60.0, 0.3, 200.0, 0.1), Row(3.0, 40.0, 0.5, 100.0, 0.2),
     Row(4.0, 90.0, 0.05, 350.0, 0.02), Row(5.0, 10.0, 0.9, 20.0, 0.8)]
  }

  /** The expected ranking: the 4th, 1st, 2nd, 3rd and 5th candidate. */
  function ExpectedRanking(): seq<Rated>
  {
    var r := RatedRows();
    [r[3], r[0], r[1], r[2], r[4]]
  }

  /** Scoring and rating the pool gives the five rows written out above. */
  lemma RatedPool()
    ensures Rate(Survivors(ScenarioModels(), Pool(), None)) == RatedRows()
  {
    var scored := Score(ScenarioModels(), Pool());
    assert Survivors(ScenarioModels(), Pool(), None) == scored;
  }

  /** The expected ranking is strictly descending in utility. */
  lemma ExpectedStrictlyDescending()
    ensures forall i, j :: 0 <= i < j < 5 ==> ExpectedRanking()[i].utility > ExpectedRanking()[j].utility
  {
    var e := ExpectedRanking();
    assert e[0].utility > e[1].utility > e[2].utility > e[3].utility > e[4].utility;
  }

  lemma ExpectedIsArrangement()
    ensures multiset(ExpectedRanking()) == multiset(RatedRows())
  {
    var r := RatedRows();
    assert r == [r[0], r[1], r[2], r[3], r[4]];
  }

  /** Since no two rows tie, the proposals are the head of the expected
      ranking. */
  lemma ScenarioTop()
    ensures ProposeNextExperiments(ScenarioModels(), Pool(), 10, None) == StampIds(Head(ExpectedRanking(), 10))
  {
    ExpectedRanksSurvivors();
    ProposeWithoutTies(ScenarioModels(), Pool(), 10, None, ExpectedRanking());
  }

  /** The expected ranking is a descending arrangement of the rated pool,
      without ties. */
  lemma ExpectedRanksSurvivors()
    ensures var e := ExpectedRanking();
      && multiset(e) == multiset(Rate(Survivors(ScenarioModels(), Pool(), None)))
      && SortedDesc(e, RatedUtility)
      && forall i, j :: 0 <= i < j < |e| ==> e[i].utility != e[j].utility
  {
    RatedPool();
    ExpectedIsArrangement();
    ExpectedSortedDistinct();
  }

  /** The expected ranking is descending, with no two utilities equal. */
  lemma ExpectedSortedDistinct()
    ensures var e := ExpectedRanking();
      SortedDesc(e, RatedUtility) && forall i, j :: 0 <= i < j < |e| ==> e[i].utility != e[j].utility
  {
    ExpectedStrictlyDescending();
  }

  /** With no constraints and n = 10, the proposals are the expected
      ranking, all five rows, stamped PROP-001 to PROP-005. */
  lemma ScenarioProposals()
    ensures ProposeNextExperiments(ScenarioModels(), Pool(), 10, None) == StampIds(ExpectedRanking())
  {
    ScenarioTop();
    assert Head(ExpectedRanking(), 10) == ExpectedRanking();
  }

  /** The candidates come out as the 4th, 1st, 2nd, 3rd and 5th, with ids
      PROP-001 to PROP-005. */
  lemma ScenarioRanking()
    ensures var p := ProposeNextExperiments(ScenarioModels(), Pool(), 10, None);
      && |p| == 5
      && p[0].scored.features == Candidate(4.0)
      && p[1].scored.features == Candidate(1.0)
      && p[2].scored.features == Candidate(2.0)
      && p[3].scored.features == Candidate(3.0)
      && p[4].scored.features == Candidate(5.0)
      && (forall i :: 0 <= i < 5 ==> p[i].proposalId == ProposalId(i + 1))
  {
    ScenarioProposals();
  }

  /** Re-ranking the scenario's proposals (which ScenarioProposals shows
      are these rows) under "balanced" keeps their order. */
  lemma ScenarioBalancedKeepsOrder()
    ensures var p := StampIds(ExpectedRanking());
      |Orchestrate(p, "balanced")| == 5 && forall i :: 0 <= i < 5 ==> Orchestrate(p, "balanced")[i].proposal == p[i]
  {
    var p := StampIds(ExpectedRanking());
    ExpectedStrictlyDescending();
    FallbackKeepsStrictRanking(p, "balanced");
  }
}
