/** The two agents: the formulation-intelligence agent, which scores a
    candidate pool with four injected models, filters it by the caller's
    thresholds, ranks it by a fixed-weight utility and stamps proposal ids;
    and the evidence-readiness agent, which joins development notes onto
    formulation rows and keeps the most urgent ones. */
module Agents {
  import opened Frames
  import opened Format
  import opened Schema

  // =====================================================================
  // Scoring

  /** The four fitted models, injected: point predictions of permeability,
      irritation and stability, and the predicted probability of class 1
      (QC failure) for the fail classifier. */
  datatype Models = Models(
    permeability: Features -> real,
    irritation: Features -> real,
    stability: Features -> real,
    qcFailProbability: Features -> real)

  /** A candidate row with the four prediction columns added. */
  datatype Scored = Scored(
    features: Features,
    predPermeability: real,
    predIrritation: real,
    predStability: real,
    predQcFailProb: real)

  predicate WithinClamps(r: Scored)
  {
    0.0 <= r.predIrritation <= 1.0 && 15.0 <= r.predStability <= 365.0
  }

  function ScoreRow(m: Models, x: Features): (r: Scored)
    ensures r.features == x
    ensures WithinClamps(r)
    ensures r.predPermeability == m.permeability(x)
    ensures r.predQcFailProb == m.qcFailProbability(x)
    ensures r.predIrritation == Clip(m.irritation(x), 0.0, 1.0)
    ensures r.predStability == Clip(m.stability(x), 15.0, 365.0)
    ensures 0.0 <= m.irritation(x) <= 1.0 ==> r.predIrritation == m.irritation(x)
    ensures 15.0 <= m.stability(x) <= 365.0 ==> r.predStability == m.stability(x)
  {
    Scored(x,
      m.permeability(x),
      Clip(m.irritation(x), 0.0, 1.0),
      Clip(m.stability(x), 15.0, 365.0),
      m.qcFailProbability(x))
  }

  /** `score`: one scored row per input row, in input order; the original
      columns pass through and the predictions are clamped. */
  function Score(m: Models, xs: seq<Features>): (r: seq<Scored>)
    ensures |r| == |xs|
    ensures forall i :: 0 <= i < |r| ==> r[i].features == xs[i] && WithinClamps(r[i])
    ensures forall i :: 0 <= i < |r| ==> r[i] == ScoreRow(m, xs[i])
  {
    seq(|xs|, i requires 0 <= i < |xs| => ScoreRow(m, xs[i]))
  }

  // =====================================================================
  // Constraint filter. The constraints argument is an optional dictionary;
  // only three keys are recognised, each one an independent threshold.

  const MaxIrritationKey := "max_irritation"
  const MinStabilityKey := "min_stability"
  const MaxFailProbKey := "max_fail_prob"

  predicate IrritationOk(c: map<string, real>, r: Scored)
  {
    MaxIrritationKey in c ==> r.predIrritation <= c[MaxIrritationKey]
  }

  predicate StabilityOk(c: map<string, real>, r: Scored)
  {
    MinStabilityKey in c ==> r.predStability >= c[MinStabilityKey]
  }

  predicate FailProbOk(c: map<string, real>, r: Scored)
  {
    MaxFailProbKey in c ==> r.predQcFailProb <= c[MaxFailProbKey]
  }

  /** A row passes every threshold that is supplied. */
  predicate Admits(constraints: Option<map<string, real>>, r: Scored)
  {
    match constraints
    case None => true
    case Some(c) => IrritationOk(c, r) && StabilityOk(c, r) && FailProbOk(c, r)
  }

  function IrritationMask(c: map<string, real>): Scored -> bool { r => IrritationOk(c, r) }
  function StabilityMask(c: map<string, real>): Scored -> bool { r => StabilityOk(c, r) }
  function FailProbMask(c: map<string, real>): Scored -> bool { r => FailProbOk(c, r) }
  function AdmitsMask(constraints: Option<map<string, real>>): Scored -> bool { r => Admits(constraints, r) }

  /** The three filters applied one after the other, each only when its key
      is present; a missing or empty dictionary filters nothing. */
  function ApplyConstraints(scored: seq<Scored>, constraints: Option<map<string, real>>): (r: seq<Scored>)
    ensures |r| <= |scored| && multiset(r) <= multiset(scored)
  {
    if constraints.None? || |constraints.value| == 0 then scored
    else
      var c := constraints.value;
      var s1 := if MaxIrritationKey in c then Where(scored, IrritationMask(c)) else scored;
      var s2 := if MinStabilityKey in c then Where(s1, StabilityMask(c)) else s1;
      if MaxFailProbKey in c then Where(s2, FailProbMask(c)) else s2
  }

  /** The successive filters amount to one filter by the conjunction of the
      supplied thresholds. */
  lemma ConstraintsAreConjunctive(scored: seq<Scored>, constraints: Option<map<string, real>>)
    ensures ApplyConstraints(scored, constraints) == Where(scored, AdmitsMask(constraints))
  {
    if constraints.None? || |constraints.value| == 0 {
      WhereAll(scored, AdmitsMask(constraints));
    } else {
      var c := constraints.value;
      var s1 := if MaxIrritationKey in c then Where(scored, IrritationMask(c)) else scored;
      var s2 := if MinStabilityKey in c then Where(s1, StabilityMask(c)) else s1;
      if MaxIrritationKey !in c { WhereAll(scored, IrritationMask(c)); }
      assert s1 == Where(scored, IrritationMask(c));
      if MinStabilityKey !in c { WhereAll(s1, StabilityMask(c)); }
      assert s2 == Where(s1, StabilityMask(c));
      if MaxFailProbKey !in c { WhereAll(s2, FailProbMask(c)); }
      var both: Scored -> bool := r => IrritationOk(c, r) && StabilityOk(c, r);
      WhereAnd(scored, IrritationMask(c), StabilityMask(c), both);
      WhereAnd(scored, both, FailProbMask(c), AdmitsMask(constraints));
    }
  }

  /** A row survives exactly when it was in the input and meets every
      supplied threshold, with as many copies as the input holds; the
      survivors keep their relative order. */
  lemma ConstraintFilterExact(scored: seq<Scored>, constraints: Option<map<string, real>>)
    ensures var kept := ApplyConstraints(scored, constraints);
      && (forall i :: 0 <= i < |kept| ==> kept[i] in scored && Admits(constraints, kept[i]))
      && (forall i :: 0 <= i < |scored| && Admits(constraints, scored[i]) ==> scored[i] in kept)
      && (forall x :: multiset(kept)[x] == if Admits(constraints, x) then multiset(scored)[x] else 0)
      && IsSubseq(kept, scored)
  {
    ConstraintsAreConjunctive(scored, constraints);
    WhereIsSubseq(scored, AdmitsMask(constraints));
    WhereCounts(scored, AdmitsMask(constraints));
  }

  /** Thresholds supplied together filter exactly as the same thresholds
      supplied in two separate calls, one after the other. */
  lemma ConstraintsCompose(scored: seq<Scored>, c1: map<string, real>, c2: map<string, real>)
    requires c1.Keys !! c2.Keys
    ensures ApplyConstraints(ApplyConstraints(scored, Some(c1)), Some(c2)) == ApplyConstraints(scored, Some(c1 + c2))
  {
    var first := ApplyConstraints(scored, Some(c1));
    ConstraintsAreConjunctive(scored, Some(c1));
    ConstraintsAreConjunctive(first, Some(c2));
    ConstraintsAreConjunctive(scored, Some(c1 + c2));
    forall x
      ensures AdmitsMask(Some(c1 + c2))(x) == (AdmitsMask(Some(c1))(x) && AdmitsMask(Some(c2))(x))
    {
      AdmitsUnion(c1, c2, x);
    }
    WhereAnd(scored, AdmitsMask(Some(c1)), AdmitsMask(Some(c2)), AdmitsMask(Some(c1 + c2)));
  }

  /** A row meets the thresholds of two dictionaries with distinct keys
      exactly when it meets those of their union. */
  lemma AdmitsUnion(c1: map<string, real>, c2: map<string, real>, r: Scored)
    requires c1.Keys !! c2.Keys
    ensures Admits(Some(c1 + c2), r) == (Admits(Some(c1), r) && Admits(Some(c2), r))
  {
  }

  /** No dictionary, or an empty one, removes nothing. */
  lemma NoConstraintsKeepAll(scored: seq<Scored>)
    ensures ApplyConstraints(scored, None) == scored
    ensures ApplyConstraints(scored, Some(map[])) == scored
  {
  }

  // =====================================================================
  // Utility ranking and proposal ids

  /** The fixed-weight utility of a scored row. */
  function Utility(r: Scored): real
  {
    0.45 * (r.predPermeability / 100.0) + 0.35 * (r.predStability / 365.0)
      - 0.15 * r.predIrritation - 0.20 * r.predQcFailProb
  }

  /** A surviving row with its utility column. */
  datatype Rated = Rated(scored: Scored, utility: real)

  /** A returned proposal: the rated row and its positional id. */
  datatype Proposal = Proposal(scored: Scored, utility: real, proposalId: string)

  function RatedUtility(r: Rated): real { r.utility }

  function Unstamp(p: Proposal): Rated { Rated(p.scored, p.utility) }

  function Rate(s: seq<Scored>): (r: seq<Rated>)
    ensures |r| == |s|
    ensures forall i :: 0 <= i < |s| ==> r[i] == Rated(s[i], Utility(s[i]))
  {
    seq(|s|, i requires 0 <= i < |s| => Rated(s[i], Utility(s[i])))
  }

  /** `PROP-` followed by the 1-based rank, zero-padded to three digits. */
  function ProposalId(rank: nat): string
  {
    "PROP-" + PaddedDecimal(rank, 3)
  }

  /** Ids read back to their rank, so distinct ranks get distinct ids; up
      to rank 999 an id is exactly eight characters. */
  lemma ProposalIdDecodes(rank: nat)
    ensures |ProposalId(rank)| >= 8
    ensures ProposalId(rank)[..5] == "PROP-"
    ensures Value(ProposalId(rank)[5..]) == rank
    ensures 1 <= rank <= 999 ==> |ProposalId(rank)| == 8
  {
    assert ProposalId(rank)[5..] == PaddedDecimal(rank, 3);
    assert Pow10(3) == 1000;
  }

  lemma ProposalIdInjective(a: nat, b: nat)
    ensures ProposalId(a) == ProposalId(b) ==> a == b
  {
    ProposalIdDecodes(a);
    ProposalIdDecodes(b);
  }

  function StampIds(top: seq<Rated>): (r: seq<Proposal>)
    ensures |r| == |top|
    ensures forall i :: 0 <= i < |top| ==>
      r[i] == Proposal(top[i].scored, top[i].utility, ProposalId(i + 1))
  {
    seq(|top|, i requires 0 <= i < |top| => Proposal(top[i].scored, top[i].utility, ProposalId(i + 1)))
  }

  /** Stamped ids are pairwise distinct. */
  lemma StampIdsDistinct(top: seq<Rated>)
    ensures var p := StampIds(top);
      forall i, j :: 0 <= i < j < |p| ==> p[i].proposalId != p[j].proposalId
  {
    var p := StampIds(top);
    forall i, j | 0 <= i < j < |p|
      ensures p[i].proposalId != p[j].proposalId
    {
      StampIdsDiffer(top, i, j);
    }
  }

  lemma StampIdsDiffer(top: seq<Rated>, i: nat, j: nat)
    requires i < j < |top|
    ensures StampIds(top)[i].proposalId != StampIds(top)[j].proposalId
  {
    var a, b := StampIds(top)[i].proposalId, StampIds(top)[j].proposalId;
    assert a == ProposalId(i + 1) && b == ProposalId(j + 1);
    ProposalIdInjective(i + 1, j + 1);
    assert i + 1 != j + 1;
  }

  lemma UnstampStampIds(top: seq<Rated>)
    ensures Project(StampIds(top), Unstamp) == top
  {
    var p := StampIds(top);
    forall i | 0 <= i < |top|
      ensures Project(p, Unstamp)[i] == top[i]
    {
      ProjectAt(p, Unstamp, i);
    }
  }

  /** The rows left after scoring the pool and applying the constraints. */
  function Survivors(m: Models, candidates: seq<Features>, constraints: Option<map<string, real>>): seq<Scored>
  {
    ApplyConstraints(Score(m, candidates), constraints)
  }

  /** `propose_next_experiments` on an already drawn candidate pool. */
  function ProposeNextExperiments(m: Models, candidates: seq<Features>, n: int,
                                  constraints: Option<map<string, real>>): (r: seq<Proposal>)
    ensures |r| <= |candidates|
    ensures n >= 0 ==> |r| <= n
    ensures forall i :: 0 <= i < |r| ==> r[i].proposalId == ProposalId(i + 1)
  {
    var ranked := SortDesc(Rate(Survivors(m, candidates, constraints)), RatedUtility);
    StampIds(Head(ranked, n))
  }

  /** As many proposals as asked for, or all survivors when fewer survive;
      none (not an error) when nothing survives. A negative n drops that
      many rows from the end, as `head` does. */
  lemma ProposeLength(m: Models, candidates: seq<Features>, n: int, constraints: Option<map<string, real>>)
    ensures var k := |Survivors(m, candidates, constraints)|;
      && (n >= 0 ==> |ProposeNextExperiments(m, candidates, n, constraints)| == Min(n, k))
      && (n < 0 ==> |ProposeNextExperiments(m, candidates, n, constraints)| == Max(0, k + n))
      && (k == 0 ==> ProposeNextExperiments(m, candidates, n, constraints) == [])
  {
  }

  /** Proposals come in non-increasing utility, each carrying its own row's
      utility. */
  lemma ProposeOrdered(m: Models, candidates: seq<Features>, n: int, constraints: Option<map<string, real>>)
    ensures var p := ProposeNextExperiments(m, candidates, n, constraints);
      && (forall i, j :: 0 <= i < j < |p| ==> p[i].utility >= p[j].utility)
      && (forall i :: 0 <= i < |p| ==> p[i].utility == Utility(p[i].scored))
  {
    var survivors := Survivors(m, candidates, constraints);
    var ranked := SortDesc(Rate(survivors), RatedUtility);
    var top := Head(ranked, n);
    var p := StampIds(top);
    forall i, j | 0 <= i < j < |p|
      ensures p[i].utility >= p[j].utility
    {
      assert top[i] == ranked[i] && top[j] == ranked[j];
    }
    forall i | 0 <= i < |p|
      ensures p[i].utility == Utility(p[i].scored)
    {
      assert top[i] == ranked[i];
      assert ranked[i] in multiset(Rate(survivors));
    }
  }

  /** Ids are PROP-001, PROP-002, ... in output order, hence pairwise
      distinct. */
  lemma ProposeIds(m: Models, candidates: seq<Features>, n: int, constraints: Option<map<string, real>>)
    ensures var p := ProposeNextExperiments(m, candidates, n, constraints);
      && (forall i :: 0 <= i < |p| ==> p[i].proposalId == ProposalId(i + 1))
      && (forall i, j :: 0 <= i < j < |p| ==> p[i].proposalId != p[j].proposalId)
  {
    var ranked := SortDesc(Rate(Survivors(m, candidates, constraints)), RatedUtility);
    StampIdsDistinct(Head(ranked, n));
  }

  /** Every proposal is a surviving scored row: it meets every supplied
      threshold and its predictions are within the clamps. */
  lemma ProposeFromSurvivors(m: Models, candidates: seq<Features>, n: int, constraints: Option<map<string, real>>)
    ensures var p := ProposeNextExperiments(m, candidates, n, constraints);
      forall i :: 0 <= i < |p| ==>
        && p[i].scored in Survivors(m, candidates, constraints)
        && p[i].scored.features in candidates
        && Admits(constraints, p[i].scored)
        && WithinClamps(p[i].scored)
  {
    var scored := Score(m, candidates);
    var survivors := Survivors(m, candidates, constraints);
    var rated := Rate(survivors);
    var ranked := SortDesc(rated, RatedUtility);
    var top := Head(ranked, n);
    var p := StampIds(top);
    ConstraintFilterExact(scored, constraints);
    forall i | 0 <= i < |p|
      ensures p[i].scored in survivors && p[i].scored.features in candidates
      ensures Admits(constraints, p[i].scored) && WithinClamps(p[i].scored)
    {
      assert top[i] == ranked[i];
      assert ranked[i] in multiset(rated);
      var j :| 0 <= j < |rated| && rated[j] == ranked[i];
      assert p[i].scored == survivors[j];
      var k :| 0 <= k < |scored| && scored[k] == survivors[j];
      assert scored[k].features == candidates[k];
    }
  }

  /** The proposals, ids aside, are rated survivors, each repeated no more
      often than among the survivors. */
  lemma ProposalsFromRated(m: Models, candidates: seq<Features>, n: int, constraints: Option<map<string, real>>)
    ensures multiset(Project(ProposeNextExperiments(m, candidates, n, constraints), Unstamp))
         <= multiset(Rate(Survivors(m, candidates, constraints)))
  {
    var rated := Rate(Survivors(m, candidates, constraints));
    var sorted := SortDesc(rated, RatedUtility);
    var top := Head(sorted, n);
    assert ProposeNextExperiments(m, candidates, n, constraints) == StampIds(top);
    UnstampStampIds(top);
    MultisetSplit(sorted, |top|);
  }

  /** No surviving row left out of the proposals has a higher utility than
      the last proposal returned. */
  lemma ProposeKeepsBest(m: Models, candidates: seq<Features>, n: int, constraints: Option<map<string, real>>)
    ensures var p := ProposeNextExperiments(m, candidates, n, constraints);
      var rated := Rate(Survivors(m, candidates, constraints));
      |p| > 0 ==> forall x :: x in multiset(rated) - multiset(Project(p, Unstamp)) ==>
        x.utility <= p[|p| - 1].utility
  {
    var rated := Rate(Survivors(m, candidates, constraints));
    var top := Head(SortDesc(rated, RatedUtility), n);
    var p := StampIds(top);
    assert ProposeNextExperiments(m, candidates, n, constraints) == p;
    UnstampStampIds(top);
    TopOfSortDominates(rated, RatedUtility, n);
    if |p| > 0 {
      assert p[|p| - 1].utility == RatedUtility(top[|top| - 1]);
    }
  }

  /** When no two survivors share a utility, the proposals are exactly the
      top of ANY descending arrangement of them: the order among equal
      utilities, which the sort leaves open, is then never consulted. */
  lemma ProposeWithoutTies(m: Models, candidates: seq<Features>, n: int,
                           constraints: Option<map<string, real>>, t: seq<Rated>)
    requires multiset(t) == multiset(Rate(Survivors(m, candidates, constraints)))
    requires SortedDesc(t, RatedUtility)
    requires forall i, j :: 0 <= i < j < |t| ==> t[i].utility != t[j].utility
    ensures ProposeNextExperiments(m, candidates, n, constraints) == StampIds(Head(t, n))
  {
    var rated := Rate(Survivors(m, candidates, constraints));
    SortedDescUnique(t, SortDesc(rated, RatedUtility), RatedUtility);
  }

  // =====================================================================
  // Evidence pack

  const NoNotes := "No notes."

  /** The observations recorded for one experiment, in note order. */
  function ObservationsOf(notes: seq<Note>, expId: string): seq<string>
  {
    if notes == [] then []
    else
      var last := notes[|notes| - 1];
      ObservationsOf(notes[..|notes| - 1], expId) + (if last.expId == expId then [last.observation] else [])
  }

  /** Group the notes by experiment and join each group's observations with
      single spaces, folding over the notes in order. */
  function GroupNotes(notes: seq<Note>): map<string, string>
  {
    if notes == [] then map[]
    else
      var g := GroupNotes(notes[..|notes| - 1]);
      var last := notes[|notes| - 1];
      g[last.expId := if last.expId in g then g[last.expId] + " " + last.observation else last.observation]
  }

  /** An experiment has a group exactly when it has notes, and the group is
      its observations joined by single spaces. */
  lemma {:induction false} GroupNotesJoins(notes: seq<Note>, expId: string)
    ensures expId in GroupNotes(notes) <==> ObservationsOf(notes, expId) != []
    ensures expId in GroupNotes(notes) ==> GroupNotes(notes)[expId] == Join(ObservationsOf(notes, expId), " ")
  {
    if notes != [] {
      var init := notes[..|notes| - 1];
      GroupNotesJoins(init, expId);
      var obs := ObservationsOf(init, expId);
      var last := notes[|notes| - 1];
      if last.expId == expId {
        var all := obs + [last.observation];
        assert ObservationsOf(notes, expId) == all;
        if obs != [] {
          assert all[..|all| - 1] == obs;
          assert Join(all, " ") == Join(obs, " ") + " " + last.observation;
        } else {
          assert all == [last.observation];
        }
      } else {
        assert ObservationsOf(notes, expId) == obs;
      }
    }
  }

  /** A formulation row with its notes column. */
  datatype MergedRow = MergedRow(form: Formulation, observation: string)

  function MergedForm(r: MergedRow): Formulation { r.form }

  /** The left join of the grouped notes onto the formulations, with missing
      notes filled in as "No notes.". */
  function MergeNotes(forms: seq<Formulation>, notes: seq<Note>): seq<MergedRow>
  {
    var g := GroupNotes(notes);
    seq(|forms|, i requires 0 <= i < |forms| =>
      MergedRow(forms[i], if forms[i].expId in g then g[forms[i].expId] else NoNotes))
  }

  /** Every formulation row appears once, in order, and carries its own
      experiment's joined notes or "No notes.". */
  lemma MergeNotesSpec(forms: seq<Formulation>, notes: seq<Note>)
    ensures Project(MergeNotes(forms, notes), MergedForm) == forms
    ensures forall i :: 0 <= i < |forms| ==>
      var obs := ObservationsOf(notes, forms[i].expId);
      MergeNotes(forms, notes)[i].observation == if obs == [] then NoNotes else Join(obs, " ")
  {
    var merged := MergeNotes(forms, notes);
    forall i | 0 <= i < |forms|
      ensures Project(merged, MergedForm)[i] == forms[i]
      ensures var obs := ObservationsOf(notes, forms[i].expId);
        merged[i].observation == if obs == [] then NoNotes else Join(obs, " ")
    {
      ProjectAt(merged, MergedForm, i);
      GroupNotesJoins(notes, forms[i].expId);
    }
  }

  /** How urgently a formulation needs attention. */
  function Priority(f: Formulation): real
  {
    0.35 * f.irritationRisk + 0.35 * (1.0 - f.stabilityDays / 365.0) + 0.30 * (f.qcFail as real)
  }

  function MergedPriority(r: MergedRow): real { Priority(r.form) }

  function Trace(expId: string): string { "Data row exp_id=" + expId }

  datatype PackRow = PackRow(form: Formulation, observation: string, priority: real, trace: string)

  function PackRowOf(r: MergedRow): PackRow
  {
    PackRow(r.form, r.observation, MergedPriority(r), Trace(r.form.expId))
  }

  function Unpack(p: PackRow): MergedRow { MergedRow(p.form, p.observation) }

  /** `build_evidence_pack`. */
  function BuildEvidencePack(forms: seq<Formulation>, notes: seq<Note>, topN: int): seq<PackRow>
  {
    Project(Head(SortDesc(MergeNotes(forms, notes), MergedPriority), topN), PackRowOf)
  }

  /** The pack holds min(topN, rows) rows, in non-increasing priority, each
      with its own priority and trace. */
  lemma EvidencePackSpec(forms: seq<Formulation>, notes: seq<Note>, topN: int)
    ensures var pack := BuildEvidencePack(forms, notes, topN);
      && (topN >= 0 ==> |pack| == Min(topN, |forms|))
      && (forall i, j :: 0 <= i < j < |pack| ==> pack[i].priority >= pack[j].priority)
      && (forall i :: 0 <= i < |pack| ==>
            pack[i].priority == Priority(pack[i].form) && pack[i].trace == "Data row exp_id=" + pack[i].form.expId)
  {
    var top := Head(SortDesc(MergeNotes(forms, notes), MergedPriority), topN);
    var pack := BuildEvidencePack(forms, notes, topN);
    forall i | 0 <= i < |pack|
      ensures pack[i] == PackRowOf(top[i])
    {
      ProjectAt(top, PackRowOf, i);
    }
  }

  lemma UnpackPackRows(top: seq<MergedRow>)
    ensures Project(Project(top, PackRowOf), Unpack) == top
  {
    var pack := Project(top, PackRowOf);
    forall i | 0 <= i < |top|
      ensures Project(pack, Unpack)[i] == top[i]
    {
      ProjectAt(top, PackRowOf, i);
      ProjectAt(pack, Unpack, i);
    }
  }

  /** The pack is drawn from the merged table, and no merged row left out of
      it is more urgent than the last row kept. */
  lemma EvidencePackKeepsMostUrgent(forms: seq<Formulation>, notes: seq<Note>, topN: int)
    ensures var pack := BuildEvidencePack(forms, notes, topN);
      var merged := MergeNotes(forms, notes);
      && multiset(Project(pack, Unpack)) <= multiset(merged)
      && (|pack| > 0 ==> forall x :: x in multiset(merged) - multiset(Project(pack, Unpack)) ==>
            MergedPriority(x) <= pack[|pack| - 1].priority)
  {
    var merged := MergeNotes(forms, notes);
    var sorted := SortDesc(merged, MergedPriority);
    var top := Head(sorted, topN);
    var pack := BuildEvidencePack(forms, notes, topN);
    UnpackPackRows(top);
    MultisetSplit(sorted, |top|);
    TopOfSortDominates(merged, MergedPriority, topN);
    if |pack| > 0 {
      ProjectAt(top, PackRowOf, |top| - 1);
    }
  }
}
