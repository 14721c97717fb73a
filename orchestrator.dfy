/** Policy re-ranking of a proposal table: a named policy selects one of
    three weight vectors, every row gets a policy score, and the rows come
    back in descending score. The caller's table is a value here, so the
    copy the source makes before adding its column is implicit. */
module Orchestrator {
  import opened Frames
  import opened Agents

  /** Weights of permeability, stability, irritation and fail probability. */
  datatype Weights = Weights(perm: real, stab: real, irr: real, fail: real)

  const Balanced := Weights(0.45, 0.35, 0.15, 0.20)
  const SpeedToClinic := Weights(0.60, 0.20, 0.10, 0.25)
  const LowRisk := Weights(0.30, 0.55, 0.15, 0.30)

  /** The weight lookup; any name other than the two special ones falls back
      to the balanced weights. */
  function PolicyWeights(policy: string): (w: Weights)
    ensures w == SpeedToClinic || w == LowRisk || w == Balanced
    ensures w == SpeedToClinic <==> policy == "speed_to_clinic"
    ensures w == LowRisk <==> policy == "low_risk"
    ensures 0.0 < w.perm && 0.0 < w.stab && 0.0 < w.irr && 0.0 < w.fail
  {
    if policy == "speed_to_clinic" then SpeedToClinic
    else if policy == "low_risk" then LowRisk
    else Balanced
  }

  function PolicyScore(w: Weights, r: Scored): real
  {
    w.perm * (r.predPermeability / 100.0) + w.stab * (r.predStability / 365.0)
      - w.irr * r.predIrritation - w.fail * r.predQcFailProb
  }

  /** A proposal row with its policy-score column. */
  datatype PolicyRanked = PolicyRanked(proposal: Proposal, policyScore: real)

  function RankedScore(r: PolicyRanked): real { r.policyScore }

  function RankedProposal(r: PolicyRanked): Proposal { r.proposal }

  function RankedId(r: PolicyRanked): string { r.proposal.proposalId }

  function ProposalIdOf(p: Proposal): string { p.proposalId }

  function Annotate(proposals: seq<Proposal>, w: Weights): (r: seq<PolicyRanked>)
    ensures |r| == |proposals|
    ensures forall i :: 0 <= i < |r| ==>
      r[i] == PolicyRanked(proposals[i], PolicyScore(w, proposals[i].scored))
  {
    seq(|proposals|, i requires 0 <= i < |proposals| =>
      PolicyRanked(proposals[i], PolicyScore(w, proposals[i].scored)))
  }

  /** `orchestrate`. */
  function Orchestrate(proposals: seq<Proposal>, policy: string): seq<PolicyRanked>
  {
    SortDesc(Annotate(proposals, PolicyWeights(policy)), RankedScore)
  }

  /** Balanced weights score a row exactly as the proposal utility does. */
  lemma BalancedIsUtility(r: Scored)
    ensures PolicyScore(Balanced, r) == Utility(r)
  {
  }

  /** The output is the input rows, rearranged, each with its own score. */
  lemma OrchestratePermutes(proposals: seq<Proposal>, policy: string)
    ensures var r := Orchestrate(proposals, policy);
      && |r| == |proposals|
      && multiset(Project(r, RankedProposal)) == multiset(proposals)
      && (forall i :: 0 <= i < |r| ==>
            r[i].proposal in proposals && r[i].policyScore == PolicyScore(PolicyWeights(policy), r[i].proposal.scored))
  {
    var a := Annotate(proposals, PolicyWeights(policy));
    var r := Orchestrate(proposals, policy);
    ProjectPermutation(r, a, RankedProposal);
    forall i | 0 <= i < |a|
      ensures Project(a, RankedProposal)[i] == proposals[i]
    {
      ProjectAt(a, RankedProposal, i);
    }
    assert Project(a, RankedProposal) == proposals;
    forall i | 0 <= i < |r|
      ensures r[i].proposal in proposals
      ensures r[i].policyScore == PolicyScore(PolicyWeights(policy), r[i].proposal.scored)
    {
      assert r[i] in multiset(a);
      var j :| 0 <= j < |a| && a[j] == r[i];
    }
  }

  /** The output is in non-increasing policy score. */
  lemma OrchestrateOrdered(proposals: seq<Proposal>, policy: string)
    ensures var r := Orchestrate(proposals, policy);
      forall i, j :: 0 <= i < j < |r| ==> r[i].policyScore >= r[j].policyScore
  {
    var r := Orchestrate(proposals, policy);
    forall i, j | 0 <= i < j < |r|
      ensures r[i].policyScore >= r[j].policyScore
    {
      assert RankedScore(r[i]) >= RankedScore(r[j]);
    }
  }

  /** Under "balanced" or any unrecognised name, each row's policy score is
      the utility that the proposal pipeline computed for it. */
  lemma FallbackScoresAsUtility(proposals: seq<Proposal>, policy: string)
    requires policy != "speed_to_clinic" && policy != "low_risk"
    requires forall i :: 0 <= i < |proposals| ==> proposals[i].utility == Utility(proposals[i].scored)
    ensures var r := Orchestrate(proposals, policy);
      forall i :: 0 <= i < |r| ==> r[i].policyScore == r[i].proposal.utility
  {
    var r := Orchestrate(proposals, policy);
    OrchestratePermutes(proposals, policy);
    forall i | 0 <= i < |r|
      ensures r[i].policyScore == r[i].proposal.utility
    {
      BalancedIsUtility(r[i].proposal.scored);
    }
  }

  /** Re-ranking one proposal table under two policies yields the same ids
      with the same multiplicities; the first ranking leaves the table the
      second one reads unchanged. */
  lemma TwoPoliciesSameIds(proposals: seq<Proposal>, policyA: string, policyB: string)
    ensures multiset(Project(Orchestrate(proposals, policyA), RankedId))
         == multiset(Project(Orchestrate(proposals, policyB), RankedId))
  {
    SameIdsAsInput(proposals, policyA);
    SameIdsAsInput(proposals, policyB);
  }

  /** Re-ranking keeps exactly the input's proposal ids. */
  lemma SameIdsAsInput(proposals: seq<Proposal>, policy: string)
    ensures multiset(Project(Orchestrate(proposals, policy), RankedId)) == multiset(Project(proposals, ProposalIdOf))
  {
    var a := Annotate(proposals, PolicyWeights(policy));
    var r := Orchestrate(proposals, policy);
    ProjectPermutation(r, a, RankedId);
    forall i | 0 <= i < |a|
      ensures Project(a, RankedId)[i] == Project(proposals, ProposalIdOf)[i]
    {
      ProjectAt(a, RankedId, i);
      ProjectAt(proposals, ProposalIdOf, i);
    }
    assert Project(a, RankedId) == Project(proposals, ProposalIdOf);
  }

  /** Re-ranking the agent's own proposals under "balanced" (or any
      unrecognised name) leaves their order unchanged when their utilities
      are pairwise distinct. */
  lemma FallbackKeepsStrictRanking(proposals: seq<Proposal>, policy: string)
    requires policy != "speed_to_clinic" && policy != "low_risk"
    requires forall i :: 0 <= i < |proposals| ==> proposals[i].utility == Utility(proposals[i].scored)
    requires forall i, j :: 0 <= i < j < |proposals| ==> proposals[i].utility > proposals[j].utility
    ensures var r := Orchestrate(proposals, policy);
      |r| == |proposals| && forall i :: 0 <= i < |r| ==> r[i].proposal == proposals[i]
  {
    var a := Annotate(proposals, PolicyWeights(policy));
    forall i | 0 <= i < |a|
      ensures RankedScore(a[i]) == proposals[i].utility
    {
      BalancedIsUtility(proposals[i].scored);
    }
    SortedDescUnique(a, SortDesc(a, RankedScore), RankedScore);
  }
}
