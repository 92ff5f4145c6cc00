/** How the committee decides: what a proposal starts with, who counts as having approved it, and
    when that is enough. */
module CommitteeTheorems {
  import opened Common
  import opened GovernanceModel
  import opened GovernanceProofs
  import opened GovernanceTheorems

  // ---------------------------------------------------------------- set-up

  lemma ApplyKeeps(g: Gov, op: Op)
    requires GovOk(g)
    ensures GovOk(Apply(g, op))
  {
    if Step(g, op).Ok? {
      StepKeeps(g, op);
    }
  }

  /** The administrator can set a committee up once, and confirm what was set up. */
  lemma SetUpAcceptedIff(g: Gov, caller: Address, signers: seq<Address>, threshold: nat)
    ensures Configure(g, caller, signers, threshold).Ok?
       <==> && caller == g.core.admin && g.core.committee.None? && g.pending.None?
            && 2 <= threshold <= |signers| && forall i, j :: 0 <= i < j < |signers| ==> signers[i] != signers[j]
    ensures Confirm(g, caller).Ok? <==> caller == g.core.admin && g.core.committee.None? && g.pending.Some?
  {
  }

  /** A committee that was set up keeps waiting, whatever is called, until the administrator
      confirms it; then it is the committee. */
  lemma {:induction false} SetUpWaits(g: Gov, ops: seq<Op>)
    requires GovOk(g) && g.pending.Some?
    requires forall i :: 0 <= i < |ops| ==> ops[i] != CallConfirm(g.core.admin)
    ensures GovOk(Run(g, ops)) && Run(g, ops).pending == g.pending && Run(g, ops).core == g.core
  {
    hide GovOk, Apply;
    if ops != [] {
      SetUpWaits(g, ops[..|ops| - 1]);
      WaitingStep(Run(g, ops[..|ops| - 1]), ops[|ops| - 1]);
    }
  }

  lemma WaitingStep(g: Gov, op: Op)
    requires GovOk(g) && g.pending.Some? && op != CallConfirm(g.core.admin)
    ensures GovOk(Apply(g, op)) && Apply(g, op).pending == g.pending && Apply(g, op).core == g.core
  {
    ApplyKeeps(g, op);
    if op.CallExecute? {
      UndecidedIsOpen(g, op.id);
    }
  }

  lemma SetUpTakesEffect(g: Gov, signers: seq<Address>, threshold: nat, ops: seq<Op>)
    requires GovOk(g) && Configure(g, g.core.admin, signers, threshold).Ok?
    requires forall i :: 0 <= i < |ops| ==> ops[i] != CallConfirm(g.core.admin)
    ensures
      var waited := Run(Configure(g, g.core.admin, signers, threshold).value, ops);
      var confirmed := Confirm(waited, g.core.admin);
      && waited.core == g.core && confirmed.Ok? && confirmed.value.pending.None?
      && confirmed.value.core == g.core.(committee := Some(Committee(signers, threshold)))
  {
    StepKeeps(g, CallConfigure(g.core.admin, signers, threshold));
    SetUpWaits(Configure(g, g.core.admin, signers, threshold).value, ops);
  }

  /** In every reachable state parameters and committee are valid. */
  lemma GovernedStateIsValid(admin: Address, params: Parameters, g: Gov)
    requires Reachable(admin, params, g)
    ensures 0 < g.core.params.minGuaranteePercent <= 100 && 0 < g.core.params.largeLoanThreshold
    ensures g.core.committee.Some? ==>
              var c := g.core.committee.value;
              && 2 <= c.threshold <= |c.signers|
              && forall i, j :: 0 <= i < j < |c.signers| ==> c.signers[i] != c.signers[j]
  {
    ReachableOk(admin, params, g);
  }

  // ---------------------------------------------------------------- proposals

  /** A payload that can be proposed. */
  predicate Sensible(a: Action) {
    match a
    case UpdateParameters(p) => 0 < p.minGuaranteePercent <= 100 && 0 < p.largeLoanThreshold
    case UpdateSigners(c) =>
      && 2 <= c.threshold <= |c.signers|
      && forall i, j :: 0 <= i < j < |c.signers| ==> c.signers[i] != c.signers[j]
    case _ => true
  }

  /** A proposal is accepted exactly from a signer, with a sensible payload and room for its
      number and expiry. */
  lemma ProposalAcceptedIff(g: Gov, s: Address, a: Action)
    ensures Propose(g, s, a).Ok?
       <==> && g.core.committee.Some? && s in g.core.committee.value.signers && Sensible(a)
            && g.now + 604_800 <= U64_MAX && g.count < U64_MAX
  {
  }

  /** It starts with its proposer's approval alone, and with the signers of the moment as the
      electorate; nothing else changes. */
  lemma ProposalStartsWithItsProposer(g: Gov, s: Address, a: Action)
    requires GovOk(g) && Step(g, CallPropose(s, a)).Ok?
    ensures g.count !in g.proposals && g.core.committee.Some?
    ensures
      var g' := Step(g, CallPropose(s, a)).value;
      && g.count in g'.proposals && g'.proposals == g.proposals[g.count := g'.proposals[g.count]]
      && var p := g'.proposals[g.count];
         && p.id == g.count && p.action == a && p.proposer == s && p.approvals == [s]
         && p.snapshot == g.core.committee.value.signers
         && p.createdAt == g.now && p.expiresAt == g.now + 604_800 && !p.executed && !p.invalidated
    ensures
      var g' := Step(g, CallPropose(s, a)).value;
      && g' == g.(proposals := g'.proposals, active := g'.active, count := g.count + 1)
      && g'.active == g.active + [g.count]
  {
  }

  /** An approval is accepted exactly once from each signer in the electorate while the proposal is
      undecided. */
  lemma ApprovalAcceptedIff(g: Gov, s: Address, id: nat)
    requires GovOk(g)
    ensures Approve(g, s, id).Ok?
       <==> && Undecided(g, id) && g.core.committee.Some? && s in g.core.committee.value.signers
            && s in g.proposals[id].snapshot && s !in g.proposals[id].approvals
  {
    UndecidedIsOpen(g, id);
  }

  /** When a change of signers goes through, every other change of signers not yet executed is
      voided, and no other proposal; any other execution voids nothing. */
  lemma ExecutionVoids(g: Gov, id: nat, other: nat)
    requires GovOk(g) && Execute(g, id).Ok? && other in g.proposals && other != id
    ensures id in g.proposals && other in Execute(g, id).value.proposals
    ensures
      var p, p' := g.proposals[other], Execute(g, id).value.proposals[other];
      && p' == p.(invalidated := p'.invalidated)
      && (p'.invalidated <==>
            p.invalidated || (g.proposals[id].action.UpdateSigners? && p.action.UpdateSigners? && !p.executed))
    ensures Execute(g, id).value.proposals[id] == g.proposals[id].(executed := true)
  {
    assert g.active[other] == other;
  }

  // ---------------------------------------------------------------- who approved

  /** The signers whose approvals of proposal `id` a run accepts, in order. */
  function Approvers(g: Gov, ops: seq<Op>, id: nat): seq<Address> {
    if ops == [] then []
    else
      var front, op := ops[..|ops| - 1], ops[|ops| - 1];
      Approvers(g, front, id)
      + if op.CallApprove? && op.id == id && Step(Run(g, front), op).Ok? then [op.signer] else []
  }

  lemma ApplyApproves(g: Gov, op: Op, id: nat)
    requires GovOk(g) && id in g.proposals
    ensures id in Apply(g, op).proposals
    ensures
      var p, p' := g.proposals[id], Apply(g, op).proposals[id];
      && p' == p.(approvals := p'.approvals, executed := p'.executed, invalidated := p'.invalidated)
      && p'.approvals == p.approvals + (if op.CallApprove? && op.id == id && Step(g, op).Ok? then [op.signer] else [])
      && (p.executed ==> p'.executed) && (p.invalidated ==> p'.invalidated)
    ensures g.now <= Apply(g, op).now
  {
    hide ValidateAction;
  }

  /** A proposal's approvals are those it had and then the accepted approvals, in order; what it is
      about never changes. */
  lemma {:induction false} ApprovalsAreTheVotes(g: Gov, ops: seq<Op>, id: nat)
    requires GovOk(g) && id in g.proposals
    ensures GovOk(Run(g, ops)) && id in Run(g, ops).proposals && g.now <= Run(g, ops).now
    ensures
      var p, p' := g.proposals[id], Run(g, ops).proposals[id];
      && p'.approvals == p.approvals + Approvers(g, ops, id)
      && p' == p.(approvals := p'.approvals, executed := p'.executed, invalidated := p'.invalidated)
      && (p.executed ==> p'.executed) && (p.invalidated ==> p'.invalidated)
  {
    hide GovOk, Apply, Step;
    if ops != [] {
      var front, op := ops[..|ops| - 1], ops[|ops| - 1];
      ApprovalsAreTheVotes(g, front, id);
      ApplyApproves(Run(g, front), op, id);
      ApplyKeeps(Run(g, front), op);
    }
  }

  // ---------------------------------------------------------------- when it is enough

  /** The committee is the same at every point of the run. */
  ghost predicate SameCommittee(g: Gov, ops: seq<Op>) {
    forall k {:trigger ops[..k]} :: 0 <= k <= |ops| ==> Run(g, ops[..k]).core.committee == g.core.committee
  }

  predicate CallsToApprove(ops: seq<Op>, id: nat, a: Address) {
    CallApprove(a, id) in ops
  }

  /** The proposer and the signers that have called to approve. */
  function Voters(proposer: Address, signers: seq<Address>, ops: seq<Op>, id: nat): set<Address> {
    {proposer} + set a | a in signers && CallsToApprove(ops, id, a)
  }

  function Members(s: seq<Address>): set<Address> {
    set a | a in s
  }

  lemma {:induction false} DistinctCount(s: seq<Address>)
    requires Distinct(s)
    ensures |Members(s)| == |s|
  {
    if s != [] {
      var front, last := s[..|s| - 1], s[|s| - 1];
      DistinctCount(front);
      assert last !in front;
      assert Members(s) == Members(front) + {last};
    }
  }

  lemma VoteCounts(g: Gov, op: Op, id: nat)
    requires GovOk(g) && op.CallApprove? && op.id == id && Undecided(g, id)
    requires g.core.committee.Some? && g.proposals[id].snapshot == g.core.committee.value.signers
    ensures id in Apply(g, op).proposals
    ensures op.signer in Apply(g, op).proposals[id].approvals
       <==> op.signer in g.proposals[id].approvals || op.signer in g.core.committee.value.signers
  {
    ApprovalAcceptedIff(g, op.signer, id);
    ApplyApproves(g, op, id);
  }

  /** While the committee stays the same and the proposal undecided, exactly the members who called
      to approve it, and those who had, have approved it. */
  lemma {:induction false} VotesAreCounted(g: Gov, ops: seq<Op>, id: nat, a: Address)
    requires GovOk(g) && id in g.proposals && g.core.committee.Some?
    requires g.proposals[id].snapshot == g.core.committee.value.signers
    requires SameCommittee(g, ops) && id in Run(g, ops).proposals && Undecided(Run(g, ops), id)
    ensures a in Run(g, ops).proposals[id].approvals
       <==> a in g.proposals[id].approvals || (a in g.core.committee.value.signers && CallsToApprove(ops, id, a))
  {
    hide GovOk, Apply, Step;
    if ops != [] {
      var front, op := ops[..|ops| - 1], ops[|ops| - 1];
      assert ops == front + [op];
      SameCommitteeBefore(g, ops);
      ApprovalsAreTheVotes(g, front, id);
      ApplyApproves(Run(g, front), op, id);
      VotesAreCounted(g, front, id, a);
      if op.CallApprove? && op.id == id {
        VoteCounts(Run(g, front), op, id);
      }
    }
  }

  lemma SameCommitteeBefore(g: Gov, ops: seq<Op>)
    requires ops != [] && SameCommittee(g, ops)
    ensures SameCommittee(g, ops[..|ops| - 1]) && Run(g, ops[..|ops| - 1]).core.committee == g.core.committee
  {
    var front := ops[..|ops| - 1];
    forall k | 0 <= k <= |front|
      ensures Run(g, front[..k]).core.committee == g.core.committee
    {
      assert front[..k] == ops[..k];
    }
    assert front[..|front|] == front;
  }

  /** Whatever happens after it was proposed: as long as the committee stays the same and the
      proposal undecided, it can be executed exactly if the proposer and the other members who have
      called to approve it are as many as the action needs. */
  lemma VotersDecide(admin: Address, params: Parameters, g: Gov, s: Address, a: Action, ops: seq<Op>)
    requires Reachable(admin, params, g) && Step(g, CallPropose(s, a)).Ok?
    requires SameCommittee(Step(g, CallPropose(s, a)).value, ops)
    requires Undecided(Run(Step(g, CallPropose(s, a)).value, ops), g.count)
    ensures g.core.committee.Some?
    ensures Execute(Run(Step(g, CallPropose(s, a)).value, ops), g.count).Ok?
       <==> |Voters(s, g.core.committee.value.signers, ops, g.count)| >= VotesNeeded(g.core.committee.value, a)
  {
    hide Step, Run, GovOk;
    ReachableOk(admin, params, g);
    ProposalStartsWithItsProposer(g, s, a);
    ReachableStep(admin, params, g, CallPropose(s, a));
    var g1, id, c := Step(g, CallPropose(s, a)).value, g.count, g.core.committee.value;
    AfterRun(admin, params, g1, ops, id, c);
    var g2 := Run(g1, ops);
    forall x
      ensures x in g2.proposals[id].approvals <==> x in Voters(s, c.signers, ops, id)
    {
      VotesAreCounted(g1, ops, id, x);
    }
    assert Members(g2.proposals[id].approvals) == Voters(s, c.signers, ops, id);
    DistinctCount(g2.proposals[id].approvals);
    ExecutesIff(admin, params, g2, id);
  }

  lemma AfterRun(admin: Address, params: Parameters, g: Gov, ops: seq<Op>, id: nat, c: Committee)
    requires Reachable(admin, params, g) && id in g.proposals && g.core.committee == Some(c)
    requires SameCommittee(g, ops)
    ensures GovOk(g) && Reachable(admin, params, Run(g, ops)) && Run(g, ops).core.committee == Some(c)
    ensures id in Run(g, ops).proposals && Distinct(Run(g, ops).proposals[id].approvals)
    ensures Run(g, ops).proposals[id].action == g.proposals[id].action
    ensures Run(g, ops).proposals[id].snapshot == g.proposals[id].snapshot
    ensures forall a :: a in Run(g, ops).proposals[id].approvals ==> a in g.proposals[id].snapshot
  {
    ReachableOk(admin, params, g);
    ReachableRun(admin, params, g, ops);
    ApprovalsAreTheVotes(g, ops, id);
    assert ops[..|ops|] == ops;
    assert ProposalOk(Run(g, ops).proposals[id], id, c.signers, Run(g, ops).now);
  }

  lemma {:induction false} ReachableRun(admin: Address, params: Parameters, g: Gov, ops: seq<Op>)
    requires Reachable(admin, params, g)
    ensures Reachable(admin, params, Run(g, ops))
  {
    hide Reachable, Apply;
    if ops != [] {
      ReachableRun(admin, params, g, ops[..|ops| - 1]);
      ReachableStep(admin, params, Run(g, ops[..|ops| - 1]), ops[|ops| - 1]);
    }
  }

  /** In particular: enough other signers approving one after another carry a proposal. */
  lemma BallotPasses(admin: Address, params: Parameters, g: Gov, s: Address, a: Action, others: seq<Address>)
    requires Reachable(admin, params, g) && Step(g, CallPropose(s, a)).Ok?
    requires g.core.committee.Some? && Distinct([s] + others)
    requires forall x :: x in others ==> x in g.core.committee.value.signers
    requires 1 + |others| >= VotesNeeded(g.core.committee.value, a)
    ensures Execute(Run(Step(g, CallPropose(s, a)).value, Ballot(others, g.count)), g.count).Ok?
  {
    hide Step, Run, Execute, Reachable;
    ReachableOk(admin, params, g);
    ProposalStartsWithItsProposer(g, s, a);
    ReachableStep(admin, params, g, CallPropose(s, a));
    var g1, id := Step(g, CallPropose(s, a)).value, g.count;
    ReachableOk(admin, params, g1);
    UndecidedIsOpen(g1, id);
    BallotCollects(admin, params, g1, id, others);
    var g2 := Run(g1, Ballot(others, id));
    ReachableOk(admin, params, g2);
    UndecidedIsOpen(g2, id);
    DistinctCover([s] + others, g2.proposals[id].approvals);
    ExecutesIff(admin, params, g2, id);
  }

  // ---------------------------------------------------------------- refusals

  /** What is wrong with a call, by the error it is refused with. */
  ghost predicate Fault(g: Gov, op: Op, e: Error) {
    match e
    case NotAuthorized => (op.CallConfigure? || op.CallConfirm?) && op.caller != g.core.admin
    case MultisigAlreadyConfigured => g.core.committee.Some? || g.pending.Some?
    case MultisigNotConfigured => g.core.committee.None?
    case NotSigner =>
      && g.core.committee.Some? && (op.CallPropose? || op.CallApprove?)
      && (if op.CallPropose? then op.proposer else op.signer) !in g.core.committee.value.signers
    case ProposalNotFound => About(op) && op.id !in g.proposals
    case ProposalAlreadyExecuted => About(op) && op.id in g.proposals && g.proposals[op.id].executed
    case ProposalInvalidated => About(op) && op.id in g.proposals && g.proposals[op.id].invalidated
    case ProposalExpired => About(op) && op.id in g.proposals && g.proposals[op.id].createdAt + 604_800 < g.now
    case DuplicateSignature => op.CallApprove? && op.id in g.proposals && op.signer in g.proposals[op.id].approvals
    case ThresholdNotMet =>
      && op.CallExecute? && op.id in g.proposals && g.core.committee.Some?
      && |g.proposals[op.id].approvals| < VotesNeeded(g.core.committee.value, g.proposals[op.id].action)
    case ApproverNotEligible =>
      && About(op) && op.id in g.proposals && g.core.committee.Some?
      && (op.CallApprove? ==> op.signer !in g.proposals[op.id].snapshot)
      && (op.CallExecute? ==> !Eligible(g.core.committee.value, g.proposals[op.id]))
    case InvalidParameters => op.CallPropose? && !Sensible(op.action)
    case InvalidThreshold => op.CallConfigure? || (op.CallPropose? && !Sensible(op.action))
    case DuplicateSigner => op.CallConfigure? || (op.CallPropose? && !Sensible(op.action))
    case ClockReversed => op.Advance?
    case _ => e == Overflow && op.CallPropose?
  }

  predicate About(op: Op) {
    op.CallApprove? || op.CallExecute?
  }

  lemma OpenErrors(g: Gov, op: Op)
    requires GovOk(g) && About(op) && OpenProposal(g, op.id).Err?
    ensures Fault(g, op, OpenProposal(g, op.id).error)
  {
    hide VotesNeeded, Eligible;
    if op.id in g.proposals {
      assert ProposalOk(g.proposals[op.id], op.id, g.core.committee.value.signers, g.now);
    }
  }

  lemma ApprovalErrors(g: Gov, op: Op)
    requires GovOk(g) && op.CallApprove? && Step(g, op).Err?
    ensures Fault(g, op, Step(g, op).error)
  {
    hide VotesNeeded, Eligible, GovOk, OpenProposal;
    UndecidedIsOpen(g, op.id);
    if OpenProposal(g, op.id).Err? {
      OpenErrors(g, op);
    }
  }

  lemma ExecutionErrors(g: Gov, op: Op)
    requires GovOk(g) && op.CallExecute? && Step(g, op).Err?
    ensures Fault(g, op, Step(g, op).error)
  {
    hide VotesNeeded, Eligible, Quorum, OpenProposal;
    UndecidedIsOpen(g, op.id);
    if OpenProposal(g, op.id).Err? {
      OpenErrors(g, op);
    } else {
      QuorumIsWithinReach(g.core.committee.value, g.proposals[op.id].action);
    }
  }

  /** Whatever error a call returns, what it says is the case. */
  lemma ErrorsAreTrue(g: Gov, op: Op)
    requires GovOk(g) && Step(g, op).Err?
    ensures Fault(g, op, Step(g, op).error)
  {
    hide VotesNeeded, Eligible, GovOk, OpenProposal;
    if op.CallApprove? {
      ApprovalErrors(g, op);
    } else if op.CallExecute? {
      ExecutionErrors(g, op);
    }
  }
}
