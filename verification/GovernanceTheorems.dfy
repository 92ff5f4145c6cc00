/** Governance over every run from deployment: nothing is governed but by the committee, and the
    committee can always decide. */
module GovernanceTheorems {
  import opened Common
  import opened GovernanceModel
  import opened GovernanceProofs

  lemma {:induction false} RunKeeps(origin: Core, g: Gov, ops: seq<Op>)
    requires GovOk(g) && LogOk(origin, g)
    ensures GovOk(Run(g, ops)) && LogOk(origin, Run(g, ops))
  {
    if ops != [] {
      var before, op := Run(g, ops[..|ops| - 1]), ops[|ops| - 1];
      RunKeeps(origin, g, ops[..|ops| - 1]);
      if Step(before, op).Ok? {
        StepKeeps(before, op);
        StepKeepsLog(origin, before, op);
      }
    }
  }

  /** A state some run reaches from a deployment with valid parameters. */
  ghost predicate Reachable(admin: Address, params: Parameters, g: Gov) {
    ParametersOk(params) && exists now: nat, ops: seq<Op> :: g == Run(Deployed(admin, params, now), ops)
  }

  function Origin(admin: Address, params: Parameters): Core {
    Core(admin, params, None, 1)
  }

  lemma DeployedReachable(admin: Address, params: Parameters, now: nat)
    requires ParametersOk(params)
    ensures Reachable(admin, params, Deployed(admin, params, now))
  {
    assert Deployed(admin, params, now) == Run(Deployed(admin, params, now), []);
  }

  lemma ReachableOk(admin: Address, params: Parameters, g: Gov)
    requires Reachable(admin, params, g)
    ensures GovOk(g) && LogOk(Origin(admin, params), g)
  {
    var now: nat, ops: seq<Op> :| g == Run(Deployed(admin, params, now), ops);
    DeployedOk(admin, params, now);
    RunKeeps(Origin(admin, params), Deployed(admin, params, now), ops);
  }

  // ---------------------------------------------------------------- accounted for

  /** Administrator, parameters, committee and version are what the confirmation and the executed
      proposals, in order, make of the deployed ones. */
  lemma GovernedStateIsAccountedFor(admin: Address, params: Parameters, g: Gov)
    requires Reachable(admin, params, g)
    ensures g.core == Fold(Origin(admin, params), g.log)
  {
    ReachableOk(admin, params, g);
  }

  /** The governed state stays valid at every point of the log. */
  lemma {:induction false} FoldKeepsValid(core: Core, log: seq<Event>)
    requires ParametersOk(core.params) && (core.committee.Some? ==> CommitteeOk(core.committee.value))
    requires forall i :: 0 <= i < |log| ==> EventOk(log[i])
    ensures
      var after := Fold(core, log);
      ParametersOk(after.params) && (after.committee.Some? ==> CommitteeOk(after.committee.value))
  {
    if log != [] {
      FoldKeepsValid(core, log[..|log| - 1]);
      assert EventOk(log[|log| - 1]);
    }
  }

  /** Every execution carried out a proposal within its lifetime, with at least the quorum of
      distinct approvers, all of them in its snapshot and in the committee of that moment. */
  lemma EveryExecutionWasApproved(admin: Address, params: Parameters, g: Gov, i: nat)
    requires Reachable(admin, params, g) && i < |g.log| && g.log[i].Executed?
    ensures g.log[i].id in g.proposals
    ensures
      var p := g.proposals[g.log[i].id];
      var committee := Fold(Origin(admin, params), g.log[..i]).committee;
      && p.executed && p.action == g.log[i].action
      && p.createdAt <= g.log[i].at <= p.createdAt + 604_800
      && committee.Some? && CommitteeOk(committee.value)
      && Distinct(p.approvals) && |p.approvals| >= Quorum(committee.value, p.action) >= 2
      && (forall a :: a in p.approvals ==> a in p.snapshot && a in committee.value.signers)
  {
    ReachableOk(admin, params, g);
    assert EntryOk(Origin(admin, params), g, i);
    FoldKeepsValid(Origin(admin, params), g.log[..i]);
  }

  /** No proposal is executed twice, and those marked executed are exactly those in the log. */
  lemma ExecutedExactlyOnce(admin: Address, params: Parameters, g: Gov, id: nat)
    requires Reachable(admin, params, g) && id in g.proposals
    ensures g.proposals[id].executed <==> exists i :: 0 <= i < |g.log| && g.log[i].Executed? && g.log[i].id == id
    ensures forall i, j :: 0 <= i < j < |g.log| && g.log[i].Executed? && g.log[j].Executed? ==>
                             !(g.log[i].id == g.log[j].id == id)
  {
    ReachableOk(admin, params, g);
    if i :| 0 <= i < |g.log| && g.log[i].Executed? && g.log[i].id == id {
      assert EntryOk(Origin(admin, params), g, i);
    }
  }

  /** The administrator alone decides once: the first event sets the committee up, and every later
      one is an execution. */
  lemma AdministratorActsOnce(admin: Address, params: Parameters, g: Gov, i: nat)
    requires Reachable(admin, params, g) && i < |g.log|
    ensures g.log[i].Confirmed? <==> i == 0
    ensures g.core.committee.Some? && g.pending.None?
  {
    ReachableOk(admin, params, g);
  }

  // ---------------------------------------------------------------- signer-set changes

  /** A change of signers that can still go through was proposed under the current signers; no
      proposal is both executed and voided. */
  lemma SignerChangesAreFresh(admin: Address, params: Parameters, g: Gov, id: nat)
    requires Reachable(admin, params, g) && id in g.proposals
    ensures g.core.committee.Some?
    ensures Stale(g.proposals[id]) ==> g.proposals[id].snapshot == g.core.committee.value.signers
    ensures !(g.proposals[id].executed && g.proposals[id].invalidated)
  {
    ReachableOk(admin, params, g);
    assert ProposalOk(g.proposals[id], id, g.core.committee.value.signers, g.now);
  }

  /** The votes an action needs: the threshold, and one more to change the signers, up to all. */
  function VotesNeeded(c: Committee, a: Action): nat {
    if !a.UpdateSigners? then c.threshold
    else if c.threshold >= 4_294_967_295 || c.threshold >= |c.signers| then |c.signers|
    else c.threshold + 1
  }

  /** The quorum is that number, a real hurdle within reach: at least two, at most everyone. */
  lemma QuorumIsWithinReach(c: Committee, a: Action)
    requires CommitteeOk(c)
    ensures 2 <= Quorum(c, a) == VotesNeeded(c, a) <= |c.signers|
  {
  }

  /** A proposal that can still be decided: neither executed nor voided, and at most seven days old. */
  predicate Undecided(g: Gov, id: nat) {
    && id in g.proposals && !g.proposals[id].executed && !g.proposals[id].invalidated
    && g.now <= g.proposals[id].createdAt + 604_800
  }

  lemma UndecidedIsOpen(g: Gov, id: nat)
    requires GovOk(g)
    ensures OpenProposal(g, id).Ok? <==> Undecided(g, id)
    ensures Undecided(g, id) ==>
              && g.core.committee.Some? && OpenProposal(g, id) == Ok(g.proposals[id])
              && ProposalOk(g.proposals[id], id, g.core.committee.value.signers, g.now)
  {
    if id in g.proposals {
      assert ProposalOk(g.proposals[id], id, g.core.committee.value.signers, g.now);
    }
  }

  /** What decides an execution in a reachable state. Validating the payload again never refuses
      it, and for a change of signers no approver can have become ineligible. */
  lemma ExecutesIff(admin: Address, params: Parameters, g: Gov, id: nat)
    requires Reachable(admin, params, g)
    ensures Undecided(g, id) ==> g.core.committee.Some?
    ensures Execute(g, id).Ok?
       <==> && Undecided(g, id)
            && |g.proposals[id].approvals| >= VotesNeeded(g.core.committee.value, g.proposals[id].action)
            && (!g.proposals[id].action.UpdateSigners? ==>
                  forall a :: a in g.proposals[id].approvals ==> a in g.core.committee.value.signers)
  {
    hide OpenProposal;
    ReachableOk(admin, params, g);
    UndecidedIsOpen(g, id);
  }

  // ---------------------------------------------------------------- the committee can decide

  /** Every listed signer approves, in turn. */
  function Ballot(signers: seq<Address>, id: nat): seq<Op> {
    if signers == [] then []
    else Ballot(signers[..|signers| - 1], id) + [CallApprove(signers[|signers| - 1], id)]
  }

  /** Distinct elements that all occur in `t` are no more than `t` has. */
  lemma {:induction false} DistinctCover(s: seq<Address>, t: seq<Address>)
    requires Distinct(s) && forall a :: a in s ==> a in t
    ensures |s| <= |t|
  {
    if s != [] {
      var last := s[|s| - 1];
      assert last in s;
      var k :| 0 <= k < |t| && t[k] == last;
      var rest := t[..k] + t[k + 1..];
      forall a | a in s[..|s| - 1]
        ensures a in rest
      {
        assert a in s;
        var j :| 0 <= j < |t| && t[j] == a;
        assert a == if j < k then rest[j] else rest[j - 1];
      }
      DistinctCover(s[..|s| - 1], rest);
    }
  }

  lemma ReachableStep(admin: Address, params: Parameters, g: Gov, op: Op)
    requires Reachable(admin, params, g)
    ensures Reachable(admin, params, Apply(g, op))
  {
    var now: nat, ops: seq<Op> :| g == Run(Deployed(admin, params, now), ops);
    assert (ops + [op])[..|ops|] == ops;
    assert Run(Deployed(admin, params, now), ops + [op]) == Apply(g, op);
  }

  /** `g'` is `g` but for approvals of proposal `id`, of which none was lost. */
  predicate OnlyGathers(g: Gov, g': Gov, id: nat)
    requires id in g.proposals
  {
    && g'.core == g.core && g'.now == g.now && id in g'.proposals
    && g'.proposals[id] == g.proposals[id].(approvals := g'.proposals[id].approvals)
    && (forall a :: a in g.proposals[id].approvals ==> a in g'.proposals[id].approvals)
  }

  lemma ApprovalCounts(g: Gov, id: nat, signer: Address)
    requires OpenProposal(g, id).Ok? && CommitteeOf(g, signer).Ok? && signer in g.proposals[id].snapshot
    ensures OnlyGathers(g, Apply(g, CallApprove(signer, id)), id)
    ensures signer in Apply(g, CallApprove(signer, id)).proposals[id].approvals
  {
    var p := g.proposals[id];
    if signer !in p.approvals {
      assert (p.approvals + [signer])[|p.approvals|] == signer;
    }
  }

  /** A ballot among signers who are in the snapshot collects all their approvals. */
  lemma {:induction false} BallotCollects(admin: Address, params: Parameters, g: Gov, id: nat, signers: seq<Address>)
    requires Reachable(admin, params, g) && OpenProposal(g, id).Ok? && g.core.committee.Some?
    requires forall a :: a in signers ==> a in g.core.committee.value.signers && a in g.proposals[id].snapshot
    ensures Reachable(admin, params, Run(g, Ballot(signers, id))) && OnlyGathers(g, Run(g, Ballot(signers, id)), id)
    ensures forall a :: a in signers ==> a in Run(g, Ballot(signers, id)).proposals[id].approvals
  {
    if signers != [] {
      var others, last := signers[..|signers| - 1], signers[|signers| - 1];
      forall a | a in others
        ensures a in signers
      {
      }
      assert last in signers;
      BallotCollects(admin, params, g, id, others);
      var ops := Ballot(signers, id);
      assert ops[..|ops| - 1] == Ballot(others, id) && ops[|ops| - 1] == CallApprove(last, id);
      var before := Run(g, Ballot(others, id));
      ReachableStep(admin, params, before, CallApprove(last, id));
      ApprovalCounts(before, id, last);
      forall a | a in signers
        ensures a in Run(g, ops).proposals[id].approvals
      {
        assert a in others || a == last;
      }
    }
  }

  /** A fresh change of signers always goes through when the whole committee wants it: after
      everyone has been called to approve, in whatever state of approval it was, it executes. */
  lemma CommitteeCanChangeItself(admin: Address, params: Parameters, g: Gov, id: nat)
    requires Reachable(admin, params, g) && Undecided(g, id) && g.proposals[id].action.UpdateSigners?
    ensures g.core.committee.Some?
    ensures Execute(Run(g, Ballot(g.core.committee.value.signers, id)), id).Ok?
  {
    SignerChangesAreFresh(admin, params, g, id);
    var signers := g.core.committee.value.signers;
    ReachableOk(admin, params, g);
    UndecidedIsOpen(g, id);
    BallotCollects(admin, params, g, id, signers);
    var g' := Run(g, Ballot(signers, id));
    DistinctCover(signers, g'.proposals[id].approvals);
    ExecutesIff(admin, params, g', id);
  }

  function Upgrades(log: seq<Event>): nat {
    if log == [] then 0
    else
      var last := log[|log| - 1];
      Upgrades(log[..|log| - 1]) + if last.Executed? && last.action.Upgrade? then 1 else 0
  }

  /** The version counts the executed upgrades, until 32 bits are full. */
  lemma {:induction false} VersionCountsUpgrades(core: Core, log: seq<Event>)
    requires core.version <= U32_MAX
    ensures Fold(core, log).version == Min(core.version + Upgrades(log), U32_MAX)
  {
    if log != [] {
      VersionCountsUpgrades(core, log[..|log| - 1]);
    }
  }
}
