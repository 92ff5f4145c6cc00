/** What holds of governance over every run. */
module GovernanceProofs {
  import opened Common
  import opened GovernanceModel

  // ---------------------------------------------------------------- the invariant

  predicate CommitteeOk(c: Committee) {
    2 <= c.threshold <= |c.signers| && Distinct(c.signers)
  }

  predicate ActionOk(a: Action) {
    (a.UpdateParameters? ==> ParametersOk(a.params)) && (a.UpdateSigners? ==> CommitteeOk(a.committee))
  }

  /** A stored proposal, against the signers of the current committee. */
  predicate ProposalOk(p: Proposal, id: nat, signers: seq<Address>, now: nat) {
    && p.id == id && ActionOk(p.action)
    && Distinct(p.approvals) && (forall a :: a in p.approvals ==> a in p.snapshot)
    && p.createdAt <= now && p.expiresAt == p.createdAt + PROPOSAL_TTL
    && !(p.executed && p.invalidated)
    && (Stale(p) ==> p.snapshot == signers)
  }

  ghost predicate GovOk(g: Gov) {
    && ParametersOk(g.core.params) && g.core.version <= U32_MAX
    && (g.pending.Some? ==> CommitteeOk(g.pending.value) && g.core.committee.None?)
    && (g.core.committee.Some? ==> CommitteeOk(g.core.committee.value))
    && (g.core.committee.None? ==> g.count == 0 && g.log == [])
    && (g.core.committee.Some? ==> g.log != [])
    && |g.active| == g.count && (forall i :: 0 <= i < g.count ==> g.active[i] == i)
    && (forall id: nat :: id in g.proposals <==> id < g.count)
    && (forall id :: id in g.proposals && g.core.committee.Some? ==>
          ProposalOk(g.proposals[id], id, g.core.committee.value.signers, g.now))
  }

  /** What justified an executed event: the proposal it carried out, and the committee that the
      events before it had put in place. */
  ghost predicate Justified(origin: Core, log: seq<Event>, i: nat, p: Proposal)
    requires i < |log| && log[i].Executed?
  {
    var committee := Fold(origin, log[..i]).committee;
    && p.executed && p.action == log[i].action
    && p.createdAt <= log[i].at <= p.createdAt + PROPOSAL_TTL
    && committee.Some? && Distinct(p.approvals) && |p.approvals| >= Quorum(committee.value, p.action)
    && (forall a :: a in p.approvals ==> a in p.snapshot && a in committee.value.signers)
  }

  ghost predicate EntryOk(origin: Core, g: Gov, i: nat)
    requires i < |g.log|
  {
    g.log[i].Executed? ==> g.log[i].id in g.proposals && Justified(origin, g.log, i, g.proposals[g.log[i].id])
  }

  /** An event as only a validated call can leave it. */
  predicate EventOk(e: Event) {
    match e
    case Confirmed(c) => CommitteeOk(c)
    case Executed(_, action, _) => ActionOk(action)
  }

  ghost predicate LogOk(origin: Core, g: Gov) {
    && g.core == Fold(origin, g.log)
    && (forall i :: 0 <= i < |g.log| ==> (g.log[i].Confirmed? <==> i == 0) && EventOk(g.log[i]))
    && (forall i :: 0 <= i < |g.log| ==> EntryOk(origin, g, i))
    && (forall i, j :: 0 <= i < j < |g.log| && g.log[i].Executed? && g.log[j].Executed? ==> g.log[i].id != g.log[j].id)
    && (forall id :: id in g.proposals && g.proposals[id].executed ==>
          exists i :: 0 <= i < |g.log| && g.log[i].Executed? && g.log[i].id == id)
  }

  // ---------------------------------------------------------------- steps keep the invariant

  lemma ProposeKeeps(g: Gov, proposer: Address, action: Action)
    requires GovOk(g) && Propose(g, proposer, action).Ok?
    ensures GovOk(Propose(g, proposer, action).value)
  {
  }

  lemma ApproveKeeps(g: Gov, signer: Address, id: nat)
    requires GovOk(g) && Approve(g, signer, id).Ok?
    ensures GovOk(Approve(g, signer, id).value)
  {
  }

  lemma ExecuteKeeps(g: Gov, id: nat)
    requires GovOk(g) && Execute(g, id).Ok?
    ensures GovOk(Execute(g, id).value)
  {
    var g' := Execute(g, id).value;
    forall other | other in g'.proposals
      ensures ProposalOk(g'.proposals[other], other, g'.core.committee.value.signers, g'.now)
    {
      assert ProposalOk(g.proposals[other], other, g.core.committee.value.signers, g.now);
      assert g.active[other] == other;
    }
  }

  lemma StepKeeps(g: Gov, op: Op)
    requires GovOk(g) && Step(g, op).Ok?
    ensures GovOk(Step(g, op).value)
  {
    match op
    case CallPropose(proposer, action) => ProposeKeeps(g, proposer, action);
    case CallApprove(signer, id) => ApproveKeeps(g, signer, id);
    case CallExecute(id) => ExecuteKeeps(g, id);
    case _ =>
  }

  // ---------------------------------------------------------------- the log accounts for the state

  lemma DeployedOk(admin: Address, params: Parameters, now: nat)
    requires ParametersOk(params)
    ensures GovOk(Deployed(admin, params, now))
    ensures LogOk(Deployed(admin, params, now).core, Deployed(admin, params, now))
  {
  }

  /** Entries stay justified while the log grows and executed proposals keep their records. */
  lemma EntryStays(origin: Core, g: Gov, g': Gov, i: nat)
    requires i < |g.log| <= |g'.log| && g'.log[..|g.log|] == g.log && EntryOk(origin, g, i)
    requires forall id :: id in g.proposals && g.proposals[id].executed ==>
               id in g'.proposals && g'.proposals[id] == g.proposals[id]
    ensures EntryOk(origin, g', i)
  {
    assert g'.log[..i] == g.log[..i];
    assert g'.log[i] == g.log[i];
  }

  /** Calls other than an execution or a confirmation leave log, core and executed records alone. */
  lemma QuietKeepsLog(origin: Core, g: Gov, g': Gov)
    requires LogOk(origin, g) && g'.log == g.log && g'.core == g.core
    requires forall id :: id in g.proposals && g.proposals[id].executed ==>
               id in g'.proposals && g'.proposals[id] == g.proposals[id]
    requires forall id :: id in g'.proposals && g'.proposals[id].executed ==>
               id in g.proposals && g.proposals[id].executed
    ensures LogOk(origin, g')
  {
    forall i | 0 <= i < |g'.log|
      ensures EntryOk(origin, g', i)
    {
      assert g'.log[..|g.log|] == g.log;
      EntryStays(origin, g, g', i);
    }
  }

  /** The first event of all: there are no proposals yet. */
  lemma FirstEvent(origin: Core, g: Gov, c: Committee)
    requires CommitteeOk(c) && g.proposals == map[]
    requires g.log == [Confirmed(c)] && g.core == origin.(committee := Some(c))
    ensures LogOk(origin, g)
  {
    assert g.log[..0] == [];
    assert Fold(origin, g.log) == Enact(origin, Confirmed(c));
  }

  lemma NoProposalsYet(g: Gov, caller: Address)
    requires GovOk(g) && Confirm(g, caller).Ok?
    ensures g.log == [] && g.proposals == map[] && CommitteeOk(g.pending.value)
  {
    assert forall id: nat :: id !in g.proposals;
  }

  lemma ConfirmKeepsLog(origin: Core, g: Gov, caller: Address)
    requires GovOk(g) && g.core == Fold(origin, g.log) && Confirm(g, caller).Ok?
    ensures LogOk(origin, Confirm(g, caller).value)
  {
    NoProposalsYet(g, caller);
    FirstEvent(origin, Confirm(g, caller).value, g.pending.value);
  }

  /** An execution appends an event that is justified, and has not been executed before. */
  lemma ExecuteKeepsLog(origin: Core, g: Gov, id: nat)
    requires GovOk(g) && LogOk(origin, g) && Execute(g, id).Ok?
    ensures LogOk(origin, Execute(g, id).value)
  {
    var g' := Execute(g, id).value;
    var n := |g.log|;
    assert g'.log[..n] == g.log;
    assert ProposalOk(g.proposals[id], id, g.core.committee.value.signers, g.now);
    forall i | 0 <= i < |g'.log|
      ensures EntryOk(origin, g', i)
    {
      if i < n {
        assert EntryOk(origin, g, i);
        EntryStays(origin, g, g', i);
      }
    }
    assert g'.log[n] == Executed(id, g.proposals[id].action, g.now);
    forall i | 0 <= i < n && g'.log[i].Executed?
      ensures g'.log[i].id != id
    {
      assert EntryOk(origin, g, i);
    }
    forall other | other in g'.proposals && g'.proposals[other].executed
      ensures exists i :: 0 <= i < |g'.log| && g'.log[i].Executed? && g'.log[i].id == other
    {
      if other != id {
        var i :| 0 <= i < |g.log| && g.log[i].Executed? && g.log[i].id == other;
        assert g'.log[i] == g.log[i];
      }
    }
  }

  lemma StepKeepsLog(origin: Core, g: Gov, op: Op)
    requires GovOk(g) && LogOk(origin, g) && Step(g, op).Ok?
    ensures LogOk(origin, Step(g, op).value)
  {
    match op
    case CallConfirm(caller) => ConfirmKeepsLog(origin, g, caller);
    case CallExecute(id) => ExecuteKeepsLog(origin, g, id);
    case _ => QuietKeepsLog(origin, g, Step(g, op).value);
  }
}
