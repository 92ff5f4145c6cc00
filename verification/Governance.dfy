/** The parameters contract: the object whose entry points set the committee up and collect,
    execute and void its proposals. */
module Governance {
  import opened Common
  import opened GovernanceModel
  import GovernanceTheorems

  /** Threshold within bounds, no signer twice. */
  method CheckCommittee(c: Committee) returns (r: Result<()>)
    ensures r == ValidateCommittee(c)
  {
    var n := |c.signers|;
    if c.threshold < 2 || c.threshold > n {
      return Err(InvalidThreshold);
    }
    for i := 0 to n
      invariant forall k, l :: 0 <= k < i && k < l < n ==> c.signers[k] != c.signers[l]
    {
      for j := i + 1 to n
        invariant forall l :: i < l < j ==> c.signers[i] != c.signers[l]
      {
        if c.signers[i] == c.signers[j] {
          return Err(DuplicateSigner);
        }
      }
    }
    r := Ok(());
  }

  method CheckParameters(p: Parameters) returns (r: Result<()>)
    ensures r == if ParametersOk(p) then Ok(()) else Err(InvalidParameters)
  {
    if p.minGuaranteePercent <= 0 || p.minGuaranteePercent > 100 || p.largeLoanThreshold <= 0 {
      return Err(InvalidParameters);
    }
    r := Ok(());
  }

  /** Every stored approver was a signer at proposal time and still is one. */
  method CheckApprovers(c: Committee, p: Proposal) returns (r: Result<()>)
    ensures r == if Eligible(c, p) then Ok(()) else Err(ApproverNotEligible)
  {
    for i := 0 to |p.approvals|
      invariant forall k :: 0 <= k < i ==> p.approvals[k] in p.snapshot && p.approvals[k] in c.signers
    {
      var approver := p.approvals[i];
      if approver !in p.snapshot || approver !in c.signers {
        return Err(ApproverNotEligible);
      }
    }
    r := Ok(());
  }

  class ParametersContract {
    var admin: Address
    var params: Parameters
    var committee: Option<Committee>
    var version: nat
    var pending: Option<Committee>
    var proposals: map<nat, Proposal>
    var active: seq<nat>
    var count: nat
    var now: nat
    var log: seq<Event>

    function State(): Gov
      reads this
    {
      Gov(Core(admin, params, committee, version), pending, proposals, active, count, now, log)
    }

    /** `initialize`: refuses parameters that do not validate. */
    constructor (admin: Address, params: Parameters, now: nat)
      requires ParametersOk(params)
      ensures State() == Deployed(admin, params, now) && GovernanceTheorems.Reachable(admin, params, State())
    {
      this.admin, this.params, this.now := admin, params, now;
      committee, version, pending := None, 1, None;
      proposals, active, count, log := map[], [], 0, [];
      new;
      GovernanceTheorems.DeployedReachable(admin, params, now);
    }

    method Rollback(g: Gov)
      modifies this
      ensures State() == g
    {
      admin, params, committee, version := g.core.admin, g.core.params, g.core.committee, g.core.version;
      pending, proposals, active, count := g.pending, g.proposals, g.active, g.count;
      now, log := g.now, g.log;
    }

    method Configure(caller: Address, signers: seq<Address>, threshold: nat) returns (r: Result<()>)
      modifies this
      ensures
        var s := GovernanceModel.Configure(old(State()), caller, signers, threshold);
        && r == (if s.Ok? then Ok(()) else Err(s.error))
        && (s.Ok? ==> State() == s.value)
    {
      var _ :- Need(caller == admin, NotAuthorized);
      if committee.Some? || pending.Some? {
        return Err(MultisigAlreadyConfigured);
      }
      var config := Committee(signers, threshold);
      var _ :- CheckCommittee(config);
      pending := Some(config);
      r := Ok(());
    }

    method Confirm(caller: Address) returns (r: Result<()>)
      modifies this
      ensures
        var s := GovernanceModel.Confirm(old(State()), caller);
        && r == (if s.Ok? then Ok(()) else Err(s.error))
        && (s.Ok? ==> State() == s.value)
    {
      var _ :- Need(caller == admin, NotAuthorized);
      if committee.Some? {
        return Err(MultisigAlreadyConfigured);
      }
      match pending
      case None => return Err(MultisigNotConfigured);
      case Some(config) =>
        committee := Some(config);
        pending := None;
        log := log + [Confirmed(config)];
        r := Ok(());
    }

    /** Only signers may propose and approve. */
    method RequireSigner(caller: Address) returns (r: Result<Committee>)
      ensures r == CommitteeOf(State(), caller)
    {
      if committee.None? {
        return Err(MultisigNotConfigured);
      }
      var _ :- Need(caller in committee.value.signers, NotSigner);
      r := Ok(committee.value);
    }

    method CheckAction(action: Action) returns (r: Result<()>)
      ensures r == ValidateAction(action)
    {
      match action
      case UpdateParameters(p) => r := CheckParameters(p);
      case UpdateSigners(c) => r := CheckCommittee(c);
      case _ => r := Ok(());
    }

    method Propose(proposer: Address, action: Action) returns (r: Result<nat>)
      modifies this
      ensures
        var s := GovernanceModel.Propose(old(State()), proposer, action);
        && r == (if s.Ok? then Ok(old(count)) else Err(s.error))
        && (s.Ok? ==> State() == s.value)
    {
      var config :- RequireSigner(proposer);
      var _ :- CheckAction(action);
      var expiresAt :- AddU64(now, PROPOSAL_TTL);
      var id := count;
      count :- AddU64(count, 1);
      var p := Proposal(id, action, proposer, [proposer], config.signers, now, expiresAt, false, false);
      proposals := proposals[id := p];
      active := active + [id];
      r := Ok(id);
    }

    /** Loads a proposal that is neither executed, voided nor expired. */
    method Load(id: nat) returns (r: Result<Proposal>)
      ensures r == OpenProposal(State(), id)
    {
      if id !in proposals {
        return Err(ProposalNotFound);
      }
      var p := proposals[id];
      var _ :- Need(!p.executed, ProposalAlreadyExecuted);
      var _ :- Need(!p.invalidated, ProposalInvalidated);
      var _ :- Need(now <= p.expiresAt, ProposalExpired);
      r := Ok(p);
    }

    method Approve(signer: Address, id: nat) returns (r: Result<()>)
      modifies this
      ensures
        var s := GovernanceModel.Approve(old(State()), signer, id);
        && r == (if s.Ok? then Ok(()) else Err(s.error))
        && (s.Ok? ==> State() == s.value)
    {
      var _ :- RequireSigner(signer);
      var p :- Load(id);
      var _ :- Need(signer !in p.approvals, DuplicateSignature);
      var _ :- Need(signer in p.snapshot, ApproverNotEligible);
      p := p.(approvals := p.approvals + [signer]);
      proposals := proposals[id := p];
      r := Ok(());
    }

    /** Voids every other in-flight change of signers. */
    method InvalidateSignerProposals(executing: nat)
      modifies `proposals
      ensures proposals == Sweep(old(proposals), active, executing)
    {
      for i := 0 to |active|
        invariant proposals == Sweep(old(proposals), active[..i], executing)
      {
        assert active[..i + 1] == active[..i] + [active[i]];
        var id := active[i];
        if id == executing {
          continue;
        }
        if id in proposals {
          var p := proposals[id];
          if p.action.UpdateSigners? && !p.executed && !p.invalidated {
            proposals := proposals[id := p.(invalidated := true)];
          }
        }
      }
      assert active[..|active|] == active;
    }

    /** Carries a proposal's action out, after validating its payload once more. */
    method PerformAction(action: Action, id: nat) returns (r: Result<()>)
      modifies `admin, `params, `committee, `version, `proposals
      ensures
        var s := Perform(old(State()).core, action);
        && r == (if s.Ok? then Ok(()) else Err(s.error))
        && (s.Ok? ==> State().core == s.value)
        && (s.Ok? ==> proposals == if action.UpdateSigners? then Sweep(old(proposals), active, id) else old(proposals))
    {
      match action {
        case UpdateParameters(p) =>
          var _ :- CheckParameters(p);
          params := p;
        case SetAdmin(a) =>
          admin := a;
        case Upgrade(_) =>
          if version + 1 <= U32_MAX {
            version := version + 1;
          }
        case UpdateSigners(c) =>
          var _ :- CheckCommittee(c);
          committee := Some(c);
          InvalidateSignerProposals(id);
        case SetLateFeeBps(bps) =>
          params := params.(lateFeeBps := bps);
      }
      r := Ok(());
    }

    method Execute(id: nat) returns (r: Result<()>)
      modifies this
      ensures
        var s := GovernanceModel.Execute(old(State()), id);
        && r == (if s.Ok? then Ok(()) else Err(s.error))
        && (s.Ok? ==> State() == s.value)
    {
      var p :- Load(id);
      if committee.None? {
        return Err(MultisigNotConfigured);
      }
      var config := committee.value;
      var _ :- CheckApprovers(config, p);
      var _ :- Need(|p.approvals| >= Quorum(config, p.action), ThresholdNotMet);
      var _ :- PerformAction(p.action, id);
      p := p.(executed := true);
      proposals := proposals[id := p];
      log := log + [Executed(id, p.action, now)];
      r := Ok(());
    }

    /** One invocation: an accepted call takes the step, a rejected one leaves no trace. */
    method Invoke(op: Op, ghost deployer: Address, ghost initial: Parameters) returns (r: Result<()>)
      requires GovernanceTheorems.Reachable(deployer, initial, State())
      modifies this
      ensures State() == Apply(old(State()), op) && GovernanceTheorems.Reachable(deployer, initial, State())
      ensures r.Ok? <==> Step(old(State()), op).Ok?
    {
      var before := State();
      GovernanceTheorems.ReachableStep(deployer, initial, before, op);
      match op {
        case CallConfigure(caller, signers, threshold) => r := Configure(caller, signers, threshold);
        case CallConfirm(caller) => r := Confirm(caller);
        case CallPropose(proposer, action) =>
          var id := Propose(proposer, action);
          r := if id.Ok? then Ok(()) else Err(id.error);
        case CallApprove(signer, id) => r := Approve(signer, id);
        case CallExecute(id) => r := Execute(id);
        case Advance(time) =>
          r := if now <= time <= U64_MAX then Ok(()) else Err(ClockReversed);
          if r.Ok? {
            now := time;
          }
      }
      if r.Err? {
        Rollback(before);
      }
    }
  }
}
