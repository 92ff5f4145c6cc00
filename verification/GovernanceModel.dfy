/** Governance of the protocol parameters: a two-step committee set-up by the administrator, then
    proposals that the committee approves and anyone executes. One accepted call is one step. */
module GovernanceModel {
  import opened Common

  const PROPOSAL_TTL: nat := 604_800

  datatype Parameters = Parameters(
    minGuaranteePercent: int, minReputation: nat, fullRepaymentReward: nat, defaultPenalty: nat,
    largeLoanThreshold: int, largeLoanDefaultPenalty: nat, baseInterestBps: nat, gracePeriod: nat,
    upgradeDelay: nat, lateFeeBps: nat)

  datatype Committee = Committee(signers: seq<Address>, threshold: nat)

  datatype Action =
    | UpdateParameters(params: Parameters)
    | SetAdmin(admin: Address)
    | Upgrade(code: nat)
    | UpdateSigners(committee: Committee)
    | SetLateFeeBps(bps: nat)

  datatype Proposal = Proposal(id: nat, action: Action, proposer: Address, approvals: seq<Address>,
                               snapshot: seq<Address>, createdAt: nat, expiresAt: nat,
                               executed: bool, invalidated: bool)

  /** What governance governs. */
  datatype Core = Core(admin: Address, params: Parameters, committee: Option<Committee>, version: nat)

  /** The contract's events that change the core, with the time of an execution. */
  datatype Event = Confirmed(committee: Committee) | Executed(id: nat, action: Action, at: nat)

  datatype Gov = Gov(core: Core, pending: Option<Committee>, proposals: map<nat, Proposal>,
                     active: seq<nat>, count: nat, now: nat, log: seq<Event>)

  // ---------------------------------------------------------------- validation

  predicate ParametersOk(p: Parameters) {
    0 < p.minGuaranteePercent <= 100 && p.largeLoanThreshold > 0
  }

  function ValidateCommittee(c: Committee): Result<()> {
    if 2 <= c.threshold <= |c.signers| then Need(Distinct(c.signers), DuplicateSigner) else Err(InvalidThreshold)
  }

  function ValidateAction(a: Action): Result<()> {
    match a
    case UpdateParameters(p) => Need(ParametersOk(p), InvalidParameters)
    case UpdateSigners(c) => ValidateCommittee(c)
    case _ => Ok(())
  }

  /** Approvals an action needs: one more than the threshold, up to everyone, to change the signers. */
  function Quorum(c: Committee, a: Action): nat {
    if a.UpdateSigners?
    then if c.threshold + 1 <= U32_MAX then Min(c.threshold + 1, |c.signers|) else |c.signers|
    else c.threshold
  }

  // ---------------------------------------------------------------- entry points

  function Configure(g: Gov, caller: Address, signers: seq<Address>, threshold: nat): Result<Gov> {
    var _ :- Need(caller == g.core.admin, NotAuthorized);
    var _ :- Need(g.core.committee.None? && g.pending.None?, MultisigAlreadyConfigured);
    var _ :- ValidateCommittee(Committee(signers, threshold));
    Ok(g.(pending := Some(Committee(signers, threshold))))
  }

  function Confirm(g: Gov, caller: Address): Result<Gov> {
    var _ :- Need(caller == g.core.admin, NotAuthorized);
    var _ :- Need(g.core.committee.None?, MultisigAlreadyConfigured);
    if g.pending.None? then Err(MultisigNotConfigured)
    else Ok(g.(core := g.core.(committee := g.pending), pending := None, log := g.log + [Confirmed(g.pending.value)]))
  }

  /** The committee, when `signer` belongs to it. */
  function CommitteeOf(g: Gov, signer: Address): Result<Committee> {
    if g.core.committee.None? then Err(MultisigNotConfigured)
    else if signer in g.core.committee.value.signers then Ok(g.core.committee.value)
    else Err(NotSigner)
  }

  function Propose(g: Gov, proposer: Address, action: Action): Result<Gov> {
    var committee :- CommitteeOf(g, proposer);
    var _ :- ValidateAction(action);
    var expiresAt :- AddU64(g.now, PROPOSAL_TTL);
    var count :- AddU64(g.count, 1);
    var p := Proposal(g.count, action, proposer, [proposer], committee.signers, g.now, expiresAt, false, false);
    Ok(g.(proposals := g.proposals[g.count := p], active := g.active + [g.count], count := count))
  }

  /** A proposal that can still be approved or executed. */
  function OpenProposal(g: Gov, id: nat): Result<Proposal> {
    if id !in g.proposals then Err(ProposalNotFound)
    else
      var p := g.proposals[id];
      var _ :- Need(!p.executed, ProposalAlreadyExecuted);
      var _ :- Need(!p.invalidated, ProposalInvalidated);
      var _ :- Need(g.now <= p.expiresAt, ProposalExpired);
      Ok(p)
  }

  function Approve(g: Gov, signer: Address, id: nat): Result<Gov> {
    var _ :- CommitteeOf(g, signer);
    var p :- OpenProposal(g, id);
    var _ :- Need(signer !in p.approvals, DuplicateSignature);
    var _ :- Need(signer in p.snapshot, ApproverNotEligible);
    Ok(g.(proposals := g.proposals[id := p.(approvals := p.approvals + [signer])]))
  }

  predicate Eligible(c: Committee, p: Proposal) {
    forall i :: 0 <= i < |p.approvals| ==> p.approvals[i] in p.snapshot && p.approvals[i] in c.signers
  }

  /** Carries an action out, validating its payload once more. */
  function Perform(core: Core, a: Action): Result<Core> {
    var _ :- ValidateAction(a);
    Ok(match a
       case UpdateParameters(p) => core.(params := p)
       case SetAdmin(admin) => core.(admin := admin)
       case Upgrade(_) => core.(version := if core.version + 1 <= U32_MAX then core.version + 1 else core.version)
       case UpdateSigners(c) => core.(committee := Some(c))
       case SetLateFeeBps(bps) => core.(params := core.params.(lateFeeBps := bps)))
  }

  /** An in-flight change of signers, which another such change makes stale. */
  predicate Stale(p: Proposal) {
    p.action.UpdateSigners? && !p.executed && !p.invalidated
  }

  /** The proposals after voiding every stale one listed in `ids`, other than `executing`. */
  function Sweep(proposals: map<nat, Proposal>, ids: seq<nat>, executing: nat): map<nat, Proposal> {
    map id | id in proposals ::
      if id != executing && id in ids && Stale(proposals[id])
      then proposals[id].(invalidated := true)
      else proposals[id]
  }

  function Execute(g: Gov, id: nat): Result<Gov> {
    var p :- OpenProposal(g, id);
    if g.core.committee.None? then Err(MultisigNotConfigured)
    else
      var committee := g.core.committee.value;
      var _ :- Need(Eligible(committee, p), ApproverNotEligible);
      var _ :- Need(|p.approvals| >= Quorum(committee, p.action), ThresholdNotMet);
      var core :- Perform(g.core, p.action);
      var swept := if p.action.UpdateSigners? then Sweep(g.proposals, g.active, id) else g.proposals;
      Ok(g.(core := core, proposals := swept[id := p.(executed := true)],
            log := g.log + [Executed(id, p.action, g.now)]))
  }

  // ---------------------------------------------------------------- steps and runs

  datatype Op =
    | CallConfigure(caller: Address, signers: seq<Address>, threshold: nat)
    | CallConfirm(caller: Address)
    | CallPropose(proposer: Address, action: Action)
    | CallApprove(signer: Address, id: nat)
    | CallExecute(id: nat)
    | Advance(now: nat)

  function Step(g: Gov, op: Op): Result<Gov> {
    match op
    case CallConfigure(caller, signers, threshold) => Configure(g, caller, signers, threshold)
    case CallConfirm(caller) => Confirm(g, caller)
    case CallPropose(proposer, action) => Propose(g, proposer, action)
    case CallApprove(signer, id) => Approve(g, signer, id)
    case CallExecute(id) => Execute(g, id)
    case Advance(now) =>
      var _ :- Need(g.now <= now <= U64_MAX, ClockReversed);
      Ok(g.(now := now))
  }

  function Apply(g: Gov, op: Op): Gov {
    match Step(g, op)
    case Ok(g') => g'
    case Err(_) => g
  }

  function Run(g: Gov, ops: seq<Op>): Gov {
    if ops == [] then g else Apply(Run(g, ops[..|ops| - 1]), ops[|ops| - 1])
  }

  /** The contract just initialized with valid parameters. */
  function Deployed(admin: Address, params: Parameters, now: nat): Gov
  {
    Gov(Core(admin, params, None, 1), None, map[], [], 0, now, [])
  }

  // ---------------------------------------------------------------- what the log says

  /** What an event does to the governed state. */
  function Enact(core: Core, e: Event): Core {
    match e
    case Confirmed(c) => core.(committee := Some(c))
    case Executed(_, UpdateParameters(p), _) => core.(params := p)
    case Executed(_, SetAdmin(admin), _) => core.(admin := admin)
    case Executed(_, Upgrade(_), _) => core.(version := Min(core.version + 1, U32_MAX))
    case Executed(_, UpdateSigners(c), _) => core.(committee := Some(c))
    case Executed(_, SetLateFeeBps(bps), _) => core.(params := core.params.(lateFeeBps := bps))
  }

  /** The governed state after the events of `log`, in order. */
  function Fold(core: Core, log: seq<Event>): Core {
    if log == [] then core else Enact(Fold(core, log[..|log| - 1]), log[|log| - 1])
  }
}
