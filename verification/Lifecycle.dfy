/**
  A tenant's way from prospect to active: the validated transition, the two loops that walk the
  pipeline and stop at an unverified payment, the provisioning run that writes the state itself,
  and the audit row each of them leaves.
 */
module Lifecycle {
  import opened Results
  import BillingStates

  datatype State =
    | PROSPECT | LEAD | QUALIFIED | PROPOSAL | WAITING_PAYMENT | PAID | CLIENT | ONBOARDING
    | CONFIGURING | TESTING | READY | ACTIVE | BLOCKED | WAITING_OWNER | WAITING_CLIENT
    | ERROR | PAUSED | STALE
    | Unknown(name: string)

  datatype Action = LifecycleTransition | ProvisionTenant
  datatype AuditRow = AuditRow(action: Action, previous: Option<State>, next: Option<State>)

  /** The lifecycle column may be empty, which reads as PROSPECT. */
  datatype Tenant = Tenant(lifecycle: Option<State>, previous: Option<State>, audits: seq<AuditRow>)

  /** What the activation gate looks at; fetched only for a transition to ACTIVE. */
  datatype SubscriptionView = SubscriptionView(status: BillingStates.SubscriptionStatus, amount: int, verifiedPayment: bool)
  datatype Gate = Gate(readinessReady: Option<bool>, subscription: Option<SubscriptionView>)

  datatype LifecycleError =
    | TenantNotFound | InvalidTransition | PermissionDenied | ActivationGateFailed | PaymentVerificationRequired

  function Read(column: Option<State>): State {
    if column.Some? then column.value else PROSPECT
  }

  function Current(t: Tenant): State {
    Read(t.lifecycle)
  }

  function Transitions(state: State): set<State> {
    match state
    case PROSPECT => {LEAD, BLOCKED, ERROR}
    case LEAD => {QUALIFIED, BLOCKED, ERROR}
    case QUALIFIED => {PROPOSAL, BLOCKED, ERROR}
    case PROPOSAL => {WAITING_PAYMENT, BLOCKED, ERROR}
    case WAITING_PAYMENT => {PAID, BLOCKED, ERROR}
    case PAID => {CLIENT, ONBOARDING, BLOCKED, ERROR}
    case CLIENT => {ONBOARDING, PAUSED, BLOCKED, ERROR}
    case ONBOARDING => {CONFIGURING, PAUSED, STALE, BLOCKED, ERROR}
    case CONFIGURING => {TESTING, PAUSED, STALE, BLOCKED, ERROR}
    case TESTING => {READY, CONFIGURING, PAUSED, BLOCKED, ERROR}
    case READY => {ACTIVE, TESTING, PAUSED, BLOCKED, ERROR}
    case ACTIVE => {PAUSED, BLOCKED, STALE, ERROR}
    case PAUSED => {ONBOARDING, CONFIGURING, TESTING, READY, ACTIVE, BLOCKED}
    case STALE => {ONBOARDING, PAUSED, BLOCKED}
    case BLOCKED => {PROSPECT, ONBOARDING, CONFIGURING, TESTING, READY, ACTIVE}
    case ERROR => {PROSPECT, ONBOARDING, CONFIGURING, TESTING, READY, ACTIVE}
    case WAITING_OWNER => {ONBOARDING, CONFIGURING, READY, PAUSED, BLOCKED}
    case WAITING_CLIENT => {ONBOARDING, CONFIGURING, READY, PAUSED, BLOCKED}
    case Unknown(_) => {}
  }

  /** The error the validator raises, if any.  A transition to the present state passes unchecked. */
  function Validate(current: State, target: State, gate: Gate, owner: bool): Option<LifecycleError> {
    if current == target then None
    else if current.Unknown? || target.Unknown? then Some(InvalidTransition)
    else if current in {ERROR, BLOCKED} && !owner then Some(PermissionDenied)
    else if target !in Transitions(current) then Some(InvalidTransition)
    else if target.ACTIVE? then ActivationGate(gate)
    else None
  }

  function ActivationGate(gate: Gate): Option<LifecycleError> {
    if gate.readinessReady != Some(true) then Some(ActivationGateFailed)
    else if gate.subscription.None? then Some(ActivationGateFailed)
    else
      var sub := gate.subscription.value;
      if !(sub.status.TRIALING? || sub.status.ACTIVE?) then Some(ActivationGateFailed)
      else if sub.amount > 0 && !sub.verifiedPayment then Some(PaymentVerificationRequired)
      else None
  }

  function Moved(t: Tenant, target: State): Tenant {
    Tenant(Some(target), Some(Current(t)), t.audits + [AuditRow(LifecycleTransition, Some(Current(t)), Some(target))])
  }

  function Transition(t: Tenant, target: State, gate: Gate, owner: bool): Result<Tenant, LifecycleError> {
    match Validate(Current(t), target, gate, owner)
    case Some(error) => Err(error)
    case None => Ok(Moved(t, target))
  }

  const PIPELINE: seq<State> :=
    [PROSPECT, LEAD, QUALIFIED, PROPOSAL, WAITING_PAYMENT, PAID, CLIENT, ONBOARDING, CONFIGURING, TESTING, READY]

  const AT_WAITING: nat := 4
  const AT_ONBOARDING: nat := 7
  const AT_READY: nat := 10

  /** The place in the pipeline of a state that is in it. */
  function Index(state: State): (i: nat)
    requires state in PIPELINE
    ensures i < |PIPELINE| && PIPELINE[i] == state
  {
    match state
    case PROSPECT => 0
    case LEAD => 1
    case QUALIFIED => 2
    case PROPOSAL => 3
    case WAITING_PAYMENT => 4
    case PAID => 5
    case CLIENT => 6
    case ONBOARDING => 7
    case CONFIGURING => 8
    case TESTING => 9
    case READY => 10
  }

  /** The audit rows of a walk along the pipeline. */
  function Rows(from: nat, last: nat): seq<AuditRow>
    requires last < |PIPELINE|
    decreases last
  {
    if from >= last then []
    else Rows(from, last - 1) + [AuditRow(LifecycleTransition, Some(PIPELINE[last - 1]), Some(PIPELINE[last]))]
  }

  function Walked(t: Tenant, from: nat, last: nat): Tenant
    requires last < |PIPELINE|
  {
    if from >= last then t else Tenant(Some(PIPELINE[last]), Some(PIPELINE[last - 1]), t.audits + Rows(from, last))
  }

  /** Where a walk that starts at `from` and wants to reach `goal` comes to rest. */
  function Rest(from: nat, goal: nat, verified: bool): nat {
    if from <= AT_WAITING && !verified then AT_WAITING else if from < goal then goal else from
  }

  /** What an advance call makes of a tenant. */
  function Advance(t: Tenant, goal: nat, verified: bool, owner: bool): Result<Tenant, LifecycleError>
    requires goal in {AT_ONBOARDING, AT_READY}
  {
    if Current(t) in PIPELINE then Ok(Walked(t, Index(Current(t)), Rest(Index(Current(t)), goal, verified)))
    else if Current(t).ACTIVE? then Ok(t)
    else Transition(t, PIPELINE[goal], Gate(None, None), owner)
  }

  /** A provisioning run sets the state without consulting the validator. */
  function Provision(t: Tenant, ready: bool): Tenant {
    var next :=
      if ready then Some(READY)
      else if t.lifecycle in {Some(PROSPECT), Some(ONBOARDING)} then Some(CONFIGURING)
      else t.lifecycle;
    Tenant(next, if next != t.lifecycle then t.lifecycle else t.previous,
           t.audits + [AuditRow(ProvisionTenant, t.lifecycle, next)])
  }

  class ClientLifecycleManager {
    var tenant: Option<Tenant>

    constructor (found: Option<Tenant>)
      ensures tenant == found
    {
      tenant := found;
    }

    method TransitionState(target: State, gate: Gate, owner: bool) returns (result: Result<Tenant, LifecycleError>)
      modifies this
      ensures old(tenant).None? ==> result == Err(TenantNotFound)
      ensures old(tenant).Some? ==> result == Transition(old(tenant).value, target, gate, owner)
      ensures tenant == if result.Ok? then Some(result.value) else old(tenant)
    {
      if tenant.None? {
        return Err(TenantNotFound);
      }
      var row := tenant.value;
      var current := if row.lifecycle.Some? then row.lifecycle.value else PROSPECT;
      var refusal := Validate(current, target, gate, owner);
      if refusal.Some? {
        return Err(refusal.value);
      }
      row := row.(previous := Some(current), lifecycle := Some(target));
      row := row.(audits := row.audits + [AuditRow(LifecycleTransition, Some(current), Some(target))]);
      tenant := Some(row);
      return Ok(row);
    }

    /** The loop both advance operations share: one validated step at a time, with a stop at an unverified payment. */
    method Walk(goal: nat, verified: bool, owner: bool) returns (result: Result<Tenant, LifecycleError>)
      requires goal in {AT_ONBOARDING, AT_READY}
      requires tenant.Some? && Current(tenant.value) in PIPELINE
      modifies this
      ensures result == Advance(old(tenant).value, goal, verified, owner)
      ensures tenant == Some(result.value)
    {
      var start := Index(Current(tenant.value));
      var i := start;
      while i < goal
        invariant start <= i < |PIPELINE| && (if start < goal then i <= goal else i == start)
        invariant i <= AT_WAITING || start > AT_WAITING || verified
        invariant tenant == Some(Walked(old(tenant).value, start, i)) && Current(tenant.value) == PIPELINE[i]
      {
        WalkOn(old(tenant).value, start, i, owner);
        if PIPELINE[i].WAITING_PAYMENT? && PIPELINE[i + 1].PAID? && !verified {
          WalkEnds(old(tenant).value, goal, verified, owner, i);
          return Ok(tenant.value);
        }
        var step := TransitionState(PIPELINE[i + 1], Gate(None, None), owner);
        i := i + 1;
      }
      WalkEnds(old(tenant).value, goal, verified, owner, i);
      return Ok(tenant.value);
    }

    method AdvanceToOnboarding(verified: bool, owner: bool) returns (result: Result<Tenant, LifecycleError>)
      modifies this
      ensures old(tenant).None? ==> result == Err(TenantNotFound)
      ensures old(tenant).Some? ==> result == Advance(old(tenant).value, AT_ONBOARDING, verified, owner)
      ensures tenant == if result.Ok? then Some(result.value) else old(tenant)
    {
      if tenant.None? {
        return Err(TenantNotFound);
      }
      if Current(tenant.value) in {ONBOARDING, CONFIGURING, TESTING, READY, ACTIVE} {
        return Ok(tenant.value);
      }
      if Current(tenant.value) in PIPELINE[..AT_ONBOARDING + 1] {
        result := Walk(AT_ONBOARDING, verified, owner);
      } else {
        result := TransitionState(ONBOARDING, Gate(None, None), owner);
      }
    }

    method AdvanceToReady(verified: bool, owner: bool) returns (result: Result<Tenant, LifecycleError>)
      modifies this
      ensures old(tenant).None? ==> result == Err(TenantNotFound)
      ensures old(tenant).Some? ==> result == Advance(old(tenant).value, AT_READY, verified, owner)
      ensures tenant == if result.Ok? then Some(result.value) else old(tenant)
    {
      if tenant.None? {
        return Err(TenantNotFound);
      }
      if Current(tenant.value) in {READY, ACTIVE} {
        return Ok(tenant.value);
      }
      if Current(tenant.value) in PIPELINE {
        result := Walk(AT_READY, verified, owner);
      } else {
        result := TransitionState(READY, Gate(None, None), owner);
      }
    }
  }

  lemma PipelineStepIsLegal(i: nat, owner: bool)
    requires i < AT_READY
    ensures Validate(PIPELINE[i], PIPELINE[i + 1], Gate(None, None), owner) == None
  {
  }

  lemma WalkedStep(t: Tenant, from: nat, i: nat)
    requires from <= i < AT_READY && Current(Walked(t, from, i)) == PIPELINE[i]
    ensures Moved(Walked(t, from, i), PIPELINE[i + 1]) == Walked(t, from, i + 1)
  {
    assert from == i ==> Rows(from, i) == [];
    assert Rows(from, i + 1) == Rows(from, i) + [AuditRow(LifecycleTransition, Some(PIPELINE[i]), Some(PIPELINE[i + 1]))];
  }

  /** One step of the walk, which stops between WAITING_PAYMENT and PAID or nowhere. */
  lemma WalkOn(t: Tenant, from: nat, i: nat, owner: bool)
    requires from <= i < AT_READY && Current(Walked(t, from, i)) == PIPELINE[i]
    ensures Transition(Walked(t, from, i), PIPELINE[i + 1], Gate(None, None), owner) == Ok(Walked(t, from, i + 1))
    ensures Current(Walked(t, from, i + 1)) == PIPELINE[i + 1]
    ensures PIPELINE[i].WAITING_PAYMENT? && PIPELINE[i + 1].PAID? <==> i == AT_WAITING
  {
    PipelineStepIsLegal(i, owner);
    WalkedStep(t, from, i);
    IndexOf(i);
  }

  lemma WalkEnds(t: Tenant, goal: nat, verified: bool, owner: bool, i: nat)
    requires goal in {AT_ONBOARDING, AT_READY} && Current(t) in PIPELINE
    requires i == Rest(Index(Current(t)), goal, verified)
    ensures Advance(t, goal, verified, owner) == Ok(Walked(t, Index(Current(t)), i))
  {
  }

  // ----- What one transition does -----

  /** A transition that goes through writes the new state, the one before it and one audit row, and nothing else. */
  lemma TransitionTerms(t: Tenant, target: State, gate: Gate, owner: bool)
    requires Transition(t, target, gate, owner).Ok?
    ensures var after := Transition(t, target, gate, owner).value;
            && after.lifecycle == Some(target)
            && after.previous == Some(if t.lifecycle.Some? then t.lifecycle.value else PROSPECT)
            && after.audits == t.audits + [AuditRow(LifecycleTransition, after.previous, Some(target))]
  {
  }

  /**
    Why a transition to another state is refused: it is not in the enumeration; it leaves BLOCKED or ERROR
    without a platform owner; it is not in the table; or the activation gate is shut, for want of readiness
    or a subscription or, with those, for want of a verified payment.
   */
  lemma TransitionRefusedIff(t: Tenant, target: State, gate: Gate, owner: bool)
    requires target != Current(t)
    ensures var reply := Transition(t, target, gate, owner);
            var listed := !Current(t).Unknown? && !target.Unknown?;
            var denied := listed && Current(t) in {BLOCKED, ERROR} && !owner;
            var legal := listed && !denied && target in Transitions(Current(t));
            var ready := gate.readinessReady == Some(true) && gate.subscription.Some? &&
                         gate.subscription.value.status in {BillingStates.TRIALING, BillingStates.ACTIVE};
            && (reply == Err(PermissionDenied) <==> denied)
            && (reply == Err(InvalidTransition) <==> !denied && !legal)
            && (reply == Err(ActivationGateFailed) <==> legal && target.ACTIVE? && !ready)
            && (reply == Err(PaymentVerificationRequired) <==>
                  legal && target.ACTIVE? && ready && gate.subscription.value.amount > 0 && !gate.subscription.value.verifiedPayment)
            && (legal && !target.ACTIVE? ==> reply.Ok?)
  {
  }

  /** Where each state can be entered from. */
  lemma TableFacts(state: State)
    requires Known(state)
    ensures BLOCKED in Transitions(state) <==> state !in {BLOCKED, ERROR}
    ensures ERROR in Transitions(state) <==> state !in {BLOCKED, ERROR, PAUSED, STALE}
    ensures ACTIVE in Transitions(state) <==> state in {READY, PAUSED, BLOCKED, ERROR}
    ensures READY in Transitions(state) <==> state in {TESTING, PAUSED, BLOCKED, ERROR}
    ensures TESTING in Transitions(state) <==> state in {CONFIGURING, READY, PAUSED, BLOCKED, ERROR}
    ensures CONFIGURING in Transitions(state) <==> state in {ONBOARDING, TESTING, PAUSED, BLOCKED, ERROR}
    ensures ONBOARDING in Transitions(state) <==> state in {PAID, CLIENT, PAUSED, STALE, BLOCKED, ERROR}
    ensures PAUSED in Transitions(state) <==> state in {CLIENT, ONBOARDING, CONFIGURING, TESTING, READY, ACTIVE, STALE}
    ensures STALE in Transitions(state) <==> state in {ONBOARDING, CONFIGURING, ACTIVE}
    ensures PROSPECT in Transitions(state) <==> state in {BLOCKED, ERROR}
    ensures forall i :: 0 <= i < AT_WAITING + 2 ==> (PIPELINE[i + 1] in Transitions(state) <==> state == PIPELINE[i])
  {
  }

  /** A provisioning run: READY if the tenant is found ready, else CONFIGURING from PROSPECT and ONBOARDING, else no change of state. */
  lemma ProvisionTerms(t: Tenant, ready: bool)
    ensures var after := Provision(t, ready);
            && (ready ==> after.lifecycle == Some(READY))
            && (!ready && t.lifecycle in {Some(PROSPECT), Some(ONBOARDING)} ==> after.lifecycle == Some(CONFIGURING))
            && (!ready && t.lifecycle !in {Some(PROSPECT), Some(ONBOARDING)} ==> after.lifecycle == t.lifecycle)
            && after.previous == (if after.lifecycle != t.lifecycle then t.lifecycle else t.previous)
            && after.audits == t.audits + [AuditRow(ProvisionTenant, t.lifecycle, after.lifecycle)]
  {
  }

  // ----- The advance calls -----

  lemma WalkIsInPipeline(t: Tenant, goal: nat, verified: bool, owner: bool)
    requires goal in {AT_ONBOARDING, AT_READY} && Current(t) in PIPELINE
    ensures var after := Advance(t, goal, verified, owner).value;
            Current(after) in PIPELINE && Index(Current(after)) == Rest(Index(Current(t)), goal, verified)
  {
    var last := Rest(Index(Current(t)), goal, verified);
    assert PIPELINE[last] in PIPELINE;
    IndexOf(last);
  }

  lemma IndexOf(i: nat)
    requires i < |PIPELINE|
    ensures Index(PIPELINE[i]) == i
  {
  }

  /** From every pipeline state: no error, and the end is READY, or WAITING_PAYMENT when that is where the proof is missing. */
  lemma AdvanceToReadyEnds(t: Tenant, verified: bool, owner: bool)
    requires Current(t) in PIPELINE
    ensures var after := Advance(t, AT_READY, verified, owner);
            && after.Ok?
            && Current(after.value) in {READY, WAITING_PAYMENT}
            && (Current(after.value).READY? <==> verified || Index(Current(t)) > AT_WAITING)
  {
    IndexOf(Rest(Index(Current(t)), AT_READY, verified));
  }

  lemma {:induction false} RowsAppend(a: nat, b: nat, c: nat)
    requires a <= b <= c < |PIPELINE|
    ensures Rows(a, c) == Rows(a, b) + Rows(b, c)
    decreases c
  {
    if b < c {
      RowsAppend(a, b, c - 1);
    } else {
      assert Rows(b, c) == [];
    }
  }

  /** Calling it twice is calling it once, audit rows included. */
  lemma AdvanceToReadyTwice(t: Tenant, verified: bool, owner: bool)
    requires Advance(t, AT_READY, verified, owner).Ok?
    ensures var once := Advance(t, AT_READY, verified, owner).value;
            Advance(once, AT_READY, verified, owner) == Ok(once)
  {
    if Current(t) in PIPELINE {
      WalkIsInPipeline(t, AT_READY, verified, owner);
    } else if !Current(t).ACTIVE? {
      IndexOf(AT_READY);
    }
  }

  lemma WalkedAppend(t: Tenant, a: nat, b: nat, c: nat)
    requires a <= b <= c < |PIPELINE|
    ensures Walked(Walked(t, a, b), b, c) == Walked(t, a, c)
  {
    RowsAppend(a, b, c);
    if a < b < c {
      assert t.audits + Rows(a, b) + Rows(b, c) == t.audits + (Rows(a, b) + Rows(b, c));
    }
  }

  /** From ACTIVE an advance changes nothing; from outside the pipeline it is one transition to its goal. */
  lemma AdvanceElsewhere(t: Tenant, goal: nat, verified: bool, owner: bool)
    requires goal in {AT_ONBOARDING, AT_READY} && Current(t) !in PIPELINE
    ensures Current(t).ACTIVE? ==> Advance(t, goal, verified, owner) == Ok(t)
    ensures !Current(t).ACTIVE? ==>
              Advance(t, goal, verified, owner) ==
              Transition(t, if goal == AT_READY then READY else ONBOARDING, Gate(None, None), owner)
  {
    assert PIPELINE[AT_READY] == READY && PIPELINE[AT_ONBOARDING] == ONBOARDING;
  }

  /** Stopping at ONBOARDING on the way to READY changes nothing, audit rows included. */
  lemma OnboardingIsOnTheWay(t: Tenant, verified: bool, owner: bool)
    requires Current(t) in PIPELINE
    ensures var half := Advance(t, AT_ONBOARDING, verified, owner).value;
            Advance(half, AT_READY, verified, owner) == Advance(t, AT_READY, verified, owner)
  {
    var from := Index(Current(t));
    var middle := Rest(from, AT_ONBOARDING, verified);
    WalkIsInPipeline(t, AT_ONBOARDING, verified, owner);
    WalkedAppend(t, from, middle, Rest(from, AT_READY, verified));
  }

  // ----- Runs -----

  datatype Op =
    | Request(target: State, gate: Gate, owner: bool)
    | ToOnboarding(verified: bool, owner: bool)
    | ToReady(verified: bool, owner: bool)
    | RunProvisioning(ready: bool)

  function Perform(t: Tenant, op: Op): Result<Tenant, LifecycleError> {
    match op
    case Request(target, gate, owner) => Transition(t, target, gate, owner)
    case ToOnboarding(verified, owner) => Advance(t, AT_ONBOARDING, verified, owner)
    case ToReady(verified, owner) => Advance(t, AT_READY, verified, owner)
    case RunProvisioning(ready) => Ok(Provision(t, ready))
  }

  function After(t: Tenant, op: Op): Tenant {
    match Perform(t, op)
    case Ok(next) => next
    case Err(_) => t
  }

  function Run(t: Tenant, ops: seq<Op>): Tenant
    decreases |ops|
  {
    if ops == [] then t else Run(After(t, ops[0]), ops[1..])
  }

  /** Each row starts where the one before it ended, and the last ends at the present state. */
  predicate Chained(t: Tenant) {
    && (forall k :: 0 < k < |t.audits| ==> Read(t.audits[k - 1].next) == Read(t.audits[k].previous))
    && (t.audits != [] ==> Read(t.audits[|t.audits| - 1].next) == Current(t))
  }

  /** The one step into PAID. */
  predicate IsPaymentRow(row: AuditRow) {
    row.previous == Some(WAITING_PAYMENT) && row.next == Some(PAID)
  }

  /** A recovery from BLOCKED or ERROR, or a state set by provisioning. */
  predicate IsShortcut(row: AuditRow) {
    Read(row.previous) != Read(row.next) && (row.action.ProvisionTenant? || Read(row.previous) in {BLOCKED, ERROR})
  }

  predicate HasPaymentRow(audits: seq<AuditRow>) {
    exists k :: 0 <= k < |audits| && IsPaymentRow(audits[k])
  }

  predicate HasShortcut(audits: seq<AuditRow>) {
    exists k :: 0 <= k < |audits| && IsShortcut(audits[k])
  }

  predicate BeforePayment(state: State) {
    state in {PROSPECT, LEAD, QUALIFIED, PROPOSAL, WAITING_PAYMENT}
  }

  /** The payment cut, as a property of the row and its log. */
  predicate Cut(t: Tenant) {
    BeforePayment(Current(t)) || Current(t) in {BLOCKED, ERROR} || HasPaymentRow(t.audits) || HasShortcut(t.audits)
  }

  predicate Known(state: State) {
    !state.Unknown? && !state.WAITING_OWNER? && !state.WAITING_CLIENT?
  }

  predicate Inv(t: Tenant) {
    Chained(t) && Cut(t) && Known(Current(t))
  }

  lemma MovedKeepsChain(t: Tenant, target: State)
    requires Chained(t)
    ensures Chained(Moved(t, target))
  {
  }

  lemma MovedKeepsInv(t: Tenant, target: State, gate: Gate, owner: bool)
    requires Inv(t) && Validate(Current(t), target, gate, owner).None?
    ensures Inv(Moved(t, target))
  {
    var after := Moved(t, target);
    MovedKeepsChain(t, target);
    LogGrows(t, after);
    var row := AuditRow(LifecycleTransition, Some(Current(t)), Some(target));
    assert after.audits[|t.audits|] == row;
    MoveIsAccountedFor(Current(t), target, gate, owner);
  }

  /** A move past the payment starts there, is the payment step, or is a recovery. */
  lemma MoveIsAccountedFor(current: State, target: State, gate: Gate, owner: bool)
    requires Validate(current, target, gate, owner).None? && Known(current)
    ensures Known(target)
    ensures var row := AuditRow(LifecycleTransition, Some(current), Some(target));
            BeforePayment(target) || target in {BLOCKED, ERROR} || IsPaymentRow(row) || IsShortcut(row) ||
            !(BeforePayment(current) || current in {BLOCKED, ERROR})
  {
  }

  lemma LogGrows(t: Tenant, after: Tenant)
    requires t.audits <= after.audits
    ensures HasPaymentRow(t.audits) ==> HasPaymentRow(after.audits)
    ensures HasShortcut(t.audits) ==> HasShortcut(after.audits)
  {
    if HasPaymentRow(t.audits) {
      var k :| 0 <= k < |t.audits| && IsPaymentRow(t.audits[k]);
      assert after.audits[k] == t.audits[k];
    }
    if HasShortcut(t.audits) {
      var k :| 0 <= k < |t.audits| && IsShortcut(t.audits[k]);
      assert after.audits[k] == t.audits[k];
    }
  }

  lemma {:induction false} WalkedKeepsInv(t: Tenant, from: nat, last: nat)
    requires Inv(t) && from <= last < |PIPELINE| && Current(t) == PIPELINE[from]
    ensures Inv(Walked(t, from, last))
    decreases last
  {
    if from < last {
      WalkedKeepsInv(t, from, last - 1);
      PipelineStepIsLegal(last - 1, false);
      var before := Walked(t, from, last - 1);
      assert Current(before) == PIPELINE[last - 1];
      MovedKeepsInv(before, PIPELINE[last], Gate(None, None), false);
      WalkedStep(t, from, last - 1);
    }
  }

  lemma ProvisionKeepsInv(t: Tenant, ready: bool)
    requires Inv(t)
    ensures Inv(Provision(t, ready))
  {
    var after := Provision(t, ready);
    LogGrows(t, after);
    assert after.audits[|t.audits|] == AuditRow(ProvisionTenant, t.lifecycle, after.lifecycle);
  }

  lemma StepKeepsInv(t: Tenant, op: Op)
    requires Inv(t)
    ensures Inv(After(t, op))
  {
    match op
    case Request(target, gate, owner) =>
      if Perform(t, op).Ok? {
        MovedKeepsInv(t, target, gate, owner);
      }
    case ToOnboarding(verified, owner) => AdvanceKeepsInv(t, AT_ONBOARDING, verified, owner);
    case ToReady(verified, owner) => AdvanceKeepsInv(t, AT_READY, verified, owner);
    case RunProvisioning(ready) => ProvisionKeepsInv(t, ready);
  }

  lemma AdvanceKeepsInv(t: Tenant, goal: nat, verified: bool, owner: bool)
    requires Inv(t) && goal in {AT_ONBOARDING, AT_READY}
    ensures Advance(t, goal, verified, owner).Ok? ==> Inv(Advance(t, goal, verified, owner).value)
  {
    if Current(t) in PIPELINE {
      WalkedKeepsInv(t, Index(Current(t)), Rest(Index(Current(t)), goal, verified));
    } else if !Current(t).ACTIVE? && Advance(t, goal, verified, owner).Ok? {
      MovedKeepsInv(t, PIPELINE[goal], Gate(None, None), owner);
    }
  }

  lemma {:induction false} RunKeepsInv(t: Tenant, ops: seq<Op>)
    requires Inv(t)
    ensures Inv(Run(t, ops))
    decreases |ops|
  {
    if ops != [] {
      StepKeepsInv(t, ops[0]);
      RunKeepsInv(After(t, ops[0]), ops[1..]);
    }
  }

  predicate New(t: Tenant) {
    Current(t).PROSPECT? && t.audits == []
  }

  /**
    Whatever is called in whatever order: the audit log chains to the present state, a tenant past
    the payment has the payment step or a shortcut in its log, and no tenant ever waits for its owner
    or client.
   */
  lemma PaymentCut(t: Tenant, ops: seq<Op>)
    requires New(t)
    ensures var end := Run(t, ops);
            && Chained(end)
            && !Current(end).WAITING_OWNER? && !Current(end).WAITING_CLIENT? && !Current(end).Unknown?
            && (!BeforePayment(Current(end)) && Current(end) !in {BLOCKED, ERROR} ==>
                  HasPaymentRow(end.audits) || HasShortcut(end.audits))
  {
    RunKeepsInv(t, ops);
  }

  // ----- Without platform owners and provisioning -----

  predicate Ordinary(op: Op) {
    !op.RunProvisioning? && !op.owner
  }

  predicate AllOrdinary(ops: seq<Op>) {
    forall k :: 0 <= k < |ops| ==> Ordinary(ops[k])
  }

  lemma {:induction false} RowsAreNoShortcut(from: nat, last: nat)
    requires last < |PIPELINE|
    ensures !HasShortcut(Rows(from, last))
    decreases last
  {
    if from < last {
      RowsAreNoShortcut(from, last - 1);
      assert forall k :: 0 <= k < |Rows(from, last - 1)| ==> Rows(from, last)[k] == Rows(from, last - 1)[k];
    }
  }

  lemma NoShortcutAppend(a: seq<AuditRow>, b: seq<AuditRow>)
    requires !HasShortcut(a) && !HasShortcut(b)
    ensures !HasShortcut(a + b)
  {
    forall k | 0 <= k < |a + b| ensures !IsShortcut((a + b)[k]) {
      assert (a + b)[k] == if k < |a| then a[k] else b[k - |a|];
    }
  }

  lemma OrdinaryStep(t: Tenant, op: Op)
    requires Ordinary(op) && !HasShortcut(t.audits)
    ensures !HasShortcut(After(t, op).audits)
    ensures Current(t) in {BLOCKED, ERROR} ==> Current(After(t, op)) == Current(t)
  {
    if op.Request? || Current(t) !in PIPELINE {
      if After(t, op).audits != t.audits {
        NoShortcutAppend(t.audits, [After(t, op).audits[|t.audits|]]);
      }
    } else {
      var goal := if op.ToOnboarding? then AT_ONBOARDING else AT_READY;
      var from := Index(Current(t));
      RowsAreNoShortcut(from, Rest(from, goal, op.verified));
      NoShortcutAppend(t.audits, Rows(from, Rest(from, goal, op.verified)));
    }
  }

  lemma {:induction false} OrdinaryRun(t: Tenant, ops: seq<Op>)
    requires AllOrdinary(ops) && !HasShortcut(t.audits)
    ensures !HasShortcut(Run(t, ops).audits)
    ensures Current(t) in {BLOCKED, ERROR} ==> Current(Run(t, ops)) == Current(t)
    decreases |ops|
  {
    if ops != [] {
      OrdinaryStep(t, ops[0]);
      OrdinaryRun(After(t, ops[0]), ops[1..]);
    }
  }

  /** With no platform owner and no provisioning, past the payment means the payment step was taken. */
  lemma PaymentStepWasTaken(t: Tenant, ops: seq<Op>)
    requires New(t) && AllOrdinary(ops)
    requires !BeforePayment(Current(Run(t, ops))) && Current(Run(t, ops)) !in {BLOCKED, ERROR}
    ensures HasPaymentRow(Run(t, ops).audits)
  {
    PaymentCut(t, ops);
    OrdinaryRun(t, ops);
  }

  /** Both ways round the payment step. */
  lemma ShortcutsSkipThePayment(t: Tenant, open: Gate)
    requires New(t) && t.lifecycle.Some? && ActivationGate(open).None?
    ensures Current(Run(t, [RunProvisioning(false)])).CONFIGURING?
    ensures !HasPaymentRow(Run(t, [RunProvisioning(false)]).audits)
    ensures Current(Run(t, [Request(BLOCKED, open, false), Request(ACTIVE, open, true)])).ACTIVE?
    ensures !HasPaymentRow(Run(t, [Request(BLOCKED, open, false), Request(ACTIVE, open, true)]).audits)
  {
    assert [RunProvisioning(false)][1..] == [];
    var blocked := After(t, Request(BLOCKED, open, false));
    var ops := [Request(BLOCKED, open, false), Request(ACTIVE, open, true)];
    assert ops[1..] == [Request(ACTIVE, open, true)] && ops[1..][1..] == [];
    assert Run(blocked, [Request(ACTIVE, open, true)]) == Run(After(blocked, Request(ACTIVE, open, true)), []);
  }

  // ----- Who says that the payment was verified -----

  /** A request for PAID by name, or an advance past the payment for which billing found evidence. */
  predicate Vouches(t: Tenant, op: Op) {
    || (op.Request? && op.target.PAID? && Current(t).WAITING_PAYMENT?)
    || ((op.ToOnboarding? || op.ToReady?) && op.verified && Current(t) in PIPELINE[..AT_WAITING + 1])
  }

  predicate SomeoneVouched(t: Tenant, ops: seq<Op>)
    decreases |ops|
  {
    ops != [] && (Vouches(t, ops[0]) || SomeoneVouched(After(t, ops[0]), ops[1..]))
  }

  lemma {:induction false} RowsPassPayment(from: nat, last: nat)
    requires last < |PIPELINE|
    ensures HasPaymentRow(Rows(from, last)) <==> from <= AT_WAITING < last
    decreases last
  {
    if from < last {
      RowsPassPayment(from, last - 1);
      var rows, init := Rows(from, last), Rows(from, last - 1);
      assert rows[|init|] == AuditRow(LifecycleTransition, Some(PIPELINE[last - 1]), Some(PIPELINE[last]));
      PaymentRowAppend(init, [rows[|init|]]);
      assert [rows[|init|]][0] == rows[|init|];
      assert IsPaymentRow(rows[|init|]) <==> last - 1 == AT_WAITING by {
        IndexOf(last - 1);
        IndexOf(AT_WAITING);
      }
    }
  }

  lemma PaymentRowAppend(a: seq<AuditRow>, b: seq<AuditRow>)
    ensures HasPaymentRow(a + b) <==> HasPaymentRow(a) || HasPaymentRow(b)
  {
    if HasPaymentRow(a + b) {
      var k :| 0 <= k < |a + b| && IsPaymentRow((a + b)[k]);
      assert (a + b)[k] == if k < |a| then a[k] else b[k - |a|];
    }
    if HasPaymentRow(a) {
      var k :| 0 <= k < |a| && IsPaymentRow(a[k]);
      assert (a + b)[k] == a[k];
    }
    if HasPaymentRow(b) {
      var k :| 0 <= k < |b| && IsPaymentRow(b[k]);
      assert (a + b)[|a| + k] == b[k];
    }
  }

  lemma StepKeepsPaymentRow(t: Tenant, op: Op)
    requires HasPaymentRow(t.audits)
    ensures HasPaymentRow(After(t, op).audits)
  {
    LogGrows(t, After(t, op));
  }

  lemma {:induction false} RunKeepsPaymentRow(t: Tenant, ops: seq<Op>)
    requires HasPaymentRow(t.audits)
    ensures HasPaymentRow(Run(t, ops).audits)
    decreases |ops|
  {
    if ops != [] {
      StepKeepsPaymentRow(t, ops[0]);
      RunKeepsPaymentRow(After(t, ops[0]), ops[1..]);
    }
  }

  lemma AdvancePaysIff(t: Tenant, op: Op)
    requires (op.ToOnboarding? || op.ToReady?) && Current(t) in PIPELINE && !HasPaymentRow(t.audits)
    ensures HasPaymentRow(After(t, op).audits) <==> Vouches(t, op)
  {
    var goal := if op.ToOnboarding? then AT_ONBOARDING else AT_READY;
    var from := Index(Current(t));
    RowsPassPayment(from, Rest(from, goal, op.verified));
    PaymentRowAppend(t.audits, Rows(from, Rest(from, goal, op.verified)));
    assert Current(t) in PIPELINE[..AT_WAITING + 1] <==> from <= AT_WAITING by {
      if from <= AT_WAITING {
        assert PIPELINE[..AT_WAITING + 1][from] == Current(t);
      }
    }
  }

  /** One operation takes the payment step if and only if it vouches for it. */
  lemma PaymentRowIsVouchedFor(t: Tenant, op: Op)
    requires !HasPaymentRow(t.audits)
    ensures HasPaymentRow(After(t, op).audits) <==> Vouches(t, op)
  {
    if (op.ToOnboarding? || op.ToReady?) && Current(t) in PIPELINE {
      AdvancePaysIff(t, op);
    } else if After(t, op).audits != t.audits {
      var row := After(t, op).audits[|t.audits|];
      assert After(t, op).audits == t.audits + [row];
      PaymentRowAppend(t.audits, [row]);
      assert [row][0] == row;
    }
  }

  /** The step is in the log exactly if billing confirmed it or somebody asked for PAID by name, which no billing check guards. */
  lemma {:induction false} PaymentStepIsVouchedFor(t: Tenant, ops: seq<Op>)
    requires !HasPaymentRow(t.audits)
    ensures HasPaymentRow(Run(t, ops).audits) <==> SomeoneVouched(t, ops)
    decreases |ops|
  {
    if ops != [] {
      PaymentRowIsVouchedFor(t, ops[0]);
      if Vouches(t, ops[0]) {
        RunKeepsPaymentRow(After(t, ops[0]), ops[1..]);
      } else {
        PaymentStepIsVouchedFor(After(t, ops[0]), ops[1..]);
      }
    }
  }

  // ----- Exactly who passes the payment step by -----

  /** Ready, subscribed, and either free of charge or flagged as paid. */
  predicate GateOpen(gate: Gate) {
    && gate.readinessReady == Some(true)
    && gate.subscription.Some?
    && gate.subscription.value.status in {BillingStates.TRIALING, BillingStates.ACTIVE}
    && (gate.subscription.value.amount > 0 ==> gate.subscription.value.verifiedPayment)
  }

  /** Past the payment only with the payment step in the log. */
  predicate PaidFor(t: Tenant) {
    BeforePayment(Current(t)) || Current(t) in {BLOCKED, ERROR} || HasPaymentRow(t.audits)
  }

  /** A recovery by a platform owner, or a provisioning run that finds the tenant ready or still a prospect. */
  predicate Skips(t: Tenant, op: Op) {
    match op
    case Request(target, gate, owner) =>
      && owner && Current(t) in {BLOCKED, ERROR}
      && (target in {ONBOARDING, CONFIGURING, TESTING, READY} || (target.ACTIVE? && GateOpen(gate)))
    case ToOnboarding(_, owner) => owner && Current(t) in {BLOCKED, ERROR}
    case ToReady(_, owner) => owner && Current(t) in {BLOCKED, ERROR}
    case RunProvisioning(ready) => ready || t.lifecycle == Some(PROSPECT)
  }

  lemma MoveSkipsIff(t: Tenant, target: State, gate: Gate, owner: bool)
    requires Known(Current(t)) && !HasPaymentRow(t.audits) && PaidFor(t)
    ensures PaidFor(After(t, Request(target, gate, owner))) <==> !Skips(t, Request(target, gate, owner))
  {
    if Validate(Current(t), target, gate, owner).None? {
      var row := AuditRow(LifecycleTransition, Some(Current(t)), Some(target));
      PaymentRowAppend(t.audits, [row]);
      assert [row][0] == row;
    }
  }

  lemma BeforePaymentIff(i: nat)
    requires i < |PIPELINE|
    ensures BeforePayment(PIPELINE[i]) <==> i <= AT_WAITING
    ensures PIPELINE[i] !in {BLOCKED, ERROR}
  {
  }

  /** A walk along the pipeline stops before the payment or takes the payment step. */
  lemma WalkPays(t: Tenant, op: Op)
    requires (op.ToOnboarding? || op.ToReady?) && Current(t) in PIPELINE
    requires !HasPaymentRow(t.audits) && PaidFor(t)
    ensures PaidFor(After(t, op))
  {
    var goal := if op.ToOnboarding? then AT_ONBOARDING else AT_READY;
    var from := Index(Current(t));
    var last := Rest(from, goal, op.verified);
    BeforePaymentIff(from);
    BeforePaymentIff(last);
    WalkIsInPipeline(t, goal, op.verified, op.owner);
    RowsPassPayment(from, last);
    PaymentRowAppend(t.audits, Rows(from, last));
  }

  lemma AdvanceSkipsIff(t: Tenant, op: Op)
    requires op.ToOnboarding? || op.ToReady?
    requires Known(Current(t)) && !HasPaymentRow(t.audits) && PaidFor(t)
    ensures PaidFor(After(t, op)) <==> !Skips(t, op)
  {
    if Current(t) in PIPELINE {
      WalkPays(t, op);
    } else {
      MoveSkipsIff(t, PIPELINE[if op.ToOnboarding? then AT_ONBOARDING else AT_READY], Gate(None, None), op.owner);
    }
  }

  lemma ProvisionSkipsIff(t: Tenant, ready: bool)
    requires Known(Current(t)) && !HasPaymentRow(t.audits) && PaidFor(t)
    ensures PaidFor(Provision(t, ready)) <==> !Skips(t, RunProvisioning(ready))
  {
    var row := AuditRow(ProvisionTenant, t.lifecycle, Provision(t, ready).lifecycle);
    PaymentRowAppend(t.audits, [row]);
    assert [row][0] == row;
  }

  /** One operation on a tenant that has not paid takes it past the payment if and only if it is one of these. */
  lemma PassesByIff(t: Tenant, op: Op)
    requires Known(Current(t)) && !HasPaymentRow(t.audits) && PaidFor(t)
    ensures PaidFor(After(t, op)) <==> !Skips(t, op)
  {
    match op
    case Request(target, gate, owner) => MoveSkipsIff(t, target, gate, owner);
    case RunProvisioning(ready) => ProvisionSkipsIff(t, ready);
    case _ => AdvanceSkipsIff(t, op);
  }

  /** Some operation of the run is one of these, before any payment step. */
  predicate SomeoneSkips(t: Tenant, ops: seq<Op>)
    decreases |ops|
  {
    && ops != [] && !HasPaymentRow(t.audits)
    && (Skips(t, ops[0]) || SomeoneSkips(After(t, ops[0]), ops[1..]))
  }

  lemma RunFromSecond(t: Tenant, ops: seq<Op>, n: nat)
    requires 0 < n <= |ops|
    ensures Run(t, ops[..n]) == Run(After(t, ops[0]), ops[1..][..n - 1])
  {
    assert ops[..n][0] == ops[0] && ops[..n][1..] == ops[1..][..n - 1];
  }

  predicate PaidForThroughout(t: Tenant, ops: seq<Op>) {
    forall n :: 0 <= n <= |ops| ==> PaidFor(Run(t, ops[..n]))
  }

  lemma ThroughoutFromSecond(t: Tenant, ops: seq<Op>)
    requires ops != [] && PaidFor(t)
    ensures PaidForThroughout(t, ops) <==> PaidForThroughout(After(t, ops[0]), ops[1..])
  {
    var after := After(t, ops[0]);
    if PaidForThroughout(t, ops) {
      forall n | 0 <= n <= |ops[1..]| ensures PaidFor(Run(after, ops[1..][..n])) {
        RunFromSecond(t, ops, n + 1);
        assert PaidFor(Run(t, ops[..n + 1]));
      }
    }
    if PaidForThroughout(after, ops[1..]) {
      forall n | 0 <= n <= |ops| ensures PaidFor(Run(t, ops[..n])) {
        if n == 0 {
          assert ops[..0] == [];
        } else {
          RunFromSecond(t, ops, n);
          assert PaidFor(Run(after, ops[1..][..n - 1]));
        }
      }
    }
  }

  /** At every point of a run, past the payment means the payment step was taken, if and only if nobody skipped it before. */
  lemma {:induction false} PaidForThroughoutIff(t: Tenant, ops: seq<Op>)
    requires Inv(t) && PaidFor(t)
    ensures PaidForThroughout(t, ops) <==> !SomeoneSkips(t, ops)
    decreases |ops|
  {
    if HasPaymentRow(t.audits) {
      forall n | 0 <= n <= |ops| ensures PaidFor(Run(t, ops[..n])) {
        RunKeepsPaymentRow(t, ops[..n]);
      }
    } else if ops == [] {
      assert forall n :: 0 <= n <= |ops| ==> ops[..n] == [];
    } else {
      var after := After(t, ops[0]);
      PassesByIff(t, ops[0]);
      ThroughoutFromSecond(t, ops);
      if PaidFor(after) {
        StepKeepsInv(t, ops[0]);
        PaidForThroughoutIff(after, ops[1..]);
      } else {
        assert ops[1..][..0] == [];
        assert !PaidFor(Run(after, ops[1..][..0]));
      }
    }
  }

  // ----- Activation -----

  predicate MayActivateFrom(state: State, owner: bool) {
    state in {READY, PAUSED} || (owner && state in {BLOCKED, ERROR})
  }

  /** Exactly how a tenant that is not ACTIVE becomes ACTIVE. */
  lemma EntryIntoActive(t: Tenant, op: Op)
    requires !Current(t).ACTIVE?
    ensures Current(After(t, op)).ACTIVE? <==>
              op.Request? && op.target.ACTIVE? && MayActivateFrom(Current(t), op.owner) && GateOpen(op.gate)
  {
    if op.ToOnboarding? || op.ToReady? {
      AdvanceNeverActivates(t, if op.ToOnboarding? then AT_ONBOARDING else AT_READY, op.verified, op.owner);
    }
  }

  lemma AdvanceNeverActivates(t: Tenant, goal: nat, verified: bool, owner: bool)
    requires goal in {AT_ONBOARDING, AT_READY} && !Current(t).ACTIVE?
    ensures var after := Advance(t, goal, verified, owner);
            after.Ok? ==> !Current(after.value).ACTIVE?
  {
    if Current(t) in PIPELINE {
      WalkIsInPipeline(t, goal, verified, owner);
    }
  }

  predicate SomeGateWasOpen(ops: seq<Op>) {
    exists k :: 0 <= k < |ops| && ops[k].Request? && ops[k].target.ACTIVE? && GateOpen(ops[k].gate)
  }

  lemma {:induction false} ActiveWentThroughTheGate(t: Tenant, ops: seq<Op>)
    requires !Current(t).ACTIVE? && Current(Run(t, ops)).ACTIVE?
    ensures SomeGateWasOpen(ops)
    decreases |ops|
  {
    if ops != [] {
      EntryIntoActive(t, ops[0]);
      if !Current(After(t, ops[0])).ACTIVE? {
        ActiveWentThroughTheGate(After(t, ops[0]), ops[1..]);
        var k :| 0 <= k < |ops[1..]| && ops[1..][k].Request? && ops[1..][k].target.ACTIVE? && GateOpen(ops[1..][k].gate);
        assert ops[k + 1] == ops[1..][k];
      }
    }
  }
}
