/**
  The idempotent execution protocol: any number of workers that share one (tenant, idempotency key).

  A unique index admits one row for the key.  A worker that inserts the row owns it until its
  transaction ends; nobody else sees the row before then, and a second insert waits for that
  transaction.  Reads see committed rows and the reader's own.
 */
module ExecutionProtocol {
  import opened Results

  type WorkerId = nat

  datatype Status = RUNNING | COMPLETED | FAILED
  datatype Row = Row(id: nat, status: Status, payload: string)

  const MAX_POLLS: nat := 50

  /** Where a worker stands in the operation. */
  datatype Pc =
    | Lookup
    | Await(polls: nat)           // saw a running row; about to make its polls-th fresh read
    | Insert
    | AwaitConflict(polls: nat)   // lost the insert; has slept polls times
    | Owns(id: nat, saved: bool)  // inserted the row; saved says whether it was committed early
    | Recorded(row: Row)          // the adapter has been called and its outcome written
    | Returned(row: Row)
    | Raised
    | RolledBack

  /** `pending` is the owner's uncommitted version of the row. */
  datatype System = System(
    committed: Option<Row>,
    pending: Option<(WorkerId, Row)>,
    workers: map<WorkerId, Pc>,
    calls: nat,
    rollbacks: nat)

  datatype Step =
    | Arrive(w: WorkerId)
    | Look(w: WorkerId)
    | Poll(w: WorkerId)
    | Refuse(w: WorkerId)                      // connection inactive or credential missing
    | TryInsert(w: WorkerId, id: nat)
    | PollConflict(w: WorkerId)
    | Save(w: WorkerId)                        // an adapter commits the session it was handed; none of the present ones does
    | Call(w: WorkerId, success: bool, payload: string)
    | Finish(w: WorkerId)
    | Rollback(w: WorkerId)

  // ----- What a worker does with the row it reads -----

  predicate IsFinal(row: Row) {
    row.status.COMPLETED? || row.status.FAILED?
  }

  function AfterLookup(existing: Option<Row>): Pc {
    if existing.None? then Insert
    else if IsFinal(existing.value) then Returned(existing.value)
    else Await(1)
  }

  function AfterPoll(existing: Option<Row>, polls: nat): Pc {
    if existing.None? then Insert
    else if IsFinal(existing.value) then Returned(existing.value)
    else if polls < MAX_POLLS then Await(polls + 1)
    else Insert
  }

  function AfterConflict(existing: Option<Row>, polls: nat): Pc {
    if (existing.None? || !IsFinal(existing.value)) && polls < MAX_POLLS then AwaitConflict(polls + 1)
    else if existing.Some? then Returned(existing.value)
    else Raised
  }

  /** A worker's polling run on its own, read by read. */
  function AwaitRun(seen: nat -> Option<Row>, polls: nat): Pc
    requires polls <= MAX_POLLS
    decreases MAX_POLLS - polls
  {
    match AfterPoll(seen(polls), polls)
    case Await(next) => AwaitRun(seen, next)
    case pc => pc
  }

  function LookupRun(seen: nat -> Option<Row>): Pc {
    match AfterLookup(seen(0))
    case Await(next) => AwaitRun(seen, next)
    case pc => pc
  }

  function ConflictRun(seen: nat -> Option<Row>, polls: nat): Pc
    requires polls <= MAX_POLLS
    decreases MAX_POLLS - polls
  {
    match AfterConflict(seen(polls), polls)
    case AwaitConflict(next) => ConflictRun(seen, next)
    case pc => pc
  }

  method AwaitExisting(seen: nat -> Option<Row>) returns (pc: Pc)
    ensures pc == LookupRun(seen)
    ensures pc.Insert? || (pc.Returned? && IsFinal(pc.row))
  {
    var existing := seen(0);
    if existing.Some? {
      var pollCount: nat := 0;
      while existing.Some? && existing.value.status.RUNNING? && pollCount < MAX_POLLS
        invariant pollCount <= MAX_POLLS && existing == seen(pollCount)
        invariant pollCount == 0 || LookupRun(seen) == AwaitRun(seen, pollCount)
        decreases MAX_POLLS - pollCount
      {
        pollCount := pollCount + 1;
        existing := seen(pollCount);
      }
      if existing.Some? && IsFinal(existing.value) {
        return Returned(existing.value);
      }
    }
    return Insert;
  }

  method AwaitAfterConflict(seen: nat -> Option<Row>) returns (pc: Pc)
    ensures pc == ConflictRun(seen, 0)
    ensures pc.Returned? || pc.Raised?
  {
    var pollCount: nat := 0;
    var existing := seen(0);
    while (existing.None? || existing.value.status.RUNNING?) && pollCount < MAX_POLLS
      invariant pollCount <= MAX_POLLS && existing == seen(pollCount)
      invariant ConflictRun(seen, 0) == ConflictRun(seen, pollCount)
      decreases MAX_POLLS - pollCount
    {
      pollCount := pollCount + 1;
      existing := seen(pollCount);
    }
    if existing.Some? {
      return Returned(existing.value);
    }
    return Raised;
  }

  // ----- The state machine -----

  function View(s: System, w: WorkerId): Option<Row> {
    if s.pending.Some? && s.pending.value.0 == w then Some(s.pending.value.1) else s.committed
  }

  /** An insert waits while another worker's uncommitted row occupies the key. */
  predicate Waits(s: System, w: WorkerId) {
    w in s.workers && s.workers[w].Insert? && s.committed.None? && s.pending.Some?
  }

  predicate Owner(s: System, w: WorkerId) {
    w in s.workers && (s.workers[w].Owns? || s.workers[w].Recorded?)
  }

  predicate Enabled(s: System, step: Step) {
    match step
    case Arrive(w) => w !in s.workers
    case Look(w) => w in s.workers && s.workers[w].Lookup?
    case Poll(w) => w in s.workers && s.workers[w].Await?
    case Refuse(w) => w in s.workers && s.workers[w].Insert?
    case TryInsert(w, _) => w in s.workers && s.workers[w].Insert? && !Waits(s, w)
    case PollConflict(w) => w in s.workers && s.workers[w].AwaitConflict?
    case Save(w) => w in s.workers && s.workers[w].Owns? && !s.workers[w].saved && s.pending.Some?
    case Call(w, _, _) => w in s.workers && s.workers[w].Owns?
    case Finish(w) => w in s.workers && s.workers[w].Recorded?
    case Rollback(w) => Owner(s, w)
  }

  function Apply(s: System, step: Step): System
    requires Enabled(s, step)
  {
    match step
    case Arrive(w) => s.(workers := s.workers[w := Lookup])
    case Look(w) => s.(workers := s.workers[w := AfterLookup(View(s, w))])
    case Poll(w) => s.(workers := s.workers[w := AfterPoll(View(s, w), s.workers[w].polls)])
    case Refuse(w) => s.(workers := s.workers[w := Raised])
    case TryInsert(w, id) =>
      if s.committed.Some? then s.(workers := s.workers[w := AwaitConflict(0)])
      else s.(pending := Some((w, Row(id, RUNNING, ""))), workers := s.workers[w := Owns(id, false)])
    case PollConflict(w) => s.(workers := s.workers[w := AfterConflict(View(s, w), s.workers[w].polls)])
    case Save(w) =>
      s.(committed := Some(s.pending.value.1), workers := s.workers[w := s.workers[w].(saved := true)])
    case Call(w, success, payload) =>
      var row := Row(s.workers[w].id, if success then COMPLETED else FAILED, payload);
      s.(pending := Some((w, row)), workers := s.workers[w := Recorded(row)], calls := s.calls + 1)
    case Finish(w) =>
      s.(committed := Some(s.workers[w].row), pending := None, workers := s.workers[w := Returned(s.workers[w].row)])
    case Rollback(w) =>
      s.(pending := None, workers := s.workers[w := RolledBack], rollbacks := s.rollbacks + 1)
  }

  const START := System(None, None, map[], 0, 0)

  predicate ValidRun(s: System, steps: seq<Step>)
    decreases |steps|
  {
    steps == [] || (Enabled(s, steps[0]) && ValidRun(Apply(s, steps[0]), steps[1..]))
  }

  function Run(s: System, steps: seq<Step>): System
    requires ValidRun(s, steps)
    decreases |steps|
  {
    if steps == [] then s else Run(Apply(s, steps[0]), steps[1..])
  }

  // ----- The invariant -----

  /** The single owner and the row it holds. */
  predicate OwnerInv(s: System) {
    && (forall w :: w in s.workers && Owner(s, w) ==> s.pending.Some? && s.pending.value.0 == w)
    && (s.pending.Some? ==>
          var (w, row) := s.pending.value;
          && Owner(s, w)
          && (s.workers[w].Owns? ==> row == Row(s.workers[w].id, RUNNING, "") && s.workers[w].saved == s.committed.Some?)
          && (s.workers[w].Recorded? ==> row == s.workers[w].row && IsFinal(row))
          && (s.committed.Some? ==> s.committed.value == Row(row.id, RUNNING, "")))
  }

  /** Every row handed to a caller is a version of the one committed row. */
  predicate ResultInv(s: System) {
    forall w :: w in s.workers && s.workers[w].Returned? ==>
      && s.committed.Some?
      && s.committed.value.id == s.workers[w].row.id
      && (IsFinal(s.workers[w].row) ==> s.committed.value == s.workers[w].row)
  }

  predicate PollInv(s: System) {
    forall w :: w in s.workers ==>
      && (s.workers[w].Await? ==> s.workers[w].polls <= MAX_POLLS)
      && (s.workers[w].AwaitConflict? ==> s.workers[w].polls <= MAX_POLLS && s.committed.Some?)
  }

  /** Calls that produced a row version still standing. */
  function Standing(s: System): nat {
    if s.pending.Some? then (if IsFinal(s.pending.value.1) then 1 else 0)
    else if s.committed.Some? then 1
    else 0
  }

  predicate CallInv(s: System) {
    && s.calls <= s.rollbacks + Standing(s)
    && ((s.pending.Some? && IsFinal(s.pending.value.1)) || (s.committed.Some? && IsFinal(s.committed.value)) ==> s.calls >= 1)
  }

  predicate Inv(s: System) {
    OwnerInv(s) && ResultInv(s) && PollInv(s) && CallInv(s)
  }

  /** A step that only moves a worker which is not the owner, to a place the row allows. */
  lemma MoveKeepsInv(s: System, w: WorkerId, pc: Pc)
    requires Inv(s) && !Owner(s, w) && !pc.Owns? && !pc.Recorded?
    requires pc.Await? ==> pc.polls <= MAX_POLLS
    requires pc.AwaitConflict? ==> pc.polls <= MAX_POLLS && s.committed.Some?
    requires pc.Returned? ==> s.committed == Some(pc.row)
    ensures Inv(s.(workers := s.workers[w := pc]))
  {
  }

  lemma InsertKeepsInv(s: System, w: WorkerId, id: nat)
    requires Inv(s) && Enabled(s, TryInsert(w, id))
    ensures Inv(Apply(s, TryInsert(w, id)))
  {
    if s.committed.Some? {
      MoveKeepsInv(s, w, AwaitConflict(0));
    }
  }

  lemma SaveKeepsInv(s: System, w: WorkerId)
    requires Inv(s) && Enabled(s, Save(w))
    ensures Inv(Apply(s, Save(w)))
  {
    assert Owner(s, w);
  }

  lemma CallKeepsInv(s: System, w: WorkerId, success: bool, payload: string)
    requires Inv(s) && Enabled(s, Call(w, success, payload))
    ensures Inv(Apply(s, Call(w, success, payload)))
  {
    assert Owner(s, w);
  }

  lemma FinishKeepsInv(s: System, w: WorkerId)
    requires Inv(s) && Enabled(s, Finish(w))
    ensures Inv(Apply(s, Finish(w)))
  {
    assert Owner(s, w);
  }

  lemma RollbackKeepsInv(s: System, w: WorkerId)
    requires Inv(s) && Enabled(s, Rollback(w))
    ensures Inv(Apply(s, Rollback(w)))
  {
  }

  lemma StepKeepsInv(s: System, step: Step)
    requires Inv(s) && Enabled(s, step)
    ensures Inv(Apply(s, step))
  {
    match step
    case Arrive(w) => MoveKeepsInv(s, w, Lookup);
    case Look(w) => MoveKeepsInv(s, w, AfterLookup(View(s, w)));
    case Poll(w) => MoveKeepsInv(s, w, AfterPoll(View(s, w), s.workers[w].polls));
    case Refuse(w) => MoveKeepsInv(s, w, Raised);
    case TryInsert(w, id) => InsertKeepsInv(s, w, id);
    case PollConflict(w) => MoveKeepsInv(s, w, AfterConflict(View(s, w), s.workers[w].polls));
    case Save(w) => SaveKeepsInv(s, w);
    case Call(w, success, payload) => CallKeepsInv(s, w, success, payload);
    case Finish(w) => FinishKeepsInv(s, w);
    case Rollback(w) => RollbackKeepsInv(s, w);
  }

  lemma {:induction false} RunKeepsInv(s: System, steps: seq<Step>)
    requires Inv(s) && ValidRun(s, steps)
    ensures Inv(Run(s, steps))
    decreases |steps|
  {
    if steps != [] {
      StepKeepsInv(s, steps[0]);
      RunKeepsInv(Apply(s, steps[0]), steps[1..]);
    }
  }

  // ----- Main results -----

  /** What a worker has handed to its caller, in a transaction that is still open or in one that has committed. */
  predicate HasResult(s: System, w: WorkerId) {
    w in s.workers && (s.workers[w].Recorded? || s.workers[w].Returned?)
  }

  function CallsIn(steps: seq<Step>): nat {
    if steps == [] then 0 else (if steps[0].Call? then 1 else 0) + CallsIn(steps[1..])
  }

  function RollbacksIn(steps: seq<Step>): nat {
    if steps == [] then 0 else (if steps[0].Rollback? then 1 else 0) + RollbacksIn(steps[1..])
  }

  lemma {:induction false} StepsAreCounted(s: System, steps: seq<Step>)
    requires ValidRun(s, steps)
    ensures Run(s, steps).calls == s.calls + CallsIn(steps)
    ensures Run(s, steps).rollbacks == s.rollbacks + RollbacksIn(steps)
    decreases |steps|
  {
    if steps != [] {
      StepsAreCounted(Apply(s, steps[0]), steps[1..]);
    }
  }

  /** Over every interleaving the adapter is called by at most one worker more than there were owners that rolled back. */
  lemma AdapterCalledAtMostOncePerOwner(steps: seq<Step>)
    requires ValidRun(START, steps)
    ensures Run(START, steps).calls == CallsIn(steps) && Run(START, steps).rollbacks == RollbacksIn(steps)
    ensures CallsIn(steps) <= 1 + RollbacksIn(steps)
  {
    RunKeepsInv(START, steps);
    StepsAreCounted(START, steps);
  }

  /** With no rollback, a final result means that exactly one call was made. */
  lemma ExactlyOneCall(steps: seq<Step>, w: WorkerId)
    requires ValidRun(START, steps) && RollbacksIn(steps) == 0
    requires HasResult(Run(START, steps), w) && IsFinal(Run(START, steps).workers[w].row)
    ensures CallsIn(steps) == 1
  {
    RunKeepsInv(START, steps);
    StepsAreCounted(START, steps);
    assert Run(START, steps).workers[w].Recorded? ==> Owner(Run(START, steps), w);
  }

  /** All results that stand carry one execution id and all final ones are equal, rollbacks or not. */
  lemma ResultsAgree(steps: seq<Step>, v: WorkerId, w: WorkerId)
    requires ValidRun(START, steps) && HasResult(Run(START, steps), v) && HasResult(Run(START, steps), w)
    ensures var s := Run(START, steps);
            && s.workers[v].row.id == s.workers[w].row.id
            && (IsFinal(s.workers[v].row) && IsFinal(s.workers[w].row) ==> s.workers[v].row == s.workers[w].row)
  {
    RunKeepsInv(START, steps);
    var s := Run(START, steps);
    assert s.workers[v].Recorded? ==> Owner(s, v);
    assert s.workers[w].Recorded? ==> Owner(s, w);
  }

  /** A lost insert always finds the winner's row: the re-raise after polling is unreachable. */
  lemma ConflictNeverRaises(steps: seq<Step>, w: WorkerId)
    requires ValidRun(START, steps) && Enabled(Run(START, steps), PollConflict(w))
    ensures !Apply(Run(START, steps), PollConflict(w)).workers[w].Raised?
  {
    RunKeepsInv(START, steps);
  }

  // ----- What the results are -----

  /** A final version of the row, committed, about to be, or in somebody's hands. */
  predicate Stands(s: System, row: Row) {
    && IsFinal(row)
    && (s.committed == Some(row) || (s.pending.Some? && s.pending.value.1 == row) ||
        exists w :: w in s.workers && HasResult(s, w) && s.workers[w].row == row)
  }

  /** The call of the worker that inserted the row: what the adapter reported is what was recorded. */
  predicate Reports(call: Step, row: Row) {
    && call.Call?
    && call.payload == row.payload
    && row.status == if call.success then COMPLETED else FAILED
  }

  lemma StandingStep(s: System, step: Step, row: Row)
    requires Inv(s) && Enabled(s, step) && Stands(Apply(s, step), row)
    ensures Stands(s, row) || (Reports(step, row) && s.workers[step.w] == Owns(row.id, s.workers[step.w].saved))
  {
    var s' := Apply(s, step);
    if exists w :: w in s'.workers && HasResult(s', w) && s'.workers[w].row == row {
      var w :| w in s'.workers && HasResult(s', w) && s'.workers[w].row == row;
      if w in s.workers && HasResult(s, w) && s.workers[w].row == row {
        assert Stands(s, row);
      }
    }
  }

  lemma OwningStep(s: System, step: Step, w: WorkerId)
    requires Enabled(s, step) && w in Apply(s, step).workers && Apply(s, step).workers[w].Owns?
    ensures var id := Apply(s, step).workers[w].id;
            step == TryInsert(w, id) || (w in s.workers && s.workers[w].Owns? && s.workers[w].id == id)
  {
  }

  /** Whoever owns a row has inserted it. */
  lemma {:induction false} OwnerInserted(s: System, steps: seq<Step>, w: WorkerId)
    requires ValidRun(s, steps) && w in Run(s, steps).workers && Run(s, steps).workers[w].Owns?
    ensures var id := Run(s, steps).workers[w].id;
            TryInsert(w, id) in steps || (w in s.workers && s.workers[w].Owns? && s.workers[w].id == id)
    decreases |steps|
  {
    if steps != [] {
      OwnerInserted(Apply(s, steps[0]), steps[1..], w);
      var id := Run(s, steps).workers[w].id;
      if TryInsert(w, id) !in steps[1..] {
        OwningStep(s, steps[0], w);
      }
    }
  }

  /** A call of the run, made at `k` by the worker that owned the row. */
  predicate CalledAt(s: System, steps: seq<Step>, k: nat, row: Row)
    requires ValidRun(s, steps)
  {
    && k < |steps| && Reports(steps[k], row)
    && ValidRun(s, steps[..k])
    && var w := steps[k].w;
    && w in Run(s, steps[..k]).workers && Run(s, steps[..k]).workers[w].Owns? && Run(s, steps[..k]).workers[w].id == row.id
  }

  lemma CalledLater(s: System, steps: seq<Step>, k: nat, row: Row)
    requires ValidRun(s, steps) && steps != [] && CalledAt(Apply(s, steps[0]), steps[1..], k, row)
    ensures CalledAt(s, steps, k + 1, row)
  {
    assert steps[..k + 1][1..] == steps[1..][..k] && steps[..k + 1][0] == steps[0];
  }

  lemma {:induction false} StandingWasCalled(s: System, steps: seq<Step>, row: Row) returns (k: nat)
    requires Inv(s) && ValidRun(s, steps) && Stands(Run(s, steps), row) && !Stands(s, row)
    ensures CalledAt(s, steps, k, row)
    decreases |steps|
  {
    var s1 := Apply(s, steps[0]);
    if Stands(s1, row) {
      StandingStep(s, steps[0], row);
      assert steps[..0] == [];
      k := 0;
    } else {
      StepKeepsInv(s, steps[0]);
      var later := StandingWasCalled(s1, steps[1..], row);
      CalledLater(s, steps, later, row);
      k := later + 1;
    }
  }

  lemma {:induction false} PrefixIsIn(steps: seq<Step>, k: nat, step: Step)
    requires k <= |steps| && step in steps[..k]
    ensures step in steps
  {
  }

  /** The outcome of a call of this run by the worker that inserted the row under this id. */
  predicate IsOutcome(steps: seq<Step>, call: Step, row: Row) {
    call in steps && Reports(call, row) && TryInsert(call.w, row.id) in steps
  }

  /**
    Every final result that stands is the outcome of an adapter call of the run, made by the worker that
    inserted the row: COMPLETED if and only if the call succeeded, with the payload it reported.
   */
  lemma ResultsAreOutcomes(steps: seq<Step>, w: WorkerId)
    requires ValidRun(START, steps) && HasResult(Run(START, steps), w) && IsFinal(Run(START, steps).workers[w].row)
    ensures exists call :: IsOutcome(steps, call, Run(START, steps).workers[w].row)
  {
    var row := Run(START, steps).workers[w].row;
    assert Stands(Run(START, steps), row);
    var k := StandingWasCalled(START, steps, row);
    OwnerInserted(START, steps[..k], steps[k].w);
    PrefixIsIn(steps, k, TryInsert(steps[k].w, row.id));
    assert IsOutcome(steps, steps[k], row);
  }

  lemma {:induction false} OnlyOneCall(steps: seq<Step>, a: Step, b: Step)
    requires a in steps && b in steps && a.Call? && b.Call? && CallsIn(steps) <= 1
    ensures a == b
  {
    if a in steps[1..] && b in steps[1..] {
      OnlyOneCall(steps[1..], a, b);
    } else if a in steps[1..] || b in steps[1..] {
      SomeCallCounts(steps[1..], if a in steps[1..] then a else b);
    }
  }

  lemma {:induction false} SomeCallCounts(steps: seq<Step>, call: Step)
    requires call in steps && call.Call?
    ensures CallsIn(steps) >= 1
  {
    if steps[0] != call {
      SomeCallCounts(steps[1..], call);
    }
  }

  /** With no rollback, whichever call the run made, every final result is its outcome. */
  lemma EveryoneGetsTheOutcome(steps: seq<Step>, call: Step, w: WorkerId)
    requires ValidRun(START, steps) && RollbacksIn(steps) == 0 && call in steps && call.Call?
    requires HasResult(Run(START, steps), w) && IsFinal(Run(START, steps).workers[w].row)
    ensures IsOutcome(steps, call, Run(START, steps).workers[w].row)
  {
    ResultsAreOutcomes(steps, w);
    var other :| IsOutcome(steps, other, Run(START, steps).workers[w].row);
    AdapterCalledAtMostOncePerOwner(steps);
    OnlyOneCall(steps, call, other);
  }

  lemma Prepend(s: System, step: Step, s': System, rest: seq<Step>)
    requires Enabled(s, step) && Apply(s, step) == s' && ValidRun(s', rest)
    ensures ValidRun(s, [step] + rest) && Run(s, [step] + rest) == Run(s', rest)
  {
    assert ([step] + rest)[1..] == rest;
  }

  /** A worker on its own gets through, and its caller is told what the adapter reported; so is one that comes later. */
  lemma AloneCompletes(v: WorkerId, w: WorkerId, id: nat, success: bool, payload: string)
    requires v != w
    ensures var steps := [Arrive(v)] + ([Look(v)] + ([TryInsert(v, id)] + ([Call(v, success, payload)] + ([Finish(v)] +
                         ([Arrive(w)] + ([Look(w)] + []))))));
            var row := Row(id, if success then COMPLETED else FAILED, payload);
            && ValidRun(START, steps)
            && Run(START, steps).committed == Some(row)
            && Run(START, steps).workers == map[v := Returned(row), w := Returned(row)]
  {
    var row := Row(id, if success then COMPLETED else FAILED, payload);
    var s5 := System(Some(row), None, map[v := Returned(row)], 1, 0);
    Prepend(s5.(workers := map[v := Returned(row), w := Lookup]), Look(w),
            s5.(workers := map[v := Returned(row), w := Returned(row)]), []);
    Prepend(s5, Arrive(w), s5.(workers := map[v := Returned(row), w := Lookup]), [Look(w)] + []);
    var rest := [Arrive(w)] + ([Look(w)] + []);
    var s4 := System(None, Some((v, row)), map[v := Recorded(row)], 1, 0);
    Prepend(s4, Finish(v), s5, rest);
    var s3 := System(None, Some((v, Row(id, RUNNING, ""))), map[v := Owns(id, false)], 0, 0);
    Prepend(s3, Call(v, success, payload), s4, [Finish(v)] + rest);
    var s2 := System(None, None, map[v := Insert], 0, 0);
    Prepend(s2, TryInsert(v, id), s3, [Call(v, success, payload)] + ([Finish(v)] + rest));
    var s1 := System(None, None, map[v := Lookup], 0, 0);
    Prepend(s1, Look(v), s2, [TryInsert(v, id)] + ([Call(v, success, payload)] + ([Finish(v)] + rest)));
    Prepend(START, Arrive(v), s1, [Look(v)] + ([TryInsert(v, id)] + ([Call(v, success, payload)] + ([Finish(v)] + rest))));
  }

  // ----- Rows become visible only when they are final -----

  /** No adapter commits the session early. */
  predicate Direct(steps: seq<Step>) {
    forall k :: 0 <= k < |steps| ==> !steps[k].Save?
  }

  /** Nobody has ever seen a running row of somebody else. */
  predicate DirectInv(s: System) {
    && (s.committed.Some? ==> IsFinal(s.committed.value))
    && forall w :: w in s.workers ==>
         && !s.workers[w].Await?
         && (s.workers[w].AwaitConflict? ==> s.workers[w].polls == 0)
         && (s.workers[w].Owns? ==> !s.workers[w].saved)
         && (s.workers[w].Returned? ==> IsFinal(s.workers[w].row))
  }

  lemma DirectStep(s: System, step: Step)
    requires Inv(s) && DirectInv(s) && Enabled(s, step) && !step.Save?
    ensures DirectInv(Apply(s, step))
  {
    assert step.Finish? ==> Owner(s, step.w);
  }

  lemma {:induction false} DirectRun(s: System, steps: seq<Step>)
    requires Inv(s) && DirectInv(s) && ValidRun(s, steps) && Direct(steps)
    ensures Inv(Run(s, steps)) && DirectInv(Run(s, steps))
    decreases |steps|
  {
    if steps != [] {
      StepKeepsInv(s, steps[0]);
      DirectStep(s, steps[0]);
      DirectRun(Apply(s, steps[0]), steps[1..]);
    }
  }

  /**
    Row and outcome are committed together, so the two poll loops never go round: no worker waits for
    a running row, a lost insert reads its result at once, and every result is final.
   */
  lemma NobodyPolls(steps: seq<Step>, w: WorkerId)
    requires ValidRun(START, steps) && Direct(steps) && w in Run(START, steps).workers
    ensures var pc := Run(START, steps).workers[w];
            && !pc.Await?
            && (pc.AwaitConflict? ==> pc.polls == 0)
            && (pc.Returned? ==> IsFinal(pc.row))
  {
    DirectRun(START, steps);
  }

  /** All results that stand are the same row. */
  lemma OneResult(steps: seq<Step>, v: WorkerId, w: WorkerId)
    requires ValidRun(START, steps) && Direct(steps) && HasResult(Run(START, steps), v) && HasResult(Run(START, steps), w)
    ensures Run(START, steps).workers[v].row == Run(START, steps).workers[w].row
  {
    DirectRun(START, steps);
    ResultsAgree(steps, v, w);
    var s := Run(START, steps);
    assert s.workers[v].Recorded? ==> Owner(s, v);
    assert s.workers[w].Recorded? ==> Owner(s, w);
  }

  // ----- Were an adapter to commit early -----

  /** A committed row without an owner stays as it is, and the adapter is not called again. */
  lemma {:induction false} AbandonedRowNeverRuns(s: System, steps: seq<Step>)
    requires Inv(s) && ValidRun(s, steps)
    requires s.committed.Some? && s.pending.None?
    ensures Run(s, steps).committed == s.committed && Run(s, steps).calls == s.calls
    decreases |steps|
  {
    if steps != [] {
      StepKeepsInv(s, steps[0]);
      assert !Owner(s, Actor(steps[0]));
      AbandonedRowNeverRuns(Apply(s, steps[0]), steps[1..]);
    }
  }

  function SaveAndDie(w: WorkerId, id: nat): seq<Step> {
    [Arrive(w)] + ([Look(w)] + ([TryInsert(w, id)] + ([Save(w)] + ([Rollback(w)] + []))))
  }

  lemma {:induction false} RunsAppend(s: System, first: seq<Step>, second: seq<Step>)
    requires ValidRun(s, first) && ValidRun(Run(s, first), second)
    ensures ValidRun(s, first + second) && Run(s, first + second) == Run(Run(s, first), second)
    decreases |first|
  {
    if first == [] {
      assert first + second == second;
    } else {
      assert (first + second)[1..] == first[1..] + second;
      RunsAppend(Apply(s, first[0]), first[1..], second);
    }
  }

  lemma SaveAndDieRuns(w: WorkerId, id: nat)
    ensures ValidRun(START, SaveAndDie(w, id))
    ensures var s := Run(START, SaveAndDie(w, id));
            s.committed == Some(Row(id, RUNNING, "")) && s.pending.None? && s.calls == 0
  {
    var row := Row(id, RUNNING, "");
    var s1 := System(None, None, map[w := Lookup], 0, 0);
    var s2 := System(None, None, map[w := Insert], 0, 0);
    var s3 := System(None, Some((w, row)), map[w := Owns(id, false)], 0, 0);
    var s4 := System(Some(row), Some((w, row)), map[w := Owns(id, true)], 0, 0);
    var s5 := System(Some(row), None, map[w := RolledBack], 0, 1);
    Prepend(s4, Rollback(w), s5, []);
    Prepend(s3, Save(w), s4, [Rollback(w)] + []);
    Prepend(s2, TryInsert(w, id), s3, [Save(w)] + ([Rollback(w)] + []));
    Prepend(s1, Look(w), s2, [TryInsert(w, id)] + ([Save(w)] + ([Rollback(w)] + [])));
    Prepend(START, Arrive(w), s1, [Look(w)] + ([TryInsert(w, id)] + ([Save(w)] + ([Rollback(w)] + []))));
  }

  /** An owner that commits early and then rolls back uses up the key: the operation never runs under it. */
  lemma EarlyCommitUsesUpTheKey(w: WorkerId, id: nat, later: seq<Step>)
    requires ValidRun(START, SaveAndDie(w, id)) && ValidRun(Run(START, SaveAndDie(w, id)), later)
    ensures ValidRun(START, SaveAndDie(w, id) + later)
    ensures var s := Run(START, SaveAndDie(w, id) + later);
            s.committed == Some(Row(id, RUNNING, "")) && s.calls == 0
  {
    SaveAndDieRuns(w, id);
    RunsAppend(START, SaveAndDie(w, id), later);
    RunKeepsInv(START, SaveAndDie(w, id));
    AbandonedRowNeverRuns(Run(START, SaveAndDie(w, id)), later);
  }

  // ----- Termination and progress -----

  function Actor(step: Step): WorkerId {
    step.w
  }

  /** How many steps a worker can still take. */
  function Rank(pc: Pc): nat {
    match pc
    case Lookup => 2 * MAX_POLLS + 4
    case Await(n) => if n <= MAX_POLLS then 2 * MAX_POLLS + 3 - n + 1 else MAX_POLLS + 4
    case Insert => MAX_POLLS + 3
    case AwaitConflict(n) => if n <= MAX_POLLS then MAX_POLLS - n + 1 else 1
    case Owns(_, saved) => if saved then 2 else 3
    case Recorded(_) => 1
    case _ => 0
  }

  function StepsOf(steps: seq<Step>, w: WorkerId): nat {
    if steps == [] then 0 else (if Actor(steps[0]) == w then 1 else 0) + StepsOf(steps[1..], w)
  }

  lemma StepsLowerRank(s: System, step: Step, w: WorkerId)
    requires Inv(s) && Enabled(s, step) && w in s.workers
    ensures w in Apply(s, step).workers
    ensures Rank(Apply(s, step).workers[w]) + (if Actor(step) == w then 1 else 0) <= Rank(s.workers[w])
  {
  }

  /** However the others are scheduled, a worker takes at most 104 steps after it arrives. */
  lemma {:induction false} WorkersTerminate(s: System, steps: seq<Step>, w: WorkerId)
    requires Inv(s) && ValidRun(s, steps) && w in s.workers
    ensures w in Run(s, steps).workers
    ensures StepsOf(steps, w) + Rank(Run(s, steps).workers[w]) <= Rank(s.workers[w]) <= 104
    decreases |steps|
  {
    if steps != [] {
      StepKeepsInv(s, steps[0]);
      StepsLowerRank(s, steps[0], w);
      WorkersTerminate(Apply(s, steps[0]), steps[1..], w);
    }
  }

  /** The same without early commits. */
  function DirectRank(pc: Pc): nat {
    match pc
    case Lookup => 4
    case Insert => 3
    case Owns(_, _) => 2
    case AwaitConflict(_) => 1
    case Recorded(_) => 1
    case _ => 0
  }

  lemma DirectStepLowersRank(s: System, step: Step, w: WorkerId)
    requires Inv(s) && DirectInv(s) && Enabled(s, step) && !step.Save? && w in s.workers
    ensures w in Apply(s, step).workers
    ensures DirectRank(Apply(s, step).workers[w]) + (if Actor(step) == w then 1 else 0) <= DirectRank(s.workers[w])
  {
  }

  /** Without early commits a worker is done within four steps of its own. */
  lemma {:induction false} DirectWorkersTerminate(s: System, steps: seq<Step>, w: WorkerId)
    requires Inv(s) && DirectInv(s) && ValidRun(s, steps) && Direct(steps) && w in s.workers
    ensures w in Run(s, steps).workers
    ensures StepsOf(steps, w) + DirectRank(Run(s, steps).workers[w]) <= DirectRank(s.workers[w]) <= 4
    decreases |steps|
  {
    if steps != [] {
      StepKeepsInv(s, steps[0]);
      DirectStep(s, steps[0]);
      DirectStepLowersRank(s, steps[0], w);
      DirectWorkersTerminate(Apply(s, steps[0]), steps[1..], w);
    }
  }

  predicate Done(pc: Pc) {
    pc.Returned? || pc.Raised? || pc.RolledBack?
  }

  /** A waiting insert is the only blocked step, and the owner it waits for can always move. */
  lemma SomeoneMoves(steps: seq<Step>, w: WorkerId)
    requires ValidRun(START, steps)
    requires w in Run(START, steps).workers && !Done(Run(START, steps).workers[w])
    ensures var s := Run(START, steps);
            exists step :: Enabled(s, step) && !step.Arrive? && !step.Rollback? && !step.Refuse?
                           && (Waits(s, w) ==> Owner(s, Actor(step))) && (!Waits(s, w) ==> Actor(step) == w)
  {
    var s := Run(START, steps);
    RunKeepsInv(START, steps);
    var u := if Waits(s, w) then s.pending.value.0 else w;
    var step := match s.workers[u]
      case Lookup => Look(u)
      case Await(_) => Poll(u)
      case Insert => TryInsert(u, 0)
      case AwaitConflict(_) => PollConflict(u)
      case Owns(_, _) => Call(u, true, "")
      case _ => Finish(u);
    assert Enabled(s, step) && Actor(step) == u;
  }
}
