/**
  The same blocking increments made by several workers at once.  The check reads the stored usage and
  the record is written later, with no lock in between.
 */
module UsageRace {
  import opened Results
  import opened Usage
  import opened Entitlement

  /** One slot per worker: the quantity it has checked and not yet written. */
  datatype State = State(usage: int, pending: seq<Option<int>>)

  datatype Step =
    | Check(w: nat, quantity: int)
    | Write(w: nat)
    | Drop(w: nat)

  predicate Enabled(s: State, step: Step) {
    && step.w < |s.pending|
    && match step
       case Check(w, _) => s.pending[w].None?
       case Write(w) => s.pending[w].Some?
       case Drop(w) => s.pending[w].Some?
  }

  function Apply(s: State, step: Step, limit: int): State
    requires Enabled(s, step)
  {
    match step
    case Check(w, quantity) =>
      if OverLimit(limit, s.usage + quantity) then s else s.(pending := s.pending[w := Some(quantity)])
    case Write(w) => State(s.usage + s.pending[w].value, s.pending[w := None])
    case Drop(w) => s.(pending := s.pending[w := None])
  }

  predicate ValidRun(s: State, steps: seq<Step>, limit: int)
    decreases |steps|
  {
    steps == [] || (Enabled(s, steps[0]) && ValidRun(Apply(s, steps[0], limit), steps[1..], limit))
  }

  function Run(s: State, steps: seq<Step>, limit: int): State
    requires ValidRun(s, steps, limit)
    decreases |steps|
  {
    if steps == [] then s else Run(Apply(s, steps[0], limit), steps[1..], limit)
  }

  predicate Sized(steps: seq<Step>, most: int) {
    forall k :: 0 <= k < |steps| && steps[k].Check? ==> 0 <= steps[k].quantity <= most
  }

  function Waiting(pending: seq<Option<int>>): int {
    if pending == [] then 0
    else
      var last := pending[|pending| - 1];
      Waiting(pending[..|pending| - 1]) + if last.Some? then last.value else 0
  }

  function Value(slot: Option<int>): int {
    if slot.Some? then slot.value else 0
  }

  predicate SlotsSized(pending: seq<Option<int>>, most: int) {
    forall w :: 0 <= w < |pending| && pending[w].Some? ==> 0 <= pending[w].value <= most
  }

  lemma {:induction false} WaitingUpdate(pending: seq<Option<int>>, w: nat, slot: Option<int>)
    requires w < |pending|
    ensures Waiting(pending[w := slot]) == Waiting(pending) - Value(pending[w]) + Value(slot)
  {
    var n := |pending| - 1;
    if w == n {
      assert pending[w := slot][..n] == pending[..n];
    } else {
      assert pending[w := slot][..n] == pending[..n][w := slot];
      WaitingUpdate(pending[..n], w, slot);
    }
  }

  lemma {:induction false} WaitingBound(pending: seq<Option<int>>, most: int)
    requires SlotsSized(pending, most) && most >= 0
    ensures 0 <= Waiting(pending) <= |pending| * most
  {
    if pending != [] {
      WaitingBound(pending[..|pending| - 1], most);
      assert |pending| * most == (|pending| - 1) * most + most;
    }
  }

  /** No accepted increment is larger than the largest asked for, nor than the limit. */
  function Largest(most: int, limit: int): int {
    if most < limit then most else limit
  }

  /** What is stored plus what is about to be stored. */
  function Bound(s: State, limit: int, most: int): int {
    limit + (|s.pending| - 1) * Largest(most, limit)
  }

  predicate Inv(s: State, limit: int, most: int) {
    && s.usage >= 0
    && SlotsSized(s.pending, Largest(most, limit))
    && s.usage + Waiting(s.pending) <= Bound(s, limit, most)
  }

  /** With one slot empty, the others hold at most `most` each. */
  lemma {:induction false} OthersBound(pending: seq<Option<int>>, w: nat, most: int)
    requires w < |pending| && pending[w].None? && SlotsSized(pending, most) && most >= 0
    ensures Waiting(pending) <= (|pending| - 1) * most
  {
    var n := |pending| - 1;
    if w == n {
      WaitingBound(pending[..n], most);
    } else {
      OthersBound(pending[..n], w, most);
      assert n * most == (n - 1) * most + most;
    }
  }

  lemma ProductIsNonNegative(a: int, b: int)
    requires a >= 0 && b >= 0
    ensures a * b >= 0
  {
  }

  lemma StepKeepsInv(s: State, step: Step, limit: int, most: int)
    requires Inv(s, limit, most) && Enabled(s, step) && most >= 0 && limit >= 0
    requires step.Check? ==> 0 <= step.quantity <= most
    ensures Inv(Apply(s, step, limit), limit, most)
  {
    var s' := Apply(s, step, limit);
    match step
    case Check(w, quantity) =>
      if s' != s {
        WaitingUpdate(s.pending, w, Some(quantity));
        OthersBound(s.pending, w, Largest(most, limit));
      }
    case Write(w) => WaitingUpdate(s.pending, w, None);
    case Drop(w) => WaitingUpdate(s.pending, w, None);
  }

  lemma {:induction false} RunKeepsInv(s: State, steps: seq<Step>, limit: int, most: int)
    requires Inv(s, limit, most) && ValidRun(s, steps, limit) && Sized(steps, most) && most >= 0 && limit >= 0
    ensures Inv(Run(s, steps, limit), limit, most) && |Run(s, steps, limit).pending| == |s.pending|
    decreases |steps|
  {
    if steps != [] {
      StepKeepsInv(s, steps[0], limit, most);
      RunKeepsInv(Apply(s, steps[0], limit), steps[1..], limit, most);
    }
  }

  /** `workers` idle workers. */
  function Idle(usage: int, workers: nat): State {
    State(usage, seq(workers, _ => None))
  }

  /**
    For every interleaving of `workers` workers whose increments are at most `most`, usage passes the
    limit by at most (workers - 1) times the largest increment that can be accepted.
   */
  lemma OvershootIsBounded(usage: int, workers: nat, steps: seq<Step>, limit: int, most: int)
    requires workers >= 1 && 0 <= usage <= limit && most >= 0
    requires ValidRun(Idle(usage, workers), steps, limit) && Sized(steps, most)
    ensures Run(Idle(usage, workers), steps, limit).usage <= limit + (workers - 1) * Largest(most, limit)
  {
    var s := Idle(usage, workers);
    var largest := Largest(most, limit);
    assert Inv(s, limit, most) by {
      WaitingIdle(workers);
      ProductIsNonNegative(workers - 1, largest);
    }
    RunKeepsInv(s, steps, limit, most);
    InvBounds(Run(s, steps, limit), limit, most);
  }

  lemma InvBounds(s: State, limit: int, most: int)
    requires Inv(s, limit, most) && most >= 0 && limit >= 0
    ensures s.usage <= Bound(s, limit, most)
  {
    WaitingBound(s.pending, Largest(most, limit));
  }

  lemma {:induction false} WaitingIdle(workers: nat)
    ensures Waiting(seq<Option<int>>(workers, _ => None)) == 0
  {
    var slots := seq<Option<int>>(workers, _ => None);
    if workers > 0 {
      assert slots[..workers - 1] == seq<Option<int>>(workers - 1, _ => None);
      WaitingIdle(workers - 1);
    }
  }

  // ----- The bound is reached -----

  function Checks(from: nat, workers: nat, quantity: int): seq<Step>
    requires from <= workers
    decreases workers - from
  {
    if from == workers then [] else [Check(from, quantity)] + Checks(from + 1, workers, quantity)
  }

  function Writes(from: nat, workers: nat): seq<Step>
    requires from <= workers
    decreases workers - from
  {
    if from == workers then [] else [Write(from)] + Writes(from + 1, workers)
  }

  /** The first `done` of `workers` workers have checked `quantity`. */
  function Checked(usage: int, done: nat, workers: nat, quantity: int): State {
    State(usage, seq(workers, w => if w < done then Some(quantity) else None))
  }

  function Written(usage: int, done: nat, workers: nat, quantity: int): State {
    State(usage, seq(workers, w => if w < done then None else Some(quantity)))
  }

  lemma {:induction false} AllCheck(usage: int, from: nat, workers: nat, quantity: int, limit: int)
    requires from <= workers && !OverLimit(limit, usage + quantity)
    ensures ValidRun(Checked(usage, from, workers, quantity), Checks(from, workers, quantity), limit)
    ensures Run(Checked(usage, from, workers, quantity), Checks(from, workers, quantity), limit) ==
            Checked(usage, workers, workers, quantity)
    decreases workers - from
  {
    if from < workers {
      var s := Checked(usage, from, workers, quantity);
      assert Apply(s, Check(from, quantity), limit) == Checked(usage, from + 1, workers, quantity);
      assert Checks(from, workers, quantity)[1..] == Checks(from + 1, workers, quantity);
      AllCheck(usage, from + 1, workers, quantity, limit);
    }
  }

  lemma {:induction false} AllWrite(usage: int, from: nat, workers: nat, quantity: int, limit: int)
    requires from <= workers
    ensures ValidRun(Written(usage, from, workers, quantity), Writes(from, workers), limit)
    ensures Run(Written(usage, from, workers, quantity), Writes(from, workers), limit).usage ==
            usage + (workers - from) * quantity
    decreases workers - from
  {
    if from < workers {
      var s := Written(usage, from, workers, quantity);
      assert Apply(s, Write(from), limit) == Written(usage + quantity, from + 1, workers, quantity);
      assert Writes(from, workers)[1..] == Writes(from + 1, workers);
      AllWrite(usage + quantity, from + 1, workers, quantity, limit);
      assert (workers - from) * quantity == (workers - from - 1) * quantity + quantity;
    }
  }

  lemma {:induction false} RunsAppend(s: State, first: seq<Step>, second: seq<Step>, limit: int)
    requires ValidRun(s, first, limit) && ValidRun(Run(s, first, limit), second, limit)
    ensures ValidRun(s, first + second, limit)
    ensures Run(s, first + second, limit) == Run(Run(s, first, limit), second, limit)
    decreases |first|
  {
    if first == [] {
      assert first + second == second;
    } else {
      assert (first + second)[1..] == first[1..] + second;
      RunsAppend(Apply(s, first[0], limit), first[1..], second, limit);
    }
  }

  /** The bound is reached from a usage the code can store. */
  lemma OvershootIsReached(workers: nat, limit: int, most: int)
    requires workers >= 1 && limit >= 0 && most >= 0
    ensures var largest := Largest(most, limit);
            var s := Idle(limit - largest, workers);
            var steps := Checks(0, workers, largest) + Writes(0, workers);
            && s.usage >= 0
            && ValidRun(s, steps, limit) && Sized(steps, most)
            && Run(s, steps, limit).usage == limit + (workers - 1) * largest
  {
    var largest := Largest(most, limit);
    var s := Idle(limit - largest, workers);
    assert s == Checked(limit - largest, 0, workers, largest);
    AllCheck(limit - largest, 0, workers, largest, limit);
    assert Checked(limit - largest, workers, workers, largest) == Written(limit - largest, 0, workers, largest);
    AllWrite(limit - largest, 0, workers, largest, limit);
    RunsAppend(s, Checks(0, workers, largest), Writes(0, workers), limit);
    ChecksSized(0, workers, largest);
    assert workers * largest == (workers - 1) * largest + largest;
  }

  lemma {:induction false} ChecksSized(from: nat, workers: nat, quantity: int)
    requires from <= workers && quantity >= 0
    ensures Sized(Checks(from, workers, quantity) + Writes(0, workers), quantity)
    decreases workers - from
  {
    if from < workers {
      ChecksSized(from + 1, workers, quantity);
      assert Checks(from, workers, quantity) + Writes(0, workers) ==
             [Check(from, quantity)] + (Checks(from + 1, workers, quantity) + Writes(0, workers));
    } else {
      WritesCheckNothing(0, workers, quantity);
      assert [] + Writes(0, workers) == Writes(0, workers);
    }
  }

  lemma {:induction false} WritesCheckNothing(from: nat, workers: nat, quantity: int)
    requires from <= workers
    ensures Sized(Writes(from, workers), quantity)
    decreases workers - from
  {
    if from < workers {
      WritesCheckNothing(from + 1, workers, quantity);
    }
  }

  /** No run of this many workers from a stored usage within the limit ever passes it. */
  ghost predicate LimitAlwaysHolds(workers: nat, limit: int, most: int) {
    forall usage, steps ::
      0 <= usage <= limit && ValidRun(Idle(usage, workers), steps, limit) && Sized(steps, most) ==>
        Run(Idle(usage, workers), steps, limit).usage <= limit
  }

  /**
    The limit holds over every interleaving if and only if there is a single worker, or there is
    nothing to add, or nothing fits.
   */
  lemma LimitHoldsIffAlone(workers: nat, limit: int, most: int)
    requires workers >= 1 && limit != UNLIMITED && most >= 0
    ensures LimitAlwaysHolds(workers, limit, most) <==> workers == 1 || most == 0 || limit <= 0
  {
    if workers == 1 || most == 0 || limit <= 0 {
      forall usage, steps |
        0 <= usage <= limit && ValidRun(Idle(usage, workers), steps, limit) && Sized(steps, most)
        ensures Run(Idle(usage, workers), steps, limit).usage <= limit
      {
        OvershootIsBounded(usage, workers, steps, limit, most);
        assert (workers - 1) * Largest(most, limit) == 0;
      }
    } else {
      OvershootIsReached(workers, limit, most);
      assert (workers - 1) * Largest(most, limit) > 0;
    }
  }

  // ----- One worker is the sequential service -----

  /** Checked and then written by a worker that is alone, an increment is the blocking call of the usage service. */
  lemma AloneIsIncrement(meter: Meter, call: Call)
    requires call.policy.BLOCK?
    ensures var s := Idle(UsageFor(meter, call), 1);
            var checked := Apply(s, Check(0, call.quantity), call.limit);
            && (checked != s <==> Accepted(call, UsageFor(meter, call)))
            && (checked != s ==>
                  Enabled(checked, Write(0)) &&
                  Apply(checked, Write(0), call.limit) == Idle(UsageFor(After(meter, call), call), 1))
            && (checked == s ==> After(meter, call) == meter)
  {
    var s := Idle(UsageFor(meter, call), 1);
    if Accepted(call, UsageFor(meter, call)) {
      Accumulates(meter, call);
      assert s.pending[0].None? && Apply(s, Check(0, call.quantity), call.limit).pending[0].Some?;
    }
  }
}
