/** Bounded retries with exponential backoff around one adapter call. */
module Retry {
  import opened Text

  /** How one attempt ends. */
  datatype Outcome<T> =
    | Returns(value: T)
    | RaisesPermanent(message: string)
    | RaisesTransient(message: string)
    | RaisesOther(message: string)

  /** How the whole call ends; an unclassified error is wrapped with the number of attempts made. */
  datatype Reply<T> =
    | Value(value: T)
    | PermanentError(message: string)
    | TransientError(message: string)
    | WrappedError(attempts: nat, message: string)

  const TRANSIENT_TERMS: seq<string> := ["timeout", "rate limit", "503", "502", "connection reset"]

  predicate Contains(s: string, part: string) {
    exists i :: 0 <= i <= |s| - |part| && s[i..][..|part|] == part
  }

  predicate LooksTransient(message: string) {
    exists k :: 0 <= k < |TRANSIENT_TERMS| && Contains(Lower(message), TRANSIENT_TERMS[k])
  }

  predicate Retryable<T>(outcome: Outcome<T>) {
    outcome.RaisesTransient? || (outcome.RaisesOther? && LooksTransient(outcome.message))
  }

  function ReplyOf<T>(outcome: Outcome<T>, attempts: nat): Reply<T> {
    match outcome
    case Returns(v) => Value(v)
    case RaisesPermanent(m) => PermanentError(m)
    case RaisesTransient(m) => TransientError(m)
    case RaisesOther(m) => WrappedError(attempts, m)
  }

  /** The attempt after which the loop stops, when `made` attempts have already been retried. */
  function StopAfter<T>(calls: nat -> Outcome<T>, maxRetries: int, made: nat): nat
    decreases maxRetries - made
  {
    if Retryable(calls(made)) && made + 1 < maxRetries then StopAfter(calls, maxRetries, made + 1) else made + 1
  }

  /** The delay before retry number n, counting from 0. */
  function Delay(initialDelay: real, b: real, n: nat): real {
    if n == 0 then initialDelay else Delay(initialDelay, b, n - 1) * b
  }

  /** The time slept over the first n retries. */
  function Slept(initialDelay: real, b: real, n: nat): real {
    if n == 0 then 0.0 else Slept(initialDelay, b, n - 1) + Delay(initialDelay, b, n - 1)
  }

  method ExecuteWithRetry<T>(calls: nat -> Outcome<T>, maxRetries: int, initialDelay: real, backoffFactor: real)
    returns (reply: Reply<T>, attempts: nat, slept: real)
    ensures attempts >= 1 && attempts == StopAfter(calls, maxRetries, 0)
    ensures reply == ReplyOf(calls(attempts - 1), attempts)
    ensures slept == Slept(initialDelay, backoffFactor, attempts - 1)
    ensures forall i: nat :: i < attempts - 1 ==> calls(i).RaisesTransient? || calls(i).RaisesOther?
    ensures attempts == 1 || attempts <= maxRetries
    ensures match calls(attempts - 1)
            case Returns(v) => reply == Value(v)
            case RaisesPermanent(m) => reply == PermanentError(m)
            case RaisesTransient(m) => reply == TransientError(m) && attempts >= maxRetries
            case RaisesOther(m) => reply == WrappedError(attempts, m)
  {
    var delay := initialDelay;
    attempts, slept := 0, 0.0;
    while true
      invariant StopAfter(calls, maxRetries, attempts) == StopAfter(calls, maxRetries, 0)
      invariant delay == Delay(initialDelay, backoffFactor, attempts)
      invariant slept == Slept(initialDelay, backoffFactor, attempts)
      invariant forall i: nat :: i < attempts ==> calls(i).RaisesTransient? || calls(i).RaisesOther?
      invariant attempts == 0 || attempts < maxRetries
      decreases maxRetries - attempts
    {
      var outcome := calls(attempts);
      attempts := attempts + 1;
      if !Retryable(outcome) || attempts >= maxRetries {
        return ReplyOf(outcome, attempts), attempts, slept;
      }
      slept := slept + delay;
      delay := delay * backoffFactor;
    }
  }

  predicate StopsAt<T>(calls: nat -> Outcome<T>, maxRetries: int, made: nat, n: nat) {
    && made < n
    && (n <= maxRetries || n == made + 1)
    && (forall i: nat :: made <= i < n - 1 ==> Retryable(calls(i)))
    && (!Retryable(calls(n - 1)) || n >= maxRetries)
  }

  /**
    Independent reading of the loop: it makes n attempts exactly when the first n - 1 were all
    retryable, the n-th is the first decisive one or the budget is used up, and the budget of
    max(1, max_retries) is not exceeded.
   */
  lemma {:induction false} StopsExactlyAt<T>(calls: nat -> Outcome<T>, maxRetries: int, made: nat, n: nat)
    ensures StopAfter(calls, maxRetries, made) == n <==> StopsAt(calls, maxRetries, made, n)
    decreases maxRetries - made
  {
    if Retryable(calls(made)) && made + 1 < maxRetries {
      StopsExactlyAt(calls, maxRetries, made + 1, n);
      if n == made + 1 {
        assert !StopsAt(calls, maxRetries, made, n);
        assert !StopsAt(calls, maxRetries, made + 1, n);
      } else if StopsAt(calls, maxRetries, made, n) {
        assert StopsAt(calls, maxRetries, made + 1, n);
      }
    }
  }

  /**
    Nothing is attempted after an attempt that returned or raised a permanent error, and a transient error
    is tried again as long as there is an attempt left.
   */
  lemma OnlyTransientErrorsAreRetried<T>(calls: nat -> Outcome<T>, maxRetries: int, i: nat)
    requires i < StopAfter(calls, maxRetries, 0)
    ensures calls(i).Returns? || calls(i).RaisesPermanent? ==> StopAfter(calls, maxRetries, 0) == i + 1
    ensures calls(i).RaisesTransient? ==> (StopAfter(calls, maxRetries, 0) == i + 1 <==> i + 1 >= maxRetries)
    ensures i > 0 ==> i < maxRetries
  {
    var n := StopAfter(calls, maxRetries, 0);
    StopsExactlyAt(calls, maxRetries, 0, n);
    if i < n - 1 {
      assert Retryable(calls(i));
    }
  }

  lemma LowerAppend(a: string, b: string)
    ensures Lower(a + b) == Lower(a) + Lower(b)
  {
  }

  /** An unclassified error with one of the five terms in its message, in whatever case. */
  predicate NamesATerm(message: string, before: string, term: string, after: string) {
    message == before + term + after && Lower(term) in {"timeout", "rate limit", "503", "502", "connection reset"}
  }

  lemma TheTerms()
    ensures forall term :: term in TRANSIENT_TERMS <==> term in {"timeout", "rate limit", "503", "502", "connection reset"}
  {
    assert TRANSIENT_TERMS[0] == "timeout" && TRANSIENT_TERMS[1] == "rate limit" && TRANSIENT_TERMS[2] == "503";
    assert TRANSIENT_TERMS[3] == "502" && TRANSIENT_TERMS[4] == "connection reset";
  }

  lemma NamedIsTransient(message: string, before: string, term: string, after: string)
    requires NamesATerm(message, before, term, after)
    ensures LooksTransient(message)
  {
    TheTerms();
    assert Lower(term) in TRANSIENT_TERMS;
    var k :| 0 <= k < |TRANSIENT_TERMS| && TRANSIENT_TERMS[k] == Lower(term);
    LowerAppend(before + term, after);
    LowerAppend(before, term);
    ContainsPart(Lower(before), Lower(term), Lower(after));
  }

  lemma ContainsPart(before: string, part: string, after: string)
    ensures Contains(before + part + after, part)
  {
    assert (before + part + after)[|before|..][..|part|] == part;
  }

  lemma TransientIsNamed(message: string) returns (before: string, term: string, after: string)
    requires LooksTransient(message)
    ensures NamesATerm(message, before, term, after)
  {
    TheTerms();
    var k :| 0 <= k < |TRANSIENT_TERMS| && Contains(Lower(message), TRANSIENT_TERMS[k]);
    var part := TRANSIENT_TERMS[k];
    var i :| 0 <= i <= |Lower(message)| - |part| && Lower(message)[i..][..|part|] == part;
    before, term, after := message[..i], message[i..][..|part|], message[i..][|part|..];
    assert Lower(term) == Lower(message)[i..][..|part|];
    assert message == before + term + after;
  }

  /** Such errors, and no other unclassified ones, are tried again. */
  lemma TermsAreTransient<T>(message: string)
    ensures Retryable<T>(RaisesOther(message)) <==> exists before, term, after :: NamesATerm(message, before, term, after)
  {
    if exists before, term, after :: NamesATerm(message, before, term, after) {
      var before, term, after :| NamesATerm(message, before, term, after);
      NamedIsTransient(message, before, term, after);
    }
    if LooksTransient(message) {
      var before, term, after := TransientIsNamed(message);
    }
  }

  /** 1 + b + ... + b^(n-1), the sum of backoff_factor^i for i < n. */
  function Geometric(b: real, n: nat): real {
    if n == 0 then 0.0 else Geometric(b, n - 1) + Power(b, n - 1)
  }

  function Power(b: real, n: nat): real {
    if n == 0 then 1.0 else Power(b, n - 1) * b
  }

  /** After n retries the loop has slept initial_delay times the geometric sum. */
  lemma {:induction false} SleptIsGeometric(initialDelay: real, b: real, n: nat)
    ensures Delay(initialDelay, b, n) == initialDelay * Power(b, n)
    ensures Slept(initialDelay, b, n) == initialDelay * Geometric(b, n)
    ensures (b - 1.0) * Geometric(b, n) == Power(b, n) - 1.0
  {
    if n > 0 {
      SleptIsGeometric(initialDelay, b, n - 1);
      var g, p := Geometric(b, n - 1), Power(b, n - 1);
      assert initialDelay * (g + p) == initialDelay * g + initialDelay * p;
      assert initialDelay * (p * b) == (initialDelay * p) * b;
      assert (b - 1.0) * (g + p) == (b - 1.0) * g + (b - 1.0) * p;
      assert (b - 1.0) * p == p * b - p;
    }
  }

  const SEND_OPERATIONS: seq<string> := ["send_message", "send_whatsapp", "send_email", "send_sms"]

  function EffectiveRetries(operation: string): nat {
    if operation in SEND_OPERATIONS then 1 else 3
  }

  /** With the service's settings a send is attempted once, anything else at most three times within 1.5 seconds of waiting. */
  lemma AttemptsPerOperation<T>(calls: nat -> Outcome<T>, operation: string)
    ensures var n := StopAfter(calls, EffectiveRetries(operation), 0);
            && 1 <= n <= 3
            && (operation in {"send_message", "send_whatsapp", "send_email", "send_sms"} ==> n == 1)
            && (operation !in {"send_message", "send_whatsapp", "send_email", "send_sms"} ==>
                  (Retryable(calls(0)) && Retryable(calls(1)) <==> n == 3))
            && Slept(0.5, 2.0, n - 1) <= 1.5
            && (n > 1 ==> Retryable(calls(0)))
  {
    var n := StopAfter(calls, EffectiveRetries(operation), 0);
    StopsExactlyAt(calls, EffectiveRetries(operation), 0, n);
    assert SEND_OPERATIONS[0] == "send_message" && SEND_OPERATIONS[1] == "send_whatsapp";
    assert SEND_OPERATIONS[2] == "send_email" && SEND_OPERATIONS[3] == "send_sms";
    assert Slept(0.5, 2.0, 0) == 0.0 && Slept(0.5, 2.0, 1) == 0.5 && Slept(0.5, 2.0, 2) == 1.5;
  }
}
