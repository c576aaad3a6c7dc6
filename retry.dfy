/**
 The retry decorator as a bounded attempt loop. A decorated call is made at
 most `Tries` times; an exception of the retried kinds starts another attempt
 while attempts remain, and is raised again after the last one; any other
 exception, and any return value, ends the loop at once. The delay between
 attempts is not modelled. Attempt `i` of the call behaves as `body(i)`.
 */
module RetryDecorator {
  import opened Runtime

  /** Attempts allowed to every decorated call of the pipeline. */
  const Tries: nat := 3

  /** The outcome of a decorated call, with the number of attempts it made. */
  datatype Attempted<+T> = Attempted(result: Outcome<T>, calls: nat)

  /** Whether an attempt's outcome asks for another attempt. */
  predicate ShouldRetry<T>(o: Outcome<T>, retryOn: set<Exception>)
  {
    o.Raised? && o.exc in retryOn
  }

  /** The decorated call, continued from attempt `i`. */
  function RetriedFrom<T>(body: nat -> Outcome<T>, retryOn: set<Exception>, i: nat): Attempted<T>
    requires i < Tries
    decreases Tries - i
  {
    if ShouldRetry(body(i), retryOn) && i + 1 < Tries then RetriedFrom(body, retryOn, i + 1)
    else Attempted(body(i), i + 1)
  }

  /** The decorated call. */
  function Retried<T>(body: nat -> Outcome<T>, retryOn: set<Exception>): Attempted<T>
  {
    RetriedFrom(body, retryOn, 0)
  }

  lemma {:induction false} RetriedFromShape<T>(body: nat -> Outcome<T>, retryOn: set<Exception>, i: nat)
    requires i < Tries
    ensures var a := RetriedFrom(body, retryOn, i);
      && i < a.calls <= Tries
      && a.result == body(a.calls - 1)
      && (forall j :: i <= j < a.calls - 1 ==> ShouldRetry(body(j), retryOn))
      && (ShouldRetry(a.result, retryOn) ==> a.calls == Tries)
    decreases Tries - i
  {
    if ShouldRetry(body(i), retryOn) && i + 1 < Tries {
      RetriedFromShape(body, retryOn, i + 1);
    }
  }

  /**
   A decorated call makes between one and `Tries` attempts; its outcome is
   that of its last attempt; every earlier attempt raised a retried exception;
   and it ends on a retried exception only when every attempt was used.
   */
  lemma RetriedShape<T>(body: nat -> Outcome<T>, retryOn: set<Exception>)
    ensures var a := Retried(body, retryOn);
      && 1 <= a.calls <= Tries
      && a.result == body(a.calls - 1)
      && (forall j :: 0 <= j < a.calls - 1 ==> ShouldRetry(body(j), retryOn))
      && (ShouldRetry(a.result, retryOn) ==> a.calls == Tries)
  {
    RetriedFromShape(body, retryOn, 0);
  }

  /**
   The shape above determines the decorated call: any attempt count and
   outcome that satisfy it are the ones `Retried` gives.
   */
  lemma {:induction false} RetriedUnique<T>(body: nat -> Outcome<T>, retryOn: set<Exception>, a: Attempted<T>)
    requires 1 <= a.calls <= Tries
    requires a.result == body(a.calls - 1)
    requires forall j :: 0 <= j < a.calls - 1 ==> ShouldRetry(body(j), retryOn)
    requires ShouldRetry(a.result, retryOn) ==> a.calls == Tries
    ensures Retried(body, retryOn) == a
  {
    RetriedShape(body, retryOn);
  }

  /** The decorator's attempt loop. */
  method Retry<T>(body: nat -> Outcome<T>, retryOn: set<Exception>) returns (a: Attempted<T>)
    ensures a == Retried(body, retryOn)
  {
    var i := 0;
    var o := body(0);
    while ShouldRetry(o, retryOn) && i + 1 < Tries
      invariant 0 <= i < Tries
      invariant o == body(i)
      invariant RetriedFrom(body, retryOn, i) == Retried(body, retryOn)
      decreases Tries - i
    {
      i := i + 1;
      o := body(i);
    }
    a := Attempted(o, i + 1);
  }
}
