/** `retry`: how often it calls its action, and how long it waits in between. */
module Retry {
  import opened Options
  import opened Integers

  /** How one call of the action ends. */
  datatype Attempt<T> = Returned(value: T) | HttpError(status: int, retryAfterMs: int) | OtherError

  /** 4xx answers other than 429 are final. */
  predicate Permanent<T>(a: Attempt<T>) {
    a.HttpError? && a.status != 429 && a.status < 500
  }

  function TwoTo(n: nat): int { if n == 0 then 1 else 2 * TwoTo(n - 1) }

  /** The wait after a failed call. */
  function Delay<T>(n: nat, a: Attempt<T>): int {
    Min(30_000, Max(500 * TwoTo(n), if a.HttpError? then a.retryAfterMs else 0))
  }

  /** The n-th call is not the last one `retry` makes. */
  predicate GoesOn<T>(action: nat -> Attempt<T>, attempts: int, n: nat) {
    !action(n).Returned? && !Permanent(action(n)) && n < attempts - 1
  }

  /** The call the source's loop ends with: every earlier one goes on, this one does not. */
  method Run<T>(action: nat -> Attempt<T>, attempts: int) returns (last: Attempt<T>, calls: nat, sleeps: seq<int>)
    ensures 1 <= calls <= Max(1, attempts)
    ensures forall n | 0 <= n < calls - 1 :: GoesOn(action, attempts, n)
    ensures !GoesOn(action, attempts, calls - 1)
    ensures last == action(calls - 1)
    ensures |sleeps| == calls - 1 && forall n | 0 <= n < |sleeps| :: sleeps[n] == Delay(n, action(n))
    ensures forall n | 0 <= n < calls - 1 ::
              action(n).OtherError? || (action(n).HttpError? && (action(n).status == 429 || action(n).status >= 500))
    ensures last.Returned? || calls >= attempts || (last.HttpError? && last.status != 429 && last.status < 500)
  {
    last, calls, sleeps := Call(action, attempts);
    forall n | 0 <= n < calls - 1
      ensures action(n).OtherError? || (action(n).HttpError? && (action(n).status == 429 || action(n).status >= 500))
    {
      assert GoesOn(action, attempts, n);
    }
  }

  /** The source's loop. */
  method Call<T>(action: nat -> Attempt<T>, attempts: int) returns (last: Attempt<T>, calls: nat, sleeps: seq<int>)
    ensures 1 <= calls <= Max(1, attempts)
    ensures forall n | 0 <= n < calls - 1 :: GoesOn(action, attempts, n)
    ensures !GoesOn(action, attempts, calls - 1)
    ensures last == action(calls - 1)
    ensures |sleeps| == calls - 1 && forall n | 0 <= n < |sleeps| :: sleeps[n] == Delay(n, action(n))
  {
    var attempt := 0;
    sleeps := [];
    while true
      invariant 0 <= attempt <= Max(0, attempts - 1)
      invariant forall n | 0 <= n < attempt :: GoesOn(action, attempts, n)
      invariant |sleeps| == attempt && forall n | 0 <= n < attempt :: sleeps[n] == Delay(n, action(n))
      decreases attempts - attempt
    {
      last := action(attempt);
      if last.Returned? { return last, attempt + 1, sleeps; }
      if attempt >= attempts - 1 || Permanent(last) { return last, attempt + 1, sleeps; }
      sleeps := sleeps + [Delay(attempt, last)];
      attempt := attempt + 1;
    }
  }

  lemma {:induction false} TwoToGrows(m: nat, n: nat)
    requires m <= n
    ensures 1 <= TwoTo(m) <= TwoTo(n)
    decreases n
  {
    if n > 0 {
      if m < n { TwoToGrows(m, n - 1); } else { TwoToGrows(m - 1, n - 1); }
    }
  }

  /** Waits grow exponentially up to the cap, and honour what the server asks for below it. */
  lemma DelayBounds<T>(n: nat, a: Attempt<T>)
    ensures Min(30_000, 500 * TwoTo(n)) <= Delay(n, a) <= 30_000
    ensures a.HttpError? ==> Delay(n, a) >= Min(30_000, a.retryAfterMs)
    ensures Delay(n, a) <= 500 * TwoTo(n) || (a.HttpError? && Delay(n, a) <= a.retryAfterMs)
    ensures n < 6 ==> TwoTo(n) == [1, 2, 4, 8, 16, 32][n]
    ensures n >= 6 ==> Delay(n, a) == 30_000
  {
    assert TwoTo(1) == 2 && TwoTo(2) == 4 && TwoTo(3) == 8 && TwoTo(4) == 16 && TwoTo(5) == 32 && TwoTo(6) == 64;
    if n >= 6 { TwoToGrows(6, n); }
  }

  /** The calls are determined: the run ends at the first call that does not go on, and returns a
      value exactly when some call does so before any permanent failure and within the attempts. */
  lemma {:induction false} ReturnsFirstSuccess<T>(action: nat -> Attempt<T>, attempts: int, calls: nat, first: nat)
    requires calls >= 1 && !GoesOn(action, attempts, calls - 1)
    requires forall n | 0 <= n < calls - 1 :: GoesOn(action, attempts, n)
    requires action(first).Returned? && forall n | 0 <= n < first :: !action(n).Returned?
    ensures action(calls - 1).Returned? <==>
              first < Max(1, attempts) && forall n | 0 <= n < first :: !Permanent(action(n))
    ensures action(calls - 1).Returned? ==> calls - 1 == first
  {
    forall n | 0 <= n < calls - 1 ensures !action(n).Returned? {
      assert GoesOn(action, attempts, n);
    }
    if action(calls - 1).Returned? {
      assert calls - 1 == first;
      forall n | 0 <= n < first ensures !Permanent(action(n)) {
        assert GoesOn(action, attempts, n);
      }
      if first > 0 {
        assert GoesOn(action, attempts, first - 1);
      }
    }
  }
}
