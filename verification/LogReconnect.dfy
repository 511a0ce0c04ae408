/**
Reconnecting a followed log after transport loss: jittered exponential backoff
inside one time budget.  Times are nanoseconds.
*/
module LogReconnect {
  import opened Numbers
  import opened Options
  import opened LogStore
  import opened LogRead

  const MILLISECOND: nat := 1_000_000
  const BUDGET: nat := 60_000 * MILLISECOND
  const INITIAL_DELAY: nat := 250 * MILLISECOND
  const MAX_DELAY: nat := 5_000 * MILLISECOND
  const PAGE_LIMIT: nat := 200
  const U64_MAX: nat := 0xFFFF_FFFF_FFFF_FFFF
  const U128_MAX: nat := 0xFFFF_FFFF_FFFF_FFFF_FFFF_FFFF_FFFF_FFFF

  /** A delay scaled to between 80 and 120 percent by a random sample. */
  function Jittered(duration: nat, sample: nat): nat {
    var basisPoints := 8_000 + sample % 4_001;
    Min(Min(Min(duration * basisPoints, U128_MAX) / 10_000, U64_MAX), MAX_DELAY)
  }

  lemma {:induction false} Scaled(duration: nat, basisPoints: nat)
    requires 8_000 <= basisPoints <= 12_000
    ensures duration * 8_000 <= duration * basisPoints <= duration * 12_000
  {
  }

  lemma {:induction false} TenThousandths(duration: nat, scaled: nat)
    requires duration * 8_000 <= scaled <= duration * 12_000
    ensures duration * 4 / 5 <= scaled / 10_000 <= duration * 6 / 5
  {
  }

  /** Every delay the backoff can produce stays within its band and the cap. */
  lemma {:induction false} JitterWithinBand(duration: nat, sample: nat)
    requires duration <= 5_000_000_000
    ensures duration * 4 / 5 <= Jittered(duration, sample) <= Min(duration * 6 / 5, 5_000_000_000)
  {
    var basisPoints := 8_000 + sample % 4_001;
    var scaled := duration * basisPoints;
    Scaled(duration, basisPoints);
    TenThousandths(duration, scaled);
    assert Min(scaled, U128_MAX) == scaled;
  }

  /** For any duration at all, the cap and the upper edge of the band hold. */
  lemma {:induction false} JitterNeverExceedsCap(duration: nat, sample: nat)
    ensures Jittered(duration, sample) <= 5_000_000_000 && Jittered(duration, sample) <= duration * 6 / 5
  {
    var basisPoints := 8_000 + sample % 4_001;
    Scaled(duration, basisPoints);
    TenThousandths(duration, duration * basisPoints);
  }

  /** The delay before the attempt that follows k failures. */
  function Backoff(k: nat): nat {
    if k == 0 then INITIAL_DELAY else Min(2 * Backoff(k - 1), MAX_DELAY)
  }

  /** The least time that k delays take together. */
  function LeastWait(k: nat): nat {
    if k == 0 then 0 else LeastWait(k - 1) + Backoff(k - 1) * 4 / 5
  }

  lemma {:induction false} BackoffBounded(k: nat)
    ensures INITIAL_DELAY <= Backoff(k) <= MAX_DELAY
  {
    if k > 0 { BackoffBounded(k - 1); }
  }

  lemma {:induction false} BackoffCaps(k: nat)
    requires k >= 5
    ensures Backoff(k) == MAX_DELAY
  {
    if k == 5 {
      assert Backoff(1) == 500 * MILLISECOND;
      assert Backoff(2) == 1_000 * MILLISECOND;
      assert Backoff(3) == 2_000 * MILLISECOND;
      assert Backoff(4) == 4_000 * MILLISECOND;
    } else {
      BackoffCaps(k - 1);
    }
  }

  lemma {:induction false} LeastWaitGrows(k: nat)
    requires k >= 5
    ensures LeastWait(k) == (6_200 + 4_000 * (k - 5)) * MILLISECOND
  {
    if k == 5 {
      assert Backoff(0) == 250 * MILLISECOND && Backoff(1) == 500 * MILLISECOND;
      assert Backoff(2) == 1_000 * MILLISECOND;
      assert Backoff(3) == 2_000 * MILLISECOND;
      assert Backoff(4) == 4_000 * MILLISECOND;
      assert LeastWait(1) == 200 * MILLISECOND;
      assert LeastWait(2) == 600 * MILLISECOND;
      assert LeastWait(3) == 1_400 * MILLISECOND;
      assert LeastWait(4) == 3_000 * MILLISECOND;
    } else {
      LeastWaitGrows(k - 1);
      BackoffCaps(k - 1);
    }
  }

  /** Eighteen attempts are the most whose delays fit in the budget. */
  lemma {:induction false} AttemptsFit(k: nat)
    requires LeastWait(k) < BUDGET
    ensures k <= 18
  {
    if k >= 5 { LeastWaitGrows(k); }
  }

  /** Nineteen do not fit, and eighteen do: the bound is the best possible. */
  lemma {:induction false} EighteenAttemptsFit()
    ensures LeastWait(18) < 60_000_000_000 <= LeastWait(19)
  {
    LeastWaitGrows(18);
    LeastWaitGrows(19);
  }

  predicate Transient(code: ErrorCode) {
    code in {HostUnreachable, HostDaemonUnreachable, DirectDaemonUnreachable, SshBootstrapUnavailable}
  }

  /** Another Host behind the same alias is reported as a changed identity. */
  function MapIdentity(code: ErrorCode): ErrorCode {
    if code == HostIdentityMismatch then IdentityChanged else code
  }

  /** One operation as it will turn out: its result, the clock when it was
      asked for, the jitter sample and the extra time slept before it, and how
      long it takes.  An interruption is
      the failure `Interrupted`. */
  datatype Step = Step(reply: Reply, clock: nat, sample: nat, overslept: nat, took: nat)

  /** When the client is ready for attempt `i` of a reconnect that began at `at`. */
  function ReadyAt(script: seq<Step>, at: nat, i: nat, began: nat): nat
    requires i <= |script|
    decreases i, 0
  {
    if i <= at then began else StartAt(script, at, i - 1, began) + script[i - 1].took
  }

  /** When attempt `i` starts: after a jittered delay that does not pass the
      deadline, and whatever the sleep is late. */
  function StartAt(script: seq<Step>, at: nat, i: nat, began: nat): nat
    requires i < |script|
    decreases i, 1
  {
    var now := ReadyAt(script, at, i, began);
    if now >= began + BUDGET then now else
    now + Min(Jittered(Backoff(if i < at then 0 else i - at), script[i].sample), began + BUDGET - now) + script[i].overslept
  }

  lemma {:induction false} WaitsAddUp(script: seq<Step>, at: nat, i: nat, began: nat)
    requires at <= i < |script|
    ensures ReadyAt(script, at, i, began) >= began + Min(LeastWait(i - at), 60_000_000_000)
    ensures StartAt(script, at, i, began) >= began + Min(LeastWait(i - at + 1), 60_000_000_000)
    ensures StartAt(script, at, i, began) >= ReadyAt(script, at, i, began)
    decreases i
  {
    if i > at { WaitsAddUp(script, at, i - 1, began); }
    BackoffBounded(i - at);
    JitterWithinBand(Backoff(i - at), script[i].sample);
  }

  /** An attempt that starts within the budget is at most the eighteenth. */
  lemma {:induction false} AttemptWithinBudget(script: seq<Step>, at: nat, i: nat, began: nat)
    requires at <= i < |script| && StartAt(script, at, i, began) < began + 60_000_000_000
    ensures i - at + 1 <= 18
  {
    WaitsAddUp(script, at, i, began);
    AttemptsFit(i - at + 1);
  }

  /** Every attempt from `at` before `end` starts within the budget. */
  predicate WithinBudget(script: seq<Step>, at: nat, end: int, began: nat)
    requires end <= |script|
    decreases end
  {
    end <= at || (StartAt(script, at, end - 1, began) < began + 60_000_000_000 && WithinBudget(script, at, end - 1, began))
  }

  /** No such attempt starts at or after the deadline, one minute after the loss. */
  lemma {:induction false} EachWithinBudget(script: seq<Step>, at: nat, end: int, began: nat, k: nat)
    requires end <= |script| && WithinBudget(script, at, end, began) && at <= k < end
    ensures StartAt(script, at, k, began) < began + 60_000_000_000
    decreases end
  {
    if k < end - 1 { EachWithinBudget(script, at, end - 1, began, k); }
  }

  predicate FailsTransiently(reply: Reply, f: Filter, cursor: nat) {
    var attempt := Fetch(reply, f, Some(cursor), PAGE_LIMIT);
    attempt.Failed? && Transient(attempt.code)
  }

  /** Every attempt of the script from `at` before `end` failed transiently. */
  predicate Retried(script: seq<Step>, at: nat, end: int, f: Filter, cursor: nat)
    requires end <= |script|
    decreases end
  {
    end <= at || (FailsTransiently(script[end - 1].reply, f, cursor) && Retried(script, at, end - 1, f, cursor))
  }

  /** No attempt of the script from `at` before `end` brought a page. */
  predicate NothingRead(script: seq<Step>, at: nat, end: int, f: Filter, cursor: nat)
    requires end <= |script|
    decreases end
  {
    end <= at ||
    (Fetch(script[end - 1].reply, f, Some(cursor), PAGE_LIMIT).Failed? && NothingRead(script, at, end - 1, f, cursor))
  }

  lemma {:induction false} RetriedReadNothing(script: seq<Step>, at: nat, end: int, f: Filter, cursor: nat)
    requires end <= |script| && Retried(script, at, end, f, cursor)
    ensures NothingRead(script, at, end, f, cursor)
    decreases end
  {
    if end > at { RetriedReadNothing(script, at, end - 1, f, cursor); }
  }

  /** Why a reconnect gives up: the last reply said so, the user did, or the
      budget ran out before the next attempt could be finished. */
  predicate Justified(script: seq<Step>, at: nat, i: nat, began: nat, f: Filter, cursor: nat, code: ErrorCode)
    requires i <= |script|
  {
    || (i > at && Fetch(script[i - 1].reply, f, Some(cursor), PAGE_LIMIT).Failed?
        && code == MapIdentity(Fetch(script[i - 1].reply, f, Some(cursor), PAGE_LIMIT).code))
    || (code == Interrupted && (i == |script| || script[i].reply == Fail(Interrupted)))
    || (code == ReconnectExhausted && i < |script| && ReadyAt(script, at, i + 1, began) >= began + BUDGET)
  }

  /** Sleeps before attempt `i` and makes it: the page or final error if there
      is one, whether the attempt was started and whether its reply came in time. */
  method AttemptOnce(f: Filter, cursor: nat, script: seq<Step>, at: nat, i: nat, began: nat, delay: nat, ready: nat)
    returns (result: Option<Fetched>, now: nat, started: bool, received: bool)
    requires at <= i < |script| && delay == Backoff(i - at) && ready == ReadyAt(script, at, i, began)
    ensures received ==> started && now == ReadyAt(script, at, i + 1, began)
    ensures started ==> StartAt(script, at, i, began) < began + BUDGET
    ensures result.None? ==> received && FailsTransiently(script[i].reply, f, cursor)
    ensures result.Some? && result.value.Got? ==> received && result.value == Fetch(script[i].reply, f, Some(cursor), PAGE_LIMIT)
    ensures result.Some? && result.value.Failed? ==> !Transient(result.value.code)
    ensures result.Some? && result.value.Failed? ==>
      Justified(script, at, if received then i + 1 else i, began, f, cursor, result.value.code)
    ensures result.Some? && result.value.Failed? && received ==> Fetch(script[i].reply, f, Some(cursor), PAGE_LIMIT).Failed?
  {
    var deadline, step := began + BUDGET, script[i];
    now, started, received := ready, false, false;
    WaitsAddUp(script, at, i, began);
    if now >= deadline {
      return Some(Failed(ReconnectExhausted)), now, started, received;
    }
    now := now + Min(Jittered(delay, step.sample), deadline - now) + step.overslept;
    if step.reply == Fail(Interrupted) {
      return Some(Failed(Interrupted)), now, started, received;
    }
    if now >= deadline {
      return Some(Failed(ReconnectExhausted)), now, started, received;
    }
    started, now := true, now + step.took;
    if now >= deadline {
      return Some(Failed(ReconnectExhausted)), now, started, received;
    }
    received := true;
    var attempt := Fetch(step.reply, f, Some(cursor), PAGE_LIMIT);
    if attempt.Got? {
      return Some(attempt), now, started, received;
    }
    if !Transient(attempt.code) {
      return Some(Failed(MapIdentity(attempt.code))), now, started, received;
    }
    result := None;
  }

  /** Every attempt so far was started in time and failed transiently. */
  predicate Trying(script: seq<Step>, at: nat, i: nat, f: Filter, cursor: nat, began: nat)
    requires i <= |script|
  {
    i - at <= 18 && Retried(script, at, i, f, cursor) && WithinBudget(script, at, i, began)
  }

  /**
  Retries the page read until it succeeds, fails for good, or the budget ends.
  `script[at..]` are the attempts; a script that ends is an interruption.
  `script[at..i]` are the attempts whose reply was received in time.
  */
  method Reconnect(f: Filter, cursor: nat, script: seq<Step>, at: nat, began: nat)
    returns (result: Fetched, i: nat, attempts: nat)
    requires at <= |script|
    ensures at <= i <= |script| && i - at <= attempts <= i - at + 1
    ensures result.Got? ==> i > at && result == Fetch(script[i - 1].reply, f, Some(cursor), PAGE_LIMIT)
    ensures Retried(script, at, i - 1, f, cursor)
    ensures result.Failed? && i > at ==> Fetch(script[i - 1].reply, f, Some(cursor), PAGE_LIMIT).Failed?
    ensures result.Failed? ==> !Transient(result.code) && Justified(script, at, i, began, f, cursor, result.code)
    ensures at + attempts <= |script| && WithinBudget(script, at, at + attempts, began) && attempts <= 18
  {
    var delay, now := INITIAL_DELAY, began;
    i := at;
    while true
      invariant at <= i <= |script| && delay == Backoff(i - at) && now == ReadyAt(script, at, i, began)
      invariant Trying(script, at, i, f, cursor, began)
      decreases |script| - i
    {
      if i == |script| {
        return Failed(Interrupted), i, i - at;
      }
      var r, started, received;
      r, now, started, received := AttemptOnce(f, cursor, script, at, i, began, delay, now);
      if started { AttemptWithinBudget(script, at, i, began); }
      attempts := i - at + if started then 1 else 0;
      if received { i := i + 1; }
      if r.Some? { return r.value, i, attempts; }
      delay := Min(2 * delay, MAX_DELAY);
    }
  }

  /** A Host that stays away, the shortest jitter, and no other delay. */
  function Unlucky(): seq<Step> {
    seq(19, i => Step(Fail(HostUnreachable), 0, 0, 0, 0))
  }

  lemma {:induction false} ShortestJitter(duration: nat)
    requires duration <= MAX_DELAY
    ensures Jittered(duration, 0) == duration * 4 / 5
  {
    assert duration * (8_000 + 0 % 4_001) == duration * 8_000;
  }

  lemma {:induction false} LeastWaitRises(k: nat)
    requires k <= 18
    ensures LeastWait(k) < BUDGET
    decreases 18 - k
  {
    if k == 18 {
      EighteenAttemptsFit();
    } else {
      LeastWaitRises(k + 1);
    }
  }

  lemma {:induction false} UnluckyStarts(k: nat)
    requires k < 18
    ensures ReadyAt(Unlucky(), 0, k, 0) == LeastWait(k) && StartAt(Unlucky(), 0, k, 0) == LeastWait(k + 1)
  {
    if k > 0 { UnluckyStarts(k - 1); }
    LeastWaitRises(k);
    LeastWaitRises(k + 1);
    BackoffBounded(k);
    ShortestJitter(Backoff(k));
  }

  /** The bound of eighteen is reached: this run makes every one of them. */
  method EighteenAttemptsAreMade(f: Filter, cursor: nat) returns (attempts: nat)
    ensures attempts == 18
  {
    var result, i;
    result, i, attempts := Reconnect(f, cursor, Unlucky(), 0, 0);
    assert forall k :: 0 <= k < 19 ==> Unlucky()[k].reply == Fail(HostUnreachable);
    if i < 18 {
      UnluckyStarts(i);
      LeastWaitRises(i + 1);
      assert false;
    }
  }
}
