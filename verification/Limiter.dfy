/**
 The debt-based token bucket of `daemon/src/jobs/push/limiter.rs`, shared by
 every parallel send of one job. Rates, levels and times are reals.
 */
module Limiter {
  function Min(a: real, b: real): real {
    if a <= b then a else b
  }

  function Max(a: real, b: real): real {
    if a <= b then b else a
  }

  /** What a bucket holds: `level` as of the instant `last`. */
  datatype Bucket = Bucket(rate: real, burst: real, last: real, level: real)

  const CHUNK_BURST := 262144.0

  function BurstOf(rate: real): real {
    Max(rate * 0.5, CHUNK_BURST)
  }

  ghost predicate ValidBucket(b: Bucket) {
    b.rate > 0.0 && b.burst == BurstOf(b.rate) && b.level <= b.burst
  }

  /** The bucket after `n` bytes are accounted at `now`. */
  function Account(b: Bucket, now: real, n: nat): Bucket {
    b.(last := now, level := Min(b.level + Flow(b.rate, now - b.last), b.burst) - n as real)
  }

  /** How long the caller sleeps on an overdrawn bucket. */
  function Wait(b: Bucket): (w: real)
    requires b.rate > 0.0
    ensures w >= 0.0
    ensures Flow(b.rate, w) == Max(0.0, -b.level)
  {
    if b.level < 0.0 then
      Divide(-b.level, b.rate);
      -b.level / b.rate
    else 0.0
  }

  /** The bytes that flow in during `t`. */
  function Flow(rate: real, t: real): real {
    rate * t
  }

  lemma Divide(x: real, y: real)
    requires y > 0.0
    ensures y * (x / y) == x
    ensures x >= 0.0 ==> x / y >= 0.0
  {
  }

  class RateLimiter {
    const rate: real
    const burst: real
    var last: real
    var level: real

    function View(): Bucket
      reads this
    {
      Bucket(rate, burst, last, level)
    }

    ghost predicate Valid()
      reads this
    {
      ValidBucket(View())
    }

    constructor (rate: nat, now: real)
      requires rate > 0
      ensures Valid() && last == now && level == burst && this.rate == rate as real
      ensures burst == if rate > 524288 then rate as real / 2.0 else 262144.0
    {
      var r := rate as real;
      var half := r * 0.5;
      var b := if half <= CHUNK_BURST then CHUNK_BURST else half;
      this.rate := r;
      this.burst := b;
      this.last := now;
      this.level := b;
    }

    method Throttle(now: real, n: nat) returns (wait: real)
      requires Valid() && last <= now
      modifies this
      ensures Valid()
      ensures View() == Account(old(View()), now, n)
      ensures wait == Wait(View())
    {
      var dt := now - last;
      last := now;
      level := Min(level + Flow(rate, dt), burst);
      level := level - n as real;
      if level < 0.0 {
        Divide(-level, rate);
        wait := -level / rate;
      } else {
        wait := 0.0;
      }
    }
  }

  // ------------------------------------------------- virtual finishing time

  /** The virtual finishing time of everything accounted so far, on a clock that
      ticks once per byte of rate: the level passes zero when the clock gets
      there. */
  function Due(b: Bucket): real {
    Flow(b.rate, b.last) - b.level
  }

  lemma FlowAdds(rate: real, t: real, t': real)
    ensures Flow(rate, t' - t) == Flow(rate, t') - Flow(rate, t)
    ensures Flow(rate, t' + t) == Flow(rate, t') + Flow(rate, t)
  {
  }

  lemma FlowGrows(rate: real, t: real, t': real)
    requires rate > 0.0
    ensures t < t' <==> Flow(rate, t) < Flow(rate, t')
  {
    FlowAdds(rate, t, t');
    PositiveFlow(rate, t' - t);
  }

  lemma PositiveFlow(rate: real, t: real)
    requires rate > 0.0
    ensures t > 0.0 <==> Flow(rate, t) > 0.0
  {
  }

  /** The bucket refines its virtual finishing time: accounting moves it on by
      the bytes accounted, from no earlier than one burst ago, and the caller
      sleeps exactly until the clock reaches it. */
  lemma AccountMovesDue(b: Bucket, now: real, n: nat)
    requires ValidBucket(b) && b.last <= now
    ensures ValidBucket(Account(b, now, n))
    ensures Due(Account(b, now, n)) == Max(Due(b), Flow(b.rate, now) - b.burst) + n as real
    ensures Flow(b.rate, now + Wait(Account(b, now, n))) == Max(Flow(b.rate, now), Due(Account(b, now, n)))
  {
    FlowAdds(b.rate, b.last, now);
    FlowAdds(b.rate, Wait(Account(b, now, n)), now);
  }

  // --------------------------------------------------------------- N senders

  /** One accounted chunk: which sender, when, how much. */
  datatype Call = Call(sender: nat, at: real, bytes: nat)

  /** The bucket and, per sender, the instant it may call again. */
  datatype Shared = Shared(bucket: Bucket, free: seq<real>)

  function After(s: Shared, c: Call): Shared
    requires s.bucket.rate > 0.0 && c.sender < |s.free|
  {
    var b := Account(s.bucket, c.at, c.bytes);
    Shared(b, s.free[c.sender := c.at + Wait(b)])
  }

  /** Time moves on, chunks are at most `chunk`, and the sender has slept off
      what it was last told to. */
  ghost predicate Polite(s: Shared, c: Call, chunk: nat) {
    && s.bucket.last <= c.at
    && c.bytes <= chunk
    && c.sender < |s.free|
    && s.free[c.sender] <= c.at
  }

  ghost predicate PoliteRun(s: Shared, calls: seq<Call>, chunk: nat)
    requires ValidBucket(s.bucket)
    decreases |calls|
  {
    calls == []
    || (&& Polite(s, calls[0], chunk)
        && (AccountMovesDue(s.bucket, calls[0].at, calls[0].bytes); PoliteRun(After(s, calls[0]), calls[1..], chunk)))
  }

  ghost function RunOf(s: Shared, calls: seq<Call>, chunk: nat): Shared
    requires ValidBucket(s.bucket) && PoliteRun(s, calls, chunk)
    decreases |calls|
  {
    if calls == [] then s
    else
      AccountMovesDue(s.bucket, calls[0].at, calls[0].bytes);
      RunOf(After(s, calls[0]), calls[1..], chunk)
  }

  function Bytes(calls: seq<Call>): nat {
    if calls == [] then 0 else calls[0].bytes + Bytes(calls[1..])
  }

  /** Senders still asleep after instant `t`. */
  function Asleep(free: seq<real>, t: real): nat {
    if free == [] then 0 else (if free[0] > t then 1 else 0) + Asleep(free[1..], t)
  }

  lemma {:induction false} AsleepAtMostAll(free: seq<real>, t: real)
    ensures Asleep(free, t) <= |free|
  {
    if free != [] {
      AsleepAtMostAll(free[1..], t);
    }
  }

  lemma {:induction false} AsleepUpdate(free: seq<real>, i: nat, v: real, t: real)
    requires i < |free|
    ensures Asleep(free[i := v], t)
            == Asleep(free, t) + (if v > t then 1 else 0) - (if free[i] > t then 1 else 0)
  {
    if i == 0 {
      assert free[0 := v][1..] == free[1..];
    } else {
      assert free[i := v][1..] == free[1..][i - 1 := v];
      AsleepUpdate(free[1..], i - 1, v, t);
    }
  }

  /** The debt outstanding at any later instant is at most one chunk for each
      sender still asleep then. */
  ghost predicate DebtCovered(s: Shared, chunk: nat) {
    forall t :: t >= s.bucket.last ==>
      Due(s.bucket) <= Flow(s.bucket.rate, t) + (Asleep(s.free, t) * chunk) as real
  }

  lemma CallKeepsDebtCovered(s: Shared, c: Call, chunk: nat)
    requires ValidBucket(s.bucket) && DebtCovered(s, chunk) && Polite(s, c, chunk)
    ensures ValidBucket(After(s, c).bucket) && DebtCovered(After(s, c), chunk)
    ensures Due(s.bucket) <= Due(After(s, c).bucket)
  {
    var s' := After(s, c);
    AccountMovesDue(s.bucket, c.at, c.bytes);
    forall t | t >= s'.bucket.last
      ensures Due(s'.bucket) <= Flow(s.bucket.rate, t) + (Asleep(s'.free, t) * chunk) as real
    {
      CallCoversInstant(s, c, chunk, t);
    }
  }

  lemma CallCoversInstant(s: Shared, c: Call, chunk: nat, t: real)
    requires ValidBucket(s.bucket) && DebtCovered(s, chunk) && Polite(s, c, chunk) && t >= c.at
    ensures
      var s' := After(s, c);
      Due(s'.bucket) <= Flow(s.bucket.rate, t) + (Asleep(s'.free, t) * chunk) as real
  {
    var r, s' := s.bucket.rate, After(s, c);
    var k := Asleep(s.free, t);
    AccountMovesDue(s.bucket, c.at, c.bytes);
    AsleepUpdate(s.free, c.sender, s'.free[c.sender], t);
    FlowGrows(r, t, s'.free[c.sender]);
    FlowGrows(r, c.at, t);
    MoreChunks(k, chunk);
    assert Due(s.bucket) <= Flow(r, t) + (k * chunk) as real;
  }

  lemma MoreChunks(k: nat, chunk: nat)
    ensures (k + 1) * chunk == k * chunk + chunk
    ensures k * chunk >= 0
  {
  }

  lemma {:induction false} RunKeepsDebtCovered(s: Shared, calls: seq<Call>, chunk: nat)
    requires ValidBucket(s.bucket) && DebtCovered(s, chunk) && PoliteRun(s, calls, chunk)
    ensures
      var s' := RunOf(s, calls, chunk);
      && ValidBucket(s'.bucket) && DebtCovered(s', chunk)
      && s'.bucket.rate == s.bucket.rate && |s'.free| == |s.free|
      && s.bucket.last <= s'.bucket.last
      && Due(s.bucket) <= Due(s'.bucket)
    decreases |calls|
  {
    if calls != [] {
      CallKeepsDebtCovered(s, calls[0], chunk);
      RunKeepsDebtCovered(After(s, calls[0]), calls[1..], chunk);
    }
  }

  /** The level never falls below one chunk per sender. */
  lemma DebtBoundsLevel(s: Shared, chunk: nat)
    requires ValidBucket(s.bucket) && DebtCovered(s, chunk)
    ensures -((|s.free| * chunk) as real) <= s.bucket.level <= s.bucket.burst
  {
    var k := Asleep(s.free, s.bucket.last);
    AsleepAtMostAll(s.free, s.bucket.last);
    FewerChunks(k, |s.free|, chunk);
    assert Due(s.bucket) <= Flow(s.bucket.rate, s.bucket.last) + (k * chunk) as real;
  }

  lemma FewerChunks(k: nat, n: nat, chunk: nat)
    requires k <= n
    ensures k * chunk <= n * chunk
  {
  }

  /** A fresh limiter with nobody asleep. */
  ghost predicate Fresh(s: Shared) {
    && ValidBucket(s.bucket)
    && s.bucket.level == s.bucket.burst
    && forall i | 0 <= i < |s.free| :: s.free[i] <= s.bucket.last
  }

  lemma FreshIsCovered(s: Shared, chunk: nat)
    requires Fresh(s)
    ensures DebtCovered(s, chunk)
  {
    forall t | t >= s.bucket.last
      ensures Due(s.bucket) <= Flow(s.bucket.rate, t) + (Asleep(s.free, t) * chunk) as real
    {
      FlowGrows(s.bucket.rate, s.bucket.last, t);
      MoreChunks(Asleep(s.free, t), chunk);
    }
  }

  /** What a run takes out of the bucket is bounded by what flows in. */
  lemma {:induction false} BytesAgainstLevel(s: Shared, calls: seq<Call>, chunk: nat)
    requires ValidBucket(s.bucket) && PoliteRun(s, calls, chunk)
    ensures
      var s' := RunOf(s, calls, chunk);
      && s'.bucket.rate == s.bucket.rate
      && Bytes(calls) as real
         <= s.bucket.level - s'.bucket.level + Flow(s.bucket.rate, s'.bucket.last) - Flow(s.bucket.rate, s.bucket.last)
    decreases |calls|
  {
    if calls != [] {
      var s1 := After(s, calls[0]);
      AccountMovesDue(s.bucket, calls[0].at, calls[0].bytes);
      BytesAgainstLevel(s1, calls[1..], chunk);
      FlowAdds(s.bucket.rate, s.bucket.last, s1.bucket.last);
      assert Bytes(calls) == calls[0].bytes + Bytes(calls[1..]);
    }
  }

  /** Main result: over any run of N senders that each wait out their sleep, the
      level stays between minus one chunk per sender and the burst, and the
      virtual finishing time never moves back. */
  lemma LevelStaysBounded(s: Shared, calls: seq<Call>, chunk: nat)
    requires Fresh(s) && PoliteRun(s, calls, chunk)
    ensures
      var s' := RunOf(s, calls, chunk);
      && ValidBucket(s'.bucket) && |s'.free| == |s.free| && DebtCovered(s', chunk)
      && -((|s.free| * chunk) as real) <= s'.bucket.level <= s'.bucket.burst
      && Due(s.bucket) <= Due(s'.bucket)
  {
    FreshIsCovered(s, chunk);
    RunKeepsDebtCovered(s, calls, chunk);
    DebtBoundsLevel(RunOf(s, calls, chunk), chunk);
  }

  /** The first call refills the bucket to one burst at most. */
  lemma WindowAgainstLevel(s: Shared, window: seq<Call>, chunk: nat)
    requires ValidBucket(s.bucket) && PoliteRun(s, window, chunk) && window != []
    ensures
      var s' := RunOf(s, window, chunk);
      Bytes(window) as real
      <= s.bucket.burst - s'.bucket.level + Flow(s.bucket.rate, s'.bucket.last - window[0].at)
  {
    var first := After(s, window[0]);
    AccountMovesDue(s.bucket, window[0].at, window[0].bytes);
    assert first.bucket.level <= s.bucket.burst - window[0].bytes as real;
    BytesAgainstLevel(first, window[1..], chunk);
    FlowAdds(s.bucket.rate, window[0].at, RunOf(s, window, chunk).bucket.last);
    assert Bytes(window) == window[0].bytes + Bytes(window[1..]);
  }

  lemma WindowBound(s: Shared, before: seq<Call>, window: seq<Call>, chunk: nat)
    requires Fresh(s) && PoliteRun(s, before, chunk) && window != []
    requires ValidBucket(RunOf(s, before, chunk).bucket) && PoliteRun(RunOf(s, before, chunk), window, chunk)
    ensures
      var s1 := RunOf(s, before, chunk);
      var s2 := RunOf(s1, window, chunk);
      Bytes(window) as real
      <= s1.bucket.burst + Flow(s1.bucket.rate, s2.bucket.last - window[0].at) + (|s.free| * chunk) as real
  {
    LevelStaysBounded(s, before, chunk);
    var s1 := RunOf(s, before, chunk);
    RunKeepsDebtCovered(s1, window, chunk);
    DebtBoundsLevel(RunOf(s1, window, chunk), chunk);
    WindowAgainstLevel(s1, window, chunk);
  }

  lemma FlowIs(rate: real, t: real)
    ensures Flow(rate, t) == rate * t
  {
  }

  /** And so the rate is kept: from any state such a run reaches, the calls of
      any window, first to last, account at most one burst, what flows in
      during the window, and one chunk per sender. */
  lemma SharedRateBound(s: Shared, before: seq<Call>, window: seq<Call>, chunk: nat)
    requires Fresh(s) && PoliteRun(s, before, chunk) && window != []
    requires ValidBucket(RunOf(s, before, chunk).bucket) && PoliteRun(RunOf(s, before, chunk), window, chunk)
    ensures
      var s1 := RunOf(s, before, chunk);
      var s2 := RunOf(s1, window, chunk);
      Bytes(window) as real
      <= s1.bucket.burst + s1.bucket.rate * (s2.bucket.last - window[0].at) + (|s.free| * chunk) as real
  {
    var s1 := RunOf(s, before, chunk);
    WindowBound(s, before, window, chunk);
    FlowIs(s1.bucket.rate, RunOf(s1, window, chunk).bucket.last - window[0].at);
  }
}
