/** core/outgoing_ratelimit.go: the per-platform token bucket, in real arithmetic. */
module RateLimit {
  // Times are clock readings in seconds.

  import opened Wrappers

  // --- Configuration ---

  datatype Cfg = Cfg(maxPerSecond: real, burst: int)

  predicate Disabled(c: Cfg) {
    c.maxPerSecond <= 0.0
  }

  function Ceil(x: real): int {
    -((-x).Floor)
  }

  /** An enabled configuration always lets at least one message through, and its default burst is
      the least whole number of messages not below a second's worth. */
  function EffectiveBurst(c: Cfg): (b: int)
    ensures !Disabled(c) ==> b >= 1
    ensures !Disabled(c) && c.burst <= 0 ==> b as real - 1.0 < c.maxPerSecond <= b as real
  {
    if c.burst > 0 then c.burst else Ceil(c.maxPerSecond)
  }

  // --- One bucket as a value ---

  datatype Bucket = Bucket(tokens: real, max: real, rate: real, last: real)

  predicate Ok(b: Bucket) {
    0.0 <= b.tokens <= b.max && b.max >= 1.0 && b.rate > 0.0
  }

  function MinR(a: real, b: real): real {
    if a <= b then a else b
  }

  function Refilled(b: Bucket, now: real): Bucket {
    if now - b.last <= 0.0 then b
    else b.(tokens := MinR(b.max, b.tokens + (now - b.last) * b.rate), last := now)
  }

  /** One iteration of Wait: refill, then take a token if there is one. */
  function Attempt(b: Bucket, now: real): Bucket {
    var r := Refilled(b, now);
    if r.tokens >= 1.0 then r.(tokens := r.tokens - 1.0) else r
  }

  predicate Grants(b: Bucket, now: real) {
    Refilled(b, now).tokens >= 1.0
  }

  function FullBucket(c: Cfg, now: real): Bucket {
    Bucket(EffectiveBurst(c) as real, EffectiveBurst(c) as real, c.maxPerSecond, now)
  }

  lemma MulNonNegative(a: real, r: real)
    requires a >= 0.0 && r >= 0.0
    ensures a * r >= 0.0
  {
  }

  lemma MulMono(a: real, b: real, r: real)
    requires a <= b && r >= 0.0
    ensures a * r <= b * r
  {
  }

  lemma MulDistrib(a: real, b: real, r: real)
    ensures (a + b) * r == a * r + b * r
  {
  }

  lemma RefillOk(b: Bucket, now: real)
    requires Ok(b)
    ensures Ok(Refilled(b, now)) && Refilled(b, now).max == b.max && Refilled(b, now).rate == b.rate
    ensures b.tokens <= Refilled(b, now).tokens
  {
    if now - b.last > 0.0 {
      var inflow := (now - b.last) * b.rate;
      MulNonNegative(now - b.last, b.rate);
      assert Refilled(b, now).tokens == MinR(b.max, b.tokens + inflow);
    }
  }

  lemma AttemptOk(b: Bucket, now: real)
    requires Ok(b)
    ensures Ok(Attempt(b, now)) && Attempt(b, now).max == b.max && Attempt(b, now).rate == b.rate
  {
    RefillOk(b, now);
  }

  /** Lazy refill refines continuous refill: looking at the bucket at any instant in between, without
      taking a token, makes no difference. */
  lemma RefillInBetween(b: Bucket, t: real, u: real)
    requires Ok(b) && b.last <= t <= u
    ensures Refilled(Refilled(b, t), u) == Refilled(b, u)
  {
    if b.last < t < u {
      MulDistrib(t - b.last, u - t, b.rate);
      assert (t - b.last) + (u - t) == u - b.last;
      MulNonNegative(u - t, b.rate);
      MulNonNegative(t - b.last, b.rate);
    }
  }

  function RefillAll(b: Bucket, times: seq<real>): Bucket
    decreases |times|
  {
    if times == [] then b else RefillAll(Refilled(b, times[0]), times[1..])
  }

  predicate Sorted(times: seq<real>) {
    forall i, j :: 0 <= i < j < |times| ==> times[i] <= times[j]
  }

  /** The same for any number of instants in between. */
  lemma {:induction false} RefillAnyTimes(b: Bucket, times: seq<real>, u: real)
    requires Ok(b) && Sorted(times + [u])
    requires b.last <= (times + [u])[0]
    ensures Refilled(RefillAll(b, times), u) == Refilled(b, u)
    decreases |times|
  {
    if times != [] {
      var t := times[0];
      var rest := times[1..];
      RefillOk(b, t);
      assert (times + [u])[0] == t && (times + [u])[|times|] == u;
      assert rest + [u] == (times + [u])[1..];
      assert Refilled(b, t).last == t;
      RefillAnyTimes(Refilled(b, t), rest, u);
      RefillInBetween(b, t, u);
    }
  }

  /** Waiting is sound: after a refusal, the computed pause is positive, and when it is over, with no
      other grant in between, the next attempt is granted. */
  lemma WaitIsEnough(b: Bucket, now: real, wake: real)
    requires Ok(b) && b.last <= now && !Grants(b, now)
    requires wake >= now + (1.0 - Refilled(b, now).tokens) / b.rate
    ensures (1.0 - Refilled(b, now).tokens) / b.rate > 0.0
    ensures Grants(Attempt(b, now), wake)
  {
    var r := Refilled(b, now);
    RefillOk(b, now);
    PauseCovers(1.0 - r.tokens, b.rate, wake - now);
    assert r.last == now && Attempt(b, now) == r;
  }

  lemma PauseCovers(deficit: real, rate: real, elapsed: real)
    requires deficit > 0.0 && rate > 0.0 && elapsed >= deficit / rate
    ensures deficit / rate > 0.0 && elapsed * rate >= deficit
  {
    var pause := deficit / rate;
    assert pause * rate == deficit;
    if pause <= 0.0 { MulNonNegative(-pause, rate); }
    MulMono(pause, elapsed, rate);
  }

  // --- Any-window bound, over all platforms of a limiter ---

  /** The buckets of a limiter, by platform. */
  type Buckets = map<string, Bucket>

  datatype Call = Call(platform: string, now: real)

  /** The global defaults and the per-platform overrides. */
  datatype Config = Config(defaults: Cfg, overrides: map<string, Cfg>)

  function CfgFor(cfg: Config, platform: string): Cfg {
    if platform in cfg.overrides then cfg.overrides[platform] else cfg.defaults
  }

  /** bucketFor: the existing bucket, or a full one. */
  function BucketFor(bs: Buckets, c: Cfg, platform: string, now: real): Bucket {
    if platform in bs then bs[platform] else FullBucket(c, now)
  }

  /** A platform of its own configuration attempts to send. */
  function Send(bs: Buckets, cfg: Config, call: Call): Buckets {
    if Disabled(CfgFor(cfg, call.platform)) then bs
    else bs[call.platform := Attempt(BucketFor(bs, CfgFor(cfg, call.platform), call.platform, call.now), call.now)]
  }

  predicate Granted(bs: Buckets, cfg: Config, call: Call) {
    Disabled(CfgFor(cfg, call.platform)) || Grants(BucketFor(bs, CfgFor(cfg, call.platform), call.platform, call.now), call.now)
  }

  function After(bs: Buckets, cfg: Config, calls: seq<Call>): Buckets {
    if calls == [] then bs else Send(After(bs, cfg, calls[..|calls| - 1]), cfg, calls[|calls| - 1])
  }

  /** Messages of p granted among calls begin..end. */
  function GrantCount(bs: Buckets, cfg: Config, calls: seq<Call>, p: string, begin: nat, end: nat): nat
    requires begin <= end <= |calls|
    decreases end
  {
    if end == begin then 0
    else
      GrantCount(bs, cfg, calls, p, begin, end - 1)
      + (if calls[end - 1].platform == p && Granted(After(bs, cfg, calls[..end - 1]), cfg, calls[end - 1]) then 1 else 0)
  }

  ghost predicate MonotoneClock(calls: seq<Call>) {
    forall i, j :: 0 <= i < j < |calls| ==> calls[i].now <= calls[j].now
  }

  /** Every existing bucket has its platform's size and rate and is within bounds, and was last
      refilled no later than now. */
  ghost predicate BucketsOk(bs: Buckets, cfg: Config, now: real) {
    forall p :: p in bs ==>
      !Disabled(CfgFor(cfg, p)) && Ok(bs[p]) && bs[p].last <= now
      && bs[p].max == EffectiveBurst(CfgFor(cfg, p)) as real && bs[p].rate == CfgFor(cfg, p).maxPerSecond
  }

  lemma SendOk(bs: Buckets, cfg: Config, call: Call)
    requires BucketsOk(bs, cfg, call.now)
    ensures BucketsOk(Send(bs, cfg, call), cfg, call.now)
  {
    var c := CfgFor(cfg, call.platform);
    if !Disabled(c) {
      AttemptOk(BucketFor(bs, c, call.platform, call.now), call.now);
    }
  }

  /** Sending on one platform leaves every other platform's bucket alone. */
  lemma OthersUntouched(bs: Buckets, cfg: Config, call: Call, q: string)
    requires q != call.platform
    ensures (q in Send(bs, cfg, call) <==> q in bs)
    ensures q in bs ==> Send(bs, cfg, call)[q] == bs[q]
  {
  }

  /** The calls of one platform. */
  function Only(calls: seq<Call>, p: string): seq<Call> {
    if calls == [] then []
    else Only(calls[..|calls| - 1], p) + (if calls[|calls| - 1].platform == p then [calls[|calls| - 1]] else [])
  }

  lemma AfterSnoc(bs: Buckets, cfg: Config, calls: seq<Call>, call: Call)
    ensures After(bs, cfg, calls + [call]) == Send(After(bs, cfg, calls), cfg, call)
  {
    assert (calls + [call])[..|calls|] == calls;
  }

  lemma SendAlone(bs: Buckets, alone: Buckets, cfg: Config, call: Call)
    requires call.platform in bs <==> call.platform in alone
    requires call.platform in bs ==> bs[call.platform] == alone[call.platform]
    ensures Granted(bs, cfg, call) == Granted(alone, cfg, call)
    ensures call.platform in Send(bs, cfg, call) <==> call.platform in Send(alone, cfg, call)
    ensures call.platform in Send(bs, cfg, call) ==>
              Send(bs, cfg, call)[call.platform] == Send(alone, cfg, call)[call.platform]
  {
  }

  /** Isolation over whole runs: a platform's bucket is the one its own calls alone would have left,
      however they are interleaved with the calls of other platforms. */
  lemma {:induction false} PlatformsIndependent(cfg: Config, calls: seq<Call>, p: string)
    ensures p in After(map[], cfg, calls) <==> p in After(map[], cfg, Only(calls, p))
    ensures p in After(map[], cfg, calls) ==> After(map[], cfg, calls)[p] == After(map[], cfg, Only(calls, p))[p]
    decreases |calls|
  {
    if calls != [] {
      var front, last := calls[..|calls| - 1], calls[|calls| - 1];
      PlatformsIndependent(cfg, front, p);
      if last.platform == p {
        SendAlone(After(map[], cfg, front), After(map[], cfg, Only(front, p)), cfg, last);
        AfterSnoc(map[], cfg, Only(front, p), last);
      } else {
        OthersUntouched(After(map[], cfg, front), cfg, last, p);
        assert Only(front, p) + [] == Only(front, p);
      }
    }
  }

  /** And so is the answer to its next call. */
  lemma GrantsIndependent(cfg: Config, calls: seq<Call>, call: Call)
    ensures Granted(After(map[], cfg, calls), cfg, call)
         == Granted(After(map[], cfg, Only(calls, call.platform)), cfg, call)
  {
    PlatformsIndependent(cfg, calls, call.platform);
  }

  lemma {:induction false} AfterOk(cfg: Config, calls: seq<Call>, k: nat, now: real)
    requires MonotoneClock(calls) && k <= |calls|
    requires k > 0 ==> calls[k - 1].now <= now
    ensures BucketsOk(After(map[], cfg, calls[..k]), cfg, now)
  {
    if k > 0 {
      assert calls[..k][..k - 1] == calls[..k - 1];
      AfterOk(cfg, calls, k - 1, calls[k - 1].now);
      SendOk(After(map[], cfg, calls[..k - 1]), cfg, calls[k - 1]);
    }
  }

  /** Tokens p could have at instant u. */
  function TokensAt(bs: Buckets, c: Cfg, p: string, u: real): real {
    Refilled(BucketFor(bs, c, p, u), u).tokens
  }

  lemma RefillBound(b: Bucket, t: real, u: real)
    requires Ok(b) && b.last <= t <= u
    ensures Refilled(b, u).tokens <= Refilled(b, t).tokens + b.rate * (u - t)
  {
    RefillInBetween(b, t, u);
    RefillOk(b, t);
    MulNonNegative(u - t, b.rate);
    var r := Refilled(b, t);
    assert r.last == t && r.rate == b.rate && Refilled(r, u) == Refilled(b, u);
    assert Refilled(r, u).tokens <= r.tokens + (u - t) * r.rate;
  }

  /** One call costs its grant: what p could still send at u shrinks by what was granted. */
  lemma CallCost(bs: Buckets, cfg: Config, call: Call, p: string)
    requires BucketsOk(bs, cfg, call.now) && !Disabled(CfgFor(cfg, p))
    ensures TokensAt(Send(bs, cfg, call), CfgFor(cfg, p), p, call.now)
            + (if call.platform == p && Granted(bs, cfg, call) then 1.0 else 0.0)
         == TokensAt(bs, CfgFor(cfg, p), p, call.now)
  {
    if call.platform == p {
      var b := BucketFor(bs, CfgFor(cfg, p), p, call.now);
      AttemptOk(b, call.now);
      RefillOk(b, call.now);
    }
  }

  /** What was granted plus what is left never exceeds the burst plus what has flowed in. */
  ghost predicate Within(cfg: Config, calls: seq<Call>, p: string, begin: nat, end: nat)
    requires begin < end <= |calls|
  {
    GrantCount(map[], cfg, calls, p, begin, end) as real
    + TokensAt(After(map[], cfg, calls[..end]), CfgFor(cfg, p), p, calls[end - 1].now)
    <= EffectiveBurst(CfgFor(cfg, p)) as real + CfgFor(cfg, p).maxPerSecond * (calls[end - 1].now - calls[begin].now)
  }

  lemma WindowStart(cfg: Config, calls: seq<Call>, p: string, begin: nat)
    requires MonotoneClock(calls) && begin < |calls| && !Disabled(CfgFor(cfg, p))
    ensures Within(cfg, calls, p, begin, begin + 1)
  {
    var last := calls[begin];
    var bs := After(map[], cfg, calls[..begin]);
    assert calls[..begin + 1][..begin] == calls[..begin];
    AfterOk(cfg, calls, begin, last.now);
    CallCost(bs, cfg, last, p);
    RefillOk(BucketFor(bs, CfgFor(cfg, p), p, last.now), last.now);
    assert GrantCount(map[], cfg, calls, p, begin, begin) == 0;
  }

  /** What p has and has been granted after call `end`, against what it had before. */
  lemma StepCost(cfg: Config, calls: seq<Call>, p: string, begin: nat, end: nat)
    requires MonotoneClock(calls) && begin < end < |calls| && !Disabled(CfgFor(cfg, p))
    ensures GrantCount(map[], cfg, calls, p, begin, end + 1) as real
            + TokensAt(After(map[], cfg, calls[..end + 1]), CfgFor(cfg, p), p, calls[end].now)
         == GrantCount(map[], cfg, calls, p, begin, end) as real
            + TokensAt(After(map[], cfg, calls[..end]), CfgFor(cfg, p), p, calls[end].now)
  {
    assert calls[..end + 1][..end] == calls[..end];
    AfterOk(cfg, calls, end, calls[end].now);
    CallCost(After(map[], cfg, calls[..end]), cfg, calls[end], p);
  }

  lemma StepGap(cfg: Config, calls: seq<Call>, p: string, begin: nat, end: nat)
    requires MonotoneClock(calls) && begin < end < |calls| && !Disabled(CfgFor(cfg, p))
    ensures Gap(After(map[], cfg, calls[..end]), CfgFor(cfg, p), p, calls[begin].now, calls[end - 1].now, calls[end].now)
  {
    AfterOk(cfg, calls, end, calls[end - 1].now);
    WindowGap(After(map[], cfg, calls[..end]), CfgFor(cfg, p), p, calls[begin].now, calls[end - 1].now, calls[end].now);
  }

  lemma WindowStep(cfg: Config, calls: seq<Call>, p: string, begin: nat, end: nat)
    requires MonotoneClock(calls) && begin < end < |calls| && !Disabled(CfgFor(cfg, p))
    requires Within(cfg, calls, p, begin, end)
    ensures Within(cfg, calls, p, begin, end + 1)
  {
    StepCost(cfg, calls, p, begin, end);
    StepGap(cfg, calls, p, begin, end);
  }

  lemma {:induction false} WindowInvariant(cfg: Config, calls: seq<Call>, p: string, begin: nat, end: nat)
    requires MonotoneClock(calls) && begin < end <= |calls| && !Disabled(CfgFor(cfg, p))
    ensures Within(cfg, calls, p, begin, end)
    decreases end
  {
    if end == begin + 1 {
      WindowStart(cfg, calls, p, begin);
    } else {
      WindowInvariant(cfg, calls, p, begin, end - 1);
      WindowStep(cfg, calls, p, begin, end - 1);
    }
  }

  /** Between t and u no more tokens appear than flow in. */
  ghost predicate Gap(bs: Buckets, c: Cfg, p: string, s: real, t: real, u: real) {
    TokensAt(bs, c, p, u) + c.maxPerSecond * (t - s) <= TokensAt(bs, c, p, t) + c.maxPerSecond * (u - s)
  }

  lemma WindowGap(bs: Buckets, c: Cfg, p: string, s: real, t: real, u: real)
    requires !Disabled(c) && s <= t <= u
    requires p in bs ==> Ok(bs[p]) && bs[p].last <= t && bs[p].rate == c.maxPerSecond
    ensures Gap(bs, c, p, s, t, u)
  {
    MulDistrib(t - s, u - t, c.maxPerSecond);
    assert (t - s) + (u - t) == u - s;
    MulNonNegative(u - t, c.maxPerSecond);
    if p in bs {
      RefillBound(bs[p], t, u);
    }
  }

  /** In every run with a monotone clock, whatever the other platforms do, the messages of platform p
      granted among calls begin..end never exceed burst + rate * elapsed time. */
  lemma AnyWindowBound(cfg: Config, calls: seq<Call>, p: string, begin: nat, end: nat)
    requires MonotoneClock(calls) && begin < end <= |calls| && !Disabled(CfgFor(cfg, p))
    ensures GrantCount(map[], cfg, calls, p, begin, end) as real
         <= EffectiveBurst(CfgFor(cfg, p)) as real + CfgFor(cfg, p).maxPerSecond * (calls[end - 1].now - calls[begin].now)
  {
    WindowInvariant(cfg, calls, p, begin, end);
    AfterOk(cfg, calls, end, calls[end - 1].now);
    var bs := After(map[], cfg, calls[..end]);
    var b := BucketFor(bs, CfgFor(cfg, p), p, calls[end - 1].now);
    RefillOk(b, calls[end - 1].now);
  }

  /** Tokens stay between zero and the burst in every run. */
  lemma TokensWithinBurst(cfg: Config, calls: seq<Call>, p: string)
    requires MonotoneClock(calls) && p in After(map[], cfg, calls)
    ensures 0.0 <= After(map[], cfg, calls)[p].tokens <= EffectiveBurst(CfgFor(cfg, p)) as real
  {
    assert calls[..|calls|] == calls;
    AfterOk(cfg, calls, |calls|, if calls == [] then 0.0 else calls[|calls| - 1].now);
  }

  // --- The burst ---

  /** This many calls of one platform at one instant. */
  function AtOnce(p: string, now: real, k: nat): seq<Call> {
    seq(k, _ => Call(p, now))
  }

  /** The platform's own configuration if it has one, else the global one. */
  predicate Configured(cfg: Config, p: string, c: Cfg) {
    (p in cfg.overrides && cfg.overrides[p] == c) || (p !in cfg.overrides && cfg.defaults == c)
  }

  /** The configured burst, or the least whole number of messages not below a second's worth. */
  predicate BurstIs(c: Cfg, n: nat) {
    if c.burst > 0 then n == c.burst else n as real - 1.0 < c.maxPerSecond <= n as real
  }

  lemma AtOnceMore(p: string, now: real, k: nat)
    ensures AtOnce(p, now, k + 1) == AtOnce(p, now, k) + [Call(p, now)]
  {
  }

  lemma BurstIsEffective(c: Cfg, n: nat)
    requires c.maxPerSecond > 0.0 && BurstIs(c, n)
    ensures EffectiveBurst(c) == n && n >= 1
  {
  }

  lemma {:induction false} BucketAtOnce(cfg: Config, p: string, c: Cfg, now: real, n: nat, k: nat)
    requires Configured(cfg, p, c) && c.maxPerSecond > 0.0 && BurstIs(c, n)
    ensures var bs := After(map[], cfg, AtOnce(p, now, k));
            BucketFor(bs, c, p, now) == Bucket((if k < n then n - k else 0) as real, n as real, c.maxPerSecond, now)
  {
    BurstIsEffective(c, n);
    if k > 0 {
      BucketAtOnce(cfg, p, c, now, n, k - 1);
      AtOnceMore(p, now, k - 1);
      AfterSnoc(map[], cfg, AtOnce(p, now, k - 1), Call(p, now));
    }
  }

  /** Of the calls of a platform at one instant exactly the first n are granted, n being its burst,
      whatever calls of other platforms come between them. */
  lemma BurstGrantedAtOnce(cfg: Config, calls: seq<Call>, p: string, c: Cfg, now: real, n: nat, k: nat)
    requires Configured(cfg, p, c) && c.maxPerSecond > 0.0 && BurstIs(c, n)
    requires Only(calls, p) == AtOnce(p, now, k)
    ensures Granted(After(map[], cfg, calls), cfg, Call(p, now)) <==> k < n
  {
    GrantsIndependent(cfg, calls, Call(p, now));
    BucketAtOnce(cfg, p, c, now, n, k);
  }

  /** A platform whose rate is not positive is not limited. */
  lemma NoRateNoLimit(cfg: Config, bs: Buckets, p: string, c: Cfg, now: real)
    requires Configured(cfg, p, c) && c.maxPerSecond <= 0.0
    ensures Granted(bs, cfg, Call(p, now)) && Send(bs, cfg, Call(p, now)) == bs
  {
  }

  // --- The classes ---

  class TokenBucket {
    var tokens: real
    var maxTokens: real
    var refillRate: real
    var lastRefill: real

    ghost function View(): Bucket
      reads this
    {
      Bucket(tokens, maxTokens, refillRate, lastRefill)
    }

    constructor (burst: real, rate: real, now: real)
      ensures View() == Bucket(burst, burst, rate, now)
    {
      tokens, maxTokens, refillRate, lastRefill := burst, burst, rate, now;
    }

    method Refill(now: real)
      modifies this
      ensures View() == Refilled(old(View()), now)
    {
      var elapsed := now - lastRefill;
      if elapsed <= 0.0 {
        return;
      }
      tokens := tokens + elapsed * refillRate;
      if tokens > maxTokens {
        tokens := maxTokens;
      }
      lastRefill := now;
    }
  }

  /** The critical section of one iteration of Wait on its bucket. */
  method Take(b: TokenBucket, now: real) returns (granted: bool, pause: real)
    requires b.refillRate > 0.0
    modifies b
    ensures b.View() == Attempt(old(b.View()), now)
    ensures granted == Grants(old(b.View()), now)
    ensures !granted ==> pause == (1.0 - b.tokens) / b.refillRate
  {
    granted, pause := false, 0.0;
    b.Refill(now);
    if b.tokens >= 1.0 {
      b.tokens := b.tokens - 1.0;
      granted := true;
    } else {
      pause := (1.0 - b.tokens) / b.refillRate;
    }
  }

  /** How long a refused attempt sleeps. */
  function Pause(bs: Buckets, cfg: Config, call: Call): real
    requires !Disabled(CfgFor(cfg, call.platform))
    requires call.platform in bs ==> bs[call.platform].rate > 0.0
  {
    var b := BucketFor(bs, CfgFor(cfg, call.platform), call.platform, call.now);
    (1.0 - Refilled(b, call.now).tokens) / b.rate
  }

  /** The buckets after the first k attempts of one platform at these times. */
  function SendFirst(bs: Buckets, cfg: Config, platform: string, wakes: seq<real>, k: nat): Buckets
    requires k <= |wakes|
  {
    if k == 0 then bs else Send(SendFirst(bs, cfg, platform, wakes, k - 1), cfg, Call(platform, wakes[k - 1]))
  }

  /** Attempt k would be granted if the first k attempts are all there were. */
  ghost predicate GrantedAt(bs: Buckets, cfg: Config, platform: string, wakes: seq<real>, k: nat)
    requires k < |wakes|
  {
    Granted(SendFirst(bs, cfg, platform, wakes, k), cfg, Call(platform, wakes[k]))
  }

  /** How long the loop sleeps behind attempt k. */
  ghost predicate PausesAt(bs: Buckets, cfg: Config, platform: string, wakes: seq<real>, k: nat, pause: real)
    requires k < |wakes|
  {
    var now := SendFirst(bs, cfg, platform, wakes, k);
    !Disabled(CfgFor(cfg, platform)) && (platform in now ==> now[platform].rate > 0.0)
    && pause == Pause(now, cfg, Call(platform, wakes[k]))
  }

  /** The attempts so far: only the last one can have been granted, and behind every refused one there
      is a pause. */
  ghost predicate Tried(bs: Buckets, cfg: Config, platform: string, wakes: seq<real>, sent: bool, tries: nat,
                        pauses: seq<real>)
  {
    && tries <= |wakes| && |pauses| == (if sent && tries > 0 then tries - 1 else tries)
    && (forall k :: 0 <= k < tries ==> (GrantedAt(bs, cfg, platform, wakes, k) <==> sent && k == tries - 1))
    && (forall k :: 0 <= k < |pauses| ==> PausesAt(bs, cfg, platform, wakes, k, pauses[k]))
  }

  lemma TriedMore(bs: Buckets, cfg: Config, platform: string, wakes: seq<real>, tries: nat, pauses: seq<real>,
                  granted: bool, pause: real)
    requires Tried(bs, cfg, platform, wakes, false, tries, pauses) && tries < |wakes|
    requires granted == GrantedAt(bs, cfg, platform, wakes, tries)
    requires !granted ==> PausesAt(bs, cfg, platform, wakes, tries, pause)
    ensures Tried(bs, cfg, platform, wakes, granted, tries + 1, if granted then pauses else pauses + [pause])
  {
  }

  /** How Wait ends: at once if the limit is disabled, else at the first attempt that is granted or when
      the readings run out. */
  ghost predicate Outcome(bs: Buckets, cfg: Config, platform: string, wakes: seq<real>, sent: bool, tries: nat,
                          pauses: seq<real>)
  {
    && Tried(bs, cfg, platform, wakes, sent, tries, pauses)
    && (if Disabled(CfgFor(cfg, platform)) then sent && tries == 0 else if sent then tries > 0 else tries == |wakes|)
  }

  /** No timer fired early: every wake is at least the pause behind the refused attempt before it. */
  predicate TimersRan(wakes: seq<real>, pauses: seq<real>) {
    forall k :: 0 <= k < |pauses| && k + 1 < |wakes| ==> wakes[k + 1] >= wakes[k] + pauses[k]
  }

  /** The timer of the first refusal ran its full time before the second try. */
  ghost predicate FullPause(bs: Buckets, cfg: Config, platform: string, wakes: seq<real>) {
    && |wakes| >= 2 && !Disabled(CfgFor(cfg, platform)) && (platform in bs ==> bs[platform].rate > 0.0)
    && wakes[1] >= wakes[0] + Pause(bs, cfg, Call(platform, wakes[0]))
  }

  lemma {:induction false} SendFirstOk(bs: Buckets, cfg: Config, platform: string, wakes: seq<real>, k: nat)
    requires k < |wakes| && Sorted(wakes) && BucketsOk(bs, cfg, wakes[0]) && !Disabled(CfgFor(cfg, platform))
    ensures BucketsOk(SendFirst(bs, cfg, platform, wakes, k), cfg, wakes[k])
  {
    if k > 0 {
      SendFirstOk(bs, cfg, platform, wakes, k - 1);
      SendOk(SendFirst(bs, cfg, platform, wakes, k - 1), cfg, Call(platform, wakes[k - 1]));
      BucketsLater(SendFirst(bs, cfg, platform, wakes, k), cfg, wakes[k - 1], wakes[k]);
    }
  }

  lemma RateStays(bs: Buckets, cfg: Config, platform: string, wakes: seq<real>, k: nat)
    requires k < |wakes| && Sorted(wakes) && BucketsOk(bs, cfg, wakes[0]) && !Disabled(CfgFor(cfg, platform))
    ensures var now := SendFirst(bs, cfg, platform, wakes, k); platform in now ==> now[platform].rate > 0.0
  {
    SendFirstOk(bs, cfg, platform, wakes, k);
  }

  class OutgoingRateLimiter {
    var buckets: map<string, TokenBucket>
    const cfg: Config

    ghost function View(): Buckets
      reads this, buckets.Values
    {
      map p | p in buckets :: buckets[p].View()
    }

    /** No two platforms share a bucket. */
    ghost predicate Valid()
      reads this
    {
      forall p, q :: p in buckets && q in buckets && buckets[p] == buckets[q] ==> p == q
    }

    constructor (cfg: Config)
      ensures Valid() && this.cfg == cfg && View() == map[]
    {
      this.cfg := cfg;
      buckets := map[];
    }

    /** bucketFor */
    method FindBucket(platform: string, now: real) returns (b: TokenBucket)
      requires Valid()
      modifies this`buckets
      ensures Valid() && platform in buckets && b == buckets[platform]
      ensures b.View() == BucketFor(old(View()), CfgFor(cfg, platform), platform, now)
      ensures View() == old(View())[platform := b.View()]
      ensures forall p :: p in buckets ==> fresh(buckets[p]) || (p in old(buckets) && buckets[p] == old(buckets)[p])
      ensures platform in old(buckets) ==> buckets == old(buckets)
      ensures platform !in old(buckets) ==> fresh(b) && buckets == old(buckets)[platform := b]
    {
      if platform in buckets {
        b := buckets[platform];
        return;
      }
      var c := CfgFor(cfg, platform);
      var burst := EffectiveBurst(c);
      b := new TokenBucket(burst as real, c.maxPerSecond, now);
      buckets := buckets[platform := b];
    }

    /** One iteration of Wait's loop. */
    method TrySend(platform: string, now: real) returns (granted: bool, pause: real)
      requires Valid() && !Disabled(CfgFor(cfg, platform))
      requires platform in View() ==> View()[platform].rate > 0.0
      modifies this`buckets, buckets.Values
      ensures Valid() && fresh(buckets.Values - old(buckets.Values))
      ensures View() == Send(old(View()), cfg, Call(platform, now))
      ensures granted == Granted(old(View()), cfg, Call(platform, now))
      ensures !granted ==> pause == Pause(old(View()), cfg, Call(platform, now))
    {
      var b := FindBucket(platform, now);
      ghost var found := BucketFor(old(View()), CfgFor(cfg, platform), platform, now);
      assert forall p :: p in buckets && p != platform ==> buckets[p] != b;
      granted, pause := Take(b, now);
      assert View() == old(View())[platform := Attempt(found, now)];
    }

    /** Wait: tries at these clock readings until one is granted, and sleeps between two tries for as
        long as the tokens that are missing take to flow in; the context is cancelled when the readings
        run out. */
    method Wait(platform: string, wakes: seq<real>) returns (sent: bool, tries: nat, pauses: seq<real>)
      requires Valid() && wakes != [] && Sorted(wakes) && BucketsOk(View(), cfg, wakes[0])
      modifies this`buckets, buckets.Values
      ensures Valid() && tries <= |wakes|
      ensures View() == SendFirst(old(View()), cfg, platform, wakes, tries)
      ensures Outcome(old(View()), cfg, platform, wakes, sent, tries, pauses)
    {
      ghost var start := View();
      sent, tries, pauses := false, 0, [];
      if Disabled(CfgFor(cfg, platform)) {
        return true, 0, [];
      }
      while tries < |wakes| && !sent
        invariant Valid() && tries <= |wakes| && (sent ==> tries > 0)
        invariant fresh(buckets.Values - old(buckets.Values))
        invariant View() == SendFirst(start, cfg, platform, wakes, tries)
        invariant Tried(start, cfg, platform, wakes, sent, tries, pauses)
      {
        RateStays(start, cfg, platform, wakes, tries);
        var pause: real;
        sent, pause := TrySend(platform, wakes[tries]);
        TriedMore(start, cfg, platform, wakes, tries, pauses, sent, pause);
        if !sent {
          pauses := pauses + [pause];
        }
        tries := tries + 1;
        assert View() == SendFirst(start, cfg, platform, wakes, tries);
      }
    }
  }

  /** When the timer of the first refusal runs its full time, the first or the second try is granted. */
  lemma FullPauseIsEnough(bs: Buckets, cfg: Config, platform: string, wakes: seq<real>)
    requires FullPause(bs, cfg, platform, wakes) && Sorted(wakes) && BucketsOk(bs, cfg, wakes[0])
    ensures GrantedAt(bs, cfg, platform, wakes, 0) || GrantedAt(bs, cfg, platform, wakes, 1)
  {
    if !GrantedAt(bs, cfg, platform, wakes, 0) {
      SecondTry(bs, cfg, platform, wakes[0], wakes[1]);
      assert SendFirst(bs, cfg, platform, wakes, 1) == Send(bs, cfg, Call(platform, wakes[0]));
    }
  }

  /** A Wait that is not cancelled and has no competition sends at its second try at the latest. */
  lemma TwoTriesSuffice(bs: Buckets, cfg: Config, platform: string, wakes: seq<real>, sent: bool, tries: nat,
                        pauses: seq<real>)
    requires Sorted(wakes) && |wakes| >= 2 && BucketsOk(bs, cfg, wakes[0])
    requires Outcome(bs, cfg, platform, wakes, sent, tries, pauses) && TimersRan(wakes, pauses)
    ensures sent && tries <= 2
  {
    if !Disabled(CfgFor(cfg, platform)) && !(sent && tries <= 2) {
      assert PausesAt(bs, cfg, platform, wakes, 0, pauses[0]);
      assert SendFirst(bs, cfg, platform, wakes, 0) == bs;
      FullPauseIsEnough(bs, cfg, platform, wakes);
    }
  }

  lemma BucketsLater(bs: Buckets, cfg: Config, t: real, u: real)
    requires BucketsOk(bs, cfg, t) && t <= u
    ensures BucketsOk(bs, cfg, u)
  {
  }

  /** WaitIsEnough, for a limiter: a refused first try, a full pause, no other sender. */
  lemma SecondTry(bs: Buckets, cfg: Config, platform: string, now: real, wake: real)
    requires BucketsOk(bs, cfg, now) && !Disabled(CfgFor(cfg, platform)) && now <= wake
    requires !Granted(bs, cfg, Call(platform, now))
    ensures wake >= now + Pause(bs, cfg, Call(platform, now)) ==>
              Granted(Send(bs, cfg, Call(platform, now)), cfg, Call(platform, wake))
  {
    if wake >= now + Pause(bs, cfg, Call(platform, now)) {
      WaitIsEnough(BucketFor(bs, CfgFor(cfg, platform), platform, now), now, wake);
    }
  }
}
