/** The per-address rate limiter: a token bucket for each address, and a map of
    buckets from which idle ones are pruned.  Times are seconds. */
module RateLimit {
  import opened Wrappers

  const ENTRY_TTL: real := 1800.0
  const PRUNE_INTERVAL: real := 600.0

  datatype Bucket = Bucket(tokens: real, capacity: real, rate: real, refilled: real, seen: real)

  function FullBucket(capacity: real, rate: real, now: real): Bucket {
    Bucket(capacity, capacity, rate, now, now)
  }

  /** What `seconds` of refilling bring. */
  function Gain(rate: real, seconds: real): real {
    seconds * rate
  }

  function Refill(b: Bucket, now: real): real {
    var t := b.tokens + Gain(b.rate, now - b.refilled);
    if t > b.capacity then b.capacity else t
  }

  predicate Admits(b: Bucket, now: real) {
    Refill(b, now) >= 1.0
  }

  function Used(b: Bucket, now: real): Bucket {
    b.(tokens := if Admits(b, now) then Refill(b, now) - 1.0 else Refill(b, now), refilled := now)
  }

  class SimpleTokenBucket {
    var tokens: real
    const capacity: real
    const refillRate: real
    var lastRefillTime: real
    var lastSeen: real

    ghost function View(): Bucket
      reads this
    {
      Bucket(tokens, capacity, refillRate, lastRefillTime, lastSeen)
    }

    constructor (capacity: real, refillRate: real, now: real)
      ensures View() == FullBucket(capacity, refillRate, now)
    {
      tokens, this.capacity, this.refillRate := capacity, capacity, refillRate;
      lastRefillTime, lastSeen := now, now;
    }

    method Allow(now: real) returns (ok: bool)
      modifies this`tokens, this`lastRefillTime
      ensures ok == Admits(old(View()), now)
      ensures View() == Used(old(View()), now)
    {
      var elapsed := now - lastRefillTime;
      assert elapsed * refillRate == Gain(refillRate, now - lastRefillTime);
      tokens := tokens + elapsed * refillRate;
      if tokens > capacity {
        tokens := capacity;
      }
      lastRefillTime := now;
      if tokens >= 1.0 {
        tokens := tokens - 1.0;
        return true;
      }
      return false;
    }
  }

  // ----- what a bucket admits -----------------------------------------------------------

  /** The bucket after the first `k` requests. */
  function After(b: Bucket, times: seq<real>, k: nat): Bucket
    requires k <= |times|
  {
    if k == 0 then b else Used(After(b, times, k - 1), times[k - 1])
  }

  /** Whether request `k` is admitted. */
  predicate Admitted(b: Bucket, times: seq<real>, k: nat)
    requires k < |times|
  {
    Admits(After(b, times, k), times[k])
  }

  /** How many of the first `k` requests were admitted at or after `s`. */
  function AdmittedSince(b: Bucket, times: seq<real>, k: nat, s: real): nat
    requires k <= |times|
  {
    if k == 0 then 0
    else AdmittedSince(b, times, k - 1, s) + if times[k - 1] >= s && Admitted(b, times, k - 1) then 1 else 0
  }

  predicate Ascending(times: seq<real>, start: real) {
    (forall i :: 0 <= i < |times| ==> start <= times[i])
    && forall i, j :: 0 <= i <= j < |times| ==> times[i] <= times[j]
  }

  /** The tokens left are the least that any window ending at `now` leaves. */
  ghost predicate Exact(b: Bucket, times: seq<real>, k: nat, tokens: real, now: real)
    requires k <= |times|
  {
    && (forall s: real :: s <= now ==> tokens <= Left(b, times, k, now, s))
    && (exists s: real :: s <= now && tokens == Left(b, times, k, now, s))
  }

  /** What the window from `s` to `now` leaves of capacity plus refill. */
  function Left(b: Bucket, times: seq<real>, k: nat, now: real, s: real): real
    requires k <= |times|
  {
    b.capacity + Gain(b.rate, now - s) - AdmittedSince(b, times, k, s) as real
  }

  lemma {:induction false} NoneLater(b: Bucket, times: seq<real>, k: nat, s: real)
    requires k <= |times| && forall i :: 0 <= i < k ==> times[i] < s
    ensures AdmittedSince(b, times, k, s) == 0
  {
    if k > 0 {
      NoneLater(b, times, k - 1, s);
    }
  }

  lemma GainIs(rate: real, seconds: real)
    ensures Gain(rate, seconds) == seconds * rate
  {}

  lemma GainAdds(rate: real, a: real, b: real, c: real)
    ensures Gain(rate, c - a) == Gain(rate, b - a) + Gain(rate, c - b)
  {
    calc {
      Gain(rate, b - a) + Gain(rate, c - b);
      ((b - a) + (c - b)) * rate;
      Gain(rate, c - a);
    }
  }

  lemma GainPositive(rate: real, d: real)
    requires rate >= 0.0 && d >= 0.0
    ensures Gain(rate, d) >= 0.0 && Gain(rate, 0.0) == 0.0
  {}

  function LastTime(b: Bucket, times: seq<real>, k: nat): real
    requires k <= |times|
  {
    if k == 0 then b.refilled else times[k - 1]
  }

  lemma {:induction false} AfterFields(b: Bucket, times: seq<real>, k: nat)
    requires k <= |times|
    ensures
      var a := After(b, times, k);
      a.capacity == b.capacity && a.rate == b.rate && a.refilled == LastTime(b, times, k) && a.seen == b.seen
  {
    if k > 0 {
      AfterFields(b, times, k - 1);
    }
  }

  /** Refilling carries exactness from the last request to `now`. */
  lemma RefillExact(b: Bucket, times: seq<real>, k: nat, now: real)
    requires k <= |times| && b.rate >= 0.0 && Ascending(times, b.refilled)
    requires LastTime(b, times, k) <= now
    requires Exact(b, times, k, After(b, times, k).tokens, LastTime(b, times, k))
    ensures Exact(b, times, k, Refill(After(b, times, k), now), now)
  {
    hide Gain;
    var a, last := After(b, times, k), LastTime(b, times, k);
    AfterFields(b, times, k);
    var r := Refill(a, now);
    forall s: real | s <= now
      ensures r <= Left(b, times, k, now, s)
    {
      if s <= last {
        assert a.tokens <= Left(b, times, k, last, s);
        GainAdds(b.rate, s, last, now);
      } else {
        NoneLater(b, times, k, s);
        GainPositive(b.rate, now - s);
      }
    }
    if r == b.capacity {
      GainPositive(b.rate, now - now);
      assert r <= Left(b, times, k, now, now);
      assert r == Left(b, times, k, now, now);
    } else {
      var s: real :| s <= last && a.tokens == Left(b, times, k, last, s);
      GainAdds(b.rate, s, last, now);
      assert r == Left(b, times, k, now, s);
    }
  }

  lemma {:induction false} AlwaysExact(b: Bucket, times: seq<real>, k: nat)
    requires k <= |times| && b.rate >= 0.0 && b.tokens == b.capacity && Ascending(times, b.refilled)
    ensures Exact(b, times, k, After(b, times, k).tokens, LastTime(b, times, k))
  {
    hide Gain;
    if k == 0 {
      forall s: real | s <= b.refilled
        ensures b.tokens <= Left(b, times, 0, b.refilled, s)
      {
        GainPositive(b.rate, b.refilled - s);
      }
      GainPositive(b.rate, b.refilled - b.refilled);
      assert b.tokens == Left(b, times, 0, b.refilled, b.refilled);
    } else {
      AlwaysExact(b, times, k - 1);
      var now := times[k - 1];
      RefillExact(b, times, k - 1, now);
      var r, w := Refill(After(b, times, k - 1), now), if Admitted(b, times, k - 1) then 1.0 else 0.0;
      forall s: real | s <= now
        ensures Left(b, times, k, now, s) == Left(b, times, k - 1, now, s) - w
      {}
      var s: real :| s <= now && r == Left(b, times, k - 1, now, s);
      assert r - w == Left(b, times, k, now, s);
    }
  }

  lemma AdmittedByGain(b: Bucket, times: seq<real>, k: nat)
    requires k < |times| && b.rate >= 0.0 && b.tokens == b.capacity && Ascending(times, b.refilled)
    ensures Admitted(b, times, k)
       <==> forall s: real :: s <= times[k] ==>
              AdmittedSince(b, times, k, s) as real + 1.0 <= b.capacity + Gain(b.rate, times[k] - s)
  {
    hide Gain;
    var now := times[k];
    AlwaysExact(b, times, k);
    RefillExact(b, times, k, now);
    var r := Refill(After(b, times, k), now);
    if Admitted(b, times, k) {
      forall s: real | s <= now
        ensures AdmittedSince(b, times, k, s) as real + 1.0 <= b.capacity + Gain(b.rate, now - s)
      {
        assert r <= Left(b, times, k, now, s);
      }
    } else {
      var s: real :| s <= now && r == Left(b, times, k, now, s);
      assert !(AdmittedSince(b, times, k, s) as real + 1.0 <= b.capacity + Gain(b.rate, now - s));
    }
  }

  /** A request is admitted if and only if, for every start, the admissions from there
      on, itself included, are at most the capacity plus the refill. */
  lemma AdmittedExactly(b: Bucket, times: seq<real>, k: nat)
    requires k < |times| && b.rate >= 0.0 && b.tokens == b.capacity && Ascending(times, b.refilled)
    ensures Admitted(b, times, k)
       <==> forall s: real :: s <= times[k] ==>
              AdmittedSince(b, times, k, s) as real + 1.0 <= b.capacity + (times[k] - s) * b.rate
  {
    hide Admitted, AdmittedSince;
    AdmittedByGain(b, times, k);
    forall s: real | s <= times[k]
      ensures AdmittedSince(b, times, k, s) as real + 1.0 <= b.capacity + Gain(b.rate, times[k] - s)
         <==> AdmittedSince(b, times, k, s) as real + 1.0 <= b.capacity + (times[k] - s) * b.rate
    {
      GainIs(b.rate, times[k] - s);
    }
  }

  lemma {:induction false} NeverNegative(b: Bucket, times: seq<real>, k: nat)
    requires k <= |times| && b.rate >= 0.0 && b.tokens >= 0.0 && b.capacity >= 0.0 && Ascending(times, b.refilled)
    ensures After(b, times, k).tokens >= 0.0
  {
    hide Gain;
    if k > 0 {
      NeverNegative(b, times, k - 1);
      AfterFields(b, times, k - 1);
      GainPositive(b.rate, times[k - 1] - LastTime(b, times, k - 1));
    }
  }

  lemma WindowByGain(b: Bucket, times: seq<real>, k: nat, s: real, t: real)
    requires k <= |times| && b.rate >= 0.0 && b.tokens == b.capacity && b.capacity >= 0.0
        && Ascending(times, b.refilled)
    requires s <= t && forall i :: 0 <= i < k ==> times[i] <= t
    ensures AdmittedSince(b, times, k, s) as real <= b.capacity + Gain(b.rate, t - s)
  {
    hide Gain;
    var last := LastTime(b, times, k);
    if s <= last && last <= t {
      AlwaysExact(b, times, k);
      NeverNegative(b, times, k);
      assert After(b, times, k).tokens <= Left(b, times, k, last, s);
      GainAdds(b.rate, s, last, t);
      GainPositive(b.rate, t - last);
    } else {
      NoneLater(b, times, k, s);
      GainPositive(b.rate, t - s);
    }
  }

  /** So no window of any length, wherever it starts and ends, sees more than that. */
  lemma NoWindowExceeds(b: Bucket, times: seq<real>, k: nat, s: real, t: real)
    requires k <= |times| && b.rate >= 0.0 && b.tokens == b.capacity && b.capacity >= 0.0
        && Ascending(times, b.refilled)
    requires s <= t && forall i :: 0 <= i < k ==> times[i] <= t
    ensures AdmittedSince(b, times, k, s) as real <= b.capacity + (t - s) * b.rate
  {
    hide Gain, AdmittedSince, Ascending;
    WindowByGain(b, times, k, s, t);
    GainIs(b.rate, t - s);
  }

  // ----- the map of buckets ------------------------------------------------------------------

  /** The limiter; `pruned` is when stale entries were last dropped. */
  datatype Limiter = Limiter(ips: map<string, Bucket>, rate: real, burst: real, pruned: Option<real>)

  /** A request looks its bucket up at `seen` and spends at `used`. */
  datatype Request = Request(ip: string, seen: real, used: real)

  predicate PruneDue(l: Limiter, now: real) {
    l.pruned.None? || now - l.pruned.value >= PRUNE_INTERVAL
  }

  function Pruned(l: Limiter, now: real): Limiter {
    if PruneDue(l, now)
    then l.(ips := map ip | ip in l.ips && l.ips[ip].seen >= now - ENTRY_TTL :: l.ips[ip], pruned := Some(now))
    else l
  }

  function LookedUp(l: Limiter, ip: string, now: real): Limiter {
    var b := if ip in l.ips then l.ips[ip] else FullBucket(l.burst, l.rate, now);
    l.(ips := l.ips[ip := b.(seen := now)])
  }

  /** One request against the limiter: the answer, and the limiter afterwards. */
  function Serve(l: Limiter, q: Request): (bool, Limiter) {
    var found := LookedUp(Pruned(l, q.seen), q.ip, q.seen);
    (Admits(found.ips[q.ip], q.used), found.(ips := found.ips[q.ip := Used(found.ips[q.ip], q.used)]))
  }

  class IPLimiter {
    var ips: map<string, SimpleTokenBucket>
    const rate: real
    const burst: real
    var lastPrunedAt: Option<real>

    ghost function Views(): map<string, Bucket>
      reads this`ips, ips.Values
    {
      map ip | ip in ips :: ips[ip].View()
    }

    ghost function View(): Limiter
      reads this, ips.Values
    {
      Limiter(Views(), rate, burst, lastPrunedAt)
    }

    /** No two addresses share a bucket. */
    ghost predicate Valid()
      reads this`ips
    {
      forall a, b :: a in ips && b in ips && ips[a] == ips[b] ==> a == b
    }

    constructor (r: real, b: real)
      ensures Valid() && View() == Limiter(map[], r, b, None)
    {
      ips, rate, burst, lastPrunedAt := map[], r, b, None;
    }

    method PruneStaleEntries(now: real)
      requires Valid()
      modifies this
      ensures Valid() && ips.Values <= old(ips.Values) && View() == Pruned(old(View()), now)
      ensures
        var due := old(lastPrunedAt).None? || now - old(lastPrunedAt).value >= 600.0;
        && lastPrunedAt == (if due then Some(now) else old(lastPrunedAt))
        && (forall ip :: ip in ips <==> ip in old(ips) && (due ==> old(ips)[ip].lastSeen >= now - 1800.0))
        && (forall ip :: ip in ips ==> ips[ip] == old(ips)[ip])
    {
      hide Views;
      if lastPrunedAt.Some? && now - lastPrunedAt.value < PRUNE_INTERVAL {
        return;
      }
      DropUnseenSince(now - ENTRY_TTL);
      ViewsDropped(now - ENTRY_TTL);
      lastPrunedAt := Some(now);
    }

    twostate lemma ViewsDropped(cutoff: real)
      requires forall ip :: ip in ips <==> ip in old(ips) && old(ips[ip].lastSeen) >= cutoff
      requires forall ip :: ip in ips ==> ips[ip] == old(ips)[ip] && ips[ip].View() == old(ips[ip].View())
      ensures Views() == map ip | ip in old(Views()) && old(Views())[ip].seen >= cutoff :: old(Views())[ip]
    {}

    method DropUnseenSince(cutoff: real)
      requires Valid()
      modifies this`ips
      ensures Valid() && ips.Values <= old(ips.Values)
      ensures forall ip :: ip in ips <==> ip in old(ips) && old(ips)[ip].lastSeen >= cutoff
      ensures forall ip :: ip in ips ==> ips[ip] == old(ips)[ip]
    {
      var was, rest := ips, ips.Keys;
      while rest != {}
        invariant rest <= was.Keys
        invariant forall ip :: ip in ips <==> ip in was && (ip in rest || was[ip].lastSeen >= cutoff)
        invariant forall ip :: ip in ips ==> ips[ip] == was[ip]
      {
        var ip :| ip in rest;
        rest := rest - {ip};
        if ips[ip].lastSeen < cutoff {
          ips := ips - {ip};
        }
      }
    }

    method GetLimiter(ip: string, now: real) returns (limiter: SimpleTokenBucket)
      requires Valid()
      modifies this, ips.Values
      ensures Valid() && ip in ips && ips[ip] == limiter && fresh(ips.Values - old(ips.Values))
      ensures View() == LookedUp(Pruned(old(View()), now), ip, now)
    {
      PruneStaleEntries(now);
      label Pruned:
      if ip in ips {
        limiter := ips[ip];
      } else {
        limiter := new SimpleTokenBucket(burst, rate, now);
        ips := ips[ip := limiter];
      }
      limiter.lastSeen := now;
      BucketTouched@Pruned(ip);
    }

    /** The middleware: look the bucket up, then spend. */
    method Handle(q: Request) returns (ok: bool)
      requires Valid()
      modifies this, ips.Values
      ensures Valid() && fresh(ips.Values - old(ips.Values))
      ensures (ok, View()) == Serve(old(View()), q)
    {
      hide Pruned, Used, Admits;
      var limiter := GetLimiter(q.ip, q.seen);
      label Found:
      ok := limiter.Allow(q.used);
      BucketTouched@Found(q.ip);
    }

    /** Only the bucket of `ip` is new or changed. */
    twostate lemma BucketTouched(ip: string)
      requires old(Valid()) && ip in ips && ips == old(ips)[ip := ips[ip]]
      requires forall o :: o in old(ips) && o != ip ==> unchanged(old(ips)[o])
      ensures Views() == old(Views())[ip := ips[ip].View()]
    {}
  }

  // ----- pruning is invisible ---------------------------------------------------------------------

  function Answers(l: Limiter, requests: seq<Request>): seq<bool>
    decreases |requests|
  {
    if requests == [] then []
    else [Serve(l, requests[0]).0] + Answers(Serve(l, requests[0]).1, requests[1..])
  }

  /** A limiter that never forgets a bucket. */
  function ServeForever(l: Limiter, q: Request): (bool, Limiter) {
    var found := LookedUp(l, q.ip, q.seen);
    (Admits(found.ips[q.ip], q.used), found.(ips := found.ips[q.ip := Used(found.ips[q.ip], q.used)]))
  }

  function AnswersForever(l: Limiter, requests: seq<Request>): seq<bool>
    decreases |requests|
  {
    if requests == [] then []
    else [ServeForever(l, requests[0]).0] + AnswersForever(ServeForever(l, requests[0]).1, requests[1..])
  }

  /** Requests one after the other, each spending at most `delay` after its look-up. */
  predicate InOrder(requests: seq<Request>, start: real, delay: real) {
    requests != [] ==>
      && start <= requests[0].seen <= requests[0].used <= requests[0].seen + delay
      && InOrder(requests[1..], requests[0].used, delay)
  }

  /** Nothing is ever admitted, or an idle bucket has refilled by the time it can be
      pruned: it gets back the one token it lost when it was full, and it gets back
      everything when it was drained.  A request that waited on its way to a drained
      bucket has let it refill meanwhile, but spent what it can spend, one token. */
  predicate RefillsInTime(rate: real, burst: real, delay: real) {
    burst < 1.0
    || (&& 1.0 <= Gain(rate, ENTRY_TTL - delay)
        && (burst <= Gain(rate, ENTRY_TTL - delay) || burst + 1.0 <= Gain(rate, ENTRY_TTL)))
  }

  /** The bucket is full at the time. */
  predicate FullAt(b: Bucket, time: real) {
    b.capacity <= b.tokens + Gain(b.rate, time - b.refilled)
  }

  predicate Sound(b: Bucket, rate: real, burst: real, now: real) {
    && b.capacity == burst && b.rate == rate && 0.0 <= b.tokens <= burst
    && b.refilled <= now && FullAt(b, b.seen + ENTRY_TTL)
  }

  /** The bucket of an address that the pruned limiter forgot has refilled. */
  ghost predicate Agree(l: Limiter, f: Limiter, now: real) {
    && l.rate == f.rate && l.burst == f.burst
    && (forall ip :: ip in f.ips ==> Sound(f.ips[ip], f.rate, f.burst, now))
    && (forall ip :: ip in l.ips ==> ip in f.ips && f.ips[ip] == l.ips[ip])
    && (forall ip :: ip in f.ips && ip !in l.ips ==> FullAt(f.ips[ip], now))
  }

  lemma Longer(rate: real, d: real, e: real)
    requires 0.0 <= rate && d <= e
    ensures Gain(rate, d) <= Gain(rate, e)
  {
    GainAdds(rate, 0.0, d, e);
    GainPositive(rate, e - d);
  }

  lemma StaysFull(b: Bucket, time: real, later: real)
    requires 0.0 <= b.rate && FullAt(b, time) && time <= later
    ensures FullAt(b, later)
  {
    hide Gain;
    Longer(b.rate, time - b.refilled, later - b.refilled);
  }

  /** A fresh bucket and a full one are the same once refilled. */
  lemma FullIsFresh(b: Bucket, seen: real, used: real)
    requires 0.0 <= b.rate && FullAt(b, seen) && seen <= used
    ensures
      var anew, full := FullBucket(b.capacity, b.rate, seen).(seen := seen), b.(seen := seen);
      Admits(anew, used) == Admits(full, used) && Used(anew, used) == Used(full, used)
  {
    hide Gain;
    Longer(b.rate, seen - b.refilled, used - b.refilled);
    GainPositive(b.rate, used - seen);
  }

  lemma UsedSound(b: Bucket, rate: real, burst: real, seen: real, used: real, delay: real)
    requires 0.0 <= rate && 1.0 <= burst && RefillsInTime(rate, burst, delay)
    requires b.capacity == burst && b.rate == rate && 0.0 <= b.tokens <= burst
    requires b.refilled <= seen <= used <= seen + delay
    ensures Sound(Used(b.(seen := seen), used), rate, burst, used)
  {
    hide Gain;
    GainAdds(rate, b.refilled, seen, used);
    GainPositive(rate, seen - b.refilled);
    GainPositive(rate, used - seen);
    GainAdds(rate, seen, used, seen + ENTRY_TTL);
    Longer(rate, ENTRY_TTL - delay, seen + ENTRY_TTL - used);
    Longer(rate, ENTRY_TTL - delay, ENTRY_TTL);
    assert seen + ENTRY_TTL - seen == ENTRY_TTL;
  }

  lemma PrunedAgree(l: Limiter, f: Limiter, seen: real, now: real)
    requires Agree(l, f, now) && 0.0 <= l.rate && now <= seen
    ensures Agree(Pruned(l, seen), f, seen)
  {
    hide FullAt;
    forall ip | ip in f.ips && ip !in Pruned(l, seen).ips
      ensures FullAt(f.ips[ip], seen)
    {
      StaysFull(f.ips[ip], if ip in l.ips then f.ips[ip].seen + ENTRY_TTL else now, seen);
    }
  }

  lemma ServeAgree(l: Limiter, f: Limiter, q: Request, now: real, delay: real)
    requires Agree(l, f, now) && 0.0 <= l.rate && 1.0 <= l.burst && RefillsInTime(l.rate, l.burst, delay)
    requires now <= q.seen <= q.used <= q.seen + delay
    ensures Serve(l, q).0 == ServeForever(f, q).0
    ensures Agree(Serve(l, q).1, ServeForever(f, q).1, q.used)
  {
    hide Pruned, Used, Admits, RefillsInTime, FullAt;
    PrunedAgree(l, f, q.seen, now);
    var p := Pruned(l, q.seen);
    forall ip | ip in f.ips && ip !in p.ips
      ensures FullAt(f.ips[ip], q.used)
    {
      StaysFull(f.ips[ip], q.seen, q.used);
    }
    if q.ip in f.ips {
      if q.ip !in p.ips {
        FullIsFresh(f.ips[q.ip], q.seen, q.used);
      }
      UsedSound(f.ips[q.ip], l.rate, l.burst, q.seen, q.used, delay);
    } else {
      UsedSound(FullBucket(l.burst, l.rate, q.seen), l.rate, l.burst, q.seen, q.used, delay);
    }
  }

  lemma {:induction false} SameAnswers(l: Limiter, f: Limiter, requests: seq<Request>, now: real, delay: real)
    requires Agree(l, f, now) && 0.0 <= l.rate && 1.0 <= l.burst && RefillsInTime(l.rate, l.burst, delay)
    requires InOrder(requests, now, delay)
    ensures Answers(l, requests) == AnswersForever(f, requests)
    decreases |requests|
  {
    hide Serve, ServeForever, Agree, RefillsInTime;
    if requests != [] {
      var q := requests[0];
      ServeAgree(l, f, q, now, delay);
      ServeKeepsRates(l, q);
      SameAnswers(Serve(l, q).1, ServeForever(f, q).1, requests[1..], q.used, delay);
    }
  }

  lemma ServeKeepsRates(l: Limiter, q: Request)
    ensures Serve(l, q).1.rate == l.rate && Serve(l, q).1.burst == l.burst
  {}

  /** Buckets that hold less than one token admit nobody. */
  predicate Useless(l: Limiter) {
    l.burst < 1.0 && forall ip :: ip in l.ips ==> l.ips[ip].capacity == l.burst
  }

  lemma {:induction false} UselessAnswers(l: Limiter, f: Limiter, requests: seq<Request>)
    requires Useless(l) && Useless(f)
    ensures Answers(l, requests) == AnswersForever(f, requests)
    decreases |requests|
  {
    hide Serve, ServeForever, Useless;
    if requests != [] {
      UselessServes(l, requests[0]);
      UselessServes(f, requests[0]);
      UselessAnswers(Serve(l, requests[0]).1, ServeForever(f, requests[0]).1, requests[1..]);
    }
  }

  lemma UselessServes(l: Limiter, q: Request)
    requires Useless(l)
    ensures !Serve(l, q).0 && Useless(Serve(l, q).1)
    ensures !ServeForever(l, q).0 && Useless(ServeForever(l, q).1)
  {}

  // ----- and visible otherwise ---------------------------------------------------------------------

  /** Some requests from `now` on get different answers. */
  ghost predicate Diverges(l: Limiter, f: Limiter, now: real, delay: real) {
    exists requests :: InOrder(requests, now, delay) && Answers(l, requests) != AnswersForever(f, requests)
  }

  predicate Next(q: Request, now: real, delay: real) {
    now <= q.seen <= q.used <= q.seen + delay
  }

  lemma DivergeNow(l: Limiter, f: Limiter, now: real, delay: real, q: Request)
    requires Next(q, now, delay) && Serve(l, q).0 != ServeForever(f, q).0
    ensures Diverges(l, f, now, delay)
  {
    hide Serve, ServeForever;
    assert [q][1..] == [] && InOrder([q], now, delay);
    assert Answers(l, [q])[0] != AnswersForever(f, [q])[0];
  }

  lemma DivergeLater(l: Limiter, f: Limiter, now: real, delay: real, q: Request)
    requires Next(q, now, delay) && Diverges(Serve(l, q).1, ServeForever(f, q).1, q.used, delay)
    ensures Diverges(l, f, now, delay)
  {
    hide Serve, ServeForever;
    var rest :| InOrder(rest, q.used, delay)
             && Answers(Serve(l, q).1, rest) != AnswersForever(ServeForever(f, q).1, rest);
    var requests := [q] + rest;
    assert requests[1..] == rest && InOrder(requests, now, delay);
    assert Answers(l, requests)[1..] != AnswersForever(f, requests)[1..];
  }

  /** A limiter that knows one address. */
  function Solo(tokens: real, seen: real, refilled: real, rate: real, burst: real, pruned: Option<real>): Limiter {
    Limiter(map["a" := Bucket(tokens, burst, rate, refilled, seen)], rate, burst, pruned)
  }

  /** The tokens left of `y` after a request. */
  function Spent(y: real): real {
    if y >= 1.0 then y - 1.0 else y
  }

  function AtMost(y: real, burst: real): real {
    if y > burst then burst else y
  }

  predicate Forgets(seen: real, pruned: Option<real>, now: real) {
    (pruned.None? || now - pruned.value >= PRUNE_INTERVAL) && seen < now - ENTRY_TTL
  }

  function PrunedAt(pruned: Option<real>, now: real): Option<real> {
    if pruned.None? || now - pruned.value >= PRUNE_INTERVAL then Some(now) else pruned
  }

  lemma SoloServed(
      tokens: real, seen: real, refilled: real, rate: real, burst: real, pruned: Option<real>, s: real, u: real)
    ensures
      var l := Solo(tokens, seen, refilled, rate, burst, pruned);
      var y := AtMost(
        if Forgets(seen, pruned, s) then burst + Gain(rate, u - s) else tokens + Gain(rate, u - refilled), burst);
      Serve(l, Request("a", s, u)) == (y >= 1.0, Solo(Spent(y), s, u, rate, burst, PrunedAt(pruned, s)))
  {
    hide Gain;
    var l := Solo(tokens, seen, refilled, rate, burst, pruned);
    assert Pruned(l, s).ips == if Forgets(seen, pruned, s) then map[] else l.ips;
    Alone(Pruned(l, s), Request("a", s, u));
  }

  lemma SoloServedForever(
      tokens: real, seen: real, refilled: real, rate: real, burst: real, pruned: Option<real>, s: real, u: real)
    ensures
      var f := Solo(tokens, seen, refilled, rate, burst, pruned);
      var y := AtMost(tokens + Gain(rate, u - refilled), burst);
      ServeForever(f, Request("a", s, u)) == (y >= 1.0, Solo(Spent(y), s, u, rate, burst, pruned))
  {
    hide Gain;
    Alone(Solo(tokens, seen, refilled, rate, burst, pruned), Request("a", s, u));
  }

  /** Of a limiter that knows at most one address, a request for it leaves that one. */
  lemma Alone(l: Limiter, q: Request)
    requires l.ips.Keys <= {q.ip}
    ensures
      var b := (if q.ip in l.ips then l.ips[q.ip] else FullBucket(l.burst, l.rate, q.seen)).(seen := q.seen);
      && ServeForever(l, q) == (Admits(b, q.used), l.(ips := map[q.ip := Used(b, q.used)]))
      && LookedUp(l, q.ip, q.seen).ips == map[q.ip := b]
  {
    hide Admits, Used;
    var found := LookedUp(l, q.ip, q.seen);
    assert found.ips[q.ip := Used(found.ips[q.ip], q.used)] == map[q.ip := Used(found.ips[q.ip], q.used)];
  }

  lemma FirstServed(rate: real, burst: real, s: real, u: real)
    requires 0.0 <= rate && 1.0 <= burst && s <= u
    ensures
      var l, q := Limiter(map[], rate, burst, None), Request("a", s, u);
      && Serve(l, q) == (true, Solo(burst - 1.0, s, u, rate, burst, Some(s)))
      && ServeForever(l, q) == (true, Solo(burst - 1.0, s, u, rate, burst, None))
  {
    hide Gain;
    GainPositive(rate, u - s);
    var l := Limiter(map[], rate, burst, None);
    assert Pruned(l, s).ips == map[];
    Alone(l, Request("a", s, u));
    Alone(Pruned(l, s), Request("a", s, u));
  }

  /** The time in which `rate` brings `tokens`. */
  lemma Wait(rate: real, tokens: real) returns (d: real)
    requires 0.0 < rate && 0.0 <= tokens
    ensures 0.0 <= d && Gain(rate, d) == tokens
  {
    d := tokens / rate;
  }

  /** With fewer tokens the limiter that forgets nothing turns away a request first. */
  lemma {:induction false} FewerTokens(
      tokens: real, fewer: real, t: real, rate: real, burst: real, p: Option<real>, delay: real)
    requires 0.0 <= rate && 1.0 <= burst && 0.0 <= delay && 0.0 <= fewer < tokens <= burst
    requires rate == 0.0 ==> fewer + 1.0 <= tokens
    ensures Diverges(Solo(tokens, t, t, rate, burst, p), Solo(fewer, t, t, rate, burst, None), t, delay)
    decreases tokens.Floor
  {
    hide Gain, Serve, ServeForever, Diverges;
    var d := 0.0;
    if tokens < 1.0 {
      d := Wait(rate, 1.0 - tokens);
    }
    assert t + d - t == d;
    var l, f, q := Solo(tokens, t, t, rate, burst, p), Solo(fewer, t, t, rate, burst, None), Request("a", t + d, t + d);
    SoloServed(tokens, t, t, rate, burst, p, t + d, t + d);
    SoloServedForever(fewer, t, t, rate, burst, None, t + d, t + d);
    GainPositive(rate, d);
    GainPositive(rate, (t + d) - (t + d));
    if fewer >= 1.0 {
      FewerTokens(tokens - 1.0, fewer - 1.0, t, rate, burst, PrunedAt(p, t), delay);
      DivergeLater(l, f, t, delay, q);
    } else {
      DivergeNow(l, f, t, delay, q);
    }
  }

  /** A bucket forgotten before it is full comes back full. */
  lemma Forgotten(tokens: real, seen: real, t: real, rate: real, burst: real, p: real, s: real, delay: real)
    requires 0.0 <= rate && 1.0 <= burst && 0.0 <= delay && 0.0 <= tokens
    requires t <= s && seen + ENTRY_TTL < s && p + PRUNE_INTERVAL <= s && tokens + Gain(rate, s - t) < burst
    requires rate == 0.0 ==> tokens + 1.0 <= burst
    ensures Diverges(Solo(tokens, seen, t, rate, burst, Some(p)), Solo(tokens, seen, t, rate, burst, None), t, delay)
  {
    hide Gain, Serve, ServeForever, Diverges;
    var l, f := Solo(tokens, seen, t, rate, burst, Some(p)), Solo(tokens, seen, t, rate, burst, None);
    var q := Request("a", s, s);
    SoloServed(tokens, seen, t, rate, burst, Some(p), s, s);
    SoloServedForever(tokens, seen, t, rate, burst, None, s, s);
    GainPositive(rate, s - s);
    GainPositive(rate, s - t);
    var fewer := tokens + Gain(rate, s - t);
    if fewer < 1.0 {
      DivergeNow(l, f, t, delay, q);
    } else {
      if rate == 0.0 {
        NoGain(s - t);
      }
      FewerTokens(burst - 1.0, fewer - 1.0, s, rate, burst, Some(s), delay);
      DivergeLater(l, f, t, delay, q);
    }
  }

  lemma NoGain(d: real)
    ensures Gain(0.0, d) == 0.0
  {}

  /** A moment later so little has been refilled that `room` is left. */
  lemma Moment(rate: real, room: real) returns (e: real)
    requires 0.0 <= rate && 0.0 < room
    ensures 0.0 < e && Gain(rate, e) < room
  {
    if rate == 0.0 {
      e := 1.0;
    } else {
      e := room / (2.0 * rate);
      assert Gain(rate, e) == room / 2.0;
    }
  }

  /** A request that waits too long takes a token from a full bucket, and the bucket is
      forgotten before that one is back. */
  lemma OneTokenShort(rate: real, burst: real, start: real, delay: real)
    requires 0.0 <= rate && 1.0 <= burst && 0.0 <= delay && Gain(rate, ENTRY_TTL - delay) < 1.0
    ensures Diverges(Limiter(map[], rate, burst, None), Limiter(map[], rate, burst, None), start, delay)
  {
    hide Gain, Serve, ServeForever, Diverges;
    var empty, t := Limiter(map[], rate, burst, None), start + delay;
    FirstServed(rate, burst, start, t);
    var s := t;
    GainPositive(rate, 0.0);
    if delay <= ENTRY_TTL {
      var e := Moment(rate, 1.0 - Gain(rate, ENTRY_TTL - delay));
      s := start + ENTRY_TTL + e;
      GainAdds(rate, t, start + ENTRY_TTL, s);
      assert start + ENTRY_TTL - t == ENTRY_TTL - delay && s - (start + ENTRY_TTL) == e;
    }
    Forgotten(burst - 1.0, start, t, rate, burst, start, s, delay);
    DivergeLater(empty, empty, start, delay, Request("a", start, t));
  }

  /** An empty bucket: the next request waits on its way as long as it may without
      finding more than the one token it takes. */
  lemma EmptyAgain(t: real, rate: real, burst: real, p: real, delay: real)
    requires 1.0 <= burst && 0.0 <= delay && 0.0 < rate && p <= t
    requires 1.0 <= Gain(rate, ENTRY_TTL - delay) < burst && Gain(rate, ENTRY_TTL) < burst + 1.0
    ensures Diverges(Solo(0.0, t, t, rate, burst, Some(p)), Solo(0.0, t, t, rate, burst, None), t, delay)
  {
    hide Gain, Serve, ServeForever, Diverges;
    var d := Wait(rate, 1.0);
    var wait := if delay < d then delay else d;
    var s, u := t + d - wait, t + d;
    assert u - t == d && d <= ENTRY_TTL by { Slower(rate, d, ENTRY_TTL - delay); }
    SoloServed(0.0, t, t, rate, burst, Some(p), s, u);
    SoloServedForever(0.0, t, t, rate, burst, None, s, u);
    assert Gain(rate, ENTRY_TTL - wait) < burst by { GainAdds(rate, 0.0, ENTRY_TTL - d, ENTRY_TTL); }
    var e := Moment(rate, burst - Gain(rate, ENTRY_TTL - wait));
    var later := s + ENTRY_TTL + e;
    GainAdds(rate, u, s + ENTRY_TTL, later);
    assert s + ENTRY_TTL - u == ENTRY_TTL - wait && later - (s + ENTRY_TTL) == e;
    Forgotten(0.0, s, u, rate, burst, PrunedAt(Some(p), s).value, later, delay);
    DivergeLater(Solo(0.0, t, t, rate, burst, Some(p)), Solo(0.0, t, t, rate, burst, None), t, delay,
        Request("a", s, u));
  }

  lemma Slower(rate: real, d: real, e: real)
    requires 0.0 < rate && Gain(rate, d) <= Gain(rate, e)
    ensures d <= e
  {}

  /** Requests at one time drain the bucket, and one more takes the first token that is refilled. */
  lemma {:induction false} Drains(tokens: real, t: real, rate: real, burst: real, delay: real)
    requires 0.0 <= tokens <= burst && 1.0 <= burst && 0.0 <= delay && 0.0 < rate
    requires 1.0 <= Gain(rate, ENTRY_TTL - delay) < burst && Gain(rate, ENTRY_TTL) < burst + 1.0
    ensures Diverges(Solo(tokens, t, t, rate, burst, Some(t)), Solo(tokens, t, t, rate, burst, None), t, delay)
    decreases tokens.Floor
  {
    hide Gain, Serve, ServeForever, Diverges;
    var d := 0.0;
    GainPositive(rate, d);
    if tokens < 1.0 {
      d := Wait(rate, 1.0 - tokens);
      Slower(rate, d, ENTRY_TTL - delay);
    }
    var s := t + d;
    assert s - t == d;
    SoloServed(tokens, t, t, rate, burst, Some(t), s, s);
    SoloServedForever(tokens, t, t, rate, burst, None, s, s);
    if tokens < 1.0 {
      EmptyAgain(s, rate, burst, PrunedAt(Some(t), s).value, delay);
    } else {
      Drains(tokens - 1.0, t, rate, burst, delay);
    }
    DivergeLater(Solo(tokens, t, t, rate, burst, Some(t)), Solo(tokens, t, t, rate, burst, None), t, delay,
                 Request("a", s, s));
  }

  lemma PruningVisible(rate: real, burst: real, start: real, delay: real)
    requires 0.0 <= rate && 0.0 <= delay && !RefillsInTime(rate, burst, delay)
    ensures Diverges(Limiter(map[], rate, burst, None), Limiter(map[], rate, burst, None), start, delay)
  {
    hide Gain, Serve, ServeForever, Diverges;
    var empty := Limiter(map[], rate, burst, None);
    if Gain(rate, ENTRY_TTL - delay) < 1.0 {
      OneTokenShort(rate, burst, start, delay);
    } else {
      if rate == 0.0 {
        NoGain(ENTRY_TTL - delay);
      }
      FirstServed(rate, burst, start, start);
      Drains(burst - 1.0, start, rate, burst, delay);
      DivergeLater(empty, empty, start, delay, Request("a", start, start));
    }
  }

  lemma PruningInvisible(rate: real, burst: real, requests: seq<Request>, start: real, delay: real)
    requires 0.0 <= rate && RefillsInTime(rate, burst, delay) && InOrder(requests, start, delay)
    ensures Answers(Limiter(map[], rate, burst, None), requests)
         == AnswersForever(Limiter(map[], rate, burst, None), requests)
  {
    hide RefillsInTime, Answers, AnswersForever, InOrder;
    var l := Limiter(map[], rate, burst, None);
    if burst < 1.0 {
      UselessAnswers(l, l, requests);
    } else {
      SameAnswers(l, l, requests, start, delay);
    }
  }

  lemma InvisibleIff(rate: real, burst: real, start: real, delay: real)
    requires 0.0 <= rate && 0.0 <= delay
    ensures
      var l := Limiter(map[], rate, burst, None);
      (forall requests :: InOrder(requests, start, delay) ==> Answers(l, requests) == AnswersForever(l, requests))
      <==> RefillsInTime(rate, burst, delay)
  {
    hide RefillsInTime, Answers, AnswersForever, InOrder;
    if RefillsInTime(rate, burst, delay) {
      forall requests | InOrder(requests, start, delay)
        ensures Answers(Limiter(map[], rate, burst, None), requests)
             == AnswersForever(Limiter(map[], rate, burst, None), requests)
      {
        PruningInvisible(rate, burst, requests, start, delay);
      }
    } else {
      PruningVisible(rate, burst, start, delay);
      var l := Limiter(map[], rate, burst, None);
      assert exists requests :: InOrder(requests, start, delay) && Answers(l, requests) != AnswersForever(l, requests);
    }
  }

  /** The limiter answers any requests from any addresses exactly as one that never
      forgets a bucket, if and only if an idle bucket refills within the time it is kept. */
  lemma PruningInvisibleExactly(rate: real, burst: real, start: real, delay: real)
    requires 0.0 <= rate && 0.0 <= delay
    ensures
      var l := Limiter(map[], rate, burst, None);
      (forall requests :: InOrder(requests, start, delay) ==> Answers(l, requests) == AnswersForever(l, requests))
      <==> || burst < 1.0
           || (&& 1.0 <= (1800.0 - delay) * rate
               && (burst <= (1800.0 - delay) * rate || burst + 1.0 <= 1800.0 * rate))
  {
    hide InOrder, Answers, AnswersForever;
    InvisibleIff(rate, burst, start, delay);
    GainIs(rate, 1800.0 - delay);
    GainIs(rate, 1800.0);
  }

  /** The rates and bursts of the server's limiters. */
  const LIMITERS: seq<(real, real)> := [
    (10.0 / 60.0, 5.0), (1200.0 / 60.0, 200.0), (5.0 / 60.0, 5.0), (20.0 / 60.0, 10.0),
    (30.0 / 60.0, 10.0), (10.0 / 60.0, 5.0), (3.0 / 60.0, 3.0), (12.0 / 60.0, 6.0)]

  /** Each of them gets a token within 20 seconds, which leaves a request almost half an
      hour between its look-up and its spending. */
  lemma LimitersRefill(i: nat)
    requires i < |LIMITERS|
    ensures RefillsInTime(LIMITERS[i].0, LIMITERS[i].1, ENTRY_TTL - 20.0)
  {}

  // ----- every address on its own ------------------------------------------------------------------

  /** When the requests of this address spend. */
  function Uses(requests: seq<Request>, ip: string): seq<real> {
    if requests == [] then []
    else
      var front, last := requests[..|requests| - 1], requests[|requests| - 1];
      Uses(front, ip) + if last.ip == ip then [last.used] else []
  }

  /** When this address was first seen. */
  function FirstSeen(requests: seq<Request>, ip: string): real {
    if requests == [] then 0.0
    else
      var front := requests[..|requests| - 1];
      if Uses(front, ip) != [] then FirstSeen(front, ip) else requests[|requests| - 1].seen
  }

  /** The bucket that this address alone would have. */
  function OwnBucket(rate: real, burst: real, requests: seq<Request>, ip: string): Bucket {
    FullBucket(burst, rate, FirstSeen(requests, ip))
  }

  /** How many of the first `k` requests were admitted for this address at or after `s`. */
  function AdmittedFor(requests: seq<Request>, answers: seq<bool>, ip: string, k: nat, s: real): nat
    requires k <= |requests| == |answers|
  {
    if k == 0 then 0
    else
      AdmittedFor(requests, answers, ip, k - 1, s)
      + if requests[k - 1].ip == ip && requests[k - 1].used >= s && answers[k - 1] then 1 else 0
  }

  function ForeverAfter(l: Limiter, requests: seq<Request>): Limiter {
    if requests == [] then l
    else ServeForever(ForeverAfter(l, requests[..|requests| - 1]), requests[|requests| - 1]).1
  }

  lemma {:induction false} AfterFirst(l: Limiter, q: Request, rest: seq<Request>)
    ensures ForeverAfter(l, [q] + rest) == ForeverAfter(ServeForever(l, q).1, rest)
  {
    hide ServeForever;
    var all := [q] + rest;
    if rest == [] {
      assert all[..0] == [] && all[0] == q;
      assert ForeverAfter(l, all[..0]) == l;
    } else {
      assert all[..|all| - 1] == [q] + rest[..|rest| - 1];
      AfterFirst(l, q, rest[..|rest| - 1]);
    }
  }

  /** The answers to the first requests do not depend on the later ones. */
  lemma {:induction false} OneMoreAnswer(l: Limiter, front: seq<Request>, last: Request)
    ensures AnswersForever(l, front + [last])
         == AnswersForever(l, front) + [ServeForever(ForeverAfter(l, front), last).0]
    ensures |AnswersForever(l, front)| == |front|
    decreases |front|
  {
    hide ServeForever;
    var all := front + [last];
    if front == [] {
      assert all[1..] == [];
    } else {
      assert all[0] == front[0] && all[1..] == front[1..] + [last] && front == [front[0]] + front[1..];
      OneMoreAnswer(ServeForever(l, front[0]).1, front[1..], last);
      AfterFirst(l, front[0], front[1..]);
    }
  }

  lemma {:induction false} AfterSame(b: Bucket, times: seq<real>, more: seq<real>, k: nat)
    requires k <= |times|
    ensures After(b, times + more, k) == After(b, times, k)
  {
    if k > 0 {
      AfterSame(b, times, more, k - 1);
    }
  }

  lemma {:induction false} SinceSame(b: Bucket, times: seq<real>, more: seq<real>, k: nat, s: real)
    requires k <= |times|
    ensures AdmittedSince(b, times + more, k, s) == AdmittedSince(b, times, k, s)
  {
    if k > 0 {
      SinceSame(b, times, more, k - 1, s);
      AfterSame(b, times, more, k - 1);
    }
  }

  predicate SameButSeen(a: Bucket, b: Bucket) {
    a == b.(seen := a.seen)
  }

  /** In the limiter that never forgets, an address has the bucket it would have alone. */
  lemma {:induction false} BucketAlone(rate: real, burst: real, requests: seq<Request>, ip: string)
    ensures
      var f, times := ForeverAfter(Limiter(map[], rate, burst, None), requests), Uses(requests, ip);
      && f.rate == rate && f.burst == burst && (ip in f.ips <==> times != [])
      && (ip in f.ips ==> SameButSeen(f.ips[ip], After(OwnBucket(rate, burst, requests, ip), times, |times|)))
  {
    if requests != [] {
      var front, last := requests[..|requests| - 1], requests[|requests| - 1];
      BucketAlone(rate, burst, front, ip);
      if last.ip == ip {
        var before, own := Uses(front, ip), OwnBucket(rate, burst, requests, ip);
        AfterSame(own, before, [last.used], |before|);
        var f := ForeverAfter(Limiter(map[], rate, burst, None), front);
        UsedSame(FoundBucket(f, last), After(own, before, |before|), last.used);
      } else {
        assert Uses(front, ip) + [] == Uses(front, ip);
      }
    }
  }

  /** The bucket that a request finds or makes. */
  function FoundBucket(l: Limiter, q: Request): Bucket {
    (if q.ip in l.ips then l.ips[q.ip] else FullBucket(l.burst, l.rate, q.seen)).(seen := q.seen)
  }

  lemma UsedSame(a: Bucket, b: Bucket, used: real)
    requires SameButSeen(a, b)
    ensures SameButSeen(Used(a, used), Used(b, used)) && Admits(a, used) == Admits(b, used)
  {}

  /** The last request is answered as by the bucket of its address alone. */
  lemma AnsweredAlone(rate: real, burst: real, front: seq<Request>, q: Request)
    ensures
      var all := front + [q];
      var times := Uses(all, q.ip);
      && times == Uses(front, q.ip) + [q.used]
      && ServeForever(ForeverAfter(Limiter(map[], rate, burst, None), front), q).0
         == Admitted(OwnBucket(rate, burst, all, q.ip), times, |times| - 1)
  {
    var all := front + [q];
    assert all[..|all| - 1] == front;
    var before, own := Uses(front, q.ip), OwnBucket(rate, burst, all, q.ip);
    BucketAlone(rate, burst, front, q.ip);
    AfterSame(own, before, [q.used], |before|);
    var f := ForeverAfter(Limiter(map[], rate, burst, None), front);
    UsedSame(FoundBucket(f, q), After(own, before, |before|), q.used);
  }

  lemma {:induction false} CountSame(
      requests: seq<Request>, more: seq<Request>, answers: seq<bool>, later: seq<bool>, ip: string, k: nat, s: real)
    requires k <= |requests| == |answers| && |more| == |later|
    ensures AdmittedFor(requests + more, answers + later, ip, k, s) == AdmittedFor(requests, answers, ip, k, s)
  {
    if k > 0 {
      CountSame(requests, more, answers, later, ip, k - 1, s);
    }
  }

  /** The admissions of an address are those of its own bucket. */
  lemma {:induction false} CountAlone(rate: real, burst: real, requests: seq<Request>, ip: string, s: real)
    ensures
      var answers := AnswersForever(Limiter(map[], rate, burst, None), requests);
      var times := Uses(requests, ip);
      && |answers| == |requests|
      && AdmittedFor(requests, answers, ip, |requests|, s)
         == AdmittedSince(OwnBucket(rate, burst, requests, ip), times, |times|, s)
  {
    hide ServeForever, ForeverAfter, After, Admits;
    var l := Limiter(map[], rate, burst, None);
    if requests != [] {
      var front, last := requests[..|requests| - 1], requests[|requests| - 1];
      assert requests == front + [last];
      CountAlone(rate, burst, front, ip, s);
      OneMoreAnswer(l, front, last);
      var before := AnswersForever(l, front);
      CountSame(front, [last], before, [ServeForever(ForeverAfter(l, front), last).0], ip, |front|, s);
      if last.ip == ip {
        AnsweredAlone(rate, burst, front, last);
        SinceSame(OwnBucket(rate, burst, requests, ip), Uses(front, ip), [last.used], |Uses(front, ip)|, s);
      } else {
        assert Uses(front, ip) + [] == Uses(front, ip);
      }
      if Uses(front, ip) == [] {
        NoneYet(OwnBucket(rate, burst, front, ip), [], s);
        NoneYet(OwnBucket(rate, burst, requests, ip), Uses(requests, ip), s);
      }
    }
  }

  /** Every request is over before the next one starts. */
  predicate OneByOne(requests: seq<Request>) {
    && (forall i :: 0 <= i < |requests| ==> requests[i].seen <= requests[i].used)
    && (forall i, j :: 0 <= i < j < |requests| ==> requests[i].used <= requests[j].seen)
  }

  lemma {:induction false} InOrderOneByOne(requests: seq<Request>, start: real, delay: real)
    requires InOrder(requests, start, delay)
    ensures OneByOne(requests) && forall i :: 0 <= i < |requests| ==> start <= requests[i].seen
    decreases |requests|
  {
    if requests != [] {
      InOrderOneByOne(requests[1..], requests[0].used, delay);
      assert forall i :: 0 < i < |requests| ==> requests[i] == requests[1..][i - 1];
    }
  }

  lemma {:induction false} UsesUntil(requests: seq<Request>, ip: string, t: real)
    requires forall i :: 0 <= i < |requests| ==> requests[i].used <= t
    ensures forall i :: 0 <= i < |Uses(requests, ip)| ==> Uses(requests, ip)[i] <= t
  {
    if requests != [] {
      UsesUntil(requests[..|requests| - 1], ip, t);
    }
  }

  lemma {:induction false} UsesAscend(requests: seq<Request>, ip: string)
    requires OneByOne(requests)
    ensures Ascending(Uses(requests, ip), FirstSeen(requests, ip))
  {
    if requests != [] {
      var front, last := requests[..|requests| - 1], requests[|requests| - 1];
      UsesAscend(front, ip);
      assert requests[|requests| - 1].seen <= requests[|requests| - 1].used;
      UsesUntil(front, ip, last.seen);
      OneMoreAscends(Uses(front, ip), FirstSeen(front, ip), last.used);
    }
  }

  lemma OneMoreAscends(times: seq<real>, start: real, t: real)
    requires Ascending(times, start) && forall i :: 0 <= i < |times| ==> times[i] <= t
    ensures times != [] ==> Ascending(times + [t], start)
    ensures Ascending(times + [], start)
  {
    assert times + [] == times;
    var more := times + [t];
    assert forall i :: 0 <= i < |times| ==> more[i] == times[i];
    assert times != [] ==> start <= times[0] <= t;
  }

  lemma AddressByGain(rate: real, burst: real, requests: seq<Request>, start: real, delay: real, i: nat)
    requires 0.0 <= rate && RefillsInTime(rate, burst, delay) && InOrder(requests, start, delay) && i < |requests|
    ensures
      var answers := Answers(Limiter(map[], rate, burst, None), requests);
      && |answers| == |requests|
      && (answers[i] <==>
            forall s: real :: s <= requests[i].used ==>
              AdmittedFor(requests, answers, requests[i].ip, i, s) as real + 1.0
              <= burst + Gain(rate, requests[i].used - s))
  {
    hide ServeForever, ForeverAfter, After, Admits, Gain, RefillsInTime, InOrder, AnswersForever, Answers;
    hide AdmittedSince, AdmittedFor, Admitted;
    var l := Limiter(map[], rate, burst, None);
    var answers := Answers(l, requests);
    PruningInvisible(rate, burst, requests, start, delay);
    var front, q := requests[..i], requests[i];
    PrefixAnswers(l, requests, i);
    var times, own := Uses(front + [q], q.ip), OwnBucket(rate, burst, front + [q], q.ip);
    AnsweredAlone(rate, burst, front, q);
    assert front + [q] == requests[..i + 1];
    InOrderOneByOne(requests, start, delay);
    UsesAscend(front + [q], q.ip);
    var k := |times| - 1;
    assert times[k] == q.used && own.capacity == burst && own.rate == rate;
    AdmittedByGain(own, times, k);
    if answers[i] {
      forall s: real | s <= q.used
        ensures AdmittedFor(requests, answers, q.ip, i, s) as real + 1.0 <= burst + Gain(rate, q.used - s)
      {
        CountBefore(rate, burst, requests, i, s);
        assert AdmittedSince(own, times, k, s) as real + 1.0 <= own.capacity + Gain(own.rate, times[k] - s);
      }
    } else {
      var s: real :| s <= times[k]
        && !(AdmittedSince(own, times, k, s) as real + 1.0 <= own.capacity + Gain(own.rate, times[k] - s));
      CountBefore(rate, burst, requests, i, s);
      assert !(AdmittedFor(requests, answers, q.ip, i, s) as real + 1.0 <= burst + Gain(rate, q.used - s));
    }
  }

  /** For any requests from any addresses: a request is admitted if and only if, for every
      start, the admissions of its address from there on, itself included, are at most
      the burst plus the refill. */
  lemma EachAddressExactly(rate: real, burst: real, requests: seq<Request>, start: real, delay: real, i: nat)
    requires 0.0 <= rate && RefillsInTime(rate, burst, delay) && InOrder(requests, start, delay) && i < |requests|
    ensures
      var answers := Answers(Limiter(map[], rate, burst, None), requests);
      && |answers| == |requests|
      && (answers[i] <==>
            forall s: real :: s <= requests[i].used ==>
              AdmittedFor(requests, answers, requests[i].ip, i, s) as real + 1.0
              <= burst + (requests[i].used - s) * rate)
  {
    hide Answers, AdmittedFor, RefillsInTime, InOrder;
    AddressByGain(rate, burst, requests, start, delay, i);
    var answers, q := Answers(Limiter(map[], rate, burst, None), requests), requests[i];
    forall s: real | s <= q.used
      ensures AdmittedFor(requests, answers, q.ip, i, s) as real + 1.0 <= burst + Gain(rate, q.used - s)
         <==> AdmittedFor(requests, answers, q.ip, i, s) as real + 1.0 <= burst + (q.used - s) * rate
    {
      GainIs(rate, q.used - s);
    }
  }

  /** What is admitted before a request, counted by its address or by its own bucket. */
  lemma CountBefore(rate: real, burst: real, requests: seq<Request>, i: nat, s: real)
    requires i < |requests|
    ensures
      var l, q := Limiter(map[], rate, burst, None), requests[i];
      var all := requests[..i] + [q];
      var times := Uses(all, q.ip);
      && |AnswersForever(l, requests)| == |requests|
      && |times| > 0
      && AdmittedFor(requests, AnswersForever(l, requests), q.ip, i, s)
         == AdmittedSince(OwnBucket(rate, burst, all, q.ip), times, |times| - 1, s)
  {
    hide ServeForever, ForeverAfter, After, Admits, AnswersForever, AdmittedFor, AdmittedSince;
    var l, q, front := Limiter(map[], rate, burst, None), requests[i], requests[..i];
    var all := front + [q];
    assert all[..|all| - 1] == front;
    PrefixAnswers(l, requests, i);
    var answers := AnswersForever(l, requests);
    CountAlone(rate, burst, front, q.ip, s);
    assert requests == front + requests[i..] && answers == answers[..i] + answers[i..];
    CountSame(front, requests[i..], answers[..i], answers[i..], q.ip, i, s);
    var before := Uses(front, q.ip);
    SinceSame(OwnBucket(rate, burst, all, q.ip), before, [q.used], |before|, s);
    if before == [] {
      NoneYet(OwnBucket(rate, burst, front, q.ip), before, s);
      NoneYet(OwnBucket(rate, burst, all, q.ip), before, s);
    }
  }

  lemma NoneYet(b: Bucket, times: seq<real>, s: real)
    ensures AdmittedSince(b, times, 0, s) == 0
  {}

  lemma {:induction false} PrefixAnswers(l: Limiter, requests: seq<Request>, i: nat)
    requires i < |requests|
    ensures
      var answers := AnswersForever(l, requests);
      && |answers| == |requests| && answers[..i] == AnswersForever(l, requests[..i])
      && answers[i] == ServeForever(ForeverAfter(l, requests[..i]), requests[i]).0
    decreases |requests|
  {
    hide ServeForever, ForeverAfter, AnswersForever;
    var front, last := requests[..|requests| - 1], requests[|requests| - 1];
    assert requests == front + [last];
    OneMoreAnswer(l, front, last);
    if i < |front| {
      PrefixAnswers(l, front, i);
      assert front[..i] == requests[..i];
    }
  }

  lemma AddressWindowByGain(
      rate: real, burst: real, requests: seq<Request>, start: real, delay: real, ip: string, s: real, t: real)
    requires 0.0 <= rate && 0.0 <= burst && RefillsInTime(rate, burst, delay) && InOrder(requests, start, delay)
    requires s <= t && forall i :: 0 <= i < |requests| ==> requests[i].used <= t
    ensures
      var answers := Answers(Limiter(map[], rate, burst, None), requests);
      && |answers| == |requests|
      && AdmittedFor(requests, answers, ip, |requests|, s) as real <= burst + Gain(rate, t - s)
  {
    hide Gain, RefillsInTime, InOrder, AnswersForever, Answers, AdmittedSince, AdmittedFor;
    PruningInvisible(rate, burst, requests, start, delay);
    CountAlone(rate, burst, requests, ip, s);
    InOrderOneByOne(requests, start, delay);
    UsesAscend(requests, ip);
    UsesUntil(requests, ip, t);
    var times := Uses(requests, ip);
    WindowByGain(OwnBucket(rate, burst, requests, ip), times, |times|, s, t);
  }

  /** So in no window does any address get more than the burst plus the refill. */
  lemma NoAddressExceeds(
      rate: real, burst: real, requests: seq<Request>, start: real, delay: real, ip: string, s: real, t: real)
    requires 0.0 <= rate && 0.0 <= burst && RefillsInTime(rate, burst, delay) && InOrder(requests, start, delay)
    requires s <= t && forall i :: 0 <= i < |requests| ==> requests[i].used <= t
    ensures
      var answers := Answers(Limiter(map[], rate, burst, None), requests);
      && |answers| == |requests|
      && AdmittedFor(requests, answers, ip, |requests|, s) as real <= burst + (t - s) * rate
  {
    hide Answers, AdmittedFor, RefillsInTime, InOrder;
    AddressWindowByGain(rate, burst, requests, start, delay, ip, s, t);
    GainIs(rate, t - s);
  }
}
