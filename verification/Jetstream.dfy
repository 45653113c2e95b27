// The upstream event stream and the client that follows it across disconnects.
module Jetstream {
  import opened Basics
  import opened Parse

  /** An upstream event: its place on the upstream clock and the message body. */
  datatype Event = Event(pos: int, body: Object)

  /** The upstream clock strictly increases, and a time_us in a body is that event's clock value. */
  predicate WellOrdered(src: seq<Event>) {
    && (forall i, j :: 0 <= i < j < |src| ==> src[i].pos < src[j].pos)
    && (forall i :: 0 <= i < |src| && TimeUs(src[i].body).Some? ==> TimeUs(src[i].body).value == src[i].pos)
  }

  /** A connection made with this cursor may start at index p: at the cursor's event or just after it;
      anywhere when there is no cursor. */
  predicate ServedFrom(src: seq<Event>, cursor: Option<int>, p: nat) {
    && p <= |src|
    && (cursor.Some? ==>
          && (forall i :: 0 <= i < p ==> src[i].pos <= cursor.value)
          && (forall i :: p <= i < |src| ==> cursor.value <= src[i].pos))
  }

  // ----- Backoff -----

  datatype Backoff = Backoff(initial: real, max: real, ratio: real) {
    predicate Sane() {
      0.0 <= initial && 0.0 <= max && 0.0 <= ratio <= 1.0
    }
  }

  function Pow2(n: nat): (r: real)
    ensures r >= 1.0
  {
    if n == 0 then 1.0 else 2.0 * Pow2(n - 1)
  }

  function Min(x: real, y: real): real {
    if x <= y then x else y
  }

  function Base(cfg: Backoff, attempt: nat): real {
    Min(cfg.initial * Pow2(attempt), cfg.max)
  }

  function Jittered(base: real, ratio: real, rand: real): real {
    base + base * ratio * (2.0 * rand - 1.0)
  }

  function Delay(cfg: Backoff, attempt: nat, rand: real): real {
    var d := Jittered(Base(cfg, attempt), cfg.ratio, rand);
    if d >= 0.0 then d else 0.0
  }

  lemma Scale(a: real, b: real, c: real)
    requires 0.0 <= a && b <= c
    ensures a * b <= a * c
  {
  }

  lemma Spread(base: real, spread: real, u: real)
    requires 0.0 <= spread <= base && -1.0 <= u <= 1.0
    ensures -spread <= spread * u <= spread
  {
    Scale(spread, u, 1.0);
    Scale(spread, -1.0, u);
  }

  lemma JitterBounds(base: real, ratio: real, rand: real)
    requires 0.0 <= base && 0.0 <= ratio <= 1.0 && 0.0 <= rand < 1.0
    ensures 0.0 <= base * (1.0 - ratio) <= Jittered(base, ratio, rand) <= base * (1.0 + ratio)
  {
    var u, spread := 2.0 * rand - 1.0, base * ratio;
    Scale(base, 0.0, ratio);
    Scale(base, ratio, 1.0);
    assert base * ratio <= base * 1.0 == base;
    Spread(base, spread, u);
    assert base * (1.0 + ratio) == base + spread && base * (1.0 - ratio) == base - spread;
    assert Jittered(base, ratio, rand) == base + spread * u;
  }

  lemma JitterMonotone(small: real, large: real, ratio: real, rand: real)
    requires small <= large && 0.0 <= ratio <= 1.0 && 0.0 <= rand < 1.0
    ensures Jittered(small, ratio, rand) <= Jittered(large, ratio, rand)
  {
    JitterBounds(large - small, ratio, rand);
    assert Jittered(large, ratio, rand) == Jittered(small, ratio, rand) + Jittered(large - small, ratio, rand);
  }

  /** With sane settings a delay stays within the jitter band around its base, and nothing is clipped. */
  lemma DelayBounds(cfg: Backoff, attempt: nat, rand: real)
    requires cfg.Sane() && 0.0 <= rand < 1.0
    ensures 0.0 <= Base(cfg, attempt) <= cfg.max
    ensures Base(cfg, attempt) * (1.0 - cfg.ratio) <= Delay(cfg, attempt, rand)
    ensures Delay(cfg, attempt, rand) <= Base(cfg, attempt) * (1.0 + cfg.ratio)
  {
    var p := Pow2(attempt);
    Scale(cfg.initial, 0.0, p);
    hide Pow2;
    MinMonotone(0.0, cfg.initial * p, cfg.max);
    hide Jittered, Min;
    JitterBounds(Base(cfg, attempt), cfg.ratio, rand);
  }

  lemma {:induction false} Pow2Grows(m: nat, n: nat)
    requires m <= n
    ensures Pow2(m) <= Pow2(n)
    ensures Pow2(n) >= n as real
  {
    if m < n {
      Pow2Grows(m, n - 1);
    } else if n > 0 {
      Pow2Grows(m - 1, n - 1);
    }
  }

  lemma MinMonotone(x: real, y: real, cap: real)
    requires x <= y
    ensures Min(x, cap) <= Min(y, cap)
    ensures cap <= x ==> Min(x, cap) == cap
  {
  }

  lemma BaseNonDecreasing(cfg: Backoff, m: nat, n: nat)
    requires cfg.Sane() && m <= n
    ensures Base(cfg, m) <= Base(cfg, n)
  {
    Pow2Grows(m, n);
    var a, b := Pow2(m), Pow2(n);
    hide Pow2;
    Scale(cfg.initial, a, b);
    MinMonotone(cfg.initial * a, cfg.initial * b, cfg.max);
  }

  lemma DelayNonDecreasing(cfg: Backoff, m: nat, n: nat, rand: real)
    requires cfg.Sane() && 0.0 <= rand < 1.0 && m <= n
    ensures Delay(cfg, m, rand) <= Delay(cfg, n, rand)
  {
    BaseNonDecreasing(cfg, m, n);
    hide Base, Jittered;
    JitterMonotone(Base(cfg, m), Base(cfg, n), cfg.ratio, rand);
  }

  /** The first wait is around the initial delay, or the cap if that is smaller. */
  lemma BaseStarts(cfg: Backoff)
    ensures Base(cfg, 0) == if cfg.initial <= cfg.max then cfg.initial else cfg.max
  {
    assert Pow2(0) == 1.0;
  }

  lemma Double(x: real, p: real)
    ensures x * (2.0 * p) == 2.0 * (x * p)
  {
  }

  /** Each attempt doubles the base until it meets the cap. */
  lemma BaseDoubles(cfg: Backoff, attempt: nat)
    requires cfg.Sane()
    ensures Base(cfg, attempt + 1) == if 2.0 * Base(cfg, attempt) <= cfg.max then 2.0 * Base(cfg, attempt) else cfg.max
  {
    var p := Pow2(attempt);
    assert Pow2(attempt + 1) == 2.0 * p;
    hide Pow2;
    Double(cfg.initial, p);
  }

  /** In the middle of its random range the delay is the base. */
  lemma DelayCentre(cfg: Backoff, attempt: nat)
    requires cfg.Sane()
    ensures Delay(cfg, attempt, 0.5) == Base(cfg, attempt)
  {
    DelayBounds(cfg, attempt, 0.5);
    var base := Base(cfg, attempt);
    hide Base;
    assert base * cfg.ratio * (2.0 * 0.5 - 1.0) == 0.0;
  }

  lemma Quotient(x: real, y: real) returns (q: real)
    requires 0.0 <= x < y
    ensures 0.0 <= q < 1.0 && q * y == x
  {
    q := x / y;
    assert q * y == x;
    if q < 0.0 {
      ScaleLeft(q, 0.0, y);
    }
    if q >= 1.0 {
      ScaleLeft(1.0, q, y);
    }
  }

  /** The jitter reaches the whole band: every delay in it comes from some random number. */
  lemma DelayFillsBand(cfg: Backoff, attempt: nat, d: real) returns (rand: real)
    requires cfg.Sane()
    requires Base(cfg, attempt) * (1.0 - cfg.ratio) <= d < Base(cfg, attempt) * (1.0 + cfg.ratio)
    ensures 0.0 <= rand < 1.0 && Delay(cfg, attempt, rand) == d
  {
    var base := Base(cfg, attempt);
    var spread := base * cfg.ratio;
    assert base * (1.0 + cfg.ratio) == base + spread && base * (1.0 - cfg.ratio) == base - spread;
    rand := Quotient(d - (base - spread), 2.0 * spread);
    DelayBounds(cfg, attempt, rand);
    hide Base;
    Regrouped(spread, rand);
    JitterBounds(base, cfg.ratio, rand);
  }

  lemma Regrouped(spread: real, rand: real)
    ensures spread * (2.0 * rand - 1.0) == rand * (2.0 * spread) - spread
  {
  }

  lemma BaseAtCap(cfg: Backoff, a: nat, q: real)
    requires 0.0 <= cfg.initial && cfg.initial * q == cfg.max && q <= a as real
    ensures Base(cfg, a) == cfg.max
  {
    Pow2Grows(0, a);
    var p := Pow2(a);
    hide Pow2;
    Scale(cfg.initial, q, p);
    MinMonotone(cfg.initial * p, cfg.initial * p, cfg.max);
  }

  /** From some attempt on the base delay has reached its cap. */
  lemma DelayLevelsOff(cfg: Backoff) returns (n: nat)
    requires cfg.Sane() && cfg.initial > 0.0
    ensures forall a: nat :: n <= a ==> Base(cfg, a) == cfg.max
  {
    var q := cfg.max / cfg.initial;
    n := q.Floor + 1;
    assert cfg.initial * q == cfg.max;
    forall a: nat | n <= a
      ensures Base(cfg, a) == cfg.max
    {
      BaseAtCap(cfg, a, q);
    }
  }

  // ----- Reconnects -----

  /** What the network does with one connection attempt: refuse it, or serve `count` messages from
      index p and then end, either cleanly or with an error. */
  datatype Session = Refused(rand: real) | Served(p: nat, count: nat, failed: bool, rand: real)

  /** The attempt connects, and serves what a server asked from this cursor may serve. */
  predicate Connects(src: seq<Event>, latest: Option<int>, s: Session) {
    s.Served? && ServedFrom(src, latest, s.p) && s.p + s.count <= |src|
  }

  /** The last time_us yielded, or the starting cursor. */
  function Latest(src: seq<Event>, cursor: Option<int>, yielded: seq<nat>): Option<int>
    requires forall k :: 0 <= k < |yielded| ==> yielded[k] < |src|
  {
    if yielded == [] then cursor else
      var ts := TimeUs(src[yielded[|yielded| - 1]].body);
      if ts.Some? then ts else Latest(src, cursor, yielded[..|yielded| - 1])
  }

  /** `p` may be yielded next: not before the latest cursor, and not jumping over an event. */
  predicate MayFollow(src: seq<Event>, cursor: Option<int>, before: seq<nat>, p: nat)
    requires forall k :: 0 <= k < |before| ==> before[k] < |src|
  {
    var latest := Latest(src, cursor, before);
    && p < |src|
    && (latest.Some? ==> latest.value <= src[p].pos)
    && (if before == [] then ServedFrom(src, cursor, p)
        else latest.Some? ==> p <= before[|before| - 1] + 1)
  }

  /** A yield order without gaps. */
  predicate Gapless(src: seq<Event>, cursor: Option<int>, y: seq<nat>)
    ensures Gapless(src, cursor, y) ==> forall k :: 0 <= k < |y| ==> y[k] < |src|
  {
    y == [] || (Gapless(src, cursor, y[..|y| - 1]) && MayFollow(src, cursor, y[..|y| - 1], y[|y| - 1]))
  }

  /** Yielding the next event of an open connection, or the first one of a new connection. */
  lemma YieldStep(src: seq<Event>, cursor: Option<int>, y: seq<nat>, p: nat)
    requires WellOrdered(src) && Gapless(src, cursor, y) && p < |src|
    requires ServedFrom(src, Latest(src, cursor, y), p) || (y != [] && p == y[|y| - 1] + 1)
    ensures Gapless(src, cursor, y + [p])
    ensures Latest(src, cursor, y + [p]) ==
              if TimeUs(src[p].body).Some? then TimeUs(src[p].body) else Latest(src, cursor, y)
  {
    assert (y + [p])[..|y|] == y;
    if y != [] {
      var q := y[|y| - 1];
      assert Latest(src, cursor, y).Some? ==> Latest(src, cursor, y).value <= src[q].pos;
      if q + 1 < p {
        assert src[q].pos < src[q + 1].pos;
      }
    }
  }

  /** The indices p, p + 1, ..., p + n - 1. */
  function Indices(p: nat, n: nat): seq<nat> {
    seq(n, k requires 0 <= k < n => p + k)
  }

  lemma IndicesSnoc(before: seq<nat>, p: nat, n: nat)
    ensures before + Indices(p, n + 1) == before + Indices(p, n) + [p + n]
  {
    assert Indices(p, n + 1) == Indices(p, n) + [p + n];
  }

  /** Everything yielded over a series of attempts: what each successful connection served, in turn, the
      next one being asked for the latest cursor seen so far. */
  function Yields(src: seq<Event>, cursor: Option<int>, sessions: seq<Session>): (y: seq<nat>)
    ensures forall k :: 0 <= k < |y| ==> y[k] < |src|
  {
    if sessions == [] then [] else
      var before, s := Yields(src, cursor, sessions[..|sessions| - 1]), sessions[|sessions| - 1];
      if Connects(src, Latest(src, cursor, before), s) then before + Indices(s.p, s.count) else before
  }

  /** Whether attempt k of a series connects. */
  predicate Connected(src: seq<Event>, cursor: Option<int>, sessions: seq<Session>, k: nat)
    requires k < |sessions|
  {
    Connects(src, Latest(src, cursor, Yields(src, cursor, sessions[..k])), sessions[k])
  }

  /** What one connection attempt came to. */
  datatype Fate = Fate(connected: bool, failed: bool, rand: real)

  function FateOf(s: Session, connected: bool): Fate {
    Fate(connected, !connected || (s.Served? && s.failed), s.rand)
  }

  function Fates(src: seq<Event>, cursor: Option<int>, sessions: seq<Session>): (log: seq<Fate>)
    ensures |log| == |sessions|
  {
    seq(|sessions|, k requires 0 <= k < |sessions| => FateOf(sessions[k], Connected(src, cursor, sessions, k)))
  }

  /** The attempt counter: consecutive errors since the last successful connection. */
  function Attempts(log: seq<Fate>): nat {
    if log == [] then 0 else
      var last := log[|log| - 1];
      var before := if last.connected then 0 else Attempts(log[..|log| - 1]);
      if last.failed then before + 1 else before
  }

  function Delays(cfg: Backoff, log: seq<Fate>): seq<real> {
    if log == [] then [] else
      var last, before := log[|log| - 1], log[..|log| - 1];
      Delays(cfg, before) +
      (if last.failed then [Delay(cfg, if last.connected then 0 else Attempts(before), last.rand)] else [])
  }

  lemma NoneYielded(src: seq<Event>, cursor: Option<int>)
    ensures Yields(src, cursor, []) == [] && Gapless(src, cursor, []) && Latest(src, cursor, []) == cursor
  {
  }

  lemma OneSession(src: seq<Event>, cursor: Option<int>, sessions: seq<Session>, n: nat)
    requires n < |sessions|
    ensures var before, s := Yields(src, cursor, sessions[..n]), sessions[n];
            var connected := Connects(src, Latest(src, cursor, before), s);
            && Yields(src, cursor, sessions[..n + 1]) == (if connected then before + Indices(s.p, s.count) else before)
            && Fates(src, cursor, sessions[..n + 1])
               == Fates(src, cursor, sessions[..n]) + [FateOf(s, connected)]
  {
    hide Connects, Latest, FateOf;
    assert sessions[..n + 1][..n] == sessions[..n];
    assert forall k :: 0 <= k <= n ==> sessions[..n + 1][..k] == sessions[..k];
    assert forall k :: 0 <= k < n ==> sessions[..n][..k] == sessions[..k];
  }

  lemma FateIs(s: Session, connected: bool)
    ensures FateOf(s, connected) == Fate(connected, !connected || (s.Served? && s.failed), s.rand)
  {
  }

  lemma ConnectsServed(src: seq<Event>, latest: Option<int>, s: Session)
    requires Connects(src, latest, s)
    ensures s.Served? && ServedFrom(src, latest, s.p) && s.p + s.count <= |src|
  {
  }

  class JetstreamClient {
    const cfg: Backoff

    constructor (cfg: Backoff)
      ensures this.cfg == cfg
    {
      this.cfg := cfg;
    }

    /** The events a caller receives, as source indices, over any finite series of connection attempts.
        An attempt the server could not make from the current cursor counts as refused. */
    method Events(src: seq<Event>, cursor: Option<int>, sessions: seq<Session>)
        returns (yielded: seq<nat>, slept: seq<real>)
      requires WellOrdered(src)
      ensures yielded == Yields(src, cursor, sessions) && Gapless(src, cursor, yielded)
      ensures slept == Delays(cfg, Fates(src, cursor, sessions))
    {
      hide Connects, Gapless, Latest, WellOrdered, Delay, FateOf;
      yielded, slept := [], [];
      var attempt := 0;
      var latest := cursor;
      NoneYielded(src, cursor);
      for n := 0 to |sessions|
        invariant yielded == Yields(src, cursor, sessions[..n])
        invariant Gapless(src, cursor, yielded) && latest == Latest(src, cursor, yielded)
        invariant slept == Delays(cfg, Fates(src, cursor, sessions[..n]))
        invariant attempt == Attempts(Fates(src, cursor, sessions[..n]))
      {
        var s := sessions[n];
        var connected := Connects(src, latest, s);
        var failed := true;
        OneSession(src, cursor, sessions, n);
        FateIs(s, connected);
        if connected {
          attempt := 0;
          ConnectsServed(src, latest, s);
          yielded, latest := Follow(src, cursor, yielded, latest, s.p, s.count);
          failed := s.failed;
        }
        if failed {
          slept := slept + [Delay(cfg, attempt, s.rand)];
          attempt := attempt + 1;
        }
      }
      assert sessions[..|sessions|] == sessions;
    }

    /** The inner loop: one open connection. */
    method Follow(src: seq<Event>, ghost cursor: Option<int>, soFar: seq<nat>, latest0: Option<int>, p: nat, count: nat)
        returns (yielded: seq<nat>, latest: Option<int>)
      requires WellOrdered(src) && Gapless(src, cursor, soFar) && latest0 == Latest(src, cursor, soFar)
      requires ServedFrom(src, latest0, p) && p + count <= |src|
      ensures yielded == soFar + Indices(p, count)
      ensures Gapless(src, cursor, yielded) && latest == Latest(src, cursor, yielded)
    {
      hide MayFollow, Latest, WellOrdered, ServedFrom, Gapless;
      yielded, latest := soFar, latest0;
      assert soFar + Indices(p, 0) == soFar;
      for k := 0 to count
        invariant yielded == soFar + Indices(p, k)
        invariant Gapless(src, cursor, yielded) && latest == Latest(src, cursor, yielded)
      {
        assert k > 0 ==> yielded[|yielded| - 1] == p + k - 1;
        assert k == 0 ==> yielded == soFar;
        YieldStep(src, cursor, yielded, p + k);
        IndicesSnoc(soFar, p, k);
        yielded := yielded + [p + k];
        var ts := TimeUs(src[p + k].body);
        if ts.Some? {
          latest := ts;
        }
      }
    }
  }

  lemma {:induction false} LatestKept(src: seq<Event>, cursor: Option<int>, y: seq<nat>)
    requires forall k :: 0 <= k < |y| ==> y[k] < |src|
    requires cursor.Some?
    ensures Latest(src, cursor, y).Some?
  {
    if y != [] {
      LatestKept(src, cursor, y[..|y| - 1]);
    }
  }

  /** Nothing after the starting cursor is skipped, however the connection was interrupted. */
  lemma {:induction false} NothingSkipped(src: seq<Event>, c: int, y: seq<nat>, i: nat)
    requires WellOrdered(src) && Gapless(src, Some(c), y) && y != []
    requires i <= y[|y| - 1] && src[i].pos > c
    ensures i in y
  {
    var n := |y| - 1;
    if i != y[n] {
      var before := y[..n];
      if n > 0 {
        LatestKept(src, Some(c), before);
        NothingSkipped(src, c, before, i);
      }
    }
  }

  lemma {:induction false} RunGapless(src: seq<Event>, cursor: Option<int>, y: seq<nat>, p: nat, n: nat)
    requires WellOrdered(src) && Gapless(src, cursor, y) && ServedFrom(src, Latest(src, cursor, y), p) && p + n <= |src|
    ensures Gapless(src, cursor, y + Indices(p, n))
  {
    hide MayFollow, Latest, WellOrdered, ServedFrom, Gapless;
    if n == 0 {
      assert y + Indices(p, 0) == y;
    } else {
      RunGapless(src, cursor, y, p, n - 1);
      IndicesSnoc(y, p, n - 1);
      if n == 1 {
        assert y + Indices(p, 0) == y;
      }
      YieldStep(src, cursor, y + Indices(p, n - 1), p + n - 1);
    }
  }

  /** Whatever the connections do, what is yielded has no gaps. */
  lemma {:induction false} YieldsGapless(src: seq<Event>, cursor: Option<int>, sessions: seq<Session>)
    requires WellOrdered(src)
    ensures Gapless(src, cursor, Yields(src, cursor, sessions))
  {
    hide Latest, Gapless, WellOrdered, Indices;
    if sessions == [] {
      NoneYielded(src, cursor);
    } else {
      var before, s := sessions[..|sessions| - 1], sessions[|sessions| - 1];
      YieldsGapless(src, cursor, before);
      if Connects(src, Latest(src, cursor, Yields(src, cursor, before)), s) {
        RunGapless(src, cursor, Yields(src, cursor, before), s.p, s.count);
      }
    }
  }

  /** Yield j is the first one after a reconnect. */
  predicate BeginsAt(src: seq<Event>, cursor: Option<int>, sessions: seq<Session>, j: nat) {
    exists k :: 0 < k < |sessions| && Connected(src, cursor, sessions, k) && |Yields(src, cursor, sessions[..k])| == j
  }

  /** Yield k is the upstream event after the one before it, or one a server may start from when asked for the
      latest cursor seen so far. */
  predicate FollowsOn(src: seq<Event>, cursor: Option<int>, y: seq<nat>, k: nat)
    requires k < |y| && forall j :: 0 <= j < |y| ==> y[j] < |src|
  {
    (k > 0 && y[k] == y[k - 1] + 1) || ServedFrom(src, Latest(src, cursor, y[..k]), y[k])
  }

  predicate Followed(src: seq<Event>, cursor: Option<int>, y: seq<nat>) {
    && (forall k :: 0 <= k < |y| ==> y[k] < |src|)
    && forall k :: 0 <= k < |y| ==> FollowsOn(src, cursor, y, k)
  }

  lemma ServedFollows(src: seq<Event>, cursor: Option<int>, y: seq<nat>, p: nat, n: nat)
    requires Followed(src, cursor, y) && ServedFrom(src, Latest(src, cursor, y), p) && p + n <= |src|
    ensures Followed(src, cursor, y + Indices(p, n))
  {
    hide ServedFrom, Latest;
    var z := y + Indices(p, n);
    forall k | 0 <= k < |z|
      ensures z[k] < |src|
    {
    }
    forall k | 0 <= k < |z|
      ensures FollowsOn(src, cursor, z, k)
    {
      if k < |y| {
        assert z[..k] == y[..k] && FollowsOn(src, cursor, y, k);
      } else if k == |y| {
        assert z[..k] == y;
      }
    }
  }

  /** What the client yields follows on, however the connection was interrupted. */
  lemma {:induction false} YieldsFollowed(src: seq<Event>, cursor: Option<int>, sessions: seq<Session>)
    ensures Followed(src, cursor, Yields(src, cursor, sessions))
  {
    hide Latest, FollowsOn, ServedFrom;
    if sessions != [] {
      var before, s := sessions[..|sessions| - 1], sessions[|sessions| - 1];
      YieldsFollowed(src, cursor, before);
      if Connects(src, Latest(src, cursor, Yields(src, cursor, before)), s) {
        ServedFollows(src, cursor, Yields(src, cursor, before), s.p, s.count);
      }
    }
  }

  lemma AfterStamped(src: seq<Event>, cursor: Option<int>, y: seq<nat>, j: nat)
    requires WellOrdered(src) && Followed(src, cursor, y) && 0 < j < |y| && TimeUs(src[y[j - 1]].body).Some?
    ensures y[j] == y[j - 1] || y[j] == y[j - 1] + 1
  {
    assert FollowsOn(src, cursor, y, j);
    assert y[..j][..j - 1] == y[..j - 1] && y[..j][j - 1] == y[j - 1];
    var l := y[j - 1];
    assert Latest(src, cursor, y[..j]) == Some(src[l].pos);
    assert l + 1 < |src| ==> src[l].pos < src[l + 1].pos;
    assert src[l].pos <= src[y[j]].pos;
  }

  /** Every yield but the first of a reconnect is the upstream event after the one before it; and if the one
      before a reconnect was stamped, the first yield of the reconnect repeats it or comes right after it. */
  lemma {:induction false} RepeatsOnlyAtReconnect(src: seq<Event>, cursor: Option<int>, sessions: seq<Session>, j: nat)
    requires WellOrdered(src) && 0 < j < |Yields(src, cursor, sessions)|
    ensures var y := Yields(src, cursor, sessions);
            y[j] == y[j - 1] + 1
            || (BeginsAt(src, cursor, sessions, j) && (TimeUs(src[y[j - 1]].body).Some? ==> y[j] == y[j - 1]))
  {
    hide Latest, WellOrdered, Connects, Followed, TimeUs;
    var n := |sessions| - 1;
    var before, s, y := Yields(src, cursor, sessions[..n]), sessions[n], Yields(src, cursor, sessions);
    if j < |before| {
      RepeatsOnlyAtReconnect(src, cursor, sessions[..n], j);
      assert forall k :: 0 <= k < n ==> sessions[..n][..k] == sessions[..k];
    } else if j == |before| {
      YieldsFollowed(src, cursor, sessions);
      if TimeUs(src[y[j - 1]].body).Some? {
        AfterStamped(src, cursor, y, j);
      }
      assert n > 0 by {
        NoneYielded(src, cursor);
      }
      assert Connected(src, cursor, sessions, n);
    } else {
      ConnectsServed(src, Latest(src, cursor, before), s);
      assert y[j - 1] == Indices(s.p, s.count)[j - 1 - |before|];
    }
  }

  function TotalServed(src: seq<Event>, cursor: Option<int>, sessions: seq<Session>): nat {
    if sessions == [] then 0 else
      var n := |sessions| - 1;
      TotalServed(src, cursor, sessions[..n])
      + (if Connected(src, cursor, sessions, n) && sessions[n].Served? then sessions[n].count else 0)
  }

  lemma LastAttempt(src: seq<Event>, cursor: Option<int>, sessions: seq<Session>)
    requires sessions != []
    ensures var n := |sessions| - 1;
            var s, connected := sessions[n], Connected(src, cursor, sessions, n);
            && (connected ==> s.Served?)
            && Yields(src, cursor, sessions)
               == Yields(src, cursor, sessions[..n]) + (if connected then Indices(s.p, s.count) else [])
            && TotalServed(src, cursor, sessions)
               == TotalServed(src, cursor, sessions[..n]) + (if connected then s.count else 0)
  {
    hide Latest;
    assert Yields(src, cursor, sessions[..|sessions| - 1]) + [] == Yields(src, cursor, sessions[..|sessions| - 1]);
  }

  lemma {:induction false} TotalYielded(src: seq<Event>, cursor: Option<int>, sessions: seq<Session>)
    ensures |Yields(src, cursor, sessions)| == TotalServed(src, cursor, sessions)
  {
    hide Latest, Connected;
    if sessions == [] {
      NoneYielded(src, cursor);
    } else {
      TotalYielded(src, cursor, sessions[..|sessions| - 1]);
      LastAttempt(src, cursor, sessions);
      hide Yields, TotalServed;
    }
  }

  lemma SameAttempt(src: seq<Event>, cursor: Option<int>, sessions: seq<Session>, n: nat, k: nat)
    requires k < n <= |sessions|
    ensures Connected(src, cursor, sessions[..n], k) == Connected(src, cursor, sessions, k)
    ensures sessions[..n][..k] == sessions[..k] && sessions[..n][..k + 1] == sessions[..k + 1]
    ensures sessions[..n][k] == sessions[k]
  {
    hide Latest, Connects, Yields;
    assert sessions[..n][..k] == sessions[..k] && sessions[..n][..k + 1] == sessions[..k + 1];
  }

  /** Attempt k of a series, by whether it connects. */
  lemma {:induction false} AttemptYields(src: seq<Event>, cursor: Option<int>, sessions: seq<Session>, k: nat)
    requires k < |sessions|
    ensures var y, s := Yields(src, cursor, sessions), sessions[k];
            var from := |Yields(src, cursor, sessions[..k])|;
            && from <= |y| && y[..from] == Yields(src, cursor, sessions[..k])
            && if Connected(src, cursor, sessions, k)
               then && s.Served? && from + s.count <= |y|
                    && forall i :: from <= i < from + s.count ==> y[i] == s.p + i - from
               else |Yields(src, cursor, sessions[..k + 1])| == from
  {
    hide Latest, Connects, Connected, Yields;
    var n := |sessions| - 1;
    LastAttempt(src, cursor, sessions);
    if k < n {
      SameAttempt(src, cursor, sessions, n, k);
      AttemptYields(src, cursor, sessions[..n], k);
    } else {
      assert sessions[..n + 1] == sessions;
    }
  }

  /** Everything a server may serve from the latest cursor yielded so far is yielded next, in order; any other
      attempt adds nothing and has failed. */
  lemma EveryServedYielded(src: seq<Event>, cursor: Option<int>, sessions: seq<Session>, k: nat)
    requires k < |sessions|
    ensures |Yields(src, cursor, sessions)| == TotalServed(src, cursor, sessions)
    ensures var y, s := Yields(src, cursor, sessions), sessions[k];
            var from := |Yields(src, cursor, sessions[..k])|;
            && from <= |y| && y[..from] == Yields(src, cursor, sessions[..k])
            && if s.Served? && ServedFrom(src, Latest(src, cursor, y[..from]), s.p) && s.p + s.count <= |src|
               then && Fates(src, cursor, sessions)[k] == Fate(true, s.failed, s.rand)
                    && from + s.count <= |y| && forall i :: from <= i < from + s.count ==> y[i] == s.p + i - from
               else && Fates(src, cursor, sessions)[k] == Fate(false, true, s.rand)
                    && |Yields(src, cursor, sessions[..k + 1])| == from
  {
    TotalYielded(src, cursor, sessions);
    AttemptYields(src, cursor, sessions, k);
    hide Latest, Yields, TotalServed, ServedFrom;
  }

  /** How often a yield repeats the one before it. */
  function Repeats(y: seq<nat>): nat {
    if |y| < 2 then 0 else
      Repeats(y[..|y| - 1]) + (if y[|y| - 1] == y[|y| - 2] then 1 else 0)
  }

  function Connections(src: seq<Event>, cursor: Option<int>, sessions: seq<Session>): nat {
    if sessions == [] then 0 else
      Connections(src, cursor, sessions[..|sessions| - 1])
      + (if Connected(src, cursor, sessions, |sessions| - 1) then 1 else 0)
  }

  lemma {:induction false} RunRepeats(y: seq<nat>, p: nat, n: nat)
    ensures Repeats(y + Indices(p, n)) <= Repeats(y) + (if y != [] && n > 0 then 1 else 0)
  {
    if n == 0 {
      assert y + Indices(p, 0) == y;
    } else {
      RunRepeats(y, p, n - 1);
      IndicesSnoc(y, p, n - 1);
      var z := y + Indices(p, n - 1);
      assert (z + [p + n - 1])[..|z|] == z;
      assert n > 1 ==> z[|z| - 1] == p + n - 2;
    }
  }

  /** At most one repeat for each reconnect. */
  lemma {:induction false} RepeatsBounded(src: seq<Event>, cursor: Option<int>, sessions: seq<Session>)
    ensures var y := Yields(src, cursor, sessions);
            y == [] || Repeats(y) + 1 <= Connections(src, cursor, sessions)
  {
    hide Latest, Connects;
    if sessions != [] {
      var before, s := sessions[..|sessions| - 1], sessions[|sessions| - 1];
      RepeatsBounded(src, cursor, before);
      if Connected(src, cursor, sessions, |sessions| - 1) {
        ConnectsServed(src, Latest(src, cursor, Yields(src, cursor, before)), s);
        RunRepeats(Yields(src, cursor, before), s.p, s.count);
      }
    }
  }

  /** The attempt counter in closed form: the attempts since the last connection, and one for that connection if
      it ended with an error. */
  lemma {:induction false} AttemptsSince(log: seq<Fate>, j: nat)
    requires j <= |log| && (j > 0 ==> log[j - 1].connected)
    requires forall k :: j <= k < |log| ==> !log[k].connected && log[k].failed
    ensures Attempts(log) == |log| - j + (if j > 0 && log[j - 1].failed then 1 else 0)
  {
    if j < |log| {
      AttemptsSince(log[..|log| - 1], j);
    }
  }

  /** The failed attempts. */
  function Failures(log: seq<Fate>): nat {
    if log == [] then 0 else
      Failures(log[..|log| - 1]) + (if log[|log| - 1].failed then 1 else 0)
  }

  /** One sleep for each failed attempt and none for any other: after attempt k, the delay of the number of
      attempts since the last connection. */
  lemma {:induction false} OneSleepPerFailure(cfg: Backoff, log: seq<Fate>, k: nat)
    requires k < |log|
    ensures |Delays(cfg, log)| == Failures(log) && Failures(log[..k]) <= Failures(log)
    ensures log[k].failed ==>
              && Failures(log[..k]) < Failures(log)
              && Delays(cfg, log)[Failures(log[..k])]
                 == Delay(cfg, if log[k].connected then 0 else Attempts(log[..k]), log[k].rand)
  {
    hide Delay;
    var n := |log| - 1;
    if k < n {
      OneSleepPerFailure(cfg, log[..n], k);
      assert log[..n][..k] == log[..k];
    } else if n > 0 {
      OneSleepPerFailure(cfg, log[..n], 0);
    } else {
      assert log[..0] == [];
    }
  }

  function Escalating(cfg: Backoff, fates: seq<Fate>): (r: seq<real>)
    ensures |r| == |fates|
  {
    seq(|fates|, k requires 0 <= k < |fates| => Delay(cfg, k, fates[k].rand))
  }

  lemma EscalatingSnoc(cfg: Backoff, fates: seq<Fate>, last: Fate)
    ensures Escalating(cfg, fates + [last]) == Escalating(cfg, fates) + [Delay(cfg, |fates|, last.rand)]
  {
    hide Delay;
  }

  /** An outage: a connection fails and the next n attempts are refused. The sleeps run through
      attempts 0, 1, ..., n. */
  lemma {:induction false} OutageSchedule(cfg: Backoff, log: seq<Fate>, drop: Fate, refusals: seq<Fate>)
    requires drop.connected && drop.failed
    requires forall k :: 0 <= k < |refusals| ==> !refusals[k].connected && refusals[k].failed
    ensures Attempts(log + [drop] + refusals) == |refusals| + 1
    ensures var all := [drop] + refusals;
            Delays(cfg, log + [drop] + refusals) == Delays(cfg, log) + Escalating(cfg, all)
  {
    hide Delay, Escalating;
    var run := log + [drop] + refusals;
    if refusals == [] {
      assert run == log + [drop] && run[..|run| - 1] == log;
      EscalatingSnoc(cfg, [], drop);
      assert Escalating(cfg, []) == [];
      assert [drop] + refusals == [] + [drop];
    } else {
      var n := |refusals| - 1;
      OutageSchedule(cfg, log, drop, refusals[..n]);
      assert run[..|run| - 1] == log + [drop] + refusals[..n];
      EscalatingSnoc(cfg, [drop] + refusals[..n], refusals[n]);
      assert [drop] + refusals == [drop] + refusals[..n] + [refusals[n]];
    }
  }

  function Sum(xs: seq<real>): real {
    if xs == [] then 0.0 else Sum(xs[..|xs| - 1]) + xs[|xs| - 1]
  }

  lemma OneMore(n: real, cap: real)
    ensures n * cap + cap == (n + 1.0) * cap
  {
  }

  lemma {:induction false} SumBound(xs: seq<real>, cap: real)
    requires forall k :: 0 <= k < |xs| ==> xs[k] <= cap
    ensures Sum(xs) <= |xs| as real * cap
  {
    if xs != [] {
      var n := |xs| - 1;
      SumBound(xs[..n], cap);
      OneMore(n as real, cap);
      assert |xs| as real == n as real + 1.0;
    }
  }

  lemma {:induction false} DelaysCapped(cfg: Backoff, log: seq<Fate>)
    requires cfg.Sane() && forall k :: 0 <= k < |log| ==> 0.0 <= log[k].rand < 1.0
    ensures |Delays(cfg, log)| <= |log|
    ensures forall k :: 0 <= k < |Delays(cfg, log)| ==> 0.0 <= Delays(cfg, log)[k] <= cfg.max * (1.0 + cfg.ratio)
  {
    hide Base, Delay;
    if log != [] {
      var last, before := log[|log| - 1], log[..|log| - 1];
      DelaysCapped(cfg, before);
      DelayCapped(cfg, if last.connected then 0 else Attempts(before), last.rand);
    }
  }

  lemma ScaleLeft(a: real, b: real, c: real)
    requires 0.0 <= c && a <= b
    ensures a * c <= b * c
  {
  }

  lemma DelayCapped(cfg: Backoff, attempt: nat, rand: real)
    requires cfg.Sane() && 0.0 <= rand < 1.0
    ensures 0.0 <= Delay(cfg, attempt, rand) <= cfg.max * (1.0 + cfg.ratio)
  {
    DelayBounds(cfg, attempt, rand);
    var base := Base(cfg, attempt);
    hide Base, Jittered;
    ScaleLeft(base, cfg.max, 1.0 + cfg.ratio);
  }

  /** However the connections fare, the client never sleeps longer than its cap for each attempt made. */
  lemma TotalSleep(cfg: Backoff, log: seq<Fate>)
    requires cfg.Sane() && forall k :: 0 <= k < |log| ==> 0.0 <= log[k].rand < 1.0
    ensures Sum(Delays(cfg, log)) <= |Delays(cfg, log)| as real * (cfg.max * (1.0 + cfg.ratio))
    ensures |Delays(cfg, log)| <= |log|
  {
    hide Delays, Sum;
    DelaysCapped(cfg, log);
    SumBound(Delays(cfg, log), cfg.max * (1.0 + cfg.ratio));
  }
}
