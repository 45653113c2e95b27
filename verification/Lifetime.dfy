// One process of the ingest service, start to finish: the consume loop's effects are a run of the
// crash machine, so what holds of every machine run holds of the loop.
module Lifetime {
  import opened Basics
  import opened Parse
  import opened Jetstream
  import opened Checkpointer
  import opened Ingest
  import opened Consume

  function Callbacks(ds: seq<Delivery>): (acts: seq<Action>)
    ensures |acts| == |ds|
  {
    seq(|ds|, k requires 0 <= k < |ds| => Callback(ds[k].cursor, ds[k].ok))
  }

  function Cursors(ds: seq<Delivery>): multiset<int> {
    if ds == [] then multiset{} else Cursors(ds[..|ds| - 1]) + multiset{ds[|ds| - 1].cursor}
  }

  /** Each callback is for a message still in flight. */
  predicate Deliverable(inflight: multiset<int>, ds: seq<Delivery>) {
    ds == [] ||
    (Deliverable(inflight, ds[..|ds| - 1]) && ds[|ds| - 1].cursor in inflight - Cursors(ds[..|ds| - 1]))
  }

  /** The cursors of which a delivery succeeded. */
  function Delivered(ops: seq<Op>): set<int> {
    if ops == [] then {} else
      var before, op := Delivered(ops[..|ops| - 1]), ops[|ops| - 1];
      if op.Ack? && op.ok then before + {op.cursor} else before
  }

  lemma {:induction false} DeliveredIff(ops: seq<Op>, c: int)
    ensures c in Delivered(ops) <==> exists k :: 0 <= k < |ops| && ops[k] == Ack(true, c)
  {
    if ops != [] {
      DeliveredIff(ops[..|ops| - 1], c);
    }
  }

  lemma {:induction false} DeliveredConcat(a: seq<Op>, b: seq<Op>)
    ensures Delivered(a + b) == Delivered(a) + Delivered(b)
  {
    if b == [] {
      assert a + b == a;
    } else {
      assert (a + b)[..|a + b| - 1] == a + b[..|b| - 1];
      DeliveredConcat(a, b[..|b| - 1]);
    }
  }

  /** Where the client is: the cursor coverage counts from, the latest one seen, and the next source index. */
  datatype Place = Place(start: Option<int>, latest: Option<int>, next: nat)

  /** The machine runs a process in the given phase whose checkpointer, stored row, successful deliveries and
      place are these; coverage counts from its start once a row is stored, and before it has a start its
      checkpointer has seen nothing. */
  ghost predicate Mirrors(s: Sys, phase: Phase, saver: Saver, delivered: set<int>, at: Place) {
    && s.proc.Some? && s.proc.value.phase == phase && Saver(s.proc.value.ck, s.store) == saver
    && s.delivered == delivered
    && Place(s.proc.value.start, s.proc.value.latest, s.proc.value.next) == at
    && s.base == (if saver.row.Some? then at.start else None)
    && (at.start.None? ==> saver.row.None? && saver.ck.safe.None? && saver.ck.pending == map[])
  }

  /** Everything callbacks leave alone, and the queue they drain. */
  ghost predicate SameBut(s: Sys, t: Sys, gone: multiset<int>) {
    && s.proc.Some? && t.proc.Some? && s.quarantined == t.quarantined
    && t.proc.value.inflight == s.proc.value.inflight - gone
  }

  lemma CallbackRuns(w: World, s: Sys, phase: Phase, saver: Saver, delivered: set<int>, at: Place,
                     d: Delivery)
    requires Mirrors(s, phase, saver, delivered, at) && d.cursor in s.proc.value.inflight
    ensures var t := Apply(w, s, Callback(d.cursor, d.ok));
            && Mirrors(t, phase, Do(w.cadence, saver, Ack(d.ok, d.cursor)),
                       if d.ok then delivered + {d.cursor} else delivered, at)
            && SameBut(s, t, multiset{d.cursor})
  {
    AckNothing(saver.ck, d.ok, d.cursor);
    hide WithAck;
  }

  lemma AckNothing(k: Ckpt, ok: bool, c: int)
    ensures k.pending == map[] && k.safe.None? ==>
              WithAck(k, ok, c).pending == map[] && WithAck(k, ok, c).safe.None?
  {
    if k.pending == map[] {
      assert Foldable(k.pending) == {};
    }
  }

  lemma SameButTwice(s: Sys, t: Sys, u: Sys, a: multiset<int>, b: multiset<int>)
    requires SameBut(s, t, a) && SameBut(t, u, b)
    ensures SameBut(s, u, a + b)
  {
  }

  lemma LastCallback(w: World, s: Sys, saver: Saver, ds: seq<Delivery>)
    requires ds != []
    ensures var n := |ds| - 1; var last := ds[n];
            && Exec(w, s, Callbacks(ds)) == Apply(w, Exec(w, s, Callbacks(ds[..n])), Callback(last.cursor, last.ok))
            && Replay(w.cadence, saver, Acks(ds))
               == Do(w.cadence, Replay(w.cadence, saver, Acks(ds[..n])), Ack(last.ok, last.cursor))
            && Delivered(Acks(ds))
               == if last.ok then Delivered(Acks(ds[..n])) + {last.cursor} else Delivered(Acks(ds[..n]))
  {
    hide Apply, Do;
    var n := |ds| - 1;
    assert Callbacks(ds)[..n] == Callbacks(ds[..n]) && Acks(ds)[..n] == Acks(ds[..n]);
  }

  lemma {:induction false} CallbacksRun(w: World, s: Sys, phase: Phase, saver: Saver, delivered: set<int>,
                                        at: Place, ds: seq<Delivery>)
    requires Mirrors(s, phase, saver, delivered, at) && Deliverable(s.proc.value.inflight, ds)
    ensures var t := Exec(w, s, Callbacks(ds));
            && Mirrors(t, phase, Replay(w.cadence, saver, Acks(ds)), delivered + Delivered(Acks(ds)), at)
            && SameBut(s, t, Cursors(ds))
  {
    hide Apply, Do, Acks, Callbacks;
    if ds == [] {
      NoCallbacks(w, s, saver, delivered);
    } else {
      var n := |ds| - 1;
      var t, u := Exec(w, s, Callbacks(ds[..n])), Exec(w, s, Callbacks(ds));
      CallbacksRun(w, s, phase, saver, delivered, at, ds[..n]);
      LastCallback(w, s, saver, ds);
      CallbackRuns(w, t, phase, Replay(w.cadence, saver, Acks(ds[..n])), delivered + Delivered(Acks(ds[..n])), at,
                   ds[n]);
      SameButTwice(s, t, u, Cursors(ds[..n]), multiset{ds[n].cursor});
      Regroup(delivered, Delivered(Acks(ds[..n])), ds[n].cursor);
    }
  }

  lemma NoCallbacks(w: World, s: Sys, saver: Saver, delivered: set<int>)
    ensures Exec(w, s, Callbacks([])) == s && Replay(w.cadence, saver, Acks([])) == saver
    ensures delivered + Delivered(Acks([])) == delivered
  {
  }

  lemma Regroup(a: set<int>, b: set<int>, c: int)
    ensures a + b + {c} == a + (b + {c})
  {
  }

  // ----- One event -----

  function Drains(t: Tick): seq<Delivery>
    requires WellFormed(t)
  {
    Flatten(t.drains[..Polls(t)])
  }

  /** The machine's actions for sending one event's message, if it has one. */
  function SendActs(w: World, i: nat, t: Tick): seq<Action>
    requires i < |w.src| && WellFormed(t)
  {
    if RouteAt(w, i).Skipped? then [] else Callbacks(Drains(t))
  }

  /** ... up to the attempt to send it. */
  function ToSend(w: World, i: nat, t: Tick): seq<Action>
    requires i < |w.src| && WellFormed(t)
  {
    [Reconnect(i), Pull] + SendActs(w, i, t)
  }

  /** ... and on to the end of the iteration. */
  function EventActs(w: World, i: nat, t: Tick): seq<Action>
    requires i < |w.src| && WellFormed(t)
  {
    ToSend(w, i, t) + [Enqueue] + Callbacks(t.polled) + [Checkpoint(t.now)]
  }

  /** Every callback is for a message in flight. */
  ghost predicate Legit(w: World, s: Sys, i: nat, t: Tick)
    requires i < |w.src| && WellFormed(t)
  {
    && s.proc.Some?
    && var flying := s.proc.value.inflight;
       match RouteAt(w, i)
       case Skipped => Deliverable(flying, t.polled)
       case DeadLettered(_) => Deliverable(flying, Drains(t)) && Deliverable(flying - Cursors(Drains(t)), t.polled)
       case Produced(c) =>
         Deliverable(flying, Drains(t)) && Deliverable(flying - Cursors(Drains(t)) + multiset{c}, t.polled)
  }

  /** The phase in which an event's message is being sent. */
  function Sending(w: World, i: nat): Phase
    requires i < |w.src|
  {
    match RouteAt(w, i)
    case Skipped => Idle
    case DeadLettered(_) => DeadLettering(w.src[i].pos)
    case Produced(c) => Producing(c)
  }

  lemma TwoActs(w: World, s: Sys, a: Action, b: Action)
    ensures Exec(w, s, [a, b]) == Apply(w, Apply(w, s, a), b)
  {
    hide Apply;
    assert [a, b][..1] == [a] && [a][..0] == [];
    assert Exec(w, s, [a]) == Apply(w, Exec(w, s, []), a);
  }

  /** The event comes next, or a reconnect may start with it. */
  predicate InReach(w: World, at: Place, i: nat) {
    i == at.next || ServedFrom(w.src, at.latest, i)
  }

  /** The place after pulling the event. */
  function Moved(w: World, at: Place, i: nat): Place
    requires i < |w.src|
  {
    var ts := TimeUs(w.src[i].body);
    Place(if at.start.None? && ts.Some? then Some(ts.value - 1) else at.start,
          if ts.Some? then ts else at.latest,
          i + 1)
  }

  lemma ProducedIsStamped(w: World, i: nat)
    requires i < |w.src| && RouteAt(w, i).Produced?
    ensures TimeUs(w.src[i].body).Some?
  {
    RoutingTable(w.dt, w.src[i].body);
  }

  /** Reaching the event and registering it. */
  lemma PullRuns(w: World, s: Sys, saver: Saver, delivered: set<int>, at: Place, i: nat)
    requires i < |w.src| && Mirrors(s, Idle, saver, delivered, at) && InReach(w, at, i)
    ensures var t := Exec(w, s, [Reconnect(i), Pull]);
            var reg := match RouteAt(w, i)
                       case Produced(c) => saver.(ck := WithCursor(saver.ck, c))
                       case _ => saver;
            && Mirrors(t, Sending(w, i), reg, delivered, Moved(w, at, i))
            && t.quarantined == s.quarantined && t.proc.value.inflight == s.proc.value.inflight
  {
    hide RouteOf, ServedFrom, TimeUs, Exec;
    TwoActs(w, s, Reconnect(i), Pull);
    if RouteAt(w, i).Produced? {
      ProducedIsStamped(w, i);
    }
    hide WithCursor;
  }

  /** The machine's view of the checkpointer operations up to the attempt to send. */
  lemma SendRuns(w: World, s: Sys, saver: Saver, delivered: set<int>, at: Place, i: nat, t: Tick)
    requires i < |w.src| && WellFormed(t) && Mirrors(s, Idle, saver, delivered, at)
    requires InReach(w, at, i) && Legit(w, s, i, t)
    ensures var e := Exec(w, s, ToSend(w, i, t)); var ops := SendOps(w.dt, w.src[i].body, t);
            && Mirrors(e, Sending(w, i), Replay(w.cadence, saver, ops), delivered + Delivered(ops), Moved(w, at, i))
            && e.quarantined == s.quarantined
            && e.proc.value.inflight
               == if RouteAt(w, i).Skipped? then s.proc.value.inflight
                  else s.proc.value.inflight - Cursors(Drains(t))
  {
    hide RouteOf, Apply, WithCursor, Deliverable, WellFormed, InReach, WithAck, Moved;
    PullRuns(w, s, saver, delivered, at, i);
    var pulled := Exec(w, s, [Reconnect(i), Pull]);
    Unroll(w, s, [Reconnect(i), Pull], SendActs(w, i, t));
    if RouteAt(w, i).Skipped? {
      assert delivered + {} == delivered;
      assert [Reconnect(i), Pull] + [] == [Reconnect(i), Pull];
    } else {
      var reg := Saver(pulled.proc.value.ck, pulled.store);
      CallbacksRun(w, pulled, Sending(w, i), reg, delivered, Moved(w, at, i), Drains(t));
      DrainedIs(t);
      if RouteAt(w, i).Produced? {
        RegisterFirst(w.cadence, saver, RouteAt(w, i).cursor, Drained(t));
      }
    }
  }

  lemma DrainedIs(t: Tick)
    requires WellFormed(t)
    ensures Drained(t) == Acks(Drains(t))
  {
  }

  lemma RegisterFirst(cfg: Cadence, saver: Saver, c: int, ops: seq<Op>)
    ensures Replay(cfg, saver, [Reg(c)] + ops) == Replay(cfg, saver.(ck := WithCursor(saver.ck, c)), ops)
    ensures Delivered([Reg(c)] + ops) == Delivered(ops)
  {
    hide WithCursor;
    ReplayConcat(cfg, saver, [Reg(c)], ops);
    assert [Reg(c)][..0] == [];
    assert Replay(cfg, saver, [Reg(c)]) == Do(cfg, Replay(cfg, saver, []), Reg(c));
    DeliveredConcat([Reg(c)], ops);
    assert Delivered([Reg(c)]) == {};
  }

  lemma OneAct(w: World, s: Sys, acts: seq<Action>, a: Action)
    ensures Exec(w, s, acts + [a]) == Apply(w, Exec(w, s, acts), a)
  {
    hide Apply;
    assert (acts + [a])[..|acts|] == acts;
  }

  /** The position an event is dead-lettered at, if it is. */
  function DlqAt(w: World, i: nat): set<int>
    requires i < |w.src|
  {
    if RouteAt(w, i).DeadLettered? then {w.src[i].pos} else {}
  }

  lemma EnqueueRuns(w: World, s: Sys, saver: Saver, delivered: set<int>, at: Place, i: nat)
    requires i < |w.src| && Mirrors(s, Sending(w, i), saver, delivered, at)
    ensures var t := Apply(w, s, Enqueue);
            && Mirrors(t, Idle, saver, delivered, at)
            && t.quarantined == s.quarantined + DlqAt(w, i)
            && t.proc.value.inflight ==
                 match RouteAt(w, i)
                 case Produced(c) => s.proc.value.inflight + multiset{c}
                 case _ => s.proc.value.inflight
  {
    hide RouteOf;
  }

  lemma CheckpointRuns(w: World, s: Sys, saver: Saver, delivered: set<int>, at: Place, now: real)
    requires Mirrors(s, Idle, saver, delivered, at)
    ensures var t := Apply(w, s, Checkpoint(now));
            && Mirrors(t, Idle, WithSave(w.cadence, saver, now), delivered, at)
            && t.quarantined == s.quarantined
  {
  }

  lemma EventDelivered(dt: Json -> bool, event: Object, t: Tick)
    requires WellFormed(t)
    ensures Delivered(EventOps(dt, event, t)) == Delivered(SendOps(dt, event, t)) + Delivered(Acks(t.polled))
  {
    hide SendOps, WellFormed, Acks;
    var ops := SendOps(dt, event, t) + Acks(t.polled);
    DeliveredConcat(SendOps(dt, event, t), Acks(t.polled));
    assert (ops + [Save(t.now)])[..|ops|] == ops;
  }

  /** One complete iteration of the loop. */
  lemma EventRuns(w: World, s: Sys, saver: Saver, delivered: set<int>, at: Place, i: nat, t: Tick)
    requires i < |w.src| && WellFormed(t) && Mirrors(s, Idle, saver, delivered, at)
    requires InReach(w, at, i) && Legit(w, s, i, t)
    ensures var e := Exec(w, s, EventActs(w, i, t)); var ops := EventOps(w.dt, w.src[i].body, t);
            && Mirrors(e, Idle, Replay(w.cadence, saver, ops), delivered + Delivered(ops), Moved(w, at, i))
            && e.quarantined == s.quarantined + DlqAt(w, i)
  {
    var body := w.src[i].body;
    var ops := SendOps(w.dt, body, t);
    var s1 := Exec(w, s, ToSend(w, i, t));
    var s2 := Apply(w, s1, Enqueue);
    var s3 := Exec(w, s2, Callbacks(t.polled));
    var mid, so := Replay(w.cadence, saver, ops), delivered + Delivered(ops);
    var there := Moved(w, at, i);
    SendRuns(w, s, saver, delivered, at, i, t);
    EnqueueRuns(w, s1, mid, so, there, i);
    assert Deliverable(s2.proc.value.inflight, t.polled);
    hide Apply, RouteOf, Legit, WellFormed, ToSend, SendOps, EventOps, Callbacks, Acks, DlqAt, Delivered, Deliverable,
         InReach, Moved;
    CallbacksRun(w, s2, Idle, mid, so, there, t.polled);
    CheckpointRuns(w, s3, Replay(w.cadence, mid, Acks(t.polled)), so + Delivered(Acks(t.polled)), there, t.now);
    var acts := ToSend(w, i, t);
    OneAct(w, s, acts, Enqueue);
    Unroll(w, s, acts + [Enqueue], Callbacks(t.polled));
    OneAct(w, s, acts + [Enqueue] + Callbacks(t.polled), Checkpoint(t.now));
    EventIs(w, saver, i, t);
    EventDelivered(w.dt, body, t);
    Assoc(delivered, Delivered(ops), Delivered(Acks(t.polled)));
  }

  lemma EventIs(w: World, saver: Saver, i: nat, t: Tick)
    requires i < |w.src| && WellFormed(t)
    ensures var body := w.src[i].body; var sent := Replay(w.cadence, saver, SendOps(w.dt, body, t));
            Replay(w.cadence, saver, EventOps(w.dt, body, t))
            == WithSave(w.cadence, Replay(w.cadence, sent, Acks(t.polled)), t.now)
  {
    AfterEvent(w.cadence, saver, SendOps(w.dt, w.src[i].body, t), t);
  }

  lemma Assoc(a: set<int>, b: set<int>, c: set<int>)
    ensures a + b + c == a + (b + c)
  {
  }

  // ----- The loop -----

  function Bodies(w: World, idx: seq<nat>): (events: seq<Object>)
    requires forall k :: 0 <= k < |idx| ==> idx[k] < |w.src|
    ensures |events| == |idx|
  {
    seq(|idx|, k requires 0 <= k < |idx| => w.src[idx[k]].body)
  }

  predicate InSource(w: World, idx: seq<nat>, ticks: seq<Tick>) {
    |idx| == |ticks| && AllWellFormed(ticks) && forall k :: 0 <= k < |idx| ==> idx[k] < |w.src|
  }

  function LoopActs(w: World, idx: seq<nat>, ticks: seq<Tick>, n: nat): seq<Action>
    requires InSource(w, idx, ticks) && n <= |idx|
  {
    if n == 0 then [] else LoopActs(w, idx, ticks, n - 1) + EventActs(w, idx[n - 1], ticks[n - 1])
  }

  function DlqPositions(w: World, idx: seq<nat>, ticks: seq<Tick>, n: nat): set<int>
    requires InSource(w, idx, ticks) && n <= |idx|
  {
    if n == 0 then {} else DlqPositions(w, idx, ticks, n - 1) + DlqAt(w, idx[n - 1])
  }

  /** The broker answers only what was sent, up to the n-th event. */
  ghost predicate Lawful(w: World, s: Sys, idx: seq<nat>, ticks: seq<Tick>, n: nat)
    requires InSource(w, idx, ticks) && n <= |idx|
  {
    forall k :: 0 <= k < n ==> Legit(w, Exec(w, s, LoopActs(w, idx, ticks, k)), idx[k], ticks[k])
  }

  /** The cursor coverage counts from after the events: the stored one, or just below the first stamped event. */
  function StartOf(w: World, stored: Option<int>, idx: seq<nat>): Option<int>
    requires forall k :: 0 <= k < |idx| ==> idx[k] < |w.src|
  {
    if idx == [] then stored else
      var before, ts := StartOf(w, stored, idx[..|idx| - 1]), TimeUs(w.src[idx[|idx| - 1]].body);
      if before.None? && ts.Some? then Some(ts.value - 1) else before
  }

  function PlaceAfter(w: World, stored: Option<int>, p: nat, idx: seq<nat>): Place
    requires forall k :: 0 <= k < |idx| ==> idx[k] < |w.src|
  {
    Place(StartOf(w, stored, idx), Latest(w.src, stored, idx), if idx == [] then p else idx[|idx| - 1] + 1)
  }

  lemma MovedIs(w: World, stored: Option<int>, p: nat, idx: seq<nat>, n: nat)
    requires n < |idx| && forall k :: 0 <= k < |idx| ==> idx[k] < |w.src|
    ensures PlaceAfter(w, stored, p, idx[..n + 1]) == Moved(w, PlaceAfter(w, stored, p, idx[..n]), idx[n])
  {
    hide TimeUs;
    assert idx[..n + 1][..n] == idx[..n];
  }

  lemma NextInReach(w: World, stored: Option<int>, p: nat, idx: seq<nat>, n: nat)
    requires Followed(w.src, stored, idx) && n < |idx|
    ensures InReach(w, PlaceAfter(w, stored, p, idx[..n]), idx[n])
  {
    hide ServedFrom, Latest, StartOf;
    assert FollowsOn(w.src, stored, idx, n);
  }

  lemma NothingRun(w: World, s: Sys, saver: Saver)
    ensures Exec(w, s, []) == s && Replay(w.cadence, saver, []) == saver && Delivered([]) == {}
  {
  }

  lemma {:induction false} LoopRuns(w: World, s: Sys, saver: Saver, stored: Option<int>, p: nat, idx: seq<nat>,
                                    ticks: seq<Tick>, n: nat)
    requires InSource(w, idx, ticks) && n <= |idx| && Followed(w.src, stored, idx) && Lawful(w, s, idx, ticks, n)
    requires Mirrors(s, Idle, saver, {}, Place(stored, stored, p)) && s.quarantined == {}
    ensures var e := Exec(w, s, LoopActs(w, idx, ticks, n)); var ops := LoopOps(w.dt, Bodies(w, idx), ticks, n);
            && Mirrors(e, Idle, Replay(w.cadence, saver, ops), Delivered(ops), PlaceAfter(w, stored, p, idx[..n]))
            && e.quarantined == DlqPositions(w, idx, ticks, n)
  {
    hide Apply, Exec, Replay, Delivered, Legit, WellFormed, EventActs, EventOps, Mirrors, DlqAt, PlaceAfter, InReach,
         Followed, Moved;
    if n == 0 {
      NothingRun(w, s, saver);
      assert PlaceAfter(w, stored, p, idx[..0]) == Place(stored, stored, p) by {
        NoPlaceYet(w, stored, p);
      }
    } else {
      LoopRuns(w, s, saver, stored, p, idx, ticks, n - 1);
      var e := Exec(w, s, LoopActs(w, idx, ticks, n - 1));
      var ops := LoopOps(w.dt, Bodies(w, idx), ticks, n - 1);
      var more := EventOps(w.dt, w.src[idx[n - 1]].body, ticks[n - 1]);
      var at := PlaceAfter(w, stored, p, idx[..n - 1]);
      NextInReach(w, stored, p, idx, n - 1);
      MovedIs(w, stored, p, idx, n - 1);
      EventRuns(w, e, Replay(w.cadence, saver, ops), Delivered(ops), at, idx[n - 1], ticks[n - 1]);
      Unroll(w, s, LoopActs(w, idx, ticks, n - 1), EventActs(w, idx[n - 1], ticks[n - 1]));
      ReplayConcat(w.cadence, saver, ops, more);
      DeliveredConcat(ops, more);
    }
  }

  lemma NoPlaceYet(w: World, stored: Option<int>, p: nat)
    ensures PlaceAfter(w, stored, p, []) == Place(stored, stored, p)
  {
  }

  // ----- The whole process -----

  /** An event whose message found the queue full to the end. */
  lemma CutRuns(w: World, s: Sys, saver: Saver, delivered: set<int>, at: Place, i: nat, t: Tick)
    requires i < |w.src| && WellFormed(t) && Mirrors(s, Idle, saver, delivered, at)
    requires InReach(w, at, i) && Legit(w, s, i, t) && !RouteAt(w, i).Skipped?
    ensures var e := Exec(w, s, ToSend(w, i, t) + [QueueFull]); var ops := SendOps(w.dt, w.src[i].body, t);
            && Mirrors(e, Draining, Replay(w.cadence, saver, ops), delivered + Delivered(ops), Moved(w, at, i))
            && e.quarantined == s.quarantined
  {
    hide RouteOf, Legit, WellFormed, ToSend, SendOps, Delivered, InReach, Moved;
    SendRuns(w, s, saver, delivered, at, i, t);
    OneAct(w, s, ToSend(w, i, t), QueueFull);
  }

  function DrainActs(flushed: seq<Delivery>): seq<Action> {
    [Stop] + Callbacks(flushed) + [Finish]
  }

  /** Flushing and the final save. */
  lemma DrainRuns(w: World, s: Sys, phase: Phase, saver: Saver, delivered: set<int>, at: Place, flushed: seq<Delivery>)
    requires Mirrors(s, phase, saver, delivered, at) && (phase.Idle? || phase.Draining?)
    requires Deliverable(s.proc.value.inflight, flushed)
    ensures var e := Exec(w, s, DrainActs(flushed)); var end := Replay(w.cadence, saver, Acks(flushed));
            && e.proc.None? && e.store == WithFinalSave(end).row && e.base == (if e.store.Some? then at.start else None)
            && e.delivered == delivered + Delivered(Acks(flushed)) && e.quarantined == s.quarantined
  {
    hide Callbacks, Acks, Deliverable, Delivered;
    var stopped := Exec(w, s, [Stop]);
    assert [Stop][..0] == [];
    assert Exec(w, s, []) == s;
    CallbacksRun(w, stopped, Draining, saver, delivered, at, flushed);
    Unroll(w, s, [Stop], Callbacks(flushed));
    OneAct(w, s, [Stop] + Callbacks(flushed), Finish);
    hide Replay, Exec;
  }

  function Begun(n: nat, outcome: Outcome): nat {
    if outcome.Raised? then n + 1 else n
  }

  /** The loop's actions, with the cut-short last event if there is one. */
  function BodyActs(w: World, idx: seq<nat>, ticks: seq<Tick>, n: nat, outcome: Outcome): seq<Action>
    requires InSource(w, idx, ticks) && Begun(n, outcome) <= |idx|
  {
    LoopActs(w, idx, ticks, n) + if outcome.Raised? then ToSend(w, idx[n], ticks[n]) + [QueueFull] else []
  }

  function BodyOps(w: World, idx: seq<nat>, ticks: seq<Tick>, n: nat, outcome: Outcome): seq<Op>
    requires InSource(w, idx, ticks) && Begun(n, outcome) <= |idx|
  {
    LoopOps(w.dt, Bodies(w, idx), ticks, n)
    + if outcome.Raised? then SendOps(w.dt, w.src[idx[n]].body, ticks[n]) else []
  }

  lemma RaisedIsNotSkipped(w: World, idx: seq<nat>, ticks: seq<Tick>, n: nat, outcome: Outcome)
    requires InSource(w, idx, ticks) && EndsAt(w.dt, Bodies(w, idx), ticks, n, outcome)
    ensures Begun(n, outcome) <= |idx|
    ensures outcome.Raised? ==> !RouteAt(w, idx[n]).Skipped?
  {
    hide RouteOf, WellFormed;
  }

  lemma BodyRuns(w: World, s: Sys, saver: Saver, stored: Option<int>, p: nat, idx: seq<nat>, ticks: seq<Tick>, n: nat,
                 outcome: Outcome)
    requires InSource(w, idx, ticks) && EndsAt(w.dt, Bodies(w, idx), ticks, n, outcome)
    requires Begun(n, outcome) <= |idx| && Lawful(w, s, idx, ticks, Begun(n, outcome)) && Followed(w.src, stored, idx)
    requires Mirrors(s, Idle, saver, {}, Place(stored, stored, p)) && s.quarantined == {}
    ensures var e := Exec(w, s, BodyActs(w, idx, ticks, n, outcome)); var ops := BodyOps(w, idx, ticks, n, outcome);
            && Mirrors(e, if outcome.Raised? then Draining else Idle, Replay(w.cadence, saver, ops),
                       Delivered(ops), PlaceAfter(w, stored, p, idx[..Begun(n, outcome)]))
            && e.quarantined == DlqPositions(w, idx, ticks, n)
  {
    hide RouteOf, EndsAt, Legit, WellFormed, ToSend, SendOps, LoopOps, LoopActs, Mirrors, Exec, Delivered, Replay,
         DlqPositions, PlaceAfter, InReach, Followed, Moved;
    LoopRuns(w, s, saver, stored, p, idx, ticks, n);
    var acts, ops := LoopActs(w, idx, ticks, n), LoopOps(w.dt, Bodies(w, idx), ticks, n);
    if outcome.Raised? {
      RaisedIsNotSkipped(w, idx, ticks, n, outcome);
      var more := SendOps(w.dt, w.src[idx[n]].body, ticks[n]);
      NextInReach(w, stored, p, idx, n);
      MovedIs(w, stored, p, idx, n);
      CutRuns(w, Exec(w, s, acts), Replay(w.cadence, saver, ops), Delivered(ops), PlaceAfter(w, stored, p, idx[..n]),
              idx[n], ticks[n]);
      Unroll(w, s, acts, ToSend(w, idx[n], ticks[n]) + [QueueFull]);
      ReplayConcat(w.cadence, saver, ops, more);
      DeliveredConcat(ops, more);
    } else {
      assert acts + [] == acts && ops + [] == ops;
    }
  }

  /** Before the process: nothing but what is stored, if anything is. */
  function Before(stored: Option<int>): Sys {
    if stored.Some? then Resumable(stored.value) else NOTHING_STORED
  }

  /** The process just started at source index p. */
  ghost function Started(w: World, stored: Option<int>, p: nat, now: real): Sys {
    Apply(w, Before(stored), Start(p, now))
  }

  function Blank(stored: Option<int>, now: real): Saver {
    Saver(FRESH.(lastSave := now), stored)
  }

  /** The row a process leaves. */
  ghost function EndRow(w: World, stored: Option<int>, now: real, ops: seq<Op>): Option<int> {
    WithFinalSave(Replay(w.cadence, Blank(stored, now), ops)).row
  }

  /** With registrations in order that row is the watermark in closed form, or the row found if there is none. */
  lemma EndRowIsWatermark(w: World, stored: Option<int>, now: real, ops: seq<Op>)
    requires InOrder(ops)
    ensures var best := Watermark(Registered(ops), Acked(ops));
            EndRow(w, stored, now, ops) == if best.Some? then best else stored
  {
    hide Replay, Watermark, WithFinalSave;
    FinalRowIsWatermark(w.cadence, stored, now, ops);
  }

  function WholeActs(w: World, p: nat, now: real, idx: seq<nat>, ticks: seq<Tick>, n: nat, outcome: Outcome,
                     flushed: seq<Delivery>): seq<Action>
    requires InSource(w, idx, ticks) && Begun(n, outcome) <= |idx|
  {
    [Start(p, now)] + BodyActs(w, idx, ticks, n, outcome) + DrainActs(flushed)
  }

  function WholeOps(w: World, idx: seq<nat>, ticks: seq<Tick>, n: nat, outcome: Outcome,
                    flushed: seq<Delivery>): seq<Op>
    requires InSource(w, idx, ticks) && Begun(n, outcome) <= |idx|
  {
    BodyOps(w, idx, ticks, n, outcome) + Acks(flushed)
  }

  /** Whichever way the loop ends, the broker answered only what was sent. */
  ghost predicate LawfulRun(w: World, s: Sys, idx: seq<nat>, ticks: seq<Tick>, flushed: seq<Delivery>)
    requires InSource(w, idx, ticks)
  {
    forall n, outcome :: EndsAt(w.dt, Bodies(w, idx), ticks, n, outcome) && Begun(n, outcome) <= |idx| ==>
      && Lawful(w, s, idx, ticks, Begun(n, outcome))
      && var e := Exec(w, s, BodyActs(w, idx, ticks, n, outcome));
         e.proc.Some? && Deliverable(e.proc.value.inflight, flushed)
  }

  lemma StartRuns(w: World, stored: Option<int>, p: nat, now: real)
    requires ServedFrom(w.src, stored, p)
    ensures Mirrors(Started(w, stored, p, now), Idle, Blank(stored, now), {}, Place(stored, stored, p))
    ensures Started(w, stored, p, now).quarantined == {}
    ensures Exec(w, Before(stored), [Start(p, now)]) == Started(w, stored, p, now)
  {
    assert [Start(p, now)][..0] == [];
    assert Exec(w, Before(stored), []) == Before(stored);
  }

  /** Refinement: a whole process, from loading the cursor, if there is one, to the final save, is a run of the
      machine with the same stored row, the same successful deliveries and the same dead letters. */
  lemma ProcessIsMachineRun(w: World, stored: Option<int>, p: nat, now: real, idx: seq<nat>, ticks: seq<Tick>, n: nat,
                            outcome: Outcome, flushed: seq<Delivery>)
    requires ServedFrom(w.src, stored, p) && InSource(w, idx, ticks) && Followed(w.src, stored, idx)
    requires LawfulRun(w, Started(w, stored, p, now), idx, ticks, flushed)
    requires EndsAt(w.dt, Bodies(w, idx), ticks, n, outcome) && Begun(n, outcome) <= |idx|
    ensures var e := Exec(w, Before(stored), WholeActs(w, p, now, idx, ticks, n, outcome, flushed));
            var ops := WholeOps(w, idx, ticks, n, outcome, flushed);
            && e.store == EndRow(w, stored, now, ops)
            && e.base == (if e.store.Some? then StartOf(w, stored, idx[..Begun(n, outcome)]) else None)
            && e.delivered == Delivered(ops) && e.quarantined == DlqPositions(w, idx, ticks, n) && e.proc.None?
  {
    hide Apply, ServedFrom, RouteOf, EndsAt, WellFormed, BodyActs, BodyOps, DrainActs, Mirrors, Exec, Delivered, Replay,
         DlqPositions, WithFinalSave, Lawful, Deliverable, Followed, StartOf, Latest;
    var s := Started(w, stored, p, now);
    var acts, ops := BodyActs(w, idx, ticks, n, outcome), BodyOps(w, idx, ticks, n, outcome);
    StartRuns(w, stored, p, now);
    BodyRuns(w, s, Blank(stored, now), stored, p, idx, ticks, n, outcome);
    DrainRuns(w, Exec(w, s, acts), if outcome.Raised? then Draining else Idle,
              Replay(w.cadence, Blank(stored, now), ops), Delivered(ops),
              PlaceAfter(w, stored, p, idx[..Begun(n, outcome)]), flushed);
    Unroll(w, Before(stored), [Start(p, now)], acts);
    Unroll(w, Before(stored), [Start(p, now)] + acts, DrainActs(flushed));
    ReplayConcat(w.cadence, Blank(stored, now), ops, Acks(flushed));
    DeliveredConcat(ops, Acks(flushed));
  }

  lemma {:induction false} DeadLetterSent(w: World, idx: seq<nat>, ticks: seq<Tick>, n: nat, i: nat)
    requires WellOrdered(w.src) && InSource(w, idx, ticks) && n <= |idx| && i < |w.src|
    requires w.src[i].pos in DlqPositions(w, idx, ticks, n)
    ensures Envelope(w.src[i].body, CollectionOf(w.src[i].body)) in Outbox(w.dt, Bodies(w, idx), n)
  {
    hide RouteOf, WellFormed;
    if w.src[i].pos in DlqAt(w, idx[n - 1]) {
      assert idx[n - 1] == i;
      var ms := Messages(w.dt, w.src[i].body);
      assert ms[0] in ms;
    } else {
      DeadLetterSent(w, idx, ticks, n - 1, i);
    }
  }

  /** What one process leaves behind: from the base up to the row it stored, what it delivered and queued
      loses no event. */
  ghost predicate LosesNothing(w: World, base: Option<int>, row: Option<int>, delivered: set<int>,
                               queue: seq<Message>)
  {
    row.Some? ==>
      && base.Some? && base.value <= row.value
      && forall i :: 0 <= i < |w.src| && base.value < w.src[i].pos <= row.value ==>
           && (RouteAt(w, i).Produced? ==> w.src[i].pos in delivered)
           && (RouteAt(w, i).DeadLettered? ==> Envelope(w.src[i].body, CollectionOf(w.src[i].body)) in queue)
  }

  /** A process that found a row leaves one, and the row left loses nothing of what the process was given. */
  ghost predicate RowCovers(w: World, stored: Option<int>, now: real, idx: seq<nat>, ticks: seq<Tick>, n: nat,
                            outcome: Outcome, flushed: seq<Delivery>)
    requires InSource(w, idx, ticks) && Begun(n, outcome) <= |idx|
  {
    var ops := WholeOps(w, idx, ticks, n, outcome, flushed);
    var row := EndRow(w, stored, now, ops);
    && (stored.Some? ==> row.Some?)
    && LosesNothing(w, StartOf(w, stored, idx[..Begun(n, outcome)]), row, Delivered(ops),
                    Outbox(w.dt, Bodies(w, idx), n))
  }

  lemma MachineCovers(w: World, stored: Option<int>, run: seq<Action>)
    requires WellOrdered(w.src)
    ensures var e := Exec(w, Before(stored), run);
            && (stored.Some? ==> e.store.Some?)
            && (e.store.Some? ==> e.base.Some? && e.base.value <= e.store.value
                                  && Covered(w, e.base.value, e.store.value, e))
  {
    hide Exec, ProcInv, FirstProc, StampedAbove, Covered;
    if stored.Some? {
      RunKeeps(w, stored.value, run);
    } else {
      RunSafe(w, run);
    }
  }

  /** So the row a process leaves loses nothing from the stored cursor on, or, on a fresh stream, from the first
      stamped event it was given. */
  lemma ProcessLosesNothing(w: World, stored: Option<int>, p: nat, now: real, idx: seq<nat>, ticks: seq<Tick>, n: nat,
                            outcome: Outcome, flushed: seq<Delivery>)
    requires InSource(w, idx, ticks) && Begun(n, outcome) <= |idx| && EndsAt(w.dt, Bodies(w, idx), ticks, n, outcome)
    requires WellOrdered(w.src) && ServedFrom(w.src, stored, p) && Followed(w.src, stored, idx)
    requires LawfulRun(w, Started(w, stored, p, now), idx, ticks, flushed)
    ensures RowCovers(w, stored, now, idx, ticks, n, outcome, flushed)
  {
    hide ServedFrom, RouteOf, WellFormed, EndsAt, LawfulRun, WholeActs, WholeOps, Exec, Delivered, Replay, StartOf,
         WithFinalSave, DlqPositions, Followed, Outbox;
    ProcessIsMachineRun(w, stored, p, now, idx, ticks, n, outcome, flushed);
    var run := WholeActs(w, p, now, idx, ticks, n, outcome, flushed);
    MachineCovers(w, stored, run);
    var e := Exec(w, Before(stored), run);
    forall i | 0 <= i < |w.src| && w.src[i].pos in e.quarantined
      ensures Envelope(w.src[i].body, CollectionOf(w.src[i].body)) in Outbox(w.dt, Bodies(w, idx), n)
    {
      DeadLetterSent(w, idx, ticks, n, i);
    }
  }

  /** The books of a finished process, in terms of all its checkpointer operations. */
  lemma BooksAre(w: World, start: Ledger, idx: seq<nat>, ticks: seq<Tick>, n: nat, outcome: Outcome,
                 flushed: seq<Delivery>)
    requires InSource(w, idx, ticks) && Begun(n, outcome) <= |idx| && start.queue == []
    ensures var done := Entries(w.cadence, w.dt, start, Bodies(w, idx), ticks, n);
            var left := if outcome.Raised? then CutShort(w.cadence, w.dt, done, Bodies(w, idx)[n], ticks[n]) else done;
            && left.queue == Outbox(w.dt, Bodies(w, idx), n)
            && Replay(w.cadence, left.saver, Acks(flushed))
               == Replay(w.cadence, start.saver, WholeOps(w, idx, ticks, n, outcome, flushed))
  {
    hide Entries, LoopOps, SendOps, Outbox, Counted, Quarantined, WellFormed, Replay, Acks;
    EntriesAre(w.cadence, w.dt, start, Bodies(w, idx), ticks, n);
    var loop := LoopOps(w.dt, Bodies(w, idx), ticks, n);
    var ops := BodyOps(w, idx, ticks, n, outcome);
    assert [] + Outbox(w.dt, Bodies(w, idx), n) == Outbox(w.dt, Bodies(w, idx), n);
    if outcome.Raised? {
      ReplayConcat(w.cadence, start.saver, loop, SendOps(w.dt, w.src[idx[n]].body, ticks[n]));
    } else {
      assert loop + [] == loop;
    }
    ReplayConcat(w.cadence, start.saver, ops, Acks(flushed));
  }

  /** The queue holds, in stream order, the own record or dead letter of each of the first n events that has one. */
  ghost predicate SentInOrder(w: World, idx: seq<nat>, n: nat, queue: seq<Message>)
    requires n <= |idx| && forall k :: 0 <= k < |idx| ==> idx[k] < |w.src|
  {
    exists o: seq<nat> ::
      && |o| == |queue|
      && (forall j :: 0 <= j < |o| ==> o[j] < n && Says(w.dt, w.src[idx[o[j]]].body, queue[j]))
      && (forall i, j :: 0 <= i < j < |o| ==> o[i] < o[j])
      && forall k :: 0 <= k < n ==> (k in o <==> Sends(w.dt, w.src[idx[k]].body))
  }

  lemma AllSentInOrder(w: World, idx: seq<nat>, n: nat)
    requires n <= |idx| && forall k :: 0 <= k < |idx| ==> idx[k] < |w.src|
    ensures SentInOrder(w, idx, n, Outbox(w.dt, Bodies(w, idx), n))
  {
    hide Says, Sends, Outbox, Origins;
    OutboxSays(w.dt, Bodies(w, idx), n);
    var o := Origins(w.dt, Bodies(w, idx), n);
    assert forall k :: 0 <= k < |idx| ==> Bodies(w, idx)[k] == w.src[idx[k]].body;
  }

  /** Loads the cursor, follows the stream across any series of connections, consumes until it ends, stop is set
      or the queue stays full, drains and saves. The row it leaves loses nothing. */
  method RunService(w: World, store: CursorStore, backoff: Backoff, sessions: seq<Session>, ticks: seq<Tick>,
                    flushed: seq<Delivery>, now: real, ghost p: nat)
      returns (producer: IngestProducer, metrics: Metrics, n: nat, outcome: Outcome, ghost idx: seq<nat>)
    requires WellOrdered(w.src) && ServedFrom(w.src, store.row, p)
    requires InSource(w, Yields(w.src, store.row, sessions), ticks)
    requires LawfulRun(w, Started(w, store.row, p, now), Yields(w.src, store.row, sessions), ticks, flushed)
    modifies store
    ensures fresh(producer) && fresh(metrics) && idx == Yields(w.src, old(store.row), sessions)
    ensures Begun(n, outcome) <= |idx| && EndsAt(w.dt, Bodies(w, idx), ticks, n, outcome)
    ensures producer.queue == Outbox(w.dt, Bodies(w, idx), n)
    ensures old(store.row).Some? ==> store.row.Some?
    ensures LosesNothing(w, StartOf(w, old(store.row), idx[..Begun(n, outcome)]), store.row,
                         Delivered(WholeOps(w, idx, ticks, n, outcome, flushed)), producer.queue)
    ensures var ops := WholeOps(w, idx, ticks, n, outcome, flushed);
            var best := Watermark(Registered(ops), Acked(ops));
            InOrder(ops) ==> store.row == if best.Some? then best else old(store.row)
    ensures SentInOrder(w, idx, n, producer.queue)
  {
    hide Watermark, Registered, Acked, InOrder, SentInOrder;
    hide WellOrdered, ServedFrom, LawfulRun, EndsAt, LosesNothing, Entries, CutShort, WholeOps, Outbox, Delivered,
         Replay, WithFinalSave, Acks, WellFormed, Yields, Followed, Gapless, StartOf;
    ghost var stored := store.row;
    var client := new JetstreamClient(backoff);
    var yielded, slept := client.Events(w.src, store.row, sessions);
    idx := yielded;
    YieldsFollowed(w.src, stored, sessions);
    var ck := new CursorCheckpointer(store, w.cadence, now);
    producer := new IngestProducer();
    metrics := new Metrics();
    ghost var start := Books(ck, producer, metrics);
    assert start.saver == Blank(stored, now);
    n, outcome := Run(w.dt, Bodies(w, yielded), ticks, flushed, ck, producer, metrics);
    RaisedIsNotSkipped(w, idx, ticks, n, outcome);
    BooksAre(w, start, idx, ticks, n, outcome, flushed);
    ProcessLosesNothing(w, stored, p, now, idx, ticks, n, outcome, flushed);
    if InOrder(WholeOps(w, idx, ticks, n, outcome, flushed)) {
      EndRowIsWatermark(w, stored, now, WholeOps(w, idx, ticks, n, outcome, flushed));
    }
    AllSentInOrder(w, idx, n);
  }
}
