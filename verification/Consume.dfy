// The consume loop as it runs: routing each event, producing under back-pressure, servicing delivery
// callbacks and saving, with the environment's choices given tick by tick.
module Consume {
  import opened Basics
  import opened Parse
  import opened Checkpointer

  /** One delivery callback: did the broker accept the message, and which cursor it carried. */
  datatype Delivery = Delivery(ok: bool, cursor: int)

  /** What the environment does while one event is handled: whether stop is set when it arrives, the
      clock, which of the six possible enqueue attempts find the queue full, the callbacks run by the
      poll after each of the first five, and those run by the loop's own poll. */
  datatype Tick = Tick(stop: bool, now: real, full: seq<bool>, drains: seq<seq<Delivery>>, polled: seq<Delivery>)

  const RETRIES: nat := 5

  predicate WellFormed(t: Tick) {
    |t.full| == RETRIES + 1 && |t.drains| == RETRIES
  }

  predicate AllWellFormed(ticks: seq<Tick>) {
    forall k :: 0 <= k < |ticks| ==> WellFormed(ticks[k])
  }

  datatype Message =
    | Record(model: Model, cursor: int)
    | Envelope(raw: Object, intended: Json)

  function Acks(ds: seq<Delivery>): seq<Op> {
    seq(|ds|, i requires 0 <= i < |ds| => Ack(ds[i].ok, ds[i].cursor))
  }

  function Flatten<T>(xss: seq<seq<T>>): seq<T> {
    if xss == [] then [] else Flatten(xss[..|xss| - 1]) + xss[|xss| - 1]
  }

  /** The number of leading full attempts. */
  function Rejections(full: seq<bool>): (n: nat)
    ensures n <= |full|
    ensures forall k :: 0 <= k < n ==> full[k]
    ensures n < |full| ==> !full[n]
  {
    if full == [] || !full[0] then 0 else 1 + Rejections(full[1..])
  }

  predicate Accepted(t: Tick) {
    Rejections(t.full) <= RETRIES
  }

  function Polls(t: Tick): (n: nat)
    ensures n <= RETRIES
  {
    if Rejections(t.full) < RETRIES then Rejections(t.full) else RETRIES
  }

  /** Read off the attempts alone: m of the first five find the queue full, in a row from the start, and each of
      them is followed by a poll. */
  predicate FullAtFirst(t: Tick, m: nat) {
    && |t.full| == RETRIES + 1 && m <= RETRIES
    && (forall k :: 0 <= k < m ==> t.full[k]) && (m < RETRIES ==> !t.full[m])
  }

  lemma PollsFollow(t: Tick, m: nat)
    requires FullAtFirst(t, m)
    ensures Polls(t) == m
  {
    var r := Rejections(t.full);
    assert r <= RETRIES ==> !t.full[r];
    assert m <= r;
  }

  /** The callbacks run inside one enqueue call. */
  function Drained(t: Tick): seq<Op>
    requires WellFormed(t)
  {
    Acks(Flatten(t.drains[..Polls(t)]))
  }

  function Messages(dt: Json -> bool, event: Object): (ms: seq<Message>)
  {
    match RouteOf(dt, event)
    case Skipped => []
    case DeadLettered(_) => [Envelope(event, CollectionOf(event))]
    case Produced(c) => [Record(ToModel(dt, event).value, c)]
  }

  /** Everything sent for the first n events, in stream order. */
  function Outbox(dt: Json -> bool, events: seq<Object>, n: nat): seq<Message>
    requires n <= |events|
  {
    if n == 0 then [] else Outbox(dt, events, n - 1) + Messages(dt, events[n - 1])
  }

  /** The checkpointer operations up to and including the attempt to send. */
  function SendOps(dt: Json -> bool, event: Object, t: Tick): seq<Op>
    requires WellFormed(t)
  {
    match RouteOf(dt, event)
    case Skipped => []
    case DeadLettered(_) => Drained(t)
    case Produced(c) => [Reg(c)] + Drained(t)
  }

  function EventOps(dt: Json -> bool, event: Object, t: Tick): seq<Op>
    requires WellFormed(t)
  {
    SendOps(dt, event, t) + Acks(t.polled) + [Save(t.now)]
  }

  function LoopOps(dt: Json -> bool, events: seq<Object>, ticks: seq<Tick>, n: nat): seq<Op>
    requires n <= |events| == |ticks| && AllWellFormed(ticks)
  {
    if n == 0 then [] else LoopOps(dt, events, ticks, n - 1) + EventOps(dt, events[n - 1], ticks[n - 1])
  }

  /** The labels the first n events are counted under, as produced and as dead-lettered. */
  function Counted(dt: Json -> bool, events: seq<Object>, n: nat): multiset<Json>
    requires n <= |events|
  {
    if n == 0 then multiset{} else Counted(dt, events, n - 1) + SentLabel(dt, events[n - 1])
  }

  function SentLabel(dt: Json -> bool, event: Object): multiset<Json> {
    if RouteOf(dt, event).Produced? then multiset{CollectionOf(event)} else multiset{}
  }

  function Quarantined(dt: Json -> bool, events: seq<Object>, n: nat): multiset<Json>
    requires n <= |events|
  {
    if n == 0 then multiset{} else Quarantined(dt, events, n - 1) + QuarantineLabel(dt, events[n - 1])
  }

  function QuarantineLabel(dt: Json -> bool, event: Object): multiset<Json> {
    match RouteOf(dt, event)
    case DeadLettered(reason) => multiset{reason}
    case _ => multiset{}
  }

  /** Counters by label; a Counter is a multiset. */
  class Metrics {
    var events: multiset<Json>
    var dlq: multiset<Json>

    constructor ()
      ensures events == multiset{} && dlq == multiset{}
    {
      events, dlq := multiset{}, multiset{};
    }

    method RecordEvent(collection: Json)
      modifies this
      ensures events == old(events) + multiset{collection} && dlq == old(dlq)
    {
      events := events + multiset{collection};
    }

    method RecordDlq(reason: Json)
      modifies this
      ensures dlq == old(dlq) + multiset{reason} && events == old(events)
    {
      dlq := dlq + multiset{reason};
    }
  }

  /** Runs delivery callbacks in the order given. */
  method Serve(ck: CursorCheckpointer, ds: seq<Delivery>)
    modifies ck
    ensures ck.Both() == Replay(ck.cadence, old(ck.Both()), Acks(ds))
  {
    for i := 0 to |ds|
      invariant ck.store.row == old(ck.store.row)
      invariant ck.Both() == Replay(ck.cadence, old(ck.Both()), Acks(ds[..i]))
    {
      assert Acks(ds[..i + 1]) == Acks(ds[..i]) + [Ack(ds[i].ok, ds[i].cursor)];
      One(ck.cadence, old(ck.Both()), Acks(ds[..i]), Ack(ds[i].ok, ds[i].cursor));
      ck.OnAck(ds[i].ok, ds[i].cursor);
    }
    assert ds[..|ds|] == ds;
  }

  lemma One(cfg: Cadence, s: Saver, ops: seq<Op>, op: Op)
    ensures Replay(cfg, s, ops + [op]) == Do(cfg, Replay(cfg, s, ops), op)
  {
    assert (ops + [op])[..|ops|] == ops;
  }

  class IngestProducer {
    var queue: seq<Message>

    constructor ()
      ensures queue == []
    {
      queue := [];
    }

    /** One librdkafka produce call: false is a BufferError. */
    method TryProduce(m: Message, full: bool) returns (ok: bool)
      modifies this
      ensures ok == !full
      ensures queue == old(queue) + (if ok then [m] else [])
    {
      ok := !full;
      if ok {
        queue := queue + [m];
      }
    }

    /** Retry with a poll after each failure, five times, then one last attempt. */
    method Enqueue(m: Message, t: Tick, ck: CursorCheckpointer)
        returns (ok: bool, attempts: nat, polls: nat)
      requires WellFormed(t)
      modifies this, ck
      ensures ok <==> false in t.full
      ensures queue == old(queue) + (if ok then [m] else [])
      ensures attempts == if ok then Rejections(t.full) + 1 else RETRIES + 1
      ensures polls == Polls(t)
      ensures ck.Both() == Replay(ck.cadence, old(ck.Both()), Drained(t))
      ensures forall m: nat :: FullAtFirst(t, m) ==>
                polls == m && ck.Both() == Replay(ck.cadence, old(ck.Both()), Acks(Flatten(t.drains[..m])))
    {
      hide Replay, Acks, Flatten;
      forall m: nat | FullAtFirst(t, m)
        ensures Polls(t) == m
      {
        PollsFollow(t, m);
      }
      attempts, polls := 0, 0;
      NoDrains(ck.cadence, ck.Both(), t.drains);
      for attempt := 0 to RETRIES
        invariant attempts == polls == attempt
        invariant forall k :: 0 <= k < attempt ==> t.full[k]
        invariant queue == old(queue) && ck.store.row == old(ck.store.row)
        invariant ck.Both() == Replay(ck.cadence, old(ck.Both()), Acks(Flatten(t.drains[..attempt])))
      {
        attempts := attempts + 1;
        ok := TryProduce(m, t.full[attempt]);
        if ok {
          assert Rejections(t.full) == attempt;
          return;
        }
        polls := polls + 1;
        Serve(ck, t.drains[attempt]);
        DrainMore(ck.cadence, old(ck.Both()), t.drains, attempt);
      }
      attempts := attempts + 1;
      ok := TryProduce(m, t.full[RETRIES]);
    }
  }

  lemma NoDrains(cfg: Cadence, s: Saver, drains: seq<seq<Delivery>>)
    ensures Replay(cfg, s, Acks(Flatten(drains[..0]))) == s
  {
  }

  lemma DrainMore(cfg: Cadence, s: Saver, drains: seq<seq<Delivery>>, k: nat)
    requires k < |drains|
    ensures Replay(cfg, s, Acks(Flatten(drains[..k + 1])))
         == Replay(cfg, Replay(cfg, s, Acks(Flatten(drains[..k]))), Acks(drains[k]))
  {
    assert drains[..k + 1][..k] == drains[..k];
    assert Acks(Flatten(drains[..k + 1])) == Acks(Flatten(drains[..k])) + Acks(drains[k]);
    ReplayConcat(cfg, s, Acks(Flatten(drains[..k])), Acks(drains[k]));
  }

  datatype Outcome = Exhausted | Stopped | Raised

  /** The event was handled to the end of its iteration. */
  predicate Passed(dt: Json -> bool, event: Object, t: Tick) {
    !t.stop && (RouteOf(dt, event).Skipped? || Accepted(t))
  }

  /** How the loop can have ended after n complete events. */
  predicate EndsAt(dt: Json -> bool, events: seq<Object>, ticks: seq<Tick>, n: nat, outcome: Outcome)
    requires |events| == |ticks|
  {
    && n <= |events|
    && (forall k :: 0 <= k < n ==> Passed(dt, events[k], ticks[k]))
    && match outcome {
         case Exhausted => n == |events|
         case Stopped => n < |events| && ticks[n].stop
         case Raised => n < |events| && !ticks[n].stop && !Passed(dt, events[n], ticks[n])
       }
  }

  /** What the loop changes: the messages queued, the two counters, and the checkpointer with its row. */
  datatype Ledger = Ledger(queue: seq<Message>, sent: multiset<Json>, dlq: multiset<Json>, saver: Saver)

  ghost function Books(ck: CursorCheckpointer, producer: IngestProducer, metrics: Metrics): Ledger
    reads ck, ck.store, producer, metrics
  {
    Ledger(producer.queue, metrics.events, metrics.dlq, ck.Both())
  }

  /** After one complete iteration. */
  ghost function Entry(cfg: Cadence, dt: Json -> bool, l: Ledger, event: Object, t: Tick): Ledger
    requires WellFormed(t)
  {
    Ledger(l.queue + Messages(dt, event),
           l.sent + SentLabel(dt, event),
           l.dlq + QuarantineLabel(dt, event),
           Replay(cfg, l.saver, EventOps(dt, event, t)))
  }

  /** After an iteration that BufferError cut short. */
  ghost function CutShort(cfg: Cadence, dt: Json -> bool, l: Ledger, event: Object, t: Tick): Ledger
    requires WellFormed(t)
  {
    l.(saver := Replay(cfg, l.saver, SendOps(dt, event, t)))
  }

  ghost function Entries(cfg: Cadence, dt: Json -> bool, l: Ledger, events: seq<Object>, ticks: seq<Tick>,
                         n: nat): Ledger
    requires n <= |events| == |ticks| && AllWellFormed(ticks)
  {
    if n == 0 then l
    else Entry(cfg, dt, Entries(cfg, dt, l, events, ticks, n - 1), events[n - 1], ticks[n - 1])
  }

  /** The ledger of a whole loop is the concatenation of what its events sent, counted and did. */
  lemma {:induction false} EntriesAre(cfg: Cadence, dt: Json -> bool, l: Ledger, events: seq<Object>,
                                      ticks: seq<Tick>, n: nat)
    requires n <= |events| == |ticks| && AllWellFormed(ticks)
    ensures Entries(cfg, dt, l, events, ticks, n) ==
              Ledger(l.queue + Outbox(dt, events, n), l.sent + Counted(dt, events, n),
                     l.dlq + Quarantined(dt, events, n),
                     Replay(cfg, l.saver, LoopOps(dt, events, ticks, n)))
  {
    hide RouteOf, Messages, EventOps, SentLabel, QuarantineLabel;
    if n == 0 {
      assert l.queue + [] == l.queue;
    } else {
      EntriesAre(cfg, dt, l, events, ticks, n - 1);
      var ops, more := LoopOps(dt, events, ticks, n - 1), EventOps(dt, events[n - 1], ticks[n - 1]);
      var out, ms := Outbox(dt, events, n - 1), Messages(dt, events[n - 1]);
      ReplayConcat(cfg, l.saver, ops, more);
      assert l.queue + out + ms == l.queue + (out + ms);
    }
  }

  method ConsumeLoop(dt: Json -> bool, events: seq<Object>, ticks: seq<Tick>,
                     ck: CursorCheckpointer, producer: IngestProducer, metrics: Metrics)
      returns (n: nat, outcome: Outcome)
    requires |events| == |ticks| && AllWellFormed(ticks)
    modifies ck, ck.store, producer, metrics
    ensures EndsAt(dt, events, ticks, n, outcome)
    ensures var done := Entries(ck.cadence, dt, old(Books(ck, producer, metrics)), events, ticks, n);
            Books(ck, producer, metrics) ==
              if outcome.Raised? then CutShort(ck.cadence, dt, done, events[n], ticks[n]) else done
  {
    n := 0;
    hide Passed, Entry, CutShort, Books, EndsAt, WellFormed;
    while n < |events|
      invariant n <= |events|
      invariant AllPassed(dt, events, ticks, n)
      invariant Books(ck, producer, metrics)
             == Entries(ck.cadence, dt, old(Books(ck, producer, metrics)), events, ticks, n)
    {
      if ticks[n].stop {
        Ends(dt, events, ticks, n, Stopped);
        return n, Stopped;
      }
      var ok := Iterate(dt, events[n], ticks[n], ck, producer, metrics);
      if !ok {
        Ends(dt, events, ticks, n, Raised);
        return n, Raised;
      }
      n := n + 1;
    }
    Ends(dt, events, ticks, n, Exhausted);
    outcome := Exhausted;
  }

  predicate AllPassed(dt: Json -> bool, events: seq<Object>, ticks: seq<Tick>, n: nat)
    requires n <= |events| == |ticks|
  {
    forall k :: 0 <= k < n ==> Passed(dt, events[k], ticks[k])
  }

  lemma Ends(dt: Json -> bool, events: seq<Object>, ticks: seq<Tick>, n: nat, outcome: Outcome)
    requires n <= |events| == |ticks| && AllPassed(dt, events, ticks, n)
    requires outcome.Exhausted? ==> n == |events|
    requires outcome.Stopped? ==> n < |events| && ticks[n].stop
    requires outcome.Raised? ==> n < |events| && !ticks[n].stop && !Passed(dt, events[n], ticks[n])
    ensures EndsAt(dt, events, ticks, n, outcome)
  {
  }

  /** One loop iteration; false means BufferError left the loop. */
  method Iterate(dt: Json -> bool, event: Object, tick: Tick,
                 ck: CursorCheckpointer, producer: IngestProducer, metrics: Metrics)
      returns (ok: bool)
    requires WellFormed(tick) && !tick.stop
    modifies ck, ck.store, producer, metrics
    ensures ok <==> Passed(dt, event, tick)
    ensures Books(ck, producer, metrics) ==
              if ok then Entry(ck.cadence, dt, old(Books(ck, producer, metrics)), event, tick)
              else CutShort(ck.cadence, dt, old(Books(ck, producer, metrics)), event, tick)
  {
    hide RouteOf, SendOps, Accepted, Messages, SentLabel, QuarantineLabel;
    ok := HandleEvent(dt, event, tick, ck, producer, metrics);
    if ok {
      Serve(ck, tick.polled);
      ck.MaybeSave(tick.now);
      AfterEvent(ck.cadence, old(ck.Both()), SendOps(dt, event, tick), tick);
    }
  }

  lemma AfterEvent(cfg: Cadence, start: Saver, sent: seq<Op>, t: Tick)
    ensures Replay(cfg, start, sent + Acks(t.polled) + [Save(t.now)])
         == WithSave(cfg, Replay(cfg, Replay(cfg, start, sent), Acks(t.polled)), t.now)
  {
    One(cfg, start, sent + Acks(t.polled), Save(t.now));
    ReplayConcat(cfg, start, sent, Acks(t.polled));
  }

  /** Routes one event; false means the queue stayed full and BufferError leaves the loop. */
  method HandleEvent(dt: Json -> bool, event: Object, tick: Tick,
                     ck: CursorCheckpointer, producer: IngestProducer, metrics: Metrics)
      returns (ok: bool)
    requires WellFormed(tick)
    modifies ck, producer, metrics
    ensures ok <==> RouteOf(dt, event).Skipped? || Accepted(tick)
    ensures producer.queue == old(producer.queue) + (if ok then Messages(dt, event) else [])
    ensures forall m :: m in producer.queue[|old(producer.queue)|..] ==> Says(dt, event, m)
    ensures metrics.events == old(metrics.events) + (if ok then SentLabel(dt, event) else multiset{})
    ensures metrics.dlq == old(metrics.dlq) + (if ok then QuarantineLabel(dt, event) else multiset{})
    ensures ck.Both() == Replay(ck.cadence, old(ck.Both()), SendOps(dt, event, tick))
  {
    hide Says;
    MessagesSay(dt, event);
    var model := ToModel(dt, event);
    var attempts, polls;
    if model.Raise? && model.exn.IsA(ValueErr) {
      return true;
    } else if model.Raise? {
      ok, attempts, polls := producer.Enqueue(Envelope(event, CollectionOf(event)), tick, ck);
      if ok {
        metrics.RecordDlq(CollectionOf(event));
      }
    } else {
      match TimeUs(event) {
        case None =>
          ok, attempts, polls := producer.Enqueue(Envelope(event, CollectionOf(event)), tick, ck);
          if ok {
            metrics.RecordDlq(Str("missing_time_us"));
          }
        case Some(cursor) =>
          ghost var start := ck.Both();
          ck.Register(cursor);
          One(ck.cadence, start, [], Reg(cursor));
          ReplayConcat(ck.cadence, start, [Reg(cursor)], Drained(tick));
          assert [] + [Reg(cursor)] == [Reg(cursor)];
          ok, attempts, polls := producer.Enqueue(Record(model.value, cursor), tick, ck);
          if ok {
            metrics.RecordEvent(CollectionOf(event));
          }
      }
    }
  }

  /** One process run: the loop, then the drain in its fixed order: flush, then the final save. */
  method Run(dt: Json -> bool, events: seq<Object>, ticks: seq<Tick>, flushed: seq<Delivery>,
             ck: CursorCheckpointer, producer: IngestProducer, metrics: Metrics)
      returns (n: nat, outcome: Outcome)
    requires |events| == |ticks| && AllWellFormed(ticks)
    modifies ck, ck.store, producer, metrics
    ensures EndsAt(dt, events, ticks, n, outcome)
    ensures var done := Entries(ck.cadence, dt, old(Books(ck, producer, metrics)), events, ticks, n);
            var left := if outcome.Raised? then CutShort(ck.cadence, dt, done, events[n], ticks[n]) else done;
            Books(ck, producer, metrics) ==
              left.(saver := WithFinalSave(Replay(ck.cadence, left.saver, Acks(flushed))))
  {
    n, outcome := ConsumeLoop(dt, events, ticks, ck, producer, metrics);
    Serve(ck, flushed);
    ck.FinalSave();
  }

  // ----- What the routing amounts to over a whole stream -----

  function Records(ms: seq<Message>): seq<int> {
    if ms == [] then [] else
      Records(ms[..|ms| - 1]) + (if ms[|ms| - 1].Record? then [ms[|ms| - 1].cursor] else [])
  }

  function SkippedCount(dt: Json -> bool, events: seq<Object>, n: nat): nat
    requires n <= |events|
  {
    if n == 0 then 0 else
      SkippedCount(dt, events, n - 1) + (if RouteOf(dt, events[n - 1]).Skipped? then 1 else 0)
  }

  lemma {:induction false} RecordsConcat(a: seq<Message>, b: seq<Message>)
    ensures Records(a + b) == Records(a) + Records(b)
  {
    if b == [] {
      assert a + b == a;
    } else {
      assert (a + b)[..|a + b| - 1] == a + b[..|b| - 1];
      RecordsConcat(a, b[..|b| - 1]);
    }
  }

  /** One event sends at most one message, and is counted once under what it sent. */
  lemma OneFate(dt: Json -> bool, event: Object)
    ensures var ms := Messages(dt, event);
            && |ms| == (if RouteOf(dt, event).Skipped? then 0 else 1)
            && |ms| == |SentLabel(dt, event)| + |QuarantineLabel(dt, event)|
            && Records(ms) == (match RouteOf(dt, event) case Produced(c) => [c] case _ => [])
            && |Records(ms)| == |SentLabel(dt, event)|
  {
  }

  /** Every event has exactly one fate, and the counters count the messages sent. */
  lemma {:induction false} EveryEventOnce(dt: Json -> bool, events: seq<Object>, n: nat)
    requires n <= |events|
    ensures |Outbox(dt, events, n)| + SkippedCount(dt, events, n) == n
    ensures |Records(Outbox(dt, events, n))| == |Counted(dt, events, n)|
    ensures |Outbox(dt, events, n)| == |Counted(dt, events, n)| + |Quarantined(dt, events, n)|
  {
    hide RouteOf, Messages, SentLabel, QuarantineLabel, Records;
    if n == 0 {
      NoRecords();
    } else {
      EveryEventOnce(dt, events, n - 1);
      OneFate(dt, events[n - 1]);
      RecordsConcat(Outbox(dt, events, n - 1), Messages(dt, events[n - 1]));
    }
  }

  // ----- What is sent, read off the events -----

  /** The event becomes a record: it is ingestable and stamped. */
  ghost predicate Becomes(dt: Json -> bool, event: Object) {
    Ingestable(dt, event) && exists c :: IsStamped(event, c)
  }

  /** The event becomes a dead letter counted under this label. */
  ghost predicate Fails(dt: Json -> bool, event: Object, tag: Json) {
    if Ingestable(dt, event) then (forall c :: !IsStamped(event, c)) && tag == Str("missing_time_us")
    else
      && CreateShape(event) && NamesCollection(event, tag)
      && ("did" !in event || (Known(Get(CommitOf(event), "collection")) && !Complete(event)))
  }

  /** The message is the event's: a record of its own model under its own stamp, or an envelope of the event
      itself, intended for the collection it names. */
  ghost predicate Says(dt: Json -> bool, event: Object, m: Message) {
    match m
    case Record(model, cursor) => Becomes(dt, event) && IsOwnModel(model, event) && IsStamped(event, cursor)
    case Envelope(raw, intended) =>
      raw == event && NamesCollection(event, intended) && exists tag :: Fails(dt, event, tag)
  }

  lemma RouteIs(dt: Json -> bool, event: Object)
    ensures RouteOf(dt, event).Produced? <==> Becomes(dt, event)
    ensures forall tag :: RouteOf(dt, event) == DeadLettered(tag) <==> Fails(dt, event, tag)
  {
    RoutingTable(dt, event);
    RouteCarries(dt, event);
    hide RouteOf, ToModel, Ingestable, Complete, Known, WellTyped, TimeUs;
    StampIff(event);
    forall tag | Fails(dt, event, tag)
      ensures RouteOf(dt, event) == DeadLettered(tag)
    {
    }
  }

  lemma StampIff(event: Object)
    ensures TimeUs(event).Some? <==> exists c :: IsStamped(event, c)
  {
    if TimeUs(event).Some? {
      assert IsStamped(event, TimeUs(event).value);
    }
  }

  lemma MessagesSay(dt: Json -> bool, event: Object)
    ensures forall m :: m in Messages(dt, event) ==> Says(dt, event, m)
    ensures |Messages(dt, event)| == if Becomes(dt, event) || exists tag :: Fails(dt, event, tag) then 1 else 0
  {
    RouteIs(dt, event);
    RouteCarries(dt, event);
    hide Ingestable, IsOwnModel, IsStamped, NamesCollection, Becomes, Fails, CollectionOf, TimeUs;
    if RouteOf(dt, event).Produced? {
      ModelFields(dt, event);
    }
    hide ToModel;
  }

  /** The events that send something, in stream order. */
  function Origins(dt: Json -> bool, events: seq<Object>, n: nat): seq<nat>
    requires n <= |events|
  {
    if n == 0 then [] else
      Origins(dt, events, n - 1) + (if RouteOf(dt, events[n - 1]).Skipped? then [] else [n - 1])
  }

  ghost predicate Sends(dt: Json -> bool, event: Object) {
    Becomes(dt, event) || exists tag :: Fails(dt, event, tag)
  }

  lemma OneOrigin(dt: Json -> bool, event: Object)
    ensures RouteOf(dt, event).Skipped? <==> !Sends(dt, event)
    ensures |Messages(dt, event)| == if RouteOf(dt, event).Skipped? then 0 else 1
    ensures forall m :: m in Messages(dt, event) ==> Says(dt, event, m)
  {
    hide Messages, Says, RouteOf;
    OneFate(dt, event);
    MessagesSay(dt, event);
  }

  /** Message by message, in stream order: what the loop sends is the own record or the own dead letter of an
      event, and every event that has one sends it. */
  lemma {:induction false} OutboxSays(dt: Json -> bool, events: seq<Object>, n: nat)
    requires n <= |events|
    ensures var o, out := Origins(dt, events, n), Outbox(dt, events, n);
            && |o| == |out|
            && (forall j :: 0 <= j < |o| ==> o[j] < n && Says(dt, events[o[j]], out[j]))
            && (forall i, j :: 0 <= i < j < |o| ==> o[i] < o[j])
            && (forall k :: 0 <= k < n ==> (k in o <==> Sends(dt, events[k])))
  {
    hide RouteOf, Messages, Says, Sends;
    if n > 0 {
      OutboxSays(dt, events, n - 1);
      OneOrigin(dt, events[n - 1]);
      var ms := Messages(dt, events[n - 1]);
      assert |ms| == 1 ==> ms[0] in ms;
    }
  }

  ghost predicate IsRecord(dt: Json -> bool, event: Object, collection: Json) {
    Becomes(dt, event) && NamesCollection(event, collection)
  }

  /** The places of the first n events that become records of a collection, or dead letters under a label. */
  ghost function RecordsOf(dt: Json -> bool, events: seq<Object>, n: nat, collection: Json): set<nat>
    requires n <= |events|
  {
    set k: nat | k < n && IsRecord(dt, events[k], collection)
  }

  ghost function FailuresOf(dt: Json -> bool, events: seq<Object>, n: nat, tag: Json): set<nat>
    requires n <= |events|
  {
    set k: nat | k < n && Fails(dt, events[k], tag)
  }

  lemma LabelsAre(dt: Json -> bool, event: Object, x: Json)
    ensures SentLabel(dt, event)[x] == if IsRecord(dt, event, x) then 1 else 0
    ensures QuarantineLabel(dt, event)[x] == if Fails(dt, event, x) then 1 else 0
  {
    RouteIs(dt, event);
    RouteCarries(dt, event);
    hide RouteOf, Becomes, Fails, Ingestable, TimeUs;
    OneCollection(event, CollectionOf(event), x);
    hide CollectionOf;
  }

  lemma OneCollection(event: Object, a: Json, b: Json)
    requires NamesCollection(event, a)
    ensures NamesCollection(event, b) <==> a == b
  {
  }

  lemma OneMoreRecord(dt: Json -> bool, events: seq<Object>, n: nat, x: Json)
    requires 0 < n <= |events|
    ensures |RecordsOf(dt, events, n, x)|
            == |RecordsOf(dt, events, n - 1, x)| + (if IsRecord(dt, events[n - 1], x) then 1 else 0)
  {
    hide IsRecord, Fails;
    var all, before := RecordsOf(dt, events, n, x), RecordsOf(dt, events, n - 1, x);
    assert n - 1 !in before;
    assert all == if IsRecord(dt, events[n - 1], x) then before + {n - 1} else before;
  }

  lemma OneMoreFailure(dt: Json -> bool, events: seq<Object>, n: nat, x: Json)
    requires 0 < n <= |events|
    ensures |FailuresOf(dt, events, n, x)|
            == |FailuresOf(dt, events, n - 1, x)| + (if Fails(dt, events[n - 1], x) then 1 else 0)
  {
    hide IsRecord, Fails;
    var all, before := FailuresOf(dt, events, n, x), FailuresOf(dt, events, n - 1, x);
    assert n - 1 !in before;
    assert all == if Fails(dt, events[n - 1], x) then before + {n - 1} else before;
  }

  /** Label by label, the counters are the numbers of events that become records of that collection, and dead
      letters under that label. */
  lemma {:induction false} CountersCount(dt: Json -> bool, events: seq<Object>, n: nat, x: Json)
    requires n <= |events|
    ensures Counted(dt, events, n)[x] == |RecordsOf(dt, events, n, x)|
    ensures Quarantined(dt, events, n)[x] == |FailuresOf(dt, events, n, x)|
  {
    hide RouteOf, SentLabel, QuarantineLabel, IsRecord, Fails;
    if n == 0 {
      assert RecordsOf(dt, events, 0, x) == {} && FailuresOf(dt, events, 0, x) == {};
    } else {
      hide RecordsOf, FailuresOf;
      CountersCount(dt, events, n - 1, x);
      LabelsAre(dt, events[n - 1], x);
      OneMoreRecord(dt, events, n, x);
      OneMoreFailure(dt, events, n, x);
    }
  }

  /** The cursors registered, in order. */
  function RegSeq(ops: seq<Op>): seq<int> {
    if ops == [] then [] else
      RegSeq(ops[..|ops| - 1]) + (if ops[|ops| - 1].Reg? then [ops[|ops| - 1].cursor] else [])
  }

  lemma {:induction false} RegSeqConcat(a: seq<Op>, b: seq<Op>)
    ensures RegSeq(a + b) == RegSeq(a) + RegSeq(b)
  {
    if b == [] {
      assert a + b == a;
    } else {
      assert (a + b)[..|a + b| - 1] == a + b[..|b| - 1];
      RegSeqConcat(a, b[..|b| - 1]);
    }
  }

  lemma {:induction false} NoRegs(ops: seq<Op>)
    requires forall k :: 0 <= k < |ops| ==> !ops[k].Reg?
    ensures RegSeq(ops) == []
  {
    if ops != [] {
      NoRegs(ops[..|ops| - 1]);
    }
  }

  lemma NoRecords()
    ensures Records([]) == []
  {
  }

  /** The cursors registered by the loop are the cursors of the records it sent, in the same order. */
  lemma {:induction false} RegisteredThenProduced(dt: Json -> bool, events: seq<Object>, ticks: seq<Tick>, n: nat)
    requires n <= |events| == |ticks| && AllWellFormed(ticks)
    ensures RegSeq(LoopOps(dt, events, ticks, n)) == Records(Outbox(dt, events, n))
  {
    hide RouteOf, Messages, EventOps, RegSeq, Records;
    if n == 0 {
      NoRegs([]);
      NoRecords();
    } else {
      RegisteredThenProduced(dt, events, ticks, n - 1);
      RegSeqConcat(LoopOps(dt, events, ticks, n - 1), EventOps(dt, events[n - 1], ticks[n - 1]));
      EventRegs(dt, events[n - 1], ticks[n - 1]);
      OneFate(dt, events[n - 1]);
      RecordsConcat(Outbox(dt, events, n - 1), Messages(dt, events[n - 1]));
    }
  }

  lemma SendRegs(dt: Json -> bool, event: Object, t: Tick)
    requires WellFormed(t)
    ensures RegSeq(SendOps(dt, event, t)) ==
              (match RouteOf(dt, event) case Produced(c) => [c] case _ => [])
  {
    hide RouteOf, Drained;
    DrainedAcks(t);
    NoRegs(Drained(t));
    match RouteOf(dt, event) {
      case Skipped =>
      case DeadLettered(_) =>
      case Produced(c) => RegSeqConcat([Reg(c)], Drained(t));
    }
  }

  lemma DrainedAcks(t: Tick)
    requires WellFormed(t)
    ensures forall k :: 0 <= k < |Drained(t)| ==> !Drained(t)[k].Reg?
  {
  }

  lemma EventRegs(dt: Json -> bool, event: Object, t: Tick)
    requires WellFormed(t)
    ensures RegSeq(EventOps(dt, event, t)) ==
              (match RouteOf(dt, event) case Produced(c) => [c] case _ => [])
  {
    hide RouteOf, SendOps, WellFormed;
    SendRegs(dt, event, t);
    var rest := Acks(t.polled) + [Save(t.now)];
    assert EventOps(dt, event, t) == SendOps(dt, event, t) + rest;
    NoRegs(rest);
    RegSeqConcat(SendOps(dt, event, t), rest);
  }

  function Elements(xs: seq<int>): set<int> {
    set x | x in xs
  }

  predicate Increasing(xs: seq<int>) {
    forall i, j :: 0 <= i < j < |xs| ==> xs[i] < xs[j]
  }

  lemma {:induction false} RegSeqOrder(ops: seq<Op>)
    ensures Registered(ops) == Elements(RegSeq(ops))
    ensures Increasing(RegSeq(ops)) ==> InOrder(ops)
  {
    if ops != [] {
      var before, op := ops[..|ops| - 1], ops[|ops| - 1];
      RegSeqOrder(before);
      var rs := RegSeq(before);
      assert rs + [] == rs;
      if op.Reg? && Increasing(rs + [op.cursor]) {
        assert forall i :: 0 <= i < |rs| ==> (rs + [op.cursor])[i] == rs[i];
        assert Increasing(rs);
        forall c | c in Registered(before)
          ensures c < op.cursor
        {
          var i :| 0 <= i < |rs| && rs[i] == c;
          assert (rs + [op.cursor])[i] < (rs + [op.cursor])[|rs|];
        }
      }
    }
  }

  /** On a stream whose accepted events come in clock order, the loop's watermark is at every point the
      greatest cursor at or below which every record sent so far has been acked. */
  lemma LoopWatermark(dt: Json -> bool, events: seq<Object>, ticks: seq<Tick>, n: nat, cfg: Cadence,
                      row: Option<int>, now: real)
    requires n <= |events| == |ticks| && AllWellFormed(ticks)
    requires Increasing(Records(Outbox(dt, events, n)))
    ensures var ops := LoopOps(dt, events, ticks, n);
            Replay(cfg, Saver(FRESH.(lastSave := now), row), ops).ck.safe ==
              Watermark(Elements(Records(Outbox(dt, events, n))), Acked(ops))
  {
    hide Outbox, LoopOps, Replay, Watermark;
    var ops := LoopOps(dt, events, ticks, n);
    RegisteredThenProduced(dt, events, ticks, n);
    RegSeqOrder(ops);
    WatermarkClosedForm(cfg, row, now, ops);
  }
}
