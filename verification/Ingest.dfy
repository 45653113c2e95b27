// The ingest service as a crash-prone state machine: any interleaving of upstream events, delivery
// callbacks in any order, full queues, disconnects, saves, shutdowns, crashes and restarts.
module Ingest {
  import opened Basics
  import opened Parse
  import opened Jetstream
  import opened Checkpointer

  /** What does not change: the upstream stream, the timestamp recogniser and the save cadence. */
  datatype World = World(src: seq<Event>, dt: Json -> bool, cadence: Cadence)

  /** Where the consume loop is between two of its effects. */
  datatype Phase = Idle | Producing(cursor: int) | DeadLettering(pos: int) | Draining

  /** One process lifetime. `start`, `reg` and `acked` are history: the cursor it resumed from, or just below
      the first time_us it saw if it resumed from none; every cursor it registered; and those of which some
      delivery succeeded in this lifetime. */
  datatype Proc = Proc(
    ck: Ckpt,
    start: Option<int>,
    latest: Option<int>,
    next: nat,
    inflight: multiset<int>,
    phase: Phase,
    reg: set<int>,
    acked: set<int>)

  /** `store` is the durable cursor row, `base` the start of the process that first stored one;
      `delivered` the stream positions acked by Kafka at any time;
      `quarantined` those handed to the dead-letter producer. */
  datatype Sys = Sys(
    store: Option<int>,
    base: Option<int>,
    delivered: set<int>,
    quarantined: set<int>,
    proc: Option<Proc>)

  datatype Action =
    | Start(p: nat, now: real)
    | Reconnect(p: nat)
    | Pull
    | Enqueue
    | QueueFull
    | Callback(cursor: int, ok: bool)
    | Checkpoint(now: real)
    | Stop
    | Finish
    | Crash

  function RouteAt(w: World, i: nat): Route
    requires i < |w.src|
  {
    RouteOf(w.dt, w.src[i].body)
  }

  /** The next upstream event arrives: it is skipped, or dead-lettering starts, or its cursor is
      registered and producing starts. */
  function Pulled(w: World, p: Proc): Proc
    requires p.next < |w.src|
  {
    var ts := TimeUs(w.src[p.next].body);
    var q := p.(start := if p.start.None? && ts.Some? then Some(ts.value - 1) else p.start,
                latest := if ts.Some? then ts else p.latest,
                next := p.next + 1);
    match RouteAt(w, p.next)
    case Skipped => q
    case DeadLettered(_) => q.(phase := DeadLettering(w.src[p.next].pos))
    case Produced(c) => q.(ck := WithCursor(q.ck, c), reg := q.reg + {c}, phase := Producing(c))
  }

  ghost function Called(p: Proc, c: int, ok: bool): Proc {
    p.(ck := WithAck(p.ck, ok, c),
       inflight := p.inflight - multiset{c},
       acked := if ok then p.acked + {c} else p.acked)
  }

  /** The row is written, perhaps for the first time. */
  function Stored(s: Sys, p: Proc, row: Option<int>): Sys {
    s.(store := row, base := if s.base.None? && row.Some? then p.start else s.base)
  }

  /** An action that is not possible in the current state changes nothing. */
  ghost function ApplyLive(w: World, s: Sys, p: Proc, a: Action): Sys {
    match a
    case Start(_, _) => s
    case Reconnect(q) =>
      if p.phase.Idle? && ServedFrom(w.src, p.latest, q) then s.(proc := Some(p.(next := q))) else s
    case Pull =>
      if p.phase.Idle? && p.next < |w.src| then s.(proc := Some(Pulled(w, p))) else s
    case Enqueue =>
      if p.phase.Producing? then
        s.(proc := Some(p.(phase := Idle, inflight := p.inflight + multiset{p.phase.cursor})))
      else if p.phase.DeadLettering? then
        s.(proc := Some(p.(phase := Idle)), quarantined := s.quarantined + {p.phase.pos})
      else s
    case QueueFull =>
      if p.phase.Producing? || p.phase.DeadLettering? then s.(proc := Some(p.(phase := Draining))) else s
    case Callback(c, ok) =>
      if c in p.inflight then
        s.(proc := Some(Called(p, c, ok)), delivered := if ok then s.delivered + {c} else s.delivered)
      else s
    case Checkpoint(now) =>
      if p.phase.Idle? then
        var saver := WithSave(w.cadence, Saver(p.ck, s.store), now);
        Stored(s, p, saver.row).(proc := Some(p.(ck := saver.ck)))
      else s
    case Stop =>
      if p.phase.Idle? then s.(proc := Some(p.(phase := Draining))) else s
    case Finish =>
      if p.phase.Draining? then Stored(s, p, WithFinalSave(Saver(p.ck, s.store)).row).(proc := None) else s
    case Crash => s.(proc := None)
  }

  ghost function Apply(w: World, s: Sys, a: Action): Sys {
    if s.proc.Some? then ApplyLive(w, s, s.proc.value, a)
    else if a.Start? && ServedFrom(w.src, s.store, a.p) then
      s.(proc := Some(Proc(FRESH.(lastSave := a.now), s.store, s.store, a.p, multiset{}, Idle, {}, {})))
    else s
  }

  ghost function Exec(w: World, s: Sys, run: seq<Action>): Sys {
    if run == [] then s else Apply(w, Exec(w, s, run[..|run| - 1]), run[|run| - 1])
  }

  /** What counts as delivered: a callback of a message in flight reported success. */
  lemma {:induction false} DeliveredIff(w: World, s: Sys, run: seq<Action>, c: int)
    ensures c in Exec(w, s, run).delivered <==>
              || c in s.delivered
              || exists k :: 0 <= k < |run| && run[k] == Callback(c, true) && Flying(Exec(w, s, run[..k]), c)
  {
    hide Apply, Flying;
    if run != [] {
      var n := |run| - 1;
      DeliveredIff(w, s, run[..n], c);
      OneDelivery(w, Exec(w, s, run[..n]), run[n], c);
      assert forall k :: 0 <= k < n ==> run[..n][..k] == run[..k] && run[..n][k] == run[k];
    }
  }

  ghost predicate Flying(s: Sys, c: int) {
    s.proc.Some? && c in s.proc.value.inflight
  }

  lemma OneDelivery(w: World, s: Sys, a: Action, c: int)
    ensures c in Apply(w, s, a).delivered <==> c in s.delivered || (a == Callback(c, true) && Flying(s, c))
  {
    hide Pulled, WithAck;
  }

  // ----- What every step keeps -----

  /** The event at index i has been dealt with, as far as the process or its queues know. */
  ghost predicate Handled(w: World, s: Sys, p: Proc, i: nat)
    requires i < |w.src|
  {
    && (RouteAt(w, i).Produced? ==> w.src[i].pos in p.reg)
    && (RouteAt(w, i).DeadLettered? ==> w.src[i].pos in s.quarantined)
  }

  /** The one event whose dead-lettering is under way or was refused; nothing above it is registered. */
  ghost predicate Excused(p: Proc, pos: int) {
    && (p.phase == DeadLettering(pos) || p.phase == Draining)
    && forall c :: c in p.reg ==> c < pos
  }

  ghost predicate Seen(w: World, p: Proc, i: nat)
    requires i < |w.src| && p.start.Some? && p.latest.Some?
  {
    p.start.value < w.src[i].pos && (i < p.next || w.src[i].pos <= p.latest.value)
  }

  /** What holds of a process once it has a start, whatever is stored. */
  ghost predicate ProcCore(w: World, s: Sys, p: Proc) {
    && p.start.Some? && p.latest.Some? && p.start.value <= p.latest.value
    && Sound(p.ck, p.reg, p.acked)
    && p.acked <= s.delivered
    && (forall c :: c in p.reg ==> p.start.value <= c <= p.latest.value)
    && (forall i :: 0 <= i < |w.src| && w.src[i].pos in p.reg ==> RouteAt(w, i).Produced?)
    && (forall c :: c in p.inflight ==> c in p.reg)
    && (p.phase.Producing? ==> p.phase.cursor in p.reg)
    && (p.phase.DeadLettering? ==>
          forall i :: 0 <= i < |w.src| && w.src[i].pos == p.phase.pos ==> !RouteAt(w, i).Produced?)
    && (forall i :: p.next <= i < |w.src| ==> p.latest.value <= w.src[i].pos)
    && (forall i :: 0 <= i < |w.src| && Seen(w, p, i) ==> Handled(w, s, p, i) || Excused(p, w.src[i].pos))
  }

  ghost predicate ProcInv(w: World, s: Sys, p: Proc) {
    && ProcCore(w, s, p)
    && s.store.Some? && s.store == (if p.ck.saved.Some? then p.ck.saved else p.start)
    && p.start.value <= s.store.value
  }

  /** No loss: every accepted event between the two cursors was acked by Kafka, and every malformed
      one was handed to the dead-letter producer. */
  ghost predicate Covered(w: World, c0: int, upTo: int, s: Sys) {
    forall i :: 0 <= i < |w.src| && c0 < w.src[i].pos <= upTo ==>
      && (RouteAt(w, i).Produced? ==> w.src[i].pos in s.delivered)
      && (RouteAt(w, i).DeadLettered? ==> w.src[i].pos in s.quarantined)
  }

  ghost predicate Inv(w: World, c0: int, s: Sys) {
    && s.store.Some? && s.base == Some(c0) && c0 <= s.store.value
    && Covered(w, c0, s.store.value, s)
    && (s.proc.Some? ==> ProcInv(w, s, s.proc.value))
  }

  /** Persisting the watermark is safe at any moment, as far as this process goes. */
  lemma SafeCovered(w: World, s: Sys, p: Proc)
    requires ProcCore(w, s, p) && p.ck.safe.Some?
    ensures p.start.value <= p.ck.safe.value && Covered(w, p.start.value, p.ck.safe.value, s)
  {
    var safe := p.ck.safe.value;
    forall i | 0 <= i < |w.src| && p.start.value < w.src[i].pos <= safe
      ensures RouteAt(w, i).Produced? ==> w.src[i].pos in s.delivered
      ensures RouteAt(w, i).DeadLettered? ==> w.src[i].pos in s.quarantined
    {
      assert Seen(w, p, i);
      assert !Excused(p, w.src[i].pos);
      assert Handled(w, s, p, i);
    }
  }

  /** And with what was covered before it started, as far as the whole run goes. */
  lemma WatermarkCovered(w: World, c0: int, s: Sys, p: Proc)
    requires Inv(w, c0, s) && s.proc == Some(p) && p.ck.safe.Some?
    ensures Covered(w, c0, p.ck.safe.value, s)
    ensures s.store.value <= p.ck.safe.value
  {
    SafeCovered(w, s, p);
  }

  /** The event at index i is behind the position reached by pulling it. */
  lemma SeenBefore(w: World, p: Proc, i: nat, j: nat)
    requires WellOrdered(w.src) && p.next == i < |w.src| && j < |w.src| && j != i
    requires p.start.Some? && p.latest.Some?
    requires Seen(w, Pulled(w, p), j)
    ensures Seen(w, p, j)
  {
    assert TimeUs(w.src[i].body).Some? ==> j < i;
  }

  lemma CursorIsPos(w: World, i: nat)
    requires WellOrdered(w.src) && i < |w.src| && RouteAt(w, i).Produced?
    ensures RouteAt(w, i).cursor == w.src[i].pos && TimeUs(w.src[i].body).Some?
  {
    RoutingTable(w.dt, w.src[i].body);
  }

  lemma PullKeeps(w: World, s: Sys, p: Proc)
    requires WellOrdered(w.src) && ProcCore(w, s, p) && p.phase.Idle? && p.next < |w.src|
    ensures ProcCore(w, s, Pulled(w, p)) && Pulled(w, p).start == p.start && Pulled(w, p).ck.saved == p.ck.saved
  {
    hide RouteOf, TimeUs;
    var i, q := p.next, Pulled(w, p);
    var pos := w.src[i].pos;
    if RouteAt(w, i).Produced? {
      CursorIsPos(w, i);
    }
    assert q.latest.value <= pos && forall j :: i < j < |w.src| ==> pos < w.src[j].pos;
    assert forall j :: 0 <= j < |w.src| && w.src[j].pos == pos ==> j == i;
    if RouteAt(w, i).Produced? {
      SoundRegister(p.ck, p.reg, p.acked, pos);
    }
    hide Sound, WithCursor;
    forall j | 0 <= j < |w.src| && Seen(w, q, j)
      ensures Handled(w, s, q, j) || Excused(q, w.src[j].pos)
    {
      if j != i {
        SeenBefore(w, p, i, j);
        assert Handled(w, s, p, j);
      }
    }
  }

  lemma CallbackKeeps(w: World, s: Sys, p: Proc, c: int, ok: bool)
    requires ProcCore(w, s, p) && c in p.inflight
    ensures ProcCore(w, s.(delivered := if ok then s.delivered + {c} else s.delivered), Called(p, c, ok))
    ensures Called(p, c, ok).start == p.start && Called(p, c, ok).ck.saved == p.ck.saved
  {
    SoundOnAck(p.ck, p.reg, p.acked, ok, c);
    var s', q := s.(delivered := if ok then s.delivered + {c} else s.delivered), Called(p, c, ok);
    assert q.ck.saved == p.ck.saved;
    hide WithAck, Sound;
    forall j | 0 <= j < |w.src| && Seen(w, q, j)
      ensures Handled(w, s', q, j) || Excused(q, w.src[j].pos)
    {
      assert Seen(w, p, j);
    }
  }

  /** The remaining moves change the phase, the queues or the read position, and nothing that the
      checkpointer tracks. */
  lemma QuietKeeps(w: World, s: Sys, p: Proc, a: Action)
    requires WellOrdered(w.src) && ProcCore(w, s, p) && s.proc == Some(p)
    requires a.Reconnect? || a.Enqueue? || a.QueueFull? || a.Stop?
    ensures var t := ApplyLive(w, s, p, a);
            && t.proc.Some? && ProcCore(w, t, t.proc.value)
            && t.proc.value.start == p.start && t.proc.value.ck == p.ck
  {
    var t := ApplyLive(w, s, p, a);
    var q := t.proc.value;
    hide Sound;
    forall j | 0 <= j < |w.src| && Seen(w, q, j)
      ensures Handled(w, t, q, j) || Excused(q, w.src[j].pos)
    {
      assert Seen(w, p, j);
      assert Handled(w, s, p, j) || Excused(p, w.src[j].pos);
    }
  }

  lemma CheckpointKeeps(w: World, c0: int, s: Sys, p: Proc, now: real)
    requires Inv(w, c0, s) && s.proc == Some(p)
    ensures Onward(w, c0, s, ApplyLive(w, s, p, Checkpoint(now)))
  {
    if p.phase.Idle? && Due(w.cadence, p.ck, now) {
      WatermarkCovered(w, c0, s, p);
      var t := ApplyLive(w, s, p, Checkpoint(now));
      var q := t.proc.value;
      forall j | 0 <= j < |w.src| && Seen(w, q, j)
        ensures Handled(w, t, q, j) || Excused(q, w.src[j].pos)
      {
        assert Seen(w, p, j);
      }
    }
  }

  /** The invariant is kept and the stored cursor does not move back. */
  ghost predicate Onward(w: World, c0: int, s: Sys, t: Sys) {
    Inv(w, c0, t) && s.store.Some? && s.store.value <= t.store.value
  }

  lemma RestKeeps(w: World, c0: int, s: Sys, a: Action)
    requires WellOrdered(w.src) && Inv(w, c0, s)
    requires s.proc.None? || a.Start? || a.Crash? || a.Finish?
    ensures Onward(w, c0, s, Apply(w, s, a))
  {
    if a.Finish? && s.proc.Some? && s.proc.value.ck.safe.Some? {
      WatermarkCovered(w, c0, s, s.proc.value);
    }
  }

  lemma PullOnward(w: World, c0: int, s: Sys, p: Proc)
    requires WellOrdered(w.src) && Inv(w, c0, s) && s.proc == Some(p)
    ensures Onward(w, c0, s, ApplyLive(w, s, p, Pull))
  {
    if p.phase.Idle? && p.next < |w.src| {
      PullKeeps(w, s, p);
      hide ProcCore, Pulled;
    }
  }

  lemma CallbackOnward(w: World, c0: int, s: Sys, p: Proc, c: int, ok: bool)
    requires WellOrdered(w.src) && Inv(w, c0, s) && s.proc == Some(p)
    ensures Onward(w, c0, s, ApplyLive(w, s, p, Callback(c, ok)))
  {
    if c in p.inflight {
      CallbackKeeps(w, s, p, c, ok);
      hide ProcCore, Called;
    }
  }

  lemma QuietOnward(w: World, c0: int, s: Sys, p: Proc, a: Action)
    requires WellOrdered(w.src) && Inv(w, c0, s) && s.proc == Some(p)
    requires a.Reconnect? || a.Enqueue? || a.QueueFull? || a.Stop?
    ensures Onward(w, c0, s, ApplyLive(w, s, p, a))
  {
    QuietKeeps(w, s, p, a);
    hide ProcCore;
  }

  /** One step of any kind keeps the invariant and never moves the stored cursor back. */
  lemma StepKeeps(w: World, c0: int, s: Sys, a: Action)
    requires WellOrdered(w.src) && Inv(w, c0, s)
    ensures Onward(w, c0, s, Apply(w, s, a))
  {
    if s.proc.None? || a.Start? || a.Crash? || a.Finish? {
      RestKeeps(w, c0, s, a);
    } else {
      var p := s.proc.value;
      hide Inv, Onward, ApplyLive;
      match a {
        case Pull => PullOnward(w, c0, s, p);
        case Callback(c, ok) => CallbackOnward(w, c0, s, p, c, ok);
        case Checkpoint(now) => CheckpointKeeps(w, c0, s, p, now);
        case _ => QuietOnward(w, c0, s, p, a);
      }
    }
  }

  // ----- Safety over whole runs -----

  /** A fresh stream. */
  const NOTHING_STORED := Sys(None, None, {}, {}, None)

  function Resumable(c0: int): Sys {
    Sys(Some(c0), Some(c0), {}, {}, None)
  }

  lemma {:induction false} RunKeeps(w: World, c0: int, run: seq<Action>)
    requires WellOrdered(w.src)
    ensures Inv(w, c0, Exec(w, Resumable(c0), run))
  {
    if run != [] {
      RunKeeps(w, c0, run[..|run| - 1]);
      StepKeeps(w, c0, Exec(w, Resumable(c0), run[..|run| - 1]), run[|run| - 1]);
    }
  }

  /** From a stored cursor c0, whatever happens, no accepted event at or below the stored cursor is
      missing from Kafka and no malformed one was passed over. */
  lemma NoLoss(w: World, c0: int, run: seq<Action>, i: nat)
    requires WellOrdered(w.src) && i < |w.src|
    ensures var s := Exec(w, Resumable(c0), run);
            && s.store.Some?
            && (c0 < w.src[i].pos <= s.store.value ==>
                  && (RouteAt(w, i).Produced? ==> w.src[i].pos in s.delivered)
                  && (RouteAt(w, i).DeadLettered? ==> w.src[i].pos in s.quarantined))
  {
    RunKeeps(w, c0, run);
  }

  /** The stored cursor never decreases along a run. */
  lemma {:induction false} StoredCursorMonotone(w: World, c0: int, run: seq<Action>, k: nat)
    requires WellOrdered(w.src) && k <= |run|
    ensures var early, late := Exec(w, Resumable(c0), run[..k]), Exec(w, Resumable(c0), run);
            early.store.Some? && late.store.Some? && early.store.value <= late.store.value
  {
    RunKeeps(w, c0, run[..k]);
    if k == |run| {
      assert run[..k] == run;
    } else {
      var before := run[..|run| - 1];
      assert before[..k] == run[..k];
      StoredCursorMonotone(w, c0, before, k);
      RunKeeps(w, c0, before);
      StepKeeps(w, c0, Exec(w, Resumable(c0), before), run[|run| - 1]);
    }
  }

  /** In every reachable state, a registered cursor with no successful delivery in this lifetime lies
      strictly above everything this process has saved, and above anything its next step saves. */
  lemma UnackedPins(w: World, c0: int, run: seq<Action>, c: int, a: Action)
    requires WellOrdered(w.src)
    requires Exec(w, Resumable(c0), run).proc.Some?
    requires var p := Exec(w, Resumable(c0), run).proc.value; c in p.reg && c !in p.acked
    ensures var s := Exec(w, Resumable(c0), run); var t := Apply(w, s, a);
            && (s.proc.value.ck.saved.Some? ==> s.proc.value.ck.saved.value < c)
            && (t.store != s.store ==> t.store.Some? && t.store.value < c)
  {
    RunKeeps(w, c0, run);
  }

  // ----- A stream nothing was stored for -----

  /** A process that has resumed from nothing and seen no time_us yet. */
  ghost predicate Untouched(p: Proc) {
    && p.start.None? && p.latest.None? && !p.phase.Producing?
    && p.ck.pending == map[] && p.ck.safe.None? && p.ck.saved.None?
    && p.reg == {} && p.acked == {} && p.inflight == multiset{}
  }

  /** Some event is stamped just above the base. */
  ghost predicate StampedAbove(w: World, base: int) {
    exists i :: 0 <= i < |w.src| && TimeUs(w.src[i].body) == Some(base + 1)
  }

  ghost predicate FirstProc(w: World, s: Sys, p: Proc) {
    && p.ck.saved.None?
    && (p.start.None? ==> Untouched(p))
    && (p.start.Some? ==> ProcCore(w, s, p) && StampedAbove(w, p.start.value))
  }

  /** Before the first save every process is fresh; from then on the invariant holds from the base. */
  ghost predicate Safe(w: World, s: Sys) {
    if s.store.None? then s.base.None? && (s.proc.Some? ==> FirstProc(w, s, s.proc.value))
    else s.base.Some? && StampedAbove(w, s.base.value) && Inv(w, s.base.value, s)
  }

  lemma FirstStamped(w: World, s: Sys, p: Proc)
    requires WellOrdered(w.src) && Untouched(p) && p.phase.Idle? && p.next < |w.src|
    requires TimeUs(w.src[p.next].body).Some?
    requires RouteAt(w, p.next).Produced? ==> RouteAt(w, p.next).cursor == w.src[p.next].pos
    ensures ProcCore(w, s, Pulled(w, p))
  {
    hide RouteOf, TimeUs;
    var i, q := p.next, Pulled(w, p);
    var pos := w.src[i].pos;
    assert TimeUs(w.src[i].body) == Some(pos);
    assert forall j :: 0 <= j < |w.src| && w.src[j].pos == pos ==> j == i;
    assert q.ck.pending.Keys <= {pos};
    forall j | 0 <= j < |w.src| && Seen(w, q, j)
      ensures Handled(w, s, q, j) || Excused(q, w.src[j].pos)
    {
      assert j == i;
    }
  }

  lemma FirstPull(w: World, s: Sys, p: Proc)
    requires WellOrdered(w.src) && Untouched(p) && p.phase.Idle? && p.next < |w.src|
    ensures FirstProc(w, s, Pulled(w, p))
  {
    var i := p.next;
    RoutingTable(w.dt, w.src[i].body);
    hide RouteOf, TimeUs, ProcCore;
    if TimeUs(w.src[i].body).Some? {
      FirstStamped(w, s, p);
      assert TimeUs(w.src[i].body) == Some(w.src[i].pos - 1 + 1);
    }
  }

  lemma FirstLive(w: World, s: Sys, p: Proc, a: Action)
    requires WellOrdered(w.src) && s.proc == Some(p) && Untouched(p) && s.store.None? && s.base.None?
    ensures Safe(w, ApplyLive(w, s, p, a))
  {
    if a.Pull? && p.phase.Idle? && p.next < |w.src| {
      FirstPull(w, s, p);
      hide FirstProc, Pulled;
    } else {
      hide FirstProc;
      assert FirstProc(w, s, p) by {
        UntouchedIsFirst(w, s, p);
      }
      UntouchedStays(w, s, p, a);
    }
  }

  lemma UntouchedIsFirst(w: World, s: Sys, p: Proc)
    requires Untouched(p)
    ensures FirstProc(w, s, p)
  {
  }

  lemma UntouchedStays(w: World, s: Sys, p: Proc, a: Action)
    requires s.proc == Some(p) && Untouched(p) && s.store.None? && s.base.None?
    requires !(a.Pull? && p.phase.Idle? && p.next < |w.src|)
    ensures Safe(w, ApplyLive(w, s, p, a))
  {
    hide WithAck, ServedFrom, ProcCore, Inv;
  }

  /** The first save: what it covers starts where its process did. */
  lemma FirstSave(w: World, s: Sys, p: Proc)
    requires ProcCore(w, s, p) && p.ck.safe.Some? && s.store.None? && s.base.None? && StampedAbove(w, p.start.value)
    ensures var t := Stored(s, p, p.ck.safe);
            Safe(w, t.(proc := None)) && forall now :: Safe(w, t.(proc := Some(p.(ck := AfterSave(p.ck, now)))))
  {
    SafeCovered(w, s, p);
    var t := Stored(s, p, p.ck.safe);
    forall now
      ensures ProcInv(w, t, p.(ck := AfterSave(p.ck, now)))
    {
      SavedKeeps(w, s, t, p, now);
    }
    hide ProcInv, ProcCore, StampedAbove;
  }

  lemma SavedKeeps(w: World, s: Sys, t: Sys, p: Proc, now: real)
    requires ProcCore(w, s, p) && p.ck.safe.Some? && p.start.value <= p.ck.safe.value
    requires t.store == p.ck.safe && t.delivered == s.delivered && t.quarantined == s.quarantined
    ensures ProcInv(w, t, p.(ck := AfterSave(p.ck, now)))
  {
    var q := p.(ck := AfterSave(p.ck, now));
    forall j | 0 <= j < |w.src| && Seen(w, q, j)
      ensures Handled(w, t, q, j) || Excused(q, w.src[j].pos)
    {
      assert Seen(w, p, j);
    }
  }

  lemma CoreIgnoresRest(w: World, s: Sys, t: Sys, p: Proc)
    requires ProcCore(w, s, p) && t.delivered == s.delivered && t.quarantined == s.quarantined
    ensures ProcCore(w, t, p)
  {
    hide Sound;
    forall j | 0 <= j < |w.src| && Seen(w, p, j)
      ensures Handled(w, t, p, j) || Excused(p, w.src[j].pos)
    {
      assert Handled(w, s, p, j) || Excused(p, w.src[j].pos);
    }
  }

  lemma StartedLive(w: World, s: Sys, p: Proc, a: Action)
    requires WellOrdered(w.src) && s.proc == Some(p) && s.store.None? && s.base.None?
    requires p.ck.saved.None? && p.start.Some? && ProcCore(w, s, p) && StampedAbove(w, p.start.value)
    ensures Safe(w, ApplyLive(w, s, p, a))
  {
    hide ProcCore, StampedAbove, Called, WithAck, ServedFrom, RouteOf, Inv;
    match a {
      case Pull =>
        if p.phase.Idle? && p.next < |w.src| {
          PullKeeps(w, s, p);
          CoreIgnoresRest(w, s, ApplyLive(w, s, p, a), Pulled(w, p));
        }
      case Callback(c, ok) =>
        if c in p.inflight {
          CallbackKeeps(w, s, p, c, ok);
          var t := s.(delivered := if ok then s.delivered + {c} else s.delivered);
          CoreIgnoresRest(w, t, ApplyLive(w, s, p, a), Called(p, c, ok));
        }
      case Checkpoint(now) =>
        if p.ck.safe.Some? {
          FirstSave(w, s, p);
        }
      case Finish =>
        if p.ck.safe.Some? {
          FirstSave(w, s, p);
        }
      case Start(_, _) =>
      case Crash =>
      case _ => QuietKeeps(w, s, p, a);
    }
  }

  lemma SafeStep(w: World, s: Sys, a: Action)
    requires WellOrdered(w.src) && Safe(w, s)
    ensures Safe(w, Apply(w, s, a))
  {
    if s.store.Some? {
      StepKeeps(w, s.base.value, s, a);
      hide Inv, StampedAbove, Apply;
    } else if s.proc.Some? {
      if s.proc.value.start.None? {
        FirstLive(w, s, s.proc.value, a);
      } else {
        StartedLive(w, s, s.proc.value, a);
      }
      hide ApplyLive, FirstProc;
    } else {
      hide ProcCore, ServedFrom;
    }
  }

  lemma {:induction false} RunSafe(w: World, run: seq<Action>)
    requires WellOrdered(w.src)
    ensures Safe(w, Exec(w, NOTHING_STORED, run))
  {
    hide Apply;
    if run != [] {
      RunSafe(w, run[..|run| - 1]);
      hide Safe;
      SafeStep(w, Exec(w, NOTHING_STORED, run[..|run| - 1]), run[|run| - 1]);
    }
  }

  /** From a fresh stream, over every run: once a cursor is stored, no event from the first stamped one that
      the storing process saw up to the stored cursor is missing. Nothing is promised of events before it. */
  lemma FreshNoLoss(w: World, run: seq<Action>, i: nat)
    requires WellOrdered(w.src) && i < |w.src|
    ensures var s := Exec(w, NOTHING_STORED, run);
            s.store.Some? ==>
              && s.base.Some? && StampedAbove(w, s.base.value) && s.base.value <= s.store.value
              && (s.base.value < w.src[i].pos <= s.store.value ==>
                    && (RouteAt(w, i).Produced? ==> w.src[i].pos in s.delivered)
                    && (RouteAt(w, i).DeadLettered? ==> w.src[i].pos in s.quarantined))
  {
    hide RouteOf, StampedAbove;
    RunSafe(w, run);
  }

  /** Without a stored cursor the guarantee fails: a process that pulls an event and crashes before its
      first save comes back at the live end of the stream. */
  lemma FreshStreamCanLose(w: World, i: nat) returns (run: seq<Action>)
    requires WellOrdered(w.src) && i + 1 < |w.src|
    requires RouteAt(w, i).Produced? && RouteAt(w, i + 1).Produced?
    ensures var s := Exec(w, NOTHING_STORED, run);
            && s.store == Some(w.src[i + 1].pos) && w.src[i].pos < w.src[i + 1].pos
            && w.src[i].pos !in s.delivered
  {
    var s0, c := NOTHING_STORED, w.src[i + 1].pos;
    var a, b := [Start(i, 0.0), Pull, Crash], [Start(i + 1, 0.0), Pull, Enqueue, Callback(c, true), Stop, Finish];
    run := a + b;
    Unroll(w, s0, a, b);
    PullAndCrash(w, i, a);
    PullAndSave(w, i + 1, b);
  }

  lemma PullAndCrash(w: World, i: nat, run: seq<Action>)
    requires WellOrdered(w.src) && i < |w.src| && run == [Start(i, 0.0), Pull, Crash]
    ensures Exec(w, NOTHING_STORED, run) == NOTHING_STORED
  {
    Three(w, NOTHING_STORED, run);
  }

  lemma PullAndSave(w: World, i: nat, run: seq<Action>)
    requires WellOrdered(w.src) && i < |w.src| && RouteAt(w, i).Produced?
    requires run == [Start(i, 0.0), Pull, Enqueue, Callback(w.src[i].pos, true), Stop, Finish]
    ensures Exec(w, NOTHING_STORED, run) == Sys(Some(w.src[i].pos), Some(w.src[i].pos - 1), {w.src[i].pos}, {}, None)
  {
    hide Apply, WellOrdered, Exec, RouteOf;
    var c, s0 := w.src[i].pos, NOTHING_STORED;
    var first: seq<Action>, second: seq<Action> := [Start(i, 0.0), Pull, Enqueue], [Callback(c, true), Stop, Finish];
    assert run == first + second;
    Unroll(w, s0, first, second);
    Three(w, s0, first);
    FirstSent(w, i);
    Three(w, Exec(w, s0, first), second);
    AckedAndSaved(w, c, i + 1);
  }

  /** A fresh process with one event in flight. */
  function InFlight(c: int, next: nat): Proc {
    Proc(FRESH.(pending := map[c := false]), Some(c - 1), Some(c), next, multiset{c}, Idle, {c}, {})
  }

  lemma FirstSent(w: World, i: nat)
    requires WellOrdered(w.src) && i < |w.src| && RouteAt(w, i).Produced?
    ensures Apply(w, Apply(w, Apply(w, NOTHING_STORED, Start(i, 0.0)), Pull), Enqueue)
         == NOTHING_STORED.(proc := Some(InFlight(w.src[i].pos, i + 1)))
  {
    RoutingTable(w.dt, w.src[i].body);
    hide RouteOf;
    var c := w.src[i].pos;
    var s2 := Apply(w, Apply(w, NOTHING_STORED, Start(i, 0.0)), Pull);
    assert s2.proc.value.reg == {c} && s2.proc.value.inflight + multiset{c} == multiset{c};
  }

  lemma AckedAndSaved(w: World, c: int, next: nat)
    ensures var s := NOTHING_STORED.(proc := Some(InFlight(c, next)));
            Apply(w, Apply(w, Apply(w, s, Callback(c, true)), Stop), Finish) == Sys(Some(c), Some(c - 1), {c}, {}, None)
  {
    AckOnly(c);
    hide WithAck;
  }

  lemma AckOnly(c: int)
    ensures WithAck(FRESH.(pending := map[c := false]), true, c) == Ckpt(map[], Some(c), None, 1, 0.0)
  {
    var acked: map<int, bool> := map[c := true];
    assert map[c := false][c := true] == acked;
    assert Foldable(acked) == {c};
    assert acked - {c} == map[];
  }

  lemma {:induction false} Unroll(w: World, s: Sys, a: seq<Action>, b: seq<Action>)
    ensures Exec(w, s, a + b) == Exec(w, Exec(w, s, a), b)
  {
    if b == [] {
      assert a + b == a;
    } else {
      assert (a + b)[..|a + b| - 1] == a + b[..|b| - 1];
      Unroll(w, s, a, b[..|b| - 1]);
    }
  }

  lemma Three(w: World, s: Sys, run: seq<Action>)
    requires |run| == 3
    ensures Exec(w, s, run) == Apply(w, Apply(w, Apply(w, s, run[0]), run[1]), run[2])
  {
    assert run[..2][..1][..0] == [];
    assert Exec(w, s, run[..2]) == Apply(w, Exec(w, s, run[..2][..1]), run[1]);
    assert Exec(w, s, run[..2][..1]) == Apply(w, Exec(w, s, run[..2][..1][..0]), run[0]);
  }

  // ----- Two events with one time_us -----

  /** The process that resumed from c0 and sent n events, all stamped c. */
  function Twins(c0: int, c: int, next: nat, inflight: multiset<int>): Proc {
    Proc(FRESH.(pending := map[c := false]), Some(c0), Some(c), next, inflight, Idle, {c}, {})
  }

  /** Two were sent, and one of them acked. */
  function OneAcked(c0: int, c: int, next: nat): Proc {
    Proc(Ckpt(map[], Some(c), None, 1, 0.0), Some(c0), Some(c), next, multiset{c}, Idle, {c}, {c})
  }

  lemma FirstTwin(w: World, c0: int, c: int, i: nat)
    requires ServedFrom(w.src, Some(c0), i) && i < |w.src| && RouteAt(w, i) == Produced(c)
    ensures Apply(w, Apply(w, Apply(w, Resumable(c0), Start(i, 0.0)), Pull), Enqueue)
         == Resumable(c0).(proc := Some(Twins(c0, c, i + 1, multiset{c})))
  {
    RoutingTable(w.dt, w.src[i].body);
    hide RouteOf, ServedFrom;
    var s2 := Apply(w, Apply(w, Resumable(c0), Start(i, 0.0)), Pull);
    assert s2.proc.value.reg == {c} && s2.proc.value.inflight + multiset{c} == multiset{c};
  }

  lemma SecondTwin(w: World, c0: int, c: int, i: nat)
    requires i < |w.src| && RouteAt(w, i) == Produced(c)
    ensures var s := Resumable(c0).(proc := Some(Twins(c0, c, i, multiset{c})));
            Apply(w, Apply(w, Apply(w, s, Pull), Enqueue), Callback(c, true))
            == Sys(Some(c0), Some(c0), {c}, {}, Some(OneAcked(c0, c, i + 1)))
  {
    RoutingTable(w.dt, w.src[i].body);
    AckOnly(c);
    hide RouteOf, WithAck;
    var s := Resumable(c0).(proc := Some(Twins(c0, c, i, multiset{c})));
    var s2 := Apply(w, Apply(w, s, Pull), Enqueue);
    assert s2.proc.value.reg == {c} && s2.proc.value.inflight == multiset{c, c};
    assert multiset{c, c} - multiset{c} == multiset{c};
    var none: set<int> := {};
    assert none + {c} == {c};
  }

  /** Why the upstream clock has to be strict: of two accepted events with one time_us, one ack lets the stored
      cursor pass both while the other message is still undelivered, and a restart need not see either. */
  lemma EqualStampsCanLose(w: World, c0: int, c: int, i: nat) returns (run: seq<Action>)
    requires forall j, k :: 0 <= j < k < |w.src| ==> w.src[j].pos <= w.src[k].pos
    requires i + 1 < |w.src| && w.src[i].pos == w.src[i + 1].pos == c && ServedFrom(w.src, Some(c0), i)
    requires RouteAt(w, i) == Produced(c) && RouteAt(w, i + 1) == Produced(c)
    ensures run == [Start(i, 0.0), Pull, Enqueue, Pull, Enqueue, Callback(c, true), Stop, Finish, Crash]
    ensures var s := Exec(w, Resumable(c0), run[..6]);
            s.proc.Some? && s.proc.value.next == i + 2 && s.proc.value.inflight == multiset{c}
    ensures var e := Exec(w, Resumable(c0), run);
            e.proc.None? && e.store == Some(c) && ServedFrom(w.src, e.store, i + 2)
  {
    hide Apply, Exec, RouteOf;
    var a: seq<Action>, b: seq<Action> := [Start(i, 0.0), Pull, Enqueue], [Pull, Enqueue, Callback(c, true)];
    var d: seq<Action> := [Stop, Finish, Crash];
    run := [Start(i, 0.0), Pull, Enqueue, Pull, Enqueue, Callback(c, true), Stop, Finish, Crash];
    assert run[..6] == a + b && run == a + b + d;
    TwinsSent(w, c0, c, i, a, b);
    Unroll(w, Resumable(c0), a + b, d);
    Three(w, Exec(w, Resumable(c0), a + b), d);
    TwinSaved(w, c0, c, i + 2);
  }

  lemma TwinsSent(w: World, c0: int, c: int, i: nat, a: seq<Action>, b: seq<Action>)
    requires ServedFrom(w.src, Some(c0), i) && i + 1 < |w.src|
    requires RouteAt(w, i) == Produced(c) && RouteAt(w, i + 1) == Produced(c)
    requires a == [Start(i, 0.0), Pull, Enqueue] && b == [Pull, Enqueue, Callback(c, true)]
    ensures Exec(w, Resumable(c0), a + b)
         == Sys(Some(c0), Some(c0), {c}, {}, Some(OneAcked(c0, c, i + 2)))
  {
    hide Apply, Exec, RouteOf, ServedFrom;
    Unroll(w, Resumable(c0), a, b);
    Three(w, Resumable(c0), a);
    FirstTwin(w, c0, c, i);
    Three(w, Exec(w, Resumable(c0), a), b);
    SecondTwin(w, c0, c, i + 1);
  }

  lemma TwinSaved(w: World, c0: int, c: int, next: nat)
    ensures var s := Sys(Some(c0), Some(c0), {c}, {}, Some(OneAcked(c0, c, next)));
            Apply(w, Apply(w, Apply(w, s, Stop), Finish), Crash) == Sys(Some(c), Some(c0), {c}, {}, None)
  {
  }
}
