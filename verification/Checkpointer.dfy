// The cursor checkpointer of the ingest service: which produced cursors are still outstanding,
// how far the gap-free watermark has moved, and when it is persisted.
module Checkpointer {
  import opened Basics

  /** Save after this many folded acks or this many seconds, whichever comes first. */
  datatype Cadence = Cadence(acks: int, seconds: real)

  /** The checkpointer's fields as a value. */
  datatype Ckpt = Ckpt(
    pending: map<int, bool>,
    safe: Option<int>,
    saved: Option<int>,
    acks: nat,
    lastSave: real)

  const FRESH := Ckpt(map[], None, None, 0, 0.0)

  /** The outstanding cursors at or below which every outstanding cursor is acked. */
  ghost function Foldable(pending: map<int, bool>): set<int> {
    set c | c in pending && forall d :: d in pending && d <= c ==> pending[d]
  }

  ghost function Fold(k: Ckpt): Ckpt {
    var f := Foldable(k.pending);
    k.(pending := k.pending - f,
       safe := if f == {} then k.safe else Some(MaxOf(f)),
       acks := k.acks + |f|)
  }

  /** One cursor at a time: what a scan over outstanding cursors in the given order leaves behind. */
  function Scan(order: seq<int>, k: Ckpt): Ckpt {
    if order == [] || order[0] !in k.pending || !k.pending[order[0]] then k
    else Scan(order[1..], k.(pending := k.pending - {order[0]}, safe := Some(order[0]), acks := k.acks + 1))
  }

  lemma NothingToFold(k: Ckpt, least: int)
    requires k.pending.Keys != {} ==> least in k.pending && !k.pending[least]
    requires forall d :: d in k.pending ==> least <= d
    ensures Fold(k) == k
  {
    assert Foldable(k.pending) == {};
    assert k.pending - {} == k.pending;
  }

  lemma FoldableFirst(pending: map<int, bool>, c: int)
    requires c in pending && pending[c]
    requires forall d :: d in pending ==> c <= d
    ensures Foldable(pending) == Foldable(pending - {c}) + {c}
  {
    var rest := pending - {c};
    forall x | x in Foldable(rest)
      ensures x in Foldable(pending)
    {
      assert forall d :: d in pending && d <= x ==> d == c || d in rest;
    }
    forall x | x in Foldable(pending) && x != c
      ensures x in Foldable(rest)
    {
      assert forall d :: d in rest && d <= x ==> d in pending;
    }
  }

  lemma MaxOfMore(f: set<int>, c: int)
    requires forall x :: x in f ==> c <= x
    ensures MaxOf(f + {c}) == if f == {} then c else MaxOf(f)
  {
    var m := MaxOf(f + {c});
    if f != {} {
      assert MaxOf(f) in f + {c};
    }
  }

  lemma FoldFirst(k: Ckpt, c: int)
    requires c in k.pending && k.pending[c]
    requires forall d :: d in k.pending ==> c <= d
    ensures Fold(k.(pending := k.pending - {c}, safe := Some(c), acks := k.acks + 1)) == Fold(k)
  {
    FoldableFirst(k.pending, c);
    var f, f1 := Foldable(k.pending), Foldable(k.pending - {c});
    assert c !in f1 && forall x :: x in f1 ==> c <= x;
    hide Foldable, MaxOf;
    MaxOfMore(f1, c);
    assert k.pending - f == k.pending - {c} - f1;
  }

  /** An ascending scan that stops at the first unacked cursor folds exactly the foldable ones. */
  lemma {:induction false} ScanIsFold(order: seq<int>, k: Ckpt)
    requires IsSortOf(order, k.pending.Keys)
    ensures Scan(order, k) == Fold(k)
  {
    if order == [] || !k.pending[order[0]] {
      NothingToFold(k, if order == [] then 0 else order[0]);
    } else {
      var c := order[0];
      var k1 := k.(pending := k.pending - {c}, safe := Some(c), acks := k.acks + 1);
      assert k1.pending.Keys == k.pending.Keys - {c};
      ScanIsFold(order[1..], k1);
      FoldFirst(k, c);
    }
  }

  function WithCursor(k: Ckpt, c: int): Ckpt {
    if c in k.pending then k else k.(pending := k.pending[c := false])
  }

  ghost function WithAck(k: Ckpt, ok: bool, c: int): Ckpt {
    if !ok then k
    else if c in k.pending then Fold(k.(pending := k.pending[c := true]))
    else Fold(k)
  }

  predicate Due(cfg: Cadence, k: Ckpt, now: real) {
    && k.safe.Some?
    && k.safe != k.saved
    && (k.acks >= cfg.acks || now - k.lastSave >= cfg.seconds)
  }

  function AfterSave(k: Ckpt, now: real): Ckpt {
    k.(saved := k.safe, acks := 0, lastSave := now)
  }

  /** The one-row cursor table. */
  class CursorStore {
    var row: Option<int>

    method Save(cursor: int)
      modifies this
      ensures row == Some(cursor)
    {
      row := Some(cursor);
    }
  }

  class CursorCheckpointer {
    const store: CursorStore
    const cadence: Cadence
    var pendingAcks: map<int, bool>
    var safeCursor: Option<int>
    var savedCursor: Option<int>
    var acksSinceSave: nat
    var lastSave: real

    ghost function State(): Ckpt
      reads this
    {
      Ckpt(pendingAcks, safeCursor, savedCursor, acksSinceSave, lastSave)
    }

    ghost function Both(): Saver
      reads this, store
    {
      Saver(State(), store.row)
    }

    constructor (store: CursorStore, cadence: Cadence, now: real)
      ensures this.store == store && this.cadence == cadence
      ensures State() == FRESH.(lastSave := now)
    {
      this.store, this.cadence := store, cadence;
      pendingAcks, safeCursor, savedCursor := map[], None, None;
      acksSinceSave, lastSave := 0, now;
    }

    method Register(cursor: int)
      modifies this
      ensures State() == WithCursor(old(State()), cursor)
    {
      if cursor !in pendingAcks {
        pendingAcks := pendingAcks[cursor := false];
      }
    }

    method OnAck(success: bool, cursor: int)
      modifies this
      ensures State() == WithAck(old(State()), success, cursor)
    {
      if !success {
        return;
      }
      if cursor in pendingAcks {
        pendingAcks := pendingAcks[cursor := true];
      }
      AdvanceWatermark();
    }

    /** Folds the longest acked run of outstanding cursors, in ascending order, into the watermark. */
    method AdvanceWatermark()
      modifies this
      ensures State() == Fold(old(State()))
    {
      hide Fold;
      ghost var was := State();
      var order := Sorted(pendingAcks.Keys);
      ScanIsFold(order, was);
      var i := 0;
      while i < |order|
        invariant 0 <= i <= |order|
        invariant Scan(order[i..], State()) == Fold(was)
        invariant IsSortOf(order[i..], pendingAcks.Keys)
      {
        var cursor := order[i];
        assert order[i..][0] == cursor && order[i..][1..] == order[i + 1..];
        if !pendingAcks[cursor] {
          break;
        }
        safeCursor := Some(cursor);
        assert (pendingAcks - {cursor}).Keys == pendingAcks.Keys - {cursor};
        pendingAcks := pendingAcks - {cursor};
        acksSinceSave := acksSinceSave + 1;
        i := i + 1;
      }
    }

    method MaybeSave(now: real)
      modifies this, store
      ensures Both() == WithSave(cadence, old(Both()), now)
    {
      if !Due(cadence, Ckpt(pendingAcks, safeCursor, savedCursor, acksSinceSave, lastSave), now) {
        return;
      }
      store.Save(safeCursor.value);
      savedCursor := safeCursor;
      acksSinceSave := 0;
      lastSave := now;
    }

    method FinalSave()
      modifies this, store
      ensures Both() == WithFinalSave(old(Both()))
      ensures safeCursor.Some? && (old(savedCursor).Some? ==> old(store.row) == old(savedCursor)) ==>
                store.row == safeCursor
    {
      if safeCursor.Some? && safeCursor != savedCursor {
        store.Save(safeCursor.value);
        savedCursor := safeCursor;
      }
    }
  }

  // ----- Histories: any sequence of registrations, delivery callbacks and save opportunities -----

  /** The checkpointer together with the durable cursor row it writes. */
  datatype Saver = Saver(ck: Ckpt, row: Option<int>)

  datatype Op =
    | Reg(cursor: int)
    | Ack(ok: bool, cursor: int)
    | Save(now: real)

  function WithSave(cfg: Cadence, s: Saver, now: real): Saver {
    if Due(cfg, s.ck, now) then Saver(AfterSave(s.ck, now), s.ck.safe) else s
  }

  function WithFinalSave(s: Saver): Saver {
    if s.ck.safe.Some? && s.ck.safe != s.ck.saved
    then Saver(s.ck.(saved := s.ck.safe), s.ck.safe)
    else s
  }

  ghost function Do(cfg: Cadence, s: Saver, op: Op): Saver {
    match op
    case Reg(c) => s.(ck := WithCursor(s.ck, c))
    case Ack(ok, c) => s.(ck := WithAck(s.ck, ok, c))
    case Save(now) => WithSave(cfg, s, now)
  }

  ghost function Replay(cfg: Cadence, s: Saver, ops: seq<Op>): Saver {
    if ops == [] then s else Do(cfg, Replay(cfg, s, ops[..|ops| - 1]), ops[|ops| - 1])
  }

  lemma {:induction false} ReplayConcat(cfg: Cadence, s: Saver, a: seq<Op>, b: seq<Op>)
    ensures Replay(cfg, s, a + b) == Replay(cfg, Replay(cfg, s, a), b)
  {
    if b == [] {
      assert a + b == a;
    } else {
      assert (a + b)[..|a + b| - 1] == a + b[..|b| - 1];
      ReplayConcat(cfg, s, a, b[..|b| - 1]);
    }
  }

  /** Every cursor registered so far. */
  function Registered(ops: seq<Op>): set<int> {
    if ops == [] then {} else
      var op := ops[|ops| - 1];
      var before := Registered(ops[..|ops| - 1]);
      if op.Reg? then before + {op.cursor} else before
  }

  /** Every cursor that was acked successfully after it had been registered. */
  function Acked(ops: seq<Op>): set<int> {
    if ops == [] then {} else
      var op := ops[|ops| - 1];
      var before := Acked(ops[..|ops| - 1]);
      if op.Ack? && op.ok && op.cursor in Registered(ops[..|ops| - 1]) then before + {op.cursor} else before
  }

  /** Each registration is above all earlier ones. */
  predicate InOrder(ops: seq<Op>) {
    ops == [] ||
    (var op := ops[|ops| - 1];
     var before := ops[..|ops| - 1];
     InOrder(before) && (op.Reg? ==> forall c :: c in Registered(before) ==> c < op.cursor))
  }

  /** The same, read off the operations. */
  lemma {:induction false} RegisteredIff(ops: seq<Op>, c: int)
    ensures c in Registered(ops) <==> exists k :: 0 <= k < |ops| && ops[k] == Reg(c)
  {
    if ops != [] {
      RegisteredIff(ops[..|ops| - 1], c);
    }
  }

  lemma {:induction false} AckedIff(ops: seq<Op>, c: int)
    ensures c in Acked(ops) <==> exists j, k :: 0 <= j < k < |ops| && ops[j] == Reg(c) && ops[k] == Ack(true, c)
  {
    if ops != [] {
      AckedIff(ops[..|ops| - 1], c);
      RegisteredIff(ops[..|ops| - 1], c);
      hide Registered;
    }
  }

  lemma {:induction false} InOrderIff(ops: seq<Op>)
    ensures InOrder(ops) <==>
              forall j, k :: 0 <= j < k < |ops| && ops[j].Reg? && ops[k].Reg? ==> ops[j].cursor < ops[k].cursor
  {
    if ops != [] {
      var n := |ops| - 1;
      InOrderIff(ops[..n]);
      forall c
        ensures c in Registered(ops[..n]) <==> exists k :: 0 <= k < n && ops[..n][k] == Reg(c)
      {
        RegisteredIff(ops[..n], c);
      }
      hide Registered;
      assert forall k :: 0 <= k < n ==> ops[..n][k] == ops[k];
      assert forall k :: 0 <= k < n && ops[k].Reg? ==> ops[..n][k] == Reg(ops[k].cursor);
    }
  }

  // ----- The watermark in closed form -----

  /** The registered cursors at or below which everything registered has been acked. */
  ghost function Contiguous(reg: set<int>, acked: set<int>): set<int> {
    set c | c in reg && forall d :: d in reg && d <= c ==> d in acked
  }

  ghost function Watermark(reg: set<int>, acked: set<int>): Option<int> {
    var good := Contiguous(reg, acked);
    if good == {} then None else Some(MaxOf(good))
  }

  /** What in-order registration keeps: the outstanding map is exactly the unfolded registrations. */
  ghost predicate Exact(k: Ckpt, reg: set<int>, acked: set<int>) {
    && acked <= reg
    && k.pending.Keys <= reg
    && (forall c :: c in k.pending ==> (k.pending[c] <==> c in acked))
    && (forall c :: c in reg && c !in k.pending ==> c in acked && k.safe.Some? && c <= k.safe.value)
    && (k.safe.Some? ==> k.safe.value in reg && forall c :: c in k.pending ==> k.safe.value < c)
    && Foldable(k.pending) == {}
    && (k.saved.Some? ==> k.safe.Some? && k.saved.value in reg && k.saved.value <= k.safe.value)
  }

  ghost predicate LeastUnacked(k: Ckpt) {
    forall c :: c in k.pending && (forall d :: d in k.pending ==> c <= d) ==> !k.pending[c]
  }

  lemma ExactRegister(k: Ckpt, reg: set<int>, acked: set<int>, c: int)
    requires Exact(k, reg, acked)
    requires forall d :: d in reg ==> d < c
    ensures Exact(WithCursor(k, c), reg + {c}, acked)
  {
    var k' := WithCursor(k, c);
    assert c !in k.pending;
    forall x | x in Foldable(k'.pending)
      ensures x in Foldable(k.pending)
    {
      assert x != c;
      assert forall d :: d in k.pending ==> d in k'.pending && k'.pending[d] == k.pending[d];
    }
  }

  /** The foldable cursors are acked, and they are the outstanding ones up to the largest of them. */
  lemma FoldableIs(pending: map<int, bool>)
    ensures forall c :: c in Foldable(pending) ==> c in pending && pending[c]
    ensures forall c, d :: c in Foldable(pending) && d in pending && d <= c ==> d in Foldable(pending)
  {
  }

  lemma NothingLeftToFold(pending: map<int, bool>)
    ensures Foldable(pending - Foldable(pending)) == {}
  {
    var f := Foldable(pending);
    forall x | x in pending - f
      ensures x !in Foldable(pending - f)
    {
      var d :| d in pending && d <= x && !pending[d];
      assert d in pending - f;
    }
  }

  lemma ExactFold(k: Ckpt, reg: set<int>, acked: set<int>)
    requires acked <= reg && k.pending.Keys <= reg
    requires forall c :: c in k.pending ==> (k.pending[c] <==> c in acked)
    requires forall c :: c in reg && c !in k.pending ==> c in acked && k.safe.Some? && c <= k.safe.value
    requires k.safe.Some? ==> k.safe.value in reg && forall c :: c in k.pending ==> k.safe.value < c
    requires k.saved.Some? ==> k.safe.Some? && k.saved.value in reg && k.saved.value <= k.safe.value
    ensures Exact(Fold(k), reg, acked)
  {
    hide Foldable;
    FoldableIs(k.pending);
    NothingLeftToFold(k.pending);
  }

  lemma FoldSize(k: Ckpt)
    ensures |Fold(k).pending| + Fold(k).acks == |k.pending| + k.acks
  {
    var f := Foldable(k.pending);
    assert f <= k.pending.Keys && Fold(k).pending.Keys == k.pending.Keys - f;
    assert |k.pending.Keys - f| == |k.pending.Keys| - |f|;
  }

  lemma ExactOnAck(k: Ckpt, reg: set<int>, acked: set<int>, ok: bool, c: int)
    requires Exact(k, reg, acked)
    ensures Exact(WithAck(k, ok, c), reg, if ok && c in reg then acked + {c} else acked)
    ensures |WithAck(k, ok, c).pending| + WithAck(k, ok, c).acks == |k.pending| + k.acks
  {
    hide Fold, Foldable;
    if ok {
      var k1 := if c in k.pending then k.(pending := k.pending[c := true]) else k;
      assert k1.pending.Keys == k.pending.Keys;
      assert c in reg && c !in k.pending ==> acked + {c} == acked;
      ExactFold(k1, reg, if c in reg then acked + {c} else acked);
      FoldSize(k1);
    }
  }

  /** The registered cursors a restart from the saved row would replay. */
  function Above(reg: set<int>, saved: Option<int>): set<int> {
    set c | c in reg && (saved.Some? ==> saved.value < c)
  }

  ghost predicate Accounted(k: Ckpt, reg: set<int>, acked: set<int>) {
    Exact(k, reg, acked) && |Above(reg, k.saved)| == k.acks + |k.pending|
  }

  lemma AboveGrows(reg: set<int>, saved: Option<int>, c: int)
    requires c !in reg && (saved.Some? ==> saved.value < c)
    ensures |Above(reg + {c}, saved)| == |Above(reg, saved)| + 1
  {
    assert Above(reg + {c}, saved) == Above(reg, saved) + {c};
  }

  lemma PendingGrows(k: Ckpt, c: int)
    requires c !in k.pending
    ensures |WithCursor(k, c).pending| == |k.pending| + 1
  {
    assert WithCursor(k, c).pending.Keys == k.pending.Keys + {c};
  }

  lemma AccountedRegister(k: Ckpt, reg: set<int>, acked: set<int>, c: int)
    requires Accounted(k, reg, acked) && forall d :: d in reg ==> d < c
    ensures Accounted(WithCursor(k, c), reg + {c}, acked)
  {
    hide Above, Foldable;
    ExactRegister(k, reg, acked, c);
    assert c !in k.pending && c !in reg && (k.saved.Some? ==> k.saved.value < c);
    hide Exact;
    AboveGrows(reg, k.saved, c);
    PendingGrows(k, c);
  }

  lemma AccountedSave(cfg: Cadence, s: Saver, reg: set<int>, acked: set<int>, now: real)
    requires Accounted(s.ck, reg, acked)
    ensures Accounted(WithSave(cfg, s, now).ck, reg, acked)
  {
    assert s.ck.safe.Some? ==> Above(reg, s.ck.safe) == s.ck.pending.Keys;
  }

  lemma AccountedOnAck(k: Ckpt, reg: set<int>, acked: set<int>, ok: bool, c: int)
    requires Accounted(k, reg, acked)
    ensures Accounted(WithAck(k, ok, c), reg, if ok && c in reg then acked + {c} else acked)
  {
    hide Exact, Foldable, Above;
    ExactOnAck(k, reg, acked, ok, c);
  }

  lemma AccountedStep(cfg: Cadence, s: Saver, reg: set<int>, acked: set<int>, op: Op)
    requires Accounted(s.ck, reg, acked)
    requires op.Reg? ==> forall d :: d in reg ==> d < op.cursor
    ensures Accounted(Do(cfg, s, op).ck,
                      if op.Reg? then reg + {op.cursor} else reg,
                      if op.Ack? && op.ok && op.cursor in reg then acked + {op.cursor} else acked)
  {
    hide Accounted, WithAck, WithSave, WithCursor;
    match op {
      case Reg(c) => AccountedRegister(s.ck, reg, acked, c);
      case Ack(ok, c) => AccountedOnAck(s.ck, reg, acked, ok, c);
      case Save(t) => AccountedSave(cfg, s, reg, acked, t);
    }
  }

  lemma FreshAccounted(now: real)
    ensures Accounted(FRESH.(lastSave := now), {}, {})
  {
    assert Above({}, None) == {};
    assert Foldable(map[]) == {};
  }

  lemma {:induction false} HistoryExact(cfg: Cadence, row: Option<int>, now: real, ops: seq<Op>)
    requires InOrder(ops)
    ensures Accounted(Replay(cfg, Saver(FRESH.(lastSave := now), row), ops).ck, Registered(ops), Acked(ops))
  {
    if ops == [] {
      FreshAccounted(now);
    } else {
      var before, op := ops[..|ops| - 1], ops[|ops| - 1];
      var s := Replay(cfg, Saver(FRESH.(lastSave := now), row), before);
      HistoryExact(cfg, row, now, before);
      var reg, acked := Registered(before), Acked(before);
      AccountedStep(cfg, s, reg, acked, op);
    }
  }

  /** The fold-and-delete watermark is the closed form over everything registered and acked. */
  lemma WatermarkClosedForm(cfg: Cadence, row: Option<int>, now: real, ops: seq<Op>)
    requires InOrder(ops)
    ensures Replay(cfg, Saver(FRESH.(lastSave := now), row), ops).ck.safe == Watermark(Registered(ops), Acked(ops))
  {
    HistoryExact(cfg, row, now, ops);
    var k := Replay(cfg, Saver(FRESH.(lastSave := now), row), ops).ck;
    var reg, acked := Registered(ops), Acked(ops);
    ExactIsContiguous(k, reg, acked);
  }

  lemma ExactIsContiguous(k: Ckpt, reg: set<int>, acked: set<int>)
    requires Exact(k, reg, acked)
    ensures k.safe == Watermark(reg, acked)
  {
    var good := Contiguous(reg, acked);
    assert forall c :: c in k.pending ==> c !in Foldable(k.pending);
    if k.safe.Some? {
      assert k.safe.value in good;
    }
  }

  /** So the order in which acks arrive, and the order of saves, cannot influence it. */
  lemma WatermarkIgnoresAckOrder(cfg: Cadence, row: Option<int>, now: real, a: seq<Op>, b: seq<Op>)
    requires InOrder(a) && InOrder(b)
    requires Registered(a) == Registered(b) && Acked(a) == Acked(b)
    ensures Replay(cfg, Saver(FRESH.(lastSave := now), row), a).ck.safe
         == Replay(cfg, Saver(FRESH.(lastSave := now), row), b).ck.safe
  {
    WatermarkClosedForm(cfg, row, now, a);
    WatermarkClosedForm(cfg, row, now, b);
  }

  /** What a restart would replay is exactly what the cadence has not saved plus what is outstanding. */
  lemma ReplayWindow(cfg: Cadence, row: Option<int>, now: real, ops: seq<Op>)
    requires InOrder(ops)
    ensures var k := Replay(cfg, Saver(FRESH.(lastSave := now), row), ops).ck;
            |Above(Registered(ops), k.saved)| == k.acks + |k.pending|
  {
    HistoryExact(cfg, row, now, ops);
  }

  lemma FoldLeavesLeastUnacked(k: Ckpt)
    ensures LeastUnacked(Fold(k))
  {
    var f, left := Foldable(k.pending), Fold(k).pending;
    forall c | c in left && forall d :: d in left ==> c <= d
      ensures !left[c]
    {
      assert c in k.pending && c !in f;
      var d :| d in k.pending && d <= c && !k.pending[d];
      assert d !in f && d in left;
    }
  }

  lemma RegisterLeavesLeastUnacked(k: Ckpt, c: int)
    requires LeastUnacked(k)
    ensures LeastUnacked(WithCursor(k, c))
  {
    var more := WithCursor(k, c).pending;
    forall x | x in more && forall d :: d in more ==> x <= d
      ensures !more[x]
    {
      assert forall d :: d in k.pending ==> d in more;
    }
  }

  lemma AckLeavesLeastUnacked(k: Ckpt, ok: bool, c: int)
    requires LeastUnacked(k)
    ensures LeastUnacked(WithAck(k, ok, c))
  {
    hide LeastUnacked, Fold;
    FoldLeavesLeastUnacked(k);
    FoldLeavesLeastUnacked(k.(pending := k.pending[c := true]));
  }

  /** Whatever is registered and acked, in any order and re-entrantly from any poll, the outstanding map is
      empty or its least cursor is unacked. */
  lemma {:induction false} LeastAlwaysUnacked(cfg: Cadence, s: Saver, ops: seq<Op>)
    requires LeastUnacked(s.ck)
    ensures LeastUnacked(Replay(cfg, s, ops).ck)
  {
    if ops != [] {
      var before, op := ops[..|ops| - 1], ops[|ops| - 1];
      LeastAlwaysUnacked(cfg, s, before);
      var k := Replay(cfg, s, before).ck;
      match op {
        case Reg(c) => RegisterLeavesLeastUnacked(k, c);
        case Ack(ok, c) => AckLeavesLeastUnacked(k, ok, c);
        case Save(now) => SaveLeavesLeastUnacked(cfg, Replay(cfg, s, before), now);
      }
      hide LeastUnacked, WithAck, WithSave, WithCursor;
    }
  }

  lemma SaveLeavesLeastUnacked(cfg: Cadence, s: Saver, now: real)
    requires LeastUnacked(s.ck)
    ensures LeastUnacked(WithSave(cfg, s, now).ck)
  {
  }

  /** The cursors an operation folds: those that leave the outstanding map. */
  ghost function FoldedBy(cfg: Cadence, s: Saver, op: Op): set<int> {
    s.ck.pending.Keys - Do(cfg, s, op).ck.pending.Keys
  }

  /** The folds since the last save of a history, and the time of that save. */
  ghost function FoldsSince(cfg: Cadence, s: Saver, ops: seq<Op>): nat {
    if ops == [] then 0 else
      var before, op := ops[..|ops| - 1], ops[|ops| - 1];
      var t := Replay(cfg, s, before);
      if op.Save? && Due(cfg, t.ck, op.now) then 0 else FoldsSince(cfg, s, before) + |FoldedBy(cfg, t, op)|
  }

  ghost function LastSaved(cfg: Cadence, s: Saver, ops: seq<Op>): real {
    if ops == [] then s.ck.lastSave else
      var before, op := ops[..|ops| - 1], ops[|ops| - 1];
      if op.Save? && Due(cfg, Replay(cfg, s, before).ck, op.now) then op.now else LastSaved(cfg, s, before)
  }

  lemma StepFolds(cfg: Cadence, s: Saver, op: Op)
    ensures !(op.Save? && Due(cfg, s.ck, op.now)) ==>
              && Do(cfg, s, op).ck.acks == s.ck.acks + |FoldedBy(cfg, s, op)|
              && Do(cfg, s, op).ck.lastSave == s.ck.lastSave
  {
    match op {
      case Reg(c) => assert FoldedBy(cfg, s, op) == {};
      case Ack(ok, c) =>
        var k := if c in s.ck.pending then s.ck.(pending := s.ck.pending[c := true]) else s.ck;
        assert k.pending.Keys == s.ck.pending.Keys;
        assert Fold(k).pending.Keys == k.pending.Keys - Foldable(k.pending);
        assert Foldable(k.pending) <= k.pending.Keys;
        assert ok ==> FoldedBy(cfg, s, op) == Foldable(k.pending);
        assert !ok ==> FoldedBy(cfg, s, op) == {};
      case Save(now) => assert !Due(cfg, s.ck, now) ==> FoldedBy(cfg, s, op) == {};
    }
  }

  /** The counter is the number of folds since the last save, and the clock that save's. */
  lemma {:induction false} CountersAreHistory(cfg: Cadence, s: Saver, ops: seq<Op>)
    requires s.ck.acks == 0
    ensures Replay(cfg, s, ops).ck.acks == FoldsSince(cfg, s, ops)
    ensures Replay(cfg, s, ops).ck.lastSave == LastSaved(cfg, s, ops)
  {
    hide Fold, Foldable, FoldedBy, WithAck, WithCursor;
    if ops != [] {
      CountersAreHistory(cfg, s, ops[..|ops| - 1]);
      StepFolds(cfg, Replay(cfg, s, ops[..|ops| - 1]), ops[|ops| - 1]);
    }
  }

  /** Right after a save opportunity in any history, the watermark is saved, or fewer cursors than the
      cadence asks for have been folded, and less time has passed, since the last save. */
  lemma CadenceBound(cfg: Cadence, s: Saver, ops: seq<Op>, now: real)
    requires s.ck.acks == 0
    ensures var all := ops + [Save(now)]; var k := Replay(cfg, s, all).ck;
            || k.safe.None? || k.safe == k.saved
            || (FoldsSince(cfg, s, all) < cfg.acks && now - LastSaved(cfg, s, all) < cfg.seconds)
  {
    hide FoldsSince, LastSaved;
    var all := ops + [Save(now)];
    assert all[..|ops|] == ops;
    CountersAreHistory(cfg, s, all);
    assert Replay(cfg, s, all) == WithSave(cfg, Replay(cfg, s, ops), now);
  }

  /** A save opportunity in any history writes the watermark if and only if it is new and, since the last save,
      the cadence's number of cursors has been folded or its time has passed; otherwise nothing changes. */
  lemma SavesIff(cfg: Cadence, s: Saver, ops: seq<Op>, now: real)
    requires s.ck.acks == 0
    ensures var before := Replay(cfg, s, ops); var after := Replay(cfg, s, ops + [Save(now)]);
            if && before.ck.safe.Some? && before.ck.safe != before.ck.saved
               && (FoldsSince(cfg, s, ops) >= cfg.acks || now - LastSaved(cfg, s, ops) >= cfg.seconds)
            then after.row == before.ck.safe && after.ck.saved == before.ck.safe
            else after == before
  {
    hide FoldsSince, LastSaved;
    assert (ops + [Save(now)])[..|ops|] == ops;
    CountersAreHistory(cfg, s, ops);
  }

  // ----- What is in the row -----

  /** The row is what was last saved, or what it was before the process; what was saved was once the watermark. */
  ghost predicate RowIsSaved(s: Saver, row: Option<int>) {
    && s.row == (if s.ck.saved.Some? then s.ck.saved else row)
    && (s.ck.saved.Some? ==> s.ck.safe.Some?)
  }

  lemma AckKeepsSaved(k: Ckpt, ok: bool, c: int)
    ensures WithAck(k, ok, c).saved == k.saved
    ensures k.safe.Some? ==> WithAck(k, ok, c).safe.Some?
  {
    hide Foldable;
  }

  lemma {:induction false} RowAlwaysSaved(cfg: Cadence, row: Option<int>, now: real, ops: seq<Op>)
    ensures RowIsSaved(Replay(cfg, Saver(FRESH.(lastSave := now), row), ops), row)
  {
    hide WithAck;
    if ops != [] {
      var before, op := ops[..|ops| - 1], ops[|ops| - 1];
      RowAlwaysSaved(cfg, row, now, before);
      if op.Ack? {
        AckKeepsSaved(Replay(cfg, Saver(FRESH.(lastSave := now), row), before).ck, op.ok, op.cursor);
      }
    }
  }

  /** After any history, whatever was saved on the way, the final save leaves the watermark in the row; without
      one the row is as it was. */
  lemma FinalRow(cfg: Cadence, row: Option<int>, now: real, ops: seq<Op>)
    ensures var end := Replay(cfg, Saver(FRESH.(lastSave := now), row), ops);
            WithFinalSave(end).row == if end.ck.safe.Some? then end.ck.safe else row
  {
    RowAlwaysSaved(cfg, row, now, ops);
  }

  /** So with registrations in order the row a process leaves is the greatest registered cursor at or below which
      everything registered has been acked. */
  lemma FinalRowIsWatermark(cfg: Cadence, row: Option<int>, now: real, ops: seq<Op>)
    requires InOrder(ops)
    ensures var best := Watermark(Registered(ops), Acked(ops));
            WithFinalSave(Replay(cfg, Saver(FRESH.(lastSave := now), row), ops)).row
            == if best.Some? then best else row
  {
    hide Replay, Watermark, WithFinalSave;
    WatermarkClosedForm(cfg, row, now, ops);
    FinalRow(cfg, row, now, ops);
  }

  // ----- When the watermark moves back -----

  /** Acking c makes the next cursors foldable, and every one of them lies below the watermark. */
  ghost predicate MovesBack(k: Ckpt, ok: bool, c: int) {
    && ok && k.safe.Some? && c in k.pending && c < k.safe.value
    && (forall d :: d in k.pending ==> c <= d)
    && (forall d :: d in k.pending && d >= k.safe.value ==>
          exists e :: e in k.pending && e != c && e <= d && !k.pending[e])
  }

  lemma NoneFoldable(k: Ckpt)
    requires LeastUnacked(k)
    ensures Foldable(k.pending) == {} && Fold(k) == k
  {
    if k.pending.Keys != {} {
      HasSmallest(k.pending.Keys);
      var d :| d in k.pending.Keys && forall x :: x in k.pending.Keys ==> d <= x;
      NothingToFold(k, d);
      assert forall x :: x in Foldable(k.pending) ==> d in k.pending && d <= x;
    } else {
      NothingToFold(k, 0);
    }
  }

  lemma NotLeastAcked(k: Ckpt, c: int)
    requires LeastUnacked(k) && c in k.pending && exists d :: d in k.pending && d < c
    ensures LeastUnacked(k.(pending := k.pending[c := true]))
  {
    var more := k.pending[c := true];
    forall x | x in more && forall d :: d in more ==> x <= d
      ensures !more[x]
    {
      assert forall d :: d in k.pending ==> d in more;
    }
  }

  lemma LeastAcked(k: Ckpt, c: int)
    requires k.safe.Some? && c in k.pending && forall d :: d in k.pending ==> c <= d
    ensures var safe := Fold(k.(pending := k.pending[c := true])).safe;
            safe.Some? && (safe.value < k.safe.value <==> MovesBack(k, true, c))
  {
    var s, more := k.safe.value, k.pending[c := true];
    var f := Foldable(more);
    assert c in f;
    forall d | d in k.pending
      ensures d in f <==> forall e :: e in k.pending && e != c && e <= d ==> k.pending[e]
    {
      assert forall e :: e in more <==> e in k.pending;
    }
    if MaxOf(f) < s {
      forall d | d in k.pending && d >= s
        ensures exists e :: e in k.pending && e != c && e <= d && !k.pending[e]
      {
        assert d !in f;
      }
    }
  }

  /** A delivery callback moves the watermark back if and only if it acks the least outstanding cursor and
      everything that becomes foldable lies below the watermark. */
  lemma AckMovesBackIff(k: Ckpt, ok: bool, c: int)
    requires LeastUnacked(k) && k.safe.Some?
    ensures var safe := WithAck(k, ok, c).safe;
            safe.Some? && (safe.value < k.safe.value <==> MovesBack(k, ok, c))
  {
    hide LeastUnacked, Fold, Foldable;
    if ok {
      if c !in k.pending {
        NoneFoldable(k);
      } else if d :| d in k.pending && d < c {
        NotLeastAcked(k, c);
        NoneFoldable(k.(pending := k.pending[c := true]));
      } else {
        LeastAcked(k, c);
      }
    }
  }

  /** Over any history whatsoever, an operation moves the watermark back exactly in that case. */
  lemma RegressesIff(cfg: Cadence, row: Option<int>, now: real, ops: seq<Op>, op: Op)
    requires Replay(cfg, Saver(FRESH.(lastSave := now), row), ops).ck.safe.Some?
    ensures var k := Replay(cfg, Saver(FRESH.(lastSave := now), row), ops).ck;
            var t := Replay(cfg, Saver(FRESH.(lastSave := now), row), ops + [op]).ck;
            && t.safe.Some?
            && (t.safe.value < k.safe.value <==> op.Ack? && MovesBack(k, op.ok, op.cursor))
  {
    hide LeastUnacked, WithAck, MovesBack;
    var start := Saver(FRESH.(lastSave := now), row);
    assert (ops + [op])[..|ops|] == ops;
    FreshLeast(now);
    LeastAlwaysUnacked(cfg, start, ops);
    if op.Ack? {
      AckMovesBackIff(Replay(cfg, start, ops).ck, op.ok, op.cursor);
    }
  }

  lemma FreshLeast(now: real)
    ensures LeastUnacked(FRESH.(lastSave := now))
  {
  }

  lemma LateLeast(k: Ckpt, c: int)
    requires LeastUnacked(k) && c !in k.pending && forall d :: d in k.pending ==> c < d
    ensures Fold(k.(pending := k.pending[c := true])).safe == Some(c)
  {
    var more := k.pending[c := true];
    assert forall d :: d in more ==> c <= d;
    FoldableFirst(more, c);
    assert more - {c} == k.pending;
    NoneFoldable(k);
    assert Foldable(more) == {c};
  }

  lemma LateBehind(k: Ckpt, c: int, d: int)
    requires LeastUnacked(k) && c !in k.pending && d in k.pending && d <= c
    ensures Fold(k.(pending := k.pending[c := true])).safe == k.safe
  {
    RegisterLeavesLeastUnacked(k, c);
    var registered := WithCursor(k, c);
    assert d in registered.pending && d < c;
    NotLeastAcked(registered, c);
    assert registered.pending[c := true] == k.pending[c := true];
    hide LeastUnacked;
    NoneFoldable(k.(pending := k.pending[c := true]));
  }

  /** A late cursor: registering and acking one that is not outstanding moves the watermark to it if it lies
      below everything outstanding, and nowhere otherwise; so back exactly if it also lies below the watermark. */
  lemma LateCursorRegresses(k: Ckpt, s: int, c: int)
    requires LeastUnacked(k) && k.safe == Some(s) && c !in k.pending
    ensures var safe := WithAck(WithCursor(k, c), true, c).safe;
            && safe == Some(if forall d :: d in k.pending ==> c < d then c else s)
            && (safe.value < s <==> c < s && forall d :: d in k.pending ==> c < d)
  {
    hide LeastUnacked, Fold;
    assert k.pending[c := false][c := true] == k.pending[c := true];
    if d :| d in k.pending && d <= c {
      LateBehind(k, c, d);
    } else {
      LateLeast(k, c);
    }
  }

  // ----- Soundness without the strictness assumption -----

  /** What registration in non-decreasing order keeps, when the last event may be seen again. */
  ghost predicate Sound(k: Ckpt, reg: set<int>, acked: set<int>) {
    && k.pending.Keys <= reg
    && (forall c :: c in k.pending && k.pending[c] ==> c in acked)
    && (forall c :: c in reg && c !in k.pending ==> c in acked)
    && (k.safe.Some? ==>
          && k.safe.value in reg
          && (forall c :: c in reg && c <= k.safe.value ==> c in acked)
          && (forall c :: c in k.pending ==> k.safe.value <= c))
    && (k.saved.Some? ==> k.safe.Some? && k.saved.value <= k.safe.value)
  }

  lemma SoundRegister(k: Ckpt, reg: set<int>, acked: set<int>, c: int)
    requires Sound(k, reg, acked)
    requires forall d :: d in reg ==> d <= c
    ensures Sound(WithCursor(k, c), reg + {c}, acked)
  {
  }

  lemma SoundOnAck(k: Ckpt, reg: set<int>, acked: set<int>, ok: bool, c: int)
    requires Sound(k, reg, acked)
    ensures Sound(WithAck(k, ok, c), reg, if ok then acked + {c} else acked)
    ensures k.safe.Some? ==> WithAck(k, ok, c).safe.Some? && k.safe.value <= WithAck(k, ok, c).safe.value
  {
    if ok {
      var k1 := if c in k.pending then k.(pending := k.pending[c := true]) else k;
      assert k1.pending.Keys == k.pending.Keys;
    }
  }

  /** Each registration is at or above all earlier ones. */
  predicate NonDecreasing(ops: seq<Op>) {
    ops == [] ||
    (var op := ops[|ops| - 1];
     var before := ops[..|ops| - 1];
     NonDecreasing(before) && (op.Reg? ==> forall c :: c in Registered(before) ==> c <= op.cursor))
  }

  lemma SoundAck(k: Ckpt, reg: set<int>, acked: set<int>, ok: bool, c: int)
    requires Sound(k, reg, acked)
    ensures Sound(WithAck(k, ok, c), reg, if ok && c in reg then acked + {c} else acked)
    ensures k.safe.Some? ==> WithAck(k, ok, c).safe.Some? && k.safe.value <= WithAck(k, ok, c).safe.value
  {
    hide WithAck;
    SoundOnAck(k, reg, acked, ok, c);
  }

  lemma SoundStep(cfg: Cadence, s: Saver, reg: set<int>, acked: set<int>, op: Op)
    requires Sound(s.ck, reg, acked) && (op.Reg? ==> forall d :: d in reg ==> d <= op.cursor)
    ensures Sound(Do(cfg, s, op).ck, if op.Reg? then reg + {op.cursor} else reg,
                  if op.Ack? && op.ok && op.cursor in reg then acked + {op.cursor} else acked)
    ensures s.ck.safe.Some? ==> Do(cfg, s, op).ck.safe.Some? && s.ck.safe.value <= Do(cfg, s, op).ck.safe.value
  {
    hide WithAck;
    match op {
      case Reg(c) => SoundRegister(s.ck, reg, acked, c);
      case Ack(ok, c) => SoundAck(s.ck, reg, acked, ok, c);
      case Save(now) =>
    }
  }

  lemma {:induction false} SoundHistory(cfg: Cadence, row: Option<int>, now: real, ops: seq<Op>)
    requires NonDecreasing(ops)
    ensures Sound(Replay(cfg, Saver(FRESH.(lastSave := now), row), ops).ck, Registered(ops), Acked(ops))
  {
    hide Sound, Do;
    if ops == [] {
      FreshSound(now);
    } else {
      var before, op := ops[..|ops| - 1], ops[|ops| - 1];
      SoundHistory(cfg, row, now, before);
      SoundStep(cfg, Replay(cfg, Saver(FRESH.(lastSave := now), row), before), Registered(before), Acked(before), op);
    }
  }

  lemma FreshSound(now: real)
    ensures Sound(FRESH.(lastSave := now), {}, {})
  {
  }

  /** With non-decreasing registrations, repeats of folded cursors included, the watermark never moves back
      and never passes a registered cursor that has not been acked. */
  lemma {:induction false} NonDecreasingNeverRegresses(cfg: Cadence, row: Option<int>, now: real, ops: seq<Op>, n: nat)
    requires NonDecreasing(ops) && n <= |ops|
    ensures var early := Replay(cfg, Saver(FRESH.(lastSave := now), row), ops[..n]).ck.safe;
            var late := Replay(cfg, Saver(FRESH.(lastSave := now), row), ops).ck.safe;
            && (early.Some? ==> late.Some? && early.value <= late.value)
            && (late.Some? ==>
                  late.value in Registered(ops)
                  && forall c :: c in Registered(ops) && c <= late.value ==> c in Acked(ops))
  {
    SoundHistory(cfg, row, now, ops);
    hide Do, Registered, Acked;
    if n == |ops| {
      assert ops[..n] == ops;
    } else {
      var before, op := ops[..|ops| - 1], ops[|ops| - 1];
      assert before[..n] == ops[..n];
      SoundHistory(cfg, row, now, before);
      NonDecreasingNeverRegresses(cfg, row, now, before, n);
      LastInOrder(ops);
      SoundStep(cfg, Replay(cfg, Saver(FRESH.(lastSave := now), row), before), Registered(before), Acked(before), op);
    }
  }

  lemma LastInOrder(ops: seq<Op>)
    requires NonDecreasing(ops) && ops != []
    ensures var before, op := Registered(ops[..|ops| - 1]), ops[|ops| - 1];
            op.Reg? ==> forall c :: c in before ==> c <= op.cursor
  {
  }
}
