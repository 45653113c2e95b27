// The bronze archiver as a crash-prone state machine over partition logs: records are read into a
// batch, a batch is appended and then committed, undecodable records are dead-lettered and committed
// past on the side, and the process may die between any two of these effects.
module Archive {
  import opened Basics
  import opened Posts

  /** What the decoder makes of a log record. */
  datatype Rec = Good(post: Post) | Bad

  type Logs = seq<seq<Rec>>

  /** A record's place: partition and offset. */
  datatype Id = Id(p: nat, o: nat)

  predicate InLog(logs: Logs, id: Id) {
    id.p < |logs| && id.o < |logs[id.p]|
  }

  predicate IsGood(logs: Logs, id: Id) {
    InLog(logs, id) && logs[id.p][id.o].Good?
  }

  /** `committed`, `bronze` and `dlq` are durable; `pos` and `batch` die with the process. The rest is
      history: rows a crash dropped below the committed offset, rows appended by flushes that crashed
      before committing, rows whose flush committed, the partitions in which an undecodable record was read
      while the batch held an earlier row of that partition, and, crash by crash, the undecodable records
      already sent that the next process has to send again. */
  datatype St = St(
    committed: seq<nat>,
    bronze: multiset<Id>,
    dlq: multiset<Id>,
    pos: seq<nat>,
    batch: seq<Id>,
    lost: set<Id>,
    torn: multiset<Id>,
    settled: set<Id>,
    overtaken: set<nat>,
    resent: multiset<Id>)

  datatype Action =
    | Read(p: nat)
    | Flush
    | Crash
    | CrashAfterAppend
    | CrashAfterSend(p: nat)

  /** The highest batched offset of a partition, or -1. */
  function MaxOffset(batch: seq<Id>, p: nat): (m: int)
    ensures m >= -1
    ensures forall k :: 0 <= k < |batch| && batch[k].p == p ==> batch[k].o <= m
    ensures m >= 0 ==> exists k :: 0 <= k < |batch| && batch[k] == Id(p, m)
  {
    if batch == [] then -1 else
      var last := batch[|batch| - 1];
      var prev := MaxOffset(batch[..|batch| - 1], p);
      if last.p == p && last.o > prev then last.o else prev
  }

  /** The committed offsets after committing each partition's next-to-read offset. */
  function Committed(committed: seq<nat>, batch: seq<Id>): seq<nat> {
    seq(|committed|, p requires 0 <= p < |committed| =>
      if MaxOffset(batch, p) >= 0 then MaxOffset(batch, p) + 1 else committed[p])
  }

  ghost predicate Holds(batch: seq<Id>, p: nat) {
    exists k :: 0 <= k < |batch| && batch[k].p == p
  }

  ghost function Batched(st: St): set<Id> {
    set k | 0 <= k < |st.batch| :: st.batch[k]
  }

  predicate CanRead(logs: Logs, st: St, p: nat) {
    p < |logs| && p < |st.pos| && p < |st.committed| && st.pos[p] < |logs[p]|
  }

  /** A decodable record joins the batch. */
  function AfterGood(st: St, p: nat): St
    requires p < |st.pos|
  {
    st.(pos := st.pos[p := st.pos[p] + 1], batch := st.batch + [Id(p, st.pos[p])])
  }

  /** An undecodable record is dead-lettered and its partition committed past it. */
  ghost function AfterBad(st: St, p: nat): St
    requires p < |st.pos| && p < |st.committed|
  {
    st.(pos := st.pos[p := st.pos[p] + 1],
        dlq := st.dlq + multiset{Id(p, st.pos[p])},
        committed := st.committed[p := st.pos[p] + 1],
        overtaken := if Holds(st.batch, p) then st.overtaken + {p} else st.overtaken)
  }

  ghost function AfterRead(logs: Logs, st: St, p: nat): St
    requires CanRead(logs, st, p)
  {
    if logs[p][st.pos[p]].Good? then AfterGood(st, p) else AfterBad(st, p)
  }

  ghost function AfterFlush(st: St): St {
    st.(bronze := st.bronze + multiset(st.batch),
        committed := Committed(st.committed, st.batch),
        settled := st.settled + Batched(st),
        batch := [],
        overtaken := {})
  }

  /** The dead-lettered records this process has passed and committed no further than. */
  ghost function Reopened(st: St): set<Id> {
    set id | id in st.dlq && id.p < |st.committed| && id.p < |st.pos| && st.committed[id.p] <= id.o < st.pos[id.p]
  }

  /** The process is gone; the next one resumes from the committed offsets. */
  ghost function AfterCrash(st: St): St {
    st.(pos := st.committed,
        batch := [],
        overtaken := {},
        resent := st.resent + multiset(Reopened(st)),
        lost := st.lost + (set id | id in Batched(st) && id.p < |st.committed| &&
                                    id.o < st.committed[id.p] && id !in st.bronze))
  }

  ghost function AfterTornFlush(st: St): St {
    AfterCrash(Torn(st))
  }

  ghost function Apply(logs: Logs, st: St, a: Action): St {
    match a
    case Read(p) => if CanRead(logs, st, p) then AfterRead(logs, st, p) else st
    case Flush => if st.batch == [] then st else AfterFlush(st)
    case Crash => AfterCrash(st)
    case CrashAfterAppend => if st.batch == [] then st else AfterTornFlush(st)
    case CrashAfterSend(p) =>
      if BadNext(logs, st, p) then AfterCrash(Sent(st, p)) else st
  }

  ghost function Exec(logs: Logs, st: St, run: seq<Action>): St {
    if run == [] then st else Apply(logs, Exec(logs, st, run[..|run| - 1]), run[|run| - 1])
  }

  // ----- What every step keeps -----

  ghost predicate Shape(logs: Logs, st: St) {
    && |st.committed| == |st.pos| == |logs|
    && forall p :: 0 <= p < |logs| ==> st.committed[p] <= st.pos[p] <= |logs[p]|
  }

  /** Batched rows are decodable records that have been read. */
  ghost predicate Rows(logs: Logs, st: St)
    requires Shape(logs, st)
  {
    forall id :: id in st.batch ==> IsGood(logs, id) && id.o < st.pos[id.p]
  }

  /** A partition's rows are batched in offset order. */
  ghost predicate Ordered(batch: seq<Id>) {
    forall j, k :: 0 <= j < k < |batch| && batch[j].p == batch[k].p ==> batch[j].o < batch[k].o
  }

  /** Settled and lost rows are below their committed offset and never read again. */
  ghost predicate Sealed(logs: Logs, st: St)
    requires Shape(logs, st)
  {
    forall id :: id in st.settled + st.lost ==> IsGood(logs, id) && id.o < st.committed[id.p] && id !in st.batch
  }

  /** Bronze is what crashed flushes appended plus each committed row once; a lost row is in neither. */
  ghost predicate Balance(st: St) {
    st.bronze == st.torn + multiset(st.settled) && forall id :: id in st.lost ==> id !in st.bronze
  }

  /** Only decodable records reach bronze, and only undecodable ones the dead-letter topic. */
  ghost predicate Provenance(logs: Logs, st: St) {
    && (forall id :: id in st.torn ==> IsGood(logs, id))
    && (forall id :: id in st.dlq ==> InLog(logs, id) && !IsGood(logs, id))
  }

  ghost predicate Kept(st: St, id: Id) {
    id in st.bronze || id in st.batch || id in st.lost
  }

  /** Every record below the read position has been accounted for. */
  ghost predicate Accounted(logs: Logs, st: St)
    requires Shape(logs, st)
  {
    forall id :: InLog(logs, id) && id.o < st.pos[id.p] ==>
      if IsGood(logs, id) then Kept(st, id) else id in st.dlq
  }

  /** A decodable record that was read and is not batched is below the committed offset and older than
      every batched row of its partition. */
  ghost predicate Tail(logs: Logs, st: St)
    requires Shape(logs, st)
  {
    forall id :: IsGood(logs, id) && id.o < st.pos[id.p] && id !in st.batch ==>
      id.o < st.committed[id.p] && forall row :: row in st.batch && row.p == id.p ==> id.o < row.o
  }

  /** A partition has a batched row below its committed offset exactly when it has been overtaken. */
  ghost predicate Overtaking(logs: Logs, st: St)
    requires Shape(logs, st)
  {
    && (forall p :: p in st.overtaken ==> p < |logs|)
    && (forall p :: 0 <= p < |logs| ==> (p in st.overtaken <==> Behind(st.batch, p, st.committed[p])))
  }

  ghost predicate Behind(batch: seq<Id>, p: nat, committed: nat) {
    exists k :: 0 <= k < |batch| && batch[k].p == p && batch[k].o < committed
  }

  /** An undecodable record was sent once for each time it had to be sent again, and once if it is passed. */
  ghost predicate Letters(logs: Logs, st: St)
    requires Shape(logs, st)
  {
    forall id :: InLog(logs, id) && !IsGood(logs, id) ==>
      st.dlq[id] == st.resent[id] + (if id.o < st.pos[id.p] then 1 else 0)
  }

  ghost predicate Inv(logs: Logs, st: St) {
    && Shape(logs, st) && Rows(logs, st) && Ordered(st.batch) && Sealed(logs, st) && Balance(st)
    && Provenance(logs, st) && Accounted(logs, st) && Tail(logs, st) && Overtaking(logs, st) && Letters(logs, st)
  }

  // Reading one record.

  lemma ReadRows(logs: Logs, st: St, p: nat)
    requires Shape(logs, st) && Rows(logs, st) && Ordered(st.batch) && CanRead(logs, st, p)
    ensures Shape(logs, AfterRead(logs, st, p))
    ensures Rows(logs, AfterRead(logs, st, p)) && Ordered(AfterRead(logs, st, p).batch)
  {
    var t := AfterRead(logs, st, p);
    assert forall k :: 0 <= k < |st.batch| ==> st.batch[k] in st.batch && t.batch[k] == st.batch[k];
  }

  lemma ReadSealed(logs: Logs, st: St, p: nat)
    requires Shape(logs, st) && Sealed(logs, st) && CanRead(logs, st, p)
    requires Shape(logs, AfterRead(logs, st, p))
    ensures Sealed(logs, AfterRead(logs, st, p))
  {
  }

  lemma ReadProvenance(logs: Logs, st: St, p: nat)
    requires Balance(st) && Provenance(logs, st) && CanRead(logs, st, p)
    ensures Balance(AfterRead(logs, st, p)) && Provenance(logs, AfterRead(logs, st, p))
  {
  }

  lemma ReadAccounted(logs: Logs, st: St, p: nat)
    requires Shape(logs, st) && Accounted(logs, st) && CanRead(logs, st, p)
    requires Shape(logs, AfterRead(logs, st, p))
    ensures Accounted(logs, AfterRead(logs, st, p))
  {
  }

  lemma ReadTail(logs: Logs, st: St, p: nat)
    requires Shape(logs, st) && Rows(logs, st) && Tail(logs, st) && CanRead(logs, st, p)
    requires Shape(logs, AfterRead(logs, st, p))
    ensures Tail(logs, AfterRead(logs, st, p))
  {
  }

  lemma ReadLetters(logs: Logs, st: St, p: nat)
    requires Shape(logs, st) && Letters(logs, st) && CanRead(logs, st, p)
    requires Shape(logs, AfterRead(logs, st, p))
    ensures Letters(logs, AfterRead(logs, st, p))
  {
    var t := AfterRead(logs, st, p);
    forall id | InLog(logs, id) && !IsGood(logs, id)
      ensures t.dlq[id] == t.resent[id] + (if id.o < t.pos[id.p] then 1 else 0)
    {
      assert st.dlq[id] == st.resent[id] + (if id.o < st.pos[id.p] then 1 else 0);
    }
  }

  lemma GoodOvertaking(logs: Logs, st: St, p: nat)
    requires Shape(logs, st) && Overtaking(logs, st) && p < |logs|
    requires Shape(logs, AfterGood(st, p))
    ensures Overtaking(logs, AfterGood(st, p))
  {
    var t := AfterGood(st, p);
    forall q | 0 <= q < |logs|
      ensures Behind(t.batch, q, t.committed[q]) <==> Behind(st.batch, q, st.committed[q])
    {
      assert forall k :: 0 <= k < |st.batch| ==> t.batch[k] == st.batch[k];
      assert t.batch[|st.batch|].o == st.pos[p] >= st.committed[p];
    }
  }

  lemma BadOvertaking(logs: Logs, st: St, p: nat)
    requires Shape(logs, st) && Rows(logs, st) && Overtaking(logs, st) && p < |logs|
    requires Shape(logs, AfterBad(st, p))
    ensures Overtaking(logs, AfterBad(st, p))
  {
    var c := st.pos[p] + 1;
    assert forall k :: 0 <= k < |st.batch| ==> st.batch[k] in st.batch;
    assert Behind(st.batch, p, c) <==> Holds(st.batch, p);
    assert Behind(st.batch, p, st.committed[p]) ==> Behind(st.batch, p, c);
  }

  lemma ReadKeeps(logs: Logs, st: St, p: nat)
    requires Inv(logs, st) && CanRead(logs, st, p)
    ensures Inv(logs, AfterRead(logs, st, p))
  {
    ReadRows(logs, st, p);
    ReadSealed(logs, st, p);
    ReadProvenance(logs, st, p);
    ReadAccounted(logs, st, p);
    ReadTail(logs, st, p);
    ReadLetters(logs, st, p);
    if logs[p][st.pos[p]].Good? {
      GoodOvertaking(logs, st, p);
    } else {
      BadOvertaking(logs, st, p);
    }
  }

  // Flushing the batch.

  lemma {:induction false} OnceBatched(batch: seq<Id>, id: Id)
    requires Ordered(batch)
    ensures multiset(batch)[id] == if id in batch then 1 else 0
  {
    if batch != [] {
      var n := |batch| - 1;
      OnceBatched(batch[..n], id);
      assert batch == batch[..n] + [batch[n]];
    }
  }

  lemma OrderedOnce(batch: seq<Id>)
    requires Ordered(batch)
    ensures multiset(batch) == multiset(set id | id in batch)
  {
    forall id
      ensures multiset(batch)[id] == multiset(set id | id in batch)[id]
    {
      OnceBatched(batch, id);
    }
  }

  lemma FlushBalance(st: St)
    requires Ordered(st.batch) && Balance(st)
    requires forall id :: id in st.settled + st.lost ==> id !in st.batch
    ensures Balance(AfterFlush(st))
  {
    OrderedOnce(st.batch);
    assert Batched(st) == set id | id in st.batch;
    assert multiset(st.settled + Batched(st)) == multiset(st.settled) + multiset(Batched(st));
  }

  /** Where a flush leaves the committed offset of the partition of a row that was read before it. */
  lemma FlushCommits(logs: Logs, st: St, id: Id)
    requires Shape(logs, st) && Tail(logs, st)
    requires IsGood(logs, id) && id.o < st.pos[id.p]
    ensures id.o < Committed(st.committed, st.batch)[id.p]
  {
    var m := MaxOffset(st.batch, id.p);
    if id !in st.batch && m >= 0 {
      assert Id(id.p, m) in st.batch;
    }
  }

  lemma FlushShape(logs: Logs, st: St)
    requires Shape(logs, st) && Rows(logs, st)
    ensures Shape(logs, AfterFlush(st))
  {
    forall p | 0 <= p < |logs|
      ensures Committed(st.committed, st.batch)[p] <= st.pos[p]
    {
      var m := MaxOffset(st.batch, p);
      assert m >= 0 ==> Id(p, m) in st.batch;
    }
  }

  lemma FlushSealed(logs: Logs, st: St)
    requires Shape(logs, st) && Rows(logs, st) && Sealed(logs, st) && Tail(logs, st) && Shape(logs, AfterFlush(st))
    ensures Sealed(logs, AfterFlush(st)) && Tail(logs, AfterFlush(st))
  {
    var t := AfterFlush(st);
    forall id | IsGood(logs, id) && id.o < st.pos[id.p]
      ensures id.o < t.committed[id.p]
    {
      FlushCommits(logs, st, id);
    }
    hide Committed;
    assert forall id :: id in st.settled + st.lost ==> id.o < st.pos[id.p];
  }

  lemma FlushAccounted(logs: Logs, st: St)
    requires Shape(logs, st) && Accounted(logs, st) && Shape(logs, AfterFlush(st))
    ensures Accounted(logs, AfterFlush(st)) && Overtaking(logs, AfterFlush(st))
  {
    hide Committed, Shape;
  }

  lemma FlushRest(logs: Logs, st: St)
    requires Shape(logs, st) && Provenance(logs, st) && Letters(logs, st) && Shape(logs, AfterFlush(st))
    ensures Rows(logs, AfterFlush(st)) && Ordered(AfterFlush(st).batch) && Provenance(logs, AfterFlush(st))
    ensures Letters(logs, AfterFlush(st))
  {
    hide Committed;
  }

  lemma FlushKeeps(logs: Logs, st: St)
    requires Inv(logs, st)
    ensures Inv(logs, AfterFlush(st))
  {
    FlushShape(logs, st);
    FlushSealed(logs, st);
    assert forall id :: id in st.settled + st.lost ==> id !in st.batch;
    FlushBalance(st);
    FlushAccounted(logs, st);
    FlushRest(logs, st);
    hide AfterFlush, Shape, Rows, Ordered, Sealed, Balance, Provenance, Accounted, Tail, Overtaking, Letters;
  }

  // Dying.

  lemma CrashSealed(logs: Logs, st: St)
    requires Shape(logs, st) && Rows(logs, st) && Sealed(logs, st)
    ensures Shape(logs, AfterCrash(st)) && Rows(logs, AfterCrash(st)) && Sealed(logs, AfterCrash(st))
  {
  }

  lemma CrashTail(logs: Logs, st: St)
    requires Shape(logs, st) && Accounted(logs, st) && Shape(logs, AfterCrash(st))
    ensures Accounted(logs, AfterCrash(st)) && Tail(logs, AfterCrash(st)) && Overtaking(logs, AfterCrash(st))
  {
  }

  lemma CrashBalance(logs: Logs, st: St)
    requires Balance(st) && Provenance(logs, st)
    ensures Balance(AfterCrash(st)) && Provenance(logs, AfterCrash(st)) && Ordered(AfterCrash(st).batch)
  {
  }

  lemma CrashLetters(logs: Logs, st: St)
    requires Shape(logs, st) && Accounted(logs, st) && Letters(logs, st) && Shape(logs, AfterCrash(st))
    ensures Letters(logs, AfterCrash(st))
  {
    var t := AfterCrash(st);
    forall id | InLog(logs, id) && !IsGood(logs, id)
      ensures t.dlq[id] == t.resent[id] + (if id.o < t.pos[id.p] then 1 else 0)
    {
      assert st.dlq[id] == st.resent[id] + (if id.o < st.pos[id.p] then 1 else 0);
      assert id in Reopened(st) <==> st.committed[id.p] <= id.o < st.pos[id.p];
      assert multiset(Reopened(st))[id] == if id in Reopened(st) then 1 else 0;
    }
  }

  lemma CrashKeeps(logs: Logs, st: St)
    requires Inv(logs, st)
    ensures Inv(logs, AfterCrash(st))
  {
    CrashLetters(logs, st);
    CrashSealed(logs, st);
    CrashTail(logs, st);
    CrashBalance(logs, st);
    hide AfterCrash, Shape, Rows, Ordered, Sealed, Balance, Provenance, Accounted, Tail, Overtaking, Letters;
  }

  function Torn(st: St): St {
    st.(bronze := st.bronze + multiset(st.batch), torn := st.torn + multiset(st.batch))
  }

  lemma TornBalance(logs: Logs, st: St)
    requires Shape(logs, st) && Sealed(logs, st) && Balance(st)
    ensures Balance(Torn(st))
  {
    hide IsGood;
    assert forall id :: id in st.batch <==> id in multiset(st.batch);
  }

  lemma TornProvenance(logs: Logs, st: St)
    requires Shape(logs, st) && Rows(logs, st) && Provenance(logs, st)
    ensures Provenance(logs, Torn(st))
  {
    hide IsGood, InLog;
    assert forall id :: id in st.batch <==> id in multiset(st.batch);
  }

  lemma TornRest(logs: Logs, st: St)
    requires Inv(logs, st)
    ensures Shape(logs, Torn(st)) && Rows(logs, Torn(st)) && Ordered(Torn(st).batch) && Sealed(logs, Torn(st))
    ensures Accounted(logs, Torn(st)) && Tail(logs, Torn(st)) && Overtaking(logs, Torn(st)) && Letters(logs, Torn(st))
  {
    hide IsGood, InLog, Balance, Provenance;
  }

  lemma TornKeeps(logs: Logs, st: St)
    requires Inv(logs, st)
    ensures Inv(logs, Torn(st))
  {
    TornBalance(logs, st);
    TornProvenance(logs, st);
    TornRest(logs, st);
    hide Torn, Shape, Rows, Ordered, Sealed, Balance, Provenance, Accounted, Tail, Overtaking, Letters;
  }

  /** An undecodable record has been sent but not yet committed past. */
  function Sent(st: St, p: nat): St
    requires p < |st.pos|
  {
    st.(pos := st.pos[p := st.pos[p] + 1], dlq := st.dlq + multiset{Id(p, st.pos[p])})
  }

  predicate BadNext(logs: Logs, st: St, p: nat) {
    CanRead(logs, st, p) && logs[p][st.pos[p]].Bad?
  }

  lemma SentRows(logs: Logs, st: St, p: nat)
    requires Shape(logs, st) && Rows(logs, st) && Sealed(logs, st) && Overtaking(logs, st) && BadNext(logs, st, p)
    ensures Shape(logs, Sent(st, p)) && Rows(logs, Sent(st, p)) && Sealed(logs, Sent(st, p))
    ensures Overtaking(logs, Sent(st, p))
  {
  }

  lemma SentAccounted(logs: Logs, st: St, p: nat)
    requires Shape(logs, st) && Accounted(logs, st) && BadNext(logs, st, p) && Shape(logs, Sent(st, p))
    ensures Accounted(logs, Sent(st, p))
  {
  }

  lemma SentTail(logs: Logs, st: St, p: nat)
    requires Shape(logs, st) && Tail(logs, st) && BadNext(logs, st, p) && Shape(logs, Sent(st, p))
    ensures Tail(logs, Sent(st, p))
  {
  }

  lemma SentLetters(logs: Logs, st: St, p: nat)
    requires Shape(logs, st) && Letters(logs, st) && BadNext(logs, st, p) && Shape(logs, Sent(st, p))
    ensures Letters(logs, Sent(st, p))
  {
    var t := Sent(st, p);
    forall id | InLog(logs, id) && !IsGood(logs, id)
      ensures t.dlq[id] == t.resent[id] + (if id.o < t.pos[id.p] then 1 else 0)
    {
      assert st.dlq[id] == st.resent[id] + (if id.o < st.pos[id.p] then 1 else 0);
    }
  }

  lemma SentProvenance(logs: Logs, st: St, p: nat)
    requires Balance(st) && Provenance(logs, st) && BadNext(logs, st, p)
    ensures Balance(Sent(st, p)) && Provenance(logs, Sent(st, p))
  {
  }

  lemma SentKeeps(logs: Logs, st: St, p: nat)
    requires Inv(logs, st) && BadNext(logs, st, p)
    ensures Inv(logs, Sent(st, p))
  {
    SentRows(logs, st, p);
    SentProvenance(logs, st, p);
    SentAccounted(logs, st, p);
    SentTail(logs, st, p);
    SentLetters(logs, st, p);
    assert Sent(st, p).batch == st.batch;
    hide Sent, BadNext, Shape, Rows, Ordered, Sealed, Balance, Provenance, Accounted, Tail, Overtaking, Letters;
  }

  lemma StepKeeps(logs: Logs, st: St, a: Action)
    requires Inv(logs, st)
    ensures Inv(logs, Apply(logs, st, a))
  {
    match a {
      case Read(p) =>
        if CanRead(logs, st, p) {
          ReadKeeps(logs, st, p);
        }
      case Flush => FlushKeeps(logs, st);
      case Crash => CrashKeeps(logs, st);
      case CrashAfterAppend =>
        TornKeeps(logs, st);
        CrashKeeps(logs, Torn(st));
      case CrashAfterSend(p) =>
        if BadNext(logs, st, p) {
          SentKeeps(logs, st, p);
          CrashKeeps(logs, Sent(st, p));
        }
    }
    hide Inv;
  }

  // ----- Whole runs, with any number of crashes -----

  /** An unread topic and empty tables. */
  function Blank(partitions: nat): St {
    var zeros := seq(partitions, _ => 0);
    St(zeros, multiset{}, multiset{}, zeros, [], {}, multiset{}, {}, {}, multiset{})
  }

  lemma BlankInv(logs: Logs)
    ensures Inv(logs, Blank(|logs|))
  {
  }

  lemma {:induction false} RunKeeps(logs: Logs, st: St, run: seq<Action>)
    requires Inv(logs, st)
    ensures Inv(logs, Exec(logs, st, run))
  {
    if run != [] {
      RunKeeps(logs, st, run[..|run| - 1]);
      StepKeeps(logs, Exec(logs, st, run[..|run| - 1]), run[|run| - 1]);
    }
  }

  /** Below the committed offsets every undecodable record was dead-lettered, and every decodable one is
      in bronze, or still batched, or was dropped by a crash; what was dropped is really gone. */
  lemma NothingUnaccounted(logs: Logs, run: seq<Action>, id: Id)
    requires InLog(logs, id)
    ensures var st := Exec(logs, Blank(|logs|), run);
            && |st.committed| == |logs|
            && (id.o < st.committed[id.p] ==>
                  if IsGood(logs, id) then Kept(st, id) else id in st.dlq)
            && (id in st.lost ==> id !in st.bronze && id !in st.batch)
            && (id in st.bronze ==> IsGood(logs, id))
            && (id in st.dlq ==> !IsGood(logs, id))
  {
    BlankInv(logs);
    RunKeeps(logs, Blank(|logs|), run);
  }

  /** Replay multiplicity: a record is in bronze once for each flush that appended it and crashed before
      committing, plus once if a flush of it committed. */
  lemma ReplayMultiplicity(logs: Logs, run: seq<Action>, id: Id)
    ensures var st := Exec(logs, Blank(|logs|), run);
            && st.bronze[id] == st.torn[id] + (if id in st.settled then 1 else 0)
            && st.bronze[id] <= 1 + st.torn[id]
  {
    BlankInv(logs);
    RunKeeps(logs, Blank(|logs|), run);
  }

  /** What the crash would drop. */
  ghost predicate AtRisk(st: St, id: Id) {
    id in st.batch && id.p in st.overtaken && id.p < |st.committed| && id.o < st.committed[id.p] && id !in st.torn
  }

  lemma DroppedRow(logs: Logs, st: St, id: Id)
    requires Shape(logs, st) && Rows(logs, st) && Sealed(logs, st) && Balance(st) && Overtaking(logs, st)
    ensures id in AfterCrash(st).lost <==> id in st.lost || AtRisk(st, id)
    ensures AtRisk(st, id) ==> id !in st.lost
  {
    assert id in st.batch ==> id.p < |st.committed|;
    hide IsGood, Reopened;
    if id in st.batch {
      assert id !in st.settled + st.lost;
      assert id in st.bronze <==> id in st.torn;
      var k :| 0 <= k < |st.batch| && st.batch[k] == id;
      assert id in Batched(st);
      assert id.o < st.committed[id.p] ==> Behind(st.batch, id.p, st.committed[id.p]);
    }
  }

  lemma DroppedRows(logs: Logs, st: St, id: Id)
    requires Inv(logs, st)
    ensures id in AfterCrash(st).lost <==> id in st.lost || AtRisk(st, id)
    ensures AtRisk(st, id) ==> id !in st.lost
  {
    hide AfterCrash, AtRisk, Shape, Rows, Sealed, Balance, Overtaking, Ordered, Provenance, Accounted, Tail, Letters;
    DroppedRow(logs, st, id);
  }

  lemma CrashLost(logs: Logs, st: St)
    requires Inv(logs, st)
    ensures st.lost <= AfterCrash(st).lost
    ensures AfterCrash(st).lost == st.lost <==> forall id :: !AtRisk(st, id)
  {
    hide Inv, AtRisk;
    forall id
      ensures id in AfterCrash(st).lost <==> id in st.lost || AtRisk(st, id)
      ensures AtRisk(st, id) ==> id !in st.lost
    {
      DroppedRows(logs, st, id);
    }
    hide AfterCrash;
  }

  /** A crash drops a record exactly when some partition was overtaken by an undecodable record while a
      row of it that no earlier flush had appended was batched below the new committed offset. */
  lemma CrashLosesExactly(logs: Logs, run: seq<Action>)
    ensures var st := Exec(logs, Blank(|logs|), run); var after := Apply(logs, st, Crash);
            && st.lost <= after.lost
            && (after.lost != st.lost <==> exists id :: AtRisk(st, id))
  {
    hide Inv, AtRisk, Exec, AfterCrash;
    BlankInv(logs);
    RunKeeps(logs, Blank(|logs|), run);
    CrashLost(logs, Exec(logs, Blank(|logs|), run));
  }

  lemma OvertakenAtRisk(logs: Logs, st: St)
    requires Inv(logs, st) && st.overtaken != {} && st.torn == multiset{}
    ensures exists id :: AtRisk(st, id)
  {
    hide Rows, Sealed, Balance, Provenance, Accounted, Tail, Ordered;
    var p := Pick(st.overtaken);
    var k :| 0 <= k < |st.batch| && st.batch[k].p == p && st.batch[k].o < st.committed[p];
    assert AtRisk(st, st.batch[k]);
  }

  /** So with no partition overtaken a crash loses nothing, and before any torn flush an overtaken one
      always does. */
  lemma OvertakingDecides(logs: Logs, run: seq<Action>)
    ensures var st := Exec(logs, Blank(|logs|), run); var after := Apply(logs, st, Crash);
            && (st.overtaken == {} ==> after.lost == st.lost)
            && (st.torn == multiset{} ==> (after.lost == st.lost <==> st.overtaken == {}))
  {
    CrashLosesExactly(logs, run);
    BlankInv(logs);
    RunKeeps(logs, Blank(|logs|), run);
    var st := Exec(logs, Blank(|logs|), run);
    hide Inv, Exec, Apply;
    if st.overtaken != {} && st.torn == multiset{} {
      OvertakenAtRisk(logs, st);
    }
  }

  /** A crash, anywhere but between an append and its commit, while some row is at risk. */
  ghost predicate Loses(logs: Logs, st: St, a: Action) {
    && (a.Crash? || (a.CrashAfterSend? && BadNext(logs, st, a.p)))
    && exists id :: AtRisk(st, id)
  }

  lemma TornSafe(st: St, id: Id)
    ensures !AtRisk(Torn(st), id)
  {
    assert id in st.batch ==> id in multiset(st.batch);
  }

  lemma StepLoses(logs: Logs, st: St, a: Action)
    requires Inv(logs, st)
    ensures st.lost <= Apply(logs, st, a).lost
    ensures Apply(logs, st, a).lost == st.lost <==> !Loses(logs, st, a)
  {
    hide Inv, AfterCrash, Torn, AtRisk;
    match a {
      case Crash => CrashLost(logs, st);
      case CrashAfterAppend =>
        TornKeeps(logs, st);
        CrashLost(logs, Torn(st));
        forall id
          ensures !AtRisk(Torn(st), id)
        {
          TornSafe(st, id);
        }
        TornSameLost(st);
      case CrashAfterSend(p) =>
        if BadNext(logs, st, p) {
          SentKeeps(logs, st, p);
          CrashLost(logs, Sent(st, p));
          SentSameRisk(st, p);
        }
      case _ =>
    }
  }

  lemma TornSameLost(st: St)
    ensures Torn(st).lost == st.lost
  {
  }

  lemma SentSameRisk(st: St, p: nat)
    requires p < |st.pos|
    ensures Sent(st, p).lost == st.lost && forall id :: AtRisk(Sent(st, p), id) <==> AtRisk(st, id)
  {
  }

  lemma BlankIs(logs: Logs)
    ensures Exec(logs, Blank(|logs|), []) == Blank(|logs|)
    ensures Blank(|logs|).lost == {} && Blank(|logs|).resent == multiset{}
  {
  }

  lemma Unrolled(logs: Logs, st: St, run: seq<Action>)
    requires run != []
    ensures var n := |run| - 1; Exec(logs, st, run) == Apply(logs, Exec(logs, st, run[..n]), run[n])
    ensures var n := |run| - 1; forall k :: 0 <= k <= n ==> run[..n][..k] == run[..k]
    ensures var n := |run| - 1; forall k :: 0 <= k < n ==> run[..n][k] == run[k]
  {
    hide Apply;
  }

  /** Over a whole run nothing is lost if and only if no crash ever came while a row was at risk. */
  lemma {:induction false} LostIffRiskyCrash(logs: Logs, run: seq<Action>)
    ensures Exec(logs, Blank(|logs|), run).lost == {} <==>
              forall k :: 0 <= k < |run| ==> !Loses(logs, Exec(logs, Blank(|logs|), run[..k]), run[k])
  {
    hide Inv, Loses, Apply, Exec, Blank;
    BlankIs(logs);
    if run != [] {
      var n := |run| - 1;
      Unrolled(logs, Blank(|logs|), run);
      LostIffRiskyCrash(logs, run[..n]);
      BlankInv(logs);
      RunKeeps(logs, Blank(|logs|), run[..n]);
      StepLoses(logs, Exec(logs, Blank(|logs|), run[..n]), run[n]);
    }
  }

  // ----- How often a record is dead-lettered -----

  /** Dead-letter multiplicity: an undecodable record has been sent once for each crash that left it passed
      but not committed past, plus once if it lies below the read position now. */
  lemma DeadLetterMultiplicity(logs: Logs, run: seq<Action>, id: Id)
    requires InLog(logs, id) && !IsGood(logs, id)
    ensures var st := Exec(logs, Blank(|logs|), run);
            && id.p < |st.pos| && st.dlq[id] == st.resent[id] + (if id.o < st.pos[id.p] then 1 else 0)
  {
    BlankInv(logs);
    RunKeeps(logs, Blank(|logs|), run);
  }

  /** A crash that leaves some undecodable record passed but not committed past. */
  ghost predicate Resends(logs: Logs, st: St, a: Action) {
    match a
    case Crash => Reopened(st) != {}
    case CrashAfterAppend => st.batch != [] && Reopened(st) != {}
    case CrashAfterSend(p) => BadNext(logs, st, p)
    case _ => false
  }

  lemma Pieces(logs: Logs, st: St)
    requires Inv(logs, st)
    ensures Shape(logs, st) && Provenance(logs, st) && Accounted(logs, st) && Letters(logs, st)
  {
    hide Shape, Rows, Ordered, Sealed, Balance, Provenance, Accounted, Tail, Overtaking, Letters;
  }

  lemma StepResends(logs: Logs, st: St, a: Action)
    requires Inv(logs, st)
    ensures st.resent <= Apply(logs, st, a).resent
    ensures Apply(logs, st, a).resent == st.resent <==> !Resends(logs, st, a)
  {
    hide Inv, Provenance, Accounted, Letters;
    Pieces(logs, st);
    match a {
      case Crash => GrowsIff(st.resent, Reopened(st));
      case CrashAfterAppend =>
        TornReopened(st);
        GrowsIff(st.resent, Reopened(st));
      case CrashAfterSend(p) =>
        if BadNext(logs, st, p) {
          assert Id(p, st.pos[p]) in Reopened(Sent(st, p));
          GrowsIff(st.resent, Reopened(Sent(st, p)));
        }
      case _ =>
    }
  }

  lemma GrowsIff(m: multiset<Id>, s: set<Id>)
    ensures m + multiset(s) == m <==> s == {}
  {
    if s != {} {
      var x := Pick(s);
      assert (m + multiset(s))[x] > m[x];
    }
  }

  lemma TornReopened(st: St)
    ensures Reopened(Torn(st)) == Reopened(st)
  {
  }

  /** Over a whole run nothing has to be dead-lettered again if and only if no process died between sending
      a record and committing past it, nor while a commit had been moved back below a record sent. */
  lemma {:induction false} NeverResentIff(logs: Logs, run: seq<Action>)
    ensures Exec(logs, Blank(|logs|), run).resent == multiset{} <==>
              forall k :: 0 <= k < |run| ==> !Resends(logs, Exec(logs, Blank(|logs|), run[..k]), run[k])
  {
    hide Inv, Resends, Apply, Exec, Blank;
    BlankIs(logs);
    if run != [] {
      var n := |run| - 1;
      Unrolled(logs, Blank(|logs|), run);
      NeverResentIff(logs, run[..n]);
      BlankInv(logs);
      RunKeeps(logs, Blank(|logs|), run[..n]);
      StepResends(logs, Exec(logs, Blank(|logs|), run[..n]), run[n]);
    }
  }

  /** While the process lives a record is reopened by a flush and by nothing else: exactly one that moves the
      commit of its partition back to it or below. */
  lemma ReopenedByFlush(logs: Logs, st: St, a: Action, id: Id)
    requires Inv(logs, st) && (a.Read? || a.Flush?) && id !in Reopened(st)
    ensures id in Reopened(Apply(logs, st, a)) <==>
              && a.Flush? && id in st.dlq && id.p < |st.committed|
              && AfterFlush(st).committed[id.p] <= id.o < st.committed[id.p]
  {
    hide Rows, Sealed, Balance, Accounted, Tail, Ordered, Overtaking, Letters;
    if a.Flush? {
      FlushedReopens(logs, st, id);
    } else if CanRead(logs, st, a.p) {
      assert !IsGood(logs, Id(a.p, st.pos[a.p])) <==> logs[a.p][st.pos[a.p]].Bad?;
      assert id in st.dlq ==> InLog(logs, id) && !IsGood(logs, id);
    }
  }

  lemma FlushedReopens(logs: Logs, st: St, id: Id)
    requires Shape(logs, st) && Provenance(logs, st) && id !in Reopened(st)
    ensures id in Reopened(Apply(logs, st, Flush)) <==>
              && id in st.dlq && id.p < |st.committed|
              && AfterFlush(st).committed[id.p] <= id.o < st.committed[id.p]
  {
    if st.batch == [] {
      EmptyCommits(st);
    }
  }

  lemma EmptyCommits(st: St)
    requires st.batch == []
    ensures Committed(st.committed, st.batch) == st.committed
  {
  }

  // ----- The same, read off the run alone -----

  /** How many flushes of a run appended the record and went on to commit it, or died first. */
  ghost function FlushesOf(logs: Logs, run: seq<Action>, id: Id, committed: bool): nat {
    if run == [] then 0 else
      var n := |run| - 1;
      FlushesOf(logs, run[..n], id, committed)
      + (if Flushes(Exec(logs, Blank(|logs|), run[..n]), run[n], id, committed) then 1 else 0)
  }

  ghost predicate Flushes(st: St, a: Action, id: Id, committed: bool) {
    id in st.batch && if committed then a.Flush? else a.CrashAfterAppend?
  }

  lemma FlushCounts(st: St, a: Action, id: Id, t: St)
    requires Ordered(st.batch)
    requires match a
             case Flush => t.torn == st.torn && t.settled == st.settled + Batched(st)
             case CrashAfterAppend => t.torn == st.torn + multiset(st.batch) && t.settled == st.settled
             case _ => t.torn == st.torn && t.settled == st.settled
    ensures t.torn[id] == st.torn[id] + (if Flushes(st, a, id, false) then 1 else 0)
    ensures id in t.settled <==> id in st.settled || Flushes(st, a, id, true)
  {
    OnceBatched(st.batch, id);
  }

  lemma ApplyHistory(logs: Logs, st: St, a: Action)
    ensures var t := Apply(logs, st, a);
            match a
            case Flush => t.torn == st.torn && t.settled == st.settled + Batched(st)
            case CrashAfterAppend => t.torn == st.torn + multiset(st.batch) && t.settled == st.settled
            case _ => t.torn == st.torn && t.settled == st.settled
  {
    hide Reopened;
    if st.batch == [] {
      assert Batched(st) == {} && multiset(st.batch) == multiset{};
    }
    hide Batched;
  }

  lemma SealedBatch(logs: Logs, st: St, id: Id)
    requires Inv(logs, st)
    ensures Ordered(st.batch) && (id in st.batch ==> id !in st.settled)
  {
    hide Ordered, Rows, Balance, Provenance, Accounted, Tail, Overtaking, Letters;
    assert id in st.settled ==> id in st.settled + st.lost;
  }

  lemma {:induction false} FlushesCounted(logs: Logs, run: seq<Action>, id: Id)
    ensures var st := Exec(logs, Blank(|logs|), run);
            && st.torn[id] == FlushesOf(logs, run, id, false)
            && FlushesOf(logs, run, id, true) == (if id in st.settled then 1 else 0)
  {
    hide Inv, Apply, Exec, Ordered;
    if run == [] {
      BlankIs(logs);
    } else {
      var n := |run| - 1;
      FlushesCounted(logs, run[..n], id);
      Unrolled(logs, Blank(|logs|), run);
      BlankInv(logs);
      hide Blank;
      RunKeeps(logs, Blank(|logs|), run[..n]);
      var st := Exec(logs, Blank(|logs|), run[..n]);
      SealedBatch(logs, st, id);
      ApplyHistory(logs, st, run[n]);
      FlushCounts(st, run[n], id, Apply(logs, st, run[n]));
    }
  }

  /** A record is in bronze exactly as often as flushes appended it, and at most one of those committed it. */
  lemma BronzeCountsFlushes(logs: Logs, run: seq<Action>, id: Id)
    ensures var torn, whole := FlushesOf(logs, run, id, false), FlushesOf(logs, run, id, true);
            Exec(logs, Blank(|logs|), run).bronze[id] == torn + whole && whole <= 1
  {
    hide Exec, Blank, FlushesOf;
    FlushesCounted(logs, run, id);
    ReplayMultiplicity(logs, run, id);
  }

  /** The action kills the process with the undecodable record sent and not committed past. */
  ghost predicate Forgets(logs: Logs, st: St, a: Action, id: Id) {
    && InLog(logs, id) && logs[id.p][id.o].Bad? && id.p < |st.pos| && id.p < |st.committed|
    && match a
       case Crash => st.committed[id.p] <= id.o < st.pos[id.p]
       case CrashAfterAppend => st.batch != [] && st.committed[id.p] <= id.o < st.pos[id.p]
       case CrashAfterSend(p) =>
         BadNext(logs, st, p) && (id == Id(p, st.pos[p]) || st.committed[id.p] <= id.o < st.pos[id.p])
       case _ => false
  }

  ghost function ForgottenBy(logs: Logs, run: seq<Action>, id: Id): nat {
    if run == [] then 0 else
      var n := |run| - 1;
      ForgottenBy(logs, run[..n], id)
      + (if Forgets(logs, Exec(logs, Blank(|logs|), run[..n]), run[n], id) then 1 else 0)
  }

  lemma CountIn(s: set<Id>, id: Id)
    ensures multiset(s)[id] == if id in s then 1 else 0
  {
  }

  lemma CrashForgets(logs: Logs, st: St, id: Id)
    requires Shape(logs, st) && Accounted(logs, st) && InLog(logs, id) && !IsGood(logs, id)
    ensures AfterCrash(st).resent[id]
            == st.resent[id] + (if st.committed[id.p] <= id.o < st.pos[id.p] then 1 else 0)
  {
    assert id in Reopened(st) <==> st.committed[id.p] <= id.o < st.pos[id.p];
    hide Reopened, Accounted;
    CountIn(Reopened(st), id);
  }

  lemma TornPieces(logs: Logs, st: St)
    requires Shape(logs, st) && Accounted(logs, st)
    ensures Shape(logs, Torn(st)) && Accounted(logs, Torn(st))
    ensures Torn(st).committed == st.committed && Torn(st).pos == st.pos && Torn(st).resent == st.resent
  {
  }

  lemma StepForgets(logs: Logs, st: St, a: Action, id: Id)
    requires Inv(logs, st) && InLog(logs, id) && !IsGood(logs, id)
    ensures Apply(logs, st, a).resent[id] == st.resent[id] + (if Forgets(logs, st, a, id) then 1 else 0)
  {
    hide Inv, AfterCrash, Accounted, Letters, Provenance, Torn;
    Pieces(logs, st);
    match a {
      case Crash => CrashForgets(logs, st, id);
      case CrashAfterAppend =>
        TornPieces(logs, st);
        CrashForgets(logs, Torn(st), id);
      case CrashAfterSend(p) =>
        if BadNext(logs, st, p) {
          SentKeeps(logs, st, p);
          Pieces(logs, Sent(st, p));
          CrashForgets(logs, Sent(st, p), id);
        }
      case _ =>
    }
  }

  lemma {:induction false} DeathsCounted(logs: Logs, run: seq<Action>, id: Id)
    requires InLog(logs, id) && !IsGood(logs, id)
    ensures Exec(logs, Blank(|logs|), run).resent[id] == ForgottenBy(logs, run, id)
  {
    hide Inv, Forgets, Apply, Exec, IsGood, InLog;
    if run == [] {
      BlankIs(logs);
    } else {
      var n := |run| - 1;
      DeathsCounted(logs, run[..n], id);
      Unrolled(logs, Blank(|logs|), run);
      BlankInv(logs);
      hide Blank;
      RunKeeps(logs, Blank(|logs|), run[..n]);
      StepForgets(logs, Exec(logs, Blank(|logs|), run[..n]), run[n], id);
    }
  }

  /** An undecodable record is dead-lettered once for each death that left it sent and not committed past, and
      once more if it is passed now. */
  lemma DeadLettersCountDeaths(logs: Logs, run: seq<Action>, id: Id)
    requires InLog(logs, id) && !IsGood(logs, id)
    ensures var st := Exec(logs, Blank(|logs|), run);
            id.p < |st.pos| && st.dlq[id] == ForgottenBy(logs, run, id) + (if id.o < st.pos[id.p] then 1 else 0)
  {
    hide Exec, Blank, ForgottenBy;
    DeathsCounted(logs, run, id);
    DeadLetterMultiplicity(logs, run, id);
  }

  /** The action kills the process outside a flush with the record batched below its commit and in no table. */
  ghost predicate Drops(logs: Logs, st: St, a: Action, id: Id) {
    && (a.Crash? || (a.CrashAfterSend? && BadNext(logs, st, a.p)))
    && id in st.batch && id.p < |st.committed| && id.o < st.committed[id.p] && id !in st.bronze
  }

  lemma StepDrops(logs: Logs, st: St, a: Action, id: Id)
    requires Inv(logs, st)
    ensures id in Apply(logs, st, a).lost <==> id in st.lost || Drops(logs, st, a, id)
  {
    hide Inv, Reopened, BadNext;
    assert id in st.batch <==> id in multiset(st.batch);
  }

  /** A record is lost if and only if some death found it so. */
  lemma {:induction false} LostIffDropped(logs: Logs, run: seq<Action>, id: Id)
    ensures id in Exec(logs, Blank(|logs|), run).lost <==>
              exists k :: 0 <= k < |run| && Drops(logs, Exec(logs, Blank(|logs|), run[..k]), run[k], id)
  {
    hide Inv, Drops, Apply, Exec, Blank;
    BlankIs(logs);
    if run != [] {
      var n := |run| - 1;
      Unrolled(logs, Blank(|logs|), run);
      LostIffDropped(logs, run[..n], id);
      BlankInv(logs);
      RunKeeps(logs, Blank(|logs|), run[..n]);
      StepDrops(logs, Exec(logs, Blank(|logs|), run[..n]), run[n], id);
    }
  }

  // ----- When a flush moves a commit back -----

  /** The last record read of a partition with batched rows is either batched, or undecodable and committed
      past, and then the partition has been overtaken. */
  ghost predicate LastRead(logs: Logs, st: St)
    requires Shape(logs, st)
  {
    forall p :: 0 <= p < |logs| && Holds(st.batch, p) ==>
      && st.pos[p] > 0
      && if logs[p][st.pos[p] - 1].Good? then Id(p, st.pos[p] - 1) in st.batch
         else st.committed[p] == st.pos[p] && p in st.overtaken
  }

  lemma GoodLastRead(logs: Logs, st: St, p: nat)
    requires Shape(logs, st) && LastRead(logs, st) && CanRead(logs, st, p) && logs[p][st.pos[p]].Good?
    requires Shape(logs, AfterGood(st, p))
    ensures LastRead(logs, AfterGood(st, p))
  {
    var t := AfterGood(st, p);
    assert t.batch[|st.batch|] == Id(p, st.pos[p]);
    forall q | 0 <= q < |logs| && q != p
      ensures Holds(t.batch, q) <==> Holds(st.batch, q)
    {
      assert forall k :: 0 <= k < |st.batch| ==> t.batch[k] == st.batch[k];
    }
  }

  lemma BadLastRead(logs: Logs, st: St, p: nat)
    requires Shape(logs, st) && LastRead(logs, st) && BadNext(logs, st, p) && Shape(logs, AfterBad(st, p))
    ensures LastRead(logs, AfterBad(st, p))
  {
    hide Holds;
  }

  lemma EmptyLastRead(logs: Logs, st: St)
    requires Shape(logs, st) && st.batch == []
    ensures LastRead(logs, st)
  {
  }

  lemma StepLastRead(logs: Logs, st: St, a: Action)
    requires Inv(logs, st) && LastRead(logs, st)
    ensures Inv(logs, Apply(logs, st, a)) && LastRead(logs, Apply(logs, st, a))
  {
    StepKeeps(logs, st, a);
    var t := Apply(logs, st, a);
    hide LastRead, Rows, Sealed, Balance, Provenance, Accounted, Tail, Ordered, Overtaking, Letters;
    if a.Read? && CanRead(logs, st, a.p) {
      if logs[a.p][st.pos[a.p]].Good? {
        GoodLastRead(logs, st, a.p);
      } else {
        BadLastRead(logs, st, a.p);
      }
    } else if t.batch == [] {
      EmptyLastRead(logs, t);
    }
  }

  lemma {:induction false} RunLastRead(logs: Logs, run: seq<Action>)
    ensures Inv(logs, Exec(logs, Blank(|logs|), run)) && LastRead(logs, Exec(logs, Blank(|logs|), run))
  {
    hide Inv, Apply;
    if run == [] {
      BlankInv(logs);
      EmptyLastRead(logs, Blank(|logs|));
    } else {
      RunLastRead(logs, run[..|run| - 1]);
      StepLastRead(logs, Exec(logs, Blank(|logs|), run[..|run| - 1]), run[|run| - 1]);
    }
  }

  lemma HoldsMax(batch: seq<Id>, p: nat)
    ensures Holds(batch, p) <==> MaxOffset(batch, p) >= 0
    ensures MaxOffset(batch, p) >= 0 ==> Id(p, MaxOffset(batch, p)) in batch
    ensures forall id :: id in batch && id.p == p ==> id.o <= MaxOffset(batch, p)
  {
  }

  lemma FlushMoves(logs: Logs, st: St, p: nat)
    requires Shape(logs, st) && Rows(logs, st) && LastRead(logs, st) && p < |logs|
    ensures AfterFlush(st).committed[p] < st.committed[p] <==>
              Holds(st.batch, p) && st.pos[p] > 0 && logs[p][st.pos[p] - 1].Bad?
  {
    hide Holds, MaxOffset;
    HoldsMax(st.batch, p);
    var m := MaxOffset(st.batch, p);
    if Holds(st.batch, p) {
      assert IsGood(logs, Id(p, m)) && m < st.pos[p];
      assert logs[p][st.pos[p] - 1].Good? ==> Id(p, st.pos[p] - 1) in st.batch;
    }
  }

  /** In every reachable state a flush moves a partition's commit back if and only if the partition has
      batched rows and the last record read from it is undecodable. */
  lemma FlushMovesBackIff(logs: Logs, run: seq<Action>, p: nat)
    requires p < |logs|
    ensures var st := Exec(logs, Blank(|logs|), run);
            && |st.committed| == |st.pos| == |logs| && st.pos[p] <= |logs[p]|
            && (AfterFlush(st).committed[p] < st.committed[p] <==>
                  Holds(st.batch, p) && st.pos[p] > 0 && logs[p][st.pos[p] - 1].Bad?)
  {
    RunLastRead(logs, run);
    FlushMoves(logs, Exec(logs, Blank(|logs|), run), p);
  }

  // ----- A drained topic -----

  ghost predicate AtEnd(logs: Logs, st: St) {
    && |st.pos| == |logs| && st.batch == []
    && forall p :: 0 <= p < |logs| ==> st.pos[p] == |logs[p]|
  }

  /** Nothing decodable is left at or above any committed offset. */
  ghost predicate Spent(logs: Logs, st: St) {
    && Shape(logs, st) && st.batch == []
    && forall id :: IsGood(logs, id) ==> id.o < st.committed[id.p]
  }

  /** At the end of every partition with an empty batch, the whole topic is archived or dead-lettered. */
  lemma AtEndComplete(logs: Logs, st: St)
    requires Inv(logs, st) && AtEnd(logs, st)
    ensures Spent(logs, st)
    ensures forall id :: InLog(logs, id) ==>
              if IsGood(logs, id) then id in st.bronze || id in st.lost else id in st.dlq
  {
  }

  lemma SpentStep(logs: Logs, st: St, a: Action)
    requires Spent(logs, st)
    ensures Spent(logs, Apply(logs, st, a))
    ensures Apply(logs, st, a).bronze == st.bronze && Apply(logs, st, a).lost == st.lost
  {
    match a {
      case Read(p) =>
        if CanRead(logs, st, p) {
          assert !IsGood(logs, Id(p, st.pos[p]));
        }
      case Flush =>
      case Crash => assert Batched(st) == {};
      case CrashAfterAppend =>
      case CrashAfterSend(p) =>
        if CanRead(logs, st, p) {
          assert Batched(Sent(st, p)) == {};
        }
    }
  }

  /** From then on no run on the same logs archives anything again, whatever offsets it re-reads. */
  lemma {:induction false} RerunArchivesNothing(logs: Logs, st: St, run: seq<Action>)
    requires Spent(logs, st)
    ensures Spent(logs, Exec(logs, st, run))
    ensures Exec(logs, st, run).bronze == st.bronze && Exec(logs, st, run).lost == st.lost
  {
    if run != [] {
      RerunArchivesNothing(logs, st, run[..|run| - 1]);
      SpentStep(logs, Exec(logs, st, run[..|run| - 1]), run[|run| - 1]);
    }
  }

  /** The records at or above their partition's committed offset. */
  ghost function Uncommitted(logs: Logs, committed: seq<nat>): set<Id> {
    set p: nat, o: nat | p < |logs| && p < |committed| && committed[p] <= o < |logs[p]| :: Id(p, o)
  }

  lemma ReopenedAtEnd(logs: Logs, st: St, id: Id)
    requires Shape(logs, st) && Provenance(logs, st) && Accounted(logs, st) && Spent(logs, st) && AtEnd(logs, st)
    ensures id in Reopened(st) <==> id in Uncommitted(logs, st.committed)
    ensures id !in st.dlq ==> id !in Uncommitted(logs, st.committed)
  {
  }

  lemma RerunResendsAt(logs: Logs, st: St, st2: St, id: Id)
    requires Shape(logs, st) && Provenance(logs, st) && Letters(logs, st)
    requires Shape(logs, st2) && Provenance(logs, st2) && Letters(logs, st2)
    requires AtEnd(logs, st) && st2.resent == st.resent + multiset(Uncommitted(logs, st.committed))
    requires id !in st.dlq ==> id !in Uncommitted(logs, st.committed)
    ensures st2.dlq[id] <= st.dlq[id] + multiset(Uncommitted(logs, st.committed))[id]
    ensures AtEnd(logs, st2) ==> st2.dlq[id] == st.dlq[id] + multiset(Uncommitted(logs, st.committed))[id]
  {
    hide Uncommitted;
    if InLog(logs, id) && !IsGood(logs, id) {
      assert st.dlq[id] == st.resent[id] + 1;
      assert st2.dlq[id] == st2.resent[id] + (if id.o < st2.pos[id.p] then 1 else 0);
    } else {
      assert id !in st.dlq && id !in st2.dlq;
    }
  }

  /** After a drained process the next one dead-letters again only records left uncommitted, each at most
      once, and if it drains too, each of them exactly once. */
  lemma RerunResends(logs: Logs, st: St, st2: St)
    requires Inv(logs, st) && AtEnd(logs, st) && Inv(logs, st2) && st2.resent == AfterCrash(st).resent
    ensures st2.dlq <= st.dlq + multiset(Uncommitted(logs, st.committed))
    ensures AtEnd(logs, st2) ==> st2.dlq == st.dlq + multiset(Uncommitted(logs, st.committed))
  {
    hide Inv, Shape, Provenance, Accounted, Letters, Spent, AtEnd, Uncommitted, Reopened;
    Pieces(logs, st);
    Pieces(logs, st2);
    AtEndComplete(logs, st);
    forall id
      ensures id in Reopened(st) <==> id in Uncommitted(logs, st.committed)
      ensures id !in st.dlq ==> id !in Uncommitted(logs, st.committed)
    {
      ReopenedAtEnd(logs, st, id);
    }
    assert Reopened(st) == Uncommitted(logs, st.committed);
    forall id
      ensures st2.dlq[id] <= st.dlq[id] + multiset(Uncommitted(logs, st.committed))[id]
      ensures AtEnd(logs, st2) ==> st2.dlq[id] == st.dlq[id] + multiset(Uncommitted(logs, st.committed))[id]
    {
      RerunResendsAt(logs, st, st2, id);
    }
  }

  /** The least such log, one good record and then a bad one: the flush moves the commit back, a crash just
      before it drops the good record, and a crash just after it has the bad one dead-lettered twice. */
  lemma FlushCanUncommit(good: Post)
    ensures var logs := [[Good(good), Bad]];
            var st := AfterRead(logs, AfterRead(logs, Blank(1), 0), 0);
            && st.committed == [2] && AfterFlush(st).committed == [1]
            && AfterCrash(st).lost == {Id(0, 0)}
            && var again := AfterCrash(AfterFlush(st));
               again.pos == [1] && AfterRead(logs, again, 0).dlq == multiset{Id(0, 1), Id(0, 1)}
  {
    var logs := [[Good(good), Bad]];
    var st1 := AfterRead(logs, Blank(1), 0);
    assert st1.batch == [Id(0, 0)] && st1.pos == [1];
    var st := AfterRead(logs, st1, 0);
    assert MaxOffset([], 0) == -1 && [Id(0, 0)][..0] == [];
    assert MaxOffset(st.batch, 0) == 0;
    assert Batched(st) == {Id(0, 0)};
    assert AfterCrash(AfterFlush(st)).pos == [1];
  }
}
