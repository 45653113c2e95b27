// The archiver's run loop over its real collaborators, shown to move through the archive machine.
module ArchiveLoop {
  import opened Basics
  import opened Posts
  import opened Archive

  function IdOf(r: Row): Id {
    Id(r.partition, r.offset)
  }

  function Ids(rows: seq<Row>): (ids: seq<Id>)
    ensures |ids| == |rows|
  {
    seq(|rows|, k requires 0 <= k < |rows| => IdOf(rows[k]))
  }

  lemma IdsConcat(a: seq<Row>, b: seq<Row>)
    ensures Ids(a + b) == Ids(a) + Ids(b)
  {
  }

  /** Every row is the decoded record of its own place in the topic. */
  predicate Faithful(logs: Logs, rows: seq<Row>) {
    forall k :: 0 <= k < |rows| ==>
      InLog(logs, IdOf(rows[k])) && logs[rows[k].partition][rows[k].offset] == Good(rows[k].post)
  }

  lemma FaithfulConcat(logs: Logs, a: seq<Row>, b: seq<Row>)
    requires Faithful(logs, a) && Faithful(logs, b)
    ensures Faithful(logs, a + b)
  {
  }

  /** The offsets are each partition's highest batched offset. */
  ghost predicate HighWater(offsets: map<nat, nat>, batch: seq<Id>) {
    forall p: nat ::
      && (p in offsets <==> MaxOffset(batch, p) >= 0)
      && (p in offsets ==> offsets[p] == MaxOffset(batch, p))
  }

  lemma CommitsHighWater(before: seq<nat>, after: seq<nat>, offsets: map<nat, nat>, batch: seq<Id>)
    requires HighWater(offsets, batch) && |after| == |before|
    requires forall p :: 0 <= p < |after| ==> after[p] == if p in offsets then offsets[p] + 1 else before[p]
    ensures after == Committed(before, batch)
  {
  }

  /** Enough rows or enough time since the last flush, and something to flush. */
  predicate FlushDue(rows: seq<Row>, maxRows: int, maxTicks: int, elapsed: int) {
    rows != [] && (|rows| >= maxRows || elapsed >= maxTicks)
  }

  /** Rows and per-partition high-water offsets held for one flush. */
  class BronzeBatch {
    const maxRows: int
    const maxTicks: int
    var rows: seq<Row>
    var offsets: map<nat, nat>

    ghost predicate Valid()
      reads this
    {
      HighWater(offsets, Ids(rows))
    }

    constructor (maxRows: int, maxTicks: int)
      ensures Valid() && rows == [] && this.maxRows == maxRows && this.maxTicks == maxTicks
    {
      this.maxRows, this.maxTicks := maxRows, maxTicks;
      rows, offsets := [], map[];
    }

    method Add(row: Row)
      requires Valid()
      modifies this
      ensures Valid() && rows == old(rows) + [row]
    {
      IdsConcat(rows, [row]);
      assert Ids(rows + [row])[..|rows|] == Ids(rows);
      rows := rows + [row];
      var prev := if row.partition in offsets then offsets[row.partition] else -1;
      if row.offset > prev {
        offsets := offsets[row.partition := row.offset];
      }
    }

    method Clear()
      modifies this
      ensures Valid() && rows == []
    {
      rows, offsets := [], map[];
    }

    predicate ShouldFlush(elapsed: int)
      reads this
    {
      FlushDue(rows, maxRows, maxTicks, elapsed)
    }
  }

  /** A consumer with a fixed assignment: the group's committed offsets and this process's positions. */
  class Consumer {
    var committed: seq<nat>
    var pos: seq<nat>

    constructor (committed: seq<nat>)
      ensures this.committed == committed && pos == committed
    {
      this.committed, pos := committed, committed;
    }

    /** Commits the next-to-read offset of each partition given. */
    method Commit(offsets: map<nat, nat>)
      modifies this`committed
      ensures |committed| == |old(committed)|
      ensures forall p :: 0 <= p < |committed| ==>
                committed[p] == if p in offsets then offsets[p] + 1 else old(committed)[p]
    {
      var was := committed;
      committed := seq(|was|, p requires 0 <= p < |was| => if p in offsets then offsets[p] + 1 else was[p]);
    }
  }

  class Table {
    var rows: seq<Row>

    /** Appends a columnar table as one block. */
    method Append(c: Columns, ghost rows: seq<Row>)
      requires Tabulates(c, rows)
      modifies this
      ensures this.rows == old(this.rows) + rows
    {
      var more := ToRows(c);
      TabulatesUnique(c, more, rows);
      this.rows := this.rows + more;
    }
  }

  class DlqProducer {
    var sent: seq<Id>

    method Send(id: Id)
      modifies this
      ensures sent == old(sent) + [id]
    {
      sent := sent + [id];
    }
  }

  /** What one poll finds: nothing, an error, or whatever partition p has next, after some time. */
  datatype Poll = Quiet(ticks: nat) | Next(p: nat, ticks: nat) | Broken

  const IDLE_STOP: int := 15_000

  datatype Reason = Drained | Idle | Capped | Failed

  /** Everything a run can change besides its counters and clocks. */
  datatype View = View(committed: seq<nat>, pos: seq<nat>, rows: seq<Row>, sent: seq<Id>, held: seq<Row>)

  function Flushed(v: View): View {
    if v.held == [] then v
    else v.(rows := v.rows + v.held, committed := Committed(v.committed, Ids(v.held)), held := [])
  }

  predicate HasNext(logs: Logs, v: View, p: nat) {
    p < |logs| && p < |v.pos| && p < |v.committed| && v.pos[p] < |logs[p]|
  }

  function Taken(logs: Logs, v: View, p: nat, now: nat): View
    requires HasNext(logs, v, p)
  {
    var o := v.pos[p];
    match logs[p][o]
    case Good(post) => v.(pos := v.pos[p := o + 1], held := v.held + [Row(post, p, o, now)])
    case Bad =>
      v.(pos := v.pos[p := o + 1], sent := v.sent + [Id(p, o)], committed := v.committed[p := o + 1])
  }

  /** The view is what the machine state says it is, and its rows are the topic's own records. */
  ghost predicate Shows(logs: Logs, v: View, st: St) {
    && Inv(logs, st)
    && st.committed == v.committed && st.pos == v.pos
    && st.bronze == multiset(Ids(v.rows)) && st.dlq == multiset(v.sent) && st.batch == Ids(v.held)
    && Faithful(logs, v.rows) && Faithful(logs, v.held)
  }

  lemma FlushShows(logs: Logs, v: View, st: St)
    requires Shows(logs, v, st)
    ensures Shows(logs, Flushed(v), Apply(logs, st, Flush))
  {
    hide Inv, Faithful, Committed;
    if v.held != [] {
      FlushKeeps(logs, st);
      FaithfulConcat(logs, v.rows, v.held);
      IdsConcat(v.rows, v.held);
      FaithfulNone(logs);
    }
  }

  lemma FaithfulNone(logs: Logs)
    ensures Faithful(logs, []) && Ids([]) == []
  {
  }

  lemma TakenRow(logs: Logs, v: View, p: nat, now: nat)
    requires HasNext(logs, v, p) && logs[p][v.pos[p]].Good? && Faithful(logs, v.held)
    ensures var row := Row(logs[p][v.pos[p]].post, p, v.pos[p], now);
            Faithful(logs, v.held + [row]) && Ids(v.held + [row]) == Ids(v.held) + [Id(p, v.pos[p])]
  {
  }

  lemma TakeShows(logs: Logs, v: View, st: St, p: nat, now: nat)
    requires Shows(logs, v, st) && HasNext(logs, v, p)
    ensures Shows(logs, Taken(logs, v, p, now), Apply(logs, st, Read(p)))
  {
    hide Inv, Faithful, Ids, Holds;
    ReadKeeps(logs, st, p);
    if logs[p][v.pos[p]].Good? {
      TakenRow(logs, v, p, now);
    }
  }

  /** The view is reached from the start by a crash-free run of the machine. */
  ghost predicate OnTrack(logs: Logs, v: View, start: St, st: St, trace: seq<Action>) {
    && Shows(logs, v, st) && st == Exec(logs, start, trace)
    && st.lost == start.lost && st.torn == start.torn && st.resent == start.resent
  }

  lemma OneMore(logs: Logs, start: St, trace: seq<Action>, a: Action)
    ensures Exec(logs, start, trace + [a]) == Apply(logs, Exec(logs, start, trace), a)
  {
    assert (trace + [a])[..|trace|] == trace;
  }

  lemma FlushOnTrack(logs: Logs, v: View, start: St, st: St, trace: seq<Action>)
    requires OnTrack(logs, v, start, st, trace)
    ensures OnTrack(logs, Flushed(v), start, Apply(logs, st, Flush), trace + [Flush])
  {
    hide Shows, Flushed, Exec;
    FlushShows(logs, v, st);
    OneMore(logs, start, trace, Flush);
  }

  lemma TakeOnTrack(logs: Logs, v: View, start: St, st: St, trace: seq<Action>, p: nat, now: nat)
    requires OnTrack(logs, v, start, st, trace) && HasNext(logs, v, p)
    ensures OnTrack(logs, Taken(logs, v, p, now), start, Apply(logs, st, Read(p)), trace + [Read(p)])
  {
    hide Shows, Taken, Exec;
    TakeShows(logs, v, st, p, now);
    OneMore(logs, start, trace, Read(p));
  }

  /** Positions and commits cover the partitions, within their logs. */
  ghost predicate Fits(logs: Logs, v: View) {
    |v.pos| == |v.committed| == |logs| && forall p :: 0 <= p < |logs| ==> v.pos[p] <= |logs[p]|
  }

  lemma OnTrackFits(logs: Logs, v: View, start: St, st: St, trace: seq<Action>)
    requires OnTrack(logs, v, start, st, trace)
    ensures Fits(logs, v)
  {
  }

  lemma StartOnTrack(logs: Logs, v: View, start: St)
    requires Shows(logs, v, start)
    ensures OnTrack(logs, v, start, start, []) && Fits(logs, v)
  {
    hide Shows;
    OnTrackFits(logs, v, start, start, []);
  }

  /** The partitions reported exhausted are. */
  ghost predicate AtEof(logs: Logs, pos: seq<nat>, eof: set<nat>)
    requires |pos| == |logs|
  {
    forall p :: p in eof ==> p < |logs| && pos[p] == |logs[p]|
  }

  /** The partitions 0 to n - 1. */
  function Partitions(n: nat): (s: set<nat>)
    ensures forall p: nat :: p in s <==> p < n
  {
    if n == 0 then {} else Partitions(n - 1) + {n - 1}
  }

  // ----- What the polls make of a run -----

  datatype Limits = Limits(batchRows: int, batchTicks: int, rowsPerRun: int)

  /** A run between two polls. */
  datatype Snap = Snap(view: View, lastFlush: int, lastActivity: int, eof: set<nat>, now: nat)

  /** The poll brings a partition's next record. */
  predicate Delivers(logs: Logs, s: Snap, poll: Poll) {
    poll.Next? && HasNext(logs, s.view, poll.p)
  }

  /** The poll reports the end of a partition not known to be at its end. */
  predicate Ends(logs: Logs, s: Snap, poll: Poll) {
    poll.Next? && poll.p < |logs| && !HasNext(logs, s.view, poll.p) && poll.p !in s.eof
  }

  function Settle(limits: Limits, s: Snap): Snap {
    if FlushDue(s.view.held, limits.batchRows, limits.batchTicks, s.now - s.lastFlush)
    then s.(view := Flushed(s.view), lastFlush := s.now) else s
  }

  function OnData(logs: Logs, limits: Limits, s: Snap, p: nat): Snap
    requires HasNext(logs, s.view, p)
  {
    var t := s.(view := Taken(logs, s.view, p, s.now), lastActivity := s.now, eof := s.eof - {p});
    if logs[p][s.view.pos[p]].Good? then Settle(limits, t) else t
  }

  function OnEnd(s: Snap, p: nat): Snap {
    s.(lastActivity := s.now, eof := s.eof + {p})
  }

  /** One turn of the loop: a record, an end, or a quiet poll, which takes some time whatever it reports. */
  function Step(logs: Logs, limits: Limits, s: Snap, poll: Poll): Snap {
    if poll.Broken? then s else
      var t := s.(now := s.now + poll.ticks);
      if Delivers(logs, s, poll) then OnData(logs, limits, t, poll.p)
      else if Ends(logs, s, poll) then OnEnd(t, poll.p)
      else Settle(limits, t.(now := t.now + 1))
  }

  predicate AllEnded(logs: Logs, s: Snap) {
    logs != [] && Partitions(|logs|) <= s.eof
  }

  /** Why the loop stops after a quiet poll, if it does. */
  function QuietStop(logs: Logs, s: Snap, joined: bool): Option<Reason> {
    if s.view.held != [] then None
    else if joined && AllEnded(logs, s) then Some(Drained)
    else if s.now - s.lastActivity > IDLE_STOP then Some(Idle)
    else None
  }

  function StopAfter(logs: Logs, limits: Limits, s: Snap, poll: Poll, joined: bool): Option<Reason> {
    if Delivers(logs, s, poll) || Ends(logs, s, poll) then None
    else QuietStop(logs, Step(logs, limits, s, poll), joined)
  }

  /** The run after n turns. */
  function After(logs: Logs, limits: Limits, polls: nat -> Poll, s: Snap, n: nat): Snap {
    if n == 0 then s else Step(logs, limits, After(logs, limits, polls, s, n - 1), polls(n - 1))
  }

  /** Archived and held rows are still below the cap. */
  predicate Under(limits: Limits, start: Snap, s: Snap) {
    |s.view.rows| - |start.view.rows| + |s.view.held| < limits.rowsPerRun
  }

  /** The loop gets past its turn after n others. */
  predicate GoesOn(logs: Logs, limits: Limits, polls: nat -> Poll, joined: nat -> bool, s: Snap, n: nat) {
    var t := After(logs, limits, polls, s, n);
    Under(limits, s, t) && !polls(n).Broken? && StopAfter(logs, limits, t, polls(n), joined(n)).None?
  }

  ghost predicate AllGoOn(logs: Logs, limits: Limits, polls: nat -> Poll, joined: nat -> bool, s: Snap, n: nat) {
    forall k: nat :: k < n ==> GoesOn(logs, limits, polls, joined, s, k)
  }

  /** The loop ends in the turn after n others, and why. */
  ghost predicate EndsAt(logs: Logs, limits: Limits, polls: nat -> Poll, joined: nat -> bool, s: Snap, n: nat,
                         reason: Reason) {
    && AllGoOn(logs, limits, polls, joined, s, n)
    && var t := After(logs, limits, polls, s, n);
       match reason
       case Capped => !Under(limits, s, t)
       case Failed => Under(limits, s, t) && polls(n).Broken?
       case _ => && Under(limits, s, t) && !polls(n).Broken?
                 && StopAfter(logs, limits, t, polls(n), joined(n)) == Some(reason)
  }

  lemma GoOn(logs: Logs, limits: Limits, polls: nat -> Poll, joined: nat -> bool, s: Snap, n: nat)
    requires AllGoOn(logs, limits, polls, joined, s, n)
    requires var t := After(logs, limits, polls, s, n);
             Under(limits, s, t) && !polls(n).Broken? && StopAfter(logs, limits, t, polls(n), joined(n)).None?
    ensures AllGoOn(logs, limits, polls, joined, s, n + 1)
  {
    hide After, Under, StopAfter;
  }

  lemma NextTurn(logs: Logs, limits: Limits, polls: nat -> Poll, s: Snap, n: nat)
    ensures After(logs, limits, polls, s, n + 1) == Step(logs, limits, After(logs, limits, polls, s, n), polls(n))
  {
  }

  /** What the run leaves: a failed poll skips the last flush. */
  function Result(logs: Logs, limits: Limits, polls: nat -> Poll, s: Snap, n: nat, reason: Reason): View {
    match reason
    case Failed => After(logs, limits, polls, s, n).view
    case Capped => Flushed(After(logs, limits, polls, s, n).view)
    case _ => Flushed(After(logs, limits, polls, s, n + 1).view)
  }

  function Fresh(v: View, now: nat): Snap {
    Snap(v, now, now, {}, now)
  }

  // ----- Progress -----

  /** Some record is unread or some end unreported. */
  predicate Pending(logs: Logs, s: Snap) {
    exists p :: 0 <= p < |logs| && (HasNext(logs, s.view, p) || p !in s.eof)
  }

  /** The time the polls just before the k-th have been silent. */
  function Silence(polls: nat -> Poll, k: nat): nat {
    if k == 0 then 0 else
      match polls(k - 1)
      case Quiet(ticks) => Silence(polls, k - 1) + ticks + 1
      case Next(_, _) => 0
      case Broken => Silence(polls, k - 1)
  }

  /** As long as anything is pending the k-th poll brings some of it, or the silence stays within fifteen
      seconds; when nothing is, the consumer knows its assignment. */
  predicate Attentive(logs: Logs, limits: Limits, polls: nat -> Poll, joined: nat -> bool, s: Snap, k: nat) {
    var t := After(logs, limits, polls, s, k);
    && !polls(k).Broken?
    && if Pending(logs, t)
       then Delivers(logs, t, polls(k)) || Ends(logs, t, polls(k))
            || (polls(k).Quiet? && Silence(polls, k + 1) <= IDLE_STOP)
       else joined(k)
  }

  lemma NothingPendingStays(logs: Logs, limits: Limits, s: Snap, poll: Poll)
    requires !Pending(logs, s)
    ensures !Pending(logs, Step(logs, limits, s, poll))
  {
    hide Committed, Ids;
    var t := Step(logs, limits, s, poll);
    assert !Delivers(logs, s, poll) && !Ends(logs, s, poll);
    forall p | 0 <= p < |logs|
      ensures !HasNext(logs, t.view, p) && p in t.eof
    {
      assert !HasNext(logs, s.view, p) && p in s.eof;
      CommittedLength(s.view.committed, Ids(s.view.held));
    }
  }

  lemma CommittedLength(committed: seq<nat>, batch: seq<Id>)
    ensures |Committed(committed, batch)| == |committed|
  {
  }

  lemma StepSilence(logs: Logs, limits: Limits, s: Snap, poll: Poll)
    requires !poll.Broken?
    ensures var t := Step(logs, limits, s, poll);
            if Delivers(logs, s, poll) || Ends(logs, s, poll) then t.now == t.lastActivity
            else t.now == s.now + poll.ticks + 1 && t.lastActivity == s.lastActivity && t.eof == s.eof
  {
    hide Flushed, Taken, FlushDue;
  }

  lemma {:induction false} SilenceIs(logs: Logs, limits: Limits, polls: nat -> Poll, joined: nat -> bool, v: View,
                                     t0: nat, k: nat)
    requires forall j: nat :: j < k ==> Attentive(logs, limits, polls, joined, Fresh(v, t0), j)
    requires Pending(logs, After(logs, limits, polls, Fresh(v, t0), k))
    ensures var t := After(logs, limits, polls, Fresh(v, t0), k); t.now - t.lastActivity == Silence(polls, k)
  {
    hide Pending, Delivers, Ends, Step;
    if k > 0 {
      var t := After(logs, limits, polls, Fresh(v, t0), k - 1);
      if !Pending(logs, t) {
        NothingPendingStays(logs, limits, t, polls(k - 1));
      }
      assert Attentive(logs, limits, polls, joined, Fresh(v, t0), k - 1);
      SilenceIs(logs, limits, polls, joined, v, t0, k - 1);
      StepSilence(logs, limits, t, polls(k - 1));
      assert Delivers(logs, t, polls(k - 1)) || Ends(logs, t, polls(k - 1)) ==> polls(k - 1).Next? by {
        UsefulIsNext(logs, t, polls(k - 1));
      }
    }
  }

  lemma UsefulIsNext(logs: Logs, s: Snap, poll: Poll)
    ensures Delivers(logs, s, poll) || Ends(logs, s, poll) ==> poll.Next?
  {
  }

  lemma WithinFifteen(logs: Logs, limits: Limits, polls: nat -> Poll, joined: nat -> bool, v: View, t0: nat, n: nat)
    requires forall k: nat :: k <= n ==> Attentive(logs, limits, polls, joined, Fresh(v, t0), k)
    requires var t := After(logs, limits, polls, Fresh(v, t0), n);
             Pending(logs, t) && !Delivers(logs, t, polls(n)) && !Ends(logs, t, polls(n))
    ensures var u := Step(logs, limits, After(logs, limits, polls, Fresh(v, t0), n), polls(n));
            u.now - u.lastActivity <= IDLE_STOP
  {
    hide After, Delivers, Ends, Step, Pending;
    assert Attentive(logs, limits, polls, joined, Fresh(v, t0), n);
    SilenceIs(logs, limits, polls, joined, v, t0, n);
    StepSilence(logs, limits, After(logs, limits, polls, Fresh(v, t0), n), polls(n));
  }

  /** If the polls keep delivering what is pending and are never silent for more than fifteen seconds, the run
      ends because the topic is drained or the cap is met. */
  lemma AttentiveEndsWell(logs: Logs, limits: Limits, polls: nat -> Poll, joined: nat -> bool, v: View, t0: nat,
                          n: nat, reason: Reason)
    requires logs != [] && EndsAt(logs, limits, polls, joined, Fresh(v, t0), n, reason)
    requires forall k: nat :: k <= n ==> Attentive(logs, limits, polls, joined, Fresh(v, t0), k)
    ensures reason.Drained? || reason.Capped?
  {
    hide After, AllGoOn, Delivers, Ends, Step, Under;
    var t := After(logs, limits, polls, Fresh(v, t0), n);
    assert Attentive(logs, limits, polls, joined, Fresh(v, t0), n);
    StepSilence(logs, limits, t, polls(n));
    if Pending(logs, t) && !Delivers(logs, t, polls(n)) && !Ends(logs, t, polls(n)) {
      WithinFifteen(logs, limits, polls, joined, v, t0, n);
    }
  }

  // ----- When the archiver appends -----

  /** The rows held once the poll's record, if it is a good one, has joined them. */
  function HeldAfter(logs: Logs, s: Snap, poll: Poll): seq<Row> {
    if Delivers(logs, s, poll) && logs[poll.p][s.view.pos[poll.p]].Good?
    then s.view.held + [Row(logs[poll.p][s.view.pos[poll.p]].post, poll.p, s.view.pos[poll.p], s.now + poll.ticks)]
    else s.view.held
  }

  /** The turn consults the limits: it brings a good record, or nothing. */
  predicate MayAppend(logs: Logs, s: Snap, poll: Poll) {
    && !poll.Broken? && !Ends(logs, s, poll)
    && (Delivers(logs, s, poll) ==> logs[poll.p][s.view.pos[poll.p]].Good?)
  }

  /** A good record or a quiet poll: while fewer rows than the batch size are held and less than the batch time
      has passed since the last flush, the table and the commits stay as they are and the rows stay held;
      otherwise exactly the held rows are appended. A bad record or an end appends nothing and keeps the rows. */
  lemma AppendsWhenDue(logs: Logs, limits: Limits, s: Snap, poll: Poll)
    ensures var t := Step(logs, limits, s, poll); var held := HeldAfter(logs, s, poll);
            if MayAppend(logs, s, poll) && held != []
               && (|held| >= limits.batchRows || t.now - s.lastFlush >= limits.batchTicks)
            then t.view.rows == s.view.rows + held && t.view.held == [] && t.lastFlush == t.now
            else t.view.rows == s.view.rows && t.view.held == held && t.lastFlush == s.lastFlush
                 && (MayAppend(logs, s, poll) ==> t.view.committed == s.view.committed)
  {
    hide Committed, Ids;
  }

  /** When the last append of the first n turns was made, or the run's start. */
  function LastAppend(logs: Logs, limits: Limits, polls: nat -> Poll, s: Snap, n: nat): nat {
    if n == 0 then s.now else
      var t := After(logs, limits, polls, s, n);
      if t.view.rows != After(logs, limits, polls, s, n - 1).view.rows then t.now
      else LastAppend(logs, limits, polls, s, n - 1)
  }

  lemma Longer(a: seq<Row>, b: seq<Row>)
    requires b != []
    ensures a + b != a
  {
    assert |a + b| > |a|;
  }

  lemma {:induction false} FlushClockIsLastAppend(logs: Logs, limits: Limits, polls: nat -> Poll, v: View, t0: nat,
                                                  n: nat)
    ensures After(logs, limits, polls, Fresh(v, t0), n).lastFlush == LastAppend(logs, limits, polls, Fresh(v, t0), n)
  {
    hide Step, HeldAfter, MayAppend;
    if n > 0 {
      var t := After(logs, limits, polls, Fresh(v, t0), n - 1);
      FlushClockIsLastAppend(logs, limits, polls, v, t0, n - 1);
      AppendsWhenDue(logs, limits, t, polls(n - 1));
      if HeldAfter(logs, t, polls(n - 1)) != [] {
        Longer(t.view.rows, HeldAfter(logs, t, polls(n - 1)));
      }
    }
  }

  /** Batched writes only: every append a turn makes has at least the batch size of rows, or comes at least the
      batch time after the one before it. */
  lemma AppendsInBatches(logs: Logs, limits: Limits, polls: nat -> Poll, v: View, t0: nat, n: nat)
    ensures var s, t := After(logs, limits, polls, Fresh(v, t0), n), After(logs, limits, polls, Fresh(v, t0), n + 1);
            t.view.rows != s.view.rows ==>
              && s.view.rows <= t.view.rows
              && (|t.view.rows| - |s.view.rows| >= limits.batchRows
                  || t.now - LastAppend(logs, limits, polls, Fresh(v, t0), n) >= limits.batchTicks)
  {
    hide Step, HeldAfter, MayAppend, LastAppend;
    var s := After(logs, limits, polls, Fresh(v, t0), n);
    FlushClockIsLastAppend(logs, limits, polls, v, t0, n);
    AppendsWhenDue(logs, limits, s, polls(n));
  }

  // ----- Why the archiver stops -----

  /** Every partition has reported its end since its last record. */
  predicate AllReported(logs: Logs, eof: set<nat>) {
    logs != [] && forall p :: 0 <= p < |logs| ==> p in eof
  }

  lemma AllReportedIff(logs: Logs, s: Snap)
    ensures AllEnded(logs, s) <==> AllReported(logs, s.eof)
  {
  }

  /** The run stops at the cap, at a failed poll, or with nothing held: drained if the assignment is known and
      every partition of it has ended, idle after more than fifteen seconds without a message. It goes past a
      poll that brings nothing only if none of these holds. A failed run flushes nothing more; any other
      appends what it holds. */
  lemma StopsFor(logs: Logs, limits: Limits, polls: nat -> Poll, joined: nat -> bool, v: View, t0: nat, n: nat,
                 reason: Reason)
    requires EndsAt(logs, limits, polls, joined, Fresh(v, t0), n, reason)
    ensures var t, u := After(logs, limits, polls, Fresh(v, t0), n), After(logs, limits, polls, Fresh(v, t0), n + 1);
            var left := Result(logs, limits, polls, Fresh(v, t0), n, reason);
            match reason
            case Capped => |t.view.rows| - |v.rows| + |t.view.held| >= limits.rowsPerRun
                           && left.rows == t.view.rows + t.view.held && left.held == []
            case Failed => polls(n).Broken? && left == t.view
            case Drained => u.view.held == [] && joined(n) && AllReported(logs, u.eof) && left == u.view
            case Idle => u.view.held == [] && u.now - u.lastActivity > 15_000 && left == u.view
                         && !(joined(n) && AllReported(logs, u.eof))
  {
    hide After, Step, Committed, Ids, AllEnded, AllReported;
    NextTurn(logs, limits, polls, Fresh(v, t0), n);
    AllReportedIff(logs, After(logs, limits, polls, Fresh(v, t0), n + 1));
    ConcatNothing(After(logs, limits, polls, Fresh(v, t0), n).view.rows);
  }

  lemma ConcatNothing(rows: seq<Row>)
    ensures rows + [] == rows
  {
  }

  lemma PastIdlePoll(logs: Logs, limits: Limits, polls: nat -> Poll, joined: nat -> bool, v: View, t0: nat, n: nat,
                     reason: Reason, k: nat)
    requires EndsAt(logs, limits, polls, joined, Fresh(v, t0), n, reason) && k < n
    ensures var t, u := After(logs, limits, polls, Fresh(v, t0), k), After(logs, limits, polls, Fresh(v, t0), k + 1);
            && |t.view.rows| - |v.rows| + |t.view.held| < limits.rowsPerRun && !polls(k).Broken?
            && (!Delivers(logs, t, polls(k)) && !Ends(logs, t, polls(k)) && u.view.held == [] ==>
                  !(joined(k) && AllReported(logs, u.eof)) && u.now - u.lastActivity <= 15_000)
  {
    hide After, Step, AllEnded, AllReported;
    assert GoesOn(logs, limits, polls, joined, Fresh(v, t0), k);
    NextTurn(logs, limits, polls, Fresh(v, t0), k);
    AllReportedIff(logs, After(logs, limits, polls, Fresh(v, t0), k + 1));
  }

  // ----- Timestamps -----

  /** The rows added since, appended and then held, carry the run's clock: from t0 to now, in order. */
  ghost predicate Clocked(rows0: seq<Row>, v: View, t0: nat, now: nat) {
    && rows0 <= v.rows
    && var added := v.rows[|rows0|..] + v.held;
       && (forall k :: 0 <= k < |added| ==> t0 <= added[k].ingestTs <= now)
       && forall j, k :: 0 <= j < k < |added| ==> added[j].ingestTs <= added[k].ingestTs
  }

  lemma ClockedLater(rows0: seq<Row>, v: View, t0: nat, now: nat, later: nat)
    requires Clocked(rows0, v, t0, now) && now <= later
    ensures Clocked(rows0, v, t0, later)
  {
  }

  lemma FlushClocked(rows0: seq<Row>, v: View, t0: nat, now: nat)
    requires Clocked(rows0, v, t0, now)
    ensures Clocked(rows0, Flushed(v), t0, now)
  {
    var w := Flushed(v);
    assert w.rows[|rows0|..] + w.held == v.rows[|rows0|..] + v.held;
  }

  lemma TakeClocked(logs: Logs, rows0: seq<Row>, v: View, p: nat, t0: nat, now: nat)
    requires Clocked(rows0, v, t0, now) && HasNext(logs, v, p) && t0 <= now
    ensures Clocked(rows0, Taken(logs, v, p, now), t0, now)
  {
    var w := Taken(logs, v, p, now);
    var before, added := v.rows[|rows0|..] + v.held, w.rows[|rows0|..] + w.held;
    assert logs[p][v.pos[p]].Good? ==> added == before + [Row(logs[p][v.pos[p]].post, p, v.pos[p], now)];
    assert logs[p][v.pos[p]].Bad? ==> added == before;
  }

  lemma SettleClocked(limits: Limits, rows0: seq<Row>, s: Snap, t0: nat)
    requires Clocked(rows0, s.view, t0, s.now)
    ensures Clocked(rows0, Settle(limits, s).view, t0, s.now)
  {
    hide Clocked, Flushed;
    FlushClocked(rows0, s.view, t0, s.now);
  }

  lemma StepClocked(logs: Logs, limits: Limits, rows0: seq<Row>, s: Snap, poll: Poll, t0: nat)
    requires Clocked(rows0, s.view, t0, s.now) && t0 <= s.now
    ensures var t := Step(logs, limits, s, poll); t0 <= t.now && Clocked(rows0, t.view, t0, t.now)
  {
    hide Clocked, Taken, Settle;
    if !poll.Broken? {
      var t := s.(now := s.now + poll.ticks);
      ClockedLater(rows0, s.view, t0, s.now, t.now);
      if Delivers(logs, s, poll) {
        TakeClocked(logs, rows0, t.view, poll.p, t0, t.now);
        var u := t.(view := Taken(logs, t.view, poll.p, t.now), lastActivity := t.now, eof := t.eof - {poll.p});
        SettleClocked(limits, rows0, u, t0);
        SettleKeepsNow(limits, u);
      } else {
        ClockedLater(rows0, s.view, t0, s.now, t.now + 1);
        SettleClocked(limits, rows0, t.(now := t.now + 1), t0);
        SettleKeepsNow(limits, t.(now := t.now + 1));
      }
    }
  }

  lemma SettleKeepsNow(limits: Limits, s: Snap)
    ensures Settle(limits, s).now == s.now
  {
  }

  lemma {:induction false} AfterClocked(logs: Logs, limits: Limits, polls: nat -> Poll, v: View, t0: nat, n: nat)
    requires v.held == []
    ensures var t := After(logs, limits, polls, Fresh(v, t0), n); t0 <= t.now && Clocked(v.rows, t.view, t0, t.now)
  {
    hide Step;
    if n > 0 {
      AfterClocked(logs, limits, polls, v, t0, n - 1);
      StepClocked(logs, limits, v.rows, After(logs, limits, polls, Fresh(v, t0), n - 1), polls(n - 1), t0);
    }
  }

  /** Every row a run adds is stamped at its start or later, in the order added. */
  lemma AddedAfterStart(logs: Logs, limits: Limits, polls: nat -> Poll, v: View, t0: nat, n: nat, reason: Reason)
    requires v.held == []
    ensures exists now :: Clocked(v.rows, Result(logs, limits, polls, Fresh(v, t0), n, reason), t0, now)
  {
    hide After, Clocked, Flushed;
    var m := if reason.Failed? || reason.Capped? then n else n + 1;
    AfterClocked(logs, limits, polls, v, t0, m);
    var t := After(logs, limits, polls, Fresh(v, t0), m);
    FlushClocked(v.rows, t.view, t0, t.now);
    assert Clocked(v.rows, Result(logs, limits, polls, Fresh(v, t0), n, reason), t0, t.now);
  }

  // ----- Termination -----

  function Unread(logs: Logs, pos: seq<nat>, n: nat): nat
    requires n <= |logs| && n <= |pos|
    requires forall p :: 0 <= p < n ==> pos[p] <= |logs[p]|
  {
    if n == 0 then 0 else Unread(logs, pos, n - 1) + |logs[n - 1]| - pos[n - 1]
  }

  lemma {:induction false} ReadingShrinks(logs: Logs, pos: seq<nat>, n: nat, p: nat)
    requires n <= |logs| && n <= |pos| && p < |pos|
    requires forall q :: 0 <= q < n ==> pos[q] <= |logs[q]|
    requires p < n ==> pos[p] < |logs[p]|
    ensures forall q :: 0 <= q < n ==> pos[p := pos[p] + 1][q] <= |logs[q]|
    ensures Unread(logs, pos[p := pos[p] + 1], n) == Unread(logs, pos, n) - (if p < n then 1 else 0)
  {
    if n > 0 {
      ReadingShrinks(logs, pos, n - 1, p);
    }
  }

  /** What is left to do: records to read, ends to report, a batch to flush, time to wait. */
  datatype Rank = Rank(unread: nat, open: set<nat>, full: nat, wait: int)

  ghost predicate Below(a: Rank, b: Rank) {
    a.unread < b.unread
    || (a.unread == b.unread &&
        (a.open < b.open
         || (a.open == b.open && (a.full < b.full || (a.full == b.full && 0 <= a.wait < b.wait)))))
  }

  // ----- The run -----

  /** One run's variables, beside the machine's run it has followed so far. */
  class Run {
    const logs: Logs
    const limits: Limits
    const consumer: Consumer
    const table: Table
    const dlq: DlqProducer
    const batch: BronzeBatch
    var archived: nat
    var dlqCount: nat
    var lastFlush: int
    var lastActivity: int
    var eof: set<nat>
    ghost const start: St
    ghost const rows0: seq<Row>
    ghost const sent0: seq<Id>
    ghost var st: St
    ghost var trace: seq<Action>

    ghost function Now(): View
      reads consumer, table, dlq, batch
    {
      View(consumer.committed, consumer.pos, table.rows, dlq.sent, batch.rows)
    }

    ghost function Shot(now: nat): Snap
      reads this, consumer, table, dlq, batch
    {
      Snap(Now(), lastFlush, lastActivity, eof, now)
    }

    ghost predicate Valid()
      reads this, consumer, table, dlq, batch
    {
      && batch.Valid() && OnTrack(logs, Now(), start, st, trace) && Fits(logs, Now())
      && batch.maxRows == limits.batchRows && batch.maxTicks == limits.batchTicks
      && rows0 <= table.rows && |table.rows| == |rows0| + archived
      && sent0 <= dlq.sent && |dlq.sent| == |sent0| + dlqCount
      && AtEof(logs, consumer.pos, eof)
    }

    ghost function Todo(now: int): Rank
      requires Valid()
      reads this, consumer, table, dlq, batch
    {
      Rank(Unread(logs, consumer.pos, |logs|), Partitions(|logs|) - eof,
           if batch.rows != [] then 1 else 0,
           if batch.rows != [] then batch.maxTicks - (now - lastFlush) else IDLE_STOP - (now - lastActivity))
    }

    constructor (logs: Logs, limits: Limits, consumer: Consumer, table: Table, dlq: DlqProducer, batch: BronzeBatch,
                 now: nat, ghost start: St)
      requires batch.Valid() && batch.rows == []
      requires batch.maxRows == limits.batchRows && batch.maxTicks == limits.batchTicks
      requires Shows(logs, View(consumer.committed, consumer.pos, table.rows, dlq.sent, []), start)
      ensures this.logs == logs && this.limits == limits
      ensures this.consumer == consumer && this.table == table && this.dlq == dlq && this.batch == batch
      ensures Shot(now) == Fresh(Now(), now) && archived == 0 && dlqCount == 0
      ensures Valid() && this.start == start && rows0 == table.rows && sent0 == dlq.sent
    {
      hide Shows, OnTrack, Fits, HighWater, Ids;
      this.logs, this.limits, this.batch := logs, limits, batch;
      this.consumer, this.table, this.dlq := consumer, table, dlq;
      archived, dlqCount, lastFlush, lastActivity, eof := 0, 0, now, now, {};
      this.start, rows0, sent0, st, trace := start, table.rows, dlq.sent, start, [];
      new;
      StartOnTrack(logs, Now(), start);
    }

    /** The effects of a flush: append first, then commit, then clear. */
    method Write(now: int)
      requires batch.Valid()
      modifies this`archived, this`lastFlush, consumer`committed, table, batch
      ensures batch.Valid() && Now() == Flushed(old(Now()))
      ensures archived == old(archived + |batch.rows|)
      ensures lastFlush == if old(batch.rows) == [] then old(lastFlush) else now
    {
      hide HighWater, Committed, Tabulates;
      if batch.rows == [] {
        return;
      }
      var columns := ToArrow(batch.rows);
      table.Append(columns, batch.rows);
      consumer.Commit(batch.offsets);
      CommitsHighWater(old(consumer.committed), consumer.committed, batch.offsets, Ids(batch.rows));
      archived := archived + |batch.rows|;
      batch.Clear();
      lastFlush := now;
    }

    /** The effects of a data message: decode, then batch it, or dead-letter it and commit past it. */
    method Take(p: nat, now: nat)
      requires batch.Valid() && HasNext(logs, Now(), p)
      modifies this`dlqCount, this`eof, consumer, dlq, batch
      ensures batch.Valid() && Now() == Taken(logs, old(Now()), p, now)
      ensures dlqCount == old(dlqCount) + |dlq.sent| - |old(dlq.sent)|
      ensures eof == old(eof) - {p}
    {
      var o := consumer.pos[p];
      consumer.pos := consumer.pos[p := o + 1];
      eof := eof - {p};
      match logs[p][o] {
        case Good(post) => batch.Add(Row(post, p, o, now));
        case Bad =>
          dlq.Send(Id(p, o));
          dlqCount := dlqCount + 1;
          ghost var was := consumer.committed;
          consumer.Commit(map[p := o]);
          assert consumer.committed == was[p := o + 1];
      }
    }

    method Flush(now: int)
      requires Valid()
      modifies this`archived, this`lastFlush, this`st, this`trace, consumer`committed, table, batch
      ensures Valid() && Now() == Flushed(old(Now())) && batch.rows == [] && archived == old(archived + |batch.rows|)
      ensures lastFlush == if old(batch.rows) == [] then old(lastFlush) else now
    {
      hide OnTrack, Apply, AtEof, Committed;
      FlushOnTrack(logs, Now(), start, st, trace);
      Write(now);
      st, trace := Apply(logs, st, Archive.Flush), trace + [Archive.Flush];
      OnTrackFits(logs, Now(), start, st, trace);
    }

    /** Flushes when the batch is full or old enough. */
    method FlushIfDue(now: nat)
      requires Valid()
      modifies this`archived, this`lastFlush, this`st, this`trace, consumer`committed, table, batch
      ensures Valid() && archived + |batch.rows| == old(archived + |batch.rows|)
      ensures Shot(now) == Settle(limits, old(Shot(now)))
    {
      hide OnTrack, HighWater, Fits, AtEof, Flushed;
      if batch.ShouldFlush(now - lastFlush) {
        Flush(now);
      }
    }

    /** One data message and the flush it may trigger. */
    method OnMessage(p: nat, before: nat, now: nat)
      requires Valid() && HasNext(logs, Now(), p)
      modifies this, consumer, table, dlq, batch
      ensures Valid() && archived + |batch.rows| <= old(archived + |batch.rows|) + 1
      ensures Shot(now) == OnData(logs, limits, old(Shot(now)), p)
      ensures Below(Todo(now), old(Todo(before)))
    {
      hide OnTrack, Apply, HighWater, Committed;
      ReadingShrinks(logs, consumer.pos, |logs|, p);
      lastActivity := now;
      var good := logs[p][consumer.pos[p]].Good?;
      TakeOnTrack(logs, Now(), start, st, trace, p, now);
      Take(p, now);
      st, trace := Apply(logs, st, Read(p)), trace + [Read(p)];
      OnTrackFits(logs, Now(), start, st, trace);
      if good {
        FlushIfDue(now);
      }
    }

    /** A partition reports its end. */
    method OnEof(p: nat, before: nat, now: nat)
      requires Valid() && p < |logs| && consumer.pos[p] == |logs[p]| && p !in eof
      modifies this`eof, this`lastActivity
      ensures Valid() && Shot(now) == OnEnd(old(Shot(now)), p)
      ensures Below(Todo(now), old(Todo(before)))
    {
      hide OnTrack, HighWater;
      lastActivity := now;
      eof := eof + {p};
      assert p in Partitions(|logs|) - old(eof);
    }

    predicate Drained()
      reads this
    {
      logs != [] && Partitions(|logs|) <= eof
    }

    /** No message: flush if due, then stop at the end of every partition or after a long silence. */
    method OnQuiet(before: nat, now: nat, joined: bool) returns (stop: Option<Reason>)
      requires Valid() && before < now
      modifies this`archived, this`lastFlush, this`st, this`trace, consumer`committed, table, batch
      ensures Valid() && archived + |batch.rows| == old(archived + |batch.rows|)
      ensures Shot(now) == Settle(limits, old(Shot(now))) && stop == QuietStop(logs, Shot(now), joined)
      ensures stop.None? ==> Below(Todo(now), old(Todo(before)))
    {
      hide OnTrack, HighWater;
      FlushIfDue(now);
      var drained := joined && Drained();
      if batch.rows == [] && (drained || now - lastActivity > IDLE_STOP) {
        return Some(if drained then Reason.Drained else Idle);
      }
      stop := None;
    }

    /** One turn of the loop, for any poll but a failed one. */
    method Turn(poll: Poll, before: nat, joined: bool) returns (now: nat, stop: Option<Reason>)
      requires Valid() && !poll.Broken?
      modifies this, consumer, table, dlq, batch
      ensures Valid() && archived + |batch.rows| <= old(archived + |batch.rows|) + 1
      ensures Shot(now) == Step(logs, limits, old(Shot(before)), poll)
      ensures stop == StopAfter(logs, limits, old(Shot(before)), poll, joined)
      ensures stop.None? ==> Below(Todo(now), old(Todo(before)))
      ensures stop.Some? ==> archived + |batch.rows| == old(archived + |batch.rows|) && batch.rows == []
    {
      hide OnTrack, HighWater, Todo, OnData, Settle, AtEof;
      now, stop := before + poll.ticks, None;
      if poll.Next? && poll.p < |logs| && consumer.pos[poll.p] < |logs[poll.p]| {
        OnMessage(poll.p, before, now);
      } else if poll.Next? && poll.p < |logs| && poll.p !in eof {
        OnEof(poll.p, before, now);
      } else {
        now := now + 1;
        stop := OnQuiet(before, now, joined);
      }
    }

    /** What the caller may rely on when the loop is over. */
    lemma Closing()
      requires Valid()
      ensures Shows(logs, Now(), st) && OnTrack(logs, Now(), start, st, trace)
      ensures rows0 <= table.rows && |table.rows| == |rows0| + archived
      ensures sent0 <= dlq.sent && |dlq.sent| == |sent0| + dlqCount
      ensures Drained() && batch.rows == [] ==> AtEnd(logs, st)
    {
      hide Shows, Exec, AtEnd;
      if Drained() && batch.rows == [] {
        DrainedAtEnd(logs, Now(), start, st, trace, eof);
      }
    }
  }

  lemma DrainedAtEnd(logs: Logs, v: View, start: St, st: St, trace: seq<Action>, eof: set<nat>)
    requires OnTrack(logs, v, start, st, trace) && v.held == [] && |v.pos| == |logs|
    requires AtEof(logs, v.pos, eof) && Partitions(|logs|) <= eof
    ensures AtEnd(logs, st)
  {
    assert forall p :: 0 <= p < |logs| ==> p in eof;
  }

  function AtLeastZero(n: int): nat {
    if n > 0 then n else 0
  }

  /** The durable state and the consumer's position, with no row held. */
  ghost function Durable(consumer: Consumer, table: Table, dlq: DlqProducer): View
    reads consumer, table, dlq
  {
    View(consumer.committed, consumer.pos, table.rows, dlq.sent, [])
  }

  /** Archives from the committed offsets until the topic is drained, nothing comes, the cap is met or a
      poll fails. Whatever the polls bring it ends; they decide when, why and with what result; and what it
      leaves is a crash-free run of the machine. */
  method PostsBronze(logs: Logs, consumer: Consumer, table: Table, dlq: DlqProducer, limits: Limits,
                     polls: nat -> Poll, joined: nat -> bool, t0: nat, ghost start: St)
      returns (archived: nat, dlqCount: nat, reason: Reason, ghost n: nat, ghost held: seq<Row>,
               ghost st: St, ghost trace: seq<Action>)
    requires Shows(logs, Durable(consumer, table, dlq), start)
    modifies consumer, table, dlq
    ensures EndsAt(logs, limits, polls, joined, Fresh(old(Durable(consumer, table, dlq)), t0), n, reason)
    ensures Durable(consumer, table, dlq).(held := held) ==
              Result(logs, limits, polls, Fresh(old(Durable(consumer, table, dlq)), t0), n, reason)
    ensures OnTrack(logs, Durable(consumer, table, dlq).(held := held), start, st, trace)
    ensures !reason.Failed? ==> held == []
    ensures old(table.rows) <= table.rows && |table.rows| == |old(table.rows)| + archived
    ensures old(dlq.sent) <= dlq.sent && |dlq.sent| == |old(dlq.sent)| + dlqCount
    ensures archived + |held| <= AtLeastZero(limits.rowsPerRun)
    ensures reason.Capped? ==> archived == AtLeastZero(limits.rowsPerRun)
    ensures reason.Drained? ==> AtEnd(logs, st)
  {
    hide Shows, OnTrack, HighWater, Exec, AtEnd, Run.Valid, Run.Todo, Flushed, Step, StopAfter, After, AllGoOn;
    var batch := new BronzeBatch(limits.batchRows, limits.batchTicks);
    var run := new Run(logs, limits, consumer, table, dlq, batch, t0, start);
    ghost var s := Fresh(old(Durable(consumer, table, dlq)), t0);
    var now: nat, k: nat := t0, 0;
    reason := Capped;
    Beginning(logs, limits, polls, joined, s);
    while run.archived + |batch.rows| < limits.rowsPerRun
      invariant run.Valid() && run.archived + |batch.rows| <= AtLeastZero(limits.rowsPerRun)
      invariant run.Shot(now) == After(logs, limits, polls, s, k) && AllGoOn(logs, limits, polls, joined, s, k)
      decreases run.Todo(now).unread, run.Todo(now).open, run.Todo(now).full, run.Todo(now).wait
    {
      run.Closing();
      var poll := polls(k);
      if poll.Broken? {
        return run.archived, run.dlqCount, Failed, k, batch.rows, run.st, run.trace;
      }
      NextTurn(logs, limits, polls, s, k);
      var stop;
      now, stop := run.Turn(poll, now, joined(k));
      if stop.Some? {
        StopIs(logs, limits, After(logs, limits, polls, s, k), poll, joined(k));
        reason := stop.value;
        break;
      }
      GoOn(logs, limits, polls, joined, s, k);
      k := k + 1;
    }
    run.Closing();
    run.Flush(now);
    run.Closing();
    archived, dlqCount, n, held, st, trace := run.archived, run.dlqCount, k, [], run.st, run.trace;
  }

  lemma Beginning(logs: Logs, limits: Limits, polls: nat -> Poll, joined: nat -> bool, s: Snap)
    ensures After(logs, limits, polls, s, 0) == s && AllGoOn(logs, limits, polls, joined, s, 0)
  {
  }

  lemma StopIs(logs: Logs, limits: Limits, s: Snap, poll: Poll, joined: bool)
    ensures var stop := StopAfter(logs, limits, s, poll, joined);
            stop.Some? ==> && (stop.value.Drained? || stop.value.Idle?)
                           && (stop.value.Drained? ==> AllEnded(logs, Step(logs, limits, s, poll)))
  {
    hide Step, Delivers, Ends;
  }

  lemma SameSize(a: seq<Row>, b: seq<Row>)
    requires multiset(Ids(a)) == multiset(Ids(b))
    ensures |a| == |b|
  {
    assert |multiset(Ids(a))| == |a| && |multiset(Ids(b))| == |b|;
  }

  /** The next process starts where a clean run left off. */
  lemma NextStarts(logs: Logs, v: View, st: St)
    requires Shows(logs, v, st) && v.held == []
    ensures Shows(logs, v.(pos := v.committed), AfterCrash(st)) && AfterCrash(st).lost == st.lost
  {
    hide Inv, Faithful;
    CrashKeeps(logs, st);
    assert Batched(st) == {};
  }

  /** Every record no earlier crash lost is in the table or was dead-lettered. */
  ghost predicate Complete(logs: Logs, rows: seq<Row>, sent: seq<Id>, lost: set<Id>) {
    forall id :: InLog(logs, id) && id !in lost ==> if IsGood(logs, id) then id in Ids(rows) else id in sent
  }

  lemma DrainedComplete(logs: Logs, v: View, st: St)
    requires Shows(logs, v, st) && AtEnd(logs, st)
    ensures Complete(logs, v.rows, v.sent, st.lost)
  {
    AtEndComplete(logs, st);
    hide Inv, AtEnd, IsGood, InLog, Ids;
    assert forall id :: id in Ids(v.rows) <==> id in multiset(Ids(v.rows));
    assert forall id :: id in v.sent <==> id in multiset(v.sent);
  }

  lemma NothingLeft(logs: Logs, st: St, trace: seq<Action>)
    requires Inv(logs, st) && AtEnd(logs, st)
    ensures Exec(logs, AfterCrash(st), trace).bronze == st.bronze
  {
    hide Inv, AfterCrash;
    AtEndComplete(logs, st);
    SpentStep(logs, st, Crash);
    RerunArchivesNothing(logs, AfterCrash(st), trace);
  }

  lemma MoreSent(logs: Logs, rows: seq<Row>, sent: seq<Id>, more: seq<Id>, lost: set<Id>)
    requires Complete(logs, rows, sent, lost) && sent <= more
    ensures Complete(logs, rows, more, lost)
  {
    hide IsGood, InLog, Ids;
    assert forall id :: id in sent ==> id in more;
  }

  lemma ShowsCounts(logs: Logs, v: View, st: St)
    requires Shows(logs, v, st)
    ensures Inv(logs, st) && st.bronze == multiset(Ids(v.rows)) && st.dlq == multiset(v.sent)
    ensures st.committed == v.committed
  {
  }

  /** What was sent since: only records left uncommitted, each at most once, or exactly once. */
  ghost predicate SentAgain(logs: Logs, v: View, sent: seq<Id>, all: bool) {
    && v.sent <= sent
    && var more := multiset(sent[|v.sent|..]); var left := multiset(Uncommitted(logs, v.committed));
       more <= left && (all ==> more == left)
  }

  lemma SentAgainIs(logs: Logs, v: View, sent: seq<Id>, all: bool)
    requires v.sent <= sent
    requires multiset(sent) <= multiset(v.sent) + multiset(Uncommitted(logs, v.committed))
    requires all ==> multiset(sent) == multiset(v.sent) + multiset(Uncommitted(logs, v.committed))
    ensures SentAgain(logs, v, sent, all)
  {
    hide Uncommitted;
    assert sent == v.sent + sent[|v.sent|..];
    Cancel(multiset(v.sent), multiset(sent[|v.sent|..]), multiset(Uncommitted(logs, v.committed)));
  }

  lemma Cancel(a: multiset<Id>, b: multiset<Id>, c: multiset<Id>)
    ensures a + b <= a + c ==> b <= c
    ensures a + b == a + c ==> b == c
  {
    forall x
      ensures a + b <= a + c ==> b[x] <= c[x]
      ensures a + b == a + c ==> b[x] == c[x]
    {
      assert (a + b)[x] == a[x] + b[x] && (a + c)[x] == a[x] + c[x];
    }
  }

  /** What a run after a drained one adds, and does not add. */
  lemma Rerun(logs: Logs, v: View, st: St, w: View, st2: St, trace2: seq<Action>)
    requires Shows(logs, v, st) && AtEnd(logs, st) && OnTrack(logs, w, AfterCrash(st), st2, trace2)
    requires v.rows <= w.rows && v.sent <= w.sent
    ensures |w.rows| == |v.rows| && Complete(logs, w.rows, w.sent, st.lost)
    ensures SentAgain(logs, v, w.sent, AtEnd(logs, st2))
  {
    hide SentAgain, Shows, Inv, AtEnd, Exec, AfterCrash, Complete, Uncommitted, Ids;
    ShowsCounts(logs, v, st);
    ShowsCounts(logs, w, st2);
    NothingLeft(logs, st, trace2);
    SameSize(w.rows, v.rows);
    DrainedComplete(logs, v, st);
    assert w.rows == v.rows;
    MoreSent(logs, w.rows, v.sent, w.sent, st.lost);
    RerunResends(logs, st, st2);
    SentAgainIs(logs, v, w.sent, AtEnd(logs, st2));
  }

  /** Two runs in a row over the same logs. If the first stops because the topic is drained, everything is
      archived or dead-lettered, and the second archives nothing and dead-letters again only records the first
      left uncommitted: each once if it drains too, and none at all if all was committed. */
  method DrainThenRerun(logs: Logs, consumer: Consumer, table: Table, dlq: DlqProducer, limits: Limits,
                        polls: nat -> Poll, joined: nat -> bool, polls2: nat -> Poll, joined2: nat -> bool,
                        t0: nat, t1: nat, ghost start: St)
      returns (archived: nat, reason: Reason, again: nat, next: Reason, ghost n: nat, ghost mid: View)
    requires Shows(logs, Durable(consumer, table, dlq), start)
    modifies consumer, table, dlq
    ensures EndsAt(logs, limits, polls, joined, Fresh(old(Durable(consumer, table, dlq)), t0), n, reason)
    ensures mid == Result(logs, limits, polls, Fresh(old(Durable(consumer, table, dlq)), t0), n, reason)
    ensures |table.rows| == |old(table.rows)| + archived + again
    ensures reason.Drained? ==> again == 0 && Complete(logs, table.rows, dlq.sent, start.lost)
    ensures reason.Drained? ==> SentAgain(logs, mid, dlq.sent, next.Drained?)
  {
    hide Shows, OnTrack, AtEnd, Exec, AfterCrash, Inv, Complete, Result, EndsAt, Fresh, Uncommitted;
    var count: nat;
    ghost var st: St, trace, held, k;
    archived, count, reason, n, held, st, trace :=
      PostsBronze(logs, consumer, table, dlq, limits, polls, joined, t0, start);
    mid := Durable(consumer, table, dlq).(held := held);
    if reason.Failed? {
      again, next := 0, Failed;
      return;
    }
    TrackShows(logs, mid, start, st, trace);
    NextStarts(logs, mid, st);
    consumer.pos := consumer.committed;
    ghost var st2: St, trace2, held2;
    again, count, next, k, held2, st2, trace2 :=
      PostsBronze(logs, consumer, table, dlq, limits, polls2, joined2, t1, AfterCrash(st));
    if reason.Drained? {
      Rerun(logs, mid, st, Durable(consumer, table, dlq).(held := held2), st2, trace2);
    }
  }

  lemma TrackShows(logs: Logs, v: View, start: St, st: St, trace: seq<Action>)
    requires OnTrack(logs, v, start, st, trace)
    ensures Shows(logs, v, st) && st.lost == start.lost
  {
  }
}
