// Bronze to landing to staging to mart as one run of steps.
module Pipeline {
  import opened Basics
  import opened Posts
  import opened HighWater
  import opened Staging
  import opened Mart
  import Archive
  import ArchiveLoop

  /** The two copies, the second fed by the first. */
  datatype Warehouse = Warehouse(land: Copy, stage: Copy)

  datatype Event =
    | Archive(rows: seq<Row>)
    | Load(order: seq<Row>, done: nat)
    | Stage(order: seq<Row>, done: nat)
    | Aggregate

  const NOTHING := Warehouse(EMPTY, EMPTY)

  /** What a load adds to landing. */
  function Loaded(w: Warehouse, order: seq<Row>, done: nat): seq<Row> {
    if Enabled(ByRows, w.land, Insert(order, done)) then Scan(ByRows, w.land, order)[..done] else []
  }

  function Next(w: Warehouse, e: Event): Warehouse {
    match e
    case Archive(rows) => w.(land := Apply(ByRows, w.land, Append(rows)))
    case Load(order, done) =>
      Warehouse(Apply(ByRows, w.land, Insert(order, done)), Apply(ByTable, w.stage, Append(Loaded(w, order, done))))
    case Stage(order, done) => w.(stage := Apply(ByTable, w.stage, Insert(order, done)))
    case Aggregate => w
  }

  function Reached(events: seq<Event>): Warehouse {
    if events == [] then NOTHING else Next(Reached(events[..|events| - 1]), events[|events| - 1])
  }

  /** The steps of the first copy in a run. */
  function LandSteps(events: seq<Event>): seq<Step> {
    if events == [] then [] else
      var before := LandSteps(events[..|events| - 1]);
      match events[|events| - 1]
      case Archive(rows) => before + [Append(rows)]
      case Load(order, done) => before + [Insert(order, done)]
      case _ => before
  }

  /** The steps of the second. */
  function StageSteps(events: seq<Event>): seq<Step> {
    if events == [] then [] else
      var before := StageSteps(events[..|events| - 1]);
      match events[|events| - 1]
      case Load(order, done) => before + [Append(Loaded(Reached(events[..|events| - 1]), order, done))]
      case Stage(order, done) => before + [Insert(order, done)]
      case _ => before
  }

  lemma ExecPush(gate: Gate, steps: seq<Step>, step: Step)
    ensures Exec(gate, EMPTY, steps + [step]) == Apply(gate, Exec(gate, EMPTY, steps), step)
    ensures AllClean(gate, EMPTY, steps + [step])
            <==> AllClean(gate, EMPTY, steps) && Clean(gate, Exec(gate, EMPTY, steps), step)
    ensures AllInTurn(gate, EMPTY, steps + [step])
            <==> AllInTurn(gate, EMPTY, steps) && InTurn(gate, Exec(gate, EMPTY, steps), step)
  {
    assert (steps + [step])[..|steps|] == steps;
  }

  /** Each copy of the pipeline does its own steps, and staging's source is landing. */
  lemma {:induction false} RunIsTwoCopies(events: seq<Event>)
    ensures Reached(events).land == Exec(ByRows, EMPTY, LandSteps(events))
    ensures Reached(events).stage == Exec(ByTable, EMPTY, StageSteps(events))
    ensures Reached(events).land.dest == Reached(events).stage.source
  {
    hide Apply, Exec;
    if events != [] {
      var n := |events| - 1;
      var w := Reached(events[..n]);
      RunIsTwoCopies(events[..n]);
      match events[n]
      case Archive(rows) =>
        ExecPush(ByRows, LandSteps(events[..n]), Append(rows));
        ApplySides(ByRows, w.land, Append(rows));
      case Load(order, done) =>
        ExecPush(ByRows, LandSteps(events[..n]), Insert(order, done));
        ExecPush(ByTable, StageSteps(events[..n]), Append(Loaded(w, order, done)));
        ApplySides(ByRows, w.land, Insert(order, done));
        ApplySides(ByTable, w.stage, Append(Loaded(w, order, done)));
      case Stage(order, done) =>
        ExecPush(ByTable, StageSteps(events[..n]), Insert(order, done));
        ApplySides(ByTable, w.stage, Insert(order, done));
      case Aggregate =>
    } else {
      assert Exec(ByRows, EMPTY, []) == EMPTY && Exec(ByTable, EMPTY, []) == EMPTY by {
        ExecNone();
      }
    }
  }

  lemma ExecNone()
    ensures forall gate :: Exec(gate, EMPTY, []) == EMPTY
  {
  }

  lemma ApplySides(gate: Gate, c: Copy, step: Step)
    ensures step.Append? ==> Apply(gate, c, step).source == c.source + step.rows && Apply(gate, c, step).dest == c.dest
    ensures step.Insert? ==>
              && Apply(gate, c, step).source == c.source
              && Apply(gate, c, step).dest
                 == c.dest + if Enabled(gate, c, step) then Scan(gate, c, step.order)[..step.done] else []
  {
  }

  /** A load and a staging run that each take all they select, in any scan orders. */
  function FullLoad(w: Warehouse, order: seq<Row>): Event {
    Load(order, |Scan(ByRows, w.land, order)|)
  }

  function FullStage(w: Warehouse, order: seq<Row>): Event {
    Stage(order, |Scan(ByTable, w.stage, order)|)
  }

  lemma Sandwich(a: multiset<Row>, b: multiset<Row>, c: multiset<Row>)
    requires a <= b <= c
    ensures a == c <==> a == b && b == c
  {
  }

  /** After any run, one full load and one full staging run leave staging with exactly bronze's rows if and
      only if no step of either copy, up to that load, put a row behind its mark. */
  lemma StagedIffClean(events: seq<Event>, order: seq<Row>, order2: seq<Row>)
    requires multiset(order) == multiset(Reached(events).land.source)
    requires multiset(order2) == multiset(Next(Reached(events), FullLoad(Reached(events), order)).stage.source)
    ensures var load := FullLoad(Reached(events), order);
            var w := Next(Reached(events), load);
            var end := Next(w, FullStage(w, order2));
            && multiset(end.stage.dest) <= multiset(end.land.source)
            && (multiset(end.stage.dest) == multiset(end.land.source) <==>
                  && AllClean(ByRows, EMPTY, LandSteps(events))
                  && AllClean(ByTable, EMPTY, StageSteps(events + [load])))
  {
    hide Apply, Exec, AllClean, Scan;
    var load := FullLoad(Reached(events), order);
    var more := events + [load];
    assert more[..|events|] == events;
    var w := Reached(more);
    var end := Next(w, FullStage(w, order2));
    RunIsTwoCopies(events);
    RunIsTwoCopies(more);
    ExactIffClean(ByRows, LandSteps(events), order);
    ExactIffClean(ByTable, StageSteps(more), order2);
    ApplySides(ByTable, w.stage, Insert(order2, |Scan(ByTable, w.stage, order2)|));
    Sandwich(multiset(end.stage.dest), multiset(w.land.dest), multiset(w.land.source));
  }

  // ----- The intended use -----

  /** Archived rows are newer than all earlier ones, and every load and staging run completes. */
  predicate Orderly(w: Warehouse, e: Event) {
    match e
    case Archive(rows) => InTurn(ByRows, w.land, Append(rows))
    case Load(order, done) => InTurn(ByRows, w.land, Insert(order, done))
    case Stage(order, done) => InTurn(ByTable, w.stage, Insert(order, done))
    case Aggregate => true
  }

  predicate AllOrderly(events: seq<Event>) {
    events == [] ||
    (AllOrderly(events[..|events| - 1]) && Orderly(Reached(events[..|events| - 1]), events[|events| - 1]))
  }

  predicate AfterEpoch(rows: seq<Row>) {
    forall k :: 0 <= k < |rows| ==> rows[k].ingestTs > 0
  }

  lemma {:induction false} NewerAre(rows: seq<Row>, mark: Option<nat>)
    requires AfterEpoch(rows)
    ensures forall k :: 0 <= k < |Newer(rows, mark)| ==>
              Passes(Newer(rows, mark)[k], mark) && Newer(rows, mark)[k].ingestTs > 0
  {
    if rows != [] {
      NewerAre(rows[..|rows| - 1], mark);
    }
  }

  lemma LoadedInTurn(w: Warehouse, order: seq<Row>, done: nat)
    requires w.land.dest == w.stage.source && AfterEpoch(w.land.source)
    ensures InTurn(ByTable, w.stage, Append(Loaded(w, order, done)))
  {
    if Enabled(ByRows, w.land, Insert(order, done)) {
      assert AfterEpoch(order) by {
        forall k | 0 <= k < |order|
          ensures order[k].ingestTs > 0
        {
          assert order[k] in multiset(order);
          assert order[k] in multiset(w.land.source);
        }
      }
      NewerAre(order, Mark(ByRows, w.land));
    }
  }

  lemma {:induction false} OrderlyInTurn(events: seq<Event>)
    requires AllOrderly(events)
    ensures AllInTurn(ByRows, EMPTY, LandSteps(events)) && AllInTurn(ByTable, EMPTY, StageSteps(events))
    ensures AfterEpoch(Reached(events).land.source)
  {
    hide Apply, Exec, InTurn, AllInTurn;
    if events != [] {
      var n := |events| - 1;
      var w := Reached(events[..n]);
      OrderlyInTurn(events[..n]);
      RunIsTwoCopies(events[..n]);
      match events[n]
      case Archive(rows) =>
        ExecPush(ByRows, LandSteps(events[..n]), Append(rows));
        ApplySides(ByRows, w.land, Append(rows));
        ArchivedAfterEpoch(w, rows);
      case Load(order, done) =>
        ExecPush(ByRows, LandSteps(events[..n]), Insert(order, done));
        ExecPush(ByTable, StageSteps(events[..n]), Append(Loaded(w, order, done)));
        ApplySides(ByRows, w.land, Insert(order, done));
        LoadedInTurn(w, order, done);
      case Stage(order, done) =>
        ExecPush(ByTable, StageSteps(events[..n]), Insert(order, done));
      case Aggregate =>
    } else {
      NoneInTurn();
    }
  }

  lemma NoneInTurn()
    ensures forall gate :: AllInTurn(gate, EMPTY, [])
  {
  }

  lemma ArchivedAfterEpoch(w: Warehouse, rows: seq<Row>)
    requires InTurn(ByRows, w.land, Append(rows)) && AfterEpoch(w.land.source)
    ensures AfterEpoch(w.land.source + rows)
  {
  }

  /** In orderly use, a full load and a full staging run always leave staging with exactly bronze's rows. */
  lemma OrderlyIsStaged(events: seq<Event>, order: seq<Row>, order2: seq<Row>)
    requires AllOrderly(events) && multiset(order) == multiset(Reached(events).land.source)
    requires multiset(order2) == multiset(Next(Reached(events), FullLoad(Reached(events), order)).stage.source)
    ensures var w := Next(Reached(events), FullLoad(Reached(events), order));
            var end := Next(w, FullStage(w, order2));
            multiset(end.stage.dest) == multiset(end.land.source)
  {
    hide Apply, Exec, Scan, AllClean, AllInTurn;
    var load := FullLoad(Reached(events), order);
    assert (events + [load])[..|events|] == events;
    OrderlyInTurn(events);
    OrderlyInTurn(events + [load]);
    InTurnIsClean(ByRows, LandSteps(events));
    InTurnIsClean(ByTable, StageSteps(events + [load]));
    StagedIffClean(events, order, order2);
  }

  lemma SameByMultiset(a: seq<Row>, b: seq<Row>)
    requires multiset(a) == multiset(b)
    ensures SameRows(a, b)
  {
    forall r
      ensures r in a <==> r in b
    {
      assert r in a <==> r in multiset(a);
      assert r in b <==> r in multiset(b);
    }
  }

  /** And if no two rows of a key with the same timestamp differ, staging then reads as the newest row of each
      key of bronze. */
  lemma OrderlyReadIsBronze(events: seq<Event>, order: seq<Row>, order2: seq<Row>)
    requires AllOrderly(events) && NoTies(Reached(events).land.source)
    requires multiset(order) == multiset(Reached(events).land.source)
    requires multiset(order2) == multiset(Next(Reached(events), FullLoad(Reached(events), order)).stage.source)
    ensures var w := Next(Reached(events), FullLoad(Reached(events), order));
            var end := Next(w, FullStage(w, order2));
            end.land.source == Reached(events).land.source && Final(end.stage.dest) == Final(end.land.source)
  {
    hide Apply, Scan, AllOrderly, NoTies, Final;
    var w := Next(Reached(events), FullLoad(Reached(events), order));
    var end := Next(w, FullStage(w, order2));
    OrderlyIsStaged(events, order, order2);
    BronzeStays(Reached(events), FullLoad(Reached(events), order), FullStage(w, order2));
    SameByMultiset(end.land.source, end.stage.dest);
    OrderIrrelevant(end.land.source, end.stage.dest);
  }

  lemma BronzeStays(w: Warehouse, load: Event, stage: Event)
    requires load.Load? && stage.Stage?
    ensures Next(Next(w, load), stage).land.source == w.land.source
  {
  }

  /** An archiver run whose clock starts after the newest row of the table appends in turn. */
  lemma ArchiverIsOrderly(w: Warehouse, logs: Archive.Logs, limits: ArchiveLoop.Limits, polls: nat -> ArchiveLoop.Poll,
                          v: ArchiveLoop.View, t0: nat, n: nat, reason: ArchiveLoop.Reason)
    requires v.held == [] && w.land.source == v.rows && t0 > MaxTs(v.rows)
    ensures var left := ArchiveLoop.Result(logs, limits, polls, ArchiveLoop.Fresh(v, t0), n, reason);
            v.rows <= left.rows && Orderly(w, Archive(left.rows[|v.rows|..]))
  {
    hide ArchiveLoop.Result;
    ArchiveLoop.AddedAfterStart(logs, limits, polls, v, t0, n, reason);
    var left := ArchiveLoop.Result(logs, limits, polls, ArchiveLoop.Fresh(v, t0), n, reason);
    var now :| ArchiveLoop.Clocked(v.rows, left, t0, now);
    var added, stored := left.rows[|v.rows|..] + left.held, left.rows[|v.rows|..];
    assert forall k :: 0 <= k < |stored| ==> stored[k] == added[k];
  }

  // ----- Down to the mart -----

  /** The staged rows each mart build read. */
  function Shots(events: seq<Event>): seq<seq<Row>> {
    if events == [] then [] else
      var before := Shots(events[..|events| - 1]);
      if events[|events| - 1].Aggregate? then before + [Reached(events).stage.dest] else before
  }

  function Snaps(toDate: int -> Date, shots: seq<seq<Row>>): (snaps: seq<Listing>)
    ensures |snaps| == |shots|
  {
    seq(|shots|, i requires 0 <= i < |shots| => ListingOf(toDate, shots[i]))
  }

  lemma {:induction false} ShotsGrow(events: seq<Event>)
    ensures forall i :: 0 <= i < |Shots(events)| ==> Shots(events)[i] <= Reached(events).stage.dest
    ensures forall i :: 0 < i < |Shots(events)| ==> Shots(events)[i - 1] <= Shots(events)[i]
  {
    hide Apply;
    if events != [] {
      var n := |events| - 1;
      ShotsGrow(events[..n]);
      StageOnlyGrows(Reached(events[..n]), events[n]);
    }
  }

  lemma StageOnlyGrows(w: Warehouse, e: Event)
    ensures w.stage.dest <= Next(w, e).stage.dest
  {
    match e
    case Load(order, done) => ApplySides(ByTable, w.stage, Append(Loaded(w, order, done)));
    case Stage(order, done) => ApplySides(ByTable, w.stage, Insert(order, done));
    case _ =>
  }

  lemma SnapsGrow(toDate: int -> Date, shots: seq<seq<Row>>, rows: seq<Row>)
    requires PostByKey(rows) && forall i :: 0 <= i < |shots| ==> shots[i] <= rows
    requires forall i :: 0 < i < |shots| ==> shots[i - 1] <= shots[i]
    ensures Growing(Snaps(toDate, shots))
  {
    hide ListingOf, Extends, KeyOf;
    forall i | 0 < i < |shots|
      ensures Extends(Snaps(toDate, shots)[i], Snaps(toDate, shots)[i - 1])
    {
      assert forall r :: r in shots[i] ==> r in rows;
      assert forall r :: r in shots[i - 1] ==> r in shots[i];
      ListingGrows(toDate, shots[i - 1], shots[i]);
    }
  }

  lemma Unroll(events: seq<Event>, a: Event, b: Event)
    ensures var all := events + [a, b, Aggregate];
            && Reached(all) == Next(Next(Reached(events), a), b)
            && Shots(all) != [] && Shots(all)[|Shots(all)| - 1] == Reached(all).stage.dest
  {
    var all := events + [a, b, Aggregate];
    var n := |events|;
    assert all[..n + 2] == events + [a, b] && all[..n + 2][..n + 1] == events + [a] && all[..n + 1][..n] == events;
    assert Reached(events + [a]) == Next(Reached(events), a) by {
      assert (events + [a])[..n] == events;
    }
    assert Reached(events + [a, b]) == Next(Reached(events + [a]), b) by {
      assert (events + [a, b])[..n + 1] == events + [a];
    }
  }

  /** The closing steps of a day: a full load, a full staging run and a mart build. */
  function Closed(events: seq<Event>, order: seq<Row>, order2: seq<Row>): seq<Event> {
    var load := FullLoad(Reached(events), order);
    events + [load, FullStage(Next(Reached(events), load), order2), Aggregate]
  }

  /** What the closed run leaves in staging lists the same posts as bronze. */
  lemma ClosedLists(toDate: int -> Date, events: seq<Event>, order: seq<Row>, order2: seq<Row>)
    requires AllOrderly(events) && NoTies(Reached(events).land.source)
    requires multiset(order) == multiset(Reached(events).land.source)
    requires multiset(order2) == multiset(Next(Reached(events), FullLoad(Reached(events), order)).stage.source)
    ensures var all := Closed(events, order, order2); var snaps := Snaps(toDate, Shots(all));
            && snaps != []
            && snaps[|snaps| - 1] == ListingOf(toDate, Reached(events).land.source)
            && Shots(all)[|snaps| - 1] == Reached(all).stage.dest
            && multiset(Reached(all).stage.dest) == multiset(Reached(events).land.source)
  {
    hide Apply, Scan, AllOrderly, NoTies, Final;
    var load := FullLoad(Reached(events), order);
    var stage := FullStage(Next(Reached(events), load), order2);
    Unroll(events, load, stage);
    OrderlyIsStaged(events, order, order2);
    OrderlyReadIsBronze(events, order, order2);
  }

  /** End to end, over every orderly run closed by a full load, a full staging run and a mart build, with any
      posts: the mart equals the full aggregate of everything in bronze if and only if every group is current. */
  lemma MartIsBronzeIffCurrent(toDate: int -> Date, events: seq<Event>, order: seq<Row>, order2: seq<Row>)
    requires AllOrderly(events) && NoTies(Reached(events).land.source)
    requires multiset(order) == multiset(Reached(events).land.source)
    requires multiset(order2) == multiset(Next(Reached(events), FullLoad(Reached(events), order)).stage.source)
    ensures var snaps := Snaps(toDate, Shots(Closed(events, order, order2)));
            && snaps != []
            && (Built(snaps) == FullAgg(ListingOf(toDate, Reached(events).land.source)) <==>
                  forall g :: Current(snaps, g))
  {
    hide Apply, Scan, FullAgg, Built, Current, AllOrderly, NoTies, ListingOf, Closed, Shots;
    ClosedLists(toDate, events, order, order2);
    MartIffCurrent(Snaps(toDate, Shots(Closed(events, order, order2))));
  }

  lemma KeyedHasNoTies(rows: seq<Row>)
    requires PostByKey(rows)
    ensures NoTies(rows)
  {
    hide KeyOf;
  }

  lemma KeyedSubset(rows: seq<Row>, more: seq<Row>)
    requires PostByKey(more) && multiset(rows) == multiset(more)
    ensures PostByKey(rows)
  {
    hide KeyOf;
    SameByMultiset(rows, more);
  }

  /** If moreover no record's post ever changes: the mart equals the full aggregate of everything in bronze if
      and only if no build ever missed a late post. */
  lemma MartIsBronzeIffNeverLate(toDate: int -> Date, events: seq<Event>, order: seq<Row>, order2: seq<Row>)
    requires AllOrderly(events) && PostByKey(Reached(events).land.source)
    requires multiset(order) == multiset(Reached(events).land.source)
    requires multiset(order2) == multiset(Next(Reached(events), FullLoad(Reached(events), order)).stage.source)
    requires var snaps := Snaps(toDate, Shots(Closed(events, order, order2))); snaps != [] ==> Ordinary(snaps)
    ensures var snaps := Snaps(toDate, Shots(Closed(events, order, order2)));
            && snaps != []
            && (Built(snaps) == FullAgg(ListingOf(toDate, Reached(events).land.source)) <==> !EverLate(snaps))
  {
    hide Apply, Scan, Ordinary, FullAgg, Built, EverLate, AllOrderly, NoTies, PostByKey, ListingOf, Growing, Closed,
         Shots;
    var all := Closed(events, order, order2);
    KeyedHasNoTies(Reached(events).land.source);
    ClosedLists(toDate, events, order, order2);
    KeyedSubset(Reached(all).stage.dest, Reached(events).land.source);
    ShotsGrow(all);
    SnapsGrow(toDate, Shots(all), Reached(all).stage.dest);
    MartIffNeverLate(Snaps(toDate, Shots(all)));
  }
}
