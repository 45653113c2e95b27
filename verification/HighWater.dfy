// High-water copying: a table filled with the source rows newer than the newest row it already holds.
// Bronze to landing and landing to staging are both this copy; they differ only in when the
// high-water mark starts to apply.
module HighWater {
  import opened Basics
  import opened Posts

  /** The greatest ingest timestamp of a table, and the epoch for an empty one. */
  function MaxTs(rows: seq<Row>): (m: nat)
    ensures forall k :: 0 <= k < |rows| ==> rows[k].ingestTs <= m
    ensures rows != [] ==> exists k :: 0 <= k < |rows| && rows[k].ingestTs == m
    ensures rows == [] ==> m == 0
  {
    if rows == [] then 0 else
      var last, rest := rows[|rows| - 1].ingestTs, MaxTs(rows[..|rows| - 1]);
      assert forall k :: 0 <= k < |rows| - 1 ==> rows[k] == rows[..|rows| - 1][k];
      if last >= rest then last else rest
  }

  predicate Passes(r: Row, mark: Option<nat>) {
    mark.None? || r.ingestTs > mark.value
  }

  /** The rows strictly newer than the mark, in the order given. */
  function Newer(rows: seq<Row>, mark: Option<nat>): seq<Row> {
    if rows == [] then [] else
      var last, rest := rows[|rows| - 1], Newer(rows[..|rows| - 1], mark);
      if Passes(last, mark) then rest + [last] else rest
  }

  function Count(rows: seq<Row>, r: Row): nat {
    multiset(rows)[r]
  }

  lemma CountConcat(a: seq<Row>, b: seq<Row>, r: Row)
    ensures Count(a + b, r) == Count(a, r) + Count(b, r)
  {
  }

  lemma {:induction false} CountNewer(rows: seq<Row>, mark: Option<nat>, r: Row)
    ensures Count(Newer(rows, mark), r) == if Passes(r, mark) then Count(rows, r) else 0
  {
    if rows != [] {
      var n := |rows| - 1;
      CountNewer(rows[..n], mark, r);
      assert rows == rows[..n] + [rows[n]];
    }
  }

  lemma CountZero(rows: seq<Row>, r: Row)
    requires r.ingestTs > MaxTs(rows)
    ensures Count(rows, r) == 0
  {
  }

  /** Landing consults the mark once it holds a row, staging once it has been built. */
  datatype Gate = ByRows | ByTable

  datatype Copy = Copy(source: seq<Row>, dest: seq<Row>, built: bool)

  const EMPTY := Copy([], [], false)

  function Mark(gate: Gate, c: Copy): Option<nat> {
    if (if gate.ByRows? then c.dest != [] else c.built) then Some(MaxTs(c.dest)) else None
  }

  /** The source grows, or a run scans it in some order and inserts the first rows of what it selects:
      all of them, or fewer if it dies on the way. */
  datatype Step = Append(rows: seq<Row>) | Insert(order: seq<Row>, done: nat)

  function Scan(gate: Gate, c: Copy, order: seq<Row>): seq<Row> {
    Newer(order, Mark(gate, c))
  }

  predicate Enabled(gate: Gate, c: Copy, step: Step) {
    step.Append? || (multiset(step.order) == multiset(c.source) && step.done <= |Scan(gate, c, step.order)|)
  }

  function Apply(gate: Gate, c: Copy, step: Step): Copy {
    if !Enabled(gate, c, step) then c else
      match step
      case Append(rows) => c.(source := c.source + rows)
      case Insert(order, done) => c.(dest := c.dest + Scan(gate, c, order)[..done], built := true)
  }

  function Exec(gate: Gate, c: Copy, steps: seq<Step>): Copy {
    if steps == [] then c
    else Apply(gate, Exec(gate, c, steps[..|steps| - 1]), steps[|steps| - 1])
  }

  /** A run that inserts everything it selects. */
  function Full(gate: Gate, c: Copy, order: seq<Row>): Step {
    Insert(order, |Scan(gate, c, order)|)
  }

  predicate Missing(c: Copy, r: Row) {
    Count(c.dest, r) < Count(c.source, r)
  }

  /** A missing row the filter will never select. */
  predicate Stranded(gate: Gate, c: Copy, r: Row) {
    Missing(c, r) && !Passes(r, Mark(gate, c))
  }

  /** No row is copied more often than it occurs, and nothing before the first run. */
  ghost predicate Within(c: Copy) {
    (!c.built ==> c.dest == []) && forall r :: Count(c.dest, r) <= Count(c.source, r)
  }

  ghost predicate Same(c: Copy) {
    forall r :: Count(c.dest, r) == Count(c.source, r)
  }

  lemma SameIsEqual(c: Copy)
    ensures Same(c) <==> multiset(c.dest) == multiset(c.source)
  {
    if Same(c) {
      forall r
        ensures multiset(c.dest)[r] == multiset(c.source)[r]
      {
        assert Count(c.dest, r) == Count(c.source, r);
      }
    }
  }

  /** The step puts no row behind the mark: what is appended is newer than the mark, and what a run
      leaves behind is newer than everything it inserted. */
  predicate Clean(gate: Gate, c: Copy, step: Step) {
    !Enabled(gate, c, step) ||
    match step
    case Append(rows) => forall k :: 0 <= k < |rows| ==> Passes(rows[k], Mark(gate, c))
    case Insert(order, done) =>
      var left := Scan(gate, c, order)[done..];
      forall k :: 0 <= k < |left| ==> Passes(left[k], Mark(gate, Apply(gate, c, step)))
  }

  predicate AllClean(gate: Gate, c: Copy, steps: seq<Step>) {
    steps == [] ||
    (AllClean(gate, c, steps[..|steps| - 1])
     && Clean(gate, Exec(gate, c, steps[..|steps| - 1]), steps[|steps| - 1]))
  }

  // ----- What the mark lets through -----

  lemma {:induction false} NoMark(rows: seq<Row>)
    ensures Newer(rows, None) == rows
  {
    if rows != [] {
      NoMark(rows[..|rows| - 1]);
    }
  }

  /** From an empty landing table everything is selected. From an empty staging table too, but only until it has
      been built: then the mark is the epoch, and a row of the epoch is stranded. */
  lemma EmptyTable(c: Copy, order: seq<Row>)
    requires c.dest == []
    ensures Scan(ByRows, c, order) == order
    ensures !c.built ==> Scan(ByTable, c, order) == order
    ensures c.built ==> forall r :: Stranded(ByTable, c, r) <==> r in c.source && r.ingestTs == 0
  {
    NoMark(order);
  }

  /** Once a run has left rows, either table is asked only for rows newer than all of them. */
  lemma MarkIsNewest(gate: Gate, c: Copy, r: Row)
    requires c.dest != [] && c.built
    ensures Passes(r, Mark(gate, c)) <==> forall k :: 0 <= k < |c.dest| ==> c.dest[k].ingestTs < r.ingestTs
  {
  }

  // ----- One step -----

  lemma CountPositive(rows: seq<Row>, r: Row)
    ensures Count(rows, r) > 0 <==> exists k :: 0 <= k < |rows| && rows[k] == r
  {
    assert Count(rows, r) > 0 <==> r in multiset(rows);
  }

  lemma MarkRises(gate: Gate, c: Copy, rows: seq<Row>)
    ensures var after := c.(dest := c.dest + rows, built := true);
            forall r :: Passes(r, Mark(gate, after)) ==> Passes(r, Mark(gate, c))
  {
    var all := c.dest + rows;
    if c.dest != [] {
      var k :| 0 <= k < |c.dest| && c.dest[k].ingestTs == MaxTs(c.dest);
      assert all[k].ingestTs <= MaxTs(all);
    }
  }

  /** How a run changes the count of one row: behind the mark nothing is inserted; beyond it the table held
      none, and what was inserted and what was left make up the source's count. */
  lemma InsertCounts(gate: Gate, c: Copy, order: seq<Row>, done: nat, r: Row)
    requires Enabled(gate, c, Insert(order, done)) && Within(c)
    ensures var after := Apply(gate, c, Insert(order, done));
            var left := Scan(gate, c, order)[done..];
            if Passes(r, Mark(gate, c))
            then Count(c.dest, r) == 0 && Count(after.dest, r) + Count(left, r) == Count(c.source, r)
            else Count(after.dest, r) == Count(c.dest, r) && Count(left, r) == 0
  {
    var scan := Scan(gate, c, order);
    CountNewer(order, Mark(gate, c), r);
    assert Count(order, r) == Count(c.source, r);
    assert scan == scan[..done] + scan[done..];
    CountConcat(scan[..done], scan[done..], r);
    CountConcat(c.dest, scan[..done], r);
    if Passes(r, Mark(gate, c)) && Mark(gate, c).Some? {
      CountZero(c.dest, r);
    }
  }

  /** After the run the missing rows are the ones behind the mark that were missing, and what was left. */
  lemma InsertMissing(gate: Gate, c: Copy, order: seq<Row>, done: nat, r: Row)
    requires Enabled(gate, c, Insert(order, done)) && Within(c)
    ensures var after := Apply(gate, c, Insert(order, done));
            var left := Scan(gate, c, order)[done..];
            && Count(after.dest, r) <= Count(after.source, r)
            && (Missing(after, r) <==> if Passes(r, Mark(gate, c)) then Count(left, r) > 0 else Missing(c, r))
  {
    InsertCounts(gate, c, order, done, r);
  }

  lemma WithinStep(gate: Gate, c: Copy, step: Step)
    requires Within(c)
    ensures Within(Apply(gate, c, step))
  {
    var after := Apply(gate, c, step);
    if Enabled(gate, c, step) {
      forall r
        ensures Count(after.dest, r) <= Count(after.source, r)
      {
        match step
        case Append(rows) => CountConcat(c.source, rows, r);
        case Insert(order, done) => InsertMissing(gate, c, order, done, r);
      }
    }
  }

  /** Once stranded, always stranded. */
  lemma StrandedStays(gate: Gate, c: Copy, step: Step, r: Row)
    requires Within(c) && Stranded(gate, c, r)
    ensures Stranded(gate, Apply(gate, c, step), r)
  {
    if Enabled(gate, c, step) {
      match step
      case Append(rows) => CountConcat(c.source, rows, r);
      case Insert(order, done) =>
        InsertMissing(gate, c, order, done, r);
        MarkRises(gate, c, Scan(gate, c, order)[..done]);
    }
  }

  /** A clean step strands nothing new. */
  lemma CleanStrandsNothing(gate: Gate, c: Copy, step: Step, r: Row)
    requires Within(c) && Clean(gate, c, step) && Stranded(gate, Apply(gate, c, step), r)
    ensures Stranded(gate, c, r)
  {
    if Enabled(gate, c, step) {
      match step
      case Append(rows) =>
        CountConcat(c.source, rows, r);
        CountPositive(rows, r);
      case Insert(order, done) =>
        InsertMissing(gate, c, order, done, r);
        CountPositive(Scan(gate, c, order)[done..], r);
    }
  }

  /** A step that is not clean strands a row. */
  lemma UncleanStrands(gate: Gate, c: Copy, step: Step)
    requires Within(c) && !Clean(gate, c, step)
    ensures exists r :: Stranded(gate, Apply(gate, c, step), r)
  {
    match step
    case Append(rows) =>
      var k :| 0 <= k < |rows| && !Passes(rows[k], Mark(gate, c));
      CountConcat(c.source, rows, rows[k]);
      CountPositive(rows, rows[k]);
      assert Stranded(gate, Apply(gate, c, step), rows[k]);
    case Insert(order, done) =>
      var left := Scan(gate, c, order)[done..];
      var k :| 0 <= k < |left| && !Passes(left[k], Mark(gate, Apply(gate, c, step)));
      InsertMissing(gate, c, order, done, left[k]);
      InsertCounts(gate, c, order, done, left[k]);
      CountPositive(left, left[k]);
      assert Stranded(gate, Apply(gate, c, step), left[k]);
  }

  // ----- Whole histories -----

  lemma {:induction false} WithinAlways(gate: Gate, c: Copy, steps: seq<Step>)
    requires Within(c)
    ensures Within(Exec(gate, c, steps))
  {
    if steps != [] {
      WithinAlways(gate, c, steps[..|steps| - 1]);
      WithinStep(gate, Exec(gate, c, steps[..|steps| - 1]), steps[|steps| - 1]);
    }
  }

  /** A stranded row never arrives, whatever runs follow. */
  lemma {:induction false} StrandedForever(gate: Gate, c: Copy, steps: seq<Step>, r: Row)
    requires Within(c) && Stranded(gate, c, r)
    ensures Stranded(gate, Exec(gate, c, steps), r)
  {
    if steps != [] {
      var n := |steps| - 1;
      StrandedForever(gate, c, steps[..n], r);
      WithinAlways(gate, c, steps[..n]);
      StrandedStays(gate, Exec(gate, c, steps[..n]), steps[n], r);
    }
  }

  lemma {:induction false} StrandedIffUnclean(gate: Gate, steps: seq<Step>)
    ensures Within(Exec(gate, EMPTY, steps))
    ensures (exists r :: Stranded(gate, Exec(gate, EMPTY, steps), r)) <==> !AllClean(gate, EMPTY, steps)
  {
    WithinAlways(gate, EMPTY, steps);
    if steps != [] {
      var n := |steps| - 1;
      var c := Exec(gate, EMPTY, steps[..n]);
      StrandedIffUnclean(gate, steps[..n]);
      hide Stranded, Clean, Apply;
      if r :| Stranded(gate, c, r) {
        StrandedStays(gate, c, steps[n], r);
      } else if !Clean(gate, c, steps[n]) {
        UncleanStrands(gate, c, steps[n]);
      } else if r :| Stranded(gate, Apply(gate, c, steps[n]), r) {
        CleanStrandsNothing(gate, c, steps[n], r);
      }
    }
  }

  /** A full run makes the copies equal exactly when nothing is stranded. */
  lemma FullRunExact(gate: Gate, c: Copy, order: seq<Row>)
    requires Within(c) && multiset(order) == multiset(c.source)
    ensures Same(Apply(gate, c, Full(gate, c, order))) <==> forall r :: !Stranded(gate, c, r)
  {
    var full := Full(gate, c, order);
    var after := Apply(gate, c, full);
    assert Scan(gate, c, order)[full.done..] == [];
    forall r
      ensures Missing(after, r) <==> Stranded(gate, c, r)
      ensures Count(after.dest, r) <= Count(after.source, r)
    {
      InsertMissing(gate, c, order, full.done, r);
    }
    hide Stranded, Apply;
    if r :| Stranded(gate, c, r) {
      assert Missing(after, r);
    }
  }

  /** From empty tables, over any history of appends, full runs and partial runs: a full run at the end makes
      the destination hold exactly the source's rows if and only if every step so far was clean. */
  lemma ExactIffClean(gate: Gate, steps: seq<Step>, order: seq<Row>)
    requires multiset(order) == multiset(Exec(gate, EMPTY, steps).source)
    ensures var c := Exec(gate, EMPTY, steps); var after := Apply(gate, c, Full(gate, c, order));
            && multiset(after.dest) <= multiset(after.source)
            && (multiset(after.dest) == multiset(after.source) <==> AllClean(gate, EMPTY, steps))
  {
    var c := Exec(gate, EMPTY, steps);
    var after := Apply(gate, c, Full(gate, c, order));
    StrandedIffUnclean(gate, steps);
    FullRunExact(gate, c, order);
    SameIsEqual(after);
    WithinStep(gate, c, Full(gate, c, order));
    hide Apply, Stranded, AllClean, Exec, Same;
    forall r
      ensures multiset(after.dest)[r] <= multiset(after.source)[r]
    {
      assert Count(after.dest, r) <= Count(after.source, r);
    }
  }

  // ----- The intended use -----

  /** Every appended row is newer than all earlier ones, and every run inserts all it selects. */
  predicate InTurn(gate: Gate, c: Copy, step: Step) {
    match step
    case Append(rows) => forall k :: 0 <= k < |rows| ==> rows[k].ingestTs > MaxTs(c.source)
    case Insert(order, done) => Enabled(gate, c, step) ==> done == |Scan(gate, c, order)|
  }

  predicate AllInTurn(gate: Gate, c: Copy, steps: seq<Step>) {
    steps == [] ||
    (AllInTurn(gate, c, steps[..|steps| - 1])
     && InTurn(gate, Exec(gate, c, steps[..|steps| - 1]), steps[|steps| - 1]))
  }

  lemma DestOlder(c: Copy)
    requires Within(c)
    ensures MaxTs(c.dest) <= MaxTs(c.source)
  {
    if c.dest != [] {
      var k :| 0 <= k < |c.dest| && c.dest[k].ingestTs == MaxTs(c.dest);
      CountPositive(c.dest, c.dest[k]);
      CountPositive(c.source, c.dest[k]);
    }
  }

  lemma {:induction false} InTurnIsClean(gate: Gate, steps: seq<Step>)
    requires AllInTurn(gate, EMPTY, steps)
    ensures AllClean(gate, EMPTY, steps)
  {
    if steps != [] {
      var n := |steps| - 1;
      InTurnIsClean(gate, steps[..n]);
      WithinAlways(gate, EMPTY, steps[..n]);
      DestOlder(Exec(gate, EMPTY, steps[..n]));
    }
  }
}
