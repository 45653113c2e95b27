// The landing load: read the mark, scan bronze past it, insert the result in blocks.
module Landing {
  import opened Basics
  import opened Posts
  import opened HighWater

  function Flat(blocks: seq<seq<Row>>): seq<Row> {
    if blocks == [] then [] else Flat(blocks[..|blocks| - 1]) + blocks[|blocks| - 1]
  }

  lemma FlatPush(blocks: seq<seq<Row>>, block: seq<Row>)
    ensures Flat(blocks + [block]) == Flat(blocks) + block
  {
    assert (blocks + [block])[..|blocks|] == blocks;
  }

  lemma {:induction false} FlatConcat(a: seq<seq<Row>>, b: seq<seq<Row>>)
    ensures Flat(a + b) == Flat(a) + Flat(b)
  {
    if b == [] {
      assert a + b == a;
    } else {
      var n := |b| - 1;
      FlatConcat(a, b[..n]);
      FlatPush(a + b[..n], b[n]);
      assert a + b == a + b[..n] + [b[n]];
    }
  }

  /** The rows cut, in order, into blocks of n, the last one possibly shorter but never empty. */
  ghost predicate InBlocks(blocks: seq<seq<Row>>, rows: seq<Row>, n: int) {
    && Flat(blocks) == rows
    && (forall k :: 0 <= k < |blocks| ==> 0 < |blocks[k]| <= n)
    && (forall k :: 0 <= k < |blocks| - 1 ==> |blocks[k]| == n)
  }

  /** What an insert call does: stores the block, or raises without or after storing it. */
  datatype CallFate = Stored | Refused | Unconfirmed

  class ClickHouse {
    var blocks: seq<seq<Row>>

    /** The number of rows inserted, or None if the call raises; an empty block is not sent. */
    method InsertBlock(rows: seq<Row>, fate: CallFate) returns (n: Option<nat>)
      modifies this
      ensures blocks == if rows == [] || fate.Refused? then old(blocks) else old(blocks) + [rows]
      ensures n == if rows == [] || fate.Stored? then Some(|rows|) else None
    {
      if rows == [] {
        return Some(0);
      }
      if !fate.Refused? {
        blocks := blocks + [rows];
      }
      n := if fate.Stored? then Some(|rows|) else None;
    }
  }

  /** How a load went, exactly: which insert calls it made, what each did, and what is stored. A load fails if
      and only if one of the calls it made raised; that call is the last, the earlier blocks are stored, and
      its own only if it raised after storing it. */
  ghost predicate Inserted(fates: nat -> CallFate, rows: seq<Row>, n: int, blocks: seq<seq<Row>>, done: nat, calls: nat,
                           failed: bool)
  {
    && done <= |rows| && InBlocks(blocks, rows[..done], n)
    && (done < |rows| ==> forall k :: 0 <= k < |blocks| ==> |blocks[k]| == n)
    && (forall k: nat :: k < (if failed then calls - 1 else calls) ==> fates(k).Stored?)
    && if failed then
         && n > 0 && calls > 0 && !fates(calls - 1).Stored?
         && (if fates(calls - 1).Refused? then |blocks| == calls - 1 && done < |rows| else |blocks| == calls)
       else |blocks| == calls && (n > 0 ==> done == |rows|)
  }

  /** What an insert loop comes to: the rows inserted, an error for a step of zero, or a failed call. */
  datatype Loading = Rows(n: nat) | BadStep | Raised

  datatype LoadOutcome = Loaded(rows: nat, total: nat) | ZeroStep | InsertFailed

  /** Inserts a columnar table in blocks of batchRows. A step of zero is an error, a negative one inserts
      nothing; a failed insert stops the load with the blocks stored so far. */
  method InsertArrow(ch: ClickHouse, c: Columns, batchRows: int, fates: nat -> CallFate, ghost rows: seq<Row>)
      returns (r: Loading, ghost blocks: seq<seq<Row>>, ghost done: nat, ghost calls: nat)
    requires Tabulates(c, rows)
    modifies ch
    ensures ch.blocks == old(ch.blocks) + blocks
    ensures Inserted(fates, rows, batchRows, blocks, done, calls, r.Raised?)
    ensures r.BadStep? <==> batchRows == 0
    ensures r.Rows? ==> r.n == done == if batchRows > 0 then |rows| else 0
  {
    hide Tabulates, InBlocks;
    var n, start, total, made: nat := |c.did|, 0, 0, 0;
    TabulatedSize(c, rows);
    NoBlocks(rows, batchRows);
    if batchRows == 0 {
      return BadStep, [], 0, 0;
    }
    blocks := [];
    while batchRows > 0 && start < n
      invariant 0 <= start <= n && total == start && (batchRows < 0 ==> start == 0)
      invariant ch.blocks == old(ch.blocks) + blocks && InBlocks(blocks, rows[..start], batchRows)
      invariant start < n ==> forall k :: 0 <= k < |blocks| ==> |blocks[k]| == batchRows
      invariant |blocks| == made && forall k: nat :: k < made ==> fates(k).Stored?
      decreases n - start
    {
      var end := if start + batchRows < n then start + batchRows else n;
      SliceTabulates(c, rows, start, end);
      TabulatedSize(c, rows);
      TabulatedSize(c.Slice(start, end), rows[start..end]);
      var block := ToRows(c.Slice(start, end));
      TabulatesUnique(c.Slice(start, end), block, rows[start..end]);
      var stored := ch.InsertBlock(block, fates(made));
      made := made + 1;
      BlockAdded(blocks, rows, start, end, batchRows);
      if !fates(made - 1).Refused? {
        blocks := blocks + [block];
      }
      if stored.None? {
        return Raised, blocks, if fates(made - 1).Refused? then start else end, made;
      }
      total, start := total + stored.value, end;
    }
    r, done, calls := Rows(total), start, made;
  }

  lemma BlockAdded(blocks: seq<seq<Row>>, rows: seq<Row>, start: nat, end: nat, n: int)
    requires start < end <= |rows| && end - start <= n && InBlocks(blocks, rows[..start], n)
    requires forall k :: 0 <= k < |blocks| ==> |blocks[k]| == n
    ensures InBlocks(blocks + [rows[start..end]], rows[..end], n)
  {
    FlatPush(blocks, rows[start..end]);
    assert rows[..start] + rows[start..end] == rows[..end];
  }

  lemma NoBlocks(rows: seq<Row>, n: int)
    ensures InBlocks([], rows[..0], n)
  {
  }

  lemma TabulatedSize(c: Columns, rows: seq<Row>)
    requires Tabulates(c, rows)
    ensures c.Has(|c.did|) && |c.did| == |rows|
  {
  }

  /** One landing run over a bronze scan in some order. It is a run of the high-water copy; when it finishes,
      with a positive block size, landing equals bronze exactly if no bronze row was stranded before it. */
  method PostsLanding(ch: ClickHouse, bronze: seq<Row>, order: seq<Row>, batchRows: int, fates: nat -> CallFate,
                      ghost before: Copy)
      returns (r: LoadOutcome, ghost blocks: seq<seq<Row>>, ghost done: nat, ghost calls: nat)
    requires multiset(order) == multiset(bronze)
    requires before.source == bronze && before.dest == Flat(ch.blocks)
    modifies ch
    ensures ch.blocks == old(ch.blocks) + blocks
    ensures Inserted(fates, Scan(ByRows, before, order), batchRows, blocks, done, calls, r.InsertFailed?)
    ensures Enabled(ByRows, before, Insert(order, done))
    ensures Flat(ch.blocks) == Apply(ByRows, before, Insert(order, done)).dest
    ensures r.ZeroStep? <==> batchRows == 0 && Scan(ByRows, before, order) != []
    ensures r.Loaded? ==> r.rows == done && r.total == |Flat(ch.blocks)|
    ensures r.Loaded? ==> done == if batchRows > 0 then |Scan(ByRows, before, order)| else 0
    ensures r.Loaded? && batchRows > 0 && Within(before) ==>
              (multiset(Flat(ch.blocks)) == multiset(bronze) <==> forall row :: !Stranded(ByRows, before, row))
  {
    var landed := |Flat(ch.blocks)|;
    var watermark := None;
    if landed != 0 {
      watermark := Some(MaxTs(Flat(ch.blocks)));
    }
    var scan := Newer(order, watermark);
    assert scan == Scan(ByRows, before, order);
    blocks, done, calls := [], 0, 0;
    var loaded := 0;
    assert scan[..0] == [];
    if scan != [] {
      var arrow := ToArrow(scan);
      var inserted;
      inserted, blocks, done, calls := InsertArrow(ch, arrow, batchRows, fates, scan);
      FlatConcat(old(ch.blocks), blocks);
      if !inserted.Rows? {
        return if inserted.Raised? then InsertFailed else ZeroStep, blocks, done, calls;
      }
      loaded := inserted.n;
    }
    r := Loaded(loaded, |Flat(ch.blocks)|);
    if batchRows > 0 && Within(before) {
      assert Insert(order, done) == Full(ByRows, before, order);
      FullRunExact(ByRows, before, order);
      SameIsEqual(Apply(ByRows, before, Insert(order, done)));
    }
  }
}
