// Bronze rows, their columnar form, and the decoded post they carry.
module Posts {
  import opened Basics

  /** The decoded fields of a post. */
  datatype Post = Post(did: string, rkey: string, cid: string, createdAt: int, text: string,
                       langs: seq<string>, replyParent: Option<string>, replyRoot: Option<string>)

  /** A decoded record with its place in the topic and the time it was read. */
  datatype Row = Row(post: Post, partition: nat, offset: nat, ingestTs: nat)

  /** A table by columns, in the bronze column order. */
  datatype Columns = Columns(
    did: seq<string>,
    rkey: seq<string>,
    cid: seq<string>,
    createdAt: seq<int>,
    text: seq<string>,
    langs: seq<seq<string>>,
    replyParent: seq<Option<string>>,
    replyRoot: seq<Option<string>>,
    kafkaPartition: seq<nat>,
    kafkaOffset: seq<nat>,
    ingestTs: seq<nat>)
  {
    /** All columns have n values. */
    predicate Has(n: nat) {
      && |did| == |rkey| == |cid| == |createdAt| == |text| == |langs| == n
      && |replyParent| == |replyRoot| == |kafkaPartition| == |kafkaOffset| == |ingestTs| == n
    }

    function RowAt(k: nat): Row
      requires Has(|did|) && k < |did|
    {
      Row(Post(did[k], rkey[k], cid[k], createdAt[k], text[k], langs[k], replyParent[k], replyRoot[k]),
          kafkaPartition[k], kafkaOffset[k], ingestTs[k])
    }

    function Push(r: Row): Columns {
      Columns(did + [r.post.did], rkey + [r.post.rkey], cid + [r.post.cid], createdAt + [r.post.createdAt],
              text + [r.post.text], langs + [r.post.langs], replyParent + [r.post.replyParent],
              replyRoot + [r.post.replyRoot], kafkaPartition + [r.partition], kafkaOffset + [r.offset],
              ingestTs + [r.ingestTs])
    }

    /** Rows start to end - 1 of every column. */
    function Slice(start: nat, end: nat): Columns
      requires Has(|did|) && start <= end <= |did|
    {
      Columns(did[start..end], rkey[start..end], cid[start..end], createdAt[start..end], text[start..end],
              langs[start..end], replyParent[start..end], replyRoot[start..end], kafkaPartition[start..end],
              kafkaOffset[start..end], ingestTs[start..end])
    }
  }

  const NO_COLUMNS := Columns([], [], [], [], [], [], [], [], [], [], [])

  /** The columns hold exactly these rows. */
  ghost predicate Tabulates(c: Columns, rows: seq<Row>) {
    c.Has(|rows|) && forall k :: 0 <= k < |rows| ==> c.RowAt(k) == rows[k]
  }

  /** Turns held rows into columns, one row at a time. */
  method ToArrow(rows: seq<Row>) returns (c: Columns)
    ensures Tabulates(c, rows)
  {
    c := NO_COLUMNS;
    for i := 0 to |rows|
      invariant Tabulates(c, rows[..i])
    {
      PushRow(c, rows[..i], rows[i]);
      assert rows[..i + 1] == rows[..i] + [rows[i]];
      c := c.Push(rows[i]);
    }
    assert rows[..|rows|] == rows;
  }

  lemma PushRow(c: Columns, rows: seq<Row>, r: Row)
    requires Tabulates(c, rows)
    ensures Tabulates(c.Push(r), rows + [r])
  {
    var d := c.Push(r);
    forall k | 0 <= k < |rows|
      ensures d.RowAt(k) == rows[k]
    {
      assert c.RowAt(k) == rows[k];
    }
  }

  /** Zips the columns back into row tuples. */
  method ToRows(c: Columns) returns (rows: seq<Row>)
    requires c.Has(|c.did|)
    ensures Tabulates(c, rows)
  {
    rows := [];
    for k := 0 to |c.did|
      invariant |rows| == k
      invariant forall j :: 0 <= j < k ==> rows[j] == c.RowAt(j)
    {
      rows := rows + [c.RowAt(k)];
    }
  }

  /** Each value is under its own column name. */
  lemma ColumnsByName(c: Columns, rows: seq<Row>, k: nat)
    requires Tabulates(c, rows) && k < |rows|
    ensures c.Has(|rows|)
    ensures c.did[k] == rows[k].post.did && c.rkey[k] == rows[k].post.rkey && c.cid[k] == rows[k].post.cid
    ensures c.createdAt[k] == rows[k].post.createdAt && c.text[k] == rows[k].post.text
    ensures c.langs[k] == rows[k].post.langs
    ensures c.replyParent[k] == rows[k].post.replyParent && c.replyRoot[k] == rows[k].post.replyRoot
    ensures c.kafkaPartition[k] == rows[k].partition && c.kafkaOffset[k] == rows[k].offset
    ensures c.ingestTs[k] == rows[k].ingestTs
  {
    assert c.RowAt(k) == rows[k];
  }

  /** Columns determine their rows, so zipping what was transposed gives back the same rows. */
  lemma TabulatesUnique(c: Columns, a: seq<Row>, b: seq<Row>)
    requires Tabulates(c, a) && Tabulates(c, b)
    ensures a == b
  {
    assert forall k :: 0 <= k < |a| ==> a[k] == c.RowAt(k) == b[k];
  }

  lemma SliceTabulates(c: Columns, rows: seq<Row>, start: nat, end: nat)
    requires Tabulates(c, rows) && start <= end <= |rows|
    ensures Tabulates(c.Slice(start, end), rows[start..end])
  {
    forall k | 0 <= k < end - start
      ensures c.Slice(start, end).RowAt(k) == rows[start..end][k]
    {
      assert c.RowAt(start + k) == rows[start + k];
    }
  }
}
