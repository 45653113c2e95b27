// Deduplicated staging: the newest row of each (did, rkey), as read with FINAL.
module Staging {
  import opened Basics
  import opened Posts

  datatype Key = Key(did: string, rkey: string)

  /** A staging row: the bronze row without its place in the topic. */
  datatype Entry = Entry(post: Post, ingestTs: nat)

  function KeyOf(r: Row): Key {
    Key(r.post.did, r.post.rkey)
  }

  function EntryOf(r: Row): Entry {
    Entry(r.post, r.ingestTs)
  }

  /** Replacing by version: a row replaces an earlier one of its key unless that one is newer. */
  function Final(rows: seq<Row>): map<Key, Entry> {
    if rows == [] then map[] else
      var kept, r := Final(rows[..|rows| - 1]), rows[|rows| - 1];
      if KeyOf(r) in kept && kept[KeyOf(r)].ingestTs > r.ingestTs then kept else kept[KeyOf(r) := EntryOf(r)]
  }

  predicate HasKey(rows: seq<Row>, key: Key) {
    exists k :: 0 <= k < |rows| && KeyOf(rows[k]) == key
  }

  /** Row k is the newest of its key, and the last inserted of the newest. */
  predicate Wins(rows: seq<Row>, k: nat)
    requires k < |rows|
  {
    forall j :: 0 <= j < |rows| && KeyOf(rows[j]) == KeyOf(rows[k]) ==>
      rows[j].ingestTs <= rows[k].ingestTs && (j > k ==> rows[j].ingestTs < rows[k].ingestTs)
  }

  lemma {:induction false} FinalKeys(rows: seq<Row>, key: Key)
    ensures key in Final(rows) <==> HasKey(rows, key)
  {
    if rows != [] {
      var n := |rows| - 1;
      FinalKeys(rows[..n], key);
      assert forall j :: 0 <= j < n ==> rows[..n][j] == rows[j];
    }
  }

  /** Reading with FINAL shows, for each key that occurs, its winning row. */
  lemma {:induction false} FinalShowsWinner(rows: seq<Row>, key: Key) returns (k: nat)
    requires HasKey(rows, key)
    ensures k < |rows| && KeyOf(rows[k]) == key && Wins(rows, k)
    ensures key in Final(rows) && Final(rows)[key] == EntryOf(rows[k])
  {
    FinalKeys(rows, key);
    var n := |rows| - 1;
    FinalKeys(rows[..n], key);
    assert forall j :: 0 <= j < n ==> rows[..n][j] == rows[j];
    k := n;
    if HasKey(rows[..n], key) {
      var w := FinalShowsWinner(rows[..n], key);
      if KeyOf(rows[n]) != key || rows[w].ingestTs > rows[n].ingestTs {
        k := w;
      }
    }
  }

  // ----- One entry per (did, rkey), read off the rows -----

  /** Every row is represented: by an entry of the same author and record key, no older than it. */
  lemma EveryRowShown(rows: seq<Row>, r: Row)
    requires r in rows
    ensures exists key :: key in Final(rows) && Final(rows)[key].post.did == r.post.did
                          && Final(rows)[key].post.rkey == r.post.rkey && Final(rows)[key].ingestTs >= r.ingestTs
  {
    hide Final;
    var j :| 0 <= j < |rows| && rows[j] == r;
    var k := FinalShowsWinner(rows, KeyOf(r));
    assert KeyOf(r) in Final(rows) && rows[k].ingestTs >= rows[j].ingestTs;
  }

  /** Every entry is one of the rows, and lies under its own author and record key. */
  lemma EveryEntryIsRow(rows: seq<Row>, key: Key) returns (r: Row)
    requires key in Final(rows)
    ensures r in rows && Final(rows)[key] == Entry(r.post, r.ingestTs)
    ensures key.did == r.post.did && key.rkey == r.post.rkey
  {
    hide Final, Wins;
    FinalKeys(rows, key);
    var k := FinalShowsWinner(rows, key);
    r := rows[k];
  }

  /** No two entries share both author and record key. */
  lemma EntriesDiffer(rows: seq<Row>, a: Key, b: Key)
    requires a in Final(rows) && b in Final(rows) && a != b
    ensures Final(rows)[a].post.did != Final(rows)[b].post.did || Final(rows)[a].post.rkey != Final(rows)[b].post.rkey
  {
    var r := EveryEntryIsRow(rows, a);
    var q := EveryEntryIsRow(rows, b);
  }

  function Pair(key: Key): (string, string) {
    (key.did, key.rkey)
  }

  lemma {:induction false} PairsCount(keys: set<Key>)
    ensures |set key | key in keys :: Pair(key)| == |keys|
  {
    if keys == {} {
      assert (set key | key in keys :: Pair(key)) == {};
    } else {
      var x := Pick(keys);
      PairsCount(keys - {x});
      assert (set key | key in keys :: Pair(key)) == (set key | key in keys - {x} :: Pair(key)) + {Pair(x)};
    }
  }

  /** There are as many entries as distinct pairs of author and record key among the rows. */
  lemma EntriesCount(rows: seq<Row>)
    ensures |Final(rows)| == |set r | r in rows :: (r.post.did, r.post.rkey)|
  {
    hide Final, HasKey;
    forall r | r in rows
      ensures KeyOf(r) in Final(rows)
    {
      var j :| 0 <= j < |rows| && rows[j] == r;
      RowHasKey(rows, j);
      FinalKeys(rows, KeyOf(r));
    }
    forall key | key in Final(rows)
      ensures exists r :: r in rows && KeyOf(r) == key
    {
      var r := EveryEntryIsRow(rows, key);
      assert KeyOf(r) == key;
    }
    assert (set r | r in rows :: (r.post.did, r.post.rkey)) == set key | key in Final(rows).Keys :: Pair(key) by {
      forall r | r in rows
        ensures (r.post.did, r.post.rkey) == Pair(KeyOf(r))
      {
      }
    }
    PairsCount(Final(rows).Keys);
  }

  lemma RowHasKey(rows: seq<Row>, j: nat)
    requires j < |rows|
    ensures HasKey(rows, KeyOf(rows[j]))
  {
  }

  /** Rows of one key and one timestamp carry the same post. */
  ghost predicate NoTies(rows: seq<Row>) {
    forall a, b :: a in rows && b in rows && KeyOf(a) == KeyOf(b) && a.ingestTs == b.ingestTs ==> a.post == b.post
  }

  ghost predicate SameRows(a: seq<Row>, b: seq<Row>) {
    forall r :: r in a <==> r in b
  }

  lemma WinnersAgree(a: seq<Row>, b: seq<Row>, key: Key)
    requires SameRows(a, b) && NoTies(a) && key in Final(a)
    ensures key in Final(b) && Final(a)[key] == Final(b)[key]
  {
    hide Final;
    FinalKeys(a, key);
    var j := FinalShowsWinner(a, key);
    assert a[j] in b;
    var k := FinalShowsWinner(b, key);
    assert b[k] in a;
    assert a[j].ingestTs == b[k].ingestTs;
  }

  /** Without ties the read depends only on which rows are there, not on their order or multiplicity. */
  lemma OrderIrrelevant(a: seq<Row>, b: seq<Row>)
    requires SameRows(a, b) && NoTies(a)
    ensures Final(a) == Final(b)
  {
    hide Final;
    forall key | key in Final(a)
      ensures key in Final(b) && Final(a)[key] == Final(b)[key]
    {
      WinnersAgree(a, b, key);
    }
    forall key | key in Final(b)
      ensures key in Final(a)
    {
      WinnersAgree(b, a, key);
    }
  }

  /** With a tie the insertion order decides. */
  lemma TieGoesToTheLast(a: Row, b: Row)
    requires KeyOf(a) == KeyOf(b) && a.ingestTs == b.ingestTs
    ensures Final([a, b]) == map[KeyOf(a) := EntryOf(b)]
    ensures Final([a, b]) == Final([b, a]) <==> a.post == b.post
  {
    FinalOfTwo(a, b);
    FinalOfTwo(b, a);
    assert Final([a, b])[KeyOf(a)] == EntryOf(b) && Final([b, a])[KeyOf(a)] == EntryOf(a);
  }

  lemma FinalOfTwo(a: Row, b: Row)
    requires KeyOf(a) == KeyOf(b) && a.ingestTs == b.ingestTs
    ensures Final([a, b]) == map[KeyOf(a) := EntryOf(b)]
  {
    assert [a, b][..1] == [a] && [a][..0] == [];
    assert Final([a]) == map[KeyOf(a) := EntryOf(a)];
  }

  // ----- Replays -----

  /** The posts staging shows. */
  function Shown(rows: seq<Row>): map<Key, Post> {
    map key | key in Final(rows) :: Final(rows)[key].post
  }

  /** A key's post never changes. */
  ghost predicate PostByKey(rows: seq<Row>) {
    forall a, b :: a in rows && b in rows && KeyOf(a) == KeyOf(b) ==> a.post == b.post
  }

  lemma ShownIs(rows: seq<Row>, r: Row)
    requires PostByKey(rows) && r in rows
    ensures KeyOf(r) in Shown(rows) && Shown(rows)[KeyOf(r)] == r.post
  {
    hide Final, Wins;
    var k := FinalShowsWinner(rows, KeyOf(r));
    assert rows[k] in rows;
  }

  lemma ShownHasRow(rows: seq<Row>, key: Key) returns (r: Row)
    requires HasKey(rows, key)
    ensures r in rows && KeyOf(r) == key
  {
    var k :| 0 <= k < |rows| && KeyOf(rows[k]) == key;
    r := rows[k];
  }

  /** Rows that only repeat known posts, at any timestamps and in any order, change nothing shown. */
  lemma ReplayShowsNothingNew(rows: seq<Row>, more: seq<Row>)
    requires PostByKey(more) && forall r :: r in rows ==> r in more
    requires forall r :: r in more ==> HasKey(rows, KeyOf(r))
    ensures Shown(more) == Shown(rows)
  {
    hide Final, HasKey;
    forall key
      ensures key in Shown(rows) <==> key in Shown(more)
      ensures key in Shown(rows) ==> Shown(rows)[key] == Shown(more)[key]
    {
      FinalKeys(rows, key);
      FinalKeys(more, key);
      if HasKey(more, key) {
        var r := ShownHasRow(more, key);
      }
      if HasKey(rows, key) {
        var r := ShownHasRow(rows, key);
        ShownIs(rows, r);
        ShownIs(more, r);
      }
    }
  }
}
