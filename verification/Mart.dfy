// The posts-per-day-and-language mart: an incremental aggregate over a trailing window, read with
// last-insert-wins, against the full aggregate it is meant to equal.
module Mart {
  import opened Basics
  import opened Posts
  import opened Staging

  /** Days since the epoch, in 16 bits. */
  type Date = d: int | 0 <= d < 0x1_0000

  /** What the mart reads of a deduplicated post: its day and its languages. The author is in the key. */
  datatype Listed = Listed(day: Date, langs: seq<string>)

  type Listing = map<Key, Listed>

  datatype Group = Group(day: Date, lang: string)

  datatype Tally = Tally(posts: nat, authors: nat)

  /** One row per language of each post, so a repeated language counts twice. */
  datatype Hit = Hit(key: Key, index: nat)

  function Langs(p: Listed): (langs: seq<string>)
    ensures langs != []
  {
    if p.langs == [] then ["und"] else p.langs
  }

  ghost predicate Hits(posts: Listing, h: Hit, g: Group) {
    && h.key in posts && h.index < |Langs(posts[h.key])|
    && posts[h.key].day == g.day && Langs(posts[h.key])[h.index] == g.lang
  }

  ghost function HitsOf(posts: Listing, g: Group): set<Hit> {
    set k, i | k in posts && 0 <= i < |Langs(posts[k])| && Hits(posts, Hit(k, i), g) :: Hit(k, i)
  }

  ghost function Groups(posts: Listing): set<Group> {
    set k, i | k in posts && 0 <= i < |Langs(posts[k])| :: Group(posts[k].day, Langs(posts[k])[i])
  }

  ghost function TallyOf(posts: Listing, g: Group): Tally {
    Tally(|HitsOf(posts, g)|, |set h | h in HitsOf(posts, g) :: h.key.did|)
  }

  /** The group-by over every post. */
  ghost function FullAgg(posts: Listing): map<Group, Tally> {
    map g | g in Groups(posts) :: TallyOf(posts, g)
  }

  function Since(posts: Listing, from: Date): Listing {
    map k | k in posts && posts[k].day >= from :: posts[k]
  }

  ghost function MaxDay(m: map<Group, Tally>): Date {
    if m == map[] then 0 else
      var days := set g | g in m :: g.day as int;
      assert Pick(m.Keys).day as int in days;
      MaxOf(days)
  }

  /** Date arithmetic in 16 bits: two days before the first days of 1970 lie in 2149. */
  function TwoDaysBefore(d: Date): Date {
    if d >= 2 then d - 2 else d + 0xFFFE
  }

  ghost function WindowStart(m: map<Group, Tally>): Date {
    TwoDaysBefore(MaxDay(m))
  }

  /** One incremental build: the groups of the window are inserted again, and the last insert wins. */
  ghost function Build(m: map<Group, Tally>, posts: Listing): map<Group, Tally> {
    m + FullAgg(Since(posts, WindowStart(m)))
  }

  // ----- The aggregate -----

  lemma GroupHasHit(posts: Listing, g: Group)
    ensures g in Groups(posts) <==> HitsOf(posts, g) != {}
  {
    if g in Groups(posts) {
      var k, i :| k in posts && 0 <= i < |Langs(posts[k])| && g == Group(posts[k].day, Langs(posts[k])[i]);
      assert Hits(posts, Hit(k, i), g);
      assert Hit(k, i) in HitsOf(posts, g);
    }
    if HitsOf(posts, g) != {} {
      var h := Pick(HitsOf(posts, g));
      assert Hits(posts, h, g);
    }
  }

  lemma SinceHits(posts: Listing, from: Date, g: Group)
    ensures HitsOf(Since(posts, from), g) == if g.day >= from then HitsOf(posts, g) else {}
  {
    hide Langs;
    assert forall h :: Hits(Since(posts, from), h, g) <==> g.day >= from && Hits(posts, h, g);
  }

  /** What a build makes of one group. */
  lemma BuildAt(m: map<Group, Tally>, posts: Listing, g: Group)
    ensures var from := WindowStart(m);
            if g.day >= from && HitsOf(posts, g) != {}
            then g in Build(m, posts) && Build(m, posts)[g] == TallyOf(posts, g)
            else (g in Build(m, posts) <==> g in m) && (g in m ==> Build(m, posts)[g] == m[g])
  {
    var from := WindowStart(m);
    hide HitsOf, Groups, WindowStart;
    SinceHits(posts, from, g);
    GroupHasHit(Since(posts, from), g);
  }

  lemma FullAggAt(posts: Listing, g: Group)
    ensures g in FullAgg(posts) <==> HitsOf(posts, g) != {}
    ensures g in FullAgg(posts) ==> FullAgg(posts)[g] == TallyOf(posts, g)
  {
    hide HitsOf, Groups;
    GroupHasHit(posts, g);
  }

  // ----- What a tally counts -----

  /** The post is listed under the language: one of its own, or "und" if it has none. */
  predicate Speaks(p: Listed, lang: string) {
    if p.langs == [] then lang == "und" else lang in p.langs
  }

  /** How often: once for each time the post names it. */
  function Mentions(p: Listed, lang: string): nat {
    if p.langs == [] then (if lang == "und" then 1 else 0) else multiset(p.langs)[lang]
  }

  lemma HitAuthor(posts: Listing, g: Group, d: string)
    ensures (exists h :: h in HitsOf(posts, g) && h.key.did == d) <==>
            exists k :: k in posts && k.did == d && posts[k].day == g.day && Speaks(posts[k], g.lang)
  {
    if h :| h in HitsOf(posts, g) && h.key.did == d {
      assert Hits(posts, h, g);
    }
    if k :| k in posts && k.did == d && posts[k].day == g.day && Speaks(posts[k], g.lang) {
      var i: nat :| i < |Langs(posts[k])| && Langs(posts[k])[i] == g.lang;
      assert Hits(posts, Hit(k, i), g);
      assert Hit(k, i) in HitsOf(posts, g);
    }
  }

  /** The author count is the number of distinct authors with a post of that day in that language. */
  lemma AuthorsAreDistinct(posts: Listing, g: Group, dids: set<string>)
    requires forall d :: d in dids <==>
               exists k :: k in posts && k.did == d && posts[k].day == g.day && Speaks(posts[k], g.lang)
    ensures TallyOf(posts, g).authors == |dids|
  {
    var hits := HitsOf(posts, g);
    hide HitsOf, Speaks;
    forall d
      ensures (exists h :: h in hits && h.key.did == d) <==> d in dids
    {
      HitAuthor(posts, g, d);
    }
    assert (set h | h in hits :: h.key.did) == dids;
  }

  /** The places of a language in a list of languages. */
  function Places(langs: seq<string>, lang: string): set<nat> {
    if langs == [] then {} else
      var n := |langs| - 1;
      if langs[n] == lang then Places(langs[..n], lang) + {n} else Places(langs[..n], lang)
  }

  lemma {:induction false} PlacesCount(langs: seq<string>, lang: string)
    ensures forall i :: i in Places(langs, lang) <==> 0 <= i < |langs| && langs[i] == lang
    ensures |Places(langs, lang)| == multiset(langs)[lang]
  {
    if langs != [] {
      var n := |langs| - 1;
      PlacesCount(langs[..n], lang);
      assert langs == langs[..n] + [langs[n]];
    }
  }

  lemma MentionsAre(p: Listed, lang: string)
    ensures Mentions(p, lang) == |Places(Langs(p), lang)|
  {
    PlacesCount(Langs(p), lang);
  }

  function HitsAt(key: Key, places: set<nat>): set<Hit> {
    set i | i in places :: Hit(key, i)
  }

  lemma {:induction false} HitsAtSize(key: Key, places: set<nat>)
    ensures |HitsAt(key, places)| == |places|
  {
    if places == {} {
      assert HitsAt(key, places) == {};
    } else {
      var i := Pick(places);
      HitsAtSize(key, places - {i});
      assert HitsAt(key, places) == HitsAt(key, places - {i}) + {Hit(key, i)};
    }
  }

  /** The mentions of a group's language over the posts of its day. */
  ghost function TotalMentions(posts: Listing, g: Group): nat
    decreases |posts|
  {
    if posts == map[] then 0 else
      var k := Pick(posts.Keys);
      assert |(posts - {k}).Keys| < |posts.Keys| by {
        Fewer(posts, k);
      }
      TotalMentions(posts - {k}, g) + (if posts[k].day == g.day then Mentions(posts[k], g.lang) else 0)
  }

  lemma Fewer(posts: Listing, k: Key)
    requires k in posts
    ensures |posts - {k}| < |posts|
  {
    assert posts.Keys == (posts - {k}).Keys + {k};
    assert |posts.Keys| == |(posts - {k}).Keys| + 1;
  }

  lemma HitsSplit(posts: Listing, k: Key, g: Group)
    requires k in posts
    ensures var own := if posts[k].day == g.day then Places(Langs(posts[k]), g.lang) else {};
            && HitsOf(posts, g) == HitsOf(posts - {k}, g) + HitsAt(k, own)
            && HitsOf(posts - {k}, g) !! HitsAt(k, own)
  {
    PlacesCount(Langs(posts[k]), g.lang);
    var own := if posts[k].day == g.day then Places(Langs(posts[k]), g.lang) else {};
    hide Places, Langs;
    forall h
      ensures Hits(posts, h, g) <==> Hits(posts - {k}, h, g) || h in HitsAt(k, own)
    {
    }
    forall h
      ensures h in HitsOf(posts, g) <==> Hits(posts, h, g)
      ensures h in HitsOf(posts - {k}, g) <==> Hits(posts - {k}, h, g)
    {
    }
  }

  /** The post count is the number of times the posts of that day mention the language. */
  lemma {:induction false} PostsAreMentions(posts: Listing, g: Group)
    ensures TallyOf(posts, g).posts == TotalMentions(posts, g)
    decreases |posts|
  {
    hide Mentions, Langs;
    if posts == map[] {
      assert HitsOf(posts, g) == {};
    } else {
      var k := Pick(posts.Keys);
      Fewer(posts, k);
      PostsAreMentions(posts - {k}, g);
      HitsSplit(posts, k, g);
      hide HitsOf;
      var own := if posts[k].day == g.day then Places(Langs(posts[k]), g.lang) else {};
      HitsAtSize(k, own);
      MentionsAre(posts[k], g.lang);
    }
  }

  /** A group is shown exactly when some post of its day speaks its language. */
  lemma GroupsAreSpoken(posts: Listing, g: Group)
    ensures g in FullAgg(posts) <==> exists k :: k in posts && posts[k].day == g.day && Speaks(posts[k], g.lang)
  {
    FullAggAt(posts, g);
    hide FullAgg;
    if HitsOf(posts, g) != {} {
      HitAuthor(posts, g, Pick(HitsOf(posts, g)).key.did);
    }
    if k :| k in posts && posts[k].day == g.day && Speaks(posts[k], g.lang) {
      HitAuthor(posts, g, k.did);
    }
  }

  // ----- Any change of inputs -----

  /** Whether a build over these posts leaves the group right: in the window it is recomputed, but never
      removed; below the window it has to be right already. */
  ghost predicate RightAfter(m: map<Group, Tally>, posts: Listing, g: Group) {
    if g.day >= WindowStart(m) then HitsOf(posts, g) == {} ==> g !in m
    else (g in m <==> HitsOf(posts, g) != {}) && (g in m ==> m[g] == TallyOf(posts, g))
  }

  lemma RightAt(m: map<Group, Tally>, posts: Listing, g: Group)
    ensures RightAfter(m, posts, g) <==>
              && (g in Build(m, posts) <==> g in FullAgg(posts))
              && (g in FullAgg(posts) ==> Build(m, posts)[g] == FullAgg(posts)[g])
  {
    hide HitsOf, Build, FullAgg, WindowStart, TallyOf;
    BuildAt(m, posts, g);
    FullAggAt(posts, g);
  }

  lemma SameMaps(a: map<Group, Tally>, b: map<Group, Tally>)
    ensures a == b <==> forall g :: (g in a <==> g in b) && (g in b ==> a[g] == b[g])
  {
  }

  /** From any mart whatever, one build over any posts gives the full aggregate exactly when every group is
      right after it. */
  lemma BuildRightIff(m: map<Group, Tally>, posts: Listing)
    ensures Build(m, posts) == FullAgg(posts) <==> forall g :: RightAfter(m, posts, g)
  {
    hide Build, FullAgg, RightAfter;
    forall g
      ensures RightAfter(m, posts, g) <==>
                && (g in Build(m, posts) <==> g in FullAgg(posts))
                && (g in FullAgg(posts) ==> Build(m, posts)[g] == FullAgg(posts)[g])
    {
      RightAt(m, posts, g);
    }
    SameMaps(Build(m, posts), FullAgg(posts));
  }

  /** No group of the window has emptied, and every older group has kept its tally. */
  ghost predicate OnlyWindowMoves(m: map<Group, Tally>, prior: Listing, posts: Listing, g: Group) {
    if g.day >= WindowStart(m) then HitsOf(prior, g) != {} ==> HitsOf(posts, g) != {}
    else (HitsOf(prior, g) == {} <==> HitsOf(posts, g) == {}) && TallyOf(prior, g) == TallyOf(posts, g)
  }

  lemma EmptyTally(posts: Listing, g: Group)
    ensures HitsOf(posts, g) == {} ==> TallyOf(posts, g) == Tally(0, 0)
  {
    hide HitsOf;
    assert HitsOf(posts, g) == {} ==> (set h | h in HitsOf(posts, g) :: h.key.did) == {};
  }

  /** Posts may be added, changed, moved or deleted: from the full aggregate of the old posts a build gives
      that of the new ones if and only if no group of the window has emptied and every older group has kept
      its tally. */
  lemma RebuildExact(m: map<Group, Tally>, prior: Listing, posts: Listing)
    requires m == FullAgg(prior)
    ensures Build(m, posts) == FullAgg(posts) <==> forall g :: OnlyWindowMoves(m, prior, posts, g)
  {
    BuildRightIff(m, posts);
    hide HitsOf, Build, FullAgg, WindowStart, TallyOf;
    forall g
      ensures RightAfter(m, posts, g) <==> OnlyWindowMoves(m, prior, posts, g)
    {
      FullAggAt(prior, g);
      EmptyTally(prior, g);
      EmptyTally(posts, g);
    }
  }

  // ----- Growing inputs -----

  /** Posts are added and never change. */
  ghost predicate Extends(posts: Listing, prior: Listing) {
    forall k :: k in prior ==> k in posts && posts[k] == prior[k]
  }

  lemma HitsKept(prior: Listing, posts: Listing, g: Group)
    requires Extends(posts, prior)
    ensures HitsOf(prior, g) <= HitsOf(posts, g)
  {
    hide Langs;
    assert forall h :: Hits(prior, h, g) ==> Hits(posts, h, g);
  }

  lemma Smaller(a: set<Hit>, b: set<Hit>)
    requires a <= b
    ensures |a| <= |b| && (a != b ==> |a| < |b|)
  {
    assert b == a + (b - a) && |b| == |a| + |b - a|;
  }

  lemma ExtendsHits(prior: Listing, posts: Listing, g: Group)
    requires Extends(posts, prior)
    ensures HitsOf(prior, g) <= HitsOf(posts, g)
    ensures |HitsOf(prior, g)| <= |HitsOf(posts, g)|
    ensures HitsOf(prior, g) != HitsOf(posts, g) ==> |HitsOf(prior, g)| < |HitsOf(posts, g)|
  {
    HitsKept(prior, posts, g);
    hide HitsOf;
    Smaller(HitsOf(prior, g), HitsOf(posts, g));
  }

  /** A post added below the window the next build uses. */
  ghost predicate Late(m: map<Group, Tally>, prior: Listing, posts: Listing) {
    exists k :: k in posts && k !in prior && posts[k].day < WindowStart(m)
  }

  lemma NoneLateSameHits(m: map<Group, Tally>, prior: Listing, posts: Listing, g: Group)
    requires Extends(posts, prior) && !Late(m, prior, posts) && g.day < WindowStart(m)
    ensures HitsOf(posts, g) == HitsOf(prior, g)
  {
    hide Langs, WindowStart;
    forall h | Hits(posts, h, g)
      ensures Hits(prior, h, g)
    {
      assert h.key in prior;
    }
    assert forall h :: h in HitsOf(posts, g) ==> Hits(posts, h, g);
  }

  /** The group counts fewer posts than there are. */
  ghost predicate Short(m: map<Group, Tally>, posts: Listing, g: Group) {
    HitsOf(posts, g) != {} && (g in m ==> m[g].posts < |HitsOf(posts, g)|)
  }

  lemma LateIsShort(m: map<Group, Tally>, prior: Listing, posts: Listing) returns (g: Group)
    requires Extends(posts, prior) && Late(m, prior, posts) && m == FullAgg(prior)
    ensures g.day < WindowStart(m) && Short(Build(m, posts), posts, g)
  {
    var k :| k in posts && k !in prior && posts[k].day < WindowStart(m);
    g := Group(posts[k].day, Langs(posts[k])[0]);
    assert Hits(posts, Hit(k, 0), g);
    assert Hit(k, 0) in HitsOf(posts, g) && Hit(k, 0) !in HitsOf(prior, g);
    hide HitsOf, Build, WindowStart, Hits, Langs, FullAgg;
    ExtendsHits(prior, posts, g);
    FullAggAt(prior, g);
    BuildAt(m, posts, g);
  }

  lemma ShortIsWrong(m: map<Group, Tally>, posts: Listing, g: Group)
    requires Short(m, posts, g)
    ensures m != FullAgg(posts)
  {
    hide HitsOf, FullAgg;
    FullAggAt(posts, g);
  }

  lemma NoneLateIsFull(m: map<Group, Tally>, prior: Listing, posts: Listing)
    requires Extends(posts, prior) && !Late(m, prior, posts) && m == FullAgg(prior)
    ensures Build(m, posts) == FullAgg(posts)
  {
    forall g
      ensures g in Build(m, posts) <==> g in FullAgg(posts)
      ensures g in FullAgg(posts) ==> Build(m, posts)[g] == FullAgg(posts)[g]
    {
      AgreesAt(m, prior, posts, g);
    }
  }

  lemma AgreesAt(m: map<Group, Tally>, prior: Listing, posts: Listing, g: Group)
    requires Extends(posts, prior) && !Late(m, prior, posts) && m == FullAgg(prior)
    ensures g in Build(m, posts) <==> g in FullAgg(posts)
    ensures g in FullAgg(posts) ==> Build(m, posts)[g] == FullAgg(posts)[g]
  {
    hide HitsOf, FullAgg, Build, WindowStart;
    FullAggAt(prior, g);
    FullAggAt(posts, g);
    BuildAt(m, posts, g);
    ExtendsHits(prior, posts, g);
    if g.day < WindowStart(m) {
      NoneLateSameHits(m, prior, posts, g);
    }
  }

  /** One build over grown posts turns the old full aggregate into the new one if and only if no added post
      is older than the window. */
  lemma BuildExact(m: map<Group, Tally>, prior: Listing, posts: Listing)
    requires Extends(posts, prior) && m == FullAgg(prior)
    ensures Build(m, posts) == FullAgg(posts) <==> !Late(m, prior, posts)
  {
    if Late(m, prior, posts) {
      var g := LateIsShort(m, prior, posts);
      ShortIsWrong(Build(m, posts), posts, g);
    } else {
      NoneLateIsFull(m, prior, posts);
    }
  }

  // ----- Any number of builds -----

  /** The mart after one build per snapshot of the posts; the first one is full. */
  ghost function Built(snaps: seq<Listing>): map<Group, Tally>
    requires snaps != []
  {
    if |snaps| == 1 then FullAgg(snaps[0]) else Build(Built(snaps[..|snaps| - 1]), snaps[|snaps| - 1])
  }

  ghost predicate Growing(snaps: seq<Listing>) {
    forall i :: 0 < i < |snaps| ==> Extends(snaps[i], snaps[i - 1])
  }

  /** Some build missed a post because it arrived below the window. */
  ghost predicate EverLate(snaps: seq<Listing>)
    requires snaps != []
  {
    |snaps| > 1 &&
    (EverLate(snaps[..|snaps| - 1])
     || Late(Built(snaps[..|snaps| - 1]), snaps[|snaps| - 2], snaps[|snaps| - 1]))
  }

  lemma MaxDayIs(m: map<Group, Tally>, g: Group)
    requires g in m
    ensures g.day <= MaxDay(m)
    ensures exists h :: h in m && h.day == MaxDay(m)
  {
    var days := set g | g in m :: g.day as int;
    assert g.day as int in days;
  }

  lemma MaxDayRises(m: map<Group, Tally>, posts: Listing)
    ensures MaxDay(m) <= MaxDay(Build(m, posts))
    ensures MaxDay(m) >= 2 ==> WindowStart(m) <= WindowStart(Build(m, posts))
  {
    hide FullAgg, MaxDay;
    if m != map[] {
      MaxDayIs(m, Pick(m.Keys));
      var h :| h in m && h.day == MaxDay(m);
      MaxDayIs(Build(m, posts), h);
    } else {
      assert MaxDay(m) == 0 by {
        EmptyMaxDay();
      }
    }
  }

  lemma EmptyMaxDay()
    ensures MaxDay(map[]) == 0
  {
  }

  lemma ShortStays(m: map<Group, Tally>, prior: Listing, posts: Listing, g: Group)
    requires Extends(posts, prior) && Short(m, prior, g) && g.day < WindowStart(m) && MaxDay(m) >= 2
    ensures Short(Build(m, posts), posts, g) && g.day < WindowStart(Build(m, posts))
  {
    hide HitsOf, Build, WindowStart, MaxDay;
    MaxDayRises(m, posts);
    BuildAt(m, posts, g);
    ExtendsHits(prior, posts, g);
  }

  lemma {:induction false} BuiltExact(snaps: seq<Listing>)
    requires snaps != [] && Growing(snaps) && MaxDay(FullAgg(snaps[0])) >= 2
    ensures MaxDay(Built(snaps)) >= 2
    ensures !EverLate(snaps) ==> Built(snaps) == FullAgg(snaps[|snaps| - 1])
    ensures EverLate(snaps) ==>
              exists g: Group :: g.day < WindowStart(Built(snaps)) && Short(Built(snaps), snaps[|snaps| - 1], g)
  {
    hide FullAgg, Build, MaxDay, WindowStart, Short, Late, Extends;
    if |snaps| > 1 {
      var n := |snaps| - 1;
      var m, prior, posts := Built(snaps[..n]), snaps[n - 1], snaps[n];
      BuiltExact(snaps[..n]);
      assert Extends(posts, prior);
      MaxDayRises(m, posts);
      if EverLate(snaps[..n]) {
        var g: Group :| g.day < WindowStart(m) && Short(m, prior, g);
        ShortStays(m, prior, posts, g);
      } else if Late(m, prior, posts) {
        var g := LateIsShort(m, prior, posts);
      } else {
        NoneLateIsFull(m, prior, posts);
      }
    }
  }

  /** The dates on which 16-bit arithmetic does not get in the way: the first build reaches the third day of
      1970, or no post is dated in the calendar's last two days. */
  ghost predicate Ordinary(snaps: seq<Listing>)
    requires snaps != []
  {
    MaxDay(FullAgg(snaps[0])) >= 2 || forall i, k :: 0 <= i < |snaps| && k in snaps[i] ==> snaps[i][k].day < 0xFFFE
  }

  lemma NothingSince(posts: Listing, from: Date)
    requires from >= 0xFFFE && forall k :: k in posts ==> posts[k].day < 0xFFFE
    ensures FullAgg(Since(posts, from)) == map[]
  {
    assert Since(posts, from) == map[];
    EmptyAgg();
  }

  lemma EmptyAgg()
    ensures FullAgg(map[]) == map[]
  {
  }

  lemma ShortGrows(m: map<Group, Tally>, prior: Listing, posts: Listing, g: Group)
    requires Extends(posts, prior) && Short(m, prior, g)
    ensures Short(m, posts, g)
  {
    hide HitsOf;
    ExtendsHits(prior, posts, g);
  }

  lemma NoneLateEqual(m: map<Group, Tally>, prior: Listing, posts: Listing)
    requires Extends(posts, prior) && !Late(m, prior, posts)
    requires forall k :: k in posts ==> posts[k].day < WindowStart(m)
    ensures posts == prior
  {
    assert forall k :: k in posts ==> k in prior;
  }

  ghost predicate SomeShort(m: map<Group, Tally>, posts: Listing) {
    exists g :: Short(m, posts, g)
  }

  /** A first build in the first two days of 1970, or over nothing: later builds insert nothing. */
  lemma {:induction false} BuiltEarly(snaps: seq<Listing>)
    requires snaps != [] && Growing(snaps) && MaxDay(FullAgg(snaps[0])) < 2
    requires forall i, k :: 0 <= i < |snaps| && k in snaps[i] ==> snaps[i][k].day < 0xFFFE
    ensures Built(snaps) == FullAgg(snaps[0])
    ensures !EverLate(snaps) ==> snaps[|snaps| - 1] == snaps[0]
    ensures EverLate(snaps) ==> SomeShort(Built(snaps), snaps[|snaps| - 1])
  {
    hide FullAgg, MaxDay, Short, Late, Extends, Since;
    if |snaps| > 1 {
      var n := |snaps| - 1;
      var m, prior, posts := Built(snaps[..n]), snaps[n - 1], snaps[n];
      BuiltEarly(snaps[..n]);
      assert Extends(posts, prior);
      NothingSince(posts, WindowStart(m));
      assert Build(m, posts) == m;
      if EverLate(snaps[..n]) {
        var g: Group :| Short(m, prior, g);
        ShortGrows(m, prior, posts, g);
      } else if Late(m, prior, posts) {
        var g := LateIsShort(m, prior, posts);
      } else {
        NoneLateEqual(m, prior, posts);
      }
    }
  }

  /** Over any number of builds of growing posts the mart equals the full aggregate of the last snapshot if
      and only if no build ever missed a late post. */
  lemma MartIffNeverLate(snaps: seq<Listing>)
    requires snaps != [] && Growing(snaps) && Ordinary(snaps)
    ensures Built(snaps) == FullAgg(snaps[|snaps| - 1]) <==> !EverLate(snaps)
  {
    hide FullAgg, Built, MaxDay, WindowStart, Short, EverLate, Growing;
    if MaxDay(FullAgg(snaps[0])) >= 2 {
      BuiltExact(snaps);
      if EverLate(snaps) {
        var g: Group :| g.day < WindowStart(Built(snaps)) && Short(Built(snaps), snaps[|snaps| - 1], g);
        ShortIsWrong(Built(snaps), snaps[|snaps| - 1], g);
      }
    } else {
      BuiltEarly(snaps);
      if EverLate(snaps) {
        var g: Group :| Short(Built(snaps), snaps[|snaps| - 1], g);
        ShortIsWrong(Built(snaps), snaps[|snaps| - 1], g);
      }
    }
  }

  /** Some added post is more than two days older than a post that was there before. */
  ghost predicate AddsOldPost(prior: Listing, posts: Listing) {
    exists k, j :: k in posts && k !in prior && j in prior && posts[k].day + 2 < prior[j].day
  }

  lemma PostHasGroup(posts: Listing, k: Key) returns (g: Group)
    requires k in posts
    ensures g.day == posts[k].day && g in FullAgg(posts)
  {
    g := Group(posts[k].day, Langs(posts[k])[0]);
    assert Hits(posts, Hit(k, 0), g);
    assert Hit(k, 0) in HitsOf(posts, g);
    hide HitsOf, FullAgg, Langs;
    FullAggAt(posts, g);
  }

  lemma GroupHasPost(posts: Listing, g: Group) returns (k: Key)
    requires g in FullAgg(posts)
    ensures k in posts && posts[k].day == g.day
  {
    var h: Key, i :| h in posts && 0 <= i < |Langs(posts[h])| && g == Group(posts[h].day, Langs(posts[h])[i]);
    k := h;
  }

  /** The newest day of the aggregate is that of the posts. */
  lemma MaxDayOfPosts(posts: Listing)
    ensures forall k :: k in posts ==> posts[k].day <= MaxDay(FullAgg(posts))
    ensures MaxDay(FullAgg(posts)) > 0 ==> exists k :: k in posts && posts[k].day == MaxDay(FullAgg(posts))
  {
    hide FullAgg, MaxDay;
    forall k | k in posts
      ensures posts[k].day <= MaxDay(FullAgg(posts))
    {
      var g := PostHasGroup(posts, k);
      MaxDayIs(FullAgg(posts), g);
    }
    if FullAgg(posts) != map[] {
      MaxDayIs(FullAgg(posts), Pick(FullAgg(posts).Keys));
      var h: Group :| h in FullAgg(posts) && h.day == MaxDay(FullAgg(posts));
      var k := GroupHasPost(posts, h);
    } else {
      EmptyMaxDay();
    }
  }

  /** A group of the mart after a build is an old one or one of the posts'. */
  lemma BuildGroups(m: map<Group, Tally>, posts: Listing, g: Group)
    requires g in Build(m, posts)
    ensures g in m || g in FullAgg(posts)
  {
    hide HitsOf, FullAgg, Build, WindowStart;
    BuildAt(m, posts, g);
    FullAggAt(posts, g);
  }

  lemma BuildNewest(m: map<Group, Tally>, prior: Listing, posts: Listing)
    requires Extends(posts, prior) && MaxDay(m) == MaxDay(FullAgg(prior)) && MaxDay(m) >= 2
    ensures MaxDay(Build(m, posts)) == MaxDay(FullAgg(posts))
  {
    hide HitsOf, FullAgg, Build, MaxDay, Langs;
    var after, newest := MaxDay(Build(m, posts)), MaxDay(FullAgg(posts));
    MaxDayOfPosts(prior);
    MaxDayOfPosts(posts);
    MaxDayRises(m, posts);
    var j :| j in prior && prior[j].day == MaxDay(m);
    assert MaxDay(m) <= newest;
    if newest > MaxDay(m) {
      var k :| k in posts && posts[k].day == newest;
      var g := PostHasGroup(posts, k);
      FullAggAt(posts, g);
      BuildAt(m, posts, g);
      MaxDayIs(Build(m, posts), g);
    }
    if after > MaxDay(m) {
      assert Build(m, posts) != map[] by {
        EmptyMaxDay();
      }
      MaxDayIs(Build(m, posts), Pick(Build(m, posts).Keys));
      var h: Group :| h in Build(m, posts) && h.day == after;
      BuildGroups(m, posts, h);
      if h in m {
        MaxDayIs(m, h);
      } else {
        MaxDayIs(FullAgg(posts), h);
      }
    }
  }

  /** Missing late posts never hides the newest day: the mart's is that of the posts it was built from. */
  lemma {:induction false} BuiltNewest(snaps: seq<Listing>)
    requires snaps != [] && Growing(snaps) && MaxDay(FullAgg(snaps[0])) >= 2
    ensures MaxDay(Built(snaps)) == MaxDay(FullAgg(snaps[|snaps| - 1])) >= 2
  {
    hide FullAgg, MaxDay, Build, Extends;
    if |snaps| > 1 {
      var n := |snaps| - 1;
      BuiltNewest(snaps[..n]);
      assert Extends(snaps[n], snaps[n - 1]);
      BuildNewest(Built(snaps[..n]), snaps[n - 1], snaps[n]);
      MaxDayRises(Built(snaps[..n]), snaps[n]);
    }
  }

  lemma LateIsOld(m: map<Group, Tally>, prior: Listing, posts: Listing)
    requires MaxDay(m) == MaxDay(FullAgg(prior)) >= 2
    ensures Late(m, prior, posts) <==> AddsOldPost(prior, posts)
  {
    hide FullAgg, MaxDay;
    MaxDayOfPosts(prior);
  }

  /** Some snapshot adds a post more than two days older than the newest one before it. */
  ghost predicate EverAddsOldPost(snaps: seq<Listing>) {
    exists i :: 0 < i < |snaps| && AddsOldPost(snaps[i - 1], snaps[i])
  }

  lemma {:induction false} EverLateIsOld(snaps: seq<Listing>)
    requires snaps != [] && Growing(snaps) && MaxDay(FullAgg(snaps[0])) >= 2
    ensures EverLate(snaps) <==> EverAddsOldPost(snaps)
  {
    hide FullAgg, MaxDay, Built, AddsOldPost, Late, Extends;
    if |snaps| > 1 {
      var n := |snaps| - 1;
      EverLateIsOld(snaps[..n]);
      BuiltNewest(snaps[..n]);
      LateIsOld(Built(snaps[..n]), snaps[n - 1], snaps[n]);
      assert forall i :: 0 <= i < n ==> snaps[..n][i] == snaps[i];
      if i :| 0 < i < n && AddsOldPost(snaps[i - 1], snaps[i]) {
        assert AddsOldPost(snaps[..n][i - 1], snaps[..n][i]);
      }
    }
  }

  /** Said of the posts alone: over any number of builds of growing posts, some post of the first being dated from
      the third day of 1970 on, the mart is right if and only if no post ever arrived more than two days older
      than the newest post before it. */
  lemma MartIffNoOldPost(snaps: seq<Listing>)
    requires snaps != [] && Growing(snaps) && exists k :: k in snaps[0] && snaps[0][k].day >= 2
    ensures Built(snaps) == FullAgg(snaps[|snaps| - 1]) <==> !EverAddsOldPost(snaps)
  {
    hide FullAgg, MaxDay, Built, EverLate, EverAddsOldPost, Growing;
    MaxDayOfPosts(snaps[0]);
    EverLateIsOld(snaps);
    MartIffNeverLate(snaps);
  }

  // ----- Any number of builds over any inputs -----

  /** Build i inserts the group: it has posts and is in that build's window. The first build is full. */
  ghost predicate Rebuilds(snaps: seq<Listing>, i: nat, g: Group)
    requires i < |snaps|
  {
    HitsOf(snaps[i], g) != {} && (i == 0 || g.day >= WindowStart(Built(snaps[..i])))
  }

  /** The last build that inserted the group, or -1. */
  ghost function LastBuild(snaps: seq<Listing>, g: Group): int {
    if snaps == [] then -1 else
      var n := |snaps| - 1;
      if Rebuilds(snaps, n, g) then n else LastBuild(snaps[..n], g)
  }

  lemma {:induction false} LastBuildIs(snaps: seq<Listing>, g: Group)
    ensures -1 <= LastBuild(snaps, g) < |snaps|
    ensures LastBuild(snaps, g) >= 0 ==> Rebuilds(snaps, LastBuild(snaps, g), g)
    ensures forall j :: LastBuild(snaps, g) < j < |snaps| ==> !Rebuilds(snaps, j, g)
  {
    hide HitsOf, WindowStart, Built;
    if snaps != [] {
      var n := |snaps| - 1;
      LastBuildIs(snaps[..n], g);
      forall j | 0 <= j < n
        ensures Rebuilds(snaps[..n], j, g) <==> Rebuilds(snaps, j, g)
      {
        assert snaps[..n][..j] == snaps[..j];
      }
    }
  }

  /** A group shows what it was in the last snapshot that inserted it. */
  lemma {:induction false} BuiltShowsLast(snaps: seq<Listing>, g: Group)
    requires snaps != []
    ensures -1 <= LastBuild(snaps, g) < |snaps|
    ensures g in Built(snaps) <==> LastBuild(snaps, g) >= 0
    ensures g in Built(snaps) ==> Built(snaps)[g] == TallyOf(snaps[LastBuild(snaps, g)], g)
  {
    hide HitsOf, WindowStart, FullAgg, Build, TallyOf;
    var n := |snaps| - 1;
    LastBuildIs(snaps, g);
    if n == 0 {
      FullAggAt(snaps[0], g);
      assert LastBuild(snaps[..0], g) == -1;
    } else {
      BuiltShowsLast(snaps[..n], g);
      BuildAt(Built(snaps[..n]), snaps[n], g);
    }
  }

  /** The last snapshot that inserted the group gave it the tally it has now, and a group without posts was
      never inserted. */
  ghost predicate Current(snaps: seq<Listing>, g: Group)
    requires snaps != []
  {
    var i, now := LastBuild(snaps, g), snaps[|snaps| - 1];
    if HitsOf(now, g) == {} then i < 0
    else 0 <= i < |snaps| && TallyOf(snaps[i], g) == TallyOf(now, g)
  }

  lemma CurrentAt(snaps: seq<Listing>, g: Group)
    requires snaps != []
    ensures var now := snaps[|snaps| - 1];
            Current(snaps, g) <==>
              && (g in Built(snaps) <==> g in FullAgg(now))
              && (g in FullAgg(now) ==> Built(snaps)[g] == FullAgg(now)[g])
  {
    hide HitsOf, FullAgg, Built, TallyOf, LastBuild;
    BuiltShowsLast(snaps, g);
    FullAggAt(snaps[|snaps| - 1], g);
  }

  /** Over any number of builds of any posts, changing or not, from any first build: the mart equals the full
      aggregate of the last snapshot if and only if every group is current. */
  lemma MartIffCurrent(snaps: seq<Listing>)
    requires snaps != []
    ensures Built(snaps) == FullAgg(snaps[|snaps| - 1]) <==> forall g :: Current(snaps, g)
  {
    hide FullAgg, Built, Current;
    var now := snaps[|snaps| - 1];
    forall g
      ensures Current(snaps, g) <==>
                && (g in Built(snaps) <==> g in FullAgg(now))
                && (g in FullAgg(now) ==> Built(snaps)[g] == FullAgg(now)[g])
    {
      CurrentAt(snaps, g);
    }
    SameMaps(Built(snaps), FullAgg(now));
  }

  // ----- What goes wrong otherwise -----

  ghost function BuildAll(m: map<Group, Tally>, snaps: seq<Listing>): map<Group, Tally> {
    if snaps == [] then m else Build(BuildAll(m, snaps[..|snaps| - 1]), snaps[|snaps| - 1])
  }

  /** One group dated in the future freezes every group more than two days older, whatever posts come. */
  lemma {:induction false} FutureGroupFreezes(m: map<Group, Tally>, future: Group, g: Group, snaps: seq<Listing>)
    requires future in m && future.day >= 2 && g.day < future.day - 2
    ensures future in BuildAll(m, snaps)
    ensures g in BuildAll(m, snaps) <==> g in m
    ensures g in m ==> BuildAll(m, snaps)[g] == m[g]
  {
    hide Build, MaxDay;
    if snaps != [] {
      var n := |snaps| - 1;
      FutureGroupFreezes(m, future, g, snaps[..n]);
      MaxDayIs(BuildAll(m, snaps[..n]), future);
      BuildAt(BuildAll(m, snaps[..n]), snaps[n], g);
      BuildAt(BuildAll(m, snaps[..n]), snaps[n], future);
    }
  }

  /** A first build over no posts leaves a mart that never takes a post dated before day 65534. */
  lemma {:induction false} EmptyFirstBuildStaysEmpty(snaps: seq<Listing>)
    requires forall i, k :: 0 <= i < |snaps| && k in snaps[i] ==> snaps[i][k].day < 0xFFFE
    ensures BuildAll(FullAgg(map[]), snaps) == map[]
  {
    assert FullAgg(map[]) == map[];
    if snaps != [] {
      var n := |snaps| - 1;
      EmptyFirstBuildStaysEmpty(snaps[..n]);
      EmptyMaxDay();
      assert Since(snaps[n], 0xFFFE) == map[];
      hide FullAgg, MaxDay;
    }
  }

  /** A group never goes away, so one whose posts have all changed group stays wrong for good. */
  lemma {:induction false} EmptiedGroupStays(m: map<Group, Tally>, snaps: seq<Listing>, posts: Listing, g: Group)
    requires g in m && HitsOf(posts, g) == {}
    ensures g in BuildAll(m, snaps) && BuildAll(m, snaps) != FullAgg(posts)
  {
    hide HitsOf, Build, FullAgg;
    if snaps != [] {
      var n := |snaps| - 1;
      EmptiedGroupStays(m, snaps[..n], posts, g);
      BuildAt(BuildAll(m, snaps[..n]), snaps[n], g);
    }
    FullAggAt(posts, g);
  }

  // ----- Reading staging -----

  /** The mart's view of staging read with FINAL, for some conversion of timestamps to days. */
  function ListingOf(toDate: int -> Date, rows: seq<Row>): Listing {
    map key | key in Shown(rows) :: Listed(toDate(Shown(rows)[key].createdAt), Shown(rows)[key].langs)
  }

  /** What the mart reads of a staging row: the day of its timestamp and its own languages. */
  predicate Lists(toDate: int -> Date, p: Listed, post: Post) {
    p.day == toDate(post.createdAt) && p.langs == post.langs
  }

  /** Each listed post is the winning row of its author and record key, and each such row is listed. */
  lemma ListingIsWinners(toDate: int -> Date, rows: seq<Row>, key: Key)
    ensures key in ListingOf(toDate, rows) <==>
              exists k :: 0 <= k < |rows| && rows[k].post.did == key.did && rows[k].post.rkey == key.rkey
    ensures key in ListingOf(toDate, rows) ==>
              exists k :: 0 <= k < |rows| && Wins(rows, k) && rows[k].post.did == key.did
                          && rows[k].post.rkey == key.rkey && Lists(toDate, ListingOf(toDate, rows)[key], rows[k].post)
  {
    hide Final, Wins;
    FinalKeys(rows, key);
    if HasKey(rows, key) {
      var k := FinalShowsWinner(rows, key);
    }
    if k :| 0 <= k < |rows| && rows[k].post.did == key.did && rows[k].post.rkey == key.rkey {
      RowHasKey(rows, k);
    }
  }

  lemma WinnerListed(toDate: int -> Date, rows: seq<Row>, k: nat)
    requires k < |rows| && Wins(rows, k)
    ensures KeyOf(rows[k]) in ListingOf(toDate, rows)
    ensures Lists(toDate, ListingOf(toDate, rows)[KeyOf(rows[k])], rows[k].post)
  {
    hide Final;
    RowHasKey(rows, k);
    var j := FinalShowsWinner(rows, KeyOf(rows[k]));
    assert j == k;
  }

  /** The authors a mart row counts are the authors of the winning rows of that day and language. */
  lemma AuthorsOfRows(toDate: int -> Date, rows: seq<Row>, g: Group, dids: set<string>)
    requires forall d :: d in dids <==>
               exists k :: 0 <= k < |rows| && Wins(rows, k) && rows[k].post.did == d
                           && toDate(rows[k].post.createdAt) == g.day
                           && (if rows[k].post.langs == [] then g.lang == "und" else g.lang in rows[k].post.langs)
    ensures TallyOf(ListingOf(toDate, rows), g).authors == |dids|
  {
    var posts := ListingOf(toDate, rows);
    hide Wins, TallyOf, ListingOf;
    forall d
      ensures d in dids <==> exists k :: k in posts && k.did == d && posts[k].day == g.day && Speaks(posts[k], g.lang)
    {
      if d in dids {
        var k :| 0 <= k < |rows| && Wins(rows, k) && rows[k].post.did == d
                 && toDate(rows[k].post.createdAt) == g.day
                 && (if rows[k].post.langs == [] then g.lang == "und" else g.lang in rows[k].post.langs);
        WinnerListed(toDate, rows, k);
        assert KeyOf(rows[k]) in posts;
      }
      if key :| key in posts && key.did == d && posts[key].day == g.day && Speaks(posts[key], g.lang) {
        ListingIsWinners(toDate, rows, key);
        var k :| 0 <= k < |rows| && Wins(rows, k) && rows[k].post.did == key.did
                 && rows[k].post.rkey == key.rkey && Lists(toDate, posts[key], rows[k].post);
        assert toDate(rows[k].post.createdAt) == g.day;
      }
    }
    AuthorsAreDistinct(posts, g, dids);
  }

  /** Replays never inflate: rows that only repeat known posts, at any timestamps, leave every build as it
      would have been, and a mart that was right stays exactly as it was. */
  lemma ReplayNeverInflates(toDate: int -> Date, rows: seq<Row>, more: seq<Row>, m: map<Group, Tally>)
    requires PostByKey(more) && forall r :: r in rows ==> r in more
    requires forall r :: r in more ==> HasKey(rows, KeyOf(r))
    ensures Build(m, ListingOf(toDate, more)) == Build(m, ListingOf(toDate, rows))
    ensures m == FullAgg(ListingOf(toDate, rows)) ==> Build(m, ListingOf(toDate, more)) == m
  {
    hide Shown, Build, FullAgg, Late;
    ReplayShowsNothingNew(rows, more);
    var posts := ListingOf(toDate, rows);
    if m == FullAgg(posts) {
      BuildExact(m, posts, posts);
      NothingAddedLate(m, posts);
    }
  }

  lemma NothingAddedLate(m: map<Group, Tally>, posts: Listing)
    ensures !Late(m, posts, posts)
  {
  }

  /** More rows of unchanging posts list more posts. */
  lemma ListingGrows(toDate: int -> Date, rows: seq<Row>, more: seq<Row>)
    requires PostByKey(more) && forall r :: r in rows ==> r in more
    ensures Extends(ListingOf(toDate, more), ListingOf(toDate, rows))
  {
    hide Final, HasKey;
    forall key | key in Shown(rows)
      ensures key in Shown(more) && Shown(more)[key] == Shown(rows)[key]
    {
      FinalKeys(rows, key);
      var r := ShownHasRow(rows, key);
      ShownIs(rows, r);
      ShownIs(more, r);
    }
  }
}
