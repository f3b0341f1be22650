/** Ranking shared by the services and the catalog: the engine's stable
    `Array.prototype.sort` with a descending comparator, the `slice(0, limit)`
    cut that follows it, and the per-platform tally both services build with
    a `Record<string, number>`. */
module Ranking {
  import opened Common

  /** A sort key compared lexicographically, in descending order: the higher
      group ranks first, and within one group the higher score. A plain
      "highest score first" comparator uses a single group. */
  datatype Key = Key(group: int, score: real)

  /** a ranks at or ahead of b. */
  predicate AtLeast(a: Key, b: Key) {
    a.group > b.group || (a.group == b.group && a.score >= b.score)
  }

  /** An item paired with the key it is sorted by (`{ post, engagementScore }`). */
  datatype Scored<T> = Scored(item: T, key: Key)

  predicate SortedDesc<T>(s: seq<Scored<T>>) {
    forall i, j :: 0 <= i < j < |s| ==> AtLeast(s[i].key, s[j].key)
  }

  /** The elements of s whose key is k, in their order in s. */
  function WithKey<T>(s: seq<Scored<T>>, k: Key): seq<Scored<T>> {
    if s == [] then [] else (if s[0].key == k then [s[0]] else []) + WithKey(s[1..], k)
  }

  /** Puts x in front of the first element it ranks at or ahead of. */
  function Insert<T>(x: Scored<T>, s: seq<Scored<T>>): seq<Scored<T>> {
    if s == [] || AtLeast(x.key, s[0].key) then [x] + s else [s[0]] + Insert(x, s[1..])
  }

  /** The stable sort, highest key first. Each element is inserted into the
      sorted rest ahead of the elements it ties with, which all came later. */
  function Sort<T>(s: seq<Scored<T>>): seq<Scored<T>> {
    if s == [] then [] else Insert(s[0], Sort(s[1..]))
  }

  function Items<T>(s: seq<Scored<T>>): (r: seq<T>)
    ensures |r| == |s|
  {
    seq(|s|, i requires 0 <= i < |s| => s[i].item)
  }

  /** `sorted.slice(0, limit)`. */
  function Ranked<T>(s: seq<Scored<T>>, limit: int): seq<Scored<T>> {
    Take(Sort(s), limit)
  }

  /** `sorted.slice(0, limit).map(p => p.post)`. */
  function Top<T>(s: seq<Scored<T>>, limit: int): seq<T> {
    Items(Ranked(s, limit))
  }

  // ---------------------------------------------------------------------
  // The sort: ordered, a permutation, stable
  // ---------------------------------------------------------------------

  lemma {:induction false} InsertSpec<T>(x: Scored<T>, s: seq<Scored<T>>)
    ensures |Insert(x, s)| == |s| + 1
    ensures multiset(Insert(x, s)) == multiset(s) + multiset{x}
    ensures SortedDesc(s) ==> SortedDesc(Insert(x, s))
  {
    if s != [] && !AtLeast(x.key, s[0].key) {
      InsertSpec(x, s[1..]);
      assert s == [s[0]] + s[1..];
      if SortedDesc(s) {
        var r := Insert(x, s);
        forall j | 1 <= j < |r|
          ensures AtLeast(r[0].key, r[j].key)
        {
          assert r[j] in multiset(Insert(x, s[1..]));
        }
      }
    }
  }

  lemma {:induction false} SortSpec<T>(s: seq<Scored<T>>)
    ensures |Sort(s)| == |s|
    ensures multiset(Sort(s)) == multiset(s)
    ensures SortedDesc(Sort(s))
  {
    if s != [] {
      SortSpec(s[1..]);
      InsertSpec(s[0], Sort(s[1..]));
      assert s == [s[0]] + s[1..];
    }
  }

  lemma {:induction false} WithKeyAppend<T>(a: seq<Scored<T>>, b: seq<Scored<T>>, k: Key)
    ensures WithKey(a + b, k) == WithKey(a, k) + WithKey(b, k)
  {
    if a != [] {
      WithKeyAppend(a[1..], b, k);
      assert (a + b)[1..] == a[1..] + b;
    } else {
      assert a + b == b;
    }
  }

  /** Inserting x adds x to its own key's run, at the front, and touches no other run. */
  lemma {:induction false} InsertWithKey<T>(x: Scored<T>, s: seq<Scored<T>>, k: Key)
    ensures WithKey(Insert(x, s), k) == (if x.key == k then [x] else []) + WithKey(s, k)
  {
    if s != [] && !AtLeast(x.key, s[0].key) {
      InsertWithKey(x, s[1..], k);
      assert s[0].key != x.key;
    }
  }

  /** Stability: for every key, the elements with that key keep their input order. */
  lemma {:induction false} SortStable<T>(s: seq<Scored<T>>, k: Key)
    ensures WithKey(Sort(s), k) == WithKey(s, k)
  {
    if s != [] {
      SortStable(s[1..], k);
      InsertWithKey(s[0], Sort(s[1..]), k);
    }
  }

  // ---------------------------------------------------------------------
  // The cut to `limit`
  // ---------------------------------------------------------------------

  /** The ranked elements are a prefix of the sorted input. */
  lemma RankedIsPrefix<T>(s: seq<Scored<T>>, limit: int)
    ensures |Sort(s)| == |s|
    ensures Ranked(s, limit) <= Sort(s)
    ensures 0 <= limit ==> |Ranked(s, limit)| == Min(limit, |s|)
  {
    SortSpec(s);
  }

  /** What `sort` followed by `slice(0, limit)` returns: elements drawn from the input. */
  lemma RankedFromInput<T>(s: seq<Scored<T>>, limit: int)
    ensures multiset(Ranked(s, limit)) <= multiset(s)
  {
    SortSpec(s);
    RankedIsPrefix(s, limit);
    var t := Sort(s);
    var r := Ranked(s, limit);
    assert t == r + t[|r|..];
    assert multiset(t) == multiset(r) + multiset(t[|r|..]);
  }

  /** The ranked elements come highest key first, and none is outranked by an element that was cut. */
  lemma RankedOrdered<T>(s: seq<Scored<T>>, limit: int)
    ensures SortedDesc(Ranked(s, limit))
    ensures forall i, j :: 0 <= i < |Ranked(s, limit)| <= j < |Sort(s)| ==> AtLeast(Ranked(s, limit)[i].key, Sort(s)[j].key)
  {
    SortSpec(s);
    RankedIsPrefix(s, limit);
  }

  /** Ties keep input order: within each key, the kept elements are the
      earliest input elements with that key, in input order. */
  lemma RankedStable<T>(s: seq<Scored<T>>, limit: int, k: Key)
    ensures WithKey(Ranked(s, limit), k) <= WithKey(s, k)
  {
    RankedIsPrefix(s, limit);
    var t := Sort(s);
    var r := Ranked(s, limit);
    assert t == r + t[|r|..];
    WithKeyAppend(r, t[|r|..], k);
    SortStable(s, k);
  }

  /** The first element of s with key k comes first among them. */
  lemma {:induction false} WithKeyFirst<T>(s: seq<Scored<T>>, k: Key)
    requires WithKey(s, k) != []
    ensures exists i :: 0 <= i < |s| && s[i] == WithKey(s, k)[0] && s[i].key == k &&
                        forall j :: 0 <= j < i ==> s[j].key != k
  {
    if s[0].key != k {
      WithKeyFirst(s[1..], k);
      var i :| 0 <= i < |s[1..]| && s[1..][i] == WithKey(s[1..], k)[0] && s[1..][i].key == k &&
               forall j :: 0 <= j < i ==> s[1..][j].key != k;
      assert forall j :: 1 <= j < i + 1 ==> s[j] == s[1..][j - 1];
    } else {
      assert s[0] == WithKey(s, k)[0];
    }
  }

  lemma HeadDominates<T>(s: seq<Scored<T>>)
    requires s != []
    ensures forall j :: 0 <= j < |s| ==> AtLeast(Sort(s)[0].key, s[j].key)
  {
    SortSpec(s);
    var t := Sort(s);
    forall j | 0 <= j < |s|
      ensures AtLeast(t[0].key, s[j].key)
    {
      assert s[j] in multiset(t);
      var m :| 0 <= m < |t| && t[m] == s[j];
      if m != 0 {
        assert AtLeast(t[0].key, t[m].key);
      }
    }
  }

  /** The head of the sorted sequence is the first element of the input
      whose key ranks at or ahead of every key: a stable sort keeps the
      earliest of the tied best. */
  lemma SortHead<T>(s: seq<Scored<T>>)
    requires s != []
    ensures exists i :: 0 <= i < |s| && Sort(s)[0] == s[i] &&
                        (forall j :: 0 <= j < |s| ==> AtLeast(s[i].key, s[j].key)) &&
                        (forall j :: 0 <= j < i ==> s[j].key != s[i].key)
  {
    SortSpec(s);
    var t := Sort(s);
    var k := t[0].key;
    assert WithKey(t, k)[0] == t[0];
    SortStable(s, k);
    WithKeyFirst(s, k);
    var i :| 0 <= i < |s| && s[i] == WithKey(s, k)[0] && s[i].key == k &&
             forall j :: 0 <= j < i ==> s[j].key != k;
    HeadDominates(s);
  }

  /** `items.map(x => ({ x, key: k(x) }))`, ready to be ranked by key. */
  function Keyed<T>(xs: seq<T>, k: T -> Key): (s: seq<Scored<T>>)
    ensures |s| == |xs|
  {
    seq(|xs|, i requires 0 <= i < |xs| => Scored(xs[i], k(xs[i])))
  }

  lemma KeyedEntry<T>(xs: seq<T>, k: T -> Key, e: Scored<T>)
    requires e in Keyed(xs, k)
    ensures e.item in xs && e.key == k(e.item)
  {
    var m :| 0 <= m < |xs| && Keyed(xs, k)[m] == e;
  }

  /** Ranking items by a key and keeping `limit` of them: as many as fit,
      drawn from the input, in non-increasing key order, and no item that
      was cut ranks ahead of one that was kept. */
  lemma TopByKey<T>(xs: seq<T>, k: T -> Key, limit: int)
    ensures 0 <= limit ==> |Top(Keyed(xs, k), limit)| == Min(limit, |xs|)
    ensures forall x :: x in Top(Keyed(xs, k), limit) ==> x in xs
    ensures forall i, j :: 0 <= i < j < |Top(Keyed(xs, k), limit)| ==>
      AtLeast(k(Top(Keyed(xs, k), limit)[i]), k(Top(Keyed(xs, k), limit)[j]))
    ensures forall x, y :: x in Top(Keyed(xs, k), limit) && y in xs && y !in Top(Keyed(xs, k), limit) ==> AtLeast(k(x), k(y))
  {
    var s := Keyed(xs, k);
    var sorted := Sort(s);
    var r := Ranked(s, limit);
    var top := Top(s, limit);
    RankedIsPrefix(s, limit);
    RankedFromInput(s, limit);
    RankedOrdered(s, limit);
    SortSpec(s);
    forall i | 0 <= i < |r|
      ensures r[i].item in xs && r[i].key == k(r[i].item)
    {
      assert r[i] in multiset(r);
      KeyedEntry(xs, k, r[i]);
    }
    forall x | x in top
      ensures x in xs
    {
      var i :| 0 <= i < |top| && top[i] == x;
    }
    forall i, j | 0 <= i < j < |top|
      ensures AtLeast(k(top[i]), k(top[j]))
    {
      assert AtLeast(r[i].key, r[j].key);
    }
    forall x, y | x in top && y in xs && y !in top
      ensures AtLeast(k(x), k(y))
    {
      var i :| 0 <= i < |top| && top[i] == x;
      var m :| 0 <= m < |xs| && xs[m] == y;
      assert s[m] in multiset(sorted);
      var n :| 0 <= n < |sorted| && sorted[n] == s[m];
      forall j | 0 <= j < |r|
        ensures sorted[j].item != y
      {
        assert top[j] in top;
      }
      assert AtLeast(r[i].key, sorted[n].key);
    }
  }

  /** A single-group key: ranked by score alone. */
  function ScoreKey<T>(f: T -> real): T -> Key {
    x => Key(0, f(x))
  }

  /** `items.map(x => ({ x, score: f(x) }))`, ranked highest score first. */
  function ByScore<T>(xs: seq<T>, f: T -> real): (s: seq<Scored<T>>)
    ensures |s| == |xs|
  {
    Keyed(xs, ScoreKey(f))
  }

  /** Ranking items by a score and keeping `limit` of them: as many as fit,
      drawn from the input, in non-increasing score order, and no item that
      was cut scores higher than one that was kept. */
  lemma TopByScore<T>(xs: seq<T>, f: T -> real, limit: int)
    ensures 0 <= limit ==> |Top(ByScore(xs, f), limit)| == Min(limit, |xs|)
    ensures forall x :: x in Top(ByScore(xs, f), limit) ==> x in xs
    ensures forall i, j :: 0 <= i < j < |Top(ByScore(xs, f), limit)| ==>
      f(Top(ByScore(xs, f), limit)[i]) >= f(Top(ByScore(xs, f), limit)[j])
    ensures forall x, y :: x in Top(ByScore(xs, f), limit) && y in xs && y !in Top(ByScore(xs, f), limit) ==> f(x) >= f(y)
  {
    var k := ScoreKey(f);
    TopByKey(xs, k, limit);
    var top := Top(ByScore(xs, f), limit);
    forall i, j | 0 <= i < j < |top|
      ensures f(top[i]) >= f(top[j])
    {
      assert AtLeast(k(top[i]), k(top[j]));
    }
    forall x, y | x in top && y in xs && y !in top
      ensures f(x) >= f(y)
    {
      assert AtLeast(k(x), k(y));
    }
  }

  lemma ItemsMembership<T>(s: seq<Scored<T>>, x: T)
    requires x in Items(s)
    ensures exists e :: e in s && e.item == x
  {
    var i :| 0 <= i < |s| && Items(s)[i] == x;
    assert s[i] in s;
  }

  // ---------------------------------------------------------------------
  // Per-platform tally: `counts[p] = (counts[p] || 0) + 1`, then
  // `Object.entries(counts)`, sorted by count and cut
  // ---------------------------------------------------------------------

  datatype PlatformCount = PlatformCount(platform: string, count: nat)

  /** A `Record<string, number>`: its values, and its keys in insertion order. */
  datatype Tally = Tally(counts: map<string, nat>, order: seq<string>)

  const EmptyTally: Tally := Tally(map[], [])

  function Bump(t: Tally, p: string): Tally {
    if p in t.counts then Tally(t.counts[p := t.counts[p] + 1], t.order)
    else Tally(t.counts[p := 1], t.order + [p])
  }

  /** The tally after counting ps from first to last. */
  function TallyOf(ps: seq<string>): Tally {
    if ps == [] then EmptyTally else Bump(TallyOf(ps[..|ps| - 1]), ps[|ps| - 1])
  }

  /** The tally counts every platform exactly, and lists the platforms in order of first appearance. */
  lemma {:induction false} TallyOfSpec(ps: seq<string>)
    ensures TallyOf(ps).order == Dedup(ps)
    ensures forall p :: p in TallyOf(ps).counts <==> p in ps
    ensures forall p :: p in TallyOf(ps).counts ==> TallyOf(ps).counts[p] == Count(ps, p)
  {
    if ps != [] {
      var init, last := ps[..|ps| - 1], ps[|ps| - 1];
      TallyOfSpec(init);
      assert ps == init + [last];
      DedupSpec(init);
      forall p | p in TallyOf(ps).counts
        ensures TallyOf(ps).counts[p] == Count(ps, p)
      {
        assert Count(ps, p) == Count(init, p) + (if last == p then 1 else 0);
        if p != last {
          assert p in TallyOf(init).counts;
        } else if last !in TallyOf(init).counts {
          CountAbsent(init, p);
        }
      }
    }
  }

  /** `Object.entries(counts).map(([platform, count]) => ({ platform, count }))`. */
  function Entries(t: Tally): seq<PlatformCount> {
    seq(|t.order|, i requires 0 <= i < |t.order| =>
      PlatformCount(t.order[i], if t.order[i] in t.counts then t.counts[t.order[i]] else 0))
  }

  function ByCount(es: seq<PlatformCount>): seq<Scored<PlatformCount>> {
    seq(|es|, i requires 0 <= i < |es| => Scored(es[i], Key(0, es[i].count as real)))
  }

  /** `entries.sort((a, b) => b.count - a.count).slice(0, n)`. */
  function TopPlatforms(t: Tally, n: int): seq<PlatformCount> {
    Top(ByCount(Entries(t)), n)
  }

  /** Every entry of the tally of ps is a platform of ps with its exact count,
      the entries name distinct platforms, and every platform of ps has one. */
  lemma TallyEntries(ps: seq<string>)
    ensures forall i :: 0 <= i < |Entries(TallyOf(ps))| ==>
      Entries(TallyOf(ps))[i].platform in ps && Entries(TallyOf(ps))[i].count == Count(ps, Entries(TallyOf(ps))[i].platform)
    ensures forall i, j :: 0 <= i < j < |Entries(TallyOf(ps))| ==> Entries(TallyOf(ps))[i].platform != Entries(TallyOf(ps))[j].platform
    ensures forall q :: q in ps ==> exists m :: 0 <= m < |Entries(TallyOf(ps))| && Entries(TallyOf(ps))[m].platform == q
  {
    TallyOfSpec(ps);
    DedupSpec(ps);
    var t := TallyOf(ps);
    forall i | 0 <= i < |Entries(t)|
      ensures Entries(t)[i].platform in ps && Entries(t)[i].count == Count(ps, Entries(t)[i].platform)
    {
      assert t.order[i] in t.order;
    }
    forall q | q in ps
      ensures exists m :: 0 <= m < |Entries(t)| && Entries(t)[m].platform == q
    {
      var m :| 0 <= m < |t.order| && t.order[m] == q;
      assert Entries(t)[m].platform == q;
    }
  }

  /** Every ranked entry is one of the scored entries. */
  lemma RankedEntry(es: seq<PlatformCount>, n: int, x: Scored<PlatformCount>)
    requires x in Ranked(ByCount(es), n)
    ensures exists m :: 0 <= m < |es| && x == ByCount(es)[m]
  {
    RankedFromInput(ByCount(es), n);
    assert x in multiset(Ranked(ByCount(es), n));
    assert x in ByCount(es);
  }

  /** `topPlatforms`: n platforms of ps (all of them when fewer are distinct), each with its exact count, most frequent first. */
  lemma TopPlatformsCounts(ps: seq<string>, n: nat)
    ensures |TopPlatforms(TallyOf(ps), n)| <= n
    ensures |TopPlatforms(TallyOf(ps), n)| == Min(n, |Dedup(ps)|)
    ensures forall e :: e in TopPlatforms(TallyOf(ps), n) ==> e.platform in ps && e.count == Count(ps, e.platform)
    ensures forall i, j :: 0 <= i < j < |TopPlatforms(TallyOf(ps), n)| ==>
      TopPlatforms(TallyOf(ps), n)[i].count >= TopPlatforms(TallyOf(ps), n)[j].count
  {
    var es := Entries(TallyOf(ps));
    var r := Ranked(ByCount(es), n);
    var top := TopPlatforms(TallyOf(ps), n);
    TallyEntries(ps);
    TallyOfSpec(ps);
    RankedIsPrefix(ByCount(es), n);
    RankedOrdered(ByCount(es), n);
    assert |top| == |r|;
    forall e | e in top
      ensures e.platform in ps && e.count == Count(ps, e.platform)
    {
      var i :| 0 <= i < |top| && top[i] == e;
      assert r[i] in r;
      RankedEntry(es, n, r[i]);
    }
    forall i, j | 0 <= i < j < |top|
      ensures top[i].count >= top[j].count
    {
      assert r[i] in r && r[j] in r;
      RankedEntry(es, n, r[i]);
      RankedEntry(es, n, r[j]);
    }
  }

  /** `topPlatforms` names each platform at most once. */
  lemma TopPlatformsDistinct(ps: seq<string>, n: nat)
    ensures forall i, j :: 0 <= i < j < |TopPlatforms(TallyOf(ps), n)| ==>
      TopPlatforms(TallyOf(ps), n)[i].platform != TopPlatforms(TallyOf(ps), n)[j].platform
  {
    var es := Entries(TallyOf(ps));
    var s := ByCount(es);
    var r := Ranked(s, n);
    var top := TopPlatforms(TallyOf(ps), n);
    TallyEntries(ps);
    RankedIsPrefix(s, n);
    SortSpec(s);
    assert NoDup(s) by {
      forall i, j | 0 <= i < j < |s| ensures s[i] != s[j] {
        assert es[i].platform != es[j].platform;
      }
    }
    PermutationNoDup(s, Sort(s));
    forall i, j | 0 <= i < j < |top|
      ensures top[i].platform != top[j].platform
    {
      assert r[i] == Sort(s)[i] && r[j] == Sort(s)[j];
      assert r[i] in r && r[j] in r;
      RankedEntry(es, n, r[i]);
      RankedEntry(es, n, r[j]);
    }
  }

  /** No platform of ps that `topPlatforms` leaves out occurs more often than one it keeps. */
  lemma TopPlatformsDominate(ps: seq<string>, n: nat, q: string, e: PlatformCount)
    requires q in ps && e in TopPlatforms(TallyOf(ps), n)
    requires forall f :: f in TopPlatforms(TallyOf(ps), n) ==> f.platform != q
    ensures Count(ps, q) <= e.count
  {
    var es := Entries(TallyOf(ps));
    var s := ByCount(es);
    var sorted := Sort(s);
    var r := Ranked(s, n);
    var top := TopPlatforms(TallyOf(ps), n);
    TallyEntries(ps);
    RankedIsPrefix(s, n);
    RankedOrdered(s, n);
    SortSpec(s);
    var m :| 0 <= m < |es| && es[m].platform == q;
    assert s[m] in multiset(sorted);
    var k :| 0 <= k < |sorted| && sorted[k] == s[m];
    forall j | 0 <= j < |r|
      ensures sorted[j].item.platform != q
    {
      assert top[j] in top;
    }
    assert sorted[k].item.platform == q;
    var i :| 0 <= i < |top| && top[i] == e;
    assert AtLeast(r[i].key, sorted[k].key);
    assert r[i] in r;
    RankedEntry(es, n, r[i]);
  }

  /** A permutation of a sequence without duplicates has none. */
  lemma PermutationNoDup<T>(a: seq<T>, b: seq<T>)
    requires NoDup(a) && multiset(a) == multiset(b)
    ensures NoDup(b)
  {
    forall i, j | 0 <= i < j < |b|
      ensures b[i] != b[j]
    {
      if b[i] == b[j] {
        assert b == b[..i] + [b[i]] + b[i + 1..j] + [b[j]] + b[j + 1..];
        assert multiset(b)[b[i]] >= 2;
        NoDupOnce(a, b[i]);
        assert false;
      }
    }
  }

  lemma {:induction false} NoDupOnce<T>(a: seq<T>, x: T)
    requires NoDup(a)
    ensures multiset(a)[x] <= 1
  {
    if a != [] {
      NoDupOnce(a[1..], x);
      assert a == [a[0]] + a[1..];
      assert a[0] !in a[1..];
    }
  }
}
