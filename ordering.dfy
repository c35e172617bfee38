/**
 * Ordering a playlist's songs by one of three criteria. Titles and artists
 * are compared lexicographically by character code (standing in for the
 * platform's locale collation); durations numerically. The sort is a stable
 * insertion sort, specified as a value.
 */
module SongOrder {
  import opened Wrappers
  import opened Songs

  /** The fields a playlist can be sorted by. */
  datatype Criterion = Title | Artist | Duration

  /** Reads a criterion name; anything other than the three field names is rejected. */
  function ParseCriterion(name: string): (r: Option<Criterion>)
    ensures r == Some(Title) <==> name == "title"
    ensures r == Some(Artist) <==> name == "artist"
    ensures r == Some(Duration) <==> name == "duration"
    ensures r.None? <==> name != "title" && name != "artist" && name != "duration"
  {
    if name == "title" then Some(Title)
    else if name == "artist" then Some(Artist)
    else if name == "duration" then Some(Duration)
    else None
  }

  /** Lexicographic order on strings, comparing character codes; a prefix comes first. */
  predicate StrLeq(a: string, b: string)
  {
    a == [] || (b != [] && (a[0] < b[0] || (a[0] == b[0] && StrLeq(a[1..], b[1..]))))
  }

  lemma {:induction false} StrLeqReflexive(a: string)
    ensures StrLeq(a, a)
  {
    if a != [] {
      StrLeqReflexive(a[1..]);
    }
  }

  lemma {:induction false} StrLeqTotal(a: string, b: string)
    ensures StrLeq(a, b) || StrLeq(b, a)
  {
    if a != [] && b != [] && a[0] == b[0] {
      StrLeqTotal(a[1..], b[1..]);
    }
  }

  lemma {:induction false} StrLeqTransitive(a: string, b: string, c: string)
    requires StrLeq(a, b) && StrLeq(b, c)
    ensures StrLeq(a, c)
  {
    if a != [] && b != [] && c != [] && a[0] == b[0] == c[0] {
      StrLeqTransitive(a[1..], b[1..], c[1..]);
    }
  }

  lemma {:induction false} StrLeqAntisymmetric(a: string, b: string)
    requires StrLeq(a, b) && StrLeq(b, a)
    ensures a == b
  {
    if a != [] && b != [] {
      StrLeqAntisymmetric(a[1..], b[1..]);
      assert a == [a[0]] + a[1..] && b == [b[0]] + b[1..];
    }
  }

  /**
   * `x` may come before `y` when sorting by `c` (the comparator returns at
   * most zero). By duration that is the sign of the difference of the
   * durations; songs with equal keys may come in either order.
   */
  predicate Leq(c: Criterion, x: Song, y: Song)
    ensures c == Duration ==> (Leq(c, x, y) <==> x.duration - y.duration <= 0)
    ensures SameKey(c, x, y) ==> Leq(c, x, y)
  {
    match c
    case Title => StrLeqReflexive(x.title); StrLeq(x.title, y.title)
    case Artist => StrLeqReflexive(x.artist); StrLeq(x.artist, y.artist)
    case Duration => x.duration <= y.duration
  }

  /** `x` and `y` have the same sort key under `c` (the comparator returns zero). */
  predicate SameKey(c: Criterion, x: Song, y: Song)
  {
    match c
    case Title => x.title == y.title
    case Artist => x.artist == y.artist
    case Duration => x.duration == y.duration
  }

  lemma LeqTotal(c: Criterion, x: Song, y: Song)
    ensures Leq(c, x, y) || Leq(c, y, x)
  {
    match c
    case Title => StrLeqTotal(x.title, y.title);
    case Artist => StrLeqTotal(x.artist, y.artist);
    case Duration =>
  }

  lemma LeqTransitive(c: Criterion, x: Song, y: Song, z: Song)
    requires Leq(c, x, y) && Leq(c, y, z)
    ensures Leq(c, x, z)
  {
    match c
    case Title => StrLeqTransitive(x.title, y.title, z.title);
    case Artist => StrLeqTransitive(x.artist, y.artist, z.artist);
    case Duration =>
  }

  /** The comparator is zero exactly when it is at most zero both ways. */
  lemma SameKeyIffLeqBoth(c: Criterion, x: Song, y: Song)
    ensures SameKey(c, x, y) <==> Leq(c, x, y) && Leq(c, y, x)
  {
    match c
    case Title =>
      StrLeqReflexive(x.title);
      if Leq(c, x, y) && Leq(c, y, x) { StrLeqAntisymmetric(x.title, y.title); }
    case Artist =>
      StrLeqReflexive(x.artist);
      if Leq(c, x, y) && Leq(c, y, x) { StrLeqAntisymmetric(x.artist, y.artist); }
    case Duration =>
  }

  /** Ascending by `c`: every song may come before every later one. */
  ghost predicate Sorted(s: seq<Song>, c: Criterion)
  {
    forall i, j :: 0 <= i < j < |s| ==> Leq(c, s[i], s[j])
  }

  /** `t` with `x` placed before the first song that `x` may precede. */
  function Insert(x: Song, t: seq<Song>, c: Criterion): (r: seq<Song>)
    ensures multiset(r) == multiset(t) + multiset{x}
  {
    if t == [] then [x]
    else if Leq(c, x, t[0]) then [x] + t
    else
      assert t == [t[0]] + t[1..];
      [t[0]] + Insert(x, t[1..], c)
  }

  /** The songs of `s` reordered ascending by `c`; a permutation of `s`. */
  function SortBy(s: seq<Song>, c: Criterion): (r: seq<Song>)
    ensures multiset(r) == multiset(s)
  {
    if s == [] then []
    else
      assert s == [s[0]] + s[1..];
      Insert(s[0], SortBy(s[1..], c), c)
  }

  /** A song that may precede every song of a sorted list can head it. */
  lemma SortedCons(x: Song, t: seq<Song>, c: Criterion)
    requires Sorted(t, c)
    requires forall k :: 0 <= k < |t| ==> Leq(c, x, t[k])
    ensures Sorted([x] + t, c)
  {
  }

  /** A lower bound of `x` and of every song of `t` bounds every song of `Insert(x, t, c)`. */
  lemma InsertBound(y: Song, x: Song, t: seq<Song>, c: Criterion)
    requires Leq(c, y, x)
    requires forall k :: 0 <= k < |t| ==> Leq(c, y, t[k])
    ensures forall k :: 0 <= k < |Insert(x, t, c)| ==> Leq(c, y, Insert(x, t, c)[k])
  {
    var r := Insert(x, t, c);
    forall k | 0 <= k < |r| ensures Leq(c, y, r[k]) {
      assert r[k] in multiset(r);
      if r[k] != x {
        assert r[k] in multiset(t);
        var m :| 0 <= m < |t| && t[m] == r[k];
      }
    }
  }

  lemma {:induction false} InsertSorted(x: Song, t: seq<Song>, c: Criterion)
    requires Sorted(t, c)
    ensures Sorted(Insert(x, t, c), c)
  {
    if t == [] {
    } else if Leq(c, x, t[0]) {
      forall k | 0 <= k < |t| ensures Leq(c, x, t[k]) {
        if k > 0 {
          LeqTransitive(c, x, t[0], t[k]);
        }
      }
      SortedCons(x, t, c);
    } else {
      LeqTotal(c, x, t[0]);
      assert Sorted(t[1..], c);
      InsertSorted(x, t[1..], c);
      InsertBound(t[0], x, t[1..], c);
      SortedCons(t[0], Insert(x, t[1..], c), c);
    }
  }

  /** Sorting yields songs ascending by the criterion. */
  lemma {:induction false} SortBySorted(s: seq<Song>, c: Criterion)
    ensures Sorted(SortBy(s, c), c)
  {
    if s != [] {
      SortBySorted(s[1..], c);
      InsertSorted(s[0], SortBy(s[1..], c), c);
    }
  }

  /** `[y]` when `y` shares the sort key of `k`, otherwise nothing. */
  function Tagged(y: Song, c: Criterion, k: Song): seq<Song>
  {
    if SameKey(c, y, k) then [y] else []
  }

  /** The songs of `s` that share the sort key of `k`, in their order in `s`. */
  function KeyClass(s: seq<Song>, c: Criterion, k: Song): seq<Song>
  {
    if s == [] then [] else Tagged(s[0], c, k) + KeyClass(s[1..], c, k)
  }

  lemma KeyClassCons(x: Song, t: seq<Song>, c: Criterion, k: Song)
    ensures KeyClass([x] + t, c, k) == Tagged(x, c, k) + KeyClass(t, c, k)
  {
  }

  /** Two songs in strictly increasing order cannot both share the key of `k`. */
  lemma TaggedCommute(x: Song, y: Song, c: Criterion, k: Song)
    requires !Leq(c, x, y)
    ensures Tagged(y, c, k) + Tagged(x, c, k) == Tagged(x, c, k) + Tagged(y, c, k)
  {
    if SameKey(c, x, k) && SameKey(c, y, k) {
      assert SameKey(c, x, y);
      SameKeyIffLeqBoth(c, x, y);
    }
  }

  /** Inserting a song keeps the songs sharing any given key in order, the new one first among them. */
  lemma {:induction false} InsertKeyClass(x: Song, t: seq<Song>, c: Criterion, k: Song)
    ensures KeyClass(Insert(x, t, c), c, k) == Tagged(x, c, k) + KeyClass(t, c, k)
  {
    if t == [] {
      KeyClassCons(x, [], c, k);
    } else if Leq(c, x, t[0]) {
      KeyClassCons(x, t, c, k);
    } else {
      InsertKeyClass(x, t[1..], c, k);
      InsertKeyClassStep(x, t, c, k);
    }
  }

  /** The step of InsertKeyClass where `x` goes past the head of `t`. */
  lemma InsertKeyClassStep(x: Song, t: seq<Song>, c: Criterion, k: Song)
    requires t != [] && !Leq(c, x, t[0])
    requires KeyClass(Insert(x, t[1..], c), c, k) == Tagged(x, c, k) + KeyClass(t[1..], c, k)
    ensures KeyClass(Insert(x, t, c), c, k) == Tagged(x, c, k) + KeyClass(t, c, k)
  {
    var tail := t[1..];
    var rest := Insert(x, tail, c);
    var tx, ty, rk := Tagged(x, c, k), Tagged(t[0], c, k), KeyClass(tail, c, k);
    assert Insert(x, t, c) == [t[0]] + rest;
    KeyClassCons(t[0], rest, c, k);
    assert KeyClass(Insert(x, t, c), c, k) == ty + (tx + rk);
    assert t == [t[0]] + tail;
    KeyClassCons(t[0], tail, c, k);
    assert KeyClass(t, c, k) == ty + rk;
    TaggedCommute(x, t[0], c, k);
    SwapFront(tx, ty, rk);
  }

  lemma SwapFront(a: seq<Song>, b: seq<Song>, rest: seq<Song>)
    requires b + a == a + b
    ensures b + (a + rest) == a + (b + rest)
  {
    calc {
      b + (a + rest);
      (b + a) + rest;
      (a + b) + rest;
      a + (b + rest);
    }
  }

  /** Sorting is stable: songs with equal keys keep their relative order. */
  lemma {:induction false} SortByStable(s: seq<Song>, c: Criterion, k: Song)
    ensures KeyClass(SortBy(s, c), c, k) == KeyClass(s, c, k)
  {
    if s != [] {
      SortByStable(s[1..], c, k);
      InsertKeyClass(s[0], SortBy(s[1..], c), c, k);
    }
  }

  /** Two songs out of order by `c` swap places when sorted. */
  lemma SortTwo(x: Song, y: Song, c: Criterion)
    requires !Leq(c, x, y)
    ensures SortBy([x, y], c) == [y, x]
  {
  }
}
