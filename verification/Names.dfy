/**
 C strings: truncating copies, `strcmp` and `strcasecmp` order, and sequence tools shared by
 the tables and the client view.
 */
module Names {

  /** What `strncpy(dst, src, n)` leaves in a zeroed buffer of `n + 1` bytes. */
  function Truncated(s: string, n: nat): (r: string)
    ensures |r| <= n && r <= s
    ensures |s| <= n ==> r == s
  {
    if |s| <= n then s else s[..n]
  }

  // ------------------------------------------------------------ string order

  /** `strcmp(a, b) < 0`. */
  predicate Less(a: string, b: string) {
    b != [] && (a == [] || a[0] < b[0] || (a[0] == b[0] && Less(a[1..], b[1..])))
  }

  lemma {:induction false} LessTotal(a: string, b: string)
    ensures !(Less(a, b) && Less(b, a))
    ensures Less(a, b) || Less(b, a) || a == b
    ensures a == b ==> !Less(a, b)
  {
    if a != [] && b != [] && a[0] == b[0] {
      LessTotal(a[1..], b[1..]);
      assert a == [a[0]] + a[1..] && b == [b[0]] + b[1..];
    }
  }

  /** `strcmp`: the first character in which they differ decides, and a proper prefix comes first. */
  lemma {:induction false} LessIs(a: string, b: string)
    ensures Less(a, b) <==> exists k: nat :: k < |b| && k <= |a| && a[..k] == b[..k] && (k == |a| || a[k] < b[k])
  {
    forall k: nat | 0 < k <= |a| && k < |b| && a[..k] == b[..k] ensures a[0] == b[0] {
      assert a[0] == a[..k][0] && b[0] == b[..k][0];
    }
    if b != [] && a != [] && a[0] == b[0] {
      LessIs(a[1..], b[1..]);
      if Less(a, b) {
        var k: nat :| k < |b[1..]| && k <= |a[1..]| && a[1..][..k] == b[1..][..k] && (k == |a[1..]| || a[1..][k] < b[1..][k]);
        assert a[..k + 1] == [a[0]] + a[1..][..k] && b[..k + 1] == [b[0]] + b[1..][..k];
      }
      if k: nat :| k < |b| && k <= |a| && a[..k] == b[..k] && (k == |a| || a[k] < b[k]) {
        assert k > 0 && a[1..][..k - 1] == a[..k][1..] && b[1..][..k - 1] == b[..k][1..];
      }
    } else if Less(a, b) {
      assert a[..0] == b[..0];
    }
  }

  /** Not being above is transitive, so `Less` is a weak order. */
  lemma {:induction false} NotLessTransitive(a: string, b: string, c: string)
    requires !Less(b, a) && !Less(c, b)
    ensures !Less(c, a)
  {
    if a != [] && b != [] && c != [] && a[0] == b[0] == c[0] {
      NotLessTransitive(a[1..], b[1..], c[1..]);
    }
  }

  /** `tolower` in the C locale. */
  function Lower(c: char): char {
    if 'A' <= c <= 'Z' then (c as int + 32) as char else c
  }

  function LowerCase(s: string): string {
    seq(|s|, i requires 0 <= i < |s| => Lower(s[i]))
  }

  /** `strcasecmp(a, b) < 0`. */
  predicate CaseLess(a: string, b: string) {
    Less(LowerCase(a), LowerCase(b))
  }

  // ------------------------------------------------------------ rows of a table

  /** Keeps the elements that satisfy `keep`, in order: what a `DELETE ... WHERE` or a `SELECT ... WHERE` leaves. */
  function Filter<T(!new)>(keep: T -> bool, s: seq<T>): (r: seq<T>)
    ensures |r| <= |s|
  {
    if s == [] then []
    else Filter(keep, s[..|s| - 1]) + if keep(s[|s| - 1]) then [s[|s| - 1]] else []
  }

  lemma {:induction false} FilterMembers<T(!new)>(keep: T -> bool, s: seq<T>)
    ensures forall x :: x in Filter(keep, s) <==> x in s && keep(x)
  {
    if s != [] {
      FilterMembers(keep, s[..|s| - 1]);
      assert s == s[..|s| - 1] + [s[|s| - 1]];
    }
  }

  /** `distinct` holds of every two rows at different places: a UNIQUE constraint. */
  ghost predicate Pairwise<T(!new)>(distinct: (T, T) -> bool, s: seq<T>) {
    forall i, j :: 0 <= i < j < |s| ==> distinct(s[i], s[j])
  }

  lemma {:induction false} FilterKeepsPairwise<T(!new)>(distinct: (T, T) -> bool, keep: T -> bool, s: seq<T>)
    requires Pairwise(distinct, s)
    ensures Pairwise(distinct, Filter(keep, s))
  {
    if s != [] {
      var front, last := s[..|s| - 1], s[|s| - 1];
      FilterKeepsPairwise(distinct, keep, front);
      FilterMembers(keep, front);
      forall x | x in Filter(keep, front) ensures distinct(x, last) {
        var i :| 0 <= i < |front| && front[i] == x;
        assert s[i] == x;
      }
    }
  }

  lemma {:induction false} FilterAppend<T(!new)>(keep: T -> bool, s: seq<T>, t: seq<T>)
    ensures Filter(keep, s + t) == Filter(keep, s) + Filter(keep, t)
  {
    if t == [] {
      assert s + t == s;
    } else {
      var front, last := t[..|t| - 1], t[|t| - 1];
      FilterAppend(keep, s, front);
      var kept := if keep(last) then [last] else [];
      assert (s + t)[..|s + t| - 1] == s + front;
      assert Filter(keep, s + t) == Filter(keep, s + front) + kept;
      assert (Filter(keep, s) + Filter(keep, front)) + kept == Filter(keep, s) + (Filter(keep, front) + kept);
    }
  }

  lemma {:induction false} FilterEverything<T(!new)>(keep: T -> bool, s: seq<T>)
    requires forall x :: x in s ==> keep(x)
    ensures Filter(keep, s) == s
  {
    if s != [] {
      FilterEverything(keep, s[..|s| - 1]);
      assert s == s[..|s| - 1] + [s[|s| - 1]];
    }
  }

  lemma FilterOne<T(!new)>(keep: T -> bool, x: T)
    ensures Filter(keep, [x]) == if keep(x) then [x] else []
  {
    assert [x][..0] == [];
  }

  /** The places of the elements that satisfy `keep`, from the first to the last. */
  ghost predicate ArePlaces<T(!new)>(places: seq<nat>, s: seq<T>, keep: T -> bool) {
    && (forall k :: 0 <= k < |places| ==> places[k] < |s| && keep(s[places[k]]))
    && (forall j, k :: 0 <= j < k < |places| ==> places[j] < places[k])
    && (forall i: nat :: i < |s| && keep(s[i]) ==> i in places)
  }

  /** What a filter keeps are the elements at these places, in their order. */
  lemma {:induction false} FilterPlaces<T(!new)>(keep: T -> bool, s: seq<T>) returns (places: seq<nat>)
    ensures ArePlaces(places, s, keep) && |Filter(keep, s)| == |places|
    ensures forall k :: 0 <= k < |places| ==> Filter(keep, s)[k] == s[places[k]]
  {
    if s == [] {
      places := [];
    } else {
      var front := s[..|s| - 1];
      var before := FilterPlaces(keep, front);
      places := before + if keep(s[|s| - 1]) then [|s| - 1] else [];
      forall i: nat | i < |s| && keep(s[i]) ensures i in places {
        if i < |front| {
          assert keep(front[i]) && i in before;
        }
      }
      hide Filter;
    }
  }

  /** The table without the row at one place. */
  function Without<T>(s: seq<T>, k: nat): seq<T>
    requires k < |s|
  {
    s[..k] + s[k + 1..]
  }

  lemma FilterSkipsMiddle<T(!new)>(keep: T -> bool, a: seq<T>, x: T, b: seq<T>)
    requires !keep(x) && (forall y :: y in a ==> keep(y)) && forall y :: y in b ==> keep(y)
    ensures Filter(keep, (a + [x]) + b) == a + b
  {
    FilterAppend(keep, a + [x], b);
    FilterAppend(keep, a, [x]);
    FilterEverything(keep, a);
    FilterEverything(keep, b);
    FilterOne(keep, x);
    hide Filter;
    assert a + [] == a;
  }

  /** A filter that drops the element at one place and no other. */
  lemma FilterSkipsOne<T(!new)>(keep: T -> bool, s: seq<T>, k: nat)
    requires k < |s| && !keep(s[k]) && forall i :: 0 <= i < |s| && i != k ==> keep(s[i])
    ensures Filter(keep, s) == Without(s, k)
  {
    hide Filter;
    var a, b := s[..k], s[k + 1..];
    forall y | y in a ensures keep(y) {
      var i :| 0 <= i < |a| && a[i] == y;
      assert s[i] == y;
    }
    forall y | y in b ensures keep(y) {
      var i :| 0 <= i < |b| && b[i] == y;
      assert s[k + 1 + i] == y;
    }
    FilterSkipsMiddle(keep, a, s[k], b);
    assert (a + [s[k]]) + b == s;
  }

  /** The elements that satisfy `keep`, without their order. */
  ghost function KeptOf<T(!new)>(keep: T -> bool, s: seq<T>): set<T> {
    set x | x in s && keep(x)
  }

  lemma KeptOneMore<T(!new)>(keep: T -> bool, s: seq<T>, x: T)
    requires x !in s
    ensures |KeptOf(keep, s + [x])| == |KeptOf(keep, s)| + if keep(x) then 1 else 0
  {
    if keep(x) {
      assert KeptOf(keep, s + [x]) == KeptOf(keep, s) + {x};
    } else {
      assert KeptOf(keep, s + [x]) == KeptOf(keep, s);
    }
  }

  /** Of different elements, as many are kept as there are to keep. */
  lemma {:induction false} FilterCounts<T(!new)>(keep: T -> bool, s: seq<T>)
    requires forall i, j :: 0 <= i < j < |s| ==> s[i] != s[j]
    ensures |Filter(keep, s)| == |KeptOf(keep, s)|
  {
    if s != [] {
      var front, last := s[..|s| - 1], s[|s| - 1];
      FilterCounts(keep, front);
      hide KeptOf;
      KeptOneMore(keep, front, last);
      assert s == front + [last];
    }
  }

  /** Filtering looks only at the elements: two filters that agree on them agree. */
  lemma {:induction false} FilterSame<T(!new)>(keep: T -> bool, keep': T -> bool, s: seq<T>)
    requires forall x :: x in s ==> keep(x) == keep'(x)
    ensures Filter(keep, s) == Filter(keep', s)
  {
    if s != [] {
      FilterSame(keep, keep', s[..|s| - 1]);
    }
  }

  /** Dropping elements that `keep` drops anyway changes nothing that `keep` selects. */
  lemma {:induction false} FilterOfFilter<T(!new)>(keep: T -> bool, keep': T -> bool, s: seq<T>)
    requires forall x :: x in s && keep(x) ==> keep'(x)
    ensures Filter(keep, Filter(keep', s)) == Filter(keep, s)
  {
    if s != [] {
      var front, last := s[..|s| - 1], s[|s| - 1];
      FilterOfFilter(keep, keep', front);
      FilterAppend(keep, Filter(keep', front), if keep'(last) then [last] else []);
    }
  }

  function Map<T, U>(f: T -> U, s: seq<T>): (r: seq<U>)
    ensures |r| == |s| && forall i :: 0 <= i < |s| ==> r[i] == f(s[i])
  {
    seq(|s|, i requires 0 <= i < |s| => f(s[i]))
  }

  /** The first `n` elements, or all of them. */
  function First<T>(s: seq<T>, n: nat): (r: seq<T>)
    ensures r <= s && |r| == if |s| <= n then |s| else n
  {
    if |s| <= n then s else s[..n]
  }

  // ------------------------------------------------------------ permutations

  lemma RemovedAt<T>(s: seq<T>, k: nat)
    requires k < |s|
    ensures s == s[..k] + [s[k]] + s[k + 1..]
    ensures multiset(s[..k] + s[k + 1..]) == multiset(s) - multiset{s[k]}
  {}

  lemma MapRemovedAt<T, U>(f: T -> U, s: seq<T>, k: nat)
    requires k < |s|
    ensures multiset(Map(f, s)) == multiset(Map(f, s[..k] + s[k + 1..])) + multiset{f(s[k])}
  {
    var mapped := Map(f, s);
    RemovedAt(mapped, k);
    assert Map(f, s[..k] + s[k + 1..]) == mapped[..k] + mapped[k + 1..];
    assert mapped[k] in mapped;
  }

  lemma {:induction false} MapPermutes<T, U>(f: T -> U, a: seq<T>, b: seq<T>)
    requires multiset(a) == multiset(b)
    ensures multiset(Map(f, a)) == multiset(Map(f, b))
    decreases |a|
  {
    hide Map;
    if a == [] {
      assert |multiset(b)| == 0;
    } else {
      assert a[0] in multiset(b);
      var k :| 0 <= k < |b| && b[k] == a[0];
      RemovedAt(a, 0);
      RemovedAt(b, k);
      MapPermutes(f, a[..0] + a[1..], b[..k] + b[k + 1..]);
      MapRemovedAt(f, a, 0);
      MapRemovedAt(f, b, k);
    }
  }

  lemma CountedTwice<T>(s: seq<T>, i: nat, j: nat)
    requires i < j < |s| && s[i] == s[j]
    ensures multiset(s)[s[i]] >= 2
  {
    assert s == s[..j] + [s[j]] + s[j + 1..];
    assert s[i] == s[..j][i];
  }

  /** Rows that are pairwise different stay so in any order. */
  lemma PairwisePermutes<T(!new)>(distinct: (T, T) -> bool, a: seq<T>, b: seq<T>)
    requires Pairwise(distinct, a) && multiset(a) == multiset(b)
    requires forall x, y :: distinct(x, y) ==> distinct(y, x) && x != y
    ensures Pairwise(distinct, b)
  {
    forall i, j | 0 <= i < j < |b| ensures distinct(b[i], b[j]) {
      assert b[i] in multiset(a) && b[j] in multiset(a);
      var p :| 0 <= p < |a| && a[p] == b[i];
      var q :| 0 <= q < |a| && a[q] == b[j];
      if p == q {
        CountedTwice(b, i, j);
        CountedOnce(distinct, a, p);
      }
    }
  }

  lemma CountedOnce<T(!new)>(distinct: (T, T) -> bool, a: seq<T>, p: nat)
    requires Pairwise(distinct, a) && p < |a|
    requires forall x, y :: distinct(x, y) ==> x != y
    ensures multiset(a)[a[p]] == 1
  {
    assert a == a[..p] + [a[p]] + a[p + 1..];
    assert a[p] !in a[..p] && a[p] !in a[p + 1..];
  }

  // ------------------------------------------------------------ ORDER BY name ASC

  function Insert<T>(name: T -> string, x: T, s: seq<T>): (r: seq<T>)
    ensures |r| == |s| + 1
  {
    if s == [] || Less(name(x), name(s[0])) then [x] + s else [s[0]] + Insert(name, x, s[1..])
  }

  function SortBy<T>(name: T -> string, s: seq<T>): (r: seq<T>)
    ensures |r| == |s|
  {
    if s == [] then [] else Insert(name, s[|s| - 1], SortBy(name, s[..|s| - 1]))
  }

  lemma {:induction false} InsertPermutes<T>(name: T -> string, x: T, s: seq<T>)
    ensures multiset(Insert(name, x, s)) == multiset(s) + multiset{x}
  {
    if s != [] && !Less(name(x), name(s[0])) {
      InsertPermutes(name, x, s[1..]);
      assert s == [s[0]] + s[1..];
    }
  }

  lemma {:induction false} SortByPermutes<T>(name: T -> string, s: seq<T>)
    ensures multiset(SortBy(name, s)) == multiset(s)
  {
    if s != [] {
      SortByPermutes(name, s[..|s| - 1]);
      InsertPermutes(name, s[|s| - 1], SortBy(name, s[..|s| - 1]));
      assert s == s[..|s| - 1] + [s[|s| - 1]];
    }
  }

  ghost predicate SortedBy<T>(name: T -> string, s: seq<T>) {
    forall i, j :: 0 <= i < j < |s| ==> !Less(name(s[j]), name(s[i]))
  }

  lemma {:induction false} InsertSorts<T>(name: T -> string, x: T, s: seq<T>)
    requires SortedBy(name, s)
    ensures SortedBy(name, Insert(name, x, s))
  {
    var r := Insert(name, x, s);
    if s == [] {
    } else if Less(name(x), name(s[0])) {
      forall j | 1 <= j < |r| ensures !Less(name(r[j]), name(x)) {
        LessTotal(name(x), name(s[0]));
        LessTotal(name(s[0]), name(s[0]));
        NotLessTransitive(name(x), name(s[0]), name(s[j - 1]));
      }
    } else {
      InsertSorts(name, x, s[1..]);
      InsertPermutes(name, x, s[1..]);
      forall j | 1 <= j < |r| ensures !Less(name(r[j]), name(s[0])) {
        assert r[j] in multiset(Insert(name, x, s[1..]));
      }
    }
  }

  lemma {:induction false} SortBySorts<T>(name: T -> string, s: seq<T>)
    ensures SortedBy(name, SortBy(name, s))
  {
    if s != [] {
      SortBySorts(name, s[..|s| - 1]);
      InsertSorts(name, s[|s| - 1], SortBy(name, s[..|s| - 1]));
    }
  }

  /** Changing rows without changing their names does not change the order. */
  lemma {:induction false} InsertOfMap<T>(name: T -> string, f: T -> T, x: T, s: seq<T>)
    requires forall y :: y in s + [x] ==> name(f(y)) == name(y)
    ensures Insert(name, f(x), Map(f, s)) == Map(f, Insert(name, x, s))
  {
    assert x in s + [x];
    if s != [] {
      assert s[0] in s + [x];
      if !Less(name(x), name(s[0])) {
        InsertOfMap(name, f, x, s[1..]);
        assert Map(f, s)[1..] == Map(f, s[1..]);
      }
    }
  }

  lemma {:induction false} SortByOfMap<T>(name: T -> string, f: T -> T, s: seq<T>)
    requires forall y :: y in s ==> name(f(y)) == name(y)
    ensures SortBy(name, Map(f, s)) == Map(f, SortBy(name, s))
  {
    if s != [] {
      var front, last := s[..|s| - 1], s[|s| - 1];
      SortByOfMap(name, f, front);
      assert Map(f, s)[..|s| - 1] == Map(f, front);
      SortByPermutes(name, front);
      forall y | y in SortBy(name, front) + [last] ensures name(f(y)) == name(y) {
        if y != last {
          assert y in multiset(SortBy(name, front));
        }
      }
      InsertOfMap(name, f, last, SortBy(name, front));
    }
  }

  // ------------------------------------------------------------ row identifiers

  function MaxId(ids: seq<int>): (m: nat)
    ensures forall i :: i in ids ==> i <= m
    ensures m == 0 || m in ids
  {
    if ids == [] then 0
    else
      var m := MaxId(ids[1..]);
      assert forall i :: i in ids ==> i == ids[0] || i in ids[1..];
      if ids[0] > m then ids[0] else m
  }

  /** The rowid SQLite gives a new row of an INTEGER PRIMARY KEY table without AUTOINCREMENT. */
  function NextId(ids: seq<int>): (id: int)
    ensures 0 < id && id !in ids
    ensures forall i :: i in ids ==> i < id
  {
    MaxId(ids) + 1
  }
}
