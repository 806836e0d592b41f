/**
 Text and name-list helpers shared by the components: white-space trimming,
 the order in which sorted names are visited, sorting, and duplicate removal.
 */
module Names {

  datatype Option<+T> = None | Some(value: T)

  // ---------- Trimming ----------

  /** Go's unicode.IsSpace. */
  predicate IsSpace(c: char) {
    var n := c as int;
    9 <= n <= 13 || n == 32 || n == 0x85 || n == 0xA0 || n == 0x1680 || 0x2000 <= n <= 0x200A ||
    n == 0x2028 || n == 0x2029 || n == 0x202F || n == 0x205F || n == 0x3000
  }

  function TrimLeft(s: string): (r: string)
    ensures |r| <= |s|
    ensures r == "" || !IsSpace(r[0])
    ensures forall c :: c in r ==> c in s
    ensures s != "" && !IsSpace(s[0]) ==> r == s
  {
    if s == "" || !IsSpace(s[0]) then s else TrimLeft(s[1..])
  }

  function TrimRight(s: string): (r: string)
    ensures r <= s
    ensures r == "" || !IsSpace(r[|r| - 1])
    ensures s != "" && !IsSpace(s[|s| - 1]) ==> r == s
  {
    if s == "" || !IsSpace(s[|s| - 1]) then s else TrimRight(s[..|s| - 1])
  }

  function Trim(s: string): (r: string)
    ensures r == "" || (!IsSpace(r[0]) && !IsSpace(r[|r| - 1]))
    ensures forall c :: c in r ==> c in s
  {
    TrimRight(TrimLeft(s))
  }

  predicate Trimmed(s: string) {
    s == "" || (!IsSpace(s[0]) && !IsSpace(s[|s| - 1]))
  }

  lemma TrimTrimmed(s: string)
    requires Trimmed(s)
    ensures Trim(s) == s
  {
  }

  // ---------- Decimal text ----------

  function Digits(n: nat): string {
    (if n < 10 then "" else Digits(n / 10)) + [('0' as int + n % 10) as char]
  }

  function Itoa(n: int): string {
    if n < 0 then "-" + Digits(-n) else Digits(n)
  }

  // ---------- The order of sort.Strings ----------

  /** Strict lexicographic order. */
  predicate Below(a: string, b: string) {
    b != "" && (a == "" || a[0] < b[0] || (a[0] == b[0] && Below(a[1..], b[1..])))
  }

  lemma {:induction false} BelowTrans(a: string, b: string, c: string)
    requires Below(a, b) && Below(b, c)
    ensures Below(a, c)
  {
    if a != "" && a[0] == b[0] && b[0] == c[0] { BelowTrans(a[1..], b[1..], c[1..]); }
  }

  lemma {:induction false} BelowTotal(a: string, b: string)
    ensures Below(a, b) || Below(b, a) || a == b
    ensures !(Below(a, b) && Below(b, a))
    ensures !Below(a, a)
  {
    if a != "" { BelowTotal(a[1..], a[1..]); }
    if a != "" && b != "" && a[0] == b[0] {
      BelowTotal(a[1..], b[1..]);
      assert a == [a[0]] + a[1..] && b == [b[0]] + b[1..];
    }
  }

  /** Non-descending. */
  ghost predicate Sorted(xs: seq<string>) {
    forall i, j :: 0 <= i < j < |xs| ==> !Below(xs[j], xs[i])
  }

  /** Strictly ascending, so also free of duplicates. */
  ghost predicate Ascending(xs: seq<string>) {
    forall i, j :: 0 <= i < j < |xs| ==> Below(xs[i], xs[j])
  }

  ghost predicate Distinct<T>(xs: seq<T>) {
    forall i, j :: 0 <= i < j < |xs| ==> xs[i] != xs[j]
  }

  ghost function Elems<T>(xs: seq<T>): set<T> {
    set x | x in xs
  }

  lemma ElemsEmpty<T>(xs: seq<T>)
    ensures Elems(xs) == {} <==> xs == []
  {
    if xs != [] { assert xs[0] in Elems(xs); }
  }

  function Insert(x: string, xs: seq<string>): (r: seq<string>)
    ensures multiset(r) == multiset(xs) + multiset{x}
  {
    if xs == [] || Below(x, xs[0]) then [x] + xs
    else
      assert xs == [xs[0]] + xs[1..];
      [xs[0]] + Insert(x, xs[1..])
  }

  function Sort(xs: seq<string>): (r: seq<string>)
    ensures multiset(r) == multiset(xs)
  {
    if xs == [] then []
    else
      assert xs == [xs[0]] + xs[1..];
      Insert(xs[0], Sort(xs[1..]))
  }

  lemma MultisetMember<T>(xs: seq<T>, ys: seq<T>)
    requires multiset(xs) == multiset(ys)
    ensures |xs| == |ys|
    ensures forall x :: x in xs <==> x in ys
  {
    assert |multiset(xs)| == |xs| && |multiset(ys)| == |ys|;
    forall x ensures x in xs <==> x in ys {
      assert x in xs <==> x in multiset(xs);
      assert x in ys <==> x in multiset(ys);
    }
  }

  lemma {:induction false} InsertSorted(x: string, xs: seq<string>)
    requires Sorted(xs)
    ensures Sorted(Insert(x, xs))
  {
    if xs == [] {
    } else if Below(x, xs[0]) {
      forall i | 0 <= i < |xs| ensures !Below(xs[i], x) {
        BelowTotal(x, xs[i]);
        if i > 0 && Below(xs[i], x) { BelowTrans(xs[i], x, xs[0]); }
      }
    } else {
      InsertSorted(x, xs[1..]);
      var r := Insert(x, xs[1..]);
      forall i | 0 <= i < |r| ensures !Below(r[i], xs[0]) {
        assert r[i] in multiset(r);
        assert r[i] == x || r[i] in xs[1..];
      }
    }
  }

  lemma {:induction false} SortSorted(xs: seq<string>)
    ensures Sorted(Sort(xs))
  {
    if xs != [] {
      SortSorted(xs[1..]);
      InsertSorted(xs[0], Sort(xs[1..]));
    }
  }

  /** A non-descending list is determined by its multiset of members. */
  lemma {:induction false} SortedUnique(xs: seq<string>, ys: seq<string>)
    requires Sorted(xs) && Sorted(ys)
    requires multiset(xs) == multiset(ys)
    ensures xs == ys
  {
    MultisetMember(xs, ys);
    if xs != [] {
      SameHead(xs, ys);
      assert xs == [xs[0]] + xs[1..] && ys == [ys[0]] + ys[1..];
      assert multiset(xs[1..]) == multiset(xs) - multiset{xs[0]};
      assert multiset(ys[1..]) == multiset(ys) - multiset{ys[0]};
      SortedUnique(xs[1..], ys[1..]);
    }
  }

  lemma SameHead(xs: seq<string>, ys: seq<string>)
    requires Sorted(xs) && Sorted(ys) && xs != [] && ys != []
    requires xs[0] in ys && ys[0] in xs
    ensures xs[0] == ys[0]
  {
    var i :| 0 <= i < |ys| && ys[i] == xs[0];
    var j :| 0 <= j < |xs| && xs[j] == ys[0];
    BelowTotal(xs[0], ys[0]);
  }

  lemma AscendingDistinct(xs: seq<string>)
    requires Ascending(xs)
    ensures Distinct(xs) && Sorted(xs)
  {
    forall i, j | 0 <= i < j < |xs| ensures xs[i] != xs[j] && !Below(xs[j], xs[i]) {
      BelowTotal(xs[i], xs[j]);
    }
  }

  lemma SortedDistinctAscending(xs: seq<string>)
    requires Sorted(xs) && Distinct(xs)
    ensures Ascending(xs)
  {
    forall i, j | 0 <= i < j < |xs| ensures Below(xs[i], xs[j]) {
      BelowTotal(xs[i], xs[j]);
    }
  }

  lemma DistinctMultiset<T>(xs: seq<T>)
    requires Distinct(xs)
    ensures multiset(xs) == multiset(Elems(xs))
    ensures |Elems(xs)| == |xs|
  {
    forall x ensures multiset(xs)[x] == multiset(Elems(xs))[x] {
      DistinctCount(xs, x);
    }
    assert |multiset(Elems(xs))| == |Elems(xs)|;
    assert |multiset(xs)| == |xs|;
  }

  lemma {:induction false} DistinctCount<T>(xs: seq<T>, x: T)
    requires Distinct(xs)
    ensures multiset(xs)[x] == if x in xs then 1 else 0
  {
    if xs != [] {
      DistinctCount(xs[1..], x);
      assert xs == [xs[0]] + xs[1..];
    }
  }

  lemma NextOf<T>(xs: seq<T>, i: nat)
    requires Distinct(xs) && i < |xs|
    ensures xs[..i + 1] == xs[..i] + [xs[i]] && xs[i] !in xs[..i]
  {
  }

  lemma MultisetDistinct<T>(xs: seq<T>, ys: seq<T>)
    requires multiset(xs) == multiset(ys) && Distinct(xs)
    ensures Distinct(ys)
  {
    forall i, j | 0 <= i < j < |ys| ensures ys[i] != ys[j] {
      assert ys == ys[..i] + [ys[i]] + ys[i + 1..j] + [ys[j]] + ys[j + 1..];
      DistinctCount(xs, ys[i]);
    }
  }

  /** A strictly ascending list is determined by its set of members. */
  lemma AscendingUnique(xs: seq<string>, ys: seq<string>)
    requires Ascending(xs) && Ascending(ys)
    requires Elems(xs) == Elems(ys)
    ensures xs == ys
  {
    AscendingDistinct(xs);
    AscendingDistinct(ys);
    DistinctMultiset(xs);
    DistinctMultiset(ys);
    SortedUnique(xs, ys);
  }

  /** The members of a finite set in ascending order. */
  ghost function SortedNames(s: set<string>): (r: seq<string>)
    ensures Elems(r) == s
    ensures Ascending(r)
  {
    if s == {} then []
    else
      LeastExists(s);
      var x :| x in s && forall y :: y in s ==> !Below(y, x);
      var rest := SortedNames(s - {x});
      assert forall y :: y in rest ==> y in Elems(rest);
      assert forall y :: y in rest ==> Below(x, y) by {
        forall y | y in rest ensures Below(x, y) { BelowTotal(x, y); }
      }
      assert Elems([x] + rest) == {x} + Elems(rest);
      [x] + rest
  }

  lemma {:induction false} LeastExists(s: set<string>)
    requires s != {}
    ensures exists x :: x in s && forall y :: y in s ==> !Below(y, x)
  {
    var a :| a in s;
    BelowTotal(a, a);
    var rest := s - {a};
    if rest == {} {
      assert forall y :: y in s && y != a ==> y in rest;
    } else {
      LeastExists(rest);
      var b :| b in rest && forall y :: y in rest ==> !Below(y, b);
      LeastOfTwo(s, a, b);
    }
  }

  lemma LeastOfTwo(s: set<string>, a: string, b: string)
    requires a in s && b in s && !Below(a, a)
    requires forall y :: y in s && y != a ==> !Below(y, b)
    ensures exists x :: x in s && forall y :: y in s ==> !Below(y, x)
  {
    if Below(a, b) {
      forall y | y in s ensures !Below(y, a) {
        if y != a && Below(y, a) { BelowTrans(y, a, b); }
      }
    } else {
      assert forall y :: y in s ==> !Below(y, b);
    }
  }

  /** The keys of a set in an arbitrary order, as ranging over a Go map gives them. */
  method Keys<T(==)>(s: set<T>) returns (r: seq<T>)
    ensures Elems(r) == s
    ensures Distinct(r)
  {
    r := [];
    var todo := s;
    while todo != {}
      invariant todo <= s
      invariant Elems(r) == s - todo
      invariant Distinct(r)
      decreases todo
    {
      var x :| x in todo;
      assert x !in Elems(r);
      assert Elems(r + [x]) == Elems(r) + {x};
      r := r + [x];
      todo := todo - {x};
    }
  }

  /** lo.Keys followed by sort.Strings. */
  method SortedKeys(s: set<string>) returns (r: seq<string>)
    ensures r == SortedNames(s)
  {
    var keys := Keys(s);
    r := Sort(keys);
    SortSorted(keys);
    MultisetDistinct(keys, r);
    SortedDistinctAscending(r);
    MultisetMember(keys, r);
    assert Elems(r) == Elems(keys);
    AscendingUnique(r, SortedNames(s));
  }

  // ---------- Filtering and duplicate removal ----------

  /** lo.Filter. */
  function Filter<T(!new)>(xs: seq<T>, keep: T -> bool): (r: seq<T>)
    ensures |r| <= |xs|
    ensures forall x :: x in r <==> x in xs && keep(x)
  {
    PickedMembers(xs, keep);
    Picked(xs, keep)
  }

  function Picked<T>(xs: seq<T>, keep: T -> bool): seq<T> {
    if xs == [] then [] else (if keep(xs[0]) then [xs[0]] else []) + Picked(xs[1..], keep)
  }

  lemma {:induction false} PickedMembers<T(!new)>(xs: seq<T>, keep: T -> bool)
    ensures |Picked(xs, keep)| <= |xs|
    ensures forall x :: x in Picked(xs, keep) <==> x in xs && keep(x)
  {
    if xs != [] {
      PickedMembers(xs[1..], keep);
      assert xs == [xs[0]] + xs[1..];
    }
  }

  lemma ConcatAssoc<T>(a: seq<T>, b: seq<T>, c: seq<T>)
    ensures a + (b + c) == (a + b) + c
  {
  }

  lemma {:induction false} PickedAppend<T(!new)>(xs: seq<T>, ys: seq<T>, keep: T -> bool)
    ensures Picked(xs + ys, keep) == Picked(xs, keep) + Picked(ys, keep)
  {
    if xs == [] {
      assert xs + ys == ys;
    } else {
      var head := if keep(xs[0]) then [xs[0]] else [];
      assert (xs + ys)[0] == xs[0] && (xs + ys)[1..] == xs[1..] + ys;
      PickedAppend(xs[1..], ys, keep);
      ConcatAssoc(head, Picked(xs[1..], keep), Picked(ys, keep));
    }
  }

  lemma FilterAppend<T(!new)>(xs: seq<T>, ys: seq<T>, keep: T -> bool)
    ensures Filter(xs + ys, keep) == Filter(xs, keep) + Filter(ys, keep)
  {
    PickedAppend(xs, ys, keep);
  }

  lemma {:induction false} FilterDistinct<T(!new)>(xs: seq<T>, keep: T -> bool)
    requires Distinct(xs)
    ensures Distinct(Filter(xs, keep))
  {
    if xs != [] { FilterDistinct(xs[1..], keep); }
  }

  lemma {:induction false} FilterAscending(xs: seq<string>, keep: string -> bool)
    requires Ascending(xs)
    ensures Ascending(Filter(xs, keep))
  {
    if xs != [] {
      FilterAscending(xs[1..], keep);
      assert forall y :: y in xs[1..] ==> Below(xs[0], y);
    }
  }

  lemma {:induction false} FilterNone<T(!new)>(xs: seq<T>, keep: T -> bool)
    ensures Filter(xs, keep) == [] <==> forall x :: x in xs ==> !keep(x)
  {
    if xs != [] { FilterNone(xs[1..], keep); }
  }

  lemma FilterOne<T(!new)>(x: T, keep: T -> bool)
    ensures Filter([x], keep) == if keep(x) then [x] else []
  {
    assert [x][1..] == [];
    assert Picked([x], keep) == (if keep(x) then [x] else []) + Picked([], keep);
  }

  lemma FilterSnoc<T(!new)>(xs: seq<T>, x: T, keep: T -> bool)
    ensures Filter(xs + [x], keep) == Filter(xs, keep) + if keep(x) then [x] else []
  {
    FilterAppend(xs, [x], keep);
    FilterOne(x, keep);
  }

  lemma {:induction false} FilterSame<T(!new)>(xs: seq<T>, keep: T -> bool, also: T -> bool)
    requires forall x :: x in xs ==> keep(x) == also(x)
    ensures Filter(xs, keep) == Filter(xs, also)
  {
    if xs != [] { FilterSame(xs[1..], keep, also); }
  }

  lemma {:induction false} FilterAll<T(!new)>(xs: seq<T>, keep: T -> bool)
    ensures Filter(xs, keep) == xs <==> forall x :: x in xs ==> keep(x)
  {
    if xs != [] {
      FilterAll(xs[1..], keep);
      assert xs == [xs[0]] + xs[1..];
    }
  }

  /** lo.Uniq: the first occurrence of every member, in order. */
  function Uniq<T(==,!new)>(xs: seq<T>): (r: seq<T>)
    ensures forall x :: x in r <==> x in xs
    ensures Distinct(r)
  {
    if xs == [] then []
    else
      var front := Uniq(xs[..|xs| - 1]);
      var last := xs[|xs| - 1];
      assert forall x :: x in xs <==> x in xs[..|xs| - 1] || x == last;
      if last in front then front else front + [last]
  }

  lemma {:induction false} UniqDistinct<T(!new)>(xs: seq<T>)
    requires Distinct(xs)
    ensures Uniq(xs) == xs
  {
    if xs != [] {
      UniqDistinct(xs[..|xs| - 1]);
      assert xs == xs[..|xs| - 1] + [xs[|xs| - 1]];
    }
  }

  /** lo.Map. */
  function Map<S, T>(xs: seq<S>, f: S -> T): (r: seq<T>)
    ensures |r| == |xs|
    ensures forall i :: 0 <= i < |xs| ==> r[i] == f(xs[i])
  {
    seq(|xs|, i requires 0 <= i < |xs| => f(xs[i]))
  }

  ghost function ValuesAt<K, V>(ks: seq<K>, m: map<K, V>): set<V> {
    set k | k in ks && k in m :: m[k]
  }

  lemma ValuesAtSnoc<K, V>(ks: seq<K>, k: K, m: map<K, V>)
    requires k in m
    ensures ValuesAt(ks + [k], m) == ValuesAt(ks, m) + {m[k]}
  {
    assert k in ks + [k];
  }

  lemma ValuesAtAll<K, V>(ks: seq<K>, m: map<K, V>)
    requires Elems(ks) == m.Keys
    ensures ValuesAt(ks, m) == m.Values
  {
    forall v | v in m.Values ensures v in ValuesAt(ks, m) {
      var k :| k in m && m[k] == v;
      assert k in Elems(ks);
    }
  }

  lemma ValuesExtend<K, V>(d: map<K, V>, k: K, v: V)
    requires k !in d
    ensures d[k := v].Values == d.Values + {v}
  {
    var e := d[k := v];
    assert e[k] == v;
    forall x | x in d.Values ensures x in e.Values {
      var j :| j in d && d[j] == x;
      assert j in e && e[j] == x;
    }
  }

  function RemoveAt<T>(xs: seq<T>, k: nat): seq<T>
    requires k < |xs|
  {
    xs[..k] + xs[k + 1..]
  }

  lemma RemoveAtMultiset<T>(xs: seq<T>, k: nat)
    requires k < |xs|
    ensures multiset(RemoveAt(xs, k)) == multiset(xs) - multiset{xs[k]}
    ensures multiset(xs) == multiset(RemoveAt(xs, k)) + multiset{xs[k]}
  {
    var front, back := xs[..k], xs[k + 1..];
    assert xs == front + [xs[k]] + back;
    assert multiset(xs) == multiset(front) + multiset{xs[k]} + multiset(back);
    assert multiset(front + back) == multiset(front) + multiset(back);
  }

  /** Mapping takes reorderings to reorderings. */
  lemma {:induction false} MapPermutation<S(!new), T>(xs: seq<S>, ys: seq<S>, f: S -> T)
    requires multiset(xs) == multiset(ys)
    ensures multiset(Map(xs, f)) == multiset(Map(ys, f))
    decreases |xs|
  {
    MultisetMember(xs, ys);
    if xs != [] {
      assert xs[0] in ys;
      var k :| 0 <= k < |ys| && ys[k] == xs[0];
      RemoveAtMultiset(ys, k);
      RemoveAtMultiset(xs, 0);
      MapPermutation(RemoveAt(xs, 0), RemoveAt(ys, k), f);
      MapRemoveAt(xs, 0, f);
      MapRemoveAt(ys, k, f);
    }
  }

  lemma MapRemoveAt<S, T>(xs: seq<S>, k: nat, f: S -> T)
    requires k < |xs|
    ensures multiset(Map(xs, f)) == multiset(Map(RemoveAt(xs, k), f)) + multiset{f(xs[k])}
  {
    RemoveAtMultiset(Map(xs, f), k);
    assert RemoveAt(Map(xs, f), k) == Map(RemoveAt(xs, k), f);
  }

  /** Filtering takes reorderings to reorderings. */
  lemma {:induction false} FilterPermutation<T(!new)>(xs: seq<T>, ys: seq<T>, keep: T -> bool)
    requires multiset(xs) == multiset(ys)
    ensures multiset(Filter(xs, keep)) == multiset(Filter(ys, keep))
  {
    forall x ensures multiset(Filter(xs, keep))[x] == multiset(Filter(ys, keep))[x] {
      FilterCount(xs, keep, x);
      FilterCount(ys, keep, x);
    }
  }

  lemma {:induction false} FilterCount<T(!new)>(xs: seq<T>, keep: T -> bool, x: T)
    ensures multiset(Filter(xs, keep))[x] == if keep(x) then multiset(xs)[x] else 0
  {
    if xs != [] {
      FilterCount(xs[1..], keep, x);
      assert xs == [xs[0]] + xs[1..];
    }
  }
}
