/** Orders and sorting: Go's `sort` package as the services use it, and why sorting a map's keys gives
    a result that does not depend on the order in which the map was traversed. */
module Order {

  // ---------- bytewise order of strings ----------

  predicate StrLe(a: string, b: string) {
    if a == "" then true
    else if b == "" then false
    else if a[0] != b[0] then a[0] < b[0]
    else StrLe(a[1..], b[1..])
  }

  /** One is a prefix of the other, or the first character in which they differ decides. */
  lemma {:induction false} StrLeIff(a: string, b: string)
    ensures StrLe(a, b) <==> a <= b || exists i :: 0 <= i < |a| && i < |b| && a[..i] == b[..i] && a[i] < b[i]
  {
    if a != "" && b != "" && a[0] == b[0] {
      var c, s, t := a[0], a[1..], b[1..];
      assert a == [c] + s && b == [c] + t;
      StrLeIff(s, t);
      if i :| 0 <= i < |a| && i < |b| && a[..i] == b[..i] && a[i] < b[i] {
        assert s[..i - 1] == a[..i][1..] && t[..i - 1] == b[..i][1..];
        assert s[i - 1] < t[i - 1];
      }
      if i :| 0 <= i < |s| && i < |t| && s[..i] == t[..i] && s[i] < t[i] {
        assert a[..i + 1] == [c] + s[..i] && b[..i + 1] == [c] + t[..i];
        assert a[i + 1] < b[i + 1];
      }
    } else if a != "" && b != "" {
      assert a[..0] == b[..0];
    }
  }

  lemma {:induction false} StrLeTotal(a: string, b: string)
    ensures StrLe(a, b) || StrLe(b, a)
  {
    if a != "" && b != "" && a[0] == b[0] { StrLeTotal(a[1..], b[1..]); }
  }

  lemma {:induction false} StrLeTransitive(a: string, b: string, c: string)
    requires StrLe(a, b) && StrLe(b, c)
    ensures StrLe(a, c)
  {
    if a != "" && b != "" && c != "" && a[0] == b[0] == c[0] { StrLeTransitive(a[1..], b[1..], c[1..]); }
  }

  lemma {:induction false} StrLeAntisymmetric(a: string, b: string)
    requires StrLe(a, b) && StrLe(b, a)
    ensures a == b
  {
    if a != "" && b != "" {
      StrLeAntisymmetric(a[1..], b[1..]);
      assert a == [a[0]] + a[1..] && b == [b[0]] + b[1..];
    }
  }

  // ---------- sorting by any total preorder ----------

  ghost predicate TotalPreorder<T(!new)>(le: (T, T) -> bool) {
    && (forall x, y :: le(x, y) || le(y, x))
    && (forall x, y, z :: le(x, y) && le(y, z) ==> le(x, z))
  }

  ghost predicate Sorted<T>(xs: seq<T>, le: (T, T) -> bool) {
    forall i, j | 0 <= i < j < |xs| :: le(xs[i], xs[j])
  }

  function Insert<T>(x: T, xs: seq<T>, le: (T, T) -> bool): seq<T> {
    if xs == [] || le(x, xs[0]) then [x] + xs else [xs[0]] + Insert(x, xs[1..], le)
  }

  function Sort<T>(xs: seq<T>, le: (T, T) -> bool): seq<T> {
    if xs == [] then [] else Insert(xs[0], Sort(xs[1..], le), le)
  }

  lemma {:induction false} InsertMultiset<T>(x: T, xs: seq<T>, le: (T, T) -> bool)
    ensures multiset(Insert(x, xs, le)) == multiset{x} + multiset(xs)
  {
    if !(xs == [] || le(x, xs[0])) {
      InsertMultiset(x, xs[1..], le);
      assert xs == [xs[0]] + xs[1..];
    }
  }

  /** Sorting permutes. */
  lemma {:induction false} SortMultiset<T>(xs: seq<T>, le: (T, T) -> bool)
    ensures multiset(Sort(xs, le)) == multiset(xs)
    ensures |Sort(xs, le)| == |xs|
  {
    if xs != [] {
      SortMultiset(xs[1..], le);
      InsertMultiset(xs[0], Sort(xs[1..], le), le);
      assert xs == [xs[0]] + xs[1..];
    }
    assert |multiset(Sort(xs, le))| == |Sort(xs, le)|;
  }

  lemma SortMembers<T>(xs: seq<T>, le: (T, T) -> bool)
    ensures forall x :: x in Sort(xs, le) <==> x in xs
  {
    SortMultiset(xs, le);
    forall x ensures x in Sort(xs, le) <==> x in xs {
      assert x in multiset(Sort(xs, le)) <==> x in Sort(xs, le);
      assert x in multiset(xs) <==> x in xs;
    }
  }

  lemma {:induction false} InsertSorted<T(!new)>(x: T, xs: seq<T>, le: (T, T) -> bool)
    requires TotalPreorder(le) && Sorted(xs, le)
    ensures Sorted(Insert(x, xs, le), le)
  {
    if !(xs == [] || le(x, xs[0])) {
      InsertSorted(x, xs[1..], le);
      InsertMultiset(x, xs[1..], le);
      var t := Insert(x, xs[1..], le);
      forall k | 0 <= k < |t| ensures le(xs[0], t[k]) {
        assert t[k] in multiset(t);
        if t[k] != x {
          assert t[k] in xs[1..];
        }
      }
    }
  }

  lemma {:induction false} SortSorted<T(!new)>(xs: seq<T>, le: (T, T) -> bool)
    requires TotalPreorder(le)
    ensures Sorted(Sort(xs, le), le)
  {
    if xs != [] {
      SortSorted(xs[1..], le);
      InsertSorted(xs[0], Sort(xs[1..], le), le);
    }
  }

  /** Elements tied by the order are equal. */
  ghost predicate Separates<T>(xs: seq<T>, le: (T, T) -> bool) {
    forall x, y | x in xs && y in xs && le(x, y) && le(y, x) :: x == y
  }

  lemma HeadAndTail<T>(xs: seq<T>)
    requires xs != []
    ensures multiset(xs) == multiset{xs[0]} + multiset(xs[1..])
  {
    assert xs == [xs[0]] + xs[1..];
  }

  lemma SameMembers<T>(xs: seq<T>, ys: seq<T>)
    requires multiset(xs) == multiset(ys)
    ensures |xs| == |ys|
    ensures forall x | x in xs :: x in ys
  {
    assert |multiset(xs)| == |xs| && |multiset(ys)| == |ys|;
    forall x | x in xs ensures x in ys {
      assert x in multiset(ys);
    }
  }

  lemma SameHead<T>(xs: seq<T>, ys: seq<T>, le: (T, T) -> bool)
    requires multiset(xs) == multiset(ys) && xs != [] && ys != []
    requires Sorted(xs, le) && Sorted(ys, le) && Separates(xs, le)
    ensures xs[0] == ys[0]
  {
    SameMembers(xs, ys);
    SameMembers(ys, xs);
    assert xs[0] in ys && ys[0] in xs;
    var i :| 0 <= i < |ys| && ys[i] == xs[0];
    var j :| 0 <= j < |xs| && xs[j] == ys[0];
    if i != 0 && j != 0 {
      assert le(ys[0], ys[i]) && le(xs[0], xs[j]);
    }
  }

  /** Two sorted arrangements of the same elements coincide. */
  lemma {:induction false} SortedUnique<T>(xs: seq<T>, ys: seq<T>, le: (T, T) -> bool)
    requires multiset(xs) == multiset(ys)
    requires Sorted(xs, le) && Sorted(ys, le) && Separates(xs, le)
    ensures xs == ys
  {
    SameMembers(xs, ys);
    if xs != [] {
      SameHead(xs, ys, le);
      HeadAndTail(xs);
      HeadAndTail(ys);
      assert multiset(xs[1..]) == multiset(xs) - multiset{xs[0]};
      assert multiset(ys[1..]) == multiset(xs) - multiset{xs[0]};
      SortedUnique(xs[1..], ys[1..], le);
      assert xs == [xs[0]] + xs[1..] && ys == [ys[0]] + ys[1..];
    }
  }

  /** Sorting forgets the order of its input. */
  lemma SortForgetsOrder<T(!new)>(xs: seq<T>, ys: seq<T>, le: (T, T) -> bool)
    requires TotalPreorder(le) && multiset(xs) == multiset(ys) && Separates(xs, le)
    ensures Sort(xs, le) == Sort(ys, le)
  {
    SortMultiset(xs, le);
    SortMultiset(ys, le);
    SortSorted(xs, le);
    SortSorted(ys, le);
    SortMembers(xs, le);
    SortedUnique(Sort(xs, le), Sort(ys, le), le);
  }

  // ---------- enumerating a set ----------

  /** Some traversal of a set: what ranging over a Go map yields. */
  ghost function Enumerate<T(!new)>(s: set<T>): (r: seq<T>)
    ensures multiset(r) == multiset(s)
    ensures |r| == |s|
    ensures forall x :: x in r <==> x in s
  {
    if s == {} then []
    else
      var x :| x in s;
      var rest := Enumerate(s - {x});
      assert s == {x} + (s - {x});
      assert multiset([x] + rest) == multiset{x} + multiset(rest);
      [x] + rest
  }

  ghost predicate Distinct<T>(xs: seq<T>) {
    forall i, j | 0 <= i < j < |xs| :: xs[i] != xs[j]
  }

  lemma {:induction false} MultisetOfDistinct<T>(xs: seq<T>)
    requires Distinct(xs)
    ensures multiset(xs) == multiset(set x | x in xs)
  {
    if xs != [] {
      var h, t := xs[0], xs[1..];
      MultisetOfDistinct(t);
      assert xs == [h] + t;
      assert (set x | x in xs) == {h} + (set x | x in t);
      assert h !in t;
    }
  }

  lemma CountTwice<T>(xs: seq<T>, i: nat, j: nat)
    requires i < j < |xs| && xs[i] == xs[j]
    ensures multiset(xs)[xs[i]] >= 2
  {
    assert xs == xs[..i] + [xs[i]] + xs[i + 1..j] + [xs[j]] + xs[j + 1..];
  }

  lemma DistinctOfSet<T>(xs: seq<T>, s: set<T>)
    requires multiset(xs) == multiset(s)
    ensures Distinct(xs)
    ensures forall x :: x in xs <==> x in s
  {
    forall i, j | 0 <= i < j < |xs| ensures xs[i] != xs[j] {
      if xs[i] == xs[j] {
        CountTwice(xs, i, j);
        assert false;
      }
    }
    forall x ensures x in xs <==> x in s {
      assert x in xs <==> x in multiset(xs);
      assert x in s <==> x in multiset(s);
    }
  }

  lemma StrLeOrders(xs: seq<string>)
    ensures TotalPreorder(StrLe) && Separates(xs, StrLe)
  {
    forall x, y ensures StrLe(x, y) || StrLe(y, x) { StrLeTotal(x, y); }
    forall x, y, z | StrLe(x, y) && StrLe(y, z) ensures StrLe(x, z) { StrLeTransitive(x, y, z); }
    forall x, y | x in xs && y in xs && StrLe(x, y) && StrLe(y, x) ensures x == y { StrLeAntisymmetric(x, y); }
  }

  /** The keys of a map in sorted order, as sort.Strings leaves them. */
  ghost function SortedKeys<V>(m: map<string, V>): (r: seq<string>)
    ensures multiset(r) == multiset(m.Keys)
    ensures Sorted(r, StrLe) && Distinct(r)
    ensures forall k :: k in r <==> k in m
  {
    var xs := Enumerate(m.Keys);
    SortMultiset(xs, StrLe);
    StrLeOrders(xs);
    SortSorted(xs, StrLe);
    DistinctOfSet(Sort(xs, StrLe), m.Keys);
    Sort(xs, StrLe)
  }

  /** Whatever order a traversal of the map has, sorting it gives SortedKeys. */
  lemma SortedKeysOfTraversal<V>(m: map<string, V>, xs: seq<string>)
    requires multiset(xs) == multiset(m.Keys)
    ensures Sort(xs, StrLe) == SortedKeys(m)
  {
    StrLeOrders(xs);
    SortForgetsOrder(xs, Enumerate(m.Keys), StrLe);
  }

  /** Collecting the keys while ranging over a map, in whatever order it yields them. */
  method CollectKeys<V>(m: map<string, V>) returns (keys: seq<string>)
    ensures multiset(keys) == multiset(m.Keys)
  {
    keys := [];
    var left := m.Keys;
    while left != {}
      invariant left <= m.Keys && multiset(keys) + multiset(left) == multiset(m.Keys)
      decreases left
    {
      var k :| k in left;
      assert multiset(left) == multiset(left - {k}) + multiset{k};
      assert multiset(keys + [k]) == multiset(keys) + multiset{k};
      keys := keys + [k];
      left := left - {k};
    }
  }

  /** ... and sorting them. */
  method SortedMapKeys<V>(m: map<string, V>) returns (keys: seq<string>)
    ensures keys == SortedKeys(m)
  {
    keys := CollectKeys(m);
    SortedKeysOfTraversal(m, keys);
    keys := Sort(keys, StrLe);
  }
}
