/** The loop shapes the services use over a list: keep, transform, concatenate, check one by one, and
    collect until the first error. */
module Lists {
  import opened Wrappers
  import opened Order

  function Filter<T>(p: T -> bool, xs: seq<T>): seq<T> {
    if xs == [] then [] else (if p(xs[0]) then [xs[0]] else []) + Filter(p, xs[1..])
  }

  lemma {:induction false} FilterMembers<T>(p: T -> bool, xs: seq<T>)
    ensures forall x :: x in Filter(p, xs) <==> x in xs && p(x)
  {
    if xs != [] {
      FilterMembers(p, xs[1..]);
      assert xs == [xs[0]] + xs[1..];
    }
  }

  lemma {:induction false} FilterDistinct<T>(p: T -> bool, xs: seq<T>)
    requires Distinct(xs)
    ensures Distinct(Filter(p, xs))
  {
    if xs != [] {
      FilterDistinct(p, xs[1..]);
      FilterMembers(p, xs[1..]);
    }
  }

  lemma {:induction false} FilterSorted<T(!new)>(p: T -> bool, xs: seq<T>, le: (T, T) -> bool)
    requires Sorted(xs, le)
    ensures Sorted(Filter(p, xs), le)
  {
    if xs != [] {
      var rest := xs[1..];
      var kept := Filter(p, rest);
      FilterSorted(p, rest, le);
      FilterMembers(p, rest);
      forall k | 0 <= k < |kept| ensures le(xs[0], kept[k]) {
        assert kept[k] in kept;
        var j :| 0 <= j < |rest| && rest[j] == kept[k];
        assert xs[j + 1] == kept[k];
      }
    }
  }

  lemma Associative<T>(a: seq<T>, b: seq<T>, c: seq<T>)
    ensures (a + b) + c == a + (b + c)
  {
  }

  lemma HeadOfConcat<T>(a: seq<T>, b: seq<T>)
    requires a != []
    ensures a == [a[0]] + a[1..] && a + b == [a[0]] + (a[1..] + b)
  {
  }

  lemma FilterCons<T>(p: T -> bool, x: T, xs: seq<T>)
    ensures Filter(p, [x] + xs) == (if p(x) then [x] else []) + Filter(p, xs)
  {
    assert ([x] + xs)[1..] == xs;
  }

  lemma {:induction false} FilterConcat<T>(p: T -> bool, a: seq<T>, b: seq<T>)
    ensures Filter(p, a + b) == Filter(p, a) + Filter(p, b)
  {
    if a == [] {
      assert a + b == b;
    } else {
      FilterConcat(p, a[1..], b);
      HeadOfConcat(a, b);
      FilterCons(p, a[0], a[1..]);
      FilterCons(p, a[0], a[1..] + b);
      Associative(if p(a[0]) then [a[0]] else [], Filter(p, a[1..]), Filter(p, b));
    }
  }

  /** One step of a filtering loop. */
  lemma FilterStep<T>(p: T -> bool, xs: seq<T>, i: nat)
    requires i < |xs|
    ensures Filter(p, xs[..i + 1]) == Filter(p, xs[..i]) + (if p(xs[i]) then [xs[i]] else [])
  {
    assert xs[..i + 1] == xs[..i] + [xs[i]];
    FilterConcat(p, xs[..i], [xs[i]]);
  }

  lemma {:induction false} FilterNothing<T>(p: T -> bool, xs: seq<T>)
    requires forall x | x in xs :: !p(x)
    ensures Filter(p, xs) == []
  {
    if xs != [] {
      assert xs[0] in xs;
      FilterNothing(p, xs[1..]);
    }
  }

  function Each<T, U>(f: T -> U, xs: seq<T>): (ys: seq<U>)
    ensures |ys| == |xs| && forall i | 0 <= i < |xs| :: ys[i] == f(xs[i])
  {
    seq(|xs|, i requires 0 <= i < |xs| => f(xs[i]))
  }

  function Flat<K, T>(f: K -> seq<T>, xs: seq<K>): seq<T> {
    if xs == [] then [] else f(xs[0]) + Flat(f, xs[1..])
  }

  lemma FlatCons<K, T>(f: K -> seq<T>, x: K, xs: seq<K>)
    ensures Flat(f, [x] + xs) == f(x) + Flat(f, xs)
  {
    assert ([x] + xs)[1..] == xs;
  }

  lemma {:induction false} FlatConcat<K, T>(f: K -> seq<T>, a: seq<K>, b: seq<K>)
    ensures Flat(f, a + b) == Flat(f, a) + Flat(f, b)
  {
    if a == [] {
      assert a + b == b;
    } else {
      FlatConcat(f, a[1..], b);
      HeadOfConcat(a, b);
      FlatCons(f, a[0], a[1..]);
      FlatCons(f, a[0], a[1..] + b);
      Associative(f(a[0]), Flat(f, a[1..]), Flat(f, b));
    }
  }

  lemma {:induction false} FlatInsert<K, T>(f: K -> seq<T>, x: K, xs: seq<K>, le: (K, K) -> bool)
    ensures multiset(Flat(f, Insert(x, xs, le))) == multiset(f(x)) + multiset(Flat(f, xs))
  {
    if xs == [] || le(x, xs[0]) {
      FlatCons(f, x, xs);
    } else {
      FlatInsert(f, x, xs[1..], le);
      FlatCons(f, xs[0], Insert(x, xs[1..], le));
    }
  }

  lemma {:induction false} FlatSort<K, T>(f: K -> seq<T>, xs: seq<K>, le: (K, K) -> bool)
    ensures multiset(Flat(f, Sort(xs, le))) == multiset(Flat(f, xs))
  {
    if xs != [] {
      FlatSort(f, xs[1..], le);
      FlatInsert(f, xs[0], Sort(xs[1..], le), le);
    }
  }

  lemma {:induction false} FlatAgree<K, L, T>(f: K -> seq<T>, xs: seq<K>, g: L -> seq<T>, ys: seq<L>)
    requires |xs| == |ys| && forall i | 0 <= i < |xs| :: f(xs[i]) == g(ys[i])
    ensures Flat(f, xs) == Flat(g, ys)
  {
    if xs != [] {
      assert f(xs[0]) == g(ys[0]);
      FlatAgree(f, xs[1..], g, ys[1..]);
    }
  }

  lemma {:induction false} FlatNothing<K, T>(f: K -> seq<T>, xs: seq<K>)
    requires forall x | x in xs :: f(x) == []
    ensures Flat(f, xs) == []
  {
    if xs != [] {
      assert xs[0] in xs;
      FlatNothing(f, xs[1..]);
    }
  }

  lemma {:induction false} FlatOrigin<K, T>(f: K -> seq<T>, xs: seq<K>, t: T)
    requires t in Flat(f, xs)
    ensures exists x :: x in xs && t in f(x)
  {
    if t in f(xs[0]) {
      assert xs[0] in xs;
    } else {
      FlatOrigin(f, xs[1..], t);
      var x :| x in xs[1..] && t in f(x);
      assert x in xs;
    }
  }

  function Also<T>(t: T, here: bool): multiset<T> {
    if here then multiset{t} else multiset{}
  }

  lemma {:induction false} FlatOneMore<K, T>(f: K -> seq<T>, g: K -> seq<T>, xs: seq<K>, k: K, t: T)
    requires Distinct(xs)
    requires forall x | x in xs :: multiset(g(x)) == multiset(f(x)) + Also(t, x == k)
    ensures multiset(Flat(g, xs)) == multiset(Flat(f, xs)) + Also(t, k in xs)
  {
    if xs != [] {
      assert xs == [xs[0]] + xs[1..];
      FlatOneMore(f, g, xs[1..], k, t);
      assert multiset(g(xs[0])) == multiset(f(xs[0])) + Also(t, xs[0] == k);
    }
  }

  /** The error of the first element that fails its check. */
  function FirstFailure<T>(check: T -> Outcome, xs: seq<T>): (o: Outcome)
    ensures o.Pass? <==> forall x | x in xs :: check(x) == Pass
  {
    if xs == [] then Pass
    else
      var o := check(xs[0]);
      if o.Fail? then o else FirstFailure(check, xs[1..])
  }

  lemma {:induction false} FirstFailureAgree<T>(check: T -> Outcome, check': T -> Outcome, xs: seq<T>)
    requires forall x | x in xs :: check(x) == check'(x)
    ensures FirstFailure(check, xs) == FirstFailure(check', xs)
  {
    if xs != [] {
      assert xs[0] in xs;
      FirstFailureAgree(check, check', xs[1..]);
    }
  }

  lemma {:induction false} FirstFailureConcat<T>(check: T -> Outcome, a: seq<T>, b: seq<T>)
    ensures FirstFailure(check, a + b) == if FirstFailure(check, a).Pass? then FirstFailure(check, b) else FirstFailure(check, a)
  {
    if a == [] {
      assert a + b == b;
    } else {
      FirstFailureConcat(check, a[1..], b);
      assert (a + b)[1..] == a[1..] + b;
    }
  }

  lemma FilterSplit<T>(p: T -> bool, xs: seq<T>, i: nat)
    requires i <= |xs|
    ensures Filter(p, xs) == Filter(p, xs[..i]) + Filter(p, xs[i..])
  {
    assert xs == xs[..i] + xs[i..];
    FilterConcat(p, xs[..i], xs[i..]);
  }

  /** One step of a loop that checks the kept elements and stops at the first failure. */
  lemma CheckStep<T>(p: T -> bool, check: T -> Outcome, xs: seq<T>, i: nat)
    requires i < |xs| && p(xs[i]) && FirstFailure(check, Filter(p, xs[..i])).Pass?
    ensures FirstFailure(check, Filter(p, xs[..i + 1])) == check(xs[i])
    ensures check(xs[i]).Fail? ==> FirstFailure(check, Filter(p, xs)) == check(xs[i])
  {
    var kept, rest := Filter(p, xs[..i + 1]), Filter(p, xs[i + 1..]);
    FilterStep(p, xs, i);
    FirstFailureConcat(check, Filter(p, xs[..i]), [xs[i]]);
    FilterSplit(p, xs, i + 1);
    FirstFailureConcat(check, kept, rest);
  }

  /** Keeps the wanted elements, checking each, and stops at the first failure. */
  method KeepChecked<T>(p: T -> bool, check: T -> Outcome, xs: seq<T>) returns (o: Outcome, kept: seq<T>)
    ensures o == FirstFailure(check, Filter(p, xs))
    ensures o.Pass? ==> kept == Filter(p, xs)
  {
    kept := [];
    for i := 0 to |xs|
      invariant kept == Filter(p, xs[..i]) && FirstFailure(check, kept).Pass?
    {
      FilterStep(p, xs, i);
      if p(xs[i]) {
        CheckStep(p, check, xs, i);
        o := check(xs[i]);
        if o.Fail? {
          return;
        }
        kept := kept + [xs[i]];
      }
    }
    assert xs[..|xs|] == xs;
    o := Pass;
  }

  /** All results, or the first error. */
  function Collect<K, T>(f: K -> Result<T>, xs: seq<K>): (r: Result<seq<T>>)
    ensures r.Ok? ==> |r.value| == |xs| && forall i | 0 <= i < |xs| :: f(xs[i]) == Ok(r.value[i])
  {
    if xs == [] then Ok([])
    else
      var first :- f(xs[0]);
      var rest :- Collect(f, xs[1..]);
      Ok([first] + rest)
  }

  lemma {:induction false} CollectAgree<K, T>(f: K -> Result<T>, g: K -> Result<T>, xs: seq<K>)
    requires forall x | x in xs :: f(x) == g(x)
    ensures Collect(f, xs) == Collect(g, xs)
  {
    if xs != [] {
      assert xs[0] in xs;
      CollectAgree(f, g, xs[1..]);
    }
  }

  lemma {:induction false} CollectOk<K, T>(f: K -> Result<T>, xs: seq<K>)
    requires forall x | x in xs :: f(x).Ok?
    ensures Collect(f, xs).Ok?
  {
    if xs != [] {
      assert xs[0] in xs;
      CollectOk(f, xs[1..]);
    }
  }

  function Both<T>(a: Result<seq<T>>, b: Result<seq<T>>): Result<seq<T>> {
    var first :- a;
    var rest :- b;
    Ok(first + rest)
  }

  function One<T>(r: Result<T>): Result<seq<T>> {
    var v :- r;
    Ok([v])
  }

  lemma BothAssociative<T>(a: Result<seq<T>>, b: Result<seq<T>>, c: Result<seq<T>>)
    ensures Both(Both(a, b), c) == Both(a, Both(b, c))
  {
    if a.Ok? && b.Ok? && c.Ok? {
      assert a.value + b.value + c.value == a.value + (b.value + c.value);
    }
  }

  lemma CollectCons<K, T>(f: K -> Result<T>, x: K, xs: seq<K>)
    ensures Collect(f, [x] + xs) == Both(One(f(x)), Collect(f, xs))
  {
    assert ([x] + xs)[1..] == xs;
  }

  lemma CollectOne<K, T>(f: K -> Result<T>, x: K)
    ensures Collect(f, [x]) == One(f(x))
  {
    CollectCons(f, x, []);
    assert [x] == [x] + [];
    assert f(x).Ok? ==> [f(x).value] + [] == [f(x).value];
  }

  lemma {:induction false} CollectConcat<K, T>(f: K -> Result<T>, a: seq<K>, b: seq<K>)
    ensures Collect(f, a + b) == Both(Collect(f, a), Collect(f, b))
  {
    if a == [] {
      assert a + b == b;
      assert Collect(f, b).Ok? ==> [] + Collect(f, b).value == Collect(f, b).value;
    } else {
      CollectConcat(f, a[1..], b);
      CollectCons(f, a[0], a[1..] + b);
      CollectCons(f, a[0], a[1..]);
      BothAssociative(One(f(a[0])), Collect(f, a[1..]), Collect(f, b));
      assert a == [a[0]] + a[1..] && a + b == [a[0]] + (a[1..] + b);
    }
  }

  /** One step of a collecting loop. */
  lemma CollectStep<K, T>(f: K -> Result<T>, xs: seq<K>, i: nat)
    requires i < |xs| && Collect(f, xs[..i]).Ok?
    ensures f(xs[i]).Err? ==> Collect(f, xs) == Err(f(xs[i]).error)
    ensures f(xs[i]).Ok? ==> Collect(f, xs[..i + 1]) == Ok(Collect(f, xs[..i]).value + [f(xs[i]).value])
  {
    assert xs == xs[..i] + ([xs[i]] + xs[i + 1..]);
    CollectConcat(f, xs[..i], [xs[i]] + xs[i + 1..]);
    CollectCons(f, xs[i], xs[i + 1..]);
    assert xs[..i + 1] == xs[..i] + [xs[i]];
    CollectConcat(f, xs[..i], [xs[i]]);
    CollectOne(f, xs[i]);
  }
}
