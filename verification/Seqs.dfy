/** Sequence facts shared by the models: filtering and duplicate-freedom. */
module Seqs {
  ghost predicate NoDup<T>(s: seq<T>) {
    forall i, j :: 0 <= i < j < |s| ==> s[i] != s[j]
  }

  function Filter<T(!new)>(s: seq<T>, p: T -> bool): (r: seq<T>)
    ensures forall x :: x in r <==> x in s && p(x)
    ensures |r| <= |s|
  {
    if s == [] then []
    else (if p(s[0]) then [s[0]] else []) + Filter(s[1..], p)
  }

  lemma {:induction false} FilterNoDup<T(!new)>(s: seq<T>, p: T -> bool)
    requires NoDup(s)
    ensures NoDup(Filter(s, p))
  {
    if s != [] {
      FilterNoDup(s[1..], p);
      var r := Filter(s[1..], p);
      assert forall i :: 0 <= i < |r| ==> r[i] in r && r[i] in s[1..];
      assert s[0] !in s[1..];
    }
  }

  lemma {:induction false} FilterAll<T(!new)>(s: seq<T>, p: T -> bool)
    requires forall x :: x in s ==> p(x)
    ensures Filter(s, p) == s
  {
    if s != [] {
      assert forall x :: x in s[1..] ==> x in s;
      FilterAll(s[1..], p);
    }
  }

  /** A kept first element stays first. */
  lemma FilterHead<T(!new)>(s: seq<T>, p: T -> bool)
    requires s != [] && p(s[0])
    ensures Filter(s, p) != [] && Filter(s, p)[0] == s[0]
  {
  }

  lemma FilterCons<T(!new)>(x: T, s: seq<T>, p: T -> bool)
    ensures Filter([x] + s, p) == (if p(x) then [x] else []) + Filter(s, p)
  {
    assert ([x] + s)[1..] == s;
  }

  lemma {:induction false} FilterAppend<T(!new)>(s: seq<T>, x: T, p: T -> bool)
    ensures Filter(s + [x], p) == Filter(s, p) + if p(x) then [x] else []
  {
    if s == [] {
      assert s + [x] == [x] && [x][1..] == [];
    } else {
      assert (s + [x])[1..] == s[1..] + [x];
      FilterAppend(s[1..], x, p);
    }
  }

  lemma {:induction false} FilterConcat<T(!new)>(a: seq<T>, b: seq<T>, p: T -> bool)
    ensures Filter(a + b, p) == Filter(a, p) + Filter(b, p)
  {
    hide Filter;
    if a == [] {
      FilterNone(a, p);
      assert a + b == b && [] + Filter(b, p) == Filter(b, p);
    } else {
      var x, r := a[0], a[1..];
      FilterConcat(r, b, p);
      assert a + b == [x] + (r + b) && a == [x] + r;
      FilterCons(x, r + b, p);
      FilterCons(x, r, p);
      var h := if p(x) then [x] else [];
      assert h + (Filter(r, p) + Filter(b, p)) == h + Filter(r, p) + Filter(b, p);
    }
  }

  lemma FilterNone<T(!new)>(s: seq<T>, p: T -> bool)
    requires forall x :: x in s ==> !p(x)
    ensures Filter(s, p) == []
  {
    SomeMember(Filter(s, p));
  }

  lemma NoDupAppend<T>(s: seq<T>, x: T)
    requires NoDup(s) && x !in s
    ensures NoDup(s + [x])
  {
  }

  lemma {:induction false} FilterExt<T(!new)>(s: seq<T>, p: T -> bool, q: T -> bool)
    requires forall x :: x in s ==> p(x) == q(x)
    ensures Filter(s, p) == Filter(s, q)
  {
    if s != [] {
      assert forall x :: x in s[1..] ==> x in s;
      FilterExt(s[1..], p, q);
    }
  }

  lemma {:induction false} FilterTwice<T(!new)>(s: seq<T>, p: T -> bool, q: T -> bool, r: T -> bool)
    requires forall x :: x in s ==> r(x) == (p(x) && q(x))
    ensures Filter(Filter(s, p), q) == Filter(s, r)
  {
    if s != [] {
      assert forall x :: x in s[1..] ==> x in s;
      FilterTwice(s[1..], p, q, r);
      assert s[0] in s;
      var rest := Filter(s[1..], p);
      if p(s[0]) {
        assert Filter(s, p) == [s[0]] + rest;
        assert ([s[0]] + rest)[1..] == rest;
      } else {
        assert Filter(s, p) == rest;
      }
    }
  }

  lemma SomeMember<T(!new)>(s: seq<T>)
    ensures s == [] || exists x :: x in s
  {
    if s != [] { assert s[0] in s; }
  }

  /** Every finite set can be walked in some order. */
  lemma {:induction false} SomeOrder<T(!new)>(s: set<T>) returns (order: seq<T>)
    ensures NoDup(order) && forall x :: x in order <==> x in s
    decreases |s|
  {
    if s == {} {
      order := [];
    } else {
      var x :| x in s;
      var rest := SomeOrder(s - {x});
      order := rest + [x];
      NoDupAppend(rest, x);
    }
  }
}
