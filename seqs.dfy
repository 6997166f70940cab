/**
 * Order-preserving filters (Python list comprehensions with an `if`) and the
 * "map each element, stop at the first exception" loop that the catalog and
 * migrator run over lists of hits and records.
 */
module Seqs {
  import opened Wrappers

  /** `[x for x in s if p(x)]`. */
  function Filter<T(!new)>(s: seq<T>, p: T -> bool): (r: seq<T>)
    ensures |r| <= |s|
    ensures forall x :: x in r <==> x in s && p(x)
    ensures forall i :: 0 <= i < |r| ==> p(r[i])
    decreases |s|
  {
    if s == [] then [] else (if p(s[0]) then [s[0]] else []) + Filter(s[1..], p)
  }

  lemma {:induction false} FilterAppend<T(!new)>(a: seq<T>, b: seq<T>, p: T -> bool)
    ensures Filter(a + b, p) == Filter(a, p) + Filter(b, p)
    decreases |a|
  {
    if a != [] {
      assert (a + b)[0] == a[0] && (a + b)[1..] == a[1..] + b;
      FilterAppend(a[1..], b, p);
    } else {
      assert a + b == b;
    }
  }

  /** A filter keeps every copy of an element that passes and none of one
      that does not. */
  lemma {:induction false} FilterMultiset<T(!new)>(s: seq<T>, p: T -> bool)
    ensures forall x :: multiset(Filter(s, p))[x] == if p(x) then multiset(s)[x] else 0
    decreases |s|
  {
    if s != [] {
      FilterMultiset(s[1..], p);
      assert s == [s[0]] + s[1..];
    }
  }

  /** `a` is `b` with some elements left out and the rest kept in order. */
  predicate Subsequence<T(==)>(a: seq<T>, b: seq<T>)
    decreases |b|
  {
    a == [] || (b != [] && ((a[0] == b[0] && Subsequence(a[1..], b[1..])) || Subsequence(a, b[1..])))
  }

  lemma {:induction false} FilterIsSubsequence<T(!new)>(s: seq<T>, p: T -> bool)
    ensures Subsequence(Filter(s, p), s)
    decreases |s|
  {
    if s != [] {
      FilterIsSubsequence(s[1..], p);
      var r := Filter(s, p);
      if p(s[0]) {
        assert r == [s[0]] + Filter(s[1..], p);
        assert r[0] == s[0] && r[1..] == Filter(s[1..], p);
      } else {
        assert r == Filter(s[1..], p);
      }
    }
  }

  lemma {:induction false} SubsequenceTransitive<T>(a: seq<T>, b: seq<T>, c: seq<T>)
    requires Subsequence(a, b) && Subsequence(b, c)
    ensures Subsequence(a, c)
    decreases |c|, |b|
  {
    if a != [] {
      if c == [] {
      } else if b[0] == c[0] && Subsequence(b[1..], c[1..]) {
        if a[0] == b[0] && Subsequence(a[1..], b[1..]) {
          SubsequenceTransitive(a[1..], b[1..], c[1..]);
        } else {
          SubsequenceTransitive(a, b[1..], c[1..]);
        }
      } else {
        SubsequenceTransitive(a, b, c[1..]);
      }
    }
  }

  /** A filter of a filter keeps its elements in the original order. */
  lemma FilterOfFilterIsSubsequence<T(!new)>(s: seq<T>, p: T -> bool, q: T -> bool)
    ensures Subsequence(Filter(Filter(s, p), q), s)
  {
    FilterIsSubsequence(Filter(s, p), q);
    FilterIsSubsequence(s, p);
    SubsequenceTransitive(Filter(Filter(s, p), q), Filter(s, p), s);
  }

  /** `[f(x) for x in s]` where `f` may raise: the first exception wins,
      and otherwise there is one value per element, in order. */
  function MapAll<A, B>(s: seq<A>, f: A -> Result<B>): (r: Result<seq<B>>)
    ensures r.Ok? <==> forall i :: 0 <= i < |s| ==> f(s[i]).Ok?
    ensures r.Ok? ==> |r.value| == |s|
    ensures r.Ok? ==> forall i :: 0 <= i < |s| ==> r.value[i] == f(s[i]).value
    decreases |s|
  {
    if s == [] then Ok([])
    else match f(s[0])
      case Err(e) => Err(e)
      case Ok(y) =>
        assert forall i :: 0 <= i < |s[1..]| ==> s[1..][i] == s[i + 1];
        match MapAll(s[1..], f)
        case Err(e) => Err(e)
        case Ok(rest) => Ok([y] + rest)
  }

  /** `Ok(xs) ++ r`: prepend results already gathered to the rest of a run. */
  function Prepend<T>(xs: seq<T>, r: Result<seq<T>>): (o: Result<seq<T>>)
    ensures r.Err? ==> o == r
    ensures r.Ok? ==> o == Ok(xs + r.value)
  {
    match r
    case Err(e) => Err(e)
    case Ok(ys) => Ok(xs + ys)
  }

  lemma PrependNothing<T>(r: Result<seq<T>>)
    ensures Prepend([], r) == r
  {
    if r.Ok? {
      assert [] + r.value == r.value;
    }
  }

  lemma PrependPrepend<T>(xs: seq<T>, ys: seq<T>, r: Result<seq<T>>)
    ensures Prepend(xs, Prepend(ys, r)) == Prepend(xs + ys, r)
  {
    if r.Ok? {
      assert xs + (ys + r.value) == (xs + ys) + r.value;
    }
  }

  /** The loop
        out = []
        for x in s:
            y = f(x)        # may raise: the whole loop raises
            if y: out.append(y)
      as a function: the first exception wins, otherwise the kept values in order. */
  function Traverse<A, B>(s: seq<A>, f: A -> Result<Option<B>>): Result<seq<B>>
    decreases |s|
  {
    if s == [] then Ok([])
    else match Traverse(s[..|s| - 1], f)
      case Err(e) => Err(e)
      case Ok(prefix) =>
        match f(s[|s| - 1])
        case Err(e) => Err(e)
        case Ok(o) => Ok(prefix + if o.Some? then [o.value] else [])
  }

  /** One more iteration of the loop. */
  lemma TraverseStep<A, B>(s: seq<A>, i: nat, f: A -> Result<Option<B>>)
    requires i < |s|
    ensures Traverse(s[..i + 1], f) ==
      match Traverse(s[..i], f)
      case Err(e) => Err(e)
      case Ok(prefix) =>
        match f(s[i])
        case Err(e) => Err(e)
        case Ok(o) => Ok(prefix + if o.Some? then [o.value] else [])
  {
    assert s[..i + 1][..i] == s[..i];
  }

  /** Once the loop has raised, later elements are never looked at. */
  lemma {:induction false} TraverseStopsAtError<A, B>(s: seq<A>, i: nat, f: A -> Result<Option<B>>)
    requires i <= |s|
    requires Traverse(s[..i], f).Err?
    ensures Traverse(s, f) == Traverse(s[..i], f)
    decreases |s| - i
  {
    if i < |s| {
      TraverseStep(s, i, f);
      TraverseStopsAtError(s, i + 1, f);
    } else {
      assert s[..i] == s;
    }
  }

  /** The loop raises exactly when some element raises, and then with the
      first such element's exception. */
  lemma {:induction false} TraverseError<A, B>(s: seq<A>, f: A -> Result<Option<B>>)
    ensures Traverse(s, f).Err? <==> exists i :: 0 <= i < |s| && f(s[i]).Err?
    ensures Traverse(s, f).Err? ==>
      exists i :: 0 <= i < |s| && f(s[i]).Err? && Traverse(s, f) == Err(f(s[i]).error) && forall j :: 0 <= j < i ==> f(s[j]).Ok?
    decreases |s|
  {
    if s != [] {
      var init := s[..|s| - 1];
      TraverseError(init, f);
      forall i | 0 <= i < |init| ensures init[i] == s[i] { }
      if Traverse(init, f).Err? {
        var i :| 0 <= i < |init| && f(init[i]).Err? && Traverse(init, f) == Err(f(init[i]).error) && forall j :: 0 <= j < i ==> f(init[j]).Ok?;
        assert Traverse(s, f) == Err(f(s[i]).error);
      } else if f(s[|s| - 1]).Err? {
        assert Traverse(s, f) == Err(f(s[|s| - 1]).error);
        assert forall j :: 0 <= j < |s| - 1 ==> f(s[j]).Ok? by {
          forall j | 0 <= j < |s| - 1 ensures f(s[j]).Ok? {
            assert f(init[j]).Ok?;
          }
        }
      } else {
        assert forall i :: 0 <= i < |s| ==> f(s[i]).Ok? by {
          forall i | 0 <= i < |s| ensures f(s[i]).Ok? {
            if i < |s| - 1 {
              assert f(init[i]).Ok?;
            }
          }
        }
      }
    }
  }

  /** When every element yields a value, the loop returns exactly one value
      per element, in order. */
  lemma {:induction false} TraverseAll<A, B>(s: seq<A>, f: A -> Result<Option<B>>)
    requires forall i :: 0 <= i < |s| ==> f(s[i]).Ok? && f(s[i]).value.Some?
    ensures Traverse(s, f).Ok?
    ensures |Traverse(s, f).value| == |s|
    ensures forall i :: 0 <= i < |s| ==> Traverse(s, f).value[i] == f(s[i]).value.value
    decreases |s|
  {
    if s != [] {
      var init := s[..|s| - 1];
      TraverseAll(init, f);
      var r := Traverse(s, f).value;
      assert r == Traverse(init, f).value + [f(s[|s| - 1]).value.value];
      forall i | 0 <= i < |s| ensures r[i] == f(s[i]).value.value {
        if i < |s| - 1 {
          assert init[i] == s[i];
        }
      }
    }
  }

  /** Every value the loop returns is the value of some element. */
  lemma {:induction false} TraverseValues<A, B>(s: seq<A>, f: A -> Result<Option<B>>)
    ensures Traverse(s, f).Ok? ==>
      forall y :: y in Traverse(s, f).value ==> exists i :: 0 <= i < |s| && f(s[i]) == Ok(Some(y))
    decreases |s|
  {
    if s != [] {
      var init := s[..|s| - 1];
      TraverseValues(init, f);
      assert forall i :: 0 <= i < |init| ==> init[i] == s[i];
    }
  }
}
