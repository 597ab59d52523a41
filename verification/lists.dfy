/** Python list comprehensions whose per-element step may raise, and the
    "order-preserving sub-list" relation used to state what they return. */
module Lists {
  import opened Wrappers

  /** `a` is `b` with some elements left out and the rest kept in order. */
  predicate IsSubseq<T(==)>(a: seq<T>, b: seq<T>)
    decreases |b|
  {
    if a == [] then true
    else if b == [] then false
    else (a[0] == b[0] && IsSubseq(a[1..], b[1..])) || IsSubseq(a, b[1..])
  }

  /** The test of a comprehension's `if` clause evaluates without raising
      and is true for `x`. */
  predicate Passes<T, E>(test: T -> Result<bool, E>, x: T)
  {
    test(x).Success? && test(x).value
  }

  /** `[x for x in s if test(x)]`. The tests run left to right and the first
      one that raises aborts the whole comprehension with its error. */
  function FilterOrFail<T(==), E>(s: seq<T>, test: T -> Result<bool, E>): (r: Result<seq<T>, E>)
    ensures r.Success? <==> forall x :: x in s ==> test(x).Success?
    ensures r.Success? ==> IsSubseq(r.value, s)
    ensures r.Success? ==> forall x :: x in r.value ==> x in s && Passes(test, x)
    ensures r.Success? ==>
      forall x :: x in s ==> multiset(r.value)[x] == if Passes(test, x) then multiset(s)[x] else 0
  {
    if s == [] then Success([])
    else
      var keep :- test(s[0]);
      var rest :- FilterOrFail(s[1..], test);
      assert s == [s[0]] + s[1..];
      if keep then
        assert ([s[0]] + rest)[1..] == rest;
        Success([s[0]] + rest)
      else
        Success(rest)
  }

  /** `[f(x) for x in s]`, where `f` may raise; the first raising call
      aborts the comprehension. */
  function MapOrFail<T, U, E>(s: seq<T>, f: T -> Result<U, E>): (r: Result<seq<U>, E>)
    ensures r.Success? <==> forall i :: 0 <= i < |s| ==> f(s[i]).Success?
    ensures r.Success? ==> |r.value| == |s|
    ensures r.Success? ==> forall i :: 0 <= i < |s| ==> r.value[i] == f(s[i]).value
  {
    if s == [] then Success([])
    else
      var y :- f(s[0]);
      var rest :- MapOrFail(s[1..], f);
      Success([y] + rest)
  }

  /** Mapping a sub-list gives a sub-list of the mapped list. */
  lemma {:induction false} SubseqMap<T, U, E>(a: seq<T>, b: seq<T>, f: T -> Result<U, E>)
    requires IsSubseq(a, b)
    requires MapOrFail(a, f).Success? && MapOrFail(b, f).Success?
    ensures IsSubseq(MapOrFail(a, f).value, MapOrFail(b, f).value)
    decreases |b|
  {
    if a != [] {
      var ra, rb := MapOrFail(a, f).value, MapOrFail(b, f).value;
      assert rb[1..] == MapOrFail(b[1..], f).value;
      if a[0] == b[0] && IsSubseq(a[1..], b[1..]) {
        SubseqMap(a[1..], b[1..], f);
        assert ra[1..] == MapOrFail(a[1..], f).value;
      } else {
        SubseqMap(a, b[1..], f);
      }
    }
  }
}
