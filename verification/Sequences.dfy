/** Sequence helpers shared by the ordered stores. */
module Sequences {
  function Filter<T>(s: seq<T>, keep: T -> bool): seq<T> {
    if s == [] then [] else (if keep(s[0]) then [s[0]] else []) + Filter(s[1..], keep)
  }

  function Both<T>(f: T -> bool, g: T -> bool): T -> bool { x => f(x) && g(x) }

  /** The last n elements, or all of them when there are fewer. */
  function LastN<T>(s: seq<T>, n: nat): seq<T> {
    if |s| <= n then s else s[|s| - n..]
  }

  lemma {:induction false} FilterConcat<T>(s: seq<T>, t: seq<T>, keep: T -> bool)
    ensures Filter(s + t, keep) == Filter(s, keep) + Filter(t, keep)
  {
    if s == [] {
      assert s + t == t;
    } else {
      assert s + t == [s[0]] + (s[1..] + t) && s == [s[0]] + s[1..];
      FilterConcat(s[1..], t, keep);
      FilterCons(s[0], s[1..] + t, keep);
      FilterCons(s[0], s[1..], keep);
      hide Filter;
      var head := if keep(s[0]) then [s[0]] else [];
      assert head + (Filter(s[1..], keep) + Filter(t, keep)) == (head + Filter(s[1..], keep)) + Filter(t, keep);
    }
  }

  lemma {:induction false} FilterCons<T>(x: T, s: seq<T>, keep: T -> bool)
    ensures Filter([x] + s, keep) == (if keep(x) then [x] else []) + Filter(s, keep)
  {
    assert ([x] + s)[1..] == s;
  }

  lemma {:induction false} FilterMembers<T>(s: seq<T>, keep: T -> bool)
    ensures forall x :: x in Filter(s, keep) <==> x in s && keep(x)
    ensures |Filter(s, keep)| <= |s|
  {
    if s == [] {
    } else {
      FilterMembers(s[1..], keep);
    }
  }

  lemma {:induction false} FilterAll<T>(s: seq<T>, keep: T -> bool)
    requires forall x :: x in s ==> keep(x)
    ensures Filter(s, keep) == s
  {
    if s == [] {
    } else {
      FilterAll(s[1..], keep);
    }
  }

  /** Filters that agree on the elements of s give the same result. */
  lemma {:induction false} FilterAgree<T>(s: seq<T>, f: T -> bool, g: T -> bool)
    requires forall x :: x in s ==> f(x) == g(x)
    ensures Filter(s, f) == Filter(s, g)
  {
    if s == [] {
    } else {
      FilterAgree(s[1..], f, g);
    }
  }

  lemma {:induction false} FilterFilter<T>(s: seq<T>, f: T -> bool, g: T -> bool)
    ensures Filter(Filter(s, f), g) == Filter(s, Both(f, g))
  {
    if s == [] {
    } else {
      FilterFilter(s[1..], f, g);
      FilterCons(s[0], Filter(s[1..], f), g);
      assert [] + Filter(s[1..], f) == Filter(s[1..], f);
    }
  }

  lemma {:induction false} FilterSwap<T>(s: seq<T>, f: T -> bool, g: T -> bool)
    ensures Filter(Filter(s, f), g) == Filter(Filter(s, g), f)
  {
    if s == [] {
    } else {
      FilterSwap(s[1..], f, g);
      FilterCons(s[0], Filter(s[1..], f), g);
      FilterCons(s[0], Filter(s[1..], g), f);
      assert [] + Filter(s[1..], f) == Filter(s[1..], f) && [] + Filter(s[1..], g) == Filter(s[1..], g);
      assert [] + Filter(Filter(s[1..], f), g) == Filter(Filter(s[1..], f), g);
    }
  }
}
