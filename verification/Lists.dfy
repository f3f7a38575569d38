/** Lists with and without repetition. */
module Lists {
  import opened Wrappers

  predicate Distinct<T(==)>(s: seq<T>) { forall i, j | 0 <= i < j < |s| :: s[i] != s[j] }

  /** Array.filter((y) => y !== x). */
  function Without<T(==,!new)>(s: seq<T>, x: T): (r: seq<T>)
    ensures forall y :: y in r <==> y in s && y != x
  {
    if s == [] then []
    else if s[0] == x then Without(s[1..], x)
    else [s[0]] + Without(s[1..], x)
  }

  lemma {:induction false} WithoutDistinct<T(!new)>(s: seq<T>, x: T)
    requires Distinct(s)
    ensures Distinct(Without(s, x))
  {
    if s != [] {
      WithoutDistinct(s[1..], x);
      assert s[0] !in s[1..];
    }
  }

  /** What stays keeps its order. */
  lemma {:induction false} WithoutKeepsOrder<T(!new)>(a: seq<T>, b: seq<T>, x: T)
    ensures Without(a + b, x) == Without(a, x) + Without(b, x)
  {
    if a == [] {
      assert a + b == b;
    } else {
      var rest := a[1..] + b;
      WithoutKeepsOrder(a[1..], b, x);
      assert (a + b)[1..] == rest && (a + b)[0] == a[0];
      assert Without(a + b, x) == if a[0] == x then Without(rest, x) else [a[0]] + Without(rest, x);
    }
  }

  /** How often `x` occurs in a list. */
  function Times<T(==)>(s: seq<T>, x: T): nat {
    if s == [] then 0 else One(s[0] == x) + Times(s[1..], x)
  }

  lemma {:induction false} TimesWithout<T(!new)>(s: seq<T>, x: T, y: T)
    ensures Times(Without(s, x), y) == if y == x then 0 else Times(s, y)
  {
    if s != [] {
      TimesWithout(s[1..], x, y);
      assert ([s[0]] + Without(s[1..], x))[1..] == Without(s[1..], x);
    }
  }

  lemma {:induction false} WithoutShrinks<T(!new)>(s: seq<T>, x: T)
    ensures |Without(s, x)| == |s| - Times(s, x)
  {
    if s != [] { WithoutShrinks(s[1..], x); }
  }

  lemma {:induction false} TimesAppend<T>(s: seq<T>, x: T, y: T)
    ensures Times(s + [x], y) == Times(s, y) + One(y == x)
  {
    if s != [] {
      TimesAppend(s[1..], x, y);
      assert (s + [x])[1..] == s[1..] + [x];
    }
  }

  lemma {:induction false} NotAMember<T>(s: seq<T>, x: T)
    ensures Times(s, x) == 0 <==> x !in s
  {
    if s != [] { NotAMember(s[1..], x); }
  }

  predicate IsFirstOutside<T(==)>(s: seq<T>, known: set<T>, i: nat)
    requires i < |s|
  {
    s[i] !in known && forall j | 0 <= j < i :: s[j] in known
  }

  lemma IsFirstOutsideNext<T(!new)>(s: seq<T>, known: set<T>)
    requires s != [] && s[0] in known
    ensures forall i | 0 <= i < |s| - 1 && IsFirstOutside(s[1..], known, i) :: IsFirstOutside(s, known, i + 1)
  {
  }

  /** Array.find((x) => !known.has(x)). */
  function FirstOutside<T(==,!new)>(s: seq<T>, known: set<T>): (r: Option<T>)
    ensures r.Some? ==> exists i | 0 <= i < |s| :: IsFirstOutside(s, known, i) && r.value == s[i]
    ensures r == None ==> forall x | x in s :: x in known
  {
    if s == [] then None
    else if s[0] !in known then
      assert IsFirstOutside(s, known, 0);
      Some(s[0])
    else
      IsFirstOutsideNext(s, known);
      FirstOutside(s[1..], known)
  }

  /** Leaving out what is known already changes nothing. */
  lemma {:induction false} FirstOutsideWithout<T(!new)>(s: seq<T>, x: T, known: set<T>)
    requires x in known
    ensures FirstOutside(Without(s, x), known) == FirstOutside(s, known)
  {
    if s != [] {
      FirstOutsideWithout(s[1..], x, known);
      assert s[0] != x ==> ([s[0]] + Without(s[1..], x))[1..] == Without(s[1..], x);
    }
  }

  /** Array.map. */
  function Map<A, B>(f: A -> B, s: seq<A>): (r: seq<B>)
    ensures |r| == |s| && forall i | 0 <= i < |s| :: r[i] == f(s[i])
  {
    if s == [] then [] else [f(s[0])] + Map(f, s[1..])
  }

  ghost function Elements<T>(s: seq<T>): set<T> { set x | x in s }

  lemma {:induction false} DistinctSize<T>(s: seq<T>)
    requires Distinct(s)
    ensures |Elements(s)| == |s|
  {
    if s == [] {
      assert Elements(s) == {};
    } else {
      DistinctSize(s[1..]);
      assert s == [s[0]] + s[1..];
      assert s[0] !in s[1..];
      assert Elements(s) == {s[0]} + Elements(s[1..]);
    }
  }
}
