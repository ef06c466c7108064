/** Filtering and mapping sequences, with the few laws the project needs. */
module Lists {

  function Keep<T>(s: seq<T>, p: T -> bool): seq<T>
  {
    if s == [] then [] else (if p(s[0]) then [s[0]] else []) + Keep(s[1..], p)
  }

  function Map<T, U>(s: seq<T>, f: T -> U): seq<U>
  {
    if s == [] then [] else [f(s[0])] + Map(s[1..], f)
  }

  lemma {:induction false} KeepAppend<T>(a: seq<T>, b: seq<T>, p: T -> bool)
    ensures Keep(a + b, p) == Keep(a, p) + Keep(b, p)
  {
    if a == [] {
      assert a + b == b;
    } else {
      assert (a + b)[1..] == a[1..] + b;
      KeepAppend(a[1..], b, p);
      var here := if p(a[0]) then [a[0]] else [];
      assert here + (Keep(a[1..], p) + Keep(b, p)) == here + Keep(a[1..], p) + Keep(b, p);
    }
  }

  lemma {:induction false} MapAppend<T, U>(a: seq<T>, b: seq<T>, f: T -> U)
    ensures Map(a + b, f) == Map(a, f) + Map(b, f)
  {
    if a == [] {
      assert a + b == b;
    } else {
      assert (a + b)[1..] == a[1..] + b;
      MapAppend(a[1..], b, f);
    }
  }

  lemma {:induction false} KeepMembers<T>(s: seq<T>, p: T -> bool)
    ensures forall x :: x in Keep(s, p) ==> x in s && p(x)
    ensures forall x :: x in s && p(x) ==> x in Keep(s, p)
  {
    if s != [] {
      KeepMembers(s[1..], p);
      assert s == [s[0]] + s[1..];
    }
  }

  lemma {:induction false} MapAt<T, U>(s: seq<T>, f: T -> U)
    ensures |Map(s, f)| == |s|
    ensures forall i :: 0 <= i < |s| ==> Map(s, f)[i] == f(s[i])
  {
    if s != [] {
      MapAt(s[1..], f);
    }
  }

  /** Filtering by `p` and then by `q` is filtering by their conjunction. */
  lemma {:induction false} KeepKeep<T>(s: seq<T>, p: T -> bool, q: T -> bool, both: T -> bool)
    requires forall x :: x in s ==> (both(x) <==> p(x) && q(x))
    ensures Keep(Keep(s, p), q) == Keep(s, both)
  {
    if s != [] {
      KeepKeep(s[1..], p, q, both);
      assert s[0] in s;
      KeepAppend(if p(s[0]) then [s[0]] else [], Keep(s[1..], p), q);
      assert Keep([s[0]], q) == if q(s[0]) then [s[0]] else [];
    }
  }

  /** A filter passes through a map. */
  lemma {:induction false} KeepMap<T, U>(s: seq<T>, f: T -> U, p: T -> bool, q: U -> bool)
    requires forall x :: x in s ==> (q(f(x)) <==> p(x))
    ensures Keep(Map(s, f), q) == Map(Keep(s, p), f)
  {
    if s != [] {
      KeepMap(s[1..], f, p, q);
      assert s[0] in s && Map(s, f)[1..] == Map(s[1..], f);
      MapAppend(if p(s[0]) then [s[0]] else [], Keep(s[1..], p), f);
    }
  }

  lemma {:induction false} MapMap<T, U, V>(s: seq<T>, f: T -> U, g: U -> V, h: T -> V)
    requires forall x :: x in s ==> h(x) == g(f(x))
    ensures Map(Map(s, f), g) == Map(s, h)
  {
    if s != [] {
      assert s[0] in s;
      MapMap(s[1..], f, g, h);
    }
  }

  /** How often an element survives a filter. */
  lemma {:induction false} KeepCount<T>(s: seq<T>, p: T -> bool, x: T)
    ensures multiset(Keep(s, p))[x] == if p(x) then multiset(s)[x] else 0
  {
    if s != [] {
      KeepCount(s[1..], p, x);
      assert s == [s[0]] + s[1..];
    }
  }

  function Count<T(==)>(s: seq<T>, x: T): nat {
    if s == [] then 0 else (if s[0] == x then 1 else 0) + Count(s[1..], x)
  }

  lemma {:induction false} CountIsMultiplicity<T>(s: seq<T>, x: T)
    ensures Count(s, x) == multiset(s)[x]
  {
    if s != [] {
      CountIsMultiplicity(s[1..], x);
      assert s == [s[0]] + s[1..];
    }
  }

  lemma {:induction false} CountAppend<T>(a: seq<T>, b: seq<T>, x: T)
    ensures Count(a + b, x) == Count(a, x) + Count(b, x)
  {
    if a == [] {
      assert a + b == b;
    } else {
      assert (a + b)[1..] == a[1..] + b;
      CountAppend(a[1..], b, x);
    }
  }

  lemma SameCounts<T>(a: seq<T>, b: seq<T>)
    requires forall x :: Count(a, x) == Count(b, x)
    ensures multiset(a) == multiset(b)
  {
    forall x: T ensures multiset(a)[x] == multiset(b)[x] {
      CountIsMultiplicity(a, x);
      CountIsMultiplicity(b, x);
    }
  }

  lemma MapConsCount<T, U>(x: T, s: seq<T>, f: T -> U, u: U)
    ensures Count(Map([x] + s, f), u) == (if f(x) == u then 1 else 0) + Count(Map(s, f), u)
  {
    assert ([x] + s)[1..] == s;
  }

  /** The two halves of a list hold what the list holds. */
  lemma {:induction false} MapSplitCount<T, U>(s: seq<T>, left: T -> bool, right: T -> bool, f: T -> U, u: U)
    requires forall x :: x in s ==> (right(x) <==> !left(x))
    ensures Count(Map(Keep(s, left), f), u) + Count(Map(Keep(s, right), f), u) == Count(Map(s, f), u)
  {
    if s != [] {
      assert s[0] in s;
      MapSplitCount(s[1..], left, right, f, u);
      var half := if left(s[0]) then left else right;
      MapConsCount(s[0], Keep(s[1..], half), f, u);
      assert Keep(s, left) == (if left(s[0]) then [s[0]] else []) + Keep(s[1..], left);
      assert Keep(s, right) == (if right(s[0]) then [s[0]] else []) + Keep(s[1..], right);
      assert [] + Keep(s[1..], left) == Keep(s[1..], left) && [] + Keep(s[1..], right) == Keep(s[1..], right);
    }
  }

  /** Splitting a list in two and filtering both halves selects what filtering the list does. */
  lemma MapKeepSplit<T, U>(s: seq<T>, left: T -> bool, right: T -> bool, p: T -> bool, f: T -> U)
    requires forall x :: x in s ==> (right(x) <==> !left(x))
    ensures multiset(Map(Keep(Keep(s, left), p), f) + Map(Keep(Keep(s, right), p), f))
         == multiset(Map(Keep(s, p), f))
  {
    KeepMembers(s, p);
    assert forall x :: x in Keep(s, p) ==> x in s;
    KeepKeep(s, left, p, x => left(x) && p(x));
    KeepKeep(s, p, left, x => left(x) && p(x));
    KeepKeep(s, right, p, x => right(x) && p(x));
    KeepKeep(s, p, right, x => right(x) && p(x));
    var l, r := Map(Keep(Keep(s, left), p), f), Map(Keep(Keep(s, right), p), f);
    forall u ensures Count(l + r, u) == Count(Map(Keep(s, p), f), u) {
      MapSplitCount(Keep(s, p), left, right, f, u);
      CountAppend(l, r, u);
    }
    SameCounts(l + r, Map(Keep(s, p), f));
  }

  lemma {:induction false} KeepNone<T>(s: seq<T>, p: T -> bool)
    requires forall x :: x in s ==> !p(x)
    ensures Keep(s, p) == []
  {
    if s != [] {
      assert s[0] in s;
      KeepNone(s[1..], p);
    }
  }

  lemma {:induction false} KeepSame<T>(s: seq<T>, p: T -> bool, q: T -> bool)
    requires forall x :: x in s ==> (p(x) <==> q(x))
    ensures Keep(s, p) == Keep(s, q)
  {
    if s != [] {
      assert s[0] in s;
      KeepSame(s[1..], p, q);
    }
  }
}
