/** Sums over finite maps, for measures. */
module Sums {
  import opened Runs

  ghost function Sum<K(!new)>(m: map<K, nat>): nat
    decreases |m|
  {
    if m == map[] then 0
    else
      var k :| k in m;
      m[k] + Sum(m - {k})
  }

  /** Any key may be taken out first. */
  lemma {:induction false} SumTake<K(!new)>(m: map<K, nat>, k: K)
    requires k in m
    ensures Sum(m) == m[k] + Sum(m - {k})
    decreases |m|
  {
    var j :| j in m && Sum(m) == m[j] + Sum(m - {j});
    if j != k {
      SumTake(m - {j}, k);
      SumTake(m - {k}, j);
      assert m - {j} - {k} == m - {k} - {j};
    }
  }

  lemma SumPut<K(!new)>(m: map<K, nat>, k: K, n: nat)
    ensures Sum(m[k := n]) == Sum(m) - (if k in m then m[k] else 0) + n
  {
    SumTake(m[k := n], k);
    if k in m {
      SumTake(m, k);
      assert m[k := n] - {k} == m - {k};
    } else {
      assert m[k := n] - {k} == m;
    }
  }

  /** Repeated addition, so that measures stay linear for the verifier. */
  function Times(n: nat, weight: nat): nat {
    if n == 0 then 0 else weight + Times(n - 1, weight)
  }

  lemma {:induction false} TimesAdds(a: nat, b: nat, weight: nat)
    ensures Times(a + b, weight) == Times(a, weight) + Times(b, weight)
    ensures b > 0 ==> Times(b, weight) >= weight
  {
    if b > 0 {
      TimesAdds(a, b - 1, weight);
    }
  }

  function CountIf<E>(events: seq<E>, p: E -> bool): nat {
    if events == [] then 0
    else CountIf(events[..|events| - 1], p) + (if p(events[|events| - 1]) then 1 else 0)
  }

  /**
   If every counted step costs weight, no step adds any, and some are paid for at a fixed price, then
   the number of counted steps is bounded by the weight at the start and the number of paid ones.
   */
  lemma {:induction false} RunIsBounded<S(!new), E(!new)>(
    next: (S, E) -> Option<S>, start: S, events: seq<E>, inv: S -> bool, weight: S -> nat,
    counted: E -> bool, paid: E -> bool, price: nat)
    requires inv(start) && Run(next, start, events).Some?
    requires forall s, e :: inv(s) && next(s, e).Some? ==> inv(next(s, e).value)
    requires forall s, e :: inv(s) && next(s, e).Some? ==>
               (if counted(e) then 1 else 0) + weight(next(s, e).value) <= weight(s) + (if paid(e) then price else 0)
    ensures var end := Run(next, start, events).value;
            inv(end) && CountIf(events, counted) + weight(end) <= weight(start) + Times(CountIf(events, paid), price)
  {
    if events != [] {
      var init, e := events[..|events| - 1], events[|events| - 1];
      RunIsBounded(next, start, init, inv, weight, counted, paid, price);
      TimesAdds(CountIf(init, paid), 1, price);
    }
  }
}
