/**
 The subscription index as one flat list of (filter, connection) pairs in
 subscription order, with a single matching rule. This is what the two-tier
 index of the broker is proved to behave like.
 */
module FlatIndex {
  import opened Topics
  import opened Wildcards
  import opened Lists

  datatype Sub = Sub(filter: string, c: Conn)

  type Flat = seq<Sub>

  // ----- the three updates -----

  /** A wildcard filter that is not well formed is silently ignored. */
  function AddSub(flat: Flat, filter: string, c: Conn): Flat {
    if IsWildcard(filter) && !WellFormed(Split(filter)) then flat else flat + [Sub(filter, c)]
  }

  /** Every pair equal to `sub` goes, however often it was added. */
  function DropPair(flat: Flat, sub: Sub): Flat {
    Keep(flat, (s: Sub) => s != sub)
  }

  /** The broker never removes a single wildcard subscription. */
  function Unsub(flat: Flat, filter: string, c: Conn): Flat {
    if IsWildcard(filter) then flat else DropPair(flat, Sub(filter, c))
  }

  function UnsubAll(flat: Flat, c: Conn): Flat {
    Keep(flat, (s: Sub) => s.c != c)
  }

  /** The calls of the index; a lookup of a topic's subscribers is one of them. */
  datatype Op =
    | OpAdd(filter: string, c: Conn)
    | OpUnsub(filter: string, c: Conn)
    | OpUnsubAll(c: Conn)
    | OpLookup(topic: string)

  function ApplyOp(flat: Flat, op: Op): Flat {
    match op
    case OpAdd(f, c) => AddSub(flat, f, c)
    case OpUnsub(f, c) => Unsub(flat, f, c)
    case OpUnsubAll(c) => UnsubAll(flat, c)
    case OpLookup(_) => flat
  }

  function ApplyOps(ops: seq<Op>): Flat {
    if ops == [] then [] else ApplyOp(ApplyOps(ops[..|ops| - 1]), ops[|ops| - 1])
  }

  // ----- who receives a topic -----

  function Selects(topic: string): Sub -> bool {
    (s: Sub) => Match(Split(s.filter), Split(topic))
  }

  function ConnOf(): Sub -> Conn {
    (s: Sub) => s.c
  }

  function IsLiteral(): Sub -> bool {
    (s: Sub) => !IsWildcard(s.filter)
  }

  function IsWild(): Sub -> bool {
    (s: Sub) => IsWildcard(s.filter)
  }

  /** All connections whose filter matches, in subscription order. */
  function Matching(flat: Flat, topic: string): seq<Conn> {
    Map(Keep(flat, Selects(topic)), ConnOf())
  }

  /** Exact subscribers first, wildcard subscribers after them, each in subscription order. */
  function Receivers(flat: Flat, topic: string): seq<Conn> {
    Matching(Keep(flat, IsLiteral()), topic) + Matching(Keep(flat, IsWild()), topic)
  }

  /** The two tiers together select every matching pair, as often as it was added. */
  lemma ReceiversAreTheMatching(flat: Flat, topic: string)
    ensures multiset(Receivers(flat, topic)) == multiset(Matching(flat, topic))
  {
    MapKeepSplit(flat, IsLiteral(), IsWild(), Selects(topic), ConnOf());
  }

  // ----- what is left of a history of updates -----

  function Occurrences(flat: Flat, sub: Sub): nat {
    multiset(flat)[sub]
  }

  predicate Removes(op: Op, sub: Sub) {
    match op
    case OpAdd(_, _) => false
    case OpUnsub(f, c) => '#' !in f && '+' !in f && sub == Sub(f, c)
    case OpUnsubAll(c) => sub.c == c
    case OpLookup(_) => false
  }

  predicate Accepted(filter: string) {
    IsWildcard(filter) ==> WellFormed(Split(filter))
  }

  /** Which filters are accepted, by their characters. */
  lemma AcceptedByCharacters(filter: string)
    ensures Accepted(filter) <==> ValidByCharacters(Split(filter))
    ensures !IsWildcard(filter) <==> '#' !in filter && '+' !in filter
  {
    WellFormedByCharacters(Split(filter));
    WildcardIsPerLevel(filter);
    if !IsWildcard(filter) {
      forall i | 0 <= i < |Split(filter)| ensures !IsWildcard(Split(filter)[i]) {
      }
    }
  }

  /** How often `sub` was added since the last update that removed it. */
  function AddsSinceRemoval(ops: seq<Op>, sub: Sub): nat {
    if ops == [] then 0
    else
      var last := ops[|ops| - 1];
      if Removes(last, sub) then 0
      else AddsSinceRemoval(ops[..|ops| - 1], sub) + (if last == OpAdd(sub.filter, sub.c) then 1 else 0)
  }

  /** After any history a pair is live as often as it was added since it was last removed. */
  lemma {:induction false} HistoryDecidesContents(ops: seq<Op>, sub: Sub)
    ensures Occurrences(ApplyOps(ops), sub) == if Accepted(sub.filter) then AddsSinceRemoval(ops, sub) else 0
  {
    if ops != [] {
      var before, last := ApplyOps(ops[..|ops| - 1]), ops[|ops| - 1];
      HistoryDecidesContents(ops[..|ops| - 1], sub);
      match last
      case OpAdd(f, c) =>
      case OpUnsub(f, c) => KeepCount(before, (s: Sub) => s != Sub(f, c), sub);
      case OpUnsubAll(c) => KeepCount(before, (s: Sub) => s.c != c, sub);
      case OpLookup(_) =>
    }
  }

  // ----- the index as the broker stores it -----

  function At(topic: string): Sub -> bool {
    (s: Sub) => s.filter == topic && !IsWildcard(s.filter)
  }

  /** Subscribers of a topic held in the hash map. */
  function ExactConns(flat: Flat, topic: string): seq<Conn> {
    Map(Keep(flat, At(topic)), ConnOf())
  }

  function ToWild(): Sub -> Wild {
    (s: Sub) => NewWild(s.filter, s.c)
  }

  /** The scanned list of split filters. */
  function WildList(flat: Flat): seq<Wild> {
    Map(Keep(flat, IsWild()), ToWild())
  }

  function WildMatches(parts: seq<string>): Wild -> bool {
    (w: Wild) => Match(w.wild, parts)
  }

  function WildConn(): Wild -> Conn {
    (w: Wild) => w.c
  }

  function MatchedConns(ws: seq<Wild>, parts: seq<string>): seq<Conn> {
    Map(Keep(ws, WildMatches(parts)), WildConn())
  }

  lemma MatchedSnoc(ws: seq<Wild>, w: Wild, parts: seq<string>)
    ensures MatchedConns(ws + [w], parts)
         == MatchedConns(ws, parts) + (if Match(w.wild, parts) then [w.c] else [])
  {
    KeepAppend(ws, [w], WildMatches(parts));
    MapAppend(Keep(ws, WildMatches(parts)), Keep([w], WildMatches(parts)), WildConn());
  }

  lemma ExactTier(flat: Flat, topic: string)
    ensures ExactConns(flat, topic) == Matching(Keep(flat, IsLiteral()), topic)
  {
    forall s: Sub | s in flat
      ensures At(topic)(s) <==> IsLiteral()(s) && Selects(topic)(s)
    {
      if !IsWildcard(s.filter) {
        LiteralMatchesOnlyItself(s.filter, topic);
      }
    }
    KeepKeep(flat, IsLiteral(), Selects(topic), At(topic));
  }

  lemma WildTier(flat: Flat, topic: string)
    ensures MatchedConns(WildList(flat), Split(topic)) == Matching(Keep(flat, IsWild()), topic)
  {
    var ws := Keep(flat, IsWild());
    KeepMap(ws, ToWild(), Selects(topic), WildMatches(Split(topic)));
    MapMap(Keep(ws, Selects(topic)), ToWild(), WildConn(), ConnOf());
  }

  /** The list the broker assembles from its two tiers is the flat list's. */
  lemma TwoTiersAreReceivers(flat: Flat, topic: string)
    ensures ExactConns(flat, topic) + MatchedConns(WildList(flat), Split(topic)) == Receivers(flat, topic)
  {
    ExactTier(flat, topic);
    WildTier(flat, topic);
  }

  // ----- how the updates act on the two tiers -----

  function Other(c: Conn): Conn -> bool {
    (x: Conn) => x != c
  }

  function OtherWild(c: Conn): Wild -> bool {
    (w: Wild) => w.c != c
  }

  /** If a topic's list was the flat list's, it is so again after the same update of both. */
  lemma AddExactConns(flat: Flat, last: Sub, topic: string, was: seq<Conn>, now: seq<Conn>)
    requires was == ExactConns(flat, topic)
    requires now == if last.filter == topic && !IsWildcard(topic) then was + [last.c] else was
    ensures now == ExactConns(flat + [last], topic)
  {
    KeepAppend(flat, [last], At(topic));
    MapAppend(Keep(flat, At(topic)), Keep([last], At(topic)), ConnOf());
  }

  lemma AddWildList(flat: Flat, last: Sub)
    ensures WildList(flat + [last])
         == WildList(flat) + (if IsWildcard(last.filter) then [NewWild(last.filter, last.c)] else [])
  {
    KeepAppend(flat, [last], IsWild());
    MapAppend(Keep(flat, IsWild()), Keep([last], IsWild()), ToWild());
  }

  /** No exact subscription has a wildcard filter. */
  lemma NoExactSubscribers(flat: Flat, topic: string)
    requires IsWildcard(topic)
    ensures ExactConns(flat, topic) == []
  {
    KeepMembers(flat, At(topic));
    var none := Keep(flat, At(topic));
    assert forall i :: 0 <= i < |none| ==> none[i] in none;
  }

  lemma UnsubExactConns(flat: Flat, filter: string, c: Conn, topic: string, was: seq<Conn>, now: seq<Conn>)
    requires was == ExactConns(flat, topic)
    requires now == if topic == filter then Keep(was, Other(c)) else was
    ensures now == ExactConns(Unsub(flat, filter, c), topic)
  {
    var stays := (s: Sub) => s != Sub(filter, c);
    if IsWildcard(filter) {
      NoExactSubscribers(flat, filter);
    } else if topic == filter {
      var other := (s: Sub) => s.c != c;
      var both := (s: Sub) => At(topic)(s) && s.c != c;
      KeepKeep(flat, stays, At(topic), both);
      KeepKeep(flat, At(topic), other, both);
      KeepMap(Keep(flat, At(topic)), ConnOf(), other, Other(c));
    } else {
      KeepKeep(flat, stays, At(topic), At(topic));
    }
  }

  lemma UnsubWildList(flat: Flat, filter: string, c: Conn)
    ensures WildList(Unsub(flat, filter, c)) == WildList(flat)
  {
    if !IsWildcard(filter) {
      KeepKeep(flat, (s: Sub) => s != Sub(filter, c), IsWild(), IsWild());
    }
  }

  lemma UnsubAllExactConns(flat: Flat, c: Conn, topic: string, was: seq<Conn>, now: seq<Conn>)
    requires was == ExactConns(flat, topic) && now == Keep(was, Other(c))
    ensures now == ExactConns(UnsubAll(flat, c), topic)
  {
    var other := (s: Sub) => s.c != c;
    var both := (s: Sub) => At(topic)(s) && s.c != c;
    KeepKeep(flat, other, At(topic), both);
    KeepKeep(flat, At(topic), other, both);
    KeepMap(Keep(flat, At(topic)), ConnOf(), other, Other(c));
  }

  lemma UnsubAllWildList(flat: Flat, c: Conn)
    ensures WildList(UnsubAll(flat, c)) == Keep(WildList(flat), OtherWild(c))
  {
    var other := (s: Sub) => s.c != c;
    var both := (s: Sub) => IsWild()(s) && s.c != c;
    KeepKeep(flat, other, IsWild(), both);
    KeepKeep(flat, IsWild(), other, both);
    KeepMap(Keep(flat, IsWild()), ToWild(), other, OtherWild(c));
  }
}
