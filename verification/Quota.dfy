/**
 The subscription quota: `subN` counts SUBSCRIBE topics up and UNSUBSCRIBE topics down,
 whether or not the index changed, and a count above the limit requests a stop.
 */
module Quota {
  import opened Topics
  import opened Lists
  import opened Runs
  import opened FlatIndex
  import opened Connections

  function OwnedBy(c: Conn): Sub -> bool {
    (s: Sub) => s.c == c
  }

  /** The subscriptions a connection holds in the index. */
  function LiveSubs(flat: Flat, c: Conn): nat {
    |Keep(flat, OwnedBy(c))|
  }

  /** The connection holds an exact subscription to the topic. */
  predicate Held(flat: Flat, topic: string, c: Conn) {
    !IsWildcard(topic) && Sub(topic, c) in flat
  }

  lemma AddCounts(flat: Flat, filter: string, owner: Conn, c: Conn)
    ensures LiveSubs(AddSub(flat, filter, owner), c)
         == LiveSubs(flat, c) + (if owner == c && Accepted(filter) then 1 else 0)
  {
    KeepAppend(flat, [Sub(filter, owner)], OwnedBy(c));
    assert Keep([Sub(filter, owner)], OwnedBy(c)) == if owner == c then [Sub(filter, owner)] else [];
  }

  /** Dropping a pair takes away as many subscriptions as it occurs. */
  lemma {:induction false} DropCounts(flat: Flat, gone: Sub, c: Conn)
    ensures LiveSubs(DropPair(flat, gone), c)
         == LiveSubs(flat, c) - (if gone.c == c then Count(flat, gone) else 0)
  {
    if flat != [] {
      DropCounts(flat[1..], gone, c);
      var stays := (s: Sub) => s != gone;
      assert DropPair(flat, gone) == (if flat[0] != gone then [flat[0]] else []) + DropPair(flat[1..], gone);
      KeepAppend(if flat[0] != gone then [flat[0]] else [], DropPair(flat[1..], gone), OwnedBy(c));
      assert Keep([flat[0]], OwnedBy(c)) == if flat[0].c == c then [flat[0]] else [];
    }
  }

  lemma {:induction false} CountIsMembership(flat: Flat, sub: Sub)
    ensures Count(flat, sub) > 0 <==> sub in flat
  {
    if flat != [] {
      CountIsMembership(flat[1..], sub);
      assert flat == [flat[0]] + flat[1..];
    }
  }

  lemma {:induction false} DropAllCounts(flat: Flat, owner: Conn, c: Conn)
    ensures LiveSubs(FlatIndex.UnsubAll(flat, owner), c) == if owner == c then 0 else LiveSubs(flat, c)
  {
    var others := (s: Sub) => s.c != owner;
    var both := (s: Sub) => s.c == c && s.c != owner;
    KeepKeep(flat, others, OwnedBy(c), both);
    if owner == c {
      KeepNone(flat, both);
    } else {
      KeepSame(flat, OwnedBy(c), both);
    }
  }

  // ----- the counter over runs -----

  /** What the counter allows beyond what is held. */
  function Slack(s: State, c: Conn): int {
    Get(s, c).subN - LiveSubs(s.flat, c)
  }

  /**
   What moves the slack: SUBSCRIBE topics the index refuses, copies of a pair beyond the first that an
   UNSUBSCRIBE drops, subscriptions that teardown drops, and UNSUBSCRIBE topics that drop nothing.
   */
  datatype Ledger = Ledger(refused: nat, surplus: nat, dropped: nat, idle: nat) {
    function Balance(): int {
      refused + surplus + dropped - idle
    }

    function Plus(other: Ledger): Ledger {
      Ledger(refused + other.refused, surplus + other.surplus, dropped + other.dropped, idle + other.idle)
    }
  }

  const BLANK: Ledger := Ledger(0, 0, 0, 0)

  /** The entry a step makes for a connection. */
  function Entry(s: State, e: Event, c: Conn): Ledger {
    if e.c != c then BLANK
    else match e
      case Subscribe(_, topic) => if Accepted(topic) then BLANK else BLANK.(refused := 1)
      case Unsubscribe(_, topic) =>
        if Held(s.flat, topic, c) && Count(s.flat, Sub(topic, c)) > 0
        then BLANK.(surplus := Count(s.flat, Sub(topic, c)) - 1) else BLANK.(idle := 1)
      case DropSubscriptions(_) => BLANK.(dropped := LiveSubs(s.flat, c))
      case _ => BLANK
  }

  lemma SubscribeSlack(s: State, x: Conn, topic: string, c: Conn)
    requires Next(s, Subscribe(x, topic)).Some?
    ensures Slack(Next(s, Subscribe(x, topic)).value, c) == Slack(s, c) + (if x == c && !Accepted(topic) then 1 else 0)
  {
    AddCounts(s.flat, topic, x, c);
  }

  lemma UnsubscribeDrops(s: State, x: Conn, topic: string, c: Conn)
    requires Next(s, Unsubscribe(x, topic)).Some?
    ensures Slack(Next(s, Unsubscribe(x, topic)).value, c) == Slack(s, c) +
              (if x != c then 0 else if IsWildcard(topic) then -1 else Count(s.flat, Sub(topic, c)) - 1)
  {
    DropCounts(s.flat, Sub(topic, x), c);
  }

  lemma TeardownDrops(s: State, x: Conn, c: Conn)
    requires Next(s, DropSubscriptions(x)).Some?
    ensures Slack(Next(s, DropSubscriptions(x)).value, c) == Slack(s, c) + (if x == c then LiveSubs(s.flat, c) else 0)
  {
    DropAllCounts(s.flat, x, c);
  }

  lemma RestKeepsSlack(s: State, e: Event, c: Conn)
    requires Next(s, e).Some? && !e.Subscribe? && !e.Unsubscribe? && !e.DropSubscriptions?
    ensures Slack(Next(s, e).value, c) == Slack(s, c)
  {
    var t := Next(s, e).value;
    assert t.flat == s.flat && Get(t, c).subN == Get(s, c).subN;
  }

  lemma SlackStep(s: State, e: Event, c: Conn)
    requires Next(s, e).Some?
    ensures Slack(Next(s, e).value, c) == Slack(s, c) + Entry(s, e, c).Balance()
  {
    match e
    case Subscribe(x, topic) => SubscribeSlack(s, x, topic, c);
    case Unsubscribe(x, topic) =>
      UnsubscribeDrops(s, x, topic, c);
      CountIsMembership(s.flat, Sub(topic, x));
    case DropSubscriptions(x) => TeardownDrops(s, x, c);
    case _ => RestKeepsSlack(s, e, c);
  }

  /** The ledger of a run. */
  function Booked(max: nat, events: seq<Event>, c: Conn): Ledger {
    if events == [] then BLANK
    else
      var n := |events| - 1;
      Booked(max, events[..n], c).Plus(Entry(StateAt(max, events, n), events[n], c))
  }

  lemma {:induction false} SlackIsBooked(max: nat, events: seq<Event>, c: Conn)
    requires Run(Next, Init(max), events).Some?
    ensures Slack(Run(Next, Init(max), events).value, c) == Booked(max, events, c).Balance()
  {
    if events != [] {
      var n := |events| - 1;
      SlackIsBooked(max, events[..n], c);
      SlackStep(Run(Next, Init(max), events[..n]).value, events[n], c);
    }
  }

  /** In every run the client holds no more than the counter says exactly if the idle UNSUBSCRIBEs are made up for. */
  lemma CounterBoundsIff(max: nat, events: seq<Event>, c: Conn)
    requires Run(Next, Init(max), events).Some?
    ensures var s, l := Run(Next, Init(max), events).value, Booked(max, events, c);
            LiveSubs(s.flat, c) <= Get(s, c).subN <==> l.idle <= l.refused + l.surplus + l.dropped
  {
    SlackIsBooked(max, events, c);
  }

  /** An UNSUBSCRIBE costs slack exactly if the topic is not an exact one the client holds. */
  lemma UnsubscribeSlack(s: State, c: Conn, topic: string)
    requires Next(s, Unsubscribe(c, topic)).Some?
    ensures Slack(Next(s, Unsubscribe(c, topic)).value, c) >= Slack(s, c) <==> Held(s.flat, topic, c)
    ensures Slack(Next(s, Unsubscribe(c, topic)).value, c) >= Slack(s, c) - 1
  {
    SlackStep(s, Unsubscribe(c, topic), c);
    CountIsMembership(s.flat, Sub(topic, c));
  }

  /** No other step costs slack. */
  lemma OtherStepsKeepSlack(s: State, e: Event, c: Conn)
    requires Next(s, e).Some? && !(e.Unsubscribe? && e.c == c)
    ensures Slack(Next(s, e).value, c) >= Slack(s, c)
  {
    SlackStep(s, e, c);
  }

  /** Steps in which the client unsubscribes only from exact topics it holds. */
  function Polite(c: Conn): (State, Event) -> Option<State> {
    (s: State, e: Event) => if e.Unsubscribe? && e.c == c && !Held(s.flat, e.topic, c) then None else Next(s, e)
  }

  ghost predicate Within(s: State, c: Conn, max: nat) {
    && s.max == max && Slack(s, c) >= 0
    && (!Get(s, c).stopped ==> Get(s, c).subN <= max)
  }

  lemma WithinKept(s: State, e: Event, c: Conn, max: nat)
    requires Within(s, c, max) && Polite(c)(s, e).Some?
    ensures Within(Polite(c)(s, e).value, c, max)
  {
    if e.Unsubscribe? && e.c == c {
      UnsubscribeSlack(s, c, e.topic);
    } else {
      OtherStepsKeepSlack(s, e, c);
    }
  }

  /** In every such run the client never holds more than the counter says, nor, before a stop, than the limit. */
  lemma QuotaIsKept(max: nat, events: seq<Event>, c: Conn)
    requires Run(Polite(c), Init(max), events).Some?
    ensures var s := Run(Polite(c), Init(max), events).value;
            && LiveSubs(s.flat, c) <= Get(s, c).subN
            && (!Get(s, c).stopped ==> LiveSubs(s.flat, c) <= max)
  {
    forall s, e | Within(s, c, max) && Polite(c)(s, e).Some? ensures Within(Polite(c)(s, e).value, c, max) {
      WithinKept(s, e, c, max);
    }
    Invariant(Polite(c), Init(max), events, (s: State) => Within(s, c, max));
  }

  /** Without that discipline the counter is no bound: one idle UNSUBSCRIBE puts it below what is held. */
  lemma IdleUnsubscribeBreaksTheCount(max: nat, c: Conn, id: string, topic: string, idle: string)
    returns (events: seq<Event>)
    requires Accepted(topic) && idle != topic
    ensures Run(Next, Init(max), events).Some?
    ensures var s := Run(Next, Init(max), events).value;
            LiveSubs(s.flat, c) == 1 && Get(s, c).subN == 0
  {
    events := [Connect(c, id), AddFirst(c), AddAgain(c), Subscribe(c, topic), Unsubscribe(c, idle)];
    var s0 := Init(max);
    var s1 := Next(s0, events[0]).value;
    var s2 := Next(s1, events[1]).value;
    var s3 := Next(s2, events[2]).value;
    var s4 := Next(s3, events[3]).value;
    var s5 := Next(s4, events[4]).value;
    AddCounts(s3.flat, topic, c, c);
    DropCounts(s4.flat, Sub(idle, c), c);
    CountIsMembership(s4.flat, Sub(idle, c));
    TraceIsRun(Next, [s0, s1, s2, s3, s4, s5], events);
  }
}
