/**
 Many connections sharing the registry of client ids and the subscription index:
 connecting and taking over an id, subscribing under a quota, and the teardown that
 the outbound loop does after the inbound loop has ended.
 */
module Connections {
  import opened Topics
  import opened Lists
  import opened Runs
  import opened FlatIndex

  /**
   The inbound loop of a connection. `doConnect` notes the id (`Presenting`), then tries to register
   (`add`); if the id is taken it has the holder disconnected (`Displacing`), unregisters it, and
   registers again.
   */
  datatype Phase = Fresh | Presenting | Displacing(existing: Conn) | Registering | Ready | Ended

  /** The outbound loop: on its way out it unregisters, then drops all subscriptions. */
  datatype Teardown = Running | Unregistered(orderly: bool) | Gone(orderly: bool)

  datatype Connection = Connection(
    flag: Option<string>,
    phase: Phase,
    out: Teardown,
    subN: int,
    stopped: bool,
    connects: nat
  )

  datatype State = State(registry: map<string, Conn>, flat: Flat, conns: map<Conn, Connection>, max: nat)

  datatype Event =
    | Connect(c: Conn, id: string)
    | AddFirst(c: Conn)
    | Unregister(c: Conn)
    | AddAgain(c: Conn)
    | Subscribe(c: Conn, topic: string)
    | Unsubscribe(c: Conn, topic: string)
    | InboundEnds(c: Conn)
    | Del(c: Conn)
    | DropSubscriptions(c: Conn)

  const NEW: Connection := Connection(None, Fresh, Running, 0, false, 0)

  function Init(max: nat): State {
    State(map[], [], map[], max)
  }

  function Get(s: State, c: Conn): Connection {
    if c in s.conns then s.conns[c] else NEW
  }

  function Set(s: State, c: Conn, k: Connection): State {
    s.(conns := s.conns[c := k])
  }

  /** `del` removes the entry of a connection's id, whoever holds it. */
  function Forget(registry: map<string, Conn>, k: Connection): map<string, Conn> {
    if k.flag.Some? then registry - {k.flag.value} else registry
  }

  function Next(s: State, e: Event): Option<State> {
    var k := Get(s, e.c);
    match e
    case Connect(c, id) =>
      if k.phase != Fresh && k.phase != Ready then None
      else Some(Set(s, c, k.(flag := Some(id), connects := k.connects + 1, phase := Presenting)))
    case AddFirst(c) =>
      if k.phase != Presenting || k.flag.None? then None
      else if k.flag.value in s.registry then Some(Set(s, c, k.(phase := Displacing(s.registry[k.flag.value]))))
      else Some(Set(s, c, k.(phase := Registering)).(registry := s.registry[k.flag.value := c]))
    case Unregister(c) =>
      if !k.phase.Displacing? then None
      else Some(Set(s, c, k.(phase := Registering)).(registry := Forget(s.registry, Get(s, k.phase.existing))))
    case AddAgain(c) =>
      if k.phase != Registering || k.flag.None? then None
      else
        Some(Set(s, c, k.(phase := Ready)).(
          registry := if k.flag.value in s.registry then s.registry else s.registry[k.flag.value := c]))
    case Subscribe(c, topic) =>
      if k.phase != Ready then None
      else
        Some(Set(s, c, k.(subN := k.subN + 1, stopped := k.stopped || k.subN + 1 > s.max)).(
          flat := AddSub(s.flat, topic, c)))
    case Unsubscribe(c, topic) =>
      if k.phase != Fresh && k.phase != Ready then None
      else Some(Set(s, c, k.(subN := k.subN - 1)).(flat := FlatIndex.Unsub(s.flat, topic, c)))
    case InboundEnds(c) =>
      if k.phase != Fresh && k.phase != Ready then None else Some(Set(s, c, k.(phase := Ended)))
    case Del(c) =>
      if k.out != Running then None
      else Some(Set(s, c, k.(out := Unregistered(k.phase == Ended))).(registry := Forget(s.registry, k)))
    case DropSubscriptions(c) =>
      if !k.out.Unregistered? then None
      else Some(Set(s, c, k.(out := Gone(k.out.orderly))).(flat := FlatIndex.UnsubAll(s.flat, c)))
  }

  /**
   What a connection may do when: the inbound loop handles requests before and after the CONNECT, all but
   SUBSCRIBE before it too, and goes through `doConnect` in order; the outbound loop unregisters and drops
   the subscriptions once, whatever the inbound loop is doing.
   */
  predicate MayCome(k: Connection, e: Event) {
    match e
    case Connect(_, _) => k.phase == Fresh || k.phase == Ready
    case AddFirst(_) => k.phase == Presenting && k.flag.Some?
    case Unregister(_) => k.phase.Displacing?
    case AddAgain(_) => k.phase == Registering && k.flag.Some?
    case Subscribe(_, _) => k.phase == Ready
    case Unsubscribe(_, _) => k.phase == Fresh || k.phase == Ready
    case InboundEnds(_) => k.phase == Fresh || k.phase == Ready
    case Del(_) => k.out == Running
    case DropSubscriptions(_) => k.out.Unregistered?
  }

  lemma StepIsPossibleIff(s: State, e: Event)
    ensures Next(s, e).Some? <==> MayCome(Get(s, e.c), e)
  {
  }

  /** A stop is requested exactly by the SUBSCRIBE topics that take the count above the limit. */
  lemma StopIsRequestedIff(s: State, e: Event, c: Conn)
    requires Next(s, e).Some?
    ensures Get(Next(s, e).value, c).stopped
       <==> Get(s, c).stopped || (e.Subscribe? && e.c == c && Get(s, c).subN >= s.max)
  {
  }

  // ----- teardown -----

  ghost predicate Registered(s: State, c: Conn) {
    exists id :: id in s.registry && s.registry[id] == c
  }

  ghost predicate InIndex(s: State, c: Conn) {
    exists sub :: sub in s.flat && sub.c == c
  }

  /** A connection that sent one CONNECT is registered under its own id only, and not at all once torn down. */
  ghost predicate TornDown(s: State, c: Conn) {
    var k := Get(s, c);
    && (k.connects <= 1 ==> forall id :: id in s.registry && s.registry[id] == c ==> k.flag == Some(id))
    && (k.connects == 0 ==> k.flag == None && !Registered(s, c))
    && (!k.out.Running? && k.out.orderly ==>
          k.phase == Ended && (k.connects <= 1 ==> !Registered(s, c)))
    && (k.out.Gone? && k.out.orderly ==> !InIndex(s, c))
  }

  lemma IndexGrowsBySubscribing(flat: Flat, filter: string, c: Conn, x: Conn)
    ensures forall sub :: sub in AddSub(flat, filter, c) && sub.c != c ==> sub in flat
    ensures forall sub :: sub in FlatIndex.Unsub(flat, filter, c) ==> sub in flat
    ensures forall sub :: sub in FlatIndex.UnsubAll(flat, x) ==> sub in flat && sub.c != x
  {
    KeepMembers(flat, (s: Sub) => s != Sub(filter, c));
    KeepMembers(flat, (s: Sub) => s.c != x);
  }

  lemma TornDownKept(s: State, e: Event, c: Conn)
    requires TornDown(s, c) && Next(s, e).Some?
    ensures TornDown(Next(s, e).value, c)
  {
    match e
    case Subscribe(x, topic) => IndexGrowsBySubscribing(s.flat, topic, x, c);
    case Unsubscribe(x, topic) => IndexGrowsBySubscribing(s.flat, topic, x, c);
    case DropSubscriptions(x) => IndexGrowsBySubscribing(s.flat, "", x, x);
    case Connect(_, _) =>
    case AddFirst(_) =>
    case Unregister(_) =>
    case AddAgain(_) =>
    case InboundEnds(_) =>
    case Del(_) =>
  }

  lemma TornDownHolds(max: nat, events: seq<Event>, c: Conn)
    ensures var r := Run(Next, Init(max), events); r.Some? ==> TornDown(r.value, c)
  {
    forall s, e | TornDown(s, c) && Next(s, e).Some? ensures TornDown(Next(s, e).value, c) {
      TornDownKept(s, e, c);
    }
    Invariant(Next, Init(max), events, (s: State) => TornDown(s, c));
  }

  /** Teardown is final. */
  lemma {:induction false} GoneIsFinal(s: State, events: seq<Event>, c: Conn)
    requires Get(s, c).phase == Ended && Get(s, c).out.Gone? && Run(Next, s, events).Some?
    ensures Get(Run(Next, s, events).value, c) == Get(s, c)
  {
    if events != [] {
      GoneIsFinal(s, events[..|events| - 1], c);
    }
  }

  lemma NotInIndexNotReceiving(flat: Flat, c: Conn, topic: string)
    requires forall sub :: sub in flat ==> sub.c != c
    ensures c !in Receivers(flat, topic)
  {
    forall half | half == Keep(flat, IsLiteral()) || half == Keep(flat, IsWild())
      ensures c !in Matching(half, topic)
    {
      KeepMembers(flat, IsLiteral());
      KeepMembers(flat, IsWild());
      KeepMembers(half, Selects(topic));
      MapAt(Keep(half, Selects(topic)), ConnOf());
    }
  }

  /**
   In every run with one CONNECT on the connection: if its inbound loop had ended before the
   outbound loop tore it down, then from then on, whatever happens, it is not registered, not in
   the index, and selected for no topic.
   */
  lemma TeardownIsClean(max: nat, events: seq<Event>, more: seq<Event>, c: Conn, topic: string)
    requires Run(Next, Init(max), events).Some? && Run(Next, Init(max), events + more).Some?
    requires var k := Get(Run(Next, Init(max), events).value, c); k.out == Gone(true) && k.connects <= 1
    ensures var t := Run(Next, Init(max), events + more).value;
            !Registered(t, c) && !InIndex(t, c) && c !in Receivers(t.flat, topic)
  {
    TornDownHolds(max, events, c);
    RunSplits(Next, Init(max), events, more);
    GoneIsFinal(Run(Next, Init(max), events).value, more, c);
    TornDownHolds(max, events + more, c);
    NotInIndexNotReceiving(Run(Next, Init(max), events + more).value.flat, c, topic);
  }

  /** The call of the index that an event amounts to, if it does. */
  function OpsOf(e: Event): seq<Op> {
    match e
    case Subscribe(c, topic) => [OpAdd(topic, c)]
    case Unsubscribe(c, topic) => [OpUnsub(topic, c)]
    case DropSubscriptions(c) => [OpUnsubAll(c)]
    case _ => []
  }

  /** The index updates among the events of a run, in order. */
  function Ops(events: seq<Event>): seq<Op> {
    if events == [] then [] else Ops(events[..|events| - 1]) + OpsOf(events[|events| - 1])
  }

  lemma FlatStep(s: State, e: Event)
    requires Next(s, e).Some?
    ensures Next(s, e).value.flat == if OpsOf(e) == [] then s.flat else ApplyOp(s.flat, OpsOf(e)[0])
  {
    match e
    case Connect(_, _) =>
    case AddFirst(_) =>
    case Unregister(_) =>
    case AddAgain(_) =>
    case Subscribe(_, _) =>
    case Unsubscribe(_, _) =>
    case InboundEnds(_) =>
    case Del(_) =>
    case DropSubscriptions(_) =>
  }

  lemma OpsSnoc(ops: seq<Op>, e: Event)
    ensures ApplyOps(ops + OpsOf(e)) == if OpsOf(e) == [] then ApplyOps(ops) else ApplyOp(ApplyOps(ops), OpsOf(e)[0])
  {
    if OpsOf(e) == [] {
      assert ops + OpsOf(e) == ops;
    } else {
      assert (ops + OpsOf(e))[..|ops|] == ops;
    }
  }

  lemma {:induction false} IndexIsItsHistory(max: nat, events: seq<Event>)
    requires Run(Next, Init(max), events).Some?
    ensures Run(Next, Init(max), events).value.flat == ApplyOps(Ops(events))
  {
    if events != [] {
      var init, e := events[..|events| - 1], events[|events| - 1];
      IndexIsItsHistory(max, init);
      FlatStep(Run(Next, Init(max), init).value, e);
      OpsSnoc(Ops(init), e);
    }
  }

  /** A connection is in the index exactly if it has subscribed since it last dropped that subscription. */
  lemma InIndexIffSubscribedSince(max: nat, events: seq<Event>, c: Conn)
    requires Run(Next, Init(max), events).Some?
    ensures InIndex(Run(Next, Init(max), events).value, c)
       <==> exists filter :: Accepted(filter) && AddsSinceRemoval(Ops(events), Sub(filter, c)) > 0
  {
    IndexIsItsHistory(max, events);
    var flat := Run(Next, Init(max), events).value.flat;
    forall sub: Sub
      ensures sub in flat <==> Accepted(sub.filter) && AddsSinceRemoval(Ops(events), sub) > 0
    {
      HistoryDecidesContents(Ops(events), sub);
    }
    if InIndex(Run(Next, Init(max), events).value, c) {
      var sub :| sub in flat && sub.c == c;
      assert sub == Sub(sub.filter, c);
    }
    if filter :| Accepted(filter) && AddsSinceRemoval(Ops(events), Sub(filter, c)) > 0 {
      assert Sub(filter, c) in flat;
    }
  }

  /** If the outbound loop goes first, a subscription handled after it stays in the index for good. */
  lemma EarlyTeardownLeaks(max: nat, c: Conn, id: string, topic: string) returns (events: seq<Event>)
    requires Accepted(topic)
    ensures Run(Next, Init(max), events).Some?
    ensures var s := Run(Next, Init(max), events).value;
            && Get(s, c).phase == Ended && Get(s, c).out == Gone(false) && Get(s, c).connects == 1
            && InIndex(s, c)
  {
    events := [Connect(c, id), AddFirst(c), AddAgain(c), Del(c), DropSubscriptions(c), Subscribe(c, topic), InboundEnds(c)];
    var s0 := Init(max);
    var s1 := Next(s0, events[0]).value;
    var s2 := Next(s1, events[1]).value;
    var s3 := Next(s2, events[2]).value;
    var s4 := Next(s3, events[3]).value;
    var s5 := Next(s4, events[4]).value;
    var s6 := Next(s5, events[5]).value;
    var s7 := Next(s6, events[6]).value;
    assert Sub(topic, c) in s7.flat;
    TraceIsRun(Next, [s0, s1, s2, s3, s4, s5, s6, s7], events);
  }

  /** A CONNECT under a free id. */
  lemma Connects(s: State, c: Conn, id: string) returns (t: State)
    requires (Get(s, c).phase == Fresh || Get(s, c).phase == Ready) && id !in s.registry
    ensures Run(Next, s, [Connect(c, id), AddFirst(c), AddAgain(c)]) == Some(t)
    ensures t == Set(s, c, t.conns[c]).(registry := s.registry[id := c]) && c in t.conns
    ensures t.conns[c] == Get(s, c).(flag := Some(id), connects := Get(s, c).connects + 1, phase := Ready)
  {
    var u := Next(s, Connect(c, id)).value;
    var v := Next(u, AddFirst(c)).value;
    t := Next(v, AddAgain(c)).value;
    TraceIsRun(Next, [s, u, v, t], [Connect(c, id), AddFirst(c), AddAgain(c)]);
  }

  /** An orderly teardown takes the connection's own id out of the registry. */
  lemma Leaves(s: State, c: Conn, id: string) returns (t: State)
    requires Get(s, c).phase == Ready && Get(s, c).out == Running && Get(s, c).flag == Some(id)
    ensures Run(Next, s, [InboundEnds(c), Del(c), DropSubscriptions(c)]) == Some(t)
    ensures t.registry == s.registry - {id} && Get(t, c).out == Gone(true) && Get(t, c).connects == Get(s, c).connects
  {
    var u := Next(s, InboundEnds(c)).value;
    var v := Next(u, Del(c)).value;
    t := Next(v, DropSubscriptions(c)).value;
    TraceIsRun(Next, [s, u, v, t], [InboundEnds(c), Del(c), DropSubscriptions(c)]);
  }

  /** And a second CONNECT under another id leaves the first id registered for good. */
  lemma SecondConnectLeaks(max: nat, c: Conn, id: string, other: string) returns (events: seq<Event>)
    requires id != other
    ensures Run(Next, Init(max), events).Some?
    ensures var s := Run(Next, Init(max), events).value;
            Get(s, c).out == Gone(true) && Get(s, c).connects == 2 && Registered(s, c)
  {
    var s1 := Connects(Init(max), c, id);
    var s2 := Connects(s1, c, other);
    var s3 := Leaves(s2, c, other);
    var once, again := [Connect(c, id), AddFirst(c), AddAgain(c)], [Connect(c, other), AddFirst(c), AddAgain(c)];
    var leave := [InboundEnds(c), Del(c), DropSubscriptions(c)];
    RunsCompose(Next, Init(max), once, s1, again, s2);
    RunsCompose(Next, Init(max), once + again, s2, leave, s3);
    events := once + again + leave;
    assert id in s3.registry && s3.registry[id] == c;
  }

  // ----- the registry as its history -----

  /** The event is an `add` that takes effect: the id was free. */
  predicate Adds(s: State, e: Event, id: string, c: Conn) {
    id !in s.registry && (e == AddFirst(c) || e == AddAgain(c)) && Get(s, c).flag == Some(id)
  }

  /** The event is a `del` of the id: by its own teardown, or by a newcomer that displaces its holder. */
  predicate Deletes(s: State, e: Event, id: string) {
    || (e.Del? && Get(s, e.c).flag == Some(id))
    || (e.Unregister? && Get(s, e.c).phase.Displacing? && Get(s, Get(s, e.c).phase.existing).flag == Some(id))
  }

  predicate Touches(s: State, e: Event, id: string) {
    Adds(s, e, id, e.c) || Deletes(s, e, id)
  }

  lemma RegistryStep(s: State, e: Event, id: string, c: Conn)
    requires Next(s, e).Some?
    ensures var t := Next(s, e).value;
            (id in t.registry && t.registry[id] == c)
            <==> if Touches(s, e, id) then Adds(s, e, id, c) else id in s.registry && s.registry[id] == c
  {
  }

  /** The state in which the i-th event of a run came. */
  function StateAt(max: nat, events: seq<Event>, i: nat): State
    requires i <= |events|
  {
    match Run(Next, Init(max), events[..i])
    case Some(s) => s
    case None => Init(max)
  }

  /** The last event that wrote or deleted the entry of an id, or -1. */
  function LastTouch(max: nat, events: seq<Event>, id: string): (i: int)
    ensures -1 <= i < |events|
  {
    if events == [] then -1
    else
      var n := |events| - 1;
      if Touches(StateAt(max, events, n), events[n], id) then n else LastTouch(max, events[..n], id)
  }

  lemma {:induction false} LastTouchIsLast(max: nat, events: seq<Event>, id: string, j: nat)
    requires LastTouch(max, events, id) < j < |events|
    ensures !Touches(StateAt(max, events, j), events[j], id)
  {
    var n := |events| - 1;
    if j < n {
      LastTouchIsLast(max, events[..n], id, j);
      assert events[..n][..j] == events[..j];
    }
  }

  /** The last event that wrote or deleted the entry of the id was an `add` by the connection. */
  predicate AddedLast(max: nat, events: seq<Event>, id: string, c: Conn) {
    var i := LastTouch(max, events, id);
    i >= 0 && Adds(StateAt(max, events, i), events[i], id, c)
  }

  /** In every run an id is mapped to a connection exactly if that connection was the last to touch it, by an `add`. */
  lemma {:induction false} RegistryIsItsHistory(max: nat, events: seq<Event>, id: string, c: Conn)
    requires Run(Next, Init(max), events).Some?
    ensures var s := Run(Next, Init(max), events).value;
            (id in s.registry && s.registry[id] == c) <==> AddedLast(max, events, id, c)
  {
    if events != [] {
      var n := |events| - 1;
      RegistryIsItsHistory(max, events[..n], id, c);
      RegistryStep(StateAt(max, events, n), events[n], id, c);
      var i := LastTouch(max, events[..n], id);
      if i >= 0 {
        assert events[..n][..i] == events[..i];
      }
    }
  }

  /** So a connection is registered, torn down or not, exactly if some id was touched last by its `add`. */
  lemma RegisteredIffAddedLast(max: nat, events: seq<Event>, c: Conn)
    requires Run(Next, Init(max), events).Some?
    ensures Registered(Run(Next, Init(max), events).value, c) <==> exists id :: AddedLast(max, events, id, c)
  {
    forall id
      ensures var s := Run(Next, Init(max), events).value;
              (id in s.registry && s.registry[id] == c) <==> AddedLast(max, events, id, c)
    {
      RegistryIsItsHistory(max, events, id, c);
    }
  }

  lemma StateFollows(max: nat, events: seq<Event>, i: nat)
    requires i < |events| && Run(Next, Init(max), events).Some?
    ensures Next(StateAt(max, events, i), events[i]) == Some(StateAt(max, events, i + 1))
  {
    RunAt(Next, Init(max), events, i);
  }

  lemma FlagStep(s: State, e: Event, c: Conn)
    requires Next(s, e).Some? && !(e.Connect? && e.c == c)
    ensures Get(Next(s, e).value, c).flag == Get(s, c).flag
  {
  }

  lemma AddIsUnderTheFlag(s: State, e: Event, id: string, c: Conn)
    requires Next(s, e).Some? && Adds(s, e, id, c)
    ensures Get(Next(s, e).value, c).flag == Some(id)
  {
  }

  /** The connection's id does not change without a CONNECT under another one. */
  lemma {:induction false} FlagKept(max: nat, events: seq<Event>, c: Conn, id: string, i: nat, j: nat)
    requires i <= j <= |events| && Run(Next, Init(max), events).Some?
    requires Get(StateAt(max, events, i), c).flag == Some(id)
    requires forall k :: i <= k < j && events[k].Connect? && events[k].c == c ==> events[k].id == id
    ensures Get(StateAt(max, events, j), c).flag == Some(id)
  {
    if i < j {
      FlagKept(max, events, c, id, i, j - 1);
      StateFollows(max, events, j - 1);
      if !(events[j - 1].Connect? && events[j - 1].c == c) {
        FlagStep(StateAt(max, events, j - 1), events[j - 1], c);
      }
    }
  }

  /** After an `add` the connection's own `del` touches the id, unless it has a new one by then. */
  lemma OwnDelTouches(max: nat, events: seq<Event>, id: string, c: Conn, i: nat, j: nat)
    requires Run(Next, Init(max), events).Some? && i < j < |events| && events[j] == Del(c)
    requires Adds(StateAt(max, events, i), events[i], id, c)
    requires forall k :: i < k < j && events[k].Connect? && events[k].c == c ==> events[k].id == id
    ensures Touches(StateAt(max, events, j), events[j], id)
  {
    StateFollows(max, events, i);
    AddIsUnderTheFlag(StateAt(max, events, i), events[i], id, c);
    FlagKept(max, events, c, id, i + 1, j);
  }

  /**
   If a connection is registered although its outbound loop has unregistered it, then either it added
   the id after that, or it had sent another CONNECT under another id in between.
   */
  lemma LeakHasTwoCauses(max: nat, events: seq<Event>, id: string, c: Conn, j: nat)
    requires Run(Next, Init(max), events).Some?
    requires var s := Run(Next, Init(max), events).value; id in s.registry && s.registry[id] == c
    requires j < |events| && events[j] == Del(c)
    ensures var i := LastTouch(max, events, id);
            && i >= 0 && Adds(StateAt(max, events, i), events[i], id, c)
            && (j < i || exists k :: i < k < j && events[k].Connect? && events[k].c == c && events[k].id != id)
  {
    RegistryIsItsHistory(max, events, id, c);
    var i := LastTouch(max, events, id);
    if i < j && forall k :: i < k < j && events[k].Connect? && events[k].c == c ==> events[k].id == id {
      OwnDelTouches(max, events, id, c, i, j);
      LastTouchIsLast(max, events, id, j);
    }
  }

  /** The first cause with a single CONNECT: the outbound loop ends between the two `add` of `doConnect`. */
  lemma LateAddLeaks(max: nat, c: Conn, id: string) returns (events: seq<Event>)
    ensures Run(Next, Init(max), events).Some?
    ensures var s := Run(Next, Init(max), events).value;
            && Get(s, c).phase == Ended && Get(s, c).out == Gone(false) && Get(s, c).connects == 1
            && Registered(s, c)
  {
    events := [Connect(c, id), AddFirst(c), Del(c), DropSubscriptions(c), AddAgain(c), InboundEnds(c)];
    var s0 := Init(max);
    var s1 := Next(s0, events[0]).value;
    var s2 := Next(s1, events[1]).value;
    var s3 := Next(s2, events[2]).value;
    var s4 := Next(s3, events[3]).value;
    var s5 := Next(s4, events[4]).value;
    var s6 := Next(s5, events[5]).value;
    assert id in s6.registry && s6.registry[id] == c;
    TraceIsRun(Next, [s0, s1, s2, s3, s4, s5, s6], events);
  }

  /**
   A newcomer can find a holder that is still registered although its inbound loop has ended: it is
   about to send on the closed channel of the holder.
   */
  lemma HolderMayHaveEnded(max: nat, holder: Conn, newcomer: Conn, id: string) returns (events: seq<Event>)
    requires holder != newcomer
    ensures Run(Next, Init(max), events).Some?
    ensures var s := Run(Next, Init(max), events).value;
            Get(s, newcomer).phase == Displacing(holder) && Get(s, holder).phase == Ended
  {
    events := [Connect(holder, id), AddFirst(holder), AddAgain(holder), InboundEnds(holder),
               Connect(newcomer, id), AddFirst(newcomer)];
    var s0 := Init(max);
    var s1 := Next(s0, events[0]).value;
    var s2 := Next(s1, events[1]).value;
    var s3 := Next(s2, events[2]).value;
    var s4 := Next(s3, events[3]).value;
    var s5 := Next(s4, events[4]).value;
    var s6 := Next(s5, events[5]).value;
    TraceIsRun(Next, [s0, s1, s2, s3, s4, s5, s6], events);
  }
}
