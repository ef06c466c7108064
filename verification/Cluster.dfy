/**
 Replication between brokers in a full mesh. A PUBLISH from a client is posted to the
 local dispatcher and submitted to the endpoint of every other broker; a broker that
 receives it from a peer posts it locally and passes it on to nobody.
 */
module Cluster {
  import opened Lists
  import opened Runs
  import opened Sums
  import Retain

  type Broker = nat

  datatype Msg = Msg(id: nat, origin: Broker, body: Retain.Publish)

  datatype Link = Link(source: Broker, target: Broker)

  /** The mesh and its configuration: queue lengths and overflow strategy. */
  datatype Config = Config(brokers: set<Broker>, cap: nat, block: bool, postCap: nat)

  /**
   `todo` has an entry for each published message: the peers `replicate` has still to visit.
   `handled` lists what the workers of a broker have taken from its posts, `lost` what a link lost.
   */
  datatype State = State(
    cf: Config,
    todo: map<Msg, set<Broker>>,
    queues: map<Link, seq<Msg>>,
    wires: map<Link, seq<Msg>>,
    lost: map<Link, seq<Msg>>,
    down: set<Link>,
    posts: map<Broker, seq<Msg>>,
    handled: map<Broker, seq<Msg>>,
    clients: map<Broker, seq<Msg>>,
    workers: map<Broker, nat>
  )

  datatype Event =
    | ClientPublish(m: Msg)
    | Replicate(m: Msg, d: Broker)
    | PeerSend(l: Link)
    | PeerFail(l: Link)
    | WireLost(l: Link)
    | Replay(l: Link)
    | Handle(b: Broker, receivers: nat, ends: bool)
    | ClientWrite(b: Broker)

  function Init(cf: Config, workers: map<Broker, nat>): State {
    State(cf, map[], map[], map[], map[], {}, map[], map[], map[], workers)
  }

  function On(q: map<Link, seq<Msg>>, l: Link): seq<Msg> {
    if l in q then q[l] else []
  }

  function PushOn(q: map<Link, seq<Msg>>, l: Link, more: seq<Msg>): map<Link, seq<Msg>> {
    q[l := On(q, l) + more]
  }

  function In(p: map<Broker, seq<Msg>>, b: Broker): seq<Msg> {
    if b in p then p[b] else []
  }

  function PushIn(p: map<Broker, seq<Msg>>, b: Broker, more: seq<Msg>): map<Broker, seq<Msg>> {
    p[b := In(p, b) + more]
  }

  function Workers(s: State, b: Broker): nat {
    if b in s.workers then s.workers[b] else 0
  }

  // ----- the steps -----

  function Next(s: State, e: Event): Option<State> {
    match e
    case ClientPublish(m) => Publish(s, m)
    case Replicate(m, d) => Submit(s, m, d)
    case PeerSend(l) => Send(s, l)
    case PeerFail(l) => Fail(s, l)
    case WireLost(l) => Lose(s, l)
    case Replay(l) => Receive(s, l)
    case Handle(b, receivers, ends) => TakePost(s, b, receivers, ends)
    case ClientWrite(b) => Write(s, b)
  }

  /** `doPublish`: the message is posted locally; its replication begins. */
  function Publish(s: State, m: Msg): Option<State> {
    if m in s.todo || m.origin !in s.cf.brokers || |In(s.posts, m.origin)| >= s.cf.postCap then None
    else Some(s.(todo := s.todo[m := s.cf.brokers - {m.origin}], posts := PushIn(s.posts, m.origin, [m])))
  }

  /** `endpoint.submit` of the endpoint of `d` at the broker where `m` was published. */
  function Submit(s: State, m: Msg, d: Broker): Option<State> {
    var l := Link(m.origin, d);
    if m !in s.todo || d !in s.todo[m] then None
    else if l in s.down then Some(Discard(Visit(s, m, d), m, l))
    else if |On(s.queues, l)| < s.cf.cap then Some(Enqueue(Visit(s, m, d), m, l))
    else if s.cf.block then None
    else Some(Discard(Visit(s, m, d), m, l))
  }

  /** `replicate` is done with one more peer. */
  function Visit(s: State, m: Msg, d: Broker): State
    requires m in s.todo
  {
    s.(todo := s.todo[m := s.todo[m] - {d}])
  }

  function Enqueue(s: State, m: Msg, l: Link): State {
    s.(queues := PushOn(s.queues, l, [m]))
  }

  function Discard(s: State, m: Msg, l: Link): State {
    s.(lost := PushOn(s.lost, l, [m]))
  }

  /** One turn of `runSession`: the head of the queue goes on the wire. */
  function Send(s: State, l: Link): Option<State> {
    var q := On(s.queues, l);
    if q == [] || l in s.down then None
    else Some(s.(queues := s.queues[l := q[1..]], wires := PushOn(s.wires, l, [q[0]])))
  }

  /** The links between two brokers of the mesh. */
  function Mesh(cf: Config): set<Link> {
    set a, b | a in cf.brokers && b in cf.brokers && a != b :: Link(a, b)
  }

  /** A failed dial or write ends the session: what is queued is never sent, and the endpoint is dead. */
  function Fail(s: State, l: Link): Option<State> {
    if l !in Mesh(s.cf) || l in s.down then None
    else Some(s.(queues := s.queues[l := []], lost := PushOn(s.lost, l, On(s.queues, l)), down := s.down + {l}))
  }

  /** The receiving side gives up the connection: what is on the wire is lost. */
  function Lose(s: State, l: Link): Option<State> {
    var w := On(s.wires, l);
    if w == [] then None else Some(s.(wires := s.wires[l := []], lost := PushOn(s.lost, l, w)))
  }

  /** One turn of `replay`: a message from a peer is posted locally, and only that. */
  function Receive(s: State, l: Link): Option<State> {
    var w := On(s.wires, l);
    if w == [] || |In(s.posts, l.target)| >= s.cf.postCap then None
    else Some(s.(wires := s.wires[l := w[1..]], posts := PushIn(s.posts, l.target, [w[0]])))
  }

  /**
   A worker takes a post. If it deletes a retained message the worker ends; at another broker
   than the origin the flag may have been cleared on the way, so it need not.
   */
  function TakePost(s: State, b: Broker, receivers: nat, ends: bool): Option<State> {
    var p := In(s.posts, b);
    if p == [] || Workers(s, b) == 0 then None
    else
      var m := p[0];
      var t := s.(posts := s.posts[b := p[1..]], handled := PushIn(s.handled, b, [m]));
      if ends then
        if Retain.IsDeletion(m.body) then Some(t.(workers := s.workers[b := Workers(s, b) - 1])) else None
      else if b == m.origin && Retain.IsDeletion(m.body) then None
      else Some(t.(clients := PushIn(s.clients, b, seq(receivers, _ => m))))
  }

  function Write(s: State, b: Broker): Option<State> {
    var q := In(s.clients, b);
    if q == [] then None else Some(s.(clients := s.clients[b := q[1..]]))
  }

  /** When each step is possible. */
  predicate MayCome(s: State, e: Event) {
    match e
    case ClientPublish(m) => m !in s.todo && m.origin in s.cf.brokers && |In(s.posts, m.origin)| < s.cf.postCap
    case Replicate(m, d) =>
      && m in s.todo && d in s.todo[m]
      && (Link(m.origin, d) in s.down || !s.cf.block || |On(s.queues, Link(m.origin, d))| < s.cf.cap)
    case PeerSend(l) => On(s.queues, l) != [] && l !in s.down
    case PeerFail(l) => l.source in s.cf.brokers && l.target in s.cf.brokers && l.source != l.target && l !in s.down
    case WireLost(l) => On(s.wires, l) != []
    case Replay(l) => On(s.wires, l) != [] && |In(s.posts, l.target)| < s.cf.postCap
    case Handle(b, _, ends) =>
      && In(s.posts, b) != [] && Workers(s, b) > 0
      && var m := In(s.posts, b)[0];
         var deletion := m.body.retain && m.body.payload == "";
         if ends then deletion else !(deletion && b == m.origin)
    case ClientWrite(b) => In(s.clients, b) != []
  }

  /**
   A client or a peer can post while there is room; replication waits only at a full live endpoint under
   "block"; a link of the mesh may fail at any time; and at its origin a deletion always ends its worker.
   */
  lemma StepIsPossibleIff(s: State, e: Event)
    ensures Next(s, e).Some? <==> MayCome(s, e)
  {
    match e
    case ClientPublish(_) =>
    case Replicate(_, _) =>
    case PeerSend(_) =>
    case PeerFail(_) =>
    case WireLost(_) =>
    case Replay(_) =>
    case Handle(_, _, _) =>
    case ClientWrite(_) =>
  }

  // ----- conservation -----

  /** The copies of a message on its way to, or at, a broker. */
  function Copies(s: State, m: Msg, d: Broker): nat {
    var l := Link(m.origin, d);
    Count(On(s.queues, l), m) + Count(On(s.wires, l), m) + Count(On(s.lost, l), m)
    + Count(In(s.posts, d), m) + Count(In(s.handled, d), m)
  }

  /** One copy for the origin as soon as it is published, one for each peer once it was visited. */
  function Expected(s: State, m: Msg, d: Broker): nat {
    if m in s.todo && d in s.cf.brokers && d !in s.todo[m] then 1 else 0
  }

  ghost predicate AllFrom(q: seq<Msg>, b: Broker) {
    forall i :: 0 <= i < |q| ==> q[i].origin == b
  }

  /** A link carries only what was published at its source. */
  ghost predicate LinkOk(s: State, l: Link) {
    AllFrom(On(s.queues, l), l.source) && AllFrom(On(s.wires, l), l.source)
  }

  ghost predicate Inv(s: State) {
    && TodoOk(s)
    && (forall l :: LinkOk(s, l))
    && (forall m, d :: Copies(s, m, d) == Expected(s, m, d))
  }

  ghost predicate TodoOk(s: State) {
    forall m :: m in s.todo ==> m.origin in s.cf.brokers && m.origin !in s.todo[m] && s.todo[m] <= s.cf.brokers
  }

  // A submission that does not wait visits the peer, and queues or discards the message.

  lemma SubmitParts(s: State, m: Msg, d: Broker)
    requires TodoOk(s) && m in s.todo
    ensures var u, l := Visit(s, m, d), Link(m.origin, d);
            && TodoOk(u) && TodoOk(Enqueue(u, m, l)) && TodoOk(Discard(u, m, l))
            && Enqueue(u, m, l).cf == Discard(u, m, l).cf == u.cf == s.cf
            && Enqueue(u, m, l).todo == Discard(u, m, l).todo == u.todo == s.todo[m := s.todo[m] - {d}]
  {
  }

  lemma SubmitTodo(s: State, m: Msg, d: Broker)
    requires TodoOk(s) && Submit(s, m, d).Some?
    ensures TodoOk(Submit(s, m, d).value)
    ensures Submit(s, m, d).value.cf == s.cf && Submit(s, m, d).value.todo == s.todo[m := s.todo[m] - {d}]
  {
    SubmitParts(s, m, d);
  }

  lemma PublishTodo(s: State, m: Msg)
    requires TodoOk(s) && Publish(s, m).Some?
    ensures TodoOk(Publish(s, m).value)
  {
  }

  lemma TodoKept(s: State, e: Event)
    requires TodoOk(s) && Next(s, e).Some?
    ensures TodoOk(Next(s, e).value)
  {
    match e
    case ClientPublish(m) => PublishTodo(s, m);
    case Replicate(m, d) => SubmitTodo(s, m, d);
    case PeerSend(_) => assert Next(s, e).value.todo == s.todo;
    case PeerFail(_) => assert Next(s, e).value.todo == s.todo;
    case WireLost(_) => assert Next(s, e).value.todo == s.todo;
    case Replay(_) => assert Next(s, e).value.todo == s.todo;
    case Handle(_, _, _) => assert Next(s, e).value.todo == s.todo;
    case ClientWrite(_) => assert Next(s, e).value.todo == s.todo;
  }

  lemma SubmitKeepsLink(s: State, m: Msg, d: Broker, l: Link)
    requires LinkOk(s, l) && Submit(s, m, d).Some?
    ensures LinkOk(Submit(s, m, d).value, l)
  {
    var u, k := Visit(s, m, d), Link(m.origin, d);
    assert LinkOk(u, l) && LinkOk(Discard(u, m, k), l);
    assert LinkOk(Enqueue(u, m, k), l);
  }

  lemma SendKeepsLink(s: State, k: Link, l: Link)
    requires LinkOk(s, l) && Send(s, k).Some?
    ensures LinkOk(Send(s, k).value, l)
  {
  }

  lemma ReceiveKeepsLink(s: State, k: Link, l: Link)
    requires LinkOk(s, l) && Receive(s, k).Some?
    ensures LinkOk(Receive(s, k).value, l)
  {
  }

  lemma LinkKept(s: State, e: Event, l: Link)
    requires LinkOk(s, l) && Next(s, e).Some?
    ensures LinkOk(Next(s, e).value, l)
  {
    match e
    case ClientPublish(_) =>
    case Replicate(m, d) => SubmitKeepsLink(s, m, d, l);
    case PeerSend(k) => SendKeepsLink(s, k, l);
    case PeerFail(_) =>
    case WireLost(_) =>
    case Replay(k) => ReceiveKeepsLink(s, k, l);
    case Handle(_, _, _) =>
    case ClientWrite(_) =>
  }

  lemma CountPushedOn(q: map<Link, seq<Msg>>, k: Link, more: seq<Msg>, l: Link, m: Msg)
    ensures Count(On(PushOn(q, k, more), l), m) == Count(On(q, l), m) + (if l == k then Count(more, m) else 0)
  {
    CountAppend(On(q, k), more, m);
  }

  lemma CountPoppedOn(q: map<Link, seq<Msg>>, k: Link, l: Link, m: Msg)
    requires On(q, k) != []
    ensures Count(On(q, l), m)
         == Count(On(q[k := On(q, k)[1..]], l), m) + (if l == k && On(q, k)[0] == m then 1 else 0)
  {
  }

  lemma CountPushedIn(p: map<Broker, seq<Msg>>, b: Broker, more: seq<Msg>, d: Broker, m: Msg)
    ensures Count(In(PushIn(p, b, more), d), m) == Count(In(p, d), m) + (if d == b then Count(more, m) else 0)
  {
    CountAppend(In(p, b), more, m);
  }

  lemma CountPoppedIn(p: map<Broker, seq<Msg>>, b: Broker, d: Broker, m: Msg)
    requires In(p, b) != []
    ensures Count(In(p, d), m)
         == Count(In(p[b := In(p, b)[1..]], d), m) + (if d == b && In(p, b)[0] == m then 1 else 0)
  {
  }

  lemma CountOne(x: Msg, m: Msg)
    ensures Count([x], m) == if x == m then 1 else 0
  {
  }

  // Moving between the places of a link, or at a broker, changes no number of copies.

  lemma SendMovesCopies(s: State, k: Link, m: Msg, d: Broker)
    requires Send(s, k).Some?
    ensures Copies(Send(s, k).value, m, d) == Copies(s, m, d)
  {
    var l := Link(m.origin, d);
    CountPoppedOn(s.queues, k, l, m);
    CountPushedOn(s.wires, k, [On(s.queues, k)[0]], l, m);
    CountOne(On(s.queues, k)[0], m);
  }

  lemma LossMovesCopies(s: State, k: Link, m: Msg, d: Broker)
    ensures Fail(s, k).Some? ==> Copies(Fail(s, k).value, m, d) == Copies(s, m, d)
    ensures Lose(s, k).Some? ==> Copies(Lose(s, k).value, m, d) == Copies(s, m, d)
  {
    var l := Link(m.origin, d);
    CountPushedOn(s.lost, k, On(s.queues, k), l, m);
    CountPushedOn(s.lost, k, On(s.wires, k), l, m);
  }

  lemma ReceiveMovesCopies(s: State, k: Link, m: Msg, d: Broker)
    requires Receive(s, k).Some? && LinkOk(s, k)
    ensures Copies(Receive(s, k).value, m, d) == Copies(s, m, d)
  {
    var l := Link(m.origin, d);
    CountPoppedOn(s.wires, k, l, m);
    CountPushedIn(s.posts, k.target, [On(s.wires, k)[0]], d, m);
    CountOne(On(s.wires, k)[0], m);
  }

  lemma TakeMovesCopies(s: State, b: Broker, receivers: nat, ends: bool, m: Msg, d: Broker)
    requires TakePost(s, b, receivers, ends).Some?
    ensures Copies(TakePost(s, b, receivers, ends).value, m, d) == Copies(s, m, d)
  {
    CountPoppedIn(s.posts, b, d, m);
    CountPushedIn(s.handled, b, [In(s.posts, b)[0]], d, m);
    CountOne(In(s.posts, b)[0], m);
  }

  // Publishing makes the origin's copy, and visiting a peer makes that peer's.

  lemma PublishMakesACopy(s: State, x: Msg, m: Msg, d: Broker)
    requires Publish(s, x).Some?
    ensures Copies(Publish(s, x).value, m, d) == Copies(s, m, d) + (if m == x && d == x.origin then 1 else 0)
    ensures Expected(Publish(s, x).value, m, d) == Expected(s, m, d) + (if m == x && d == x.origin then 1 else 0)
  {
    CountPushedIn(s.posts, x.origin, [x], d, m);
    CountOne(x, m);
  }

  lemma EnqueueMakesACopy(s: State, x: Msg, p: Broker, m: Msg, d: Broker)
    ensures Copies(Enqueue(s, x, Link(x.origin, p)), m, d) == Copies(s, m, d) + (if m == x && d == p then 1 else 0)
  {
    CountOne(x, m);
    CountPushedOn(s.queues, Link(x.origin, p), [x], Link(m.origin, d), m);
  }

  lemma DiscardMakesACopy(s: State, x: Msg, p: Broker, m: Msg, d: Broker)
    ensures Copies(Discard(s, x, Link(x.origin, p)), m, d) == Copies(s, m, d) + (if m == x && d == p then 1 else 0)
  {
    CountOne(x, m);
    CountPushedOn(s.lost, Link(x.origin, p), [x], Link(m.origin, d), m);
  }

  lemma SubmitMakesACopy(s: State, x: Msg, p: Broker, m: Msg, d: Broker)
    requires Submit(s, x, p).Some?
    ensures Copies(Submit(s, x, p).value, m, d) == Copies(s, m, d) + (if m == x && d == p then 1 else 0)
  {
    var u := Visit(s, x, p);
    assert Copies(u, m, d) == Copies(s, m, d);
    EnqueueMakesACopy(u, x, p, m, d);
    DiscardMakesACopy(u, x, p, m, d);
  }

  lemma SubmitIsExpected(s: State, x: Msg, p: Broker, m: Msg, d: Broker)
    requires TodoOk(s) && Submit(s, x, p).Some?
    ensures Expected(Submit(s, x, p).value, m, d) == Expected(s, m, d) + (if m == x && d == p then 1 else 0)
  {
    SubmitTodo(s, x, p);
  }

  lemma CopiesKept(s: State, e: Event, m: Msg, d: Broker)
    requires TodoOk(s) && Copies(s, m, d) == Expected(s, m, d) && Next(s, e).Some?
    requires e.Replay? ==> LinkOk(s, e.l)
    ensures Copies(Next(s, e).value, m, d) == Expected(Next(s, e).value, m, d)
  {
    match e
    case ClientPublish(x) => PublishMakesACopy(s, x, m, d);
    case Replicate(x, p) =>
      SubmitMakesACopy(s, x, p, m, d);
      SubmitIsExpected(s, x, p, m, d);
    case PeerSend(l) => SendMovesCopies(s, l, m, d);
    case PeerFail(l) => LossMovesCopies(s, l, m, d);
    case WireLost(l) => LossMovesCopies(s, l, m, d);
    case Replay(l) => ReceiveMovesCopies(s, l, m, d);
    case Handle(b, n, ends) => TakeMovesCopies(s, b, n, ends, m, d);
    case ClientWrite(_) =>
  }

  lemma InvKept(s: State, e: Event)
    requires Inv(s) && Next(s, e).Some?
    ensures Inv(Next(s, e).value)
  {
    TodoKept(s, e);
    forall l ensures LinkOk(Next(s, e).value, l) {
      LinkKept(s, e, l);
    }
    forall m, d ensures Copies(Next(s, e).value, m, d) == Expected(Next(s, e).value, m, d) {
      CopiesKept(s, e, m, d);
    }
  }

  lemma ConfigKept(s: State, e: Event)
    requires Next(s, e).Some?
    ensures Next(s, e).value.cf == s.cf
  {
    match e
    case ClientPublish(_) =>
    case Replicate(m, d) =>
      var u, l := Visit(s, m, d), Link(m.origin, d);
      assert Enqueue(u, m, l).cf == Discard(u, m, l).cf == s.cf;
    case PeerSend(_) =>
    case PeerFail(_) =>
    case WireLost(_) =>
    case Replay(_) =>
    case Handle(_, _, _) =>
    case ClientWrite(_) =>
  }

  lemma InvHolds(cf: Config, workers: map<Broker, nat>, events: seq<Event>)
    ensures var r := Run(Next, Init(cf, workers), events); r.Some? ==> Inv(r.value) && r.value.cf == cf
  {
    forall s, e | Inv(s) && s.cf == cf && Next(s, e).Some? ensures Inv(Next(s, e).value) && Next(s, e).value.cf == cf {
      InvKept(s, e);
      ConfigKept(s, e);
    }
    Invariant(Next, Init(cf, workers), events, (s: State) => Inv(s) && s.cf == cf);
  }

  /**
   In every reachable state, a published message has exactly one copy for its origin and one for
   each peer its replication has visited, in one place: the endpoint queue, the wire, the posts
   or the handled messages of that broker, or lost on the link. It has no copy anywhere else.
   */
  lemma OneCopyPerBroker(cf: Config, workers: map<Broker, nat>, events: seq<Event>, m: Msg, d: Broker)
    requires Run(Next, Init(cf, workers), events).Some?
    ensures var s := Run(Next, Init(cf, workers), events).value;
            && (m in s.todo && d in cf.brokers && d !in s.todo[m] ==> Copies(s, m, d) == 1)
            && (m !in s.todo || d !in cf.brokers || d in s.todo[m] ==> Copies(s, m, d) == 0)
            && (forall l :: m in On(s.queues, l) || m in On(s.wires, l) ==> l.source == m.origin)
  {
    InvHolds(cf, workers, events);
    var s := Run(Next, Init(cf, workers), events).value;
    assert Copies(s, m, d) == Expected(s, m, d);
    forall l | m in On(s.queues, l) || m in On(s.wires, l) ensures l.source == m.origin {
      assert LinkOk(s, l);
    }
  }

  // ----- what is lost, and why -----

  /** No endpoint queue is longer than its capacity. */
  ghost predicate Bounded(s: State) {
    forall l :: |On(s.queues, l)| <= s.cf.cap
  }

  lemma SubmitBounded(s: State, m: Msg, d: Broker, l: Link)
    requires |On(s.queues, l)| <= s.cf.cap && Submit(s, m, d).Some?
    ensures |On(Submit(s, m, d).value.queues, l)| <= s.cf.cap
  {
    var u, k := Visit(s, m, d), Link(m.origin, d);
    assert Discard(u, m, k).queues == s.queues;
    assert On(Enqueue(u, m, k).queues, l) == On(s.queues, l) + (if k == l then [m] else []);
  }

  lemma LinkBounded(s: State, e: Event, l: Link)
    requires |On(s.queues, l)| <= s.cf.cap && Next(s, e).Some?
    ensures |On(Next(s, e).value.queues, l)| <= s.cf.cap
  {
    match e
    case ClientPublish(_) =>
    case Replicate(m, d) => SubmitBounded(s, m, d, l);
    case PeerSend(_) =>
    case PeerFail(_) =>
    case WireLost(_) =>
    case Replay(_) =>
    case Handle(_, _, _) =>
    case ClientWrite(_) =>
  }

  lemma BoundedKept(s: State, e: Event)
    requires Bounded(s) && Next(s, e).Some?
    ensures Bounded(Next(s, e).value)
  {
    ConfigKept(s, e);
    forall l ensures |On(Next(s, e).value.queues, l)| <= s.cf.cap {
      LinkBounded(s, e, l);
    }
  }

  lemma BoundedHolds(cf: Config, workers: map<Broker, nat>, events: seq<Event>)
    requires Run(Next, Init(cf, workers), events).Some?
    ensures Bounded(Run(Next, Init(cf, workers), events).value)
  {
    forall s, e | Bounded(s) && Next(s, e).Some? ensures Bounded(Next(s, e).value) {
      BoundedKept(s, e);
    }
    Invariant(Next, Init(cf, workers), events, (s: State) => Bounded(s));
  }

  /** No channel of posts is longer than its capacity, and a dead endpoint has nothing queued. */
  ghost predicate PostsBounded(s: State) {
    (forall b :: |In(s.posts, b)| <= s.cf.postCap) && (forall l :: l in s.down ==> On(s.queues, l) == [])
  }

  lemma SubmitStaysAtHome(s: State, m: Msg, d: Broker)
    requires Submit(s, m, d).Some?
    ensures var t := Submit(s, m, d).value; t.wires == s.wires && t.posts == s.posts && t.handled == s.handled
  {
    var u, k := Visit(s, m, d), Link(m.origin, d);
    assert Discard(u, m, k).wires == Enqueue(u, m, k).wires == s.wires;
  }

  lemma SubmitDead(s: State, m: Msg, d: Broker, l: Link)
    requires Submit(s, m, d).Some? && l in s.down && On(s.queues, l) == []
    ensures On(Submit(s, m, d).value.queues, l) == [] && Submit(s, m, d).value.down == s.down
  {
    var u, k := Visit(s, m, d), Link(m.origin, d);
    assert Discard(u, m, k).queues == s.queues && Discard(u, m, k).down == Enqueue(u, m, k).down == s.down;
    assert k != l ==> On(Enqueue(u, m, k).queues, l) == On(s.queues, l);
  }

  lemma PostBounded(s: State, e: Event, b: Broker)
    requires |In(s.posts, b)| <= s.cf.postCap && Next(s, e).Some?
    ensures |In(Next(s, e).value.posts, b)| <= s.cf.postCap
  {
    match e
    case ClientPublish(_) =>
    case Replicate(m, d) => SubmitStaysAtHome(s, m, d);
    case PeerSend(_) =>
    case PeerFail(_) =>
    case WireLost(_) =>
    case Replay(_) =>
    case Handle(_, _, _) =>
    case ClientWrite(_) =>
  }

  lemma DeadStaysEmpty(s: State, e: Event, l: Link)
    requires (l in s.down ==> On(s.queues, l) == []) && Next(s, e).Some?
    ensures l in Next(s, e).value.down ==> On(Next(s, e).value.queues, l) == []
  {
    match e
    case ClientPublish(_) =>
    case Replicate(m, d) =>
      if l in s.down {
        SubmitDead(s, m, d, l);
      } else {
        var u, k := Visit(s, m, d), Link(m.origin, d);
        assert Discard(u, m, k).down == Enqueue(u, m, k).down == s.down;
      }
    case PeerSend(_) =>
    case PeerFail(_) =>
    case WireLost(_) =>
    case Replay(_) =>
    case Handle(_, _, _) =>
    case ClientWrite(_) =>
  }

  lemma PostsBoundedKept(s: State, e: Event)
    requires PostsBounded(s) && Next(s, e).Some?
    ensures PostsBounded(Next(s, e).value)
  {
    ConfigKept(s, e);
    forall b ensures |In(Next(s, e).value.posts, b)| <= s.cf.postCap {
      assert |In(s.posts, b)| <= s.cf.postCap;
      PostBounded(s, e, b);
    }
    forall l | l in Next(s, e).value.down ensures On(Next(s, e).value.queues, l) == [] {
      DeadStaysEmpty(s, e, l);
    }
  }

  lemma PostsBoundedHolds(cf: Config, workers: map<Broker, nat>, events: seq<Event>)
    requires Run(Next, Init(cf, workers), events).Some?
    ensures PostsBounded(Run(Next, Init(cf, workers), events).value)
  {
    forall s, e | PostsBounded(s) && Next(s, e).Some? ensures PostsBounded(Next(s, e).value) {
      PostsBoundedKept(s, e);
    }
    Invariant(Next, Init(cf, workers), events, (s: State) => PostsBounded(s));
  }

  /** How many workers of a broker have ended in a run. */
  function EndedAt(events: seq<Event>, b: Broker): nat {
    if events == [] then 0
    else
      var e := events[|events| - 1];
      EndedAt(events[..|events| - 1], b) + (if e.Handle? && e.b == b && e.ends then 1 else 0)
  }

  lemma WorkersStep(s: State, e: Event, b: Broker)
    requires Next(s, e).Some?
    ensures Workers(Next(s, e).value, b) == Workers(s, b) - (if e.Handle? && e.b == b && e.ends then 1 else 0)
  {
    match e
    case ClientPublish(_) =>
    case Replicate(m, d) =>
      var u, k := Visit(s, m, d), Link(m.origin, d);
      assert Discard(u, m, k).workers == Enqueue(u, m, k).workers == s.workers;
    case PeerSend(_) =>
    case PeerFail(_) =>
    case WireLost(_) =>
    case Replay(_) =>
    case Handle(_, _, _) =>
    case ClientWrite(_) =>
  }

  /** A broker has the workers it started with, less those that handled a deletion. */
  lemma {:induction false} WorkersAreLost(cf: Config, workers: map<Broker, nat>, events: seq<Event>, b: Broker)
    requires Run(Next, Init(cf, workers), events).Some?
    ensures Workers(Run(Next, Init(cf, workers), events).value, b) + EndedAt(events, b) == Workers(Init(cf, workers), b)
  {
    if events != [] {
      var n := |events| - 1;
      WorkersAreLost(cf, workers, events[..n], b);
      WorkersStep(Run(Next, Init(cf, workers), events[..n]).value, events[n], b);
    }
  }

  /** The event submits a message to the endpoint of the link. */
  predicate SubmitsOn(e: Event, l: Link) {
    e.Replicate? && Link(e.m.origin, e.d) == l
  }

  /**
   What an event loses on a link: all that is queued when the endpoint fails, all that is on the wire when
   the peer gives up, a message submitted while the link is down, or one that finds the queue full.
   */
  function LostBy(s: State, e: Event, l: Link): seq<Msg> {
    if e == PeerFail(l) then On(s.queues, l)
    else if e == WireLost(l) then On(s.wires, l)
    else if SubmitsOn(e, l) && (l in s.down || |On(s.queues, l)| == s.cf.cap) then [e.m]
    else []
  }

  lemma PushedOn(q: map<Link, seq<Msg>>, k: Link, more: seq<Msg>, l: Link)
    ensures On(PushOn(q, k, more), l) == if k == l then On(q, l) + more else On(q, l)
  {
  }

  lemma SubmitDiscards(s: State, m: Msg, d: Broker)
    requires Submit(s, m, d).Some?
    ensures var k := Link(m.origin, d);
            Submit(s, m, d).value.lost
            == if k in s.down || |On(s.queues, k)| >= s.cf.cap then PushOn(s.lost, k, [m]) else s.lost
  {
  }

  lemma SubmitLoses(s: State, m: Msg, d: Broker, l: Link)
    requires |On(s.queues, l)| <= s.cf.cap && Submit(s, m, d).Some?
    ensures On(Submit(s, m, d).value.lost, l) == On(s.lost, l) + LostBy(s, Replicate(m, d), l)
  {
    SubmitDiscards(s, m, d);
    PushedOn(s.lost, Link(m.origin, d), [m], l);
  }

  lemma LostStep(s: State, e: Event, l: Link)
    requires |On(s.queues, l)| <= s.cf.cap && Next(s, e).Some?
    ensures On(Next(s, e).value.lost, l) == On(s.lost, l) + LostBy(s, e, l)
  {
    match e
    case ClientPublish(_) =>
    case Replicate(m, d) => SubmitLoses(s, m, d, l);
    case PeerSend(_) =>
    case PeerFail(_) =>
    case WireLost(_) =>
    case Replay(_) =>
    case Handle(_, _, _) =>
    case ClientWrite(_) =>
  }

  /** The state in which the i-th event of a run came. */
  function StateAt(cf: Config, workers: map<Broker, nat>, events: seq<Event>, i: nat): State
    requires i <= |events|
  {
    match Run(Next, Init(cf, workers), events[..i])
    case Some(s) => s
    case None => Init(cf, workers)
  }

  function LostHistory(cf: Config, workers: map<Broker, nat>, events: seq<Event>, l: Link): seq<Msg> {
    if events == [] then []
    else
      var n := |events| - 1;
      LostHistory(cf, workers, events[..n], l) + LostBy(StateAt(cf, workers, events, n), events[n], l)
  }

  /** In every run, under either strategy, a link has lost exactly what those events lost, in order. */
  lemma {:induction false} LostIsItsHistory(cf: Config, workers: map<Broker, nat>, events: seq<Event>, l: Link)
    requires Run(Next, Init(cf, workers), events).Some?
    ensures On(Run(Next, Init(cf, workers), events).value.lost, l) == LostHistory(cf, workers, events, l)
  {
    if events != [] {
      var n := |events| - 1;
      LostIsItsHistory(cf, workers, events[..n], l);
      BoundedHolds(cf, workers, events[..n]);
      LostStep(Run(Next, Init(cf, workers), events[..n]).value, events[n], l);
    }
  }

  ghost predicate Lossless(s: State) {
    s.cf.block && s.down == {} && s.lost == map[]
  }

  predicate IsFailure(e: Event) {
    e.PeerFail? || e.WireLost?
  }

  lemma LosslessKept(s: State, e: Event)
    requires Lossless(s) && !IsFailure(e) && Next(s, e).Some?
    ensures Lossless(Next(s, e).value)
  {
  }

  lemma {:induction false} NothingLost(cf: Config, workers: map<Broker, nat>, events: seq<Event>)
    requires cf.block && (forall e :: e in events ==> !IsFailure(e))
    requires Run(Next, Init(cf, workers), events).Some?
    ensures Lossless(Run(Next, Init(cf, workers), events).value)
  {
    if events != [] {
      var init, e := events[..|events| - 1], events[|events| - 1];
      assert e in events && forall x :: x in init ==> x in events;
      NothingLost(cf, workers, init);
      LosslessKept(Run(Next, Init(cf, workers), init).value, e);
    }
  }

  /** The message was submitted to the endpoint of the broker while its queue was full. */
  predicate FoundFull(cf: Config, workers: map<Broker, nat>, events: seq<Event>, m: Msg, d: Broker) {
    events != [] &&
    var n := |events| - 1;
    || (events[n] == Replicate(m, d) && |On(StateAt(cf, workers, events, n).queues, Link(m.origin, d))| == cf.cap)
    || FoundFull(cf, workers, events[..n], m, d)
  }

  lemma DownStep(s: State, e: Event)
    requires Next(s, e).Some? && !IsFailure(e)
    ensures Next(s, e).value.down == s.down
  {
    match e
    case ClientPublish(_) =>
    case Replicate(m, d) =>
      var u, k := Visit(s, m, d), Link(m.origin, d);
      assert Discard(u, m, k).down == Enqueue(u, m, k).down == s.down;
    case PeerSend(_) =>
    case Replay(_) =>
    case Handle(_, _, _) =>
    case ClientWrite(_) =>
  }

  lemma {:induction false} NoneDown(cf: Config, workers: map<Broker, nat>, events: seq<Event>)
    requires Run(Next, Init(cf, workers), events).Some? && forall e :: e in events ==> !IsFailure(e)
    ensures Run(Next, Init(cf, workers), events).value.down == {} && Run(Next, Init(cf, workers), events).value.cf == cf
  {
    if events != [] {
      var init, e := events[..|events| - 1], events[|events| - 1];
      assert e in events && forall x :: x in init ==> x in events;
      NoneDown(cf, workers, init);
      DownStep(Run(Next, Init(cf, workers), init).value, e);
      ConfigKept(Run(Next, Init(cf, workers), init).value, e);
    }
  }

  /** Without failures a message is lost on its way to a broker exactly if it found the queue full. */
  lemma {:induction false} LostIffFoundFull(cf: Config, workers: map<Broker, nat>, events: seq<Event>, m: Msg, d: Broker)
    requires Run(Next, Init(cf, workers), events).Some? && forall e :: e in events ==> !IsFailure(e)
    ensures Count(On(Run(Next, Init(cf, workers), events).value.lost, Link(m.origin, d)), m) > 0
       <==> FoundFull(cf, workers, events, m, d)
  {
    if events != [] {
      var init, e := events[..|events| - 1], events[|events| - 1];
      assert e in events && forall x :: x in init ==> x in events;
      LostIffFoundFull(cf, workers, init, m, d);
      NoneDown(cf, workers, init);
      BoundedHolds(cf, workers, init);
      var s, l := Run(Next, Init(cf, workers), init).value, Link(m.origin, d);
      LostStep(s, e, l);
      CountAppend(On(s.lost, l), LostBy(s, e, l), m);
      if SubmitsOn(e, l) {
        CountOne(e.m, m);
      }
    }
  }

  /** Under "block" no submission goes through while the queue is full. */
  lemma {:induction false} BlockNeverFindsFull(cf: Config, workers: map<Broker, nat>, events: seq<Event>, m: Msg, d: Broker)
    requires cf.block && Run(Next, Init(cf, workers), events).Some? && forall e :: e in events ==> !IsFailure(e)
    ensures !FoundFull(cf, workers, events, m, d)
  {
    if events != [] {
      var init, e := events[..|events| - 1], events[|events| - 1];
      assert e in events && forall x :: x in init ==> x in events;
      BlockNeverFindsFull(cf, workers, init, m, d);
      NoneDown(cf, workers, init);
    }
  }

  // ----- order on a link -----

  function From(b: Broker): Msg -> bool {
    (m: Msg) => m.origin == b
  }

  /** What has arrived at the target of a link from its source. */
  function Arrived(s: State, l: Link): seq<Msg> {
    Keep(In(s.handled, l.target) + In(s.posts, l.target), From(l.source))
  }

  /** What came over a link in order: handled or posted at its target, on the wire, in the queue. */
  function OnLink(s: State, l: Link): seq<Msg> {
    Arrived(s, l) + On(s.wires, l) + On(s.queues, l)
  }

  /** The messages submitted to the endpoint of a link, in order. */
  function SubmittedOn(events: seq<Event>, l: Link): seq<Msg> {
    if events == [] then []
    else
      var e := events[|events| - 1];
      SubmittedOn(events[..|events| - 1], l)
      + (if SubmitsOn(e, l) then [e.m] else [])
  }

  lemma MoveHead(a: seq<Msg>, b: seq<Msg>)
    requires b != []
    ensures a + [b[0]] + b[1..] == a + b
  {
  }

  lemma PostArrives(handled: seq<Msg>, posts: seq<Msg>, m: Msg, b: Broker)
    ensures Keep(handled + (posts + [m]), From(b))
         == Keep(handled + posts, From(b)) + (if m.origin == b then [m] else [])
  {
    assert handled + (posts + [m]) == handled + posts + [m];
    KeepAppend(handled + posts, [m], From(b));
  }

  lemma SendKeepsOrder(s: State, k: Link, l: Link)
    requires Send(s, k).Some?
    ensures OnLink(Send(s, k).value, l) == OnLink(s, l)
  {
    if k == l {
      var w, q := On(s.wires, l), On(s.queues, l);
      MoveHead(Arrived(s, l) + w, q);
      assert Arrived(s, l) + (w + [q[0]]) == Arrived(s, l) + w + [q[0]];
    }
  }

  lemma ReceiveArrives(s: State, k: Link, l: Link)
    requires Receive(s, k).Some? && LinkOk(s, k)
    ensures Arrived(Receive(s, k).value, l) == Arrived(s, l) + (if k == l then [On(s.wires, k)[0]] else [])
  {
    var m := On(s.wires, k)[0];
    assert m.origin == k.source;
    if k.target == l.target {
      PostArrives(In(s.handled, l.target), In(s.posts, l.target), m, l.source);
    }
  }

  lemma ReceiveKeepsOrder(s: State, k: Link, l: Link)
    requires Receive(s, k).Some? && LinkOk(s, k)
    ensures OnLink(Receive(s, k).value, l) == OnLink(s, l)
  {
    ReceiveArrives(s, k, l);
    if k == l {
      MoveHead(Arrived(s, l), On(s.wires, k));
    }
  }

  lemma PublishKeepsOrder(s: State, m: Msg, l: Link)
    requires Publish(s, m).Some? && l.source != l.target
    ensures OnLink(Publish(s, m).value, l) == OnLink(s, l)
  {
    if m.origin == l.target {
      PostArrives(In(s.handled, l.target), In(s.posts, l.target), m, l.source);
    }
  }

  lemma TakeKeepsOrder(s: State, b: Broker, receivers: nat, ends: bool, l: Link)
    requires TakePost(s, b, receivers, ends).Some?
    ensures OnLink(TakePost(s, b, receivers, ends).value, l) == OnLink(s, l)
  {
    if b == l.target {
      MoveHead(In(s.handled, b), In(s.posts, b));
    }
  }

  /** What an event puts on a link that is up: a message submitted while there is room. */
  function TakenUp(s: State, e: Event, l: Link): seq<Msg> {
    if SubmitsOn(e, l) && |On(s.queues, l)| < s.cf.cap then [e.m] else []
  }

  lemma SubmitQueues(s: State, m: Msg, d: Broker)
    requires Submit(s, m, d).Some?
    ensures var k := Link(m.origin, d);
            Submit(s, m, d).value.queues
            == if k !in s.down && |On(s.queues, k)| < s.cf.cap then PushOn(s.queues, k, [m]) else s.queues
  {
  }

  lemma SubmitOrder(s: State, m: Msg, d: Broker, l: Link)
    requires s.down == {} && Submit(s, m, d).Some?
    ensures OnLink(Submit(s, m, d).value, l) == OnLink(s, l) + TakenUp(s, Replicate(m, d), l)
  {
    SubmitQueues(s, m, d);
    SubmitStaysAtHome(s, m, d);
    PushedOn(s.queues, Link(m.origin, d), [m], l);
    var before := Arrived(s, l) + On(s.wires, l);
    assert before + (On(s.queues, l) + [m]) == before + On(s.queues, l) + [m];
  }

  lemma LinkOrderStep(s: State, e: Event, l: Link)
    requires Inv(s) && s.down == {} && Next(s, e).Some? && !IsFailure(e) && l.source != l.target
    ensures OnLink(Next(s, e).value, l) == OnLink(s, l) + TakenUp(s, e, l)
  {
    match e
    case Replicate(m, d) => SubmitOrder(s, m, d, l);
    case PeerSend(k) => SendKeepsOrder(s, k, l);
    case Replay(k) => assert LinkOk(s, k); ReceiveKeepsOrder(s, k, l);
    case ClientPublish(m) => PublishKeepsOrder(s, m, l);
    case Handle(b, n, ends) => TakeKeepsOrder(s, b, n, ends, l);
    case ClientWrite(_) =>
  }

  /** The messages submitted while there was room, in order. */
  function TakenUpOn(cf: Config, workers: map<Broker, nat>, events: seq<Event>, l: Link): seq<Msg> {
    if events == [] then []
    else
      var n := |events| - 1;
      TakenUpOn(cf, workers, events[..n], l) + TakenUp(StateAt(cf, workers, events, n), events[n], l)
  }

  /**
   Without failures a broker takes up the messages of another broker that found room, in the order they
   were submitted there: taken up, waiting, on the wire and queued make up that order.
   */
  lemma {:induction false} LinkKeepsOrder(cf: Config, workers: map<Broker, nat>, events: seq<Event>, l: Link)
    requires (forall e :: e in events ==> !IsFailure(e)) && l.source != l.target
    requires Run(Next, Init(cf, workers), events).Some?
    ensures OnLink(Run(Next, Init(cf, workers), events).value, l) == TakenUpOn(cf, workers, events, l)
  {
    if events != [] {
      var init, e := events[..|events| - 1], events[|events| - 1];
      assert e in events && forall x :: x in init ==> x in events;
      LinkKeepsOrder(cf, workers, init, l);
      NoneDown(cf, workers, init);
      InvHolds(cf, workers, init);
      LinkOrderStep(Run(Next, Init(cf, workers), init).value, e, l);
    }
  }

  /** Under "block" those are all that were submitted. */
  lemma {:induction false} BlockTakesUpAll(cf: Config, workers: map<Broker, nat>, events: seq<Event>, l: Link)
    requires cf.block && (forall e :: e in events ==> !IsFailure(e)) && Run(Next, Init(cf, workers), events).Some?
    ensures TakenUpOn(cf, workers, events, l) == SubmittedOn(events, l)
  {
    if events != [] {
      var init, e := events[..|events| - 1], events[|events| - 1];
      assert e in events && forall x :: x in init ==> x in events;
      BlockTakesUpAll(cf, workers, init, l);
      NoneDown(cf, workers, init);
    }
  }

  // ----- quiescence -----

  /** No step of the brokers themselves is possible. */
  ghost predicate Quiescent(s: State) {
    forall e: Event :: !e.ClientPublish? && !IsFailure(e) ==> Next(s, e).None?
  }

  lemma QuiescentBrokerIsEmpty(s: State, b: Broker)
    requires Quiescent(s) && Workers(s, b) > 0
    ensures In(s.posts, b) == []
  {
    assert Next(s, Handle(b, 0, true)).None? && Next(s, Handle(b, 0, false)).None?;
  }

  lemma QuiescentLinkIsEmpty(s: State, l: Link)
    requires Quiescent(s) && Workers(s, l.target) > 0 && s.cf.postCap > 0 && l !in s.down
    ensures On(s.wires, l) == [] && On(s.queues, l) == []
  {
    QuiescentBrokerIsEmpty(s, l.target);
    assert Next(s, Replay(l)).None?;
    assert Next(s, PeerSend(l)).None?;
  }

  lemma QuiescentReplicationIsDone(s: State, m: Msg, d: Broker)
    requires Quiescent(s) && s.cf.cap > 0 && m in s.todo && On(s.queues, Link(m.origin, d)) == []
    ensures d !in s.todo[m]
  {
    assert Next(s, Replicate(m, d)).None?;
  }

  /**
   Without failures, when nothing can move any more and every broker still has a worker, every broker has
   handled every published message exactly once, except those that found the queue to it full.
   */
  lemma EveryBrokerHandlesWhatFoundRoom(cf: Config, workers: map<Broker, nat>, events: seq<Event>, m: Msg, d: Broker)
    requires cf.cap > 0 && cf.postCap > 0 && (forall e :: e in events ==> !IsFailure(e))
    requires Run(Next, Init(cf, workers), events).Some?
    requires var s := Run(Next, Init(cf, workers), events).value;
             Quiescent(s) && m in s.todo && d in cf.brokers && forall b :: b in cf.brokers ==> Workers(s, b) > 0
    ensures Count(In(Run(Next, Init(cf, workers), events).value.handled, d), m)
         == if FoundFull(cf, workers, events, m, d) then 0 else 1
  {
    InvHolds(cf, workers, events);
    NoneDown(cf, workers, events);
    LostIffFoundFull(cf, workers, events, m, d);
    var s, l := Run(Next, Init(cf, workers), events).value, Link(m.origin, d);
    QuiescentBrokerIsEmpty(s, d);
    QuiescentLinkIsEmpty(s, l);
    QuiescentReplicationIsDone(s, m, d);
    assert Copies(s, m, d) == Expected(s, m, d);
  }

  /** Under "block" that is every message. */
  lemma EveryBrokerHandlesOnce(cf: Config, workers: map<Broker, nat>, events: seq<Event>, m: Msg, d: Broker)
    requires cf.block && cf.cap > 0 && cf.postCap > 0 && (forall e :: e in events ==> !IsFailure(e))
    requires Run(Next, Init(cf, workers), events).Some?
    requires var s := Run(Next, Init(cf, workers), events).value;
             Quiescent(s) && m in s.todo && d in cf.brokers && forall b :: b in cf.brokers ==> Workers(s, b) > 0
    ensures Count(In(Run(Next, Init(cf, workers), events).value.handled, d), m) == 1
  {
    EveryBrokerHandlesWhatFoundRoom(cf, workers, events, m, d);
    BlockNeverFindsFull(cf, workers, events, m, d);
  }

  // ----- no replication storm -----

  ghost function Lengths<K(!new)>(m: map<K, seq<Msg>>): map<K, nat> {
    map k | k in m :: |m[k]|
  }

  ghost function Sizes(m: map<Msg, set<Broker>>): map<Msg, nat> {
    map k | k in m :: |m[k]|
  }

  ghost function Total<K(!new)>(m: map<K, seq<Msg>>): nat {
    Sum(Lengths(m))
  }

  lemma TotalPutOn(q: map<Link, seq<Msg>>, l: Link, v: seq<Msg>)
    ensures Total(q[l := v]) == Total(q) - |On(q, l)| + |v|
  {
    SumPut(Lengths(q), l, |v|);
    assert Lengths(q[l := v]) == Lengths(q)[l := |v|];
  }

  lemma TotalPutIn(p: map<Broker, seq<Msg>>, b: Broker, v: seq<Msg>)
    ensures Total(p[b := v]) == Total(p) - |In(p, b)| + |v|
  {
    SumPut(Lengths(p), b, |v|);
    assert Lengths(p[b := v]) == Lengths(p)[b := |v|];
  }

  lemma TodoPut(s: State, m: Msg, peers: set<Broker>)
    ensures Sum(Sizes(s.todo[m := peers])) == Sum(Sizes(s.todo)) - (if m in s.todo then |s.todo[m]| else 0) + |peers|
  {
    SumPut(Sizes(s.todo), m, |peers|);
    assert Sizes(s.todo[m := peers]) == Sizes(s.todo)[m := |peers|];
  }

  /** The links that are up, and how much there is in all queues together. */
  datatype Load = Load(up: nat, todo: nat, queues: nat, wires: nat, posts: nat, clients: nat)

  ghost function LoadOf(s: State): Load {
    Load(|Mesh(s.cf) - s.down|, Sum(Sizes(s.todo)), Total(s.queues), Total(s.wires), Total(s.posts), Total(s.clients))
  }

  /** What a step does to the load. */
  ghost predicate Shifts(a: Load, b: Load, e: Event, cf: Config) {
    match e
    case ClientPublish(_) =>
      a.todo <= b.todo <= a.todo + |cf.brokers| && b == a.(todo := b.todo, posts := a.posts + 1)
    case Replicate(_, _) =>
      a.queues <= b.queues <= a.queues + 1 && a.todo == b.todo + 1 && b == a.(todo := b.todo, queues := b.queues)
    case PeerSend(_) => a.queues == b.queues + 1 && b == a.(queues := b.queues, wires := a.wires + 1)
    case PeerFail(_) => a.up == b.up + 1 && a.queues >= b.queues && b == a.(up := b.up, queues := b.queues)
    case WireLost(_) => a.wires > b.wires && b == a.(wires := b.wires)
    case Replay(_) => a.wires == b.wires + 1 && b == a.(wires := b.wires, posts := a.posts + 1)
    case Handle(_, n, ends) =>
      a.posts == b.posts + 1 && b == a.(posts := b.posts, clients := a.clients + if ends then 0 else n)
    case ClientWrite(_) => a.clients == b.clients + 1 && b == a.(clients := b.clients)
  }

  lemma PeersAreFewer(brokers: set<Broker>, b: Broker)
    ensures |brokers - {b}| <= |brokers|
  {
    if b in brokers {
      assert brokers == (brokers - {b}) + {b};
    } else {
      assert brokers - {b} == brokers;
    }
  }

  lemma PublishShifts(s: State, m: Msg)
    requires Publish(s, m).Some?
    ensures Shifts(LoadOf(s), LoadOf(Publish(s, m).value), ClientPublish(m), s.cf)
  {
    TodoPut(s, m, s.cf.brokers - {m.origin});
    PeersAreFewer(s.cf.brokers, m.origin);
    TotalPutIn(s.posts, m.origin, In(s.posts, m.origin) + [m]);
    var a, b := LoadOf(s), LoadOf(Publish(s, m).value);
    assert b.posts == a.posts + 1 && b == a.(todo := b.todo, posts := b.posts);
  }

  lemma VisitShifts(s: State, m: Msg, d: Broker)
    requires m in s.todo && d in s.todo[m]
    ensures LoadOf(Visit(s, m, d)).todo + 1 == LoadOf(s).todo
    ensures LoadOf(Visit(s, m, d)) == LoadOf(s).(todo := LoadOf(Visit(s, m, d)).todo)
  {
    TodoPut(s, m, s.todo[m] - {d});
  }

  lemma EnqueueShifts(s: State, m: Msg, l: Link)
    ensures LoadOf(Enqueue(s, m, l)) == LoadOf(s).(queues := LoadOf(s).queues + 1)
  {
    TotalPutOn(s.queues, l, On(s.queues, l) + [m]);
  }

  lemma SubmitShifts(s: State, m: Msg, d: Broker)
    requires Submit(s, m, d).Some?
    ensures Shifts(LoadOf(s), LoadOf(Submit(s, m, d).value), Replicate(m, d), s.cf)
  {
    var l, u := Link(m.origin, d), Visit(s, m, d);
    VisitShifts(s, m, d);
    EnqueueShifts(u, m, l);
    assert Shifts(LoadOf(s), LoadOf(Enqueue(u, m, l)), Replicate(m, d), s.cf);
    assert Shifts(LoadOf(s), LoadOf(Discard(u, m, l)), Replicate(m, d), s.cf);
  }

  lemma LinkStepShifts(s: State, l: Link)
    ensures Send(s, l).Some? ==> Shifts(LoadOf(s), LoadOf(Send(s, l).value), PeerSend(l), s.cf)
    ensures Receive(s, l).Some? ==> Shifts(LoadOf(s), LoadOf(Receive(s, l).value), Replay(l), s.cf)
  {
    if Send(s, l).Some? {
      TotalPutOn(s.queues, l, On(s.queues, l)[1..]);
      TotalPutOn(s.wires, l, On(s.wires, l) + [On(s.queues, l)[0]]);
    }
    if Receive(s, l).Some? {
      TotalPutOn(s.wires, l, On(s.wires, l)[1..]);
      TotalPutIn(s.posts, l.target, In(s.posts, l.target) + [On(s.wires, l)[0]]);
    }
  }

  lemma TakeShifts(s: State, b: Broker, n: nat, ends: bool)
    requires TakePost(s, b, n, ends).Some?
    ensures Shifts(LoadOf(s), LoadOf(TakePost(s, b, n, ends).value), Handle(b, n, ends), s.cf)
  {
    TotalPutIn(s.posts, b, In(s.posts, b)[1..]);
    TotalPutIn(s.clients, b, In(s.clients, b) + seq(n, _ => In(s.posts, b)[0]));
  }

  lemma StepShifts(s: State, e: Event)
    requires Next(s, e).Some?
    ensures Shifts(LoadOf(s), LoadOf(Next(s, e).value), e, s.cf)
  {
    match e
    case ClientPublish(m) => PublishShifts(s, m);
    case Replicate(m, d) => SubmitShifts(s, m, d);
    case PeerSend(l) => LinkStepShifts(s, l);
    case Replay(l) => LinkStepShifts(s, l);
    case PeerFail(l) =>
      TotalPutOn(s.queues, l, []);
      assert Mesh(s.cf) - s.down == (Mesh(s.cf) - (s.down + {l})) + {l};
    case WireLost(l) => TotalPutOn(s.wires, l, []);
    case Handle(b, n, ends) => TakeShifts(s, b, n, ends);
    case ClientWrite(b) => TotalPutIn(s.clients, b, In(s.clients, b)[1..]);
  }

  // ----- the brokers come to rest -----

  /** Each step the brokers make themselves moves work to a later stage: replay adds a post but never a peer job. */
  ghost predicate Descends(a: Load, b: Load) {
    || b.up < a.up
    || (b.up == a.up &&
        (|| b.todo < a.todo
         || (b.todo == a.todo && b.queues < a.queues)
         || (b.todo == a.todo && b.queues == a.queues && b.wires < a.wires)
         || (b.todo == a.todo && b.queues == a.queues && b.wires == a.wires && b.posts < a.posts)
         || (b.todo == a.todo && b.queues == a.queues && b.wires == a.wires && b.posts == a.posts && b.clients < a.clients)))
  }

  lemma StepDescends(s: State, e: Event)
    requires Next(s, e).Some? && !e.ClientPublish?
    ensures Descends(LoadOf(s), LoadOf(Next(s, e).value))
  {
    StepShifts(s, e);
  }

  /** So no run goes on for ever without further client publishes. */
  lemma {:induction false} EndlessRunsHavePublishes(states: nat -> State, events: nat -> Event, from: nat)
    requires forall i: nat :: Next(states(i), events(i)) == Some(states(i + 1))
    ensures exists i: nat :: i >= from && events(i).ClientPublish?
    decreases LoadOf(states(from)).up, LoadOf(states(from)).todo, LoadOf(states(from)).queues, LoadOf(states(from)).wires,
              LoadOf(states(from)).posts, LoadOf(states(from)).clients
  {
    assert Next(states(from), events(from)) == Some(states(from + 1));
    if !events(from).ClientPublish? {
      StepDescends(states(from), events(from));
      EndlessRunsHavePublishes(states, events, from + 1);
    }
  }

  /** How many steps there are before a message is in the client queues: a peer to visit is worth most. */
  ghost function Weigh(a: Load): nat {
    a.up + 4 * a.todo + 3 * a.queues + 2 * a.wires + a.posts
  }

  /** The steps one client publish can cause before its copies are in the client queues, itself included. */
  function PublishCost(cf: Config): nat {
    2 + 4 * |cf.brokers|
  }

  lemma StepCosts(s: State, e: Event)
    requires Next(s, e).Some?
    ensures (if e.ClientWrite? then 0 else 1) + Weigh(LoadOf(Next(s, e).value))
         <= Weigh(LoadOf(s)) + (if e.ClientPublish? then PublishCost(s.cf) else 0)
  {
    StepShifts(s, e);
  }

  function IsPublish(): Event -> bool {
    (e: Event) => e.ClientPublish?
  }

  function IsWrite(): Event -> bool {
    (e: Event) => e.ClientWrite?
  }

  function IsBrokerStep(): Event -> bool {
    (e: Event) => !e.ClientWrite?
  }

  /**
   Whatever the interleaving and however many clients there are, the brokers make at most a fixed
   number of steps for each client publish, beyond those already under way at the start.
   */
  lemma NoReplicationStorm(s: State, events: seq<Event>)
    requires Run(Next, s, events).Some?
    ensures CountIf(events, IsBrokerStep())
         <= Weigh(LoadOf(s)) + Times(CountIf(events, IsPublish()), PublishCost(s.cf))
  {
    var inv, weight := (x: State) => x.cf == s.cf, (x: State) => Weigh(LoadOf(x));
    forall x, e | inv(x) && Next(x, e).Some?
      ensures inv(Next(x, e).value)
      ensures (if IsBrokerStep()(e) then 1 else 0) + weight(Next(x, e).value)
           <= weight(x) + (if IsPublish()(e) then PublishCost(s.cf) else 0)
    {
      ConfigKept(x, e);
      StepCosts(x, e);
    }
    RunIsBounded(Next, s, events, inv, weight, IsBrokerStep(), IsPublish(), PublishCost(s.cf));
  }

  /** The entries that dispatch has put into client queues. */
  function FannedOut(events: seq<Event>): nat {
    if events == [] then 0
    else
      var e := events[|events| - 1];
      FannedOut(events[..|events| - 1]) + (if e.Handle? && !e.ends then e.receivers else 0)
  }

  /** The client writes are exactly those entries, less what is still queued. */
  lemma {:induction false} WritesAreFannedOut(s: State, events: seq<Event>)
    requires Run(Next, s, events).Some?
    ensures CountIf(events, IsWrite()) + Total(Run(Next, s, events).value.clients) == Total(s.clients) + FannedOut(events)
  {
    if events != [] {
      var init := events[..|events| - 1];
      WritesAreFannedOut(s, init);
      StepShifts(Run(Next, s, init).value, events[|events| - 1]);
    }
  }
}
