/**
 The dispatch workers: they take posted PUBLISH messages from a shared channel,
 submit them to connections and keep the retained message of each topic. Messages
 are objects, shared between the channel, the worker and the client queues, so the
 Retain flag of a submitted message is whatever its object holds. Which connections
 a worker submits to is left open here; `Fanout` adds the index that decides it.
 */
module Dispatch {
  import opened Topics
  import opened Runs
  import opened Retain

  type ObjectId = nat

  datatype Worker =
    | Idle
    | Took(m: ObjectId)
    | Fanning(m: ObjectId, isRetain: bool)
    | Deleting(m: ObjectId)
    | Dead

  /** A submission to a connection: by fan-out of a post, or by `sendRetain`. */
  datatype Delivery = FanOut(c: Conn, m: ObjectId) | Retained(c: Conn, m: ObjectId)

  datatype Place = Queued | Held(w: nat) | Cleared(w: nat) | Done

  /**
   `posted`, `place` and `updates` record history: each message as it was posted, how
   far it has got, and the messages whose locked update of the retained map has
   happened, in that order.
   */
  datatype State = State(
    heap: map<ObjectId, Publish>,
    posts: seq<ObjectId>,
    workers: seq<Worker>,
    retained: map<string, Publish>,
    submitted: seq<Delivery>,
    posted: map<ObjectId, Publish>,
    place: map<ObjectId, Place>,
    updates: seq<ObjectId>
  )

  datatype Event =
    | Post(m: ObjectId, msg: Publish)
    | Take(w: nat)
    | Clear(w: nat)
    | Deliver(w: nat, c: Conn)
    | Finish(w: nat)
    | Delete(w: nat)
    | SendRetain(topic: string, c: Conn, copy: ObjectId)

  function Init(n: nat): State {
    State(map[], [], seq(n, _ => Idle), map[], [], map[], map[], [])
  }

  // ----- the steps -----

  function Next(s: State, e: Event): Option<State> {
    match e
    case Post(m, msg) =>
      if m in s.heap then None
      else Some(s.(heap := s.heap[m := msg], posts := s.posts + [m],
                   posted := s.posted[m := msg], place := s.place[m := Queued]))
    case Take(w) =>
      if w < |s.workers| && s.workers[w] == Idle && s.posts != []
      then Some(s.(posts := s.posts[1..], workers := s.workers[w := Took(s.posts[0])],
                   place := s.place[s.posts[0] := Held(w)]))
      else None
    case Clear(w) =>
      if w < |s.workers| && s.workers[w].Took? && s.workers[w].m in s.heap
      then Some(ClearRetain(s, w))
      else None
    case Deliver(w, c) =>
      if w < |s.workers| && s.workers[w].Fanning?
      then Some(s.(submitted := s.submitted + [FanOut(c, s.workers[w].m)]))
      else None
    case Finish(w) =>
      if w < |s.workers| && s.workers[w].Fanning? && s.workers[w].m in s.heap
      then Some(FinishPost(s, w))
      else None
    case Delete(w) =>
      if w < |s.workers| && s.workers[w].Deleting? && s.workers[w].m in s.heap
      then var m := s.workers[w].m;
           Some(s.(retained := s.retained - {s.heap[m].topic}, workers := s.workers[w := Dead],
                   place := s.place[m := Done], updates := s.updates + [m]))
      else None
    case SendRetain(topic, c, copy) =>
      if copy in s.heap then None
      else if !IsWildcard(topic) && topic in s.retained
      then Some(s.(heap := s.heap[copy := s.retained[topic]], submitted := s.submitted + [Retained(c, copy)]))
      else Some(s)
  }

  /** Read the flag, clear it in the shared object, and either delete or fan out. */
  function ClearRetain(s: State, w: nat): State
    requires w < |s.workers| && s.workers[w].Took? && s.workers[w].m in s.heap
  {
    var m := s.workers[w].m;
    var msg := s.heap[m];
    var cleared := s.(heap := s.heap[m := msg.(retain := false)], place := s.place[m := Cleared(w)]);
    cleared.(workers := s.workers[w := if IsDeletion(msg) then Deleting(m) else Fanning(m, msg.retain)])
  }

  /** Keep a copy with the flag set, if the post was retained; the worker is free again. */
  function FinishPost(s: State, w: nat): State
    requires w < |s.workers| && s.workers[w].Fanning? && s.workers[w].m in s.heap
  {
    var k := s.workers[w];
    var freed := s.(workers := s.workers[w := Idle], place := s.place[k.m := Done]);
    if k.isRetain
    then freed.(retained := s.retained[s.heap[k.m].topic := s.heap[k.m].(retain := true)],
                updates := s.updates + [k.m])
    else freed
  }

  // ----- the messages behind the updates -----

  function Values(updates: seq<ObjectId>, posted: map<ObjectId, Publish>): seq<Publish>
    requires forall m :: m in updates ==> m in posted
  {
    seq(|updates|, i requires 0 <= i < |updates| => posted[updates[i]])
  }

  /** The position of the last update of a topic, or -1. */
  function LastUpdate(updates: seq<ObjectId>, posted: map<ObjectId, Publish>, topic: string): int
    requires forall m :: m in updates ==> m in posted
  {
    LastRetained(Values(updates, posted), |updates|, topic)
  }

  // ----- every message is in one place, and its object says so -----

  ghost predicate WorkerLocated(s: State, w: nat)
    requires w < |s.workers|
  {
    match s.workers[w]
    case Took(m) => m in s.place && s.place[m] == Held(w)
    case Fanning(m, _) => m in s.place && s.place[m] == Cleared(w)
    case Deleting(m) => m in s.place && s.place[m] == Cleared(w)
    case _ => true
  }

  ghost predicate MessageLocated(s: State, m: ObjectId)
    requires m in s.place
  {
    match s.place[m]
    case Queued => m in s.posts
    case Held(w) => w < |s.workers| && s.workers[w] == Took(m)
    case Cleared(w) => w < |s.workers| && (s.workers[w].Fanning? || s.workers[w].Deleting?) && s.workers[w].m == m
    case Done => true
  }

  ghost predicate Located(s: State) {
    && s.place.Keys == s.posted.Keys
    && (forall i :: 0 <= i < |s.posts| ==> s.posts[i] in s.place && s.place[s.posts[i]] == Queued)
    && (forall i, j :: 0 <= i < j < |s.posts| ==> s.posts[i] != s.posts[j])
    && (forall w :: 0 <= w < |s.workers| ==> WorkerLocated(s, w))
    && (forall m :: m in s.place ==> MessageLocated(s, m))
  }

  /** The object of a posted message: as posted until a worker clears the flag, cleared ever after. */
  ghost predicate ObjectOk(s: State, m: ObjectId)
    requires m in s.posted && m in s.place
  {
    && m in s.heap
    && s.heap[m] == if s.place[m].Queued? || s.place[m].Held? then s.posted[m] else s.posted[m].(retain := false)
  }

  ghost predicate WorkerKnows(s: State, k: Worker) {
    && (k.Fanning? ==> k.m in s.posted && k.isRetain == s.posted[k.m].retain
                       && !IsDeletion(s.posted[k.m]))
    && (k.Deleting? ==> k.m in s.posted && IsDeletion(s.posted[k.m]))
  }

  ghost predicate Objects(s: State) {
    && Located(s)
    && (forall m :: m in s.posted ==> ObjectOk(s, m))
    && (forall w :: 0 <= w < |s.workers| ==> WorkerKnows(s, s.workers[w]))
  }

  /** What a step knows of the message it handles. */
  ghost predicate Handles(s: State, e: Event) {
    && (e.Post? ==> e.m !in s.posted && e.m !in s.place)
    && (e.Take? && s.posts != [] ==> s.posts[0] in s.place && s.place[s.posts[0]] == Queued && s.posts[0] !in s.posts[1..])
    && ((e.Clear? || e.Deliver? || e.Finish? || e.Delete?) && e.w < |s.workers|
        && (s.workers[e.w].Took? || s.workers[e.w].Fanning? || s.workers[e.w].Deleting?) ==>
          var m := s.workers[e.w].m;
          && m in s.posted && m in s.place && m in s.heap
          && (s.workers[e.w].Took? ==> s.place[m] == Held(e.w) && s.heap[m] == s.posted[m])
          && (!s.workers[e.w].Took? ==> s.place[m] == Cleared(e.w) && s.heap[m] == s.posted[m].(retain := false)))
  }

  lemma Handled(s: State, e: Event)
    requires Objects(s) && Next(s, e).Some?
    ensures Handles(s, e)
  {
    assert e.Post? && e.m in s.posted ==> ObjectOk(s, e.m);
    if e.Clear? || e.Deliver? || e.Finish? || e.Delete? {
      assert WorkerLocated(s, e.w);
      assert ObjectOk(s, s.workers[e.w].m);
    }
  }

  lemma QueuedKept(s: State, e: Event, m: ObjectId)
    requires Handles(s, e) && Next(s, e).Some? && m in s.place && s.place[m] == Queued
    requires e.Take? ==> m != s.posts[0]
    ensures var t := Next(s, e).value; m in t.place && t.place[m] == Queued
  {
  }

  /** The channel is read at the front and written at the back. */
  lemma PostsShift(s: State, e: Event)
    requires Next(s, e).Some?
    ensures Next(s, e).value.posts == if e.Take? then s.posts[1..] else if e.Post? then s.posts + [e.m] else s.posts
    ensures e.Post? ==> e.m in Next(s, e).value.place && Next(s, e).value.place[e.m] == Queued
  {
  }

  lemma PostsKept(s: State, e: Event)
    requires Objects(s) && Next(s, e).Some?
    ensures var t := Next(s, e).value;
            && (forall i :: 0 <= i < |t.posts| ==> t.posts[i] in t.place && t.place[t.posts[i]] == Queued)
            && (forall i, j :: 0 <= i < j < |t.posts| ==> t.posts[i] != t.posts[j])
  {
    Handled(s, e);
    var t := Next(s, e).value;
    PostsShift(s, e);
    forall i | 0 <= i < |t.posts| ensures t.posts[i] in t.place && t.place[t.posts[i]] == Queued {
      var j := if e.Take? then i + 1 else i;
      if j < |s.posts| {
        assert s.posts[j] in s.place && s.place[s.posts[j]] == Queued;
        QueuedKept(s, e, s.posts[j]);
      }
    }
  }

  lemma KeysKept(s: State, e: Event)
    requires Handles(s, e) && Next(s, e).Some? && s.place.Keys == s.posted.Keys
    ensures var t := Next(s, e).value; t.place.Keys == t.posted.Keys
  {
  }

  lemma WorkerKept(s: State, e: Event, w: nat)
    requires Handles(s, e) && Next(s, e).Some? && w < |s.workers|
    requires WorkerLocated(s, w) && WorkerKnows(s, s.workers[w])
    ensures var t := Next(s, e).value;
            |t.workers| == |s.workers| && WorkerLocated(t, w) && WorkerKnows(t, t.workers[w])
  {
  }

  lemma TakeLocates(s: State, e: Event, m: ObjectId)
    requires e.Take? && Handles(s, e) && Next(s, e).Some? && m in s.place && MessageLocated(s, m)
    ensures var t := Next(s, e).value; m in t.place && MessageLocated(t, m)
  {
    assert s.posts == [s.posts[0]] + s.posts[1..];
  }

  lemma MessageLocatedKept(s: State, e: Event, m: ObjectId)
    requires Handles(s, e) && Next(s, e).Some? && m in s.place && MessageLocated(s, m)
    ensures var t := Next(s, e).value; m in t.place && MessageLocated(t, m)
  {
    match e
    case Post(_, _) =>
    case Take(_) => TakeLocates(s, e, m);
    case Clear(_) =>
    case Deliver(_, _) =>
    case Finish(_) =>
    case Delete(_) =>
    case SendRetain(_, _, _) =>
  }

  lemma ObjectKept(s: State, e: Event, m: ObjectId)
    requires Handles(s, e) && Next(s, e).Some? && m in s.posted && m in s.place && ObjectOk(s, m)
    ensures var t := Next(s, e).value; m in t.posted && m in t.place && ObjectOk(t, m)
  {
  }

  lemma ObjectsKept(s: State, e: Event)
    requires Objects(s) && Next(s, e).Some?
    ensures Objects(Next(s, e).value)
  {
    var t := Next(s, e).value;
    Handled(s, e);
    PostsKept(s, e);
    KeysKept(s, e);
    forall w | 0 <= w < |t.workers| ensures WorkerLocated(t, w) && WorkerKnows(t, t.workers[w]) {
      WorkerKept(s, e, w);
    }
    forall m | m in t.place ensures MessageLocated(t, m) && ObjectOk(t, m) {
      if m in s.place {
        MessageLocatedKept(s, e, m);
        ObjectKept(s, e, m);
      }
    }
  }

  // ----- the Retain flag of what is submitted -----

  /** Fan-out submits an object whose flag is cleared; `sendRetain` submits a copy nobody else holds. */
  ghost predicate DeliveryOk(s: State, d: Delivery) {
    && (d.FanOut? ==> d.m in s.posted && d.m in s.place && (s.place[d.m].Cleared? || s.place[d.m].Done?))
    && (d.Retained? ==> d.m in s.heap && d.m !in s.posted && s.heap[d.m].retain)
  }

  lemma DeliveryKept(s: State, e: Event, d: Delivery)
    requires Handles(s, e) && Next(s, e).Some? && DeliveryOk(s, d)
    ensures DeliveryOk(Next(s, e).value, d)
  {
  }

  // ----- the retained map -----

  /** The update history lists every finished retained post exactly once. */
  ghost predicate Recorded(s: State) {
    RecordedOnce(s) && forall m :: m in s.place && s.place[m] == Done ==> RecordedAt(s, m)
  }

  ghost predicate RecordedAt(s: State, m: ObjectId) {
    m in s.posted && (s.posted[m].retain ==> m in s.updates)
  }

  ghost predicate RecordedOnce(s: State) {
    && (forall m :: m in s.updates ==> m in s.posted && m in s.place && s.place[m] == Done && s.posted[m].retain)
    && (forall i, j :: 0 <= i < j < |s.updates| ==> s.updates[i] != s.updates[j])
  }

  ghost predicate RetainedOk(s: State) {
    && (forall m :: m in s.updates ==> m in s.posted)
    && s.retained == RememberAll(map[], Values(s.updates, s.posted), |s.updates|)
  }

  lemma RememberSnoc(updates: seq<ObjectId>, m: ObjectId, posted: map<ObjectId, Publish>)
    requires m in posted && forall x :: x in updates ==> x in posted
    ensures forall x :: x in updates + [m] ==> x in posted
    ensures RememberAll(map[], Values(updates + [m], posted), |updates| + 1)
         == Remember(RememberAll(map[], Values(updates, posted), |updates|), posted[m])
  {
    RememberPrefix(map[], Values(updates + [m], posted), Values(updates, posted), |updates|);
  }

  ghost predicate Knowing(s: State, e: Event) {
    && Handles(s, e)
    && ((e.Finish? || e.Delete?) && e.w < |s.workers| ==> WorkerKnows(s, s.workers[e.w]))
  }

  lemma RecordedOnceKept(s: State, e: Event)
    requires Knowing(s, e) && RecordedOnce(s) && Next(s, e).Some?
    ensures RecordedOnce(Next(s, e).value)
  {
  }

  lemma RecordedAtKept(s: State, e: Event, m: ObjectId)
    requires Knowing(s, e) && Next(s, e).Some?
    requires m in s.place && s.place[m] == Done ==> RecordedAt(s, m)
    ensures var t := Next(s, e).value; m in t.place && t.place[m] == Done ==> RecordedAt(t, m)
  {
  }

  lemma RecordedKept(s: State, e: Event)
    requires Knowing(s, e) && Recorded(s) && Next(s, e).Some?
    ensures Recorded(Next(s, e).value)
  {
    RecordedOnceKept(s, e);
    forall m | m in Next(s, e).value.place && Next(s, e).value.place[m] == Done ensures RecordedAt(Next(s, e).value, m) {
      RecordedAtKept(s, e, m);
    }
  }

  lemma RetainedKept(s: State, e: Event)
    requires Knowing(s, e) && RetainedOk(s) && Next(s, e).Some?
    ensures RetainedOk(Next(s, e).value)
  {
    match e
    case Post(_, _) => assert Values(s.updates, Next(s, e).value.posted) == Values(s.updates, s.posted);
    case Take(_) =>
    case Clear(_) =>
    case Deliver(_, _) =>
    case Finish(w) => RememberSnoc(s.updates, s.workers[w].m, s.posted);
    case Delete(w) => RememberSnoc(s.updates, s.workers[w].m, s.posted);
    case SendRetain(_, _, _) =>
  }

  // ----- what fan-out has submitted -----

  /** The connections a message has been submitted to by fan-out, in order. */
  function Delivered(sent: seq<Delivery>, m: ObjectId): seq<Conn> {
    if sent == [] then []
    else
      var d := sent[|sent| - 1];
      Delivered(sent[..|sent| - 1], m) + (if d.FanOut? && d.m == m then [d.c] else [])
  }

  lemma DeliveredSnoc(sent: seq<Delivery>, d: Delivery, m: ObjectId)
    ensures Delivered(sent + [d], m) == Delivered(sent, m) + (if d.FanOut? && d.m == m then [d.c] else [])
  {
    assert (sent + [d])[..|sent|] == sent;
  }

  lemma DeliveredSteps(s: State, e: Event, m: ObjectId)
    requires Next(s, e).Some?
    ensures Delivered(Next(s, e).value.submitted, m)
         == if e.Deliver? && s.workers[e.w].m == m then Delivered(s.submitted, m) + [e.c]
            else Delivered(s.submitted, m)
  {
    if e.Deliver? {
      DeliveredSnoc(s.submitted, FanOut(e.c, s.workers[e.w].m), m);
    } else if e.SendRetain? {
      DeliveredSnoc(s.submitted, Retained(e.c, e.copy), m);
    }
  }

  // ----- workers that have ended -----

  function DeadCount(workers: seq<Worker>): nat {
    if workers == [] then 0 else (if workers[0] == Dead then 1 else 0) + DeadCount(workers[1..])
  }

  function Deletions(updates: seq<ObjectId>, posted: map<ObjectId, Publish>): nat
    requires forall m :: m in updates ==> m in posted
  {
    if updates == [] then 0
    else Deletions(updates[..|updates| - 1], posted)
         + (if posted[updates[|updates| - 1]].payload == "" then 1 else 0)
  }

  lemma {:induction false} DeadCountUpdate(workers: seq<Worker>, w: nat, k: Worker)
    requires w < |workers|
    ensures DeadCount(workers[w := k])
         == DeadCount(workers) - (if workers[w] == Dead then 1 else 0) + (if k == Dead then 1 else 0)
  {
    if w > 0 {
      DeadCountUpdate(workers[1..], w - 1, k);
      assert workers[w := k][1..] == workers[1..][w - 1 := k];
    }
  }

  lemma {:induction false} DeadCountSnoc(workers: seq<Worker>, k: Worker)
    ensures DeadCount(workers + [k]) == DeadCount(workers) + (if k == Dead then 1 else 0)
  {
    if workers != [] {
      DeadCountSnoc(workers[1..], k);
      assert (workers + [k])[1..] == workers[1..] + [k];
    }
  }

  lemma DeletionsSnoc(updates: seq<ObjectId>, m: ObjectId, posted: map<ObjectId, Publish>)
    requires m in posted && forall x :: x in updates ==> x in posted
    ensures Deletions(updates + [m], posted) == Deletions(updates, posted) + (if posted[m].payload == "" then 1 else 0)
  {
    assert (updates + [m])[..|updates|] == updates;
  }

  lemma DeletionsIgnoreNewPosts(updates: seq<ObjectId>, posted: map<ObjectId, Publish>, more: map<ObjectId, Publish>)
    requires forall m :: m in updates ==> m in posted
    requires forall m :: m in posted ==> m in more && more[m] == posted[m]
    ensures Deletions(updates, more) == Deletions(updates, posted)
  {
  }

  /** Exactly the workers that deleted a retained message have ended. */
  ghost predicate DeathsOk(s: State) {
    && (forall m :: m in s.updates ==> m in s.posted)
    && DeadCount(s.workers) == Deletions(s.updates, s.posted)
  }

  lemma DeathsKept(s: State, e: Event)
    requires Knowing(s, e) && DeathsOk(s) && Next(s, e).Some?
    ensures DeathsOk(Next(s, e).value)
  {
    var t := Next(s, e).value;
    match e
    case Post(_, _) => DeletionsIgnoreNewPosts(s.updates, s.posted, t.posted);
    case Take(w) => DeadCountUpdate(s.workers, w, t.workers[w]);
    case Clear(w) => DeadCountUpdate(s.workers, w, t.workers[w]);
    case Deliver(_, _) =>
    case Finish(w) =>
      DeadCountUpdate(s.workers, w, Idle);
      DeletionsSnoc(s.updates, s.workers[w].m, s.posted);
    case Delete(w) =>
      DeadCountUpdate(s.workers, w, Dead);
      DeletionsSnoc(s.updates, s.workers[w].m, s.posted);
    case SendRetain(_, _, _) =>
  }

  // ----- over whole runs -----

  ghost predicate Inv(s: State) {
    && Objects(s)
    && (forall d :: d in s.submitted ==> DeliveryOk(s, d))
    && Recorded(s) && RetainedOk(s) && DeathsOk(s)
  }

  lemma {:induction false} NoneDead(workers: seq<Worker>)
    requires forall w :: 0 <= w < |workers| ==> workers[w] == Idle
    ensures DeadCount(workers) == 0
  {
    if workers != [] {
      NoneDead(workers[1..]);
    }
  }

  lemma {:induction false} InitInv(n: nat)
    ensures Inv(Init(n))
  {
    NoneDead(Init(n).workers);
  }

  lemma SubmittedKept(s: State, e: Event)
    requires Inv(s) && Handles(s, e) && Next(s, e).Some?
    ensures forall d :: d in Next(s, e).value.submitted ==> DeliveryOk(Next(s, e).value, d)
  {
    var t := Next(s, e).value;
    forall d | d in t.submitted ensures DeliveryOk(t, d) {
      if d in s.submitted {
        DeliveryKept(s, e, d);
      } else if e.SendRetain? {
        RememberedIsTheLast(Values(s.updates, s.posted), |s.updates|, e.topic);
      }
    }
  }

  lemma InvKept(s: State, e: Event)
    requires Inv(s) && Next(s, e).Some?
    ensures Inv(Next(s, e).value)
  {
    Handled(s, e);
    assert Knowing(s, e);
    ObjectsKept(s, e);
    RecordedKept(s, e);
    RetainedKept(s, e);
    DeathsKept(s, e);
    SubmittedKept(s, e);
  }

  lemma WorkersKept(s: State, e: Event)
    requires Next(s, e).Some?
    ensures |Next(s, e).value.workers| == |s.workers|
  {
  }

  lemma ReachableInv(n: nat, events: seq<Event>)
    ensures var r := Run(Next, Init(n), events);
            r.Some? ==> Inv(r.value) && |r.value.workers| == n
  {
    InitInv(n);
    var inv := (s: State) => Inv(s) && |s.workers| == n;
    forall s, e | inv(s) && Next(s, e).Some? ensures inv(Next(s, e).value) {
      InvKept(s, e);
      WorkersKept(s, e);
    }
    Invariant(Next, Init(n), events, inv);
  }

  /** In every run, what fan-out submitted has Retain false and what `sendRetain` submitted has it true. */
  lemma FlagsOfSubmittedMessages(n: nat, events: seq<Event>, d: Delivery)
    requires Run(Next, Init(n), events).Some? && d in Run(Next, Init(n), events).value.submitted
    ensures var s := Run(Next, Init(n), events).value;
            d.m in s.heap && s.heap[d.m].retain == d.Retained?
  {
    ReachableInv(n, events);
    var s := Run(Next, Init(n), events).value;
    assert DeliveryOk(s, d);
    if d.FanOut? {
      assert ObjectOk(s, d.m);
    }
  }

  lemma SubmittedObjectKept(s: State, e: Event, d: Delivery)
    requires Handles(s, e) && Next(s, e).Some? && DeliveryOk(s, d) && d.m in s.heap
    ensures var t := Next(s, e).value; d.m in t.heap && t.heap[d.m] == s.heap[d.m]
  {
  }

  lemma SubmittedGrows(s: State, e: Event, d: Delivery)
    requires Next(s, e).Some? && d in s.submitted
    ensures d in Next(s, e).value.submitted
  {
  }

  /** A submitted message never changes again, although its object is shared. */
  lemma SubmittedMessagesNeverChange(n: nat, events: seq<Event>, more: seq<Event>, d: Delivery)
    requires Run(Next, Init(n), events + more).Some?
    requires Run(Next, Init(n), events).Some? && d in Run(Next, Init(n), events).value.submitted
    ensures var s, t := Run(Next, Init(n), events).value, Run(Next, Init(n), events + more).value;
            && d in t.submitted && d.m in s.heap && d.m in t.heap
            && t.heap[d.m] == s.heap[d.m]
  {
    FlagsOfSubmittedMessages(n, events, d);
    ReachableInv(n, events);
    var s := Run(Next, Init(n), events).value;
    var msg := s.heap[d.m];
    var inv := (x: State) => Inv(x) && d in x.submitted && d.m in x.heap && x.heap[d.m] == msg;
    forall x, e | inv(x) && Next(x, e).Some? ensures inv(Next(x, e).value) {
      InvKept(x, e);
      Handled(x, e);
      SubmittedObjectKept(x, e, d);
      SubmittedGrows(x, e, d);
    }
    RunSplits(Next, Init(n), events, more);
    Invariant(Next, s, more, inv);
  }

  /**
   In every run the retained message of a topic is the last update of that topic, unless
   that was an empty one; it carries its own topic and the Retain flag.
   */
  lemma RetainedIsTheLastUpdate(n: nat, events: seq<Event>, topic: string)
    requires Run(Next, Init(n), events).Some?
    ensures var s := Run(Next, Init(n), events).value;
            && Recorded(s)
            && var i := LastUpdate(s.updates, s.posted, topic);
               && (topic in s.retained <==> i >= 0 && s.posted[s.updates[i]].payload != "")
               && (topic in s.retained ==>
                     && s.retained[topic] == s.posted[s.updates[i]]
                     && s.retained[topic].topic == topic && s.retained[topic].retain)
  {
    ReachableInv(n, events);
    var s := Run(Next, Init(n), events).value;
    RememberedIsTheLast(Values(s.updates, s.posted), |s.updates|, topic);
    var i := LastUpdate(s.updates, s.posted, topic);
    assert i >= 0 ==> s.updates[i] in s.updates;
  }

  /** `sendRetain` submits the retained message of an exact topic, or nothing. */
  lemma SendRetainSubmitsTheLast(n: nat, events: seq<Event>, topic: string, c: Conn, copy: ObjectId)
    requires Run(Next, Init(n), events).Some?
    requires copy !in Run(Next, Init(n), events).value.heap
    ensures var s := Run(Next, Init(n), events).value;
            && Recorded(s)
            && var i := LastUpdate(s.updates, s.posted, topic);
               var t := Next(s, SendRetain(topic, c, copy));
               && t.Some?
               && if !IsWildcard(topic) && i >= 0 && s.posted[s.updates[i]].payload != ""
                  then && t.value.submitted == s.submitted + [Retained(c, copy)]
                       && t.value.heap == s.heap[copy := s.posted[s.updates[i]]]
                  else t.value == s
  {
    RetainedIsTheLastUpdate(n, events, topic);
  }

  // ----- the channel -----

  /** The messages posted in a run, in order. */
  function PostedIn(events: seq<Event>): seq<ObjectId> {
    if events == [] then []
    else
      var n := |events| - 1;
      PostedIn(events[..n]) + (if events[n].Post? then [events[n].m] else [])
  }

  /** The messages the workers have in hand after a run that they did not have before, in order of taking. */
  function TakenIn(n: nat, events: seq<Event>): seq<ObjectId> {
    if events == [] then []
    else
      var i := |events| - 1;
      TakenIn(n, events[..i]) +
      match Run(Next, Init(n), events)
      case Some(s) =>
        if events[i].Take? && events[i].w < |s.workers| && s.workers[events[i].w].Took? then [s.workers[events[i].w].m] else []
      case None => []
  }

  /** The workers take the posts in the order they were posted. */
  lemma {:induction false} PostsAreTakenInOrder(n: nat, events: seq<Event>)
    requires Run(Next, Init(n), events).Some?
    ensures PostedIn(events) == TakenIn(n, events) + Run(Next, Init(n), events).value.posts
  {
    if events != [] {
      var i := |events| - 1;
      PostsAreTakenInOrder(n, events[..i]);
      var s, t := Run(Next, Init(n), events[..i]).value, Run(Next, Init(n), events).value;
      PostsShift(s, events[i]);
      var taken := TakenIn(n, events[..i]);
      if events[i].Take? {
        assert taken + [s.posts[0]] + s.posts[1..] == taken + s.posts;
      } else if events[i].Post? {
        assert taken + s.posts + [events[i].m] == taken + (s.posts + [events[i].m]);
      }
    }
  }

  // ----- a deletion costs a worker -----

  lemma DeadStep(s: State, e: Event)
    requires forall w :: 0 <= w < |s.workers| ==> s.workers[w] == Dead
    requires Next(s, e).Some?
    ensures var t := Next(s, e).value;
            && t.workers == s.workers && t.retained == s.retained && t.updates == s.updates
            && s.posts <= t.posts
            && forall m :: Delivered(t.submitted, m) == Delivered(s.submitted, m)
  {
    assert e.Post? || e.SendRetain?;
    forall m ensures Delivered(Next(s, e).value.submitted, m) == Delivered(s.submitted, m) {
      DeliveredSteps(s, e, m);
    }
  }

  /** Once all workers have ended, nothing is dispatched or retained any more, whatever is posted. */
  lemma {:induction false} DeadBrokerStaysDead(s: State, events: seq<Event>)
    requires forall w :: 0 <= w < |s.workers| ==> s.workers[w] == Dead
    requires Run(Next, s, events).Some?
    ensures var t := Run(Next, s, events).value;
            && t.workers == s.workers && t.retained == s.retained && t.updates == s.updates
            && s.posts <= t.posts
            && forall m :: Delivered(t.submitted, m) == Delivered(s.submitted, m)
  {
    if events != [] {
      DeadBrokerStaysDead(s, events[..|events| - 1]);
      DeadStep(Run(Next, s, events[..|events| - 1]).value, events[|events| - 1]);
    }
  }

  /** A state in which the first `k` workers have ended and nothing is waiting. */
  ghost predicate EndedFirst(s: State, n: nat, k: nat) {
    && k <= n == |s.workers| && s.posts == []
    && (forall w :: 0 <= w < k ==> s.workers[w] == Dead)
    && (forall w :: k <= w < n ==> s.workers[w] == Idle)
    && (forall m :: m in s.heap ==> m < k)
  }

  /** One more worker takes a deletion. */
  lemma EndOne(s: State, n: nat, k: nat, topic: string) returns (events: seq<Event>, t: State)
    requires EndedFirst(s, n, k) && k < n
    ensures Run(Next, s, events) == Some(t) && EndedFirst(t, n, k + 1)
  {
    events := [Post(k, Publish(topic, "", true)), Take(k), Clear(k), Delete(k)];
    var s1 := Next(s, events[0]).value;
    var s2 := Next(s1, events[1]).value;
    var s3 := Next(s2, events[2]).value;
    t := Next(s3, events[3]).value;
    TraceIsRun(Next, [s, s1, s2, s3, t], events);
  }

  lemma {:induction false} EndFirst(n: nat, k: nat, topic: string) returns (events: seq<Event>, s: State)
    requires k <= n
    ensures Run(Next, Init(n), events) == Some(s) && EndedFirst(s, n, k)
  {
    if k == 0 {
      events, s := [], Init(n);
    } else {
      var before, u := EndFirst(n, k - 1, topic);
      var more, t := EndOne(u, n, k - 1, topic);
      RunSplits(Next, Init(n), before, more);
      events, s := before + more, t;
    }
  }

  /** As many deletions as there are workers end them all, and the next post waits for good. */
  lemma DeletionsEndEveryWorker(n: nat, topic: string, msg: Publish) returns (events: seq<Event>)
    ensures Run(Next, Init(n), events).Some?
    ensures var s := Run(Next, Init(n), events).value;
            s.posts == [n] && |s.workers| == n && forall w :: 0 <= w < n ==> s.workers[w] == Dead
  {
    var before, s := EndFirst(n, n, topic);
    var last := [Post(n, msg)];
    var t := Next(s, last[0]).value;
    TraceIsRun(Next, [s, t], last);
    RunSplits(Next, Init(n), before, last);
    events := before + last;
  }
}
