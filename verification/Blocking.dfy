/**
 When workers have to wait. Under "block" a submission waits while the queue of a live connection is
 full. A worker waits in the middle of its list; `sendRetain` waits with the lock of the index in its
 hands, and then nobody looks up, subscribes, retains or deletes.
 */
module Blocking {
  import opened Topics
  import opened SharedIndex
  import opened Runs
  import opened Retain
  import Dispatch
  import Fanout

  /** A `sendRetain` that waits: it holds the lock. */
  datatype Wait = Wait(topic: string, c: Conn)

  /**
   `full` are the live connections whose submitters have to wait, `quit` those whose outbound loop has
   ended, so that nothing is taken from their queue any more. A connection also stops being in `full`
   when its inbound loop ends, which it cannot do while it is the one that waits in `sendRetain`.
   */
  datatype State = State(f: Fanout.State, block: bool, full: set<Conn>, quit: set<Conn>, lock: Option<Wait>)

  datatype Event =
    | Go(e: Fanout.Event)
    | Fill(c: Conn)
    | Free(c: Conn)
    | Quit(c: Conn)
    | End(c: Conn)
    | SendRetainWaits(topic: string, c: Conn)
    | SendRetainGoesOn(copy: Fanout.ObjectId)

  function Init(n: nat, block: bool): State {
    State(Fanout.Init(n), block, {}, {}, None)
  }

  /** The step is made under the lock. */
  predicate NeedsLock(f: Fanout.State, e: Fanout.Event) {
    match e
    case Other(g) => g.Delete? || g.SendRetain?
    case LookUp(_, _, _) => true
    case ReadCell(_) => false
    case FinishFanOut(w) => w < |f.d.workers| && f.d.workers[w].Fanning? && f.d.workers[w].isRetain
    case ClientCall(_) => true
  }

  predicate HasRetained(f: Fanout.State, topic: string) {
    !IsWildcard(topic) && topic in f.d.retained
  }

  /** The cell a worker reads next is a connection with a full queue. */
  predicate WaitsForQueue(s: State, w: nat) {
    && Fanout.Reading(s.f, w)
    && var r := Fanout.Of(s.f, w);
       |r.read| < |r.selected| && Fanout.Now(s.f.index, r, |r.read|).Ref? && Fanout.Now(s.f.index, r, |r.read|).c in s.full
  }

  /** The step would submit to a full queue. */
  predicate AtFullQueue(s: State, e: Fanout.Event) {
    || (e.ReadCell? && WaitsForQueue(s, e.w))
    || (e.Other? && e.e.SendRetain? && HasRetained(s.f, e.e.topic) && e.e.c in s.full)
  }

  function With(s: State, f: Option<Fanout.State>): Option<State> {
    match f
    case None => None
    case Some(f) => Some(s.(f := f))
  }

  ghost function Next(s: State, e: Event): Option<State> {
    match e
    case Go(g) =>
      if (NeedsLock(s.f, g) && s.lock.Some?) || AtFullQueue(s, g) then None else With(s, Fanout.Next(s.f, g))
    case Fill(c) => if s.block then Some(s.(full := s.full + {c})) else None
    case Free(c) => if c in s.quit then None else Some(s.(full := s.full - {c}))
    case Quit(c) => Some(s.(quit := s.quit + {c}))
    case End(c) => if s.lock.Some? && s.lock.value.c == c then None else Some(s.(full := s.full - {c}))
    case SendRetainWaits(topic, c) =>
      if s.lock == None && HasRetained(s.f, topic) && c in s.full then Some(s.(lock := Some(Wait(topic, c)))) else None
    case SendRetainGoesOn(copy) =>
      if s.lock == None || s.lock.value.c in s.full then None
      else With(s.(lock := None), Fanout.Next(s.f, Fanout.Other(Dispatch.SendRetain(s.lock.value.topic, s.lock.value.c, copy))))
  }

  /**
   A connection comes to make its submitters wait only under "block". It stops doing so when a job is taken from its
   queue, which needs its outbound loop, or when it ends, which needs its inbound loop not to be the one that waits.
   */
  lemma QueuesFillAndFree(s: State, c: Conn)
    ensures Next(s, Fill(c)).Some? <==> s.block
    ensures Next(s, Fill(c)).Some? ==> Next(s, Fill(c)).value == s.(full := s.full + {c})
    ensures Next(s, Free(c)).Some? <==> c !in s.quit
    ensures Next(s, Free(c)).Some? ==> Next(s, Free(c)).value == s.(full := s.full - {c})
    ensures Next(s, End(c)).Some? <==> !(s.lock.Some? && s.lock.value.c == c)
    ensures Next(s, End(c)).Some? ==> Next(s, End(c)).value == s.(full := s.full - {c})
    ensures Next(s, Quit(c)) == Some(s.(quit := s.quit + {c}))
  {
  }

  /** A step is one step of workers and clients, or none, so what holds in all their runs holds here. */
  lemma StepProjects(s: State, e: Event) returns (g: Option<Fanout.Event>)
    requires Next(s, e).Some?
    ensures match g
            case None => Next(s, e).value.f == s.f
            case Some(g) => Fanout.Next(s.f, g) == Some(Next(s, e).value.f)
  {
    g := match e
    case Go(g) => Some(g)
    case SendRetainGoesOn(copy) => Some(Fanout.Other(Dispatch.SendRetain(s.lock.value.topic, s.lock.value.c, copy)))
    case _ => None;
  }

  lemma {:induction false} RunProjects(n: nat, block: bool, events: seq<Event>) returns (inner: seq<Fanout.Event>)
    requires Run(Next, Init(n, block), events).Some?
    ensures Run(Fanout.Next, Fanout.Init(n), inner) == Some(Run(Next, Init(n, block), events).value.f)
  {
    if events == [] {
      inner := [];
    } else {
      var init := events[..|events| - 1];
      var before := RunProjects(n, block, init);
      var g := StepProjects(Run(Next, Init(n, block), init).value, events[|events| - 1]);
      inner := before;
      if g.Some? {
        inner := before + [g.value];
        assert inner[..|inner| - 1] == before;
      }
    }
  }

  /** Under "discard" nobody waits. */
  ghost predicate WaitsOnlyUnderBlock(s: State, block: bool) {
    s.block == block && (!block ==> s.full == {} && s.lock == None)
  }

  /** Whoever waits with the lock has a message to submit. */
  ghost predicate LockOk(s: State) {
    s.lock.Some? ==> HasRetained(s.f, s.lock.value.topic)
  }

  lemma LockKept(s: State, e: Event)
    requires LockOk(s) && Next(s, e).Some?
    ensures LockOk(Next(s, e).value)
  {
  }

  lemma ReachableLock(n: nat, block: bool, events: seq<Event>)
    requires Run(Next, Init(n, block), events).Some?
    ensures LockOk(Run(Next, Init(n, block), events).value)
  {
    forall s, e | LockOk(s) && Next(s, e).Some? ensures LockOk(Next(s, e).value) {
      LockKept(s, e);
    }
    Invariant(Next, Init(n, block), events, (s: State) => LockOk(s));
  }

  /** A step of workers and clients submits at most one message: to the cell read, or a retained one. */
  lemma SubmitsAtMostOne(f: Fanout.State, g: Fanout.Event)
    requires Fanout.Next(f, g).Some?
    ensures var before, after := f.d.submitted, Fanout.Next(f, g).value.d.submitted;
            || after == before
            || (g.ReadCell? && Fanout.Reading(f, g.w) && var r := Fanout.Of(f, g.w); var cell := Fanout.Now(f.index, r, |r.read|);
                |r.read| < |r.selected| && cell.Ref? && after == before + [Dispatch.FanOut(cell.c, f.d.workers[g.w].m)])
            || (g.Other? && g.e.SendRetain? && HasRetained(f, g.e.topic)
                && after == before + [Dispatch.Retained(g.e.c, g.e.copy)])
  {
    match g
    case Other(h) =>
    case LookUp(_, _, _) =>
    case ReadCell(_) =>
    case FinishFanOut(_) =>
    case ClientCall(_) =>
  }

  /** Nothing is submitted to a connection that makes its submitters wait. */
  lemma SubmissionNeedsRoom(s: State, e: Event)
    requires Next(s, e).Some?
    ensures var before, after := s.f.d.submitted, Next(s, e).value.f.d.submitted;
            after == before || (|after| == |before| + 1 && before <= after && after[|before|].c !in s.full)
  {
    match e
    case Go(g) => SubmitsAtMostOne(s.f, g);
    case SendRetainGoesOn(copy) =>
      SubmitsAtMostOne(s.f, Fanout.Other(Dispatch.SendRetain(s.lock.value.topic, s.lock.value.c, copy)));
    case _ =>
  }

  /** Once there is room the `sendRetain` that waits submits its message and gives the lock back. */
  lemma WaitingSendRetainGoesOn(n: nat, block: bool, events: seq<Event>, copy: Fanout.ObjectId)
    requires Run(Next, Init(n, block), events).Some?
    requires var s := Run(Next, Init(n, block), events).value;
             s.lock.Some? && s.lock.value.c !in s.full && copy !in s.f.d.heap
    ensures var s := Run(Next, Init(n, block), events).value;
            var t := Next(s, SendRetainGoesOn(copy));
            && t.Some? && t.value.lock == None && s.lock.value.topic in s.f.d.retained
            && t.value.f.d.submitted == s.f.d.submitted + [Dispatch.Retained(s.lock.value.c, copy)]
            && t.value.f.d.heap == s.f.d.heap[copy := s.f.d.retained[s.lock.value.topic]]
  {
    ReachableLock(n, block, events);
  }

  lemma WaitsKept(s: State, e: Event, block: bool)
    requires WaitsOnlyUnderBlock(s, block) && Next(s, e).Some?
    ensures WaitsOnlyUnderBlock(Next(s, e).value, block)
  {
  }

  lemma ReachableWaits(n: nat, block: bool, events: seq<Event>)
    requires Run(Next, Init(n, block), events).Some?
    ensures WaitsOnlyUnderBlock(Run(Next, Init(n, block), events).value, block)
  {
    var inv := (s: State) => WaitsOnlyUnderBlock(s, block);
    forall s, e | inv(s) && Next(s, e).Some? ensures inv(Next(s, e).value) {
      WaitsKept(s, e, block);
    }
    Invariant(Next, Init(n, block), events, inv);
  }

  lemma ReachableInv(n: nat, block: bool, events: seq<Event>)
    requires Run(Next, Init(n, block), events).Some?
    ensures var s := Run(Next, Init(n, block), events).value; Fanout.Inv(s.f) && |s.f.d.workers| == n
  {
    var inner := RunProjects(n, block, events);
    Fanout.ReachableInv(n, inner);
    var worker := Fanout.RunProjects(n, inner);
    Dispatch.ReachableInv(n, worker);
  }

  // ----- progress -----

  predicate MoveOf(e: Fanout.Event, w: nat) {
    || e == Fanout.Other(Dispatch.Take(w)) || e == Fanout.Other(Dispatch.Clear(w)) || e == Fanout.Other(Dispatch.Delete(w))
    || (e.LookUp? && e.w == w) || e == Fanout.ReadCell(w) || e == Fanout.FinishFanOut(w)
  }

  ghost predicate CanMove(s: State, w: nat) {
    exists e :: MoveOf(e, w) && Next(s, Go(e)).Some?
  }

  /** A worker that has to look up, retain or delete next, while the lock is taken. */
  predicate WaitsForLock(s: State, w: nat) {
    && s.lock.Some? && w < |s.f.d.workers|
    && match s.f.d.workers[w]
       case Deleting(_) => true
       case Fanning(m, isRetain) =>
         m !in s.f.records || (isRetain && |s.f.records[m].read| == |s.f.records[m].selected|)
       case _ => false
  }

  predicate Waits(s: State, w: nat) {
    WaitsForLock(s, w) || WaitsForQueue(s, w)
  }

  lemma {:induction false} FreshId(ids: set<nat>) returns (a: nat)
    ensures a !in ids && forall i :: i in ids ==> i < a
  {
    if ids == {} {
      a := 0;
    } else {
      var i :| i in ids;
      var b := FreshId(ids - {i});
      a := if i < b then b else i + 1;
      assert forall j :: j in ids ==> j == i || j in ids - {i};
    }
  }

  /** What a worker with a message in its hands needs to know. */
  ghost predicate HandsOk(f: Fanout.State, w: nat)
    requires w < |f.d.workers|
  {
    var k := f.d.workers[w];
    && (k.Took? || k.Fanning? || k.Deleting? ==> k.m in f.d.heap)
    && (k.Fanning? && k.m in f.records ==> |f.records[k.m].read| <= |f.records[k.m].selected|)
  }

  lemma HandsAreOk(f: Fanout.State, w: nat)
    requires Fanout.Inv(f) && w < |f.d.workers|
    ensures HandsOk(f, w)
  {
    var k := f.d.workers[w];
    assert Dispatch.WorkerLocated(f.d, w);
    if k.Took? || k.Fanning? || k.Deleting? {
      assert Dispatch.ObjectOk(f.d, k.m);
      assert Fanout.MessageOk(f, k.m);
    }
  }

  lemma FreeWorkerMoves(s: State, w: nat)
    requires s.f.d.posts != [] && w < |s.f.d.workers| && HandsOk(s.f, w)
    requires s.f.d.workers[w] != Dispatch.Dead && !Waits(s, w)
    ensures CanMove(s, w)
  {
    var e := match s.f.d.workers[w]
      case Idle => Fanout.Other(Dispatch.Take(w))
      case Took(_) => Fanout.Other(Dispatch.Clear(w))
      case Deleting(_) => Fanout.Other(Dispatch.Delete(w))
      case Fanning(m, _) =>
        if m !in s.f.records then Fanout.LookUp(w, 0, 0)
        else if |s.f.records[m].read| < |s.f.records[m].selected| then Fanout.ReadCell(w) else Fanout.FinishFanOut(w);
    if e.LookUp? {
      var a := FreshId(s.f.index.arrays.Keys);
      e := Fanout.LookUp(w, a, 0);
    }
    assert MoveOf(e, w) && Next(s, Go(e)).Some?;
  }

  lemma WaitingWorkerDoesNot(s: State, w: nat)
    requires w < |s.f.d.workers| && (s.f.d.workers[w] == Dispatch.Dead || Waits(s, w))
    ensures !CanMove(s, w)
  {
    forall e | MoveOf(e, w) ensures Next(s, Go(e)) == None {
    }
  }

  // ----- counting workers -----

  ghost function Waiting(s: State): set<nat> {
    set w: nat | w < |s.f.d.workers| && Waits(s, w)
  }

  ghost function Ended(workers: seq<Dispatch.Worker>): set<nat> {
    set w: nat | w < |workers| && workers[w] == Dispatch.Dead
  }

  function Below(n: nat): (r: set<nat>)
    ensures |r| == n && forall w: nat :: w in r <==> w < n
  {
    if n == 0 then {} else Below(n - 1) + {n - 1}
  }

  lemma {:induction false} EndedSize(workers: seq<Dispatch.Worker>)
    ensures |Ended(workers)| == Dispatch.DeadCount(workers)
  {
    if workers != [] {
      var n := |workers| - 1;
      EndedSize(workers[..n]);
      assert workers == workers[..n] + [workers[n]];
      Dispatch.DeadCountSnoc(workers[..n], workers[n]);
      assert Ended(workers) == Ended(workers[..n]) + (if workers[n] == Dispatch.Dead then {n} else {});
    }
  }

  /** Someone below `n` is in neither of two disjoint sets exactly if their sizes leave room. */
  lemma RoomForOne(a: set<nat>, b: set<nat>, n: nat)
    requires a <= Below(n) && b <= Below(n) && a !! b
    ensures (exists w: nat :: w < n && w !in a && w !in b) <==> |a| + |b| < n
  {
    assert |a + b| == |a| + |b|;
    var rest := Below(n) - (a + b);
    assert Below(n) == (a + b) + rest;
    assert |Below(n)| == |a + b| + |rest|;
    if rest != {} {
      var w :| w in rest;
      assert w < n && w !in a && w !in b;
    }
    if w: nat :| w < n && w !in a && w !in b {
      assert w in rest;
    }
  }

  /**
   `run` returns after it has deleted a retained message. So while a post is waiting, some worker can
   move exactly if the deletions handled and the workers that wait, for the lock or at a full queue,
   are together fewer than there are workers.
   */
  lemma ProgressIff(n: nat, block: bool, events: seq<Event>)
    requires Run(Next, Init(n, block), events).Some? && Run(Next, Init(n, block), events).value.f.d.posts != []
    ensures var s := Run(Next, Init(n, block), events).value;
            && (forall m :: m in s.f.d.updates ==> m in s.f.d.posted)
            && ((exists w: nat :: w < n && CanMove(s, w))
                <==> Dispatch.Deletions(s.f.d.updates, s.f.d.posted) + |Waiting(s)| < n)
  {
    ReachableInv(n, block, events);
    var s := Run(Next, Init(n, block), events).value;
    forall w: nat | w < n ensures CanMove(s, w) <==> w !in Ended(s.f.d.workers) && w !in Waiting(s) {
      HandsAreOk(s.f, w);
      if s.f.d.workers[w] == Dispatch.Dead || Waits(s, w) {
        WaitingWorkerDoesNot(s, w);
      } else {
        FreeWorkerMoves(s, w);
      }
    }
    EndedSize(s.f.d.workers);
    RoomForOne(Ended(s.f.d.workers), Waiting(s), n);
  }

  /** Under "discard" only deletions count. */
  lemma ProgressUnderDiscard(n: nat, events: seq<Event>)
    requires Run(Next, Init(n, false), events).Some? && Run(Next, Init(n, false), events).value.f.d.posts != []
    ensures var s := Run(Next, Init(n, false), events).value;
            && (forall m :: m in s.f.d.updates ==> m in s.f.d.posted)
            && ((exists w: nat :: w < n && CanMove(s, w)) <==> Dispatch.Deletions(s.f.d.updates, s.f.d.posted) < n)
  {
    ProgressIff(n, false, events);
    ReachableWaits(n, false, events);
    assert Waiting(Run(Next, Init(n, false), events).value) == {};
  }

  // ----- the lock taken for good -----

  /** A `sendRetain` waits at a queue from which nothing is taken any more. */
  predicate LockedUp(s: State) {
    s.lock.Some? && s.lock.value.c in s.full && s.lock.value.c in s.quit
  }

  lemma LockedUpStep(s: State, e: Event)
    requires LockedUp(s) && Next(s, e).Some?
    ensures var t := Next(s, e).value;
            && LockedUp(t) && t.f.index == s.f.index && t.f.records.Keys == s.f.records.Keys
            && t.f.d.retained == s.f.d.retained && t.f.d.updates == s.f.d.updates
            && (forall d :: d in t.f.d.submitted && d.Retained? ==> d in s.f.d.submitted)
  {
  }

  /** Then it waits for ever, and from then on nothing is looked up, subscribed to, retained, deleted or sent as retained. */
  lemma {:induction false} LockedUpForGood(s: State, events: seq<Event>)
    requires LockedUp(s) && Run(Next, s, events).Some?
    ensures var t := Run(Next, s, events).value;
            && LockedUp(t) && t.f.index == s.f.index && t.f.records.Keys == s.f.records.Keys
            && t.f.d.retained == s.f.d.retained && t.f.d.updates == s.f.d.updates
            && (forall d :: d in t.f.d.submitted && d.Retained? ==> d in s.f.d.submitted)
  {
    if events != [] {
      LockedUpForGood(s, events[..|events| - 1]);
      LockedUpStep(Run(Next, s, events[..|events| - 1]).value, events[|events| - 1]);
    }
  }

  /** The first `k` workers have a post in hand that they have to look up, the others have none. */
  ghost predicate StuckFirst(s: State, n: nat, k: nat) {
    && k <= n == |s.f.d.workers| && s.f.d.posts == [] && s.f.records.Keys == {0}
    && (forall w :: 0 <= w < k ==> s.f.d.workers[w].Fanning? && s.f.d.workers[w].m == w + 1)
    && (forall w :: k <= w < n ==> s.f.d.workers[w] == Dispatch.Idle)
    && (forall m :: m in s.f.d.heap ==> m <= k)
  }

  /** The first worker takes a retained post. */
  lemma TakesFirst(n: nat, msg: Publish) returns (events: seq<Event>, s: State)
    requires n >= 1 && msg.retain && !IsDeletion(msg)
    ensures Run(Next, Init(n, true), events) == Some(s)
    ensures s == Init(n, true).(f := Fanout.Init(n).(d := s.f.d))
    ensures s.f.d == Dispatch.Init(n).(heap := map[0 := msg.(retain := false)], posted := map[0 := msg],
                                       place := map[0 := Dispatch.Cleared(0)],
                                       workers := Dispatch.Init(n).workers[0 := Dispatch.Fanning(0, true)])
  {
    events := [Go(Fanout.Other(Dispatch.Post(0, msg))), Go(Fanout.Other(Dispatch.Take(0))), Go(Fanout.Other(Dispatch.Clear(0)))];
    var s0 := Init(n, true);
    var s1 := Next(s0, events[0]).value;
    var s2 := Next(s1, events[1]).value;
    s := Next(s2, events[2]).value;
    assert s2.f.d.posts == [];
    assert s.f.d.workers == Dispatch.Init(n).workers[0 := Dispatch.Fanning(0, true)];
    TraceIsRun(Next, [s0, s1, s2, s], events);
  }

  /** Nobody has subscribed to it, so it is only retained. */
  lemma RetainsFirst(n: nat, msg: Publish) returns (events: seq<Event>, s: State)
    requires n >= 1 && msg.retain && !IsDeletion(msg)
    ensures Run(Next, Init(n, true), events) == Some(s) && s == State(s.f, true, {}, {}, None)
    ensures StuckFirst(s, n, 0) && s.f.d.retained == map[msg.topic := msg] && s.f.d.updates == [0]
    ensures 0 in s.f.d.posted && s.f.d.posted[0] == msg
  {
    var before, u := TakesFirst(n, msg);
    assert HitsOf(u.f.index, msg.topic) == [] && Listed(u.f.index, msg.topic) == [];
    var v := Next(u, Go(Fanout.LookUp(0, 0, 0))).value;
    assert v.f.records.Keys == {0} && v.f.records[0].selected == [] == v.f.records[0].read;
    assert v.f.d == u.f.d;
    s := Next(v, Go(Fanout.FinishFanOut(0))).value;
    assert s.f.d.workers == Dispatch.Init(n).workers;
    var after := [Go(Fanout.LookUp(0, 0, 0)), Go(Fanout.FinishFanOut(0))];
    TraceIsRun(Next, [u, v, s], after);
    RunsCompose(Next, Init(n, true), before, u, after, s);
    events := before + after;
  }

  lemma StickOne(s: State, n: nat, k: nat, msg: Publish) returns (events: seq<Event>, t: State)
    requires StuckFirst(s, n, k) && k < n && !IsDeletion(msg)
    ensures Run(Next, s, events) == Some(t) && StuckFirst(t, n, k + 1)
    ensures t == s.(f := t.f) && t.f.d.retained == s.f.d.retained && t.f.d.updates == s.f.d.updates
    ensures forall m :: m in s.f.d.posted && m <= k ==> m in t.f.d.posted && t.f.d.posted[m] == s.f.d.posted[m]
  {
    events := [Go(Fanout.Other(Dispatch.Post(k + 1, msg))), Go(Fanout.Other(Dispatch.Take(k))), Go(Fanout.Other(Dispatch.Clear(k)))];
    var s1 := Next(s, events[0]).value;
    var s2 := Next(s1, events[1]).value;
    assert s2.f.d.workers == s.f.d.workers[k := Dispatch.Took(k + 1)] && s2.f.d.posts == [];
    t := Next(s2, events[2]).value;
    assert t.f.d.workers == s.f.d.workers[k := Dispatch.Fanning(k + 1, msg.retain)];
    TraceIsRun(Next, [s, s1, s2, t], events);
  }

  lemma {:induction false} StickFrom(s: State, n: nat, k: nat, msg: Publish) returns (events: seq<Event>, t: State)
    requires StuckFirst(s, n, k) && !IsDeletion(msg)
    ensures Run(Next, s, events) == Some(t) && StuckFirst(t, n, n)
    ensures t == s.(f := t.f) && t.f.d.retained == s.f.d.retained && t.f.d.updates == s.f.d.updates
    ensures 0 in s.f.d.posted ==> 0 in t.f.d.posted && t.f.d.posted[0] == s.f.d.posted[0]
    decreases n - k
  {
    if k == n {
      events, t := [], s;
    } else {
      var first, u := StickOne(s, n, k, msg);
      var more, v := StickFrom(u, n, k + 1, msg);
      RunsCompose(Next, s, first, u, more, v);
      events, t := first + more, v;
    }
  }

  /** The queue of a client fills up, its outbound loop ends, and it is sent a retained message. */
  lemma TakesTheLock(s: State, topic: string, c: Conn) returns (events: seq<Event>, t: State)
    requires s.block && s.lock == None && HasRetained(s.f, topic)
    ensures Run(Next, s, events) == Some(t) && t.f == s.f && LockedUp(t) && t.lock == Some(Wait(topic, c))
  {
    events := [Fill(c), Quit(c), SendRetainWaits(topic, c)];
    var s1 := Next(s, events[0]).value;
    var s2 := Next(s1, events[1]).value;
    t := Next(s2, events[2]).value;
    TraceIsRun(Next, [s, s1, s2, t], events);
  }

  lemma AllStick(n: nat, msg: Publish, c: Conn) returns (events: seq<Event>, s: State)
    requires n >= 1 && msg.retain && !IsDeletion(msg) && !IsWildcard(msg.topic)
    ensures Run(Next, Init(n, true), events) == Some(s) && LockedUp(s) && StuckFirst(s, n, n)
    ensures s.f.d.updates == [0] && 0 in s.f.d.posted && s.f.d.posted[0] == msg
  {
    var first, s1 := RetainsFirst(n, msg);
    var lock, s2 := TakesTheLock(s1, msg.topic, c);
    RunsCompose(Next, Init(n, true), first, s1, lock, s2);
    var stick, s3 := StickFrom(s2, n, 0, msg);
    RunsCompose(Next, Init(n, true), first + lock, s2, stick, s3);
    events, s := first + lock + stick, s3;
  }

  lemma NobodyTakes(s: State, n: nat, msg: Publish) returns (t: State)
    requires LockedUp(s) && StuckFirst(s, n, n)
    ensures Next(s, Go(Fanout.Other(Dispatch.Post(n + 1, msg)))) == Some(t) && LockedUp(t) && t.f.d.posts == [n + 1]
    ensures t.f.d.updates == s.f.d.updates && t.f.d.posted == s.f.d.posted[n + 1 := msg]
    ensures forall w: nat :: w < n ==> !CanMove(t, w)
  {
    t := Next(s, Go(Fanout.Other(Dispatch.Post(n + 1, msg)))).value;
    forall w: nat | w < n ensures !CanMove(t, w) {
      WaitingWorkerDoesNot(t, w);
    }
  }

  /**
   For any number of workers, without a single deletion: a client whose queue is full and whose outbound
   loop has ended subscribes to a topic with a retained message, and every worker comes to wait for the
   lock, with a post left that nobody will take.
   */
  lemma OneClientStopsEveryWorker(n: nat, msg: Publish, c: Conn) returns (events: seq<Event>)
    requires n >= 1 && msg.retain && !IsDeletion(msg) && !IsWildcard(msg.topic)
    ensures Run(Next, Init(n, true), events).Some?
    ensures var s := Run(Next, Init(n, true), events).value;
            && LockedUp(s) && s.f.d.posts == [n + 1] && (forall w: nat :: w < n ==> !CanMove(s, w))
            && 0 in s.f.d.posted && s.f.d.updates == [0] && !IsDeletion(s.f.d.posted[0])
  {
    var before, s := AllStick(n, msg, c);
    var t := NobodyTakes(s, n, msg);
    var last := Go(Fanout.Other(Dispatch.Post(n + 1, msg)));
    RunOne(Next, s, last, t);
    RunsCompose(Next, Init(n, true), before, s, [last], t);
    events := before + [last];
  }
}
