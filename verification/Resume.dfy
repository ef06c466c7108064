/**
 Resuming a session: `doConnect` lists the in-flight store and resends its messages
 while the outbound loop, which is already running, stores each of them again as an
 outbound message when it sends it.
 */
module Resume {
  import opened Runs
  import opened Lists
  import opened Store
  import opened JobQueue
  import opened Session

  /** The messages offered so far that are PUBLISH messages, in order. */
  function Publishes(offered: seq<Offer>): seq<Message> {
    if offered == [] then []
    else
      var m := offered[|offered| - 1].job.m;
      Publishes(offered[..|offered| - 1]) + (if m.Publish? then [m] else [])
  }

  function MessageAt(store: Contents): string -> Message {
    (k: string) => if k in store then store[k] else ConnAck
  }

  /** No id is held in both directions by two different messages. */
  ghost predicate Consistent(store: Contents) {
    forall mid: Mid :: InboundKey(mid) in store && OutboundKey(mid) in store ==>
      store[InboundKey(mid)] == store[OutboundKey(mid)]
  }

  /** A job that is a PUBLISH comes from the store that is being resent, and none is a PUBACK. */
  ghost predicate FromStore(m: Message, store: Contents) {
    !m.PubAck? && (m.Publish? ==> exists k :: k in store && store[k] == m)
  }

  ghost predicate JobsFrom(s: State, store: Contents) {
    && (forall j :: j in s.q.jobs ==> FromStore(j.m, store))
    && (s.out.Holding? ==> FromStore(s.out.j.m, store))
  }

  /** Up to the CONNACK: what is done is resent, what is left is still in the store untouched. */
  ghost predicate Resuming(s: State, store: Contents, clean: bool) {
    match s.inb
    case Connecting =>
      && !clean && s.store == store && s.restored == [] && Publishes(s.q.offered) == [] && JobsFrom(s, map[])
    case Restoring(todo) =>
      && JobsFrom(s, s.snapshot)
      && IsListing(s.restored + todo, s.snapshot)
      && (forall k :: k in todo ==> k in s.store && s.store[k] == s.snapshot[k])
      && Publishes(s.q.offered) == Map(s.restored, MessageAt(s.snapshot))
      && if clean then s.snapshot == map[] && s.store == map[] else s.snapshot == store
    case _ => true
  }

  lemma PublishesSnoc(offered: seq<Offer>, o: Offer)
    ensures Publishes(offered + [o]) == Publishes(offered) + (if o.job.m.Publish? then [o.job.m] else [])
  {
    assert (offered + [o])[..|offered|] == offered;
  }

  /** Sending a resent message stores it under its outbound key, which disturbs no other key. */
  lemma SendingDisturbsNothing(current: Contents, store: Contents, m: Message, key: string)
    requires WellKept(store) && Consistent(store) && FromStore(m, store)
    requires key in store && key in current && current[key] == store[key]
    ensures key in PersistOut(current, m) && PersistOut(current, m)[key] == store[key]
  {
    if m.Publish? && key == OutboundKey(m.mid) {
      var k :| k in store && store[k] == m;
      assert EntryOk(k, store[k]);
    }
  }

  lemma OutgoingKeeps(s: State, e: Event, store: Contents, clean: bool)
    requires WellKept(store) && Consistent(store)
    requires Resuming(s, store, clean) && IsOutgoing(e) && Next(s, e).Some?
    ensures Resuming(Next(s, e).value, store, clean)
  {
    var t := Next(s, e).value;
    match e
    case Dequeue =>
      assert s.q.jobs == [s.q.jobs[0]] + s.q.jobs[1..];
      assert s.q.jobs[0] in s.q.jobs;
    case PersistJob =>
      if s.inb.Restoring? {
        forall k | k in s.inb.todo ensures k in t.store && t.store[k] == s.snapshot[k] {
          assert k in s.restored + s.inb.todo;
          SendingDisturbsNothing(s.store, s.snapshot, s.out.j.m, k);
        }
      }
    case _ =>
  }

  lemma SubmitKeepsJobs(s: State, t: State, j: Job, store: Contents)
    requires Submitted(s.q, t.q, j) && t.out == s.out && JobsFrom(s, store) && FromStore(j.m, store)
    ensures JobsFrom(t, store)
    ensures t.q != s.q ==> Publishes(t.q.offered) == Publishes(s.q.offered) + (if j.m.Publish? then [j.m] else [])
  {
    PublishesSnoc(s.q.offered, Offer(j, true, |s.q.jobs|));
    PublishesSnoc(s.q.offered, Offer(j, false, |s.q.jobs|));
  }

  lemma ResendKeeps(s: State, store: Contents, clean: bool)
    requires WellKept(store) && LoopsOk(s) && Resuming(s, store, clean) && Next(s, RestoreOne).Some?
    ensures Resuming(Next(s, RestoreOne).value, store, clean)
  {
    var t, key, rest := Next(s, RestoreOne).value, s.inb.todo[0], s.inb.todo[1..];
    assert s.restored + s.inb.todo == t.restored + rest;
    assert key in s.inb.todo && key in s.restored + s.inb.todo;
    var m := s.snapshot[key];
    assert EntryOk(key, m) && FromStore(m, s.snapshot);
    IncomingStep(s, RestoreOne);
    SubmitMoves(s.q, m);
    SubmitKeepsJobs(s, t, Job(m, None), s.snapshot);
    MapAppend(s.restored, [key], MessageAt(s.snapshot));
    assert Map([key], MessageAt(s.snapshot)) == [m];
  }

  lemma SideJobKeeps(s: State, e: Event, store: Contents, clean: bool)
    requires LoopsOk(s) && Resuming(s, store, clean) && (e.Kick? || e.Ping? || e.Unsubscribe?) && Next(s, e).Some?
    ensures Resuming(Next(s, e).value, store, clean)
  {
    IncomingStep(s, e);
    if s.inb == Connecting {
      SubmitKeepsJobs(s, Next(s, e).value, SubmittedJob(s, e).value, map[]);
    } else if s.inb.Restoring? {
      SubmitKeepsJobs(s, Next(s, e).value, SubmittedJob(s, e).value, s.snapshot);
    }
  }

  lemma IncomingKeeps(s: State, e: Event, store: Contents, clean: bool)
    requires WellKept(store) && LoopsOk(s)
    requires Resuming(s, store, clean) && !IsOutgoing(e) && Next(s, e).Some?
    ensures Resuming(Next(s, e).value, store, clean || e.StartClean?)
  {
    match e
    case RestoreOne => ResendKeeps(s, store, clean);
    case Kick(_) => SideJobKeeps(s, e, store, clean);
    case Ping => SideJobKeeps(s, e, store, clean);
    case Unsubscribe => SideJobKeeps(s, e, store, clean);
    case Resume(keys) => assert s.restored + keys == keys;
    case _ =>
  }

  lemma {:induction false} ResumingHolds(cap: nat, block: bool, store: Contents, events: seq<Event>)
    requires WellKept(store) && Consistent(store)
    requires Run(Next, Init(cap, block, store), events).Some?
    ensures Resuming(Run(Next, Init(cap, block, store), events).value, store, StartClean in events)
  {
    if events != [] {
      var init, e := events[..|events| - 1], events[|events| - 1];
      assert events == init + [e];
      ResumingHolds(cap, block, store, init);
      QueueReachable(cap, block, store, init);
      var s := Run(Next, Init(cap, block, store), init).value;
      if IsOutgoing(e) {
        OutgoingKeeps(s, e, store, StartClean in init);
      } else {
        IncomingKeeps(s, e, store, StartClean in init);
      }
    }
  }

  /**
   If no id is held in both directions by different messages, then in every interleaving with
   the outbound loop the messages submitted before the CONNACK are exactly the stored ones,
   one for each key. A clean session submits none and empties the store.
   */
  lemma ResumeIsComplete(cap: nat, block: bool, store: Contents, events: seq<Event>)
    requires WellKept(store) && Consistent(store)
    requires Run(Next, Init(cap, block, store), events).Some?
    requires Run(Next, Init(cap, block, store), events).value.inb == Restoring([])
    ensures var s := Run(Next, Init(cap, block, store), events).value;
            if StartClean in events then s.store == map[] && Publishes(s.q.offered) == []
            else && (forall k :: k in s.restored <==> k in store)
                 && (forall i, j :: 0 <= i < j < |s.restored| ==> s.restored[i] != s.restored[j])
                 && Publishes(s.q.offered) == Map(s.restored, MessageAt(store))
  {
    ResumingHolds(cap, block, store, events);
    var s := Run(Next, Init(cap, block, store), events).value;
    assert s.restored + [] == s.restored;
    assert forall i :: 0 <= i < |s.restored| ==> s.restored[i] in s.restored;
  }

  // ----- and only then -----

  lemma {:induction false} ListingOf(keys: set<string>) returns (listing: seq<string>)
    ensures forall k :: k in listing <==> k in keys
    ensures forall i, j :: 0 <= i < j < |listing| ==> listing[i] != listing[j]
    decreases |keys|
  {
    if keys == {} {
      listing := [];
    } else {
      var k :| k in keys;
      var rest := ListingOf(keys - {k});
      listing := [k] + rest;
    }
  }

  lemma ResendStep(s: State, key: string, t: State)
    requires s.q.cap >= 1 && s.q.alive && s.q.jobs == [] && key in s.store && Resendable(s.store[key])
    requires s.inb.Restoring? && s.inb.todo != [] && s.inb.todo[0] == key
    requires t == s.(inb := Restoring(s.inb.todo[1..]), restored := s.restored + [key],
                     q := s.q.(jobs := [Job(s.store[key], None)],
                               offered := s.q.offered + [Offer(Job(s.store[key], None), true, 0)]))
    ensures Next(s, RestoreOne) == Some(t)
  {
    assert s.q.jobs + [Job(s.store[key], None)] == [Job(s.store[key], None)];
  }

  lemma OvertakingRun(s: State, i: string, o: string, m: Message) returns (t: State)
    requires s.q.cap >= 1 && s.q.alive && s.q.jobs == [] && s.q.offered == [] && s.out == Waiting && s.restored == []
    requires s.inb.Restoring? && |s.inb.todo| >= 2 && s.inb.todo[0] == i && s.inb.todo[1] == o
    requires m.Publish? && m.qos == QOS_AT_LEAST_ONCE && i in s.store && s.store[i] == m && o == OutboundKey(m.mid)
    ensures Run(Next, s, Overtaking()) == Some(t)
    ensures t.inb.Restoring? && t.restored == [i, o] && Publishes(t.q.offered) == [m, m]
  {
    var job, todo := Job(m, None), s.inb.todo;
    var s1 := s.(inb := Restoring(todo[1..]), restored := [i], q := s.q.(jobs := [job], offered := [Offer(job, true, 0)]));
    var s2 := s1.(q := s1.q.(jobs := []), written := s1.written + [job], store := s.store[o := m]);
    t := s2.(inb := Restoring(todo[1..][1..]), restored := [i, o],
             q := s2.q.(jobs := [job], offered := [Offer(job, true, 0), Offer(job, true, 0)]));
    ResendStep(s, i, s1);
    SendSteps(s1, job, s2);
    ResendStep(s2, o, t);
    TraceIsRun(Next, [s, s1], [RestoreOne]);
    TraceIsRun(Next, [s2, t], [RestoreOne]);
    RunSplits(Next, s, [RestoreOne], Sending());
    RunSplits(Next, s, [RestoreOne] + Sending(), [RestoreOne]);
    PublishesSnoc([], Offer(job, true, 0));
    PublishesSnoc([Offer(job, true, 0)], Offer(job, true, 0));
  }

  lemma KeyOfEntry(store: Contents, mid: Mid)
    requires WellKept(store) && InboundKey(mid) in store
    ensures var m := store[InboundKey(mid)]; m.Publish? && m.qos == QOS_AT_LEAST_ONCE && m.mid == mid
  {
    assert EntryOk(InboundKey(mid), store[InboundKey(mid)]);
    KeysAreDistinct(mid, store[InboundKey(mid)].mid);
  }

  /**
   Otherwise the inbound message can be submitted twice and the outbound one lost: sending the
   first overwrites the second in the store before it is read.
   */
  lemma InconsistentStoreCanLoseAMessage(cap: nat, block: bool, store: Contents, mid: Mid) returns (events: seq<Event>)
    requires cap >= 1 && WellKept(store)
    requires InboundKey(mid) in store && OutboundKey(mid) in store
    requires store[InboundKey(mid)] != store[OutboundKey(mid)]
    ensures Run(Next, Init(cap, block, store), events).Some?
    ensures var s := Run(Next, Init(cap, block, store), events).value;
            && s.inb.Restoring? && s.restored == [InboundKey(mid), OutboundKey(mid)]
            && Publishes(s.q.offered) == [store[InboundKey(mid)], store[InboundKey(mid)]]
  {
    var i, o := InboundKey(mid), OutboundKey(mid);
    KeysAreDistinct(mid, mid);
    var rest := ListingOf(store.Keys - {i, o});
    var keys := [i, o] + rest;
    assert IsListing(keys, store) by {
      assert forall k :: k in store ==> k == i || k == o || k in rest;
    }
    KeyOfEntry(store, mid);
    var s0 := Init(cap, block, store);
    var s1 := s0.(inb := Restoring(keys), snapshot := store);
    var s2 := OvertakingRun(s1, i, o, store[i]);
    TraceIsRun(Next, [s0, s1], [Resume(keys)]);
    RunSplits(Next, s0, [Resume(keys)], Overtaking());
    events := [Resume(keys)] + Overtaking();
  }

  /** One message is resent and sent before the next key is looked up. */
  function Overtaking(): seq<Event> {
    [RestoreOne] + Sending() + [RestoreOne]
  }
}
