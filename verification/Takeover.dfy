/**
 A newcomer connects under the id of an established session: every interleaving of the
 newcomer's `doConnect` with the teardown of the session it displaces.
 */
module Takeover {
  import opened Runs
  import opened Topics
  import opened Connections

  /** The two sessions and the id they share. */
  datatype Pair = Pair(id: string, holder: Conn, newcomer: Conn)

  /** The holder sends no further CONNECT, the newcomer sends one, nobody else uses the id. */
  predicate Allowed(s: State, e: Event, p: Pair) {
    e.Connect? ==>
      && e.c != p.holder
      && (if e.c == p.newcomer then e.id == p.id && Get(s, p.newcomer).phase == Fresh else e.id != p.id)
  }

  function Steps(p: Pair): (State, Event) -> Option<State> {
    (s, e) => if Allowed(s, e, p) then Next(s, e) else None
  }

  ghost predicate OutsiderOk(s: State, c: Conn, p: Pair) {
    && Get(s, c).flag != Some(p.id)
    && (Get(s, c).phase.Displacing? ==>
          Get(s, c).phase.existing != p.holder && Get(s, c).phase.existing != p.newcomer)
  }

  /** The newcomer has noted the id. */
  predicate Arrived(s: State, p: Pair) {
    Get(s, p.newcomer).flag == Some(p.id)
  }

  /** The newcomer is past unregistering the holder. */
  predicate Past(s: State, p: Pair) {
    Arrived(s, p) && !Get(s, p.newcomer).phase.Displacing? && Get(s, p.newcomer).phase != Presenting
  }

  ghost predicate Inv(s: State, p: Pair) {
    var h, n := Get(s, p.holder), Get(s, p.newcomer);
    && p.holder != p.newcomer && h.flag == Some(p.id) && (h.phase == Ready || h.phase == Ended)
    && (n.phase == Fresh ==> n.flag == None)
    && (n.phase != Fresh && n.phase != Ended ==> Arrived(s, p))
    && (Arrived(s, p) || n.flag == None)
    && (n.phase.Displacing? ==> n.phase.existing == p.holder)
    && (p.id in s.registry ==>
          s.registry[p.id] == if Past(s, p) then p.newcomer else p.holder)
    && (forall id :: id in s.registry && id != p.id ==>
          s.registry[id] != p.holder && s.registry[id] != p.newcomer)
    && (forall c :: c != p.holder && c != p.newcomer ==> OutsiderOk(s, c, p))
  }

  /** An established session, and a connection that has not sent its CONNECT. */
  ghost predicate Start(s: State, p: Pair) {
    && Inv(s, p) && p.id in s.registry
    && Get(s, p.holder).out == Running && Get(s, p.newcomer).phase == Fresh
  }

  lemma OutsidersKept(s: State, e: Event, p: Pair, c: Conn)
    requires Inv(s, p) && Allowed(s, e, p) && Next(s, e).Some? && c != p.holder && c != p.newcomer
    ensures OutsiderOk(Next(s, e).value, c, p)
  {
    assert OutsiderOk(s, c, p);
  }

  lemma InvKept(s: State, e: Event, p: Pair)
    requires Inv(s, p) && Allowed(s, e, p) && Next(s, e).Some?
    ensures Inv(Next(s, e).value, p)
  {
    var t := Next(s, e).value;
    forall c | c != p.holder && c != p.newcomer ensures OutsiderOk(t, c, p) {
      OutsidersKept(s, e, p, c);
    }
    if e.c != p.holder && e.c != p.newcomer {
      assert OutsiderOk(s, e.c, p);
      if e.Unregister? {
        var x := Get(s, e.c).phase.existing;
        assert OutsiderOk(s, x, p);
      }
    }
  }

  lemma InvHolds(s: State, p: Pair, events: seq<Event>)
    requires Inv(s, p) && Run(Steps(p), s, events).Some?
    ensures Inv(Run(Steps(p), s, events).value, p)
  {
    forall x, e | Inv(x, p) && Steps(p)(x, e).Some? ensures Inv(Steps(p)(x, e).value, p) {
      InvKept(x, e, p);
    }
    Invariant(Steps(p), s, events, (x: State) => Inv(x, p));
  }

  /** In every interleaving, once the newcomer has unregistered the holder the id is never the holder's again. */
  lemma DisplacedSessionNeverReturns(s: State, p: Pair, events: seq<Event>)
    requires Start(s, p) && Run(Steps(p), s, events).Some?
    ensures var t := Run(Steps(p), s, events).value;
            Past(t, p) && p.id in t.registry ==> t.registry[p.id] == p.newcomer
  {
    InvHolds(s, p, events);
  }

  lemma LateStep(s: State, p: Pair, e: Event)
    requires Inv(s, p) && Past(s, p) && Allowed(s, e, p) && Next(s, e).Some? && e != Del(p.newcomer)
    requires Get(s, p.newcomer).phase == Ready || Get(s, p.newcomer).phase == Ended
    ensures var t := Next(s, e).value;
            && Past(t, p) && (Get(t, p.newcomer).phase == Ready || Get(t, p.newcomer).phase == Ended)
            && (p.id in t.registry <==> p.id in s.registry && e != Del(p.holder))
  {
    if e.c != p.holder && e.c != p.newcomer {
      assert OutsiderOk(s, e.c, p);
      if e.Unregister? {
        assert OutsiderOk(s, Get(s, e.c).phase.existing, p);
      }
    }
  }

  /** After its final `add` the newcomer holds the id until the holder's own teardown deletes it. */
  lemma {:induction false} AfterFinalAdd(s: State, p: Pair, events: seq<Event>)
    requires Inv(s, p) && Past(s, p) && Get(s, p.newcomer).phase == Ready
    requires p.id in s.registry && Run(Steps(p), s, events).Some? && Del(p.newcomer) !in events
    ensures var t := Run(Steps(p), s, events).value;
            && Past(t, p) && (Get(t, p.newcomer).phase == Ready || Get(t, p.newcomer).phase == Ended)
            && (p.id in t.registry <==> Del(p.holder) !in events)
  {
    if events != [] {
      var init, e := events[..|events| - 1], events[|events| - 1];
      assert events == init + [e];
      AfterFinalAdd(s, p, init);
      InvHolds(s, p, init);
      var u := Run(Steps(p), s, init).value;
      LateStep(u, p, e);
    }
  }

  /**
   `del` removes by id without checking whose entry it is. So when the takeover is over, the
   newcomer is registered exactly if the holder's teardown did not delete the id after the
   newcomer's final `add`; otherwise nobody is.
   */
  lemma TakeoverOutcome(s: State, p: Pair, before: seq<Event>, after: seq<Event>)
    requires Start(s, p) && Run(Steps(p), s, before + [AddAgain(p.newcomer)] + after).Some?
    requires Del(p.newcomer) !in after
    ensures var t := Run(Steps(p), s, before + [AddAgain(p.newcomer)] + after).value;
            && (p.id in t.registry <==> Del(p.holder) !in after)
            && (p.id in t.registry ==> t.registry[p.id] == p.newcomer)
  {
    var a := AddAgain(p.newcomer);
    RunSplits(Steps(p), s, before + [a], after);
    RunSplits(Steps(p), s, before, [a]);
    var u := Run(Steps(p), s, before).value;
    InvHolds(s, p, before);
    assert Run(Steps(p), u, [a]) == Steps(p)(u, a) by { assert [a][..0] == []; }
    InvKept(u, a, p);
    var v := Next(u, a).value;
    AfterFinalAdd(v, p, after);
    InvHolds(v, p, after);
  }

  /** The starting point is reached by one CONNECT. */
  lemma EstablishedSession(max: nat, p: Pair) returns (s: State)
    requires p.holder != p.newcomer
    ensures Run(Next, Init(max), [Connect(p.holder, p.id), AddFirst(p.holder), AddAgain(p.holder)]) == Some(s) && Start(s, p)
    ensures Get(s, p.newcomer) == NEW
  {
    var s0 := Init(max);
    var s1 := Next(s0, Connect(p.holder, p.id)).value;
    var s2 := Next(s1, AddFirst(p.holder)).value;
    s := Next(s2, AddAgain(p.holder)).value;
    TraceIsRun(Next, [s0, s1, s2, s], [Connect(p.holder, p.id), AddFirst(p.holder), AddAgain(p.holder)]);
  }

  /** Both outcomes happen: here the holder's teardown comes last, and nobody is registered. */
  lemma LateTeardownUnregisters(max: nat, p: Pair) returns (s: State, events: seq<Event>)
    requires p.holder != p.newcomer
    ensures Run(Next, Init(max), [Connect(p.holder, p.id), AddFirst(p.holder), AddAgain(p.holder)]) == Some(s) && Start(s, p)
    ensures Run(Steps(p), s, events).Some?
    ensures var t := Run(Steps(p), s, events).value;
            Get(t, p.newcomer).phase == Ready && Get(t, p.newcomer).out == Running && p.id !in t.registry
  {
    s := EstablishedSession(max, p);
    events := [Connect(p.newcomer, p.id), AddFirst(p.newcomer), Unregister(p.newcomer), AddAgain(p.newcomer), Del(p.holder)];
    var s1 := Next(s, events[0]).value;
    var s2 := Next(s1, events[1]).value;
    var s3 := Next(s2, events[2]).value;
    var s4 := Next(s3, events[3]).value;
    var s5 := Next(s4, events[4]).value;
    TraceIsRun(Steps(p), [s, s1, s2, s3, s4, s5], events);
  }
}
