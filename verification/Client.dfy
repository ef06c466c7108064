/**
 What the broker does with SUBSCRIBE and UNSUBSCRIBE messages, on the heap, and the runs of the
 connection machine it amounts to.
 */
module Client {
  import opened Topics
  import opened Lists
  import opened FlatIndex
  import opened Runs
  import opened Subscriptions
  import opened Worker
  import Connections

  function SubscribeAll(flat: Flat, topics: seq<string>, c: Conn): Flat {
    if topics == [] then flat
    else AddSub(SubscribeAll(flat, topics[..|topics| - 1], c), topics[|topics| - 1], c)
  }

  function UnsubscribeAll(flat: Flat, topics: seq<string>, c: Conn): Flat {
    if topics == [] then flat
    else FlatIndex.Unsub(UnsubscribeAll(flat, topics[..|topics| - 1], c), topics[|topics| - 1], c)
  }

  /** A topic for which `sendRetain` has something. */
  predicate HasRetained(topic: string, retained: map<string, Value>) {
    !IsWildcard(topic) && topic in retained
  }

  function WithRetained(topics: seq<string>, retained: map<string, Value>): seq<string> {
    Keep(topics, (t: string) => HasRetained(t, retained))
  }

  lemma WithRetainedSnoc(topics: seq<string>, topic: string, retained: map<string, Value>)
    ensures WithRetained(topics + [topic], retained)
         == WithRetained(topics, retained) + (if HasRetained(topic, retained) then [topic] else [])
  {
    KeepAppend(topics, [topic], (t: string) => HasRetained(t, retained));
  }

  /** The entries are the retained messages of the topics for a connection, in order. */
  ghost predicate Sends(entries: seq<Entry>, c: Conn, topics: seq<string>, retained: map<string, Value>)
    reads set e | e in entries && e.Retained? :: e.m
  {
    && |entries| == |topics|
    && forall i :: 0 <= i < |entries| ==> SendsOne(entries[i], c, topics[i], retained)
  }

  ghost predicate SendsOne(e: Entry, c: Conn, topic: string, retained: map<string, Value>)
    reads if e.Retained? then {e.m} else {}
  {
    e.Retained? && e.c == c && topic in retained && e.m.Value() == retained[topic]
  }

  function TopicOf(): Entry -> string {
    (e: Entry) => if e.Answer? then "" else e.m.topic
  }

  /** How many of the entries carry a message of the topic. */
  function CopiesOf(entries: seq<Entry>, topic: string): nat {
    Count(Map(entries, TopicOf()), topic)
  }

  lemma {:induction false} KeptCopies(topics: seq<string>, retained: map<string, Value>, topic: string)
    ensures Count(WithRetained(topics, retained), topic)
         == if '#' !in topic && '+' !in topic && topic in retained then Count(topics, topic) else 0
  {
    if topics != [] {
      var n := |topics| - 1;
      assert topics == topics[..n] + [topics[n]];
      KeptCopies(topics[..n], retained, topic);
      WithRetainedSnoc(topics[..n], topics[n], retained);
      CountAppend(topics[..n], [topics[n]], topic);
      CountAppend(WithRetained(topics[..n], retained), if HasRetained(topics[n], retained) then [topics[n]] else [], topic);
    }
  }

  lemma SentTopics(entries: seq<Entry>, c: Conn, topics: seq<string>, retained: map<string, Value>)
    requires Sends(entries, c, topics, retained) && forall t :: t in retained ==> retained[t].topic == t
    ensures Map(entries, TopicOf()) == topics
  {
    MapAt(entries, TopicOf());
    forall i | 0 <= i < |entries| ensures Map(entries, TopicOf())[i] == topics[i] {
      assert SendsOne(entries[i], c, topics[i], retained);
    }
  }

  /** QoS 0 for each of `n` topics. */
  function Zeros(n: nat): (r: seq<nat>)
    ensures |r| == n && forall q :: q in r ==> q == 0
  {
    seq(n, _ => 0)
  }

  class Client {
    const c: Conn
    var subN: int
    var stops: nat

    constructor (c: Conn)
      ensures this.c == c && subN == 0 && stops == 0
    {
      this.c, subN, stops := c, 0, 0;
    }

    method SubscribeOne(index: Subscriptions, topic: string, max: nat)
      requires index.Valid()
      modifies `subN, `stops, index, index.arrays
      ensures index.Valid() && fresh(index.arrays - old(index.arrays))
      ensures index.flat == AddSub(old(index.flat), topic, c)
      ensures subN == old(subN) + 1 && stops == old(stops) + (if subN > max then 1 else 0)
    {
      subN := subN + 1;
      if subN > max {
        stops := stops + 1;
      }
      ghost var _ := index.Add(topic, c);
    }

    /** Each topic is counted and added, even beyond the limit; each one beyond it requests a stop. */
    method SubscribeTopics(index: Subscriptions, topics: seq<string>, max: nat) returns (granted: seq<nat>)
      requires index.Valid()
      modifies `subN, `stops, index, index.arrays
      ensures index.Valid() && fresh(index.arrays - old(index.arrays))
      ensures index.flat == SubscribeAll(old(index.flat), topics, c)
      ensures subN == old(subN) + |topics|
      ensures stops > old(stops) <==> topics != [] && subN > max
      ensures granted == Zeros(|topics|)
    {
      granted := [];
      assert topics[..0] == [];
      for i := 0 to |topics|
        invariant index.Valid() && fresh(index.arrays - old(index.arrays))
        invariant index.flat == SubscribeAll(old(index.flat), topics[..i], c)
        invariant subN == old(subN) + i
        invariant stops >= old(stops) && (stops > old(stops) <==> i > 0 && subN > max)
        invariant granted == Zeros(i)
      {
        assert topics[..i + 1][..i] == topics[..i];
        SubscribeOne(index, topics[i], max);
        granted := granted + [0];
      }
      assert topics[..|topics|] == topics;
    }

    /** The retained messages of the topics, once for each time a topic is named. */
    method SendAllRetained(broker: Broker, topics: seq<string>) returns (ghost entries: seq<Entry>)
      requires broker.Valid()
      modifies broker`queue
      ensures broker.Valid() && broker.queue == old(broker.queue) + entries
      ensures Sends(entries, c, WithRetained(topics, broker.retained), broker.retained)
    {
      entries := [];
      for i := 0 to |topics|
        invariant broker.Valid() && broker.queue == old(broker.queue) + entries
        invariant Sends(entries, c, WithRetained(topics[..i], broker.retained), broker.retained)
      {
        assert topics[..i + 1] == topics[..i] + [topics[i]];
        WithRetainedSnoc(topics[..i], topics[i], broker.retained);
        ghost var n := |broker.queue|;
        broker.SendRetain(topics[i], c);
        if HasRetained(topics[i], broker.retained) {
          assert broker.queue == old(broker.queue) + (entries + [broker.queue[n]]);
          entries := entries + [broker.queue[n]];
        }
      }
      assert topics[..|topics|] == topics;
    }

    method DoSubscribe(broker: Broker, topics: seq<string>, max: nat) returns (ghost entries: seq<Entry>)
      requires broker.Valid()
      modifies this, broker`queue, broker.index, broker.index.arrays
      ensures broker.Valid()
      ensures broker.index.flat == SubscribeAll(old(broker.index.flat), topics, c)
      ensures subN == old(subN) + |topics|
      ensures stops > old(stops) <==> topics != [] && subN > max
      ensures broker.queue == old(broker.queue) + [Answer(c, SubAck(Zeros(|topics|)))] + entries
      ensures Sends(entries, c, WithRetained(topics, broker.retained), broker.retained)
      ensures forall t :: CopiesOf(entries, t)
                == if '#' !in t && '+' !in t && t in broker.retained then Count(topics, t) else 0
    {
      var granted := SubscribeTopics(broker.index, topics, max);
      broker.queue := broker.queue + [Answer(c, SubAck(granted))];
      entries := SendAllRetained(broker, topics);
      SentTopics(entries, c, WithRetained(topics, broker.retained), broker.retained);
      forall t
        ensures CopiesOf(entries, t) == if '#' !in t && '+' !in t && t in broker.retained then Count(topics, t) else 0
      {
        KeptCopies(topics, broker.retained, t);
      }
    }

    method UnsubscribeTopics(index: Subscriptions, topics: seq<string>)
      requires index.Valid()
      modifies `subN, index, index.arrays
      ensures index.Valid() && index.arrays == old(index.arrays)
      ensures index.flat == UnsubscribeAll(old(index.flat), topics, c)
      ensures subN == old(subN) - |topics|
    {
      assert topics[..0] == [];
      for i := 0 to |topics|
        invariant index.Valid() && index.arrays == old(index.arrays)
        invariant index.flat == UnsubscribeAll(old(index.flat), topics[..i], c)
        invariant subN == old(subN) - i
      {
        subN := subN - 1;
        assert topics[..i + 1][..i] == topics[..i];
        ghost var _ := index.Unsub(topics[i], c);
      }
      assert topics[..|topics|] == topics;
    }

    method DoUnsubscribe(broker: Broker, topics: seq<string>)
      requires broker.Valid()
      modifies this, broker`queue, broker.index, broker.index.arrays
      ensures broker.Valid()
      ensures broker.index.flat == UnsubscribeAll(old(broker.index.flat), topics, c)
      ensures subN == old(subN) - |topics| && stops == old(stops)
      ensures broker.queue == old(broker.queue) + [Answer(c, UnsubAck)]
    {
      UnsubscribeTopics(broker.index, topics);
      broker.queue := broker.queue + [Answer(c, UnsubAck)];
    }
  }

  // ----- the same as steps of the connection machine -----

  function SubscribeEvents(c: Conn, topics: seq<string>): seq<Connections.Event> {
    seq(|topics|, i requires 0 <= i < |topics| => Connections.Subscribe(c, topics[i]))
  }

  function UnsubscribeEvents(c: Conn, topics: seq<string>): seq<Connections.Event> {
    seq(|topics|, i requires 0 <= i < |topics| => Connections.Unsubscribe(c, topics[i]))
  }

  lemma {:induction false} SubscribeIsARun(s: Connections.State, c: Conn, topics: seq<string>)
    requires Connections.Get(s, c).phase == Connections.Ready
    ensures var r := Run(Connections.Next, s, SubscribeEvents(c, topics));
            && r.Some? && r.value.registry == s.registry && r.value.max == s.max
            && r.value.flat == SubscribeAll(s.flat, topics, c)
            && Connections.Get(r.value, c).phase == Connections.Ready
            && Connections.Get(r.value, c).subN == Connections.Get(s, c).subN + |topics|
  {
    if topics != [] {
      SubscribeIsARun(s, c, topics[..|topics| - 1]);
      var events := SubscribeEvents(c, topics);
      assert events[..|events| - 1] == SubscribeEvents(c, topics[..|topics| - 1]);
    }
  }

  /** An UNSUBSCRIBE is handled even before the CONNECT. */
  lemma {:induction false} UnsubscribeIsARun(s: Connections.State, c: Conn, topics: seq<string>)
    requires Connections.Get(s, c).phase == Connections.Ready || Connections.Get(s, c).phase == Connections.Fresh
    ensures var r := Run(Connections.Next, s, UnsubscribeEvents(c, topics));
            && r.Some? && r.value.registry == s.registry && r.value.max == s.max
            && r.value.flat == UnsubscribeAll(s.flat, topics, c)
            && Connections.Get(r.value, c).phase == Connections.Get(s, c).phase
            && Connections.Get(r.value, c).subN == Connections.Get(s, c).subN - |topics|
  {
    if topics != [] {
      UnsubscribeIsARun(s, c, topics[..|topics| - 1]);
      var events := UnsubscribeEvents(c, topics);
      assert events[..|events| - 1] == UnsubscribeEvents(c, topics[..|topics| - 1]);
    }
  }
}
