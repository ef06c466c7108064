/**
 One dispatch worker on the heap, with the index to itself: it clears the Retain flag of the
 very object it submits to the clients, and keeps a copy with the flag set.
 */
module Worker {
  import opened Topics
  import opened FlatIndex
  import opened SharedIndex
  import opened Subscriptions
  import opened Retain

  type Value = Retain.Publish

  class Message {
    const topic: string
    const payload: string
    var retain: bool

    constructor (v: Value)
      ensures Value() == v
    {
      topic, payload, retain := v.topic, v.payload, v.retain;
    }

    function Value(): Value
      reads this
    {
      Retain.Publish(topic, payload, retain)
    }
  }

  datatype Reply = SubAck(granted: seq<nat>) | UnsubAck

  /** A submission to a connection: by fan-out, by `sendRetain`, or the answer to a request. */
  datatype Entry = FanOut(c: Conn, m: Message) | Retained(c: Conn, m: Message) | Answer(c: Conn, r: Reply)

  function FanOuts(m: Message, receivers: seq<Conn>): seq<Entry> {
    seq(|receivers|, i requires 0 <= i < |receivers| => FanOut(receivers[i], m))
  }

  /** One submission of the message to each of the receivers, in order. */
  lemma FanOutsAreInOrder(m: Message, receivers: seq<Conn>)
    ensures |FanOuts(m, receivers)| == |receivers|
    ensures forall i :: 0 <= i < |receivers| ==> FanOuts(m, receivers)[i] == FanOut(receivers[i], m)
  {
  }

  lemma FanOutsSnoc(m: Message, receivers: seq<Conn>, c: Conn)
    ensures FanOuts(m, receivers + [c]) == FanOuts(m, receivers) + [FanOut(c, m)]
  {
  }

  predicate Distinct(posts: seq<Message>) {
    forall i, j :: 0 <= i < j < |posts| ==> posts[i] != posts[j]
  }

  /** All submissions after the first `n` posts: each to its receivers; a deletion has none. */
  function QueueAfter(queue: seq<Entry>, posts: seq<Message>, vs: seq<Value>, flat: Flat, n: nat): seq<Entry>
    requires n <= |posts| == |vs|
  {
    if n == 0 then queue
    else
      QueueAfter(queue, posts, vs, flat, n - 1) +
      (if IsDeletion(vs[n - 1]) then [] else FanOuts(posts[n - 1], Receivers(flat, vs[n - 1].topic)))
  }

  /** A worker that is at post `i` takes all up to and including the next deletion. */
  function TakenFrom(vs: seq<Value>, i: nat): (n: nat)
    requires i <= |vs|
    ensures i <= n <= |vs|
    ensures forall j :: i <= j < n - 1 ==> !IsDeletion(vs[j])
    ensures n < |vs| ==> n > i && IsDeletion(vs[n - 1])
    decreases |vs| - i
  {
    if i == |vs| then i else if IsDeletion(vs[i]) then i + 1 else TakenFrom(vs, i + 1)
  }

  class Broker {
    const index: Subscriptions
    var retained: map<string, Value>
    var queue: seq<Entry>

    ghost function Submitted(): set<Message>
      reads this
    {
      set e | e in queue && !e.Answer? :: e.m
    }

    /** The flag of everything submitted is right, and retained messages are filed under their topic. */
    ghost predicate FlagsOk()
      reads this, Submitted()
    {
      && (forall e :: e in queue && !e.Answer? ==> e.m.retain == e.Retained?)
      && (forall t :: t in retained ==> retained[t].topic == t && retained[t].retain)
    }

    ghost predicate Valid()
      reads this, Submitted(), index, index.arrays
    {
      FlagsOk() && index.Valid()
    }

    constructor ()
      ensures Valid() && retained == map[] && queue == []
      ensures fresh(index) && fresh(index.arrays) && index.flat == []
    {
      index := new Subscriptions();
      retained, queue := map[], [];
    }

    /** The loop over a list of subscribers, nils skipped. */
    method SubmitAll(m: Message, list: Slice<Array>)
      requires list.len <= list.arr.Length
      modifies `queue
      ensures queue == old(queue) + FanOuts(m, Live(list.arr[..list.len]))
    {
      ghost var cells := list.arr[..list.len];
      for i := 0 to list.len
        invariant queue == old(queue) + FanOuts(m, Live(cells[..i]))
      {
        assert cells[..i + 1] == cells[..i] + [cells[i]];
        LiveAppend(cells[..i], [cells[i]]);
        if list.arr[i].Ref? {
          FanOutsSnoc(m, Live(cells[..i]), list.arr[i].c);
          queue := queue + [FanOut(list.arr[i].c, m)];
        }
      }
      assert cells[..list.len] == cells;
    }

    /** Submit a message to all receivers of its topic. */
    method SubmitToReceivers(m: Message)
      requires index.Valid()
      modifies `queue, index`arrays, index.arrays
      ensures index.Valid()
      ensures queue == old(queue) + FanOuts(m, Receivers(index.flat, m.topic))
      ensures old(index.arrays) <= index.arrays && fresh(index.arrays - old(index.arrays))
    {
      var list, _ := index.Subscribers(m.topic);
      SubmitAll(m, list);
    }

    /** One turn of the loop in `run`; the worker ends after a deletion. */
    method Process(m: Message) returns (ends: bool)
      requires Valid() && m !in Submitted()
      modifies this, m, index`arrays, index.arrays
      ensures Valid() && m.Value() == old(m.Value()).(retain := false)
      ensures ends <==> old(m.retain) && m.payload == ""
      ensures queue == old(queue) + (if ends then [] else FanOuts(m, Receivers(index.flat, m.topic)))
      ensures Submitted() <= old(Submitted()) + {m}
      ensures retained == Remember(old(retained), old(m.Value()))
      ensures old(index.arrays) <= index.arrays && fresh(index.arrays - old(index.arrays))
    {
      var isRetain := m.retain;
      m.retain := false;
      if isRetain && m.payload == "" {
        retained := retained - {m.topic};
        return true;
      }
      SubmitToReceivers(m);
      if isRetain {
        var copy := m.Value().(retain := true);
        retained := retained[m.topic := copy];
      }
      return false;
    }

    /** A new subscriber of an exact topic gets its own copy of the retained message. */
    method SendRetain(topic: string, c: Conn)
      requires Valid()
      modifies `queue
      ensures Valid()
      ensures if !IsWildcard(topic) && topic in retained
              then |queue| == |old(queue)| + 1 && queue[..|old(queue)|] == old(queue)
                   && var e := queue[|old(queue)|];
                      e.Retained? && e.c == c && fresh(e.m) && e.m.Value() == retained[topic]
              else queue == old(queue)
    {
      if !IsWildcard(topic) && topic in retained {
        var copy := new Message(retained[topic]);
        queue := queue + [Retained(c, copy)];
      }
    }

    /** The first `n` posts have lost their flag, the others are as they were and not submitted yet. */
    ghost predicate Taken(posts: seq<Message>, vs: seq<Value>, n: nat)
      reads this, posts
    {
      && |vs| == |posts| && n <= |posts|
      && (forall i :: 0 <= i < n ==> posts[i].Value() == vs[i].(retain := false))
      && (forall i :: n <= i < |posts| ==> posts[i].Value() == vs[i] && posts[i] !in Submitted())
    }

    /** So much has come of the first `n` posts, with what there was before them. */
    ghost predicate Done(posts: seq<Message>, vs: seq<Value>, n: nat, retained0: map<string, Value>, queue0: seq<Entry>)
      reads this, posts, index
    {
      && Taken(posts, vs, n)
      && retained == RememberAll(retained0, vs, n)
      && queue == QueueAfter(queue0, posts, vs, index.flat, n)
    }

    /** One turn on the next of a sequence of posts. */
    method ProcessNext(posts: seq<Message>, ghost vs: seq<Value>, n: nat,
                       ghost retained0: map<string, Value>, ghost queue0: seq<Entry>) returns (ends: bool)
      requires Valid() && n < |posts| && Distinct(posts) && Done(posts, vs, n, retained0, queue0)
      modifies this, posts[n], index`arrays, index.arrays
      ensures Valid() && Done(posts, vs, n + 1, retained0, queue0)
      ensures ends == IsDeletion(vs[n])
      ensures fresh(index.arrays - old(index.arrays))
    {
      ends := Process(posts[n]);
    }

    /** The loop over posts with the values `vs`: they are taken until one of them is a deletion. */
    method Run(posts: seq<Message>, ghost vs: seq<Value>) returns (taken: nat)
      requires Valid() && Distinct(posts) && Taken(posts, vs, 0)
      modifies this, posts, index`arrays, index.arrays
      ensures Valid() && taken == TakenFrom(vs, 0)
      ensures Done(posts, vs, taken, old(retained), old(queue))
    {
      taken := 0;
      var ended := false;
      while taken < |posts| && !ended
        invariant Valid() && Done(posts, vs, taken, old(retained), old(queue))
        invariant TakenFrom(vs, 0) == if ended then taken else TakenFrom(vs, taken)
        invariant fresh(index.arrays - old(index.arrays))
      {
        ended := ProcessNext(posts, vs, taken, old(retained), old(queue));
        taken := taken + 1;
      }
    }
  }
}
