/** The endpoints of a broker, one channel for each peer host, and the loop that replicates to all of them. */
module Peers {
  import opened Runs
  import opened Store
  import opened JobQueue

  /**
   An endpoint the message was submitted to, which is none that has to wait, has it queued last if it is alive
   and had room; no other one has.
   */
  ghost predicate Went(before: Queue, after: Queue, m: Message, submitted: bool) {
    && after.jobs == (if submitted && before.alive && |before.jobs| < before.cap then before.jobs + [Job(m, None)]
                      else before.jobs)
    && after.alive == before.alive && after.closed == before.closed
    && (submitted ==> !(before.alive && before.block && |before.jobs| >= before.cap))
  }

  class Peers {
    const queueLen: nat
    const block: bool
    var nodes: map<string, Channel>

    ghost function Channels(): set<Channel>
      reads this
    {
      set h | h in nodes :: nodes[h]
    }

    /** No two hosts share an endpoint, and all endpoints are sound. */
    ghost predicate Valid()
      reads this, Channels()
    {
      && (forall g, h :: g in nodes && h in nodes && g != h ==> nodes[g] != nodes[h])
      && (forall h :: h in nodes ==> QueueOk(nodes[h].View()))
    }

    constructor (queueLen: nat, block: bool)
      ensures Valid() && nodes == map[] && this.queueLen == queueLen && this.block == block
    {
      this.queueLen, this.block := queueLen, block;
      nodes := map[];
    }

    /** A host joins once; joining again is an error and changes nothing. */
    method Join(host: string) returns (ok: bool)
      requires Valid()
      modifies this
      ensures Valid() && ok == (host !in old(nodes))
      ensures !ok ==> nodes == old(nodes)
      ensures ok ==> host in nodes && nodes == old(nodes)[host := nodes[host]] && fresh(nodes[host])
                     && nodes[host].View() == Queue(queueLen, block, true, false, [], [])
    {
      if host in nodes {
        return false;
      }
      var endpoint := new Channel(queueLen, block);
      nodes := nodes[host := endpoint];
      return true;
    }

    /** The endpoints in `visited` have the message submitted to them, the others are as they were. */
    ghost predicate Visited(was: map<string, Queue>, m: Message, visited: set<string>)
      reads this, Channels()
    {
      && Valid() && was.Keys == nodes.Keys
      && forall h :: h in nodes ==> if h in visited then Went(was[h], nodes[h].View(), m, true) else nodes[h].View() == was[h]
    }

    method SubmitNext(host: string, m: Message, ghost was: map<string, Queue>, ghost visited: set<string>) returns (done: bool)
      requires Visited(was, m, visited) && host in nodes && host !in visited
      modifies nodes[host]
      ensures Visited(was, m, if done then visited + {host} else visited)
      ensures !done ==> nodes[host].alive && nodes[host].block && |nodes[host].jobs| >= nodes[host].cap
    {
      done := nodes[host].Send(m);
    }

    /**
     Submit to the endpoints in `todo`, in no fixed order. If one of them is full under "block" the loop
     waits there: `rest` is what is left to do then, nothing if it went through. `was` is how they were.
     */
    method Replicate(m: Message, todo: set<string>, ghost was: map<string, Queue>) returns (rest: set<string>)
      requires Valid() && todo <= nodes.Keys && Visited(was, m, {})
      modifies Channels()
      ensures rest <= todo && Visited(was, m, todo - rest)
      ensures rest != {} ==>
                exists h :: h in rest && nodes[h].alive && nodes[h].block && |nodes[h].jobs| >= nodes[h].cap
    {
      rest := todo;
      assert todo - rest == {};
      while rest != {}
        invariant rest <= todo && Visited(was, m, todo - rest)
      {
        var host :| host in rest;
        var done := SubmitNext(host, m, was, todo - rest);
        if !done {
          return;
        }
        assert todo - (rest - {host}) == (todo - rest) + {host};
        rest := rest - {host};
      }
    }
  }
}
