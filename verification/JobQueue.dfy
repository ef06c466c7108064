/**
 The bounded channel of jobs between the submitters of a connection and its
 outbound loop, with the two overflow strategies "block" and "discard".
 */
module JobQueue {
  import opened Runs
  import opened Lists
  import opened Store

  type Receipt = nat

  datatype Job = Job(m: Message, r: Option<Receipt>)

  /** One call of `submit` on a live connection: whether it got in, and how full the channel was. */
  datatype Offer = Offer(job: Job, accepted: bool, depth: nat)

  datatype Queue = Queue(cap: nat, block: bool, alive: bool, closed: bool, jobs: seq<Job>, offered: seq<Offer>)

  function Accept(q: Queue, j: Job): Queue {
    q.(jobs := q.jobs + [j], offered := q.offered + [Offer(j, true, |q.jobs|)])
  }

  /** `submit`: nothing on a dead connection; on a full channel it waits (None) or discards. */
  function Submit(q: Queue, m: Message): Option<Queue> {
    var j := Job(m, None);
    if !q.alive then Some(q)
    else if |q.jobs| < q.cap then Some(Accept(q, j))
    else if q.block then None
    else Some(q.(offered := q.offered + [Offer(j, false, |q.jobs|)]))
  }

  /** `submitSync`: always waits for room, and never asks whether the connection is alive. */
  function SubmitSync(q: Queue, m: Message, r: Receipt): Option<Queue> {
    if q.closed || |q.jobs| >= q.cap then None else Some(Accept(q, Job(m, Some(r))))
  }

  function IsAccepted(): Offer -> bool {
    (o: Offer) => o.accepted
  }

  function JobOf(): Offer -> Job {
    (o: Offer) => o.job
  }

  /** The jobs that got in, in order. */
  function AcceptedJobs(offered: seq<Offer>): seq<Job> {
    Map(Keep(offered, IsAccepted()), JobOf())
  }

  function OfferedJobs(offered: seq<Offer>): seq<Job> {
    Map(offered, JobOf())
  }

  lemma AcceptedSnoc(offered: seq<Offer>, o: Offer)
    ensures AcceptedJobs(offered + [o]) == AcceptedJobs(offered) + (if o.accepted then [o.job] else [])
    ensures OfferedJobs(offered + [o]) == OfferedJobs(offered) + [o.job]
  {
    KeepAppend(offered, [o], IsAccepted());
    MapAppend(Keep(offered, IsAccepted()), Keep([o], IsAccepted()), JobOf());
    MapAppend(offered, [o], JobOf());
  }

  /** A job is refused only when the channel is full, and only under "discard". */
  ghost predicate OfferOk(q: Queue, o: Offer) {
    && (o.accepted <==> o.depth < q.cap)
    && (!o.accepted ==> o.depth == q.cap && !q.block && o.job.r == None)
  }

  ghost predicate QueueOk(q: Queue) {
    && |q.jobs| <= q.cap
    && (q.alive ==> !q.closed)
    && forall o :: o in q.offered ==> OfferOk(q, o)
  }

  /** What a submission does to the queue and its history. */
  ghost predicate Submitted(q: Queue, p: Queue, j: Job) {
    && p.cap == q.cap && p.block == q.block && p.alive == q.alive && p.closed == q.closed
    && (p == q || (|q.jobs| < q.cap && p == Accept(q, j))
        || (p.jobs == q.jobs && |q.jobs| == q.cap && !q.block && j.r == None
            && p.offered == q.offered + [Offer(j, false, |q.jobs|)]))
  }

  lemma SubmitIsSubmitted(q: Queue, m: Message)
    requires QueueOk(q) && Submit(q, m).Some?
    ensures Submitted(q, Submit(q, m).value, Job(m, None)) && QueueOk(Submit(q, m).value)
    ensures q.alive ==> OfferedJobs(Submit(q, m).value.offered) == OfferedJobs(q.offered) + [Job(m, None)]
    ensures q.alive && q.block ==> Submit(q, m).value == Accept(q, Job(m, None))
  {
    AcceptedSnoc(q.offered, Offer(Job(m, None), |q.jobs| < q.cap, |q.jobs|));
  }

  lemma {:induction false} AllAccepted(offered: seq<Offer>)
    requires forall o :: o in offered ==> o.accepted
    ensures AcceptedJobs(offered) == OfferedJobs(offered)
  {
    if offered != [] {
      AllAccepted(offered[1..]);
      assert offered[0] in offered;
      assert offered == [offered[0]] + offered[1..];
      KeepAppend([offered[0]], offered[1..], IsAccepted());
    }
  }

  /**
   What `submit` comes to: it waits exactly on a live, full channel under "block"; otherwise the message is
   queued last exactly if the connection is alive and there is room, and nothing else in the channel changes.
   */
  lemma SubmitOutcome(q: Queue, m: Message)
    ensures Submit(q, m).None? <==> q.alive && q.block && |q.jobs| >= q.cap
    ensures Submit(q, m).Some? ==>
              var p := Submit(q, m).value;
              && p.jobs == (if q.alive && |q.jobs| < q.cap then q.jobs + [Job(m, None)] else q.jobs)
              && p.alive == q.alive && p.closed == q.closed && p.cap == q.cap && p.block == q.block
              && (!q.alive ==> p == q)
              && (q.alive ==> p.offered == q.offered + [Offer(Job(m, None), |q.jobs| < q.cap, |q.jobs|)])
  {
  }

  /** `submitSync` waits exactly on a full channel, whatever the strategy; on a closed one it does not return. */
  lemma SubmitSyncOutcome(q: Queue, m: Message, r: Receipt)
    ensures SubmitSync(q, m, r).None? <==> q.closed || |q.jobs| >= q.cap
    ensures SubmitSync(q, m, r).Some? ==> SubmitSync(q, m, r).value.jobs == q.jobs + [Job(m, Some(r))]
  {
  }

  /** Under "block" every job that was ever offered got in. */
  lemma BlockAcceptsAll(q: Queue)
    requires QueueOk(q) && q.block
    ensures AcceptedJobs(q.offered) == OfferedJobs(q.offered)
  {
    AllAccepted(q.offered);
  }

  /** `short` is `long` with some elements left out. */
  predicate Subsequence<T(==)>(short: seq<T>, long: seq<T>) {
    if short == [] then true
    else if long == [] then false
    else (short[0] == long[0] && Subsequence(short[1..], long[1..])) || Subsequence(short, long[1..])
  }

  /** Under "discard" the accepted jobs keep their order. */
  lemma {:induction false} AcceptedIsSubsequence(offered: seq<Offer>)
    ensures Subsequence(AcceptedJobs(offered), OfferedJobs(offered))
  {
    if offered != [] {
      AcceptedIsSubsequence(offered[1..]);
      var rest, all := AcceptedJobs(offered[1..]), OfferedJobs(offered);
      assert all[1..] == OfferedJobs(offered[1..]) && all[0] == offered[0].job;
      assert [] + Keep(offered[1..], IsAccepted()) == Keep(offered[1..], IsAccepted());
      if offered[0].accepted {
        assert Keep(offered, IsAccepted())[1..] == Keep(offered[1..], IsAccepted());
        assert AcceptedJobs(offered) == [offered[0].job] + rest;
      } else {
        assert AcceptedJobs(offered) == rest;
      }
    }
  }

  /** The channel as the connection and the peer endpoint use it. */
  class Channel {
    const cap: nat
    const block: bool
    var alive: bool
    var closed: bool
    var jobs: seq<Job>
    ghost var offered: seq<Offer>

    ghost function View(): Queue
      reads this
    {
      Queue(cap, block, alive, closed, jobs, offered)
    }

    constructor (cap: nat, block: bool)
      ensures View() == Queue(cap, block, true, false, [], []) && QueueOk(View())
    {
      this.cap, this.block := cap, block;
      alive, closed, jobs, offered := true, false, [], [];
    }

    /** `submit`; a sender that finds the channel full under "block" changes nothing and has to try again. */
    method Send(m: Message) returns (done: bool)
      requires QueueOk(View())
      modifies this
      ensures QueueOk(View())
      ensures !done <==> old(alive) && block && |old(jobs)| >= cap
      ensures jobs == (if old(alive) && |old(jobs)| < cap then old(jobs) + [Job(m, None)] else old(jobs))
      ensures alive == old(alive) && closed == old(closed)
      ensures match Submit(old(View()), m)
              case None => !done && View() == old(View())
              case Some(q) => done && View() == q
    {
      if alive {
        if |jobs| < cap {
          offered := offered + [Offer(Job(m, None), true, |jobs|)];
          jobs := jobs + [Job(m, None)];
        } else if block {
          return false;
        } else {
          offered := offered + [Offer(Job(m, None), false, |jobs|)];
        }
      }
      return true;
    }

    method Receive() returns (j: Job)
      requires QueueOk(View()) && jobs != []
      modifies `jobs
      ensures QueueOk(View()) && [j] + jobs == old(jobs)
    {
      j := jobs[0];
      jobs := jobs[1..];
    }

    /** The end of the inbound loop: dead first, so that nobody sends on the closed channel. */
    method Close()
      requires QueueOk(View()) && !closed
      modifies `alive, `closed
      ensures QueueOk(View()) && !alive && closed
    {
      alive := false;
      closed := true;
    }
  }
}
