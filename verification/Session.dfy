/**
 One client session: the inbound loop, which reads messages and answers them, the
 outbound loop, which writes queued jobs, the job queue between them and the
 in-flight store both of them update. Other goroutines add jobs to the queue.
 */
module Session {
  import opened Runs
  import opened Store
  import opened JobQueue

  /**
   Where the inbound loop is. `Restoring` is the part of `doConnect` that resends stored
   messages; an ended session had a store attached if it got that far.
   */
  datatype Inbound =
    | Connecting
    | Restoring(todo: seq<string>)
    | Reading
    | Publishing(m: Message)
    | Ended(attached: bool)

  datatype Reason = Drained | WriteError | SentDisconnect | Stopped

  /** Where the outbound loop is: a job is taken, persisted, then written. */
  datatype Outbound =
    | Waiting
    | Holding(j: Job)
    | Writing(j: Job)
    | Quit(why: Reason)

  /** `snapshot` and `restored` record what `doConnect` found in the store and has resent of it. */
  datatype State = State(
    q: Queue,
    store: Contents,
    inb: Inbound,
    out: Outbound,
    written: seq<Job>,
    failed: seq<Job>,
    receipts: seq<Receipt>,
    snapshot: Contents,
    restored: seq<string>
  )

  /** `ConnectClean` is a further CONNECT with CleanSession; its CONNACK is a `Reply`. */
  datatype Event =
    | Deliver(m: Message)
    | Kick(r: Receipt)
    | Ping
    | Unsubscribe
    | Resume(keys: seq<string>)
    | StartClean
    | RestoreOne
    | Connected
    | ConnectClean
    | ReceivePublish(m: Message)
    | ReceiveAck(m: Message)
    | Acknowledge
    | Reply(m: Message)
    | End
    | Dequeue
    | PersistJob
    | WriteOk
    | WriteFail
    | Drain
    | Stop

  function Init(cap: nat, block: bool, store: Contents): State {
    State(Queue(cap, block, true, false, [], []), store, Connecting, Waiting, [], [], [], map[], [])
  }

  // ----- the steps -----

  function Next(s: State, e: Event): Option<State> {
    match e
    case Deliver(m) => if Subscribed(s) && !m.PubAck? then Queueing(s, m) else None
    case Kick(r) =>
      if r in Receipts(OfferedJobs(s.q.offered)) then None
      else
        (match SubmitSync(s.q, Disconnect, r)
         case None => None
         case Some(q) => Some(s.(q := q)))
    case Ping => if s.inb == Connecting || s.inb == Reading then Queueing(s, PingResp) else None
    case Unsubscribe => if s.inb == Connecting || s.inb == Reading then Queueing(s, UnsubAck) else None
    case Resume(keys) =>
      if s.inb == Connecting && IsListing(keys, s.store)
      then Some(s.(inb := Restoring(keys), snapshot := s.store)) else None
    case StartClean =>
      if s.inb == Connecting then Some(s.(inb := Restoring([]), store := map[], snapshot := map[])) else None
    case RestoreOne =>
      if s.inb.Restoring? && s.inb.todo != [] then Resend(s, s.inb.todo[0], s.inb.todo[1..]) else None
    case Connected =>
      if s.inb == Restoring([]) then Queueing(s.(inb := Reading), ConnAck) else None
    case ConnectClean => if s.inb == Reading then Some(s.(store := map[])) else None
    case ReceivePublish(m) =>
      if s.inb == Reading && m.Publish? then Some(s.(store := PersistIn(s.store, m), inb := Publishing(m))) else None
    case ReceiveAck(m) => if (s.inb == Connecting || s.inb == Reading) && m.PubAck? then Some(s) else None
    case Acknowledge =>
      if !s.inb.Publishing? || !s.inb.m.Publish? then None
      else if s.inb.m.qos == QOS_AT_LEAST_ONCE then Queueing(s.(inb := Reading), PubAck(s.inb.m.mid, 0))
      else Some(s.(inb := Reading))
    case Reply(m) => if s.inb == Reading && !m.PubAck? then Queueing(s, m) else None
    case End =>
      if s.inb == Reading || s.inb == Connecting
      then Some(s.(inb := Ended(s.inb == Reading), q := s.q.(alive := false, closed := true))) else None
    case _ => Outgoing(s, e)
  }

  /** The steps of the outbound loop. */
  function Outgoing(s: State, e: Event): Option<State> {
    match e
    case Dequeue =>
      if s.out == Waiting && s.q.jobs != []
      then Some(s.(out := Holding(s.q.jobs[0]), q := s.q.(jobs := s.q.jobs[1..]))) else None
    case PersistJob =>
      if s.out.Holding? then Some(s.(out := Writing(s.out.j), store := PersistOut(s.store, s.out.j.m))) else None
    case WriteOk =>
      if !s.out.Writing? then None
      else Some(s.(written := s.written + [s.out.j], receipts := s.receipts + Receipts([s.out.j]),
                   out := if s.out.j.m == Disconnect then Quit(SentDisconnect) else Waiting))
    case WriteFail =>
      if !s.out.Writing? then None
      else Some(s.(failed := s.failed + [s.out.j], receipts := s.receipts + Receipts([s.out.j]),
                   out := Quit(WriteError)))
    case Drain => if s.out == Waiting && s.q.jobs == [] && s.q.closed then Some(s.(out := Quit(Drained))) else None
    case Stop => if s.out == Waiting then Some(s.(out := Quit(Stopped))) else None
    case _ => None
  }

  /** Only a connected client can have subscribed, and so be selected by fan-out. */
  predicate Subscribed(s: State) {
    s.inb == Reading || s.inb.Publishing? || s.inb.Ended?
  }

  function Queueing(s: State, m: Message): Option<State> {
    match Submit(s.q, m)
    case None => None
    case Some(q) => Some(s.(q := q))
  }

  /** `keys` lists the store, each key once. */
  predicate IsListing(keys: seq<string>, store: Contents) {
    && (forall k :: k in keys ==> k in store)
    && (forall k :: k in store ==> k in keys)
    && (forall i, j :: 0 <= i < j < |keys| ==> keys[i] != keys[j])
  }

  predicate Resendable(m: Message) {
    (m.Publish? && m.qos == QOS_AT_LEAST_ONCE) || (m.PubAck? && m.ackQos == QOS_AT_LEAST_ONCE)
  }

  function Resend(s: State, key: string, rest: seq<string>): Option<State> {
    var t := s.(inb := Restoring(rest), restored := s.restored + [key]);
    if key in s.store && Resendable(s.store[key]) then Queueing(t, s.store[key]) else Some(t)
  }

  function Receipts(jobs: seq<Job>): seq<Receipt> {
    if jobs == [] then []
    else Receipts(jobs[..|jobs| - 1]) + (if jobs[|jobs| - 1].r.Some? then [jobs[|jobs| - 1].r.value] else [])
  }

  // ----- order and conservation of the queue -----

  function InHand(out: Outbound): seq<Job> {
    if out.Holding? || out.Writing? then [out.j] else []
  }

  /** Written, failed, in hand and queued, in that order. */
  function Through(written: seq<Job>, failed: seq<Job>, hand: seq<Job>, jobs: seq<Job>): seq<Job> {
    written + failed + hand + jobs
  }

  /** Everything accepted is written, failed, in hand or still queued, in that order. */
  ghost predicate Conserved(s: State) {
    AcceptedJobs(s.q.offered) == Through(s.written, s.failed, InHand(s.out), s.q.jobs)
  }

  ghost predicate OutOk(s: State) {
    && (s.failed != [] ==> s.out == Quit(WriteError) && |s.failed| == 1)
    && (forall i :: 0 <= i < |s.written| && s.written[i].m == Disconnect ==>
          i == |s.written| - 1 && s.out == Quit(SentDisconnect))
    && s.receipts == Receipts(s.written + s.failed)
  }

  ghost predicate LoopsOk(s: State) {
    && QueueOk(s.q)
    && (s.q.alive <==> !s.inb.Ended?) && (s.q.closed <==> s.inb.Ended?)
    && (s.out == Quit(Drained) ==> s.q.jobs == [] && s.inb.Ended?)
  }

  predicate IsOutgoing(e: Event) {
    e.Dequeue? || e.PersistJob? || e.WriteOk? || e.WriteFail? || e.Drain? || e.Stop?
  }

  /** The job a step of the inbound loop or of another goroutine submits, if it submits one. */
  function SubmittedJob(s: State, e: Event): Option<Job> {
    match e
    case Deliver(m) => Some(Job(m, None))
    case Kick(r) => Some(Job(Disconnect, Some(r)))
    case Ping => Some(Job(PingResp, None))
    case Unsubscribe => Some(Job(UnsubAck, None))
    case RestoreOne =>
      if s.inb.Restoring? && s.inb.todo != [] && s.inb.todo[0] in s.store && Resendable(s.store[s.inb.todo[0]])
      then Some(Job(s.store[s.inb.todo[0]], None)) else None
    case Connected => Some(Job(ConnAck, None))
    case Acknowledge =>
      if s.inb.Publishing? && s.inb.m.Publish? && s.inb.m.qos == QOS_AT_LEAST_ONCE
      then Some(Job(PubAck(s.inb.m.mid, 0), None)) else None
    case Reply(m) => Some(Job(m, None))
    case _ => None
  }

  /** Steps that are not the outbound loop's touch the queue only by submitting at most one job. */
  lemma IncomingStep(s: State, e: Event)
    requires LoopsOk(s) && !IsOutgoing(e) && Next(s, e).Some?
    ensures var t, j := Next(s, e).value, SubmittedJob(s, e);
            && t.out == s.out && t.written == s.written && t.failed == s.failed && t.receipts == s.receipts
            && (e.End? ==> t.q == s.q.(alive := false, closed := true))
            && (!e.End? && j.None? ==> t.q == s.q)
            && (!e.End? && j.Some? ==> Submitted(s.q, t.q, j.value) && QueueOk(t.q))
  {
    var j := SubmittedJob(s, e);
    if j.Some? && !e.Kick? {
      SubmitIsSubmitted(s.q, j.value.m);
    }
  }

  lemma LoopsKept(s: State, e: Event)
    requires LoopsOk(s) && Next(s, e).Some?
    ensures LoopsOk(Next(s, e).value)
  {
    if !IsOutgoing(e) {
      IncomingStep(s, e);
    }
  }

  lemma ConservedBySubmit(q: Queue, p: Queue, j: Job, before: seq<Job>)
    requires Submitted(q, p, j) && AcceptedJobs(q.offered) == before + q.jobs
    ensures AcceptedJobs(p.offered) == before + p.jobs
  {
    AcceptedSnoc(q.offered, Offer(j, true, |q.jobs|));
    AcceptedSnoc(q.offered, Offer(j, false, |q.jobs|));
    assert before + (q.jobs + [j]) == before + q.jobs + [j];
  }

  lemma TakingPassesOn(written: seq<Job>, failed: seq<Job>, jobs: seq<Job>)
    requires jobs != []
    ensures Through(written, failed, [jobs[0]], jobs[1..]) == Through(written, failed, [], jobs)
  {
  }

  lemma WritingPassesOn(written: seq<Job>, j: Job, jobs: seq<Job>)
    ensures Through(written + [j], [], [], jobs) == Through(written, [], [j], jobs)
    ensures Through(written, [] + [j], [], jobs) == Through(written, [], [j], jobs)
  {
  }

  lemma OutgoingPassesJobsOn(s: State, e: Event)
    requires OutOk(s) && IsOutgoing(e) && Next(s, e).Some?
    ensures var t := Next(s, e).value;
            && t.q.offered == s.q.offered
            && Through(t.written, t.failed, InHand(t.out), t.q.jobs) == Through(s.written, s.failed, InHand(s.out), s.q.jobs)
  {
    match e
    case Dequeue => TakingPassesOn(s.written, s.failed, s.q.jobs);
    case WriteOk => assert s.failed == []; WritingPassesOn(s.written, s.out.j, s.q.jobs);
    case WriteFail => assert s.failed == []; WritingPassesOn(s.written, s.out.j, s.q.jobs);
    case _ =>
  }

  lemma ConservedKept(s: State, e: Event)
    requires LoopsOk(s) && OutOk(s) && Conserved(s) && Next(s, e).Some?
    ensures Conserved(Next(s, e).value)
  {
    var t := Next(s, e).value;
    if IsOutgoing(e) {
      OutgoingPassesJobsOn(s, e);
    } else {
      IncomingStep(s, e);
      if !e.End? && SubmittedJob(s, e).Some? {
        ConservedBySubmit(s.q, t.q, SubmittedJob(s, e).value, s.written + s.failed + InHand(s.out));
      }
    }
  }

  lemma ReceiptsSnoc(jobs: seq<Job>, j: Job)
    ensures Receipts(jobs + [j]) == Receipts(jobs) + Receipts([j])
  {
    assert (jobs + [j])[..|jobs|] == jobs;
    assert [j][..0] == [];
  }

  lemma WriteKeepsOutOk(s: State, e: Event)
    requires OutOk(s) && (e.WriteOk? || e.WriteFail?) && Outgoing(s, e).Some?
    ensures OutOk(Outgoing(s, e).value)
  {
    var t := Outgoing(s, e).value;
    assert s.failed == [];
    assert t.written + t.failed == s.written + s.failed + [s.out.j];
    ReceiptsSnoc(s.written + s.failed, s.out.j);
  }

  lemma OutKept(s: State, e: Event)
    requires LoopsOk(s) && OutOk(s) && Next(s, e).Some?
    ensures OutOk(Next(s, e).value)
  {
    match e
    case WriteOk => WriteKeepsOutOk(s, e);
    case WriteFail => WriteKeepsOutOk(s, e);
    case Dequeue =>
    case PersistJob =>
    case Drain =>
    case Stop =>
    case _ => IncomingStep(s, e);
  }

  // ----- receipts -----

  predicate NoDups<T(==)>(xs: seq<T>) {
    forall i, j :: 0 <= i < j < |xs| ==> xs[i] != xs[j]
  }

  /** No receipt is handed out twice, and no job with a receipt is discarded. */
  ghost predicate ReceiptsOk(q: Queue) {
    && NoDups(Receipts(OfferedJobs(q.offered)))
    && Receipts(AcceptedJobs(q.offered)) == Receipts(OfferedJobs(q.offered))
  }

  lemma {:induction false} ReceiptsAppend(a: seq<Job>, b: seq<Job>)
    ensures Receipts(a + b) == Receipts(a) + Receipts(b)
  {
    if b == [] {
      assert a + b == a;
    } else {
      var init, j := b[..|b| - 1], b[|b| - 1];
      assert a + b == (a + init) + [j] && b == init + [j];
      ReceiptsAppend(a, init);
      ReceiptsSnoc(a + init, j);
      ReceiptsSnoc(init, j);
    }
  }

  lemma ReceiptsKeptBySubmit(q: Queue, p: Queue, j: Job)
    requires Submitted(q, p, j) && ReceiptsOk(q)
    requires j.r.Some? ==> j.r.value !in Receipts(OfferedJobs(q.offered))
    ensures ReceiptsOk(p)
  {
    AcceptedSnoc(q.offered, Offer(j, true, |q.jobs|));
    AcceptedSnoc(q.offered, Offer(j, false, |q.jobs|));
    ReceiptsSnoc(OfferedJobs(q.offered), j);
    ReceiptsSnoc(AcceptedJobs(q.offered), j);
    assert Receipts([j]) == if j.r.Some? then [j.r.value] else [] by { assert [j][..0] == []; }
    assert AcceptedJobs(q.offered) + [] == AcceptedJobs(q.offered);
    assert Receipts(OfferedJobs(q.offered)) + [] == Receipts(OfferedJobs(q.offered));
  }

  lemma ReceiptsKept(s: State, e: Event)
    requires LoopsOk(s) && ReceiptsOk(s.q) && Next(s, e).Some?
    ensures ReceiptsOk(Next(s, e).value.q)
  {
    if !IsOutgoing(e) {
      IncomingStep(s, e);
      if !e.End? && SubmittedJob(s, e).Some? {
        ReceiptsKeptBySubmit(s.q, Next(s, e).value.q, SubmittedJob(s, e).value);
      }
    }
  }

  // ----- the queue over whole runs -----

  ghost predicate QueueInv(s: State) {
    LoopsOk(s) && OutOk(s) && Conserved(s) && ReceiptsOk(s.q)
  }

  lemma ConfigKept(s: State, e: Event)
    requires LoopsOk(s) && Next(s, e).Some?
    ensures Next(s, e).value.q.cap == s.q.cap && Next(s, e).value.q.block == s.q.block
  {
    if !IsOutgoing(e) {
      IncomingStep(s, e);
    }
  }

  lemma QueueReachable(cap: nat, block: bool, store: Contents, events: seq<Event>)
    ensures var r := Run(Next, Init(cap, block, store), events);
            r.Some? ==> QueueInv(r.value) && r.value.q.cap == cap && r.value.q.block == block
  {
    var inv := (s: State) => QueueInv(s) && s.q.cap == cap && s.q.block == block;
    forall s, e | inv(s) && Next(s, e).Some? ensures inv(Next(s, e).value) {
      LoopsKept(s, e);
      ConservedKept(s, e);
      OutKept(s, e);
      ReceiptsKept(s, e);
      ConfigKept(s, e);
    }
    Invariant(Next, Init(cap, block, store), events, inv);
  }

  /**
   In every run: what was written, then the one job whose write failed, then the job in the
   hands of the outbound loop, then the queue, are the submitted jobs in order; all of them
   under "block", all but those that found the queue full under "discard".
   */
  lemma QueueOrder(cap: nat, block: bool, store: Contents, events: seq<Event>)
    requires Run(Next, Init(cap, block, store), events).Some?
    ensures var s := Run(Next, Init(cap, block, store), events).value;
            var through := Through(s.written, s.failed, InHand(s.out), s.q.jobs);
            && |s.q.jobs| <= cap && |s.failed| <= 1
            && Subsequence(through, OfferedJobs(s.q.offered))
            && (block ==> through == OfferedJobs(s.q.offered))
            && (forall o :: o in s.q.offered && !o.accepted ==> o.depth == cap)
  {
    QueueReachable(cap, block, store, events);
    var s := Run(Next, Init(cap, block, store), events).value;
    AcceptedIsSubsequence(s.q.offered);
    if block {
      assert forall o :: o in s.q.offered ==> OfferOk(s.q, o);
      BlockAcceptsAll(s.q);
    }
  }

  lemma PrefixHasNoDups<T>(a: seq<T>, b: seq<T>)
    requires NoDups(a + b)
    ensures NoDups(a)
  {
    assert forall i :: 0 <= i < |a| ==> a[i] == (a + b)[i];
  }

  lemma TakenReceipts(taken: seq<Job>, hand: seq<Job>, queued: seq<Job>)
    requires NoDups(Receipts(taken + hand + queued))
    ensures NoDups(Receipts(taken))
  {
    ReceiptsAppend(taken + hand, queued);
    ReceiptsAppend(taken, hand);
    PrefixHasNoDups(Receipts(taken + hand), Receipts(queued));
    PrefixHasNoDups(Receipts(taken), Receipts(hand));
  }

  /** Each receipt is closed at most once, only for a job that was taken from the queue. */
  lemma ReceiptsAreClosedOnce(cap: nat, block: bool, store: Contents, events: seq<Event>)
    requires Run(Next, Init(cap, block, store), events).Some?
    ensures var s := Run(Next, Init(cap, block, store), events).value;
            NoDups(s.receipts) && s.receipts == Receipts(s.written + s.failed)
  {
    QueueReachable(cap, block, store, events);
    var s := Run(Next, Init(cap, block, store), events).value;
    TakenReceipts(s.written + s.failed, InHand(s.out), s.q.jobs);
  }

  /** When the outbound loop has ended nothing more is written, and whoever waits for a receipt waits for ever. */
  lemma {:induction false} QuitIsFinal(s: State, events: seq<Event>)
    requires LoopsOk(s) && s.out.Quit? && Run(Next, s, events).Some?
    ensures var t := Run(Next, s, events).value;
            LoopsOk(t) && t.out == s.out && t.written == s.written && t.failed == s.failed && t.receipts == s.receipts
  {
    if events != [] {
      var init, e := events[..|events| - 1], events[|events| - 1];
      QuitIsFinal(s, init);
      var u := Run(Next, s, init).value;
      LoopsKept(u, e);
      if !IsOutgoing(e) {
        IncomingStep(u, e);
      }
    }
  }

  /** Nothing is written after a DISCONNECT. */
  lemma DisconnectIsLast(cap: nat, block: bool, store: Contents, events: seq<Event>, more: seq<Event>)
    requires Run(Next, Init(cap, block, store), events).Some?
    requires Run(Next, Init(cap, block, store), events + more).Some?
    requires var s := Run(Next, Init(cap, block, store), events).value;
             exists i :: 0 <= i < |s.written| && s.written[i].m == Disconnect
    ensures var s, t := Run(Next, Init(cap, block, store), events).value, Run(Next, Init(cap, block, store), events + more).value;
            t.written == s.written && t.out == s.out == Quit(SentDisconnect)
  {
    QueueReachable(cap, block, store, events);
    RunSplits(Next, Init(cap, block, store), events, more);
    QuitIsFinal(Run(Next, Init(cap, block, store), events).value, more);
  }

  /** Only a DISCONNECT is sent with a receipt. */
  predicate KickOk(j: Job) {
    j.r.Some? ==> j.m == Disconnect
  }

  ghost predicate KicksOk(s: State) {
    && (forall j :: j in s.q.jobs ==> KickOk(j)) && (forall j :: j in s.written ==> KickOk(j))
    && (forall j :: j in s.failed ==> KickOk(j)) && (forall j :: j in InHand(s.out) ==> KickOk(j))
  }

  lemma KicksKept(s: State, e: Event)
    requires LoopsOk(s) && KicksOk(s) && Next(s, e).Some?
    ensures KicksOk(Next(s, e).value)
  {
    if !IsOutgoing(e) {
      IncomingStep(s, e);
      assert SubmittedJob(s, e).Some? ==> KickOk(SubmittedJob(s, e).value);
    }
  }

  lemma KicksReachable(cap: nat, block: bool, store: Contents, events: seq<Event>)
    requires Run(Next, Init(cap, block, store), events).Some?
    ensures KicksOk(Run(Next, Init(cap, block, store), events).value)
  {
    var inv := (s: State) => LoopsOk(s) && KicksOk(s);
    forall s, e | inv(s) && Next(s, e).Some? ensures inv(Next(s, e).value) {
      LoopsKept(s, e);
      KicksKept(s, e);
    }
    Invariant(Next, Init(cap, block, store), events, inv);
  }

  lemma {:induction false} ReceiptMembers(jobs: seq<Job>, r: Receipt)
    ensures r in Receipts(jobs) <==> exists j :: j in jobs && j.r == Some(r)
  {
    if jobs != [] {
      var init, last := jobs[..|jobs| - 1], jobs[|jobs| - 1];
      ReceiptMembers(init, r);
      assert jobs == init + [last];
      assert forall j :: j in jobs <==> j in init || j == last;
    }
  }

  /**
   In every run a receipt is closed exactly if its DISCONNECT was written, which ends the outbound loop, or its
   write failed, which ends it too.
   */
  lemma KickedClientIsDisconnected(cap: nat, block: bool, store: Contents, events: seq<Event>, r: Receipt)
    requires Run(Next, Init(cap, block, store), events).Some?
    ensures var s, kick := Run(Next, Init(cap, block, store), events).value, Job(Disconnect, Some(r));
            && (r in s.receipts <==> kick in s.written || kick in s.failed)
            && (kick in s.written ==> s.out == Quit(SentDisconnect)) && (kick in s.failed ==> s.out == Quit(WriteError))
  {
    QueueReachable(cap, block, store, events);
    KicksReachable(cap, block, store, events);
    var s, kick := Run(Next, Init(cap, block, store), events).value, Job(Disconnect, Some(r));
    ReceiptMembers(s.written + s.failed, r);
    assert forall j :: j in s.written + s.failed && j.r == Some(r) ==> j == kick;
  }

  /** A session whose channel is open and has room can be told to disconnect. */
  lemma KickIsQueued(s: State, r: Receipt)
    requires !s.q.closed && |s.q.jobs| < s.q.cap && r !in Receipts(OfferedJobs(s.q.offered))
    ensures Next(s, Kick(r)).Some? && Next(s, Kick(r)).value.q.jobs == s.q.jobs + [Job(Disconnect, Some(r))]
  {
  }

  // ----- acknowledgements of received messages -----

  predicate IsAck(m: Message, mid: Mid) {
    m.PubAck? && m.ackId == mid
  }

  ghost predicate AckQueued(s: State, mid: Mid) {
    exists j :: j in s.q.jobs && IsAck(j.m, mid)
  }

  ghost predicate AckDiscarded(s: State, mid: Mid) {
    exists o :: o in s.q.offered && !o.accepted && IsAck(o.job.m, mid)
  }

  /** The acknowledgement of a stored message is still to come, or was discarded. */
  ghost predicate AckOwed(s: State, mid: Mid) {
    || AckQueued(s, mid)
    || (s.out.Holding? && IsAck(s.out.j.m, mid))
    || (s.inb.Publishing? && s.inb.m.Publish? && s.inb.m.qos == QOS_AT_LEAST_ONCE && s.inb.m.mid == mid)
    || AckDiscarded(s, mid)
  }

  predicate Attached(s: State) {
    s.inb != Connecting && s.inb != Ended(false)
  }

  ghost predicate AckPaired(s: State, mid: Mid) {
    Attached(s) && InboundKey(mid) in s.store ==> AckOwed(s, mid)
  }

  lemma AckedAfterSubmit(s: State, t: State, j: Job, mid: Mid)
    requires Submitted(s.q, t.q, j)
    ensures AckQueued(s, mid) ==> AckQueued(t, mid)
    ensures AckDiscarded(s, mid) ==> AckDiscarded(t, mid)
    ensures t.q != s.q && IsAck(j.m, mid) ==> AckQueued(t, mid) || AckDiscarded(t, mid)
  {
    if AckQueued(s, mid) {
      var x :| x in s.q.jobs && IsAck(x.m, mid);
      assert x in t.q.jobs;
    }
    if AckDiscarded(s, mid) {
      var o :| o in s.q.offered && !o.accepted && IsAck(o.job.m, mid);
      assert o in t.q.offered;
    }
    if t.q != s.q {
      assert t.q == Accept(s.q, j) ==> j in t.q.jobs;
      assert t.q != Accept(s.q, j) ==> Offer(j, false, |s.q.jobs|) in t.q.offered;
    }
  }

  /** On a live connection a submission that does not wait leaves a trace. */
  lemma SubmitMoves(q: Queue, m: Message)
    ensures q.alive && Submit(q, m).Some? ==> Submit(q, m).value != q
  {
    if q.alive && Submit(q, m).Some? {
      assert |Submit(q, m).value.offered| == |q.offered| + 1;
    }
  }

  lemma AckStepIncoming(s: State, e: Event, mid: Mid)
    requires LoopsOk(s) && !IsOutgoing(e) && !e.Resume? && AckPaired(s, mid) && Next(s, e).Some?
    ensures AckPaired(Next(s, e).value, mid)
  {
    var t := Next(s, e).value;
    IncomingStep(s, e);
    if !e.End? && SubmittedJob(s, e).Some? {
      AckedAfterSubmit(s, t, SubmittedJob(s, e).value, mid);
    }
    match e
    case ReceivePublish(m) => PersistTouches(s.store, In(m), Inbound, mid);
    case Acknowledge => SubmitMoves(s.q, PubAck(s.inb.m.mid, 0));
    case _ =>
  }

  lemma AckStepOutgoing(s: State, e: Event, mid: Mid)
    requires LoopsOk(s) && IsOutgoing(e) && AckPaired(s, mid) && Next(s, e).Some?
    ensures AckPaired(Next(s, e).value, mid)
  {
    var t := Next(s, e).value;
    match e
    case Dequeue =>
      assert s.q.jobs == [s.q.jobs[0]] + s.q.jobs[1..];
      if AckQueued(s, mid) && !IsAck(s.q.jobs[0].m, mid) {
        var j :| j in s.q.jobs && IsAck(j.m, mid);
        assert j in t.q.jobs;
      }
    case PersistJob =>
      PersistTouches(s.store, Out(s.out.j.m), Inbound, mid);
      assert AckQueued(s, mid) ==> AckQueued(t, mid);
    case WriteOk => assert t.q == s.q;
    case WriteFail => assert t.q == s.q;
    case Drain => assert t.q == s.q;
    case Stop => assert t.q == s.q;
    case _ =>
  }

  /**
   In every interleaving of a clean session: if a received QoS 1 message is in the store, its
   PUBACK is queued or in the outbound loop's hands, or the message is being published right
   now, or the PUBACK was discarded because the queue was full.
   */
  lemma {:induction false} StoredMessageIsOwedAnAck(cap: nat, block: bool, store: Contents, events: seq<Event>, mid: Mid)
    requires Run(Next, Init(cap, block, store), events).Some?
    requires forall e :: e in events ==> !e.Resume?
    ensures AckPaired(Run(Next, Init(cap, block, store), events).value, mid)
  {
    if events != [] {
      var init, e := events[..|events| - 1], events[|events| - 1];
      StoredMessageIsOwedAnAck(cap, block, store, init, mid);
      QueueReachable(cap, block, store, init);
      assert e in events;
      var s := Run(Next, Init(cap, block, store), init).value;
      if IsOutgoing(e) {
        AckStepOutgoing(s, e, mid);
      } else {
        AckStepIncoming(s, e, mid);
      }
    }
  }

  /**
   Once the outbound loop has drained the queue of a clean session after an orderly end, a
   received message is left in the store only if its PUBACK was discarded; so none under "block".
   */
  lemma DrainedSessionOwesNothing(cap: nat, block: bool, store: Contents, events: seq<Event>, mid: Mid)
    requires Run(Next, Init(cap, block, store), events).Some?
    requires forall e :: e in events ==> !e.Resume?
    requires var s := Run(Next, Init(cap, block, store), events).value; Attached(s) && s.out == Quit(Drained)
    ensures var s := Run(Next, Init(cap, block, store), events).value;
            InboundKey(mid) in s.store ==> !block && AckDiscarded(s, mid)
  {
    StoredMessageIsOwedAnAck(cap, block, store, events, mid);
    QueueReachable(cap, block, store, events);
    var s := Run(Next, Init(cap, block, store), events).value;
    if InboundKey(mid) in s.store {
      var o :| o in s.q.offered && !o.accepted && IsAck(o.job.m, mid);
      assert OfferOk(s.q, o);
    }
  }

  /** The step stores the message as received. */
  predicate Receives(e: Event, mid: Mid) {
    e.ReceivePublish? && Opens(In(e.m), Store.Inbound, mid)
  }

  /** How often a PUBACK of the id was submitted. */
  function AcksOffered(offered: seq<Offer>, mid: Mid): nat {
    if offered == [] then 0
    else AcksOffered(offered[..|offered| - 1], mid) + (if IsAck(offered[|offered| - 1].job.m, mid) then 1 else 0)
  }

  /** How often a QoS 1 PUBLISH of the id was received. */
  function Receptions(events: seq<Event>, mid: Mid): nat {
    if events == [] then 0
    else Receptions(events[..|events| - 1], mid) + (if Receives(events[|events| - 1], mid) then 1 else 0)
  }

  function InPublish(s: State, mid: Mid): nat {
    if s.inb.Publishing? && s.inb.m.Publish? && s.inb.m.qos == QOS_AT_LEAST_ONCE && s.inb.m.mid == mid then 1 else 0
  }

  lemma AcksSnoc(offered: seq<Offer>, o: Offer, mid: Mid)
    ensures AcksOffered(offered + [o], mid) == AcksOffered(offered, mid) + (if IsAck(o.job.m, mid) then 1 else 0)
  {
    assert (offered + [o])[..|offered|] == offered;
  }

  lemma AcksAfterSubmit(q: Queue, p: Queue, j: Job, mid: Mid)
    requires Submitted(q, p, j)
    ensures AcksOffered(p.offered, mid) == AcksOffered(q.offered, mid) + (if p != q && IsAck(j.m, mid) then 1 else 0)
  {
    AcksSnoc(q.offered, Offer(j, true, |q.jobs|), mid);
    AcksSnoc(q.offered, Offer(j, false, |q.jobs|), mid);
  }

  lemma StoreKept(s: State, e: Event)
    requires WellKept(s.store) && Next(s, e).Some?
    ensures WellKept(Next(s, e).value.store)
  {
    match e
    case ReceivePublish(m) => PersistKeeps(s.store, In(m));
    case PersistJob => PersistKeeps(s.store, Out(s.out.j.m));
    case _ =>
  }

  /** The job of any step but `Acknowledge` is no PUBACK. */
  lemma OtherJobsAreNoAcks(s: State, e: Event, mid: Mid)
    requires WellKept(s.store) && Next(s, e).Some? && !e.Acknowledge? && SubmittedJob(s, e).Some?
    ensures !IsAck(SubmittedJob(s, e).value.m, mid)
  {
    if e.RestoreOne? {
      assert EntryOk(s.inb.todo[0], s.store[s.inb.todo[0]]);
    }
  }

  lemma InPublishStep(s: State, e: Event, mid: Mid)
    requires Next(s, e).Some?
    ensures InPublish(Next(s, e).value, mid)
         == if e.Acknowledge? then 0 else InPublish(s, mid) + (if Receives(e, mid) then 1 else 0)
  {
  }

  lemma AcksStep(s: State, e: Event, mid: Mid)
    requires LoopsOk(s) && WellKept(s.store) && Next(s, e).Some? && !e.Acknowledge?
    ensures AcksOffered(Next(s, e).value.q.offered, mid) == AcksOffered(s.q.offered, mid)
  {
    if !IsOutgoing(e) {
      IncomingStep(s, e);
      var j := SubmittedJob(s, e);
      if j.Some? {
        AcksAfterSubmit(s.q, Next(s, e).value.q, j.value, mid);
        OtherJobsAreNoAcks(s, e, mid);
      }
    }
  }

  lemma AcknowledgeCounts(s: State, mid: Mid)
    requires LoopsOk(s) && Next(s, Acknowledge).Some?
    ensures AcksOffered(Next(s, Acknowledge).value.q.offered, mid) == AcksOffered(s.q.offered, mid) + InPublish(s, mid)
  {
    var j := SubmittedJob(s, Acknowledge);
    if j.Some? {
      IncomingStep(s, Acknowledge);
      AcksAfterSubmit(s.q, Next(s, Acknowledge).value.q, j.value, mid);
      SubmitMoves(s.q, j.value.m);
    }
  }

  lemma AckCountStep(s: State, e: Event, mid: Mid)
    requires LoopsOk(s) && WellKept(s.store) && Next(s, e).Some?
    ensures var t := Next(s, e).value;
            AcksOffered(t.q.offered, mid) + InPublish(t, mid)
            == AcksOffered(s.q.offered, mid) + InPublish(s, mid) + (if Receives(e, mid) then 1 else 0)
  {
    InPublishStep(s, e, mid);
    if e.Acknowledge? {
      AcknowledgeCounts(s, mid);
    } else {
      AcksStep(s, e, mid);
    }
  }

  /** In every run one PUBACK is submitted for each QoS 1 message received, and no other. */
  lemma {:induction false} OneAckPerReception(cap: nat, block: bool, store: Contents, events: seq<Event>, mid: Mid)
    requires WellKept(store) && Run(Next, Init(cap, block, store), events).Some?
    ensures var s := Run(Next, Init(cap, block, store), events).value;
            && WellKept(s.store)
            && AcksOffered(s.q.offered, mid) + InPublish(s, mid) == Receptions(events, mid)
  {
    if events != [] {
      var n := |events| - 1;
      OneAckPerReception(cap, block, store, events[..n], mid);
      QueueReachable(cap, block, store, events[..n]);
      StoreKept(Run(Next, Init(cap, block, store), events[..n]).value, events[n]);
      AckCountStep(Run(Next, Init(cap, block, store), events[..n]).value, events[n], mid);
    }
  }

  // ----- acknowledgements of sent messages -----

  /** The step stores the message as sent. */
  predicate Stores(s: State, e: Event, mid: Mid) {
    e == PersistJob && s.out.Holding? && Opens(Out(s.out.j.m), Store.Outbound, mid)
  }

  /** The outbound loop has the acknowledgement of a received message in its hands and stores that. */
  predicate Acknowledges(s: State, e: Event, mid: Mid) {
    e == PersistJob && s.out.Holding? && Closes(Out(s.out.j.m), Store.Inbound, mid)
  }

  lemma OutboundEntryStep(s: State, e: Event, mid: Mid)
    requires Attached(s) && Next(s, e).Some?
    ensures var t := Next(s, e).value;
            && Attached(t)
            && (OutboundKey(mid) in t.store <==> Stores(s, e, mid) || (OutboundKey(mid) in s.store && e != ConnectClean))
            && (OutboundKey(mid) in t.store ==>
                  if Stores(s, e, mid) then t.store[OutboundKey(mid)] == s.out.j.m
                  else OutboundKey(mid) in s.store && t.store[OutboundKey(mid)] == s.store[OutboundKey(mid)])
  {
    match e
    case ReceivePublish(m) => PersistTouches(s.store, In(m), Store.Outbound, mid);
    case PersistJob => PersistTouches(s.store, Out(s.out.j.m), Store.Outbound, mid);
    case _ =>
  }

  lemma InboundEntryStep(s: State, e: Event, mid: Mid)
    requires Attached(s) && Next(s, e).Some?
    ensures var t := Next(s, e).value;
            && Attached(t)
            && (InboundKey(mid) in t.store
                <==> Receives(e, mid) || (InboundKey(mid) in s.store && !Acknowledges(s, e, mid) && e != ConnectClean))
            && (InboundKey(mid) in t.store ==>
                  if Receives(e, mid) then t.store[InboundKey(mid)] == e.m
                  else InboundKey(mid) in s.store && t.store[InboundKey(mid)] == s.store[InboundKey(mid)])
  {
    match e
    case ReceivePublish(m) => PersistTouches(s.store, In(m), Store.Inbound, mid);
    case PersistJob => PersistTouches(s.store, Out(s.out.j.m), Store.Inbound, mid);
    case _ =>
  }

  /**
   The received QoS 1 message of an id that is still open: the last one received, or the one there at the
   start, if neither its acknowledgement was sent nor a clean CONNECT came since.
   */
  function OpenReceived(s: State, events: seq<Event>, mid: Mid): Option<Message> {
    if events == [] then if InboundKey(mid) in s.store then Some(s.store[InboundKey(mid)]) else None
    else
      var n := |events| - 1;
      var before := Run(Next, s, events[..n]);
      if Receives(events[n], mid) then Some(events[n].m)
      else if events[n] == ConnectClean || (before.Some? && Acknowledges(before.value, events[n], mid)) then None
      else OpenReceived(s, events[..n], mid)
  }

  /** In every run of a session exactly the open received messages are in the inbound half of the store. */
  lemma {:induction false} ReceivedMessageIsKeptIff(s: State, events: seq<Event>, mid: Mid)
    requires Attached(s) && Run(Next, s, events).Some?
    ensures var t := Run(Next, s, events).value;
            && Attached(t)
            && (InboundKey(mid) in t.store <==> OpenReceived(s, events, mid).Some?)
            && (InboundKey(mid) in t.store ==> Some(t.store[InboundKey(mid)]) == OpenReceived(s, events, mid))
  {
    if events != [] {
      var n := |events| - 1;
      ReceivedMessageIsKeptIff(s, events[..n], mid);
      InboundEntryStep(Run(Next, s, events[..n]).value, events[n], mid);
    }
  }

  /** The message was in the store at the start or was stored as sent, and no clean CONNECT has come since. */
  ghost predicate SentSinceReset(s: State, events: seq<Event>, mid: Mid) {
    if events == [] then OutboundKey(mid) in s.store
    else
      var n := |events| - 1;
      var before := Run(Next, s, events[..n]);
      (before.Some? && Stores(before.value, events[n], mid))
      || (events[n] != ConnectClean && SentSinceReset(s, events[..n], mid))
  }

  /**
   `doPublishAck` does nothing with the client's PUBACK. So in every run of a session the entry of a sent QoS 1
   message is in the store exactly if it was sent and the client has not sent another, clean CONNECT since.
   */
  lemma {:induction false} SentMessageIsKeptIff(s: State, events: seq<Event>, mid: Mid)
    requires Attached(s) && Run(Next, s, events).Some?
    ensures var t := Run(Next, s, events).value;
            Attached(t) && (OutboundKey(mid) in t.store <==> SentSinceReset(s, events, mid))
  {
    if events != [] {
      var n := |events| - 1;
      SentMessageIsKeptIff(s, events[..n], mid);
      OutboundEntryStep(Run(Next, s, events[..n]).value, events[n], mid);
    }
  }

  /** In particular acknowledging it, however often, removes nothing. */
  lemma {:induction false} SentMessageIsNeverForgotten(s: State, events: seq<Event>, mid: Mid)
    requires Attached(s) && OutboundKey(mid) in s.store && Run(Next, s, events).Some? && ConnectClean !in events
    ensures OutboundKey(mid) in Run(Next, s, events).value.store
  {
    if events != [] {
      var n := |events| - 1;
      assert events[n] in events;
      SentMessageIsNeverForgotten(s, events[..n], mid);
      SentMessageIsKeptIff(s, events[..n], mid);
      OutboundEntryStep(Run(Next, s, events[..n]).value, events[n], mid);
    }
  }

  /** The outbound loop takes a queued job, stores it and writes it. */
  function Sending(): seq<Event> {
    [Dequeue, PersistJob, WriteOk]
  }

  lemma SendSteps(s: State, job: Job, t: State)
    requires s.out == Waiting && s.q.jobs == [job] && job.r == None && job.m != Disconnect
    requires t == s.(q := s.q.(jobs := []), written := s.written + [job], store := PersistOut(s.store, job.m))
    ensures Run(Next, s, Sending()) == Some(t)
  {
    var a := s.(out := Holding(job), q := s.q.(jobs := []));
    var b := a.(out := Writing(job), store := PersistOut(s.store, job.m));
    assert Next(s, Dequeue) == Some(a) by { assert [job][1..] == []; }
    assert Next(b, WriteOk) == Some(t) by { assert Receipts([job]) == []; assert s.receipts + [] == s.receipts; }
    TraceIsRun(Next, [s, a, b, t], Sending());
  }

  /** A clean session is set up and its CONNACK is written. */
  lemma Greets(cap: nat, block: bool, store: Contents) returns (events: seq<Event>, s: State)
    requires cap >= 1
    ensures Run(Next, Init(cap, block, store), events) == Some(s)
    ensures s.inb == Reading && s.out == Waiting && s.q.jobs == [] && s.q.alive && s.q.cap == cap
  {
    var hello, s0 := Job(ConnAck, None), Init(cap, block, store);
    var s1 := Next(s0, StartClean).value;
    var s2 := Next(s1, Connected).value;
    assert s2.q.jobs == [hello];
    s := s2.(q := s2.q.(jobs := []), written := s2.written + [hello], store := PersistOut(s2.store, ConnAck));
    SendSteps(s2, hello, s);
    TraceIsRun(Next, [s0, s1, s2], [StartClean, Connected]);
    RunsCompose(Next, s0, [StartClean, Connected], s2, Sending(), s);
    events := [StartClean, Connected] + Sending();
  }

  /** It happens: a message is sent, the client acknowledges it, and it stays in the store. */
  lemma AcknowledgedMessageStays(cap: nat, block: bool, store: Contents, m: Message, ack: Message)
    returns (events: seq<Event>)
    requires cap >= 1 && m.Publish? && m.qos == QOS_AT_LEAST_ONCE && ack.PubAck? && ack.ackId == m.mid
    ensures Run(Next, Init(cap, block, store), events).Some?
    ensures var s := Run(Next, Init(cap, block, store), events).value;
            && Job(m, None) in s.written && events != [] && events[|events| - 1] == ReceiveAck(ack)
            && OutboundKey(m.mid) in s.store && s.store[OutboundKey(m.mid)] == m
  {
    var before, s := Greets(cap, block, store);
    var s0, msg := Init(cap, block, store), Job(m, None);
    var t := Next(s, Deliver(m)).value;
    assert t.q.jobs == [msg];
    var u := t.(q := t.q.(jobs := []), written := t.written + [msg], store := PersistOut(t.store, m));
    SendSteps(t, msg, u);
    RunOne(Next, s, Deliver(m), t);
    RunOne(Next, u, ReceiveAck(ack), u);
    RunsCompose(Next, s0, before, s, [Deliver(m)], t);
    RunsCompose(Next, s0, before + [Deliver(m)], t, Sending(), u);
    RunsCompose(Next, s0, before + [Deliver(m)] + Sending(), u, [ReceiveAck(ack)], u);
    events := before + [Deliver(m)] + Sending() + [ReceiveAck(ack)];
  }

  // ----- the two loops step by step -----

  /** A submission has to wait. */
  predicate MustWait(q: Queue) {
    q.alive && q.block && |q.jobs| >= q.cap
  }

  function QueuedIfRoom(q: Queue, m: Message): seq<Job> {
    if q.alive && |q.jobs| < q.cap then q.jobs + [Job(m, None)] else q.jobs
  }

  /** What the inbound loop answers at this place, if the event is its answer. */
  function Answer(inb: Inbound, e: Event): Option<Message> {
    match e
    case Ping => if inb == Connecting || inb == Reading then Some(PingResp) else None
    case Unsubscribe => if inb == Connecting || inb == Reading then Some(UnsubAck) else None
    case Connected => if inb == Restoring([]) then Some(ConnAck) else None
    case Acknowledge =>
      if inb.Publishing? && inb.m.Publish? && inb.m.qos == QOS_AT_LEAST_ONCE then Some(PubAck(inb.m.mid, 0)) else None
    case _ => None
  }

  /**
   PINGREQ and UNSUBSCRIBE are answered before and after the CONNECT, the CONNECT once everything was resent, and
   a QoS 1 PUBLISH after it was stored: the answer is submitted unless that has to wait, and the loop reads on.
   */
  lemma RequestsAreAnswered(s: State, e: Event)
    requires Answer(s.inb, e).Some?
    ensures Next(s, e).Some? <==> !MustWait(s.q)
    ensures Next(s, e).Some? ==>
              var t := Next(s, e).value;
              && t.q.jobs == QueuedIfRoom(s.q, Answer(s.inb, e).value) && t.store == s.store && t.out == s.out
              && t.inb == if e == Connected || e == Acknowledge then Reading else s.inb
  {
    SubmitOutcome(s.q, Answer(s.inb, e).value);
  }

  /** None of them is possible anywhere else, but for a QoS 0 PUBLISH, which has no answer. */
  lemma AnswersHaveTheirPlace(s: State, e: Event)
    requires (e == Ping || e == Unsubscribe || e == Connected || e == Acknowledge) && Answer(s.inb, e) == None
    ensures Next(s, e).Some? <==> e == Acknowledge && s.inb.Publishing? && s.inb.m.Publish?
    ensures Next(s, e).Some? ==> Next(s, e).value == s.(inb := Reading)
  {
  }

  /** Where the inbound loop takes up a request or ends, and where it is then. */
  lemma RequestsAreTakenUp(s: State, m: Message, keys: seq<string>)
    ensures Next(s, Resume(keys)).Some? <==> s.inb == Connecting && IsListing(keys, s.store)
    ensures Next(s, Resume(keys)).Some? ==> Next(s, Resume(keys)).value.inb == Restoring(keys)
    ensures Next(s, StartClean).Some? <==> s.inb == Connecting
    ensures Next(s, StartClean).Some? ==>
              Next(s, StartClean).value.inb == Restoring([]) && Next(s, StartClean).value.store == map[]
    ensures Next(s, ConnectClean).Some? <==> s.inb == Reading
    ensures Next(s, ConnectClean).Some? ==> Next(s, ConnectClean).value == s.(store := map[])
    ensures Next(s, ReceivePublish(m)).Some? <==> s.inb == Reading && m.Publish?
    ensures Next(s, ReceivePublish(m)).Some? ==> Next(s, ReceivePublish(m)).value.inb == Publishing(m)
    ensures Next(s, ReceiveAck(m)).Some? <==> (s.inb == Connecting || s.inb == Reading) && m.PubAck?
    ensures Next(s, ReceiveAck(m)).Some? ==> Next(s, ReceiveAck(m)).value == s
    ensures Next(s, End).Some? <==> s.inb == Connecting || s.inb == Reading
    ensures Next(s, End).Some? ==>
              Next(s, End).value.inb == Ended(s.inb == Reading) && !Next(s, End).value.q.alive && Next(s, End).value.q.closed
  {
  }

  /** What else is submitted: by dispatch to a client that may have subscribed, as replies, and while resuming. */
  lemma OthersSubmit(s: State, m: Message)
    ensures Next(s, Deliver(m)).Some?
       <==> (s.inb == Reading || s.inb.Publishing? || s.inb.Ended?) && !m.PubAck? && !MustWait(s.q)
    ensures Next(s, Deliver(m)).Some? ==> Next(s, Deliver(m)).value.q.jobs == QueuedIfRoom(s.q, m)
    ensures Next(s, Reply(m)).Some? <==> s.inb == Reading && !m.PubAck? && !MustWait(s.q)
    ensures Next(s, Reply(m)).Some? ==> Next(s, Reply(m)).value.q.jobs == QueuedIfRoom(s.q, m)
    ensures Next(s, RestoreOne).Some?
       <==> s.inb.Restoring? && s.inb.todo != []
            && !(MustWait(s.q) && s.inb.todo[0] in s.store && Resendable(s.store[s.inb.todo[0]]))
  {
    SubmitOutcome(s.q, m);
    if s.inb.Restoring? && s.inb.todo != [] && s.inb.todo[0] in s.store {
      SubmitOutcome(s.q, s.store[s.inb.todo[0]]);
    }
  }

  /**
   The outbound loop goes on exactly unless it has ended, or it waits for a job and none is queued in an open
   channel; it ends when the channel is closed and empty, after a failed write, after a DISCONNECT, or when stopped.
   */
  lemma OutboundLoopGoesOn(s: State)
    ensures (exists e :: IsOutgoing(e) && e != Stop && Next(s, e).Some?)
       <==> !s.out.Quit? && !(s.out == Waiting && s.q.jobs == [] && !s.q.closed)
    ensures s.out == Waiting ==> Next(s, Stop).Some? && Next(s, Stop).value.out == Quit(Stopped)
    ensures s.out == Waiting && s.q.jobs == [] && s.q.closed ==>
              Next(s, Drain).Some? && Next(s, Drain).value.out == Quit(Drained)
    ensures s.out.Writing? ==>
              && Next(s, WriteFail).Some? && Next(s, WriteFail).value.out == Quit(WriteError)
              && Next(s, WriteOk).Some?
              && Next(s, WriteOk).value.out == if s.out.j.m == Disconnect then Quit(SentDisconnect) else Waiting
  {
    if s.out == Waiting && s.q.jobs != [] {
      assert IsOutgoing(Dequeue) && Next(s, Dequeue).Some?;
    } else if s.out.Holding? {
      assert IsOutgoing(PersistJob) && Next(s, PersistJob).Some?;
    } else if s.out.Writing? {
      assert IsOutgoing(WriteOk) && Next(s, WriteOk).Some?;
    } else if s.out == Waiting && s.q.closed {
      assert IsOutgoing(Drain) && Next(s, Drain).Some?;
    }
  }
}
