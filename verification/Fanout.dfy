/**
 Fan-out while the index is in use: a worker looks up the subscribers of a topic, releases the
 lock, and reads the list it got cell by cell, while clients change the index and other workers
 look up topics in the same arrays.
 */
module Fanout {
  import opened Topics
  import opened FlatIndex
  import opened SharedIndex
  import opened Runs
  import opened Retain
  import Dispatch

  type ObjectId = Dispatch.ObjectId

  /**
   The fan-out of a message: the flat list at the lookup, the list it got, what it held then, and
   the cells read so far. `dirty` are the unread cells that the last call to change them left
   different from what was selected, `stale` those that were read in that condition.
   */
  datatype Record = Record(
    flat: Flat,
    list: Slice<nat>,
    selected: seq<Cell>,
    read: seq<Cell>,
    dirty: set<nat>,
    stale: set<nat>
  )

  // ----- one list -----

  /** The record of a lookup. */
  function Fresh(ix: Index<nat>, topic: string, a: nat): Record {
    Record(ix.flat, ListOf(ix, topic, a), Listed(ix, topic), [], {}, {})
  }

  /** An unread cell as it is now. */
  function Now(ix: Index<nat>, r: Record, k: nat): Cell {
    if k < |Cells(ix, r.list.arr)| then Cells(ix, r.list.arr)[k] else Nil
  }

  /** The call changes the unread cell. */
  ghost predicate Hits(ix: Index<nat>, op: Op, r: Record, k: nat) {
    && |r.read| <= k < |r.selected| && k < |Cells(ix, r.list.arr)|
    && Changes(ix, op, r.list, k)
  }

  /** After a call of the index by someone else the unread cell is dirty: the call tells, if it changes the cell. */
  ghost predicate DirtyAfter(ix: Index<nat>, op: Op, r: Record, k: nat)
    requires k < |r.selected|
  {
    if Hits(ix, op, r, k) then Written(ix, op, k) != r.selected[k] else k in r.dirty
  }

  ghost function Touch(ix: Index<nat>, op: Op, r: Record): Record {
    r.(dirty := set k: nat | k < |r.selected| && DirtyAfter(ix, op, r, k))
  }

  /** Reading the next cell. */
  function ReadNext(ix: Index<nat>, r: Record): Record {
    var k := |r.read|;
    r.(read := r.read + [Now(ix, r, k)], dirty := r.dirty - {k}, stale := if k in r.dirty then r.stale + {k} else r.stale)
  }

  ghost predicate RecordOk(ix: Index<nat>, r: Record) {
    && HeldOk(ix, r.list) && r.list.len == |r.selected| && |r.read| <= |r.selected|
    && (forall k :: k in r.dirty ==> |r.read| <= k < |r.selected|)
    && (forall k :: k in r.stale ==> 0 <= k < |r.read|)
    && (forall k :: |r.read| <= k < |r.selected| ==> UnreadOk(ix, r, k))
    && (forall k :: 0 <= k < |r.read| ==> ReadOk(r, k))
  }

  /** A tombstone stays one, and a cell is dirty exactly if it differs. */
  ghost predicate UnreadOk(ix: Index<nat>, r: Record, k: nat)
    requires k < |r.selected|
  {
    (r.selected[k] == Nil ==> Now(ix, r, k) == Nil) && (k in r.dirty <==> Now(ix, r, k) != r.selected[k])
  }

  ghost predicate ReadOk(r: Record, k: nat)
    requires k < |r.read| <= |r.selected|
  {
    (r.selected[k] == Nil ==> r.read[k] == Nil) && (k in r.stale <==> r.read[k] != r.selected[k])
  }

  lemma LookupRecord(ix: Index<nat>, topic: string, a: nat, spare: nat)
    requires Ok(ix) && Possible(ix, Call(OpLookup(topic), a, spare))
    ensures RecordOk(Lookup(ix, topic, a, spare), Fresh(ix, topic, a))
  {
    LookupIsHeld(ix, topic, a, spare);
  }

  lemma TouchCell(ix: Index<nat>, call: Call<nat>, r: Record, k: nat)
    requires Shape(ix) && Possible(ix, call) && RecordOk(ix, r) && |r.read| <= k < |r.selected|
    ensures UnreadOk(Apply(ix, call), Touch(ix, call.op, r), k)
  {
    assert UnreadOk(ix, r, k);
    HeldKept(ix, call, r.list);
    ChangedCell(ix, call, r.list, k);
    if Hits(ix, call.op, r, k) {
      ChangedTo(ix, call, r.list, k);
    }
  }

  lemma TouchKeeps(ix: Index<nat>, call: Call<nat>, r: Record)
    requires Shape(ix) && Possible(ix, call) && RecordOk(ix, r)
    ensures RecordOk(Apply(ix, call), Touch(ix, call.op, r))
  {
    HeldKept(ix, call, r.list);
    forall k: nat | |r.read| <= k < |r.selected| ensures UnreadOk(Apply(ix, call), Touch(ix, call.op, r), k) {
      TouchCell(ix, call, r, k);
    }
    forall k: nat | k < |r.read| ensures ReadOk(Touch(ix, call.op, r), k) {
      assert ReadOk(r, k);
    }
  }

  lemma ReadKeeps(ix: Index<nat>, r: Record)
    requires RecordOk(ix, r) && |r.read| < |r.selected|
    ensures RecordOk(ix, ReadNext(ix, r))
  {
    var r' := ReadNext(ix, r);
    assert UnreadOk(ix, r, |r.read|);
    forall k: nat | |r'.read| <= k < |r.selected| ensures UnreadOk(ix, r', k) {
      assert UnreadOk(ix, r, k);
    }
    forall k: nat | k < |r'.read| ensures ReadOk(r', k) {
      assert k < |r.read| ==> ReadOk(r, k);
    }
  }

  /** A list that was read to its end shows what was selected exactly if no cell was read while it was dirty. */
  lemma ReadDecides(ix: Index<nat>, r: Record)
    requires RecordOk(ix, r) && |r.read| == |r.selected|
    ensures Live(r.read) == Live(r.selected) <==> r.stale == {}
  {
    forall k: nat | k < |r.read|
      ensures (r.selected[k] == Nil ==> r.read[k] == Nil) && (k in r.stale <==> r.read[k] != r.selected[k])
    {
      assert ReadOk(r, k);
    }
    LiveDecidesCells(r.selected, r.read);
  }

  // ----- the machine -----

  datatype State = State(d: Dispatch.State, index: Index<nat>, records: map<ObjectId, Record>)

  /** A client's call is an `add`, `unsub` or `unsubAll`; `LookUp` is a worker's call of `subscribers`. */
  datatype Event =
    | Other(e: Dispatch.Event)
    | LookUp(w: nat, a: nat, spare: nat)
    | ReadCell(w: nat)
    | FinishFanOut(w: nat)
    | ClientCall(call: Call<nat>)

  function Init(n: nat): State {
    State(Dispatch.Init(n), Empty(), map[])
  }

  ghost function Next(s: State, e: Event): Option<State> {
    match e
    case Other(f) =>
      if f.Deliver? || f.Finish? then None
      else With(s, Dispatch.Next(s.d, f))
    case LookUp(w, a, spare) =>
      if LooksUp(s, w) && Possible(s.index, LookUpCall(s, w, a, spare)) then Some(Start(s, w, a, spare)) else None
    case ReadCell(w) =>
      if Reading(s, w) && |Of(s, w).read| < |Of(s, w).selected| then Some(ReadOne(s, w)) else None
    case FinishFanOut(w) =>
      if Reading(s, w) && |Of(s, w).read| == |Of(s, w).selected|
      then With(s, Dispatch.Next(s.d, Dispatch.Finish(w)))
      else None
    case ClientCall(call) =>
      if call.op.OpLookup? || !Possible(s.index, call) then None else Some(Called(s, call))
  }

  function With(s: State, d: Option<Dispatch.State>): Option<State> {
    match d
    case None => None
    case Some(d) => Some(s.(d := d))
  }

  predicate Reading(s: State, w: nat) {
    w < |s.d.workers| && s.d.workers[w].Fanning? && s.d.workers[w].m in s.records
  }

  function Of(s: State, w: nat): Record
    requires Reading(s, w)
  {
    s.records[s.d.workers[w].m]
  }

  /** The index after a call, and every list in use. */
  ghost function Called(s: State, call: Call<nat>): State {
    s.(index := Apply(s.index, call),
       records := map m | m in s.records :: Touch(s.index, call.op, s.records[m]))
  }

  /** The worker is about to look up the subscribers for its message. */
  predicate LooksUp(s: State, w: nat) {
    && w < |s.d.workers| && s.d.workers[w].Fanning?
    && s.d.workers[w].m !in s.records && s.d.workers[w].m in s.d.heap
  }

  function LookUpCall(s: State, w: nat, a: nat, spare: nat): Call<nat>
    requires LooksUp(s, w)
  {
    Call(OpLookup(s.d.heap[s.d.workers[w].m].topic), a, spare)
  }

  ghost function Start(s: State, w: nat, a: nat, spare: nat): State
    requires LooksUp(s, w)
  {
    var call, t := LookUpCall(s, w, a, spare), Called(s, LookUpCall(s, w, a, spare));
    t.(records := t.records[s.d.workers[w].m := Fresh(s.index, call.op.topic, a)])
  }

  /** The next cell is read, and the message submitted to the connection it holds, if any. */
  function ReadOne(s: State, w: nat): State
    requires Reading(s, w)
  {
    var cell := Now(s.index, Of(s, w), |Of(s, w).read|);
    var t := s.(records := s.records[s.d.workers[w].m := ReadNext(s.index, Of(s, w))]);
    if cell == Nil then t
    else t.(d := s.d.(submitted := s.d.submitted + [Dispatch.FanOut(cell.c, s.d.workers[w].m)]))
  }

  // ----- what every step keeps -----

  /** The record of a message fits what the workers have done with it. */
  ghost predicate Reflects(d: Dispatch.State, m: ObjectId, r: Record) {
    && m in d.posted && m in d.place && (d.place[m].Cleared? || d.place[m].Done?)
    && Live(r.selected) == Receivers(r.flat, d.posted[m].topic)
    && Dispatch.Delivered(d.submitted, m) == Live(r.read)
    && (d.place[m].Cleared? ==> d.place[m].w < |d.workers| && d.workers[d.place[m].w].Fanning?)
    && (d.place[m].Done? ==> |r.read| == |r.selected|)
  }

  /** A message without a record has not been submitted to anybody by fan-out. */
  ghost predicate Unfanned(d: Dispatch.State, m: ObjectId) {
    && Dispatch.Delivered(d.submitted, m) == []
    && (m in d.place && d.place[m].Done? ==> m in d.posted && IsDeletion(d.posted[m]))
  }

  ghost predicate MessageOk(s: State, m: ObjectId) {
    if m in s.records then RecordOk(s.index, s.records[m]) && Reflects(s.d, m, s.records[m]) else Unfanned(s.d, m)
  }

  ghost predicate Inv(s: State) {
    Dispatch.Inv(s.d) && Ok(s.index) && forall m :: MessageOk(s, m)
  }

  /** A step of the machine is one step of the workers, or none. */
  lemma StepProjects(s: State, e: Event) returns (f: Option<Dispatch.Event>)
    requires Next(s, e).Some?
    ensures match f
            case None => Next(s, e).value.d == s.d
            case Some(f) => Dispatch.Next(s.d, f) == Some(Next(s, e).value.d)
  {
    match e
    case Other(g) => f := Some(g);
    case LookUp(_, _, _) => f := None;
    case ReadCell(w) =>
      var cell := Now(s.index, Of(s, w), |Of(s, w).read|);
      f := if cell == Nil then None else Some(Dispatch.Deliver(w, cell.c));
    case FinishFanOut(w) => f := Some(Dispatch.Finish(w));
    case ClientCall(_) => f := None;
  }

  /** The step moves the message on: it is the one in the hands of that worker. */
  predicate Moves(d: Dispatch.State, f: Dispatch.Event, m: ObjectId) {
    && (f.Clear? || f.Finish? || f.Delete?) && f.w < |d.workers|
    && (d.workers[f.w].Took? || d.workers[f.w].Fanning? || d.workers[f.w].Deleting?) && d.workers[f.w].m == m
  }

  /** What becomes of it. */
  lemma MovedOn(d: Dispatch.State, f: Dispatch.Event, m: ObjectId)
    requires Dispatch.Inv(d) && Dispatch.Next(d, f).Some? && Moves(d, f, m)
    ensures var t := Dispatch.Next(d, f).value;
            && m in d.posted && m in d.place && m in t.place && |t.workers| == |d.workers| && t.posted == d.posted
            && d.place[m] == (if f.Clear? then Dispatch.Held(f.w) else Dispatch.Cleared(f.w))
            && t.place[m] == (if f.Clear? then Dispatch.Cleared(f.w) else Dispatch.Done)
            && (f.Delete? ==> IsDeletion(d.posted[m]))
  {
    Dispatch.Handled(d, f);
    assert Dispatch.WorkerKnows(d, d.workers[f.w]);
  }

  predicate Past(d: Dispatch.State, m: ObjectId) {
    m in d.place && (d.place[m].Cleared? || d.place[m].Done?)
  }

  /** Other messages that are past the channel stay where they are, and no other gets there. */
  lemma NotMovedOn(d: Dispatch.State, f: Dispatch.Event, m: ObjectId)
    requires Dispatch.Handles(d, f) && Dispatch.Next(d, f).Some? && !Moves(d, f, m)
    requires m in d.place ==> Dispatch.MessageLocated(d, m)
    ensures var t := Dispatch.Next(d, f).value;
            && |t.workers| == |d.workers| && (m in d.posted ==> m in t.posted && t.posted[m] == d.posted[m])
            && (Past(t, m) <==> Past(d, m))
            && (Past(d, m) ==> t.place[m] == d.place[m])
            && (Past(d, m) && d.place[m].Cleared? ==>
                  d.place[m].w < |d.workers| && t.workers[d.place[m].w] == d.workers[d.place[m].w])
  {
    match f
    case Post(_, _) =>
    case Take(_) =>
    case Clear(_) =>
    case Deliver(_, _) =>
    case Finish(_) =>
    case Delete(_) =>
    case SendRetain(_, _, _) =>
  }

  /** Steps of the workers other than reading keep what is known of a message they do not start or finish. */
  lemma WorkerStepKeeps(s: State, f: Dispatch.Event, m: ObjectId)
    requires Inv(s) && Dispatch.Next(s.d, f).Some? && !f.Deliver?
    requires Moves(s.d, f, m) ==> !f.Finish?
    ensures MessageOk(s.(d := Dispatch.Next(s.d, f).value), m)
  {
    assert MessageOk(s, m);
    if Moves(s.d, f, m) {
      MovedOn(s.d, f, m);
    } else {
      Dispatch.Handled(s.d, f);
      NotMovedOn(s.d, f, m);
    }
    Dispatch.DeliveredSteps(s.d, f, m);
  }

  lemma FinishKeeps(s: State, w: nat, m: ObjectId)
    requires Inv(s) && Next(s, FinishFanOut(w)).Some?
    ensures MessageOk(Next(s, FinishFanOut(w)).value, m)
  {
    if s.d.workers[w].m == m {
      assert MessageOk(s, m);
      MovedOn(s.d, Dispatch.Finish(w), m);
      Dispatch.DeliveredSteps(s.d, Dispatch.Finish(w), m);
    } else {
      WorkerStepKeeps(s, Dispatch.Finish(w), m);
    }
  }

  lemma CallKeeps(s: State, call: Call<nat>, m: ObjectId)
    requires Ok(s.index) && Possible(s.index, call) && MessageOk(s, m)
    ensures MessageOk(Called(s, call), m)
  {
    if m in s.records {
      TouchKeeps(s.index, call, s.records[m]);
    }
  }

  lemma ReadReflects(d: Dispatch.State, d': Dispatch.State, m: ObjectId, ix: Index<nat>, r: Record)
    requires Reflects(d, m, r) && d.place[m].Cleared?
    requires var cell := Now(ix, r, |r.read|);
             d' == d.(submitted := d.submitted + (if cell == Nil then [] else [Dispatch.FanOut(cell.c, m)]))
    ensures Reflects(d', m, ReadNext(ix, r))
  {
    var cell := Now(ix, r, |r.read|);
    LiveAppend(r.read, [cell]);
    if cell.Ref? {
      Dispatch.DeliveredSnoc(d.submitted, Dispatch.FanOut(cell.c, m), m);
    } else {
      assert d'.submitted == d.submitted;
    }
  }

  lemma ReadRecordKeeps(s: State, w: nat)
    requires Inv(s) && Next(s, ReadCell(w)).Some?
    ensures MessageOk(Next(s, ReadCell(w)).value, s.d.workers[w].m)
  {
    var m, r := s.d.workers[w].m, Of(s, w);
    var t := Next(s, ReadCell(w)).value;
    assert MessageOk(s, m) && Dispatch.WorkerLocated(s.d, w);
    ReadKeeps(s.index, r);
    ReadReflects(s.d, t.d, m, s.index, r);
    assert t.records[m] == ReadNext(s.index, r);
  }

  lemma ReadStepKeeps(s: State, w: nat, m: ObjectId)
    requires Inv(s) && Next(s, ReadCell(w)).Some?
    ensures MessageOk(Next(s, ReadCell(w)).value, m)
  {
    assert MessageOk(s, m);
    if m == s.d.workers[w].m {
      ReadRecordKeeps(s, w);
    } else {
      var cell := Now(s.index, Of(s, w), |Of(s, w).read|);
      if cell.Ref? {
        Dispatch.DeliveredSnoc(s.d.submitted, Dispatch.FanOut(cell.c, s.d.workers[w].m), m);
      }
    }
  }

  lemma FreshReflects(d: Dispatch.State, m: ObjectId, w: nat, ix: Index<nat>, topic: string, a: nat)
    requires Ok(ix) && m in d.posted && d.posted[m].topic == topic && Dispatch.Delivered(d.submitted, m) == []
    requires m in d.place && d.place[m] == Dispatch.Cleared(w) && w < |d.workers| && d.workers[w].Fanning?
    ensures Reflects(d, m, Fresh(ix, topic, a))
  {
    ListedAreReceivers(ix, topic);
  }

  lemma StartRecordKeeps(s: State, w: nat, a: nat, spare: nat)
    requires Inv(s) && Next(s, LookUp(w, a, spare)).Some?
    ensures MessageOk(Next(s, LookUp(w, a, spare)).value, s.d.workers[w].m)
  {
    var m, topic := s.d.workers[w].m, s.d.heap[s.d.workers[w].m].topic;
    assert MessageOk(s, m) && Dispatch.WorkerLocated(s.d, w);
    assert Dispatch.ObjectOk(s.d, m);
    LookupRecord(s.index, topic, a, spare);
    FreshReflects(s.d, m, w, s.index, topic, a);
  }

  lemma StartKeeps(s: State, w: nat, a: nat, spare: nat, m: ObjectId)
    requires Inv(s) && Next(s, LookUp(w, a, spare)).Some?
    ensures MessageOk(Next(s, LookUp(w, a, spare)).value, m)
  {
    if m == s.d.workers[w].m {
      StartRecordKeeps(s, w, a, spare);
    } else {
      assert MessageOk(s, m);
      CallKeeps(s, LookUpCall(s, w, a, spare), m);
    }
  }

  /** A step leaves the index alone or is one call of it. */
  lemma IndexStep(s: State, e: Event) returns (call: Option<Call<nat>>)
    requires Next(s, e).Some?
    ensures match call
            case None => Next(s, e).value.index == s.index
            case Some(call) => Possible(s.index, call) && Next(s, e).value.index == Apply(s.index, call)
  {
    call := None;
    match e
    case LookUp(w, a, spare) => call := Some(LookUpCall(s, w, a, spare));
    case ClientCall(c) => call := Some(c);
    case _ =>
  }

  lemma IndexKept(s: State, e: Event)
    requires Ok(s.index) && Next(s, e).Some?
    ensures Ok(Next(s, e).value.index)
  {
    var call := IndexStep(s, e);
    if call.Some? {
      ApplyIsOp(s.index, call.value);
    }
  }

  lemma InvKept(s: State, e: Event)
    requires Inv(s) && Next(s, e).Some?
    ensures Inv(Next(s, e).value)
  {
    var f := StepProjects(s, e);
    if f.Some? {
      Dispatch.InvKept(s.d, f.value);
    }
    IndexKept(s, e);
    forall m ensures MessageOk(Next(s, e).value, m) {
      match e
      case Other(g) => WorkerStepKeeps(s, g, m);
      case LookUp(w, a, spare) => StartKeeps(s, w, a, spare, m);
      case ReadCell(w) => ReadStepKeeps(s, w, m);
      case FinishFanOut(w) => FinishKeeps(s, w, m);
      case ClientCall(call) =>
        assert MessageOk(s, m);
        CallKeeps(s, call, m);
    }
  }

  // ----- over whole runs -----

  lemma ReachableInv(n: nat, events: seq<Event>)
    ensures var r := Run(Next, Init(n), events); r.Some? ==> Inv(r.value)
  {
    Dispatch.InitInv(n);
    EmptyOk<nat>();
    assert forall m :: MessageOk(Init(n), m);
    forall s, e | Inv(s) && Next(s, e).Some? ensures Inv(Next(s, e).value) {
      InvKept(s, e);
    }
    Invariant(Next, Init(n), events, (s: State) => Inv(s));
  }

  lemma ReachableMessage(n: nat, events: seq<Event>, m: ObjectId)
    requires Run(Next, Init(n), events).Some?
    ensures MessageOk(Run(Next, Init(n), events).value, m)
  {
    ReachableInv(n, events);
  }

  /** Every run is, for the workers alone, one of their runs, so what holds in all of those holds here. */
  lemma {:induction false} RunProjects(n: nat, events: seq<Event>) returns (worker: seq<Dispatch.Event>)
    requires Run(Next, Init(n), events).Some?
    ensures Run(Dispatch.Next, Dispatch.Init(n), worker) == Some(Run(Next, Init(n), events).value.d)
  {
    if events == [] {
      worker := [];
    } else {
      var init := events[..|events| - 1];
      var before := RunProjects(n, init);
      var f := StepProjects(Run(Next, Init(n), init).value, events[|events| - 1]);
      worker := before;
      if f.Some? {
        worker := before + [f.value];
        assert worker[..|worker| - 1] == before;
      }
    }
  }

  /**
   In every interleaving a finished post that is no deletion was submitted to exactly the receivers at its
   lookup if and only if none of its cells was read while the last call to change it had left it different.
   A deletion was submitted to nobody.
   */
  lemma FinishedFanOut(n: nat, events: seq<Event>, m: ObjectId)
    requires Run(Next, Init(n), events).Some?
    requires var s := Run(Next, Init(n), events).value; m in s.d.place && s.d.place[m] == Dispatch.Done
    ensures var s := Run(Next, Init(n), events).value;
            && m in s.d.posted
            && (m !in s.records ==>
                  s.d.posted[m].retain && s.d.posted[m].payload == "" && Dispatch.Delivered(s.d.submitted, m) == [])
            && (m in s.records ==>
                  (Dispatch.Delivered(s.d.submitted, m) == Receivers(s.records[m].flat, s.d.posted[m].topic)
                   <==> s.records[m].stale == {}))
  {
    ReachableMessage(n, events, m);
    var s := Run(Next, Init(n), events).value;
    if m in s.records {
      ReadDecides(s.index, s.records[m]);
    }
  }

  // ----- a run that fails to reach a receiver -----

  lemma CallIsAStep(s: State, call: Call<nat>)
    requires s.records == map[] && Possible(s.index, call) && call.op.OpAdd?
    ensures Next(s, ClientCall(call)) == Some(s.(index := Apply(s.index, call)))
  {
    assert Called(s, call).records == map[];
  }

  lemma {:induction false} CallsAreARun(s: State, calls: seq<Call<nat>>) returns (events: seq<Event>)
    requires s.records == map[] && Run(SharedIndex.Step<nat>, s.index, calls).Some?
    requires forall call :: call in calls ==> call.op.OpAdd?
    ensures Run(Next, s, events) == Some(s.(index := Run(SharedIndex.Step<nat>, s.index, calls).value))
  {
    if calls == [] {
      events := [];
    } else {
      var last := calls[|calls| - 1];
      var before := CallsAreARun(s, calls[..|calls| - 1]);
      events := before + [ClientCall(last)];
      assert events[..|events| - 1] == before;
      CallIsAStep(Run(Next, s, before).value, last);
    }
  }

  /** The first worker takes a post and clears it. */
  lemma TakesPost(s: State, msg: Publish) returns (events: seq<Event>, t: State)
    requires s.d == Dispatch.Init(1) && !IsDeletion(msg)
    ensures Run(Next, s, events) == Some(t)
    ensures t == s.(d := t.d) && t.d.workers == [Dispatch.Fanning(0, msg.retain)] && t.d.submitted == []
    ensures 0 in t.d.heap && t.d.heap[0].topic == msg.topic && 0 in t.d.posted && t.d.posted[0] == msg
  {
    events := [Other(Dispatch.Post(0, msg)), Other(Dispatch.Take(0)), Other(Dispatch.Clear(0))];
    var u := Next(s, events[0]).value;
    var v := Next(u, events[1]).value;
    assert v.d.workers == [Dispatch.Took(0)];
    t := Next(v, events[2]).value;
    TraceIsRun(Next, [s, u, v, t], events);
  }

  /** The worker has looked up the crowd of the topic, and nothing has been read yet. */
  ghost predicate LookedUp(s: State, ix: Index<nat>, msg: Publish, e: seq<Conn>, c1: Conn, c2: Conn) {
    && s.d.workers == [Dispatch.Fanning(0, msg.retain)] && 0 in s.d.heap && s.d.submitted == []
    && 0 in s.d.posted && s.d.posted[0] == msg
    && s.index == Lookup(ix, msg.topic, 4, 0)
    && s.records == map[0 := Record(ix.flat, Slice(3, 7), Refs(e + [c1, c2]), [], {}, {})]
  }

  lemma CrowdIsLookedUp(msg: Publish, filter: string, e: seq<Conn>, c1: Conn, c2: Conn)
    returns (events: seq<Event>, ix: Index<nat>, s: State)
    requires !IsDeletion(msg) && Selecting(msg.topic, filter) && |e| == 5
    ensures Run(Next, Init(1), events) == Some(s)
    ensures IsCrowd(ix, msg.topic, filter, e, c1, c2) && LookedUp(s, ix, msg, e, c1, c2)
  {
    ix := CrowdIsReachable(msg.topic, filter, e, c1, c2);
    var before := CallsAreARun(Init(1), CrowdCalls(msg.topic, filter, e, c1, c2));
    var s0 := Init(1).(index := ix);
    var more, u := TakesPost(s0, msg);
    RunsCompose(Next, Init(1), before, s0, more, u);
    CrowdIsListed(ix, msg.topic, filter, e, c1, c2);
    s := Next(u, LookUp(0, 4, 0)).value;
    RunOne(Next, u, LookUp(0, 4, 0), s);
    RunsCompose(Next, Init(1), before + more, u, [LookUp(0, 4, 0)], s);
    events := before + more + [LookUp(0, 4, 0)];
  }

  lemma ReadsCell(s: State, c: Conn) returns (t: State)
    requires s.d.workers != [] && s.d.workers[0].Fanning? && s.d.workers[0].m == 0 && 0 in s.records
    requires var r := s.records[0];
             |r.read| < |r.selected| && Now(s.index, r, |r.read|) == Ref(c)
    ensures Next(s, ReadCell(0)) == Some(t) && t.index == s.index && t.d == s.d.(submitted := t.d.submitted)
    ensures 0 in t.records && t.records == s.records[0 := t.records[0]]
    ensures var r, r' := s.records[0], t.records[0];
            r'.read == r.read + [Ref(c)] && r'.flat == r.flat && r'.list == r.list && r'.selected == r.selected
  {
    t := Next(s, ReadCell(0)).value;
  }

  /** The worker reads the rest of a list of live cells. */
  lemma {:induction false} ReadsTheRest(s: State, cs: seq<Conn>, k: nat) returns (events: seq<Event>, t: State)
    requires s.d.workers != [] && s.d.workers[0].Fanning? && s.d.workers[0].m == 0 && 0 in s.records
    requires var r := s.records[0];
             && k <= |cs| == |r.selected| && r.read == Refs(cs[..k])
             && |cs| <= |Cells(s.index, r.list.arr)| && Cells(s.index, r.list.arr)[..|cs|] == Refs(cs)
    ensures Run(Next, s, events) == Some(t) && t.d == s.d.(submitted := t.d.submitted)
    ensures 0 in t.records && t.records == s.records[0 := t.records[0]]
    ensures t.records[0].read == Refs(cs) && t.records[0].flat == s.records[0].flat
    ensures t.records[0].selected == s.records[0].selected
    decreases |cs| - k
  {
    if k == |cs| {
      assert cs[..k] == cs;
      events, t := [], s;
    } else {
      assert Cells(s.index, s.records[0].list.arr)[..|cs|][k] == Ref(cs[k]);
      var u := ReadsCell(s, cs[k]);
      assert Refs(cs[..k + 1]) == Refs(cs[..k]) + [Ref(cs[k])];
      var more, v := ReadsTheRest(u, cs, k + 1);
      RunOne(Next, s, ReadCell(0), u);
      RunsCompose(Next, s, [ReadCell(0)], u, more, v);
      events, t := [ReadCell(0)] + more, v;
    }
  }

  lemma NewcomerSubscribes(s: State, ix: Index<nat>, msg: Publish, filter: string, e: seq<Conn>, c1: Conn, c2: Conn, c: Conn)
    returns (t: State)
    requires Selecting(msg.topic, filter) && IsCrowd(ix, msg.topic, filter, e, c1, c2) && LookedUp(s, ix, msg, e, c1, c2)
    ensures Next(s, ClientCall(Call(OpAdd(msg.topic, c), 4, 0))) == Some(t) && t.d == s.d && t.records.Keys == {0}
    ensures 3 in t.index.arrays && t.index.arrays[3] == Refs(e + [c, c2]) + [Nil]
    ensures t.records[0] == s.records[0].(dirty := t.records[0].dirty)
  {
    NewcomerOverwrites(ix, msg.topic, filter, e, c1, c2, c);
    t := Next(s, ClientCall(Call(OpAdd(msg.topic, c), 4, 0))).value;
  }

  lemma Finishes(s: State) returns (t: State)
    requires s.d.workers != [] && s.d.workers[0].Fanning? && s.d.workers[0].m == 0 && 0 in s.records && 0 in s.d.heap
    requires |s.records[0].read| == |s.records[0].selected|
    ensures Next(s, FinishFanOut(0)) == Some(t) && t.records == s.records
    ensures 0 in t.d.place && t.d.place[0] == Dispatch.Done && t.d.posted == s.d.posted
  {
    t := Next(s, FinishFanOut(0)).value;
  }

  lemma ReadsOverwritten(s: State, ix: Index<nat>, msg: Publish, filter: string, e: seq<Conn>, c1: Conn, c2: Conn, c: Conn)
    returns (events: seq<Event>, t: State)
    requires Selecting(msg.topic, filter) && IsCrowd(ix, msg.topic, filter, e, c1, c2) && LookedUp(s, ix, msg, e, c1, c2)
    ensures Run(Next, s, events) == Some(t)
    ensures 0 in t.d.place && t.d.place[0] == Dispatch.Done && t.d.posted == s.d.posted && 0 in t.records
    ensures t.records[0].flat == ix.flat && t.records[0].selected == Refs(e + [c1, c2])
    ensures t.records[0].read == Refs(e + [c, c2])
  {
    var call := ClientCall(Call(OpAdd(msg.topic, c), 4, 0));
    var s1 := NewcomerSubscribes(s, ix, msg, filter, e, c1, c2, c);
    assert s1.index.arrays[3][..7] == Refs(e + [c, c2]);
    var more, s2 := ReadsTheRest(s1, e + [c, c2], 0);
    t := Finishes(s2);
    RunOne(Next, s, call, s1);
    RunOne(Next, s2, FinishFanOut(0), t);
    RunsCompose(Next, s, [call], s1, more, s2);
    RunsCompose(Next, s, [call] + more, s2, [FinishFanOut(0)], t);
    events := [call] + more + [FinishFanOut(0)];
  }

  /**
   While a worker is reading, another connection subscribes to the topic: the post goes to the newcomer
   and not to the wildcard subscriber whose cell it takes.
   */
  lemma NewcomerTakesTheCell(msg: Publish, filter: string, e: seq<Conn>, c1: Conn, c2: Conn, c: Conn)
    returns (events: seq<Event>)
    requires !IsDeletion(msg) && Selecting(msg.topic, filter) && |e| == 5
    ensures Run(Next, Init(1), events).Some?
    ensures var s := Run(Next, Init(1), events).value;
            && 0 in s.d.place && s.d.place[0] == Dispatch.Done && 0 in s.records
            && Receivers(s.records[0].flat, msg.topic) == e + [c1, c2]
            && Dispatch.Delivered(s.d.submitted, 0) == e + [c, c2]
  {
    var before, ix, s := CrowdIsLookedUp(msg, filter, e, c1, c2);
    var after, t := ReadsOverwritten(s, ix, msg, filter, e, c1, c2, c);
    RunsCompose(Next, Init(1), before, s, after, t);
    events := before + after;
    ReachableMessage(1, events, 0);
    LiveRefs(e + [c, c2]);
    LiveRefs(e + [c1, c2]);
  }
}
