/**
 The subscription index with its memory laid open: exact topics map to slices, which are
 lengths over arrays named by `A`, and wildcard filters are in a scanned list. As in Go,
 an append writes into spare capacity while there is any, also where another holder of the
 same array reads. `flat` is the flat list the index stands for.
 */
module SharedIndex {
  import opened Topics
  import opened Wildcards
  import opened Lists
  import opened FlatIndex
  import opened Runs

  datatype Cell = Nil | Ref(c: Conn)

  datatype Slice<A> = Slice(arr: A, len: nat)

  datatype Index<A(==)> = Index(
    arrays: map<A, seq<Cell>>,
    subs: map<string, Slice<A>>,
    wildcards: seq<Wild>,
    flat: Flat
  )

  // ----- cells -----

  /** The connections of a list, tombstones skipped. */
  function Live(cells: seq<Cell>): seq<Conn> {
    if cells == [] then []
    else (if cells[0].Ref? then [cells[0].c] else []) + Live(cells[1..])
  }

  function Refs(cs: seq<Conn>): seq<Cell> {
    seq(|cs|, i requires 0 <= i < |cs| => Ref(cs[i]))
  }

  function Nils(n: nat): seq<Cell> {
    seq(n, _ => Nil)
  }

  function Struck(cell: Cell, c: Conn): Cell {
    if cell == Ref(c) then Nil else cell
  }

  /** Appends from a position on, as far as the array reaches. */
  function Overlay(cells: seq<Cell>, from: nat, cs: seq<Conn>): seq<Cell> {
    seq(|cells|, i requires 0 <= i < |cells| => if from <= i < from + |cs| then Ref(cs[i - from]) else cells[i])
  }

  /** The first `len` cells without a connection. */
  function StrikeFirst(cells: seq<Cell>, len: nat, c: Conn): seq<Cell> {
    seq(|cells|, i requires 0 <= i < |cells| => if i < len then Struck(cells[i], c) else cells[i])
  }

  lemma {:induction false} LiveAppend(a: seq<Cell>, b: seq<Cell>)
    ensures Live(a + b) == Live(a) + Live(b)
  {
    if a == [] {
      assert a + b == b;
    } else {
      assert (a + b)[1..] == a[1..] + b;
      LiveAppend(a[1..], b);
      var here := if a[0].Ref? then [a[0].c] else [];
      assert here + (Live(a[1..]) + Live(b)) == here + Live(a[1..]) + Live(b);
    }
  }

  lemma {:induction false} LiveRefs(cs: seq<Conn>)
    ensures Live(Refs(cs)) == cs
  {
    if cs != [] {
      assert Refs(cs)[1..] == Refs(cs[1..]);
      LiveRefs(cs[1..]);
    }
  }

  /** Striking out a connection leaves the others in order. */
  lemma {:induction false} LiveStruck(before: seq<Cell>, after: seq<Cell>, c: Conn)
    requires |before| == |after|
    requires forall i :: 0 <= i < |before| ==> after[i] == Struck(before[i], c)
    ensures Live(after) == Keep(Live(before), Other(c))
  {
    if before != [] {
      LiveStruck(before[1..], after[1..], c);
      assert after[0] == Struck(before[0], c);
      KeepAppend(if before[0].Ref? then [before[0].c] else [], Live(before[1..]), Other(c));
    }
  }

  lemma {:induction false} LiveOfNils(cells: seq<Cell>)
    requires forall i :: 0 <= i < |cells| ==> cells[i] == Nil
    ensures Live(cells) == []
  {
    if cells != [] {
      LiveOfNils(cells[1..]);
    }
  }

  lemma {:induction false} LiveEmptyIff(cells: seq<Cell>)
    ensures Live(cells) == [] <==> forall i :: 0 <= i < |cells| ==> cells[i] == Nil
  {
    if cells != [] {
      LiveEmptyIff(cells[1..]);
      assert forall i :: 1 <= i < |cells| ==> cells[i] == cells[1..][i - 1];
      assert forall i :: 0 <= i < |cells| - 1 ==> cells[1..][i] == cells[i + 1];
    }
  }

  lemma LiveHead(cells: seq<Cell>)
    requires cells != []
    ensures cells[0] == Nil ==> Live(cells) == Live(cells[1..])
    ensures cells[0].Ref? ==> Live(cells) != [] && Live(cells)[0] == cells[0].c && Live(cells)[1..] == Live(cells[1..])
  {
  }

  /** If no tombstone comes to life, two lists show the same only if they are the same. */
  lemma {:induction false} LiveDecidesCells(before: seq<Cell>, after: seq<Cell>)
    requires |before| == |after|
    requires forall i :: 0 <= i < |before| && before[i] == Nil ==> after[i] == Nil
    ensures |Live(after)| <= |Live(before)|
    ensures Live(after) == Live(before) <==> after == before
  {
    if before != [] {
      LiveDecidesCells(before[1..], after[1..]);
      assert before == [before[0]] + before[1..] && after == [after[0]] + after[1..];
      LiveHead(before);
      LiveHead(after);
    }
  }

  // ----- what the index shows -----

  function Cells<A(==)>(ix: Index<A>, a: A): seq<Cell> {
    if a in ix.arrays then ix.arrays[a] else []
  }

  /** The list of a topic as the index sees it. */
  function View<A(==)>(ix: Index<A>, topic: string): seq<Cell> {
    if topic in ix.subs && ix.subs[topic].len <= |Cells(ix, ix.subs[topic].arr)|
    then Cells(ix, ix.subs[topic].arr)[..ix.subs[topic].len] else []
  }

  /** No wildcard keys, no slice beyond its array, and no two topics share an array. */
  ghost predicate Shape<A>(ix: Index<A>) {
    && (forall t :: t in ix.subs ==>
          !IsWildcard(t) && ix.subs[t].arr in ix.arrays && ix.subs[t].len <= |ix.arrays[ix.subs[t].arr]|)
    && (forall t, u :: t in ix.subs && u in ix.subs && t != u ==> ix.subs[t].arr != ix.subs[u].arr)
  }

  /** The lists of the index hold the exact subscriptions of the flat list, its filters the others. */
  ghost predicate Ok<A>(ix: Index<A>) {
    && Shape(ix)
    && ix.wildcards == WildList(ix.flat)
    && (forall w :: w in ix.wildcards ==> WellFormed(w.wild))
    && (forall t :: Live(View(ix, t)) == ExactConns(ix.flat, t))
  }

  function Empty<A(==)>(): Index<A> {
    Index(map[], map[], [], [])
  }

  lemma EmptyOk<A>()
    ensures Ok(Empty<A>())
  {
  }

  // ----- the four calls -----

  predicate HasRoom<A(==)>(ix: Index<A>, topic: string) {
    topic in ix.subs && ix.subs[topic].len < |Cells(ix, ix.subs[topic].arr)|
  }

  /** `add`; if the list has to grow, it moves to the array `a` with some spare capacity. */
  function Add<A(==)>(ix: Index<A>, topic: string, c: Conn, a: A, spare: nat): Index<A> {
    if IsWildcard(topic) then
      if WellFormed(Split(topic))
      then ix.(wildcards := ix.wildcards + [NewWild(topic, c)], flat := ix.flat + [Sub(topic, c)])
      else ix
    else AddExact(ix, topic, c, a, spare)
  }

  function AddExact<A(==)>(ix: Index<A>, topic: string, c: Conn, a: A, spare: nat): Index<A> {
    var grown := ix.(flat := ix.flat + [Sub(topic, c)]);
    if HasRoom(ix, topic) then
      var s := ix.subs[topic];
      grown.(arrays := ix.arrays[s.arr := Overlay(Cells(ix, s.arr), s.len, [c])],
             subs := ix.subs[topic := Slice(s.arr, s.len + 1)])
    else
      grown.(arrays := ix.arrays[a := View(ix, topic) + [Ref(c)] + Nils(spare)],
             subs := ix.subs[topic := Slice(a, |View(ix, topic)| + 1)])
  }

  predicate AllNil(cells: seq<Cell>) {
    forall i :: 0 <= i < |cells| ==> cells[i] == Nil
  }

  /** `unsub`: the list loses the connection, and goes when nothing but nils is left of it. */
  function Unsub<A(==)>(ix: Index<A>, topic: string, c: Conn): Index<A> {
    var less := ix.(flat := FlatIndex.Unsub(ix.flat, topic, c));
    if topic !in ix.subs then less
    else
      var s := ix.subs[topic];
      var struck := less.(arrays := ix.arrays[s.arr := StrikeFirst(Cells(ix, s.arr), s.len, c)]);
      if AllNil(View(struck, topic)) then struck.(subs := ix.subs - {topic}) else struck
  }

  /** The cell belongs to the list of some topic. */
  predicate Visible<A(==)>(ix: Index<A>, a: A, k: nat) {
    exists t :: t in ix.subs && ix.subs[t].arr == a && k < ix.subs[t].len
  }

  function StrikeVisible<A(==)>(ix: Index<A>, a: A, c: Conn): seq<Cell> {
    var cells := Cells(ix, a);
    seq(|cells|, k requires 0 <= k < |cells| => if Visible(ix, a, k) then Struck(cells[k], c) else cells[k])
  }

  /** `unsubAll`: every list and the filters lose the connection; no list goes. */
  function UnsubAll<A(==)>(ix: Index<A>, c: Conn): Index<A> {
    ix.(arrays := map a | a in ix.arrays :: StrikeVisible(ix, a, c),
        wildcards := Keep(ix.wildcards, OtherWild(c)),
        flat := FlatIndex.UnsubAll(ix.flat, c))
  }

  /** The connections of the filters that match a topic. */
  function HitsOf<A(==)>(ix: Index<A>, topic: string): seq<Conn> {
    MatchedConns(ix.wildcards, Split(topic))
  }

  /** What `subscribers` lists: the exact list, then the wildcard hits. */
  function Listed<A(==)>(ix: Index<A>, topic: string): seq<Cell> {
    View(ix, topic) + Refs(HitsOf(ix, topic))
  }

  /** The list stays in the array of the topic when the spare capacity holds all hits. */
  predicate Fits<A(==)>(ix: Index<A>, topic: string) {
    topic in ix.subs && ix.subs[topic].len + |HitsOf(ix, topic)| <= |Cells(ix, ix.subs[topic].arr)|
  }

  /** The memory after `subscribers`: hits are written into spare capacity even if they do not all fit. */
  function Lookup<A(==)>(ix: Index<A>, topic: string, a: A, spare: nat): Index<A> {
    var filled :=
      if topic in ix.subs then
        var s := ix.subs[topic];
        ix.(arrays := ix.arrays[s.arr := Overlay(Cells(ix, s.arr), s.len, HitsOf(ix, topic))])
      else ix;
    if Fits(ix, topic) then filled
    else filled.(arrays := filled.arrays[a := Listed(ix, topic) + Nils(spare)])
  }

  /** The list `subscribers` returns. */
  function ListOf<A(==)>(ix: Index<A>, topic: string, a: A): Slice<A> {
    Slice(if Fits(ix, topic) then ix.subs[topic].arr else a, |Listed(ix, topic)|)
  }

  // ----- they stand for the calls on the flat list -----

  lemma AddViews<A>(ix: Index<A>, topic: string, c: Conn, a: A, spare: nat, t: string)
    requires Shape(ix) && !IsWildcard(topic) && (HasRoom(ix, topic) || a !in ix.arrays)
    ensures View(AddExact(ix, topic, c, a, spare), t)
         == if t == topic then View(ix, topic) + [Ref(c)] else View(ix, t)
  {
    var after := AddExact(ix, topic, c, a, spare);
    if t == topic {
      assert View(after, topic) == View(ix, topic) + [Ref(c)];
    } else if t in ix.subs {
      assert Cells(after, ix.subs[t].arr) == Cells(ix, ix.subs[t].arr);
    }
  }

  lemma AddShape<A>(ix: Index<A>, topic: string, c: Conn, a: A, spare: nat)
    requires Shape(ix) && (HasRoom(ix, topic) || a !in ix.arrays) && !IsWildcard(topic)
    ensures Shape(AddExact(ix, topic, c, a, spare))
  {
  }

  lemma AddExactOk<A>(ix: Index<A>, topic: string, c: Conn, a: A, spare: nat)
    requires Ok(ix) && (HasRoom(ix, topic) || a !in ix.arrays) && !IsWildcard(topic)
    ensures Ok(AddExact(ix, topic, c, a, spare))
  {
    AddShape(ix, topic, c, a, spare);
    var after := AddExact(ix, topic, c, a, spare);
    AddWildList(ix.flat, Sub(topic, c));
    forall t ensures Live(View(after, t)) == ExactConns(after.flat, t) {
      AddViews(ix, topic, c, a, spare, t);
      LiveAppend(View(ix, topic), [Ref(c)]);
      AddExactConns(ix.flat, Sub(topic, c), t, Live(View(ix, t)), Live(View(after, t)));
    }
  }

  lemma AddWildOk<A>(ix: Index<A>, topic: string, c: Conn, a: A, spare: nat)
    requires Ok(ix) && IsWildcard(topic)
    ensures Ok(Add(ix, topic, c, a, spare))
  {
    var after := Add(ix, topic, c, a, spare);
    if WellFormed(Split(topic)) {
      AddWildList(ix.flat, Sub(topic, c));
      forall t ensures Live(View(after, t)) == ExactConns(after.flat, t) {
        assert View(after, t) == View(ix, t);
        AddExactConns(ix.flat, Sub(topic, c), t, Live(View(ix, t)), Live(View(after, t)));
      }
    }
  }

  lemma AddOk<A>(ix: Index<A>, topic: string, c: Conn, a: A, spare: nat)
    requires Ok(ix) && (IsWildcard(topic) || HasRoom(ix, topic) || a !in ix.arrays)
    ensures Ok(Add(ix, topic, c, a, spare)) && Add(ix, topic, c, a, spare).flat == AddSub(ix.flat, topic, c)
  {
    if IsWildcard(topic) {
      AddWildOk(ix, topic, c, a, spare);
    } else {
      AddExactOk(ix, topic, c, a, spare);
    }
  }

  /**
   Where a subscription goes: a topic with neither '#' nor '+' to the end of its own list; any other filter,
   if each of its levels is in order, to the end of the scanned list; and the rest nowhere.
   */
  lemma AddGoesTo<A>(ix: Index<A>, topic: string, c: Conn, a: A, spare: nat, t: string)
    requires Shape(ix) && (IsWildcard(topic) || HasRoom(ix, topic) || a !in ix.arrays)
    ensures var after, exact := Add(ix, topic, c, a, spare), '#' !in topic && '+' !in topic;
            && View(after, t) == (if exact && t == topic then View(ix, t) + [Ref(c)] else View(ix, t))
            && after.wildcards == (if !exact && ValidByCharacters(Split(topic)) then ix.wildcards + [Wild(Split(topic), c)]
                                   else ix.wildcards)
  {
    AcceptedByCharacters(topic);
    if !IsWildcard(topic) {
      AddViews(ix, topic, c, a, spare, t);
    }
  }

  lemma UnsubViews<A>(ix: Index<A>, topic: string, c: Conn, t: string)
    requires Shape(ix)
    ensures Live(View(Unsub(ix, topic, c), t))
         == if t == topic then Keep(Live(View(ix, t)), Other(c)) else Live(View(ix, t))
  {
    var after := Unsub(ix, topic, c);
    if topic in ix.subs {
      var s := ix.subs[topic];
      var struck := StrikeFirst(Cells(ix, s.arr), s.len, c)[..s.len];
      if t == topic {
        LiveStruck(View(ix, topic), struck, c);
        assert View(after, topic) == if topic in after.subs then struck else [];
        if topic !in after.subs {
          assert AllNil(struck);
          LiveOfNils(struck);
        }
      } else if t in ix.subs {
        assert Cells(after, ix.subs[t].arr) == Cells(ix, ix.subs[t].arr);
      }
    }
  }

  lemma UnsubOk<A>(ix: Index<A>, topic: string, c: Conn)
    requires Ok(ix)
    ensures Ok(Unsub(ix, topic, c)) && Unsub(ix, topic, c).flat == FlatIndex.Unsub(ix.flat, topic, c)
  {
    var after := Unsub(ix, topic, c);
    UnsubWildList(ix.flat, topic, c);
    forall t ensures Live(View(after, t)) == ExactConns(after.flat, t) {
      UnsubViews(ix, topic, c, t);
      UnsubExactConns(ix.flat, topic, c, t, Live(View(ix, t)), Live(View(after, t)));
    }
  }

  lemma UnsubAllViews<A>(ix: Index<A>, c: Conn, t: string)
    requires Shape(ix)
    ensures Live(View(UnsubAll(ix, c), t)) == Keep(Live(View(ix, t)), Other(c))
  {
    var after := UnsubAll(ix, c);
    if t in ix.subs {
      var s := ix.subs[t];
      assert forall k :: 0 <= k < s.len ==> Visible(ix, s.arr, k);
      assert forall k :: 0 <= k < s.len ==> View(after, t)[k] == Struck(View(ix, t)[k], c);
      LiveStruck(View(ix, t), View(after, t), c);
    }
  }

  lemma UnsubAllOk<A>(ix: Index<A>, c: Conn)
    requires Ok(ix)
    ensures Ok(UnsubAll(ix, c)) && UnsubAll(ix, c).flat == FlatIndex.UnsubAll(ix.flat, c)
  {
    var after := UnsubAll(ix, c);
    UnsubAllWildList(ix.flat, c);
    KeepMembers(ix.wildcards, OtherWild(c));
    forall t ensures Live(View(after, t)) == ExactConns(after.flat, t) {
      UnsubAllViews(ix, c, t);
      UnsubAllExactConns(ix.flat, c, t, Live(View(ix, t)), Live(View(after, t)));
    }
  }

  /** `unsub` drops the list of its topic exactly when nothing but nils is left of it; `unsubAll` drops none. */
  lemma EmptyListGoes<A>(ix: Index<A>, topic: string, c: Conn, t: string)
    requires Shape(ix)
    ensures t in Unsub(ix, topic, c).subs <==> t in ix.subs && (t == topic ==> Keep(Live(View(ix, topic)), Other(c)) != [])
    ensures t in Unsub(ix, topic, c).subs ==> Unsub(ix, topic, c).subs[t] == ix.subs[t]
    ensures UnsubAll(ix, c).subs == ix.subs
  {
    if topic in ix.subs {
      var s := ix.subs[topic];
      var struck := StrikeFirst(Cells(ix, s.arr), s.len, c)[..s.len];
      LiveStruck(View(ix, topic), struck, c);
      LiveEmptyIff(struck);
    }
  }

  /** A lookup changes no list of the index, although it writes into their arrays. */
  lemma LookupViews<A>(ix: Index<A>, topic: string, a: A, spare: nat, t: string)
    requires Shape(ix) && (Fits(ix, topic) || a !in ix.arrays)
    ensures View(Lookup(ix, topic, a, spare), t) == View(ix, t)
  {
    var after := Lookup(ix, topic, a, spare);
    if t in ix.subs {
      var s := ix.subs[t];
      assert |Cells(after, s.arr)| == |Cells(ix, s.arr)|;
      assert forall k :: 0 <= k < s.len ==> Cells(after, s.arr)[k] == Cells(ix, s.arr)[k];
    }
  }

  /** What it returns is the list of receivers. */
  lemma LookupLists<A>(ix: Index<A>, topic: string, a: A, spare: nat)
    requires Shape(ix) && (Fits(ix, topic) || a !in ix.arrays)
    ensures var after, list := Lookup(ix, topic, a, spare), ListOf(ix, topic, a);
            && list.arr in after.arrays && list.len <= |after.arrays[list.arr]|
            && after.arrays[list.arr][..list.len] == Listed(ix, topic)
  {
    var after, list := Lookup(ix, topic, a, spare), ListOf(ix, topic, a);
    if Fits(ix, topic) {
      assert after.arrays[list.arr][..list.len] == Listed(ix, topic);
    }
  }

  lemma ListedAreReceivers<A>(ix: Index<A>, topic: string)
    requires Ok(ix)
    ensures Live(Listed(ix, topic)) == Receivers(ix.flat, topic)
  {
    LiveAppend(View(ix, topic), Refs(HitsOf(ix, topic)));
    LiveRefs(HitsOf(ix, topic));
    TwoTiersAreReceivers(ix.flat, topic);
  }

  lemma LookupOk<A>(ix: Index<A>, topic: string, a: A, spare: nat)
    requires Ok(ix) && (Fits(ix, topic) || a !in ix.arrays)
    ensures Ok(Lookup(ix, topic, a, spare)) && Lookup(ix, topic, a, spare).flat == ix.flat
  {
    forall t ensures View(Lookup(ix, topic, a, spare), t) == View(ix, t) {
      LookupViews(ix, topic, a, spare, t);
    }
  }

  // ----- any call -----

  /** A call of the index, with the array it takes if it needs a new one. */
  datatype Call<A> = Call(op: Op, a: A, spare: nat)

  /** The call has to move a list to a new array. */
  predicate NeedsArray<A(==)>(ix: Index<A>, op: Op) {
    match op
    case OpAdd(topic, _) => !IsWildcard(topic) && !HasRoom(ix, topic)
    case OpLookup(topic) => !Fits(ix, topic)
    case _ => false
  }

  predicate Possible<A(==)>(ix: Index<A>, call: Call<A>) {
    NeedsArray(ix, call.op) ==> call.a !in ix.arrays
  }

  function Apply<A(==)>(ix: Index<A>, call: Call<A>): Index<A> {
    match call.op
    case OpAdd(topic, c) => Add(ix, topic, c, call.a, call.spare)
    case OpUnsub(topic, c) => Unsub(ix, topic, c)
    case OpUnsubAll(c) => UnsubAll(ix, c)
    case OpLookup(topic) => Lookup(ix, topic, call.a, call.spare)
  }

  lemma ApplyIsOp<A>(ix: Index<A>, call: Call<A>)
    requires Ok(ix) && Possible(ix, call)
    ensures Ok(Apply(ix, call)) && Apply(ix, call).flat == ApplyOp(ix.flat, call.op)
  {
    match call.op
    case OpAdd(topic, c) => AddOk(ix, topic, c, call.a, call.spare);
    case OpUnsub(topic, c) => UnsubOk(ix, topic, c);
    case OpUnsubAll(c) => UnsubAllOk(ix, c);
    case OpLookup(topic) => LookupOk(ix, topic, call.a, call.spare);
  }

  // ----- lists that are still in use -----

  /** The cells of a list that was handed out. */
  function Held<A(==)>(ix: Index<A>, list: Slice<A>): seq<Cell>
    requires list.arr in ix.arrays && list.len <= |ix.arrays[list.arr]|
  {
    ix.arrays[list.arr][..list.len]
  }

  /** A list was handed out by a lookup: its tombstones are those of the topic's own list. */
  ghost predicate HeldOk<A>(ix: Index<A>, list: Slice<A>) {
    && list.arr in ix.arrays && list.len <= |ix.arrays[list.arr]|
    && (forall k, t :: 0 <= k < list.len && ix.arrays[list.arr][k] == Nil && t in ix.subs && ix.subs[t].arr == list.arr ==>
          k < ix.subs[t].len)
  }

  lemma LookupIsHeld<A>(ix: Index<A>, topic: string, a: A, spare: nat)
    requires Shape(ix) && (Fits(ix, topic) || a !in ix.arrays)
    ensures var after, list := Lookup(ix, topic, a, spare), ListOf(ix, topic, a);
            HeldOk(after, list) && Held(after, list) == Listed(ix, topic)
  {
    LookupLists(ix, topic, a, spare);
  }

  /**
   Which cell of a list in use a call changes: the one behind the topic's own list, which a new
   subscriber takes; one that holds a leaving subscriber, in a topic's own list; or one behind it,
   where another lookup puts another wildcard subscriber.
   */
  ghost predicate Changes<A>(ix: Index<A>, op: Op, list: Slice<A>, k: nat)
    requires list.arr in ix.arrays && k < |ix.arrays[list.arr]|
  {
    var cell := ix.arrays[list.arr][k];
    match op
    case OpAdd(topic, c) =>
      !IsWildcard(topic) && topic in ix.subs && ix.subs[topic] == Slice(list.arr, k) && cell != Ref(c)
    case OpUnsub(topic, c) =>
      topic in ix.subs && ix.subs[topic].arr == list.arr && k < ix.subs[topic].len && cell == Ref(c)
    case OpUnsubAll(c) => cell == Ref(c) && Visible(ix, list.arr, k)
    case OpLookup(topic) =>
      && topic in ix.subs && ix.subs[topic].arr == list.arr
      && ix.subs[topic].len <= k < ix.subs[topic].len + |HitsOf(ix, topic)|
      && cell != Ref(HitsOf(ix, topic)[k - ix.subs[topic].len])
  }

  lemma ChangedCell<A>(ix: Index<A>, call: Call<A>, list: Slice<A>, k: nat)
    requires Shape(ix) && Possible(ix, call)
    requires list.arr in ix.arrays && k < |ix.arrays[list.arr]|
    ensures var after := Apply(ix, call);
            && list.arr in after.arrays && |after.arrays[list.arr]| == |ix.arrays[list.arr]|
            && (after.arrays[list.arr][k] != ix.arrays[list.arr][k] <==> Changes(ix, call.op, list, k))
            && (after.arrays[list.arr][k] == Nil ==> ix.arrays[list.arr][k] == Nil || Visible(ix, list.arr, k))
  {
    match call.op
    case OpAdd(_, _) =>
    case OpUnsub(_, _) =>
    case OpUnsubAll(_) =>
    case OpLookup(_) =>
  }

  lemma HeldKept<A>(ix: Index<A>, call: Call<A>, list: Slice<A>)
    requires Shape(ix) && Possible(ix, call) && HeldOk(ix, list)
    ensures HeldOk(Apply(ix, call), list)
    ensures forall k :: 0 <= k < list.len && ix.arrays[list.arr][k] == Nil ==>
              Apply(ix, call).arrays[list.arr][k] == Nil
  {
    match call.op
    case OpAdd(_, _) =>
    case OpUnsub(_, _) =>
    case OpUnsubAll(_) =>
    case OpLookup(_) =>
  }

  /** A list in use goes on showing the same connections exactly if the next call changes none of its cells. */
  lemma HeldListStays<A>(ix: Index<A>, call: Call<A>, list: Slice<A>)
    requires Shape(ix) && Possible(ix, call) && HeldOk(ix, list)
    ensures HeldOk(Apply(ix, call), list)
    ensures Live(Held(Apply(ix, call), list)) == Live(Held(ix, list))
       <==> forall k :: 0 <= k < list.len ==> !Changes(ix, call.op, list, k)
  {
    var after := Apply(ix, call);
    HeldKept(ix, call, list);
    LiveDecidesCells(Held(ix, list), Held(after, list));
    forall k | 0 <= k < list.len
      ensures Held(after, list)[k] != Held(ix, list)[k] <==> Changes(ix, call.op, list, k)
    {
      ChangedCell(ix, call, list, k);
    }
  }

  /** What a call writes into a cell it changes. */
  function Written<A(==)>(ix: Index<A>, op: Op, k: nat): Cell {
    match op
    case OpAdd(_, c) => Ref(c)
    case OpUnsub(_, _) => Nil
    case OpUnsubAll(_) => Nil
    case OpLookup(topic) =>
      if topic in ix.subs && ix.subs[topic].len <= k < ix.subs[topic].len + |HitsOf(ix, topic)|
      then Ref(HitsOf(ix, topic)[k - ix.subs[topic].len]) else Nil
  }

  lemma ChangedTo<A>(ix: Index<A>, call: Call<A>, list: Slice<A>, k: nat)
    requires Shape(ix) && Possible(ix, call)
    requires list.arr in ix.arrays && k < |ix.arrays[list.arr]| && Changes(ix, call.op, list, k)
    ensures var after := Apply(ix, call);
            list.arr in after.arrays && k < |after.arrays[list.arr]| && after.arrays[list.arr][k] == Written(ix, call.op, k)
  {
    match call.op
    case OpAdd(_, _) =>
    case OpUnsub(_, _) =>
    case OpUnsubAll(_) =>
    case OpLookup(_) =>
  }

  /** Directly after the first, a second lookup of the topic changes no cell. */
  lemma SecondLookupAgrees<A>(ix: Index<A>, topic: string, a: A, spare: nat, k: nat)
    requires Shape(ix) && Possible(ix, Call(OpLookup(topic), a, spare))
    ensures var after, list := Lookup(ix, topic, a, spare), ListOf(ix, topic, a);
            list.arr in after.arrays && (k < list.len ==> k < |after.arrays[list.arr]| && !Changes(after, OpLookup(topic), list, k))
  {
    LookupLists(ix, topic, a, spare);
  }

  // ----- lists do change -----

  function Step<A(==)>(ix: Index<A>, call: Call<A>): Option<Index<A>> {
    if Possible(ix, call) then Some(Apply(ix, call)) else None
  }

  /** The spare capacity the Go runtime leaves when a short full list of length `n` grows by one: it doubles. */
  function Doubled(n: nat): nat {
    if n == 0 then 0 else n - 1
  }

  /** The topic is the only one with a list, which is these connections and then spare cells. */
  predicate OnlyList(ix: Index<nat>, topic: string, a: nat, cs: seq<Conn>, spare: seq<Cell>) {
    ix.subs == map[topic := Slice(a, |cs|)] && a in ix.arrays && ix.arrays[a] == Refs(cs) + spare
  }

  lemma ListGrows(ix: Index<nat>, topic: string, a: nat, cs: seq<Conn>, c: Conn, b: nat)
    requires !IsWildcard(topic) && OnlyList(ix, topic, a, cs, []) && b !in ix.arrays
    ensures OnlyList(Add(ix, topic, c, b, Doubled(|cs|)), topic, b, cs + [c], Nils(Doubled(|cs|)))
  {
    assert View(ix, topic) == Refs(cs);
    assert Refs(cs + [c]) == Refs(cs) + [Ref(c)];
  }

  lemma ListFills(ix: Index<nat>, topic: string, a: nat, cs: seq<Conn>, spare: seq<Cell>, c: Conn, b: nat)
    requires !IsWildcard(topic) && OnlyList(ix, topic, a, cs, spare) && spare != []
    ensures OnlyList(Add(ix, topic, c, b, 0), topic, a, cs + [c], spare[1..])
    ensures Add(ix, topic, c, b, 0).arrays[a] == ix.arrays[a][|cs| := Ref(c)]
  {
    var after := Add(ix, topic, c, b, 0);
    assert after.arrays[a] == ix.arrays[a][|cs| := Ref(c)];
    assert after.arrays[a] == Refs(cs + [c]) + spare[1..];
  }

  predicate Selecting(topic: string, filter: string) {
    !IsWildcard(topic) && IsWildcard(filter) && WellFormed(Split(filter)) && Match(Split(filter), Split(topic))
  }

  /** Five exact subscribers in an array of eight, and two wildcard subscribers. */
  predicate IsCrowd(ix: Index<nat>, topic: string, filter: string, e: seq<Conn>, c1: Conn, c2: Conn) {
    && |e| == 5 && OnlyList(ix, topic, 3, e, [Nil, Nil, Nil]) && 4 !in ix.arrays
    && ix.wildcards == [NewWild(filter, c1), NewWild(filter, c2)]
  }

  /** The calls that lead there, with the arrays the Go runtime allocates: capacities 1, 2, 4 and 8. */
  function CrowdCalls(topic: string, filter: string, e: seq<Conn>, c1: Conn, c2: Conn): seq<Call<nat>>
    requires |e| == 5
  {
    [Call(OpAdd(topic, e[0]), 0, Doubled(0)), Call(OpAdd(topic, e[1]), 1, Doubled(1)), Call(OpAdd(topic, e[2]), 2, Doubled(2)),
     Call(OpAdd(topic, e[3]), 3, 0), Call(OpAdd(topic, e[4]), 3, Doubled(4)),
     Call(OpAdd(filter, c1), 4, 0), Call(OpAdd(filter, c2), 4, 0)]
  }

  lemma ThreeExact(topic: string, e0: Conn, e1: Conn, e2: Conn) returns (s1: Index<nat>, s2: Index<nat>, s3: Index<nat>)
    requires !IsWildcard(topic)
    ensures Step(Empty(), Call(OpAdd(topic, e0), 0, Doubled(0))) == Some(s1)
    ensures Step(s1, Call(OpAdd(topic, e1), 1, Doubled(1))) == Some(s2)
    ensures Step(s2, Call(OpAdd(topic, e2), 2, Doubled(2))) == Some(s3)
    ensures OnlyList(s3, topic, 2, [e0, e1, e2], [Nil]) && s3.arrays.Keys == {0, 1, 2} && s3.wildcards == []
  {
    var s0: Index<nat> := Empty();
    s1 := Apply(s0, Call(OpAdd(topic, e0), 0, Doubled(0)));
    assert Nils(0) == [] && View(s0, topic) == [];
    assert s1.arrays[0] == Refs([e0]) + [];
    ListGrows(s1, topic, 0, [e0], e1, 1);
    s2 := Apply(s1, Call(OpAdd(topic, e1), 1, Doubled(1)));
    ListGrows(s2, topic, 1, [e0, e1], e2, 2);
    s3 := Apply(s2, Call(OpAdd(topic, e2), 2, Doubled(2)));
    assert [e0, e1] + [e2] == [e0, e1, e2] && Nils(1) == [Nil];
  }

  lemma TwoMore(s3: Index<nat>, topic: string, e: seq<Conn>) returns (s4: Index<nat>, s5: Index<nat>)
    requires !IsWildcard(topic) && |e| == 5
    requires OnlyList(s3, topic, 2, [e[0], e[1], e[2]], [Nil]) && s3.arrays.Keys == {0, 1, 2} && s3.wildcards == []
    ensures Step(s3, Call(OpAdd(topic, e[3]), 3, 0)) == Some(s4) && Step(s4, Call(OpAdd(topic, e[4]), 3, Doubled(4))) == Some(s5)
    ensures OnlyList(s5, topic, 3, e, [Nil, Nil, Nil]) && 4 !in s5.arrays && s5.wildcards == []
  {
    ListFills(s3, topic, 2, [e[0], e[1], e[2]], [Nil], e[3], 3);
    s4 := Apply(s3, Call(OpAdd(topic, e[3]), 3, 0));
    assert [e[0], e[1], e[2]] + [e[3]] == [e[0], e[1], e[2], e[3]];
    ListGrows(s4, topic, 2, [e[0], e[1], e[2], e[3]], e[4], 3);
    s5 := Apply(s4, Call(OpAdd(topic, e[4]), 3, Doubled(4)));
    assert e == [e[0], e[1], e[2], e[3]] + [e[4]] && Nils(3) == [Nil, Nil, Nil];
  }

  lemma CrowdIsReachable(topic: string, filter: string, e: seq<Conn>, c1: Conn, c2: Conn) returns (ix: Index<nat>)
    requires Selecting(topic, filter) && |e| == 5
    ensures Run(Step<nat>, Empty(), CrowdCalls(topic, filter, e, c1, c2)) == Some(ix)
    ensures IsCrowd(ix, topic, filter, e, c1, c2)
  {
    var calls := CrowdCalls(topic, filter, e, c1, c2);
    var s1, s2, s3 := ThreeExact(topic, e[0], e[1], e[2]);
    var s4, s5 := TwoMore(s3, topic, e);
    var s6 := Apply(s5, calls[5]);
    ix := Apply(s6, calls[6]);
    TraceIsRun(Step<nat>, [Empty(), s1, s2, s3, s4, s5, s6, ix], calls);
  }

  lemma CrowdHits(topic: string, filter: string, c1: Conn, c2: Conn)
    requires Selecting(topic, filter)
    ensures MatchedConns([NewWild(filter, c1), NewWild(filter, c2)], Split(topic)) == [c1, c2]
    ensures MatchedConns([NewWild(filter, c1)], Split(topic)) == [c1]
  {
    MatchedSnoc([], NewWild(filter, c1), Split(topic));
    MatchedSnoc([NewWild(filter, c1)], NewWild(filter, c2), Split(topic));
    assert [NewWild(filter, c1)] + [NewWild(filter, c2)] == [NewWild(filter, c1), NewWild(filter, c2)];
    assert [] + [NewWild(filter, c1)] == [NewWild(filter, c1)];
  }

  /** The list of the crowd lies in the array of the index. */
  lemma CrowdIsListed(ix: Index<nat>, topic: string, filter: string, e: seq<Conn>, c1: Conn, c2: Conn)
    requires Selecting(topic, filter) && IsCrowd(ix, topic, filter, e, c1, c2)
    ensures Fits(ix, topic) && ListOf(ix, topic, 4) == Slice(3, 7) && Listed(ix, topic) == Refs(e + [c1, c2])
    ensures OnlyList(Lookup(ix, topic, 4, 0), topic, 3, e, [Ref(c1), Ref(c2), Nil])
    ensures Lookup(ix, topic, 4, 0).wildcards == ix.wildcards
  {
    CrowdHits(topic, filter, c1, c2);
    assert View(ix, topic) == Refs(e);
    assert Refs(e) + Refs([c1, c2]) == Refs(e + [c1, c2]);
    assert Lookup(ix, topic, 4, 0).arrays[3] == Refs(e) + [Ref(c1), Ref(c2), Nil];
  }

  /** A newcomer takes the cell of a wildcard subscriber. */
  lemma NewcomerOverwrites(ix: Index<nat>, topic: string, filter: string, e: seq<Conn>, c1: Conn, c2: Conn, c: Conn)
    requires Selecting(topic, filter) && IsCrowd(ix, topic, filter, e, c1, c2)
    ensures var looked := Lookup(ix, topic, 4, 0);
            var after := Add(looked, topic, c, 4, 0);
            && 3 in looked.arrays && looked.arrays[3] == Refs(e + [c1, c2]) + [Nil] && Possible(looked, Call(OpAdd(topic, c), 4, 0))
            && 3 in after.arrays && after.arrays[3] == Refs(e + [c, c2]) + [Nil]
  {
    CrowdIsListed(ix, topic, filter, e, c1, c2);
    var looked := Lookup(ix, topic, 4, 0);
    assert looked.arrays[3] == Refs(e + [c1, c2]) + [Nil];
    ListFills(looked, topic, 3, e, [Ref(c1), Ref(c2), Nil], c, 4);
    assert Add(looked, topic, c, 4, 0).arrays[3] == Refs(e + [c, c2]) + [Nil];
  }

  /** Spare cells are not struck. */
  lemma LeavingKeepsSpareCells(ix: Index<nat>, topic: string, e: seq<Conn>, spare: seq<Cell>, x: Conn)
    requires OnlyList(ix, topic, 3, e, spare) && x !in e
    ensures OnlyList(UnsubAll(ix, x), topic, 3, e, spare)
    ensures UnsubAll(ix, x).wildcards == Keep(ix.wildcards, OtherWild(x))
  {
    assert topic in ix.subs && ix.subs[topic] == Slice(3, |e|);
    assert forall k: nat :: Visible(ix, 3, k) <==> k < |e|;
    assert UnsubAll(ix, x).arrays[3] == Refs(e) + spare;
  }

  /** A lookup with one hit puts it into the first spare cell. */
  lemma OneHitIsWritten(ix: Index<nat>, topic: string, filter: string, e: seq<Conn>, spare: seq<Cell>, x: Conn)
    requires Selecting(topic, filter) && OnlyList(ix, topic, 3, e, spare) && spare != []
    requires ix.wildcards == [NewWild(filter, x)]
    ensures OnlyList(Lookup(ix, topic, 4, 0), topic, 3, e, spare[0 := Ref(x)])
    ensures Lookup(ix, topic, 4, 0).wildcards == ix.wildcards
  {
    CrowdHits(topic, filter, x, x);
    assert Lookup(ix, topic, 4, 0).arrays[3] == Refs(e) + spare[0 := Ref(x)];
  }

  /** A subscriber leaves and the topic is looked up again: the first list now has another one twice. */
  lemma SecondLookupOverwrites(ix: Index<nat>, topic: string, filter: string, e: seq<Conn>, c1: Conn, c2: Conn)
    requires Selecting(topic, filter) && IsCrowd(ix, topic, filter, e, c1, c2) && c1 != c2 && c1 !in e
    ensures var looked := Lookup(ix, topic, 4, 0);
            var again := Lookup(UnsubAll(looked, c1), topic, 4, 0);
            && OnlyList(looked, topic, 3, e, [Ref(c1), Ref(c2), Nil])
            && OnlyList(again, topic, 3, e, [Ref(c2), Ref(c2), Nil]) && again.wildcards == [NewWild(filter, c2)]
  {
    CrowdIsListed(ix, topic, filter, e, c1, c2);
    var looked := Lookup(ix, topic, 4, 0);
    LeavingKeepsSpareCells(looked, topic, e, [Ref(c1), Ref(c2), Nil], c1);
    KeepAppend([NewWild(filter, c1)], [NewWild(filter, c2)], OtherWild(c1));
    assert [NewWild(filter, c1)] + [NewWild(filter, c2)] == [NewWild(filter, c1), NewWild(filter, c2)];
    assert Keep([NewWild(filter, c1)], OtherWild(c1)) == [];
    OneHitIsWritten(UnsubAll(looked, c1), topic, filter, e, [Ref(c1), Ref(c2), Nil], c2);
    assert [Ref(c1), Ref(c2), Nil][0 := Ref(c2)] == [Ref(c2), Ref(c2), Nil];
  }

  /** If they change places, a third lookup puts everything back: a changed cell need not stay changed. */
  lemma ThirdLookupRestores(ix: Index<nat>, topic: string, filter: string, e: seq<Conn>, c1: Conn, c2: Conn)
    requires Selecting(topic, filter) && IsCrowd(ix, topic, filter, e, c1, c2) && c1 != c2 && c1 !in e && c2 !in e
    ensures var looked := Lookup(ix, topic, 4, 0);
            var again := Lookup(UnsubAll(looked, c1), topic, 4, 0);
            var third := Lookup(Add(UnsubAll(again, c2), filter, c1, 4, 0), topic, 4, 0);
            && OnlyList(looked, topic, 3, e, [Ref(c1), Ref(c2), Nil])
            && OnlyList(third, topic, 3, e, [Ref(c1), Ref(c2), Nil])
  {
    SecondLookupOverwrites(ix, topic, filter, e, c1, c2);
    var again := Lookup(UnsubAll(Lookup(ix, topic, 4, 0), c1), topic, 4, 0);
    LeavingKeepsSpareCells(again, topic, e, [Ref(c2), Ref(c2), Nil], c2);
    assert Keep([NewWild(filter, c2)], OtherWild(c2)) == [];
    OneHitIsWritten(Add(UnsubAll(again, c2), filter, c1, 4, 0), topic, filter, e, [Ref(c2), Ref(c2), Nil], c1);
    assert [Ref(c2), Ref(c2), Nil][0 := Ref(c1)] == [Ref(c1), Ref(c2), Nil];
  }
}
