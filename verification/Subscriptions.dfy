/**
 The broker's subscription index on the heap: a hash map from exact topics to
 slices of connections, with nil tombstones written in place, and a scanned list
 of wildcard filters. Each method does to the arrays exactly what its call does
 in `SharedIndex`.
 */
module Subscriptions {
  import opened Topics
  import opened Wildcards
  import opened Lists
  import opened FlatIndex
  import opened SharedIndex

  type Array = array<Cell>

  // ----- slices -----

  /** Go's `append`: in place while there is capacity, otherwise into a larger copy. */
  method Append(s: Slice<Array>, c: Conn) returns (r: Slice<Array>)
    requires s.len <= s.arr.Length
    modifies s.arr
    ensures r.len == s.len + 1 <= r.arr.Length
    ensures s.arr[..] == Overlay(old(s.arr[..]), s.len, [c])
    ensures s.len < s.arr.Length ==> r.arr == s.arr
    ensures s.len == s.arr.Length ==>
              fresh(r.arr) && r.arr[..] == old(s.arr[..]) + [Ref(c)] + Nils(r.arr.Length - r.len)
  {
    if s.len < s.arr.Length {
      s.arr[s.len] := Ref(c);
      r := Slice(s.arr, s.len + 1);
    } else {
      var cap: nat :| cap > s.len;
      var a := new Cell[cap](_ => Nil);
      for i := 0 to s.len
        invariant a[..i] == s.arr[..i] && a[i..] == Nils(cap - i)
        invariant s.arr[..] == old(s.arr[..])
      {
        a[i] := s.arr[i];
      }
      a[s.len] := Ref(c);
      r := Slice(a, s.len + 1);
    }
  }

  /** Overwrite every reference to `c` with nil, and count the nils there are then. */
  method Strike(s: Slice<Array>, c: Conn) returns (nils: nat)
    requires s.len <= s.arr.Length
    modifies s.arr
    ensures s.arr[..] == StrikeFirst(old(s.arr[..]), s.len, c)
    ensures nils == s.len <==> AllNil(s.arr[..s.len])
  {
    nils := 0;
    for i := 0 to s.len
      invariant nils <= i
      invariant s.arr[..] == StrikeFirst(old(s.arr[..]), i, c)
      invariant nils == i <==> AllNil(s.arr[..i])
    {
      if s.arr[i] == Ref(c) {
        s.arr[i] := Nil;
      }
      if s.arr[i] == Nil {
        nils := nils + 1;
      }
      assert s.arr[..i + 1] == s.arr[..i] + [s.arr[i]];
    }
  }

  lemma OverlaySnoc(cells: seq<Cell>, from: nat, cs: seq<Conn>, c: Conn)
    ensures Overlay(cells, from, cs + [c]) == Overlay(Overlay(cells, from, cs), from + |cs|, [c])
    ensures from + |cs| >= |cells| ==> Overlay(cells, from, cs + [c]) == Overlay(cells, from, cs)
    ensures Refs(cs + [c]) == Refs(cs) + [Ref(c)]
  {
  }

  /** The connections of the first `n` filters, of those that match. */
  function FirstHits<A(==)>(ix: Index<A>, topic: string, n: nat): seq<Conn>
    requires n <= |ix.wildcards|
  {
    MatchedConns(ix.wildcards[..n], Split(topic))
  }

  /** An array of the index after the given hits of a topic were appended to its list. */
  function Filled<A(==)>(ix: Index<A>, topic: string, hits: seq<Conn>, a: A): seq<Cell> {
    if topic in ix.subs && a == ix.subs[topic].arr then Overlay(Cells(ix, a), ix.subs[topic].len, hits) else Cells(ix, a)
  }

  lemma NoHits<A>(ix: Index<A>, topic: string)
    ensures FirstHits(ix, topic, 0) == []
    ensures forall a :: a in ix.arrays ==> Filled(ix, topic, [], a) == ix.arrays[a]
  {
    assert ix.wildcards[..0] == [];
  }

  // ----- the index -----

  class Subscriptions {
    var subs: map<string, Slice<Array>>
    var wildcards: seq<Wild>
    ghost var flat: Flat
    /** All arrays that lists of the index, or lists handed out, have ever used. */
    ghost var arrays: set<Array>

    ghost function Model(): Index<Array>
      reads this, arrays
    {
      Index(map a | a in arrays :: a[..], subs, wildcards, flat)
    }

    ghost predicate Valid()
      reads this, arrays
    {
      Ok(Model())
    }

    constructor ()
      ensures Valid() && Model() == Empty() && arrays == {}
    {
      subs, wildcards, flat, arrays := map[], [], [], {};
      new;
      EmptyOk<Array>();
      assert Model() == Empty();
    }

    /** The slice of a topic; Go's nil slice if there is none. */
    method Find(topic: string) returns (s: Slice<Array>)
      requires Shape(Model())
      ensures if topic in subs then s == subs[topic] else fresh(s.arr) && s.arr.Length == 0 && s.len == 0
    {
      if topic in subs {
        s := subs[topic];
      } else {
        var none := new Cell[0];
        s := Slice(none, 0);
      }
    }

    method Add(topic: string, c: Conn) returns (ghost call: Call<Array>)
      requires Valid()
      modifies this, arrays
      ensures call.op == OpAdd(topic, c) && Possible(old(Model()), call)
      ensures Valid() && Model() == Apply(old(Model()), call)
      ensures flat == AddSub(old(flat), topic, c)
      ensures old(arrays) <= arrays && fresh(arrays - old(arrays))
    {
      if IsWildcard(topic) {
        var w := NewWild(topic, c);
        var ok := Wildcards.Valid(w);
        if ok {
          wildcards := wildcards + [w];
          flat := flat + [Sub(topic, c)];
        }
        ghost var a: Array := *;
        call := Call(OpAdd(topic, c), a, 0);
      } else {
        call := Push(topic, c);
      }
      ApplyIsOp(old(Model()), call);
    }

    method Push(topic: string, c: Conn) returns (ghost call: Call<Array>)
      requires Shape(Model()) && !IsWildcard(topic)
      modifies this, arrays
      ensures call.op == OpAdd(topic, c) && Possible(old(Model()), call)
      ensures Model() == Apply(old(Model()), call)
      ensures old(arrays) <= arrays && fresh(arrays - old(arrays))
    {
      ghost var before := Model();
      var s := Find(topic);
      assert View(before, topic) == s.arr[..s.len];
      var r := Append(s, c);
      assert !HasRoom(before, topic) ==> s.arr[..] == View(before, topic);
      subs := subs[topic := r];
      flat := flat + [Sub(topic, c)];
      arrays := arrays + {r.arr};
      call := Call(OpAdd(topic, c), r.arr, r.arr.Length - r.len);
      ghost var after := Apply(before, call);
      assert after.arrays.Keys == arrays;
      forall a | a in arrays ensures a[..] == after.arrays[a] {
        if a != s.arr && a != r.arr {
          assert a[..] == before.arrays[a];
        }
      }
    }

    method Unsub(topic: string, c: Conn) returns (ghost call: Call<Array>)
      requires Valid()
      modifies this, arrays
      ensures call.op == OpUnsub(topic, c) && Possible(old(Model()), call)
      ensures Valid() && Model() == Apply(old(Model()), call)
      ensures flat == FlatIndex.Unsub(old(flat), topic, c)
      ensures arrays == old(arrays)
    {
      flat := FlatIndex.Unsub(flat, topic, c);
      if topic in subs {
        var nils := Strike(subs[topic], c);
        if nils == subs[topic].len {
          subs := subs - {topic};
        }
      }
      ghost var a: Array := *;
      call := Call(OpUnsub(topic, c), a, 0);
      assert Model().arrays == Apply(old(Model()), call).arrays;
      ApplyIsOp(old(Model()), call);
    }

    /** Every list not in `todo` has lost the connection, the others and all other cells are as before. */
    ghost predicate StruckBut(todo: set<string>, base: Index<Array>, c: Conn)
      reads this, arrays
    {
      && arrays == base.arrays.Keys && subs == base.subs
      && (forall t :: t in subs ==> subs[t].arr in arrays)
      && (forall t :: t in subs ==>
            subs[t].arr[..] == if t in todo then base.arrays[subs[t].arr]
                               else StrikeFirst(base.arrays[subs[t].arr], subs[t].len, c))
      && (forall a :: a in arrays && (forall t :: t in subs ==> subs[t].arr != a) ==> a[..] == base.arrays[a])
    }

    /** The loop over all lists; Go visits the keys of a map in no fixed order. */
    method StrikeAll(c: Conn)
      requires Shape(Model())
      modifies arrays
      ensures Model().arrays == SharedIndex.UnsubAll(old(Model()), c).arrays
    {
      ghost var base := Model();
      var todo := subs.Keys;
      while todo != {}
        invariant todo <= subs.Keys
        invariant StruckBut(todo, base, c)
      {
        var topic :| topic in todo;
        var _ := Strike(subs[topic], c);
        todo := todo - {topic};
      }
      forall a | a in arrays ensures a[..] == StrikeVisible(base, a, c) {
        if t :| t in subs && subs[t].arr == a {
          assert forall k: nat :: Visible(base, a, k) <==> k < subs[t].len;
        } else {
          assert forall k: nat :: !Visible(base, a, k);
        }
      }
    }

    method OtherWildcards(c: Conn) returns (wildNew: seq<Wild>)
      ensures wildNew == Keep(wildcards, OtherWild(c))
    {
      wildNew := [];
      for i := 0 to |wildcards|
        invariant wildNew == Keep(wildcards[..i], OtherWild(c))
      {
        assert wildcards[..i + 1] == wildcards[..i] + [wildcards[i]];
        KeepAppend(wildcards[..i], [wildcards[i]], OtherWild(c));
        if wildcards[i].c != c {
          wildNew := wildNew + [wildcards[i]];
        }
      }
      assert wildcards[..|wildcards|] == wildcards;
    }

    method StrikeEverywhere(c: Conn)
      requires Shape(Model())
      modifies this, arrays
      ensures Model() == SharedIndex.UnsubAll(old(Model()), c) && arrays == old(arrays)
    {
      StrikeAll(c);
      wildcards := OtherWildcards(c);
      flat := FlatIndex.UnsubAll(flat, c);
    }

    method UnsubAll(c: Conn) returns (ghost call: Call<Array>)
      requires Valid()
      modifies this, arrays
      ensures call.op == OpUnsubAll(c) && Possible(old(Model()), call)
      ensures Valid() && Model() == Apply(old(Model()), call)
      ensures flat == FlatIndex.UnsubAll(old(flat), c)
      ensures arrays == old(arrays)
    {
      StrikeEverywhere(c);
      ghost var a: Array := *;
      call := Call(OpUnsubAll(c), a, 0);
      ApplyIsOp(old(Model()), call);
    }

    // ----- the lookup -----

    /** The arrays and the list under construction once it has the given hits. */
    ghost predicate Gathered(base: Index<Array>, topic: string, res: Slice<Array>, hits: seq<Conn>)
      reads this, arrays, res.arr
    {
      && subs == base.subs && wildcards == base.wildcards && flat == base.flat && arrays == base.arrays.Keys
      && (forall a :: a in arrays ==> a[..] == Filled(base, topic, hits, a))
      && res.len == |View(base, topic)| + |hits| <= res.arr.Length
      && if topic in subs && subs[topic].len + |hits| <= |Cells(base, subs[topic].arr)| then res.arr == subs[topic].arr
         else res.arr !in arrays
              && res.arr[..] == View(base, topic) + Refs(hits) + Nils(res.arr.Length - res.len)
    }

    method PushHit(topic: string, res: Slice<Array>, c: Conn, ghost base: Index<Array>, ghost hits: seq<Conn>)
      returns (r: Slice<Array>)
      requires Shape(base) && Gathered(base, topic, res, hits)
      modifies res.arr
      ensures Gathered(base, topic, r, hits + [c]) && (r.arr == res.arr || fresh(r.arr))
    {
      if topic in subs {
        OverlaySnoc(Cells(base, subs[topic].arr), subs[topic].len, hits, c);
      }
      OverlaySnoc([], 0, hits, c);
      r := Append(res, c);
    }

    /** One turn of the scan over the filters. */
    method Consider(topic: string, res: Slice<Array>, i: nat, ghost base: Index<Array>) returns (r: Slice<Array>)
      requires Shape(base) && i < |base.wildcards| && WellFormed(base.wildcards[i].wild)
      requires Gathered(base, topic, res, FirstHits(base, topic, i))
      modifies res.arr
      ensures Gathered(base, topic, r, FirstHits(base, topic, i + 1)) && (r.arr == res.arr || fresh(r.arr))
    {
      var w := wildcards[i];
      assert base.wildcards[..i + 1] == base.wildcards[..i] + [w];
      MatchedSnoc(base.wildcards[..i], w, Split(topic));
      var yes := Matches(w, Split(topic));
      r := res;
      if yes {
        r := PushHit(topic, res, w.c, base, FirstHits(base, topic, i));
      }
    }

    method Gather(topic: string) returns (res: Slice<Array>)
      requires Valid()
      modifies arrays
      ensures Gathered(old(Model()), topic, res, HitsOf(old(Model()), topic))
      ensures res.arr !in arrays ==> fresh(res.arr)
    {
      ghost var base := Model();
      res := Find(topic);
      NoHits(base, topic);
      for i := 0 to |wildcards|
        invariant Gathered(base, topic, res, FirstHits(base, topic, i))
        invariant res.arr !in arrays ==> fresh(res.arr)
      {
        res := Consider(topic, res, i, base);
      }
      assert wildcards[..|wildcards|] == wildcards;
    }

    method Fetch(topic: string) returns (res: Slice<Array>, ghost call: Call<Array>)
      requires Valid()
      modifies `arrays, arrays
      ensures call.op == OpLookup(topic) && Possible(old(Model()), call)
      ensures Model() == Apply(old(Model()), call) && res == ListOf(old(Model()), topic, call.a)
      ensures old(arrays) <= arrays && fresh(arrays - old(arrays))
    {
      ghost var base := Model();
      res := Gather(topic);
      call := Call(OpLookup(topic), res.arr, res.arr.Length - res.len);
      arrays := arrays + {res.arr};
      ghost var after := Apply(base, call);
      assert after.arrays.Keys == arrays;
      forall a | a in arrays ensures a[..] == after.arrays[a] {
        if a in base.arrays {
          assert a[..] == Filled(base, topic, HitsOf(base, topic), a);
        }
      }
    }

    method Subscribers(topic: string) returns (res: Slice<Array>, ghost call: Call<Array>)
      requires Valid()
      modifies `arrays, arrays
      ensures call.op == OpLookup(topic) && Possible(old(Model()), call)
      ensures Valid() && Model() == Apply(old(Model()), call)
      ensures res == ListOf(old(Model()), topic, call.a) && HeldOk(Model(), res)
      ensures Live(res.arr[..res.len]) == Receivers(flat, topic)
      ensures old(arrays) <= arrays && fresh(arrays - old(arrays))
    {
      ghost var base := Model();
      res, call := Fetch(topic);
      ApplyIsOp(base, call);
      LookupIsHeld(base, topic, call.a, call.spare);
      ListedAreReceivers(base, topic);
      assert res.arr[..res.len] == Held(Model(), res);
    }
  }

  // ----- histories -----

  method Perform(index: Subscriptions, op: Op) returns (ghost call: Call<Array>)
    requires index.Valid()
    modifies index, index.arrays
    ensures call.op == op && Possible(old(index.Model()), call)
    ensures index.Valid() && index.Model() == Apply(old(index.Model()), call)
    ensures index.flat == ApplyOp(old(index.flat), op)
    ensures old(index.arrays) <= index.arrays && fresh(index.arrays - old(index.arrays))
  {
    match op
    case OpAdd(f, c) => call := index.Add(f, c);
    case OpUnsub(f, c) => call := index.Unsub(f, c);
    case OpUnsubAll(c) => call := index.UnsubAll(c);
    case OpLookup(topic) =>
      var _, it := index.Subscribers(topic);
      call := it;
  }

  /** Any history of calls of a fresh index, lookups included, leaves what the flat list's history leaves. */
  method Replay(ops: seq<Op>) returns (index: Subscriptions)
    ensures fresh(index) && fresh(index.arrays)
    ensures index.Valid() && index.flat == ApplyOps(ops)
  {
    index := new Subscriptions();
    assert ops[..0] == [];
    for i := 0 to |ops|
      invariant fresh(index) && fresh(index.arrays)
      invariant index.Valid() && index.flat == ApplyOps(ops[..i])
    {
      assert ops[..i + 1][..i] == ops[..i];
      ghost var _ := Perform(index, ops[i]);
    }
    assert ops[..|ops|] == ops;
  }

  /** A topic's receivers after any history, read off the heap. */
  method ReplayThenSubscribers(ops: seq<Op>, topic: string) returns (cs: seq<Conn>)
    ensures cs == Receivers(ApplyOps(ops), topic)
    ensures multiset(cs) == multiset(Matching(ApplyOps(ops), topic))
  {
    var index := Replay(ops);
    var res, _ := index.Subscribers(topic);
    cs := Live(res.arr[..res.len]);
    ReceiversAreTheMatching(ApplyOps(ops), topic);
  }

  /**
   A list is used after the lock is released. It stays what it was through one more call exactly
   if that call changes none of its cells; and it can be followed through any number of calls.
   */
  method PerformWhileHeld(index: Subscriptions, op: Op, list: Slice<Array>) returns (ghost call: Call<Array>)
    requires index.Valid() && HeldOk(index.Model(), list)
    modifies index, index.arrays
    ensures index.Valid() && HeldOk(index.Model(), list)
    ensures Live(list.arr[..list.len]) == Live(old(list.arr[..list.len]))
       <==> forall k :: 0 <= k < list.len ==> !Changes(old(index.Model()), op, list, k)
  {
    ghost var before := index.Model();
    assert list.arr[..list.len] == Held(before, list);
    call := Perform(index, op);
    HeldListStays(before, call, list);
    assert list.arr[..list.len] == Held(index.Model(), list);
  }
}
