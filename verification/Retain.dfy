/** Retained messages as a fold over published ones (section 2.1, "Retain", of the MQTT V3.1 specification). */
module Retain {

  datatype Publish = Publish(topic: string, payload: string, retain: bool)

  /** A retained message without payload deletes the retained message of its topic. */
  predicate IsDeletion(v: Publish) {
    v.retain && v.payload == ""
  }

  /** The retained map after a post: unchanged, the post kept, or its topic cleared. */
  function Remember(retained: map<string, Publish>, v: Publish): map<string, Publish> {
    if !v.retain then retained
    else if v.payload == "" then retained - {v.topic} else retained[v.topic := v]
  }

  /** The retained map after the first `n` posts. */
  function RememberAll(retained: map<string, Publish>, vs: seq<Publish>, n: nat): map<string, Publish>
    requires n <= |vs|
  {
    if n == 0 then retained else Remember(RememberAll(retained, vs, n - 1), vs[n - 1])
  }

  /** The position of the last retained post of a topic among the first `n`, or -1. */
  function LastRetained(vs: seq<Publish>, n: nat, topic: string): (i: int)
    requires n <= |vs|
    ensures -1 <= i < n
    ensures i >= 0 ==> vs[i].retain && vs[i].topic == topic
    ensures forall j :: i < j < n ==> !(vs[j].retain && vs[j].topic == topic)
  {
    if n == 0 then -1
    else if vs[n - 1].retain && vs[n - 1].topic == topic then n - 1
    else LastRetained(vs, n - 1, topic)
  }

  /** A topic remembers its last retained post, unless that was a deletion. */
  lemma {:induction false} RememberedIsTheLast(vs: seq<Publish>, n: nat, topic: string)
    requires n <= |vs|
    ensures var kept, i := RememberAll(map[], vs, n), LastRetained(vs, n, topic);
            && (topic in kept <==> i >= 0 && vs[i].payload != "")
            && (topic in kept ==> kept[topic] == vs[i])
  {
    if n > 0 {
      RememberedIsTheLast(vs, n - 1, topic);
    }
  }

  lemma {:induction false} RememberPrefix(retained: map<string, Publish>, vs: seq<Publish>, ws: seq<Publish>, n: nat)
    requires n <= |vs| && n <= |ws| && forall i :: 0 <= i < n ==> vs[i] == ws[i]
    ensures RememberAll(retained, vs, n) == RememberAll(retained, ws, n)
  {
    if n > 0 {
      RememberPrefix(retained, vs, ws, n - 1);
    }
  }
}
