/**
 Wildcard filters: which ones are valid, and which topics they match
 (Appendix A, "Topic wildcards", of the MQTT V3.1 specification).
 */
module Wildcards {
  import opened Topics

  datatype Wild = Wild(wild: seq<string>, c: Conn)

  function NewWild(topic: string, c: Conn): Wild {
    Wild(Split(topic), c)
  }

  // ----- validity -----

  /** The grammar of filters: literal levels and "+" anywhere, "#" only at the end. */
  predicate WellFormed(filter: seq<string>) {
    filter == [] || filter == ["#"] ||
    (filter[0] != "#" && (filter[0] == "+" || !IsWildcard(filter[0])) && WellFormed(filter[1..]))
  }

  /** The scan `valid` does, level by level. */
  predicate LevelOk(filter: seq<string>, i: nat)
    requires i < |filter|
  {
    && (IsWildcard(filter[i]) ==> |filter[i]| == 1)
    && (filter[i] == "#" ==> i == |filter| - 1)
  }

  lemma {:induction false} WellFormedIsPerLevel(filter: seq<string>)
    ensures WellFormed(filter) <==> forall i :: 0 <= i < |filter| ==> LevelOk(filter, i)
  {
    if filter != [] {
      var rest := filter[1..];
      WellFormedIsPerLevel(rest);
      assert forall i {:trigger LevelOk(rest, i)} :: 0 <= i < |rest| ==> (LevelOk(rest, i) <==> LevelOk(filter, i + 1));
      assert forall i {:trigger LevelOk(filter, i)} :: 1 <= i < |filter| ==> (LevelOk(filter, i) <==> LevelOk(rest, i - 1));
      assert IsWildcard(filter[0]) && |filter[0]| == 1 ==> filter[0] == "#" || filter[0] == "+";
      if LevelOk(filter, 0) && filter[0] == "#" {
        assert filter == ["#"];
      }
    }
  }

  /** Each level is "+", or "#" at the end, or has neither of the two characters in it. */
  predicate ValidByCharacters(filter: seq<string>) {
    forall i :: 0 <= i < |filter| ==>
      filter[i] == "+" || (filter[i] == "#" && i == |filter| - 1) || ('#' !in filter[i] && '+' !in filter[i])
  }

  lemma {:induction false} WellFormedByCharacters(filter: seq<string>)
    ensures WellFormed(filter) <==> ValidByCharacters(filter)
  {
    if filter != [] && filter != ["#"] {
      WellFormedByCharacters(filter[1..]);
      assert forall i :: 1 <= i < |filter| ==> filter[i] == filter[1..][i - 1];
      assert forall i :: 0 <= i < |filter| - 1 ==> filter[1..][i] == filter[i + 1];
    }
  }

  method Valid(w: Wild) returns (ok: bool)
    ensures ok <==> WellFormed(w.wild)
  {
    WellFormedIsPerLevel(w.wild);
    for i := 0 to |w.wild|
      invariant forall j :: 0 <= j < i ==> LevelOk(w.wild, j)
    {
      var part := w.wild[i];
      if IsWildcard(part) && |part| != 1 {
        assert !LevelOk(w.wild, i);
        return false;
      }
      if part == "#" && i != |w.wild| - 1 {
        assert !LevelOk(w.wild, i);
        return false;
      }
    }
    return true;
  }

  // ----- matching -----

  /** What a filter means: "+" stands for one level, a final "#" for any number, none included. */
  predicate Match(filter: seq<string>, topic: seq<string>) {
    if filter == ["#"] then true
    else if filter == [] || topic == [] then filter == topic
    else (filter[0] == "+" || filter[0] == topic[0]) && Match(filter[1..], topic[1..])
  }

  /** What the loop computes for any list of levels, a "#" before the end included. */
  predicate Scan(filter: seq<string>, topic: seq<string>) {
    if topic == [] then filter == [] || filter == ["#"]
    else if filter == [] then false
    else filter[0] == "#" || ((filter[0] == "+" || filter[0] == topic[0]) && Scan(filter[1..], topic[1..]))
  }

  lemma {:induction false} ScanIsMatch(filter: seq<string>, topic: seq<string>)
    requires WellFormed(filter)
    ensures Scan(filter, topic) == Match(filter, topic)
  {
    if filter != [] && topic != [] && filter[0] != "#" {
      ScanIsMatch(filter[1..], topic[1..]);
    }
  }

  method Matches(w: Wild, parts: seq<string>) returns (yes: bool)
    ensures yes <==> Scan(w.wild, parts)
    ensures WellFormed(w.wild) ==> (yes <==> Match(w.wild, parts))
  {
    if WellFormed(w.wild) {
      ScanIsMatch(w.wild, parts);
    }
    var i := 0;
    while i < |parts|
      invariant 0 <= i <= |parts| && i <= |w.wild|
      invariant Scan(w.wild, parts) == Scan(w.wild[i..], parts[i..])
    {
      if i >= |w.wild| {
        return false;
      }
      if w.wild[i] == "#" {
        return true;
      }
      if parts[i] != w.wild[i] && w.wild[i] != "+" {
        return false;
      }
      assert w.wild[i..][1..] == w.wild[i + 1..] && parts[i..][1..] == parts[i + 1..];
      i := i + 1;
    }
    if i == |w.wild| - 1 && w.wild[|w.wild| - 1] == "#" {
      assert w.wild[i..] == ["#"];
      return true;
    }
    if i == |w.wild| {
      return true;
    }
    assert w.wild[i..] != ["#"];
    return false;
  }

  predicate LevelMatches(filter: string, level: string) {
    filter == "+" || filter == level
  }

  /** The same meaning read off the levels directly, with no recursion. */
  ghost predicate MatchByLevels(filter: seq<string>, topic: seq<string>) {
    if |filter| >= 1 && filter[|filter| - 1] == "#" then
      && |topic| >= |filter| - 1
      && forall i :: 0 <= i < |filter| - 1 ==> LevelMatches(filter[i], topic[i])
    else
      && |topic| == |filter|
      && forall i :: 0 <= i < |filter| ==> LevelMatches(filter[i], topic[i])
  }

  lemma {:induction false} MatchIsMatchByLevels(filter: seq<string>, topic: seq<string>)
    requires WellFormed(filter)
    ensures Match(filter, topic) <==> MatchByLevels(filter, topic)
  {
    if filter != [] && filter != ["#"] && topic != [] {
      var f, t := filter[1..], topic[1..];
      MatchIsMatchByLevels(f, t);
      assert f != [] ==> f[|f| - 1] == filter[|filter| - 1];
      assert forall i {:trigger f[i]} :: 0 <= i < |f| ==> f[i] == filter[i + 1];
      assert forall i {:trigger t[i]} :: 0 <= i < |t| ==> t[i] == topic[i + 1];
      assert forall i {:trigger filter[i]} :: 1 <= i < |filter| ==> filter[i] == f[i - 1];
      assert forall i {:trigger topic[i]} :: 1 <= i < |topic| ==> topic[i] == t[i - 1];
    }
  }

  lemma {:induction false} LiteralLevels(filter: seq<string>, topic: seq<string>)
    requires forall i :: 0 <= i < |filter| ==> !IsWildcard(filter[i])
    ensures WellFormed(filter)
    ensures Match(filter, topic) <==> filter == topic
  {
    if filter != [] {
      assert filter[0] != "#" && filter[0] != "+" by { assert !IsWildcard(filter[0]); }
      LiteralLevels(filter[1..], if topic == [] then [] else topic[1..]);
      if topic != [] {
        assert filter == [filter[0]] + filter[1..] && topic == [topic[0]] + topic[1..];
      }
    }
  }

  /** A filter without wildcards matches its own topic and no other. */
  lemma LiteralMatchesOnlyItself(filter: string, topic: string)
    requires !IsWildcard(filter)
    ensures WellFormed(Split(filter))
    ensures Match(Split(filter), Split(topic)) <==> filter == topic
  {
    WildcardIsPerLevel(filter);
    assert forall i :: 0 <= i < |Split(filter)| ==> !IsWildcard(Split(filter)[i]);
    LiteralLevels(Split(filter), Split(topic));
    if Split(filter) == Split(topic) {
      SplitIsInjective(filter, topic);
    }
  }

  // ----- generality -----

  /** `general` is `filter` with some levels turned into "+" or a tail turned into "#". */
  predicate Covers(general: seq<string>, filter: seq<string>) {
    if general == ["#"] then true
    else if general == [] || filter == [] then general == filter
    else (general[0] == filter[0] || (general[0] == "+" && filter[0] != "#"))
         && Covers(general[1..], filter[1..])
  }

  /** Generalising a filter loses no topic. */
  lemma {:induction false} CoveringFilterMatchesMore(general: seq<string>, filter: seq<string>, topic: seq<string>)
    requires WellFormed(general) && WellFormed(filter)
    requires Covers(general, filter) && Match(filter, topic)
    ensures Match(general, topic)
  {
    if general != [] && general != ["#"] && topic != [] {
      assert filter != ["#"];
      CoveringFilterMatchesMore(general[1..], filter[1..], topic[1..]);
    }
  }

  /** The levels of a topic that may be published: no wildcards, and no slashes inside. */
  predicate Plain(topic: seq<string>) {
    forall i :: 0 <= i < |topic| ==> SLASH !in topic[i] && !IsWildcard(topic[i])
  }

  predicate SlashFree(levels: seq<string>) {
    forall i :: 0 <= i < |levels| ==> SLASH !in levels[i]
  }

  /** A level that "+" or the literal itself matches. */
  function PlainLevel(level: string): string {
    if level == "+" then "x" else level
  }

  lemma {:induction false} SomeTopic(filter: seq<string>) returns (topic: seq<string>)
    requires WellFormed(filter) && SlashFree(filter)
    ensures Match(filter, topic) && Plain(topic) && |topic| >= |filter| - 1
    ensures filter != [] ==> topic != []
  {
    if filter == [] {
      topic := [];
    } else if filter == ["#"] {
      topic := ["x"];
    } else {
      var rest := SomeTopic(filter[1..]);
      topic := [PlainLevel(filter[0])] + rest;
      assert topic[1..] == rest;
    }
  }

  /** And nothing else is a generalisation: a filter that is not covered has a topic of its own. */
  lemma {:induction false} UncoveredFilterHasWitness(general: seq<string>, filter: seq<string>) returns (topic: seq<string>)
    requires WellFormed(general) && WellFormed(filter) && SlashFree(filter)
    requires !Covers(general, filter)
    ensures Match(filter, topic) && !Match(general, topic) && Plain(topic)
    ensures filter != [] && filter != ["#"] ==> topic != []
  {
    if filter == [] || filter == ["#"] {
      topic := if general == [] then ["x"] else [];
    } else if general == [] {
      topic := SomeTopic(filter);
    } else if general[0] == filter[0] || general[0] == "+" {
      var rest := UncoveredFilterHasWitness(general[1..], filter[1..]);
      topic := [PlainLevel(filter[0])] + rest;
      assert topic[1..] == rest;
    } else {
      var rest := SomeTopic(filter[1..]);
      var level := if filter[0] != "+" then filter[0] else if general[0] == "x" then "y" else "x";
      topic := [level] + rest;
      assert topic[1..] == rest;
    }
  }

  /** A filter other than "#" and "+/#" misses some topic. */
  lemma HashIsTheWidest(general: seq<string>) returns (topic: seq<string>)
    requires WellFormed(general) && general != [] && general != ["#"] && general != ["+", "#"]
    ensures topic != [] && Plain(topic) && !Match(general, topic)
  {
    if general == ["+"] {
      topic := ["x", "x"];
    } else if general[0] == "+" {
      topic := ["x"];
      assert general == [general[0]] + general[1..] && topic[1..] == [];
    } else {
      topic := [if general[0] == "x" then "y" else "x"];
    }
  }

  /** `general` generalises `filter`, or they are "+/#" and "#", which differ only on the empty list of levels. */
  predicate Includes(general: seq<string>, filter: seq<string>) {
    Covers(general, filter) || (general == ["+", "#"] && filter == ["#"])
  }

  lemma UnincludedFilterHasTopic(general: seq<string>, filter: seq<string>) returns (topic: seq<string>)
    requires WellFormed(general) && WellFormed(filter) && SlashFree(filter) && general != [] && filter != []
    requires !Includes(general, filter)
    ensures topic != [] && Plain(topic) && Match(filter, topic) && !Match(general, topic)
  {
    if filter == ["#"] {
      topic := HashIsTheWidest(general);
    } else {
      topic := UncoveredFilterHasWitness(general, filter);
    }
  }

  /**
   A valid filter matches every topic another one does exactly if it generalises it; topics without
   wildcards are enough to tell.
   */
  lemma InclusionIsSyntactic(general: string, filter: string)
    requires WellFormed(Split(general)) && WellFormed(Split(filter))
    ensures var g, f := Split(general), Split(filter);
            && (Includes(g, f) ==> forall topic: string :: Match(f, Split(topic)) ==> Match(g, Split(topic)))
            && (!Includes(g, f) ==>
                  exists topic: string :: !IsWildcard(topic) && Match(f, Split(topic)) && !Match(g, Split(topic)))
  {
    var g, f := Split(general), Split(filter);
    if Includes(g, f) {
      forall topic: string | Match(f, Split(topic)) ensures Match(g, Split(topic)) {
        if Covers(g, f) {
          CoveringFilterMatchesMore(g, f, Split(topic));
        } else {
          assert g[1..] == ["#"];
        }
      }
    } else {
      var levels := UnincludedFilterHasTopic(g, f);
      var topic := Join(levels);
      JoinIsUndoneBySplit(levels);
      WildcardIsPerLevel(topic);
      assert !IsWildcard(topic) && Match(f, Split(topic)) && !Match(g, Split(topic));
    }
  }
}
