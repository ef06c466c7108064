/**
 Topic strings as the broker sees them: split into levels at every slash, and
 recognised as wildcard filters by the characters '#' and '+'.
 */
module Topics {

  const SLASH: char := '/'

  /** A client connection, by its identity. */
  type Conn = nat

  /** `strings.Split(topic, "/")`: the empty string has one empty level. */
  function Split(topic: string): (levels: seq<string>)
    ensures |levels| >= 1
    ensures forall i :: 0 <= i < |levels| ==> SLASH !in levels[i]
    ensures Join(levels) == topic
  {
    if topic == "" then [""]
    else
      var rest := Split(topic[1..]);
      if topic[0] == SLASH then [""] + rest
      else [[topic[0]] + rest[0]] + rest[1..]
  }

  /** The topic whose levels are the given ones. */
  function Join(levels: seq<string>): string
    requires |levels| >= 1
  {
    if |levels| == 1 then levels[0] else levels[0] + [SLASH] + Join(levels[1..])
  }

  predicate IsWildcard(topic: string) {
    '#' in topic || '+' in topic
  }

  lemma {:induction false} JoinIsUndoneBySplit(levels: seq<string>)
    requires |levels| >= 1
    requires forall i :: 0 <= i < |levels| ==> SLASH !in levels[i]
    ensures Split(Join(levels)) == levels
    decreases |levels|, |levels[0]|
  {
    var s := Join(levels);
    if levels[0] == "" {
      if |levels| > 1 {
        assert s[0] == SLASH && s[1..] == Join(levels[1..]);
        JoinIsUndoneBySplit(levels[1..]);
      }
    } else {
      var shorter := [levels[0][1..]] + levels[1..];
      assert s[0] == levels[0][0];
      assert s[1..] == Join(shorter);
      JoinIsUndoneBySplit(shorter);
      assert [levels[0][0]] + levels[0][1..] == levels[0];
    }
  }

  lemma SplitIsInjective(a: string, b: string)
    requires Split(a) == Split(b)
    ensures a == b
  {
    assert Join(Split(a)) == a;
  }

  /** A topic is a wildcard filter exactly when one of its levels is. */
  lemma {:induction false} WildcardIsPerLevel(topic: string)
    ensures IsWildcard(topic) <==> exists i :: 0 <= i < |Split(topic)| && IsWildcard(Split(topic)[i])
  {
    if topic == "" {
      assert !IsWildcard(Split(topic)[0]);
    } else {
      var tail := topic[1..];
      var rest, levels := Split(tail), Split(topic);
      WildcardIsPerLevel(tail);
      assert topic == [topic[0]] + tail;
      if topic[0] == SLASH {
        assert forall i :: 0 <= i < |rest| ==> levels[i + 1] == rest[i];
        if i :| 0 <= i < |rest| && IsWildcard(rest[i]) {
          assert IsWildcard(levels[i + 1]);
        }
        if i :| 0 <= i < |levels| && IsWildcard(levels[i]) {
          assert IsWildcard(rest[i - 1]);
        }
      } else {
        assert levels[0] == [topic[0]] + rest[0];
        assert forall i :: 1 <= i < |rest| ==> levels[i] == rest[i];
        if IsWildcard(topic) {
          if IsWildcard(tail) {
            var i :| 0 <= i < |rest| && IsWildcard(rest[i]);
            assert IsWildcard(Split(topic)[i]);
          } else {
            assert topic[0] in levels[0];
            assert IsWildcard(Split(topic)[0]);
          }
        } else {
          assert forall i :: 0 <= i < |rest| ==> !IsWildcard(rest[i]);
          assert !IsWildcard(levels[0]);
        }
      }
    }
  }
}
