/** Runs of a machine given by a partial transition function. */
module Runs {

  datatype Option<+T> = None | Some(value: T)

  /** The state after a list of events, if each of them was possible when it came. */
  function Run<S, E>(next: (S, E) -> Option<S>, start: S, events: seq<E>): Option<S> {
    if events == [] then Some(start)
    else
      match Run(next, start, events[..|events| - 1])
      case None => None
      case Some(s) => next(s, events[|events| - 1])
  }

  /** What holds at the start and is kept by every step holds after every run. */
  lemma {:induction false} Invariant<S(!new), E(!new)>(next: (S, E) -> Option<S>, start: S, events: seq<E>,
                                                      inv: S -> bool)
    requires inv(start)
    requires forall s, e :: inv(s) && next(s, e).Some? ==> inv(next(s, e).value)
    ensures Run(next, start, events).Some? ==> inv(Run(next, start, events).value)
  {
    if events != [] {
      Invariant(next, start, events[..|events| - 1], inv);
    }
  }

  /** A run can be cut anywhere. */
  lemma {:induction false} RunSplits<S, E>(next: (S, E) -> Option<S>, start: S, events: seq<E>, more: seq<E>)
    ensures Run(next, start, events).None? ==> Run(next, start, events + more).None?
    ensures Run(next, start, events).Some?
            ==> Run(next, start, events + more) == Run(next, Run(next, start, events).value, more)
  {
    if more == [] {
      assert events + more == events;
    } else {
      var all := events + more;
      assert all[..|all| - 1] == events + more[..|more| - 1];
      RunSplits(next, start, events, more[..|more| - 1]);
    }
  }

  /** A trace of states that follow each other is a run. */
  lemma {:induction false} TraceIsRun<S, E>(next: (S, E) -> Option<S>, states: seq<S>, events: seq<E>)
    requires |states| == |events| + 1
    requires forall i :: 0 <= i < |events| ==> next(states[i], events[i]) == Some(states[i + 1])
    ensures Run(next, states[0], events) == Some(states[|events|])
  {
    if events != [] {
      TraceIsRun(next, states[..|events|], events[..|events| - 1]);
    }
  }

  lemma RunOne<S, E>(next: (S, E) -> Option<S>, start: S, e: E, end: S)
    requires next(start, e) == Some(end)
    ensures Run(next, start, [e]) == Some(end)
  {
    assert [e][..0] == [];
  }

  lemma RunsCompose<S, E>(next: (S, E) -> Option<S>, start: S, events: seq<E>, middle: S, more: seq<E>, end: S)
    requires Run(next, start, events) == Some(middle) && Run(next, middle, more) == Some(end)
    ensures Run(next, start, events + more) == Some(end)
  {
    RunSplits(next, start, events, more);
  }

  /** Each event of a run leads from the state after those before it to the next one. */
  lemma {:induction false} RunAt<S, E>(next: (S, E) -> Option<S>, start: S, events: seq<E>, i: nat)
    requires i < |events| && Run(next, start, events).Some?
    ensures Run(next, start, events[..i]).Some?
    ensures next(Run(next, start, events[..i]).value, events[i]) == Run(next, start, events[..i + 1])
    ensures Run(next, start, events[..i + 1]).Some?
  {
    if i + 1 < |events| {
      RunAt(next, start, events[..|events| - 1], i);
      assert events[..|events| - 1][..i] == events[..i] && events[..|events| - 1][..i + 1] == events[..i + 1];
    } else {
      assert events[..i + 1] == events;
    }
  }
}
