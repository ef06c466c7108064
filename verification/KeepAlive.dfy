/**
 The keep-alive timer of a session (section 3.1 of the MQTT V3.1 specification): at each
 tick a client that has been idle for more than one and a half times its keep-alive
 interval is disconnected.
 */
module KeepAlive {
  import opened Runs

  /** The deadline as computed: a floating-point sum truncated to whole seconds. */
  function Deadline(lastOp: nat, k: nat): int {
    (lastOp as real + k as real * 1.5).Floor
  }

  predicate OverIdle(lastOp: nat, k: nat, now: nat) {
    now - Deadline(lastOp, k) > 0
  }

  /** Truncation costs nothing: the test is exactly idle > 1.5 k. */
  lemma TruncationIsExact(lastOp: nat, k: nat, now: nat)
    ensures OverIdle(lastOp, k, now) <==> 2 * (now - lastOp) > 3 * k
  {
    var exact := lastOp as real + k as real * 1.5;
    assert exact.Floor as real <= exact < exact.Floor as real + 1.0;
    assert 2.0 * exact == (2 * lastOp + 3 * k) as real;
  }

  /** The time of the j-th tick. */
  function Tick(start: nat, k: nat, j: nat): nat {
    if j == 0 then start else Tick(start, k, j - 1) + k
  }

  predicate Ordered(ops: seq<nat>) {
    forall i, j :: 0 <= i < j < |ops| ==> ops[i] <= ops[j]
  }

  /** The last operation at or before a moment; the first one is the CONNECT. */
  function LastOp(ops: seq<nat>, now: nat): nat
    requires ops != []
  {
    if |ops| == 1 || ops[|ops| - 1] <= now then ops[|ops| - 1] else LastOp(ops[..|ops| - 1], now)
  }

  predicate OverAt(start: nat, k: nat, ops: seq<nat>, j: nat)
    requires ops != []
  {
    OverIdle(LastOp(ops, Tick(start, k, j)), k, Tick(start, k, j))
  }

  /** The tick at which the client is kicked, among the first `ticks` ones. */
  ghost predicate FirstOver(start: nat, k: nat, ops: seq<nat>, ticks: nat, kick: Option<nat>)
    requires ops != []
  {
    match kick
    case None => forall j :: 1 <= j <= ticks ==> !OverAt(start, k, ops, j)
    case Some(n) => 1 <= n <= ticks && OverAt(start, k, ops, n) && forall j :: 1 <= j < n ==> !OverAt(start, k, ops, j)
  }

  /**
   The heartbeat loop over at most `ticks` ticks, for operations at the given times: from tick `died` on
   the connection is not alive, before tick `stopped` comes the stop request. It kicks at the first tick
   before both at which the client is over-idle.
   */
  method Heartbeat(start: nat, k: nat, ops: seq<nat>, ticks: nat, died: nat, stopped: nat) returns (kick: Option<nat>)
    requires ops != [] && Ordered(ops)
    ensures kick.Some? ==> 1 <= kick.value <= ticks && kick.value < died && kick.value < stopped
    ensures kick.Some? ==> OverAt(start, k, ops, kick.value)
    ensures forall j :: 1 <= j <= ticks && j < died && j < stopped && (kick.Some? ==> j < kick.value) ==>
              !OverAt(start, k, ops, j)
    ensures died > ticks && stopped > ticks ==> FirstOver(start, k, ops, ticks, kick)
  {
    var now := start;
    for j := 0 to ticks
      invariant now == Tick(start, k, j) && (j == 0 || j < stopped)
      invariant forall i :: 1 <= i <= j && i < died ==> !OverAt(start, k, ops, i)
    {
      if j + 1 >= stopped {
        return None;
      }
      now := now + k;
      var deadline := Deadline(LastOp(ops, now), k);
      var alive := j + 1 < died;
      if now - deadline > 0 && alive {
        return Some(j + 1);
      }
    }
    return None;
  }

  lemma {:induction false} LastOpIsLatest(ops: seq<nat>, now: nat)
    requires ops != [] && Ordered(ops) && ops[0] <= now
    ensures LastOp(ops, now) in ops && LastOp(ops, now) <= now
    ensures forall i :: 0 <= i < |ops| && ops[i] <= now ==> ops[i] <= LastOp(ops, now)
  {
    if |ops| > 1 && ops[|ops| - 1] > now {
      LastOpIsLatest(ops[..|ops| - 1], now);
    }
  }

  /** No two consecutive operations, nor the last one and the horizon, are more than 1.5 k apart. */
  predicate Lively(ops: seq<nat>, k: nat, horizon: nat)
    requires ops != []
  {
    && (forall i :: 0 <= i < |ops| - 1 ==> 2 * (ops[i + 1] - ops[i]) <= 3 * k)
    && 2 * (horizon - ops[|ops| - 1]) <= 3 * k
  }

  lemma {:induction false} LivelyIsNeverIdle(ops: seq<nat>, k: nat, now: nat, horizon: nat)
    requires ops != [] && Ordered(ops) && ops[0] <= now <= horizon && Lively(ops, k, horizon)
    ensures 2 * (now - LastOp(ops, now)) <= 3 * k
  {
    if |ops| > 1 && ops[|ops| - 1] > now {
      var init := ops[..|ops| - 1];
      assert init[|init| - 1] == ops[|ops| - 2];
      LivelyIsNeverIdle(init, k, now, ops[|ops| - 1]);
    }
  }

  lemma {:induction false} TicksGrow(start: nat, k: nat, i: nat, j: nat)
    requires i <= j
    ensures start <= Tick(start, k, i) <= Tick(start, k, j)
  {
    if j > 0 {
      if i < j {
        TicksGrow(start, k, i, j - 1);
      } else {
        TicksGrow(start, k, i - 1, j - 1);
      }
    }
  }

  /** A client whose gaps never exceed 1.5 k is never kicked. */
  lemma LivelyClientStays(start: nat, k: nat, ops: seq<nat>, ticks: nat, kick: Option<nat>)
    requires ops != [] && Ordered(ops) && ops[0] == start && Lively(ops, k, Tick(start, k, ticks))
    requires FirstOver(start, k, ops, ticks, kick)
    ensures kick == None
  {
    if kick.Some? {
      var now := Tick(start, k, kick.value);
      TicksGrow(start, k, kick.value, ticks);
      LivelyIsNeverIdle(ops, k, now, Tick(start, k, ticks));
      TruncationIsExact(LastOp(ops, now), k, now);
    }
  }

  /**
   A client that falls silent at its last operation, having survived until then, is kicked at the
   first tick more than 1.5 k later, hence with an idle time of at most 2.5 k.
   */
  lemma SilentClientIsKicked(start: nat, k: nat, ops: seq<nat>, ticks: nat, kick: Option<nat>)
    requires ops != [] && Ordered(ops) && ops[0] == start && FirstOver(start, k, ops, ticks, kick)
    requires var silence := ops[|ops| - 1];
             && 2 * (Tick(start, k, ticks) - silence) > 3 * k
             && forall j :: 1 <= j <= ticks && Tick(start, k, j) < silence ==> !OverAt(start, k, ops, j)
    ensures kick.Some?
    ensures var idle := Tick(start, k, kick.value) - ops[|ops| - 1];
            3 * k / 2 + 1 <= idle <= 5 * k / 2
  {
    var silence, end := ops[|ops| - 1], Tick(start, k, ticks);
    assert ticks > 0 by { assert Tick(start, k, 0) <= silence; }
    TruncationIsExact(silence, k, end);
    assert OverAt(start, k, ops, ticks);
    var n := kick.value;
    TruncationIsExact(silence, k, Tick(start, k, n));
    if n > 1 {
      assert !OverAt(start, k, ops, n - 1);
      TruncationIsExact(silence, k, Tick(start, k, n - 1));
    }
  }
}
