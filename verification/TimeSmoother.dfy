/**
 TimeSmoother (web/navigation/time_smoother.cc). Times are microseconds; adding to
 one saturates at the largest 64-bit value, as base::Time is assumed to do.
 */
module TimeSmoother {
  type Time = int

  const MAX: Time := 0x7FFF_FFFF_FFFF_FFFF

  datatype Marks = Marks(low: Time, high: Time)

  function Later(t: Time): Time {
    if t < MAX then t + 1 else MAX
  }

  predicate Adjusts(m: Marks, t: Time) {
    m.low <= t <= m.high
  }

  /** The water marks after a call; the call returns the high one. */
  function After(m: Marks, t: Time): Marks {
    if Adjusts(m, t) then m.(high := Later(m.high)) else Marks(t, t)
  }

  function Run(inputs: seq<Time>): Marks {
    if inputs == [] then Marks(0, 0) else After(Run(inputs[..|inputs| - 1]), inputs[|inputs| - 1])
  }

  /** The number of adjusted calls since the marks were last reset. */
  function Adjusted(inputs: seq<Time>): nat {
    if inputs == [] then 0
    else
      var front := inputs[..|inputs| - 1];
      if Adjusts(Run(front), inputs[|inputs| - 1]) then Adjusted(front) + 1 else 0
  }

  /** What call `i` returned. */
  function Output(inputs: seq<Time>, i: nat): Time
    requires i < |inputs|
  {
    Run(inputs[..i + 1]).high
  }

  predicate InRange(inputs: seq<Time>) {
    forall i :: 0 <= i < |inputs| ==> inputs[i] <= MAX
  }

  lemma RunStep(inputs: seq<Time>, i: nat)
    requires i < |inputs|
    ensures Run(inputs[..i + 1]) == After(Run(inputs[..i]), inputs[i])
    ensures Adjusted(inputs[..i + 1]) == if Adjusts(Run(inputs[..i]), inputs[i]) then Adjusted(inputs[..i]) + 1 else 0
  {
    assert inputs[..i + 1][..i] == inputs[..i];
  }

  /** Bounded lag: for every input sequence, backward jumps included, the result is at
      least the input and ahead of it by at most the adjusted calls of this run; exactly
      that many microseconds separate the marks until the clock's range is used up. */
  lemma {:induction false} LagIsBounded(inputs: seq<Time>)
    requires InRange(inputs)
    ensures Run(inputs).low <= Run(inputs).high <= MAX
    ensures Run(inputs).high == if Run(inputs).low + Adjusted(inputs) <= MAX then Run(inputs).low + Adjusted(inputs) else MAX
    ensures inputs != [] ==> var t := inputs[|inputs| - 1]; t <= Run(inputs).high <= t + Adjusted(inputs)
  {
    if inputs != [] {
      LagIsBounded(inputs[..|inputs| - 1]);
    }
  }

  /** Uniqueness within a run: the outputs since the last reset are the consecutive
      microseconds that end at the high mark. */
  lemma {:induction false} OutputsAreConsecutive(inputs: seq<Time>, k: nat)
    requires InRange(inputs) && Run(inputs).high < MAX
    requires k < |inputs| && k <= Adjusted(inputs)
    ensures Output(inputs, |inputs| - 1 - k) == Run(inputs).high - k
    decreases k
  {
    var n := |inputs|;
    assert inputs[..n] == inputs;
    if k > 0 {
      var front := inputs[..n - 1];
      RunStep(inputs, n - 1);
      LagIsBounded(front);
      LagIsBounded(inputs);
      OutputsAreConsecutive(front, k - 1);
      assert front[..n - 1 - k + 1] == inputs[..n - 1 - k + 1];
    }
  }

  /** Two calls in a row return the same time only at the end of the clock's range. */
  lemma NeighboursDiffer(inputs: seq<Time>, i: nat)
    requires InRange(inputs) && 0 < i < |inputs|
    ensures Output(inputs, i) == Output(inputs, i - 1) <==>
      Output(inputs, i - 1) == MAX && inputs[i] >= Run(inputs[..i]).low
  {
    RunStep(inputs, i);
    LagIsBounded(inputs[..i]);
  }

  ghost predicate NonDecreasing(inputs: seq<Time>) {
    forall i, j :: 0 <= i < j < |inputs| ==> inputs[i] <= inputs[j]
  }

  lemma {:induction false} LowMarkIsBehind(inputs: seq<Time>)
    requires NonDecreasing(inputs) && forall i :: 0 <= i < |inputs| ==> 0 <= inputs[i]
    ensures Run(inputs).low <= if inputs == [] then 0 else inputs[|inputs| - 1]
  {
    if inputs != [] {
      LowMarkIsBehind(inputs[..|inputs| - 1]);
    }
  }

  /** A clock that never steps back gives strictly increasing results, as long as the
      range lasts. */
  lemma {:induction false} StrictlyIncreasing(inputs: seq<Time>, i: nat, j: nat)
    requires InRange(inputs) && NonDecreasing(inputs) && forall k :: 0 <= k < |inputs| ==> 0 <= inputs[k]
    requires i < j < |inputs|
    ensures Output(inputs, i) < Output(inputs, j) || Output(inputs, j) == MAX
    decreases j
  {
    RunStep(inputs, j);
    LagIsBounded(inputs[..j]);
    LowMarkIsBehind(inputs[..j]);
    if i < j - 1 {
      StrictlyIncreasing(inputs, i, j - 1);
    }
  }

  /** The calls since one last returned its time unchanged. */
  function SinceUntouched(inputs: seq<Time>): nat {
    if inputs == [] then 0
    else if Output(inputs, |inputs| - 1) == inputs[|inputs| - 1] then 0
    else SinceUntouched(inputs[..|inputs| - 1]) + 1
  }

  /** The low mark is the last time that was returned unchanged, zero if there was none. */
  lemma {:induction false} LowIsLastUntouched(inputs: seq<Time>)
    requires InRange(inputs) && Run(inputs).high < MAX
    ensures SinceUntouched(inputs) == Adjusted(inputs) <= |inputs|
    ensures Run(inputs).low ==
      if Adjusted(inputs) < |inputs| then inputs[|inputs| - 1 - Adjusted(inputs)] else 0
  {
    if inputs != [] {
      var front := inputs[..|inputs| - 1];
      assert inputs[..|inputs|] == inputs;
      RunStep(inputs, |inputs| - 1);
      if Adjusts(Run(front), inputs[|inputs| - 1]) {
        LagIsBounded(front);
        LowIsLastUntouched(front);
      }
    }
  }

  /** `t` was handed out `k` calls before the last one. */
  predicate HandedOut(inputs: seq<Time>, k: nat, t: Time) {
    k < |inputs| && Output(inputs, |inputs| - 1 - k) == t
  }

  lemma OutputOfNext(inputs: seq<Time>, t: Time)
    ensures Output(inputs + [t], |inputs|) == After(Run(inputs), t).high
  {
    var all := inputs + [t];
    assert all[..|inputs|] == inputs;
    RunStep(all, |inputs|);
  }

  /** A time is changed if and only if it was handed out already since the last time that
      was returned unchanged. */
  lemma ChangedIffUsed(inputs: seq<Time>, t: Time)
    requires InRange(inputs) && Run(inputs).high < MAX
    requires SinceUntouched(inputs) < |inputs|
    ensures Output(inputs + [t], |inputs|) != t <==>
      exists k: nat :: k <= SinceUntouched(inputs) && HandedOut(inputs, k, t)
  {
    OutputOfNext(inputs, t);
    LowIsLastUntouched(inputs);
    LagIsBounded(inputs);
    if Adjusts(Run(inputs), t) {
      OutputsAreConsecutive(inputs, Run(inputs).high - t);
      assert HandedOut(inputs, Run(inputs).high - t, t);
    } else {
      forall k: nat | k <= SinceUntouched(inputs) ensures !HandedOut(inputs, k, t) {
        OutputsAreConsecutive(inputs, k);
      }
    }
  }

  class TimeSmoother {
    var lowWaterMark: Time
    var highWaterMark: Time
    ghost var seen: seq<Time>

    ghost predicate Valid()
      reads this
    {
      Marks(lowWaterMark, highWaterMark) == Run(seen)
    }

    constructor ()
      ensures Valid() && seen == []
    {
      lowWaterMark, highWaterMark, seen := 0, 0, [];
    }

    method GetSmoothedTime(t: Time) returns (smoothed: Time)
      requires Valid()
      modifies this
      ensures Valid() && seen == old(seen) + [t]
      ensures smoothed == Output(seen, |seen| - 1)
    {
      ghost var before := seen;
      seen := seen + [t];
      assert seen[..|before|] == before && seen[..|seen|] == seen;
      if lowWaterMark <= t && t <= highWaterMark {
        highWaterMark := Later(highWaterMark);
        return highWaterMark;
      }
      lowWaterMark, highWaterMark := t, t;
      return t;
    }
  }
}
