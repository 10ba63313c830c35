/**
 The sustained-stability window in front of Ready. The window is kept in three reconciler fields; what
 it means is stated over the whole sequence of readiness calls on a clock that does not run backwards.
 */
module Stability {
  import opened FailureDomains

  const THRESHOLD: nat := 6
  const CHECK_GAP := 90
  const OBSERVATION_INTERVAL := 30

  /** A check that could not be made, one that found a blocker, or a fully stable one. */
  datatype Observation = Errored | Blocked | Stable

  /** One readiness call: its observation and its four clock readings, in seconds, in the order they are taken. */
  datatype Call = Call(gapClock: int, checkClock: int, intervalClock: int, countClock: int, observation: Observation)

  predicate Ordered(c: Call) {
    c.gapClock <= c.checkClock <= c.intervalClock <= c.countClock
  }

  /** The clock does not run backwards, within a call or between calls. */
  ghost predicate Monotone(trace: seq<Call>) {
    && (forall i | 0 <= i < |trace| :: Ordered(trace[i]))
    && forall i, j | 0 <= i < j < |trace| :: trace[i].countClock <= trace[j].gapClock
  }

  /** Every call from a on is stable, and each but the first comes soon enough after its predecessor. */
  ghost predicate Unbroken(trace: seq<Call>, a: nat) {
    && (forall j | a <= j < |trace| :: trace[j].observation == Stable)
    && forall j | a < j < |trace| :: trace[j].gapClock - trace[j - 1].checkClock <= CHECK_GAP
  }

  /** Increasing positions of calls, each taken at least the observation interval after the one before. */
  ghost predicate Spaced(trace: seq<Call>, at: seq<nat>) {
    && (forall k | 0 <= k < |at| :: at[k] < |trace|)
    && forall k | 0 <= k < |at| - 1 ::
         at[k] < at[k + 1] && trace[at[k + 1]].intervalClock - trace[at[k]].countClock >= OBSERVATION_INTERVAL
  }

  /** The sustained stability that Ready promises. */
  ghost predicate Sustained(trace: seq<Call>, at: seq<nat>) {
    |at| == THRESHOLD && Spaced(trace, at) && Unbroken(trace, at[0])
  }

  /** In seconds: six calls, each at least 30 after the one before; from the first on all are stable, and none is more than 90 late. */
  ghost predicate SixStable(trace: seq<Call>, a: nat, b: nat, c: nat, d: nat, e: nat, f: nat) {
    && a < b < c < d < e < f < |trace|
    && trace[b].intervalClock - trace[a].countClock >= 30
    && trace[c].intervalClock - trace[b].countClock >= 30
    && trace[d].intervalClock - trace[c].countClock >= 30
    && trace[e].intervalClock - trace[d].countClock >= 30
    && trace[f].intervalClock - trace[e].countClock >= 30
    && (forall j | a <= j < |trace| :: trace[j].observation == Stable)
    && forall j | a < j < |trace| :: trace[j].gapClock - trace[j - 1].checkClock <= 90
  }

  lemma SustainedIsSix(trace: seq<Call>)
    ensures (exists at :: Sustained(trace, at)) <==> exists a, b, c, d, e, f :: SixStable(trace, a, b, c, d, e, f)
  {
    hide Sustained, SixStable;
    if at :| Sustained(trace, at) {
      SixOf(trace, at);
    }
    if a: nat, b: nat, c: nat, d: nat, e: nat, f: nat :| SixStable(trace, a, b, c, d, e, f) {
      SixSustained(trace, [a, b, c, d, e, f]);
    }
  }

  lemma SixOf(trace: seq<Call>, at: seq<nat>)
    requires Sustained(trace, at)
    ensures |at| == 6 && SixStable(trace, at[0], at[1], at[2], at[3], at[4], at[5])
  {
    hide Spaced;
    SpacedPair(trace, at, 0);
    SpacedPair(trace, at, 1);
    SpacedPair(trace, at, 2);
    SpacedPair(trace, at, 3);
    SpacedPair(trace, at, 4);
  }

  lemma SixSustained(trace: seq<Call>, at: seq<nat>)
    requires |at| == 6 && SixStable(trace, at[0], at[1], at[2], at[3], at[4], at[5])
    ensures Sustained(trace, at)
  {
    SixSpaced(trace, at);
    hide Spaced;
  }

  lemma SixSpaced(trace: seq<Call>, at: seq<nat>)
    requires |at| == 6 && SixStable(trace, at[0], at[1], at[2], at[3], at[4], at[5])
    ensures Spaced(trace, at)
  {
  }

  lemma SpacedPair(trace: seq<Call>, at: seq<nat>, k: nat)
    requires Spaced(trace, at) && k + 1 < |at|
    ensures at[k] < at[k + 1] < |trace| && trace[at[k + 1]].intervalClock - trace[at[k]].countClock >= OBSERVATION_INTERVAL
  {
  }

  // ----- The window the reconciler keeps -----

  /** counted holds the positions counted since the last reset: taken greedily from the start of an unbroken stretch. */
  ghost predicate Window(trace: seq<Call>, counted: seq<nat>) {
    && Spaced(trace, counted)
    && (counted != [] ==> Unbroken(trace, counted[0]) && StartsWindow(trace, counted[0]))
    && (counted == [] ==> trace == [] || trace[|trace| - 1].observation != Stable)
    && forall k, j | 0 <= k < |counted| && counted[k] < j < Until(trace, counted, k) ::
         trace[j].intervalClock - trace[counted[k]].countClock < OBSERVATION_INTERVAL
  }

  /** The stretch that starts at a cannot be extended to the left. */
  ghost predicate StartsWindow(trace: seq<Call>, a: nat) {
    a < |trace| &&
    (a == 0 || trace[a - 1].observation != Stable || trace[a].gapClock - trace[a - 1].checkClock > CHECK_GAP)
  }

  /** Where the calls between the k-th counted one and the next end. */
  ghost function Until(trace: seq<Call>, counted: seq<nat>, k: nat): (r: nat)
    requires k < |counted| && Spaced(trace, counted)
    ensures r <= |trace|
  {
    if k + 1 < |counted| then counted[k + 1] else |trace|
  }

  lemma {:induction false} SpacedIncreasing(trace: seq<Call>, at: seq<nat>, i: nat, j: nat)
    requires Spaced(trace, at) && i < j < |at|
    ensures at[i] < at[j]
    ensures Monotone(trace) ==> trace[at[j]].countClock - trace[at[i]].countClock >= OBSERVATION_INTERVAL * (j - i)
    decreases j
  {
    if i < j - 1 {
      SpacedIncreasing(trace, at, i, j - 1);
    }
  }

  /** Six observations thirty seconds apart span at least two and a half minutes. */
  lemma SustainedSpan(trace: seq<Call>, at: seq<nat>)
    requires Monotone(trace) && Sustained(trace, at)
    ensures trace[at[THRESHOLD - 1]].countClock - trace[at[0]].countClock >= 150
    ensures forall i, j | 0 <= i < j < THRESHOLD :: trace[at[j]].countClock - trace[at[i]].countClock >= OBSERVATION_INTERVAL
  {
    forall i, j | 0 <= i < j < THRESHOLD ensures trace[at[j]].countClock - trace[at[i]].countClock >= OBSERVATION_INTERVAL * (j - i) {
      SpacedIncreasing(trace, at, i, j);
    }
  }

  /** The window starts no later than any unbroken stretch that reaches the present. */
  lemma WindowStartsFirst(trace: seq<Call>, counted: seq<nat>, a: nat)
    requires Window(trace, counted) && a < |trace| && Unbroken(trace, a)
    ensures counted != [] && counted[0] <= a
  {
    assert trace[|trace| - 1].observation == Stable;
  }

  /** Counting greedily loses nothing: any spaced observations in the stretch are matched, position by position. */
  lemma {:induction false} GreedyKeepsUp(trace: seq<Call>, counted: seq<nat>, at: seq<nat>, k: nat)
    requires Monotone(trace) && Window(trace, counted) && k < |at| && Spaced(trace, at) && Unbroken(trace, at[0])
    ensures k < |counted| && counted[k] <= at[k]
  {
    if k == 0 {
      WindowStartsFirst(trace, counted, at[0]);
    } else {
      GreedyKeepsUp(trace, counted, at, k - 1);
      var g, c := counted[k - 1], at[k];
      assert g <= at[k - 1] < c;
      assert trace[g].countClock <= trace[at[k - 1]].countClock;
      assert trace[c].intervalClock - trace[g].countClock >= OBSERVATION_INTERVAL;
      assert !(g < c < Until(trace, counted, k - 1));
    }
  }

  /** Enough was counted exactly if there are enough spaced observations in an unbroken stretch up to now. */
  lemma EnoughCounted(trace: seq<Call>, counted: seq<nat>)
    requires Monotone(trace) && Window(trace, counted)
    ensures |counted| >= THRESHOLD <==> exists at :: Sustained(trace, at)
  {
    if |counted| >= THRESHOLD {
      var at := counted[..THRESHOLD];
      assert Sustained(trace, at);
    }
    if at :| Sustained(trace, at) {
      GreedyKeepsUp(trace, counted, at, THRESHOLD - 1);
    }
  }

  // ----- One more call -----

  lemma Append(trace: seq<Call>, c: Call)
    requires Monotone(trace) && Ordered(c) && (trace != [] ==> trace[|trace| - 1].countClock <= c.gapClock)
    ensures Monotone(trace + [c])
  {
    forall i | 0 <= i < |trace| ensures trace[i].countClock <= c.gapClock {
      assert i < |trace| - 1 ==> trace[i].countClock <= trace[|trace| - 1].gapClock;
    }
  }

  /** A call that is not stable empties the window. */
  lemma WindowEmptied(trace: seq<Call>, c: Call)
    requires c.observation != Stable
    ensures Window(trace + [c], [])
  {
  }

  /** A stable call that opens a window: the first one, or one after a reset or a long gap. */
  lemma WindowOpened(trace: seq<Call>, c: Call)
    requires c.observation == Stable
    requires trace == [] || trace[|trace| - 1].observation != Stable || c.gapClock - trace[|trace| - 1].checkClock > CHECK_GAP
    ensures Window(trace + [c], [|trace|])
  {
  }

  lemma SpacedGrows(trace: seq<Call>, counted: seq<nat>, c: Call)
    requires Spaced(trace, counted)
    ensures Spaced(trace + [c], counted)
  {
  }

  lemma UnbrokenGrows(trace: seq<Call>, a: nat, c: Call)
    requires a < |trace| && Unbroken(trace, a)
    requires c.observation == Stable && c.gapClock - trace[|trace| - 1].checkClock <= CHECK_GAP
    ensures Unbroken(trace + [c], a)
  {
    var t := trace + [c];
    assert forall j | 0 <= j < |trace| :: t[j] == trace[j];
  }

  /** A stable call within the gap extends the window, and is counted if it is late enough. */
  lemma WindowExtended(trace: seq<Call>, counted: seq<nat>, c: Call)
    requires Window(trace, counted) && counted != []
    requires c.observation == Stable && c.gapClock - trace[|trace| - 1].checkClock <= CHECK_GAP
    ensures c.intervalClock - trace[counted[|counted| - 1]].countClock >= OBSERVATION_INTERVAL ==> Window(trace + [c], counted + [|trace|])
    ensures c.intervalClock - trace[counted[|counted| - 1]].countClock < OBSERVATION_INTERVAL ==> Window(trace + [c], counted)
  {
    WindowFacts(trace, counted);
    hide Spaced, Unbroken;
    SpacedGrows(trace, counted, c);
    UnbrokenGrows(trace, counted[0], c);
    if c.intervalClock - trace[counted[|counted| - 1]].countClock >= OBSERVATION_INTERVAL {
      CountedGrows(trace, counted, c);
    } else {
      UncountedGrows(trace, counted, c);
    }
  }

  lemma SpacedAppends(trace: seq<Call>, counted: seq<nat>, c: Call)
    requires Spaced(trace, counted) && counted != []
    requires c.intervalClock - trace[counted[|counted| - 1]].countClock >= OBSERVATION_INTERVAL
    ensures Spaced(trace + [c], counted + [|trace|])
  {
  }

  lemma CountedGrows(trace: seq<Call>, counted: seq<nat>, c: Call)
    requires Window(trace, counted) && counted != [] && Unbroken(trace + [c], counted[0])
    requires c.intervalClock - trace[counted[|counted| - 1]].countClock >= OBSERVATION_INTERVAL
    ensures Window(trace + [c], counted + [|trace|])
  {
    WindowFacts(trace, counted);
    hide Spaced, Unbroken;
    var t, g := trace + [c], counted + [|trace|];
    SpacedAppends(trace, counted, c);
    assert StartsWindow(t, g[0]);
    forall k, j | 0 <= k < |g| && g[k] < j < Until(t, g, k)
      ensures t[j].intervalClock - t[g[k]].countClock < OBSERVATION_INTERVAL
    {
      assert k < |counted| && counted[k] < j < Until(trace, counted, k);
    }
  }

  lemma UncountedGrows(trace: seq<Call>, counted: seq<nat>, c: Call)
    requires Window(trace, counted) && counted != [] && Unbroken(trace + [c], counted[0])
    requires c.intervalClock - trace[counted[|counted| - 1]].countClock < OBSERVATION_INTERVAL
    ensures Window(trace + [c], counted)
  {
    var t := trace + [c];
    assert Spaced(t, counted);
    forall k, j | 0 <= k < |counted| && counted[k] < j < Until(t, counted, k)
      ensures t[j].intervalClock - t[counted[k]].countClock < OBSERVATION_INTERVAL
    {
      if j < |trace| {
        assert counted[k] < j < Until(trace, counted, k);
      } else {
        assert k == |counted| - 1;
      }
    }
  }

  // ----- The reconciler's fields -----

  class ReadyGate {
    var count: nat
    var lastCheck: Option<int>
    var lastCounted: Option<int>
    ghost var trace: seq<Call>
    ghost var counted: seq<nat>

    ghost predicate Valid()
      reads this
    {
      && Monotone(trace) && Window(trace, counted)
      && count == |counted|
      && lastCheck == (if trace == [] then None else Some(trace[|trace| - 1].checkClock))
      && lastCounted == (if counted == [] then None else Some(trace[counted[|counted| - 1]].countClock))
    }

    constructor ()
      ensures Valid() && trace == []
    {
      count, lastCheck, lastCounted := 0, None, None;
      trace, counted := [], [];
    }

    method Reset()
      modifies this`count, this`lastCounted
      ensures count == 0 && lastCounted == None
    {
      count, lastCounted := 0, None;
    }

    /** One readiness call; it reports Ready exactly when stability has been sustained up to now. */
    method EnsureReady(c: Call) returns (ready: bool)
      requires Valid() && Ordered(c) && (trace != [] ==> trace[|trace| - 1].countClock <= c.gapClock)
      modifies this
      ensures Valid() && trace == old(trace) + [c]
      ensures ready <==> exists at :: Sustained(trace, at)
      ensures ready <==> exists a, b, k, d, e, f :: SixStable(trace, a, b, k, d, e, f)
    {
      hide Window, Monotone, Sustained, NextCounted, SixStable;
      WindowFacts(trace, counted);
      NextWindow(trace, counted, c);
      NextCount(trace, counted, c);
      if lastCheck.Some? && c.gapClock - lastCheck.value > CHECK_GAP {
        Reset();
      }
      lastCheck := Some(c.checkClock);
      counted := NextCounted(trace, counted, c);
      trace := trace + [c];
      if c.observation != Stable {
        Reset();
      } else if lastCounted.None? || c.intervalClock - lastCounted.value >= OBSERVATION_INTERVAL {
        lastCounted := Some(c.countClock);
        count := count + 1;
      }
      ready := c.observation == Stable && count >= THRESHOLD;
      EnoughCounted(trace, counted);
      SustainedIsSix(trace);
    }
  }

  /** What the window keeps when a call starts. */
  ghost function Kept(trace: seq<Call>, counted: seq<nat>, c: Call): seq<nat> {
    if trace != [] && c.gapClock - trace[|trace| - 1].checkClock > CHECK_GAP then [] else counted
  }

  /** The call is late enough after the last counted one. */
  ghost predicate Due(trace: seq<Call>, counted: seq<nat>, c: Call)
    requires forall k | 0 <= k < |counted| :: counted[k] < |trace|
  {
    counted == [] || c.intervalClock - trace[counted[|counted| - 1]].countClock >= OBSERVATION_INTERVAL
  }

  /** The counted positions after one more call. */
  ghost function NextCounted(trace: seq<Call>, counted: seq<nat>, c: Call): seq<nat>
    requires forall k | 0 <= k < |counted| :: counted[k] < |trace|
  {
    var kept := Kept(trace, counted, c);
    if c.observation != Stable then []
    else if Due(trace, kept, c) then kept + [|trace|]
    else kept
  }

  /** The counter and the time of the last counted observation after one more call. */
  lemma NextCount(trace: seq<Call>, counted: seq<nat>, c: Call)
    requires forall k | 0 <= k < |counted| :: counted[k] < |trace|
    ensures
      var kept, next := Kept(trace, counted, c), NextCounted(trace, counted, c);
      && (c.observation != Stable ==> next == [])
      && (c.observation == Stable && Due(trace, kept, c) ==> |next| == |kept| + 1 && next[|next| - 1] == |trace|)
      && (c.observation == Stable && !Due(trace, kept, c) ==> next == kept && next != [] && (trace + [c])[next[|next| - 1]] == trace[next[|next| - 1]])
  {
  }

  lemma NextWindow(trace: seq<Call>, counted: seq<nat>, c: Call)
    requires Monotone(trace) && Window(trace, counted) && Ordered(c)
    requires trace != [] ==> trace[|trace| - 1].countClock <= c.gapClock
    requires forall k | 0 <= k < |counted| :: counted[k] < |trace|
    ensures Monotone(trace + [c]) && Window(trace + [c], NextCounted(trace, counted, c))
  {
    hide Window, Monotone;
    Append(trace, c);
    WindowFacts(trace, counted);
    var kept := Kept(trace, counted, c);
    if c.observation != Stable {
      WindowEmptied(trace, c);
    } else if kept == [] {
      WindowOpened(trace, c);
      assert kept + [|trace|] == [|trace|];
    } else {
      WindowExtended(trace, counted, c);
    }
  }

  lemma WindowFacts(trace: seq<Call>, counted: seq<nat>)
    requires Window(trace, counted)
    ensures counted == [] ==> trace == [] || trace[|trace| - 1].observation != Stable
    ensures forall k | 0 <= k < |counted| :: counted[k] < |trace|
    ensures counted != [] ==> trace != []
  {
  }
}
