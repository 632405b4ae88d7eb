// The ratcheting trailing stop: what it equals, when it can loosen, and which bars cross it.

module TrailTheorems {
  import opened Prelude
  import opened Indicators
  import opened Signals

  /** The close stands above the stop of its own bar. */
  predicate Above(closes: seq<real>, losses: Series, i: nat)
    requires i < |closes| == |losses|
  {
    TrailAt(closes, losses, i).Some? && closes[i] > TrailAt(closes, losses, i).value
  }

  predicate HasTrail(closes: seq<real>, losses: Series, i: nat)
    requires i < |closes| == |losses|
  {
    TrailAt(closes, losses, i).Some?
  }

  predicate PositiveInputs(closes: seq<real>, losses: Series) {
    && |closes| == |losses|
    && (forall k :: 0 <= k < |closes| ==> 0.0 < closes[k])
    && (forall k :: 0 <= k < |losses| && losses[k].Some? ==> 0.0 < losses[k].value)
  }

  // ---- The stop is a running extreme -----------------------------------------------------------------------

  /** The stop carried over from the bar before; 0 where there is none. */
  function Carried(closes: seq<real>, losses: Series, i: nat): real
    requires i < |closes| == |losses|
  {
    if i == 0 || !HasTrail(closes, losses, i - 1) then 0.0 else TrailAt(closes, losses, i - 1).value
  }

  /** The bar closes above the stop carried over. */
  predicate Rises(closes: seq<real>, losses: Series, i: nat)
    requires i < |closes| == |losses|
  {
    closes[i] > Carried(closes, losses, i)
  }

  /** A new run of the stop begins, unless both closes stand strictly on one side of the stop carried over. */
  predicate Restarts(closes: seq<real>, losses: Series, i: nat)
    requires i < |closes| == |losses|
  {
    || i == 0
    || !HasTrail(closes, losses, i - 1)
    || (closes[i] <= Carried(closes, losses, i) <= closes[i - 1])
    || (closes[i - 1] <= Carried(closes, losses, i) <= closes[i])
  }

  function SegmentStart(closes: seq<real>, losses: Series, i: nat): (start: nat)
    requires i < |closes| == |losses|
    ensures start <= i
  {
    if i == 0 || Restarts(closes, losses, i) then i else SegmentStart(closes, losses, i - 1)
  }

  function RunningMax(closes: seq<real>, losses: Series, lo: nat, i: nat): real
    requires lo <= i < |closes| == |losses|
  {
    var stop := closes[i] - ValueOr0(losses[i]);
    if lo == i then stop else MaxReal(RunningMax(closes, losses, lo, i - 1), stop)
  }

  function RunningMin(closes: seq<real>, losses: Series, lo: nat, i: nat): real
    requires lo <= i < |closes| == |losses|
  {
    var stop := closes[i] + ValueOr0(losses[i]);
    if lo == i then stop else MinReal(RunningMin(closes, losses, lo, i - 1), stop)
  }

  /** The run began after a gap with an earlier close at hand: its first stop is floored by 0. */
  predicate Floored(closes: seq<real>, losses: Series, start: nat)
    requires start < |closes| == |losses|
  {
    0 < start && !HasTrail(closes, losses, start - 1)
  }

  lemma TrailStep(closes: seq<real>, losses: Series, i: nat)
    requires i < |closes| == |losses|
    ensures HasTrail(closes, losses, i) <==> losses[i].Some?
    ensures losses[i].Some? ==>
              TrailAt(closes, losses, i).value
              == NextTrail(if i == 0 || !HasTrail(closes, losses, i - 1) then 0.0 else TrailAt(closes, losses, i - 1).value,
                           closes[i], if i == 0 then None else Some(closes[i - 1]), losses[i].value)
  {
  }

  /** With positive losses no close ever lies on the stop of its own bar. */
  lemma NeverOnTheStop(closes: seq<real>, losses: Series, i: nat)
    requires PositiveInputs(closes, losses) && i < |closes| && HasTrail(closes, losses, i)
    ensures closes[i] != TrailAt(closes, losses, i).value
  {
    TrailStep(closes, losses, i);
  }

  /** Prices are positive and losses, where there are any, not negative: what bars and their ranges guarantee. */
  predicate PlainInputs(closes: seq<real>, losses: Series) {
    && |closes| == |losses|
    && (forall k :: 0 <= k < |closes| ==> 0.0 < closes[k])
    && (forall k :: 0 <= k < |losses| && losses[k].Some? ==> 0.0 <= losses[k].value)
  }

  lemma StopIsNotBeyond(closes: seq<real>, losses: Series, i: nat)
    requires PlainInputs(closes, losses) && i < |closes| && HasTrail(closes, losses, i)
    ensures if Rises(closes, losses, i) then TrailAt(closes, losses, i).value <= closes[i]
            else closes[i] <= TrailAt(closes, losses, i).value
  {
    TrailStep(closes, losses, i);
  }

  /**
   * The four branches compute a running extreme since the run began: the highest close - loss while the
   * closes rise above the stop carried over, floored by 0 when the run follows a gap, and the lowest
   * close + loss while they do not.
   */
  lemma {:induction false} TrailIsRunningExtreme(closes: seq<real>, losses: Series, i: nat)
    requires PlainInputs(closes, losses) && i < |closes| && HasTrail(closes, losses, i)
    ensures var start, stop := SegmentStart(closes, losses, i), TrailAt(closes, losses, i).value;
            if !Rises(closes, losses, i) then stop == RunningMin(closes, losses, start, i)
            else if Floored(closes, losses, start) then stop == MaxReal(0.0, RunningMax(closes, losses, start, i))
            else stop == RunningMax(closes, losses, start, i)
  {
    TrailStep(closes, losses, i);
    if !Restarts(closes, losses, i) {
      StopIsNotBeyond(closes, losses, i - 1);
      TrailIsRunningExtreme(closes, losses, i - 1);
    }
  }

  /** With positive losses a run ends exactly with a cross, a gap, or a close that meets the stop carried over. */
  lemma RunsEndOnCrossGapOrTouch(closes: seq<real>, losses: Series, i: nat)
    requires PositiveInputs(closes, losses) && i < |closes| && HasTrail(closes, losses, i)
    ensures Rises(closes, losses, i) <==> Above(closes, losses, i)
    ensures Restarts(closes, losses, i) <==>
              || i == 0 || !HasTrail(closes, losses, i - 1)
              || Above(closes, losses, i) != Above(closes, losses, i - 1)
              || Some(closes[i]) == TrailAt(closes, losses, i - 1)
  {
    TrailStep(closes, losses, i);
    StopIsNotBeyond(closes, losses, i);
    NeverOnTheStop(closes, losses, i);
    if 0 < i && HasTrail(closes, losses, i - 1) {
      NeverOnTheStop(closes, losses, i - 1);
    }
  }

  // ---- When the stop can loosen ----------------------------------------------------------------------------

  predicate CrossesUp(closes: seq<real>, losses: Series, i: nat)
    requires i < |closes| == |losses|
  {
    CrossAt(Defined(closes), TrailSeries(closes, losses), true, i)
  }

  predicate CrossesDown(closes: seq<real>, losses: Series, i: nat)
    requires i < |closes| == |losses|
  {
    CrossAt(Defined(closes), TrailSeries(closes, losses), false, i)
  }

  /** Crossings are exactly the bars on which the close changes its side of the stop. */
  lemma CrossesAreFlips(closes: seq<real>, losses: Series, i: nat)
    requires PositiveInputs(closes, losses) && 0 < i < |closes|
    requires HasTrail(closes, losses, i - 1) && HasTrail(closes, losses, i)
    ensures CrossesUp(closes, losses, i) <==> !Above(closes, losses, i - 1) && Above(closes, losses, i)
    ensures CrossesDown(closes, losses, i) <==> Above(closes, losses, i - 1) && !Above(closes, losses, i)
  {
    hide NextTrail;
    NeverOnTheStop(closes, losses, i - 1);
    NeverOnTheStop(closes, losses, i);
  }

  /**
   * Between crossings the stop never falls while the close is above it. Below it, the stop rises
   * exactly when the close meets the previous stop: the last branch then resets it without a signal.
   */
  lemma StopLoosensExactlyOnTouch(closes: seq<real>, losses: Series, i: nat)
    requires PositiveInputs(closes, losses) && 0 < i < |closes|
    requires HasTrail(closes, losses, i - 1) && HasTrail(closes, losses, i)
    requires !CrossesUp(closes, losses, i) && !CrossesDown(closes, losses, i)
    ensures var before, now := TrailAt(closes, losses, i - 1).value, TrailAt(closes, losses, i).value;
            if Above(closes, losses, i) then before <= now else now > before <==> closes[i] == before
  {
    CrossesAreFlips(closes, losses, i);
    NeverOnTheStop(closes, losses, i - 1);
    TrailStep(closes, losses, i);
  }

  /** A short position's stop that loosens from 9 to 10 with no signal. */
  lemma StopCanLoosen()
    ensures var closes, losses := [10.0, 8.0, 9.0], [Some(1.0), Some(1.0), Some(1.0)];
            && PositiveInputs(closes, losses)
            && !CrossesUp(closes, losses, 2) && !CrossesDown(closes, losses, 2) && !Above(closes, losses, 2)
            && TrailAt(closes, losses, 1) == Some(9.0) && TrailAt(closes, losses, 2) == Some(10.0)
  {
    var closes, losses := [10.0, 8.0, 9.0], [Some(1.0), Some(1.0), Some(1.0)];
    TrailStep(closes, losses, 0);
    TrailStep(closes, losses, 1);
    TrailStep(closes, losses, 2);
  }

  // ---- Crossings of an average-range stop ------------------------------------------------------------------

  /**
   * What an average true range of length at least 2 guarantees of the losses: missing before bar
   * n - 1, never negative, positive for ever once positive, and zero only while the close stands still.
   */
  predicate RangeLosses(closes: seq<real>, losses: Series, n: nat) {
    && 2 <= n && |closes| == |losses|
    && (forall k :: 0 <= k < |closes| ==> 0.0 < closes[k])
    && forall k :: 0 <= k < |losses| ==> LossOk(closes, losses, n, k)
  }

  predicate LossOk(closes: seq<real>, losses: Series, n: nat, k: nat)
    requires k < |losses| == |closes|
  {
    if k + 1 < n then losses[k].None?
    else
      && losses[k].Some? && 0.0 <= losses[k].value
      && (0 < k && losses[k].value == 0.0 ==> closes[k] == closes[k - 1])
      && (0 < k && n <= k && losses[k - 1].Some? && 0.0 < losses[k - 1].value ==> 0.0 < losses[k].value)
  }

  predicate Moving(losses: Series, i: nat)
    requires i < |losses|
  {
    losses[i].Some? && 0.0 < losses[i].value
  }

  /** Until the market moves the close lies on its stop; from then on, never. The first stop lies below. */
  lemma {:induction false} SidesOfTheStop(closes: seq<real>, losses: Series, n: nat, i: nat)
    requires RangeLosses(closes, losses, n) && i < |closes| && n <= i + 1
    ensures HasTrail(closes, losses, i)
    ensures Moving(losses, i) <==> closes[i] != TrailAt(closes, losses, i).value
    ensures n == i + 1 && Moving(losses, i) ==> Above(closes, losses, i)
  {
    TrailStep(closes, losses, i);
    assert LossOk(closes, losses, n, i);
    if n <= i {
      SidesOfTheStop(closes, losses, n, i - 1);
    } else {
      assert LossOk(closes, losses, n, i - 1);
      TrailStep(closes, losses, i - 1);
    }
  }

  /** No crossing in the warm-up; afterwards crossings are changes of side, opened by the first move. */
  lemma CrossesOfRangeStop(closes: seq<real>, losses: Series, n: nat, i: nat)
    requires RangeLosses(closes, losses, n) && i < |closes|
    ensures i < n ==> !CrossesUp(closes, losses, i) && !CrossesDown(closes, losses, i)
    ensures n <= i && Moving(losses, i - 1) ==>
              && Moving(losses, i)
              && (CrossesUp(closes, losses, i) <==> !Above(closes, losses, i - 1) && Above(closes, losses, i))
              && (CrossesDown(closes, losses, i) <==> Above(closes, losses, i - 1) && !Above(closes, losses, i))
    ensures n <= i && !Moving(losses, i - 1) && Moving(losses, i) ==>
              && (CrossesUp(closes, losses, i) <==> closes[i] > closes[i - 1])
              && (CrossesDown(closes, losses, i) <==> closes[i] <= closes[i - 1])
              && (Above(closes, losses, i) <==> closes[i] > closes[i - 1])
    ensures n <= i && !Moving(losses, i - 1) && !Moving(losses, i) ==>
              !CrossesUp(closes, losses, i) && !CrossesDown(closes, losses, i) && closes[i] == closes[i - 1]
  {
    if 0 < i {
      assert LossOk(closes, losses, n, i - 1) && LossOk(closes, losses, n, i);
      TrailStep(closes, losses, i - 1);
      TrailStep(closes, losses, i);
      if n <= i {
        SidesOfTheStop(closes, losses, n, i - 1);
        SidesOfTheStop(closes, losses, n, i);
      }
    }
  }
}
