/** The subscriber's arrival-rate estimator: a history of at most 100
    frequency samples, newest first; a gap under 10 ms between two messages
    only moves the last-seen time; `hz` is the mean of the non-zero samples.
    Time is in seconds, as read from the clock, and arithmetic is exact. */
module RateEstimator {
  import opened Wrappers

  /** `FREQ_CALC_SAMPLES_MAX`, the `maxlen` of the sample deque. */
  const FreqCalcSamplesMax: nat := 100

  /** `10e-3` seconds. */
  const BurstGap: real := 0.01

  /** `_last_msg_ts`, `_msg_freq_fifo` (index 0 is the left end) and `_hz`. */
  datatype RateState = RateState(lastMsgTs: Option<real>, fifo: seq<real>, hz: real)

  /** The state the subscriber's constructor sets up. */
  const Initial: RateState := RateState(None, [], 0.0)

  /** `appendleft` on a deque with `maxlen`: the new sample goes in front and,
      when the deque is full, the sample at the right end (the oldest) drops. */
  function AppendLeft(fifo: seq<real>, x: real): (r: seq<real>)
    ensures |r| == if |fifo| < FreqCalcSamplesMax then |fifo| + 1 else FreqCalcSamplesMax
    ensures r[0] == x
    ensures forall i :: 1 <= i < |r| ==> r[i] == fifo[i - 1]
  {
    if |fifo| < FreqCalcSamplesMax then [x] + fifo else [x] + fifo[..FreqCalcSamplesMax - 1]
  }

  /** `[s for s in fifo if s != 0]`. */
  function NonZero(s: seq<real>): (r: seq<real>)
    ensures |r| <= |s|
    ensures |s| > 0 && s[0] != 0.0 ==> |r| > 0
    ensures forall x :: x in r <==> x in s && x != 0.0
  {
    if s == [] then [] else (if s[0] != 0.0 then [s[0]] else []) + NonZero(s[1..])
  }

  function Sum(s: seq<real>): real
  {
    if s == [] then 0.0 else s[0] + Sum(s[1..])
  }

  /** `_calc_msg_frequency` with the clock reading `ts`. */
  function Step(st: RateState, ts: real): RateState
  {
    match st.lastMsgTs
    case None => st.(lastMsgTs := Some(ts))
    case Some(last) =>
      var diff := ts - last;
      if diff < BurstGap then st.(lastMsgTs := Some(ts))
      else
        var fifo := AppendLeft(st.fifo, 1.0 / diff);
        var hzList := NonZero(fifo);
        RateState(Some(ts), fifo, Sum(hzList) / |hzList| as real)
  }

  /** Every sample is a frequency in (0, 100] Hz. */
  predicate Samples(s: seq<real>)
  {
    forall i :: 0 <= i < |s| ==> 0.0 < s[i] <= 100.0
  }

  /** The estimator's invariant: at most 100 samples, each in (0, 100]; no sample
      before the first message; `hz` is 0 until the first sample and the mean of
      the samples after it. */
  predicate Valid(st: RateState)
  {
    && |st.fifo| <= FreqCalcSamplesMax
    && Samples(st.fifo)
    && (st.lastMsgTs.None? ==> st.fifo == [])
    && st.hz == (if st.fifo == [] then 0.0 else Sum(st.fifo) / |st.fifo| as real)
  }

  lemma {:induction false} NonZeroOfSamples(s: seq<real>)
    requires Samples(s)
    ensures NonZero(s) == s
  {
    if s != [] {
      NonZeroOfSamples(s[1..]);
    }
  }

  lemma {:induction false} SumOfSamples(s: seq<real>)
    requires Samples(s) && s != []
    ensures 0.0 < Sum(s) <= 100.0 * |s| as real
  {
    if |s| > 1 {
      SumOfSamples(s[1..]);
    }
  }

  lemma ReciprocalOfGap(diff: real)
    requires diff >= BurstGap
    ensures 0.0 < 1.0 / diff <= 100.0
  {
    assert (1.0 / diff) * diff == 1.0;
  }

  /** Every estimator step keeps the invariant, so the history never holds more
      than 100 samples and the mean never divides by zero. */
  lemma StepKeepsValid(st: RateState, ts: real)
    requires Valid(st)
    ensures Valid(Step(st, ts))
  {
    if st.lastMsgTs.Some? && ts - st.lastMsgTs.value >= BurstGap {
      var diff := ts - st.lastMsgTs.value;
      ReciprocalOfGap(diff);
      var fifo := AppendLeft(st.fifo, 1.0 / diff);
      assert Samples(fifo);
      NonZeroOfSamples(fifo);
    }
  }

  /** A gap under 10 ms (or a clock that went backwards) changes only the
      last-seen time; any other gap after the first message pushes `1/gap`. */
  lemma BurstOnlyMovesLastSeen(st: RateState, ts: real)
    requires st.lastMsgTs.Some?
    ensures ts - st.lastMsgTs.value < BurstGap ==>
      Step(st, ts) == RateState(Some(ts), st.fifo, st.hz)
    ensures ts - st.lastMsgTs.value >= BurstGap ==>
      Step(st, ts).fifo == AppendLeft(st.fifo, 1.0 / (ts - st.lastMsgTs.value)) &&
      Step(st, ts).lastMsgTs == Some(ts)
  {
  }

  /** Once a sample is held the estimate is a frequency in (0, 100] Hz: the gap
      guard caps what a burst can report. */
  lemma MeanOfSamples(sum: real, n: nat)
    requires n > 0 && 0.0 < sum <= 100.0 * n as real
    ensures 0.0 < sum / n as real <= 100.0
  {
    var q := sum / n as real;
    assert q * n as real == sum;
    if q > 100.0 {
      assert (q - 100.0) * n as real > 0.0;
    }
  }

  lemma HzBounded(st: RateState)
    requires Valid(st) && st.fifo != []
    ensures 0.0 < st.hz <= 100.0
  {
    SumOfSamples(st.fifo);
    MeanOfSamples(Sum(st.fifo), |st.fifo|);
  }

  /** The estimator after a run of clock readings, in arrival order. */
  function Run(st: RateState, ts: seq<real>): RateState
  {
    if ts == [] then st else Step(Run(st, ts[..|ts| - 1]), ts[|ts| - 1])
  }

  /** Arrival times spaced exactly `dt` apart. */
  predicate Spaced(ts: seq<real>, dt: real)
  {
    forall k :: 0 <= k < |ts| - 1 ==> ts[k + 1] - ts[k] == dt
  }

  function Constant(n: nat, c: real): (r: seq<real>)
    ensures |r| == n && forall k :: 0 <= k < n ==> r[k] == c
  {
    seq(n, k => c)
  }

  function Min(a: nat, b: nat): nat { if a < b then a else b }

  lemma {:induction false} SumConstant(n: nat, c: real)
    ensures Sum(Constant(n, c)) == n as real * c
  {
    if n > 0 {
      assert Constant(n, c)[1..] == Constant(n - 1, c);
      SumConstant(n - 1, c);
    }
  }

  /** One step of a steady stream: a full-gap message on top of a history of
      equal samples `1/dt` adds one more (the oldest dropping at 100). */
  lemma StepOnConstantHistory(last: real, dt: real, m: nat, h: real, ts: real)
    requires dt >= BurstGap && ts - last == dt && m <= FreqCalcSamplesMax
    ensures Step(RateState(Some(last), Constant(m, 1.0 / dt), h), ts) ==
      RateState(Some(ts), Constant(Min(m + 1, FreqCalcSamplesMax), 1.0 / dt), 1.0 / dt)
  {
    var c := 1.0 / dt;
    ReciprocalOfGap(dt);
    var k := Min(m + 1, FreqCalcSamplesMax);
    var fifo := AppendLeft(Constant(m, c), c);
    assert fifo == Constant(k, c);
    NonZeroOfSamples(fifo);
    SumConstant(k, c);
    assert Sum(fifo) / k as real == c;
  }

  /** A steady stream, one message every `dt >= 10 ms`: after the first message
      the history holds one sample `1/dt` per later message (at most 100) and the
      estimate is exactly `1/dt`. */
  lemma {:induction false} SteadyStreamConverges(ts: seq<real>, dt: real)
    requires dt >= BurstGap && |ts| >= 1 && Spaced(ts, dt)
    ensures Run(Initial, ts) ==
      RateState(Some(ts[|ts| - 1]), Constant(Min(|ts| - 1, FreqCalcSamplesMax), 1.0 / dt),
                if |ts| == 1 then 0.0 else 1.0 / dt)
  {
    var n := |ts|;
    if n == 1 {
      assert ts[..0] == [];
      assert Constant(0, 1.0 / dt) == [];
    } else {
      var prefix := ts[..n - 1];
      assert Spaced(prefix, dt) by {
        forall k | 0 <= k < |prefix| - 1 ensures prefix[k + 1] - prefix[k] == dt {
          assert prefix[k] == ts[k] && prefix[k + 1] == ts[k + 1];
        }
      }
      SteadyStreamConverges(prefix, dt);
      assert ts[n - 1] - prefix[n - 2] == dt;
      StepOnConstantHistory(prefix[n - 2], dt, Min(n - 2, FreqCalcSamplesMax),
                            if n == 2 then 0.0 else 1.0 / dt, ts[n - 1]);
    }
  }

  /** With messages 50 ms apart the estimate is 20 Hz from the second message on. */
  lemma FiftyMillisecondStreamReadsTwentyHz(ts: seq<real>)
    requires |ts| >= 2 && Spaced(ts, 0.05)
    ensures Run(Initial, ts).hz == 20.0
  {
    SteadyStreamConverges(ts, 0.05);
    var hz := Run(Initial, ts).hz;
    assert hz == 1.0 / 0.05;
    assert hz * 0.05 == 1.0;
  }
}
