/** The bounds on a metrics read (internal/integrations/prometheus/tools.go, internal/integrations/tool.go). */
module RangeQueries {
  import opened Text

  const MAX_SERIES: nat := 50
  const MAX_SAMPLES: nat := 240
  const SECOND: int := 1_000_000_000
  const MAX_WINDOW: int := 24 * 3600 * SECOND

  datatype Reading = Finite(value: real) | Infinite(negative: bool) | NotANumber

  datatype Pair = Pair(timestamp: int, reading: Reading)

  // --- thinning a series -----------------------------------------------------------------------

  /** Which of `n` samples stands at a retained position. */
  function At(index: nat, n: nat): (at: nat)
    requires n > MAX_SAMPLES
  {
    index * (n - 1) / (MAX_SAMPLES - 1)
  }

  lemma {:induction false} AtSteps(index: nat, n: nat)
    requires n > MAX_SAMPLES
    ensures At(index, n) + (n - 1) / 239 <= At(index + 1, n) <= At(index, n) + (n - 1) / 239 + 1
  {
    assert (index + 1) * (n - 1) == index * (n - 1) + (n - 1);
  }

  lemma AtEnds(n: nat)
    requires n > MAX_SAMPLES
    ensures At(0, n) == 0 && At(239, n) == n - 1
  {
  }

  lemma {:induction false} AtRises(i: nat, j: nat, n: nat)
    requires n > MAX_SAMPLES && i < j
    ensures At(i, n) < At(j, n)
  {
    AtSteps(j - 1, n);
    if i < j - 1 {
      AtRises(i, j - 1, n);
    }
  }

  /** All positions are in range, and the first and the last sample are among them. */
  lemma {:induction false} AtInRange(index: nat, n: nat)
    requires n > MAX_SAMPLES && index < MAX_SAMPLES
    ensures At(index, n) < n
    ensures At(index, n) == 0 <==> index == 0
    ensures At(index, n) == n - 1 <==> index == 239
  {
    AtEnds(n);
    if index > 0 {
      AtRises(0, index, n);
    }
    if index < 239 {
      AtRises(index, 239, n);
    }
  }

  /** The retained position at or before a sample. */
  lemma {:induction false} RetainedBefore(j: nat, n: nat, upto: nat) returns (i: nat)
    requires n > MAX_SAMPLES && 1 <= upto <= 239 && j < At(upto, n)
    ensures i < upto && At(i, n) <= j < At(i + 1, n)
  {
    AtEnds(n);
    if At(upto - 1, n) <= j {
      i := upto - 1;
    } else {
      i := RetainedBefore(j, n, upto - 1);
    }
  }

  /** No dropped sample is further than one even spacing from a retained one. */
  lemma {:induction false} NothingIsFar(j: nat, n: nat)
    requires n > MAX_SAMPLES && j < n
    ensures exists i: nat :: i < MAX_SAMPLES && At(i, n) <= j <= At(i, n) + (n - 1) / 239
  {
    AtEnds(n);
    if j == n - 1 {
      assert At(239, n) <= j <= At(239, n) + (n - 1) / 239;
    } else {
      var i := RetainedBefore(j, n, 239);
      AtSteps(i, n);
    }
  }

  /** A thinned series: all of a short one; of a long one, 240 samples in order with both ends. */
  ghost predicate Thins(points: seq<Pair>, values: seq<Pair>) {
    if |values| <= MAX_SAMPLES then points == values
    else
      && |points| == MAX_SAMPLES
      && exists positions: seq<nat> :: Evenly(positions, |values|) && points == Chosen(values, positions)
  }

  ghost predicate Evenly(positions: seq<nat>, n: nat) {
    && |positions| == MAX_SAMPLES
    && (forall i, j :: 0 <= i < j < |positions| ==> positions[i] < positions[j])
    && positions[0] == 0 && positions[239] == n - 1
    && forall i :: 0 <= i < 239 ==>
         (n - 1) / 239 <= positions[i + 1] - positions[i] <= (n - 1) / 239 + 1
  }

  ghost function Chosen(values: seq<Pair>, positions: seq<nat>): seq<Pair>
    requires Evenly(positions, |values|)
  {
    assert forall i :: 0 <= i < |positions| ==> positions[i] <= positions[239];
    seq(|positions|, i requires 0 <= i < |positions| => values[positions[i]])
  }

  ghost function Positions(n: nat): seq<nat>
    requires n > MAX_SAMPLES
  {
    seq(MAX_SAMPLES, i => if i >= 0 then At(i, n) else 0)
  }

  lemma {:induction false} PositionsAreEven(n: nat)
    requires n > MAX_SAMPLES
    ensures Evenly(Positions(n), n)
  {
    var positions := Positions(n);
    AtEnds(n);
    forall i, j | 0 <= i < j < |positions| ensures positions[i] < positions[j] {
      AtRises(i, j, n);
    }
    forall i | 0 <= i < 239
      ensures (n - 1) / 239 <= positions[i + 1] - positions[i] <= (n - 1) / 239 + 1
    {
      AtSteps(i, n);
    }
  }

  method Thin(values: seq<Pair>) returns (points: seq<Pair>)
    ensures Thins(points, values)
  {
    var count := if |values| < MAX_SAMPLES then |values| else MAX_SAMPLES;
    var buffer := new Pair[count];
    for index := 0 to count
      invariant forall i :: 0 <= i < index ==>
        buffer[i] == values[if |values| > MAX_SAMPLES then AtWithin(i, |values|) else i]
    {
      var at := index;
      if |values| > MAX_SAMPLES {
        AtInRange(index, |values|);
        at := index * (|values| - 1) / (MAX_SAMPLES - 1);
      }
      buffer[index] := values[at];
    }
    points := buffer[..];
    if |values| > MAX_SAMPLES {
      var positions := Positions(|values|);
      PositionsAreEven(|values|);
      assert points == Chosen(values, positions);
    }
  }

  function AtWithin(index: nat, n: nat): (at: nat)
    requires n > MAX_SAMPLES && index < MAX_SAMPLES
    ensures at == At(index, n) && at < n
  {
    AtInRange(index, n);
    At(index, n)
  }

  // --- results in the tool's own shape ---------------------------------------------------------

  datatype Sample = Sample(labels: map<string, string>, pair: Pair, histogram: bool)

  datatype Stream = Stream(labels: map<string, string>, values: seq<Pair>, histograms: nat)

  datatype Answer =
    | MissingVector
    | Vector(samples: seq<Option<Sample>>)
    | MissingMatrix
    | Matrix(streams: seq<Option<Stream>>)
    | Scalar(pair: Pair)
    | Unsupported

  datatype Series = Series(labels: map<string, string>, samples: seq<Pair>)

  datatype Normalized = Refused | Normal(series: seq<Series>, limited: bool)

  function Kept<T>(all: seq<T>): (kept: seq<T>)
    ensures kept <= all && |kept| == if |all| > MAX_SERIES then MAX_SERIES else |all|
  {
    if |all| > MAX_SERIES then all[..MAX_SERIES] else all
  }

  /** An absent value is decoded as zero at zero, so that reading is refused with the missing ones. */
  predicate UsableSample(sample: Option<Sample>) {
    sample.Some? && !sample.value.histogram && sample.value.pair != Pair(0, Finite(0.0))
  }

  predicate UsableStream(stream: Option<Stream>) {
    stream.Some? && stream.value.histograms == 0
  }

  ghost predicate OfSample(one: Series, sample: Option<Sample>) {
    UsableSample(sample) && one == Series(sample.value.labels, [sample.value.pair])
  }

  ghost predicate OfStream(one: Series, stream: Option<Stream>) {
    UsableStream(stream) && one.labels == stream.value.labels && Thins(one.samples, stream.value.values)
  }

  predicate Long(stream: Option<Stream>) {
    stream.Some? && |stream.value.values| > MAX_SAMPLES
  }

  method NormalizeVector(samples: seq<Option<Sample>>) returns (r: Normalized)
    ensures r.Refused? <==> exists i :: 0 <= i < |Kept(samples)| && !UsableSample(Kept(samples)[i])
    ensures r.Normal? ==> |r.series| == |Kept(samples)| && r.limited == (|samples| > MAX_SERIES)
    ensures r.Normal? ==> forall i :: 0 <= i < |r.series| ==> OfSample(r.series[i], samples[i])
  {
    var typed := Kept(samples);
    var series := [];
    for index := 0 to |typed|
      invariant |series| == index
      invariant forall i :: 0 <= i < index ==> OfSample(series[i], typed[i])
    {
      if !UsableSample(typed[index]) {
        return Refused;
      }
      series := series + [Series(typed[index].value.labels, [typed[index].value.pair])];
    }
    r := Normal(series, |samples| > MAX_SERIES);
  }

  method NormalizeMatrix(streams: seq<Option<Stream>>) returns (r: Normalized)
    ensures r.Refused? <==> exists i :: 0 <= i < |Kept(streams)| && !UsableStream(Kept(streams)[i])
    ensures r.Normal? ==> |r.series| == |Kept(streams)|
    ensures r.Normal? ==> forall i :: 0 <= i < |r.series| ==> OfStream(r.series[i], streams[i])
    ensures r.Normal? ==>
              (r.limited <==> |streams| > MAX_SERIES || exists i :: 0 <= i < |r.series| && Long(streams[i]))
  {
    var typed := Kept(streams);
    var limited := |streams| > MAX_SERIES;
    var series := [];
    for index := 0 to |typed|
      invariant |series| == index
      invariant forall i :: 0 <= i < index ==> OfStream(series[i], typed[i])
      invariant limited <==> |streams| > MAX_SERIES || exists i :: 0 <= i < index && Long(typed[i])
    {
      if !UsableStream(typed[index]) {
        return Refused;
      }
      var points := Thin(typed[index].value.values);
      limited := limited || |typed[index].value.values| > MAX_SAMPLES;
      series := series + [Series(typed[index].value.labels, points)];
    }
    r := Normal(series, limited);
  }

  lemma {:induction false} ThinnedIsBounded(points: seq<Pair>, values: seq<Pair>)
    requires Thins(points, values)
    ensures |points| <= MAX_SAMPLES
    ensures values != [] ==> points != [] && points[0] == values[0] && points[|points| - 1] == values[|values| - 1]
    ensures forall p :: p in points ==> p in values
  {
    if |values| > MAX_SAMPLES {
      var positions :| Evenly(positions, |values|) && points == Chosen(values, positions);
    }
  }

  /** Whatever came back, what goes on is at most 50 series of at most 240 samples. */
  method Normalize(answer: Answer) returns (r: Normalized)
    ensures r.Normal? ==> |r.series| <= MAX_SERIES
    ensures r.Normal? ==> forall i :: 0 <= i < |r.series| ==> |r.series[i].samples| <= MAX_SAMPLES
    ensures r.Refused? <==>
              || answer.MissingVector? || answer.MissingMatrix? || answer.Unsupported?
              || (answer.Vector? && var kept := Kept(answer.samples);
                  exists i :: 0 <= i < |kept| && !UsableSample(kept[i]))
              || (answer.Matrix? && var kept := Kept(answer.streams);
                  exists i :: 0 <= i < |kept| && !UsableStream(kept[i]))
    ensures r.Normal? && answer.Matrix? ==>
              |r.series| == |Kept(answer.streams)| &&
              forall i :: 0 <= i < |r.series| ==> OfStream(r.series[i], answer.streams[i])
    ensures r.Normal? && answer.Vector? ==>
              |r.series| == |Kept(answer.samples)| &&
              forall i :: 0 <= i < |r.series| ==> OfSample(r.series[i], answer.samples[i])
    ensures r.Normal? && answer.Scalar? ==> r == Normal([Series(map[], [answer.pair])], false)
    ensures r.Normal? ==>
              (!r.limited <==>
               || answer.Scalar?
               || (answer.Vector? && |answer.samples| <= MAX_SERIES)
               || (answer.Matrix? && |answer.streams| <= MAX_SERIES
                   && forall i :: 0 <= i < |answer.streams| ==> !Long(answer.streams[i])))
  {
    match answer
    case Vector(samples) =>
      r := NormalizeVector(samples);
    case Matrix(streams) =>
      r := NormalizeMatrix(streams);
      if r.Normal? {
        forall i | 0 <= i < |r.series| ensures |r.series[i].samples| <= MAX_SAMPLES {
          ThinnedIsBounded(r.series[i].samples, streams[i].value.values);
        }
      }
    case Scalar(pair) =>
      r := Normal([Series(map[], [pair])], false);
    case _ =>
      r := Refused;
  }

  // --- the window ------------------------------------------------------------------------------

  /** A moment in nanoseconds; the zero time stands for none. */
  type Time = int

  predicate IsZero(t: Time) {
    t == 0
  }

  datatype Request = Request(windowFrom: Time, windowUntil: Time)

  predicate Bounded(request: Request) {
    !IsZero(request.windowFrom) && !IsZero(request.windowUntil) && request.windowFrom <= request.windowUntil
  }

  predicate Between(from: Time, t: Time, until: Time) {
    from <= t <= until
  }

  /** Cuts an interval to the Investigation's; one that ends before it begins is not moved inside. */
  method ClampWindow(request: Request, from0: Time, until0: Time) returns (from: Time, until: Time)
    ensures Bounded(request) ==>
              (request.windowFrom <= from <= until <= request.windowUntil
               <==> IsZero(until0) || request.windowFrom <= until0)
    ensures !IsZero(request.windowUntil) ==> until <= request.windowUntil
    ensures Bounded(request) && !IsZero(from0) && !IsZero(until0) && from0 <= until0
            && from0 <= request.windowUntil && request.windowFrom <= until0 ==>
              && from <= until
              && forall t: Time :: Between(from, t, until)
                   <==> Between(from0, t, until0) && Between(request.windowFrom, t, request.windowUntil)
  {
    from, until := from0, until0;
    if !IsZero(request.windowFrom) && (IsZero(from) || from < request.windowFrom) {
      from := request.windowFrom;
    }
    if !IsZero(request.windowUntil) && (IsZero(until) || until > request.windowUntil) {
      until := request.windowUntil;
    }
    if !IsZero(from) && !IsZero(until) && from > until {
      from := until;
    }
  }

  datatype Window = NoWindow | Window(from: Time, until: Time, limited: bool)

  /** A moment as the caller gave it: unreadable, left out (zero), or a time. */
  datatype Moment = Unreadable | Moment(at: Time)

  function OrElse(moment: Moment, fallback: Time): Time
    requires moment.Moment?
  {
    if IsZero(moment.at) then fallback else moment.at
  }

  /** The moments asked for that lie in the Investigation's window. */
  predicate Wanted(request: Request, start: Moment, end: Moment, t: Time)
    requires start.Moment? && end.Moment?
  {
    && Between(OrElse(start, request.windowFrom), t, OrElse(end, request.windowUntil))
    && Between(request.windowFrom, t, request.windowUntil)
  }

  /** Gives the wanted moments of the last 24 hours before the latest wanted one; refuses when there is none. */
  method QueryWindow(request: Request, start: Moment, end: Moment) returns (r: Window)
    ensures r.Window? <==>
              Bounded(request) && start.Moment? && end.Moment? && exists t :: Wanted(request, start, end, t)
    ensures r.Window? ==> request.windowFrom <= r.from <= r.until <= request.windowUntil
    ensures r.Window? ==> 0 <= r.until - r.from <= MAX_WINDOW
    ensures r.Window? ==>
              forall t: Time :: Between(r.from, t, r.until)
                                <==> Wanted(request, start, end, t) && r.until - MAX_WINDOW <= t
    ensures r.Window? ==> Wanted(request, start, end, r.until)
    ensures r.Window? ==> forall t: Time :: Wanted(request, start, end, t) ==> t <= r.until
    ensures r.Window? ==> (r.limited <==> exists t :: Wanted(request, start, end, t) && t < r.from)
  {
    if IsZero(request.windowFrom) || IsZero(request.windowUntil) || request.windowFrom > request.windowUntil {
      return NoWindow;
    }
    if start.Unreadable? || end.Unreadable? {
      return NoWindow;
    }
    var from, until := OrElse(start, request.windowFrom), OrElse(end, request.windowUntil);
    if from > until || until < request.windowFrom || from > request.windowUntil {
      return NoWindow;
    }
    from, until := ClampWindow(request, from, until);
    assert Between(from, until, until) && Between(from, from, until);
    assert Wanted(request, start, end, from) && Wanted(request, start, end, until);
    var limited := until - from > MAX_WINDOW;
    if limited {
      from := until - MAX_WINDOW;
    }
    r := Window(from, until, limited);
  }

  // --- the step --------------------------------------------------------------------------------

  datatype StepArgument = Absent | NotANumberGiven | Given(number: real)

  function Ceiling(n: nat, d: nat): (q: nat)
    requires d > 0
    ensures n <= q * d && (q > 0 ==> (q - 1) * d < n)
  {
    (n + d - 1) / d
  }

  function MinimumStep(duration: nat): (step: nat)
    ensures step >= 1
  {
    var step := Ceiling(duration, 239 * SECOND);
    if step < 1 then 1 else step
  }

  lemma {:induction false} StepIsLongEnough(duration: nat, step: nat)
    ensures step >= MinimumStep(duration) <==> step >= 1 && duration <= step * (239 * SECOND)
  {
    var least := Ceiling(duration, 239 * SECOND);
    if step < least {
      assert step * (239 * SECOND) <= (least - 1) * (239 * SECOND);
    }
  }

  /** A range evaluation visits its start and every whole step after it up to its end. */
  predicate Evaluates(from: Time, until: Time, step: nat, k: nat) {
    from + k * step * SECOND <= until
  }

  /** Within the 24-hour cap, any step that is long enough evaluates at most 240 moments, all inside the window. */
  lemma {:induction false} EvaluationsAreBounded(from: Time, until: Time, step: nat, k: nat)
    requires from <= until && step >= MinimumStep(until - from) && Evaluates(from, until, step, k)
    ensures k < MAX_SAMPLES && from <= from + k * step * SECOND <= until
  {
    StepIsLongEnough(until - from, step);
    assert k >= 240 ==> k * step >= 240 * step;
  }

  /** A step under which a range evaluates at most as many moments as samples are kept. */
  ghost predicate EvaluatesFew(from: Time, until: Time, step: nat) {
    forall k: nat :: Evaluates(from, until, step, k) ==> k < MAX_SAMPLES
  }

  lemma {:induction false} EvaluatesFewExactlyWhen(from: Time, until: Time, step: nat)
    requires from <= until && step >= 1
    ensures EvaluatesFew(from, until, step) <==> until - from < 240 * step * SECOND
  {
    if until - from < 240 * step * SECOND {
      forall k: nat | Evaluates(from, until, step, k) ensures k < MAX_SAMPLES {
        assert k >= 240 ==> k * step >= 240 * step;
      }
    } else {
      assert Evaluates(from, until, step, 240);
    }
  }

  /** Exactly when a step is raised although it would have evaluated few enough moments. */
  lemma {:induction false} RaisedNeedlesslyExactlyWhen(from: Time, until: Time, step: nat)
    requires from <= until && step >= 1
    ensures step < MinimumStep(until - from) && EvaluatesFew(from, until, step)
            <==> 239 * step * SECOND < until - from < 240 * step * SECOND
  {
    StepIsLongEnough(until - from, step);
    EvaluatesFewExactlyWhen(from, until, step);
  }

  /** A step of one second over 239.5 seconds evaluates 240 moments and is raised to two. */
  lemma {:induction false} RaisedNeedlesslyAt(from: Time)
    ensures var until := from + 239 * SECOND + SECOND / 2;
            MinimumStep(until - from) == 2 && EvaluatesFew(from, until, 1) && Evaluates(from, until, 1, 239)
  {
    RaisedNeedlesslyExactlyWhen(from, from + 239 * SECOND + SECOND / 2, 1);
    StepIsLongEnough(239 * SECOND + SECOND / 2, 2);
  }

  datatype Step = BadStep | Step(seconds: nat, raised: bool)

  predicate WholeStep(argument: StepArgument) {
    argument.Given? && argument.number == argument.number.Floor as real && 1.0 <= argument.number <= 86400.0
  }

  /** The step of a range read: the caller's own where it is long enough, otherwise the least that is. */
  method ChooseStep(window: Window, argument: StepArgument) returns (r: Step)
    requires window.Window? && 0 <= window.until - window.from <= MAX_WINDOW
    ensures r.BadStep? <==> argument != Absent && !WholeStep(argument)
    ensures r.Step? ==> 1 <= r.seconds <= 86400
    ensures r.Step? ==> forall k: nat :: Evaluates(window.from, window.until, r.seconds, k) ==> k < MAX_SAMPLES
    ensures r.Step? && WholeStep(argument) ==> r.seconds as real >= argument.number
    ensures r.Step? ==>
              (r.raised <==>
               && WholeStep(argument)
               && window.until - window.from > argument.number.Floor * (239 * SECOND))
    ensures r.Step? && !r.raised && WholeStep(argument) ==> r.seconds as real == argument.number
    ensures r.Step? && (r.raised || argument == Absent) ==>
              forall s: nat :: s >= 1 && window.until - window.from <= s * (239 * SECOND) ==> r.seconds <= s
  {
    var duration := window.until - window.from;
    var minimumStep := MinimumStep(duration);
    StepIsLongEnough(duration, 86400);
    var step;
    match argument {
      case Absent =>
        step := minimumStep;
      case NotANumberGiven =>
        return BadStep;
      case Given(number) =>
        if number != number.Floor as real || number < 1.0 || number.Floor > 86400 {
          return BadStep;
        }
        step := number.Floor;
        StepIsLongEnough(duration, step);
    }
    var raised := step < minimumStep;
    if raised {
      step := minimumStep;
    }
    forall k: nat | Evaluates(window.from, window.until, step, k) ensures k < MAX_SAMPLES {
      EvaluationsAreBounded(window.from, window.until, step, k);
    }
    forall s: nat | s >= 1 && duration <= s * (239 * SECOND) ensures minimumStep <= s {
      StepIsLongEnough(duration, s);
    }
    r := Step(step, raised);
  }
}
