/** The webhook token bucket, over exact reals and milliseconds (internal/webhooks/ratelimit.go). */
module RateLimit {

  const BURST: real := 600.0
  const REFILL_INTERVAL: real := 100.0

  datatype Held = Held(tokens: real, last: real)

  /** The tokens held at `at`, before any is taken. */
  function Refilled(b: Held, at: real): real {
    var tokens := b.tokens + (at - b.last) / REFILL_INTERVAL;
    if tokens > BURST then BURST else tokens
  }

  predicate Admits(b: Held, at: real) {
    Refilled(b, at) >= 1.0
  }

  function Taken(b: Held, at: real): Held {
    Held(if Admits(b, at) then Refilled(b, at) - 1.0 else Refilled(b, at), at)
  }

  predicate Sane(b: Held) {
    0.0 <= b.tokens <= BURST
  }

  /** Requests in arrival order, none before `from`. */
  predicate Monotone(times: seq<real>, from: real) {
    forall i :: 0 <= i < |times| ==> from <= times[i] && forall j :: i < j < |times| ==> times[i] <= times[j]
  }

  function After(b: Held, times: seq<real>): Held {
    if times == [] then b else Taken(After(b, times[..|times| - 1]), times[|times| - 1])
  }

  function Admitted(b: Held, times: seq<real>): nat {
    if times == [] then 0
    else
      var n := |times| - 1;
      Admitted(b, times[..n]) + (if Admits(After(b, times[..n]), times[n]) then 1 else 0)
  }

  lemma {:induction false} StaysSane(b: Held, times: seq<real>)
    requires Sane(b) && Monotone(times, b.last)
    ensures Sane(After(b, times))
    ensures After(b, times).last == if times == [] then b.last else times[|times| - 1]
  {
    if times != [] { StaysSane(b, times[..|times| - 1]); }
  }

  /** Tokens are never made from nothing: what was admitted and what is left fit the start plus the refill. */
  lemma {:induction false} Conserves(b: Held, times: seq<real>)
    requires Sane(b) && Monotone(times, b.last) && times != []
    ensures Admitted(b, times) as real + After(b, times).tokens
            <= BURST + (times[|times| - 1] - times[0]) / REFILL_INTERVAL
  {
    var n := |times| - 1;
    StaysSane(b, times[..n]);
    if n > 0 {
      Conserves(b, times[..n]);
      var before := After(b, times[..n]);
      assert times[..n][n - 1] == times[n - 1] && before.last == times[n - 1];
      assert (times[n] - times[0]) / REFILL_INTERVAL
          == (times[n] - times[n - 1]) / REFILL_INTERVAL + (times[n - 1] - times[0]) / REFILL_INTERVAL;
    }
  }

  lemma {:induction false} Splits(b: Held, first: seq<real>, second: seq<real>)
    ensures After(b, first + second) == After(After(b, first), second)
    ensures Admitted(b, first + second) == Admitted(b, first) + Admitted(After(b, first), second)
  {
    if second == [] {
      assert first + second == first;
    } else {
      var n := |second| - 1;
      assert (first + second)[..|first| + n] == first + second[..n];
      Splits(b, first, second[..n]);
    }
  }

  lemma {:induction false} WindowIsBounded(b: Held, window: seq<real>, start: real, d: real)
    requires Sane(b) && Monotone(window, b.last) && d >= 0.0
    requires forall k :: 0 <= k < |window| ==> start <= window[k] <= start + d
    ensures Admitted(b, window) as real <= BURST + d / REFILL_INTERVAL
  {
    if window != [] {
      Conserves(b, window);
      StaysSane(b, window);
      assert window[|window| - 1] - window[0] <= d;
    }
  }

  lemma MonotoneParts(times: seq<real>, from: real, i: nat, j: nat)
    requires Monotone(times, from) && i <= j <= |times|
    ensures Monotone(times[..i], from) && Monotone(times[i..j], if i == 0 then from else times[i - 1])
  {
  }

  /** In any interval of length `d`, of any request sequence, at most the burst plus the refill is admitted. */
  lemma {:induction false} IntervalIsBounded(b: Held, times: seq<real>, i: nat, j: nat, start: real, d: real)
    requires Sane(b) && Monotone(times, b.last) && i <= j <= |times| && d >= 0.0
    requires forall k :: i <= k < j ==> start <= times[k] <= start + d
    ensures Admitted(After(b, times[..i]), times[i..j]) as real <= BURST + d / REFILL_INTERVAL
    ensures Admitted(b, times[..j]) == Admitted(b, times[..i]) + Admitted(After(b, times[..i]), times[i..j])
  {
    MonotoneParts(times, b.last, i, j);
    StaysSane(b, times[..i]);
    assert times[..j] == times[..i] + times[i..j];
    Splits(b, times[..i], times[i..j]);
    WindowIsBounded(After(b, times[..i]), times[i..j], start, d);
  }

  // --- exactly what is refused -----------------------------------------------------------------

  /** What one more request at `at` may be weighed against, from the start and from each earlier request i. */
  function FromStart(b: Held, times: seq<real>, at: real): real {
    b.tokens + (at - b.last) / REFILL_INTERVAL - Admitted(b, times) as real
  }

  function FromRequest(b: Held, times: seq<real>, at: real, i: nat): real
    requires i < |times|
  {
    BURST + (at - times[i]) / REFILL_INTERVAL - (Admitted(b, times) - Admitted(b, times[..i])) as real
  }

  lemma {:induction false} HeldFromStart(b: Held, times: seq<real>, at: real)
    ensures Refilled(After(b, times), at) <= FromStart(b, times, at)
  {
    if times != [] { HeldFromStart(b, times[..|times| - 1], times[|times| - 1]); }
  }

  lemma {:induction false} HeldFromRequest(b: Held, times: seq<real>, at: real, i: nat)
    requires i < |times|
    ensures Refilled(After(b, times), at) <= FromRequest(b, times, at, i)
  {
    var n := |times| - 1;
    if i < n {
      HeldFromRequest(b, times[..n], times[n], i);
      assert times[..n][..i] == times[..i] && times[..n][i] == times[i];
    }
  }

  lemma {:induction false} HeldIsAttained(b: Held, times: seq<real>, at: real)
    ensures var held := Refilled(After(b, times), at);
            || held == BURST || held == FromStart(b, times, at)
            || exists i :: 0 <= i < |times| && held == FromRequest(b, times, at, i)
  {
    if times != [] {
      var n := |times| - 1;
      HeldIsAttained(b, times[..n], times[n]);
      var before, held := Refilled(After(b, times[..n]), times[n]), Refilled(After(b, times), at);
      if held != BURST && before == BURST {
        assert held == FromRequest(b, times, at, n);
      } else if held != BURST && before != FromStart(b, times[..n], times[n]) {
        var i :| 0 <= i < n && before == FromRequest(b, times[..n], times[n], i);
        assert times[..n][..i] == times[..i] && times[..n][i] == times[i];
        assert held == FromRequest(b, times, at, i);
      }
    }
  }

  /**
   A request is refused exactly when admitting it would exceed what was held at the start and refilled since, or the
   burst and the refill since some earlier request: nothing is refused that the bound leaves room for.
   */
  lemma {:induction false} RefusedExactlyWhen(b: Held, times: seq<real>, at: real)
    ensures !Admits(After(b, times), at) <==>
              || Admitted(b, times) as real + 1.0 > b.tokens + (at - b.last) / REFILL_INTERVAL
              || exists i :: 0 <= i < |times| &&
                   (Admitted(b, times) - Admitted(b, times[..i])) as real + 1.0
                   > BURST + (at - times[i]) / REFILL_INTERVAL
  {
    HeldFromStart(b, times, at);
    HeldIsAttained(b, times, at);
    if !Admits(After(b, times), at) && FromStart(b, times, at) >= 1.0 {
      var i :| 0 <= i < |times| && Refilled(After(b, times), at) == FromRequest(b, times, at, i);
      assert (Admitted(b, times) - Admitted(b, times[..i])) as real + 1.0
           > BURST + (at - times[i]) / REFILL_INTERVAL;
    }
    forall i | 0 <= i < |times|
      ensures FromRequest(b, times, at, i) < 1.0 ==> !Admits(After(b, times), at)
    {
      HeldFromRequest(b, times, at, i);
    }
    forall i | 0 <= i < |times|
                 && (Admitted(b, times) - Admitted(b, times[..i])) as real + 1.0
                    > BURST + (at - times[i]) / REFILL_INTERVAL
      ensures !Admits(After(b, times), at)
    {
      assert FromRequest(b, times, at, i) < 1.0;
    }
  }

  /** After any requests, an idle interval gives back a token for each refill interval, up to the burst. */
  lemma {:induction false} IdleRefills(b: Held, times: seq<real>, idle: real)
    requires Sane(b) && Monotone(times, b.last) && idle >= 0.0
    ensures var held, next := After(b, times), After(b, times).last + idle;
            var sum := held.tokens + idle / REFILL_INTERVAL;
            var refilled := if sum <= BURST then sum else BURST;
            && After(b, times + [next]) == Held(if refilled >= 1.0 then refilled - 1.0 else refilled, next)
            && Admitted(b, times + [next]) == Admitted(b, times) + if refilled >= 1.0 then 1 else 0
  {
    assert (times + [After(b, times).last + idle])[..|times|] == times;
  }

  /** Requests a refill interval apart are all admitted. */
  lemma {:induction false} SpacedAreAdmitted(b: Held, times: seq<real>)
    requires Sane(b) && (times != [] ==> b.last <= times[0])
    requires times != [] ==> b.tokens + (times[0] - b.last) / REFILL_INTERVAL >= 1.0
    requires forall i :: 0 < i < |times| ==> times[i - 1] + REFILL_INTERVAL <= times[i]
    ensures Admitted(b, times) == |times|
    ensures Sane(After(b, times)) && (times != [] ==> After(b, times).last == times[|times| - 1])
  {
    if times != [] { SpacedAreAdmitted(b, times[..|times| - 1]); }
  }

  class Bucket {
    var tokens: real
    var last: real

    constructor (now: real)
      ensures State() == Held(BURST, now) && Sane(State())
    {
      tokens, last := BURST, now;
    }

    function State(): Held
      reads this
    {
      Held(tokens, last)
    }

    method Take(at: real) returns (allowed: bool)
      requires Sane(State()) && last <= at
      modifies this
      ensures allowed == Admits(old(State()), at) && State() == Taken(old(State()), at)
      ensures Sane(State())
    {
      tokens := tokens + (at - last) / REFILL_INTERVAL;
      if tokens > BURST { tokens := BURST; }
      last := at;
      if tokens < 1.0 { return false; }
      tokens := tokens - 1.0;
      allowed := true;
    }
  }
}
