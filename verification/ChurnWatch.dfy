/** The bounded-memory watch over Relay session takeovers (internal/relay/churn.go). */
module ChurnWatch {
  import opened Text

  const SESSION_IDLE: int := 45                  // seconds: three heartbeats of fifteen
  const CHURN_WINDOW: int := 2 * SESSION_IDLE
  const CHURN_THRESHOLD: nat := 3
  const CONTENDING_HOSTS: nat := 2
  const CHURN_MEMORY: nat := 8
  const MAX_TRACKED: nat := 4096

  type Id = nat

  datatype Takeover = Takeover(at: int, host: string)

  datatype Verdict = Verdict(contested: bool, takeovers: nat, distinctHosts: nat, backoff: int, untracked: bool)

  // --- the reference: an unbounded history -----------------------------------------------------

  predicate Chronological(h: seq<Takeover>) {
    forall i, j :: 0 <= i < j < |h| ==> h[i].at <= h[j].at
  }

  /** The takeovers after the cutoff. */
  function Within(h: seq<Takeover>, cutoff: int): seq<Takeover> {
    if h == [] then []
    else
      var n := |h| - 1;
      if h[n].at > cutoff then Within(h[..n], cutoff) + [h[n]] else Within(h[..n], cutoff)
  }

  function Hosts(h: seq<Takeover>): set<string> {
    set i | 0 <= i < |h| :: h[i].host
  }

  predicate Contested(h: seq<Takeover>) {
    |h| >= CHURN_THRESHOLD || (|Hosts(h)| >= CONTENDING_HOSTS && |h| >= CONTENDING_HOSTS)
  }

  function Backoff(h: seq<Takeover>): int {
    if |h| >= CONTENDING_HOSTS then SESSION_IDLE else 0
  }

  // --- what the watch keeps of it --------------------------------------------------------------

  /** The newest part of the history: all of it after the cutoff, unless the memory is full. */
  predicate Keeps(recent: seq<Takeover>, h: seq<Takeover>, cutoff: int) {
    && |recent| <= |h| && |recent| <= CHURN_MEMORY
    && recent == h[|h| - |recent|..]
    && (|recent| == CHURN_MEMORY || forall i :: 0 <= i < |h| - |recent| ==> h[i].at <= cutoff)
  }

  /** The newest takeovers, as many as the memory holds. */
  function Newest(h: seq<Takeover>): (newest: seq<Takeover>)
    ensures |newest| == if |h| > CHURN_MEMORY then CHURN_MEMORY else |h|
  {
    if |h| > CHURN_MEMORY then h[|h| - CHURN_MEMORY..] else h
  }

  lemma {:induction false} WithinSplits(h: seq<Takeover>, k: nat, cutoff: int)
    requires k <= |h| && (forall i :: k <= i < |h| ==> h[i].at > cutoff)
    ensures Within(h, cutoff) == Within(h[..k], cutoff) + h[k..]
  {
    if k < |h| {
      var n := |h| - 1;
      WithinSplits(h[..n], k, cutoff);
      assert h[..n][..k] == h[..k] && h[k..] == h[..n][k..] + [h[n]];
    } else {
      assert h[..k] == h;
    }
  }

  lemma {:induction false} WithinNone(h: seq<Takeover>, cutoff: int)
    requires forall i :: 0 <= i < |h| ==> h[i].at <= cutoff
    ensures Within(h, cutoff) == []
  {
    if h != [] { WithinNone(h[..|h| - 1], cutoff); }
  }

  /** Eight recent takeovers are verdict enough; fewer are all there are. */
  lemma {:induction false} SameVerdict(recent: seq<Takeover>, h: seq<Takeover>, cutoff: int)
    requires Keeps(recent, h, cutoff) && (forall i :: 0 <= i < |recent| ==> recent[i].at > cutoff)
    ensures Contested(recent) == Contested(Within(h, cutoff))
    ensures Backoff(recent) == Backoff(Within(h, cutoff))
    ensures recent == Newest(Within(h, cutoff))
  {
    var k := |h| - |recent|;
    assert forall i :: k <= i < |h| ==> h[i] == recent[i - k];
    WithinSplits(h, k, cutoff);
    if |recent| < CHURN_MEMORY {
      WithinNone(h[..k], cutoff);
      assert Within(h, cutoff) == recent;
    }
  }

  /** The history `h` up to `clock`, and enough of it kept in `recent`. */
  predicate Follows(recent: seq<Takeover>, h: seq<Takeover>, clock: int) {
    && Chronological(h) && (forall i :: 0 <= i < |h| ==> h[i].at <= clock)
    && Keeps(recent, h, clock - CHURN_WINDOW)
  }

  lemma FollowsLater(recent: seq<Takeover>, h: seq<Takeover>, clock: int, later: int)
    requires Follows(recent, h, clock) && clock <= later
    ensures Follows(recent, h, later)
  {
  }

  /** Dropping the expired front of what is kept loses nothing of the window. */
  lemma {:induction false} ForgettingKeeps(recent: seq<Takeover>, h: seq<Takeover>, cutoff: int, keep: nat)
    requires Chronological(h) && Keeps(recent, h, cutoff) && keep <= |recent|
    requires forall i :: 0 <= i < keep ==> recent[i].at <= cutoff
    requires keep < |recent| ==> recent[keep].at > cutoff
    ensures Keeps(recent[keep..], h, cutoff)
    ensures forall i :: keep <= i < |recent| ==> recent[i].at > cutoff
  {
    var k := |h| - |recent|;
    if keep > 0 {
      var last := k + keep - 1;
      assert h[last] == recent[keep - 1];
      assert forall i :: 0 <= i < last ==> h[i].at <= h[last].at;
    }
    forall i | keep <= i < |recent| ensures recent[i].at > cutoff {
      assert recent[i] == h[k + i] && recent[keep] == h[k + keep];
    }
  }

  method ForgetBefore(recent: seq<Takeover>, cutoff: int) returns (kept: seq<Takeover>, ghost keep: nat)
    ensures keep <= |recent| && kept == recent[keep..]
    ensures forall i :: 0 <= i < keep ==> recent[i].at <= cutoff
    ensures keep < |recent| ==> recent[keep].at > cutoff
  {
    var dropped := 0;
    while dropped < |recent| && recent[dropped].at <= cutoff
      invariant 0 <= dropped <= |recent|
      invariant forall i :: 0 <= i < dropped ==> recent[i].at <= cutoff
    {
      dropped := dropped + 1;
    }
    kept, keep := recent[dropped..], dropped;
  }

  /** Drops the expired front of what is kept, which loses nothing of the window. */
  method Forget(recent: seq<Takeover>, now: int, ghost h: seq<Takeover>) returns (kept: seq<Takeover>)
    requires Follows(recent, h, now)
    ensures Follows(kept, h, now)
    ensures forall i :: 0 <= i < |kept| ==> kept[i].at > now - CHURN_WINDOW
  {
    ghost var keep;
    kept, keep := ForgetBefore(recent, now - CHURN_WINDOW);
    ForgettingKeeps(recent, h, now - CHURN_WINDOW, keep);
  }

  lemma AddingKeeps(recent: seq<Takeover>, h: seq<Takeover>, t: Takeover)
    requires Follows(recent, h, t.at) && forall i :: 0 <= i < |recent| ==> recent[i].at > t.at - CHURN_WINDOW
    ensures Follows((if |recent| == CHURN_MEMORY then recent[1..] else recent) + [t], h + [t], t.at)
  {
  }

  /** One more takeover: what is kept stays enough, and all of it is within the window. */
  method Add(recent: seq<Takeover>, t: Takeover, ghost h: seq<Takeover>) returns (kept: seq<Takeover>)
    requires Follows(recent, h, t.at)
    ensures Follows(kept, h + [t], t.at)
    ensures forall i :: 0 <= i < |kept| ==> kept[i].at > t.at - CHURN_WINDOW
  {
    kept := Forget(recent, t.at, h);
    AddingKeeps(kept, h, t);
    if |kept| == CHURN_MEMORY { kept := kept[1..]; }
    kept := kept + [t];
  }

  /** The hosts seen, gathered one takeover at a time. */
  method Judge(recent: seq<Takeover>) returns (v: Verdict)
    ensures v == Verdict(Contested(recent), |recent|, |Hosts(recent)|, Backoff(recent), false)
  {
    var seen: set<string> := {};
    for i := 0 to |recent|
      invariant seen == set j | 0 <= j < i :: recent[j].host
    {
      seen := seen + {recent[i].host};
    }
    v := Verdict(|recent| >= CHURN_THRESHOLD || (|seen| >= CONTENDING_HOSTS && |recent| >= CONTENDING_HOSTS),
                 |recent|, |seen|, if |recent| >= CONTENDING_HOSTS then SESSION_IDLE else 0, false);
  }

  /** The verdict on a whole history is the one on what is kept of it. */
  predicate VerdictOn(v: Verdict, h: seq<Takeover>, now: int) {
    var window := Within(h, now - CHURN_WINDOW);
    && !v.untracked && v.contested == Contested(window) && v.backoff == Backoff(window)
    && v.takeovers == |Newest(window)| && v.distinctHosts == |Hosts(Newest(window))|
  }

  method AddAndJudge(
      recent: seq<Takeover>, t: Takeover, ghost h: seq<Takeover>)
    returns (kept: seq<Takeover>, v: Verdict)
    requires Follows(recent, h, t.at)
    ensures Follows(kept, h + [t], t.at)
    ensures VerdictOn(v, h + [t], t.at)
  {
    kept := Add(recent, t, h);
    SameVerdict(kept, h + [t], t.at - CHURN_WINDOW);
    v := Judge(kept);
  }

  /** Some takeover came after the cutoff. */
  predicate Active(h: seq<Takeover>, cutoff: int) {
    exists i :: 0 <= i < |h| && h[i].at > cutoff
  }

  /** What is kept shows whether there was a takeover within the window. */
  lemma {:induction false} ActiveIsKept(recent: seq<Takeover>, h: seq<Takeover>, clock: int, cutoff: int)
    requires Follows(recent, h, clock) && clock - CHURN_WINDOW <= cutoff
    ensures Active(recent, cutoff) <==> Active(h, cutoff)
  {
    var k := |h| - |recent|;
    if Active(recent, cutoff) {
      var i :| 0 <= i < |recent| && recent[i].at > cutoff;
      assert h[k + i] == recent[i];
    }
    if Active(h, cutoff) {
      var i :| 0 <= i < |h| && h[i].at > cutoff;
      assert recent[|recent| - 1] == h[|h| - 1] && h[|h| - 1].at >= h[i].at;
    }
  }

  // --- all registrations -----------------------------------------------------------------------

  function Of(m: map<Id, seq<Takeover>>, r: Id): seq<Takeover> {
    if r in m then m[r] else []
  }

  ghost predicate AllFollow(m: map<Id, seq<Takeover>>, past: map<Id, seq<Takeover>>, clock: int) {
    forall r: Id {:trigger Follows(Of(m, r), Of(past, r), clock)} :: Follows(Of(m, r), Of(past, r), clock)
  }

  lemma {:induction false} AllFollowLater(
      m: map<Id, seq<Takeover>>, past: map<Id, seq<Takeover>>, clock: int, later: int)
    requires AllFollow(m, past, clock) && clock <= later
    ensures AllFollow(m, past, later)
  {
    forall r: Id ensures Follows(Of(m, r), Of(past, r), later) {
      assert Follows(Of(m, r), Of(past, r), clock);
      FollowsLater(Of(m, r), Of(past, r), clock, later);
    }
  }

  /** `after` differs from `m` at `r` only, and holds `x` there. */
  ghost predicate ChangesOne(m: map<Id, seq<Takeover>>, after: map<Id, seq<Takeover>>, r: Id, x: seq<Takeover>) {
    Of(after, r) == x && forall other: Id :: other != r ==> Of(after, other) == Of(m, other)
  }

  lemma {:induction false} UpdateChangesOne(m: map<Id, seq<Takeover>>, r: Id, x: seq<Takeover>)
    ensures ChangesOne(m, m[r := x], r, x)
    ensures |m[r := x]| <= |m| + (if r in m then 0 else 1)
  {
    TrackedCount(m, r, x);
  }

  /** Nothing kept of a registration means no entry for it. */
  function Swept(m: map<Id, seq<Takeover>>, r: Id, kept: seq<Takeover>): map<Id, seq<Takeover>> {
    if kept == [] then m - {r} else m[r := kept]
  }

  lemma {:induction false} SweptChangesOne(m: map<Id, seq<Takeover>>, r: Id, kept: seq<Takeover>)
    requires r in m
    ensures ChangesOne(m, Swept(m, r, kept), r, kept)
    ensures |Swept(m, r, kept)| <= |m| && m.Keys - {r} <= Swept(m, r, kept).Keys
  {
    TrackedCount(m, r, kept);
  }

  lemma SameChangesOne(m: map<Id, seq<Takeover>>, r: Id)
    ensures ChangesOne(m, m, r, Of(m, r))
  {
  }

  /** Changing one registration leaves the others followed. */
  lemma {:induction false} AllFollowOne(
      m: map<Id, seq<Takeover>>, past: map<Id, seq<Takeover>>, clock: int, r: Id, recent: seq<Takeover>,
      h: seq<Takeover>,
      after: map<Id, seq<Takeover>>, pastAfter: map<Id, seq<Takeover>>)
    requires AllFollow(m, past, clock) && Follows(recent, h, clock)
    requires ChangesOne(m, after, r, recent) && ChangesOne(past, pastAfter, r, h)
    ensures AllFollow(after, pastAfter, clock)
  {
    forall other: Id ensures Follows(Of(after, other), Of(pastAfter, other), clock) {
      if other != r {
        assert Follows(Of(m, other), Of(past, other), clock);
      }
    }
  }

  lemma {:induction false} SweptFollows(
      m: map<Id, seq<Takeover>>, past: map<Id, seq<Takeover>>, clock: int, r: Id, kept: seq<Takeover>)
    requires r in m && AllFollow(m, past, clock) && Follows(kept, Of(past, r), clock)
    ensures AllFollow(Swept(m, r, kept), past, clock)
    ensures |Swept(m, r, kept)| <= |m| && m.Keys - {r} <= Swept(m, r, kept).Keys
  {
    SweptChangesOne(m, r, kept);
    SameChangesOne(past, r);
    AllFollowOne(m, past, clock, r, kept, Of(past, r), Swept(m, r, kept), past);
  }

  lemma {:induction false} TrackedFollows(
      m: map<Id, seq<Takeover>>, past: map<Id, seq<Takeover>>, clock: int, r: Id, recent: seq<Takeover>,
      h: seq<Takeover>)
    requires AllFollow(m, past, clock) && Follows(recent, h, clock)
    ensures AllFollow(m[r := recent], past[r := h], clock)
    ensures |m[r := recent]| <= |m| + (if r in m then 0 else 1)
  {
    UpdateChangesOne(m, r, recent);
    UpdateChangesOne(past, r, h);
    AllFollowOne(m, past, clock, r, recent, h, m[r := recent], past[r := h]);
  }

  /** Every registration in the map had a takeover after the cutoff. */
  ghost predicate AllActive(m: map<Id, seq<Takeover>>, cutoff: int) {
    forall r :: r in m ==> Active(m[r], cutoff)
  }

  /** Just the registrations with a takeover in the window are in the map. */
  ghost predicate TracksActive(m: map<Id, seq<Takeover>>, past: map<Id, seq<Takeover>>, now: int) {
    forall r: Id :: r in m <==> Active(Of(past, r), now - CHURN_WINDOW)
  }

  lemma {:induction false} ActiveAreTracked(m: map<Id, seq<Takeover>>, past: map<Id, seq<Takeover>>, now: int)
    requires AllFollow(m, past, now) && AllActive(m, now - CHURN_WINDOW)
    ensures TracksActive(m, past, now)
  {
    forall r: Id ensures r in m <==> Active(Of(past, r), now - CHURN_WINDOW) {
      assert Follows(Of(m, r), Of(past, r), now);
      ActiveIsKept(Of(m, r), Of(past, r), now, now - CHURN_WINDOW);
    }
  }

  /** All in the map but r had a takeover after the cutoff, in what is known of them all. */
  ghost predicate OthersActive(
      m: map<Id, seq<Takeover>>, past: map<Id, seq<Takeover>>, r: Id, cutoff: int) {
    r !in m && forall other :: other in m ==> Active(Of(past, other), cutoff)
  }

  lemma {:induction false} TrackedAreActive(
      m: map<Id, seq<Takeover>>, past: map<Id, seq<Takeover>>, clock: int, r: Id, cutoff: int)
    requires AllFollow(m, past, clock) && AllActive(m, cutoff) && r !in m
    ensures OthersActive(m, past, r, cutoff)
  {
    forall other | other in m ensures Active(Of(past, other), cutoff) {
      var recent, h := Of(m, other), Of(past, other);
      assert Follows(recent, h, clock);
      var i :| 0 <= i < |recent| && recent[i].at > cutoff;
      assert h[|h| - |recent| + i] == recent[i];
    }
  }

  method ForgetIn(m: map<Id, seq<Takeover>>, r: Id, now: int, ghost past: map<Id, seq<Takeover>>)
    returns (kept: seq<Takeover>)
    requires AllFollow(m, past, now) && r in m
    ensures Follows(kept, Of(past, r), now)
    ensures kept != [] ==> Active(kept, now - CHURN_WINDOW)
  {
    assert Follows(Of(m, r), Of(past, r), now);
    kept := Forget(Of(m, r), now, Of(past, r));
    assert kept != [] ==> kept[0].at > now - CHURN_WINDOW;
  }

  lemma TrackedCount(m: map<Id, seq<Takeover>>, r: Id, recent: seq<Takeover>)
    ensures (m - {r}).Keys == m.Keys - {r} && m[r := recent].Keys == m.Keys + {r}
    ensures |m - {r}| <= |m| && |m[r := recent]| <= |m| + (if r in m then 0 else 1)
  {
    assert (m - {r}).Keys == m.Keys - {r};
    assert m[r := recent].Keys == m.Keys + {r};
    assert r in m ==> m.Keys + {r} == m.Keys;
  }

  method SweepOne(
      m: map<Id, seq<Takeover>>, ghost pending: set<Id>, r: Id, now: int, ghost past: map<Id, seq<Takeover>>)
    returns (swept: map<Id, seq<Takeover>>)
    requires AllFollow(m, past, now) && r in m && r in pending && AllActive(m - pending, now - CHURN_WINDOW)
    ensures AllFollow(swept, past, now) && |swept| <= |m| && m.Keys - {r} <= swept.Keys
    ensures AllActive(swept - (pending - {r}), now - CHURN_WINDOW)
  {
    var kept := ForgetIn(m, r, now, past);
    SweptFollows(m, past, now, r, kept);
    swept := Swept(m, r, kept);
    assert forall other :: other in m - pending ==> (m - pending)[other] == m[other];
  }

  method SweepAll(m: map<Id, seq<Takeover>>, now: int, ghost past: map<Id, seq<Takeover>>)
    returns (swept: map<Id, seq<Takeover>>)
    requires AllFollow(m, past, now)
    ensures AllFollow(swept, past, now) && |swept| <= |m|
    ensures AllActive(swept, now - CHURN_WINDOW) && TracksActive(swept, past, now)
  {
    var pending := m.Keys;
    swept := m;
    while pending != {}
      invariant pending <= swept.Keys && |swept| <= |m| && AllFollow(swept, past, now)
      invariant AllActive(swept - pending, now - CHURN_WINDOW)
      decreases |pending|
    {
      var r :| r in pending;
      swept := SweepOne(swept, pending, r, now, past);
      pending := pending - {r};
    }
    assert swept - {} == swept;
    ActiveAreTracked(swept, past, now);
  }

  class Watch {
    var byRegistration: map<Id, seq<Takeover>>
    var lastSwept: Option<int>
    /** Every takeover recorded while its registration was tracked, and when the last call was. */
    ghost var history: map<Id, seq<Takeover>>
    ghost var clock: int

    ghost predicate Valid()
      reads this
    {
      && |byRegistration| <= MAX_TRACKED && AllFollow(byRegistration, history, clock)
      && (lastSwept.None? ==> byRegistration == map[])
      && (lastSwept.Some? ==> lastSwept.value <= clock && AllActive(byRegistration, lastSwept.value - CHURN_WINDOW))
    }

    /** Never swept, or not for a whole window. */
    predicate Due(now: int)
      reads this
    {
      lastSwept.None? || now - lastSwept.value >= CHURN_WINDOW
    }

    constructor (now: int)
      ensures Valid() && clock == now && history == map[]
    {
      byRegistration, lastSwept, history, clock := map[], None, map[], now;
    }

    /**
     Sweeping forgets only what the window has left behind, so it changes no verdict; once it is due, just the
     registrations with a takeover in the window stay tracked.
     */
    method Sweep(now: int)
      requires Valid() && clock <= now
      modifies this`byRegistration, this`lastSwept, this`clock
      ensures Valid() && clock == now
      ensures lastSwept == if old(Due(now)) then Some(now) else old(lastSwept)
      ensures old(Due(now)) ==> TracksActive(byRegistration, history, now)
      ensures !old(Due(now)) ==> byRegistration == old(byRegistration)
    {
      AllFollowLater(byRegistration, history, clock, now);
      clock := now;
      if !Due(now) { return; }
      lastSwept := Some(now);
      byRegistration := SweepAll(byRegistration, now, history);
    }

    /** The verdict is the one the whole tracked history within the window would give. */
    method Record(r: Id, host: string, now: int) returns (v: Verdict)
      requires Valid() && clock <= now
      modifies this
      ensures Valid() && clock == now
      ensures lastSwept.Some? && now - CHURN_WINDOW < lastSwept.value <= now
      ensures v.untracked ==>
                && history == old(history) && |byRegistration| >= MAX_TRACKED
                && OthersActive(byRegistration, history, r, lastSwept.value - CHURN_WINDOW)
      ensures !v.untracked ==>
                && history == old(history)[r := Of(old(history), r) + [Takeover(now, host)]]
                && VerdictOn(v, history[r], now)
    {
      Sweep(now);
      if r !in byRegistration && |byRegistration| >= MAX_TRACKED {
        TrackedAreActive(byRegistration, history, clock, r, lastSwept.value - CHURN_WINDOW);
        return Verdict(false, 0, 0, 0, true);
      }
      v := Track(r, Takeover(now, host));
    }

    method Track(r: Id, t: Takeover) returns (v: Verdict)
      requires Valid() && clock == t.at && lastSwept.Some? && (r in byRegistration || |byRegistration| < MAX_TRACKED)
      modifies this`byRegistration, this`history
      ensures Valid() && history == old(history)[r := Of(old(history), r) + [t]] && VerdictOn(v, history[r], t.at)
    {
      ghost var h := Of(history, r);
      assert Follows(Of(byRegistration, r), h, t.at);
      var recent;
      recent, v := AddAndJudge(Of(byRegistration, r), t, h);
      TrackedFollows(byRegistration, history, t.at, r, recent, h + [t]);
      byRegistration := byRegistration[r := recent];
      history := history[r := h + [t]];
    }
  }
}
