/** Inventory deltas and the coverage they establish (internal/store/postgres/changes.go). */
module InventoryChanges {
  import opened Text

  type Id = nat

  datatype ChangeKind = Baseline | Created | Modified | Deleted

  datatype Change = Change(uid: string, revision: string, kind: ChangeKind)

  /** `changes` stands in the order the sort leaves them; equal keys may come either way round. */
  datatype Delta = Delta(integration: Id, policyRevision: int, baseline: bool, observedAt: int, changes: seq<Change>)

  datatype Key = Key(integration: Id, uid: string, revision: string)

  datatype Recorded = Recorded(kind: ChangeKind, observedAt: int)

  datatype Scope = Scope(
    policyRevision: int, intervalSeconds: int, coveredSince: Option<int>, baselineAt: Option<int>,
    lastConfirmedAt: Option<int>, faulted: bool, truncated: bool)

  /** `watched` are the Kubernetes Integrations, `attached` those of the calling Relay, of which some are disabled. */
  datatype State = State(
    watched: set<Id>, attached: set<Id>, disabled: set<Id>, scopes: map<Id, Scope>, events: map<Key, Recorded>)
  {
    function Served(): set<Id> {
      attached - disabled
    }
  }

  datatype Outcome = Refused | Rejected | Done(state: State, inserted: nat)

  // --- one delta -------------------------------------------------------------------------------

  function KeyOf(d: Delta, c: Change): Key {
    Key(d.integration, c.uid, c.revision)
  }

  function KindOf(d: Delta, c: Change): ChangeKind {
    if d.baseline then Baseline else c.kind
  }

  /** The table's check: a deletion, and only a deletion, has no revision. */
  predicate Storable(d: Delta, c: Change) {
    KindOf(d, c) == Deleted <==> c.revision == ""
  }

  predicate AllStorable(d: Delta) {
    forall i :: 0 <= i < |d.changes| ==> Storable(d, d.changes[i])
  }

  function Keys(d: Delta): set<Key> {
    set i | 0 <= i < |d.changes| :: KeyOf(d, d.changes[i])
  }

  /** ON CONFLICT DO NOTHING. */
  function Insert(events: map<Key, Recorded>, d: Delta, c: Change): map<Key, Recorded> {
    if KeyOf(d, c) in events then events else events[KeyOf(d, c) := Recorded(KindOf(d, c), d.observedAt)]
  }

  function InsertFirst(events: map<Key, Recorded>, d: Delta, n: nat): (after: map<Key, Recorded>)
    requires n <= |d.changes|
    ensures |events| <= |after|
  {
    if n == 0 then events else Insert(InsertFirst(events, d, n - 1), d, d.changes[n - 1])
  }

  function Latest(held: Option<int>, at: int): Option<int> {
    Some(if held.Some? && held.value > at then held.value else at)
  }

  /** A baseline restarts coverage when it found anything new or came too long after the last confirmation. */
  function Advance(scope: Scope, d: Delta, inserted: nat): Scope {
    if !d.baseline then scope.(lastConfirmedAt := Latest(scope.lastConfirmedAt, d.observedAt))
    else
      var restart := scope.coveredSince.None? || inserted > 0 || scope.lastConfirmedAt.None?
                     || d.observedAt - scope.lastConfirmedAt.value > scope.intervalSeconds * 2;
      scope.(coveredSince := if restart then Some(d.observedAt) else scope.coveredSince,
             baselineAt := Latest(scope.baselineAt, d.observedAt),
             lastConfirmedAt := Latest(scope.lastConfirmedAt, d.observedAt),
             policyRevision := if scope.policyRevision > d.policyRevision then scope.policyRevision
                               else d.policyRevision)
  }

  /** An UPDATE: it changes the row if there is one. */
  function Advanced(scopes: map<Id, Scope>, d: Delta, inserted: nat): map<Id, Scope> {
    if d.integration in scopes then scopes[d.integration := Advance(scopes[d.integration], d, inserted)] else scopes
  }

  function Record(s: State, d: Delta): Outcome {
    if d.integration !in s.Served() then Refused
    else if !AllStorable(d) then Rejected
    else
      var events := InsertFirst(s.events, d, |d.changes|);
      var inserted := |events| - |s.events|;
      Done(s.(events := events, scopes := Advanced(s.scopes, d, inserted)), inserted)
  }

  // --- the other steps -------------------------------------------------------------------------

  datatype Stamp = Stamp(integration: Id, completedAt: Option<int>, faulted: bool, truncated: bool)

  /** Unlike a delta, a stamp is taken for a disabled Integration too. */
  function Freshened(s: State, stamp: Stamp): State {
    if stamp.integration !in s.scopes || stamp.integration !in s.attached then s
    else
      var scope := s.scopes[stamp.integration];
      var confirmed := if stamp.faulted then None else stamp.completedAt;
      var last := if confirmed.Some? then Latest(scope.lastConfirmedAt, confirmed.value) else scope.lastConfirmedAt;
      s.(scopes := s.scopes[stamp.integration :=
           scope.(lastConfirmedAt := last, faulted := stamp.faulted, truncated := stamp.truncated)])
  }

  function OpenedScope(scopes: map<Id, Scope>, id: Id, seconds: int): Scope {
    if id !in scopes then Scope(1, seconds, None, None, None, false, false)
    else
      var scope := scopes[id];
      scope.(intervalSeconds := seconds,
             policyRevision := scope.policyRevision + if scope.intervalSeconds != seconds then 1 else 0)
  }

  function ScopesOpened(s: State, seconds: int): State {
    if seconds < 1 then s
    else s.(scopes := OpenedIn(s.scopes, s.watched * s.Served(), seconds))
  }

  function OpenedIn(scopes: map<Id, Scope>, ids: set<Id>, seconds: int): map<Id, Scope> {
    scopes + map id | id in ids :: OpenedScope(scopes, id, seconds)
  }

  datatype Step =
    | RecordDelta(delta: Delta)
    | RecordFreshness(stamp: Stamp)
    | OpenScopes(seconds: int)
    | Serve(attached: set<Id>, disabled: set<Id>)   // Integrations are enabled, disabled or moved between Relays
    | Prune(keys: set<Key>)

  function Apply(s: State, step: Step): State {
    match step
    case RecordDelta(d) => var o := Record(s, d); if o.Done? then o.state else s
    case RecordFreshness(stamp) => Freshened(s, stamp)
    case OpenScopes(seconds) => ScopesOpened(s, seconds)
    case Serve(attached, disabled) => s.(attached := attached, disabled := disabled)
    case Prune(keys) => s.(events := s.events - keys)
  }

  function ApplyAll(s: State, steps: seq<Step>): State {
    if steps == [] then s else Apply(ApplyAll(s, steps[..|steps| - 1]), steps[|steps| - 1])
  }

  // --- coverage stays ordered ------------------------------------------------------------------

  predicate InOrder(scope: Scope) {
    && scope.intervalSeconds >= 1
    && (scope.coveredSince.Some? ==> scope.baselineAt.Some? && scope.coveredSince.value <= scope.baselineAt.value)
    && (scope.baselineAt.Some? ==> scope.lastConfirmedAt.Some? && scope.baselineAt.value <= scope.lastConfirmedAt.value)
  }

  /** covered_since <= baseline_at <= last_confirmed_at wherever they are set, and only watched scopes exist. */
  predicate Inv(s: State) {
    s.scopes.Keys <= s.watched && forall id :: id in s.scopes ==> InOrder(s.scopes[id])
  }

  lemma AdvanceKeepsOrder(scope: Scope, d: Delta, inserted: nat)
    requires InOrder(scope)
    ensures InOrder(Advance(scope, d, inserted))
  {
  }

  lemma {:induction false} OpeningKeeps(s: State, seconds: int)
    requires Inv(s)
    ensures Inv(ScopesOpened(s, seconds))
  {
    forall id | id in ScopesOpened(s, seconds).scopes ensures InOrder(ScopesOpened(s, seconds).scopes[id]) {
      assert id in s.scopes ==> InOrder(s.scopes[id]);
    }
  }

  lemma {:induction false} StepKeeps(s: State, step: Step)
    requires Inv(s)
    ensures Inv(Apply(s, step))
  {
    match step
    case RecordDelta(d) =>
      if Record(s, d).Done? && d.integration in s.scopes {
        AdvanceKeepsOrder(s.scopes[d.integration], d, Record(s, d).inserted);
      }
    case OpenScopes(seconds) =>
      OpeningKeeps(s, seconds);
    case _ =>
  }

  lemma {:induction false} EveryRunKeeps(s: State, steps: seq<Step>)
    requires Inv(s)
    ensures Inv(ApplyAll(s, steps)) && ApplyAll(s, steps).watched == s.watched
  {
    if steps != [] {
      EveryRunKeeps(s, steps[..|steps| - 1]);
      StepKeeps(ApplyAll(s, steps[..|steps| - 1]), steps[|steps| - 1]);
    }
  }

  // --- what recording a delta does, said of the rows -------------------------------------------

  /** One of the first `n` changes has this key. */
  predicate Mentions(d: Delta, n: nat, key: Key)
    requires n <= |d.changes|
  {
    exists i :: 0 <= i < n && KeyOf(d, d.changes[i]) == key
  }

  lemma {:induction false} MentionsStep(d: Delta, n: nat, key: Key)
    requires n < |d.changes|
    ensures Mentions(d, n + 1, key) <==> Mentions(d, n, key) || KeyOf(d, d.changes[n]) == key
  {
  }

  lemma {:induction false} InsertFirstIn(events: map<Key, Recorded>, d: Delta, n: nat, key: Key)
    requires n <= |d.changes|
    ensures key in InsertFirst(events, d, n) <==> key in events || Mentions(d, n, key)
  {
    if n > 0 {
      InsertFirstIn(events, d, n - 1, key);
      MentionsStep(d, n - 1, key);
    }
  }

  lemma {:induction false} InsertFirstKeys(events: map<Key, Recorded>, d: Delta)
    ensures InsertFirst(events, d, |d.changes|).Keys == events.Keys + Keys(d)
  {
    var after := InsertFirst(events, d, |d.changes|);
    forall key ensures key in after.Keys <==> key in events.Keys + Keys(d) {
      InsertFirstIn(events, d, |d.changes|, key);
    }
  }

  /** The row of a key is that of the first change of the delta with it. */
  predicate WrittenBy(row: Recorded, key: Key, d: Delta, n: nat)
    requires n <= |d.changes|
  {
    exists i :: 0 <= i < n && KeyOf(d, d.changes[i]) == key && row == Recorded(KindOf(d, d.changes[i]), d.observedAt)
                && forall j :: 0 <= j < i ==> KeyOf(d, d.changes[j]) != key
  }

  lemma {:induction false} WrittenByMore(row: Recorded, key: Key, d: Delta, n: nat)
    requires n < |d.changes| && WrittenBy(row, key, d, n)
    ensures WrittenBy(row, key, d, n + 1)
  {
    var i :| && 0 <= i < n && KeyOf(d, d.changes[i]) == key && row == Recorded(KindOf(d, d.changes[i]), d.observedAt)
             && forall j :: 0 <= j < i ==> KeyOf(d, d.changes[j]) != key;
    assert KeyOf(d, d.changes[i]) == key;
  }

  lemma {:induction false} WrittenByLast(key: Key, d: Delta, n: nat)
    requires n < |d.changes| && KeyOf(d, d.changes[n]) == key && !Mentions(d, n, key)
    ensures WrittenBy(Recorded(KindOf(d, d.changes[n]), d.observedAt), key, d, n + 1)
  {
  }

  lemma {:induction false} InsertFirstRows(events: map<Key, Recorded>, d: Delta, n: nat, key: Key)
    requires n <= |d.changes| && key in InsertFirst(events, d, n)
    ensures key in events ==> InsertFirst(events, d, n)[key] == events[key]
    ensures key !in events ==> WrittenBy(InsertFirst(events, d, n)[key], key, d, n)
  {
    if n > 0 {
      InsertFirstIn(events, d, n - 1, key);
      var before := InsertFirst(events, d, n - 1);
      if key in before {
        InsertFirstRows(events, d, n - 1, key);
        if key !in events { WrittenByMore(before[key], key, d, n - 1); }
      } else {
        assert KeyOf(d, d.changes[n - 1]) == key;
        WrittenByLast(key, d, n - 1);
      }
    }
  }

  /** Some change of the delta is not recorded yet. */
  predicate AnyNew(s: State, d: Delta) {
    exists i :: 0 <= i < |d.changes| && KeyOf(d, d.changes[i]) !in s.events
  }

  lemma {:induction false} CardinalityOfUnion(a: set<Key>, b: set<Key>)
    ensures |a + b| == |a| + |b - a|
  {
    assert a + b == a + (b - a);
  }

  lemma {:induction false} NewIsNotEmpty(s: State, d: Delta)
    ensures |Keys(d) - s.events.Keys| > 0 <==> AnyNew(s, d)
  {
    if AnyNew(s, d) {
      var i :| 0 <= i < |d.changes| && KeyOf(d, d.changes[i]) !in s.events;
      assert KeyOf(d, d.changes[i]) in Keys(d) - s.events.Keys;
    } else {
      assert Keys(d) - s.events.Keys == {};
    }
  }

  lemma {:induction false} InsertedCount(s: State, d: Delta)
    ensures |InsertFirst(s.events, d, |d.changes|)| - |s.events| == |Keys(d) - s.events.Keys|
    ensures |Keys(d) - s.events.Keys| > 0 <==> AnyNew(s, d)
  {
    InsertFirstKeys(s.events, d);
    CardinalityOfUnion(s.events.Keys, Keys(d));
    NewIsNotEmpty(s, d);
    var after := InsertFirst(s.events, d, |d.changes|);
    assert |after| == |after.Keys| && |s.events| == |s.events.Keys|;
  }

  /** Every change of the delta is recorded, a new one as the first change with its key, and every old row stays. */
  ghost predicate HoldsToo(before: map<Key, Recorded>, after: map<Key, Recorded>, d: Delta) {
    && after.Keys == before.Keys + Keys(d)
    && (forall key :: key in before ==> after[key] == before[key])
    && (forall key :: key in after && key !in before ==> WrittenBy(after[key], key, d, |d.changes|))
  }

  lemma {:induction false} InsertFirstHoldsToo(events: map<Key, Recorded>, d: Delta)
    ensures HoldsToo(events, InsertFirst(events, d, |d.changes|), d)
  {
    var after := InsertFirst(events, d, |d.changes|);
    InsertFirstKeys(events, d);
    forall key | key in after
      ensures key in events ==> after[key] == events[key]
      ensures key !in events ==> WrittenBy(after[key], key, d, |d.changes|)
    {
      InsertFirstRows(events, d, |d.changes|, key);
    }
  }

  /**
   A delta is recorded if and only if its Integration is served and every change is storable. Then its changes are
   recorded beside the rows there were, as many are counted as are new, and no other scope changes.
   */
  lemma {:induction false} RecordsExactly(s: State, d: Delta)
    ensures Record(s, d).Done? <==>
              d.integration in s.attached && d.integration !in s.disabled && AllStorable(d)
    ensures Record(s, d).Done? ==>
              var after := Record(s, d).state;
              && HoldsToo(s.events, after.events, d) && Record(s, d).inserted == |Keys(d) - s.events.Keys|
              && after.scopes.Keys == s.scopes.Keys
              && (forall id :: id in s.scopes && id != d.integration ==> after.scopes[id] == s.scopes[id])
  {
    InsertedCount(s, d);
    InsertFirstHoldsToo(s.events, d);
  }

  /** A baseline breaks coverage: there was none, it found something new, or the scope was not confirmed lately. */
  predicate Breaks(s: State, d: Delta)
    requires d.integration in s.scopes
  {
    var scope := s.scopes[d.integration];
    d.baseline
    && (scope.coveredSince.None? || AnyNew(s, d) || scope.lastConfirmedAt.None?
        || d.observedAt - scope.lastConfirmedAt.value > 2 * scope.intervalSeconds)
  }

  /** Coverage restarts at a baseline that breaks it, and nothing else a delta does moves it. */
  lemma {:induction false} CoverageRestartsExactlyWhen(s: State, d: Delta)
    requires Record(s, d).Done? && d.integration in s.scopes
    ensures var before, after := s.scopes[d.integration], Record(s, d).state.scopes[d.integration];
            && after.coveredSince == (if Breaks(s, d) then Some(d.observedAt) else before.coveredSince)
            && after.lastConfirmedAt == Latest(before.lastConfirmedAt, d.observedAt)
            && after.baselineAt == (if d.baseline then Latest(before.baselineAt, d.observedAt) else before.baselineAt)
            && after.policyRevision == (if d.baseline && d.policyRevision > before.policyRevision then d.policyRevision
                                        else before.policyRevision)
            && after.intervalSeconds == before.intervalSeconds
            && after.faulted == before.faulted && after.truncated == before.truncated
  {
    InsertedCount(s, d);
  }

  /** What a stamp does: only to an existing scope of the Relay, and confirming only if completed without fault. */
  lemma {:induction false} StampsExactly(s: State, stamp: Stamp, id: Id)
    ensures var after := Freshened(s, stamp).scopes;
            && (id in after <==> id in s.scopes)
            && (id in s.scopes ==>
                  if id == stamp.integration && id in s.attached then
                    && after[id].faulted == stamp.faulted && after[id].truncated == stamp.truncated
                    && after[id].lastConfirmedAt == (if stamp.completedAt.Some? && !stamp.faulted
                                                     then Latest(s.scopes[id].lastConfirmedAt, stamp.completedAt.value)
                                                     else s.scopes[id].lastConfirmedAt)
                    && after[id].coveredSince == s.scopes[id].coveredSince
                    && after[id].baselineAt == s.scopes[id].baselineAt
                    && after[id].policyRevision == s.scopes[id].policyRevision
                    && after[id].intervalSeconds == s.scopes[id].intervalSeconds
                  else after[id] == s.scopes[id])
    ensures Freshened(s, stamp) == s.(scopes := Freshened(s, stamp).scopes)
  {
  }

  // --- what coverage means, over whole runs ----------------------------------------------------

  /** Step `n` of the run recorded a baseline of this scope that broke coverage. */
  predicate BreaksAt(s: State, steps: seq<Step>, n: nat, id: Id)
    requires n < |steps|
  {
    var before := ApplyAll(s, steps[..n]);
    && steps[n].RecordDelta? && steps[n].delta.integration == id && id in before.scopes
    && Record(before, steps[n].delta).Done? && Breaks(before, steps[n].delta)
  }

  /** Since step `n`, no baseline of the scope found anything new or came over two intervals after a confirmation. */
  predicate UnbrokenSince(s: State, steps: seq<Step>, n: nat, id: Id)
    requires n <= |steps|
  {
    forall m :: n <= m < |steps| ==> !BreaksAt(s, steps, m, id)
  }

  /** Coverage is claimed from `since`: from a baseline observed then, or from before the run. */
  predicate Claims(s: State, steps: seq<Step>, n: nat, id: Id, since: Option<int>)
    requires n <= |steps|
  {
    if n == 0 then id in s.scopes && s.scopes[id].coveredSince == since
    else BreaksAt(s, steps, n - 1, id) && since == Some(steps[n - 1].delta.observedAt)
  }

  lemma {:induction false} CoverageOfStep(s: State, step: Step, id: Id)
    requires id in s.scopes
    ensures id in Apply(s, step).scopes
    ensures Apply(s, step).scopes[id].coveredSince
            == if step.RecordDelta? && step.delta.integration == id && Record(s, step.delta).Done?
                  && Breaks(s, step.delta)
               then Some(step.delta.observedAt) else s.scopes[id].coveredSince
  {
    match step
    case RecordDelta(d) =>
      if Record(s, d).Done? && d.integration in s.scopes { CoverageRestartsExactlyWhen(s, d); }
    case RecordFreshness(stamp) => StampsExactly(s, stamp, id);
    case OpenScopes(seconds) => if seconds >= 1 { OpeningAsks(s, seconds, id); }
    case _ =>
  }

  lemma {:induction false} PrefixBreaks(s: State, steps: seq<Step>, m: nat, id: Id)
    requires m < |steps| - 1
    ensures BreaksAt(s, steps[..|steps| - 1], m, id) <==> BreaksAt(s, steps, m, id)
  {
    assert steps[..|steps| - 1][..m] == steps[..m];
  }

  /** A step that breaks nothing leaves a claim standing. */
  lemma {:induction false} ClaimStands(s: State, steps: seq<Step>, n: nat, id: Id, since: Option<int>)
    requires steps != [] && n < |steps| && !BreaksAt(s, steps, |steps| - 1, id)
    requires Claims(s, steps[..|steps| - 1], n, id, since) && UnbrokenSince(s, steps[..|steps| - 1], n, id)
    ensures Claims(s, steps, n, id, since) && UnbrokenSince(s, steps, n, id)
  {
    if n > 0 { PrefixBreaks(s, steps, n - 1, id); }
    forall m | n <= m < |steps| ensures !BreaksAt(s, steps, m, id) {
      if m < |steps| - 1 { PrefixBreaks(s, steps, m, id); }
    }
  }

  /** Whatever the run did, the coverage it claims goes back to a baseline, and nothing has broken it since. */
  lemma {:induction false} CoverageIsUnbroken(s: State, steps: seq<Step>, id: Id) returns (n: nat)
    requires id in s.scopes
    ensures n <= |steps| && id in ApplyAll(s, steps).scopes
    ensures Claims(s, steps, n, id, ApplyAll(s, steps).scopes[id].coveredSince) && UnbrokenSince(s, steps, n, id)
  {
    if steps == [] {
      n := 0;
    } else {
      var last := |steps| - 1;
      n := CoverageIsUnbroken(s, steps[..last], id);
      CoverageOfStep(ApplyAll(s, steps[..last]), steps[last], id);
      if BreaksAt(s, steps, last, id) {
        n := |steps|;
      } else {
        ClaimStands(s, steps, n, id, ApplyAll(s, steps).scopes[id].coveredSince);
      }
    }
  }

  // --- re-recording ----------------------------------------------------------------------------

  lemma {:induction false} InsertFirstHolds(events: map<Key, Recorded>, d: Delta, n: nat)
    requires n <= |d.changes|
    ensures events.Keys <= InsertFirst(events, d, n).Keys
    ensures forall i :: 0 <= i < n ==> KeyOf(d, d.changes[i]) in InsertFirst(events, d, n)
  {
    if n > 0 { InsertFirstHolds(events, d, n - 1); }
  }

  lemma {:induction false} InsertFirstIdle(events: map<Key, Recorded>, d: Delta, n: nat)
    requires n <= |d.changes| && Keys(d) <= events.Keys
    ensures InsertFirst(events, d, n) == events
  {
    if n > 0 {
      InsertFirstIdle(events, d, n - 1);
      assert KeyOf(d, d.changes[n - 1]) in Keys(d);
    }
  }

  /** Everything the delta had to say is already in the scope. */
  predicate Absorbed(scopes: map<Id, Scope>, d: Delta) {
    && d.integration in scopes
    && var scope := scopes[d.integration];
       && scope.lastConfirmedAt.Some? && scope.lastConfirmedAt.value >= d.observedAt
       && (d.baseline ==>
             && scope.coveredSince.Some? && scope.policyRevision >= d.policyRevision
             && scope.baselineAt.Some? && scope.baselineAt.value >= d.observedAt)
  }

  lemma StepKeepsAbsorbed(s: State, d: Delta, step: Step)
    requires Absorbed(s.scopes, d)
    ensures Absorbed(Apply(s, step).scopes, d)
  {
  }

  lemma {:induction false} RunKeepsAbsorbed(s: State, d: Delta, steps: seq<Step>)
    requires Absorbed(s.scopes, d)
    ensures Absorbed(ApplyAll(s, steps).scopes, d)
  {
    if steps != [] {
      RunKeepsAbsorbed(s, d, steps[..|steps| - 1]);
      StepKeepsAbsorbed(ApplyAll(s, steps[..|steps| - 1]), d, steps[|steps| - 1]);
    }
  }

  /** Recording `d` again changes nothing and inserts nothing. */
  predicate Idle(s: State, d: Delta) {
    var o := Record(s, d);
    o.Done? ==> o.inserted == 0 && o.state == s
  }

  lemma {:induction false} AbsorbedIsIdle(s: State, d: Delta)
    requires Inv(s) && Absorbed(s.scopes, d) && Keys(d) <= s.events.Keys
    ensures Idle(s, d)
  {
    InsertFirstIdle(s.events, d, |d.changes|);
    assert Advance(s.scopes[d.integration], d, 0) == s.scopes[d.integration];
  }

  /** Whatever comes between, a replayed delta is absorbed while its events are unpruned. */
  lemma {:induction false} ReplayIsIdle(s: State, d: Delta, steps: seq<Step>)
    requires Inv(s) && Record(s, d).Done? && d.integration in s.scopes
    requires Keys(d) <= ApplyAll(Record(s, d).state, steps).events.Keys
    ensures Idle(ApplyAll(Record(s, d).state, steps), d)
  {
    var first := Record(s, d).state;
    StepKeeps(s, RecordDelta(d));
    EveryRunKeeps(first, steps);
    RunKeepsAbsorbed(first, d, steps);
    AbsorbedIsIdle(ApplyAll(first, steps), d);
  }

  /** Without a scope a delta of an unwatched Integration never gets one, so its replay has nothing to change. */
  lemma {:induction false} UnwatchedStaysUnscoped(s: State, d: Delta, steps: seq<Step>)
    requires Inv(s) && d.integration !in s.watched && Keys(d) <= ApplyAll(s, steps).events.Keys
    ensures Idle(ApplyAll(s, steps), d)
  {
    EveryRunKeeps(s, steps);
    var later := ApplyAll(s, steps);
    InsertFirstIdle(later.events, d, |d.changes|);
  }

  ghost predicate AlwaysIdleLater(s: State, d: Delta) {
    forall steps :: Keys(d) <= ApplyAll(s, steps).events.Keys ==> Idle(ApplyAll(s, steps), d)
  }

  /** A delta recorded before its watched Integration has a scope is not absorbed: opening one revives it. */
  lemma {:induction false} OpeningRevives(s: State, d: Delta)
    requires Inv(s) && Record(s, d).Done? && d.integration !in s.scopes && d.integration in s.watched
    ensures !AlwaysIdleLater(Record(s, d).state, d)
  {
    var first := Record(s, d).state;
    InsertFirstHolds(s.events, d, |d.changes|);
    var steps := [OpenScopes(1)];
    assert steps[..0] == [] && ApplyAll(first, steps[..0]) == first;
    var later := ApplyAll(first, steps);
    assert later == ScopesOpened(first, 1);
    assert later.scopes[d.integration].lastConfirmedAt.None?;
    var again := Record(later, d);
    assert again.Done? && again.state.scopes[d.integration].lastConfirmedAt.Some?;
  }

  /** The exact condition under which a recorded delta may be replayed at any later point. */
  lemma {:induction false} ReplayIsIdleExactlyWhen(s: State, d: Delta)
    requires Inv(s) && Record(s, d).Done?
    ensures AlwaysIdleLater(Record(s, d).state, d) <==> d.integration in s.scopes || d.integration !in s.watched
  {
    var first := Record(s, d).state;
    if d.integration in s.scopes || d.integration !in s.watched {
      StepKeeps(s, RecordDelta(d));
      forall steps | Keys(d) <= ApplyAll(first, steps).events.Keys ensures Idle(ApplyAll(first, steps), d) {
        if d.integration in s.scopes {
          ReplayIsIdle(s, d, steps);
        } else {
          UnwatchedStaysUnscoped(first, d, steps);
        }
      }
    } else {
      OpeningRevives(s, d);
    }
  }

  // --- opening scopes row by row ---------------------------------------------------------------

  /** What opening a scope answers for it. */
  datatype Opened = Opened(integration: Id, policyRevision: int, intervalSeconds: int)

  predicate Answers(row: Opened, scopes: map<Id, Scope>) {
    && row.integration in scopes
    && row.policyRevision == scopes[row.integration].policyRevision
    && row.intervalSeconds == scopes[row.integration].intervalSeconds
  }

  /** One row for each of `ids`, no two for one, each as its scope now stands. */
  ghost predicate RowsFor(rows: seq<Opened>, ids: set<Id>, scopes: map<Id, Scope>, seconds: int) {
    && (forall id :: id in ids <==> exists i :: 0 <= i < |rows| && rows[i].integration == id)
    && (forall i, j :: 0 <= i < j < |rows| ==> rows[i].integration != rows[j].integration)
    && (forall i :: 0 <= i < |rows| ==> Answers(rows[i], scopes) && rows[i].intervalSeconds == seconds)
  }

  lemma {:induction false} OpenOne(scopes: map<Id, Scope>, done: set<Id>, id: Id, seconds: int)
    requires id !in done
    ensures var opening := OpenedIn(scopes, done, seconds);
            OpenedIn(scopes, done + {id}, seconds) == opening[id := OpenedScope(opening, id, seconds)]
  {
  }

  lemma {:induction false} RowsGrow(
      rows: seq<Opened>, done: set<Id>, scopes: map<Id, Scope>, id: Id, scope: Scope, seconds: int)
    requires RowsFor(rows, done, scopes, seconds) && id !in done && scope.intervalSeconds == seconds
    ensures RowsFor(rows + [Opened(id, scope.policyRevision, seconds)], done + {id}, scopes[id := scope], seconds)
  {
    var more := rows + [Opened(id, scope.policyRevision, seconds)];
    assert more[|rows|].integration == id;
    forall other | other in done ensures exists i :: 0 <= i < |more| && more[i].integration == other {
      var i :| 0 <= i < |rows| && rows[i].integration == other;
      assert more[i].integration == other;
    }
    assert forall i :: 0 <= i < |rows| ==> rows[i].integration in done;
  }

  method OpenRow(scopes: map<Id, Scope>, id: Id, seconds: int) returns (scope: Scope)
    ensures scope == OpenedScope(scopes, id, seconds)
  {
    if id !in scopes { return Scope(1, seconds, None, None, None, false, false); }
    scope := scopes[id].(intervalSeconds := seconds);
    if scopes[id].intervalSeconds != seconds {
      scope := scope.(policyRevision := scope.policyRevision + 1);
    }
  }

  /** Row by row, in whatever order: an existing scope is asked again, a missing one is made. */
  method OpenRows(
      before: map<Id, Scope>, wanted: set<Id>, seconds: int)
    returns (scopes: map<Id, Scope>, rows: seq<Opened>)
    ensures scopes == OpenedIn(before, wanted, seconds) && RowsFor(rows, wanted, scopes, seconds)
  {
    scopes, rows := before, [];
    var pending, done := wanted, {};
    assert OpenedIn(before, {}, seconds) == before;
    while pending != {}
      invariant pending == wanted - done && done <= wanted
      invariant scopes == OpenedIn(before, done, seconds) && RowsFor(rows, done, scopes, seconds)
    {
      var id :| id in pending;
      var scope := OpenRow(scopes, id, seconds);
      OpenOne(before, done, id, seconds);
      RowsGrow(rows, done, scopes, id, scope, seconds);
      scopes := scopes[id := scope];
      rows := rows + [Opened(id, scope.policyRevision, seconds)];
      pending, done := pending - {id}, done + {id};
    }
    assert done == wanted;
  }

  /**
   What a request asks of the scopes: every served watched Integration has one at the requested interval, whose
   revision is one for a new scope and moves by one exactly when the interval changed; its coverage, and every
   other scope, stays as it was.
   */
  lemma {:induction false} OpeningAsks(s: State, seconds: int, id: Id)
    requires seconds >= 1
    ensures var after := ScopesOpened(s, seconds).scopes;
            if id in s.watched * s.Served() then
              && id in after && after[id].intervalSeconds == seconds
              && (id !in s.scopes ==> after[id] == Scope(1, seconds, None, None, None, false, false))
              && (id in s.scopes ==>
                    && after[id].policyRevision - s.scopes[id].policyRevision
                       == (if s.scopes[id].intervalSeconds != seconds then 1 else 0)
                    && after[id].(policyRevision := 0, intervalSeconds := 0)
                       == s.scopes[id].(policyRevision := 0, intervalSeconds := 0))
            else
              (id in after <==> id in s.scopes) && (id in s.scopes ==> after[id] == s.scopes[id])
  {
  }

  /** Asking again for the same interval changes nothing. */
  lemma {:induction false} ReopeningIsIdle(s: State, seconds: int)
    ensures ScopesOpened(ScopesOpened(s, seconds), seconds) == ScopesOpened(s, seconds)
  {
    var once := ScopesOpened(s, seconds);
    var twice := ScopesOpened(once, seconds);
    assert forall id :: id in once.scopes ==> id in twice.scopes && twice.scopes[id] == once.scopes[id];
  }

  // --- the store -------------------------------------------------------------------------------

  class ChangeStore {
    const watched: set<Id>
    var attached: set<Id>
    var disabled: set<Id>
    var scopes: map<Id, Scope>
    var events: map<Key, Recorded>

    constructor (watched: set<Id>)
      ensures Contents() == State(watched, {}, {}, map[], map[])
    {
      this.watched := watched;
      attached, disabled, scopes, events := {}, {}, map[], map[];
    }

    function Contents(): State
      reads this
    {
      State(watched, attached, disabled, scopes, events)
    }

    /** One transaction: a delta that is refused or fails a check leaves no trace. */
    method RecordInventoryDelta(d: Delta) returns (refused: bool, failed: bool, inserted: nat)
      modifies this`events, this`scopes
      ensures var o := Record(old(Contents()), d);
              && (refused <==> o.Refused?) && (failed <==> o.Rejected?)
              && (o.Done? ==> Contents() == o.state && inserted == o.inserted)
              && (!o.Done? ==> Contents() == old(Contents()))
    {
      refused, failed, inserted := false, false, 0;
      if d.integration !in attached - disabled { return true, false, 0; }
      var written := events;
      for i := 0 to |d.changes|
        invariant written == InsertFirst(events, d, i) && inserted == |written| - |events|
        invariant forall j :: 0 <= j < i ==> Storable(d, d.changes[j])
      {
        var change := d.changes[i];
        if !Storable(d, change) { return false, true, 0; }
        if KeyOf(d, change) !in written {
          written := written[KeyOf(d, change) := Recorded(KindOf(d, change), d.observedAt)];
          inserted := inserted + 1;
        }
      }
      events := written;
      if d.integration in scopes {
        scopes := scopes[d.integration := Advance(scopes[d.integration], d, inserted)];
      }
    }

    method RecordInventoryFreshness(stamps: seq<Stamp>)
      modifies this`scopes
      ensures Contents() == ApplyAll(old(Contents()), Stamps(stamps))
    {
      for i := 0 to |stamps|
        invariant Contents() == ApplyAll(old(Contents()), Stamps(stamps[..i]))
      {
        assert Stamps(stamps[..i + 1])[..i] == Stamps(stamps[..i]);
        var stamp := stamps[i];
        if stamp.integration in scopes && stamp.integration in attached {
          var scope := scopes[stamp.integration].(faulted := stamp.faulted, truncated := stamp.truncated);
          if stamp.completedAt.Some? && !stamp.faulted {
            scope := scope.(lastConfirmedAt := Latest(scope.lastConfirmedAt, stamp.completedAt.value));
          }
          scopes := scopes[stamp.integration := scope];
        }
      }
      assert stamps[..|stamps|] == stamps;
    }

    /** Upserts a scope for each served watched Integration and answers with each one's row, once. */
    method OpenInventoryScopes(seconds: int) returns (answer: Option<seq<Opened>>)
      modifies this`scopes
      ensures Contents() == ScopesOpened(old(Contents()), seconds)
      ensures answer.None? <==> seconds < 1
      ensures answer.Some? ==>
                RowsFor(answer.value, watched * (attached - disabled), scopes, seconds)
    {
      if seconds < 1 { return None; }
      var rows;
      scopes, rows := OpenRows(scopes, watched * (attached - disabled), seconds);
      answer := Some(rows);
    }
  }

  function Stamps(stamps: seq<Stamp>): seq<Step> {
    seq(|stamps|, i requires 0 <= i < |stamps| => RecordFreshness(stamps[i]))
  }
}
