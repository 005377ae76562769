/** Alert deliveries, which may repeat and arrive in any order (internal/store/postgres/alert_event.go). */
module AlertDelivery {
  import opened Text

  type Id = nat

  datatype AlertEvent = AlertEvent(
    sourceKey: string, startedAt: int, resolved: bool, resolvedAt: int, content: string)

  /** `digest` is the hex digest of the body, used as identity when the provider names none. */
  datatype Delivery = Delivery(
    integration: Id, providerIdentity: string, lifecyclePhase: string, digest: string, events: seq<AlertEvent>)

  datatype DeliveryKey = DeliveryKey(integration: Id, identity: string, lifecyclePhase: string)

  datatype AlertKey = AlertKey(integration: Id, sourceKey: string, startedAt: int)

  datatype Row = Row(resolved: bool, resolvedAt: int, content: string, incident: Option<Id>)

  /** `waiting` counts automatic Investigations not yet claimed. */
  datatype State = State(deliveries: map<DeliveryKey, string>, alerts: map<AlertKey, Row>, waiting: nat)

  datatype Policy = Policy(agentAvailable: bool, maximumPending: int)

  /** How the grouping step answers for the n-th alert it is given: an Incident, and whether it is new. */
  datatype Grouping = Grouping(incident: nat -> Id, isNew: nat -> bool)

  datatype Outcome =
    | Duplicate | IdentityConflict | Rejected | BatchTooLarge | CapacityExhausted
    | Accepted(recorded: nat, incidentsOpened: nat, incidentsJoined: nat)

  function IdentityOf(d: Delivery): DeliveryKey {
    DeliveryKey(d.integration, if d.providerIdentity == "" then d.digest else d.providerIdentity, d.lifecyclePhase)
  }

  function KeyOf(d: Delivery, e: AlertEvent): AlertKey {
    AlertKey(d.integration, e.sourceKey, e.startedAt)
  }

  // --- one delivery, as a function of the tables -----------------------------------------------

  /** The tables' check: a resolution does not precede its start. */
  predicate Storable(e: AlertEvent) {
    e.resolved ==> e.resolvedAt >= e.startedAt
  }

  predicate AllStorable(events: seq<AlertEvent>) {
    forall i :: 0 <= i < |events| ==> Storable(events[i])
  }

  datatype Batch = Batch(alerts: map<AlertKey, Row>, grouped: nat, begun: nat)

  /** A new firing alert is grouped, a new resolved one is not; a firing row is updated, a resolved one left alone. */
  function Upsert(b: Batch, key: AlertKey, e: AlertEvent, grouping: Grouping): Batch {
    if key !in b.alerts then
      if e.resolved then b.(alerts := b.alerts[key := Row(true, e.resolvedAt, e.content, None)])
      else Batch(b.alerts[key := Row(false, 0, e.content, Some(grouping.incident(b.grouped)))], b.grouped + 1,
                 b.begun + if grouping.isNew(b.grouped) then 1 else 0)
    else if b.alerts[key].resolved then b
    else b.(alerts := b.alerts[key := b.alerts[key].(
                                        resolved := e.resolved, resolvedAt := if e.resolved then e.resolvedAt else 0,
                                        content := e.content)])
  }

  function UpsertFirst(
      alerts: map<AlertKey, Row>, d: Delivery, ordered: seq<AlertEvent>, n: nat, grouping: Grouping): Batch
    requires n <= |ordered|
  {
    if n == 0 then Batch(alerts, 0, 0)
    else Upsert(UpsertFirst(alerts, d, ordered, n - 1, grouping), KeyOf(d, ordered[n - 1]), ordered[n - 1], grouping)
  }

  /** What admitting `begun` Investigations answers; None admits them. */
  function Admission(begun: nat, waiting: nat, policy: Policy): Option<Outcome> {
    if begun == 0 || !policy.agentAvailable then None
    else if policy.maximumPending > 0 && begun > policy.maximumPending then Some(BatchTooLarge)
    else if policy.maximumPending > 0 && begun > policy.maximumPending - waiting then Some(CapacityExhausted)
    else None
  }

  /** `ordered` is the delivery's events in the order the sort left them. */
  function Deliver(
      s: State, d: Delivery, ordered: seq<AlertEvent>, policy: Policy, grouping: Grouping): (State, Outcome) {
    if IdentityOf(d) in s.deliveries then
      (s, if s.deliveries[IdentityOf(d)] == d.digest then Duplicate else IdentityConflict)
    else if !AllStorable(ordered) then (s, Rejected)
    else
      var batch := UpsertFirst(s.alerts, d, ordered, |ordered|, grouping);
      var refusal := Admission(batch.begun, s.waiting, policy);
      if refusal.Some? then (s, refusal.value)
      else
        (State(s.deliveries[IdentityOf(d) := d.digest], batch.alerts,
               s.waiting + if policy.agentAvailable then batch.begun else 0),
         Accepted(|d.events|, batch.begun, if batch.grouped >= batch.begun then batch.grouped - batch.begun else 0))
  }

  /** Some permutation of the events: the sort is not stable, and nothing below depends on its order. */
  predicate IsOrder(d: Delivery, ordered: seq<AlertEvent>) {
    multiset(ordered) == multiset(d.events)
  }

  // --- what was accepted, told without the tables ----------------------------------------------

  /** Event i is firing and the first of its key, so it is the one the grouping step is given. */
  predicate NewlyFiring(known: set<AlertKey>, d: Delivery, ordered: seq<AlertEvent>, i: nat)
    requires i < |ordered|
  {
    && !ordered[i].resolved && KeyOf(d, ordered[i]) !in known
    && forall j :: 0 <= j < i ==> KeyOf(d, ordered[j]) != KeyOf(d, ordered[i])
  }

  /** How many of the first n events are given to the grouping step. */
  function Groupings(known: set<AlertKey>, d: Delivery, ordered: seq<AlertEvent>, n: nat): nat
    requires n <= |ordered|
  {
    if n == 0 then 0
    else Groupings(known, d, ordered, n - 1) + if NewlyFiring(known, d, ordered, n - 1) then 1 else 0
  }

  /** How many of the first n Incidents it answers with are new. */
  function NewIncidents(grouping: Grouping, n: nat): nat {
    if n == 0 then 0 else NewIncidents(grouping, n - 1) + if grouping.isNew(n - 1) then 1 else 0
  }

  /** The accepted events of one key in the order they were stored, and the Incident given for the first. */
  datatype Told = Told(events: seq<AlertEvent>, incident: Option<Id>)

  function Tell(told: map<AlertKey, Told>, key: AlertKey, e: AlertEvent, incident: Id): map<AlertKey, Told> {
    if key in told then told[key := Told(told[key].events + [e], told[key].incident)]
    else told[key := Told([e], if e.resolved then None else Some(incident))]
  }

  function TellFirst(
      told: map<AlertKey, Told>, d: Delivery, ordered: seq<AlertEvent>, n: nat, grouping: Grouping)
      : map<AlertKey, Told>
    requires n <= |ordered|
  {
    if n == 0 then told
    else Tell(TellFirst(told, d, ordered, n - 1, grouping), KeyOf(d, ordered[n - 1]), ordered[n - 1],
              grouping.incident(Groupings(told.Keys, d, ordered, n - 1)))
  }

  predicate FirstResolved(events: seq<AlertEvent>, i: nat) {
    i < |events| && events[i].resolved && forall j :: 0 <= j < i ==> !events[j].resolved
  }

  predicate AnyResolved(events: seq<AlertEvent>) {
    exists i :: 0 <= i < |events| && events[i].resolved
  }

  /** A resolved row is as the first resolved event told it, a firing one as the last event did. */
  predicate RowTells(row: Row, events: seq<AlertEvent>) {
    && events != []
    && row.resolved == AnyResolved(events)
    && (row.resolved ==>
          exists i :: 0 <= i < |events| && FirstResolved(events, i)
                      && row.resolvedAt == events[i].resolvedAt && row.content == events[i].content)
    && (!row.resolved ==> row.resolvedAt == 0 && row.content == events[|events| - 1].content)
    && row.incident.Some? == !events[0].resolved
  }

  predicate RowAgrees(row: Row, told: Told) {
    RowTells(row, told.events) && row.incident == told.incident
  }

  predicate Agrees(alerts: map<AlertKey, Row>, told: map<AlertKey, Told>) {
    alerts.Keys == told.Keys && forall key :: key in alerts ==> RowAgrees(alerts[key], told[key])
  }

  lemma {:induction false} AgreesWith(
      alerts: map<AlertKey, Row>, told: map<AlertKey, Told>, key: AlertKey, row: Row, t: Told)
    requires Agrees(alerts, told) && RowAgrees(row, t)
    ensures Agrees(alerts[key := row], told[key := t])
  {
    assert forall k :: k in alerts && k != key ==> alerts[key := row][k] == alerts[k];
  }

  lemma {:induction false} RowTellsMore(row: Row, events: seq<AlertEvent>, e: AlertEvent)
    requires RowTells(row, events)
    ensures row.resolved ==> RowTells(row, events + [e])
    ensures !row.resolved ==>
              RowTells(Row(e.resolved, if e.resolved then e.resolvedAt else 0, e.content, row.incident), events + [e])
  {
    var more := events + [e];
    assert more[|events|] == e && more[0] == events[0];
    if row.resolved {
      var i :| 0 <= i < |events| && FirstResolved(events, i)
               && row.resolvedAt == events[i].resolvedAt && row.content == events[i].content;
      assert more[i] == events[i] && FirstResolved(more, i);
    } else {
      assert e.resolved ==> FirstResolved(more, |events|);
    }
  }

  lemma {:induction false} RowTellsOne(e: AlertEvent, incident: Option<Id>)
    requires incident.Some? == !e.resolved
    ensures RowTells(Row(e.resolved, if e.resolved then e.resolvedAt else 0, e.content, incident), [e])
  {
    assert e.resolved ==> FirstResolved([e], 0);
  }

  lemma {:induction false} UpsertAgrees(
      b: Batch, told: map<AlertKey, Told>, key: AlertKey, e: AlertEvent, grouping: Grouping)
    requires Agrees(b.alerts, told)
    ensures Agrees(Upsert(b, key, e, grouping).alerts, Tell(told, key, e, grouping.incident(b.grouped)))
  {
    if key in told {
      var row, t := b.alerts[key], told[key];
      assert RowAgrees(row, t);
      RowTellsMore(row, t.events, e);
      var written :=
        if row.resolved then row
        else Row(e.resolved, if e.resolved then e.resolvedAt else 0, e.content, row.incident);
      AgreesWith(b.alerts, told, key, written, Told(t.events + [e], t.incident));
      assert row.resolved ==> b.alerts[key := row] == b.alerts;
    } else {
      var incident := if e.resolved then None else Some(grouping.incident(b.grouped));
      var row := Row(e.resolved, if e.resolved then e.resolvedAt else 0, e.content, incident);
      RowTellsOne(e, incident);
      AgreesWith(b.alerts, told, key, row, Told([e], incident));
    }
  }

  lemma {:induction false} ToldKeys(
      told: map<AlertKey, Told>, d: Delivery, ordered: seq<AlertEvent>, n: nat, grouping: Grouping, key: AlertKey)
    requires n <= |ordered|
    ensures key in TellFirst(told, d, ordered, n, grouping) <==>
              key in told || exists i :: 0 <= i < n && KeyOf(d, ordered[i]) == key
  {
    if n > 0 { ToldKeys(told, d, ordered, n - 1, grouping, key); }
  }

  lemma {:induction false} BatchKeys(
      alerts: map<AlertKey, Row>, d: Delivery, ordered: seq<AlertEvent>, n: nat, grouping: Grouping, key: AlertKey)
    requires n <= |ordered|
    ensures key in UpsertFirst(alerts, d, ordered, n, grouping).alerts <==>
              key in alerts || exists i :: 0 <= i < n && KeyOf(d, ordered[i]) == key
  {
    if n > 0 { BatchKeys(alerts, d, ordered, n - 1, grouping, key); }
  }

  /** The grouping step is asked once for each newly firing alert. */
  lemma {:induction false} GroupsNewlyFiring(
      alerts: map<AlertKey, Row>, d: Delivery, ordered: seq<AlertEvent>, n: nat, grouping: Grouping)
    requires n <= |ordered|
    ensures var b := UpsertFirst(alerts, d, ordered, n, grouping);
            && b.grouped == Groupings(alerts.Keys, d, ordered, n)
            && b.begun == NewIncidents(grouping, b.grouped)
  {
    if n > 0 {
      GroupsNewlyFiring(alerts, d, ordered, n - 1, grouping);
      BatchKeys(alerts, d, ordered, n - 1, grouping, KeyOf(d, ordered[n - 1]));
    }
  }

  lemma {:induction false} UpsertsAgree(
      alerts: map<AlertKey, Row>, told: map<AlertKey, Told>, d: Delivery, ordered: seq<AlertEvent>, n: nat,
      grouping: Grouping)
    requires n <= |ordered| && Agrees(alerts, told)
    ensures var b, t := UpsertFirst(alerts, d, ordered, n, grouping), TellFirst(told, d, ordered, n, grouping);
            var agrees := Agrees(b.alerts, t);
            agrees
  {
    if n > 0 {
      UpsertsAgree(alerts, told, d, ordered, n - 1, grouping);
      GroupsNewlyFiring(alerts, d, ordered, n - 1, grouping);
      var e := ordered[n - 1];
      var b, t := UpsertFirst(alerts, d, ordered, n - 1, grouping), TellFirst(told, d, ordered, n - 1, grouping);
      UpsertAgrees(b, t, KeyOf(d, e), e, grouping);
      assert told.Keys == alerts.Keys;
    }
  }

  /** The events of one key among the first n. */
  function EventsOf(d: Delivery, ordered: seq<AlertEvent>, n: nat, key: AlertKey): seq<AlertEvent>
    requires n <= |ordered|
  {
    if n == 0 then []
    else EventsOf(d, ordered, n - 1, key) + if KeyOf(d, ordered[n - 1]) == key then [ordered[n - 1]] else []
  }

  function EventsIn(told: map<AlertKey, Told>, key: AlertKey): seq<AlertEvent> {
    if key in told then told[key].events else []
  }

  lemma {:induction false} ToldEvents(
      told: map<AlertKey, Told>, d: Delivery, ordered: seq<AlertEvent>, n: nat, grouping: Grouping, key: AlertKey)
    requires n <= |ordered|
    ensures EventsIn(TellFirst(told, d, ordered, n, grouping), key)
         == EventsIn(told, key) + EventsOf(d, ordered, n, key)
  {
    if n > 0 { ToldEvents(told, d, ordered, n - 1, grouping, key); }
  }

  lemma {:induction false} EventsAreOrdered(d: Delivery, ordered: seq<AlertEvent>, n: nat, key: AlertKey)
    requires n <= |ordered|
    ensures EventsOf(d, ordered, n, key) != [] <==> exists i :: 0 <= i < n && KeyOf(d, ordered[i]) == key
    ensures AnyResolved(EventsOf(d, ordered, n, key)) <==>
              exists i :: 0 <= i < n && KeyOf(d, ordered[i]) == key && ordered[i].resolved
  {
    if n > 0 {
      var e := ordered[n - 1];
      EventsAreOrdered(d, ordered, n - 1, key);
      AnyResolvedJoins(EventsOf(d, ordered, n - 1, key), if KeyOf(d, e) == key then [e] else []);
      assert AnyResolved([e]) == e.resolved by { assert e.resolved ==> [e][0].resolved; }
    }
  }

  lemma {:induction false} AnyResolvedJoins(s: seq<AlertEvent>, t: seq<AlertEvent>)
    ensures AnyResolved(s + t) == (AnyResolved(s) || AnyResolved(t))
  {
    if AnyResolved(s) {
      var i :| 0 <= i < |s| && s[i].resolved;
      assert (s + t)[i].resolved;
    }
    if AnyResolved(t) {
      var i :| 0 <= i < |t| && t[i].resolved;
      assert (s + t)[|s| + i].resolved;
    }
  }

  /** An alert met first in this batch has the Incident that the grouping step gave for its first event. */
  lemma {:induction false} ToldIncident(
      told: map<AlertKey, Told>, d: Delivery, ordered: seq<AlertEvent>, n: nat, grouping: Grouping, key: AlertKey)
    requires n <= |ordered|
    ensures key in told ==>
              key in TellFirst(told, d, ordered, n, grouping)
              && TellFirst(told, d, ordered, n, grouping)[key].incident == told[key].incident
    ensures forall i :: 0 <= i < n && NewlyFiring(told.Keys, d, ordered, i) && KeyOf(d, ordered[i]) == key ==>
              key in TellFirst(told, d, ordered, n, grouping)
              && TellFirst(told, d, ordered, n, grouping)[key].incident
              == Some(grouping.incident(Groupings(told.Keys, d, ordered, i)))
  {
    if n > 0 {
      ToldIncident(told, d, ordered, n - 1, grouping, key);
      ToldKeys(told, d, ordered, n - 1, grouping, key);
    }
  }

  lemma {:induction false} ResolvedRowsStay(
      alerts: map<AlertKey, Row>, d: Delivery, ordered: seq<AlertEvent>, n: nat, grouping: Grouping)
    requires n <= |ordered|
    ensures forall key :: key in alerts && alerts[key].resolved ==>
              var after := UpsertFirst(alerts, d, ordered, n, grouping).alerts;
              key in after && after[key] == alerts[key]
  {
    if n > 0 { ResolvedRowsStay(alerts, d, ordered, n - 1, grouping); }
  }

  // --- any sequence of deliveries --------------------------------------------------------------

  /** A delivery, or the claiming of Investigations that were waiting. */
  datatype Attempt =
    | Attempt(delivery: Delivery, ordered: seq<AlertEvent>, policy: Policy, grouping: Grouping)
    | Claim(taken: nat)

  function Claimed(s: State, taken: nat): State {
    s.(waiting := if taken <= s.waiting then s.waiting - taken else 0)
  }

  function Try(s: State, a: Attempt): (State, Outcome)
    requires a.Attempt?
  {
    Deliver(s, a.delivery, a.ordered, a.policy, a.grouping)
  }

  function After(s: State, attempts: seq<Attempt>): State {
    if attempts == [] then s
    else
      var before, a := After(s, attempts[..|attempts| - 1]), attempts[|attempts| - 1];
      if a.Claim? then Claimed(before, a.taken) else Try(before, a).0
  }

  predicate WasAccepted(s: State, attempts: seq<Attempt>, i: nat)
    requires i < |attempts|
  {
    attempts[i].Attempt? && Try(After(s, attempts[..i]), attempts[i]).1.Accepted?
  }

  const EMPTY := State(map[], map[], 0)

  /** What the accepted deliveries of a run told. */
  function ToldBy(attempts: seq<Attempt>): map<AlertKey, Told> {
    if attempts == [] then map[]
    else
      var n := |attempts| - 1;
      var told := ToldBy(attempts[..n]);
      if WasAccepted(EMPTY, attempts, n) then
        TellFirst(told, attempts[n].delivery, attempts[n].ordered, |attempts[n].ordered|, attempts[n].grouping)
      else told
  }

  lemma {:induction false} EveryRunAgrees(attempts: seq<Attempt>)
    ensures Agrees(After(EMPTY, attempts).alerts, ToldBy(attempts))
  {
    if attempts != [] {
      var n := |attempts| - 1;
      var a, before := attempts[n], After(EMPTY, attempts[..n]);
      EveryRunAgrees(attempts[..n]);
      if a.Claim? { return; }
      UpsertsAgree(before.alerts, ToldBy(attempts[..n]), a.delivery, a.ordered, |a.ordered|, a.grouping);
    }
  }

  predicate Carries(d: Delivery, key: AlertKey, resolved: bool) {
    exists e :: e in d.events && KeyOf(d, e) == key && (resolved ==> e.resolved)
  }

  /** Some accepted delivery of the run carried an event of this key, and a resolved one if asked. */
  predicate AcceptedFor(attempts: seq<Attempt>, key: AlertKey, resolved: bool) {
    attempts != []
    && (|| AcceptedFor(attempts[..|attempts| - 1], key, resolved)
        || (&& WasAccepted(EMPTY, attempts, |attempts| - 1)
            && Carries(attempts[|attempts| - 1].delivery, key, resolved)))
  }

  predicate AllOrders(attempts: seq<Attempt>) {
    forall i :: 0 <= i < |attempts| && attempts[i].Attempt? ==> IsOrder(attempts[i].delivery, attempts[i].ordered)
  }

  lemma {:induction false} OrderCarries(d: Delivery, ordered: seq<AlertEvent>, key: AlertKey, resolved: bool)
    requires IsOrder(d, ordered)
    ensures Carries(d, key, resolved) <==>
              exists i :: 0 <= i < |ordered| && KeyOf(d, ordered[i]) == key && (resolved ==> ordered[i].resolved)
  {
    assert forall e :: e in d.events <==> e in multiset(d.events);
    assert forall e :: e in ordered <==> e in multiset(ordered);
    if Carries(d, key, resolved) {
      var e :| e in d.events && KeyOf(d, e) == key && (resolved ==> e.resolved);
      assert e in ordered;
    }
  }

  /** The accepted events of one key, in the order they were stored. */
  function Heard(attempts: seq<Attempt>, key: AlertKey): seq<AlertEvent> {
    if attempts == [] then []
    else
      var n := |attempts| - 1;
      Heard(attempts[..n], key)
      + if WasAccepted(EMPTY, attempts, n)
        then EventsOf(attempts[n].delivery, attempts[n].ordered, |attempts[n].ordered|, key) else []
  }

  lemma {:induction false} ToldIsHeard(attempts: seq<Attempt>, key: AlertKey)
    ensures EventsIn(ToldBy(attempts), key) == Heard(attempts, key)
  {
    if attempts != [] {
      var n := |attempts| - 1;
      var a := attempts[n];
      ToldIsHeard(attempts[..n], key);
      if a.Claim? { return; }
      ToldEvents(ToldBy(attempts[..n]), a.delivery, a.ordered, |a.ordered|, a.grouping, key);
    }
  }

  lemma {:induction false} HeardIsAccepted(attempts: seq<Attempt>, key: AlertKey)
    requires AllOrders(attempts)
    ensures Heard(attempts, key) != [] <==> AcceptedFor(attempts, key, false)
    ensures AnyResolved(Heard(attempts, key)) <==> AcceptedFor(attempts, key, true)
  {
    if attempts != [] {
      var n := |attempts| - 1;
      var a := attempts[n];
      HeardIsAccepted(attempts[..n], key);
      if !WasAccepted(EMPTY, attempts, n) {
        assert Heard(attempts, key) == Heard(attempts[..n], key);
        return;
      }
      OrderCarries(a.delivery, a.ordered, key, false);
      OrderCarries(a.delivery, a.ordered, key, true);
      EventsAreOrdered(a.delivery, a.ordered, |a.ordered|, key);
      AnyResolvedJoins(Heard(attempts[..n], key), EventsOf(a.delivery, a.ordered, |a.ordered|, key));
    }
  }

  /**
   Whatever was delivered, a row exists iff an event of its key was accepted. A resolved row carries the resolution
   time and content of the first accepted resolved event of its key, a firing one the content of the last accepted
   event and no resolution time, and there is an Incident iff the first accepted event was firing.
   */
  lemma {:induction false} RowIsHistory(attempts: seq<Attempt>, key: AlertKey)
    ensures key in After(EMPTY, attempts).alerts <==> Heard(attempts, key) != []
    ensures key in After(EMPTY, attempts).alerts ==> RowTells(After(EMPTY, attempts).alerts[key], Heard(attempts, key))
  {
    EveryRunAgrees(attempts);
    ToldIsHeard(attempts, key);
  }

  /** In whatever order it came: a row is resolved iff a resolved event of its key was accepted. */
  lemma {:induction false} StatusIsOrderFree(attempts: seq<Attempt>, key: AlertKey)
    requires AllOrders(attempts)
    ensures key in After(EMPTY, attempts).alerts <==> AcceptedFor(attempts, key, false)
    ensures key in After(EMPTY, attempts).alerts ==>
              (After(EMPTY, attempts).alerts[key].resolved <==> AcceptedFor(attempts, key, true))
  {
    RowIsHistory(attempts, key);
    HeardIsAccepted(attempts, key);
  }

  lemma {:induction false} IncidentStays(attempts: seq<Attempt>, m: nat, key: AlertKey)
    requires m <= |attempts| && key in ToldBy(attempts[..m])
    ensures key in ToldBy(attempts) && ToldBy(attempts)[key].incident == ToldBy(attempts[..m])[key].incident
    decreases |attempts|
  {
    if m == |attempts| {
      assert attempts[..m] == attempts;
    } else {
      var n := |attempts| - 1;
      var a := attempts[n];
      assert attempts[..n][..m] == attempts[..m];
      IncidentStays(attempts[..n], m, key);
      if a.Claim? { return; }
      ToldIncident(ToldBy(attempts[..n]), a.delivery, a.ordered, |a.ordered|, a.grouping, key);
    }
  }

  /**
   Whatever follows, an alert first met firing stays in the Incident that the grouping step gave for that event, the
   one it answers with after one Incident for each newly firing event before it in the delivery.
   */
  lemma {:induction false} IncidentIsTheFirst(attempts: seq<Attempt>, m: nat, i: nat)
    requires m < |attempts| && WasAccepted(EMPTY, attempts, m) && i < |attempts[m].ordered|
    requires NewlyFiring(After(EMPTY, attempts[..m]).alerts.Keys, attempts[m].delivery, attempts[m].ordered, i)
    ensures var a, rows := attempts[m], After(EMPTY, attempts).alerts;
            var key := KeyOf(a.delivery, a.ordered[i]);
            && key in rows
            && rows[key].incident
            == Some(a.grouping.incident(Groupings(After(EMPTY, attempts[..m]).alerts.Keys, a.delivery, a.ordered, i)))
  {
    var a, to := attempts[m], attempts[..m + 1];
    var key := KeyOf(a.delivery, a.ordered[i]);
    assert to[..m] == attempts[..m] && to[m] == a;
    EveryRunAgrees(attempts[..m]);
    ToldIncident(ToldBy(attempts[..m]), a.delivery, a.ordered, |a.ordered|, a.grouping, key);
    IncidentStays(attempts, m + 1, key);
    EveryRunAgrees(attempts);
  }

  /** How many Investigations a delivery would begin. */
  function Begins(s: State, a: Attempt): nat
    requires a.Attempt?
  {
    UpsertFirst(s.alerts, a.delivery, a.ordered, |a.ordered|, a.grouping).begun
  }

  /** It begins one for each new Incident among those that its newly firing alerts were given. */
  lemma {:induction false} BeginsExactly(s: State, a: Attempt)
    requires a.Attempt?
    ensures Begins(s, a) == NewIncidents(a.grouping, Groupings(s.alerts.Keys, a.delivery, a.ordered, |a.ordered|))
  {
    GroupsNewlyFiring(s.alerts, a.delivery, a.ordered, |a.ordered|, a.grouping);
  }

  /** Some accepted delivery of the run had this identity and this digest. */
  predicate AcceptedAs(attempts: seq<Attempt>, identity: DeliveryKey, digest: string) {
    attempts != []
    && (|| AcceptedAs(attempts[..|attempts| - 1], identity, digest)
        || (&& WasAccepted(EMPTY, attempts, |attempts| - 1)
            && IdentityOf(attempts[|attempts| - 1].delivery) == identity
            && attempts[|attempts| - 1].delivery.digest == digest))
  }

  lemma {:induction false} ClaimsAreAccepted(attempts: seq<Attempt>, identity: DeliveryKey, digest: string)
    ensures var claims := After(EMPTY, attempts).deliveries;
            identity in claims && claims[identity] == digest <==> AcceptedAs(attempts, identity, digest)
  {
    if attempts != [] { ClaimsAreAccepted(attempts[..|attempts| - 1], identity, digest); }
  }

  lemma {:induction false} NewAmongGiven(grouping: Grouping, n: nat)
    ensures NewIncidents(grouping, n) <= n
  {
    if n > 0 { NewAmongGiven(grouping, n - 1); }
  }

  /**
   After any run, what a delivery is answered: a duplicate or a conflict by the digest accepted under its identity,
   rejected for an event that cannot be stored, refused exactly when the Investigations it begins are too many for
   the limit or for what is left of it, and accepted otherwise.
   */
  lemma {:induction false} OutcomeExactlyWhen(attempts: seq<Attempt>, a: Attempt)
    requires a.Attempt?
    ensures var s, identity := After(EMPTY, attempts), IdentityOf(a.delivery);
            var given := Groupings(s.alerts.Keys, a.delivery, a.ordered, |a.ordered|);
            var begun, most, outcome := NewIncidents(a.grouping, given), a.policy.maximumPending, Try(s, a).1;
            if AcceptedAs(attempts, identity, a.delivery.digest) then outcome == Duplicate
            else if exists digest :: AcceptedAs(attempts, identity, digest) then outcome == IdentityConflict
            else if !AllStorable(a.ordered) then outcome == Rejected
            else if begun == 0 || !a.policy.agentAvailable || most <= 0 || begun + s.waiting <= most then
              && outcome.Accepted? && outcome.recorded == |a.delivery.events|
              && outcome.incidentsOpened == begun && outcome.incidentsJoined + begun == given
              && Try(s, a).0.waiting == s.waiting + if a.policy.agentAvailable then begun else 0
            else outcome == if begun > most then BatchTooLarge else CapacityExhausted
  {
    var s, identity := After(EMPTY, attempts), IdentityOf(a.delivery);
    forall digest
      ensures AcceptedAs(attempts, identity, digest) <==>
                identity in s.deliveries && s.deliveries[identity] == digest
    {
      ClaimsAreAccepted(attempts, identity, digest);
    }
    assert identity in s.deliveries ==> AcceptedAs(attempts, identity, s.deliveries[identity]);
    GroupsNewlyFiring(s.alerts, a.delivery, a.ordered, |a.ordered|, a.grouping);
    NewAmongGiven(a.grouping, Groupings(s.alerts.Keys, a.delivery, a.ordered, |a.ordered|));
  }

  /** Over any continuation a resolved row keeps every column. */
  lemma {:induction false} ResolvedIsAbsorbing(s: State, attempts: seq<Attempt>, key: AlertKey)
    requires key in s.alerts && s.alerts[key].resolved
    ensures key in After(s, attempts).alerts && After(s, attempts).alerts[key] == s.alerts[key]
  {
    if attempts != [] {
      var n := |attempts| - 1;
      var a, before := attempts[n], After(s, attempts[..n]);
      ResolvedIsAbsorbing(s, attempts[..n], key);
      if a.Claim? { return; }
      ResolvedRowsStay(before.alerts, a.delivery, a.ordered, |a.ordered|, a.grouping);
    }
  }

  lemma {:induction false} ClaimsStay(s: State, attempts: seq<Attempt>, claim: DeliveryKey)
    requires claim in s.deliveries
    ensures claim in After(s, attempts).deliveries && After(s, attempts).deliveries[claim] == s.deliveries[claim]
  {
    if attempts != [] { ClaimsStay(s, attempts[..|attempts| - 1], claim); }
  }

  /** At any later point a redelivery changes nothing, whatever order, policy or grouping it meets. */
  lemma {:induction false} RedeliveryIsIdle(s: State, first: Attempt, between: seq<Attempt>, again: Attempt)
    requires first.Attempt? && again.Attempt? && again.delivery == first.delivery && Try(s, first).1.Accepted?
    ensures var later := After(Try(s, first).0, between);
            Try(later, again) == (later, Duplicate)
  {
    ClaimsStay(Try(s, first).0, between, IdentityOf(first.delivery));
  }

  /** A delivery not accepted leaves no trace, so a run goes on as if it had never been tried. */
  lemma {:induction false} RefusalLeavesNoTrace(s: State, first: Attempt, rest: seq<Attempt>)
    requires first.Attempt? && !Try(s, first).1.Accepted?
    ensures After(s, [first] + rest) == After(s, rest)
  {
    if rest == [] {
      assert [first] + rest == [first] && [first][..0] == [];
    } else {
      var n := |rest| - 1;
      assert ([first] + rest)[..n + 1] == [first] + rest[..n];
      RefusalLeavesNoTrace(s, first, rest[..n]);
    }
  }

  /**
   Refused for want of capacity, a delivery is accepted as new once enough waiting Investigations are claimed, and
   not before.
   */
  lemma {:induction false} FreedCapacityAdmits(s: State, first: Attempt, taken: nat)
    requires first.Attempt? && Try(s, first).1 == CapacityExhausted && taken <= s.waiting
    ensures var later := After(s, [first, Claim(taken)]);
            && later == Claimed(s, taken)
            && (Try(later, first).1.Accepted?
                <==> Begins(s, first) + (s.waiting - taken) <= first.policy.maximumPending)
            && (!Try(later, first).1.Accepted? ==> Try(later, first).1 == CapacityExhausted)
  {
    RefusalLeavesNoTrace(s, first, [Claim(taken)]);
    assert [first, Claim(taken)] == [first] + [Claim(taken)];
    assert [Claim(taken)][..0] == [];
  }

  // --- the store -------------------------------------------------------------------------------

  class AlertStore {
    var deliveries: map<DeliveryKey, string>
    var alerts: map<AlertKey, Row>
    var waiting: nat

    constructor ()
      ensures Contents() == EMPTY
    {
      deliveries, alerts, waiting := map[], map[], 0;
    }

    function Contents(): State
      reads this
    {
      State(deliveries, alerts, waiting)
    }

    /** A worker takes up waiting Investigations. */
    method ClaimWaiting(taken: nat)
      modifies this`waiting
      ensures Contents() == Claimed(old(Contents()), taken)
    {
      waiting := if taken <= waiting then waiting - taken else 0;
    }

    /** One transaction: it claims, upserts in order, groups what is new and firing, and commits only at the end. */
    method RecordDelivery(
        d: Delivery, ordered: seq<AlertEvent>, policy: Policy, grouping: Grouping)
      returns (outcome: Outcome)
      requires IsOrder(d, ordered)
      modifies this
      ensures (Contents(), outcome) == Deliver(old(Contents()), d, ordered, policy, grouping)
    {
      if IdentityOf(d) in deliveries {
        return if deliveries[IdentityOf(d)] == d.digest then Duplicate else IdentityConflict;
      }
      var written, joined, begun := alerts, 0, 0;
      for i := 0 to |ordered|
        invariant Batch(written, joined + begun, begun) == UpsertFirst(alerts, d, ordered, i, grouping)
        invariant forall j :: 0 <= j < i ==> Storable(ordered[j])
      {
        var e, key := ordered[i], KeyOf(d, ordered[i]);
        if !Storable(e) { return Rejected; }
        if key !in written {
          if e.resolved {
            written := written[key := Row(true, e.resolvedAt, e.content, None)];
            continue;
          }
          written := written[key := Row(false, 0, e.content, Some(grouping.incident(joined + begun)))];
          if grouping.isNew(joined + begun) { begun := begun + 1; } else { joined := joined + 1; }
        } else if !written[key].resolved {
          written := written[key := written[key].(resolved := e.resolved,
                                                  resolvedAt := if e.resolved then e.resolvedAt else 0,
                                                  content := e.content)];
        }
      }
      var refusal := Admission(begun, waiting, policy);
      if refusal.Some? { return refusal.value; }
      deliveries := deliveries[IdentityOf(d) := d.digest];
      alerts := written;
      if policy.agentAvailable { waiting := waiting + begun; }
      outcome := Accepted(|d.events|, begun, joined);
    }
  }
}
