/**
 The event log of one Investigation and its resumable reader
 (internal/investigation/events.go, internal/store/postgres/investigation_event.go, investigation.go).

 Writers act between any two reads of the reader, so a contract for every choice of their actions covers
 every interleaving. Each transaction is one action.
 */
module EventLog {

  const MAX_EVENTS_PER_READ: nat := 500

  /** `Sequence` is assigned by the database: one more than the greatest so far. */
  datatype Event = Event(sequence: nat, kind: nat)

  /** Concluded, failed, cancelled. */
  predicate Terminal(kind: nat) {
    kind in {6, 7, 9}
  }

  /** Kinds earlier releases wrote; no read returns them. */
  predicate Hidden(kind: nat) {
    kind in {5, 8, 10}
  }

  datatype Db = Db(log: seq<Event>, running: bool)

  /** An appended event, held back when the claim on the Investigation is lost; or an ending, with its event. */
  datatype Action = AppendEvent(kind: nat, claimed: bool) | EndWith(kind: nat, claimed: bool)

  function Next(db: Db, kind: nat): Event {
    Event(MaxSequence(db.log) + 1, kind)
  }

  function MaxSequence(log: seq<Event>): nat {
    if log == [] then 0
    else
      var top := MaxSequence(log[..|log| - 1]);
      if log[|log| - 1].sequence > top then log[|log| - 1].sequence else top
  }

  /** The terminal event commits together with the status change; every other event needs a running status. */
  function Apply(db: Db, action: Action): Db {
    if !db.running || !action.claimed then db
    else if action.AppendEvent? then db.(log := db.log + [Next(db, action.kind)])
    else Db(db.log + [Next(db, action.kind)], false)
  }

  function ApplyAll(db: Db, actions: seq<Action>): Db {
    if actions == [] then db else Apply(ApplyAll(db, actions[..|actions| - 1]), actions[|actions| - 1])
  }

  /** The agent announces no terminal kind, and only terminal kinds end an Investigation. */
  predicate Proper(action: Action) {
    Terminal(action.kind) <==> action.EndWith?
  }

  predicate AllProper(actions: seq<Action>) {
    forall i :: 0 <= i < |actions| ==> Proper(actions[i])
  }

  /** Gap-free from 1, nothing after a terminal event, and one exactly when the Investigation has ended. */
  predicate WellFormed(db: Db) {
    && (forall i :: 0 <= i < |db.log| ==> db.log[i].sequence == i + 1)
    && (forall i :: 0 <= i < |db.log| - 1 ==> !Terminal(db.log[i].kind))
    && (db.running <==> db.log == [] || !Terminal(db.log[|db.log| - 1].kind))
  }

  lemma {:induction false} MaxSequenceIsLength(log: seq<Event>)
    requires forall i :: 0 <= i < |log| ==> log[i].sequence == i + 1
    ensures MaxSequence(log) == |log|
  {
    if log != [] { MaxSequenceIsLength(log[..|log| - 1]); }
  }

  /** A step keeps the log well formed exactly when what it writes is proper. */
  lemma {:induction false} StepKeeps(db: Db, action: Action)
    requires WellFormed(db)
    ensures WellFormed(Apply(db, action)) <==> Proper(action) || !db.running || !action.claimed
    ensures db.log <= Apply(db, action).log
    ensures !db.running ==> Apply(db, action) == db
  {
    MaxSequenceIsLength(db.log);
    if db.running && action.claimed {
      var after := Apply(db, action);
      assert after.log[|db.log|] == Event(|db.log| + 1, action.kind);
    }
  }

  lemma {:induction false} RunKeeps(db: Db, actions: seq<Action>)
    requires WellFormed(db) && AllProper(actions)
    ensures WellFormed(ApplyAll(db, actions))
    ensures db.log <= ApplyAll(db, actions).log
    ensures !db.running ==> ApplyAll(db, actions) == db
  {
    if actions != [] {
      var n := |actions| - 1;
      RunKeeps(db, actions[..n]);
      StepKeeps(ApplyAll(db, actions[..n]), actions[n]);
    }
  }

  // --- the writer's own stream -----------------------------------------------------------------

  /** What the mutex guards, and the events the stream has numbered. */
  datatype Stream = Stream(sequence: nat, sawFirst: bool, closed: bool, numbered: seq<Event>)

  /**
   What the one run of an Investigation and whoever ends it do. An announcement reaches the store unless the stream
   is closed; `heard` is whether the stream learns that a committed append was committed.
   */
  datatype Work = Announce(kind: nat, claimed: bool, heard: bool) | Finish(kind: nat, claimed: bool)

  /** The store and the stream that writes to it. */
  datatype Pair = Pair(db: Db, stream: Stream)

  /** A new Investigation is claimed once, so its run starts with an empty log and is the only one to announce. */
  const NEW := Pair(Db([], true), Stream(0, false, false, []))

  function Numbered(stream: Stream, kind: nat): Stream {
    Stream(stream.sequence + 1, true, Terminal(kind), stream.numbered + [Event(stream.sequence + 1, kind)])
  }

  predicate Commits(db: Db, work: Work) {
    db.running && work.claimed
  }

  function Do(pair: Pair, work: Work): Pair {
    match work
    case Finish(kind, claimed) => pair.(db := Apply(pair.db, EndWith(kind, claimed)))
    case Announce(kind, claimed, heard) =>
      if pair.stream.closed then pair
      else
        Pair(Apply(pair.db, AppendEvent(kind, claimed)),
             if Commits(pair.db, work) && heard then Numbered(pair.stream, kind) else pair.stream)
  }

  function DoAll(pair: Pair, works: seq<Work>): Pair {
    if works == [] then pair else Do(DoAll(pair, works[..|works| - 1]), works[|works| - 1])
  }

  /** The agent announces no terminal kind, and an ending writes one. */
  predicate Fitting(work: Work) {
    Terminal(work.kind) <==> work.Finish?
  }

  predicate AllFitting(works: seq<Work>) {
    forall i :: 0 <= i < |works| ==> Fitting(works[i])
  }

  /** Committed announcements of which the stream never learned. */
  function Lost(pair: Pair, works: seq<Work>): nat {
    if works == [] then 0
    else
      var n := |works| - 1;
      var work := works[n];
      Lost(pair, works[..n])
      + if work.Announce? && !work.heard && Commits(DoAll(pair, works[..n]).db, work) then 1 else 0
  }

  /** The stored log without the terminal event of an ended Investigation. */
  function Announced(db: Db): seq<Event> {
    if db.running || db.log == [] then db.log else db.log[..|db.log| - 1]
  }

  /** The stream's numbers are its own 1, 2, ..., it never closes, and as many events are stored as it knows or lost. */
  predicate Accounts(pair: Pair, lost: nat) {
    && WellFormed(pair.db) && !pair.stream.closed
    && pair.stream.sequence == |pair.stream.numbered| && (pair.stream.sawFirst <==> pair.stream.numbered != [])
    && |Announced(pair.db)| == |pair.stream.numbered| + lost
    && (lost == 0 ==> pair.stream.numbered == Announced(pair.db))
  }

  lemma {:induction false} DoAccounts(pair: Pair, work: Work, lost: nat)
    requires Accounts(pair, lost) && Fitting(work)
    ensures Accounts(Do(pair, work), lost + if work.Announce? && !work.heard && Commits(pair.db, work) then 1 else 0)
  {
    MaxSequenceIsLength(pair.db.log);
    if work.Finish? {
      StepKeeps(pair.db, EndWith(work.kind, work.claimed));
    } else {
      StepKeeps(pair.db, AppendEvent(work.kind, work.claimed));
    }
  }

  lemma {:induction false} WorkAccounts(works: seq<Work>)
    requires AllFitting(works)
    ensures Accounts(DoAll(NEW, works), Lost(NEW, works))
  {
    if works != [] {
      var n := |works| - 1;
      WorkAccounts(works[..n]);
      DoAccounts(DoAll(NEW, works[..n]), works[n], Lost(NEW, works[..n]));
    }
  }

  /**
   Over every interleaving of announcements and endings, the events as the stream numbered them are the stored
   ones, without the terminal one, exactly when the stream learned of every announcement that was committed.
   */
  lemma {:induction false} NumbersAgreeExactlyWhen(works: seq<Work>)
    requires AllFitting(works)
    ensures var pair := DoAll(NEW, works);
            pair.stream.numbered == Announced(pair.db) <==> Lost(NEW, works) == 0
  {
    WorkAccounts(works);
  }

  /** One acknowledgement lost: the next event is stored as the second and numbered as the first. */
  lemma {:induction false} LostAcknowledgementShifts()
    ensures var pair := DoAll(NEW, [Announce(1, true, false), Announce(2, true, true)]);
            pair.db.log == [Event(1, 1), Event(2, 2)] && pair.stream.numbered == [Event(1, 2)]
  {
    var works := [Announce(1, true, false), Announce(2, true, true)];
    assert works[..1] == [works[0]] && works[..1][..0] == [];
    assert DoAll(NEW, works[..1][..0]) == NEW;
    assert DoAll(NEW, works[..1]).db.log == [Event(1, 1)];
    assert [Event(1, 1)][..0] == [];
  }

  /** What the store sees of the work. */
  function ActionOf(work: Work): Action {
    match work
    case Announce(kind, claimed, _) => AppendEvent(kind, claimed)
    case Finish(kind, claimed) => EndWith(kind, claimed)
  }

  function ActionsOf(works: seq<Work>): (actions: seq<Action>)
    ensures |actions| == |works| && forall i :: 0 <= i < |works| ==> actions[i] == ActionOf(works[i])
  {
    seq(|works|, i requires 0 <= i < |works| => ActionOf(works[i]))
  }

  /** To the store, the run's work is a sequence of proper actions. */
  lemma {:induction false} WorkIsActions(pair: Pair, works: seq<Work>)
    requires AllFitting(works) && !pair.stream.closed
    ensures AllProper(ActionsOf(works)) && !DoAll(pair, works).stream.closed
    ensures DoAll(pair, works).db == ApplyAll(pair.db, ActionsOf(works))
  {
    if works != [] {
      var n := |works| - 1;
      WorkIsActions(pair, works[..n]);
      assert ActionsOf(works)[..n] == ActionsOf(works[..n]);
    }
  }

  lemma {:induction false} DoAllConcat(pair: Pair, a: seq<Work>, b: seq<Work>)
    ensures DoAll(pair, a + b) == DoAll(DoAll(pair, a), b)
  {
    if b == [] {
      assert a + b == a;
    } else {
      var n := |b| - 1;
      assert (a + b)[..|a| + n] == a + b[..n];
      DoAllConcat(pair, a, b[..n]);
    }
  }

  /** The stored events of one Investigation. */
  class EventTable {
    var db: Db

    constructor ()
      ensures db == NEW.db
    {
      db := NEW.db;
    }

    /** One transaction; false when the Investigation has ended or its claim is lost, and nothing is written. */
    method AppendEvent(kind: nat, claimed: bool) returns (committed: bool)
      modifies this
      ensures db == Apply(old(db), Action.AppendEvent(kind, claimed))
      ensures committed <==> old(db).running && claimed
    {
      committed := db.running && claimed;
      if committed { db := db.(log := db.log + [Next(db, kind)]); }
    }

    /** One transaction: the status and the terminal event together. */
    method End(kind: nat, claimed: bool)
      modifies this
      ensures db == Apply(old(db), EndWith(kind, claimed))
    {
      if db.running && claimed { db := Db(db.log + [Next(db, kind)], false); }
    }
  }

  /** The writer: emissions hold the mutex, so each is one step of the stream and its table. */
  class EventStream {
    const table: EventTable
    var sequence: nat
    var sawFirst: bool
    var closed: bool
    ghost var numbered: seq<Event>

    constructor (table: EventTable)
      ensures this.table == table && Both() == Pair(table.db, NEW.stream)
    {
      this.table := table;
      sequence, sawFirst, closed, numbered := 0, false, false, [];
    }

    ghost function Both(): Pair
      reads this, table
    {
      Pair(table.db, Stream(sequence, sawFirst, closed, numbered))
    }

    /** One announcement; `first` is reported once, for the first event of which the stream learns. */
    method Emit(kind: nat, claimed: bool, heard: bool) returns (first: bool)
      modifies this, table
      ensures Both() == Do(old(Both()), Announce(kind, claimed, heard))
      ensures first <==> !old(sawFirst) && sawFirst
    {
      if closed { return false; }
      var committed := table.AppendEvent(kind, claimed);
      if !(committed && heard) { return false; }
      sequence := sequence + 1;
      numbered := numbered + [Event(sequence, kind)];
      closed := Terminal(kind);
      first := !sawFirst;
      sawFirst := true;
    }
  }

  // --- the reader ------------------------------------------------------------------------------

  function Visible(events: seq<Event>): seq<Event> {
    if events == [] then []
    else (if Hidden(events[0].kind) then [] else [events[0]]) + Visible(events[1..])
  }

  lemma {:induction false} VisibleConcat(a: seq<Event>, b: seq<Event>)
    ensures Visible(a + b) == Visible(a) + Visible(b)
  {
    if a == [] {
      assert a + b == b;
    } else {
      assert (a + b)[1..] == a[1..] + b;
      VisibleConcat(a[1..], b);
    }
  }

  /** The log past position `from`; a cursor past its end sees nothing yet. */
  function Tail(log: seq<Event>, from: nat): seq<Event> {
    if from <= |log| then log[from..] else []
  }

  /** The log between two cursors. */
  function Between(log: seq<Event>, from: nat, to: nat): seq<Event> {
    if from <= to <= |log| then log[from..to] else []
  }

  /** One read: the visible events past the cursor, in order, as many as a read returns. */
  function Events(log: seq<Event>, after: nat): seq<Event> {
    var all := Visible(Tail(log, after));
    if |all| > MAX_EVENTS_PER_READ then all[..MAX_EVENTS_PER_READ] else all
  }

  lemma SliceOfRest(events: seq<Event>, q: nat)
    requires q < |events| - 1
    ensures events[..q + 1] == [events[0]] + events[1..][..q] && events[..q + 1][1..] == events[1..][..q]
    ensures events[q + 2..] == events[1..][q + 1..]
  {
  }

  /** Where the first visible event of the tail stands. */
  lemma {:induction false} FirstVisible(events: seq<Event>) returns (p: nat)
    requires Visible(events) != []
    ensures p < |events| && events[p] == Visible(events)[0]
    ensures Visible(events[..p]) == [] && Visible(events[p + 1..]) == Visible(events)[1..]
  {
    if Hidden(events[0].kind) {
      var q := FirstVisible(events[1..]);
      p := q + 1;
      SliceOfRest(events, q);
    } else {
      p := 0;
    }
  }

  datatype Why = Ended | Disconnected | Unreadable

  /** What surrounds one follower. `lifetime` bounds its polls, as its deadline bounds its time. */
  datatype Surroundings = Surroundings(
    actions: nat -> seq<Action>,     // what writers do before the n-th read
    readFails: nat -> bool,          // by read
    cancelled: nat -> bool,          // by poll
    accepts: nat -> bool,            // by event written to the client
    lifetime: nat)

  ghost predicate Orderly(around: Surroundings) {
    forall n :: AllProper(around.actions(n))
  }

  /** `delivered` is exactly what the log shows between the two cursors, once and in order. */
  predicate Faithful(log: seq<Event>, start: nat, after: nat, delivered: seq<Event>) {
    && start <= after && (after == start || after <= |log|)
    && delivered == Visible(Between(log, start, after))
  }

  /** The ID a client has last received, or the one it started from. */
  function LastId(start: nat, delivered: seq<Event>): nat {
    if delivered == [] then start else delivered[|delivered| - 1].sequence
  }

  lemma {:induction false} FaithfulLater(
      log: seq<Event>, later: seq<Event>, start: nat, after: nat, delivered: seq<Event>)
    requires log <= later && Faithful(log, start, after, delivered)
    ensures Faithful(later, start, after, delivered)
  {
    if after == start {
      assert Between(log, start, after) == [] && Between(later, start, after) == [];
    } else {
      assert Between(later, start, after) == Between(log, start, after);
    }
  }

  /** The next visible event is the only one up to its own sequence. */
  lemma {:induction false} NextVisible(log: seq<Event>, after: nat)
    requires forall i :: 0 <= i < |log| ==> log[i].sequence == i + 1
    requires after <= |log| && Visible(log[after..]) != []
    ensures var event := Visible(log[after..])[0];
            && after < event.sequence <= |log| && log[event.sequence - 1] == event
            && Visible(log[after..event.sequence]) == [event]
            && Visible(log[event.sequence..]) == Visible(log[after..])[1..]
  {
    var tail := log[after..];
    var p := FirstVisible(tail);
    var event := tail[p];
    assert event == log[after + p];
    assert log[event.sequence..] == tail[p + 1..];
    assert log[after..event.sequence] == tail[..p] + [event];
    VisibleConcat(tail[..p], [event]);
    VisibleConcat(log[after..event.sequence], log[event.sequence..]);
    assert !Hidden(event.kind) by { VisibleIsNotHidden(tail); }
  }

  lemma {:induction false} VisibleIsNotHidden(events: seq<Event>)
    ensures forall i :: 0 <= i < |Visible(events)| ==> !Hidden(Visible(events)[i].kind)
  {
    if events != [] { VisibleIsNotHidden(events[1..]); }
  }

  lemma {:induction false} FaithfulExtends(
      log: seq<Event>, start: nat, after: nat, delivered: seq<Event>, to: nat, more: seq<Event>)
    requires Faithful(log, start, after, delivered) && after <= to <= |log| && Visible(log[after..to]) == more
    ensures Faithful(log, start, to, delivered + more)
  {
    assert log[start..to] == Between(log, start, after) + log[after..to];
    VisibleConcat(Between(log, start, after), log[after..to]);
  }

  /** Writing the next visible event moves the cursor exactly past it. */
  lemma {:induction false} DeliverNext(db: Db, start: nat, after: nat, delivered: seq<Event>)
    requires WellFormed(db) && Faithful(db.log, start, after, delivered) && Visible(Tail(db.log, after)) != []
    ensures var event := Visible(Tail(db.log, after))[0];
            && Faithful(db.log, start, event.sequence, delivered + [event])
            && after < event.sequence <= |db.log|
            && (Terminal(event.kind) ==> event.sequence == |db.log| && !db.running)
            && Visible(Tail(db.log, event.sequence)) == Visible(Tail(db.log, after))[1..]
  {
    NextVisible(db.log, after);
    var event := Visible(Tail(db.log, after))[0];
    FaithfulExtends(db.log, start, after, delivered, event.sequence, [event]);
  }

  /** Nothing visible is left past the cursor, and nothing more will come. */
  lemma {:induction false} Complete(db: Db, start: nat, after: nat, delivered: seq<Event>)
    requires Faithful(db.log, start, after, delivered) && Visible(Tail(db.log, after)) == []
    ensures delivered == Visible(Tail(db.log, start))
  {
    if after <= |db.log| {
      assert Tail(db.log, start) == Between(db.log, start, after) + Tail(db.log, after);
      VisibleConcat(Between(db.log, start, after), Tail(db.log, after));
    }
  }

  lemma SliceStep(all: seq<Event>, events: seq<Event>, sent: seq<Event>, i: nat)
    requires events <= all && i < |events|
    ensures all[i..] != [] && all[i..][0] == events[i] && all[i..][1..] == all[i + 1..]
    ensures sent + events[..i] + [events[i]] == sent + events[..i + 1]
  {
  }

  /** The client took events `n` up to `m`, counted from its start. */
  predicate Took(accepts: nat -> bool, n: nat, m: nat) {
    forall i :: n <= i < m ==> accepts(i)
  }

  /** How many of the next `n` events, from the `first` on, the client takes before it refuses one. */
  function Taken(accepts: nat -> bool, first: nat, n: nat): (k: nat)
    ensures k <= n
    decreases n
  {
    if n == 0 || !accepts(first) then 0 else 1 + Taken(accepts, first + 1, n - 1)
  }

  lemma {:induction false} TakenIsTook(accepts: nat -> bool, first: nat, n: nat)
    ensures Took(accepts, first, first + Taken(accepts, first, n))
    ensures Taken(accepts, first, n) < n ==> !accepts(first + Taken(accepts, first, n))
    ensures Taken(accepts, first, n) == n <==> Took(accepts, first, first + n)
    decreases n
  {
    if n > 0 && accepts(first) { TakenIsTook(accepts, first + 1, n - 1); }
  }

  /** `i` events of the read that started at `from` have been written. */
  ghost predicate Written(
      db: Db, start: nat, from: nat, sent: seq<Event>, i: nat, after: nat, delivered: seq<Event>)
  {
    && i <= |Events(db.log, from)|
    && Faithful(db.log, start, after, delivered)
    && Visible(Tail(db.log, after)) == Visible(Tail(db.log, from))[i..]
    && delivered == sent + Events(db.log, from)[..i]
    && after == LastId(start, delivered)
  }

  lemma {:induction false} WriteNone(db: Db, start: nat, from: nat, sent: seq<Event>)
    requires Faithful(db.log, start, from, sent) && from == LastId(start, sent)
    ensures Written(db, start, from, sent, 0, from, sent)
  {
    assert Events(db.log, from)[..0] == [];
  }

  lemma {:induction false} WriteOne(
      db: Db, start: nat, from: nat, sent: seq<Event>, i: nat, after: nat, delivered: seq<Event>)
    requires WellFormed(db) && i < |Events(db.log, from)| && Written(db, start, from, sent, i, after, delivered)
    ensures var event := Events(db.log, from)[i];
            && Written(db, start, from, sent, i + 1, event.sequence, delivered + [event])
            && (Terminal(event.kind) ==>
                  && !db.running && Visible(Tail(db.log, event.sequence)) == [] && i + 1 == |Events(db.log, from)|)
  {
    SliceStep(Visible(Tail(db.log, from)), Events(db.log, from), sent, i);
    DeliverNext(db, start, after, delivered);
  }

  /** Writes one read's events to the client: those it takes before refusing one, up to a terminal one. */
  method WriteEvents(db: Db, start: nat, from: nat, sent: seq<Event>, around: Surroundings)
    returns (after: nat, delivered: seq<Event>, stop: bool, why: Why)
    requires WellFormed(db) && Faithful(db.log, start, from, sent) && from == LastId(start, sent)
    ensures Faithful(db.log, start, after, delivered) && after == LastId(start, delivered)
    ensures delivered == sent + Events(db.log, from)[..Taken(around.accepts, |sent|, |Events(db.log, from)|)]
    ensures stop && why == Ended ==> !db.running && Visible(Tail(db.log, after)) == []
    ensures !stop ==> Visible(Tail(db.log, after)) == Visible(Tail(db.log, from))[|Events(db.log, from)|..]
    ensures stop && why == Disconnected
            <==> Taken(around.accepts, |sent|, |Events(db.log, from)|) < |Events(db.log, from)|
    ensures stop ==> why == Ended || why == Disconnected
  {
    ghost var i;
    after, delivered, stop, why, i := WriteRows(Events(db.log, from), start, sent, around.accepts);
    WrittenPrefix(db, start, from, sent, i);
  }

  /** Writes row after row until the client refuses one or the terminal one is written. */
  method WriteRows(events: seq<Event>, start: nat, sent: seq<Event>, accepts: nat -> bool)
    returns (after: nat, delivered: seq<Event>, stop: bool, why: Why, ghost i: nat)
    ensures i <= |events| && delivered == sent + events[..i] && after == LastId(start, delivered)
    ensures if !stop then i == |events| == Taken(accepts, |sent|, |events|)
            else if why == Ended then 0 < i <= Taken(accepts, |sent|, |events|) && Terminal(events[i - 1].kind)
            else why == Disconnected && i == Taken(accepts, |sent|, |events|) < |events|
  {
    after, delivered, stop, why, i := LastId(start, sent), sent, false, Disconnected, 0;
    for n := 0 to |events|
      invariant delivered == sent + events[..n] && after == LastId(start, delivered)
      invariant n + Taken(accepts, |sent| + n, |events| - n) == Taken(accepts, |sent|, |events|)
    {
      i := n;
      if !accepts(|delivered|) { return after, delivered, true, Disconnected, n; }
      AppendRow(sent, events, n);
      delivered := delivered + [events[n]];
      after := events[n].sequence;
      i := n + 1;
      if Terminal(events[n].kind) { return after, delivered, true, Ended, n + 1; }
    }
    i := |events|;
  }

  lemma AppendRow(sent: seq<Event>, events: seq<Event>, n: nat)
    requires n < |events|
    ensures sent + events[..n] + [events[n]] == sent + events[..n + 1]
  {
  }

  /** After any number of events of a read, the cursor stands past them; a terminal one was the last. */
  lemma {:induction false} WrittenPrefix(db: Db, start: nat, from: nat, sent: seq<Event>, i: nat)
    requires WellFormed(db) && Faithful(db.log, start, from, sent) && from == LastId(start, sent)
    requires i <= |Events(db.log, from)|
    ensures var delivered := sent + Events(db.log, from)[..i];
            && Written(db, start, from, sent, i, LastId(start, delivered), delivered)
            && (i > 0 && Terminal(Events(db.log, from)[i - 1].kind) ==>
                  && !db.running && Visible(Tail(db.log, LastId(start, delivered))) == []
                  && i == |Events(db.log, from)|)
  {
    if i == 0 {
      WriteNone(db, start, from, sent);
      assert sent + Events(db.log, from)[..0] == sent;
    } else {
      WrittenPrefix(db, start, from, sent, i - 1);
      var before := sent + Events(db.log, from)[..i - 1];
      WriteOne(db, start, from, sent, i - 1, LastId(start, before), before);
      AppendRow(sent, Events(db.log, from), i - 1);
    }
  }

  /** The database after the writers' actions before the first `readCount` reads. */
  function DbAt(initial: Db, around: Surroundings, readCount: nat): Db {
    if readCount == 0 then initial
    else ApplyAll(DbAt(initial, around, readCount - 1), around.actions(readCount - 1))
  }

  lemma {:induction false} EndedStays(initial: Db, around: Surroundings, n: nat, m: nat)
    requires WellFormed(initial) && Orderly(around) && n <= m
    ensures WellFormed(DbAt(initial, around, m))
    ensures !DbAt(initial, around, n).running ==> DbAt(initial, around, m) == DbAt(initial, around, n)
    decreases m
  {
    if m > 0 {
      EndedStays(initial, around, if n < m then n else m - 1, m - 1);
      RunKeeps(DbAt(initial, around, m - 1), around.actions(m - 1));
    }
  }

  /** Lets the writers act before the next read: the log only grows, and an ended one stays as it is. */
  method Advance(db: Db, actions: seq<Action>, ghost start: nat, ghost after: nat, ghost delivered: seq<Event>)
    returns (now: Db)
    requires WellFormed(db) && AllProper(actions) && Faithful(db.log, start, after, delivered)
    ensures now == ApplyAll(db, actions)
    ensures WellFormed(now) && db.log <= now.log && Faithful(now.log, start, after, delivered)
    ensures !db.running ==> now == db
  {
    RunKeeps(db, actions);
    now := ApplyAll(db, actions);
    FaithfulLater(db.log, now.log, start, after, delivered);
  }

  /** The follower: its cursor, what it has written, and the status it last read. */
  datatype Follower = Follower(after: nat, delivered: seq<Event>, running: bool, readCount: nat)

  /** What holds between reads: faithful so far, at the last ID written, all of it taken, and an ending seen is real. */
  predicate Tracks(f: Follower, db: Db, start: nat, around: Surroundings) {
    && WellFormed(db) && Faithful(db.log, start, f.after, f.delivered) && f.after == LastId(start, f.delivered)
    && (!f.running ==> !db.running) && Took(around.accepts, 0, |f.delivered|)
  }

  /** How many more polls an ended Investigation can take up. */
  function Rank(f: Follower, db: Db): nat {
    |Visible(Tail(db.log, f.after))| + (if f.running then 1 else 0)
  }

  /** One read, after whatever the writers did before it. */
  method Read(
      db: Db, f: Follower, start: nat, around: Surroundings, ghost initial: Db)
    returns (now: Db, next: Follower)
    requires Tracks(f, db, start, around) && Orderly(around) && db == DbAt(initial, around, f.readCount)
    ensures next == f.(readCount := f.readCount + 1)
    ensures Tracks(next, now, start, around) && db.log <= now.log && now == DbAt(initial, around, next.readCount)
    ensures !db.running ==> now == db
  {
    now := Advance(db, around.actions(f.readCount), start, f.after, f.delivered);
    next := f.(readCount := f.readCount + 1);
  }

  /** A read that found events: they are written, and fewer are left. */
  method PollEvents(db: Db, f: Follower, start: nat, around: Surroundings)
    returns (next: Follower, stop: bool, why: Why)
    requires Tracks(f, db, start, around) && Events(db.log, f.after) != []
    ensures Tracks(next, db, start, around) && next.readCount == f.readCount
    ensures stop && why == Ended ==> !db.running && Visible(Tail(db.log, next.after)) == []
    ensures !stop ==> next.delivered == f.delivered + Events(db.log, f.after) && Rank(next, db) < Rank(f, db)
    ensures stop ==> f.delivered <= next.delivered
                     && (why == Ended || (why == Disconnected && !around.accepts(|next.delivered|)))
  {
    var after, delivered;
    after, delivered, stop, why := WriteEvents(db, start, f.after, f.delivered, around);
    TakesMore(around.accepts, f.delivered, Events(db.log, f.after));
    next := f.(after := after, delivered := delivered);
  }

  /** What was delivered so far was taken, and so is what the client takes now. */
  lemma {:induction false} TakesMore(accepts: nat -> bool, sent: seq<Event>, events: seq<Event>)
    requires Took(accepts, 0, |sent|)
    ensures var taken := Taken(accepts, |sent|, |events|);
            && Took(accepts, 0, |sent + events[..taken]|)
            && (taken < |events| ==> !accepts(|sent + events[..taken]|))
            && (taken == |events| ==> events[..taken] == events)
  {
    TakenIsTook(accepts, |sent|, |events|);
  }

  /** A read that found none: the end if the status was already read as ended, otherwise the status is read. */
  method PollStatus(db: Db, f: Follower, start: nat, around: Surroundings, ghost initial: Db)
    returns (now: Db, next: Follower, stop: bool, why: Why)
    requires Tracks(f, db, start, around) && Orderly(around) && Events(db.log, f.after) == []
    requires db == DbAt(initial, around, f.readCount)
    ensures Tracks(next, now, start, around) && db.log <= now.log && now == DbAt(initial, around, next.readCount)
    ensures next.delivered == f.delivered && (why == Ended || why == Unreadable || !stop)
    ensures stop && why == Ended ==> !now.running && Visible(Tail(now.log, next.after)) == []
    ensures stop && why == Unreadable ==> next == f && around.readFails(f.readCount)
    ensures !stop ==> f.running && next.readCount == f.readCount + 1
    ensures !stop && !db.running ==> now == db && Rank(next, now) < Rank(f, db)
  {
    now, next, stop, why := db, f, true, Unreadable;
    if !f.running { return db, f, true, Ended; }
    if around.readFails(f.readCount) { return; }
    now, next := Read(db, f, start, around, initial);
    next := next.(running := now.running);
    stop := false;
  }

  /** One pass of the loop: read events and write them, or learn whether the Investigation has ended. */
  method Poll(db: Db, f: Follower, start: nat, around: Surroundings, ghost initial: Db)
    returns (now: Db, next: Follower, stop: bool, why: Why)
    requires Tracks(f, db, start, around) && Orderly(around) && db == DbAt(initial, around, f.readCount)
    ensures Tracks(next, now, start, around) && db.log <= now.log && now == DbAt(initial, around, next.readCount)
    ensures stop && why == Ended ==> !now.running && Visible(Tail(now.log, next.after)) == []
    ensures !stop ==> next.readCount > f.readCount
    ensures !stop ==> next.delivered == f.delivered + Events(now.log, f.after)
                      || (f.running && next.delivered == f.delivered && next.readCount == f.readCount + 2)
    ensures !stop && !db.running ==> now == db && Rank(next, now) < Rank(f, db)
    ensures stop ==> f.delivered <= next.delivered
                     && (why == Disconnected ==> !around.accepts(|next.delivered|))
                     && (why == Unreadable ==> around.readFails(next.readCount))
  {
    now, next, stop, why := db, f, true, Unreadable;
    if around.readFails(f.readCount) { return; }
    now, next := Read(db, f, start, around, initial);
    if Events(now.log, f.after) == [] {
      now, next, stop, why := PollStatus(now, next, start, around, initial);
    } else {
      next, stop, why := PollEvents(now, next, start, around);
    }
  }

  /** Nobody cancels and no read fails. */
  ghost predicate Undisturbed(around: Surroundings) {
    forall n :: !around.cancelled(n) && !around.readFails(n)
  }

  /** How an undisturbed follower stops: at the end, or at the first event its client does not take. */
  predicate Stopped(why: Why, delivered: seq<Event>, around: Surroundings) {
    why == Ended || (why == Disconnected && !around.accepts(|delivered|))
  }

  /** Before read `ending` the Investigation had ended, and enough polls were left to write its log. */
  predicate EndsInTime(initial: Db, around: Surroundings, ending: nat) {
    var ended := DbAt(initial, around, ending);
    !ended.running && ending + |ended.log| + 2 <= around.lifetime
  }

  lemma {:induction false} VisibleIsShorter(events: seq<Event>)
    ensures |Visible(events)| <= |events|
  {
    if events != [] { VisibleIsShorter(events[1..]); }
  }

  /** Between polls, once the Investigation has ended, the polls left cover what there is to write. */
  ghost predicate OnTime(initial: Db, around: Surroundings, ending: nat, f: Follower, db: Db, polls: nat) {
    polls >= ending && Undisturbed(around) && EndsInTime(initial, around, ending) ==>
      !db.running && Rank(f, db) + polls + 1 <= around.lifetime
  }

  lemma {:induction false} BecomesOnTime(initial: Db, around: Surroundings, ending: nat, f: Follower, polls: nat)
    requires WellFormed(initial) && Orderly(around) && f.readCount >= ending && polls <= ending
    ensures OnTime(initial, around, ending, f, DbAt(initial, around, f.readCount), polls)
  {
    EndedStays(initial, around, ending, f.readCount);
    VisibleIsShorter(Tail(DbAt(initial, around, f.readCount).log, f.after));
  }

  /**
   Follows the log from `start`. Whatever the writers do meanwhile, what was delivered is exactly the visible
   log up to the last delivered event, whose ID is where a client would resume; a follower that stops because the
   Investigation ended has delivered the whole visible log past its start; all that was delivered was taken by the
   client; and, left undisturbed, it does stop once the Investigation has ended, before whichever read that was: at
   the end, or at the first event the client does not take.
   */
  method Follow(initial: Db, start: nat, around: Surroundings, ghost ending: nat)
    returns (delivered: seq<Event>, after: nat, why: Why, db: Db, ghost readCount: nat)
    requires WellFormed(initial) && Orderly(around)
    ensures WellFormed(db) && initial.log <= db.log && db == DbAt(initial, around, readCount)
    ensures Faithful(db.log, start, after, delivered) && after == LastId(start, delivered)
    ensures why == Ended ==> !db.running && delivered == Visible(Tail(db.log, start))
    ensures Took(around.accepts, 0, |delivered|)
    ensures Undisturbed(around) && EndsInTime(initial, around, ending) ==> Stopped(why, delivered, around)
  {
    assert Between(initial.log, start, start) == [];
    db := Advance(initial, around.actions(0), start, start, []);
    var f := Follower(start, [], db.running, 1);
    assert DbAt(initial, around, 0) == initial;
    var polls, stop := 0, false;
    why := Disconnected;
    if ending == 0 { BecomesOnTime(initial, around, ending, f, 0); }
    while polls < around.lifetime && !around.cancelled(polls) && !stop
      invariant Tracks(f, db, start, around) && initial.log <= db.log && db == DbAt(initial, around, f.readCount)
      invariant why == Ended ==> stop
      invariant stop && why == Ended ==> !db.running && Visible(Tail(db.log, f.after)) == []
      invariant stop && Undisturbed(around) ==> Stopped(why, f.delivered, around)
      invariant !stop ==> f.readCount > polls && OnTime(initial, around, ending, f, db, polls)
      decreases around.lifetime - polls
    {
      db, f, stop, why := Poll(db, f, start, around, initial);
      polls := polls + 1;
      if !stop {
        why := Disconnected;
        if polls == ending { BecomesOnTime(initial, around, ending, f, polls); }
      }
    }
    delivered, after, readCount := f.delivered, f.after, f.readCount;
    if why == Ended { Complete(db, start, after, delivered); }
  }

  /** A client that refuses event `n` gets no more than the `n` before it, and is left there if there are as many. */
  lemma {:induction false} RefusalCutsShort(
      db: Db, start: nat, delivered: seq<Event>, why: Why, around: Surroundings, n: nat)
    requires Took(around.accepts, 0, |delivered|) && !around.accepts(n)
    requires why == Ended ==> delivered == Visible(Tail(db.log, start))
    ensures |delivered| <= n
    ensures Stopped(why, delivered, around) && |Visible(Tail(db.log, start))| > n ==>
              why == Disconnected && !around.accepts(|delivered|)
  {
  }

  /** Resuming from the last ID received leaves no gap and repeats nothing (Last-Event-ID). */
  lemma {:induction false} ResumeLeavesNoGap(db: Db, later: Db, start: nat, first: seq<Event>, second: seq<Event>)
    requires db.log <= later.log
    requires Faithful(db.log, start, LastId(start, first), first)
    requires var resumed := LastId(start, first);
             Faithful(later.log, resumed, LastId(resumed, second), second)
    ensures Faithful(later.log, start, LastId(start, first + second), first + second)
  {
    var after := LastId(start, first);
    var last := LastId(after, second);
    assert last == LastId(start, first + second);
    FaithfulLater(db.log, later.log, start, after, first);
    if last != after && after != start {
      assert Between(later.log, start, last) == Between(later.log, start, after) + Between(later.log, after, last);
      VisibleConcat(Between(later.log, start, after), Between(later.log, after, last));
    } else if last == after {
      assert Between(later.log, after, last) == [];
    } else {
      assert Between(later.log, start, after) == [];
    }
  }

  // --- the follower against the run that writes --------------------------------------------------

  /** All the work done before the first `n` reads. */
  function WorkBefore(writing: nat -> seq<Work>, n: nat): seq<Work> {
    if n == 0 then [] else WorkBefore(writing, n - 1) + writing(n - 1)
  }

  ghost predicate AlwaysFitting(writing: nat -> seq<Work>) {
    forall n :: AllFitting(writing(n))
  }

  lemma {:induction false} WorkBeforeIsStored(writing: nat -> seq<Work>, around: Surroundings, n: nat)
    requires AlwaysFitting(writing) && forall m :: around.actions(m) == ActionsOf(writing(m))
    ensures AllFitting(WorkBefore(writing, n)) && !DoAll(NEW, WorkBefore(writing, n)).stream.closed
    ensures DoAll(NEW, WorkBefore(writing, n)).db == DbAt(NEW.db, around, n)
  {
    if n > 0 {
      WorkBeforeIsStored(writing, around, n - 1);
      DoAllConcat(NEW, WorkBefore(writing, n - 1), writing(n - 1));
      WorkIsActions(DoAll(NEW, WorkBefore(writing, n - 1)), writing(n - 1));
    }
  }

  /**
   A follower of a run, whatever the run announces and however it ends, in every interleaving with its reads. With
   no acknowledgement lost, a follower that stops because the Investigation ended has received, past its start,
   just the visible ones of the events as the run's own stream numbered them, and the terminal event.
   */
  method FollowRun(writing: nat -> seq<Work>, start: nat, disturbances: Surroundings, ghost ending: nat)
    returns (delivered: seq<Event>, after: nat, why: Why, ghost pair: Pair, ghost works: seq<Work>)
    requires AlwaysFitting(writing)
    ensures pair == DoAll(NEW, works) && WellFormed(pair.db)
    ensures Faithful(pair.db.log, start, after, delivered) && after == LastId(start, delivered)
    ensures why == Ended ==> !pair.db.running && delivered == Visible(Tail(pair.db.log, start))
    ensures why == Ended && Lost(NEW, works) == 0 ==>
              && pair.db.log != [] && Terminal(pair.db.log[|pair.db.log| - 1].kind)
              && delivered == Visible(Tail(pair.stream.numbered + [pair.db.log[|pair.db.log| - 1]], start))
    ensures var around := disturbances.(actions := (n: nat) => ActionsOf(writing(n)));
            Undisturbed(around) && EndsInTime(NEW.db, around, ending) ==> Stopped(why, delivered, around)
    ensures Took(disturbances.accepts, 0, |delivered|)
  {
    var around := disturbances.(actions := (n: nat) => ActionsOf(writing(n)));
    forall n ensures AllProper(around.actions(n)) {
      WorkIsActions(NEW, writing(n));
    }
    var db;
    ghost var readCount;
    delivered, after, why, db, readCount := Follow(NEW.db, start, around, ending);
    works := WorkBefore(writing, readCount);
    pair := DoAll(NEW, works);
    WorkBeforeIsStored(writing, around, readCount);
    if why == Ended && Lost(NEW, works) == 0 { EndedLog(works); }
  }

  /** With no acknowledgement lost, an ended log is what the stream numbered and the terminal event. */
  lemma {:induction false} EndedLog(works: seq<Work>)
    requires AllFitting(works) && !DoAll(NEW, works).db.running && Lost(NEW, works) == 0
    ensures var pair := DoAll(NEW, works);
            && pair.db.log != [] && Terminal(pair.db.log[|pair.db.log| - 1].kind)
            && pair.db.log == pair.stream.numbered + [pair.db.log[|pair.db.log| - 1]]
  {
    WorkAccounts(works);
    var pair := DoAll(NEW, works);
    assert pair.db.log == Announced(pair.db) + [pair.db.log[|pair.db.log| - 1]];
  }
}
