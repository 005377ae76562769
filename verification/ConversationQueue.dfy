/**
 Messages, turns and the queue between them (internal/store/postgres/conversation.go).

 The tables of one organization. Each transaction is one step; one that fails leaves them as they were.
 */
module ConversationQueue {
  import opened Text

  const MAX_QUEUED: nat := 100

  type Id = nat

  datatype Role = User | Assistant

  /** Nanoseconds since the zero time. */
  datatype Window = Window(from: int, until: int) {
    function Normalized(): Window {
      Window(from / 1000 * 1000, until / 1000 * 1000)
    }

    predicate Valid(now: int) {
      0 <= from < until <= now
    }
  }

  datatype Message = Message(conversation: Id, sequence: nat, role: Role, window: Window, owner: Option<Id>) {
    predicate Queued() {
      role == User && owner.None?
    }
  }

  datatype Investigation = Investigation(id: Id, conversation: Id, turn: nat, window: Window, running: bool)

  datatype Tables = Tables(conversations: set<Id>, messages: seq<Message>, investigations: seq<Investigation>)

  datatype Error = UnknownConversation | QueueFull | InvalidWindow | WindowConflict | IdentityTaken

  datatype Outcome<+T> = Done(value: T) | Refused(error: Error)

  // --- what the queries select -----------------------------------------------------------------

  /** The queued Messages of a Conversation, oldest first. */
  function QueuedRows(messages: seq<Message>, c: Id): seq<Message> {
    if messages == [] then []
    else
      var n := |messages| - 1;
      if messages[n].conversation == c && messages[n].Queued() then QueuedRows(messages[..n], c) + [messages[n]]
      else QueuedRows(messages[..n], c)
  }

  /** The queued Messages of the whole organization, counted. */
  function CountQueued(messages: seq<Message>): nat {
    if messages == [] then 0
    else CountQueued(messages[..|messages| - 1]) + (if messages[|messages| - 1].Queued() then 1 else 0)
  }

  /** The user Messages assigned to an Investigation, counted. */
  function CountAssigned(messages: seq<Message>, id: Id): nat {
    if messages == [] then 0
    else
      var n := |messages| - 1;
      CountAssigned(messages[..n], id)
      + (if messages[n].role == User && messages[n].owner == Some(id) then 1 else 0)
  }

  function MaxSequence(messages: seq<Message>, c: Id): (top: nat)
    ensures forall i :: 0 <= i < |messages| && messages[i].conversation == c ==> messages[i].sequence <= top
  {
    if messages == [] then 0
    else
      var n := |messages| - 1;
      var top := MaxSequence(messages[..n], c);
      if messages[n].conversation == c && messages[n].sequence > top then messages[n].sequence else top
  }

  function MaxTurn(investigations: seq<Investigation>, c: Id): (top: nat)
    ensures forall i :: 0 <= i < |investigations| && investigations[i].conversation == c ==>
                          investigations[i].turn <= top
  {
    if investigations == [] then 0
    else
      var n := |investigations| - 1;
      var top := MaxTurn(investigations[..n], c);
      if investigations[n].conversation == c && investigations[n].turn > top then investigations[n].turn else top
  }

  predicate IsRunning(t: Tables, c: Id) {
    exists i :: 0 <= i < |t.investigations| && t.investigations[i].conversation == c && t.investigations[i].running
  }

  predicate HasId(t: Tables, id: Id) {
    exists i :: 0 <= i < |t.investigations| && t.investigations[i].id == id
  }

  // --- the transactions, as functions of the tables --------------------------------------------

  /** A batch has one window: its first Message sets it, later ones may only repeat it. */
  function AcceptedWindow(t: Tables, c: Id, requested: Option<Window>, fallback: Window, now: int): Outcome<Window> {
    var asked := if requested.Some? then Some(requested.value.Normalized()) else None;
    var queued := QueuedRows(t.messages, c);
    if asked.Some? && !asked.value.Valid(now) then Refused(InvalidWindow)
    else if queued != [] then
      if asked.Some? && asked.value != queued[0].window then Refused(WindowConflict) else Done(queued[0].window)
    else if asked.Some? then Done(asked.value)
    else if !fallback.Normalized().Valid(now) then Refused(InvalidWindow)
    else Done(fallback.Normalized())
  }

  function Appended(
      t: Tables, c: Id, role: Role, requested: Option<Window>, fallback: Window, now: int): Outcome<Tables> {
    if role == User && CountQueued(t.messages) >= MAX_QUEUED then Refused(QueueFull)
    else if c !in t.conversations then Refused(UnknownConversation)
    else
      match AcceptedWindow(t, c, requested, fallback, now)
      case Refused(error) => Refused(error)
      case Done(window) =>
        Done(t.(messages := t.messages + [Message(c, MaxSequence(t.messages, c) + 1, role, window, None)]))
  }

  /** The last sequence of the batch a turn takes, 0 when nothing is queued. */
  function BatchEnd(messages: seq<Message>, c: Id): nat {
    var rows := QueuedRows(messages, c);
    var limited := if |rows| > MAX_QUEUED then rows[..MAX_QUEUED] else rows;
    if limited == [] then 0 else limited[|limited| - 1].sequence
  }

  predicate Takes(m: Message, c: Id, last: nat) {
    m.conversation == c && m.Queued() && m.sequence <= last
  }

  function Attach(messages: seq<Message>, c: Id, last: nat, id: Id): (attached: seq<Message>)
    ensures |attached| == |messages|
    ensures forall i :: 0 <= i < |messages| ==>
              attached[i] == if Takes(messages[i], c, last) then messages[i].(owner := Some(id)) else messages[i]
  {
    if messages == [] then []
    else
      var n := |messages| - 1;
      var m := messages[n];
      Attach(messages[..n], c, last, id) + [if Takes(m, c, last) then m.(owner := Some(id)) else m]
  }

  /** Opens the next turn of an idle Conversation with something queued; otherwise changes nothing. */
  function TurnOpened(t: Tables, c: Id, id: Id): Outcome<Tables> {
    if c !in t.conversations then Refused(UnknownConversation)
    else if IsRunning(t, c) then Done(t)
    else
      var last := BatchEnd(t.messages, c);
      var queued := QueuedRows(t.messages, c);
      if last == 0 || queued == [] then Done(t)
      else if HasId(t, id) then Refused(IdentityTaken)
      else Done(WithTurn(t, c, id, last, queued[0].window))
  }

  /** The tables with a new running turn and the batch up to `last` attached to it. */
  function WithTurn(t: Tables, c: Id, id: Id, last: nat, window: Window): Tables {
    var begun := Investigation(id, c, MaxTurn(t.investigations, c) + 1, window, true);
    t.(investigations := t.investigations + [begun], messages := Attach(t.messages, c, last, id))
  }

  /** Ends a running Investigation, adding its reply to the Conversation when it has one. */
  function TurnEnded(t: Tables, k: nat, reply: bool): Tables {
    if k >= |t.investigations| || !t.investigations[k].running then t
    else
      var ended := t.investigations[k];
      var answered :=
        if reply then
          t.messages + [Message(ended.conversation, MaxSequence(t.messages, ended.conversation) + 1, Assistant,
                                ended.window, Some(ended.id))]
        else t.messages;
      t.(investigations := t.investigations[k := ended.(running := false)], messages := answered)
  }

  // --- what every step keeps -------------------------------------------------------------------

  predicate Ordered(messages: seq<Message>) {
    && (forall i :: 0 <= i < |messages| ==> messages[i].sequence >= 1)
    && (forall i, j :: 0 <= i < j < |messages| && messages[i].conversation == messages[j].conversation ==>
          messages[i].sequence < messages[j].sequence)
  }

  /** All queued Messages of a Conversation share one window. */
  predicate OneWindow(messages: seq<Message>) {
    forall i, j ::
      (&& 0 <= i < j < |messages| && messages[i].conversation == messages[j].conversation
       && messages[i].Queued() && messages[j].Queued())
      ==> messages[i].window == messages[j].window
  }

  /** Every assigned user Message precedes every queued one of its Conversation. */
  predicate AssignedFirst(messages: seq<Message>) {
    forall i, j ::
      (&& 0 <= i < |messages| && 0 <= j < |messages| && messages[i].conversation == messages[j].conversation
       && messages[i].role == User && messages[i].owner.Some? && messages[j].Queued())
      ==> messages[i].sequence < messages[j].sequence
  }

  predicate OneRunning(investigations: seq<Investigation>) {
    forall i, j :: 0 <= i < j < |investigations| && investigations[i].conversation == investigations[j].conversation ==>
                     !(investigations[i].running && investigations[j].running)
  }

  predicate DistinctIds(investigations: seq<Investigation>) {
    forall i, j :: 0 <= i < j < |investigations| ==> investigations[i].id != investigations[j].id
  }

  predicate Owned(m: Message, investigations: seq<Investigation>) {
    exists k :: 0 <= k < |investigations| && m.owner == Some(investigations[k].id)
                && investigations[k].conversation == m.conversation && investigations[k].window == m.window
  }

  /** An assigned Message belongs to an Investigation of its Conversation, with the same window. */
  predicate AllOwned(t: Tables) {
    forall i :: 0 <= i < |t.messages| && t.messages[i].owner.Some? ==> Owned(t.messages[i], t.investigations)
  }

  /** Every Investigation has a batch of 1 to 100 user Messages. */
  predicate AllBatched(t: Tables) {
    forall k :: 0 <= k < |t.investigations| ==> 1 <= CountAssigned(t.messages, t.investigations[k].id) <= MAX_QUEUED
  }

  predicate Inv(t: Tables) {
    && Ordered(t.messages) && OneWindow(t.messages) && AssignedFirst(t.messages)
    && CountQueued(t.messages) <= MAX_QUEUED
    && OneRunning(t.investigations) && DistinctIds(t.investigations) && AllOwned(t) && AllBatched(t)
  }

  // --- facts about the selections --------------------------------------------------------------

  lemma {:induction false} QueuedRowsAreQueued(messages: seq<Message>, c: Id)
    ensures forall m :: m in QueuedRows(messages, c) <==> m in messages && m.conversation == c && m.Queued()
    ensures |QueuedRows(messages, c)| <= CountQueued(messages)
  {
    if messages != [] {
      var n := |messages| - 1;
      QueuedRowsAreQueued(messages[..n], c);
      assert messages == messages[..n] + [messages[n]];
    }
  }

  lemma {:induction false} NothingQueued(messages: seq<Message>, c: Id)
    requires forall i :: 0 <= i < |messages| ==> !(messages[i].conversation == c && messages[i].Queued())
    ensures QueuedRows(messages, c) == []
  {
    if messages != [] {
      NothingQueued(messages[..|messages| - 1], c);
    }
  }

  lemma {:induction false} QueuedRowsAreSorted(messages: seq<Message>, c: Id)
    requires Ordered(messages)
    ensures var rows := QueuedRows(messages, c);
            forall i, j :: 0 <= i < j < |rows| ==> rows[i].sequence < rows[j].sequence
  {
    if messages != [] {
      var n := |messages| - 1;
      QueuedRowsAreSorted(messages[..n], c);
      QueuedRowsAreQueued(messages[..n], c);
    }
  }

  /** Below the capacity, a turn's batch is the whole queue of its Conversation. */
  lemma {:induction false} BatchIsWholeQueue(messages: seq<Message>, c: Id)
    requires Ordered(messages) && CountQueued(messages) <= MAX_QUEUED
    ensures BatchEnd(messages, c) == 0 <==> QueuedRows(messages, c) == []
    ensures forall i :: 0 <= i < |messages| && messages[i].conversation == c && messages[i].Queued() ==>
                          Takes(messages[i], c, BatchEnd(messages, c))
  {
    QueuedRowsAreQueued(messages, c);
    QueuedRowsAreSorted(messages, c);
    var rows := QueuedRows(messages, c);
    if rows != [] {
      assert rows[|rows| - 1] in messages;
      forall i | 0 <= i < |messages| && messages[i].conversation == c && messages[i].Queued()
        ensures Takes(messages[i], c, BatchEnd(messages, c))
      {
        assert messages[i] in rows;
      }
    }
  }

  /** The first queued row, whose window the turn takes, has the window of all queued. */
  lemma {:induction false} FirstWindow(messages: seq<Message>, c: Id)
    requires OneWindow(messages) && QueuedRows(messages, c) != []
    ensures forall i :: 0 <= i < |messages| && messages[i].conversation == c && messages[i].Queued() ==>
                          messages[i].window == QueuedRows(messages, c)[0].window
  {
    QueuedRowsAreQueued(messages, c);
    var first := QueuedRows(messages, c)[0];
    assert first in QueuedRows(messages, c);
    var k :| 0 <= k < |messages| && messages[k] == first;
  }

  lemma {:induction false} AttachPrefix(messages: seq<Message>, c: Id, last: nat, id: Id)
    requires messages != []
    ensures var n := |messages| - 1;
            Attach(messages, c, last, id)[..n] == Attach(messages[..n], c, last, id)
  {
  }

  lemma {:induction false} AttachAssigns(messages: seq<Message>, c: Id, last: nat, id: Id)
    requires forall i :: 0 <= i < |messages| ==> messages[i].owner != Some(id)
    requires forall i :: 0 <= i < |messages| && messages[i].conversation == c && messages[i].Queued() ==>
                           messages[i].sequence <= last
    ensures CountAssigned(Attach(messages, c, last, id), id) == |QueuedRows(messages, c)|
  {
    if messages != [] {
      AttachPrefix(messages, c, last, id);
      AttachAssigns(messages[..|messages| - 1], c, last, id);
    }
  }

  lemma {:induction false} AttachQueuesNone(messages: seq<Message>, c: Id, last: nat, id: Id)
    ensures CountQueued(Attach(messages, c, last, id)) <= CountQueued(messages)
  {
    if messages != [] {
      AttachPrefix(messages, c, last, id);
      AttachQueuesNone(messages[..|messages| - 1], c, last, id);
    }
  }

  lemma {:induction false} AttachLeaves(messages: seq<Message>, c: Id, last: nat, id: Id, other: Id)
    requires other != id
    ensures CountAssigned(Attach(messages, c, last, id), other) == CountAssigned(messages, other)
  {
    if messages != [] {
      AttachPrefix(messages, c, last, id);
      AttachLeaves(messages[..|messages| - 1], c, last, id, other);
    }
  }

  lemma {:induction false} CountsOfAppend(messages: seq<Message>, m: Message)
    ensures CountQueued(messages + [m]) == CountQueued(messages) + (if m.Queued() then 1 else 0)
    ensures forall id: Id :: CountAssigned(messages + [m], id)
                         == CountAssigned(messages, id) + (if m.role == User && m.owner == Some(id) then 1 else 0)
  {
    assert (messages + [m])[..|messages|] == messages;
  }

  // --- each step keeps them --------------------------------------------------------------------

  lemma {:induction false} OwnedByMore(m: Message, investigations: seq<Investigation>, more: seq<Investigation>)
    requires Owned(m, investigations) && |investigations| <= |more|
    requires forall k :: 0 <= k < |investigations| ==>
               more[k].id == investigations[k].id && more[k].conversation == investigations[k].conversation
               && more[k].window == investigations[k].window
    ensures Owned(m, more)
  {
    var k :| 0 <= k < |investigations| && m.owner == Some(investigations[k].id)
             && investigations[k].conversation == m.conversation && investigations[k].window == m.window;
    assert more[k].id == investigations[k].id;
  }

  /** An accepted window is the one already queued, if any is. */
  lemma {:induction false} AcceptedIsQueued(t: Tables, c: Id, requested: Option<Window>, fallback: Window, now: int)
    requires OneWindow(t.messages) && AcceptedWindow(t, c, requested, fallback, now).Done?
    ensures forall i :: 0 <= i < |t.messages| && t.messages[i].conversation == c && t.messages[i].Queued() ==>
                          t.messages[i].window == AcceptedWindow(t, c, requested, fallback, now).value
  {
    QueuedRowsAreQueued(t.messages, c);
    if QueuedRows(t.messages, c) != [] {
      FirstWindow(t.messages, c);
    } else {
      assert forall i :: 0 <= i < |t.messages| && t.messages[i].conversation == c && t.messages[i].Queued() ==>
          t.messages[i] in QueuedRows(t.messages, c);
    }
  }

  lemma {:induction false} LatestKeepsOrdered(messages: seq<Message>, m: Message)
    requires Ordered(messages) && m.sequence == MaxSequence(messages, m.conversation) + 1
    ensures Ordered(messages + [m])
  {
    assert forall i :: 0 <= i < |messages| && messages[i].conversation == m.conversation ==>
        messages[i].sequence < m.sequence;
  }

  lemma {:induction false} ArrivalKeepsWindow(messages: seq<Message>, m: Message)
    requires OneWindow(messages)
    requires m.Queued() ==>
               forall i :: 0 <= i < |messages| && messages[i].conversation == m.conversation && messages[i].Queued() ==>
                 messages[i].window == m.window
    ensures OneWindow(messages + [m])
  {
    var more := messages + [m];
    forall i, j | && 0 <= i < j < |more| && more[i].conversation == more[j].conversation
                  && more[i].Queued() && more[j].Queued()
      ensures more[i].window == more[j].window
    {
      if j < |messages| { assert more[i] == messages[i] && more[j] == messages[j]; }
    }
  }

  lemma {:induction false} LatestKeepsAssignedFirst(messages: seq<Message>, m: Message)
    requires AssignedFirst(messages) && m.sequence == MaxSequence(messages, m.conversation) + 1
    requires m.role == User ==> m.owner.None?
    ensures AssignedFirst(messages + [m])
  {
    var more := messages + [m];
    forall i, j | && 0 <= i < |more| && 0 <= j < |more| && more[i].conversation == more[j].conversation
                  && more[i].role == User && more[i].owner.Some? && more[j].Queued()
      ensures more[i].sequence < more[j].sequence
    {
      assert more[i] == messages[i];
      if j < |messages| { assert more[j] == messages[j]; }
    }
  }

  /** A Message at the end, unassigned, with the window of those queued. */
  lemma {:induction false} ArrivalKeepsOrder(messages: seq<Message>, m: Message)
    requires Ordered(messages) && OneWindow(messages) && AssignedFirst(messages)
    requires m.owner.None? && m.sequence == MaxSequence(messages, m.conversation) + 1
    requires forall i :: 0 <= i < |messages| && messages[i].conversation == m.conversation && messages[i].Queued() ==>
                           messages[i].window == m.window
    ensures Ordered(messages + [m]) && OneWindow(messages + [m]) && AssignedFirst(messages + [m])
  {
    LatestKeepsOrdered(messages, m);
    ArrivalKeepsWindow(messages, m);
    LatestKeepsAssignedFirst(messages, m);
  }

  /** A Message nobody is assigned changes no batch. */
  lemma {:induction false} ArrivalKeepsBatches(t: Tables, m: Message)
    requires AllOwned(t) && AllBatched(t) && m.owner.None?
    ensures AllOwned(t.(messages := t.messages + [m])) && AllBatched(t.(messages := t.messages + [m]))
  {
    CountsOfAppend(t.messages, m);
    var u := t.(messages := t.messages + [m]);
    forall k | 0 <= k < |u.investigations|
      ensures 1 <= CountAssigned(u.messages, u.investigations[k].id) <= MAX_QUEUED
    {
      assert CountAssigned(u.messages, t.investigations[k].id) == CountAssigned(t.messages, t.investigations[k].id);
    }
  }

  lemma {:induction false} AppendKeeps(
      t: Tables, c: Id, role: Role, requested: Option<Window>, fallback: Window, now: int)
    requires Inv(t)
    ensures var appended := Appended(t, c, role, requested, fallback, now);
            appended.Done? ==> Inv(appended.value)
  {
    var appended := Appended(t, c, role, requested, fallback, now);
    if appended.Done? {
      var m := appended.value.messages[|t.messages|];
      CountsOfAppend(t.messages, m);
      AcceptedIsQueued(t, c, requested, fallback, now);
      ArrivalKeepsOrder(t.messages, m);
      ArrivalKeepsBatches(t, m);
      assert appended.value == t.(messages := t.messages + [m]);
    }
  }

  lemma {:induction false} AttachDrains(messages: seq<Message>, c: Id, last: nat, id: Id)
    requires forall i :: 0 <= i < |messages| && messages[i].conversation == c && messages[i].Queued() ==>
                           Takes(messages[i], c, last)
    ensures QueuedRows(Attach(messages, c, last, id), c) == []
  {
    NothingQueued(Attach(messages, c, last, id), c);
  }

  /** An opened turn takes every Message its Conversation had queued, and its window is theirs. */
  lemma {:induction false} OpenTurnDrains(t: Tables, c: Id, id: Id)
    requires Inv(t) && TurnOpened(t, c, id).Done? && TurnOpened(t, c, id).value != t
    ensures var u := TurnOpened(t, c, id).value;
            && QueuedRows(u.messages, c) == []
            && u.investigations[|t.investigations|].id == id
            && CountAssigned(u.messages, id) == |QueuedRows(t.messages, c)|
            && 1 <= |QueuedRows(t.messages, c)| <= MAX_QUEUED
            && forall i :: 0 <= i < |t.messages| && t.messages[i].conversation == c && t.messages[i].Queued() ==>
                 u.messages[i] == t.messages[i].(owner := Some(id))
                 && u.messages[i].window == u.investigations[|t.investigations|].window
  {
    var u := TurnOpened(t, c, id).value;
    var last := BatchEnd(t.messages, c);
    BatchIsWholeQueue(t.messages, c);
    FirstWindow(t.messages, c);
    QueuedRowsAreQueued(t.messages, c);
    NoneAssignedYet(t, id);
    AttachAssigns(t.messages, c, last, id);
    AttachDrains(t.messages, c, last, id);
  }

  lemma {:induction false} NoneAssignedYet(t: Tables, id: Id)
    requires AllOwned(t) && !HasId(t, id)
    ensures forall i :: 0 <= i < |t.messages| ==> t.messages[i].owner != Some(id)
  {
    forall i | 0 <= i < |t.messages| ensures t.messages[i].owner != Some(id) {
      assert t.messages[i].owner.Some? ==> Owned(t.messages[i], t.investigations);
    }
  }

  lemma AttachKeepsOrder(messages: seq<Message>, c: Id, last: nat, id: Id)
    requires Ordered(messages) && OneWindow(messages) && AssignedFirst(messages)
    requires forall i :: 0 <= i < |messages| && messages[i].conversation == c && messages[i].Queued() ==>
                           Takes(messages[i], c, last)
    ensures var attached := Attach(messages, c, last, id);
            Ordered(attached) && OneWindow(attached) && AssignedFirst(attached)
  {
  }

  lemma {:induction false} AttachKeepsOwners(t: Tables, u: Tables, c: Id, last: nat, id: Id)
    requires AllOwned(t) && |u.investigations| == |t.investigations| + 1 && t.investigations <= u.investigations
    requires u.messages == Attach(t.messages, c, last, id)
    requires var begun := u.investigations[|t.investigations|];
             && begun.id == id && begun.conversation == c
             && forall i :: 0 <= i < |t.messages| && Takes(t.messages[i], c, last) ==>
                              t.messages[i].window == begun.window
    ensures AllOwned(u)
  {
    forall i | 0 <= i < |u.messages| && u.messages[i].owner.Some? ensures Owned(u.messages[i], u.investigations) {
      if Takes(t.messages[i], c, last) {
        assert u.messages[i].owner == Some(u.investigations[|t.investigations|].id);
      } else {
        OwnedByMore(t.messages[i], t.investigations, u.investigations);
      }
    }
  }

  lemma {:induction false} BatchesKept(t: Tables, c: Id, id: Id, last: nat, window: Window)
    requires AllOwned(t) && AllBatched(t) && !HasId(t, id)
    requires 1 <= |QueuedRows(t.messages, c)| <= MAX_QUEUED
    requires forall i :: 0 <= i < |t.messages| && t.messages[i].conversation == c && t.messages[i].Queued() ==>
                           t.messages[i].sequence <= last
    ensures AllBatched(WithTurn(t, c, id, last, window))
    ensures CountQueued(Attach(t.messages, c, last, id)) <= CountQueued(t.messages)
  {
    NoneAssignedYet(t, id);
    AttachAssigns(t.messages, c, last, id);
    AttachQueuesNone(t.messages, c, last, id);
    var u := WithTurn(t, c, id, last, window);
    forall k | 0 <= k < |u.investigations|
      ensures 1 <= CountAssigned(u.messages, u.investigations[k].id) <= MAX_QUEUED
    {
      if k < |t.investigations| {
        AttachLeaves(t.messages, c, last, id, t.investigations[k].id);
      }
    }
  }

  lemma BegunKeeps(t: Tables, c: Id, id: Id, last: nat, window: Window)
    requires OneRunning(t.investigations) && DistinctIds(t.investigations) && !IsRunning(t, c) && !HasId(t, id)
    ensures var u := WithTurn(t, c, id, last, window);
            OneRunning(u.investigations) && DistinctIds(u.investigations)
  {
  }

  lemma {:induction false} OpenTurnKeeps(t: Tables, c: Id, id: Id)
    requires Inv(t)
    ensures TurnOpened(t, c, id).Done? ==> Inv(TurnOpened(t, c, id).value)
  {
    var last, rows := BatchEnd(t.messages, c), QueuedRows(t.messages, c);
    if c in t.conversations && !IsRunning(t, c) && last != 0 && rows != [] && !HasId(t, id) {
      var u := WithTurn(t, c, id, last, rows[0].window);
      BatchIsWholeQueue(t.messages, c);
      FirstWindow(t.messages, c);
      QueuedRowsAreQueued(t.messages, c);
      BatchesKept(t, c, id, last, rows[0].window);
      AttachKeepsOrder(t.messages, c, last, id);
      AttachKeepsOwners(t, u, c, last, id);
      BegunKeeps(t, c, id, last, rows[0].window);
      assert OneRunning(u.investigations) && DistinctIds(u.investigations);
    }
  }

  lemma {:induction false} ReplyKeepsOrder(messages: seq<Message>, m: Message)
    requires Ordered(messages) && OneWindow(messages) && AssignedFirst(messages)
    requires m.role == Assistant && m.sequence == MaxSequence(messages, m.conversation) + 1
    ensures Ordered(messages + [m]) && OneWindow(messages + [m]) && AssignedFirst(messages + [m])
  {
    LatestKeepsOrdered(messages, m);
    ArrivalKeepsWindow(messages, m);
    LatestKeepsAssignedFirst(messages, m);
  }

  lemma {:induction false} EndKeepsOwners(t: Tables, k: nat, reply: bool)
    requires AllOwned(t)
    ensures AllOwned(TurnEnded(t, k, reply))
  {
    var u := TurnEnded(t, k, reply);
    if u != t {
      forall i | 0 <= i < |u.messages| && u.messages[i].owner.Some? ensures Owned(u.messages[i], u.investigations) {
        if i < |t.messages| {
          OwnedByMore(t.messages[i], t.investigations, u.investigations);
        } else {
          assert u.messages[i].owner == Some(u.investigations[k].id);
        }
      }
    }
  }

  lemma {:induction false} EndKeepsBatches(t: Tables, k: nat, reply: bool)
    requires AllBatched(t)
    ensures AllBatched(TurnEnded(t, k, reply))
  {
    var u := TurnEnded(t, k, reply);
    if u != t && reply {
      CountsOfAppend(t.messages, u.messages[|t.messages|]);
    }
    forall j | 0 <= j < |u.investigations|
      ensures 1 <= CountAssigned(u.messages, u.investigations[j].id) <= MAX_QUEUED
    {
      assert u.investigations[j].id == t.investigations[j].id;
    }
  }

  lemma EndKeepsInvestigations(t: Tables, k: nat, reply: bool)
    requires OneRunning(t.investigations) && DistinctIds(t.investigations)
    ensures var u := TurnEnded(t, k, reply);
            OneRunning(u.investigations) && DistinctIds(u.investigations)
  {
  }

  lemma {:induction false} EndTurnKeeps(t: Tables, k: nat, reply: bool)
    requires Inv(t)
    ensures Inv(TurnEnded(t, k, reply))
  {
    var u := TurnEnded(t, k, reply);
    EndKeepsOwners(t, k, reply);
    EndKeepsBatches(t, k, reply);
    EndKeepsInvestigations(t, k, reply);
    if u != t && reply {
      var m := u.messages[|t.messages|];
      CountsOfAppend(t.messages, m);
      ReplyKeepsOrder(t.messages, m);
    }
  }

  // --- what each step does, said of the rows ---------------------------------------------------

  /** Some user Message of the Conversation is not assigned. */
  predicate AnyUnassigned(t: Tables, c: Id) {
    exists i :: 0 <= i < |t.messages| && t.messages[i].conversation == c
                && t.messages[i].role == User && t.messages[i].owner.None?
  }

  predicate NoneRunning(t: Tables, c: Id) {
    forall k :: 0 <= k < |t.investigations| && t.investigations[k].conversation == c ==> !t.investigations[k].running
  }

  /** Some Message of the Conversation has this sequence. */
  predicate Numbered(messages: seq<Message>, c: Id, sequence: int) {
    exists i :: 0 <= i < |messages| && messages[i].conversation == c && messages[i].sequence == sequence
  }

  lemma {:induction false} MaxSequenceIsThere(messages: seq<Message>, c: Id)
    ensures MaxSequence(messages, c) == 0 || Numbered(messages, c, MaxSequence(messages, c))
  {
    if messages != [] {
      var n := |messages| - 1;
      MaxSequenceIsThere(messages[..n], c);
      var top := MaxSequence(messages, c);
      if Numbered(messages[..n], c, top) {
        var i :| 0 <= i < n && messages[..n][i].conversation == c && messages[..n][i].sequence == top;
        assert messages[i].sequence == top;
      }
    }
  }

  lemma {:induction false} MaxTurnIsThere(investigations: seq<Investigation>, c: Id)
    ensures var top := MaxTurn(investigations, c);
            || top == 0
            || exists k :: 0 <= k < |investigations| && investigations[k].conversation == c
                           && investigations[k].turn == top
  {
    if investigations != [] {
      var n := |investigations| - 1;
      MaxTurnIsThere(investigations[..n], c);
      var top := MaxTurn(investigations, c);
      if k :| 0 <= k < n && investigations[..n][k].conversation == c && investigations[..n][k].turn == top {
        assert investigations[k].turn == top;
      }
    }
  }

  /** A turn was opened: one running Investigation more, the Conversation's only one, and nothing left unassigned. */
  predicate OpenedOne(t: Tables, u: Tables, c: Id, id: Id) {
    var n := |t.investigations|;
    && |u.investigations| == n + 1 && u.investigations[..n] == t.investigations
    && u.conversations == t.conversations && |u.messages| == |t.messages|
    && u.investigations[n].id == id && u.investigations[n].conversation == c && u.investigations[n].running
    && NoneRunning(t, c) && !AnyUnassigned(u, c)
    && (forall k :: 0 <= k < n && t.investigations[k].conversation == c ==>
          t.investigations[k].turn < u.investigations[n].turn)
    && (|| u.investigations[n].turn == 1
        || exists k :: 0 <= k < n && t.investigations[k].conversation == c
                       && t.investigations[k].turn + 1 == u.investigations[n].turn)
    && (forall i :: 0 <= i < |t.messages| ==>
          u.messages[i] == if t.messages[i].conversation == c && t.messages[i].Queued()
                           then t.messages[i].(owner := Some(id)) else t.messages[i])
    && (forall i :: 0 <= i < |t.messages| && u.messages[i] != t.messages[i] ==>
          u.messages[i].window == u.investigations[n].window)
  }

  lemma {:induction false} AnyUnassignedIsQueued(t: Tables, c: Id)
    ensures AnyUnassigned(t, c) <==> QueuedRows(t.messages, c) != []
  {
    QueuedRowsAreQueued(t.messages, c);
    if AnyUnassigned(t, c) {
      var i :| 0 <= i < |t.messages| && t.messages[i].conversation == c
               && t.messages[i].role == User && t.messages[i].owner.None?;
      assert t.messages[i] in QueuedRows(t.messages, c);
    }
    if QueuedRows(t.messages, c) != [] {
      var m := QueuedRows(t.messages, c)[0];
      assert m in QueuedRows(t.messages, c);
    }
  }

  /** A turn of a known Conversation is opened if and only if none of it is running and some Message waits. */
  lemma {:induction false} OpensExactlyWhen(t: Tables, c: Id, id: Id)
    requires Inv(t) && c in t.conversations && !HasId(t, id)
    ensures TurnOpened(t, c, id).Done?
    ensures var u := TurnOpened(t, c, id).value;
            if NoneRunning(t, c) && AnyUnassigned(t, c) then OpenedOne(t, u, c, id) else u == t
  {
    AnyUnassignedIsQueued(t, c);
    BatchIsWholeQueue(t.messages, c);
    if NoneRunning(t, c) && AnyUnassigned(t, c) {
      FirstWindow(t.messages, c);
      MaxTurnIsThere(t.investigations, c);
    }
  }

  /** The window an append may ask for: a valid one, and that of the Messages already waiting. */
  predicate MayAsk(t: Tables, c: Id, requested: Window, now: int) {
    && requested.Normalized().Valid(now)
    && forall i :: 0 <= i < |t.messages| && t.messages[i].conversation == c && t.messages[i].Queued() ==>
                     t.messages[i].window == requested.Normalized()
  }

  /** One Message more, at the end of its Conversation, unassigned, with the window asked for or shared. */
  predicate AppendedOne(
      t: Tables, u: Tables, c: Id, role: Role, requested: Option<Window>, fallback: Window)
  {
    var n := |t.messages|;
    && u.conversations == t.conversations && u.investigations == t.investigations
    && |u.messages| == n + 1 && u.messages[..n] == t.messages
    && u.messages[n].conversation == c && u.messages[n].role == role && u.messages[n].owner.None?
    && (forall i :: 0 <= i < n && t.messages[i].conversation == c ==> t.messages[i].sequence < u.messages[n].sequence)
    && (u.messages[n].sequence == 1 || Numbered(t.messages, c, u.messages[n].sequence - 1))
    && (forall i :: 0 <= i < n && t.messages[i].conversation == c && t.messages[i].Queued() ==>
          u.messages[n].window == t.messages[i].window)
    && (requested.Some? ==> u.messages[n].window == requested.value.Normalized())
    && (requested.None? && !AnyUnassigned(t, c) ==> u.messages[n].window == fallback.Normalized())
  }

  /** A window is accepted if and only if what was asked for will do, or, with nothing asked or waiting, the default. */
  lemma {:induction false} AcceptsExactlyWhen(
      t: Tables, c: Id, requested: Option<Window>, fallback: Window, now: int)
    requires OneWindow(t.messages)
    ensures var o := AcceptedWindow(t, c, requested, fallback, now);
            && (o.Done? <==>
                  && (requested.Some? ==> MayAsk(t, c, requested.value, now))
                  && (requested.None? && !AnyUnassigned(t, c) ==> fallback.Normalized().Valid(now)))
            && (o.Done? && requested.Some? ==> o.value == requested.value.Normalized())
            && (o.Done? && requested.None? && !AnyUnassigned(t, c) ==> o.value == fallback.Normalized())
  {
    AnyUnassignedIsQueued(t, c);
    QueuedRowsAreQueued(t.messages, c);
    if QueuedRows(t.messages, c) != [] {
      FirstWindow(t.messages, c);
      var first := QueuedRows(t.messages, c)[0];
      assert first in QueuedRows(t.messages, c);
      var k :| 0 <= k < |t.messages| && t.messages[k] == first;
    }
  }

  /** An append is taken if and only if its Conversation is known, there is room, and its window will do. */
  lemma {:induction false} AppendsExactlyWhen(
      t: Tables, c: Id, role: Role, requested: Option<Window>, fallback: Window, now: int)
    requires Inv(t)
    ensures var o := Appended(t, c, role, requested, fallback, now);
            && (o.Done? <==>
                  && c in t.conversations && (role == User ==> CountQueued(t.messages) < MAX_QUEUED)
                  && (requested.Some? ==> MayAsk(t, c, requested.value, now))
                  && (requested.None? && !AnyUnassigned(t, c) ==> fallback.Normalized().Valid(now)))
            && (o.Done? ==> AppendedOne(t, o.value, c, role, requested, fallback))
  {
    AcceptsExactlyWhen(t, c, requested, fallback, now);
    if AcceptedWindow(t, c, requested, fallback, now).Done? { AcceptedIsQueued(t, c, requested, fallback, now); }
    MaxSequenceIsThere(t.messages, c);
  }

  /** A running Investigation stops running, and its reply, if any, is the latest Message; any other ending is idle. */
  lemma {:induction false} EndsExactlyWhen(t: Tables, k: nat, reply: bool)
    ensures var u := TurnEnded(t, k, reply);
            if k < |t.investigations| && t.investigations[k].running then
              && u.investigations == t.investigations[k := t.investigations[k].(running := false)]
              && u.conversations == t.conversations && |u.messages| == |t.messages| + (if reply then 1 else 0)
              && u.messages[..|t.messages|] == t.messages
              && (reply ==>
                    var m := u.messages[|t.messages|];
                    && m.conversation == t.investigations[k].conversation && m.role == Assistant
                    && m.owner == Some(t.investigations[k].id) && m.window == t.investigations[k].window
                    && (m.sequence == 1 || Numbered(t.messages, m.conversation, m.sequence - 1))
                    && forall i :: 0 <= i < |t.messages| && t.messages[i].conversation == m.conversation ==>
                                     t.messages[i].sequence < m.sequence)
            else u == t
  {
    if k < |t.investigations| { MaxSequenceIsThere(t.messages, t.investigations[k].conversation); }
  }

  // --- whole runs ------------------------------------------------------------------------------

  datatype Step =
    | OpenConversation(c: Id)
    | AppendMessage(c: Id, role: Role, requested: Option<Window>, fallback: Window, now: int)
    | OpenNextTurn(c: Id, id: Id)
    | AppendAndOpen(c: Id, role: Role, requested: Option<Window>, fallback: Window, now: int, id: Id)
    | EndInvestigation(k: nat, reply: bool)

  function Committed(t: Tables, outcome: Outcome<Tables>): Tables {
    if outcome.Done? then outcome.value else t
  }

  function Apply(t: Tables, step: Step): Tables {
    match step
    case OpenConversation(c) => t.(conversations := t.conversations + {c})
    case AppendMessage(c, role, requested, fallback, now) =>
      Committed(t, Appended(t, c, role, requested, fallback, now))
    case OpenNextTurn(c, id) => Committed(t, TurnOpened(t, c, id))
    case AppendAndOpen(c, role, requested, fallback, now, id) =>
      var appended := Appended(t, c, role, requested, fallback, now);
      if appended.Done? then Committed(t, TurnOpened(appended.value, c, id)) else t
    case EndInvestigation(k, reply) => TurnEnded(t, k, reply)
  }

  function ApplyAll(t: Tables, steps: seq<Step>): Tables {
    if steps == [] then t else Apply(ApplyAll(t, steps[..|steps| - 1]), steps[|steps| - 1])
  }

  lemma {:induction false} StepKeeps(t: Tables, step: Step)
    requires Inv(t)
    ensures Inv(Apply(t, step))
  {
    match step
    case OpenConversation(_) =>
    case AppendMessage(c, role, requested, fallback, now) => AppendKeeps(t, c, role, requested, fallback, now);
    case OpenNextTurn(c, id) => OpenTurnKeeps(t, c, id);
    case AppendAndOpen(c, role, requested, fallback, now, id) =>
      AppendKeeps(t, c, role, requested, fallback, now);
      var appended := Appended(t, c, role, requested, fallback, now);
      if appended.Done? { OpenTurnKeeps(appended.value, c, id); }
    case EndInvestigation(k, reply) => EndTurnKeeps(t, k, reply);
  }

  /** From empty tables, whatever steps are taken in whatever order. */
  lemma {:induction false} EveryRunKeeps(steps: seq<Step>)
    ensures Inv(ApplyAll(Tables({}, [], []), steps))
  {
    if steps != [] {
      EveryRunKeeps(steps[..|steps| - 1]);
      StepKeeps(ApplyAll(Tables({}, [], []), steps[..|steps| - 1]), steps[|steps| - 1]);
    }
  }

  /** A Message only ever changes by being assigned once, an Investigation only by ending once. */
  predicate Grows(t: Tables, u: Tables) {
    && |t.messages| <= |u.messages| && |t.investigations| <= |u.investigations|
    && (forall i :: 0 <= i < |t.messages| ==>
          u.messages[i] == t.messages[i]
          || (t.messages[i].Queued() && u.messages[i] == t.messages[i].(owner := u.messages[i].owner)))
    && (forall k :: 0 <= k < |t.investigations| ==>
          u.investigations[k] == t.investigations[k]
          || (t.investigations[k].running && u.investigations[k] == t.investigations[k].(running := false)))
  }

  lemma {:induction false} StepGrows(t: Tables, step: Step)
    ensures Grows(t, Apply(t, step))
  {
    if step.AppendAndOpen? {
      var appended := Appended(t, step.c, step.role, step.requested, step.fallback, step.now);
      if appended.Done? {
        var u := appended.value;
        assert Grows(t, u) && Grows(u, Committed(u, TurnOpened(u, step.c, step.id)));
      }
    }
  }

  lemma {:induction false} RunGrows(t: Tables, steps: seq<Step>)
    ensures Grows(t, ApplyAll(t, steps))
  {
    if steps != [] {
      var before := ApplyAll(t, steps[..|steps| - 1]);
      RunGrows(t, steps[..|steps| - 1]);
      StepGrows(before, steps[|steps| - 1]);
    }
  }

  // --- the agent's read of its own turn --------------------------------------------------------

  datatype Assigned = UnknownInvestigation | BatchExceeds | Read(count: nat)

  /** `InvestigationMessages`: at most one row past the batch limit is fetched, and finding it is an error. */
  function InvestigationMessages(t: Tables, id: Id): Assigned {
    if !HasId(t, id) then UnknownInvestigation
    else
      var fetched := var all := CountAssigned(t.messages, id); if all > MAX_QUEUED + 1 then MAX_QUEUED + 1 else all;
      if fetched > MAX_QUEUED then BatchExceeds else Read(fetched)
  }

  /** In every reachable state an opened turn reads its whole, non-empty batch: neither failure can happen. */
  lemma {:induction false} AssignedMessagesAreThere(steps: seq<Step>, id: Id)
    ensures var t := ApplyAll(Tables({}, [], []), steps);
            HasId(t, id) ==>
              && InvestigationMessages(t, id) == Read(CountAssigned(t.messages, id))
              && CountAssigned(t.messages, id) >= 1
  {
    EveryRunKeeps(steps);
  }

  // --- the store -------------------------------------------------------------------------------

  class ConversationStore {
    var conversations: set<Id>
    var messages: seq<Message>
    var investigations: seq<Investigation>

    constructor ()
      ensures Contents() == Tables({}, [], [])
    {
      conversations, messages, investigations := {}, [], [];
    }

    function Contents(): Tables
      reads this
    {
      Tables(conversations, messages, investigations)
    }

    method AppendMessage(c: Id, role: Role, requested: Option<Window>, fallback: Window, now: int)
      returns (error: Option<Error>)
      modifies this`messages
      ensures var appended := old(Appended(Contents(), c, role, requested, fallback, now));
              && Contents() == Committed(old(Contents()), appended)
              && error == if appended.Refused? then Some(appended.error) else None
    {
      if role == User && CountQueued(messages) >= MAX_QUEUED { return Some(QueueFull); }
      if c !in conversations { return Some(UnknownConversation); }
      var window := AcceptedWindow(Contents(), c, requested, fallback, now);
      if window.Refused? { return Some(window.error); }
      messages := messages + [Message(c, MaxSequence(messages, c) + 1, role, window.value, None)];
      error := None;
    }

    /** Reads the batch row by row; the last row read names where it ends. */
    method QueuedBatch(c: Id) returns (last: nat)
      ensures last == BatchEnd(messages, c)
    {
      var rows := QueuedRows(messages, c);
      if |rows| > MAX_QUEUED { rows := rows[..MAX_QUEUED]; }
      last := 0;
      for i := 0 to |rows|
        invariant last == if i == 0 then 0 else rows[i - 1].sequence
      {
        last := rows[i].sequence;
      }
    }

    method OpenTurn(c: Id, id: Id) returns (error: Option<Error>)
      modifies this`messages, this`investigations
      ensures var begun := old(TurnOpened(Contents(), c, id));
              && Contents() == Committed(old(Contents()), begun)
              && error == if begun.Refused? then Some(begun.error) else None
    {
      if c !in conversations { return Some(UnknownConversation); }
      if IsRunning(Contents(), c) { return None; }
      var last := QueuedBatch(c);
      var queued := QueuedRows(messages, c);
      if last == 0 || queued == [] { return None; }
      if HasId(Contents(), id) { return Some(IdentityTaken); }
      investigations := investigations
        + [Investigation(id, c, MaxTurn(investigations, c) + 1, queued[0].window, true)];
      messages := Attach(messages, c, last, id);
      error := None;
    }

    method EndTurn(k: nat, reply: bool)
      modifies this`messages, this`investigations
      ensures Contents() == TurnEnded(old(Contents()), k, reply)
    {
      if k >= |investigations| || !investigations[k].running { return; }
      var ended := investigations[k];
      investigations := investigations[k := ended.(running := false)];
      if reply {
        messages := messages + [Message(ended.conversation, MaxSequence(messages, ended.conversation) + 1, Assistant,
                                        ended.window, Some(ended.id))];
      }
    }
  }
}
