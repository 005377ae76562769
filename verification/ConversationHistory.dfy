/**
 What one turn of a Conversation reads of it: its own Messages and the earlier ones
 (internal/store/postgres/conversation_context.go), over the tables every transaction keeps.
 */
module ConversationHistory {
  import opened Text
  import opened Investigation
  import Q = ConversationQueue
  import History
  import HistoryPaging
  import AgentRun

  const EMPTY := Q.Tables({}, [], [])

  // --- turns stay in order ---------------------------------------------------------------------

  /** In a Conversation later Investigations have later turns, and only the last one may be running. */
  predicate TurnsInOrder(investigations: seq<Q.Investigation>) {
    forall i, j :: 0 <= i < j < |investigations| && investigations[i].conversation == investigations[j].conversation ==>
                     investigations[i].turn < investigations[j].turn && !investigations[i].running
  }

  lemma {:induction false} OpeningKeepsTurns(t: Q.Tables, c: Q.Id, id: Q.Id)
    requires TurnsInOrder(t.investigations)
    ensures Q.TurnOpened(t, c, id).Done? ==> TurnsInOrder(Q.TurnOpened(t, c, id).value.investigations)
  {
    var o := Q.TurnOpened(t, c, id);
    if o.Done? && o.value != t {
      var after := o.value.investigations;
      var n := |t.investigations|;
      assert after[..n] == t.investigations;
      forall i, j | 0 <= i < j < |after| && after[i].conversation == after[j].conversation
        ensures after[i].turn < after[j].turn && !after[i].running
      {
        assert after[i] == t.investigations[i];
        if j < n { assert after[j] == t.investigations[j]; }
      }
    }
  }

  lemma {:induction false} StepKeepsTurns(t: Q.Tables, step: Q.Step)
    requires TurnsInOrder(t.investigations)
    ensures TurnsInOrder(Q.Apply(t, step).investigations)
  {
    match step
    case OpenNextTurn(c, id) => OpeningKeepsTurns(t, c, id);
    case AppendAndOpen(c, role, requested, fallback, now, id) =>
      var appended := Q.Appended(t, c, role, requested, fallback, now);
      if appended.Done? { OpeningKeepsTurns(appended.value, c, id); }
    case _ =>
  }

  // --- the earlier Messages --------------------------------------------------------------------

  /** An Investigation of an earlier turn owns the Message. */
  predicate IsPrior(m: Q.Message, investigations: seq<Q.Investigation>, c: Q.Id, turn: nat) {
    && m.conversation == c && m.owner.Some?
    && exists k :: 0 <= k < |investigations| && investigations[k].id == m.owner.value
                && investigations[k].conversation == c && investigations[k].turn < turn
  }

  /** The earlier Messages, oldest first. */
  function PriorOf(messages: seq<Q.Message>, investigations: seq<Q.Investigation>, c: Q.Id, turn: nat): seq<Q.Message> {
    if messages == [] then []
    else
      var n := |messages| - 1;
      PriorOf(messages[..n], investigations, c, turn)
      + if IsPrior(messages[n], investigations, c, turn) then [messages[n]] else []
  }

  lemma {:induction false} PriorAreThere(
      messages: seq<Q.Message>, investigations: seq<Q.Investigation>, c: Q.Id, turn: nat)
    ensures forall m :: m in PriorOf(messages, investigations, c, turn) <==>
                          m in messages && IsPrior(m, investigations, c, turn)
  {
    if messages != [] {
      var n := |messages| - 1;
      PriorAreThere(messages[..n], investigations, c, turn);
      assert messages == messages[..n] + [messages[n]];
    }
  }

  predicate Rising(messages: seq<Q.Message>) {
    forall i, j :: 0 <= i < j < |messages| ==> messages[i].sequence < messages[j].sequence
  }

  lemma {:induction false} PriorIsSorted(
      messages: seq<Q.Message>, investigations: seq<Q.Investigation>, c: Q.Id, turn: nat)
    requires Q.Ordered(messages)
    ensures Rising(PriorOf(messages, investigations, c, turn))
  {
    if messages != [] {
      var n := |messages| - 1;
      var front := PriorOf(messages[..n], investigations, c, turn);
      PriorIsSorted(messages[..n], investigations, c, turn);
      PriorAreThere(messages[..n], investigations, c, turn);
      forall i | 0 <= i < |front| && messages[n].conversation == c ensures front[i].sequence < messages[n].sequence {
        assert front[i] in front;
        var k :| 0 <= k < n && messages[..n][k] == front[i];
        assert messages[k] == front[i];
      }
      var prior := PriorOf(messages, investigations, c, turn);
      forall i, j | 0 <= i < j < |prior| ensures prior[i].sequence < prior[j].sequence {
        assert prior[i] == front[i];
        if j < |front| {
          assert prior[j] == front[j] && front[i].sequence < front[j].sequence;
        } else {
          assert prior[j] == messages[n] && IsPrior(messages[n], investigations, c, turn);
        }
      }
    }
  }

  /** Nothing earlier changed, and nothing that came is earlier. */
  lemma {:induction false} SamePrior(
      a: seq<Q.Message>, b: seq<Q.Message>, before: seq<Q.Investigation>, after: seq<Q.Investigation>,
      c: Q.Id, turn: nat)
    requires |a| <= |b|
    requires forall i :: 0 <= i < |a| ==> (IsPrior(a[i], before, c, turn) <==> IsPrior(b[i], after, c, turn))
    requires forall i :: 0 <= i < |a| && IsPrior(a[i], before, c, turn) ==> a[i] == b[i]
    requires forall i :: |a| <= i < |b| ==> !IsPrior(b[i], after, c, turn)
    ensures PriorOf(a, before, c, turn) == PriorOf(b, after, c, turn)
    decreases |b|
  {
    if b != [] {
      var n := |b| - 1;
      if |a| < |b| {
        SamePrior(a, b[..n], before, after, c, turn);
      } else {
        SamePrior(a[..n], b[..n], before, after, c, turn);
      }
    }
  }

  predicate HasTurn(investigations: seq<Q.Investigation>, c: Q.Id, turn: nat) {
    exists k :: 0 <= k < |investigations| && investigations[k].conversation == c && investigations[k].turn == turn
  }

  /** An Investigation list that keeps the old ones, but for their status, and adds none of an earlier turn. */
  lemma {:induction false} PriorByMore(
      m: Q.Message, before: seq<Q.Investigation>, after: seq<Q.Investigation>, c: Q.Id, turn: nat)
    requires |before| <= |after|
    requires forall k :: 0 <= k < |before| ==>
               && before[k].id == after[k].id && before[k].conversation == after[k].conversation
               && before[k].turn == after[k].turn
    requires forall k :: |before| <= k < |after| && after[k].conversation == c ==> after[k].turn >= turn
    ensures IsPrior(m, before, c, turn) <==> IsPrior(m, after, c, turn)
  {
    if IsPrior(m, before, c, turn) {
      var k :| && 0 <= k < |before| && before[k].id == m.owner.value
               && before[k].conversation == c && before[k].turn < turn;
      assert after[k].id == m.owner.value;
    }
  }

  lemma {:induction false} OpeningKeepsPrior(t: Q.Tables, c': Q.Id, id: Q.Id, c: Q.Id, turn: nat)
    requires Q.Inv(t) && HasTurn(t.investigations, c, turn) && Q.TurnOpened(t, c', id).Done?
    ensures var u := Q.TurnOpened(t, c', id).value;
            PriorOf(u.messages, u.investigations, c, turn) == PriorOf(t.messages, t.investigations, c, turn)
  {
    var u := Q.TurnOpened(t, c', id).value;
    if u != t {
      var n := |t.investigations|;
      assert u.investigations[..n] == t.investigations;
      assert c' == c ==> u.investigations[n].turn > turn;
      forall i | 0 <= i < |t.messages|
        ensures IsPrior(t.messages[i], t.investigations, c, turn) <==> IsPrior(u.messages[i], u.investigations, c, turn)
      {
        PriorByMore(u.messages[i], t.investigations, u.investigations, c, turn);
        if u.messages[i] != t.messages[i] { NewlyAssigned(t, u.messages[i], id, c, turn); }
      }
      SamePrior(t.messages, u.messages, t.investigations, u.investigations, c, turn);
    }
  }

  /** A Message just assigned to a new Investigation belongs to no earlier turn. */
  lemma {:induction false} NewlyAssigned(t: Q.Tables, m: Q.Message, id: Q.Id, c: Q.Id, turn: nat)
    requires !Q.HasId(t, id) && m.owner == Some(id)
    ensures !IsPrior(m, t.investigations, c, turn)
  {
  }

  lemma {:induction false} EndingKeepsPrior(t: Q.Tables, k: nat, reply: bool, c: Q.Id, turn: nat)
    requires Q.Inv(t) && TurnsInOrder(t.investigations) && HasTurn(t.investigations, c, turn)
    ensures var u := Q.TurnEnded(t, k, reply);
            PriorOf(u.messages, u.investigations, c, turn) == PriorOf(t.messages, t.investigations, c, turn)
  {
    var u := Q.TurnEnded(t, k, reply);
    if u != t {
      forall i | 0 <= i < |t.messages|
        ensures IsPrior(t.messages[i], t.investigations, c, turn) <==> IsPrior(u.messages[i], u.investigations, c, turn)
      {
        PriorByMore(t.messages[i], t.investigations, u.investigations, c, turn);
      }
      if reply { ReplyIsNotPrior(t, u.messages[|t.messages|], k, c, turn); }
      forall i | |t.messages| <= i < |u.messages| ensures !IsPrior(u.messages[i], u.investigations, c, turn) {
        PriorByMore(u.messages[i], t.investigations, u.investigations, c, turn);
      }
      SamePrior(t.messages, u.messages, t.investigations, u.investigations, c, turn);
    }
  }

  /** Only the last turn of a Conversation can still reply, so no reply comes to an earlier one. */
  lemma {:induction false} ReplyIsNotPrior(t: Q.Tables, m: Q.Message, k: nat, c: Q.Id, turn: nat)
    requires Q.DistinctIds(t.investigations) && TurnsInOrder(t.investigations) && HasTurn(t.investigations, c, turn)
    requires k < |t.investigations| && t.investigations[k].running && m.owner == Some(t.investigations[k].id)
    ensures !IsPrior(m, t.investigations, c, turn)
  {
    var j :| 0 <= j < |t.investigations| && t.investigations[j].conversation == c && t.investigations[j].turn == turn;
    forall i | && 0 <= i < |t.investigations| && t.investigations[i].id == m.owner.value
               && t.investigations[i].conversation == c
      ensures t.investigations[i].turn >= turn
    {
      assert i == k;
      assert j <= k;
    }
  }

  lemma {:induction false} AppendingKeepsPrior(
      t: Q.Tables, u: Q.Tables, c': Q.Id, role: Q.Role, requested: Option<Q.Window>, fallback: Q.Window, now: int,
      c: Q.Id, turn: nat)
    requires Q.Appended(t, c', role, requested, fallback, now) == Q.Done(u)
    ensures u.investigations == t.investigations
    ensures PriorOf(u.messages, u.investigations, c, turn) == PriorOf(t.messages, t.investigations, c, turn)
  {
    SamePrior(t.messages, u.messages, t.investigations, u.investigations, c, turn);
  }

  lemma {:induction false} StepKeepsPrior(t: Q.Tables, step: Q.Step, c: Q.Id, turn: nat)
    requires Q.Inv(t) && TurnsInOrder(t.investigations) && HasTurn(t.investigations, c, turn)
    ensures var u := Q.Apply(t, step);
            PriorOf(u.messages, u.investigations, c, turn) == PriorOf(t.messages, t.investigations, c, turn)
  {
    match step
    case OpenConversation(_) =>
    case AppendMessage(c', role, requested, fallback, now) =>
      var appended := Q.Appended(t, c', role, requested, fallback, now);
      if appended.Done? { AppendingKeepsPrior(t, appended.value, c', role, requested, fallback, now, c, turn); }
    case OpenNextTurn(c', id) =>
      if Q.TurnOpened(t, c', id).Done? { OpeningKeepsPrior(t, c', id, c, turn); }
    case AppendAndOpen(c', role, requested, fallback, now, id) =>
      var appended := Q.Appended(t, c', role, requested, fallback, now);
      if appended.Done? {
        AppendingKeepsPrior(t, appended.value, c', role, requested, fallback, now, c, turn);
        Q.AppendKeeps(t, c', role, requested, fallback, now);
        if Q.TurnOpened(appended.value, c', id).Done? { OpeningKeepsPrior(appended.value, c', id, c, turn); }
      }
    case EndInvestigation(k, reply) => EndingKeepsPrior(t, k, reply, c, turn);
  }

  lemma {:induction false} StepKeepsHasTurn(t: Q.Tables, step: Q.Step, c: Q.Id, turn: nat)
    requires HasTurn(t.investigations, c, turn)
    ensures HasTurn(Q.Apply(t, step).investigations, c, turn)
  {
    Q.StepGrows(t, step);
    var k :| 0 <= k < |t.investigations| && t.investigations[k].conversation == c && t.investigations[k].turn == turn;
    var after := Q.Apply(t, step).investigations;
    assert after[k].conversation == c && after[k].turn == turn;
  }

  /** What precedes a turn never changes once the turn exists, whatever else is appended, opened or ended. */
  lemma {:induction false} PriorIsFixed(t: Q.Tables, steps: seq<Q.Step>, c: Q.Id, turn: nat)
    requires Q.Inv(t) && TurnsInOrder(t.investigations) && HasTurn(t.investigations, c, turn)
    ensures var u := Q.ApplyAll(t, steps);
            && Q.Inv(u) && TurnsInOrder(u.investigations) && HasTurn(u.investigations, c, turn)
            && PriorOf(u.messages, u.investigations, c, turn) == PriorOf(t.messages, t.investigations, c, turn)
  {
    if steps != [] {
      var n := |steps| - 1;
      PriorIsFixed(t, steps[..n], c, turn);
      var before := Q.ApplyAll(t, steps[..n]);
      Q.StepKeeps(before, steps[n]);
      StepKeepsTurns(before, steps[n]);
      StepKeepsHasTurn(before, steps[n], c, turn);
      StepKeepsPrior(before, steps[n], c, turn);
    }
  }

  lemma {:induction false} EveryRunKeepsTurns(steps: seq<Q.Step>)
    ensures TurnsInOrder(Q.ApplyAll(EMPTY, steps).investigations)
  {
    if steps != [] {
      EveryRunKeepsTurns(steps[..|steps| - 1]);
      StepKeepsTurns(Q.ApplyAll(EMPTY, steps[..|steps| - 1]), steps[|steps| - 1]);
    }
  }

  // --- as the paged reader sees them -----------------------------------------------------------

  /** How a row is shown; its sequence is the Message's. */
  ghost predicate Shows(render: Q.Message -> BriefMessage) {
    forall m :: render(m).sequence == m.sequence
  }

  function Rendered(messages: seq<Q.Message>, render: Q.Message -> BriefMessage): seq<BriefMessage> {
    seq(|messages|, i requires 0 <= i < |messages| => render(messages[i]))
  }

  /** In every reachable state the earlier Messages are what the paged reader supposes: numbered from 1, rising. */
  lemma {:induction false} PriorIsChronological(
      steps: seq<Q.Step>, c: Q.Id, turn: nat, render: Q.Message -> BriefMessage)
    requires Shows(render)
    ensures var t := Q.ApplyAll(EMPTY, steps);
            HistoryPaging.Chronological(Rendered(PriorOf(t.messages, t.investigations, c, turn), render))
  {
    Q.EveryRunKeeps(steps);
    var t := Q.ApplyAll(EMPTY, steps);
    var prior := PriorOf(t.messages, t.investigations, c, turn);
    PriorIsSorted(t.messages, t.investigations, c, turn);
    PriorAreThere(t.messages, t.investigations, c, turn);
    assert forall i :: 0 <= i < |prior| ==> prior[i] in prior;
  }

  /** Selects the rows owned by earlier turns, then pages them; unknown when the Investigation is not there. */
  method ConversationHistory(
      t: Q.Tables, c: Q.Id, current: Q.Id, before: nat, render: Q.Message -> BriefMessage)
    returns (page: Option<HistoryPage>)
    ensures page.None? <==>
              forall k :: 0 <= k < |t.investigations| ==>
                !(t.investigations[k].conversation == c && t.investigations[k].id == current)
    ensures page.Some? ==>
              exists k :: 0 <= k < |t.investigations| && t.investigations[k].conversation == c
                && t.investigations[k].id == current
                && var prior := Rendered(PriorOf(t.messages, t.investigations, c, t.investigations[k].turn), render);
                   page.value == HistoryPaging.StoredPage(
                     prior, if before == 0 then |prior| else HistoryPaging.CountBefore(prior, before),
                     HistoryPaging.PAGE_MESSAGES)
  {
    var found := 0;
    while found < |t.investigations|
          && !(t.investigations[found].conversation == c && t.investigations[found].id == current)
      invariant 0 <= found <= |t.investigations|
      invariant forall k :: 0 <= k < found ==>
                  !(t.investigations[k].conversation == c && t.investigations[k].id == current)
    {
      found := found + 1;
    }
    if found == |t.investigations| { return None; }
    var turn := t.investigations[found].turn;
    var rows := [];
    for i := 0 to |t.messages|
      invariant rows == PriorOf(t.messages[..i], t.investigations, c, turn)
    {
      assert t.messages[..i + 1][..i] == t.messages[..i];
      if IsPrior(t.messages[i], t.investigations, c, turn) { rows := rows + [t.messages[i]]; }
    }
    assert t.messages[..|t.messages|] == t.messages;
    var read := HistoryPaging.ReadPriorMessages(Rendered(rows, render), before, HistoryPaging.PAGE_MESSAGES);
    page := Some(read);
  }

  // --- the Messages a turn answers -------------------------------------------------------------

  /** How many assigned Messages a run reads from the tables; None when the read fails. */
  function MessagesRead(t: Q.Tables, id: Q.Id): Option<nat> {
    match Q.InvestigationMessages(t, id)
    case Read(count) => Some(count)
    case _ => None
  }

  /** A run of an Investigation opened in any reachable state never fails for want of its Messages. */
  lemma {:induction false} MessagesAreNeverMissing(
      steps: seq<Q.Step>, id: Q.Id, env: AgentRun.Environment, report: AgentRun.Report)
    requires var t := Q.ApplyAll(EMPTY, steps);
             Q.HasId(t, id) && env.messages == MessagesRead(t, id)
    requires AgentRun.Kept(env, report)
    ensures report.writes[0] != AgentRun.Fail(AgentRun.MessagesMissing)
    ensures report.writes[0] != AgentRun.Fail(AgentRun.MessagesUnreadable)
  {
    Q.AssignedMessagesAreThere(steps, id);
    var t := Q.ApplyAll(EMPTY, steps);
    assert env.messages.Some? && env.messages.value >= 1;
  }
}
