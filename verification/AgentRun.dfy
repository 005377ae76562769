/**
 The investigation agent loop (internal/investigation/agent/run.go).

 Everything outside the loop is an oracle: the model, the tools, the store and the clock answer through
 the functions of an Environment, indexed by how often each was asked. Nothing is assumed of them, so a
 contract that holds for every Environment holds whatever they do.
 */
module AgentRun {
  import opened Text
  import opened Investigation
  import opened Conclusions
  import opened History
  import opened Prompts
  import opened Tools

  const DEFAULT_MAX_TOOL_RUNS: nat := 30
  const DEFAULT_MAX_TURNS: nat := 20

  datatype Stop = Complete | Refused | Truncated | ToolUse

  datatype Answer = ProviderError(contextWindow: bool) | Completion(stop: Stop, calls: seq<CompletionCall>)

  datatype Executed =
    | AuditRefused | CredentialRefused | ToolError(error: string)
    | ToolAnswered(window: Option<string>, truncated: bool, summary: string, content: Content)

  datatype Environment = Environment(
    maxToolRuns: int,
    maxTurns: int,
    conversation: bool,                           // the Investigation belongs to a Conversation
    scopeVerified: bool,                          // its origin was read and is whole
    messages: Option<nat>,                        // how many assigned Messages were read
    orientation: Option<Orientation>,             // None: the connected sources could not be read
    cancelled: nat -> bool,                       // by turn: ctx.Err()
    timeAlmostOver: nat -> bool,                  // by turn: wallClockAlmostOver
    complete: nat -> Answer,                      // by model call
    stored: nat -> Option<set<EvidenceRef>>,      // by evidence check: the successful runs then held
    history: (nat, int) -> Option<HistoryPage>,   // by history read and cursor
    execute: nat -> Executed,                     // by tool execution
    recordFails: nat -> bool,                     // by recorded run
    rendered: Orientation -> nat,                 // len(renderOrientation(o))
    sizes: Sizes,                                 // what encoding a history page takes
    redactor: nat -> Redactor)                    // by recorded run: takes out the credentials opened by then

  function MaxRuns(env: Environment): (n: nat)
    ensures n > 0
  {
    if env.maxToolRuns <= 0 then DEFAULT_MAX_TOOL_RUNS else env.maxToolRuns
  }

  function MaxTurns(env: Environment): (n: nat)
    ensures n > 0
  {
    if env.maxTurns <= 0 then DEFAULT_MAX_TURNS else env.maxTurns
  }

  datatype Failure =
    | ScopeUnverified | MessagesUnreadable | MessagesMissing | SourcesUnreadable | Cancelled
    | ProviderFailed | ProviderRefused | Malformed | EvidenceUnverified | NoUsableAnswer
    | DidNotConclude | CredentialAuditFailed | RunNotRecorded

  /** The failures a turn can end with. */
  predicate InTurn(why: Failure) {
    why in {Cancelled, ProviderFailed, ProviderRefused, Malformed, EvidenceUnverified, NoUsableAnswer,
            CredentialAuditFailed, RunNotRecorded}
  }

  datatype TerminalWrite = Conclude(conclusion: Conclusion, stoppedBy: StoppedBy) | Fail(why: Failure)

  datatype Check = Check(refs: seq<EvidenceRef>, stored: Option<set<EvidenceRef>>)

  /** A tool was run: in which turn, for the run of which number, and for what. */
  datatype Execution = Execution(turn: nat, ordinal: nat, identity: string)

  /** No turn runs one identity twice. */
  predicate NoneTwice(executions: seq<Execution>) {
    forall i, j :: 0 <= i < j < |executions| ==>
      executions[i].turn != executions[j].turn || executions[i].identity != executions[j].identity
  }

  /** What became of a read: it was not run, it repeats run `original + 1` of its batch, or a tool was run for it. */
  datatype How = Dropped | Repeated(original: nat) | Performed(execution: nat)

  /** Where a recorded run comes from: the call asked for, the turn that asks it, and the run before it was prepared. */
  datatype Origin = Origin(turn: nat, place: nat, asked: ToolCall, raw: ToolRun, how: How)

  /** All a run did that anything outside it can see. */
  datatype Report = Report(
    writes: seq<TerminalWrite>, turns: nat, prompts: seq<Prompt>, runs: seq<ToolRun>, origins: seq<Origin>,
    executions: seq<Execution>, historyReads: nat, checks: seq<Check>, reductions: nat, transcript: seq<Turn>)

  // --- where recorded runs come from -----------------------------------------------------------

  /** The sources whose tools the run offers. */
  function Offered(env: Environment): seq<Source> {
    if env.orientation.Some? then env.orientation.value.sources else []
  }

  function RouteOf(env: Environment, call: ToolCall): Option<Source> {
    Route(Offered(env), call)
  }

  function IdentityOf(env: Environment, call: ToolCall): string {
    Identity(Routed(Offered(env), call))
  }

  /** One tool, source and arguments, asked in one turn. */
  predicate SameRead(env: Environment, a: Origin, b: Origin) {
    a.turn == b.turn && IdentityOf(env, a.asked) == IdentityOf(env, b.asked)
  }

  /** The run has the call's tool, arguments, purpose and source. */
  predicate RunFor(raw: ToolRun, asked: ToolCall, source: Option<Source>, ordinal: nat) {
    && raw.ordinal == ordinal && raw.tool == asked.tool && raw.arguments == asked.arguments
    && raw.purpose == asked.purpose && (source.Some? ==> raw.integration == source.value.integration)
  }

  /** A failed run with nothing in it but these words. */
  predicate Says(raw: ToolRun, summary: string, error: string) {
    && raw.outcome == RunFailed && raw.summary == summary && raw.error == error
    && raw.content.NoContent? && raw.window.None? && !raw.truncated
  }

  /** What the tool answered, all of it; or why it did not. */
  predicate CarriesAnswer(raw: ToolRun, offered: bool, answer: Executed) {
    if offered && answer.ToolAnswered? then
      && raw.outcome == RunSucceeded && raw.window == answer.window && raw.truncated == answer.truncated
      && raw.summary == answer.summary && raw.content == answer.content && raw.error == ""
    else Says(raw, "", WhyNot(offered, answer))
  }

  function WhyNot(offered: bool, answer: Executed): string {
    if !offered then NOT_OFFERED else if answer.ToolError? then answer.error else NOT_OPENED
  }

  function BudgetSpent(most: nat): string {
    "not executed: the investigation's read budget of " + Decimal(most) + " was exhausted"
  }

  function SeeAbove(ordinal: nat): string {
    IDENTICAL + Decimal(ordinal) + ALREADY_ABOVE
  }

  function UseItsResult(ordinal: nat): string {
    IDENTICAL + Decimal(ordinal) + USE_ITS_RESULT
  }

  /** Nothing this batch has run so far was the same read. */
  predicate NotRunBefore(env: Environment, origins: seq<Origin>, o: Origin) {
    forall k :: 0 <= k < |origins| && origins[k].how.Performed? ==> !SameRead(env, origins[k], o)
  }

  /** Made because the call is unusable, or, unless it repeats a run of its batch, because the budget is spent. */
  predicate IsDropped(env: Environment, origins: seq<Origin>, o: Origin, spent: bool) {
    if o.asked.error != Usable then Says(o.raw, Complaint(o.asked.error), Complaint(o.asked.error))
    else spent && NotRunBefore(env, origins, o) && Says(o.raw, BudgetSpent(MaxRuns(env)), BudgetSpent(MaxRuns(env)))
  }

  /** Names the run of its batch that it repeats, and shares its source. */
  predicate IsRepeat(env: Environment, origins: seq<Origin>, o: Origin, k: nat) {
    && o.asked.error == Usable && k < |origins| && origins[k].how.Performed? && SameRead(env, origins[k], o)
    && Says(o.raw, SeeAbove(k + 1), UseItsResult(k + 1))
    && (RouteOf(env, o.asked).None? ==> o.raw.integration == origins[k].raw.integration)
  }

  /** Made by an execution, and carries its answer. */
  predicate IsPerformed(env: Environment, executions: seq<Execution>, o: Origin, ordinal: nat, e: nat) {
    && o.asked.error == Usable && e < |executions|
    && executions[e] == Execution(o.turn, ordinal, IdentityOf(env, o.asked))
    && CarriesAnswer(o.raw, RouteOf(env, o.asked).Some?, env.execute(e))
    && (RouteOf(env, o.asked).None? ==> o.raw.integration == "")
  }

  /** After the runs of `origins`, one more is made as `o` says. */
  predicate Made(env: Environment, executions: seq<Execution>, origins: seq<Origin>, o: Origin, spent: bool) {
    var way :=
      match o.how
      case Dropped => IsDropped(env, origins, o, spent)
      case Repeated(k) => IsRepeat(env, origins, o, k)
      case Performed(e) => IsPerformed(env, executions, o, |origins| + 1, e);
    way && RunFor(o.raw, o.asked, RouteOf(env, o.asked), |origins| + 1)
  }

  /** Run i + 1 was made as its origin says, and what was recorded is that run, prepared. */
  ghost predicate Entry(
      env: Environment, executions: seq<Execution>, origins: seq<Origin>, runs: seq<ToolRun>, spent: bool, i: nat) {
    && i < |origins| && i < |runs|
    && Made(env, executions, origins[..i], origins[i], spent)
    && PreparedFrom(runs[i], origins[i].raw, env.redactor(i))
  }

  ghost predicate Ledger(
      env: Environment, executions: seq<Execution>, origins: seq<Origin>, runs: seq<ToolRun>, spent: bool) {
    |origins| == |runs| && forall i :: 0 <= i < |runs| ==> Entry(env, executions, origins, runs, spent, i)
  }

  /** Every execution whose run was recorded is the one that run was made by. */
  predicate Placed(executions: seq<Execution>, origins: seq<Origin>) {
    forall e :: 0 <= e < |executions| ==>
      && 1 <= executions[e].ordinal
      && (executions[e].ordinal <= |origins| ==> origins[executions[e].ordinal - 1].how == Performed(e))
  }

  /** Every execution has its run among the first n. */
  predicate AllRecorded(executions: seq<Execution>, n: nat) {
    forall e :: 0 <= e < |executions| ==> executions[e].ordinal <= n
  }

  lemma {:induction false} MadeStands(
      env: Environment, executions: seq<Execution>, more: seq<Execution>, origins: seq<Origin>, o: Origin,
      spent: bool, later: bool)
    requires Made(env, executions, origins, o, spent) && executions <= more && (spent ==> later)
    ensures Made(env, more, origins, o, later)
  {
    assert o.how.Performed? ==> more[o.how.execution] == executions[o.how.execution];
  }

  lemma {:induction false} LedgerStands(
      env: Environment, executions: seq<Execution>, more: seq<Execution>, origins: seq<Origin>, runs: seq<ToolRun>,
      spent: bool, later: bool)
    requires Ledger(env, executions, origins, runs, spent) && executions <= more && (spent ==> later)
    ensures Ledger(env, more, origins, runs, later)
  {
    forall i | 0 <= i < |runs| ensures Entry(env, more, origins, runs, later, i) {
      assert Entry(env, executions, origins, runs, spent, i);
      MadeStands(env, executions, more, origins[..i], origins[i], spent, later);
    }
  }

  /** What was recorded as run k + 1 has that number, and the source of the run it was made from. */
  lemma {:induction false} RecordedAs(
      env: Environment, executions: seq<Execution>, origins: seq<Origin>, runs: seq<ToolRun>, spent: bool, k: nat)
    requires Ledger(env, executions, origins, runs, spent) && k < |runs|
    ensures runs[k].ordinal == k + 1 && runs[k].integration == origins[k].raw.integration
  {
    assert Entry(env, executions, origins, runs, spent, k);
  }

  lemma {:induction false} LedgerIsNumbered(
      env: Environment, executions: seq<Execution>, origins: seq<Origin>, runs: seq<ToolRun>, spent: bool)
    requires Ledger(env, executions, origins, runs, spent)
    ensures Numbered(runs)
  {
    forall i | 0 <= i < |runs| ensures runs[i].ordinal == i + 1 && Prepared(runs[i]) {
      RecordedAs(env, executions, origins, runs, spent, i);
      assert Entry(env, executions, origins, runs, spent, i);
    }
  }

  /** An identity that no execution of the turn has was not run before in it. */
  lemma {:induction false} NotRunYet(
      env: Environment, executions: seq<Execution>, origins: seq<Origin>, runs: seq<ToolRun>, spent: bool, o: Origin)
    requires Ledger(env, executions, origins, runs, spent)
    requires forall e :: 0 <= e < |executions| && executions[e].turn == o.turn ==>
               executions[e].identity != IdentityOf(env, o.asked)
    ensures NotRunBefore(env, origins, o)
  {
    forall k | 0 <= k < |origins| && origins[k].how.Performed? ensures !SameRead(env, origins[k], o) {
      assert Entry(env, executions, origins, runs, spent, k);
    }
  }

  /** Only `o` is still to be recorded for an execution. */
  predicate Owed(executions: seq<Execution>, origins: seq<Origin>, o: Origin) {
    forall e :: 0 <= e < |executions| && executions[e].ordinal > |origins| ==>
      executions[e].ordinal == |origins| + 1 && o.how == Performed(e)
  }

  lemma {:induction false} PlacedGrows(executions: seq<Execution>, origins: seq<Origin>, o: Origin)
    requires Placed(executions, origins) && Owed(executions, origins, o)
    ensures Placed(executions, origins + [o]) && AllRecorded(executions, |origins| + 1)
  {
  }

  lemma {:induction false} LedgerGrows(
      env: Environment, executions: seq<Execution>, origins: seq<Origin>, runs: seq<ToolRun>, spent: bool,
      o: Origin, run: ToolRun)
    requires Ledger(env, executions, origins, runs, spent)
    requires Made(env, executions, origins, o, spent) && PreparedFrom(run, o.raw, env.redactor(|runs|))
    ensures Ledger(env, executions, origins + [o], runs + [run], spent)
  {
    var all, recorded := origins + [o], runs + [run];
    forall i | 0 <= i < |recorded| ensures Entry(env, executions, all, recorded, spent, i) {
      if i < |runs| {
        assert Entry(env, executions, origins, runs, spent, i);
        assert all[..i] == origins[..i] && all[i] == origins[i] && recorded[i] == runs[i];
      } else {
        assert all[..i] == origins && all[i] == o && recorded[i] == run;
      }
    }
  }

  // --- what a run keeps ------------------------------------------------------------------------

  /** Ordinals are exactly 1..n in record order, and every recorded run is bounded and observable. */
  predicate Numbered(runs: seq<ToolRun>) {
    forall i :: 0 <= i < |runs| ==> runs[i].ordinal == i + 1 && Prepared(runs[i])
  }

  /** Model calls in order: at most two per turn, none past turn `last`. */
  predicate Scheduled(prompts: seq<Prompt>, last: nat) {
    && (forall i :: 0 <= i < |prompts| ==> 1 <= prompts[i].turn <= last && prompts[i].attempt <= 1)
    && (forall i, j :: 0 <= i < j < |prompts| ==>
          prompts[i].turn < prompts[j].turn
          || (prompts[i].turn == prompts[j].turn && prompts[i].attempt < prompts[j].attempt))
  }

  /** All of `prompts` were sent before attempt `attempt` of turn `turn`. */
  predicate SentBefore(prompts: seq<Prompt>, turn: nat, attempt: nat) {
    && Scheduled(prompts, turn)
    && forall i :: 0 <= i < |prompts| ==> prompts[i].turn < turn || prompts[i].attempt < attempt
  }

  ghost predicate FaithfulAt(prompts: seq<Prompt>, i: nat) {
    i < |prompts| && Faithful(prompts[i])
  }

  ghost predicate AllFaithful(prompts: seq<Prompt>) {
    forall i :: 0 <= i < |prompts| ==> FaithfulAt(prompts, i)
  }

  /** The calls of the first `k` answers that were neither errors, refusals nor truncations. */
  function UsableAnswers(env: Environment, k: nat): seq<seq<CompletionCall>> {
    if k == 0 then []
    else
      var answer := env.complete(k - 1);
      if answer.Completion? && answer.stop !in {Refused, Truncated} then UsableAnswers(env, k - 1) + [answer.calls]
      else UsableAnswers(env, k - 1)
  }

  function CallsOf(turns: seq<Turn>): seq<seq<CompletionCall>> {
    seq(|turns|, i requires 0 <= i < |turns| => turns[i].calls)
  }

  /** Every prompt carries every usable answer given before it, in order. */
  predicate AllRemembered(env: Environment, prompts: seq<Prompt>) {
    forall i :: 0 <= i < |prompts| ==> CallsOf(prompts[i].turns) == UsableAnswers(env, i)
  }

  /** The instruction that the prompt ends with. */
  function LastInstruction(p: Prompt): Option<Instruction> {
    var last := if p.turns == [] then p.opening else p.turns[|p.turns| - 1].instructions;
    if last == [] then None else Some(last[|last| - 1])
  }

  predicate ToldToConclude(p: Prompt) {
    LastInstruction(p).Some? && LastInstruction(p).value.ConcludeNow?
  }

  /** The prompt is about what the run was given, or that reduced, and offers its tools unless it must conclude. */
  predicate Shaped(env: Environment, p: Prompt) {
    && env.orientation.Some?
    && (p.orientation == env.orientation.value || p.orientation == Reduce(env.orientation.value))
    && p.tools == (if p.forced then [CONCLUDE_TOOL] else ExchangeTools(p.orientation))
    && (p.forced ==> ToldToConclude(p))
  }

  predicate ShapedAt(env: Environment, prompts: seq<Prompt>, i: nat) {
    i < |prompts| && Shaped(env, prompts[i])
  }

  predicate AllShaped(env: Environment, prompts: seq<Prompt>) {
    forall i :: 0 <= i < |prompts| ==> ShapedAt(env, prompts, i)
  }

  predicate AllSent(env: Environment, prompts: seq<Prompt>) {
    var remembered, shaped := AllRemembered(env, prompts), AllShaped(env, prompts);
    remembered && shaped
  }

  /** All prompts so far are faithful, remember every usable answer, and were sent before this attempt. */
  ghost predicate Sent(env: Environment, prompts: seq<Prompt>, turn: nat, attempt: nat) {
    var faithful, remembered := AllFaithful(prompts), AllSent(env, prompts);
    var before := SentBefore(prompts, turn, attempt);
    faithful && remembered && before
  }

  ghost predicate Composed(env: Environment, p: Prompt) {
    var faithful, shaped := Faithful(p), Shaped(env, p);
    faithful && shaped
  }

  /** A prompt of what the run was given, or that reduced, has its shape. */
  lemma {:induction false} PromptIsShaped(
      env: Environment, turn: nat, attempt: nat, o: Orientation, transcript: seq<Turn>, forced: bool,
      stoppedBy: StoppedBy, allowed: seq<EvidenceRef>)
    requires env.orientation.Some? && (o == env.orientation.value || o == Reduce(env.orientation.value))
    ensures Shaped(env, ModelPrompt(turn, attempt, o, transcript, forced, stoppedBy, allowed))
    ensures var prompt := ModelPrompt(turn, attempt, o, transcript, forced, stoppedBy, allowed);
            forced ==> LastInstruction(prompt) == Some(ConcludeNow(stoppedBy, |Offered(env)|))
  {
  }

  lemma {:induction false} PromptKeepsTurns(
      turn: nat, attempt: nat, o: Orientation, transcript: seq<Turn>, forced: bool, stoppedBy: StoppedBy,
      allowed: seq<EvidenceRef>)
    ensures var turns := ModelPrompt(turn, attempt, o, transcript, forced, stoppedBy, allowed).turns;
            CallsOf(turns) == CallsOf(transcript) && Extends(turns, transcript)
  {
    var turns := ModelPrompt(turn, attempt, o, transcript, forced, stoppedBy, allowed).turns;
    assert |turns| == |transcript|;
    assert forall i :: 0 <= i < |turns| ==>
        turns[i].calls == transcript[i].calls && turns[i].results == transcript[i].results;
    assert CallsOf(turns) == CallsOf(transcript);
  }

  lemma {:induction false} SendKeeps(env: Environment, prompts: seq<Prompt>, prompt: Prompt)
    requires Sent(env, prompts, prompt.turn, prompt.attempt)
    requires Composed(env, prompt) && CallsOf(prompt.turns) == UsableAnswers(env, |prompts|)
    requires 1 <= prompt.turn && prompt.attempt <= 1
    ensures Sent(env, prompts + [prompt], prompt.turn, prompt.attempt + 1)
  {
    ShapedMore(env, prompts, prompt);
    RememberedMore(env, prompts, prompt);
    SentBeforeMore(prompts, prompt);
    FaithfulMore(prompts, prompt);
  }

  lemma {:induction false} ShapedMore(env: Environment, prompts: seq<Prompt>, prompt: Prompt)
    requires AllShaped(env, prompts) && Shaped(env, prompt)
    ensures AllShaped(env, prompts + [prompt])
  {
    var all := prompts + [prompt];
    forall i | 0 <= i < |all| ensures ShapedAt(env, all, i) {
      if i < |prompts| { assert ShapedAt(env, prompts, i) && all[i] == prompts[i]; }
    }
  }

  lemma {:induction false} RememberedMore(env: Environment, prompts: seq<Prompt>, prompt: Prompt)
    requires AllRemembered(env, prompts) && CallsOf(prompt.turns) == UsableAnswers(env, |prompts|)
    ensures AllRemembered(env, prompts + [prompt])
  {
    var all := prompts + [prompt];
    assert forall i :: 0 <= i < |prompts| ==> all[i] == prompts[i];
  }

  lemma {:induction false} FaithfulMore(prompts: seq<Prompt>, prompt: Prompt)
    requires AllFaithful(prompts) && Faithful(prompt)
    ensures AllFaithful(prompts + [prompt])
  {
    var all := prompts + [prompt];
    forall i | 0 <= i < |all| ensures FaithfulAt(all, i) {
      if i < |prompts| { assert FaithfulAt(prompts, i) && all[i] == prompts[i]; }
    }
  }

  lemma {:induction false} SentBeforeMore(prompts: seq<Prompt>, prompt: Prompt)
    requires SentBefore(prompts, prompt.turn, prompt.attempt) && 1 <= prompt.turn && prompt.attempt <= 1
    ensures SentBefore(prompts + [prompt], prompt.turn, prompt.attempt + 1)
  {
    var all := prompts + [prompt];
    assert forall i :: 0 <= i < |prompts| ==> all[i] == prompts[i];
  }

  /** The run holds a prior reference as evidence, a notice of missing evidence, or an observation by a recorded run. */
  predicate Held(refs: seq<EvidenceRef>, runs: seq<ToolRun>, noticed: bool, item: Item) {
    match item
    case Reference(ref) => ref in refs
    case Notice => noticed
    case Seen(text) => exists k :: 0 <= k < |runs| && runs[k].observation == Some(text)
  }

  lemma {:induction false} RecordedIsHeld(refs: seq<EvidenceRef>, runs: seq<ToolRun>, noticed: bool, run: ToolRun)
    requires run.observation.Some?
    ensures forall item :: Held(refs, runs + [run], noticed, item)
                           <==> Held(refs, runs, noticed, item) || item == Seen(run.observation.value)
  {
    var more := runs + [run];
    assert more[|runs|] == run;
    forall item | Held(refs, runs, noticed, item) ensures Held(refs, more, noticed, item) {
      if item.Seen? {
        var k :| 0 <= k < |runs| && runs[k].observation == Some(item.observation);
        assert more[k] == runs[k];
      }
    }
  }

  /** What a run holds as evidence. */
  datatype Evidence = Evidence(refs: seq<EvidenceRef>, runs: seq<ToolRun>, noticed: bool)

  predicate HeldIn(e: Evidence, item: Item) {
    Held(e.refs, e.runs, e.noticed, item)
  }

  /** An answer adds to the evidence just what it shows. */
  ghost predicate Gains(e: Evidence, later: Evidence, content: ResultContent) {
    forall item :: HeldIn(later, item) <==> HeldIn(e, item) || ContentShows(content, item)
  }

  /** The evidence is what the transcript shows plus what the pending answers will. */
  ghost predicate ShownBy(e: Evidence, turns: seq<Turn>, results: seq<ToolResult>) {
    forall item :: HeldIn(e, item) <==> TurnsShow(turns, item) || ResultsShow(results, item)
  }

  ghost predicate ExactlyShown(refs: seq<EvidenceRef>, runs: seq<ToolRun>, noticed: bool, turns: seq<Turn>) {
    forall item :: Held(refs, runs, noticed, item) <==> TurnsShow(turns, item)
  }

  /** The prompt shows the observations of all recorded runs and no others. */
  ghost predicate Informed(prompt: Prompt, runs: seq<ToolRun>) {
    forall text :: TurnsShow(prompt.turns, Seen(text)) <==> Held([], runs, false, Seen(text))
  }

  /** Evidence was found missing for the brief the run began with, or for a page the prompt shows. */
  predicate DisclosureDue(env: Environment, prompt: Prompt) {
    BeganIncomplete(env) || TurnsShow(prompt.turns, Notice)
  }

  /** What answers are traced to: recorded runs with where they come from, and how many history reads there were. */
  datatype Ground = Ground(runs: seq<ToolRun>, origins: seq<Origin>, fetches: nat)

  predicate GrewFrom(g: Ground, later: Ground) {
    var runs, origins := g.runs <= later.runs, g.origins <= later.origins;
    runs && origins && g.fetches <= later.fetches
  }

  /** The call is one of the turn's reads, decoded. */
  predicate Requested(asked: ToolCall, calls: seq<CompletionCall>) {
    exists c :: c in calls && !IsConclude(c) && Decoded(c) == asked
  }

  predicate Names(calls: seq<CompletionCall>, id: string, name: string) {
    exists c :: c in calls && c.id == id && c.name == name
  }

  /** The fault is one that an answer with these calls can have. */
  predicate Blames(why: Invalid, calls: seq<CompletionCall>) {
    match why
    case ReadsUnavailable => Reads(calls) != []
    case NotOneConclusion => Reads(calls) == [] && |Concludes(calls)| != 1
    case _ => Reads(calls) == [] && |Concludes(calls)| == 1
  }

  /** A note says why there is no answer: a conclusion waits for reads, an answer is invalid, history is unavailable. */
  predicate NoteGrounded(result: ToolResult, calls: seq<CompletionCall>) {
    match result.content
    case FinalizationDeferred => result.isError && Names(calls, result.callId, CONCLUDE_TOOL)
    case HistoryUnavailable(_) => result.isError && Names(calls, result.callId, HISTORY_TOOL)
    case InvalidAnswer(why) => result.isError && Blames(why, calls)
    case _ => false
  }

  /** The page is what read `read` got from the store for the cursor, bounded and within its budget. */
  ghost predicate FromStore(env: Environment, page: HistoryPage, read: nat, cursor: Option<int>) {
    && cursor.Some? && env.history(read, cursor.value).Some? && Fits(page, env.sizes)
    && Delivers(Reserved(env.history(read, cursor.value).value), page, env.sizes)
  }

  /** The page answers a history call of the turn with what the store gave for its own cursor. */
  ghost predicate PageGrounded(
      env: Environment, page: HistoryPage, id: string, calls: seq<CompletionCall>, fetches: nat) {
    exists c, read :: c in calls && c.id == id && c.name == HISTORY_TOOL && 0 <= read < fetches
                      && FromStore(env, page, read, c.arguments.beforeSequence)
  }

  /** The run was made for the call with this ID, a read of turn `place`, and failed iff the answer says so. */
  predicate AnswersCall(o: Origin, run: ToolRun, result: ToolResult, calls: seq<CompletionCall>, place: nat) {
    && o.place == place && o.asked.id == result.callId && Requested(o.asked, calls)
    && result.isError == (run.outcome == RunFailed)
  }

  predicate RunGrounded(result: ToolResult, text: string, calls: seq<CompletionCall>, place: nat, g: Ground) {
    exists k :: 0 <= k < |g.runs| && k < |g.origins| && g.runs[k].observation == Some(text)
                && AnswersCall(g.origins[k], g.runs[k], result, calls, place)
  }

  /** An answer in turn `place` is a note, a page from the store, or the observation of the run made for its call. */
  ghost predicate ResultGrounded(
      result: ToolResult, calls: seq<CompletionCall>, place: nat, env: Environment, g: Ground) {
    match result.content
    case HistoryShown(page) => !result.isError && PageGrounded(env, page, result.callId, calls, g.fetches)
    case ObservationShown(text) => RunGrounded(result, text, calls, place, g)
    case _ => NoteGrounded(result, calls)
  }

  ghost predicate GroundedAt(
      results: seq<ToolResult>, i: nat, calls: seq<CompletionCall>, place: nat, env: Environment, g: Ground) {
    i < |results| && ResultGrounded(results[i], calls, place, env, g)
  }

  ghost predicate ResultsGrounded(
      results: seq<ToolResult>, calls: seq<CompletionCall>, place: nat, env: Environment, g: Ground) {
    forall i :: 0 <= i < |results| ==> GroundedAt(results, i, calls, place, env, g)
  }

  ghost predicate TurnGrounded(turns: seq<Turn>, i: nat, env: Environment, g: Ground) {
    i < |turns| && ResultsGrounded(turns[i].results, turns[i].calls, i, env, g)
  }

  ghost predicate TurnsGrounded(turns: seq<Turn>, env: Environment, g: Ground) {
    forall i :: 0 <= i < |turns| ==> TurnGrounded(turns, i, env, g)
  }

  /** `after` keeps every turn of `before`, with its calls and at least its answers. */
  predicate Extends(before: seq<Turn>, after: seq<Turn>) {
    && |before| <= |after|
    && forall k :: 0 <= k < |before| ==> before[k].calls == after[k].calls && before[k].results <= after[k].results
  }

  predicate AllExtended(prompts: seq<Prompt>, turns: seq<Turn>) {
    forall i :: 0 <= i < |prompts| ==> Extends(prompts[i].turns, turns)
  }

  lemma {:induction false} GroundedLater(
      result: ToolResult, calls: seq<CompletionCall>, place: nat, env: Environment, g: Ground, later: Ground)
    requires GrewFrom(g, later) && ResultGrounded(result, calls, place, env, g)
    ensures ResultGrounded(result, calls, place, env, later)
  {
    match result.content {
      case ObservationShown(text) =>
        var k :| 0 <= k < |g.runs| && k < |g.origins| && g.runs[k].observation == Some(text)
                 && AnswersCall(g.origins[k], g.runs[k], result, calls, place);
        assert later.runs[k] == g.runs[k] && later.origins[k] == g.origins[k];
      case HistoryShown(page) =>
        var c, read :| c in calls && c.id == result.callId && c.name == HISTORY_TOOL && 0 <= read < g.fetches
                       && FromStore(env, page, read, c.arguments.beforeSequence);
        assert 0 <= read < later.fetches;
      case _ =>
    }
  }

  lemma {:induction false} ResultsGroundedLater(
      results: seq<ToolResult>, calls: seq<CompletionCall>, place: nat, env: Environment, g: Ground, later: Ground)
    requires GrewFrom(g, later) && ResultsGrounded(results, calls, place, env, g)
    ensures ResultsGrounded(results, calls, place, env, later)
  {
    forall i | 0 <= i < |results| ensures GroundedAt(results, i, calls, place, env, later) {
      assert GroundedAt(results, i, calls, place, env, g);
      GroundedLater(results[i], calls, place, env, g, later);
    }
  }

  lemma {:induction false} TurnsGroundedLater(turns: seq<Turn>, env: Environment, g: Ground, later: Ground)
    requires GrewFrom(g, later) && TurnsGrounded(turns, env, g)
    ensures TurnsGrounded(turns, env, later)
  {
    forall i | 0 <= i < |turns| ensures TurnGrounded(turns, i, env, later) {
      assert TurnGrounded(turns, i, env, g);
      ResultsGroundedLater(turns[i].results, turns[i].calls, i, env, g, later);
    }
  }

  predicate NotesOnly(turn: Turn) {
    forall i :: 0 <= i < |turn.results| ==> NoteGrounded(turn.results[i], turn.calls)
  }

  /** Nothing was added, or one turn whose answers so far are notes. */
  predicate GrewByNotes(before: seq<Turn>, after: seq<Turn>) {
    || after == before
    || (|after| == |before| + 1 && after[..|before|] == before && NotesOnly(after[|before|]))
  }

  /** One more prompt was sent, of what the transcript held. */
  predicate SentOne(before: seq<Prompt>, after: seq<Prompt>, transcript: seq<Turn>) {
    |after| == |before| + 1 && after[..|before|] == before && Extends(after[|before|].turns, transcript)
  }

  lemma {:induction false} GrownExtends(before: seq<Turn>, after: seq<Turn>, env: Environment, g: Ground)
    requires GrewByNotes(before, after)
    ensures Extends(before, after)
    ensures TurnsGrounded(before, env, g) ==> TurnsGrounded(after, env, g)
  {
    assert forall k :: 0 <= k < |before| ==> after[k] == before[k];
    if TurnsGrounded(before, env, g) {
      forall i | 0 <= i < |after| ensures TurnGrounded(after, i, env, g) {
        if i == |before| {
          NotesAreGrounded(after[i], i, env, g);
        } else {
          assert TurnGrounded(before, i, env, g);
        }
      }
    }
  }

  lemma NotesAreGrounded(turn: Turn, place: nat, env: Environment, g: Ground)
    requires NotesOnly(turn)
    ensures ResultsGrounded(turn.results, turn.calls, place, env, g)
  {
    forall i | 0 <= i < |turn.results| ensures GroundedAt(turn.results, i, turn.calls, place, env, g) {
    }
  }

  lemma {:induction false} AttemptKeepsGround(
      prompts: seq<Prompt>, sent: seq<Prompt>, held: seq<Turn>, transcript: seq<Turn>, env: Environment, g: Ground)
    requires TurnsGrounded(held, env, g) && AllExtended(prompts, held)
    requires SentOne(prompts, sent, held) && GrewByNotes(held, transcript)
    ensures TurnsGrounded(transcript, env, g) && AllExtended(sent, transcript)
  {
    GrownExtends(held, transcript, env, g);
    forall i | 0 <= i < |sent| ensures Extends(sent[i].turns, transcript) {
      if i < |prompts| { assert sent[i] == prompts[i]; }
      ExtendsThrough(sent[i].turns, held, transcript);
    }
  }

  lemma {:induction false} GroundedTogether(
      a: seq<ToolResult>, b: seq<ToolResult>, calls: seq<CompletionCall>, place: nat, env: Environment, g: Ground)
    requires ResultsGrounded(a, calls, place, env, g) && ResultsGrounded(b, calls, place, env, g)
    ensures ResultsGrounded(a + b, calls, place, env, g)
  {
    forall i | 0 <= i < |a + b| ensures GroundedAt(a + b, i, calls, place, env, g) {
      if i < |a| {
        assert GroundedAt(a, i, calls, place, env, g);
      } else {
        assert GroundedAt(b, i - |a|, calls, place, env, g);
      }
    }
  }

  lemma {:induction false} DeliveryKeepsGround(
      prompts: seq<Prompt>, transcript: seq<Turn>, results: seq<ToolResult>, env: Environment, g: Ground)
    requires transcript != [] && TurnsGrounded(transcript, env, g) && AllExtended(prompts, transcript)
    requires ResultsGrounded(results, transcript[|transcript| - 1].calls, |transcript| - 1, env, g)
    ensures TurnsGrounded(Delivered(transcript, results), env, g)
    ensures AllExtended(prompts, Delivered(transcript, results))
  {
    var n := |transcript| - 1;
    var after := Delivered(transcript, results);
    forall i | 0 <= i < |after| ensures TurnGrounded(after, i, env, g) {
      assert TurnGrounded(transcript, i, env, g);
      if i == n { GroundedTogether(transcript[n].results, results, transcript[n].calls, n, env, g); }
    }
    assert Extends(transcript, after);
    forall i | 0 <= i < |prompts| ensures Extends(prompts[i].turns, after) {
      assert Extends(prompts[i].turns, transcript);
      ExtendsThrough(prompts[i].turns, transcript, after);
    }
  }

  lemma {:induction false} ExtendsThrough(a: seq<Turn>, b: seq<Turn>, c: seq<Turn>)
    requires Extends(a, b) && Extends(b, c)
    ensures Extends(a, c)
  {
    forall k | 0 <= k < |a| ensures a[k].calls == c[k].calls && a[k].results <= c[k].results {
      assert a[k].results <= b[k].results && b[k].results <= c[k].results;
    }
  }

  function EvidenceOf(findings: seq<Finding>): seq<EvidenceRef> {
    if findings == [] then []
    else EvidenceOf(findings[..|findings| - 1]) + findings[|findings| - 1].evidenceRefs
  }

  method CitedEvidence(findings: seq<Finding>) returns (refs: seq<EvidenceRef>)
    ensures refs == EvidenceOf(findings)
  {
    refs := [];
    for i := 0 to |findings|
      invariant refs == EvidenceOf(findings[..i])
    {
      assert findings[..i + 1][..i] == findings[..i];
      refs := refs + findings[i].evidenceRefs;
    }
    assert findings[..|findings|] == findings;
  }

  /** The prior references of `c` were looked up last, and every one was held then. */
  predicate CheckedPresent(c: Conclusion, checks: seq<Check>) {
    var refs := EvidenceOf(c.findings);
    refs != [] ==>
      && checks != []
      && var check := checks[|checks| - 1];
         check.refs == refs && check.stored.Some? && forall ref :: ref in refs ==> ref in check.stored.value
  }

  /** How a lone conclude call is judged. */
  datatype Verdict = Accepted(conclusion: Conclusion) | Unsure | Faulty(why: Invalid)

  /**
   Accepted is what was stated, if sound and its citations held; faulty only if unsound or found to cite what is
   missing.
   */
  predicate Judged(
      verdict: Verdict, stated: Option<Conclusion>, runs: seq<ToolRun>, allowed: seq<EvidenceRef>,
      checks: seq<Check>) {
    var sound := stated.Some? && Sound(stated.value, runs, allowed);
    match verdict
    case Accepted(c) => sound && stated == Some(c) && CheckedPresent(c, checks)
    case Unsure => sound && CitesUnknown(stated.value, checks)
    case Faulty(why) =>
      if sound then why == UnavailablePriorEvidence && CitesMissing(stated.value, checks) else why == BadConclusion
  }

  /** The answer states `c` by a lone conclude call, and `c` is sound and its citations held. */
  predicate Approved(c: Conclusion, answer: Answer, prompt: Prompt, runs: seq<ToolRun>, checks: seq<Check>) {
    match answer
    case ProviderError(_) => false
    case Completion(_, calls) =>
      && Reads(calls) == [] && |Concludes(calls)| == 1
      && Stated(Concludes(calls)[0].arguments.document) == Some(c)
      && Sound(c, runs, prompt.allowed) && CheckedPresent(c, checks)
  }

  lemma {:induction false} VerdictDecides(
      verdict: Verdict, calls: seq<CompletionCall>, call: CompletionCall, prompt: Prompt,
      runs: seq<ToolRun>, checks: seq<Check>)
    requires Reads(calls) == [] && Concludes(calls) == [call]
    requires Judged(verdict, Stated(call.arguments.document), runs, prompt.allowed, checks)
    ensures verdict.Unsure? <==> Unverified(calls, prompt, runs, checks)
    ensures verdict.Faulty? ==> !Acceptable(calls, prompt, runs, checks)
    ensures verdict.Accepted? ==> Acceptable(calls, prompt, runs, checks)
  {
    if verdict.Accepted? { PresentIsKnown(verdict.conclusion, checks); }
  }

  lemma {:induction false} PresentIsKnown(c: Conclusion, checks: seq<Check>)
    requires CheckedPresent(c, checks)
    ensures !CitesMissing(c, checks) && !CitesUnknown(c, checks)
  {
    assert EvidenceOf(c.findings) != [] && checks != [] ==> checks[|checks| - 1].stored.Some?;
  }

  /** The model stated `c` by a lone conclude call; the run has only added the missing-evidence notice, where due. */
  predicate StatedBy(answer: Answer, c: Conclusion, due: bool) {
    && answer.Completion? && Reads(answer.calls) == [] && |Concludes(answer.calls)| == 1
    && var stated := Stated(Concludes(answer.calls)[0].arguments.document);
       stated.Some? && OnlyMarked(c, stated.value, due)
  }

  /** `marked` is `c`, with the missing-evidence notice added if it is due and `c` does not carry it. */
  predicate OnlyMarked(marked: Conclusion, c: Conclusion, due: bool) {
    if due && !DisclosesMissingEvidence(c) then marked == c.(limitations := c.limitations + [MISSING_EVIDENCE])
    else marked == c
  }

  /** What any written conclusion satisfies. */
  ghost predicate WellSupported(
      c: Conclusion, env: Environment, runs: seq<ToolRun>, prompts: seq<Prompt>, checks: seq<Check>) {
    && prompts != []
    && StatedBy(env.complete(|prompts| - 1), c, DisclosureDue(env, prompts[|prompts| - 1]))
    && (DisclosureDue(env, prompts[|prompts| - 1]) ==> DisclosesMissingEvidence(c))
    && Sound(c, runs, prompts[|prompts| - 1].allowed) && CheckedPresent(c, checks)
    && Informed(prompts[|prompts| - 1], runs)
  }

  /** No retry was left for a provider error: a first context rejection could neither be met with less nor forced. */
  predicate Unrecoverable(answer: Answer, env: Environment, prompt: Prompt) {
    && answer.ProviderError?
    && (prompt.attempt == 0 && answer.contextWindow ==>
          && env.rendered(Reduce(prompt.orientation)) >= env.rendered(prompt.orientation)
          && (prompt.forced || |prompt.tools| <= 1))
  }

  /** The lone conclude call states a conclusion that is sound and not found to cite missing evidence. */
  predicate Acceptable(calls: seq<CompletionCall>, prompt: Prompt, runs: seq<ToolRun>, checks: seq<Check>) {
    && Reads(calls) == [] && |Concludes(calls)| == 1
    && var stated := Stated(Concludes(calls)[0].arguments.document);
       stated.Some? && Sound(stated.value, runs, prompt.allowed) && !CitesMissing(stated.value, checks)
  }

  predicate CitesMissing(c: Conclusion, checks: seq<Check>) {
    && EvidenceOf(c.findings) != [] && checks != []
    && var check := checks[|checks| - 1];
       check.refs == EvidenceOf(c.findings) && check.stored.Some? && FoundMissing(check)
  }

  /**
   The lone conclude call states a sound conclusion whose prior evidence was looked up, and the store could not say.
   */
  predicate Unverified(calls: seq<CompletionCall>, prompt: Prompt, runs: seq<ToolRun>, checks: seq<Check>) {
    && Reads(calls) == [] && |Concludes(calls)| == 1
    && var stated := Stated(Concludes(calls)[0].arguments.document);
       stated.Some? && Sound(stated.value, runs, prompt.allowed) && CitesUnknown(stated.value, checks)
  }

  predicate CitesUnknown(c: Conclusion, checks: seq<Check>) {
    && EvidenceOf(c.findings) != [] && checks != []
    && checks[|checks| - 1] == Check(EvidenceOf(c.findings), None)
  }

  lemma NotLoneIsUnfit(calls: seq<CompletionCall>, prompt: Prompt, runs: seq<ToolRun>, checks: seq<Check>)
    requires Reads(calls) != [] || |Concludes(calls)| != 1
    ensures StandingOf(calls, prompt, runs, checks) == Unfit
  {
  }

  function StandingBy(verdict: Verdict): Standing {
    match verdict
    case Accepted(_) => Concluding
    case Unsure => Undecided
    case Faulty(_) => Unfit
  }

  /** How an answer that should conclude stands. */
  datatype Standing = Concluding | Undecided | Unfit

  function StandingOf(calls: seq<CompletionCall>, prompt: Prompt, runs: seq<ToolRun>, checks: seq<Check>): Standing {
    if Unverified(calls, prompt, runs, checks) then Undecided
    else if Acceptable(calls, prompt, runs, checks) then Concluding
    else Unfit
  }

  /** What an answer that should conclude leads to. */
  predicate FinalStep(step: Step, attempt: nat, standing: Standing) {
    match standing
    case Undecided => step == Settle(GiveUp(EvidenceUnverified))
    case Concluding => step.Settle? && step.move.Finish?
    case Unfit => step == if attempt == 1 then Settle(GiveUp(Malformed)) else Again(true)
  }

  /** What a usable answer leads to: an end, the reads it asked for, or what a final answer leads to. */
  predicate AnswerStep(step: Step, attempt: nat, forced: bool, calls: seq<CompletionCall>, prompt: Prompt,
                       runs: seq<ToolRun>, checks: seq<Check>) {
    if !Addressable(calls) then step == Settle(GiveUp(Malformed))
    else if Reads(calls) != [] && !forced then
      step.Settle? && step.move.MakeCalls? && CallIds(step.move.calls) == Ids(Reads(calls))
    else FinalStep(step, attempt, StandingOf(calls, prompt, runs, checks))
  }

  /**
   Calls that cannot be told apart, or, the second time, neither reads that were offered nor an acceptable
   conclusion.
   */
  predicate Unusable(calls: seq<CompletionCall>, prompt: Prompt, runs: seq<ToolRun>, checks: seq<Check>) {
    || !Addressable(calls)
    || (&& prompt.attempt == 1 && (Reads(calls) == [] || prompt.forced)
        && !Acceptable(calls, prompt, runs, checks))
  }

  /** The ceiling a conclusion names is the one that was met, in the order they are looked at; none means none was. */
  predicate Explains(stoppedBy: StoppedBy, env: Environment, turns: nat, executed: nat, prompts: seq<Prompt>) {
    match stoppedBy
    case NotStopped => executed < MaxRuns(env) && turns <= MaxTurns(env) && !env.timeAlmostOver(turns)
    case ToolRuns => executed >= MaxRuns(env)
    case ReasonerTurns => executed < MaxRuns(env) && turns > MaxTurns(env)
    case WallClock => executed < MaxRuns(env) && turns <= MaxTurns(env) && env.timeAlmostOver(turns)
    case ContextFilled => |prompts| >= 2 && env.complete(|prompts| - 2) == ProviderError(true)
  }

  /** A run fails inside a turn only for what its environment did to it. */
  predicate Caused(why: Failure, env: Environment, report: Report) {
    var last := if report.prompts == [] then ProviderError(false) else env.complete(|report.prompts| - 1);
    match why
    case Cancelled => env.cancelled(report.turns + 1)
    case ProviderFailed => report.prompts != [] && Unrecoverable(last, env, report.prompts[|report.prompts| - 1])
    case ProviderRefused => last.Completion? && last.stop == Refused
    case Malformed =>
      && report.prompts != [] && last.Completion? && last.stop !in {Refused, Truncated}
      && Unusable(last.calls, report.prompts[|report.prompts| - 1], report.runs, report.checks)
    case NoUsableAnswer =>
      last.Completion? && last.stop == Truncated && report.prompts[|report.prompts| - 1].attempt == 1
    case EvidenceUnverified =>
      && report.prompts != [] && last.Completion? && last.stop !in {Refused, Truncated}
      && Unverified(last.calls, report.prompts[|report.prompts| - 1], report.runs, report.checks)
    case CredentialAuditFailed => env.execute(|report.executions|).AuditRefused?
    case RunNotRecorded => env.recordFails(|report.runs|)
    case ScopeUnverified => env.conversation && !env.scopeVerified
    case MessagesUnreadable => env.conversation && env.scopeVerified && env.messages.None?
    case MessagesMissing => env.conversation && env.scopeVerified && env.messages == Some(0)
    case SourcesUnreadable => env.orientation.None?
    case DidNotConclude => false
  }

  predicate Uncancelled(env: Environment, turns: nat) {
    forall t :: 1 <= t <= turns ==> !env.cancelled(t)
  }

  lemma CauseStands(why: Failure, env: Environment, report: Report, writes: seq<TerminalWrite>)
    requires Caused(why, env, report)
    ensures Caused(why, env, report.(writes := writes))
  {
  }

  /** The turn still owes answers to exactly `ids`. */
  predicate Owes(turn: Turn, ids: seq<string>) {
    && Distinct(Ids(turn.calls))
    && multiset(ResultIds(turn.results)) + multiset(ids) == multiset(Ids(turn.calls))
  }

  predicate Awaiting(transcript: seq<Turn>, ids: seq<string>) {
    && transcript != []
    && AllAnswered(transcript[..|transcript| - 1])
    && Owes(transcript[|transcript| - 1], ids)
  }

  predicate FoundMissing(check: Check)
    requires check.stored.Some?
  {
    exists ref :: ref in check.refs && ref !in check.stored.value
  }

  /** The lookup was of exactly what the findings of the page rest on. */
  ghost predicate Asks(check: Check, page: HistoryPage) {
    forall ref :: ref in check.refs <==> PageRestsOn(page, ref)
  }

  /** A page admits missing evidence exactly when a reference its findings rest on was looked up and not held. */
  ghost predicate NoticeIsDue(page: HistoryPage, check: Check) {
    Asks(check, page) && check.stored.Some? && page.missingEvidence == FoundMissing(check)
  }

  /** A bounded page, settled by what its lookup found, is delivered with the notice where it is due. */
  lemma {:induction false} SettledIsDue(reserved: HistoryPage, bounded: HistoryPage, check: Check, sizes: Sizes)
    requires reserved.missingEvidence && Bounding(reserved, bounded, sizes)
    requires check.stored.Some? && Asks(check, bounded)
    ensures var page := Settled(bounded, FoundMissing(check));
            Fits(page, sizes) && Delivers(reserved, page, sizes) && NoticeIsDue(page, check)
  {
    SettledDelivers(reserved, bounded, FoundMissing(check), sizes);
  }

  // --- answers to the model --------------------------------------------------------------------

  datatype Feedback =
    | HistoryFailed(callId: string, error: HistoryError)
    | HistoryRead(callId: string, page: HistoryPage)
    | ToolFeedback(callId: string, run: ToolRun)

  predicate Renderable(f: Feedback) {
    f.ToolFeedback? ==> f.run.observation.Some?
  }

  function RenderResult(f: Feedback): ToolResult
    requires Renderable(f)
  {
    match f
    case HistoryFailed(id, error) => ToolResult(id, HistoryUnavailable(error), true)
    case HistoryRead(id, page) => ToolResult(id, HistoryShown(page), false)
    case ToolFeedback(id, run) => ToolResult(id, ObservationShown(run.observation.value), run.outcome == RunFailed)
  }

  predicate AllRenderable(fs: seq<Feedback>) {
    forall i :: 0 <= i < |fs| ==> Renderable(fs[i])
  }

  function Rendered(fs: seq<Feedback>): seq<ToolResult>
    requires AllRenderable(fs)
  {
    seq(|fs|, i requires 0 <= i < |fs| => RenderResult(fs[i]))
  }

  /** The recorded runs among the answers, in order. */
  function RunsOf(fs: seq<Feedback>): seq<ToolRun> {
    if fs == [] then []
    else
      var n := |fs| - 1;
      if fs[n].ToolFeedback? then RunsOf(fs[..n]) + [fs[n].run] else RunsOf(fs[..n])
  }

  lemma {:induction false} RunsOfAppend(before: seq<ToolRun>, fs: seq<Feedback>, f: Feedback)
    ensures before + RunsOf(fs + [f]) == before + RunsOf(fs) + RunsOf([f])
  {
    assert (fs + [f])[..|fs|] == fs && [f][..0] == [];
  }

  lemma {:induction false} RunsOfOne(f: Feedback)
    ensures RunsOf([f]) == if f.ToolFeedback? then [f.run] else []
  {
    assert [f][..0] == [];
  }

  /** The transcript once `results` are appended to its last turn. */
  function Delivered(transcript: seq<Turn>, results: seq<ToolResult>): seq<Turn>
    requires transcript != []
  {
    var last := |transcript| - 1;
    transcript[..last] + [transcript[last].(results := transcript[last].results + results)]
  }

  /** Answering what is owed settles the transcript, and shows just the pages among the answers. */
  lemma {:induction false} DeliverySettles(transcript: seq<Turn>, results: seq<ToolResult>)
    requires Awaiting(transcript, ResultIds(results))
    ensures AllAnswered(Delivered(transcript, results))
    ensures forall item :: TurnsShow(Delivered(transcript, results), item) <==>
                             TurnsShow(transcript, item) || ResultsShow(results, item)
  {
    var n := |transcript| - 1;
    var front, last := transcript[..n], transcript[n];
    assert transcript == front + [last];
    var answered := last.(results := last.results + results);
    assert ResultIds(answered.results) == ResultIds(last.results) + ResultIds(results);
    ResultsShowConcat(last.results, results);
    TurnsShowAppend(front, last);
    TurnsShowAppend(front, answered);
  }

  datatype Move = MakeCalls(calls: seq<ToolCall>) | Finish(conclusion: Conclusion) | GiveUp(why: Failure)

  /** How one attempt ends: with a move, or by trying again, possibly forced to conclude. */
  datatype Step = Again(forced: bool) | Settle(move: Move)

  function Errors(calls: seq<CompletionCall>, content: ResultContent): seq<ToolResult> {
    seq(|calls|, i requires 0 <= i < |calls| => ToolResult(calls[i].id, content, true))
  }

  lemma ErrorsAnswer(calls: seq<CompletionCall>, content: ResultContent)
    requires !content.HistoryShown? && !content.ObservationShown?
    ensures ResultIds(Errors(calls, content)) == Ids(calls)
    ensures forall item :: !ResultsShow(Errors(calls, content), item)
  {
  }

  /** A read is one of the calls, and a conclusion is. */
  lemma {:induction false} SplitsAreCalls(calls: seq<CompletionCall>)
    ensures forall c :: c in Reads(calls) ==> c in calls && !IsConclude(c)
    ensures forall c :: c in Concludes(calls) ==> c in calls && IsConclude(c)
  {
    if calls != [] { SplitsAreCalls(calls[..|calls| - 1]); }
  }

  lemma {:induction false} DeferralsAreNotes(turn: Turn)
    requires turn.results == Errors(Concludes(turn.calls), FinalizationDeferred)
    ensures NotesOnly(turn)
  {
    SplitsAreCalls(turn.calls);
    forall i | 0 <= i < |turn.results| ensures NoteGrounded(turn.results[i], turn.calls) {
      assert Concludes(turn.calls)[i] in turn.calls;
    }
  }

  /** The run with the purpose of its call, and the source it was routed to. */
  function Attributed(run: ToolRun, source: Option<Source>, call: ToolCall): ToolRun {
    run.(integration := if source.Some? then source.value.integration else run.integration, purpose := call.purpose)
  }

  /** The run was made in this turn for the call of this identity. */
  predicate RanAs(env: Environment, o: Origin, turn: nat, identity: string) {
    o.how.Performed? && o.turn == turn && IdentityOf(env, o.asked) == identity
  }

  /** A history call of the turn is answered from the store, or told why not. */
  lemma {:induction false} HistoryIsGrounded(
      feedback: Feedback, call: ToolCall, calls: seq<CompletionCall>, place: nat, env: Environment, g: Ground)
    requires Requested(call, calls) && call.tool == HISTORY_TOOL && feedback.callId == call.id
    requires !feedback.ToolFeedback?
    requires feedback.HistoryRead? ==>
               g.fetches > 0 && FromStore(env, feedback.page, g.fetches - 1, call.beforeSequence)
    ensures ResultGrounded(RenderResult(feedback), calls, place, env, g)
  {
    var c :| c in calls && !IsConclude(c) && Decoded(c) == call;
    assert c.id == call.id && c.name == HISTORY_TOOL;
    assert call.beforeSequence.Some? ==> call.beforeSequence == c.arguments.beforeSequence;
    if feedback.HistoryRead? {
      assert FromStore(env, feedback.page, g.fetches - 1, c.arguments.beforeSequence);
    }
  }

  /** A read of the turn is answered by the run just recorded for it. */
  lemma {:induction false} ToolIsGrounded(
      feedback: Feedback, call: ToolCall, calls: seq<CompletionCall>, place: nat, env: Environment, g: Ground)
    requires Requested(call, calls) && feedback.ToolFeedback? && Renderable(feedback) && feedback.callId == call.id
    requires |g.origins| == |g.runs| > 0 && g.runs[|g.runs| - 1] == feedback.run
    requires g.origins[|g.runs| - 1].place == place && g.origins[|g.runs| - 1].asked == call
    ensures ResultGrounded(RenderResult(feedback), calls, place, env, g)
  {
    var k := |g.runs| - 1;
    assert AnswersCall(g.origins[k], g.runs[k], RenderResult(feedback), calls, place);
  }

  /** A delivered page adds what its findings rest on and its notice; a note adds nothing. */
  lemma {:induction false} PageGains(e: Evidence, later: Evidence, f: Feedback)
    requires !f.ToolFeedback? && later.runs == e.runs
    requires forall ref :: ref in later.refs <==> ref in e.refs || (f.HistoryRead? && PageRestsOn(f.page, ref))
    requires later.noticed <==> e.noticed || (f.HistoryRead? && f.page.missingEvidence)
    ensures Gains(e, later, RenderResult(f).content)
  {
    forall item ensures HeldIn(later, item) <==> HeldIn(e, item) || ContentShows(RenderResult(f).content, item) {
      match item
      case Reference(ref) => assert ref in later.refs <==> HeldIn(later, item);
      case _ =>
    }
  }

  /** A recorded run adds its observation. */
  lemma {:induction false} RunGains(e: Evidence, f: Feedback)
    requires f.ToolFeedback? && Renderable(f)
    ensures Gains(e, e.(runs := e.runs + [f.run]), RenderResult(f).content)
  {
    RecordedIsHeld(e.refs, e.runs, e.noticed, f.run);
  }

  /** Every execution was made by this turn. */
  predicate AllBy(executions: seq<Execution>, turn: nat) {
    forall i :: 0 <= i < |executions| ==> executions[i].turn <= turn
  }

  predicate InOrder(results: seq<Feedback>, calls: seq<ToolCall>) {
    |results| <= |calls| && forall j :: 0 <= j < |results| ==> results[j].callId == calls[j].id
  }

  /** One more answer, to the next call. */
  lemma {:induction false} InOrderAppend(results: seq<Feedback>, calls: seq<ToolCall>, f: Feedback)
    requires InOrder(results, calls) && |results| < |calls| && f.callId == calls[|results|].id
    ensures InOrder(results + [f], calls)
  {
  }

  /** What it shows is what was gained. */
  lemma {:induction false} ShownAppend(
      e: Evidence, later: Evidence, turns: seq<Turn>, results: seq<Feedback>, f: Feedback)
    requires AllRenderable(results) && Renderable(f)
    requires ShownBy(e, turns, Rendered(results)) && Gains(e, later, RenderResult(f).content)
    ensures AllRenderable(results + [f]) && ShownBy(later, turns, Rendered(results + [f]))
  {
    RenderedAppend(results, f);
  }

  lemma {:induction false} ReadsAreRequested(decoded: seq<ToolCall>, calls: seq<CompletionCall>, i: nat)
    requires AllDecoded(decoded, Reads(calls)) && i < |decoded|
    ensures Requested(decoded[i], calls)
  {
    SplitsAreCalls(calls);
    assert Reads(calls)[i] in calls;
  }

  /** The run of a read that is not executed, for the reason given. */
  method Drop(env: Environment, turn: nat, place: nat, call: ToolCall, ordinal: nat, why: string)
    returns (origin: Origin)
    ensures origin == Origin(turn, place, call, origin.raw, Dropped)
    ensures RunFor(origin.raw, call, RouteOf(env, call), ordinal) && Says(origin.raw, why, why)
  {
    var source := ToolNamed(Offered(env), call);
    var run := DroppedRun(call, ordinal, why);
    origin := Origin(turn, place, call, Attributed(run, source, call), Dropped);
  }

  /** The run of a read that repeats run k + 1. */
  method Repeat(env: Environment, turn: nat, place: nat, call: ToolCall, ordinal: nat, k: nat, original: ToolRun)
    returns (origin: Origin)
    ensures origin == Origin(turn, place, call, origin.raw, Repeated(k))
    ensures RunFor(origin.raw, call, RouteOf(env, call), ordinal)
    ensures Says(origin.raw, SeeAbove(original.ordinal), UseItsResult(original.ordinal))
    ensures RouteOf(env, call).None? ==> origin.raw.integration == original.integration
  {
    var source := ToolNamed(Offered(env), call);
    var run := SuppressedRun(call, ordinal, original);
    origin := Origin(turn, place, call, Attributed(run, source, call), Repeated(k));
  }

  lemma {:induction false} UnusableIsMade(
      env: Environment, executions: seq<Execution>, origins: seq<Origin>, o: Origin, spent: bool)
    requires o.how == Dropped && o.asked.error != Usable
    requires Says(o.raw, Complaint(o.asked.error), Complaint(o.asked.error))
    requires RunFor(o.raw, o.asked, RouteOf(env, o.asked), |origins| + 1)
    ensures Made(env, executions, origins, o, spent)
  {
  }

  lemma {:induction false} RepeatIsMade(
      env: Environment, executions: seq<Execution>, origins: seq<Origin>, o: Origin, spent: bool, k: nat)
    requires o.how == Repeated(k) && IsRepeat(env, origins, o, k)
    requires RunFor(o.raw, o.asked, RouteOf(env, o.asked), |origins| + 1)
    ensures Made(env, executions, origins, o, spent)
  {
  }

  lemma {:induction false} ExhaustedIsMade(
      env: Environment, executions: seq<Execution>, origins: seq<Origin>, o: Origin, spent: bool)
    requires o.how == Dropped && o.asked.error == Usable && spent && NotRunBefore(env, origins, o)
    requires Says(o.raw, BudgetSpent(MaxRuns(env)), BudgetSpent(MaxRuns(env)))
    requires RunFor(o.raw, o.asked, RouteOf(env, o.asked), |origins| + 1)
    ensures Made(env, executions, origins, o, spent)
  {
  }

  lemma NothingIsOwed(executions: seq<Execution>, origins: seq<Origin>, o: Origin)
    requires AllRecorded(executions, |origins|)
    ensures Owed(executions, origins, o)
  {
  }

  /** The run carries the answer of execution e, for its call. */
  predicate PerformedAs(env: Environment, o: Origin, ordinal: nat, e: nat) {
    var route := RouteOf(env, o.asked);
    var runFor, carries := RunFor(o.raw, o.asked, route, ordinal), CarriesAnswer(o.raw, route.Some?, env.execute(e));
    runFor && carries && o.how == Performed(e) && (route.None? ==> o.raw.integration == "")
  }

  /** Runs the tool of a read as execution e; not audited, the run does not count. */
  method Perform(env: Environment, turn: nat, place: nat, call: ToolCall, ordinal: nat, e: nat)
    returns (origin: Origin, audited: bool)
    ensures origin == Origin(turn, place, call, origin.raw, Performed(e)) && PerformedAs(env, origin, ordinal, e)
    ensures origin.raw.outcome == RunSucceeded <==> RouteOf(env, call).Some? && env.execute(e).ToolAnswered?
    ensures audited <==> !(RouteOf(env, call).Some? && env.execute(e).AuditRefused?)
  {
    var source := ToolNamed(Offered(env), call);
    var run := ExecutedRun(call, ordinal, source, env.execute(e));
    origin := Origin(turn, place, call, Attributed(run, source, call), Performed(e));
    audited := !(source.Some? && env.execute(e).AuditRefused?);
  }

  /** One more execution, of an identity the turn has not run: its run is the only one still to be recorded. */
  lemma {:induction false} OneMore(
      env: Environment, executions: seq<Execution>, origins: seq<Origin>, o: Origin, executedCalls: map<string, nat>)
    requires Placed(executions, origins) && AllRecorded(executions, |origins|) && NoneTwice(executions)
    requires Tracks(env, executions, origins, o.turn, executedCalls) && AllBy(executions, o.turn)
    requires IdentityOf(env, o.asked) !in executedCalls && o.how == Performed(|executions|)
    ensures var identity, ordinal := IdentityOf(env, o.asked), |origins| + 1;
            var more := executions + [Execution(o.turn, ordinal, identity)];
            && Placed(more, origins) && NoneTwice(more) && Owed(more, origins, o) && AllBy(more, o.turn)
            && Tracks(env, more, origins + [o], o.turn, executedCalls[identity := ordinal])
  {
    TracksMore(env, executions, origins, o.turn, executedCalls, o);
    var more := executions + [Execution(o.turn, |origins| + 1, IdentityOf(env, o.asked))];
    assert forall i :: 0 <= i < |executions| ==> more[i] == executions[i];
  }

  /** Every identity executed this turn is tracked, with the number of the run made for it. */
  predicate Tracks(
      env: Environment, executions: seq<Execution>, origins: seq<Origin>, turn: nat, executedCalls: map<string, nat>) {
    && (forall id :: id in executedCalls ==>
          1 <= executedCalls[id] <= |origins| && RanAs(env, origins[executedCalls[id] - 1], turn, id))
    && (forall i :: 0 <= i < |executions| && executions[i].turn == turn ==> executions[i].identity in executedCalls)
  }

  lemma {:induction false} TracksMore(
      env: Environment, executions: seq<Execution>, origins: seq<Origin>, turn: nat, executedCalls: map<string, nat>,
      o: Origin)
    requires Tracks(env, executions, origins, turn, executedCalls)
    ensures Tracks(env, executions, origins + [o], turn, executedCalls)
    ensures var identity, ordinal := IdentityOf(env, o.asked), |origins| + 1;
            o.how.Performed? && o.turn == turn ==>
              Tracks(env, executions + [Execution(turn, ordinal, identity)], origins + [o], turn,
                     executedCalls[identity := ordinal])
  {
    var more := origins + [o];
    forall id | id in executedCalls ensures RanAs(env, more[executedCalls[id] - 1], turn, id) {
      assert more[executedCalls[id] - 1] == origins[executedCalls[id] - 1];
    }
    assert more[|origins|] == o;
  }

  class RunState {
    const env: Environment
    const maxRuns: nat
    const maxTurns: nat
    const historyBefore: nat

    var runs: seq<ToolRun>
    var origins: seq<Origin>
    var historyRead: set<string>
    var executed: nat
    var turns: nat
    var transcript: seq<Turn>
    var missingEvidence: bool
    var priorEvidence: seq<EvidenceRef>
    var oriented: Orientation
    var stoppedBy: StoppedBy

    var prompts: seq<Prompt>
    var executions: seq<Execution>
    var historyReads: nat
    var checks: seq<Check>
    var reductions: nat
    var writes: seq<TerminalWrite>

    /** Some delivered page admitted missing evidence. */
    ghost var noticed: bool

    constructor (env: Environment, oriented: Orientation)
      ensures this.env == env && maxRuns == MaxRuns(env) && maxTurns == MaxTurns(env)
      ensures this.oriented == oriented && runs == [] && origins == [] && transcript == [] && priorEvidence == []
      ensures executed == 0 && turns == 0 && prompts == [] && executions == [] && historyReads == 0
      ensures checks == [] && reductions == 0 && writes == [] && stoppedBy == NotStopped
      ensures missingEvidence == (oriented.brief.Some? && oriented.brief.value.missingEvidence) && !noticed
      ensures historyBefore == if oriented.brief.Some? then oriented.brief.value.historyBefore else 0
      ensures historyRead == {}
    {
      this.env := env;
      this.oriented := oriented;
      maxRuns, maxTurns := MaxRuns(env), MaxTurns(env);
      historyBefore := if oriented.brief.Some? then oriented.brief.value.historyBefore else 0;
      missingEvidence := oriented.brief.Some? && oriented.brief.value.missingEvidence;
      runs, origins, historyRead, executed, turns, transcript, priorEvidence := [], [], {}, 0, 0, [], [];
      prompts, executions, historyReads, checks, reductions, writes := [], [], 0, [], 0, [];
      stoppedBy, noticed := NotStopped, false;
    }

    /** Reads stay within the budget, and no batch runs one identity twice. */
    predicate Budgeted()
      reads this`executed, this`executions, this`historyReads
    {
      var once := NoneTwice(executions);
      once && maxRuns == MaxRuns(env) && executed == |executions| + historyReads <= maxRuns
    }

    /** Between answers: nothing is owed, and the evidence held is exactly what was shown. */
    ghost predicate Ready()
      reads this`transcript, this`priorEvidence, this`runs, this`noticed, this`missingEvidence
    {
      AllAnswered(transcript) && Holding()
    }

    /** What the run holds is exactly what its transcript shows, and it knows whether evidence is missing. */
    ghost predicate Holding()
      reads this`transcript, this`priorEvidence, this`runs, this`noticed, this`missingEvidence
    {
      ExactlyShown(priorEvidence, runs, noticed, transcript) && Mindful()
    }

    ghost function Holdings(): Evidence
      reads this`priorEvidence, this`runs, this`noticed
    {
      Evidence(priorEvidence, runs, noticed)
    }

    ghost predicate Mindful()
      reads this`noticed, this`missingEvidence
    {
      missingEvidence <==> BeganIncomplete(env) || noticed
    }

    /** The transcript holds every usable answer so far. */
    predicate Remembers()
      reads this`transcript, this`prompts
    {
      CallsOf(transcript) == UsableAnswers(env, |prompts|)
    }

    predicate Reduced()
      reads this`reductions, this`oriented
    {
      && env.orientation.Some? && reductions <= 1
      && oriented == if reductions == 0 then env.orientation.value else Reduce(env.orientation.value)
    }

    function Basis(): Ground
      reads this`runs, this`origins, this`historyReads
    {
      Ground(runs, origins, historyReads)
    }

    /** Every answer given is grounded, and no prompt showed anything the transcript has not kept. */
    ghost predicate Grounds()
      reads this`transcript, this`runs, this`origins, this`historyReads, this`prompts
    {
      TurnsGrounded(transcript, env, Basis()) && AllExtended(prompts, transcript)
    }

    /** Every recorded run is accounted for, and every execution whose run was recorded. */
    ghost predicate Accounts()
      reads this`runs, this`origins, this`executions, this`executed
    {
      var ledger, placed := Ledger(env, executions, origins, runs, executed >= maxRuns), Placed(executions, origins);
      ledger && placed
    }

    /** The reads made so far are accounted for and within the budget. */
    ghost predicate Orderly()
      reads this`runs, this`origins, this`executions, this`executed, this`historyReads
    {
      var accounts, budgeted := Accounts(), Budgeted();
      accounts && budgeted
    }

    // --- one attempt ---------------------------------------------------------------------------

    /** Builds a prompt that shows what the run holds and whitelists just the evidence it shows. */
    method Compose(turn: nat, attempt: nat, forced: bool) returns (prompt: Prompt)
      requires Ready() && Reduced()
      ensures Composed(env, prompt) && Informed(prompt, runs) && CallsOf(prompt.turns) == CallsOf(transcript)
      ensures (missingEvidence <==> DisclosureDue(env, prompt)) && Extends(prompt.turns, transcript)
      ensures prompt.turn == turn && prompt.attempt == attempt
      ensures prompt.forced == forced && prompt.orientation == oriented
      ensures forced ==> LastInstruction(prompt) == Some(ConcludeNow(stoppedBy, |Offered(env)|))
    {
      var printed := BriefReferences(oriented.brief);
      var allowed := priorEvidence + printed;
      assert forall ref :: ref in priorEvidence <==> Held(priorEvidence, runs, noticed, Reference(ref));
      prompt := ModelPrompt(turn, attempt, oriented, transcript, forced, stoppedBy, allowed);
      PromptIsFaithful(turn, attempt, oriented, transcript, forced, stoppedBy, allowed);
      PromptIsShaped(env, turn, attempt, oriented, transcript, forced, stoppedBy, allowed);
      PromptKeepsTurns(turn, attempt, oriented, transcript, forced, stoppedBy, allowed);
      assert forall text :: Held([], runs, false, Seen(text)) <==> Held(priorEvidence, runs, noticed, Seen(text));
      assert noticed <==> Held(priorEvidence, runs, noticed, Notice);
    }

    /** Sends one prompt: what it shows and what it whitelists agree. */
    method Ask(turn: nat, attempt: nat, forced: bool) returns (prompt: Prompt, answer: Answer)
      requires Ready() && Reduced() && 1 <= turn && attempt <= 1
      requires Sent(env, prompts, turn, attempt) && Remembers()
      modifies this`prompts
      ensures Sent(env, prompts, turn, attempt + 1)
      ensures prompts == old(prompts) + [prompt]
      ensures prompt.attempt == attempt && prompt.forced == forced && prompt.orientation == oriented
      ensures var kept := Extends(prompt.turns, transcript);
              kept
      ensures prompts != [] && answer == env.complete(|prompts| - 1)
      ensures var asked := Asked(attempt, forced);
              asked
    {
      prompt := Compose(turn, attempt, forced);
      answer := env.complete(|prompts|);
      Send(prompt);
      NowAsked(attempt, forced);
    }

    lemma {:induction false} NowAsked(attempt: nat, forced: bool)
      requires prompts != [] && Ready()
      requires var prompt := prompts[|prompts| - 1];
               && prompt.attempt == attempt && prompt.forced == forced && Informed(prompt, runs)
               && (missingEvidence <==> DisclosureDue(env, prompt))
      requires CallsOf(transcript) == UsableAnswers(env, |prompts| - 1)
      ensures Asked(attempt, forced)
    {
    }

    method Send(prompt: Prompt)
      requires Sent(env, prompts, prompt.turn, prompt.attempt) && Composed(env, prompt)
      requires CallsOf(prompt.turns) == UsableAnswers(env, |prompts|) && 1 <= prompt.turn && prompt.attempt <= 1
      modifies this`prompts
      ensures Sent(env, prompts, prompt.turn, prompt.attempt + 1)
      ensures prompts == old(prompts) + [prompt] && prompts[|prompts| - 1] == prompt
    {
      SendKeeps(env, prompts, prompt);
      prompts := prompts + [prompt];
    }

    /** A context rejection is retried once with less context, else once without the read tools. */
    method OnProviderError(attempt: nat, forced: bool, contextWindow: bool, tools: nat) returns (step: Step)
      requires prompts != [] && Asked(attempt, forced) && Reduced()
      requires env.complete(|prompts| - 1) == ProviderError(contextWindow)
      requires prompts[|prompts| - 1].orientation == oriented && |prompts[|prompts| - 1].tools| == tools
      modifies this`oriented, this`reductions, this`stoppedBy
      ensures Reduced() && Stepped(step, attempt, forced)
      ensures stoppedBy != old(stoppedBy) ==> step == Again(true) && attempt == 0 && OutOfContext(1)
      ensures var shorter := env.rendered(Reduce(old(oriented))) < env.rendered(old(oriented));
              if attempt == 0 && contextWindow && shorter then
                step == Again(forced) && oriented == Reduce(old(oriented)) && stoppedBy == old(stoppedBy)
              else if attempt == 0 && contextWindow && !forced && tools > 1 then
                step == Again(true) && oriented == old(oriented) && stoppedBy == ContextFilled
              else
                step == Settle(GiveUp(ProviderFailed)) && oriented == old(oriented) && stoppedBy == old(stoppedBy)
    {
      if attempt == 0 && contextWindow {
        var reduced := Reduce(oriented);
        if env.rendered(reduced) < env.rendered(oriented) {
          oriented := reduced;
          reductions := reductions + 1;
          return Again(forced);
        }
        if !forced && tools > 1 {
          stoppedBy := ContextFilled;
          return Again(true);
        }
      }
      step := Settle(GiveUp(ProviderFailed));
    }

    /** Judges a lone conclude call by what it states and what the store holds. */
    method Judge(call: CompletionCall) returns (verdict: Verdict)
      requires prompts != []
      modifies this`checks
      ensures Judged(verdict, Stated(call.arguments.document), runs, prompts[|prompts| - 1].allowed, checks)
    {
      var decoded := DecodeConclusion(call.arguments.document, runs, prompts[|prompts| - 1].allowed);
      if decoded.None? { return Faulty(BadConclusion); }
      var missing := CheckCitations(decoded.value);
      if missing.None? { return Unsure; }
      if missing.value { return Faulty(UnavailablePriorEvidence); }
      verdict := Accepted(decoded.value);
    }

    /** Adds the missing-evidence notice where the run has to, and nothing else. */
    method Disclose(c: Conclusion) returns (disclosed: Conclusion)
      requires prompts != [] && Sound(c, runs, prompts[|prompts| - 1].allowed) && CheckedPresent(c, checks)
      ensures Sound(disclosed, runs, prompts[|prompts| - 1].allowed) && CheckedPresent(disclosed, checks)
      ensures OnlyMarked(disclosed, c, missingEvidence) && (missingEvidence ==> DisclosesMissingEvidence(disclosed))
    {
      disclosed := c;
      if missingEvidence {
        disclosed := MarkMissingEvidence(c);
        MarkingKeepsSound(c, disclosed, true, runs, prompts[|prompts| - 1].allowed);
      }
    }

    /** Looks up the prior evidence a conclusion cites, if it cites any. */
    method CheckCitations(c: Conclusion) returns (missing: Option<bool>)
      modifies this`checks
      ensures var refs := EvidenceOf(c.findings);
              checks == old(checks) + if refs == [] then [] else [Check(refs, env.stored(|old(checks)|))]
      ensures missing.None? ==> CitesUnknown(c, checks)
      ensures missing == Some(true) ==> CitesMissing(c, checks)
      ensures missing == Some(false) ==> CheckedPresent(c, checks)
    {
      var refs := CitedEvidence(c.findings);
      if refs == [] { return Some(false); }
      missing := AnyMissing(refs);
    }

    /** What follows from a usable answer. */
    method OnAnswer(attempt: nat, forced: bool, calls: seq<CompletionCall>) returns (step: Step)
      requires prompts != [] && Asked(attempt, forced) && attempt <= 1
      requires var answer := env.complete(|prompts| - 1);
               answer.Completion? && answer.calls == calls && answer.stop !in {Refused, Truncated}
      modifies this`transcript, this`checks
      ensures GrewByNotes(old(transcript), transcript)
      ensures Stepped(step, attempt, forced)
      ensures AnswerStep(step, attempt, forced, calls, prompts[|prompts| - 1], runs, checks)
    {
      var ok, readCalls, concludeCalls := SplitCalls(calls);
      if !ok { return Settle(GiveUp(Malformed)); }
      if readCalls != [] && !forced {
        var move := TakeReads(calls, readCalls, concludeCalls);
        return Settle(move);
      }
      step := OnFinalAnswer(attempt, forced, calls, readCalls, concludeCalls);
    }

    /** Takes up the reads of an answer: the turn is recorded, and exactly they are owed answers. */
    method TakeReads(calls: seq<CompletionCall>, readCalls: seq<CompletionCall>, concludeCalls: seq<CompletionCall>)
      returns (move: Move)
      requires prompts != [] && Asked(prompts[|prompts| - 1].attempt, false) && Addressable(calls)
      requires readCalls == Reads(calls) != [] && concludeCalls == Concludes(calls)
      requires var answer := env.complete(|prompts| - 1);
               answer.Completion? && answer.calls == calls && answer.stop !in {Refused, Truncated}
      modifies this`transcript
      ensures move.MakeCalls? && CallIds(move.calls) == Ids(Reads(calls)) && Outcome(move, false)
      ensures AllDecoded(move.calls, Reads(calls)) && GrewByNotes(old(transcript), transcript)
    {
      Defer(calls, concludeCalls);
      var decoded := DecodeToolCalls(readCalls);
      move := MakeCalls(decoded);
    }

    /** The last model call got a usable answer with these calls, and they should conclude. */
    ghost predicate ShouldConclude(attempt: nat, forced: bool, calls: seq<CompletionCall>)
      requires prompts != []
      reads this`transcript, this`priorEvidence, this`prompts, this`runs, this`noticed, this`missingEvidence
    {
      match env.complete(|prompts| - 1)
      case ProviderError(_) => false
      case Completion(stop, answered) =>
        && answered == calls && stop !in {Refused, Truncated} && (Reads(calls) == [] || forced)
        && Asked(attempt, forced) && attempt <= 1 && Addressable(calls)
    }

    /** How the last answer stands, with these calls. */
    ghost function Stands(calls: seq<CompletionCall>): Standing
      requires prompts != []
      reads this`prompts, this`runs, this`checks
    {
      StandingOf(calls, prompts[|prompts| - 1], runs, checks)
    }

    /** What follows from an answer that should conclude: it does, it may try again, or it was the last chance. */
    method OnFinalAnswer(attempt: nat, forced: bool, calls: seq<CompletionCall>,
                         readCalls: seq<CompletionCall>, concludeCalls: seq<CompletionCall>) returns (step: Step)
      requires prompts != [] && ShouldConclude(attempt, forced, calls)
      requires readCalls == Reads(calls) && concludeCalls == Concludes(calls)
      modifies this`transcript, this`checks
      ensures GrewByNotes(old(transcript), transcript)
      ensures Stepped(step, attempt, forced)
      ensures FinalStep(step, attempt, Stands(calls))
    {
      if readCalls == [] && |concludeCalls| == 1 {
        step := OnConclude(attempt, forced, calls, concludeCalls[0]);
      } else {
        NotLoneIsUnfit(calls, prompts[|prompts| - 1], runs, checks);
        step := Refuse(attempt, forced, calls, if readCalls != [] then ReadsUnavailable else NotOneConclusion);
      }
    }

    /** A lone conclude call: an accepted conclusion or a failed lookup ends the run, anything else is refused. */
    method OnConclude(attempt: nat, forced: bool, calls: seq<CompletionCall>, call: CompletionCall)
      returns (step: Step)
      requires prompts != [] && ShouldConclude(attempt, forced, calls)
      requires Reads(calls) == [] && Concludes(calls) == [call]
      modifies this`transcript, this`checks
      ensures GrewByNotes(old(transcript), transcript)
      ensures Stepped(step, attempt, forced)
      ensures FinalStep(step, attempt, Stands(calls))
    {
      var verdict := JudgeLone(calls, call);
      step := CarryOut(attempt, forced, calls, verdict);
    }

    /** Carries out a verdict on the last answer. */
    method CarryOut(attempt: nat, forced: bool, calls: seq<CompletionCall>, verdict: Verdict) returns (step: Step)
      requires prompts != [] && ShouldConclude(attempt, forced, calls)
      requires Stands(calls) == StandingBy(verdict)
      requires verdict.Accepted? ==>
                 Approved(verdict.conclusion, env.complete(|prompts| - 1), prompts[|prompts| - 1], runs, checks)
      requires verdict.Faulty? ==> Blames(verdict.why, calls)
      modifies this`transcript
      ensures GrewByNotes(old(transcript), transcript)
      ensures Stepped(step, attempt, forced) && FinalStep(step, attempt, StandingBy(verdict))
    {
      match verdict {
        case Unsure =>
          UndecidedIsCaused(attempt, forced, calls);
          step := Settle(GiveUp(EvidenceUnverified));
        case Faulty(why) =>
          step := Refuse(attempt, forced, calls, why);
        case Accepted(c) =>
          step := FinishWith(attempt, forced, c);
      }
    }

    lemma {:induction false} UndecidedIsCaused(attempt: nat, forced: bool, calls: seq<CompletionCall>)
      requires prompts != [] && ShouldConclude(attempt, forced, calls)
      requires Stands(calls) == Undecided
      ensures Stepped(Settle(GiveUp(EvidenceUnverified)), attempt, forced)
    {
    }

    lemma {:induction false} UnfitIsCaused(attempt: nat, forced: bool, calls: seq<CompletionCall>)
      requires prompts != [] && ShouldConclude(attempt, forced, calls) && attempt == 1
      requires Stands(calls) == Unfit
      ensures Stepped(Settle(GiveUp(Malformed)), attempt, forced)
    {
    }

    /** Judges the lone conclude call of the last answer; the verdict is how the answer stands. */
    method JudgeLone(calls: seq<CompletionCall>, call: CompletionCall) returns (verdict: Verdict)
      requires prompts != [] && Reads(calls) == [] && Concludes(calls) == [call]
      requires var answer := env.complete(|prompts| - 1);
               answer.Completion? && answer.calls == calls
      modifies this`checks
      ensures Stands(calls) == StandingBy(verdict)
      ensures verdict.Accepted? ==>
                Approved(verdict.conclusion, env.complete(|prompts| - 1), prompts[|prompts| - 1], runs, checks)
      ensures verdict.Faulty? ==> Blames(verdict.why, calls)
    {
      verdict := Judge(call);
      VerdictDecides(verdict, calls, call, prompts[|prompts| - 1], runs, checks);
    }

    /** Settles on the accepted conclusion, with what the run has to disclose. */
    method FinishWith(attempt: nat, forced: bool, c: Conclusion) returns (step: Step)
      requires prompts != [] && Asked(attempt, forced)
      requires Approved(c, env.complete(|prompts| - 1), prompts[|prompts| - 1], runs, checks)
      ensures step.Settle? && step.move.Finish? && Stepped(step, attempt, forced)
    {
      var conclusion := Disclose(c);
      step := Settle(Finish(conclusion));
    }

    /** Records why the answer cannot be used and tries again, once. */
    method Refuse(attempt: nat, forced: bool, calls: seq<CompletionCall>, why: Invalid) returns (step: Step)
      requires prompts != [] && ShouldConclude(attempt, forced, calls)
      requires Stands(calls) == Unfit && Blames(why, calls)
      modifies this`transcript
      ensures GrewByNotes(old(transcript), transcript)
      ensures Stepped(step, attempt, forced)
      ensures FinalStep(step, attempt, Unfit)
    {
      if attempt == 1 {
        UnfitIsCaused(attempt, forced, calls);
        step := Settle(GiveUp(Malformed));
      } else {
        Reject(calls, why);
        step := Again(true);
      }
    }

    /** Records a turn whose reads are still to run; its conclusions are answered at once. */
    method Defer(calls: seq<CompletionCall>, concludeCalls: seq<CompletionCall>)
      requires Ready() && Addressable(calls) && concludeCalls == Concludes(calls)
      modifies this`transcript
      ensures GrewByNotes(old(transcript), transcript)
      ensures Awaiting(transcript, Ids(Reads(calls))) && transcript[|transcript| - 1].calls == calls
      ensures Holding()
      ensures CallsOf(transcript) == old(CallsOf(transcript)) + [calls]
    {
      var turn := Turn(calls, Errors(concludeCalls, FinalizationDeferred), []);
      ErrorsAnswer(concludeCalls, FinalizationDeferred);
      DeferralsAreNotes(turn);
      SplitKeepsIds(calls);
      TurnsShowAppend(transcript, turn);
      assert (transcript + [turn])[..|transcript|] == transcript;
      transcript := transcript + [turn];
    }

    /** Records an unusable answer, every call of it answered with why. */
    method Reject(calls: seq<CompletionCall>, why: Invalid)
      requires Ready() && Addressable(calls) && Blames(why, calls)
      modifies this`transcript
      ensures Ready() && GrewByNotes(old(transcript), transcript)
      ensures CallsOf(transcript) == old(CallsOf(transcript)) + [calls]
    {
      var turn := Turn(calls, Errors(calls, InvalidAnswer(why)), [Correct(why)]);
      ErrorsAnswer(calls, InvalidAnswer(why));
      TurnsShowAppend(transcript, turn);
      transcript := transcript + [turn];
    }

    /** After a prompt, before its answer is acted on. */
    ghost predicate Asked(attempt: nat, forced: bool)
      requires prompts != []
      reads this`transcript, this`priorEvidence, this`prompts, this`runs, this`noticed, this`missingEvidence
    {
      match prompts[|prompts| - 1]
      case Prompt(_, sentAttempt, _, _, sentForced, _, _, _) =>
        var ready, informed := Ready(), Informed(prompts[|prompts| - 1], runs);
        var due := missingEvidence <==> DisclosureDue(env, prompts[|prompts| - 1]);
        && sentAttempt == attempt && sentForced == forced && ready && informed && due
        && CallsOf(transcript) == UsableAnswers(env, |prompts| - 1)
    }

    /** How an attempt leaves the run: ready to try again, or with a move it may rely on. */
    ghost predicate Stepped(step: Step, attempt: nat, forced: bool)
      reads this
    {
      match step
      case Again(must) =>
        var ready, remembers := Ready(), Remembers();
        var outOfAttempts := Caused(NoUsableAnswer, env, ToReport());
        ready && remembers && (forced ==> must) && (attempt == 1 ==> outOfAttempts)
      case Settle(move) =>
        var relied := Outcome(move, forced);
        relied
    }

    method OnCompletion(attempt: nat, forced: bool, stop: Stop, calls: seq<CompletionCall>) returns (step: Step)
      requires prompts != [] && Asked(attempt, forced) && attempt <= 1
      requires env.complete(|prompts| - 1) == Completion(stop, calls)
      modifies this`transcript, this`checks
      ensures GrewByNotes(old(transcript), transcript)
      ensures Stepped(step, attempt, forced)
      ensures if stop == Refused then step == Settle(GiveUp(ProviderRefused))
              else if stop == Truncated then step == Again(forced) && transcript == old(transcript)
              else AnswerStep(step, attempt, forced, calls, prompts[|prompts| - 1], runs, checks)
    {
      if stop == Refused { return Settle(GiveUp(ProviderRefused)); }
      if stop == Truncated { return Again(forced); }
      step := OnAnswer(attempt, forced, calls);
    }

    /** One attempt: a model call, and what its answer leads to. */
    method Attempt(turn: nat, attempt: nat, forced: bool) returns (step: Step)
      requires Ready() && Reduced() && 1 <= turn && attempt <= 1 && Sent(env, prompts, turn, attempt) && Remembers()
      modifies this`transcript, this`oriented, this`stoppedBy, this`prompts, this`checks, this`reductions
      ensures Reduced() && Sent(env, prompts, turn, attempt + 1)
      ensures stoppedBy != old(stoppedBy) ==> step == Again(true) && attempt == 0 && OutOfContext(1)
      ensures SentOne(old(prompts), prompts, old(transcript)) && GrewByNotes(old(transcript), transcript)
      ensures Stepped(step, attempt, forced)
    {
      var prompt, answer := Ask(turn, attempt, forced);
      step := React(attempt, forced, answer);
    }

    /** What an answer, or none, leads to. */
    method React(attempt: nat, forced: bool, answer: Answer) returns (step: Step)
      requires prompts != [] && Asked(attempt, forced) && Reduced() && attempt <= 1
      requires answer == env.complete(|prompts| - 1)
      requires prompts[|prompts| - 1].orientation == oriented
      modifies this`transcript, this`oriented, this`stoppedBy, this`checks, this`reductions
      ensures Reduced() && Stepped(step, attempt, forced) && GrewByNotes(old(transcript), transcript)
      ensures stoppedBy != old(stoppedBy) ==> step == Again(true) && attempt == 0 && OutOfContext(1)
    {
      match answer
      case ProviderError(contextWindow) =>
        step := OnProviderError(attempt, forced, contextWindow, |prompts[|prompts| - 1].tools|);
      case Completion(stop, calls) =>
        step := OnCompletion(attempt, forced, stop, calls);
    }

    /** An attempt, of which everything answered stays grounded and kept. */
    method TryOnce(turn: nat, attempt: nat, forced: bool) returns (step: Step)
      requires Ready() && Reduced() && 1 <= turn && attempt <= 1 && Sent(env, prompts, turn, attempt) && Remembers()
      requires Grounds()
      modifies this`transcript, this`oriented, this`stoppedBy, this`prompts, this`checks, this`reductions
      ensures Reduced() && Sent(env, prompts, turn, attempt + 1) && Grounds()
      ensures stoppedBy != old(stoppedBy) ==> step == Again(true) && attempt == 0 && OutOfContext(1)
      ensures |prompts| == |old(prompts)| + 1 && Stepped(step, attempt, forced)
    {
      step := Attempt(turn, attempt, forced);
      AttemptKeepsGround(old(prompts), prompts, old(transcript), transcript, env, Basis());
    }

    /** What the run may rely on once a turn has a move. */
    ghost predicate Outcome(move: Move, forced: bool)
      reads this
    {
      match move
      case MakeCalls(calls) =>
        && !forced && calls != [] && Remembers()
        && Awaiting(transcript, CallIds(calls)) && Holding()
        && AllDecoded(calls, Reads(transcript[|transcript| - 1].calls))
      case Finish(c) =>
        WellSupported(c, env, runs, prompts, checks)
      case GiveUp(why) => FailsFor(why)
    }

    /** The model call `back` calls ago was a context rejection, and the run is to conclude because of it. */
    predicate OutOfContext(back: nat)
      reads this`stoppedBy, this`prompts
    {
      stoppedBy == ContextFilled && 1 <= back <= |prompts| && env.complete(|prompts| - back) == ProviderError(true)
    }

    /** Two attempts at most; once forced, a turn stays forced and cannot end in reads. */
    method Decide(turn: nat, mustConclude: bool) returns (move: Move, forced: bool)
      requires Ready() && Reduced() && AllFaithful(prompts) && turn >= 1 && Scheduled(prompts, turn - 1)
      requires Remembers() && AllSent(env, prompts) && Grounds()
      modifies this`transcript, this`oriented, this`stoppedBy, this`prompts, this`checks, this`reductions
      ensures Reduced() && AllFaithful(prompts) && Scheduled(prompts, turn) && AllSent(env, prompts)
      ensures mustConclude ==> forced
      ensures Outcome(move, forced) && Grounds()
      ensures move.MakeCalls? ==> stoppedBy == old(stoppedBy)
      ensures stoppedBy == old(stoppedBy) || OutOfContext(2)
    {
      forced := mustConclude;
      for attempt := 0 to 2
        invariant Ready() && Reduced() && Sent(env, prompts, turn, attempt) && Remembers() && Grounds()
        invariant attempt == 2 ==> Caused(NoUsableAnswer, env, ToReport())
        invariant mustConclude ==> forced
        invariant !forced ==> stoppedBy == old(stoppedBy)
        invariant stoppedBy == old(stoppedBy) || (attempt >= 1 && OutOfContext(attempt))
      {
        var step := TryOnce(turn, attempt, forced);
        match step
        case Again(must) => forced := must;
        case Settle(settled) => return settled, forced;
      }
      move := GiveUp(NoUsableAnswer);
    }

    // --- one batch of reads --------------------------------------------------------------------

    /** The call asks for prior history that is there, in range and not yet read, and a read is left. */
    predicate MayReadHistory(call: ToolCall)
      reads this`executed, this`historyRead
    {
      && env.conversation && historyBefore > 1
      && call.beforeSequence.Some? && 1 <= call.beforeSequence.value <= historyBefore
      && Identity(call) !in historyRead && executed < maxRuns
    }

    /** The call may read, the store gives a page, and that page can be delivered. */
    predicate Readable(call: ToolCall)
      reads this`executed, this`historyRead, this`historyReads, this`checks
    {
      MayReadHistory(call) && env.history(historyReads, call.beforeSequence.value).Some?
      && Deliverable(Reserved(env.history(historyReads, call.beforeSequence.value).value), |checks|)
    }

    /** The page is what read `read` got from the store, bounded, with its notice where the last lookup made it due. */
    ghost predicate Fetched(page: HistoryPage, read: nat, cursor: Option<int>)
      reads this`checks
    {
      && FromStore(env, page, read, cursor)
      && checks != [] && NoticeIsDue(page, checks[|checks| - 1])
    }

    /** Delivers a page exactly when it can; a read is spent exactly when the call may read. */
    method ReadHistory(call: ToolCall) returns (feedback: Feedback)
      requires Budgeted()
      modifies this`executed, this`historyReads, this`checks, this`historyRead
      ensures Budgeted()
      ensures !feedback.ToolFeedback? && feedback.callId == call.id
      ensures var spent := if old(MayReadHistory(call)) then 1 else 0;
              executed == old(executed) + spent && historyReads == old(historyReads) + spent
      ensures feedback.HistoryRead? <==> old(Readable(call))
      ensures historyRead == old(historyRead) + if feedback.HistoryRead? then {Identity(call)} else {}
      ensures feedback.HistoryRead? ==> Fetched(feedback.page, old(historyReads), call.beforeSequence)
    {
      if !env.conversation || historyBefore <= 1 { return HistoryFailed(call.id, NotAvailable); }
      if call.beforeSequence.None? || !(1 <= call.beforeSequence.value <= historyBefore) {
        return HistoryFailed(call.id, OutOfRange);
      }
      if Identity(call) in historyRead { return HistoryFailed(call.id, AlreadyRead); }
      if executed >= maxRuns { return HistoryFailed(call.id, LimitReached); }
      feedback := FetchHistory(call);
      if feedback.HistoryRead? { historyRead := historyRead + {Identity(call)}; }
    }

    /** Spends a read on the store's next page. */
    method FetchHistory(call: ToolCall) returns (feedback: Feedback)
      requires Budgeted() && executed < maxRuns && call.beforeSequence.Some?
      modifies this`executed, this`historyReads, this`checks
      ensures Budgeted() && executed == old(executed) + 1 && historyReads == old(historyReads) + 1
      ensures !feedback.ToolFeedback? && feedback.callId == call.id
      ensures feedback.HistoryRead? <==>
                && env.history(old(historyReads), call.beforeSequence.value).Some?
                && Deliverable(Reserved(env.history(old(historyReads), call.beforeSequence.value).value), |old(checks)|)
      ensures feedback.HistoryRead? ==> Fetched(feedback.page, old(historyReads), call.beforeSequence)
    {
      executed := executed + 1;
      var read := env.history(historyReads, call.beforeSequence.value);
      historyReads := historyReads + 1;
      if read.None? { return HistoryFailed(call.id, NotRead); }
      var page, error := PreparePage(Reserved(read.value));
      feedback := if page.None? then HistoryFailed(call.id, error) else HistoryRead(call.id, page.value);
    }

    /** Looks the references up; None when the store could not say. */
    method AnyMissing(refs: seq<EvidenceRef>) returns (missing: Option<bool>)
      modifies this`checks
      ensures var check := Check(refs, env.stored(|old(checks)|));
              && checks == old(checks) + [check]
              && missing == if check.stored.None? then None else Some(FoundMissing(check))
    {
      var check := Check(refs, env.stored(|checks|));
      checks := checks + [check];
      missing := if check.stored.None? then None else Some(FoundMissing(check));
    }

    /** Looks up what the findings of a page rest on; None exactly when the store could not say. */
    method CheckPage(page: HistoryPage) returns (missing: Option<bool>)
      modifies this`checks
      ensures |checks| == |old(checks)| + 1 && checks[..|old(checks)|] == old(checks)
      ensures Asks(checks[|old(checks)|], page) && checks[|old(checks)|].stored == env.stored(|old(checks)|)
      ensures missing.None? <==> env.stored(|old(checks)|).None?
      ensures missing.Some? ==> missing.value == FoundMissing(checks[|old(checks)|])
    {
      var refs := HistoryEvidence(page);
      missing := AnyMissing(refs);
    }

    /** A page with its notice reserved can be delivered: some of it fits, and its citations can be looked up. */
    predicate Deliverable(reserved: HistoryPage, lookup: nat) {
      !Unboundable(reserved, env.sizes) && env.stored(lookup).Some?
    }

    /** Bounds a page that has the notice reserved, then checks the citations it kept. */
    method PreparePage(reserved: HistoryPage) returns (page: Option<HistoryPage>, error: HistoryError)
      requires reserved.missingEvidence
      modifies this`checks
      ensures page.Some? <==> Deliverable(reserved, |old(checks)|)
      ensures page.None? ==> error == if Unboundable(reserved, env.sizes) then TooLarge else EvidenceUnchecked
      ensures page.Some? ==> Fits(page.value, env.sizes) && Delivers(reserved, page.value, env.sizes)
      ensures page.Some? ==> checks != [] && NoticeIsDue(page.value, checks[|checks| - 1])
    {
      page, error := None, TooLarge;
      var bounded := BoundHistoryPage(reserved, env.sizes);
      if bounded.None? { return; }
      var missing := CheckPage(bounded.value);
      if missing.None? { return None, EvidenceUnchecked; }
      page := Some(Settled(bounded.value, missing.value));
      SettledIsDue(reserved, bounded.value, checks[|checks| - 1], env.sizes);
    }

    /** What a delivered page shows becomes citable, and nothing else does. */
    method ServeHistory(call: ToolCall) returns (feedback: Feedback)
      requires Budgeted()
      modifies this`executed, this`historyReads, this`checks, this`historyRead, this`priorEvidence,
               this`missingEvidence, this`noticed
      ensures Budgeted()
      ensures !feedback.ToolFeedback? && feedback.callId == call.id
      ensures forall ref :: ref in priorEvidence <==>
                ref in old(priorEvidence) || (feedback.HistoryRead? && PageRestsOn(feedback.page, ref))
      ensures feedback.HistoryRead? <==> call.error == Usable && old(Readable(call))
      ensures feedback.HistoryRead? ==> Fetched(feedback.page, old(historyReads), call.beforeSequence)
      ensures old(historyReads) <= historyReads && old(executed) <= executed
      ensures feedback.HistoryRead? ==> historyReads == old(historyReads) + 1
      ensures noticed <==> old(noticed) || (feedback.HistoryRead? && feedback.page.missingEvidence)
      ensures old(Mindful()) ==> Mindful()
    {
      if call.error != Usable { return HistoryFailed(call.id, MalformedCall); }
      feedback := ReadHistory(call);
      if feedback.HistoryRead? {
        var shown := HistoryEvidence(feedback.page);
        priorEvidence := priorEvidence + shown;
        missingEvidence := missingEvidence || feedback.page.missingEvidence;
        noticed := noticed || feedback.page.missingEvidence;
      }
    }

    method RecordToolRun(run: ToolRun, origin: Origin) returns (recorded: bool)
      modifies this`runs, this`origins
      ensures recorded == !env.recordFails(|old(runs)|)
      ensures recorded ==> runs == old(runs) + [run] && origins == old(origins) + [origin]
      ensures !recorded ==> runs == old(runs) && origins == old(origins)
    {
      recorded := !env.recordFails(|runs|);
      if recorded { runs, origins := runs + [run], origins + [origin]; }
    }

    /** The next run was made as its origin says, and no execution but its own is still to be recorded. */
    predicate Next(origin: Origin)
      reads this`origins, this`executions, this`executed
    {
      var made, owed := Made(env, executions, origins, origin, executed >= maxRuns), Owed(executions, origins, origin);
      made && owed
    }

    /** Prepares a run, records it, and keeps where it comes from. */
    method PrepareAndRecord(origin: Origin) returns (prepared: ToolRun, recorded: bool)
      requires Accounts() && Next(origin)
      modifies this`runs, this`origins
      ensures Accounts()
      ensures Prepared(prepared) && prepared.outcome == origin.raw.outcome
      ensures recorded == !env.recordFails(|old(runs)|) && (recorded ==> AllRecorded(executions, |runs|))
      ensures recorded ==> runs == old(runs) + [prepared] && origins == old(origins) + [origin]
      ensures !recorded ==> runs == old(runs) && origins == old(origins)
    {
      prepared := PrepareObservation(origin.raw, env.redactor(|runs|));
      GrowAccounts(origin, prepared);
      recorded := RecordToolRun(prepared, origin);
    }

    /** The accounts stand with one more run. */
    lemma {:induction false} GrowAccounts(origin: Origin, prepared: ToolRun)
      requires Accounts() && Next(origin)
      requires PreparedFrom(prepared, origin.raw, env.redactor(|runs|))
      ensures var ledger := Ledger(env, executions, origins + [origin], runs + [prepared], executed >= maxRuns);
              ledger && Placed(executions, origins + [origin]) && AllRecorded(executions, |runs| + 1)
    {
      LedgerGrows(env, executions, origins, runs, executed >= maxRuns, origin, prepared);
      PlacedGrows(executions, origins, origin);
    }

    /** The run may end in this failure now. */
    predicate FailsFor(why: Failure)
      reads this
    {
      var inTurn, caused := InTurn(why), Caused(why, env, ToReport());
      inTurn && caused
    }

    /** A batch cannot go on: the next execution was refused its audit, or the next run could not be recorded. */
    predicate Stopped(why: Failure)
      reads this`executions, this`runs
    {
      || (why == CredentialAuditFailed && env.execute(|executions|).AuditRefused?)
      || (why == RunNotRecorded && env.recordFails(|runs|))
    }

    lemma {:induction false} StoppingFails(why: Failure)
      requires Stopped(why)
      ensures FailsFor(why)
    {
    }

    /** Every identity executed this turn points at the run made for it in this batch, and all of them do. */
    predicate Executed(turn: nat, executedCalls: map<string, nat>)
      reads this`origins, this`executions
    {
      var tracked := Tracks(env, executions, origins, turn, executedCalls);
      tracked
    }

    /** Once the run of `origin` is recorded, every identity executed this turn is tracked. */
    predicate WillTrack(turn: nat, origin: Origin, executedCalls: map<string, nat>)
      reads this`origins, this`executions
    {
      var tracked := Tracks(env, executions, origins + [origin], turn, executedCalls);
      tracked
    }

    /** A read runs when its arguments are usable, this batch has not run it, and the budget allows. */
    predicate Runs(call: ToolCall, executedCalls: map<string, nat>)
      reads this`executed
    {
      call.error == Usable && IdentityOf(env, call) !in executedCalls && executed < maxRuns
    }

    /** Makes one run: dropped, suppressed as a duplicate of this batch, out of budget, or executed. */
    method MakeRun(turn: nat, place: nat, call: ToolCall, executedCalls: map<string, nat>)
      returns (origin: Origin, audited: bool, executedAfter: map<string, nat>)
      requires Orderly() && AllRecorded(executions, |origins|) && AllBy(executions, turn)
      requires Executed(turn, executedCalls)
      modifies this`executed, this`executions
      ensures Orderly()
      ensures if old(Runs(call, executedCalls)) && audited
              then executions == old(executions) + [Execution(turn, |origins| + 1, IdentityOf(env, call))]
              else executions == old(executions)
      ensures !audited ==> env.execute(|old(executions)|).AuditRefused?
      ensures audited ==> Next(origin)
      ensures origin.turn == turn && origin.place == place && origin.asked == call
      ensures AllBy(executions, turn) && (!audited ==> AllRecorded(executions, |origins|))
      ensures audited ==> WillTrack(turn, origin, executedAfter)
      ensures audited ==> (origin.raw.outcome == RunSucceeded <==>
                             && old(Runs(call, executedCalls)) && RouteOf(env, call).Some?
                             && env.execute(|old(executions)|).ToolAnswered?)
    {
      if Runs(call, executedCalls) {
        origin, audited, executedAfter := Execute(turn, place, call, executedCalls);
      } else {
        origin := Skip(turn, place, call, executedCalls);
        audited, executedAfter := true, executedCalls;
        TracksMore(env, executions, origins, turn, executedCalls, origin);
      }
    }

    /** Makes the run of a read that is not executed: unusable, a repeat, or past the budget. */
    method Skip(turn: nat, place: nat, call: ToolCall, executedCalls: map<string, nat>) returns (origin: Origin)
      requires Orderly() && AllRecorded(executions, |origins|)
      requires Executed(turn, executedCalls) && !Runs(call, executedCalls)
      ensures Next(origin)
      ensures origin.turn == turn && origin.place == place && origin.asked == call
      ensures origin.raw.outcome == RunFailed && !origin.how.Performed?
    {
      ghost var spent := executed >= maxRuns;
      if call.error != Usable {
        origin := Drop(env, turn, place, call, |runs| + 1, Complaint(call.error));
        UnusableIsMade(env, executions, origins, origin, spent);
      } else if IdentityOf(env, call) in executedCalls {
        var k := executedCalls[IdentityOf(env, call)] - 1;
        RecordedAs(env, executions, origins, runs, spent, k);
        origin := Repeat(env, turn, place, call, |runs| + 1, k, runs[k]);
        RepeatIsMade(env, executions, origins, origin, spent, k);
      } else {
        origin := Drop(env, turn, place, call, |runs| + 1, BudgetSpent(maxRuns));
        NotRunYet(env, executions, origins, runs, spent, origin);
        ExhaustedIsMade(env, executions, origins, origin, spent);
      }
      NothingIsOwed(executions, origins, origin);
    }

    /** The books once the execution of `origin` is entered. */
    lemma {:induction false} ExecuteOneMore(origin: Origin, executedCalls: map<string, nat>)
      requires Orderly() && AllRecorded(executions, |origins|) && AllBy(executions, origin.turn)
      requires Executed(origin.turn, executedCalls) && Runs(origin.asked, executedCalls)
      requires PerformedAs(env, origin, |origins| + 1, |executions|)
      ensures var identity, ordinal := IdentityOf(env, origin.asked), |origins| + 1;
              var more, spent := executions + [Execution(origin.turn, ordinal, identity)], executed + 1 >= maxRuns;
              var ledger, made := Ledger(env, more, origins, runs, spent), Made(env, more, origins, origin, spent);
              var placed, once, owed := Placed(more, origins), NoneTwice(more), Owed(more, origins, origin);
              var inTurn := AllBy(more, origin.turn);
              var tracks := Tracks(env, more, origins + [origin], origin.turn, executedCalls[identity := ordinal]);
              ledger && made && placed && once && owed && inTurn && tracks
    {
      var identity, ordinal := IdentityOf(env, origin.asked), |origins| + 1;
      var more := executions + [Execution(origin.turn, ordinal, identity)];
      OneMore(env, executions, origins, origin, executedCalls);
      LedgerStands(env, executions, more, origins, runs, executed >= maxRuns, executed + 1 >= maxRuns);
      assert more[|executions|] == Execution(origin.turn, ordinal, identity);
    }

    /** Runs the tool of a read, and makes the run of what it answered. */
    method Execute(turn: nat, place: nat, call: ToolCall, executedCalls: map<string, nat>)
      returns (origin: Origin, audited: bool, executedAfter: map<string, nat>)
      requires Orderly() && AllRecorded(executions, |origins|) && AllBy(executions, turn)
      requires Executed(turn, executedCalls) && Runs(call, executedCalls)
      modifies this`executed, this`executions
      ensures Orderly()
      ensures if audited
              then executions == old(executions) + [Execution(turn, |origins| + 1, IdentityOf(env, call))]
              else executions == old(executions)
      ensures AllBy(executions, turn) && (audited ==> WillTrack(turn, origin, executedAfter))
      ensures !audited ==> env.execute(|old(executions)|).AuditRefused?
      ensures audited ==> Next(origin)
      ensures origin.turn == turn && origin.place == place && origin.asked == call && origin.how.Performed?
      ensures origin.raw.outcome == RunSucceeded <==>
                RouteOf(env, call).Some? && env.execute(|old(executions)|).ToolAnswered?
    {
      executedAfter := executedCalls;
      origin, audited := Perform(env, turn, place, call, |runs| + 1, |executions|);
      if audited {
        ExecuteOneMore(origin, executedCalls);
        executed := executed + 1;
        executions := executions + [Execution(turn, |runs| + 1, IdentityOf(env, call))];
        executedAfter := executedCalls[IdentityOf(env, call) := |runs| + 1];
      }
    }

    /** Answers one read with the run recorded for it. */
    method ServeRead(turn: nat, place: nat, call: ToolCall, executedCalls: map<string, nat>)
      returns (feedback: Feedback, failed: Option<Failure>, executedAfter: map<string, nat>)
      requires Orderly() && Executed(turn, executedCalls)
      requires AllRecorded(executions, |runs|) && AllBy(executions, turn)
      modifies this`runs, this`origins, this`executed, this`executions
      ensures Orderly() && AllBy(executions, turn) && GrewFrom(old(Basis()), Basis())
      ensures if old(Runs(call, executedCalls)) && failed != Some(CredentialAuditFailed)
              then executions == old(executions) + [Execution(turn, |old(origins)| + 1, IdentityOf(env, call))]
              else executions == old(executions)
      ensures failed.Some? ==> Stopped(failed.value)
      ensures failed != Some(RunNotRecorded) ==> AllRecorded(executions, |runs|)
      ensures !feedback.HistoryRead?
      ensures failed.None? ==>
                && Executed(turn, executedAfter)
                && feedback.ToolFeedback? && Renderable(feedback) && feedback.callId == call.id
                && runs == old(runs) + [feedback.run] && |origins| == |runs|
                && origins[|runs| - 1].place == place && origins[|runs| - 1].asked == call
                && (feedback.run.outcome == RunSucceeded <==>
                      && old(Runs(call, executedCalls)) && RouteOf(env, call).Some?
                      && env.execute(|old(executions)|).ToolAnswered?)
    {
      var origin, audited;
      origin, audited, executedAfter := MakeRun(turn, place, call, executedCalls);
      feedback, failed := HistoryFailed(call.id, NotRead), None;
      if !audited { return feedback, Some(CredentialAuditFailed), executedCalls; }
      feedback, failed := AnswerWith(origin);
    }

    /** Records a run and answers its call with it. */
    method AnswerWith(origin: Origin) returns (feedback: Feedback, failed: Option<Failure>)
      requires Accounts() && Next(origin)
      modifies this`runs, this`origins
      ensures Accounts() && !feedback.HistoryRead? && GrewFrom(old(Basis()), Basis())
      ensures failed.Some? ==> failed == Some(RunNotRecorded) && Stopped(RunNotRecorded)
      ensures failed.Some? ==> runs == old(runs) && origins == old(origins)
      ensures failed.None? ==>
                && feedback.ToolFeedback? && Renderable(feedback) && feedback.callId == origin.asked.id
                && runs == old(runs) + [feedback.run] && origins == old(origins) + [origin]
                && |origins| == |runs| && origins[|runs| - 1] == origin
                && feedback.run.outcome == origin.raw.outcome && AllRecorded(executions, |runs|)
    {
      var run, recorded := PrepareAndRecord(origin);
      feedback, failed := HistoryFailed(origin.asked.id, NotRead), None;
      if !recorded { return feedback, Some(RunNotRecorded); }
      feedback := ToolFeedback(origin.asked.id, run);
    }

    ghost predicate Gained(before: Evidence, feedback: Feedback)
      requires Renderable(feedback)
      reads this`priorEvidence, this`runs, this`noticed
    {
      var gains := Gains(before, Holdings(), RenderResult(feedback).content);
      gains
    }

    ghost predicate GroundedAnswer(feedback: Feedback, calls: seq<CompletionCall>, place: nat)
      requires Renderable(feedback)
      reads this`runs, this`origins, this`historyReads
    {
      var grounded := ResultGrounded(RenderResult(feedback), calls, place, env, Basis());
      grounded
    }

    /** Answers one call of turn `place`: a history read by its page, any other by its recorded run. */
    method Serve(
        turn: nat, place: nat, call: ToolCall, executedCalls: map<string, nat>, ghost calls: seq<CompletionCall>)
      returns (feedback: Feedback, failed: Option<Failure>, executedAfter: map<string, nat>)
      requires Orderly() && Executed(turn, executedCalls)
      requires AllRecorded(executions, |runs|) && AllBy(executions, turn) && Requested(call, calls)
      modifies this`runs, this`origins, this`executed, this`executions, this`historyReads, this`checks,
               this`historyRead, this`priorEvidence, this`missingEvidence, this`noticed
      ensures Orderly()
      ensures AllBy(executions, turn)
      ensures failed.Some? ==> Stopped(failed.value)
      ensures failed != Some(RunNotRecorded) ==> AllRecorded(executions, |runs|)
      ensures failed.None? ==>
                && Executed(turn, executedAfter) && Renderable(feedback) && feedback.callId == call.id
                && runs == old(runs) + RunsOf([feedback])
                && feedback.ToolFeedback? == (call.tool != HISTORY_TOOL)
                && GroundedAnswer(feedback, calls, place)
      ensures feedback.HistoryRead? <==> call.tool == HISTORY_TOOL && call.error == Usable && old(Readable(call))
      ensures GrewFrom(old(Basis()), Basis())
      ensures failed.None? ==> Gained(old(Holdings()), feedback)
      ensures old(Mindful()) ==> Mindful()
    {
      failed, executedAfter := None, executedCalls;
      if call.tool == HISTORY_TOOL {
        feedback := ServePage(place, call, calls);
      } else {
        feedback, failed, executedAfter := ServeRead(turn, place, call, executedCalls);
        if failed.None? {
          ToolIsGrounded(feedback, call, calls, place, env, Basis());
          RunGains(old(Holdings()), feedback);
        }
      }
      RunsOfOne(feedback);
    }

    /** Answers a history call of turn `place` with its page. */
    method ServePage(ghost place: nat, call: ToolCall, ghost calls: seq<CompletionCall>) returns (feedback: Feedback)
      requires Orderly() && Requested(call, calls) && call.tool == HISTORY_TOOL
      modifies this`executed, this`historyReads, this`checks, this`historyRead, this`priorEvidence,
               this`missingEvidence, this`noticed
      ensures Orderly() && !feedback.ToolFeedback? && feedback.callId == call.id
      ensures GroundedAnswer(feedback, calls, place) && GrewFrom(old(Basis()), Basis())
      ensures feedback.HistoryRead? <==> call.error == Usable && old(Readable(call))
      ensures Gained(old(Holdings()), feedback) && (old(Mindful()) ==> Mindful())
    {
      feedback := ServeHistory(call);
      LedgerStands(env, executions, executions, origins, runs, old(executed) >= maxRuns, executed >= maxRuns);
      HistoryIsGrounded(feedback, call, calls, place, env, Basis());
      PageGains(old(Holdings()), Holdings(), feedback);
    }

    /** The last turn, whose reads are being answered. */
    predicate Answering(calls: seq<ToolCall>)
      reads this`transcript
    {
      transcript != [] && AllDecoded(calls, Reads(transcript[|transcript| - 1].calls))
    }

    ghost predicate Answers(results: seq<Feedback>)
      requires AllRenderable(results) && transcript != []
      reads this`transcript, this`runs, this`origins, this`historyReads
    {
      ResultsGrounded(Rendered(results), transcript[|transcript| - 1].calls, |transcript| - 1, env, Basis())
    }

    /** Between two reads of a batch: what was run is accounted for, tracked and grounded. */
    ghost predicate Between(turn: nat, calls: seq<ToolCall>, executedCalls: map<string, nat>)
      reads this`transcript, this`runs, this`origins, this`executions, this`executed, this`historyReads, this`prompts,
            this`noticed, this`missingEvidence
    {
      var answering, orderly, recorded := Answering(calls), Orderly(), AllRecorded(executions, |runs|);
      var tracked, inTurn := Executed(turn, executedCalls), AllBy(executions, turn);
      var grounds, mindful := Grounds(), Mindful();
      answering && orderly && recorded && tracked && inTurn && grounds && mindful
    }

    /** The first reads of a batch have been answered, and what the answers show is what was gained by them. */
    ghost predicate Served(
        turn: nat, calls: seq<ToolCall>, results: seq<Feedback>, executedCalls: map<string, nat>, before: seq<ToolRun>)
      reads this
    {
      var between, renderable := Between(turn, calls, executedCalls), AllRenderable(results);
      var inOrder := InOrder(results, calls);
      && between && renderable && inOrder
      && var shown, answers := ShownBy(Holdings(), transcript, Rendered(results)), Answers(results);
         shown && answers && runs == before + RunsOf(results)
    }

    /** Answers the next read of a batch, or ends the run. */
    method ServeNext(
        turn: nat, calls: seq<ToolCall>, results: seq<Feedback>, executedCalls: map<string, nat>,
        ghost before: seq<ToolRun>)
      returns (more: seq<Feedback>, failed: Option<Failure>, executedAfter: map<string, nat>)
      requires Served(turn, calls, results, executedCalls, before) && |results| < |calls|
      modifies this`runs, this`origins, this`executed, this`executions, this`historyReads, this`checks,
               this`historyRead, this`priorEvidence, this`missingEvidence, this`noticed
      ensures failed.None? ==>
                var served := Served(turn, calls, more, executedAfter, before);
                served && |more| == |results| + 1
      ensures failed.Some? ==> Orderly() && Grounds() && Stopped(failed.value)
      ensures failed.Some? && failed != Some(RunNotRecorded) ==> AllRecorded(executions, |runs|)
    {
      var i, place := |results|, |transcript| - 1;
      var feedback;
      ghost var ground, last := Basis(), transcript[|transcript| - 1];
      ReadsAreRequested(calls, last.calls, i);
      feedback, failed, executedAfter := Serve(turn, place, calls[i], executedCalls, last.calls);
      TurnsGroundedLater(transcript, env, ground, Basis());
      more := results;
      if failed.Some? { return; }
      ServedMore(turn, calls, results, feedback, executedAfter, before, ground, old(Holdings()));
      more := results + [feedback];
    }

    /** One more read of the batch has been answered, since the run stood on `ground` and held `held`. */
    lemma {:induction false} ServedMore(
        turn: nat, calls: seq<ToolCall>, results: seq<Feedback>, feedback: Feedback, executedCalls: map<string, nat>,
        before: seq<ToolRun>, ground: Ground, held: Evidence)
      requires Between(turn, calls, executedCalls) && AllRenderable(results) && Renderable(feedback)
      requires InOrder(results, calls) && |results| < |calls| && feedback.callId == calls[|results|].id
      requires runs == before + RunsOf(results) + RunsOf([feedback]) && GrewFrom(ground, Basis())
      requires var last, place := transcript[|transcript| - 1], |transcript| - 1;
               var grounded := ResultsGrounded(Rendered(results), last.calls, place, env, ground);
               var shown := ShownBy(held, transcript, Rendered(results));
               grounded && shown && GroundedAnswer(feedback, last.calls, place) && Gained(held, feedback)
      ensures Served(turn, calls, results + [feedback], executedCalls, before)
    {
      var last, place := transcript[|transcript| - 1], |transcript| - 1;
      AnswersAppend(results, feedback, last.calls, place, env, ground, Basis());
      ShownAppend(held, Holdings(), transcript, results, feedback);
      InOrderAppend(results, calls, feedback);
      RunsOfAppend(before, results, feedback);
    }

    /** Answers every call of the move once and in order, or ends the run. */
    method Batch(turn: nat, calls: seq<ToolCall>) returns (results: seq<Feedback>, failed: Option<Failure>)
      requires Orderly() && AllRecorded(executions, |runs|) && Holding() && Grounds()
      requires Answering(calls)
      requires forall i :: 0 <= i < |executions| ==> executions[i].turn < turn
      modifies this`runs, this`origins, this`executed, this`executions, this`historyReads, this`checks,
               this`historyRead, this`priorEvidence, this`missingEvidence, this`noticed
      ensures Orderly() && Grounds()
      ensures failed.Some? ==> Stopped(failed.value)
      ensures failed != Some(RunNotRecorded) ==> AllRecorded(executions, |runs|)
      ensures failed.None? ==>
                && AllRenderable(results) && Answers(results) && HoldsShown(results)
                && runs == old(runs) + RunsOf(results) && ResultIds(Rendered(results)) == CallIds(calls)
                && AllBy(executions, turn)
    {
      results, failed := [], None;
      var executedCalls: map<string, nat> := map[];
      assert runs == old(runs) + RunsOf([]);
      for i := 0 to |calls|
        invariant failed.None? && |results| == i && Served(turn, calls, results, executedCalls, old(runs))
      {
        results, failed, executedCalls := ServeNext(turn, calls, results, executedCalls, old(runs));
        if failed.Some? { return; }
      }
      assert ResultIds(Rendered(results)) == CallIds(calls);
    }

    /** What the run holds is what the transcript shows plus what the pending answers will. */
    ghost predicate HoldsShown(results: seq<Feedback>)
      requires AllRenderable(results)
      reads this`priorEvidence, this`transcript, this`runs, this`noticed, this`missingEvidence
    {
      var mindful, shown := Mindful(), ShownBy(Holdings(), transcript, Rendered(results));
      mindful && shown
    }

    // --- the whole run -------------------------------------------------------------------------

    /** Before a turn: the last batch's answers, if any, are exactly what the transcript still owes. */
    ghost predicate Pending(results: seq<Feedback>)
      reads this`transcript, this`priorEvidence, this`runs, this`origins, this`historyReads, this`noticed,
            this`missingEvidence
    {
      && AllRenderable(results)
      && if results == [] then Ready()
         else
           && transcript != []
           && var owed, shown := Awaiting(transcript, ResultIds(Rendered(results))), HoldsShown(results);
              var answers := Answers(results);
              owed && shown && answers
    }

    method Deliver(results: seq<Feedback>)
      requires Pending(results) && Grounds()
      modifies this`transcript
      ensures Grounds()
      ensures Ready() && CallsOf(transcript) == old(CallsOf(transcript))
    {
      if results == [] { return; }
      var rendered := Rendered(results);
      if transcript == [] { assert false; }
      DeliverySettles(transcript, rendered);
      DeliveryKeepsGround(prompts, transcript, rendered, env, Basis());
      transcript := Delivered(transcript, rendered);
    }

    method CheckCeilings(turn: nat)
      requires stoppedBy == NotStopped
      requires maxRuns == MaxRuns(env) && maxTurns == MaxTurns(env)
      modifies this`stoppedBy
      ensures Explains(stoppedBy, env, turn, executed, prompts) && stoppedBy != ContextFilled
    {
      if executed >= maxRuns {
        stoppedBy := ToolRuns;
      } else if turn > maxTurns {
        stoppedBy := ReasonerTurns;
      } else if env.timeAlmostOver(turn) {
        stoppedBy := WallClock;
      }
    }

    /** What holds at every point of a run that has made no terminal write, `asked` turns in. */
    ghost predicate Bookkept(asked: nat)
      reads this`writes, this`runs, this`origins, this`executed, this`executions, this`historyReads, this`reductions,
            this`oriented, this`prompts
    {
      var orderly, reduced := Orderly(), Reduced();
      var faithful, scheduled, sent := AllFaithful(prompts), Scheduled(prompts, asked), AllSent(env, prompts);
      && writes == [] && maxRuns == MaxRuns(env) && maxTurns == MaxTurns(env)
      && orderly && reduced && faithful && scheduled && sent
    }

    ghost predicate Going(turn: nat, results: seq<Feedback>)
      reads this
    {
      && 1 <= turn <= maxTurns + 1 && turns == turn - 1 && stoppedBy == NotStopped && Bookkept(turn - 1)
      && Uncancelled(env, turns)
      && (forall i :: 0 <= i < |executions| ==> executions[i].turn < turn) && AllRecorded(executions, |runs|)
      && Pending(results) && Remembers() && Grounds()
    }

    /** A turn leaves the run going, or ended by its terminal write with all promised of it kept. */
    ghost predicate Left(turn: nat, ended: bool, next: seq<Feedback>)
      reads this
    {
      var going, kept := Going(turn + 1, next), Kept(env, ToReport());
      if ended then kept && (writes[0].Fail? ==> InTurn(writes[0].why)) else going
    }

    /** The one terminal write of a run. */
    method End(write: TerminalWrite)
      requires turns <= maxTurns + 1 && Bookkept(turns) && Uncancelled(env, turns) && Grounds()
      requires write != Fail(RunNotRecorded) ==> AllRecorded(executions, |runs|)
      requires write.Fail? ==> FailsFor(write.why)
      requires write.Conclude? ==> WellSupported(write.conclusion, env, runs, prompts, checks)
      requires write.Conclude? ==> Explains(write.stoppedBy, env, turns, executed, prompts)
      modifies this`writes
      ensures writes == [write] && Kept(env, ToReport())
    {
      LedgerIsNumbered(env, executions, origins, runs, executed >= maxRuns);
      if write.Fail? { CauseStands(write.why, env, ToReport(), [write]); }
      writes := writes + [write];
    }

    /** Opens a turn: a ceiling that is met, or nothing to read, forces a conclusion. */
    method OpenTurn(turn: nat) returns (mustConclude: bool)
      requires turn == turns + 1 && stoppedBy == NotStopped && maxRuns == MaxRuns(env) && maxTurns == MaxTurns(env)
      requires Uncancelled(env, turns) && !env.cancelled(turn)
      modifies this`turns, this`stoppedBy
      ensures turns == turn && Uncancelled(env, turns)
      ensures mustConclude <==> stoppedBy != NotStopped || (Offered(env) == [] && historyBefore <= 1)
      ensures Explains(stoppedBy, env, turn, executed, prompts) && stoppedBy != ContextFilled
    {
      turns := turns + 1;
      CheckCeilings(turn);
      mustConclude := stoppedBy != NotStopped || (Offered(env) == [] && historyBefore <= 1);
    }

    /** Carries out a turn's move. */
    method Resolve(turn: nat, move: Move, forced: bool) returns (ended: bool, next: seq<Feedback>)
      requires turns == turn >= 1 && turn <= maxTurns + 1 && Bookkept(turn) && Outcome(move, forced)
      requires Uncancelled(env, turns) && Grounds()
      requires (forall i :: 0 <= i < |executions| ==> executions[i].turn < turn) && AllRecorded(executions, |runs|)
      requires move.MakeCalls? ==> stoppedBy == NotStopped
      requires Explains(stoppedBy, env, turns, executed, prompts)
      modifies this
      ensures Left(turn, ended, next)
    {
      ended, next := true, [];
      match move {
        case GiveUp(why) => End(Fail(why));
        case Finish(conclusion) => End(Conclude(conclusion, stoppedBy));
        case MakeCalls(calls) =>
          if forced { assert false; }
          ended, next := RunBatch(turn, calls);
      }
    }

    /** After a batch whose answers are all pending, the run is going on to the next turn. */
    lemma {:induction false} StillGoing(turn: nat, next: seq<Feedback>)
      requires turns == turn >= 1 && turn <= maxTurns && stoppedBy == NotStopped && next != [] && AllRenderable(next)
      requires var bookkept, recorded := Bookkept(turn), AllRecorded(executions, |runs|);
               bookkept && recorded && Uncancelled(env, turns)
      requires var inTurn, remembers, grounds := AllBy(executions, turn), Remembers(), Grounds();
               inTurn && remembers && grounds
      requires transcript != []
      requires var owed, shown := Awaiting(transcript, ResultIds(Rendered(next))), HoldsShown(next);
               owed && shown && Answers(next)
      ensures Going(turn + 1, next)
    {
    }

    /** Runs a batch of reads; if it cannot go on, the run ends. */
    method RunBatch(turn: nat, calls: seq<ToolCall>) returns (ended: bool, next: seq<Feedback>)
      requires turns == turn >= 1 && turn <= maxTurns && Bookkept(turn) && Uncancelled(env, turns) && Grounds()
      requires (forall i :: 0 <= i < |executions| ==> executions[i].turn < turn) && AllRecorded(executions, |runs|)
      requires stoppedBy == NotStopped && calls != [] && Remembers()
      requires Awaiting(transcript, CallIds(calls)) && Holding() && Answering(calls)
      modifies this
      ensures Left(turn, ended, next)
    {
      var failed;
      next, failed := Batch(turn, calls);
      ended := failed.Some?;
      if ended {
        StoppingFails(failed.value);
        End(Fail(failed.value));
      } else {
        StillGoing(turn, next);
      }
    }

    /** One outer turn: it either ends the run with its one terminal write or leaves answers to deliver. */
    method TakeTurn(turn: nat, results: seq<Feedback>) returns (ended: bool, next: seq<Feedback>)
      requires Going(turn, results)
      modifies this
      ensures Left(turn, ended, next)
    {
      if env.cancelled(turn) {
        End(Fail(Cancelled));
        return true, [];
      }
      var mustConclude := OpenTurn(turn);
      ended, next := DeliverAndAct(turn, results, mustConclude);
    }

    /** Delivers what the last batch owes, then acts on the model's answer to it. */
    method DeliverAndAct(
        turn: nat, results: seq<Feedback>, mustConclude: bool)
      returns (ended: bool, next: seq<Feedback>)
      requires turns == turn >= 1 && turn <= maxTurns + 1 && Bookkept(turn - 1) && Pending(results) && Remembers()
      requires Uncancelled(env, turns) && Grounds()
      requires stoppedBy != NotStopped ==> mustConclude
      requires Explains(stoppedBy, env, turn, executed, prompts) && stoppedBy != ContextFilled
      requires (forall i :: 0 <= i < |executions| ==> executions[i].turn < turn) && AllRecorded(executions, |runs|)
      modifies this
      ensures Left(turn, ended, next)
    {
      Deliver(results);
      ended, next := Act(turn, mustConclude);
    }

    /** Reaches a move and carries it out. */
    method Act(turn: nat, mustConclude: bool) returns (ended: bool, next: seq<Feedback>)
      requires turns == turn >= 1 && turn <= maxTurns + 1 && Bookkept(turn - 1) && Ready() && Remembers()
      requires Uncancelled(env, turns) && Grounds()
      requires stoppedBy != NotStopped ==> mustConclude
      requires Explains(stoppedBy, env, turn, executed, prompts) && stoppedBy != ContextFilled
      requires (forall i :: 0 <= i < |executions| ==> executions[i].turn < turn) && AllRecorded(executions, |runs|)
      modifies this
      ensures Left(turn, ended, next)
    {
      var move, forced := Decide(turn, mustConclude);
      ended, next := Resolve(turn, move, forced);
    }

    function ToReport(): Report
      reads this
    {
      Report(writes, turns, prompts, runs, origins, executions, historyReads, checks, reductions, transcript)
    }
  }

  lemma {:induction false} RenderedAppend(results: seq<Feedback>, f: Feedback)
    requires AllRenderable(results) && Renderable(f)
    ensures AllRenderable(results + [f])
    ensures forall item :: ResultsShow(Rendered(results + [f]), item) <==>
                             ResultsShow(Rendered(results), item) || ContentShows(RenderResult(f).content, item)
  {
    assert Rendered(results + [f]) == Rendered(results) + [RenderResult(f)];
    ResultsShowConcat(Rendered(results), [RenderResult(f)]);
    forall item ensures ResultsShow([RenderResult(f)], item) <==> ContentShows(RenderResult(f).content, item) {
      assert [RenderResult(f)][0].content == RenderResult(f).content;
    }
  }

  /** One more grounded answer, and the others stay grounded. */
  lemma {:induction false} AnswersAppend(
      results: seq<Feedback>, f: Feedback, calls: seq<CompletionCall>, place: nat, env: Environment,
      g: Ground, later: Ground)
    requires AllRenderable(results) && Renderable(f) && GrewFrom(g, later)
    requires ResultsGrounded(Rendered(results), calls, place, env, g)
    requires var grounded := ResultGrounded(RenderResult(f), calls, place, env, later);
             grounded
    ensures AllRenderable(results + [f])
    ensures ResultsGrounded(Rendered(results + [f]), calls, place, env, later)
  {
    ResultsGroundedLater(Rendered(results), calls, place, env, g, later);
    assert Rendered(results + [f]) == Rendered(results) + [RenderResult(f)];
    assert [RenderResult(f)][0] == RenderResult(f);
    GroundedTogether(Rendered(results), [RenderResult(f)], calls, place, env, later);
  }

  /** The brief the run began with already cited evidence no longer held. */
  predicate BeganIncomplete(env: Environment) {
    env.orientation.Some? && env.orientation.value.brief.Some? && env.orientation.value.brief.value.missingEvidence
  }

  /** Everything promised of a finished run, whatever the environment answered. */
  ghost predicate Kept(env: Environment, report: Report) {
    // exactly one terminal write is attempted, and never for want of a conclusion
    && |report.writes| == 1
    // turns, model calls and reads are bounded; the context is reduced at most once
    && report.turns <= MaxTurns(env) + 1 && Uncancelled(env, report.turns) && Scheduled(report.prompts, report.turns)
    && |report.executions| + report.historyReads <= MaxRuns(env) && NoneTwice(report.executions)
    && report.reductions <= 1
    // every prompt pairs its calls with answers and whitelists just what it shows
    && AllFaithful(report.prompts) && AllSent(env, report.prompts)
    // every answer is a note, a page from the store or the observation of the run made for its call, and none is lost
    && TurnsGrounded(report.transcript, env, Ground(report.runs, report.origins, report.historyReads))
    && AllExtended(report.prompts, report.transcript)
    // every recorded run was dropped, repeats an earlier one or carries what its execution answered, and every
    // execution has its run, but one whose run could not be recorded
    && Ledger(env, report.executions, report.origins, report.runs,
              |report.executions| + report.historyReads >= MaxRuns(env))
    && Placed(report.executions, report.origins)
    && (report.writes[0] != Fail(RunNotRecorded) ==> AllRecorded(report.executions, |report.runs|))
    // runs are numbered, and a written conclusion cites only what was recorded, shown and found present
    && Numbered(report.runs)
    && (report.writes[0].Conclude? ==>
          WellSupported(report.writes[0].conclusion, env, report.runs, report.prompts, report.checks))
    && (report.writes[0].Conclude? ==>
          var executed := |report.executions| + report.historyReads;
          Explains(report.writes[0].stoppedBy, env, report.turns, executed, report.prompts))
    // a run that failed was made to, by the cause it names
    && (report.writes[0].Fail? ==> Caused(report.writes[0].why, env, report))
  }

  /** In every prompt of a finished run, what is whitelisted is cited, and all that is cited is whitelisted exactly
      when no delivered answer names a run only aside from its findings. */
  lemma {:induction false} EveryWhitelistIsCited(env: Environment, report: Report, i: nat)
    requires Kept(env, report) && i < |report.prompts|
    ensures var p := report.prompts[i];
            && (forall ref :: ref in p.allowed ==> PromptCites(p, ref))
            && ((forall ref :: PromptCites(p, ref) ==> ref in p.allowed) <==> NothingOnlyAside(p))
  {
    assert FaithfulAt(report.prompts, i);
    WhitelistAndCitations(report.prompts[i]);
  }

  lemma {:induction false} UsableGrow(env: Environment, i: nat, j: nat)
    requires i <= j
    ensures UsableAnswers(env, i) <= UsableAnswers(env, j)
    decreases j
  {
    if i < j { UsableGrow(env, i, j - 1); }
  }

  lemma {:induction false} AnsweredLength(turn: Turn)
    requires Answered(turn)
    ensures |turn.results| == |turn.calls|
  {
    assert |multiset(ResultIds(turn.results))| == |ResultIds(turn.results)|;
    assert |multiset(Ids(turn.calls))| == |Ids(turn.calls)|;
  }

  /** Later prompts keep every turn of earlier ones, its calls and exactly its answers. */
  lemma {:induction false} LaterPromptsKeepAnswers(env: Environment, report: Report, i: nat, j: nat, k: nat)
    requires Kept(env, report) && i <= j < |report.prompts| && k < |report.prompts[i].turns|
    ensures k < |report.prompts[j].turns|
    ensures var a, b := report.prompts[i].turns[k], report.prompts[j].turns[k];
            a.calls == b.calls && a.results == b.results
  {
    var before, after := report.prompts[i], report.prompts[j];
    assert FaithfulAt(report.prompts, i) && FaithfulAt(report.prompts, j);
    assert |CallsOf(before.turns)| == |UsableAnswers(env, i)| && |CallsOf(after.turns)| == |UsableAnswers(env, j)|;
    UsableGrow(env, i, j);
    assert Extends(before.turns, report.transcript) && Extends(after.turns, report.transcript);
    AnsweredLength(before.turns[k]);
    AnsweredLength(after.turns[k]);
  }

  /**
   Every answer in every prompt is a note, a page from the store, or the bounded observation of the run made for the
   very call that it answers.
   */
  lemma {:induction false} EveryAnswerIsGrounded(env: Environment, report: Report, i: nat, k: nat, m: nat)
    requires Kept(env, report) && i < |report.prompts| && k < |report.prompts[i].turns|
    requires m < |report.prompts[i].turns[k].results|
    ensures var turn, g := report.prompts[i].turns[k], Ground(report.runs, report.origins, report.historyReads);
            var result := turn.results[m];
            && ResultGrounded(result, turn.calls, k, env, g)
            && (result.content.ObservationShown? ==>
                  exists r :: 0 <= r < |report.runs| && report.runs[r].observation == Some(result.content.text)
                              && Prepared(report.runs[r]))
  {
    assert Extends(report.prompts[i].turns, report.transcript);
    var g := Ground(report.runs, report.origins, report.historyReads);
    var shown, kept := report.prompts[i].turns[k].results, report.transcript[k];
    assert shown <= kept.results && shown[m] == kept.results[m];
    assert TurnGrounded(report.transcript, k, env, g);
    assert GroundedAt(kept.results, m, kept.calls, k, env, g);
    if shown[m].content.ObservationShown? {
      var text := shown[m].content.text;
      var r :| 0 <= r < |g.runs| && r < |g.origins| && g.runs[r].observation == Some(text)
               && AnswersCall(g.origins[r], g.runs[r], shown[m], kept.calls, k);
      assert Prepared(report.runs[r]);
    }
  }

  /** A conclusion discloses missing evidence when the brief, or any page it was shown, admitted some. */
  lemma {:induction false} DisclosureIsMade(env: Environment, report: Report, i: nat, j: nat)
    requires Kept(env, report) && report.writes[0].Conclude?
    requires var turns := report.prompts[|report.prompts| - 1].turns;
             && i < |turns| && j < |turns[i].results| && turns[i].results[j].content.HistoryShown?
             && turns[i].results[j].content.page.missingEvidence
    ensures DisclosesMissingEvidence(report.writes[0].conclusion)
  {
    var turns := report.prompts[|report.prompts| - 1].turns;
    assert ContentShows(turns[i].results[j].content, Notice);
    assert ResultsShow(turns[i].results, Notice);
  }

  /** What the model reads of a tool's answer: its window, its summary and its warning, each where there is one. */
  function AnswerLines(header: string, answer: Executed, redact: string -> string): seq<string>
    requires answer.ToolAnswered?
  {
    var summary := BoundRunes(redact(answer.summary), MAX_RUN_SUMMARY);
    [header]
    + (if answer.window.Some? then ["WINDOW: effective bounds " + answer.window.value] else [])
    + (if summary != "" then ["SUMMARY: " + summary] else [])
    + (if answer.truncated then [MAY_BE_INCOMPLETE] else [])
  }

  /** The text shows the tool's own answer, redacted and bounded. */
  ghost predicate TextOfAnswer(text: string, header: string, answer: Executed, redact: string -> string)
    requires answer.ToolAnswered?
  {
    exists content :: Shown(answer.content, redact, content)
                      && text == Unlines(AnswerLines(header, answer, redact) + ["CONTENT: " + content])
  }

  ghost predicate ObservesAnswer(run: ToolRun, raw: ToolRun, answer: Executed, redactor: Redactor)
    requires answer.ToolAnswered?
  {
    var cleaned := Cleaned(raw, redactor);
    exists text :: TextOfAnswer(text, Header(cleaned), answer, redactor.text)
                   && run.observation == Some(Limited(text, raw.ordinal, cleaned.tool))
  }

  /** A successful run observes what the tool answered, all of it that fits. */
  lemma {:induction false} AnswerIsObserved(run: ToolRun, raw: ToolRun, answer: Executed, redactor: Redactor)
    requires PreparedFrom(run, raw, redactor) && answer.ToolAnswered? && CarriesAnswer(raw, true, answer)
    ensures ObservesAnswer(run, raw, answer, redactor)
  {
    var cleaned := Cleaned(raw, redactor);
    var text :| Rendering(cleaned, redactor, text) && ObservedAs(run, cleaned, redactor, text);
    assert Preface(cleaned) == AnswerLines(Header(cleaned), answer, redactor.text);
    assert TextOfAnswer(text, Header(cleaned), answer, redactor.text);
  }

  /**
   Execution e has its recorded run, which succeeded exactly when the call had a source and the tool answered. It was
   made of what the tool answered, or why it did not, and its observation reads that answer.
   */
  ghost predicate AnswerRecorded(
      env: Environment, executions: seq<Execution>, origins: seq<Origin>, runs: seq<ToolRun>, e: nat)
    requires e < |executions|
  {
    var n := executions[e].ordinal;
    && 1 <= n <= |runs| == |origins|
    && var run, o, answer, redactor := runs[n - 1], origins[n - 1], env.execute(e), env.redactor((n - 1) as nat);
       && run.ordinal == n && PerformedAs(env, o, n, e) && PreparedFrom(run, o.raw, redactor)
       && (run.outcome == RunSucceeded <==> RouteOf(env, o.asked).Some? && answer.ToolAnswered?)
       && (run.outcome == RunSucceeded ==> ObservesAnswer(run, o.raw, answer, redactor))
  }

  lemma {:induction false} ExecutionIsRecorded(
      env: Environment, executions: seq<Execution>, origins: seq<Origin>, runs: seq<ToolRun>, spent: bool, e: nat)
    requires Ledger(env, executions, origins, runs, spent) && Placed(executions, origins)
    requires AllRecorded(executions, |runs|) && e < |executions|
    ensures AnswerRecorded(env, executions, origins, runs, e)
  {
    var n := executions[e].ordinal;
    assert Entry(env, executions, origins, runs, spent, n - 1);
    RecordedAs(env, executions, origins, runs, spent, n - 1);
    var run, o := runs[n - 1], origins[n - 1];
    if RouteOf(env, o.asked).Some? && env.execute(e).ToolAnswered? {
      AnswerIsObserved(run, o.raw, env.execute(e), env.redactor(n - 1));
    }
  }

  /** What a tool answered, or why it did not, is recorded for every execution, but one whose recording failed. */
  lemma {:induction false} EveryAnswerIsRecorded(env: Environment, report: Report, e: nat)
    requires Kept(env, report) && e < |report.executions| && report.writes[0] != Fail(RunNotRecorded)
    ensures var recorded := AnswerRecorded(env, report.executions, report.origins, report.runs, e);
            recorded
  {
    var spent := |report.executions| + report.historyReads >= MaxRuns(env);
    ExecutionIsRecorded(env, report.executions, report.origins, report.runs, spent, e);
  }

  /** By the time a conclusion is written the model has been shown the observation of every recorded run. */
  lemma {:induction false} EveryRunIsShown(env: Environment, report: Report, k: nat)
    requires Kept(env, report) && report.writes[0].Conclude? && k < |report.runs|
    ensures report.prompts != [] && report.runs[k].observation.Some?
    ensures TurnsShow(report.prompts[|report.prompts| - 1].turns, Seen(report.runs[k].observation.value))
  {
    assert Prepared(report.runs[k]);
    assert Held([], report.runs, false, Seen(report.runs[k].observation.value));
  }

  /**
   Every run that no tool was run for says why: its call is unusable, the budget was spent, or it repeats an earlier
   run of its turn, which it names and which, if no name has a space in it, had its tool, source and arguments.
   */
  lemma {:induction false} EveryOtherRunIsExplained(env: Environment, report: Report, i: nat)
    requires Kept(env, report) && i < |report.runs| && !report.origins[i].how.Performed?
    ensures var o, run := report.origins[i], report.runs[i];
            && run.outcome == RunFailed && PreparedFrom(run, o.raw, env.redactor(i))
            && (o.asked.error != Usable ==> o.raw.error == Complaint(o.asked.error))
            && (o.how.Dropped? && o.asked.error == Usable ==>
                  && |report.executions| + report.historyReads == MaxRuns(env)
                  && o.raw.error == BudgetSpent(MaxRuns(env)))
            && (o.how.Repeated? ==> var k := o.how.original;
                  && k < i && report.origins[k].how.Performed? && SameRead(env, report.origins[k], o)
                  && report.runs[k].ordinal == k + 1 && o.raw.error == UseItsResult(k + 1))
  {
    var spent := |report.executions| + report.historyReads >= MaxRuns(env);
    assert Entry(env, report.executions, report.origins, report.runs, spent, i);
    var o := report.origins[i];
    if o.how.Repeated? {
      RecordedAs(env, report.executions, report.origins, report.runs, spent, o.how.original);
    }
  }

  /** Where no name has a space in it, the same read is the same tool, source and arguments. */
  lemma {:induction false} SameReadIsTheSame(env: Environment, a: Origin, b: Origin)
    requires SameRead(env, a, b)
    requires var x, y := Routed(Offered(env), a.asked), Routed(Offered(env), b.asked);
             ' ' !in x.tool && ' ' !in y.tool && ' ' !in x.integration && ' ' !in y.integration
    ensures var x, y := Routed(Offered(env), a.asked), Routed(Offered(env), b.asked);
            x.tool == y.tool && x.integration == y.integration && x.arguments == y.arguments
  {
    IdentityTellsCalls(Routed(Offered(env), a.asked), Routed(Offered(env), b.asked));
  }

  /** A written conclusion is, member by member, the document of the last answer, with at most the notice added. */
  lemma {:induction false} WrittenIsStated(env: Environment, report: Report)
    requires Kept(env, report) && report.writes[0].Conclude?
    ensures report.prompts != [] && env.complete(|report.prompts| - 1).Completion?
    ensures var calls := env.complete(|report.prompts| - 1).calls;
            && |Concludes(calls)| == 1 && Reads(calls) == []
            && var d, c := Concludes(calls)[0].arguments.document, report.writes[0].conclusion;
               && d.Document? && c.status == d.status && c.summary == d.summary
               && Some(c.impact.summary) == d.impactSummary && Some(c.impact.runRefs) == d.impactRefs
               && c.findings == d.findings && c.hypotheses == d.hypotheses && c.actions == d.actions
               && (c.limitations == d.limitations || c.limitations == d.limitations + [MISSING_EVIDENCE])
  {
  }

  /** A run that fails before its first turn. */
  function Unstarted(why: Failure): Report {
    Report([Fail(why)], 0, [], [], [], [], 0, [], 0, [])
  }

  predicate BeforeTurns(why: Failure) {
    why.ScopeUnverified? || why.MessagesUnreadable? || why.MessagesMissing? || why.SourcesUnreadable?
  }

  lemma {:induction false} UnstartedIsKept(env: Environment, why: Failure)
    requires BeforeTurns(why) && Caused(why, env, Unstarted(why))
    ensures Kept(env, Unstarted(why))
  {
  }

  /** Reads what a run starts from; refused exactly when some of it cannot be read or is missing. */
  method Opening(env: Environment) returns (refused: Option<Failure>)
    ensures refused.Some? ==> BeforeTurns(refused.value) && Caused(refused.value, env, Unstarted(refused.value))
    ensures refused.None? <==>
              && env.orientation.Some?
              && (env.conversation ==> env.scopeVerified && env.messages.Some? && env.messages.value > 0)
  {
    if env.conversation {
      if !env.scopeVerified { return Some(ScopeUnverified); }
      if env.messages.None? { return Some(MessagesUnreadable); }
      if env.messages.value == 0 { return Some(MessagesMissing); }
    }
    refused := if env.orientation.None? then Some(SourcesUnreadable) else None;
  }

  method Run(env: Environment) returns (report: Report)
    ensures Kept(env, report)
    ensures report.writes[0] != Fail(DidNotConclude)
  {
    var refused := Opening(env);
    if refused.Some? {
      UnstartedIsKept(env, refused.value);
      return Unstarted(refused.value);
    }
    var state := new RunState(env, env.orientation.value);
    var turn, results, ended := 1, [], false;
    while !ended
      invariant state.env == env
      invariant !ended ==> state.Going(turn, results)
      invariant ended ==> Kept(env, state.ToReport())
                          && (state.writes[0].Fail? ==> InTurn(state.writes[0].why))
      decreases !ended, MaxTurns(env) + 1 - turn
    {
      ended, results := state.TakeTurn(turn, results);
      turn := turn + 1;
    }
    report := state.ToReport();
  }

  /** Two model calls per turn is also a bound on them all. */
  lemma {:induction false} CallsAreBounded(prompts: seq<Prompt>, last: nat)
    requires Scheduled(prompts, last)
    ensures |prompts| <= 2 * last
    ensures prompts != [] ==>
              |prompts| + 1 <= 2 * prompts[|prompts| - 1].turn + prompts[|prompts| - 1].attempt
  {
    if prompts != [] {
      var n := |prompts| - 1;
      assert 1 <= prompts[n].turn <= last;
      CallsAreBounded(prompts[..n], last);
      if n > 0 {
        assert prompts[..n][n - 1] == prompts[n - 1];
      }
    }
  }

  /** A failed run that reached no source, for the reason given. */
  method DroppedRun(call: ToolCall, ordinal: nat, why: string) returns (run: ToolRun)
    ensures run.ordinal == ordinal && run.tool == call.tool && run.arguments == call.arguments
    ensures Says(run, why, why) && run.integration == "" && run.observation.None?
  {
    run := ToolRun(ordinal, call.tool, "", "", call.arguments, RunFailed, None, false, why, why,
                   NoContent, None, false);
  }

  /** A repeat within its batch: a failed run that points at the run it repeats and shares its source. */
  method SuppressedRun(call: ToolCall, ordinal: nat, original: ToolRun) returns (run: ToolRun)
    ensures run.ordinal == ordinal && run.tool == call.tool && run.arguments == call.arguments
    ensures Says(run, SeeAbove(original.ordinal), UseItsResult(original.ordinal))
    ensures run.integration == original.integration && run.observation.None?
  {
    run := ToolRun(ordinal, call.tool, original.integration, "", call.arguments, RunFailed, None, false,
                   SeeAbove(original.ordinal), UseItsResult(original.ordinal), NoContent, None, false);
  }

  const IDENTICAL := "not executed: identical to run "
  const ALREADY_ABOVE := ", whose result is already above"
  const USE_ITS_RESULT := " in this batch; use its result or request a refresh in a later turn"

  const NOT_OFFERED := "not one of the tools the selected sources offer"
  const NOT_OPENED := "the integration's credential could not be opened"

  /** An executed run carries just what its tool answered, or why it did not. */
  method ExecutedRun(call: ToolCall, ordinal: nat, source: Option<Source>, result: Executed) returns (run: ToolRun)
    ensures run.ordinal == ordinal && run.tool == call.tool && run.arguments == call.arguments
    ensures CarriesAnswer(run, source.Some?, result)
    ensures run.integration == (if source.Some? then source.value.integration else "") && run.observation.None?
  {
    run := ToolRun(ordinal, call.tool, "", "", call.arguments, RunFailed, None, false, "", "",
                   NoContent, None, false);
    if source.None? { return run.(error := NOT_OFFERED); }
    run := run.(integration := source.value.integration);
    match result
    case AuditRefused | CredentialRefused => run := run.(error := NOT_OPENED);
    case ToolError(error) => run := run.(error := error);
    case ToolAnswered(window, truncated, summary, content) =>
      run := run.(outcome := RunSucceeded, window := window, truncated := truncated, summary := summary,
                  content := content);
  }

  lemma {:induction false} MarkingKeepsSound(
      c: Conclusion, marked: Conclusion, due: bool, runs: seq<ToolRun>, allowed: seq<EvidenceRef>)
    requires Sound(c, runs, allowed)
    requires OnlyMarked(marked, c, due)
    ensures Sound(marked, runs, allowed)
  {
    assert SoundLimitation(MISSING_EVIDENCE, |runs|);
    assert StatusAgrees(marked) == StatusAgrees(c);
  }

  // --- a run that is shown a run it may not cite --------------------------------------------------

  /** The store holds the one earlier answer, every lookup succeeds, and everything encodes to nothing. */
  const ASIDE_ENVIRONMENT := Environment(
    0, 0, true, true, Some(1), Some(Orientation("", [], [], Some(ASIDE_BRIEF))), _ => false, _ => false,
    _ => Completion(ToolUse, [ASIDE_CALL]), _ => Some({}), (_, _) => Some(ASIDE_PAGE), _ => AuditRefused, _ => false,
    _ => 0, Sizes(_ => 0, _ => 0, _ => 0), _ => Redactor(text => text, text => text))

  lemma {:induction false} AsideFits(sizes: Sizes)
    requires sizes == ASIDE_ENVIRONMENT.sizes
    ensures Fits(Reserved(ASIDE_PAGE), sizes)
  {
    var page := Reserved(ASIDE_PAGE);
    assert page.exchange[1..] == [] && page.limitations[1..] == [];
    assert ExchangeBytes(page.exchange, sizes) == 0;
    assert TextBytes(page.limitations, sizes) == 0;
  }

  /** What is delivered of it is all of it, and admits nothing missing. */
  lemma {:induction false} AsideIsDelivered(page: HistoryPage, check: Check)
    requires Delivers(Reserved(ASIDE_PAGE), page, ASIDE_ENVIRONMENT.sizes) && NoticeIsDue(page, check)
    ensures page == ASIDE_PAGE && forall ref :: ref !in check.refs
  {
    AsideFits(ASIDE_ENVIRONMENT.sizes);
    FittingIsDeliveredWhole(Reserved(ASIDE_PAGE), page, ASIDE_ENVIRONMENT.sizes);
    AsideNames();
    assert page.exchange == ASIDE_PAGE.exchange;
    assert forall ref :: PageRestsOn(page, ref) <==> PageRestsOn(ASIDE_PAGE, ref);
  }

  lemma {:induction false} EmptyOrNot(refs: seq<EvidenceRef>)
    ensures refs == [] || exists ref :: ref in refs
  {
    if refs != [] { assert refs[0] in refs; }
  }

  lemma {:induction false} AsideIsReadable(state: RunState, call: ToolCall)
    requires state.env == ASIDE_ENVIRONMENT && state.maxRuns == MaxRuns(state.env) && state.historyBefore == 2
    requires state.historyRead == {} && state.executed == 0 && call.beforeSequence == Some(2)
    ensures state.Readable(call)
  {
    AsideFits(ASIDE_ENVIRONMENT.sizes);
    FittingIsDeliveredWhole(Reserved(ASIDE_PAGE), ASIDE_PAGE, ASIDE_ENVIRONMENT.sizes);
  }

  /** A run of it that asks for the earlier Message is shown the page `AsideIsCitedNotWhitelisted` speaks of. */
  method DeliverAside() returns (feedback: Feedback, allowed: seq<EvidenceRef>)
    ensures feedback == HistoryRead("c", ASIDE_PAGE) && RenderResult(feedback) == ASIDE_TURN.results[0]
    ensures allowed == []
  {
    var state := new RunState(ASIDE_ENVIRONMENT, ASIDE_ENVIRONMENT.orientation.value);
    var call := DecodeToolCall(ASIDE_CALL);
    AsideIsReadable(state, call);
    feedback := state.ServeHistory(call);
    AsideIsDelivered(feedback.page, state.checks[|state.checks| - 1]);
    AsideNames();
    allowed := state.priorEvidence;
    EmptyOrNot(allowed);
  }
}
