/** What the model is shown (internal/investigation/agent/prompt.go, modelPrompt in run.go). */
module Prompts {
  import opened Text
  import opened Investigation
  import opened Conclusions
  import opened History

  const HISTORY_TOOL := "read_conversation_history"

  datatype Source = Source(integration: string, tools: seq<string>)

  /** `fixed` stands for the parts no step of a run changes: subject, question, window and trigger. */
  datatype Orientation = Orientation(
    fixed: string, sources: seq<Source>, inventory: seq<string>, brief: Option<Brief>)

  // --- prior findings in the brief -------------------------------------------------------------

  /** Two findings with one key print the same line; `Reference()` encodes the references injectively. */
  datatype FindingKey = FindingKey(
    statement: string, references: seq<EvidenceRef>, kind: FindingKind, scope: Scope)

  function KeyOf(f: PriorFinding): FindingKey {
    FindingKey(f.statement, f.References(), f.kind, f.scope)
  }

  predicate Keyed(findings: seq<PriorFinding>, key: FindingKey) {
    exists i :: 0 <= i < |findings| && KeyOf(findings[i]) == key
  }

  /** Whether the last of `findings` would be printed after the others. */
  predicate Fresh(kept: seq<PriorFinding>, f: PriorFinding) {
    f.statement != "" && !Keyed(kept, KeyOf(f))
  }

  function Dedupe(findings: seq<PriorFinding>): seq<PriorFinding> {
    if findings == [] then []
    else
      var n := |findings| - 1;
      var kept := Dedupe(findings[..n]);
      if Fresh(kept, findings[n]) then kept + [findings[n]] else kept
  }

  method DedupeFindings(findings: seq<PriorFinding>) returns (kept: seq<PriorFinding>)
    ensures kept == Dedupe(findings)
  {
    kept := [];
    var seen: set<FindingKey> := {};
    for i := 0 to |findings|
      invariant kept == Dedupe(findings[..i])
      invariant forall key :: key in seen <==> Keyed(kept, key)
    {
      var finding := findings[i];
      assert findings[..i + 1][..i] == findings[..i];
      if finding.statement == "" || KeyOf(finding) in seen {
        continue;
      }
      seen := seen + {KeyOf(finding)};
      KeyedAppend(kept, finding);
      kept := kept + [finding];
    }
    assert findings[..|findings|] == findings;
  }

  lemma {:induction false} KeyedAppend(findings: seq<PriorFinding>, f: PriorFinding)
    ensures forall key :: Keyed(findings + [f], key) <==> Keyed(findings, key) || key == KeyOf(f)
  {
    var all := findings + [f];
    assert all[|findings|] == f;
    forall key | Keyed(findings, key) ensures Keyed(all, key) {
      var i :| 0 <= i < |findings| && KeyOf(findings[i]) == key;
      assert all[i] == findings[i];
    }
  }

  /** Deduplication forgets no printable finding: its key survives, and so do its references. */
  lemma {:induction false} DedupeKeepsKeys(findings: seq<PriorFinding>)
    ensures forall key :: Keyed(Dedupe(findings), key) <==> key.statement != "" && Keyed(findings, key)
  {
    if findings != [] {
      var n := |findings| - 1;
      DedupeKeepsKeys(findings[..n]);
      assert findings == findings[..n] + [findings[n]];
      KeyedAppend(findings[..n], findings[n]);
      KeyedAppend(Dedupe(findings[..n]), findings[n]);
    }
  }

  /** Some finding has this statement, kind and scope, and these references. */
  predicate Says(findings: seq<PriorFinding>, f: PriorFinding) {
    exists j :: 0 <= j < |findings| && findings[j].statement == f.statement && findings[j].kind == f.kind
                && findings[j].scope == f.scope && findings[j].References() == f.References()
  }

  /** Every printable statement is kept with its references, its kind and its dates, and nothing is made up. */
  lemma {:induction false} DedupeKeepsStatements(findings: seq<PriorFinding>)
    ensures forall i :: 0 <= i < |findings| && findings[i].statement != "" ==> Says(Dedupe(findings), findings[i])
    ensures forall j :: 0 <= j < |Dedupe(findings)| ==>
              Dedupe(findings)[j] in findings && Dedupe(findings)[j].statement != ""
  {
    DedupeKeepsKeys(findings);
    DedupeInventsNothing(findings);
    forall i | 0 <= i < |findings| && findings[i].statement != "" ensures Says(Dedupe(findings), findings[i]) {
      var key := KeyOf(findings[i]);
      assert Keyed(findings, key) && Keyed(Dedupe(findings), key);
      var j :| 0 <= j < |Dedupe(findings)| && KeyOf(Dedupe(findings)[j]) == key;
      assert Dedupe(findings)[j].statement == findings[i].statement;
    }
  }

  lemma {:induction false} DedupeInventsNothing(findings: seq<PriorFinding>)
    ensures forall f :: f in Dedupe(findings) ==> f in findings && f.statement != ""
  {
    if findings != [] {
      var n := |findings| - 1;
      DedupeInventsNothing(findings[..n]);
      assert findings == findings[..n] + [findings[n]];
    }
  }

  /** No two findings left share a key. */
  lemma {:induction false} DedupeIsDistinct(findings: seq<PriorFinding>)
    ensures forall i, j :: 0 <= i < j < |Dedupe(findings)| ==>
              KeyOf(Dedupe(findings)[i]) != KeyOf(Dedupe(findings)[j])
  {
    if findings != [] {
      DedupeIsDistinct(findings[..|findings| - 1]);
    }
  }

  /** `kindOf(findings, ruled_out)` for `ruledOut`, `establishedOf(findings)` otherwise. */
  function Section(findings: seq<PriorFinding>, ruledOut: bool): seq<PriorFinding> {
    if findings == [] then []
    else
      var n := |findings| - 1;
      var kept := Section(findings[..n], ruledOut);
      if (findings[n].kind == RuledOut) == ruledOut then kept + [findings[n]] else kept
  }

  lemma {:induction false} SectionKeys(findings: seq<PriorFinding>, ruledOut: bool)
    ensures forall key ::
      Keyed(Section(findings, ruledOut), key) <==> Keyed(findings, key) && (key.kind == RuledOut) == ruledOut
  {
    if findings != [] {
      var n := |findings| - 1;
      SectionKeys(findings[..n], ruledOut);
      assert findings == findings[..n] + [findings[n]];
      KeyedAppend(findings[..n], findings[n]);
      KeyedAppend(Section(findings[..n], ruledOut), findings[n]);
    }
  }

  /** Each section printed separately shows exactly that section of the whitelisted findings. */
  lemma {:induction false} DedupeCommutesWithSection(findings: seq<PriorFinding>, ruledOut: bool)
    ensures Dedupe(Section(findings, ruledOut)) == Section(Dedupe(findings), ruledOut)
  {
    if findings != [] {
      var n := |findings| - 1;
      var front, f := findings[..n], findings[n];
      DedupeCommutesWithSection(front, ruledOut);
      var section, kept := Section(front, ruledOut), Dedupe(front);
      if Fresh(kept, f) {
        assert (kept + [f])[..|kept|] == kept;
      }
      if (f.kind == RuledOut) == ruledOut {
        assert (section + [f])[..|section|] == section;
        SectionKeys(kept, ruledOut);
      }
    }
  }

  /** The brief's printed lines: observations first, then what was ruled out. */
  function Printed(brief: Brief): seq<PriorFinding> {
    Dedupe(Section(brief.findings, false)) + Dedupe(Section(brief.findings, true))
  }

  /** Some printed line of the brief carries `ref` among its evidence_refs. */
  predicate BriefShows(brief: Option<Brief>, ref: EvidenceRef) {
    brief.Some? && exists i :: 0 <= i < |Printed(brief.value)| && ref in Printed(brief.value)[i].References()
  }

  function AllReferences(findings: seq<PriorFinding>): seq<EvidenceRef> {
    if findings == [] then []
    else
      var n := |findings| - 1;
      AllReferences(findings[..n]) + findings[n].References()
  }

  predicate Cited(findings: seq<PriorFinding>, ref: EvidenceRef) {
    exists i :: 0 <= i < |findings| && ref in findings[i].References()
  }

  lemma {:induction false} CitedAppend(findings: seq<PriorFinding>, f: PriorFinding)
    ensures forall ref :: Cited(findings + [f], ref) <==> Cited(findings, ref) || ref in f.References()
  {
    var all := findings + [f];
    assert all[|findings|] == f;
    forall ref | Cited(findings, ref) ensures Cited(all, ref) {
      var i :| 0 <= i < |findings| && ref in findings[i].References();
      assert all[i] == findings[i];
    }
  }

  lemma {:induction false} AllReferencesCited(findings: seq<PriorFinding>)
    ensures forall ref :: ref in AllReferences(findings) <==> Cited(findings, ref)
  {
    if findings != [] {
      var n := |findings| - 1;
      AllReferencesCited(findings[..n]);
      assert findings == findings[..n] + [findings[n]];
      CitedAppend(findings[..n], findings[n]);
    }
  }

  lemma {:induction false} SectionsPartitionCitations(findings: seq<PriorFinding>)
    ensures forall ref :: Cited(findings, ref) <==>
              Cited(Section(findings, false), ref) || Cited(Section(findings, true), ref)
  {
    if findings != [] {
      var n := |findings| - 1;
      SectionsPartitionCitations(findings[..n]);
      assert findings == findings[..n] + [findings[n]];
      CitedAppend(findings[..n], findings[n]);
      CitedAppend(Section(findings[..n], findings[n].kind == RuledOut), findings[n]);
    }
  }

  lemma {:induction false} CitedConcat(a: seq<PriorFinding>, b: seq<PriorFinding>)
    ensures forall ref :: Cited(a + b, ref) <==> Cited(a, ref) || Cited(b, ref)
  {
    forall ref ensures Cited(a + b, ref) <==> Cited(a, ref) || Cited(b, ref) {
      if Cited(a, ref) {
        var i :| 0 <= i < |a| && ref in a[i].References();
        assert (a + b)[i] == a[i];
      }
      if Cited(b, ref) {
        var i :| 0 <= i < |b| && ref in b[i].References();
        assert (a + b)[|a| + i] == b[i];
      }
    }
  }

  /** The references whitelisted from a brief are exactly those it prints. */
  lemma {:induction false} WhitelistIsPrinted(brief: Brief)
    ensures forall ref :: ref in AllReferences(Dedupe(brief.findings)) <==> BriefShows(Some(brief), ref)
  {
    var kept := Dedupe(brief.findings);
    AllReferencesCited(kept);
    SectionsPartitionCitations(kept);
    DedupeCommutesWithSection(brief.findings, false);
    DedupeCommutesWithSection(brief.findings, true);
    CitedConcat(Section(kept, false), Section(kept, true));
    forall ref ensures Cited(Printed(brief), ref) <==> BriefShows(Some(brief), ref) {
    }
  }

  method BriefReferences(brief: Option<Brief>) returns (refs: seq<EvidenceRef>)
    ensures forall ref :: ref in refs <==> BriefShows(brief, ref)
  {
    if brief.None? { return []; }
    var kept := DedupeFindings(brief.value.findings);
    refs := [];
    for i := 0 to |kept|
      invariant refs == AllReferences(kept[..i])
    {
      assert kept[..i + 1][..i] == kept[..i];
      refs := refs + kept[i].References();
    }
    assert kept[..|kept|] == kept;
    WhitelistIsPrinted(brief.value);
  }

  // --- context reduction -----------------------------------------------------------------------

  function ReduceBrief(brief: Brief): Brief {
    brief.(findings := [], openHypotheses := [], recent := [],
           limitations := if brief.missingEvidence then [MISSING_EVIDENCE_STATEMENT] else [])
  }

  function Reduce(o: Orientation): Orientation {
    o.(inventory := [], brief := if o.brief.Some? then Some(ReduceBrief(o.brief.value)) else None)
  }

  /**
   A reduced orientation says what it is about, offers the same sources and history and still admits missing evidence,
   but lists nothing else, so that nothing is whitelisted from its brief; reducing it again changes nothing.
   */
  lemma {:induction false} ReductionKeeps(o: Orientation)
    ensures var r := Reduce(o);
            && r.fixed == o.fixed && r.sources == o.sources && r.inventory == [] && r.brief.Some? == o.brief.Some?
            && (o.brief.Some? ==>
                  && r.brief.value.historyBefore == o.brief.value.historyBefore
                  && r.brief.value.nextBefore == o.brief.value.nextBefore
                  && r.brief.value.missingEvidence == o.brief.value.missingEvidence
                  && (MISSING_EVIDENCE_STATEMENT in r.brief.value.limitations <==> o.brief.value.missingEvidence)
                  && r.brief.value.recent == [] && r.brief.value.openHypotheses == [])
    ensures forall ref :: !BriefShows(Reduce(o).brief, ref)
    ensures Reduce(Reduce(o)) == Reduce(o)
  {
    if o.brief.Some? {
      assert Section([], false) == [] && Section([], true) == [];
      assert Printed(Reduce(o).brief.value) == [];
    }
  }

  // --- the transcript --------------------------------------------------------------------------

  /** Why an answer cannot be used; the model reads it back and is forced to conclude. */
  datatype Invalid = ReadsUnavailable | NotOneConclusion | BadConclusion | UnavailablePriorEvidence

  /** Why a history call delivered no page. */
  datatype HistoryError =
    | MalformedCall | NotAvailable | OutOfRange | AlreadyRead | LimitReached | NotRead | TooLarge | EvidenceUnchecked

  datatype ResultContent =
    | FinalizationDeferred
    | InvalidAnswer(why: Invalid)
    | HistoryUnavailable(error: HistoryError)
    | HistoryShown(page: HistoryPage)
    | ObservationShown(text: string)

  datatype ToolResult = ToolResult(callId: string, content: ResultContent, isError: bool)

  datatype StoppedBy = NotStopped | ToolRuns | ReasonerTurns | WallClock | ContextFilled

  datatype Instruction = Correct(why: Invalid) | ConcludeNow(stoppedBy: StoppedBy, sources: nat)

  datatype Turn = Turn(calls: seq<CompletionCall>, results: seq<ToolResult>, instructions: seq<Instruction>)

  function ResultIds(results: seq<ToolResult>): seq<string> {
    seq(|results|, i requires 0 <= i < |results| => results[i].callId)
  }

  /** Every call ID of the turn is answered exactly once, and nothing else is. */
  predicate Answered(turn: Turn) {
    && Distinct(Ids(turn.calls))
    && multiset(ResultIds(turn.results)) == multiset(Ids(turn.calls))
  }

  predicate AllAnswered(turns: seq<Turn>) {
    forall i :: 0 <= i < |turns| ==> Answered(turns[i])
  }

  /** What answers bring to a run: references findings rest on, notices of missing evidence, observations of runs. */
  datatype Item = Reference(ref: EvidenceRef) | Notice | Seen(observation: string)

  predicate ContentShows(content: ResultContent, item: Item) {
    match content
    case HistoryShown(page) =>
      (match item
       case Reference(ref) => PageRestsOn(page, ref)
       case Notice => page.missingEvidence
       case Seen(_) => false)
    case ObservationShown(text) => item == Seen(text)
    case _ => false
  }

  predicate ResultsShow(results: seq<ToolResult>, item: Item) {
    exists i :: 0 <= i < |results| && ContentShows(results[i].content, item)
  }

  predicate TurnsShow(turns: seq<Turn>, item: Item) {
    exists i :: 0 <= i < |turns| && ResultsShow(turns[i].results, item)
  }

  lemma {:induction false} ResultsShowConcat(a: seq<ToolResult>, b: seq<ToolResult>)
    ensures forall item :: ResultsShow(a + b, item) <==> ResultsShow(a, item) || ResultsShow(b, item)
  {
    forall item ensures ResultsShow(a + b, item) <==> ResultsShow(a, item) || ResultsShow(b, item) {
      if ResultsShow(a, item) {
        var i :| 0 <= i < |a| && ContentShows(a[i].content, item);
        assert (a + b)[i] == a[i];
      }
      if ResultsShow(b, item) {
        var i :| 0 <= i < |b| && ContentShows(b[i].content, item);
        assert (a + b)[|a| + i] == b[i];
      }
    }
  }

  lemma {:induction false} TurnsShowAppend(turns: seq<Turn>, turn: Turn)
    ensures forall item :: TurnsShow(turns + [turn], item)
                           <==> TurnsShow(turns, item) || ResultsShow(turn.results, item)
  {
    var all := turns + [turn];
    assert all[|turns|] == turn;
    forall item | TurnsShow(turns, item) ensures TurnsShow(all, item) {
      var i :| 0 <= i < |turns| && ResultsShow(turns[i].results, item);
      assert all[i] == turns[i];
    }
  }

  // --- one prompt ------------------------------------------------------------------------------

  function DistinctTools(names: seq<string>): seq<string> {
    if names == [] then []
    else
      var n := |names| - 1;
      var kept := DistinctTools(names[..n]);
      if names[n] in kept then kept else kept + [names[n]]
  }

  function ToolNames(sources: seq<Source>): seq<string> {
    if sources == [] then [] else sources[0].tools + ToolNames(sources[1..])
  }

  function ExchangeTools(o: Orientation): (tools: seq<string>)
    ensures |tools| >= 1 && tools[|tools| - 1] == CONCLUDE_TOOL
  {
    DistinctTools(ToolNames(o.sources))
    + (if o.brief.Some? && o.brief.value.historyBefore > 1 then [HISTORY_TOOL] else [])
    + [CONCLUDE_TOOL]
  }

  lemma {:induction false} DistinctToolsAre(names: seq<string>)
    ensures Distinct(DistinctTools(names)) && forall name :: name in DistinctTools(names) <==> name in names
  {
    if names != [] {
      var n := |names| - 1;
      DistinctToolsAre(names[..n]);
      assert names == names[..n] + [names[n]];
    }
  }

  lemma {:induction false} ToolNamesAre(sources: seq<Source>, name: string)
    ensures name in ToolNames(sources) <==> exists i :: 0 <= i < |sources| && name in sources[i].tools
  {
    if sources != [] {
      ToolNamesAre(sources[1..], name);
      assert sources == [sources[0]] + sources[1..];
    }
  }

  /** Offered are just the tools of the sources, each once, then history where there is some, then concluding. */
  lemma {:induction false} OffersExactly(o: Orientation)
    ensures var tools, history := ExchangeTools(o), o.brief.Some? && o.brief.value.historyBefore > 1;
            var n := |tools| - (if history then 2 else 1);
            && n >= 0 && Distinct(tools[..n]) && tools[n..] == (if history then [HISTORY_TOOL] else []) + [CONCLUDE_TOOL]
            && forall name :: name in tools[..n] <==> exists i :: 0 <= i < |o.sources| && name in o.sources[i].tools
  {
    DistinctToolsAre(ToolNames(o.sources));
    forall name ensures name in ToolNames(o.sources) <==> exists i :: 0 <= i < |o.sources| && name in o.sources[i].tools {
      ToolNamesAre(o.sources, name);
    }
    var tools, first := ExchangeTools(o), DistinctTools(ToolNames(o.sources));
    assert tools[..|first|] == first;
  }

  /** One model call: where in the run it happened, what it showed, and the whitelist in force for its answer. */
  datatype Prompt = Prompt(
    turn: nat, attempt: nat, orientation: Orientation, tools: seq<string>, forced: bool,
    turns: seq<Turn>, opening: seq<Instruction>, allowed: seq<EvidenceRef>)

  function Instructed(turns: seq<Turn>, instruction: Instruction): seq<Turn>
    requires turns != []
  {
    var last := |turns| - 1;
    turns[last := turns[last].(instructions := turns[last].instructions + [instruction])]
  }

  function ModelPrompt(turn: nat, attempt: nat, o: Orientation, transcript: seq<Turn>, forced: bool,
                       stoppedBy: StoppedBy, allowed: seq<EvidenceRef>): Prompt
  {
    var instruction := ConcludeNow(stoppedBy, |o.sources|);
    if !forced then Prompt(turn, attempt, o, ExchangeTools(o), false, transcript, [], allowed)
    else if transcript == [] then Prompt(turn, attempt, o, [CONCLUDE_TOOL], true, [], [instruction], allowed)
    else Prompt(turn, attempt, o, [CONCLUDE_TOOL], true, Instructed(transcript, instruction), [], allowed)
  }

  /** The provider accepts the exchange, and the whitelist is exactly what printed and delivered findings rest on. */
  ghost predicate Faithful(p: Prompt) {
    && AllAnswered(p.turns)
    && forall ref :: ref in p.allowed <==> BriefShows(p.orientation.brief, ref) || TurnsShow(p.turns, Reference(ref))
  }

  /** Somewhere in the answers `ref` is cited: by a delivered page, in its findings or aside from them. */
  predicate TurnsCite(turns: seq<Turn>, ref: EvidenceRef) {
    TurnsShow(turns, Reference(ref)) || TurnsNameAside(turns, ref)
  }

  predicate ResultsNameAside(results: seq<ToolResult>, ref: EvidenceRef) {
    exists i :: 0 <= i < |results| && results[i].content.HistoryShown? && PageNamesAside(results[i].content.page, ref)
  }

  predicate TurnsNameAside(turns: seq<Turn>, ref: EvidenceRef) {
    exists i :: 0 <= i < |turns| && ResultsNameAside(turns[i].results, ref)
  }

  /** A delivered page is shown whole, so what it cites is all of `PageCites`. */
  lemma {:induction false} DeliveredPageIsCited(turns: seq<Turn>, i: nat, j: nat, ref: EvidenceRef)
    requires i < |turns| && j < |turns[i].results| && turns[i].results[j].content.HistoryShown?
    requires PageCites(turns[i].results[j].content.page, ref)
    ensures TurnsCite(turns, ref)
  {
    if PageRestsOn(turns[i].results[j].content.page, ref) {
      assert ContentShows(turns[i].results[j].content, Reference(ref));
      assert ResultsShow(turns[i].results, Reference(ref));
    } else {
      assert ResultsNameAside(turns[i].results, ref);
    }
  }

  predicate PromptCites(p: Prompt, ref: EvidenceRef) {
    BriefShows(p.orientation.brief, ref) || TurnsCite(p.turns, ref)
  }

  /** Every run a delivered answer names aside from its findings is also one some shown finding rests on. */
  ghost predicate NothingOnlyAside(p: Prompt) {
    forall ref :: TurnsNameAside(p.turns, ref) ==>
                    BriefShows(p.orientation.brief, ref) || TurnsShow(p.turns, Reference(ref))
  }

  /**
   What is whitelisted is always cited in the prompt. All that is cited is whitelisted exactly when no delivered
   answer names a run only for its impact, a hypothesis, an action or a limitation.
   */
  lemma {:induction false} WhitelistAndCitations(p: Prompt)
    requires Faithful(p)
    ensures forall ref :: ref in p.allowed ==> PromptCites(p, ref)
    ensures (forall ref :: PromptCites(p, ref) ==> ref in p.allowed) <==> NothingOnlyAside(p)
  {
    if forall ref :: PromptCites(p, ref) ==> ref in p.allowed {
      forall ref | TurnsNameAside(p.turns, ref)
        ensures BriefShows(p.orientation.brief, ref) || TurnsShow(p.turns, Reference(ref))
      {
        assert PromptCites(p, ref);
      }
    }
  }

  // --- an answer whose only citation cannot be cited again ---------------------------------------

  /** It answers without findings and proposes one action, for which it names run 3. */
  const ASIDE := Conclusion(AnswerOnly, "s", Impact("", []), [], [], [Action("t", "r", "v", [3])], [])

  const ASIDE_PAGE := HistoryPage(0, false, [], [BriefMessage(Some(ASIDE), false, "s", 1, 7)], false)

  /** The Conversation has one earlier Message and its brief printed no finding. */
  const ASIDE_BRIEF := Brief(2, 0, false, [], [], [], [])

  /** The model asks for what came before Message 2. */
  const ASIDE_CALL := CompletionCall(
    "c", HISTORY_TOOL, RawArguments(Some(Envelope(Absent, Absent, Absent, true)), "", Some(2), Undecodable))

  const ASIDE_TURN := Turn([ASIDE_CALL], [ToolResult("c", HistoryShown(ASIDE_PAGE), false)], [])

  lemma {:induction false} AsideIsSound(runs: seq<ToolRun>)
    requires |runs| >= 3
    ensures Sound(ASIDE, runs, [])
  {
    assert !IsSpace(ASIDE.summary[0]);
  }

  lemma {:induction false} AsideNames()
    ensures PageNamesAside(ASIDE_PAGE, EvidenceRef(7, 3)) && forall ref :: !PageRestsOn(ASIDE_PAGE, ref)
  {
    assert 3 in ASIDE.actions[0].runRefs;
    assert EntryNamesAside(ASIDE_PAGE.exchange[0], EvidenceRef(7, 3));
  }

  lemma {:induction false} AsideTurns(turns: seq<Turn>)
    requires turns == [ASIDE_TURN]
    ensures AllAnswered(turns) && TurnsNameAside(turns, EvidenceRef(7, 3))
    ensures forall ref :: !TurnsShow(turns, Reference(ref))
  {
    AsideNames();
    var turn := turns[0];
    assert turn.results[0].content.page == ASIDE_PAGE;
    assert ResultsNameAside(turn.results, EvidenceRef(7, 3));
    assert ResultIds(turn.results) == Ids(turn.calls);
  }

  /** A sound answer, delivered in a faithful prompt, cites a run that no finding may then cite. */
  lemma {:induction false} AsideIsCitedNotWhitelisted(p: Prompt, runs: seq<ToolRun>)
    requires p.turns == [ASIDE_TURN] && p.orientation.brief == Some(ASIDE_BRIEF) && p.allowed == [] && |runs| >= 3
    ensures Sound(ASIDE, runs, []) && Faithful(p)
    ensures PromptCites(p, EvidenceRef(7, 3)) && EvidenceRef(7, 3) !in p.allowed
    ensures !CitesPrior([EvidenceRef(7, 3)], p.allowed)
  {
    AsideIsSound(runs);
    AsideTurns(p.turns);
    assert Printed(ASIDE_BRIEF) == [];
    assert [EvidenceRef(7, 3)][0] !in p.allowed;
  }

  /** Adding the instruction to conclude changes no call, no answer and no shown page. */
  lemma {:induction false} PromptIsFaithful(
      turn: nat, attempt: nat, o: Orientation, transcript: seq<Turn>, forced: bool,
      stoppedBy: StoppedBy, allowed: seq<EvidenceRef>)
    requires AllAnswered(transcript)
    requires forall ref :: ref in allowed <==> BriefShows(o.brief, ref) || TurnsShow(transcript, Reference(ref))
    ensures Faithful(ModelPrompt(turn, attempt, o, transcript, forced, stoppedBy, allowed))
    ensures forall item :: TurnsShow(ModelPrompt(turn, attempt, o, transcript, forced, stoppedBy, allowed).turns, item)
                           <==> TurnsShow(transcript, item)
  {
    var p := ModelPrompt(turn, attempt, o, transcript, forced, stoppedBy, allowed);
    assert |p.turns| == |transcript|;
    assert forall i :: 0 <= i < |transcript| ==>
        p.turns[i].calls == transcript[i].calls && p.turns[i].results == transcript[i].results;
    assert AllAnswered(p.turns);
    forall item ensures TurnsShow(p.turns, item) <==> TurnsShow(transcript, item) {
      if TurnsShow(transcript, item) {
        var i :| 0 <= i < |transcript| && ResultsShow(transcript[i].results, item);
        assert ResultsShow(p.turns[i].results, item);
      }
    }
  }
}
