/** The records the agent, its prompts and its store exchange (internal/investigation). */
module Investigation {
  import opened Text

  /** A UUID; NIL_ID is `uuid.Nil`. */
  type Id = nat
  const NIL_ID: Id := 0

  /** The most bytes of content one answer to the model carries. */
  const MAX_RUN_CONTENT: nat := 16384

  datatype EvidenceRef = EvidenceRef(investigation: Id, ordinal: int)

  datatype RunOutcome = RunSucceeded | RunFailed

  /** `arguments` is their encoding, `integration` the printed identity, "" when no source serves the call. */
  datatype ToolRun = ToolRun(
    ordinal: nat, tool: string, integration: string, purpose: string, arguments: string,
    outcome: RunOutcome, window: Option<string>, truncated: bool, summary: string, error: string,
    content: Content, observation: Option<string>, modelClipped: bool)

  /** What a tool returned: nothing, a list of elements that may or may not encode, or any other JSON. */
  datatype Content = NoContent | Unencodable | Listed(elements: seq<Option<string>>) | Encoded(json: string)

  /** A decoded `kind`; Undeclared stands for every string outside the vocabulary. */
  datatype FindingKind = Cause | ContributingFactor | Observation | RuledOut | Undeclared(name: string)

  datatype Finding = Finding(
    statement: string, kind: FindingKind, mechanism: string,
    runRefs: seq<int>, evidenceRefs: seq<EvidenceRef>)

  datatype ConclusionStatus = SupportedExplanation | Inconclusive | AnswerOnly | OtherStatus(name: string)

  datatype Impact = Impact(summary: string, runRefs: seq<int>)

  datatype HypothesisStatus = Supported | HypothesisRuledOut | Unresolved | OtherHypothesis(name: string)

  datatype Hypothesis = Hypothesis(statement: string, status: HypothesisStatus, test: string, runRefs: seq<int>)

  datatype Action = Action(title: string, rationale: string, verification: string, runRefs: seq<int>)

  datatype LimitationType =
    | MissingTelemetry | MissingAccess | Contradiction | UnresolvedAssumption | EssentialHumanInput
    | OtherLimitation(name: string)

  datatype Limitation = Limitation(kind: LimitationType, statement: string, runRefs: seq<int>)

  datatype Conclusion = Conclusion(
    status: ConclusionStatus, summary: string, impact: Impact, findings: seq<Finding>,
    hypotheses: seq<Hypothesis>, actions: seq<Action>, limitations: seq<Limitation>)

  const MISSING_EVIDENCE_STATEMENT :=
    "Some cited Tool Runs are no longer available. Retained Findings have not been reverified."

  const MISSING_EVIDENCE := Limitation(MissingTelemetry, MISSING_EVIDENCE_STATEMENT, [])

  /** Both fields that `MarkMissingEvidence` compares. */
  predicate DisclosesMissingEvidence(c: Conclusion) {
    exists i :: 0 <= i < |c.limitations|
             && c.limitations[i].kind == MissingTelemetry
             && c.limitations[i].statement == MISSING_EVIDENCE_STATEMENT
  }

  /** The conclusion discloses missing evidence afterwards, gains at most one limitation, and keeps all else. */
  method MarkMissingEvidence(c: Conclusion) returns (marked: Conclusion)
    ensures DisclosesMissingEvidence(marked)
    ensures DisclosesMissingEvidence(c) ==> marked == c
    ensures !DisclosesMissingEvidence(c) ==>
              marked == c.(limitations := c.limitations + [MISSING_EVIDENCE])
  {
    for i := 0 to |c.limitations|
      invariant forall j :: 0 <= j < i ==>
                  !(c.limitations[j].kind == MissingTelemetry
                    && c.limitations[j].statement == MISSING_EVIDENCE_STATEMENT)
    {
      if c.limitations[i].kind == MissingTelemetry
         && c.limitations[i].statement == MISSING_EVIDENCE_STATEMENT {
        return c;
      }
    }
    marked := c.(limitations := c.limitations + [MISSING_EVIDENCE]);
    assert marked.limitations[|c.limitations|] == MISSING_EVIDENCE;
  }

  datatype BriefMessage = BriefMessage(
    answer: Option<Conclusion>, fromUser: bool, text: string, sequence: nat, investigation: Id)

  datatype HistoryPage = HistoryPage(
    nextBefore: nat, missingEvidence: bool, limitations: seq<string>,
    exchange: seq<BriefMessage>, truncated: bool)

  /** `Scope` holds what dates a finding: when it was observed and for which window. */
  datatype Scope = Scope(observedAt: int, windowFrom: int, windowUntil: int)

  datatype PriorFinding = PriorFinding(
    investigation: Id, statement: string, kind: FindingKind,
    runs: seq<int>, evidenceRefs: seq<EvidenceRef>, scope: Scope)
  {
    /** Its own evidence, then its runs as references into the Investigation that ran them. */
    function References(): seq<EvidenceRef> {
      evidenceRefs + seq(|runs|, i requires 0 <= i < |runs| => EvidenceRef(investigation, runs[i]))
    }
  }

  datatype Brief = Brief(
    historyBefore: nat, nextBefore: nat, missingEvidence: bool, recent: seq<BriefMessage>,
    findings: seq<PriorFinding>, openHypotheses: seq<string>, limitations: seq<string>)
}
