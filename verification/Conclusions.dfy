/** The validator every model conclusion passes (internal/investigation/agent/conclusion.go). */
module Conclusions {
  import opened Text
  import opened Investigation

  const CONCLUDE_TOOL := "conclude"
  const MAX_STATEMENT := 2048
  const MAX_SUMMARY := 4096
  const MAX_ACTIONS := 8
  const MAX_ACTION_TEXT := 512

  /** A call as the provider returned it, with its raw arguments read the ways the agent may read them. */
  datatype CompletionCall = CompletionCall(id: string, name: string, arguments: RawArguments)

  /** A member of a JSON object: absent, text, an object (with its canonical encoding), or anything else. */
  datatype Member = Absent | TextMember(text: string) | ObjectMember(encoded: string) | OtherMember

  datatype Envelope = Envelope(integration: Member, input: Member, purpose: Member, extraFields: bool)

  datatype RawArguments = RawArguments(
    envelope: Option<Envelope>,    // None: not a JSON object
    encoded: string,               // the object re-encoded
    beforeSequence: Option<int>,   // the object as a history cursor; None: unknown or mistyped fields
    document: Document)            // the object as a conclusion

  datatype Document =
    | Undecodable
    | Document(
        status: ConclusionStatus, summary: string,
        impactSummary: Option<string>, impactRefs: Option<seq<int>>,
        findings: seq<Finding>, hypotheses: seq<Hypothesis>, actions: seq<Action>,
        limitations: seq<Limitation>)

  // --- splitting one answer's calls -----------------------------------------------------------

  function Ids(calls: seq<CompletionCall>): seq<string> {
    seq(|calls|, i requires 0 <= i < |calls| => calls[i].id)
  }

  predicate Distinct<T(==)>(s: seq<T>) {
    forall i, j :: 0 <= i < j < |s| ==> s[i] != s[j]
  }

  /** Every call can be answered by its ID: none blank, none repeated. */
  predicate Addressable(calls: seq<CompletionCall>) {
    && Distinct(Ids(calls))
    && forall i :: 0 <= i < |calls| ==> !Blank(calls[i].id)
  }

  predicate IsConclude(call: CompletionCall) {
    call.name == CONCLUDE_TOOL
  }

  function Reads(calls: seq<CompletionCall>): (r: seq<CompletionCall>)
    ensures |r| <= |calls|
  {
    if calls == [] then []
    else
      var n := |calls| - 1;
      if IsConclude(calls[n]) then Reads(calls[..n]) else Reads(calls[..n]) + [calls[n]]
  }

  function Concludes(calls: seq<CompletionCall>): (r: seq<CompletionCall>)
    ensures |r| <= |calls|
  {
    if calls == [] then []
    else
      var n := |calls| - 1;
      if IsConclude(calls[n]) then Concludes(calls[..n]) + [calls[n]] else Concludes(calls[..n])
  }

  lemma IdsOfAppend(calls: seq<CompletionCall>, call: CompletionCall)
    ensures Ids(calls + [call]) == Ids(calls) + [call.id]
  {
  }

  /** Splitting loses and invents no call: the two parts together hold exactly the IDs of the whole. */
  lemma {:induction false} SplitKeepsIds(calls: seq<CompletionCall>)
    ensures multiset(Ids(Concludes(calls))) + multiset(Ids(Reads(calls))) == multiset(Ids(calls))
  {
    if calls != [] {
      var n := |calls| - 1;
      var front, call := calls[..n], calls[n];
      SplitKeepsIds(front);
      assert calls == front + [call];
      IdsOfAppend(front, call);
      if IsConclude(call) {
        IdsOfAppend(Concludes(front), call);
      } else {
        IdsOfAppend(Reads(front), call);
      }
    }
  }

  lemma {:induction false} AddressableAppend(calls: seq<CompletionCall>, call: CompletionCall)
    ensures Addressable(calls + [call]) <==>
              Addressable(calls) && !Blank(call.id) && call.id !in Ids(calls)
  {
    var all, ids := calls + [call], Ids(calls);
    IdsOfAppend(calls, call);
    var n := |calls|;
    assert all[n] == call && Ids(all)[n] == call.id;
    assert forall i :: 0 <= i < n ==> all[i] == calls[i];
    if Addressable(all) {
      assert forall i :: 0 <= i < n ==> Ids(all)[i] == ids[i];
    }
  }

  lemma {:induction false} AddressablePrefix(calls: seq<CompletionCall>, n: nat)
    requires n <= |calls| && Addressable(calls)
    ensures Addressable(calls[..n])
  {
    assert Ids(calls[..n]) == Ids(calls)[..n];
  }

  method SplitCalls(calls: seq<CompletionCall>)
    returns (ok: bool, readCalls: seq<CompletionCall>, concludeCalls: seq<CompletionCall>)
    ensures ok <==> Addressable(calls)
    ensures ok ==> readCalls == Reads(calls) && concludeCalls == Concludes(calls)
  {
    readCalls, concludeCalls := [], [];
    var seen: set<string> := {};
    for i := 0 to |calls|
      invariant forall id :: id in seen <==> id in Ids(calls[..i])
      invariant Addressable(calls[..i])
      invariant readCalls == Reads(calls[..i]) && concludeCalls == Concludes(calls[..i])
    {
      var call := calls[i];
      assert calls[..i + 1] == calls[..i] + [call];
      AddressableAppend(calls[..i], call);
      IdsOfAppend(calls[..i], call);
      if Blank(call.id) || call.id in seen {
        if Addressable(calls) {
          AddressablePrefix(calls, i + 1);
        }
        return false, [], [];
      }
      seen := seen + {call.id};
      if IsConclude(call) {
        concludeCalls := concludeCalls + [call];
      } else {
        readCalls := readCalls + [call];
      }
    }
    assert calls[..|calls|] == calls;
    ok := true;
  }

  // --- what an accepted document satisfies -----------------------------------------------------

  predicate InRange(refs: seq<int>, runs: nat) {
    forall i :: 0 <= i < |refs| ==> 1 <= refs[i] <= runs
  }

  predicate Causal(kind: FindingKind) {
    kind == Cause || kind == ContributingFactor
  }

  /** Every cited run was recorded and supplied evidence. */
  predicate CitesSuccess(refs: seq<int>, runs: seq<ToolRun>) {
    forall i :: 0 <= i < |refs| ==>
      1 <= refs[i] <= |runs| && runs[refs[i] - 1].outcome == RunSucceeded
  }

  /** Every cited prior reference is well formed, on the whitelist, and cited once. */
  predicate CitesPrior(refs: seq<EvidenceRef>, allowed: seq<EvidenceRef>) {
    && Distinct(refs)
    && forall i :: 0 <= i < |refs| ==>
         refs[i].investigation != NIL_ID && refs[i].ordinal > 0 && refs[i] in allowed
  }

  predicate SoundFinding(f: Finding, runs: seq<ToolRun>, allowed: seq<EvidenceRef>) {
    && f.statement != "" && Bytes(f.statement) <= MAX_STATEMENT
    && !f.kind.Undeclared?
    && (f.runRefs != [] || f.evidenceRefs != [])
    && CitesSuccess(f.runRefs, runs)
    && CitesPrior(f.evidenceRefs, allowed)
    && (Causal(f.kind) ==> !Blank(f.mechanism))
  }

  predicate SoundHypothesis(h: Hypothesis, runs: nat) {
    h.statement != "" && h.test != "" && !h.status.OtherHypothesis? && InRange(h.runRefs, runs)
  }

  predicate ActionText(s: string) {
    s != "" && Bytes(s) <= MAX_ACTION_TEXT
  }

  predicate SoundAction(a: Action, runs: nat) {
    && ActionText(a.title) && ActionText(a.rationale) && ActionText(a.verification)
    && a.runRefs != [] && InRange(a.runRefs, runs)
  }

  predicate SoundLimitation(l: Limitation, runs: nat) {
    l.statement != "" && !l.kind.OtherLimitation? && InRange(l.runRefs, runs)
  }

  /** The status claims no more and no less than the finding kinds carry. */
  predicate StatusAgrees(c: Conclusion) {
    match c.status
    case SupportedExplanation => exists i :: 0 <= i < |c.findings| && Causal(c.findings[i].kind)
    case Inconclusive => forall i :: 0 <= i < |c.findings| ==> c.findings[i].kind != Cause
    case AnswerOnly => forall i :: 0 <= i < |c.findings| ==> c.findings[i].kind in {Observation, RuledOut}
    case OtherStatus(_) => false
  }

  predicate Sound(c: Conclusion, runs: seq<ToolRun>, allowed: seq<EvidenceRef>) {
    && !Blank(c.summary) && |c.summary| <= MAX_SUMMARY
    && InRange(c.impact.runRefs, |runs|)
    && (Blank(c.impact.summary) ==> c.status == AnswerOnly && c.impact.runRefs == [])
    && (forall i :: 0 <= i < |c.findings| ==> SoundFinding(c.findings[i], runs, allowed))
    && (forall i :: 0 <= i < |c.hypotheses| ==> SoundHypothesis(c.hypotheses[i], |runs|))
    && |c.actions| <= MAX_ACTIONS
    && (forall i :: 0 <= i < |c.actions| ==> SoundAction(c.actions[i], |runs|))
    && (forall i :: 0 <= i < |c.limitations| ==> SoundLimitation(c.limitations[i], |runs|))
    && StatusAgrees(c)
  }

  /** The conclusion a document states, when it states one at all. */
  function Stated(d: Document): Option<Conclusion> {
    if d.Undecodable? || d.impactSummary.None? || d.impactRefs.None? then None
    else Some(Conclusion(d.status, d.summary, Impact(d.impactSummary.value, d.impactRefs.value),
                         d.findings, d.hypotheses, d.actions, d.limitations))
  }

  // --- the loops that decide it ----------------------------------------------------------------

  method ValidateRunRefs(refs: seq<int>, runs: nat) returns (ok: bool)
    ensures ok <==> InRange(refs, runs)
  {
    for i := 0 to |refs|
      invariant InRange(refs[..i], runs)
    {
      if refs[i] < 1 || refs[i] > runs { return false; }
    }
    assert refs[..|refs|] == refs;
    ok := true;
  }

  method ValidateSuccess(refs: seq<int>, runs: seq<ToolRun>) returns (ok: bool)
    requires InRange(refs, |runs|)
    ensures ok <==> CitesSuccess(refs, runs)
  {
    for i := 0 to |refs|
      invariant CitesSuccess(refs[..i], runs)
    {
      if runs[refs[i] - 1].outcome != RunSucceeded { return false; }
    }
    assert refs[..|refs|] == refs;
    ok := true;
  }

  method ValidatePrior(refs: seq<EvidenceRef>, allowed: seq<EvidenceRef>) returns (ok: bool)
    ensures ok <==> CitesPrior(refs, allowed)
  {
    var seen: set<EvidenceRef> := {};
    for i := 0 to |refs|
      invariant seen == set j | 0 <= j < i :: refs[j]
      invariant CitesPrior(refs[..i], allowed)
    {
      var ref := refs[i];
      if ref.investigation == NIL_ID || ref.ordinal <= 0 || ref !in allowed { return false; }
      if ref in seen { return false; }
      seen := seen + {ref};
    }
    assert refs[..|refs|] == refs;
    ok := true;
  }

  method ValidateFinding(f: Finding, runs: seq<ToolRun>, allowed: seq<EvidenceRef>) returns (ok: bool)
    ensures ok <==> SoundFinding(f, runs, allowed)
  {
    if f.statement == "" || Bytes(f.statement) > MAX_STATEMENT || f.kind.Undeclared? { return false; }
    if f.runRefs == [] && f.evidenceRefs == [] { return false; }
    var inRange := ValidateRunRefs(f.runRefs, |runs|);
    if !inRange { return false; }
    var successful := ValidateSuccess(f.runRefs, runs);
    if !successful { return false; }
    var prior := ValidatePrior(f.evidenceRefs, allowed);
    ok := prior && !(Causal(f.kind) && Blank(f.mechanism));
  }

  method ValidateStatus(c: Conclusion) returns (ok: bool)
    requires !c.status.OtherStatus?
    ensures ok <==> StatusAgrees(c)
  {
    var hasCause, explanation, onlyFacts := false, false, true;
    for i := 0 to |c.findings|
      invariant hasCause <==> exists j :: 0 <= j < i && c.findings[j].kind == Cause
      invariant explanation <==> exists j :: 0 <= j < i && Causal(c.findings[j].kind)
      invariant onlyFacts <==> forall j :: 0 <= j < i ==> c.findings[j].kind in {Observation, RuledOut}
    {
      hasCause := hasCause || c.findings[i].kind == Cause;
      explanation := explanation || Causal(c.findings[i].kind);
      onlyFacts := onlyFacts && c.findings[i].kind in {Observation, RuledOut};
    }
    match c.status
    case SupportedExplanation => ok := explanation;
    case Inconclusive => ok := !hasCause;
    case AnswerOnly => ok := onlyFacts;
  }

  method ValidateLists(c: Conclusion, runs: nat) returns (ok: bool)
    ensures ok <==>
      && (forall i :: 0 <= i < |c.hypotheses| ==> SoundHypothesis(c.hypotheses[i], runs))
      && |c.actions| <= MAX_ACTIONS
      && (forall i :: 0 <= i < |c.actions| ==> SoundAction(c.actions[i], runs))
      && (forall i :: 0 <= i < |c.limitations| ==> SoundLimitation(c.limitations[i], runs))
  {
    for i := 0 to |c.hypotheses|
      invariant forall j :: 0 <= j < i ==> SoundHypothesis(c.hypotheses[j], runs)
    {
      var h := c.hypotheses[i];
      if h.statement == "" || h.test == "" || h.status.OtherHypothesis? { return false; }
      var inRange := ValidateRunRefs(h.runRefs, runs);
      if !inRange { return false; }
    }
    if |c.actions| > MAX_ACTIONS { return false; }
    for i := 0 to |c.actions|
      invariant forall j :: 0 <= j < i ==> SoundAction(c.actions[j], runs)
    {
      var a := c.actions[i];
      if !ActionText(a.title) || !ActionText(a.rationale) || !ActionText(a.verification) { return false; }
      var inRange := ValidateRunRefs(a.runRefs, runs);
      if !inRange || a.runRefs == [] { return false; }
    }
    for i := 0 to |c.limitations|
      invariant forall j :: 0 <= j < i ==> SoundLimitation(c.limitations[j], runs)
    {
      var l := c.limitations[i];
      if l.statement == "" || l.kind.OtherLimitation? { return false; }
      var inRange := ValidateRunRefs(l.runRefs, runs);
      if !inRange { return false; }
    }
    ok := true;
  }

  /** Accepts exactly the documents that state a sound conclusion, and returns that conclusion unaltered. */
  method DecodeConclusion(document: Document, runs: seq<ToolRun>, allowed: seq<EvidenceRef>)
    returns (accepted: Option<Conclusion>)
    ensures accepted ==
      if Stated(document).Some? && Sound(Stated(document).value, runs, allowed)
      then Stated(document) else None
    ensures accepted.Some? ==>
              && document.Document? && accepted.value.status == document.status
              && accepted.value.summary == document.summary
              && Some(accepted.value.impact.summary) == document.impactSummary
              && Some(accepted.value.impact.runRefs) == document.impactRefs
              && accepted.value.findings == document.findings && accepted.value.hypotheses == document.hypotheses
              && accepted.value.actions == document.actions && accepted.value.limitations == document.limitations
  {
    if document.Undecodable? { return None; }
    if Blank(document.summary) || |document.summary| > MAX_SUMMARY { return None; }
    if document.status.OtherStatus? { return None; }
    if document.impactSummary.None? || document.impactRefs.None? { return None; }
    var inRange := ValidateRunRefs(document.impactRefs.value, |runs|);
    if !inRange { return None; }
    if Blank(document.impactSummary.value) && (document.status != AnswerOnly || document.impactRefs.value != []) {
      return None;
    }
    var c := Stated(document).value;
    for i := 0 to |c.findings|
      invariant forall j :: 0 <= j < i ==> SoundFinding(c.findings[j], runs, allowed)
    {
      var ok := ValidateFinding(c.findings[i], runs, allowed);
      if !ok { return None; }
    }
    var lists := ValidateLists(c, |runs|);
    if !lists { return None; }
    var status := ValidateStatus(c);
    accepted := if status then Some(c) else None;
  }
}
