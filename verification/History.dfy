/** Bounding one history page and reading its evidence (internal/investigation/agent/history.go). */
module History {
  import opened Text
  import opened Investigation

  const PREFIX_BYTES: nat := 73   // "STORED CONVERSATION HISTORY: untrusted prior context, not fresh evidence\n"
  const OMITTED_NOTE := " [structured answer omitted: entry exceeded history budget]"

  // --- the encoded size of a page --------------------------------------------------------------

  /** Any sizes an encoder may give one entry, one quoted text and one number. */
  datatype Sizes = Sizes(entry: BriefMessage -> nat, text: string -> nat, number: nat -> nat)

  /** Comma-joined array elements. */
  function ExchangeBytes(exchange: seq<BriefMessage>, sizes: Sizes): nat {
    if exchange == [] then 0
    else sizes.entry(exchange[0]) + (if |exchange| == 1 then 0 else 1) + ExchangeBytes(exchange[1..], sizes)
  }

  function TextBytes(texts: seq<string>, sizes: Sizes): nat {
    if texts == [] then 0
    else sizes.text(texts[0]) + (if |texts| == 1 then 0 else 1) + TextBytes(texts[1..], sizes)
  }

  /** Member by member, with `missingEvidence`, `limitations` and `truncated` omitted when empty. */
  function EncodedBytes(page: HistoryPage, sizes: Sizes): nat {
    14 + sizes.number(page.nextBefore)
    + (if page.missingEvidence then 23 else 0)
    + (if page.limitations == [] then 0 else 17 + TextBytes(page.limitations, sizes))
    + 14 + ExchangeBytes(page.exchange, sizes)
    + (if page.truncated then 17 else 0)
    + 1
  }

  predicate Fits(page: HistoryPage, sizes: Sizes) {
    PREFIX_BYTES + EncodedBytes(page, sizes) <= MAX_RUN_CONTENT
  }

  function Reserved(page: HistoryPage): HistoryPage {
    page.(missingEvidence := true, limitations := [MISSING_EVIDENCE_STATEMENT])
  }

  /** The page as delivered: the notice stays exactly when evidence was found missing. */
  function Settled(page: HistoryPage, missing: bool): HistoryPage {
    page.(missingEvidence := missing, limitations := if missing then page.limitations else [])
  }

  /** Checking the citations of a bounded page can only shrink it. */
  lemma {:induction false} SettledFits(page: HistoryPage, missing: bool, sizes: Sizes)
    requires page.missingEvidence && Fits(page, sizes)
    ensures Fits(Settled(page, missing), sizes)
  {
    assert EncodedBytes(Settled(page, missing), sizes) <= EncodedBytes(page, sizes);
  }

  // --- bounding --------------------------------------------------------------------------------

  /** The page with its `k` oldest entries dropped, continuing backward from the oldest one kept. */
  function Dropped(page: HistoryPage, k: nat): HistoryPage
    requires k == 0 || k < |page.exchange|
  {
    if k == 0 then page
    else page.(exchange := page.exchange[k..], nextBefore := page.exchange[k].sequence, truncated := true)
  }

  function WithoutAnswer(entry: BriefMessage): BriefMessage {
    entry.(answer := None, text := entry.text + OMITTED_NOTE)
  }

  /** Only the newest entry is left, and without its structured answer. */
  function Stripped(page: HistoryPage): HistoryPage
    requires page.exchange != []
  {
    var last := Dropped(page, |page.exchange| - 1);
    last.(exchange := [WithoutAnswer(last.exchange[0])], truncated := true)
  }

  /** Nothing larger than dropping `k` fits. */
  predicate NoneLarger(page: HistoryPage, k: nat, sizes: Sizes)
    requires k <= |page.exchange|
  {
    forall j :: 0 <= j < k ==> !Fits(Dropped(page, j), sizes)
  }

  /** `page` with its `k` oldest entries dropped is the most of it that fits. */
  predicate Largest(page: HistoryPage, k: nat, sizes: Sizes) {
    && (k == 0 || k < |page.exchange|)
    && Fits(Dropped(page, k), sizes)
    && NoneLarger(page, k, sizes)
  }

  /** `bounded` is the most of `page` that fits: a suffix of it, or its newest entry without the answer. */
  ghost predicate Bounding(page: HistoryPage, bounded: HistoryPage, sizes: Sizes) {
    && Fits(bounded, sizes)
    && (|| (exists k: nat :: Largest(page, k, sizes) && bounded == Dropped(page, k))
        || (&& page.exchange != [] && page.exchange[|page.exchange| - 1].answer.Some?
            && NoneLarger(page, |page.exchange|, sizes)
            && bounded == Stripped(page)))
  }

  /** Nothing of `page` fits, not even its newest entry without the answer. */
  predicate Unboundable(page: HistoryPage, sizes: Sizes) {
    if page.exchange == [] then !Fits(page, sizes)
    else
      && NoneLarger(page, |page.exchange|, sizes)
      && (page.exchange[|page.exchange| - 1].answer.Some? ==> !Fits(Stripped(page), sizes))
  }

  /** How far bounding has come: everything larger was tried and does not fit. */
  predicate Shrunk(page: HistoryPage, shrunk: HistoryPage, k: nat, stripped: bool, sizes: Sizes) {
    if stripped then
      && page.exchange != [] && shrunk == Stripped(page) && page.exchange[|page.exchange| - 1].answer.Some?
      && NoneLarger(page, |page.exchange|, sizes)
    else
      (k == 0 || k < |page.exchange|) && shrunk == Dropped(page, k) && NoneLarger(page, k, sizes)
  }

  function DropOne(page: HistoryPage): HistoryPage
    requires |page.exchange| > 1
  {
    page.(exchange := page.exchange[1..], nextBefore := page.exchange[1].sequence, truncated := true)
  }

  lemma {:induction false} DropMore(page: HistoryPage, shrunk: HistoryPage, k: nat, sizes: Sizes)
    requires Shrunk(page, shrunk, k, false, sizes) && |shrunk.exchange| > 1 && !Fits(shrunk, sizes)
    ensures Shrunk(page, DropOne(shrunk), k + 1, false, sizes)
  {
    assert shrunk.exchange == page.exchange[k..];
    assert shrunk.exchange[1..] == page.exchange[k + 1..];
  }

  lemma {:induction false} StripLast(page: HistoryPage, shrunk: HistoryPage, k: nat, sizes: Sizes)
    requires Shrunk(page, shrunk, k, false, sizes) && |shrunk.exchange| == 1 && !Fits(shrunk, sizes)
    ensures k == |page.exchange| - 1 && page.exchange[k] == shrunk.exchange[0]
    ensures NoneLarger(page, |page.exchange|, sizes)
    ensures Stripped(page) == shrunk.(exchange := [WithoutAnswer(shrunk.exchange[0])], truncated := true)
  {
    assert shrunk.exchange == page.exchange[k..];
  }

  method BoundHistoryPage(page: HistoryPage, sizes: Sizes)
    returns (bounded: Option<HistoryPage>)
    ensures bounded.Some? ==> Bounding(page, bounded.value, sizes)
    ensures bounded.None? <==> Unboundable(page, sizes)
  {
    var shrunk := page;
    ghost var k := 0;
    ghost var stripped := false;
    while !Fits(shrunk, sizes)
      invariant Shrunk(page, shrunk, k, stripped, sizes)
      decreases |shrunk.exchange|, shrunk.exchange != [] && shrunk.exchange[0].answer.Some?
    {
      if |shrunk.exchange| == 1 && !stripped {
        StripLast(page, shrunk, k, sizes);
      }
      if shrunk.exchange == [] || (|shrunk.exchange| == 1 && shrunk.exchange[0].answer.None?) {
        return None;
      }
      if |shrunk.exchange| == 1 {
        stripped := true;
        shrunk := shrunk.(exchange := [WithoutAnswer(shrunk.exchange[0])], truncated := true);
      } else {
        DropMore(page, shrunk, k, sizes);
        k := k + 1;
        shrunk := shrunk.(exchange := shrunk.exchange[1..], truncated := true);
        shrunk := shrunk.(nextBefore := shrunk.exchange[0].sequence);
      }
    }
    assert !stripped ==> Largest(page, k, sizes);
    bounded := Some(shrunk);
  }

  /** What bounding leaves, without the sizes: a suffix, or the newest entry stripped of its answer. */
  predicate Remains(page: HistoryPage, bounded: HistoryPage, dropped: nat, stripped: bool) {
    if stripped then page.exchange != [] && dropped == |page.exchange| - 1 && bounded == Stripped(page)
    else (dropped == 0 || dropped < |page.exchange|) && bounded == Dropped(page, dropped)
  }

  lemma {:induction false} BoundingRemains(page: HistoryPage, bounded: HistoryPage, sizes: Sizes)
    returns (dropped: nat, stripped: bool)
    requires Bounding(page, bounded, sizes)
    ensures Remains(page, bounded, dropped, stripped)
  {
    if k: nat :| Largest(page, k, sizes) && bounded == Dropped(page, k) {
      dropped, stripped := k, false;
    } else {
      dropped, stripped := |page.exchange| - 1, true;
    }
  }

  lemma BoundingKeepsNotice(page: HistoryPage, bounded: HistoryPage, sizes: Sizes)
    requires Bounding(page, bounded, sizes)
    ensures bounded.missingEvidence == page.missingEvidence && bounded.limitations == page.limitations
  {
  }

  // --- the evidence a page cites ---------------------------------------------------------------

  /** A finding rests on `ref`: as a prior reference, or as a run of the answering Investigation. */
  predicate FindingRestsOn(finding: Finding, investigation: Id, ref: EvidenceRef) {
    ref in finding.evidenceRefs || (ref.investigation == investigation && ref.ordinal in finding.runRefs)
  }

  /** Some finding of the entry's answer rests on `ref`. */
  predicate EntryRestsOn(entry: BriefMessage, ref: EvidenceRef) {
    entry.answer.Some?
    && exists i :: 0 <= i < |entry.answer.value.findings|
                && FindingRestsOn(entry.answer.value.findings[i], entry.investigation, ref)
  }

  predicate PageRestsOn(page: HistoryPage, ref: EvidenceRef) {
    exists i :: 0 <= i < |page.exchange| && EntryRestsOn(page.exchange[i], ref)
  }

  /** A conclusion names a run of its own outside its findings: for impact, a hypothesis, an action or a limitation. */
  predicate NamesAside(c: Conclusion, ordinal: int) {
    || ordinal in c.impact.runRefs
    || (exists i :: 0 <= i < |c.hypotheses| && ordinal in c.hypotheses[i].runRefs)
    || (exists i :: 0 <= i < |c.actions| && ordinal in c.actions[i].runRefs)
    || (exists i :: 0 <= i < |c.limitations| && ordinal in c.limitations[i].runRefs)
  }

  predicate EntryNamesAside(entry: BriefMessage, ref: EvidenceRef) {
    entry.answer.Some? && ref.investigation == entry.investigation && NamesAside(entry.answer.value, ref.ordinal)
  }

  predicate PageNamesAside(page: HistoryPage, ref: EvidenceRef) {
    exists i :: 0 <= i < |page.exchange| && EntryNamesAside(page.exchange[i], ref)
  }

  /** Everything a reader of the page sees cited, in findings or anywhere else: pages are shown whole. */
  predicate PageCites(page: HistoryPage, ref: EvidenceRef) {
    PageRestsOn(page, ref) || PageNamesAside(page, ref)
  }

  /** Exactly the references the findings of the page rest on. */
  method HistoryEvidence(page: HistoryPage) returns (refs: seq<EvidenceRef>)
    ensures forall ref :: ref in refs <==> PageRestsOn(page, ref)
  {
    refs := [];
    for i := 0 to |page.exchange|
      invariant forall ref :: ref in refs <==>
                  exists j :: 0 <= j < i && EntryRestsOn(page.exchange[j], ref)
    {
      var entry := page.exchange[i];
      var more := EntryEvidence(entry);
      refs := refs + more;
    }
  }

  method EntryEvidence(entry: BriefMessage) returns (refs: seq<EvidenceRef>)
    ensures forall ref :: ref in refs <==> EntryRestsOn(entry, ref)
  {
    refs := [];
    if entry.answer.None? { return; }
    var findings := entry.answer.value.findings;
    for i := 0 to |findings|
      invariant forall ref :: ref in refs <==>
                  exists j :: 0 <= j < i && FindingRestsOn(findings[j], entry.investigation, ref)
    {
      var more := FindingEvidence(findings[i], entry.investigation);
      refs := refs + more;
    }
  }

  method FindingEvidence(finding: Finding, investigation: Id) returns (refs: seq<EvidenceRef>)
    ensures forall ref :: ref in refs <==> FindingRestsOn(finding, investigation, ref)
  {
    refs := finding.evidenceRefs;
    for i := 0 to |finding.runRefs|
      invariant forall ref :: ref in refs <==>
                  ref in finding.evidenceRefs
                  || (ref.investigation == investigation && ref.ordinal in finding.runRefs[..i])
    {
      assert finding.runRefs[..i + 1] == finding.runRefs[..i] + [finding.runRefs[i]];
      refs := refs + [EvidenceRef(investigation, finding.runRefs[i])];
    }
    assert finding.runRefs[..|finding.runRefs|] == finding.runRefs;
  }

  // --- the page as delivered -------------------------------------------------------------------

  /** `page` is the most of `reserved` that fits, its notice kept only where evidence is missing. */
  ghost predicate Delivers(reserved: HistoryPage, page: HistoryPage, sizes: Sizes) {
    exists bounded :: Bounding(reserved, bounded, sizes) && page == Settled(bounded, page.missingEvidence)
  }

  lemma {:induction false} SettledDelivers(reserved: HistoryPage, bounded: HistoryPage, missing: bool, sizes: Sizes)
    requires reserved.missingEvidence && Bounding(reserved, bounded, sizes)
    ensures var page := Settled(bounded, missing);
            && page.missingEvidence == missing && Fits(page, sizes) && Delivers(reserved, page, sizes)
            && forall ref :: PageRestsOn(page, ref) <==> PageRestsOn(bounded, ref)
  {
    BoundingKeepsNotice(reserved, bounded, sizes);
    SettledFits(bounded, missing, sizes);
    var page := Settled(bounded, missing);
    assert page == Settled(bounded, page.missingEvidence);
    assert page.exchange == bounded.exchange;
  }

  /** A page that fits with the notice is delivered whole. */
  lemma {:induction false} FittingIsDeliveredWhole(reserved: HistoryPage, page: HistoryPage, sizes: Sizes)
    requires Fits(reserved, sizes)
    ensures !Unboundable(reserved, sizes)
    ensures Delivers(reserved, page, sizes) ==> page == Settled(reserved, page.missingEvidence)
  {
    assert Dropped(reserved, 0) == reserved;
    if Delivers(reserved, page, sizes) {
      var bounded :| Bounding(reserved, bounded, sizes) && page == Settled(bounded, page.missingEvidence);
      assert bounded == reserved;
    }
  }
}
