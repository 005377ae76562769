/** The paged history reader against the plain list of prior Messages (conversation_context.go, history.go). */
module HistoryPaging {
  import opened Text
  import opened Investigation
  import opened History

  const PAGE_MESSAGES: nat := 12

  /** The prior Messages of a Conversation: by sequence, which starts at 1. */
  predicate Chronological(prior: seq<BriefMessage>) {
    && (forall i :: 0 <= i < |prior| ==> prior[i].sequence >= 1)
    && (forall i, j :: 0 <= i < j < |prior| ==> prior[i].sequence < prior[j].sequence)
  }

  /** How many prior Messages come before the cursor. */
  function CountBefore(prior: seq<BriefMessage>, before: nat): (k: nat)
    ensures k <= |prior|
    ensures k > 0 ==> prior[k - 1].sequence < before
    ensures forall i :: k <= i < |prior| ==> prior[i].sequence >= before
  {
    if prior == [] then 0
    else
      var n := |prior| - 1;
      if prior[n].sequence < before then |prior| else CountBefore(prior[..n], before)
  }

  /** One stored page: the newest `limit` Messages before the cursor, oldest first, and where to go on. */
  function StoredPage(prior: seq<BriefMessage>, k: nat, limit: nat): HistoryPage
    requires k <= |prior| && limit > 0
  {
    var low := if k > limit then k - limit else 0;
    HistoryPage(if low > 0 then prior[low].sequence else 0, false, [], prior[low..k], false)
  }

  /** Fetches newest first, one row past the limit, cuts, and turns the page round. */
  method ReadPriorMessages(prior: seq<BriefMessage>, before: nat, limit: nat) returns (page: HistoryPage)
    requires limit > 0
    ensures page == StoredPage(prior, if before == 0 then |prior| else CountBefore(prior, before), limit)
  {
    var k := if before == 0 then |prior| else CountBefore(prior, before);
    var fetched := if k > limit + 1 then limit + 1 else k;
    var exchange := [];
    for i := 0 to fetched
      invariant |exchange| == i
      invariant forall j :: 0 <= j < i ==> exchange[j] == prior[k - 1 - j]
    {
      exchange := exchange + [prior[k - 1 - i]];
    }
    var nextBefore := 0;
    if |exchange| > limit {
      exchange := exchange[..limit];
      nextBefore := exchange[limit - 1].sequence;
    }
    var turned := [];
    for i := 0 to |exchange|
      invariant |turned| == i
      invariant forall j :: 0 <= j < i ==> turned[j] == exchange[|exchange| - 1 - j]
    {
      turned := turned + [exchange[|exchange| - 1 - i]];
    }
    page := HistoryPage(nextBefore, false, [], turned, false);
    assert turned == prior[k - |exchange|..k];
  }

  /** The entry is the Message, or the Message with its structured answer left out. */
  predicate Same(entry: BriefMessage, message: BriefMessage) {
    entry == message || entry == WithoutAnswer(message)
  }

  predicate Matches(entries: seq<BriefMessage>, messages: seq<BriefMessage>) {
    |entries| == |messages| && forall i :: 0 <= i < |entries| ==> Same(entries[i], messages[i])
  }

  /** The oldest Message a stored page holds. */
  function Low(k: nat): nat {
    if k > PAGE_MESSAGES then k - PAGE_MESSAGES else 0
  }

  /** A page that holds what the stored page before Message `k` does, whatever its notice. */
  predicate Holds(page: HistoryPage, prior: seq<BriefMessage>, k: nat)
    requires k <= |prior|
  {
    page.exchange == prior[Low(k)..k] && page.nextBefore == if Low(k) > 0 then prior[Low(k)].sequence else 0
  }

  lemma DroppedCovers(page: HistoryPage, prior: seq<BriefMessage>, k: nat, d: nat)
    requires k <= |prior| && Holds(page, prior, k) && (d == 0 || d < k - Low(k))
    ensures var dropped := Dropped(page, d);
            && dropped.exchange == prior[Low(k) + d..k]
            && dropped.nextBefore == if Low(k) + d == 0 then 0 else prior[Low(k) + d].sequence
  {
  }

  /** A delivered page shows some newest part of what precedes its cursor, and continues exactly before it. */
  predicate Shows(page: HistoryPage, prior: seq<BriefMessage>, j: nat, k: nat)
    requires j <= k <= |prior|
  {
    && (k > 0 ==> j < k)
    && Matches(page.exchange, prior[j..k])
    && page.nextBefore == if j == 0 then 0 else prior[j].sequence
  }

  lemma {:induction false} RemainsShow(
      prior: seq<BriefMessage>, k: nat, page: HistoryPage, bounded: HistoryPage, dropped: nat, stripped: bool,
      missing: bool)
    requires k <= |prior| && Holds(page, prior, k) && Remains(page, bounded, dropped, stripped)
    ensures Low(k) + dropped <= k && Shows(Settled(bounded, missing), prior, Low(k) + dropped, k)
  {
    assert |page.exchange| == k - Low(k);
    DroppedCovers(page, prior, k, dropped);
  }

  /** Reading went on from `before` and now stands just before what `page` shows. */
  ghost predicate Continues(prior: seq<BriefMessage>, before: nat, page: HistoryPage) {
    var k := CountBefore(prior, before);
    exists j: nat :: j <= k && Shows(page, prior, j, k)
  }

  lemma {:induction false} BoundingShows(
      prior: seq<BriefMessage>, k: nat, reserved: HistoryPage, bounded: HistoryPage, missing: bool, sizes: Sizes)
    returns (j: nat)
    requires k <= |prior| && Holds(reserved, prior, k) && Bounding(reserved, bounded, sizes)
    ensures j <= k && Shows(Settled(bounded, missing), prior, j, k)
  {
    var dropped, stripped := BoundingRemains(reserved, bounded, sizes);
    RemainsShow(prior, k, reserved, bounded, dropped, stripped, missing);
    j := Low(k) + dropped;
  }

  lemma {:induction false} DeliversShows(
      prior: seq<BriefMessage>, k: nat, reserved: HistoryPage, page: HistoryPage, sizes: Sizes)
    returns (j: nat)
    requires k <= |prior| && Holds(reserved, prior, k) && reserved.missingEvidence && Delivers(reserved, page, sizes)
    ensures j <= k && Shows(page, prior, j, k) && Fits(page, sizes)
  {
    var bounded :| Bounding(reserved, bounded, sizes) && page == Settled(bounded, page.missingEvidence);
    SettledDelivers(reserved, bounded, page.missingEvidence, sizes);
    j := BoundingShows(prior, k, reserved, bounded, page.missingEvidence, sizes);
  }

  lemma {:induction false} DeliveredContinues(prior: seq<BriefMessage>, before: nat, page: HistoryPage, sizes: Sizes)
    requires Delivered(prior, before, page, sizes)
    ensures Continues(prior, before, page) && Fits(page, sizes)
  {
    var k := CountBefore(prior, before);
    var j := DeliversShows(prior, k, Reserved(StoredPage(prior, k, PAGE_MESSAGES)), page, sizes);
  }

  /** The entries of pages read backward, oldest first. */
  function Entries(pages: seq<HistoryPage>): seq<BriefMessage> {
    if pages == [] then [] else pages[|pages| - 1].exchange + Entries(pages[..|pages| - 1])
  }

  /** `pages` is what following nextBefore from `cursor` delivers, one page after another. */
  ghost predicate Follows(prior: seq<BriefMessage>, cursor: nat, pages: seq<HistoryPage>, sizes: Sizes) {
    forall i :: 0 <= i < |pages| ==> Delivered(prior, CursorOf(cursor, pages, i), pages[i], sizes)
  }

  /** The cursor page `i` was read with. */
  function CursorOf(cursor: nat, pages: seq<HistoryPage>, i: nat): nat
    requires i <= |pages|
  {
    if i == 0 then cursor else pages[i - 1].nextBefore
  }

  ghost predicate Delivered(prior: seq<BriefMessage>, before: nat, page: HistoryPage, sizes: Sizes) {
    Delivers(Reserved(StoredPage(prior, CountBefore(prior, before), PAGE_MESSAGES)), page, sizes)
  }

  lemma {:induction false} MatchesConcat(
      a: seq<BriefMessage>, b: seq<BriefMessage>, prior: seq<BriefMessage>, i: nat, j: nat, k: nat)
    requires i <= j <= k <= |prior| && Matches(a, prior[i..j]) && Matches(b, prior[j..k])
    ensures Matches(a + b, prior[i..k])
  {
    assert prior[i..k] == prior[i..j] + prior[j..k];
  }

  ghost predicate AllContinue(prior: seq<BriefMessage>, cursor: nat, pages: seq<HistoryPage>) {
    forall i :: 0 <= i < |pages| ==> Continues(prior, CursorOf(cursor, pages, i), pages[i])
  }

  lemma {:induction false} AllContinuePrefix(prior: seq<BriefMessage>, cursor: nat, pages: seq<HistoryPage>)
    requires pages != [] && AllContinue(prior, cursor, pages)
    ensures var n := |pages| - 1;
            && AllContinue(prior, cursor, pages[..n])
            && CursorOf(cursor, pages[..n], n) == CursorOf(cursor, pages, n)
            && Continues(prior, CursorOf(cursor, pages, n), pages[n])
  {
    var front := pages[..|pages| - 1];
    forall i | 0 <= i < |front| ensures Continues(prior, CursorOf(cursor, front, i), front[i]) {
      assert CursorOf(cursor, front, i) == CursorOf(cursor, pages, i);
    }
  }

  /** Every Message from where reading stands up to the cursor has been shown once, in order. */
  predicate Covered(prior: seq<BriefMessage>, cursor: nat, stands: nat, entries: seq<BriefMessage>) {
    var j, k := CountBefore(prior, stands), CountBefore(prior, cursor);
    j <= k && Matches(entries, prior[j..k])
  }

  lemma {:induction false} FollowingCovers(prior: seq<BriefMessage>, cursor: nat, pages: seq<HistoryPage>)
    requires Chronological(prior) && AllContinue(prior, cursor, pages)
    ensures Covered(prior, cursor, CursorOf(cursor, pages, |pages|), Entries(pages))
  {
    if pages != [] {
      var n := |pages| - 1;
      AllContinuePrefix(prior, cursor, pages);
      FollowingCovers(prior, cursor, pages[..n]);
      StepBack(prior, CursorOf(cursor, pages, n), pages[n], Entries(pages[..n]), CountBefore(prior, cursor));
    }
  }

  /** One more page, read where the last one left off. */
  lemma {:induction false} StepBack(
      prior: seq<BriefMessage>, before: nat, page: HistoryPage, entries: seq<BriefMessage>, top: nat)
    requires Chronological(prior) && CountBefore(prior, before) <= top <= |prior|
    requires Matches(entries, prior[CountBefore(prior, before)..top]) && Continues(prior, before, page)
    ensures CountBefore(prior, page.nextBefore) <= top
    ensures page.nextBefore == 0 || page.nextBefore < before
    ensures Matches(page.exchange + entries, prior[CountBefore(prior, page.nextBefore)..top])
  {
    var k := CountBefore(prior, before);
    var j: nat :| j <= k && Shows(page, prior, j, k);
    CountBeforeAfterPage(prior, j, page.nextBefore);
    MatchesConcat(page.exchange, entries, prior, j, k, top);
  }

  lemma CountBeforeAfterPage(prior: seq<BriefMessage>, j: nat, nextBefore: nat)
    requires Chronological(prior) && j <= |prior|
    requires nextBefore == if j == 0 || j == |prior| then 0 else prior[j].sequence
    requires j == |prior| ==> j == 0
    ensures CountBefore(prior, nextBefore) == j
  {
  }

  /** Followed to the end, it has shown every Message before the cursor exactly once and in order. */
  lemma {:induction false} HistoryIsComplete(
      prior: seq<BriefMessage>, cursor: nat, pages: seq<HistoryPage>, sizes: Sizes)
    requires Chronological(prior) && Follows(prior, cursor, pages, sizes)
    requires CursorOf(cursor, pages, |pages|) == 0
    ensures Matches(Entries(pages), prior[..CountBefore(prior, cursor)])
  {
    forall i | 0 <= i < |pages| ensures Continues(prior, CursorOf(cursor, pages, i), pages[i]) {
      assert Delivered(prior, CursorOf(cursor, pages, i), pages[i], sizes);
      DeliveredContinues(prior, CursorOf(cursor, pages, i), pages[i], sizes);
    }
    FollowingCovers(prior, cursor, pages);
    assert CountBefore(prior, 0) == 0;
  }

  /** One page as the agent delivers it: read, bounded with the notice reserved, then settled. */
  method DeliverPage(prior: seq<BriefMessage>, before: nat, sizes: Sizes, missing: bool)
    returns (page: Option<HistoryPage>)
    requires before >= 1
    ensures page.Some? ==> Delivered(prior, before, page.value, sizes)
    ensures page.None? ==>
              Unboundable(Reserved(StoredPage(prior, CountBefore(prior, before), PAGE_MESSAGES)), sizes)
  {
    var stored := ReadPriorMessages(prior, before, PAGE_MESSAGES);
    var bounded := BoundHistoryPage(Reserved(stored), sizes);
    if bounded.None? { return None; }
    SettledDelivers(Reserved(stored), bounded.value, missing, sizes);
    page := Some(Settled(bounded.value, missing));
  }

  lemma {:induction false} OneMorePage(
      prior: seq<BriefMessage>, before: nat, pages: seq<HistoryPage>, page: HistoryPage, top: nat,
      sizes: Sizes)
    requires Chronological(prior) && CountBefore(prior, before) <= top <= |prior|
    requires Matches(Entries(pages), prior[CountBefore(prior, before)..top])
    requires Delivered(prior, before, page, sizes)
    ensures CountBefore(prior, page.nextBefore) <= top && Fits(page, sizes)
    ensures page.nextBefore == 0 || page.nextBefore < before
    ensures Matches(Entries(pages + [page]), prior[CountBefore(prior, page.nextBefore)..top])
  {
    DeliveredContinues(prior, before, page, sizes);
    StepBack(prior, before, page, Entries(pages), top);
    assert (pages + [page])[..|pages|] == pages;
  }

  /** Follows the history as a reader would; it ends, complete, unless some page is refused. */
  method FollowHistory(prior: seq<BriefMessage>, cursor: nat, sizes: Sizes, missing: nat -> bool)
    returns (pages: seq<HistoryPage>, refused: bool, before: nat)
    requires Chronological(prior) && cursor >= 1
    ensures forall i :: 0 <= i < |pages| ==> Fits(pages[i], sizes)
    ensures !refused ==> Matches(Entries(pages), prior[..CountBefore(prior, cursor)])
    ensures refused ==> Covered(prior, cursor, before, Entries(pages))
    ensures refused ==>
              Unboundable(Reserved(StoredPage(prior, CountBefore(prior, before), PAGE_MESSAGES)), sizes)
  {
    pages, refused := [], false;
    before := cursor;
    ghost var top := CountBefore(prior, cursor);
    while before != 0
      invariant CountBefore(prior, before) <= top
      invariant Matches(Entries(pages), prior[CountBefore(prior, before)..top])
      invariant forall i :: 0 <= i < |pages| ==> Fits(pages[i], sizes)
      decreases before
    {
      var page := DeliverPage(prior, before, sizes, missing(|pages|));
      if page.None? { return pages, true, before; }
      OneMorePage(prior, before, pages, page.value, top, sizes);
      pages := pages + [page.value];
      before := page.value.nextBefore;
    }
    assert CountBefore(prior, 0) == 0;
  }
}
