/** The client-side match list: status filter, team search, sort by start
    time on a copy, pages of three, the card of each match and the pager. */
module MatchesList {
  import opened Common
  import opened Seqs
  import opened Reads
  import opened MatchView

  const PageSize: nat := 3

  // ---------- filtering, searching, sorting ----------

  /** bets.filter(...) on the status of the list. */
  function StatusFiltered(bets: seq<BetItem>, st: Status, nowMs: int): (r: seq<BetItem>)
    ensures forall x :: multiset(r)[x] == if InStatus(st, HasStarted(nowMs, x.startTime), x.isSettled) then multiset(bets)[x] else 0
  {
    Filter(bets, (b: BetItem) => InStatus(st, HasStarted(nowMs, b.startTime), b.isSettled))
  }

  /** Either lowercased team name contains q. */
  predicate TeamMatches(q: string, b: BetItem)
  {
    Contains(Lower(b.homeTeam), q) || Contains(Lower(b.awayTeam), q)
  }

  /** The search applies when the trimmed query has at least two characters;
      the query it then looks for is lowercased but not trimmed. */
  predicate SearchActive(search: string)
  {
    |Trim(search)| >= 2
  }

  function Searched(rows: seq<BetItem>, search: string): (r: seq<BetItem>)
    ensures forall x :: multiset(r)[x] == if !SearchActive(search) || TeamMatches(Lower(search), x) then multiset(rows)[x] else 0
  {
    if SearchActive(search) then Filter(rows, (b: BetItem) => TeamMatches(Lower(search), b)) else rows
  }

  function StartKey(b: BetItem): int
  {
    b.startTime
  }

  /** The `filtered` memo: status filter, search, then [...searched].sort(...)
      ascending for 'asc'; the default sort is 'desc'. */
  function Filtered(bets: seq<BetItem>, st: Status, search: string, asc: bool, nowMs: int): seq<BetItem>
  {
    SortBy(Searched(StatusFiltered(bets, st, nowMs), search), StartKey, asc)
  }

  /** A match the list shows. */
  predicate Shown(st: Status, search: string, nowMs: int, b: BetItem)
  {
    InStatus(st, HasStarted(nowMs, b.startTime), b.isSettled)
    && (!SearchActive(search) || TeamMatches(Lower(search), b))
  }

  /** The list holds exactly the matches of the status that the search
      keeps, as often as they occur in bets, ordered by start time. */
  lemma FilteredSpec(bets: seq<BetItem>, st: Status, search: string, asc: bool, nowMs: int)
    ensures var f := Filtered(bets, st, search, asc, nowMs);
      (forall x :: multiset(f)[x] == if Shown(st, search, nowMs, x) then multiset(bets)[x] else 0)
      && SortedBy(f, StartKey, asc)
  {
    var sf := StatusFiltered(bets, st, nowMs);
    var f := Filtered(bets, st, search, asc, nowMs);
    assert multiset(f) == multiset(Searched(sf, search));
  }

  /** Each match is listed under exactly one of the three statuses: the
      three status filters split bets. */
  lemma StatusesPartition(bets: seq<BetItem>, nowMs: int)
    ensures multiset(StatusFiltered(bets, Upcoming, nowMs)) + multiset(StatusFiltered(bets, Started, nowMs))
            + multiset(StatusFiltered(bets, History, nowMs)) == multiset(bets)
  {
    var u, s, h := StatusFiltered(bets, Upcoming, nowMs), StatusFiltered(bets, Started, nowMs), StatusFiltered(bets, History, nowMs);
    forall x ensures (multiset(u) + multiset(s) + multiset(h))[x] == multiset(bets)[x] {
      StatusCounts(bets, nowMs, x);
    }
  }

  lemma StatusCounts(bets: seq<BetItem>, nowMs: int, x: BetItem)
    ensures multiset(StatusFiltered(bets, Upcoming, nowMs))[x] + multiset(StatusFiltered(bets, Started, nowMs))[x]
            + multiset(StatusFiltered(bets, History, nowMs))[x] == multiset(bets)[x]
  {
    var started := HasStarted(nowMs, x.startTime);
    assert InStatus(Classify(started, x.isSettled), started, x.isSettled);
  }

  /** A query of fewer than two characters after trimming filters nothing. */
  lemma ShortSearchShowsStatus(bets: seq<BetItem>, st: Status, search: string, asc: bool, nowMs: int)
    requires |Trim(search)| < 2
    ensures Filtered(bets, st, search, asc, nowMs) == SortBy(StatusFiltered(bets, st, nowMs), StartKey, asc)
  {
  }

  // ---------- pagination ----------

  /** Math.max(1, Math.ceil(n / 3)): the fewest pages of three that hold n
      matches, and at least one. */
  function TotalPages(n: nat): (t: nat)
    ensures t >= 1
    ensures n <= t * PageSize
    ensures n > 0 ==> (t - 1) * PageSize < n
    ensures n == 0 ==> t == 1
  {
    Max(1, (n + PageSize - 1) / PageSize)
  }

  /** Math.min(page, totalPages). */
  function CurrentPage(page: int, totalPages: nat): (cp: int)
    requires page >= 1 && totalPages >= 1
    ensures 1 <= cp <= totalPages
    ensures page <= totalPages ==> cp == page
    ensures page > totalPages ==> cp == totalPages
  {
    Min(page, totalPages)
  }

  /** filtered.slice((currentPage - 1) * 3, currentPage * 3). */
  function Paged(filtered: seq<BetItem>, page: int): (r: seq<BetItem>)
    requires page >= 1
    ensures |r| <= PageSize
    ensures r == Page(filtered, CurrentPage(page, TotalPages(|filtered|)), PageSize)
    ensures |r| == 0 <==> |filtered| == 0
  {
    var cp := CurrentPage(page, TotalPages(|filtered|));
    assert (cp - 1) * PageSize <= (TotalPages(|filtered|) - 1) * PageSize;
    JsSlice(filtered, (cp - 1) * PageSize, cp * PageSize)
  }

  /** Pages 1 to totalPages laid end to end are the whole list. */
  lemma PagesCoverFiltered(filtered: seq<BetItem>)
    ensures Pages(filtered, PageSize, TotalPages(|filtered|)) == filtered
  {
    PagesArePrefix(filtered, PageSize, TotalPages(|filtered|));
  }

  /** setPage((p) => Math.max(1, p - 1)). */
  function Prev(page: int): (p: int)
    ensures p >= 1
  {
    Max(1, page - 1)
  }

  /** setPage((p) => Math.min(totalPages, p + 1)). */
  function Next(page: int, totalPages: nat): (p: int)
    requires page >= 1
    ensures p <= totalPages
  {
    Min(totalPages, page + 1)
  }

  predicate PrevDisabled(currentPage: int) { currentPage <= 1 }

  predicate NextDisabled(currentPage: int, totalPages: nat) { currentPage >= totalPages }

  /** From a page within [1, totalPages] both buttons stay within it, and an
      enabled button moves the current page by exactly one. */
  lemma PagerStaysInRange(page: int, totalPages: nat)
    requires 1 <= page <= totalPages
    ensures 1 <= Prev(page) <= totalPages && 1 <= Next(page, totalPages) <= totalPages
    ensures !PrevDisabled(CurrentPage(page, totalPages)) ==> CurrentPage(Prev(page), totalPages) == page - 1
    ensures !NextDisabled(CurrentPage(page, totalPages), totalPages) ==> CurrentPage(Next(page, totalPages), totalPages) == page + 1
  {
  }

  /** Prev steps from the stored page, not from the page shown: once the
      list has shrunk below the stored page, an enabled Prev leaves the
      shown page where it is. */
  lemma PrevFromStoredPage()
    ensures var totalPages := TotalPages(4);
      totalPages == 2
      && !PrevDisabled(CurrentPage(3, totalPages))
      && CurrentPage(Prev(3), totalPages) == CurrentPage(3, totalPages)
  {
  }

  // ---------- cards ----------

  datatype Card = Card(
    address: Address,
    statusText: string,
    isOrganiser: bool,
    settleDialog: bool,    // SettleGameDialog
    betForms: bool,        // PlaceBetForm and MarketsSection
    rateOrganiser: bool)   // RateOrganiser; OrganiserRating is always shown

  /** userAddress?.toLowerCase() === bet.organiser.toLowerCase(): false with
      no connected account. */
  predicate IsOrganiser(user: Option<Address>, organiser: Address)
  {
    user.Some? && SameAddress(user.value, organiser)
  }

  function CardOf(bet: BetItem, user: Option<Address>, nowMs: int): Card
  {
    var started := HasStarted(nowMs, bet.startTime);
    var org := IsOrganiser(user, bet.organiser);
    Card(
      bet.address,
      StatusText(bet.isSettled, bet.homeTeamGoals, bet.awayTeamGoals, started),
      org,
      org && started && !bet.isSettled,
      !org && !started,
      bet.isSettled)
  }

  /** The organiser may settle only a started, unsettled match; anyone else
      may bet only before the start; the rating form needs a settled match.
      Settling and betting are never offered on the same card. */
  lemma CardGating(bet: BetItem, user: Option<Address>, nowMs: int)
    ensures var c := CardOf(bet, user, nowMs);
      (c.settleDialog ==> c.isOrganiser && InStatus(Started, HasStarted(nowMs, bet.startTime), bet.isSettled))
      && (c.betForms ==> !c.isOrganiser && !HasStarted(nowMs, bet.startTime))
      && (c.rateOrganiser <==> bet.isSettled)
      && !(c.settleDialog && c.betForms)
      && (user.None? ==> !c.isOrganiser && !c.settleDialog)
  {
  }

  /** The organiser test ignores letter case on both sides. */
  lemma OrganiserCaseInsensitive(bet: BetItem, u: Address, nowMs: int)
    ensures CardOf(bet, Some(u), nowMs) == CardOf(bet.(organiser := Lower(bet.organiser)), Some(Lower(u)), nowMs).(address := bet.address)
  {
    LowerIdempotent(u);
    LowerIdempotent(bet.organiser);
  }

  // ---------- the rendered list ----------

  datatype ListView =
    | Skeleton
    | Listing(cards: seq<Card>, currentPage: int, totalPages: nat, prevDisabled: bool, nextDisabled: bool)

  /** The cards of the current page of `filtered` and the pager. */
  function ListingOf(filtered: seq<BetItem>, page: int, user: Option<Address>, nowMs: int): ListView
    requires page >= 1
  {
    var totalPages := TotalPages(|filtered|);
    var cp := CurrentPage(page, totalPages);
    var paged := Paged(filtered, page);
    Listing(seq(|paged|, k requires 0 <= k < |paged| => CardOf(paged[k], user, nowMs)),
            cp, totalPages, PrevDisabled(cp), NextDisabled(cp, totalPages))
  }

  /** The component: the skeleton while the address list loads and no bet
      has arrived, else the cards of the current page ("No matches found."
      when there is none) and the pager. `page` is the stored page. */
  function Render(isLoading: bool, bets: seq<BetItem>, st: Status, search: string, asc: bool,
                  page: int, user: Option<Address>, nowMs: int): ListView
    requires page >= 1
  {
    if isLoading && |bets| == 0 then Skeleton
    else ListingOf(Filtered(bets, st, search, asc, nowMs), page, user, nowMs)
  }

  /** Every entry of the list is a match of bets that the list shows. */
  lemma FilteredShown(bets: seq<BetItem>, st: Status, search: string, asc: bool, nowMs: int)
    ensures var f := Filtered(bets, st, search, asc, nowMs);
      forall k :: 0 <= k < |f| ==> f[k] in bets && Shown(st, search, nowMs, f[k])
  {
    var f := Filtered(bets, st, search, asc, nowMs);
    FilteredSpec(bets, st, search, asc, nowMs);
    forall k | 0 <= k < |f| ensures f[k] in bets && Shown(st, search, nowMs, f[k]) {
      assert f[k] in multiset(f);
    }
  }

  /** Each card of a page is the card of an entry of the list. */
  lemma ListingCards(filtered: seq<BetItem>, page: int, user: Option<Address>, nowMs: int)
    requires page >= 1
    ensures var v := ListingOf(filtered, page, user, nowMs);
      |v.cards| <= PageSize
      && (|v.cards| == 0 <==> |filtered| == 0)
      && 1 <= v.currentPage <= v.totalPages
      && forall k :: 0 <= k < |v.cards| ==>
           (v.currentPage - 1) * PageSize + k < |filtered|
           && v.cards[k] == CardOf(filtered[(v.currentPage - 1) * PageSize + k], user, nowMs)
  {
  }

  /** A card of a shown match. */
  predicate ShownCard(c: Card, bets: seq<BetItem>, st: Status, search: string, user: Option<Address>, nowMs: int)
  {
    exists b :: b in bets && Shown(st, search, nowMs, b) && c == CardOf(b, user, nowMs)
  }

  /** A page of a list of shown matches holds cards of shown matches. */
  lemma ListingShown(filtered: seq<BetItem>, bets: seq<BetItem>, st: Status, search: string,
                     page: int, user: Option<Address>, nowMs: int)
    requires page >= 1
    requires forall k :: 0 <= k < |filtered| ==> filtered[k] in bets && Shown(st, search, nowMs, filtered[k])
    ensures var v := ListingOf(filtered, page, user, nowMs);
      forall k :: 0 <= k < |v.cards| ==> ShownCard(v.cards[k], bets, st, search, user, nowMs)
  {
    var v := ListingOf(filtered, page, user, nowMs);
    ListingCards(filtered, page, user, nowMs);
    forall k | 0 <= k < |v.cards| ensures ShownCard(v.cards[k], bets, st, search, user, nowMs) {
      var b := filtered[(v.currentPage - 1) * PageSize + k];
      assert b in bets && Shown(st, search, nowMs, b) && v.cards[k] == CardOf(b, user, nowMs);
    }
  }

  /** At most three cards, none exactly when no match is shown, each the
      card of a shown match; the skeleton only while loading an empty list. */
  lemma RenderSpec(isLoading: bool, bets: seq<BetItem>, st: Status, search: string, asc: bool,
                   page: int, user: Option<Address>, nowMs: int)
    requires page >= 1
    ensures var v := Render(isLoading, bets, st, search, asc, page, user, nowMs);
      (v.Skeleton? <==> isLoading && |bets| == 0)
      && (v.Listing? ==>
            |v.cards| <= PageSize
            && (|v.cards| == 0 <==> |Filtered(bets, st, search, asc, nowMs)| == 0)
            && 1 <= v.currentPage <= v.totalPages
            && forall k :: 0 <= k < |v.cards| ==> ShownCard(v.cards[k], bets, st, search, user, nowMs))
  {
    if !(isLoading && |bets| == 0) {
      var filtered := Filtered(bets, st, search, asc, nowMs);
      FilteredShown(bets, st, search, asc, nowMs);
      ListingCards(filtered, page, user, nowMs);
      ListingShown(filtered, bets, st, search, page, user, nowMs);
    }
  }
}
