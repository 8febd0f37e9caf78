/** The older list of all matches: per-address detail loading, the loading
    and empty gates, and one card per match. */
module BetList {
  import opened Common
  import opened Reads
  import opened MatchView
  import BetDetailsRoute
  import MatchesList

  /** Every address's /api/bet-details answer, in order, or None when one of
      them is not a record (its json() throws and Promise.all rejects). */
  function LoadDetails(addresses: seq<Address>, reachable: bool, chain: Chain): (loaded: Option<seq<BetItem>>)
    ensures loaded.Some? ==> |loaded.value| == |addresses|
    ensures loaded.Some? <==> |addresses| == 0 || (reachable && forall k :: 0 <= k < |addresses| ==> addresses[k] != "")
    ensures loaded.Some? ==> loaded.value == ItemsFromChain(addresses, chain)
  {
    if |addresses| == 0 then Some([])
    else
      var first := BetDetailsRoute.Get(Some(addresses[0]), reachable, chain);
      var rest := LoadDetails(addresses[1..], reachable, chain);
      if first.Ok? && rest.Some? then
        assert forall k :: 1 <= k < |addresses| ==> addresses[k] == addresses[1..][k - 1];
        Some([first.item] + rest.value)
      else
        assert first.Ok? ==> forall k :: 1 <= k < |addresses| ==> addresses[k] == addresses[1..][k - 1];
        None
  }

  /** loadBetDetails: `bets` after the effect. No address list, or one that
      is not an array, returns early; a failed load leaves bets as it was. */
  function AfterLoad(bets: Option<seq<BetItem>>, betAddresses: Option<seq<Address>>, reachable: bool, chain: Chain)
    : (after: Option<seq<BetItem>>)
    ensures betAddresses.None? ==> after == bets
    ensures betAddresses.Some? && LoadDetails(betAddresses.value, reachable, chain).None? ==> after == bets
  {
    if betAddresses.None? then bets
    else
      var loaded := LoadDetails(betAddresses.value, reachable, chain);
      if loaded.None? then bets else loaded
  }

  /** A successful load replaces bets with the reference records, one per
      address and in order; an empty address list loads the empty list. */
  lemma LoadedAreReference(bets: Option<seq<BetItem>>, addresses: seq<Address>, chain: Chain)
    requires forall k :: 0 <= k < |addresses| ==> addresses[k] != ""
    ensures AfterLoad(bets, Some(addresses), true, chain) == Some(ItemsFromChain(addresses, chain))
  {
  }

  // ---------- the cards ----------

  datatype ListCard = ListCard(address: Address, statusText: string, organiserNote: bool, betForm: bool)

  /** The card as written: "You're the organiser!" when the lowercased user
      address is NOT the organiser's (with no account at all, too), and the
      bet form for the organiser before the start. */
  function CardAsWritten(bet: BetItem, user: Option<Address>, nowMs: int): ListCard
  {
    var same := MatchesList.IsOrganiser(user, bet.organiser);
    ListCard(bet.address,
             StatusText(bet.isSettled, bet.homeTeamGoals, bet.awayTeamGoals, HasStarted(nowMs, bet.startTime)),
             !same,
             same && bet.startTime * 1000 > nowMs)
  }

  /** The card with the organiser test the match list uses. */
  function Card(bet: BetItem, user: Option<Address>, nowMs: int): ListCard
  {
    var same := MatchesList.IsOrganiser(user, bet.organiser);
    ListCard(bet.address,
             StatusText(bet.isSettled, bet.homeTeamGoals, bet.awayTeamGoals, HasStarted(nowMs, bet.startTime)),
             same,
             !same && bet.startTime * 1000 > nowMs)
  }

  /** The corrected card agrees with the match list's card: the note for the
      organiser only, the bet form for everyone else before the start. */
  lemma CardAgreesWithMatchesList(bet: BetItem, user: Option<Address>, nowMs: int)
    ensures var c := Card(bet, user, nowMs);
      var m := MatchesList.CardOf(bet, user, nowMs);
      c.statusText == m.statusText && c.organiserNote == m.isOrganiser && c.betForm == m.betForms
  {
  }

  /** As written, the organiser note goes to exactly the users who are not
      the organiser and the bet form only to the organiser: a user
      0xabc viewing a match of 0xdef before its start is told they are
      the organiser and gets no bet form, while the organiser 0xdef gets one. */
  lemma OrganiserTestInverted(bet: BetItem, user: Option<Address>, nowMs: int)
    ensures CardAsWritten(bet, user, nowMs).organiserNote == !Card(bet, user, nowMs).organiserNote
    ensures CardAsWritten(bet, user, nowMs).betForm ==> MatchesList.IsOrganiser(user, bet.organiser)
    ensures var b := DefaultItemFields.(address := "0xm", organiser := "0xdef", startTime := 10);
      CardAsWritten(b, Some("0xabc"), 0).organiserNote && !CardAsWritten(b, Some("0xabc"), 0).betForm
      && !Card(b, Some("0xabc"), 0).organiserNote && Card(b, Some("0xabc"), 0).betForm
      && CardAsWritten(b, Some("0xdef"), 0).betForm
  {
    var b := DefaultItemFields.(address := "0xm", organiser := "0xdef", startTime := 10);
    assert Lower("0xabc")[2] == 'a' && Lower("0xdef")[2] == 'd';
  }

  // ---------- the component ----------

  datatype ListView =
    | Skeleton                 // isLoading or bets === null
    | NoneFound                // 'No active bets found.'
    | Cards(cards: seq<ListCard>)

  function Render(isLoading: bool, bets: Option<seq<BetItem>>, user: Option<Address>, nowMs: int): (v: ListView)
    ensures v.Skeleton? <==> isLoading || bets.None?
    ensures v.NoneFound? <==> !isLoading && bets == Some([])
    ensures v.Cards? ==>
              |v.cards| == |bets.value| > 0
              && forall k :: 0 <= k < |v.cards| ==> v.cards[k] == Card(bets.value[k], user, nowMs)
  {
    if isLoading || bets.None? then Skeleton
    else if |bets.value| == 0 then NoneFound
    else Cards(seq(|bets.value|, k requires 0 <= k < |bets.value| => Card(bets.value[k], user, nowMs)))
  }
}
