/** The side markets of one match (under 0-2 goals, 3 or more, both teams
    score): per-market reads by market index, the disabled predicates, the
    pending market, and what the section shows. */
module MarketsSection {
  import opened Common
  import opened MatchView

  datatype Market = UG_0_2 | UG_3_PLUS | GG

  /** The market index every hasBet / totalBets / poolSize read passes. */
  function Id(m: Market): (i: nat)
    ensures i < 3
  {
    match m
    case UG_0_2 => 0
    case UG_3_PLUS => 1
    case GG => 2
  }

  /** Distinct markets read distinct indexes. */
  lemma IdInjective(m: Market, other: Market)
    ensures Id(m) == Id(other) <==> m == other
  {
  }

  /** The write of a market's button, paying parseEther(stake). */
  datatype MarketCall = BetUG_0_2(value: nat) | BetUG_3_PLUS(value: nat) | BetGG(value: nat)

  function CallFor(m: Market, stakeWei: nat): (c: MarketCall)
    ensures c.value == stakeWei
    ensures c.BetUG_0_2? <==> m == UG_0_2
    ensures c.BetUG_3_PLUS? <==> m == UG_3_PLUS
    ensures c.BetGG? <==> m == GG
  {
    match m
    case UG_0_2 => BetUG_0_2(stakeWei)
    case UG_3_PLUS => BetUG_3_PLUS(stakeWei)
    case GG => BetGG(stakeWei)
  }

  /** The per-market reads, keyed by market index; a missing key is a read
      with no data. */
  datatype Reads = Reads(hasBet: map<nat, bool>, totalBets: map<nat, nat>, poolSize: map<nat, nat>)

  /** (hasBet as boolean) === true for market m. */
  predicate HasBetOn(r: Reads, m: Market)
  {
    Id(m) in r.hasBet && r.hasBet[Id(m)]
  }

  /** fmtCount: Number(v ?? 0). */
  function CountOf(r: Reads, m: Market): nat
  {
    if Id(m) in r.totalBets then r.totalBets[Id(m)] else 0
  }

  function PoolOf(r: Reads, m: Market): nat
  {
    if Id(m) in r.poolSize then r.poolSize[Id(m)] else 0
  }

  /** bettingClosed || loadingMarketsAddr || !user. */
  predicate DisabledGlobally(nowMs: int, startTime: nat, loadingAddr: bool, user: Option<Address>)
  {
    HasStarted(nowMs, startTime) || loadingAddr || user.None? || user.value == ""
  }

  /** ug02Disabled, ug3pDisabled, ggDisabled. */
  predicate MarketDisabled(m: Market, global: bool, pending: bool, mining: bool, r: Reads, tag: Option<Market>)
  {
    global || pending || mining || HasBetOn(r, m) || tag == Some(m)
  }

  /** A market's button depends on that market's own hasBet read and pending
      tag only: changing another market's read or tagging another market
      leaves it as it was. */
  lemma MarketsIndependent(m: Market, other: Market, global: bool, pending: bool, mining: bool,
                           r: Reads, tag: Option<Market>, b: bool)
    requires other != m
    ensures MarketDisabled(m, global, pending, mining, r.(hasBet := r.hasBet[Id(other) := b]), tag)
            == MarketDisabled(m, global, pending, mining, r, tag)
    ensures tag.None? || tag == Some(other) ==>
            MarketDisabled(m, global, pending, mining, r, Some(other)) == MarketDisabled(m, global, pending, mining, r, None)
  {
  }

  datatype Row = Row(disabled: bool, placing: bool, poolWei: nat, count: nat)

  datatype View =
    | Nothing            // no account
    | LoadingMarkets     // 'Loading markets…'
    | NotAvailable       // 'Markets not available for this match.'
    | ClosedMarkets      // '🔒 Markets betting closed.'
    | Buttons(ug02: Row, ug3p: Row, gg: Row)

  function RowOf(m: Market, global: bool, pending: bool, mining: bool, r: Reads, tag: Option<Market>): Row
  {
    Row(MarketDisabled(m, global, pending, mining, r, tag), tag == Some(m) && (mining || pending),
        PoolOf(r, m), CountOf(r, m))
  }

  /** The render order: no user, loading, no markets, closed, the buttons.
      `marketsAddress` is the markets() read ?? zeroAddress. */
  function ViewOf(user: Option<Address>, loadingAddr: bool, marketsAddress: Address, nowMs: int, startTime: nat,
                  pending: bool, mining: bool, r: Reads, tag: Option<Market>): View
  {
    if user.None? || user.value == "" then Nothing
    else if loadingAddr then LoadingMarkets
    else if marketsAddress == "" || marketsAddress == ZeroAddress then NotAvailable
    else if HasStarted(nowMs, startTime) then ClosedMarkets
    else
      var global := DisabledGlobally(nowMs, startTime, loadingAddr, user);
      Buttons(RowOf(UG_0_2, global, pending, mining, r, tag), RowOf(UG_3_PLUS, global, pending, mining, r, tag),
              RowOf(GG, global, pending, mining, r, tag))
  }

  /** When the buttons show, nothing disables them globally: each one is
      disabled exactly while a write is pending or mining, when the user
      has bet on that market, or while that market is being placed. */
  lemma ButtonsView(user: Option<Address>, loadingAddr: bool, marketsAddress: Address, nowMs: int, startTime: nat,
                    pending: bool, mining: bool, r: Reads, tag: Option<Market>)
    ensures var v := ViewOf(user, loadingAddr, marketsAddress, nowMs, startTime, pending, mining, r, tag);
      (v.Buttons? <==> user.Some? && user.value != "" && !loadingAddr
                       && marketsAddress != "" && marketsAddress != ZeroAddress && !HasStarted(nowMs, startTime))
      && (v.Buttons? ==>
            (v.ug02.disabled <==> pending || mining || HasBetOn(r, UG_0_2) || tag == Some(UG_0_2))
            && (v.ug3p.disabled <==> pending || mining || HasBetOn(r, UG_3_PLUS) || tag == Some(UG_3_PLUS))
            && (v.gg.disabled <==> pending || mining || HasBetOn(r, GG) || tag == Some(GG))
            && v.ug02.count == CountOf(r, UG_0_2) && (Id(UG_0_2) !in r.totalBets ==> v.ug02.count == 0))
  {
  }

  /** The section's own state: the market being placed. */
  class Section {
    var pending: Option<Market>

    constructor ()
      ensures pending == None
    {
      pending := None;
    }

    /** place(fn, tag): with no markets contract it only alerts; otherwise
        it tags the market and issues the write. `written` is false when
        parseEther or the write threw, which clears the tag. */
    method Place(marketsAddress: Address, m: Market, stakeWei: nat, written: bool) returns (call: Option<MarketCall>)
      modifies this
      ensures marketsAddress == "" || marketsAddress == ZeroAddress ==> call == None && pending == old(pending)
      ensures marketsAddress != "" && marketsAddress != ZeroAddress ==>
                call == Some(CallFor(m, stakeWei)) && pending == (if written then Some(m) else None)
    {
      if marketsAddress == "" || marketsAddress == ZeroAddress {
        return None;
      }
      pending := Some(m);
      call := Some(CallFor(m, stakeWei));
      if !written {
        pending := None;
      }
    }

    /** The mined effect. */
    method Mined()
      modifies this
      ensures pending == None
    {
      pending := None;
    }
  }
}
