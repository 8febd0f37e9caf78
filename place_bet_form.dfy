/** The home/away bet buttons of one match: whether the user has bet, which
    side is being placed, and a closed latch tied to the start time. */
module PlaceBetForm {
  import opened Common
  import opened MatchView

  datatype Team = Home | Away

  /** The write a button issues: the side's function paying the stake. */
  datatype BetCall = BetOnHomeTeam(value: nat) | BetOnAwayTeam(value: nat)

  /** team === 'home' ? 'betOnHomeTeam' : 'betOnAwayTeam', with value parseEther(stake). */
  function CallFor(team: Team, stakeWei: nat): (c: BetCall)
    ensures c.BetOnHomeTeam? <==> team == Home
    ensures c.value == stakeWei
  {
    if team == Home then BetOnHomeTeam(stakeWei) else BetOnAwayTeam(stakeWei)
  }

  /** status === 'pending' || isMining || hasBet === null || hasBet || bettingClosed. */
  predicate Disabled(pending: bool, mining: bool, hasBet: Option<bool>, closed: bool)
  {
    pending || mining || hasBet.None? || hasBet == Some(true) || closed
  }

  datatype View =
    | CheckingBet          // 'Checking if you’ve already bet…'
    | AlreadyPlaced        // '✅ You’ve placed a bet.'
    | Closed               // '⏱ Betting is closed for this match.'
    | Buttons(disabled: bool, homePlacing: bool, awayPlacing: bool)

  /** The render order: checking, already placed, closed, the two buttons;
      a button reads 'Placing…' while its own side is being written. */
  function ViewOf(hasBet: Option<bool>, closed: bool, pendingTeam: Option<Team>, pending: bool, mining: bool): View
  {
    if hasBet.None? then CheckingBet
    else if hasBet.value then AlreadyPlaced
    else if closed then Closed
    else Buttons(Disabled(pending, mining, hasBet, closed),
                 pendingTeam == Some(Home) && (mining || pending),
                 pendingTeam == Some(Away) && (mining || pending))
  }

  /** Buttons show only for a user known not to have bet on an open match,
      and there they are disabled exactly while a write is pending or
      mining; at most one side reads 'Placing…'. */
  lemma ButtonsOnlyWhenOpen(hasBet: Option<bool>, closed: bool, pendingTeam: Option<Team>, pending: bool, mining: bool)
    ensures var v := ViewOf(hasBet, closed, pendingTeam, pending, mining);
      (v.Buttons? <==> hasBet == Some(false) && !closed)
      && (v.Buttons? ==> (v.disabled <==> pending || mining) && !(v.homePlacing && v.awayPlacing))
      && (!v.Buttons? ==> Disabled(pending, mining, hasBet, closed))
  {
  }

  class Form {
    const startTime: nat
    const betAddress: Address
    var hasBet: Option<bool>
    var pendingTeam: Option<Team>
    var bettingClosed: bool

    /** useState(() => Date.now() >= startTime * 1000). */
    constructor (betAddress: Address, startTime: nat, nowMs: int)
      ensures this.startTime == startTime && this.betAddress == betAddress
      ensures hasBet == None && pendingTeam == None && bettingClosed == HasStarted(nowMs, startTime)
    {
      this.startTime := startTime;
      this.betAddress := betAddress;
      hasBet := None;
      pendingTeam := None;
      bettingClosed := nowMs >= startTime * 1000;
    }

    /** The user-bet effect: `read` is data.bet from /api/user-bet, or None
        when the fetch failed. Without an account nothing changes. */
    method UserBetRead(address: Option<Address>, read: Option<nat>)
      modifies this
      ensures pendingTeam == old(pendingTeam) && bettingClosed == old(bettingClosed)
      ensures address.None? || address.value == "" ==> hasBet == old(hasBet)
      ensures address.Some? && address.value != "" ==>
                hasBet == Some(read.Some? && read.value != 0)
    {
      if address.None? || address.value == "" {
        return;
      }
      hasBet := Some(read.Some? && read.value != 0);
    }

    /** The mined effect. */
    method Mined()
      modifies this
      ensures pendingTeam == None && hasBet == Some(true) && bettingClosed == old(bettingClosed)
    {
      pendingTeam := None;
      hasBet := Some(true);
    }

    /** placeBet(team): marks the side pending and issues the write;
        `written` is false when parseEther or the write threw, which puts
        pendingTeam back to null. */
    method PlaceBet(team: Team, stakeWei: nat, written: bool) returns (call: BetCall)
      modifies this
      ensures call == CallFor(team, stakeWei)
      ensures pendingTeam == (if written then Some(team) else None)
      ensures hasBet == old(hasBet) && bettingClosed == old(bettingClosed)
    {
      pendingTeam := Some(team);
      call := CallFor(team, stakeWei);
      if !written {
        pendingTeam := None;
      }
    }

    /** The closing effect at time nowMs: closed once startTime * 1000 - now
        <= 0, and never reopened. */
    method Tick(nowMs: int)
      modifies this
      ensures bettingClosed == (old(bettingClosed) || HasStarted(nowMs, startTime))
      ensures hasBet == old(hasBet) && pendingTeam == old(pendingTeam)
    {
      if bettingClosed {
        return;
      }
      var msUntilStart := startTime * 1000 - nowMs;
      if msUntilStart <= 0 {
        bettingClosed := true;
      }
    }

    /** The start timer fired. */
    method TimerFired()
      modifies this
      ensures bettingClosed && hasBet == old(hasBet) && pendingTeam == old(pendingTeam)
    {
      bettingClosed := true;
    }

    /** A bet-closed event for `addr`: closes this form when it is the same
        match, compared case-insensitively. */
    method BetClosed(addr: Address)
      modifies this
      ensures bettingClosed == (old(bettingClosed) || SameAddress(addr, betAddress))
      ensures hasBet == old(hasBet) && pendingTeam == old(pendingTeam)
    {
      if Lower(addr) == Lower(betAddress) {
        bettingClosed := true;
      }
    }

    function Render(pending: bool, mining: bool): View
      reads this
    {
      ViewOf(hasBet, bettingClosed, pendingTeam, pending, mining)
    }
  }

  /** Once a placement is mined the form shows that a bet was placed. */
  method MinedShowsPlaced(betAddress: Address, startTime: nat, nowMs: int, team: Team, stakeWei: nat)
    returns (v: View)
    ensures v == AlreadyPlaced
  {
    var f := new Form(betAddress, startTime, nowMs);
    f.UserBetRead(Some("0xuser"), Some(0));
    var call := f.PlaceBet(team, stakeWei, true);
    f.Mined();
    v := f.Render(false, false);
  }
}
