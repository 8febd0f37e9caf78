/** One match escrow as its tests describe it: a bet per address encoded
    0 = none, 1 = home, 2 = away, a counter and a pool per side, and
    settlement by the organiser. Payout amounts and the fee are not part of
    this model: settlement records the set of addresses it pays. */
module FootballGameBet {
  import opened Common

  datatype Revert =
    | IncorrectStake     // 'Incorrect stake amount.'
    | BetAlreadyPlaced   // 'Bet already placed.'
    | NotOrganiser
    | AlreadySettled

  const NoBet: nat := 0
  const Home: nat := 1
  const Away: nat := 2

  /** The addresses a settlement pays: on a win the winning side and the
      organiser (the fee), on a draw every bettor (the refund). */
  function Payees(homeGoals: nat, awayGoals: nat, home: seq<Address>, away: seq<Address>, organiser: Address): set<Address>
  {
    if homeGoals > awayGoals then set a | a in home + [organiser]
    else if awayGoals > homeGoals then set a | a in away + [organiser]
    else set a | a in home + away
  }

  /** A settlement pays only bettors and the organiser; a win pays every
      winner and the organiser and no one who only bet on the losing side;
      a draw refunds every bettor. */
  lemma PayeesSpec(homeGoals: nat, awayGoals: nat, home: seq<Address>, away: seq<Address>, organiser: Address, a: Address)
    ensures var p := Payees(homeGoals, awayGoals, home, away, organiser);
      (a in p ==> a in home || a in away || a == organiser)
      && (homeGoals > awayGoals ==> organiser in p && (a in home ==> a in p) && (a in away && a !in home && a != organiser ==> a !in p))
      && (awayGoals > homeGoals ==> organiser in p && (a in away ==> a in p) && (a in home && a !in away && a != organiser ==> a !in p))
      && (homeGoals == awayGoals ==> (a in home || a in away <==> a in p))
  {
    var p := Payees(homeGoals, awayGoals, home, away, organiser);
    if homeGoals > awayGoals {
      assert organiser == (home + [organiser])[|home|];
      if a in home {
        var i :| 0 <= i < |home| && home[i] == a;
        assert a == (home + [organiser])[i];
      }
    } else if awayGoals > homeGoals {
      assert organiser == (away + [organiser])[|away|];
      if a in away {
        var i :| 0 <= i < |away| && away[i] == a;
        assert a == (away + [organiser])[i];
      }
    } else {
      if a in home {
        var i :| 0 <= i < |home| && home[i] == a;
        assert a == (home + away)[i];
      }
      if a in away {
        var i :| 0 <= i < |away| && away[i] == a;
        assert a == (home + away)[|home| + i];
      }
    }
  }

  predicate Distinct(s: seq<Address>)
  {
    forall i, j :: 0 <= i < j < |s| ==> s[i] != s[j]
  }

  class Match {
    const address: Address
    const homeTeam: string
    const awayTeam: string
    const startTime: nat
    const stake: nat
    const organiser: Address
    var bets: map<Address, nat>
    var homeBettors: seq<Address>
    var awayBettors: seq<Address>
    var totalHomeBets: nat
    var totalAwayBets: nat
    var homeTeamPool: nat
    var awayTeamPool: nat
    var isSettled: bool
    var homeTeamGoals: nat
    var awayTeamGoals: nat
    var paid: set<Address>

    /** bets(a): 0 for an address that has not bet. */
    function BetOf(a: Address): nat
      reads this
    {
      if a in bets then bets[a] else NoBet
    }

    /** Each address bets at most once; the counters count the bettors of
        each side and each pool holds one stake per bettor. */
    ghost predicate Valid()
      reads this
    {
      (forall a :: BetOf(a) == Home <==> a in homeBettors)
      && (forall a :: BetOf(a) == Away <==> a in awayBettors)
      && (forall a :: a in bets ==> bets[a] == Home || bets[a] == Away)
      && Distinct(homeBettors) && Distinct(awayBettors)
      && totalHomeBets == |homeBettors| && totalAwayBets == |awayBettors|
      && homeTeamPool == totalHomeBets * stake && awayTeamPool == totalAwayBets * stake
    }

    /** deploy(homeTeam, awayTeam, startTime, stake, organiser). */
    constructor (address: Address, homeTeam: string, awayTeam: string, startTime: nat, stake: nat, organiser: Address)
      ensures Valid()
      ensures this.address == address && this.homeTeam == homeTeam && this.awayTeam == awayTeam
      ensures this.startTime == startTime && this.stake == stake && this.organiser == organiser
      ensures bets == map[] && homeBettors == [] && awayBettors == []
      ensures totalHomeBets == 0 && totalAwayBets == 0 && homeTeamPool == 0 && awayTeamPool == 0
      ensures !isSettled && paid == {}
    {
      this.address := address;
      this.homeTeam := homeTeam;
      this.awayTeam := awayTeam;
      this.startTime := startTime;
      this.stake := stake;
      this.organiser := organiser;
      bets := map[];
      homeBettors, awayBettors := [], [];
      totalHomeBets, totalAwayBets := 0, 0;
      homeTeamPool, awayTeamPool := 0, 0;
      isSettled := false;
      homeTeamGoals, awayTeamGoals := 0, 0;
      paid := {};
    }

    /** betOnHomeTeam() paying `value` wei from `sender`. */
    method BetOnHomeTeam(sender: Address, value: nat) returns (r: Option<Revert>)
      requires Valid()
      modifies this
      ensures Valid()
      ensures value != stake ==> r == Some(IncorrectStake)
      ensures value == stake && old(BetOf(sender)) != NoBet ==> r == Some(BetAlreadyPlaced)
      ensures r.Some? ==> unchanged(this)
      ensures r.None? <==> value == stake && old(BetOf(sender)) == NoBet
      ensures r.None? ==>
                bets == old(bets)[sender := Home]
                && homeBettors == old(homeBettors) + [sender] && awayBettors == old(awayBettors)
                && totalHomeBets == old(totalHomeBets) + 1 && totalAwayBets == old(totalAwayBets)
                && homeTeamPool == old(homeTeamPool) + value && awayTeamPool == old(awayTeamPool)
                && isSettled == old(isSettled) && homeTeamGoals == old(homeTeamGoals)
                && awayTeamGoals == old(awayTeamGoals) && paid == old(paid)
    {
      if value != stake {
        return Some(IncorrectStake);
      }
      if BetOf(sender) != NoBet {
        return Some(BetAlreadyPlaced);
      }
      assert sender !in homeBettors && sender !in awayBettors;
      bets := bets[sender := Home];
      homeBettors := homeBettors + [sender];
      totalHomeBets := totalHomeBets + 1;
      homeTeamPool := homeTeamPool + value;
      assert homeTeamPool == totalHomeBets * stake;
      return None;
    }

    /** betOnAwayTeam() paying `value` wei from `sender`. */
    method BetOnAwayTeam(sender: Address, value: nat) returns (r: Option<Revert>)
      requires Valid()
      modifies this
      ensures Valid()
      ensures value != stake ==> r == Some(IncorrectStake)
      ensures value == stake && old(BetOf(sender)) != NoBet ==> r == Some(BetAlreadyPlaced)
      ensures r.Some? ==> unchanged(this)
      ensures r.None? <==> value == stake && old(BetOf(sender)) == NoBet
      ensures r.None? ==>
                bets == old(bets)[sender := Away]
                && awayBettors == old(awayBettors) + [sender] && homeBettors == old(homeBettors)
                && totalAwayBets == old(totalAwayBets) + 1 && totalHomeBets == old(totalHomeBets)
                && awayTeamPool == old(awayTeamPool) + value && homeTeamPool == old(homeTeamPool)
                && isSettled == old(isSettled) && homeTeamGoals == old(homeTeamGoals)
                && awayTeamGoals == old(awayTeamGoals) && paid == old(paid)
    {
      if value != stake {
        return Some(IncorrectStake);
      }
      if BetOf(sender) != NoBet {
        return Some(BetAlreadyPlaced);
      }
      assert sender !in homeBettors && sender !in awayBettors;
      bets := bets[sender := Away];
      awayBettors := awayBettors + [sender];
      totalAwayBets := totalAwayBets + 1;
      awayTeamPool := awayTeamPool + value;
      assert awayTeamPool == totalAwayBets * stake;
      return None;
    }

    /** gameFinished(homeGoals, awayGoals): the organiser settles once,
        with no start-time condition; the bets stay as they are. */
    method GameFinished(sender: Address, homeGoals: nat, awayGoals: nat) returns (r: Option<Revert>)
      requires Valid()
      modifies this
      ensures Valid()
      ensures sender != organiser ==> r == Some(NotOrganiser)
      ensures sender == organiser && old(isSettled) ==> r == Some(AlreadySettled)
      ensures r.Some? ==> unchanged(this)
      ensures r.None? <==> sender == organiser && !old(isSettled)
      ensures r.None? ==>
                isSettled && this.homeTeamGoals == homeGoals && this.awayTeamGoals == awayGoals
                && paid == old(paid) + Payees(homeGoals, awayGoals, homeBettors, awayBettors, organiser)
                && bets == old(bets) && homeBettors == old(homeBettors) && awayBettors == old(awayBettors)
                && totalHomeBets == old(totalHomeBets) && totalAwayBets == old(totalAwayBets)
                && homeTeamPool == old(homeTeamPool) && awayTeamPool == old(awayTeamPool)
    {
      if sender != organiser {
        return Some(NotOrganiser);
      }
      if isSettled {
        return Some(AlreadySettled);
      }
      isSettled := true;
      homeTeamGoals, awayTeamGoals := homeGoals, awayGoals;
      paid := paid + Payees(homeGoals, awayGoals, homeBettors, awayBettors, organiser);
      return None;
    }
  }

  /** bets(a) on a consistent match is 0, 1 or 2, and it is 0 exactly for
      an address on neither side. */
  lemma BetOfSides(m: Match, a: Address)
    requires m.Valid()
    ensures m.BetOf(a) == NoBet || m.BetOf(a) == Home || m.BetOf(a) == Away
    ensures m.BetOf(a) == NoBet <==> a !in m.homeBettors && a !in m.awayBettors
  {
  }

  const Ether: nat := 1_000_000_000_000_000_000

  /** 'Allows player to bet on home team': bets(player1) is 1. */
  method BetOnHomeRecorded() returns (bet: nat)
    ensures bet == Home
  {
    var m := new Match("0xbet", "TeamA", "TeamB", 3600, Ether, "0xorganiser");
    var r := m.BetOnHomeTeam("0xplayer1", Ether);
    bet := m.BetOf("0xplayer1");
  }

  /** 'Reverts if incorrect stake is sent': half the stake reverts. */
  method WrongStakeReverts() returns (r: Option<Revert>)
    ensures r == Some(IncorrectStake)
  {
    var m := new Match("0xbet", "TeamA", "TeamB", 3600, Ether, "0xorganiser");
    r := m.BetOnAwayTeam("0xplayer1", Ether / 2);
  }

  /** 'Prevents duplicate bets': a second bet, even on the other side, reverts. */
  method DuplicateBetReverts() returns (r: Option<Revert>)
    ensures r == Some(BetAlreadyPlaced)
  {
    var m := new Match("0xbet", "TeamA", "TeamB", 3600, Ether, "0xorganiser");
    var first := m.BetOnHomeTeam("0xplayer1", Ether);
    r := m.BetOnAwayTeam("0xplayer1", Ether);
  }

  /** 'Distributes winnings correctly': a 2-1 home win settles the match
      and pays the organiser. */
  method HomeWinPaysOrganiser() returns (settled: bool, organiserPaid: bool)
    ensures settled && organiserPaid
  {
    var m := new Match("0xbet", "TeamA", "TeamB", 3600, Ether, "0xorganiser");
    var r1 := m.BetOnHomeTeam("0xplayer1", Ether);
    var r2 := m.BetOnHomeTeam("0xplayer2", Ether);
    var r3 := m.GameFinished("0xorganiser", 2, 1);
    PayeesSpec(2, 1, m.homeBettors, m.awayBettors, m.organiser, m.organiser);
    settled := m.isSettled;
    organiserPaid := "0xorganiser" in m.paid;
  }

  /** 'Refunds all players if game is a draw': a 1-1 draw pays player1 back. */
  method DrawRefunds() returns (settled: bool, playerPaid: bool)
    ensures settled && playerPaid
  {
    var m := new Match("0xbet", "TeamA", "TeamB", 3600, Ether, "0xorganiser");
    var r1 := m.BetOnHomeTeam("0xplayer1", Ether);
    var r2 := m.BetOnAwayTeam("0xplayer2", Ether);
    var r3 := m.GameFinished("0xorganiser", 1, 1);
    assert "0xplayer1" == m.homeBettors[0];
    PayeesSpec(1, 1, m.homeBettors, m.awayBettors, m.organiser, "0xplayer1");
    settled := m.isSettled;
    playerPaid := "0xplayer1" in m.paid;
  }

  /** 'Counts home and away bets' and 'Calculates pools': one bet per side
      gives counters of 1 and pools of one stake each. */
  method OneBetPerSide() returns (homeCount: nat, awayCount: nat, homePool: nat, awayPool: nat)
    ensures homeCount == 1 && awayCount == 1 && homePool == Ether && awayPool == Ether
  {
    var m := new Match("0xbet", "TeamA", "TeamB", 3600, Ether, "0xorganiser");
    var r1 := m.BetOnHomeTeam("0xplayer1", Ether);
    var r2 := m.BetOnAwayTeam("0xplayer2", Ether);
    homeCount, awayCount := m.totalHomeBets, m.totalAwayBets;
    homePool, awayPool := m.homeTeamPool, m.awayTeamPool;
  }
}
