/** The registry as its tests describe it: the list of created matches, the
    list of organisers, the organisers' ratings and the votes cast. Whether
    an account may vote is the chain of conditions the "Why can't I vote?"
    diagnostic checks. */
module GameBet {
  import opened Common
  import opened FootballGameBet
  import opened OrganiserRatingRoute
  import CanVoteDebug

  datatype VoteRevert =
    | CannotVote       // canVote is false
    | RateOutOfRange   // a rate above 5

  /** The first match with the given address. */
  function Lookup(ms: seq<Match>, addr: Address): (r: Option<Match>)
    ensures r.Some? ==> r.value in ms && r.value.address == addr
    ensures r.None? ==> forall m :: m in ms ==> m.address != addr
  {
    if |ms| == 0 then None
    else if ms[0].address == addr then Some(ms[0])
    else Lookup(ms[1..], addr)
  }

  /** With distinct addresses, Lookup finds the one match that has the
      address. */
  lemma {:induction false} LookupUnique(ms: seq<Match>, m: Match)
    requires forall i, j :: 0 <= i < j < |ms| ==> ms[i].address != ms[j].address
    requires m in ms
    ensures Lookup(ms, m.address) == Some(m)
  {
    if ms[0] != m {
      assert m in ms[1..];
      LookupUnique(ms[1..], m);
    }
  }

  function AddressesOf(ms: seq<Match>): (addrs: seq<Address>)
    ensures |addrs| == |ms| && forall i :: 0 <= i < |ms| ==> addrs[i] == ms[i].address
  {
    seq(|ms|, i requires 0 <= i < |ms| => ms[i].address)
  }

  class Registry {
    var bets: seq<Match>
    var organisers: seq<Address>
    var ratings: map<Address, Rating>
    var voted: set<(Address, Address, Address)>   // (organiser, bet, voter)

    /** No two matches share an address; every organiser is listed once and
        has an active rating; every vote added at most 5 to its organiser's
        total, and was cast for a listed organiser by someone else. */
    ghost predicate Valid()
      reads this
    {
      (forall i, j :: 0 <= i < j < |bets| ==> bets[i].address != bets[j].address)
      && Distinct(organisers)
      && (forall o :: o in ratings <==> o in organisers)
      && (forall o :: o in ratings ==> ratings[o].active && ratings[o].totalRate <= 5 * ratings[o].numberOfTimesRated)
      && (forall v :: v in voted ==> v.0 in organisers && !SameAddress(v.2, v.0))
    }

    constructor ()
      ensures Valid()
      ensures bets == [] && organisers == [] && ratings == map[] && voted == {}
    {
      bets, organisers, ratings, voted := [], [], map[], {};
    }

    /** getBets(): the match addresses in creation order. */
    function GetBets(): (addrs: seq<Address>)
      reads this
      ensures |addrs| == |bets| && forall i :: 0 <= i < |bets| ==> addrs[i] == bets[i].address
    {
      AddressesOf(bets)
    }

    /** getOrganisers(): each organiser once, and exactly those with a rating. */
    function GetOrganisers(): (os: seq<Address>)
      reads this
      ensures Valid() ==> Distinct(os) && forall o :: o in os <==> o in ratings
    {
      organisers
    }

    /** ratings(organiser), all zero for an address that never created a match. */
    function RatingOf(o: Address): (rt: Rating)
      reads this
      ensures Valid() ==> (rt.active <==> o in GetOrganisers()) && rt.totalRate <= 5 * rt.numberOfTimesRated
      ensures Valid() && o !in GetOrganisers() ==> rt == Rating(false, 0, 0)
    {
      if o in ratings then ratings[o] else Rating(false, 0, 0)
    }

    /** hasVoted(organiser, bet, voter): only a listed organiser is ever
        voted for, and never by themselves. */
    predicate HasVoted(organiser: Address, bet: Address, voter: Address)
      reads this
      ensures Valid() && HasVoted(organiser, bet, voter) ==>
                organiser in GetOrganisers() && !SameAddress(voter, organiser)
    {
      (organiser, bet, voter) in voted
    }

    /** canVote for `caller` on (organiser, bet) at block time nowSec: the
        caller is not the organiser, the organiser is active, the match has
        started, its organiser is this organiser, the caller has a bet on it
        and has not voted on it yet. */
    predicate CanVote(caller: Address, organiser: Address, bet: Address, nowSec: int)
      reads this, bets
    {
      match Lookup(bets, bet)
      case None => false
      case Some(m) =>
        !SameAddress(caller, organiser)
        && RatingOf(organiser).active
        && nowSec >= m.startTime
        && SameAddress(m.organiser, organiser)
        && m.BetOf(caller) != NoBet
        && !HasVoted(organiser, bet, caller)
    }

    /** createFootballBet(homeTeam, awayTeam, startTime, stake) from
        `sender`; `newAddress` is the address the chain gives the new match. */
    method CreateFootballBet(sender: Address, homeTeam: string, awayTeam: string, startTime: nat, stake: nat, newAddress: Address)
      returns (m: Match)
      requires Valid()
      requires newAddress !in GetBets()
      modifies this
      ensures Valid()
      ensures fresh(m) && m.Valid() && m.address == newAddress && m.organiser == sender
      ensures m.homeTeam == homeTeam && m.awayTeam == awayTeam && m.startTime == startTime && m.stake == stake
      ensures m.bets == map[] && !m.isSettled
      ensures bets == old(bets) + [m]
      ensures organisers == if sender in old(organisers) then old(organisers) else old(organisers) + [sender]
      ensures ratings == if sender in old(ratings) then old(ratings) else old(ratings)[sender := Rating(true, 0, 0)]
      ensures voted == old(voted)
    {
      m := new Match(newAddress, homeTeam, awayTeam, startTime, stake, sender);
      bets := bets + [m];
      if sender !in organisers {
        organisers := organisers + [sender];
        ratings := ratings[sender := Rating(true, 0, 0)];
      }
    }

    /** vote(organiser, bet, rate) from `sender` at block time nowSec. A vote
        is counted once: afterwards canVote is false for the same triple. */
    method Vote(sender: Address, organiser: Address, bet: Address, rate: nat, nowSec: int) returns (r: Option<VoteRevert>)
      requires Valid()
      modifies this
      ensures Valid()
      ensures !old(CanVote(sender, organiser, bet, nowSec)) ==> r == Some(CannotVote)
      ensures old(CanVote(sender, organiser, bet, nowSec)) && rate > 5 ==> r == Some(RateOutOfRange)
      ensures r.Some? ==> unchanged(this)
      ensures r.None? <==> old(CanVote(sender, organiser, bet, nowSec)) && rate <= 5
      ensures r.None? ==>
                voted == old(voted) + {(organiser, bet, sender)}
                && ratings == old(ratings)[organiser := Rating(true, old(RatingOf(organiser)).totalRate + rate,
                                                               old(RatingOf(organiser)).numberOfTimesRated + 1)]
                && bets == old(bets) && organisers == old(organisers)
                && !CanVote(sender, organiser, bet, nowSec)
    {
      if !CanVote(sender, organiser, bet, nowSec) {
        return Some(CannotVote);
      }
      if rate > 5 {
        return Some(RateOutOfRange);
      }
      var current := RatingOf(organiser);
      voted := voted + {(organiser, bet, sender)};
      ratings := ratings[organiser := Rating(true, current.totalRate + rate, current.numberOfTimesRated + 1)];
      return None;
    }
  }

  /** The diagnostic's readings of a registry state. */
  function DebugReadings(reg: Registry, m: Match, caller: Address, organiser: Address, bet: Address, nowSec: int): CanVoteDebug.Readings
    reads reg, reg.bets, m
  {
    CanVoteDebug.Readings(
      m.organiser, m.startTime, m.BetOf(caller), reg.RatingOf(organiser).active,
      reg.HasVoted(organiser, bet, caller), reg.CanVote(caller, organiser, bet, nowSec))
  }

  /** canVote is false exactly when one of the diagnostic's conditions
      holds, so on this registry the diagnostic never reports 'unexpected':
      it reports success exactly when canVote is true, and otherwise the
      first condition that fails. */
  lemma CanVoteAgreesWithDebug(reg: Registry, caller: Address, organiser: Address, bet: Address, nowSec: int)
    requires caller != ""
    requires Lookup(reg.bets, bet).Some?
    ensures var m := Lookup(reg.bets, bet).value;
      var rd := DebugReadings(reg, m, caller, organiser, bet, nowSec);
      var c := CanVoteDebug.Conditions(caller, organiser, rd, nowSec * 1000);
      (reg.CanVote(caller, organiser, bet, nowSec) <==> forall j :: 0 <= j < 6 ==> !c[j])
      && ((CanVoteDebug.RunDebug(Some(caller), organiser, Some(rd), nowSec * 1000) == CanVoteDebug.CanVoteTrue)
          <==> reg.CanVote(caller, organiser, bet, nowSec))
      && CanVoteDebug.RunDebug(Some(caller), organiser, Some(rd), nowSec * 1000) != CanVoteDebug.Unexpected
  {
    var m := Lookup(reg.bets, bet).value;
    var rd := DebugReadings(reg, m, caller, organiser, bet, nowSec);
    var c := CanVoteDebug.Conditions(caller, organiser, rd, nowSec * 1000);
    assert CanVoteDebug.NowSec(nowSec * 1000) == nowSec;
    if !reg.CanVote(caller, organiser, bet, nowSec) {
      assert c[0] || c[1] || c[2] || c[3] || c[4] || c[5];
    }
    CanVoteDebug.DebugChain(Some(caller), organiser, Some(rd), nowSec * 1000);
  }

  /** On a consistent registry every organiser's average lies between 0
      and 5, and so does the average the rating route reports. */
  lemma RatingsInRange(reg: Registry, o: Address)
    requires reg.Valid()
    ensures var rt := reg.RatingOf(o);
      0.0 <= Average(rt.totalRate, rt.numberOfTimesRated) <= 5.0
      && (o != "" ==> var r := Get(Some(o), Some(rt)); r.Ok? && 0.0 <= r.average <= 5.0)
  {
    var rt := reg.RatingOf(o);
    AverageInRange(rt.totalRate, rt.numberOfTimesRated);
  }

  /** 'Creates a new FootballGameBet contract': one creation, one address. */
  method CreatesOneBet() returns (count: nat)
    ensures count == 1
  {
    var reg := new Registry();
    var m := reg.CreateFootballBet("0xorganiser", "TeamA", "TeamB", 3600, Ether, "0xbet");
    count := |reg.GetBets()|;
  }

  /** 'Adds organiser to the list on first bet creation'. */
  method AddsOrganiser() returns (included: bool)
    ensures included
  {
    var reg := new Registry();
    var m := reg.CreateFootballBet("0xorganiser", "TeamA", "TeamB", 3600, Ether, "0xbet");
    included := "0xorganiser" in reg.GetOrganisers();
  }

  /** 'Allows a valid user to vote on organiser': the voter bets on the new
      match, time passes 4000 s beyond a 3600 s start offset, the voter may
      vote, and vote(organiser, bet, 5) succeeds. */
  method ValidUserVotes() returns (eligible: bool, r: Option<VoteRevert>)
    ensures eligible && r == None
  {
    var t0 := 0;
    var reg := new Registry();
    var m := reg.CreateFootballBet("0xorganiser", "TeamA", "TeamB", t0 + 3600, Ether, "0xbet");
    var placed := m.BetOnHomeTeam("0xvoter", Ether);
    assert Lookup(reg.bets, "0xbet") == Some(m);
    eligible := reg.CanVote("0xvoter", "0xorganiser", "0xbet", t0 + 4000);
    r := reg.Vote("0xvoter", "0xorganiser", "0xbet", 5, t0 + 4000);
  }
}
