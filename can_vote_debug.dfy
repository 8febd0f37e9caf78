/** The "Why can't I vote?" diagnostic: six reads, then one alert naming
    the first condition that is likely to make canVote false. */
module CanVoteDebug {
  import opened Common
  import opened MatchView

  /** The values runDebug reads, in its order. */
  datatype Readings = Readings(
    organiserOfBet: Address,
    startTime: nat,
    myBet: nat,
    active: bool,          // ratings(organiser).active
    alreadyVoted: bool,    // hasVoted(organiser, bet, you)
    canVote: bool)

  datatype Outcome =
    | NotRun               // no connected address: nothing is read
    | ReadFailed           // 'Failed to run canVote debug.'
    | CanVoteTrue
    | YouAreOrganiser
    | NotActive
    | NotStartedOnChain
    | OrganiserMismatch
    | NoBet
    | AlreadyVoted
    | Unexpected

  /** Math.floor(Date.now() / 1000); Dafny's division by a positive divisor
      rounds toward minus infinity. */
  function NowSec(nowMs: int): int { nowMs / 1000 }

  /** The conditions of the else-if chain in their order; entry i is true
      when condition i holds. */
  function Conditions(address: Address, organiser: Address, r: Readings, nowMs: int): seq<bool>
  {
    [ SameAddress(address, organiser),
      !r.active,
      NowSec(nowMs) < r.startTime,
      !SameAddress(r.organiserOfBet, organiser),
      r.myBet == 0,
      r.alreadyVoted ]
  }

  function Rank(o: Outcome): nat
  {
    match o
    case YouAreOrganiser => 0
    case NotActive => 1
    case NotStartedOnChain => 2
    case OrganiserMismatch => 3
    case NoBet => 4
    case AlreadyVoted => 5
    case _ => 6
  }

  /** runDebug. `readings` is None when one of the reads threw. */
  function RunDebug(address: Option<Address>, organiser: Address, readings: Option<Readings>, nowMs: int): Outcome
  {
    if address.None? || address.value == "" then NotRun
    else if readings.None? then ReadFailed
    else
      var r := readings.value;
      var a := address.value;
      if !r.canVote then
        if SameAddress(a, organiser) then YouAreOrganiser
        else if !r.active then NotActive
        else if NowSec(nowMs) < r.startTime then NotStartedOnChain
        else if !SameAddress(r.organiserOfBet, organiser) then OrganiserMismatch
        else if r.myBet == 0 then NoBet
        else if r.alreadyVoted then AlreadyVoted
        else Unexpected
      else CanVoteTrue
  }

  /** Without an account nothing runs; a true canVote wins over every other
      reading; a false one names the first condition that holds, or
      'unexpected' when none does. */
  lemma DebugChain(address: Option<Address>, organiser: Address, readings: Option<Readings>, nowMs: int)
    ensures var o := RunDebug(address, organiser, readings, nowMs);
      (o == NotRun <==> address.None? || address.value == "")
      && (o == CanVoteTrue <==> address.Some? && address.value != "" && readings.Some? && readings.value.canVote)
      && (address.Some? && address.value != "" && readings.Some? && !readings.value.canVote ==>
            var c := Conditions(address.value, organiser, readings.value, nowMs);
            Rank(o) <= 6
            && (Rank(o) < 6 ==> c[Rank(o)])
            && (forall j :: 0 <= j < Rank(o) ==> !c[j])
            && (o == Unexpected <==> forall j :: 0 <= j < 6 ==> !c[j]))
  {
    if address.Some? && address.value != "" && readings.Some? && !readings.value.canVote {
      var o := RunDebug(address, organiser, readings, nowMs);
      var c := Conditions(address.value, organiser, readings.value, nowMs);
      if o == Unexpected {
        forall j | 0 <= j < 6 ensures !c[j] {
          assert j == 0 || j == 1 || j == 2 || j == 3 || j == 4 || j == 5;
        }
      } else {
        assert c[Rank(o)];
      }
    }
  }

  /** The logged "started?" test nowSec >= startTime is the negation of the
      alert's nowSec < startTime, and both agree with the clients'
      millisecond test now >= startTime * 1000. */
  lemma StartedTests(nowMs: int, startTime: nat)
    ensures (NowSec(nowMs) >= startTime) == !(NowSec(nowMs) < startTime)
    ensures NowSec(nowMs) >= startTime <==> HasStarted(nowMs, startTime)
  {
    if NowSec(nowMs) >= startTime {
      assert nowMs >= NowSec(nowMs) * 1000;
    } else {
      assert nowMs < NowSec(nowMs) * 1000 + 1000;
      assert NowSec(nowMs) + 1 <= startTime;
    }
  }

  /** Lowering the case of every address changes no outcome. */
  lemma CaseInsensitive(address: Address, organiser: Address, r: Readings, nowMs: int)
    ensures RunDebug(Some(address), organiser, Some(r), nowMs)
            == RunDebug(Some(Lower(address)), Lower(organiser), Some(r.(organiserOfBet := Lower(r.organiserOfBet))), nowMs)
  {
    LowerIdempotent(address);
    LowerIdempotent(organiser);
    LowerIdempotent(r.organiserOfBet);
  }
}
