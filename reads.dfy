/** The match records the read routes return, and what each field is when it
    is read straight from the chain with the routes' fallbacks. Amounts stay
    in wei: the ether formatting of stake and pools is not modelled. */
module Reads {
  import opened Common

  /** The record of the detail routes and of the page route's items. */
  datatype BetItem = BetItem(
    address: Address,
    homeTeam: string,
    awayTeam: string,
    stake: nat,
    startTime: nat,
    organiser: Address,
    totalHomeBets: nat,
    totalAwayBets: nat,
    homeTeamPool: nat,
    awayTeamPool: nat,
    homeTeamGoals: nat,
    awayTeamGoals: nat,
    isSettled: bool)

  /** The record of the basic batch route. */
  datatype BasicItem = BasicItem(
    address: Address,
    homeTeam: string,
    awayTeam: string,
    startTime: nat,
    isSettled: bool,
    organiser: Address)

  /** The result of getter g on address a. */
  function Read(chain: Chain, a: Address, g: Getter): CallResult
  {
    chain(Call(a, g))
  }

  /** The reference record of one match: every field is its own getter's
      result, or '' for a team, 0 for a number, the zero address for the
      organiser and false for the settled flag when that read failed. */
  function ItemFromChain(a: Address, chain: Chain): BetItem
  {
    BetItem(
      a,
      TextOr(Read(chain, a, HomeTeam), ""),
      TextOr(Read(chain, a, AwayTeam), ""),
      NumOr(Read(chain, a, Stake), 0),
      NumOr(Read(chain, a, StartTime), 0),
      TextOr(Read(chain, a, Organiser), ZeroAddress),
      NumOr(Read(chain, a, TotalHomeBets), 0),
      NumOr(Read(chain, a, TotalAwayBets), 0),
      NumOr(Read(chain, a, HomeTeamPool), 0),
      NumOr(Read(chain, a, AwayTeamPool), 0),
      NumOr(Read(chain, a, HomeTeamGoals), 0),
      NumOr(Read(chain, a, AwayTeamGoals), 0),
      BoolOr(Read(chain, a, IsSettled), false))
  }

  /** The reference records of a list of addresses, in order. */
  function ItemsFromChain(addresses: seq<Address>, chain: Chain): (items: seq<BetItem>)
    ensures |items| == |addresses|
    ensures forall i :: 0 <= i < |addresses| ==> items[i] == ItemFromChain(addresses[i], chain)
  {
    seq(|addresses|, i requires 0 <= i < |addresses| => ItemFromChain(addresses[i], chain))
  }

  /** The reference basic record of one match, with the same fallbacks. */
  function BasicFromChain(a: Address, chain: Chain): BasicItem
  {
    BasicItem(
      a,
      TextOr(Read(chain, a, HomeTeam), ""),
      TextOr(Read(chain, a, AwayTeam), ""),
      NumOr(Read(chain, a, StartTime), 0),
      BoolOr(Read(chain, a, IsSettled), false),
      TextOr(Read(chain, a, Organiser), ZeroAddress))
  }

  /** The reference basic records of a list of addresses, in order. */
  function BasicItemsFromChain(addresses: seq<Address>, chain: Chain): (items: seq<BasicItem>)
    ensures |items| == |addresses|
    ensures forall i :: 0 <= i < |addresses| ==> items[i] == BasicFromChain(addresses[i], chain)
  {
    seq(|addresses|, i requires 0 <= i < |addresses| => BasicFromChain(addresses[i], chain))
  }

  /** The record shown for a match none of whose reads succeeded. */
  const DefaultItemFields := BetItem("", "", "", 0, 0, ZeroAddress, 0, 0, 0, 0, 0, 0, false)

  /** When every read of a fails, the record is the address with the fallbacks. */
  lemma FailedReadsFallBack(a: Address, chain: Chain)
    requires forall g: Getter :: chain(Call(a, g)) == Failure
    ensures ItemFromChain(a, chain) == DefaultItemFields.(address := a)
    ensures BasicFromChain(a, chain) == BasicItem(a, "", "", 0, false, ZeroAddress)
  {
    assert Read(chain, a, HomeTeam) == Failure && Read(chain, a, AwayTeam) == Failure;
    assert Read(chain, a, Stake) == Failure && Read(chain, a, StartTime) == Failure;
    assert Read(chain, a, Organiser) == Failure && Read(chain, a, IsSettled) == Failure;
    assert Read(chain, a, TotalHomeBets) == Failure && Read(chain, a, TotalAwayBets) == Failure;
    assert Read(chain, a, HomeTeamPool) == Failure && Read(chain, a, AwayTeamPool) == Failure;
    assert Read(chain, a, HomeTeamGoals) == Failure && Read(chain, a, AwayTeamGoals) == Failure;
  }

  /** A successful read of the right type passes through unchanged. */
  lemma SuccessfulReadsPassThrough(a: Address, chain: Chain, home: string, stake: nat, org: Address, settled: bool)
    requires chain(Call(a, HomeTeam)) == Success(Text(home))
    requires chain(Call(a, Stake)) == Success(Num(stake))
    requires chain(Call(a, Organiser)) == Success(Text(org))
    requires chain(Call(a, IsSettled)) == Success(Flag(settled))
    ensures ItemFromChain(a, chain).homeTeam == home
    ensures ItemFromChain(a, chain).stake == stake
    ensures ItemFromChain(a, chain).organiser == org
    ensures ItemFromChain(a, chain).isSettled == settled
    ensures BasicFromChain(a, chain).organiser == org
  {
  }

  /** The basic record is the detail record with the other fields dropped. */
  lemma BasicIsProjection(a: Address, chain: Chain)
    ensures var d := ItemFromChain(a, chain);
      BasicFromChain(a, chain)
      == BasicItem(d.address, d.homeTeam, d.awayTeam, d.startTime, d.isSettled, d.organiser)
  {
  }
}
