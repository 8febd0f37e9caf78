/** The detail batch route: twelve field groups of N reads in one multicall,
    cut back into groups by a moving read position and reassembled per address. */
module BetDetailsBatchRoute {
  import opened Common
  import opened Reads
  import opened Layout

  /** Group g of the request list reads getter Getters[g] of every address. */
  const Getters: seq<Getter> := [
    HomeTeam, AwayTeam, Stake, StartTime, Organiser, TotalHomeBets,
    TotalAwayBets, HomeTeamPool, AwayTeamPool, HomeTeamGoals, AwayTeamGoals, IsSettled]

  datatype Response =
    | Items(items: seq<BetItem>)
    | ServerError  // 500, the multicall threw

  /** addresses.map((address, idx) => ({ ... })): the item of address idx
      takes entry idx of each group, with the fallbacks. */
  function AssembleItems(
    addresses: seq<Address>,
    home: seq<CallResult>, away: seq<CallResult>, stake: seq<CallResult>, start: seq<CallResult>,
    org: seq<CallResult>, tHome: seq<CallResult>, tAway: seq<CallResult>, homePool: seq<CallResult>,
    awayPool: seq<CallResult>, homeGoals: seq<CallResult>, awayGoals: seq<CallResult>, settled: seq<CallResult>)
    : seq<BetItem>
  {
    seq(|addresses|, idx requires 0 <= idx < |addresses| =>
      BetItem(
        addresses[idx],
        TextOr(Safe(home, idx), ""),
        TextOr(Safe(away, idx), ""),
        NumOr(Safe(stake, idx), 0),
        NumOr(Safe(start, idx), 0),
        TextOr(Safe(org, idx), ZeroAddress),
        NumOr(Safe(tHome, idx), 0),
        NumOr(Safe(tAway, idx), 0),
        NumOr(Safe(homePool, idx), 0),
        NumOr(Safe(awayPool, idx), 0),
        NumOr(Safe(homeGoals, idx), 0),
        NumOr(Safe(awayGoals, idx), 0),
        BoolOr(Safe(settled, idx), false)))
  }

  /** Built from the twelve groups, each item is the reference record of its address. */
  lemma AssembleRoundTrip(
    addresses: seq<Address>, chain: Chain,
    home: seq<CallResult>, away: seq<CallResult>, stake: seq<CallResult>, start: seq<CallResult>,
    org: seq<CallResult>, tHome: seq<CallResult>, tAway: seq<CallResult>, homePool: seq<CallResult>,
    awayPool: seq<CallResult>, homeGoals: seq<CallResult>, awayGoals: seq<CallResult>, settled: seq<CallResult>)
    requires GroupOf(addresses, chain, home, Getters[0]) && GroupOf(addresses, chain, away, Getters[1])
    requires GroupOf(addresses, chain, stake, Getters[2]) && GroupOf(addresses, chain, start, Getters[3])
    requires GroupOf(addresses, chain, org, Getters[4]) && GroupOf(addresses, chain, tHome, Getters[5])
    requires GroupOf(addresses, chain, tAway, Getters[6]) && GroupOf(addresses, chain, homePool, Getters[7])
    requires GroupOf(addresses, chain, awayPool, Getters[8]) && GroupOf(addresses, chain, homeGoals, Getters[9])
    requires GroupOf(addresses, chain, awayGoals, Getters[10]) && GroupOf(addresses, chain, settled, Getters[11])
    ensures AssembleItems(addresses, home, away, stake, start, org, tHome, tAway, homePool, awayPool, homeGoals, awayGoals, settled)
            == ItemsFromChain(addresses, chain)
  {
    assert Getters[0] == HomeTeam && Getters[1] == AwayTeam && Getters[2] == Stake && Getters[3] == StartTime;
    assert Getters[4] == Organiser && Getters[5] == TotalHomeBets && Getters[6] == TotalAwayBets && Getters[7] == HomeTeamPool;
    assert Getters[8] == AwayTeamPool && Getters[9] == HomeTeamGoals && Getters[10] == AwayTeamGoals && Getters[11] == IsSettled;
  }

  /** GET ?addresses=a&addresses=b... One item per address, in input order,
      each the reference record of its own address; no address gives []. */
  method Get(addresses: seq<Address>, reachable: bool, chain: Chain) returns (r: Response)
    ensures |addresses| == 0 ==> r == Items([])
    ensures |addresses| > 0 && !reachable ==> r == ServerError
    ensures |addresses| > 0 && reachable ==>
      r == Items(ItemsFromChain(addresses, chain))
  {
    if |addresses| == 0 {
      return Items([]);
    }
    if !reachable {
      return ServerError;
    }
    var res := Multicall(chain, GroupMajor(addresses, Getters));
    MulticallGroupMajor(addresses, Getters, chain);
    var items := Decode(addresses, chain, res);
    return Items(items);
  }

  /** Cuts the results into the twelve groups with the read position `i` of
      the route's `slice(n)` closure (res.slice(i, i + n), then i += n) and
      builds one item per address with the fallbacks. */
  method Decode(addresses: seq<Address>, chain: Chain, res: seq<CallResult>) returns (items: seq<BetItem>)
    requires GroupsMatch(addresses, Getters, chain, res)
    ensures items == ItemsFromChain(addresses, chain)
  {
    var n := |addresses|;
    var i: nat := 0;
    SliceIsGroup(addresses, Getters, chain, res, n, 0, i);
    var home := JsSlice(res, i, i + n);
    i := i + n;
    SliceIsGroup(addresses, Getters, chain, res, n, 1, i);
    var away := JsSlice(res, i, i + n);
    i := i + n;
    SliceIsGroup(addresses, Getters, chain, res, n, 2, i);
    var stake := JsSlice(res, i, i + n);
    i := i + n;
    SliceIsGroup(addresses, Getters, chain, res, n, 3, i);
    var start := JsSlice(res, i, i + n);
    i := i + n;
    SliceIsGroup(addresses, Getters, chain, res, n, 4, i);
    var org := JsSlice(res, i, i + n);
    i := i + n;
    SliceIsGroup(addresses, Getters, chain, res, n, 5, i);
    var tHome := JsSlice(res, i, i + n);
    i := i + n;
    SliceIsGroup(addresses, Getters, chain, res, n, 6, i);
    var tAway := JsSlice(res, i, i + n);
    i := i + n;
    SliceIsGroup(addresses, Getters, chain, res, n, 7, i);
    var homePool := JsSlice(res, i, i + n);
    i := i + n;
    SliceIsGroup(addresses, Getters, chain, res, n, 8, i);
    var awayPool := JsSlice(res, i, i + n);
    i := i + n;
    SliceIsGroup(addresses, Getters, chain, res, n, 9, i);
    var homeGoals := JsSlice(res, i, i + n);
    i := i + n;
    SliceIsGroup(addresses, Getters, chain, res, n, 10, i);
    var awayGoals := JsSlice(res, i, i + n);
    i := i + n;
    SliceIsGroup(addresses, Getters, chain, res, n, 11, i);
    var settled := JsSlice(res, i, i + n);
    i := i + n;
    items := AssembleItems(addresses, home, away, stake, start, org, tHome, tAway, homePool, awayPool, homeGoals, awayGoals, settled);
    AssembleRoundTrip(addresses, chain, home, away, stake, start, org, tHome, tAway, homePool, awayPool, homeGoals, awayGoals, settled);
  }
}
