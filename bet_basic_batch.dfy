/** The basic batch route: five field groups of N reads in one multicall, cut
    back into groups by a moving read position and reassembled per address. */
module BetBasicBatchRoute {
  import opened Common
  import opened Reads
  import opened Layout

  /** Group g of the request list reads getter Getters[g] of every address. */
  const Getters: seq<Getter> := [HomeTeam, AwayTeam, StartTime, IsSettled, Organiser]

  datatype Response =
    | Wrapped(items: seq<BasicItem>)  // { items: [] }, sent for no address
    | Bare(items: seq<BasicItem>)     // the bare array, sent otherwise
    | ServerError                     // 500, the multicall threw

  /** addresses.map((address, i) => ({ ... })) over the five groups. */
  function AssembleBasic(
    addresses: seq<Address>,
    home: seq<CallResult>, away: seq<CallResult>, start: seq<CallResult>,
    settled: seq<CallResult>, org: seq<CallResult>)
    : seq<BasicItem>
  {
    seq(|addresses|, i requires 0 <= i < |addresses| =>
      BasicItem(
        addresses[i],
        TextOr(Safe(home, i), ""),
        TextOr(Safe(away, i), ""),
        NumOr(Safe(start, i), 0),
        BoolOr(Safe(settled, i), false),
        TextOr(Safe(org, i), ZeroAddress)))
  }

  /** Built from the five groups, each item is the reference basic record of
      its address. */
  lemma AssembleRoundTrip(
    addresses: seq<Address>, chain: Chain,
    home: seq<CallResult>, away: seq<CallResult>, start: seq<CallResult>,
    settled: seq<CallResult>, org: seq<CallResult>)
    requires GroupOf(addresses, chain, home, Getters[0]) && GroupOf(addresses, chain, away, Getters[1])
    requires GroupOf(addresses, chain, start, Getters[2]) && GroupOf(addresses, chain, settled, Getters[3])
    requires GroupOf(addresses, chain, org, Getters[4])
    ensures AssembleBasic(addresses, home, away, start, settled, org) == BasicItemsFromChain(addresses, chain)
  {
    assert Getters[0] == HomeTeam && Getters[1] == AwayTeam && Getters[2] == StartTime;
    assert Getters[3] == IsSettled && Getters[4] == Organiser;
  }

  /** GET ?addresses=a&addresses=b... One basic record per address, in input
      order; no address gives the wrapped empty list. */
  method Get(addresses: seq<Address>, reachable: bool, chain: Chain) returns (r: Response)
    ensures |addresses| == 0 ==> r == Wrapped([])
    ensures |addresses| > 0 && !reachable ==> r == ServerError
    ensures |addresses| > 0 && reachable ==> r == Bare(BasicItemsFromChain(addresses, chain))
  {
    if |addresses| == 0 {
      return Wrapped([]);
    }
    if !reachable {
      return ServerError;
    }
    var res := Multicall(chain, GroupMajor(addresses, Getters));
    MulticallGroupMajor(addresses, Getters, chain);
    var items := Decode(addresses, chain, res);
    return Bare(items);
  }

  /** Cuts the results into the five groups with the read position `k` of the
      route's `slice(count)` closure and builds one record per address. */
  method Decode(addresses: seq<Address>, chain: Chain, res: seq<CallResult>) returns (items: seq<BasicItem>)
    requires GroupsMatch(addresses, Getters, chain, res)
    ensures items == BasicItemsFromChain(addresses, chain)
  {
    var perAddr := |addresses|;
    var k: nat := 0;
    SliceIsGroup(addresses, Getters, chain, res, perAddr, 0, k);
    var home := JsSlice(res, k, k + perAddr);
    k := k + perAddr;
    SliceIsGroup(addresses, Getters, chain, res, perAddr, 1, k);
    var away := JsSlice(res, k, k + perAddr);
    k := k + perAddr;
    SliceIsGroup(addresses, Getters, chain, res, perAddr, 2, k);
    var start := JsSlice(res, k, k + perAddr);
    k := k + perAddr;
    SliceIsGroup(addresses, Getters, chain, res, perAddr, 3, k);
    var settled := JsSlice(res, k, k + perAddr);
    k := k + perAddr;
    SliceIsGroup(addresses, Getters, chain, res, perAddr, 4, k);
    var org := JsSlice(res, k, k + perAddr);
    k := k + perAddr;
    items := AssembleBasic(addresses, home, away, start, settled, org);
    AssembleRoundTrip(addresses, chain, home, away, start, settled, org);
  }
}
