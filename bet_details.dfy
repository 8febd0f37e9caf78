/** The single-match detail route: twelve reads of one address in one
    multicall, destructured by position. */
module BetDetailsRoute {
  import opened Common
  import opened Reads
  import Layout

  /** The request order: homeTeam through getIsSettled. */
  const Getters: seq<Getter> := [
    HomeTeam, AwayTeam, Stake, StartTime, Organiser, TotalHomeBets,
    TotalAwayBets, HomeTeamPool, AwayTeamPool, HomeTeamGoals, AwayTeamGoals, IsSettled]

  datatype Response =
    | Ok(item: BetItem)
    | BadRequest   // 400 'Missing address'
    | ServerError  // 500, the multicall threw

  /** GET ?address=a. `reachable` is false when the multicall itself throws. */
  function Get(address: Option<string>, reachable: bool, chain: Chain): (r: Response)
    ensures r == BadRequest <==> address.None? || address.value == ""
    ensures r == ServerError <==> address.Some? && address.value != "" && !reachable
    ensures r.Ok? ==> r.item == ItemFromChain(address.value, chain)
    ensures r.Ok? ==> r.item.address == address.value
  {
    if address.None? || address.value == "" then BadRequest
    else if !reachable then ServerError
    else
      var a := address.value;
      var res := Multicall(chain, Layout.ForAddress(a, Getters));
      Ok(BetItem(
        a,
        TextOr(res[0], ""),
        TextOr(res[1], ""),
        NumOr(res[2], 0),
        NumOr(res[3], 0),
        TextOr(res[4], ZeroAddress),
        NumOr(res[5], 0),
        NumOr(res[6], 0),
        NumOr(res[7], 0),
        NumOr(res[8], 0),
        NumOr(res[9], 0),
        NumOr(res[10], 0),
        BoolOr(res[11], false)))
  }
}
