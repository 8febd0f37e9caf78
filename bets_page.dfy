/** The server-side page route: query parameters, one multicall of four basic
    reads per match, status and search filter, stable sort by start time,
    one page, and a second multicall of eight detail reads for that page. */
module BetsPageRoute {
  import opened Common
  import opened Reads
  import opened Layout
  import opened Seqs
  import opened MatchView

  /** The four basic reads issued for every match, in request order. */
  const BasicGetters: seq<Getter> := [StartTime, IsSettled, HomeTeam, AwayTeam]

  /** The eight detail reads issued for every match of the page, in request order. */
  const DetailGetters: seq<Getter> := [
    Organiser, Stake, TotalHomeBets, TotalAwayBets,
    HomeTeamPool, AwayTeamPool, HomeTeamGoals, AwayTeamGoals]

  // ---------- query parameters ----------

  /** The raw search parameters; None is an absent parameter. */
  datatype Query = Query(
    status: Option<string>,
    search: Option<string>,
    sort: Option<string>,
    page: Option<string>,
    pageSize: Option<string>)

  /** The parameters as the route uses them. A page or page size of None is
      NaN: Math.max and Math.min pass NaN through. */
  datatype Params = Params(
    status: Status,
    search: string,
    asc: bool,
    page: Option<int>,
    pageSize: Option<int>)

  function OrDefault(o: Option<string>, d: string): string
  {
    if o.Some? then o.value else d
  }

  /** Math.max(1, v) on a parsed page: at least 1, v itself when that is
      already at least 1, NaN when v is NaN. */
  function ClampPage(v: Option<int>): (page: Option<int>)
    ensures page.None? <==> v.None?
    ensures page.Some? ==> page.value >= 1
    ensures page.Some? && v.value >= 1 ==> page == v
  {
    if v.None? then None else Some(Max(1, v.value))
  }

  /** Math.max(1, parseInt(page ?? '1', 10)). */
  function PageParam(raw: Option<string>): Option<int>
  {
    ClampPage(ParseInt(OrDefault(raw, "1")))
  }

  /** Math.min(50, Math.max(1, v)) on a parsed page size: between 1 and 50,
      v itself when it already is, NaN when v is NaN. */
  function ClampPageSize(v: Option<int>): (size: Option<int>)
    ensures size.None? <==> v.None?
    ensures size.Some? ==> 1 <= size.value <= 50
    ensures size.Some? && 1 <= v.value <= 50 ==> size == v
  {
    if v.None? then None else Some(Min(50, Max(1, v.value)))
  }

  /** Math.min(50, Math.max(1, parseInt(pageSize ?? '10', 10))). */
  function PageSizeParam(raw: Option<string>): Option<int>
  {
    ClampPageSize(ParseInt(OrDefault(raw, "10")))
  }

  /** The comparator is ascending exactly when sort is 'asc', its default. */
  function SortParam(raw: Option<string>): (asc: bool)
    ensures raw.None? ==> asc
    ensures raw.Some? ==> (asc <==> raw.value == "asc")
  {
    OrDefault(raw, "asc") == "asc"
  }

  /** The parameters the route reads from the query, with their defaults. */
  function ReadParams(q: Query): Params
  {
    Params(
      ParseStatus(OrDefault(q.status, "history")),
      Lower(Trim(OrDefault(q.search, ""))),
      SortParam(q.sort),
      PageParam(q.page),
      PageSizeParam(q.pageSize))
  }

  /** The page and page size the rest of the route relies on. */
  predicate ValidParams(p: Params)
  {
    (p.page.Some? ==> p.page.value >= 1) && (p.pageSize.Some? ==> 1 <= p.pageSize.value <= 50)
  }

  /** Whatever the query, an integer page is at least 1 and an integer page
      size lies in [1, 50]. */
  lemma ParamBounds(q: Query)
    ensures ValidParams(ReadParams(q))
  {
    var p := ReadParams(q);
    assert p.page == PageParam(q.page) && p.pageSize == PageSizeParam(q.pageSize);
  }

  /** With no parameter at all: history, no search, ascending, page 1 of size 10. */
  lemma ParamDefaults(q: Query)
    requires q.status.None? && q.search.None? && q.sort.None? && q.page.None? && q.pageSize.None?
    ensures ReadParams(q) == Params(History, "", true, Some(1), Some(10))
  {
    DefaultPage(q.page);
    DefaultPageSize(q.pageSize);
    DefaultSearch(q.search);
  }

  lemma DefaultSearch(raw: Option<string>)
    requires raw.None?
    ensures Lower(Trim(OrDefault(raw, ""))) == ""
  {
    assert TrimStart("") == "" && TrimEnd("") == "";
  }

  lemma DefaultPage(raw: Option<string>)
    requires raw.None?
    ensures PageParam(raw) == Some(1)
  {
    ParseSingleDigit('1');
    assert ParseInt(OrDefault(raw, "1")) == Some(1);
  }

  lemma DefaultPageSize(raw: Option<string>)
    requires raw.None?
    ensures PageSizeParam(raw) == Some(10)
  {
    ParseTen();
    assert ParseInt(OrDefault(raw, "10")) == Some(10);
  }

  lemma ParseTen()
    ensures ParseInt("10") == Some(10)
  {
    var s := "10";
    assert !IsJsSpace('1');
    assert TrimStart(s) == s;
    assert DigitPrefix(s[1..][1..]) == [];
    assert DigitPrefix(s[1..]) == "0";
    assert DigitPrefix(s) == s;
    assert s[..1] == "1" && s[..1][..0] == [];
    assert DigitsValue(s) == 10 * DigitsValue("1") + 0;
  }

  // ---------- basic rows ----------

  /** One basic row: the fields the filter and the sort need. */
  datatype Row = Row(address: Address, startTime: nat, isSettled: bool, homeTeam: string, awayTeam: string)

  /** The reference row of a match: each field its own getter's result, or 0,
      false and '' when that read failed. */
  function RowFromChain(a: Address, chain: Chain): Row
  {
    Row(
      a,
      NumOr(Read(chain, a, StartTime), 0),
      BoolOr(Read(chain, a, IsSettled), false),
      TextOr(Read(chain, a, HomeTeam), ""),
      TextOr(Read(chain, a, AwayTeam), ""))
  }

  function RowsFromChain(addresses: seq<Address>, chain: Chain): (rows: seq<Row>)
    ensures |rows| == |addresses|
    ensures forall i :: 0 <= i < |addresses| ==> rows[i] == RowFromChain(addresses[i], chain)
  {
    seq(|addresses|, i requires 0 <= i < |addresses| => RowFromChain(addresses[i], chain))
  }

  /** Failed basic reads give start time 0, not settled and empty team names. */
  lemma FailedBasicReads(a: Address, chain: Chain)
    requires forall g: Getter :: chain(Call(a, g)) == Failure
    ensures RowFromChain(a, chain) == Row(a, 0, false, "", "")
  {
    assert Read(chain, a, StartTime) == Failure && Read(chain, a, IsSettled) == Failure;
    assert Read(chain, a, HomeTeam) == Failure && Read(chain, a, AwayTeam) == Failure;
  }

  /** Row i built from the four entries pick(0..3), `result ?? fallback`. */
  function RowOf(a: Address, start: CallResult, settled: CallResult, home: CallResult, away: CallResult): Row
  {
    Row(a, NumOr(start, 0), BoolOr(settled, false), TextOr(home, ""), TextOr(away, ""))
  }

  /** The rows as written: pick(g) = basic[g * N + i], a group-major read of
      the address-major request list. */
  function RowsAsWritten(addresses: seq<Address>, basic: seq<CallResult>): (rows: seq<Row>)
    ensures |rows| == |addresses|
  {
    var n := |addresses|;
    seq(n, i requires 0 <= i < n =>
      RowOf(addresses[i], Safe(basic, 0 * n + i), Safe(basic, 1 * n + i),
            Safe(basic, 2 * n + i), Safe(basic, 3 * n + i)))
  }

  /** The rows read where the request list put them: basic[4 * i + g]. */
  function Rows(addresses: seq<Address>, basic: seq<CallResult>): (rows: seq<Row>)
    ensures |rows| == |addresses|
  {
    seq(|addresses|, i requires 0 <= i < |addresses| =>
      RowOf(addresses[i], Safe(basic, 4 * i), Safe(basic, 4 * i + 1),
            Safe(basic, 4 * i + 2), Safe(basic, 4 * i + 3)))
  }

  /** Read at 4 * i + g, the address-major results give every match its own
      reference row. */
  lemma {:induction false} RowsRoundTrip(addresses: seq<Address>, chain: Chain)
    ensures Rows(addresses, Multicall(chain, AddressMajor(addresses, BasicGetters))) == RowsFromChain(addresses, chain)
  {
    var basic := Multicall(chain, AddressMajor(addresses, BasicGetters));
    var rows := Rows(addresses, basic);
    AddressMajorLength(addresses, BasicGetters);
    assert |BasicGetters| == 4;
    forall i | 0 <= i < |addresses| ensures rows[i] == RowFromChain(addresses[i], chain) {
      AddressMajorAt(addresses, BasicGetters, i, 0);
      AddressMajorAt(addresses, BasicGetters, i, 1);
      AddressMajorAt(addresses, BasicGetters, i, 2);
      AddressMajorAt(addresses, BasicGetters, i, 3);
    }
  }

  /** Two matches, neither started nor settled: the rows as written read the
      second request of the first match (its settled flag) as the start
      time of the first match, and its team name as its settled flag. */
  function TwoMatchChain(): Chain
  {
    (c: Call) =>
      match c.getter
      case StartTime => Success(Num(0))
      case IsSettled => Success(Flag(false))
      case HomeTeam => Success(Text("TeamA"))
      case AwayTeam => Success(Text("TeamB"))
      case _ => Failure
  }

  /** As written, with two matches the first row's settled flag is the first
      match's home team name, which is truthy: a match that is not settled
      reads as settled and is listed under history. */
  lemma BasicLayoutMismatch()
    ensures var addresses := ["0xa", "0xb"];
      var chain := TwoMatchChain();
      var rows := RowsAsWritten(addresses, Multicall(chain, AddressMajor(addresses, BasicGetters)));
      !RowFromChain("0xa", chain).isSettled
      && rows[0].isSettled
      && rows[0] != RowFromChain("0xa", chain)
      && InStatus(History, false, rows[0].isSettled)
  {
    var addresses := ["0xa", "0xb"];
    var chain := TwoMatchChain();
    var basic := Multicall(chain, AddressMajor(addresses, BasicGetters));
    AddressMajorAt(addresses, BasicGetters, 0, 2);
    assert 0 * |BasicGetters| + 2 == 2 == 1 * |addresses| + 0;
    assert basic[2] == Success(Text("TeamA"));
  }

  // ---------- filter, sort, page ----------

  /** matchesSearch: a query of fewer than two characters keeps every row;
      otherwise either lowercased team name must contain it. */
  predicate MatchesSearch(search: string, r: Row)
  {
    |search| >= 2 ==> Contains(Lower(r.homeTeam), search) || Contains(Lower(r.awayTeam), search)
  }

  /** include: inStatus && matchesSearch. */
  predicate Keep(p: Params, nowMs: int, r: Row)
  {
    InStatus(p.status, HasStarted(nowMs, r.startTime), r.isSettled) && MatchesSearch(p.search, r)
  }

  /** basicRows after .filter((r) => r.include). */
  function Kept(p: Params, nowMs: int, rows: seq<Row>): (kept: seq<Row>)
    ensures |kept| <= |rows|
    ensures forall r :: multiset(kept)[r] == if Keep(p, nowMs, r) then multiset(rows)[r] else 0
  {
    Filter(rows, r => Keep(p, nowMs, r))
  }

  function StartKey(r: Row): int
  {
    r.startTime
  }

  /** A row is kept for exactly one of the three statuses when the search
      matches it, and for none otherwise. */
  lemma KeepPartition(p: Params, nowMs: int, r: Row)
    ensures Keep(p, nowMs, r) <==>
      p.status == Classify(HasStarted(nowMs, r.startTime), r.isSettled) && MatchesSearch(p.search, r)
  {
  }

  /** A search of fewer than two characters after trimming filters nothing. */
  lemma ShortSearchKeepsAll(p: Params, r: Row)
    requires |p.search| < 2
    ensures MatchesSearch(p.search, r)
  {
  }

  /** basicRows.slice(start, end), start = (page - 1) * pageSize and
      end = min(total, start + pageSize). A NaN page or size makes both
      bounds NaN, and slice(NaN, NaN) is empty. */
  function PageRows(rows: seq<Row>, page: Option<int>, size: Option<int>): (r: seq<Row>)
    requires page.Some? ==> page.value >= 1
    requires size.Some? ==> size.value >= 1
    ensures page.None? || size.None? ==> r == []
    ensures page.Some? && size.Some? ==> r == Page(rows, page.value, size.value)
    ensures page.Some? && size.Some? && (page.value - 1) * size.value >= |rows| ==> r == []
  {
    if page.None? || size.None? then []
    else
      var start := (page.value - 1) * size.value;
      var end := Min(|rows|, start + size.value);
      assert page.value * size.value == start + size.value;
      JsSlice(rows, start, end)
  }

  // ---------- page items ----------

  /** The item of one page row from its eight detail entries pick(0..7); the
      teams, the start time and the settled flag come from the row. */
  function ItemOf(row: Row, org: CallResult, stake: CallResult, tHome: CallResult, tAway: CallResult,
                  homePool: CallResult, awayPool: CallResult, homeGoals: CallResult, awayGoals: CallResult): BetItem
  {
    BetItem(
      row.address, row.homeTeam, row.awayTeam,
      NumOr(stake, 0), row.startTime,
      TextOr(org, ZeroAddress),
      NumOr(tHome, 0), NumOr(tAway, 0), NumOr(homePool, 0), NumOr(awayPool, 0),
      NumOr(homeGoals, 0), NumOr(awayGoals, 0),
      row.isSettled)
  }

  function AddressesOf(rows: seq<Row>): (a: seq<Address>)
    ensures |a| == |rows|
    ensures forall k :: 0 <= k < |rows| ==> a[k] == rows[k].address
  {
    seq(|rows|, k requires 0 <= k < |rows| => rows[k].address)
  }

  /** The items as written: pick(g) = details[g * M + idx]. */
  function ItemsAsWritten(rows: seq<Row>, details: seq<CallResult>): (items: seq<BetItem>)
    ensures |items| == |rows|
  {
    var m := |rows|;
    seq(m, idx requires 0 <= idx < m =>
      ItemOf(rows[idx], Safe(details, 0 * m + idx), Safe(details, 1 * m + idx),
             Safe(details, 2 * m + idx), Safe(details, 3 * m + idx),
             Safe(details, 4 * m + idx), Safe(details, 5 * m + idx),
             Safe(details, 6 * m + idx), Safe(details, 7 * m + idx)))
  }

  /** The item of a page row from the row's own eight detail results d. */
  function ItemOfRow(row: Row, d: seq<CallResult>): BetItem
  {
    ItemOf(row, Safe(d, 0), Safe(d, 1), Safe(d, 2), Safe(d, 3), Safe(d, 4), Safe(d, 5), Safe(d, 6), Safe(d, 7))
  }

  /** The items read where the request list put them: pick(g) reads
      details[8 * idx + g]. */
  function Items(rows: seq<Row>, details: seq<CallResult>): (items: seq<BetItem>)
    ensures |items| == |rows|
    ensures forall idx :: 0 <= idx < |rows| ==> items[idx] == ItemOfRow(rows[idx], JsSlice(details, 8 * idx, 8 * idx + 8))
  {
    seq(|rows|, idx requires 0 <= idx < |rows| => ItemOfRow(rows[idx], JsSlice(details, 8 * idx, 8 * idx + 8)))
  }

  /** A row that is the reference row of its address. */
  predicate IsReference(r: Row, chain: Chain)
  {
    r == RowFromChain(r.address, chain)
  }

  /** The eight detail results of one reference row make its reference record. */
  lemma ItemOfRowFromChain(row: Row, chain: Chain)
    requires IsReference(row, chain)
    ensures ItemOfRow(row, Multicall(chain, ForAddress(row.address, DetailGetters))) == ItemFromChain(row.address, chain)
  {
  }

  /** Item idx of a reference row, read at 8 * idx + g, is the reference
      record of its address. */
  lemma ItemAt(rows: seq<Row>, chain: Chain, idx: nat)
    requires idx < |rows| && IsReference(rows[idx], chain)
    ensures var details := Multicall(chain, AddressMajor(AddressesOf(rows), DetailGetters));
      Items(rows, details)[idx] == ItemFromChain(rows[idx].address, chain)
  {
    var addrs := AddressesOf(rows);
    var details := Multicall(chain, AddressMajor(addrs, DetailGetters));
    var d := JsSlice(details, 8 * idx, 8 * idx + 8);
    assert |DetailGetters| == 8;
    AddressMajorRow(addrs, DetailGetters, chain, idx);
    assert d == Multicall(chain, ForAddress(rows[idx].address, DetailGetters));
    ItemOfRowFromChain(rows[idx], chain);
    assert Items(rows, details)[idx] == ItemOfRow(rows[idx], d);
  }

  /** For reference rows, the items read at 8 * idx + g are the reference
      records of the rows' addresses. */
  lemma ItemsRoundTrip(rows: seq<Row>, chain: Chain)
    requires forall k :: 0 <= k < |rows| ==> IsReference(rows[k], chain)
    ensures Items(rows, Multicall(chain, AddressMajor(AddressesOf(rows), DetailGetters)))
            == ItemsFromChain(AddressesOf(rows), chain)
  {
    var items := Items(rows, Multicall(chain, AddressMajor(AddressesOf(rows), DetailGetters)));
    forall idx | 0 <= idx < |rows| ensures items[idx] == ItemFromChain(AddressesOf(rows)[idx], chain) {
      ItemAt(rows, chain, idx);
    }
  }

  /** As written, with two page rows the first item's total home bets is
      read at 2 * 2 + 0 == 4, where the request list put the first match's
      home pool: the first match shows 7 home bets instead of 3. */
  lemma DetailLayoutMismatch()
    ensures var rows := [Row("0xa", 0, false, "", ""), Row("0xb", 0, false, "", "")];
      var chain := DetailChain();
      var items := ItemsAsWritten(rows, Multicall(chain, AddressMajor(AddressesOf(rows), DetailGetters)));
      items[0].totalHomeBets == 7 && ItemFromChain("0xa", chain).totalHomeBets == 3
  {
    var rows := [Row("0xa", 0, false, "", ""), Row("0xb", 0, false, "", "")];
    var chain := DetailChain();
    var addrs := AddressesOf(rows);
    var details := Multicall(chain, AddressMajor(addrs, DetailGetters));
    assert addrs == ["0xa", "0xb"];
    AddressMajorAt(addrs, DetailGetters, 0, 4);
    assert details[4] == Success(Num(7));
  }

  /** The organiser read returns a string, total home bets 3, the home pool
      7 and every other uint 1, so that a misplaced read is visible. */
  function DetailChain(): Chain
  {
    (c: Call) =>
      match c.getter
      case Organiser => Success(Text("0xorg"))
      case TotalHomeBets => Success(Num(3))
      case HomeTeamPool => Success(Num(7))
      case _ => Success(Num(1))
  }

  // ---------- the route ----------

  datatype Response =
    | PageOf(total: nat, page: Option<int>, pageSize: Option<int>, items: seq<BetItem>)
    | ServerError  // 500 'Failed to build page', a chain read threw

  /** The rows after the filter and the sort, from the reference rows. */
  function Selected(p: Params, nowMs: int, addresses: seq<Address>, chain: Chain): seq<Row>
  {
    SortBy(Kept(p, nowMs, RowsFromChain(addresses, chain)), StartKey, p.asc)
  }

  /** What the route answers when every chain read returns: the total of the
      kept matches and the reference records of the requested page of them. */
  function Expected(p: Params, nowMs: int, addresses: seq<Address>, chain: Chain): Response
    requires ValidParams(p)
  {
    if |addresses| == 0 then PageOf(0, p.page, p.pageSize, [])
    else
      var sorted := Selected(p, nowMs, addresses, chain);
      PageOf(|sorted|, p.page, p.pageSize, ItemsFromChain(AddressesOf(PageRows(sorted, p.page, p.pageSize)), chain))
  }

  /** basicRows.sort(...) on a fresh array holding the kept rows. */
  method SortRows(kept: seq<Row>, asc: bool) returns (sorted: seq<Row>)
    ensures sorted == SortBy(kept, StartKey, asc)
  {
    var basicRows := new Row[|kept|](i requires 0 <= i < |kept| => kept[i]);
    assert basicRows[..] == kept;
    SortInPlace(basicRows, StartKey, asc);
    sorted := basicRows[..];
  }

  /** GET /api/bets-page. `reachable` is false when a chain read throws;
      `nowMs` is Date.now(). */
  method Get(q: Query, nowMs: int, reachable: bool, allAddresses: seq<Address>, chain: Chain) returns (r: Response)
    ensures !reachable ==> r == ServerError
    ensures reachable ==> ValidParams(ReadParams(q)) && r == Expected(ReadParams(q), nowMs, allAddresses, chain)
  {
    var p := ReadParams(q);
    ParamBounds(q);
    if !reachable {
      return ServerError;
    }
    if |allAddresses| == 0 {
      return PageOf(0, p.page, p.pageSize, []);
    }
    var basic := Multicall(chain, AddressMajor(allAddresses, BasicGetters));
    RowsRoundTrip(allAddresses, chain);
    var sorted := SortRows(Kept(p, nowMs, Rows(allAddresses, basic)), p.asc);
    var total := |sorted|;
    var pageRows := PageRows(sorted, p.page, p.pageSize);
    if |pageRows| == 0 {
      return PageOf(total, p.page, p.pageSize, []);
    }
    var details := Multicall(chain, AddressMajor(AddressesOf(pageRows), DetailGetters));
    SelectedAreReference(p, nowMs, allAddresses, chain);
    PageRowsAreReference(sorted, p, nowMs, allAddresses, chain);
    ItemsRoundTrip(pageRows, chain);
    var items := Items(pageRows, details);
    return PageOf(total, p.page, p.pageSize, items);
  }

  /** Every row is the reference row of one of the addresses, and one the
      filter keeps. */
  predicate KeptReferences(rows: seq<Row>, p: Params, nowMs: int, addresses: seq<Address>, chain: Chain)
  {
    forall k :: 0 <= k < |rows| ==> IsReference(rows[k], chain) && rows[k].address in addresses && Keep(p, nowMs, rows[k])
  }

  /** The selected rows are kept reference rows of the addresses, in start-time order. */
  lemma SelectedAreReference(p: Params, nowMs: int, addresses: seq<Address>, chain: Chain)
    ensures KeptReferences(Selected(p, nowMs, addresses, chain), p, nowMs, addresses, chain)
    ensures SortedBy(Selected(p, nowMs, addresses, chain), StartKey, p.asc)
  {
    var all := RowsFromChain(addresses, chain);
    var kept := Kept(p, nowMs, all);
    var s := Selected(p, nowMs, addresses, chain);
    forall k | 0 <= k < |s| ensures IsReference(s[k], chain) && s[k].address in addresses && Keep(p, nowMs, s[k]) {
      assert s[k] in multiset(s);
      assert multiset(kept)[s[k]] > 0;
      assert s[k] in all;
      var i :| 0 <= i < |all| && all[i] == s[k];
      assert s[k].address == addresses[i];
    }
  }

  /** The rows of a page are the rows from `start` on, in order. */
  lemma PageRowsAt(rows: seq<Row>, page: Option<int>, size: Option<int>, start: int)
    requires page.Some? && size.Some? && page.value >= 1 && size.value >= 1
    requires start == (page.value - 1) * size.value
    ensures var w := PageRows(rows, page, size);
      start >= 0 && forall k :: 0 <= k < |w| ==> start + k < |rows| && w[k] == rows[start + k]
  {
  }

  /** A page of kept reference rows holds kept reference rows. */
  lemma PageRowsAreReference(rows: seq<Row>, p: Params, nowMs: int, addresses: seq<Address>, chain: Chain)
    requires ValidParams(p) && KeptReferences(rows, p, nowMs, addresses, chain)
    ensures KeptReferences(PageRows(rows, p.page, p.pageSize), p, nowMs, addresses, chain)
  {
    if p.page.Some? && p.pageSize.Some? {
      var w := PageRows(rows, p.page, p.pageSize);
      var start := (p.page.value - 1) * p.pageSize.value;
      PageRowsAt(rows, p.page, p.pageSize, start);
      forall k | 0 <= k < |w| ensures IsReference(w[k], chain) && w[k].address in addresses && Keep(p, nowMs, w[k]) {
        assert w[k] == rows[start + k];
      }
    }
  }

  /** A page of rows sorted by start time is sorted by start time. */
  lemma PageRowsSorted(rows: seq<Row>, p: Params)
    requires ValidParams(p) && SortedBy(rows, StartKey, p.asc)
    ensures SortedBy(PageRows(rows, p.page, p.pageSize), StartKey, p.asc)
  {
    if p.page.Some? && p.pageSize.Some? {
      var w := PageRows(rows, p.page, p.pageSize);
      var start := (p.page.value - 1) * p.pageSize.value;
      PageRowsAt(rows, p.page, p.pageSize, start);
      forall i, j | 0 <= i < j < |w| ensures InOrder(StartKey(w[i]), StartKey(w[j]), p.asc) {
        assert w[i] == rows[start + i] && w[j] == rows[start + j];
      }
    }
  }

  /** The reference records of reference rows carry the rows' own fields. */
  lemma RecordsOfReferenceRows(w: seq<Row>, p: Params, nowMs: int, addresses: seq<Address>, chain: Chain)
    requires KeptReferences(w, p, nowMs, addresses, chain)
    ensures var items := ItemsFromChain(AddressesOf(w), chain);
      forall k :: 0 <= k < |items| ==>
        items[k].address in addresses
        && items[k] == ItemFromChain(items[k].address, chain)
        && Keep(p, nowMs, RowFromChain(items[k].address, chain))
        && items[k].startTime == w[k].startTime
  {
    var items := ItemsFromChain(AddressesOf(w), chain);
    forall k | 0 <= k < |items|
      ensures items[k].address in addresses
      ensures items[k] == ItemFromChain(items[k].address, chain)
      ensures Keep(p, nowMs, RowFromChain(items[k].address, chain))
      ensures items[k].startTime == w[k].startTime
    {
      assert items[k].address == w[k].address;
      assert IsReference(w[k], chain);
    }
  }

  // ---------- what the answer promises ----------

  /** No match at all: total 0 and no item, with the parameters echoed. */
  lemma NoMatches(p: Params, nowMs: int, chain: Chain)
    requires ValidParams(p)
    ensures Expected(p, nowMs, [], chain) == PageOf(0, p.page, p.pageSize, [])
  {
  }

  /** The total counts the matches the status and search filter keep, and
      the answer echoes the clamped parameters. */
  lemma TotalCountsKept(p: Params, nowMs: int, addresses: seq<Address>, chain: Chain)
    requires ValidParams(p) && |addresses| > 0
    ensures var r := Expected(p, nowMs, addresses, chain);
      r.total == |Kept(p, nowMs, RowsFromChain(addresses, chain))|
      && r.total <= |addresses|
      && r.page == p.page && r.pageSize == p.pageSize
  {
  }

  /** The page has at most pageSize items, none for a NaN page or size and
      none when the page starts at or past the total; each item is the
      reference record of a match in the list that the filter keeps. */
  lemma PageItems(p: Params, nowMs: int, addresses: seq<Address>, chain: Chain)
    requires ValidParams(p)
    ensures var r := Expected(p, nowMs, addresses, chain);
      (p.pageSize.Some? ==> |r.items| <= p.pageSize.value)
      && (p.page.None? || p.pageSize.None? ==> r.items == [])
      && (p.page.Some? && p.pageSize.Some? && (p.page.value - 1) * p.pageSize.value >= r.total ==> r.items == [])
      && forall k :: 0 <= k < |r.items| ==>
           r.items[k].address in addresses
           && r.items[k] == ItemFromChain(r.items[k].address, chain)
           && Keep(p, nowMs, RowFromChain(r.items[k].address, chain))
  {
    if |addresses| > 0 {
      var s := Selected(p, nowMs, addresses, chain);
      SelectedAreReference(p, nowMs, addresses, chain);
      PageRowsAreReference(s, p, nowMs, addresses, chain);
      RecordsOfReferenceRows(PageRows(s, p.page, p.pageSize), p, nowMs, addresses, chain);
    }
  }

  /** The page's items are in start-time order: non-decreasing for 'asc',
      non-increasing otherwise. */
  lemma PageOrdered(p: Params, nowMs: int, addresses: seq<Address>, chain: Chain)
    requires ValidParams(p)
    ensures var r := Expected(p, nowMs, addresses, chain);
      forall i, j :: 0 <= i < j < |r.items| ==> InOrder(r.items[i].startTime, r.items[j].startTime, p.asc)
  {
    if |addresses| > 0 {
      var s := Selected(p, nowMs, addresses, chain);
      SelectedAreReference(p, nowMs, addresses, chain);
      PageRowsAreReference(s, p, nowMs, addresses, chain);
      PageRowsSorted(s, p);
      var w := PageRows(s, p.page, p.pageSize);
      RecordsOfReferenceRows(w, p, nowMs, addresses, chain);
      SortedRecords(w, p, nowMs, addresses, chain);
    }
  }

  lemma SortedRecords(w: seq<Row>, p: Params, nowMs: int, addresses: seq<Address>, chain: Chain)
    requires KeptReferences(w, p, nowMs, addresses, chain) && SortedBy(w, StartKey, p.asc)
    ensures var items := ItemsFromChain(AddressesOf(w), chain);
      forall i, j :: 0 <= i < j < |items| ==> InOrder(items[i].startTime, items[j].startTime, p.asc)
  {
    RecordsOfReferenceRows(w, p, nowMs, addresses, chain);
  }
}
