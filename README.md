# dGameBet read layer, client logic and escrow reference model in Dafny

dGameBet is a football betting dApp. Each match is a `FootballGameBet`
escrow on the chain, created through a `GameBet` registry that also records
organisers and their ratings. A Next.js front end reads matches through API
routes that batch contract reads into one multicall, and React components
decide what a user may do with a match.

This project models three parts of that system and proves properties of each.

- **The read routes.** These are `bets-page`, `bet-details-batch`,
  `bet-basic-batch`, `bet-details` and `organiser-rating`. The model covers:
  - how each route lays out its multicall requests (address-major or
    group-major);
  - how it cuts the results back into per-match records, with the per-field
    fallbacks;
  - the status / search / sort / page pipeline of the page route.

  The chain is an oracle `Chain = Call -> CallResult`. A multicall maps it
  over the request list (`Common.Multicall`). The reference record of a
  match (`Reads.ItemFromChain`) reads every field from its own getter. The
  batch routes and the single-match route are proved to return the
  reference records. The page route reads both of its result lists at the
  wrong positions (see "## Findings"). `BetsPageRoute.Get` is therefore the
  route with both reads corrected, and it is proved to return the reference
  records. The reads as written are `BetsPageRoute.RowsAsWritten` and
  `BetsPageRoute.ItemsAsWritten`.
- **The client decision logic.** This covers the shared status rules
  (`MatchView`), the match list and the older bet list, and both rating
  forms. It also covers the vote diagnostic, the bet and market buttons,
  the settle dialog, the create form and the organiser badge. Pure logic is
  written as functions. State that a component changes by setters or refs
  is a class whose methods are the component's effects and handlers.
- **The escrow and the registry as their tests assert them.**
  - `FootballGameBet.Match` holds the bet map (0 none, 1 home, 2 away), the
    per-side counters and pools, and the settled flag.
  - `GameBet.Registry` holds the match list, the organisers, the ratings and
    the votes.
  - The contracts' Solidity source is not part of this model. The model
    encodes what the Hardhat tests and the front end's reads rely on, and
    no more.

Whatever the repository leaves as I/O becomes a parameter:
- `nowMs`, the value of `Date.now()`;
- `reachable`, whether a multicall or a chain read throws;
- the result of a read, a fetch or a contract write;
- `stakeWei`, the result of `parseEther`.

## Model

| member | source | states |
|---|---|---|
| Common.Multicall | src/app/api/bet-details-batch/route.ts:95-98 | one result per request, in request order, each the chain's answer to that request |
| Common.JsSlice | src/app/api/bet-details-batch/route.ts:100-105 | `slice(lo, hi)` clamps both bounds to the length; it is `s[lo..hi]` when both are in range, and entry k is `s[lo + k]` |
| Common.Lower | src/components/MatchesList.tsx:205-206 | `toLowerCase` restricted to ASCII: the length is kept, each letter A-Z is lowered in place and every other character is kept (non-ASCII letters are under Left out) |
| Common.TrimStart | src/app/api/bets-page/route.ts:21 | the result is a suffix of the input, does not start with JS white space, and only white space was removed |
| Common.TrimEnd | src/app/api/bets-page/route.ts:21 | the result is a prefix of the input, does not end with JS white space, and only white space was removed |
| Common.DigitPrefix | src/app/api/bets-page/route.ts:23 | the longest prefix of decimal digits: all digits, and the next character is not a digit |
| Common.ParseSingleDigit | src/app/api/bets-page/route.ts:23 | `parseInt` of one digit is that digit's value |
| Common.ParseEmptyIsNaN | src/components/RateOrganizerSection.tsx:81-85 | `parseInt('')` is NaN |
| Common.EmptyQueryOccurs | src/app/api/bets-page/route.ts:87-91 | every string includes the empty query |
| Common.LowerIdempotent | src/components/CanVoteDebug.tsx:81 | lowering an address twice is lowering it once |
| Common.SameAddress | src/components/MatchesList.tsx:205-206 | equality after lowering both sides; MatchesList.OrganiserCaseInsensitive and CanVoteDebug.CaseInsensitive show that letter case changes no outcome |
| Common.Trim | src/app/api/bets-page/route.ts:21 | `trim()`: never longer than the input, with no JS white space at either end |
| Common.Contains | src/app/api/bets-page/route.ts:87-91 | `includes`: the query occurs at some position; Common.EmptyQueryOccurs shows that the empty query occurs in every string |
| Common.ParseInt | src/app/api/bets-page/route.ts:23 | `parseInt(s, 10)`: skips leading white space, reads an optional sign and the longest digit run, and gives NaN (None) when there is no digit; Common.ParseSingleDigit, Common.ParseEmptyIsNaN and BetsPageRoute.ParseTen fix its values on a digit, '' and '10' |
| Common.BoolOr | src/app/api/bet-details-batch/route.ts:126-155 | `Boolean(result ?? fallback)`: the fallback for a failed read, otherwise the value's JS truthiness; Reads.FailedReadsFallBack and Reads.SuccessfulReadsPassThrough cover both cases |
| Common.NumOr | src/app/api/bet-details-batch/route.ts:126-155 | `result ?? fallback` at a uint field: the value of a numeric result, otherwise the fallback; same lemmas |
| Common.TextOr | src/app/api/bet-details-batch/route.ts:126-155 | `result ?? fallback` at a string field: the value of a text result, otherwise the fallback; same lemmas |
| Seqs.Filter | src/app/api/bets-page/route.ts:102 | `filter` keeps exactly the elements satisfying p, as often as they occur |
| Seqs.FilterAppend | src/app/api/bets-page/route.ts:102 | filtering a concatenation gives the filtered parts in order, so the kept elements keep their input order |
| Seqs.Insert | src/app/api/bets-page/route.ts:105-107 | inserting adds exactly one occurrence of x |
| Seqs.InsertSorted | src/app/api/bets-page/route.ts:105-107 | inserting into a sorted sequence keeps it sorted |
| Seqs.SortBy | src/app/api/bets-page/route.ts:105-107 | the sort yields a permutation of its input, ordered by the key ascending or descending; Seqs.SortByStable shows it is stable |
| Seqs.SortByStable | src/app/api/bets-page/route.ts:105-107 | `Array.prototype.sort` is stable: for every key, the elements with that key come out in their input order, so matches with equal start times keep their `getBets` order |
| Seqs.SortInPlace | src/app/api/bets-page/route.ts:105-107 | the array's new contents are the sorted permutation of its old contents |
| Seqs.Page | src/components/MatchesList.tsx:130-133 | a page holds at most `size` entries and is the slice from `(page - 1) * size` to `min(page * size, length)` |
| Seqs.PagesArePrefix | src/components/MatchesList.tsx:130-133 | pages 1..k laid end to end are the first `min(k * size, length)` entries |
| Layout.ForAddress | src/app/api/bet-details/route.ts:16-80 | one call per getter on the address, in getter order |
| Layout.AddressMajorAt | src/app/api/bets-page/route.ts:44-65 | the `flatMap` layout puts call g of address i at `i * G + g` |
| Layout.AddressMajorLength | src/app/api/bets-page/route.ts:44-65 | the `flatMap` layout has N * G requests |
| Layout.GroupMajorAt | src/app/api/bet-details-batch/route.ts:20-93 | the spread layout puts call g of address i at `g * N + i` |
| Layout.GroupMajorLength | src/app/api/bet-details-batch/route.ts:20-93 | the spread layout has G * N requests |
| Layout.AddressMajor | src/app/api/bets-page/route.ts:44-65 | the `flatMap` request list; Layout.AddressMajorAt and Layout.AddressMajorLength give its length N * G and call (i, g) at `i * G + g` |
| Layout.GroupMajor | src/app/api/bet-details-batch/route.ts:20-93 | the spread request list; Layout.GroupMajorAt and Layout.GroupMajorLength give its length G * N and call (i, g) at `g * N + i` |
| Layout.AddressMajorRow | src/app/api/bets-page/route.ts:119-156 | the width-G window at `i * G` of the address-major results is the multicall of address i alone |
| Layout.AddressMajorReadGroupMajor | src/app/api/bets-page/route.ts:72 | reading the address-major list at `g * N + i` finds call (i, g) for every i and g if and only if N = 1 |
| Layout.WindowsCover | src/app/api/bet-details-batch/route.ts:107-118 | consecutive width-n windows are disjoint and together are the first k * n results |
| Layout.WindowAt | src/app/api/bet-details-batch/route.ts:100-105 | entry i of window k is `res[k * n + i]` |
| Layout.Safe | src/app/api/bet-details-batch/route.ts:120-124 | `safe` succeeds exactly when the entry exists and succeeded, and then it is that entry |
| Layout.MulticallGroupMajor | src/app/api/bet-details-batch/route.ts:95-98 | window g of the group-major results is getter g's result for every address, in address order |
| Layout.SliceIsGroup | src/app/api/bet-details-batch/route.ts:100-105 | the slice at read position `g * n` is the group of getter g |
| Reads.ItemsFromChain | src/app/api/bet-details-batch/route.ts:126-155 | one reference record per address, in order, each that address's own |
| Reads.BasicItemsFromChain | src/app/api/bet-basic-batch/route.ts:72-93 | one reference basic record per address, in order |
| Reads.ItemFromChain | src/app/api/bet-details/route.ts:97-125 | the reference record: every field from its own getter, with its fallback; Reads.FailedReadsFallBack and Reads.SuccessfulReadsPassThrough cover failure and success |
| Reads.BasicFromChain | src/app/api/bet-basic-batch/route.ts:72-93 | the reference basic record; Reads.BasicIsProjection shows it is the detail record restricted to six fields |
| Reads.FailedReadsFallBack | src/app/api/bet-details-batch/route.ts:127-153 | when every read fails the record carries '' for teams, 0 for numbers, the zero address for the organiser and false for settled |
| Reads.SuccessfulReadsPassThrough | src/app/api/bet-details/route.ts:97-125 | a successful read of the right type is the field's value |
| Reads.BasicIsProjection | src/app/api/bet-basic-batch/route.ts:72-93 | the basic record equals the detail record restricted to its six fields |
| MatchView.ParseStatus | src/app/api/bets-page/route.ts:20 | 'upcoming' and 'started' select their own status; any other string selects history |
| MatchView.Classify | src/app/api/bets-page/route.ts:79-85 | each match belongs to exactly one of the three statuses |
| MatchView.OutcomeOf | src/components/MatchesList.tsx:193-203 | home win iff home goals exceed away goals, away win iff fewer, draw iff equal |
| MatchView.StatusTextCases | src/components/MatchesList.tsx:193-203 | each of the five status lines is shown exactly in its own case |
| MatchView.HasStarted | src/app/api/bets-page/route.ts:79-85 | `now >= startTime * 1000`, with now in milliseconds; CanVoteDebug.StartedTests ties it to the diagnostic's seconds test |
| MatchView.StatusText | src/components/MatchesList.tsx:193-203 | the card's status line; MatchView.StatusTextCases shows each of the five lines exactly in its own case |
| BetDetailsRoute.Get | src/app/api/bet-details/route.ts:12-149 | a missing address is a 400 and a throwing multicall a 500; otherwise the record is the reference record of the address, which is echoed |
| BetDetailsBatchRoute.AssembleRoundTrip | src/app/api/bet-details-batch/route.ts:126-155 | items assembled from the twelve groups are the reference records |
| BetDetailsBatchRoute.Get | src/app/api/bet-details-batch/route.ts:16-161 | no address gives []; a throwing multicall gives a 500; otherwise one reference record per address, in input order |
| BetDetailsBatchRoute.Decode | src/app/api/bet-details-batch/route.ts:100-155 | the twelve cursor slices and the item map give the reference records |
| BetDetailsBatchRoute.AssembleItems | src/app/api/bet-details-batch/route.ts:126-155 | the item map over the twelve groups, read with `safe`; BetDetailsBatchRoute.AssembleRoundTrip shows that it gives the reference records when each group holds its own getter's results |
| BetBasicBatchRoute.AssembleRoundTrip | src/app/api/bet-basic-batch/route.ts:72-93 | items assembled from the five groups are the reference basic records |
| BetBasicBatchRoute.Get | src/app/api/bet-basic-batch/route.ts:15-99 | no address gives the wrapped `{items: []}`; a throwing multicall gives a 500; otherwise a bare array of reference basic records |
| BetBasicBatchRoute.Decode | src/app/api/bet-basic-batch/route.ts:59-93 | the five `slice(count)` calls and the item map give the reference basic records |
| BetBasicBatchRoute.AssembleBasic | src/app/api/bet-basic-batch/route.ts:72-93 | the item map over the five groups; BetBasicBatchRoute.AssembleRoundTrip shows that it gives the reference basic records |
| BetsPageRoute.ClampPage | src/app/api/bets-page/route.ts:23 | an integer page is at least 1 and passes through when already at least 1; NaN stays NaN |
| BetsPageRoute.ClampPageSize | src/app/api/bets-page/route.ts:24-27 | an integer page size lies in [1, 50] and passes through when already there; NaN stays NaN |
| BetsPageRoute.SortParam | src/app/api/bets-page/route.ts:22 | ascending exactly when sort is 'asc' or absent |
| BetsPageRoute.ParamBounds | src/app/api/bets-page/route.ts:20-27 | for every query, an integer page is at least 1 and an integer page size lies in [1, 50] |
| BetsPageRoute.ParamDefaults | src/app/api/bets-page/route.ts:20-27 | with no parameter: history, empty search, ascending, page 1, size 10 |
| BetsPageRoute.PageParam | src/app/api/bets-page/route.ts:23 | `Math.max(1, parseInt(page ?? '1', 10))`; BetsPageRoute.ParamBounds: at least 1 when a number; BetsPageRoute.DefaultPage: 1 when absent |
| BetsPageRoute.PageSizeParam | src/app/api/bets-page/route.ts:24-27 | `Math.min(50, Math.max(1, parseInt(pageSize ?? '10', 10)))`; BetsPageRoute.ParamBounds: in [1, 50] when a number; BetsPageRoute.DefaultPageSize: 10 when absent |
| BetsPageRoute.ReadParams | src/app/api/bets-page/route.ts:20-27 | the five parameters with their defaults, and the search trimmed and lowercased; BetsPageRoute.ParamBounds and BetsPageRoute.ParamDefaults |
| BetsPageRoute.RowsFromChain | src/app/api/bets-page/route.ts:74-77 | one reference row per address, in order |
| BetsPageRoute.FailedBasicReads | src/app/api/bets-page/route.ts:74-77 | failed basic reads give start time 0, not settled and empty team names |
| BetsPageRoute.RowFromChain | src/app/api/bets-page/route.ts:74-77 | the reference row of a match; BetsPageRoute.FailedBasicReads gives its fallbacks |
| BetsPageRoute.RowsAsWritten | src/app/api/bets-page/route.ts:72-77 | the rows as written, read at `g * N + i`; BetsPageRoute.BasicLayoutMismatch shows a wrong row with two matches |
| BetsPageRoute.Rows | src/app/api/bets-page/route.ts:44-77 | the rows read at `4 * i + g`, where the request list put them; BetsPageRoute.RowsRoundTrip shows they are the reference rows |
| BetsPageRoute.RowsRoundTrip | src/app/api/bets-page/route.ts:44-77 | read at `4 * i + g`, the request list's own layout, the results give each match its reference row |
| BetsPageRoute.BasicLayoutMismatch | src/app/api/bets-page/route.ts:72 | as written, with two matches the first row's settled flag is the first match's home team name, so an unsettled match is listed under history |
| BetsPageRoute.Kept | src/app/api/bets-page/route.ts:99-102 | exactly the rows the status and search keep, as often as they occur |
| BetsPageRoute.KeepPartition | src/app/api/bets-page/route.ts:79-91 | a row is kept iff the status asked for is its own status and the search matches it |
| BetsPageRoute.ShortSearchKeepsAll | src/app/api/bets-page/route.ts:87-91 | a trimmed query shorter than two characters filters nothing |
| BetsPageRoute.MatchesSearch | src/app/api/bets-page/route.ts:87-91 | a query shorter than two characters matches every row; otherwise a lowercased team name must include it; BetsPageRoute.ShortSearchKeepsAll |
| BetsPageRoute.Keep | src/app/api/bets-page/route.ts:99-102 | `inStatus && matchesSearch`; BetsPageRoute.KeepPartition: kept iff the status asked for is the row's own one and the search matches |
| BetsPageRoute.Selected | src/app/api/bets-page/route.ts:99-107 | the kept reference rows, sorted; BetsPageRoute.SelectedAreReference |
| BetsPageRoute.PageRows | src/app/api/bets-page/route.ts:109-112 | the page is the slice from `(page - 1) * size` of at most size rows; it is empty for a NaN bound or a start at or past the total |
| BetsPageRoute.ItemsRoundTrip | src/app/api/bets-page/route.ts:119-191 | read at `8 * idx + g`, the detail results give each page row its reference record |
| BetsPageRoute.DetailLayoutMismatch | src/app/api/bets-page/route.ts:165 | as written, with two page rows the first item's total home bets holds the first match's home pool |
| BetsPageRoute.ItemsAsWritten | src/app/api/bets-page/route.ts:165-191 | the items as written, read at `g * M + idx`; BetsPageRoute.DetailLayoutMismatch shows a wrong field with two page rows |
| BetsPageRoute.Items | src/app/api/bets-page/route.ts:119-191 | item idx is built from the row's own window of eight results at `8 * idx`; BetsPageRoute.ItemsRoundTrip shows these are the reference records |
| BetsPageRoute.Expected | src/app/api/bets-page/route.ts:31-195 | the reference answer: the number of kept matches and the reference records of the requested page; BetsPageRoute.Get equals it, and BetsPageRoute.NoMatches, TotalCountsKept, PageItems and PageOrdered give its properties |
| BetsPageRoute.SortRows | src/app/api/bets-page/route.ts:105-107 | sorting the fresh array gives the stable sort of the kept rows |
| BetsPageRoute.Get | src/app/api/bets-page/route.ts:18-199 | a throwing read is a 500; otherwise the answer is the expected page of reference records for the clamped parameters |
| BetsPageRoute.SelectedAreReference | src/app/api/bets-page/route.ts:99-107 | the sorted rows are kept reference rows of the listed addresses, in start-time order |
| BetsPageRoute.PageRowsAreReference | src/app/api/bets-page/route.ts:109-112 | a page of kept reference rows holds kept reference rows |
| BetsPageRoute.PageRowsSorted | src/app/api/bets-page/route.ts:109-112 | a page of sorted rows is sorted |
| BetsPageRoute.NoMatches | src/app/api/bets-page/route.ts:37-39 | an empty address list answers total 0 and no items |
| BetsPageRoute.TotalCountsKept | src/app/api/bets-page/route.ts:109 | total is the number of kept matches, at most the number of addresses; page and size are echoed |
| BetsPageRoute.PageItems | src/app/api/bets-page/route.ts:109-116 | at most pageSize items; none for a NaN bound or a start at or past total; each is a kept match's reference record |
| BetsPageRoute.PageOrdered | src/app/api/bets-page/route.ts:105-107 | the items are in start-time order, non-decreasing for 'asc' and non-increasing otherwise |
| MatchesList.StatusFiltered | src/components/MatchesList.tsx:102-107 | exactly the matches of the status, as often as they occur |
| MatchesList.Searched | src/components/MatchesList.tsx:109-118 | with a trimmed query of two characters or more, exactly the matches whose lowercased team names include the lowercased query; otherwise all |
| MatchesList.FilteredSpec | src/components/MatchesList.tsx:102-122 | the list is a permutation of the shown matches, ordered by start time |
| MatchesList.StatusesPartition | src/components/MatchesList.tsx:102-107 | the three status filters split the matches: their multisets add up to the whole list |
| MatchesList.ShortSearchShowsStatus | src/components/MatchesList.tsx:109-118 | a trimmed query shorter than two characters filters nothing |
| MatchesList.SearchActive | src/components/MatchesList.tsx:109-118 | the search applies when the trimmed query has at least two characters; MatchesList.ShortSearchShowsStatus |
| MatchesList.TeamMatches | src/components/MatchesList.tsx:109-118 | either lowercased team name includes the query; MatchesList.Searched keeps exactly the matches it accepts |
| MatchesList.Filtered | src/components/MatchesList.tsx:102-122 | the status filter, the search and the sort; MatchesList.FilteredSpec: a permutation of the shown matches, ordered by start time; `asc` is true only for the sort value 'asc', and the component's default `sort` state is 'desc' (src/components/MatchesList.tsx:41) |
| MatchesList.TotalPages | src/components/MatchesList.tsx:128 | the fewest pages of three that hold n matches, and at least one |
| MatchesList.CurrentPage | src/components/MatchesList.tsx:129 | `min(page, totalPages)`: the stored page when it is at most totalPages, the last page otherwise, and always in [1, totalPages] |
| MatchesList.Paged | src/components/MatchesList.tsx:130-133 | at most three matches, the current page's slice, and empty only for an empty list |
| MatchesList.PagesCoverFiltered | src/components/MatchesList.tsx:130-133 | pages 1..totalPages laid end to end are the whole list |
| MatchesList.Prev | src/components/MatchesList.tsx:302-303 | Prev never goes below page 1 |
| MatchesList.Next | src/components/MatchesList.tsx:312-313 | Next never goes above the last page |
| MatchesList.PrevDisabled | src/components/MatchesList.tsx:302 | Prev is disabled on page 1; MatchesList.PagerStaysInRange shows that when it is enabled, Prev moves back exactly one page |
| MatchesList.NextDisabled | src/components/MatchesList.tsx:312 | Next is disabled on the last page; MatchesList.PagerStaysInRange shows that when it is enabled, Next moves on exactly one page |
| MatchesList.PagerStaysInRange | src/components/MatchesList.tsx:300-315 | from a page in range both buttons stay in range, and an enabled button moves by exactly one |
| MatchesList.PrevFromStoredPage | src/components/MatchesList.tsx:302-303 | Prev steps from the stored page: with 4 matches and page 3 stored, an enabled Prev leaves page 2 shown |
| MatchesList.CardGating | src/components/MatchesList.tsx:254-290 | the settle dialog only for the organiser on a started, unsettled match; the bet forms only for others before the start; rating only once settled |
| MatchesList.OrganiserCaseInsensitive | src/components/MatchesList.tsx:205-206 | lowering the case of the user or the organiser changes no card |
| MatchesList.CardOf | src/components/MatchesList.tsx:193-290 | the card of one match; MatchesList.CardGating and MatchesList.OrganiserCaseInsensitive |
| MatchesList.ListingOf | src/components/MatchesList.tsx:128-133 | the current page's cards and the pager; MatchesList.ListingCards |
| MatchesList.Render | src/components/MatchesList.tsx:140-189 | the skeleton or the listing; MatchesList.RenderSpec |
| MatchesList.FilteredShown | src/components/MatchesList.tsx:102-122 | every entry of the list is a shown match of the input |
| MatchesList.ListingCards | src/components/MatchesList.tsx:128-133 | card k of a page is the card of entry `(cp - 1) * 3 + k` |
| MatchesList.ListingShown | src/components/MatchesList.tsx:130-133 | a page of shown matches holds cards of shown matches |
| MatchesList.RenderSpec | src/components/MatchesList.tsx:140-189 | skeleton iff loading an empty list; otherwise at most three cards of shown matches, none exactly when no match is shown |
| BetList.LoadDetails | src/components/BetList.tsx:47-56 | the load succeeds iff every detail answer is a record, and then it holds each address's reference record, in order |
| BetList.AfterLoad | src/components/BetList.tsx:40-60 | no address list, or a failed load, leaves `bets` as it was |
| BetList.LoadedAreReference | src/components/BetList.tsx:47-56 | a successful load stores the reference records |
| BetList.CardAgreesWithMatchesList | src/components/BetList.tsx:104-127 | the corrected card's status text, organiser note and bet form match the match list's card |
| BetList.OrganiserTestInverted | src/components/BetList.tsx:117-127 | as written, the organiser note goes to exactly the non-organisers and the bet form only to the organiser |
| BetList.CardAsWritten | src/components/BetList.tsx:104-127 | the card as written, with the organiser test inverted; BetList.OrganiserTestInverted |
| BetList.Card | src/components/BetList.tsx:104-127 | the card with the match list's organiser test; BetList.CardAgreesWithMatchesList |
| BetList.Render | src/components/BetList.tsx:65-77 | skeleton iff loading or no bets yet; 'No active bets found.' iff loaded and empty; otherwise one corrected card per bet (as written each card is BetList.CardAsWritten, see Left out) |
| RateOrganiser.CanVote | src/components/RateOrganiser.tsx:82-83 | undefined iff loading or fetching; afterwards true iff the read returned true |
| RateOrganiser.Rank | src/components/RateOrganiser.tsx:85-107 | each reason has a position among the seven checks |
| RateOrganiser.WhyNotFirstFailing | src/components/RateOrganiser.tsx:85-107 | whyNot names the first failing check, and is null iff all seven pass |
| RateOrganiser.NoReasonMeansEligible | src/components/RateOrganiser.tsx:85-107 | no reason means a connected account with a bet on a started match, and canVote true |
| RateOrganiser.WhyNot | src/components/RateOrganiser.tsx:85-107 | the reason of the first failing check, or null; RateOrganiser.WhyNotFirstFailing and RateOrganiser.NoReasonMeansEligible |
| RateOrganiser.RenderBranches | src/components/RateOrganiser.tsx:109-157 | exactly one of checking, reason or form; the form iff eligible; a reason shown is the chain's own; the controls are disabled iff busy |
| RateOrganiser.Render | src/components/RateOrganiser.tsx:109-157 | checking, the reason or the form; RateOrganiser.RenderBranches |
| RateOrganiser.SubmitLabel | src/components/RateOrganiser.tsx:157 | the label is 'Submitting…' exactly while busy, and 'Submit' otherwise |
| RateOrganiser.Submit | src/components/RateOrganiser.tsx:126-134 | a vote is written iff the rating lies in 0..5, with the organiser and rating unchanged |
| RateOrganiser.SelectableAreSubmitted | src/components/RateOrganiser.tsx:140 | every button's rating is submitted, and a vote is only ever a button's rating |
| CanVoteDebug.DebugChain | src/components/CanVoteDebug.tsx:79-98 | no address runs nothing; a true canVote wins; a false one names the first condition that holds, or 'unexpected' iff none does |
| CanVoteDebug.StartedTests | src/components/CanVoteDebug.tsx:66-85 | the logged started test is the alert test's negation and agrees with `now >= startTime * 1000` |
| CanVoteDebug.CaseInsensitive | src/components/CanVoteDebug.tsx:81-87 | lowering every address changes no outcome |
| CanVoteDebug.Conditions | src/components/CanVoteDebug.tsx:79-95 | the six conditions of the alert chain, in their order; CanVoteDebug.DebugChain |
| CanVoteDebug.RunDebug | src/components/CanVoteDebug.tsx:11-102 | `runDebug`'s outcome; CanVoteDebug.DebugChain, StartedTests and CaseInsensitive, and GameBet.CanVoteAgreesWithDebug |
| RateOrganizerSection.ViewPrecedence | src/components/RateOrganizerSection.tsx:100-141 | nothing without an account, then checking, thanks, ineligible, form; the form is disabled iff busy |
| RateOrganizerSection.ViewOf | src/components/RateOrganizerSection.tsx:100-150 | the five views in their order; RateOrganizerSection.ViewPrecedence |
| RateOrganizerSection.RateToSubmit | src/components/RateOrganizerSection.tsx:81-85 | a vote is written iff the parsed rate is a number in 0..5, and it is that number |
| RateOrganizerSection.RateExamples | src/components/RateOrganizerSection.tsx:25 | the default '5' is submitted as 5; an empty field is not submitted |
| RateOrganizerSection.Section.Check | src/components/RateOrganizerSection.tsx:43-70 | no account resets canVote; a read sets canVote and a reason iff false; a failed read sets false and the read-failure reason |
| RateOrganizerSection.Section.Mined | src/components/RateOrganizerSection.tsx:73-78 | once mined canVote is false and the reason is cleared |
| RateOrganizerSection.Section.SubmitVote | src/components/RateOrganizerSection.tsx:80-97 | the vote written is the parsed rate when it lies in 0..5, and nothing otherwise |
| RateOrganizerSection.MinedShowsThanks | src/components/RateOrganizerSection.tsx:108-114 | after any check and a mined vote a connected account sees the thanks |
| PlaceBetForm.CallFor | src/components/PlaceBetForm.tsx:97-105 | 'home' writes betOnHomeTeam and 'away' betOnAwayTeam, each paying the stake |
| PlaceBetForm.ButtonsOnlyWhenOpen | src/components/PlaceBetForm.tsx:90-152 | buttons iff known not to have bet and not closed; then disabled iff busy; at most one side reads 'Placing…' |
| PlaceBetForm.Disabled | src/components/PlaceBetForm.tsx:90-95 | the buttons' disabled flag; PlaceBetForm.ButtonsOnlyWhenOpen: set on every view without buttons, and on the buttons iff pending or mining |
| PlaceBetForm.ViewOf | src/components/PlaceBetForm.tsx:113-154 | checking, placed, closed or the buttons; PlaceBetForm.ButtonsOnlyWhenOpen |
| PlaceBetForm.Form.UserBetRead | src/components/PlaceBetForm.tsx:36-52 | without an account nothing changes; otherwise hasBet is true iff the read succeeded with a non-zero bet |
| PlaceBetForm.Form.Mined | src/components/PlaceBetForm.tsx:54-60 | once mined, pendingTeam is cleared and hasBet is true |
| PlaceBetForm.Form.PlaceBet | src/components/PlaceBetForm.tsx:97-111 | the write is the side's call; pendingTeam is that side, or cleared when the write failed |
| PlaceBetForm.Form.Tick | src/components/PlaceBetForm.tsx:62-70 | closed once the start has passed, and never reopened |
| PlaceBetForm.Form.TimerFired | src/components/PlaceBetForm.tsx:72-76 | the start timer closes betting |
| PlaceBetForm.Form.BetClosed | src/components/PlaceBetForm.tsx:78-82 | a closed event for the same match, compared case-insensitively, closes betting; others change nothing |
| PlaceBetForm.MinedShowsPlaced | src/components/PlaceBetForm.tsx:119-123 | once a placement is mined the form shows that a bet was placed |
| MarketsSection.Id | src/components/MarketsSection.tsx:47-116 | every market reads one index below 3 |
| MarketsSection.IdInjective | src/components/MarketsSection.tsx:47-116 | distinct markets read distinct indexes |
| MarketsSection.CallFor | src/components/MarketsSection.tsx:196-211 | each market's button writes its own function, paying the stake |
| MarketsSection.MarketsIndependent | src/components/MarketsSection.tsx:241-258 | another market's hasBet read or pending tag does not change a market's button |
| MarketsSection.ButtonsView | src/components/MarketsSection.tsx:219-258 | buttons iff connected, loaded, available and open; then each is disabled iff busy, already bet or being placed; a missing count shows 0 |
| MarketsSection.DisabledGlobally | src/components/MarketsSection.tsx:133 | closed, loading or no account; MarketsSection.ButtonsView: never set when the buttons show |
| MarketsSection.MarketDisabled | src/components/MarketsSection.tsx:241-258 | a market's disabled flag; MarketsSection.MarketsIndependent and MarketsSection.ButtonsView |
| MarketsSection.ViewOf | src/components/MarketsSection.tsx:219-309 | the render order and the three button rows; MarketsSection.ButtonsView |
| MarketsSection.Section.Place | src/components/MarketsSection.tsx:196-217 | no markets contract means no write and no change; otherwise the market's write, and the tag set, or cleared on failure |
| MarketsSection.Section.Mined | src/components/MarketsSection.tsx:167-169 | once mined no market is pending |
| SettleGameDialog.ConfirmText | src/components/SettleGameDialog.tsx:100-102 | 'Settling…' iff pending or mining, else 'Confirm and Settle' |
| SettleGameDialog.EnabledHasInputs | src/components/SettleGameDialog.tsx:92-97 | an enabled confirm button means nothing is in flight and both inputs are filled |
| SettleGameDialog.ConfirmDisabled | src/components/SettleGameDialog.tsx:92-97 | the confirm button's disabled flag; SettleGameDialog.EnabledHasInputs |
| SettleGameDialog.Dialog.OnOpenChange | src/components/SettleGameDialog.tsx:38-41 | open/close requests are ignored while mining or pending |
| SettleGameDialog.Dialog.HandleSettle | src/components/SettleGameDialog.tsx:43-55 | gameFinished(hg, ag), in that order, is written iff both inputs parse to integers |
| SettleGameDialog.Dialog.Mined | src/components/SettleGameDialog.tsx:29-36 | once mined the dialog closes and both inputs are cleared |
| SettleGameDialog.MinedResets | src/components/SettleGameDialog.tsx:29-36 | after a mined settlement the dialog is closed and its confirm button disabled |
| CreateBetForm.MessageOf | src/components/CreateBetForm.tsx:37-43 | the message of an error object, its JSON without one, a string as itself, and 'Unknown error' otherwise |
| CreateBetForm.UnixStartTime | src/components/CreateBetForm.tsx:20 | 0 for an empty input, otherwise the floor of the date's milliseconds over 1000 |
| CreateBetForm.CreateDisabled | src/components/CreateBetForm.tsx:121-124 | the create button's disabled flag; CreateBetForm.EnabledPassesGuard |
| CreateBetForm.EnabledPassesGuard | src/components/CreateBetForm.tsx:62-63 | an enabled button passes handleCreate's guard when the date lies after the epoch's first second; an empty start time disables the button and fails the guard |
| CreateBetForm.IsSet | src/components/CreateBetForm.tsx:34-50 | the error is truthy: an empty string is not; CreateBetForm.Form.StatusChanged records only a set error |
| CreateBetForm.Form.HandleCreate | src/components/CreateBetForm.tsx:62-84 | nothing unless both teams and the stake are set and the start is positive; a bad stake sets 'Invalid stake value'; otherwise createFootballBet paying the stake |
| CreateBetForm.Form.StatusChanged | src/components/CreateBetForm.tsx:34-50 | in the error status the first error is recorded once and the latch closes; leaving it clears message and latch |
| CreateBetForm.Form.Mined | src/components/CreateBetForm.tsx:52-60 | once mined the four fields are cleared |
| CreateBetForm.LatchKeepsFirst | src/components/CreateBetForm.tsx:34-50 | a second error keeps the first message, and a later non-error status clears it |
| OrganiserRatingRoute.Average | src/app/api/organiser-rating/route.ts:26-29 | total / count when someone has rated, 0 otherwise, never negative |
| OrganiserRatingRoute.AverageInRange | src/app/api/organiser-rating/route.ts:26-29 | with at most five per vote the average lies in [0, 5] |
| OrganiserRatingRoute.Get | src/app/api/organiser-rating/route.ts:12-41 | a missing organiser is a 400 and a failed read a 500; otherwise the tuple is echoed in order with its average |
| OrganiserRatingView.Summarise | src/components/OrganiserRating.tsx:19-29 | no data gives 0, 0, inactive; otherwise the count and the active flag are the tuple's |
| OrganiserRatingView.Render | src/components/OrganiserRating.tsx:31 | only the placeholder while loading |
| OrganiserRatingView.BadgeLabels | src/components/OrganiserRating.tsx:36-42 | 'vote' iff one vote; the new-organiser mark iff inactive |
| OrganiserRatingView.BadgeAgreesWithRoute | src/components/OrganiserRating.tsx:26-27 | the badge's average is the route's average for the same tuple |
| FootballGameBet.PayeesSpec | test/FootballGameBet.test.ts:56-94 | only bettors and the organiser are paid; a win pays the winners and the organiser and no pure loser; a draw refunds every bettor |
| FootballGameBet.Payees | test/FootballGameBet.test.ts:56-94 | the addresses a settlement pays; FootballGameBet.PayeesSpec |
| FootballGameBet.Match.constructor | test/FootballGameBet.test.ts:15-17 | the deployed match holds its teams, start time, stake and organiser, with no bets, empty pools, not settled, and consistent |
| FootballGameBet.Match.BetOf | test/FootballGameBet.test.ts:29-30 | `bets(a)`: 0 for an address that has not bet; FootballGameBet.BetOfSides bounds its values |
| FootballGameBet.BetOfSides | test/FootballGameBet.test.ts:29-30 | on a consistent match `bets(a)` is 0, 1 or 2, and it is 0 exactly for an address on neither side |
| FootballGameBet.Match.BetOnHomeTeam | test/FootballGameBet.test.ts:23-52 | a wrong value reverts 'Incorrect stake amount.', a second bet 'Bet already placed.'; success records 1 and adds one bettor and one stake |
| FootballGameBet.Match.BetOnAwayTeam | test/FootballGameBet.test.ts:33-52 | the same revert rules; success records 2 and adds one away bettor and one stake |
| FootballGameBet.Match.GameFinished | test/FootballGameBet.test.ts:56-94 | the organiser settles once, with no start-time condition; the goals are recorded and the payees paid |
| FootballGameBet.BetOnHomeRecorded | test/FootballGameBet.test.ts:23-31 | betting home with the stake makes bets(player) 1 |
| FootballGameBet.WrongStakeReverts | test/FootballGameBet.test.ts:33-41 | half the stake reverts with 'Incorrect stake amount.' |
| FootballGameBet.DuplicateBetReverts | test/FootballGameBet.test.ts:43-52 | a second bet on the other side reverts with 'Bet already placed.' |
| FootballGameBet.HomeWinPaysOrganiser | test/FootballGameBet.test.ts:56-74 | a 2-1 home win settles the match and pays the organiser |
| FootballGameBet.DrawRefunds | test/FootballGameBet.test.ts:76-94 | a 1-1 draw settles the match and pays a bettor back |
| FootballGameBet.OneBetPerSide | test/FootballGameBet.test.ts:98-124 | one bet per side gives both counters 1 and both pools one stake |
| GameBet.Lookup | test/GameBet.test.ts:58-65 | a found match is in the list with that address; none found means no match has it |
| GameBet.LookupUnique | test/GameBet.test.ts:58-65 | when no two matches share an address, the lookup finds the one match with that address |
| GameBet.Registry.constructor | test/GameBet.test.ts:9-10 | a deployed registry has no matches, organisers, ratings or votes, and is consistent |
| GameBet.Registry.GetBets | test/GameBet.test.ts:27-28 | the created matches' addresses in creation order |
| GameBet.Registry.CanVote | test/GameBet.test.ts:73-74 | the six conditions of canVote for a caller; GameBet.CanVoteAgreesWithDebug: false iff a diagnostic condition holds; GameBet.ValidUserVotes: true for the bettor after the start |
| GameBet.Registry.CreateFootballBet | test/GameBet.test.ts:16-44 | the new match, at an address no match has yet, is appended with the sender as organiser; a new sender joins the organisers with an active, empty rating |
| GameBet.Registry.GetOrganisers | test/GameBet.test.ts:42-43 | `getOrganisers()`: on a consistent registry each organiser appears once, and the organisers are exactly the addresses with a rating |
| GameBet.Registry.RatingOf | src/app/api/organiser-rating/route.ts:16-24 | `ratings(o)`: on a consistent registry it is active iff o is an organiser, its total is at most 5 per vote, and it is all zero for any other address |
| GameBet.Registry.HasVoted | src/components/CanVoteDebug.tsx:49-54 | `hasVoted(organiser, bet, voter)`: on a consistent registry a recorded vote is for a listed organiser and never by that organiser |
| GameBet.Registry.Vote | test/GameBet.test.ts:73-78 | reverts unless canVote holds and the rate is at most 5; success records the vote, adds it to the rating, and canVote is then false |
| GameBet.CanVoteAgreesWithDebug | src/components/CanVoteDebug.tsx:79-98 | canVote is false iff a diagnostic condition holds; the diagnostic reports success iff canVote, and never 'unexpected' |
| GameBet.RatingsInRange | src/app/api/organiser-rating/route.ts:26-29 | on a consistent registry every organiser's average lies in [0, 5], also as the route reports it |
| GameBet.CreatesOneBet | test/GameBet.test.ts:16-29 | one creation gives exactly one match address |
| GameBet.AddsOrganiser | test/GameBet.test.ts:31-44 | the creator is among the organisers after the first creation |
| GameBet.ValidUserVotes | test/GameBet.test.ts:48-79 | a bettor may vote once 4000 s have passed a 3600 s start offset, and vote(organiser, bet, 5) succeeds; canVote is asked for the voter as caller, while the test's own `canVote` call is sent from the default signer, the organiser |

## Left out

- BetsPageRoute.Get: this is the route with both read-position findings corrected. It reads basic results at `4 * i + g` and detail results at `8 * idx + g`. As written, the route builds its rows with BetsPageRoute.RowsAsWritten and its items with BetsPageRoute.ItemsAsWritten. With two or more matches it then does not return the reference records.
- Common.Lower: lowers only the ASCII letters A-Z. JavaScript's `toLowerCase` also lowers non-ASCII letters: 'MÜNCHEN' matches the query 'mü' in the source but not in the model. It can also change the length: 'İ' becomes two code units. So BetsPageRoute.MatchesSearch and MatchesList.TeamMatches miss such matches.
- MatchesList.SearchActive and BetsPageRoute.MatchesSearch count characters (code points), while JavaScript's `.length` counts UTF-16 code units. A one-emoji query turns the search on in the source and leaves it off in the model.
- CanVoteDebug.RunDebug: the diagnostic reads `ratingInfo.active` as a named field (src/components/CanVoteDebug.tsx:42-47). The rating route and the badge destructure the same `ratings` result as a tuple (src/app/api/organiser-rating/route.ts:24, src/components/OrganiserRating.tsx:21-25). If the read returns a tuple, `.active` is undefined, and every false canVote of a non-organiser reports 'not active'. The model takes `active` as read. The contract's ABI is not part of this model, so which shape is returned stays open.

- RPC, wallet and React plumbing are parameters, not models. This covers `createPublicClient`, `multicall`, `readContract`, `writeContract(Async)`, the wagmi hooks, `fetch` and the React setters. What they return, and whether they throw, is given to the members as inputs or as `reachable`, `read` and `written` flags.
- Library conversions are not modelled. `formatEther` is not modelled: stakes and pools stay in wei, so the bet-details route's '0' pool text is the number 0 here. `parseEther` is the parameter `stakeWei`, with None for a stake it rejects. `new Date(...)` is the parameter `dateMs`, and `toLocaleString` and `toFixed(2)` are not modelled. `parseInt` with radix 10 is modelled, by `Common.ParseInt`.
- SettleGameDialog.Dialog.HandleSettle: `parseInt` without a radix is modelled as radix 10, because a number input holds no '0x' text.
- CreateBetForm.UnixStartTime: the NaN date of an unparsable `datetime-local` value is not modelled, because that input yields a valid value or ''.
- CreateBetForm.Form.HandleCreate: a `writeContract` that throws is the `writeError` parameter, with its message already computed.
- JavaScript numbers are unbounded integers and exact reals. The organiser average is exact `real` division. `Number(bigint)` is the nat itself.
- Reads.ItemFromChain: a successful read of the wrong type reads as the field's fallback. The ABI rules this out at a correctly laid out position. As written, the misplaced reads of the page route would pass such a value through, and the finding lemmas show that with a truthy string where a bool belongs.
- BetsPageRoute.Get: a `pick` past the end of the results would throw in JavaScript. Here it reads as a failed entry. Both layouts issue exactly N * G requests, so it cannot happen for the corrected reads.
- BetList.Render: renders the corrected card, BetList.Card. As written, src/components/BetList.tsx:117 tests `!==`, so each card is BetList.CardAsWritten: the note "You're the organiser!" goes to every non-organiser and to a disconnected user, and the bet form only to the organiser (see "## Findings").
- BetsPageRoute.RowsAsWritten and BetsPageRoute.ItemsAsWritten: a misplaced read of the wrong type becomes the field's fallback. JavaScript would convert it instead. With two matches, row 0's homeTeam is read at index 1, match 1's startTime, and `String(bigint)` gives its digits where the model gives ''. Row 1's startTime is read at index 6, a settled flag, and `Number(true)` is 1 where the model gives 0. The finding lemmas rest on a string read where a bool belongs, which Common.BoolOr converts by JavaScript truthiness as the source does.
- BetList.LoadDetails: a 500 from bet-details has a JSON error body. As written, `res.json()` would succeed and `{error: ...}` would be stored as a bet. The model treats that answer as a failed load, like the 400 whose text body makes `json()` throw.
- Timers, debounce and window events are steps the caller takes. The `setTimeout` of the bet form is `Tick` and `TimerFired`, the bet-closed event is `BetClosed`, and the search debounce of the match list is not modelled. The notify and subscribe functions of src/lib/events.ts are not part of this model. That file exports only `notifyBetsChanged` and `onBetsChanged`. src/components/PlaceBetForm.tsx:11 imports `onBetClosed` and `notifyBetClosed` from it, which it does not define, so the listener that PlaceBetForm.Form.BetClosed models, and the calls at lines 68 and 74, rely on exports the file does not provide.
- In the match list, the refresh effects, `fetchDetails` and the page reset on a filter change are not modelled. They only refetch or call `setPage(1)`. The list takes the loaded bets and the stored page as inputs.
- FootballGameBet.Match.GameFinished: payout amounts, the 5% fee and the organiser's share on a draw are not modelled. The tests assert only strict balance increases, so settlement records the set of addresses it pays.
- FootballGameBet.Match.BetOnHomeTeam: the order of the stake check and the duplicate check is a modelling choice, because no test fixes it. Bets after settlement or after the start are not rejected, because no test asserts either.
- Side-market settlement, the markets contract and reentrancy are not part of this model. The markets section reads its values as inputs.
- GameBet.Registry.Vote: rates above 5 revert. This is a modelling decision: the contract source is absent, and 0..5 is the range both rating forms enforce.
- GameBet.Registry.CanVote: the caller is an explicit parameter, and its conditions are the ones the vote diagnostic checks. test/GameBet.test.ts:73 calls `canVote` from the default signer, who is the organiser, and canVote is false for that caller. GameBet.ValidUserVotes asks it for the voter instead.
- GameBet.Registry.CreateFootballBet: the address of a new match is a parameter chosen by the chain. The chain gives every new contract a fresh address, so the method requires an address no match has yet.
- The user-bet route, AppHeader, CreateBetDialog, the app layout and page wrappers, the wagmi and Hardhat configuration, contracts/contracts.ts and the deploy script are not part of this model. They are presentation, configuration or a thin read wrapper.

## Findings

| source | as written | input that shows it | evidently intended | confidence | as-written member | corrected member |
|---|---|---|---|---|---|---|
| src/app/api/bets-page/route.ts:72 | the basic requests are laid out per address (call g of address i at 4i+g), but `pick` reads index g*N+i | two matches, neither started nor settled: row 0's settled flag is read from index 2, the first match's home team name, which is truthy | read basic results at 4i+g | not executed | BetsPageRoute.BasicLayoutMismatch | BetsPageRoute.RowsRoundTrip |
| src/app/api/bets-page/route.ts:165 | the detail requests are laid out per row (8idx+g), but `pick` reads index g*M+idx | two page rows: item 0's totalHomeBets is read from index 4, the first match's home pool (7 instead of 3) | read detail results at 8idx+g | not executed | BetsPageRoute.DetailLayoutMismatch | BetsPageRoute.ItemsRoundTrip |
| src/components/BetList.tsx:117 | "You're the organiser!" is shown when the lowercased user address differs from the organiser, and the bet form to the organiser | user 0xabc viewing a match of 0xdef before its start: told they are the organiser and offered no bet form | the match list's test: the note for the organiser, the form for everyone else | not executed | BetList.OrganiserTestInverted | BetList.CardAgreesWithMatchesList |

The match list searches for the lowercased query without trimming it, after
testing the length of the trimmed query (src/components/MatchesList.tsx:109-118).
`MatchesList.Searched` keeps that behaviour as written.
