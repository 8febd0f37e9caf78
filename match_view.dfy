/** The status rules every list of matches shares: started, upcoming / started
    / history, the outcome of a settled match and the status line of a card. */
module MatchView {

  datatype Status = Upcoming | Started | History

  /** The `status` string of a query or a page: anything other than
      'upcoming' or 'started' is treated as history. */
  function ParseStatus(s: string): (st: Status)
    ensures st == Upcoming <==> s == "upcoming"
    ensures st == Started <==> s == "started"
  {
    if s == "upcoming" then Upcoming else if s == "started" then Started else History
  }

  /** now >= startTime * 1000, with now in milliseconds and startTime in seconds. */
  predicate HasStarted(nowMs: int, startTime: nat)
  {
    nowMs >= startTime * 1000
  }

  /** The status filter of the list pages and of the page route. */
  predicate InStatus(st: Status, started: bool, settled: bool)
  {
    match st
    case Upcoming => !started && !settled
    case Started => started && !settled
    case History => settled
  }

  /** The one status a match belongs to: the three statuses partition the matches. */
  function Classify(started: bool, settled: bool): (st: Status)
    ensures InStatus(st, started, settled)
    ensures forall other: Status :: InStatus(other, started, settled) ==> other == st
  {
    if settled then History else if started then Started else Upcoming
  }

  datatype Outcome = HomeWon | AwayWon | Draw

  /** The outcome of a settled match from its goals. */
  function OutcomeOf(homeGoals: nat, awayGoals: nat): (o: Outcome)
    ensures o == HomeWon <==> homeGoals > awayGoals
    ensures o == AwayWon <==> homeGoals < awayGoals
    ensures o == Draw <==> homeGoals == awayGoals
  {
    if homeGoals > awayGoals then HomeWon
    else if homeGoals < awayGoals then AwayWon
    else Draw
  }

  const HomeWonText: string := "\U{2705} Game Settled \U{2013} Home team won"
  const AwayWonText: string := "\U{2705} Game Settled \U{2013} Away team won"
  const DrawText: string := "\U{2705} Game Settled \U{2013} Draw"
  const ClosedText: string := "\U{1F534} Betting Closed"
  const OpenText: string := "\U{1F7E2} Betting Open"

  /** The status line of a match card. */
  function StatusText(settled: bool, homeGoals: nat, awayGoals: nat, started: bool): string
  {
    if settled then
      match OutcomeOf(homeGoals, awayGoals)
      case HomeWon => HomeWonText
      case AwayWon => AwayWonText
      case Draw => DrawText
    else if started then ClosedText
    else OpenText
  }

  /** Each of the five lines is shown exactly in its own case. */
  lemma StatusTextCases(settled: bool, h: nat, a: nat, started: bool)
    ensures StatusText(settled, h, a, started) == HomeWonText <==> settled && h > a
    ensures StatusText(settled, h, a, started) == AwayWonText <==> settled && h < a
    ensures StatusText(settled, h, a, started) == DrawText <==> settled && h == a
    ensures StatusText(settled, h, a, started) == ClosedText <==> !settled && started
    ensures StatusText(settled, h, a, started) == OpenText <==> !settled && !started
  {
    assert HomeWonText[17] == 'H' && AwayWonText[17] == 'A' && DrawText[17] == 'D';
    assert |ClosedText| != |OpenText|;
    assert |HomeWonText| != |ClosedText| && |HomeWonText| != |OpenText|;
    assert |AwayWonText| != |ClosedText| && |AwayWonText| != |OpenText|;
    assert |DrawText| != |ClosedText| && |DrawText| != |OpenText|;
  }
}
