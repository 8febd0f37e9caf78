/** The rating form under a settled match: its reads, the tri-state
    eligibility, the ordered explanation of why the user may not vote,
    which of three views it shows and the range check of a vote. */
module RateOrganiser {
  import opened Common
  import opened MatchView

  /** What the component has read. None is a read that has no data (yet). */
  datatype Inputs = Inputs(
    address: Option<Address>,      // the connected account
    loading: bool,                 // canVote read loading
    fetching: bool,                // canVote read fetching
    canVoteData: Option<bool>,
    organiser: Address,            // the prop
    organiserOfBetRaw: Option<Address>,
    startTime: Option<nat>,        // Some when the read is a bigint
    myBetRaw: Option<nat>,
    nowMs: int)

  predicate HasAddress(x: Inputs) { x.address.Some? && x.address.value != "" }

  /** organiserOfBetRaw ?? ''. */
  function OrganiserOfBet(x: Inputs): Address { if x.organiserOfBetRaw.Some? then x.organiserOfBetRaw.value else "" }

  /** Number(myBetRaw ?? 0n): 0 none, 1 home, 2 away. */
  function MyBet(x: Inputs): nat { if x.myBetRaw.Some? then x.myBetRaw.value else 0 }

  /** Not started until a start time has been read. */
  predicate GameStarted(x: Inputs) { x.startTime.Some? && HasStarted(x.nowMs, x.startTime.value) }

  /** undefined while the read loads or fetches, else whether it read true. */
  function CanVote(x: Inputs): (cv: Option<bool>)
    ensures cv.None? <==> x.loading || x.fetching
    ensures cv == Some(true) <==> !x.loading && !x.fetching && x.canVoteData == Some(true)
  {
    if !x.loading && !x.fetching then Some(x.canVoteData == Some(true)) else None
  }

  datatype Reason = NoWallet | Checking | NoOrganiser | OrganiserMismatch | NotStarted | NoBet | AlreadyVoted

  /** The checks of whyNot in their order; entry i is true when check i fails. */
  function Failures(x: Inputs): seq<bool>
  {
    [ !HasAddress(x),
      x.loading || x.fetching,
      OrganiserOfBet(x) == "",
      !SameAddress(x.organiser, OrganiserOfBet(x)),
      !GameStarted(x),
      MyBet(x) == 0,
      CanVote(x) == Some(false) ]
  }

  /** The position of a reason's check in the chain. */
  function Rank(r: Reason): (i: nat)
    ensures i < 7
  {
    match r
    case NoWallet => 0
    case Checking => 1
    case NoOrganiser => 2
    case OrganiserMismatch => 3
    case NotStarted => 4
    case NoBet => 5
    case AlreadyVoted => 6
  }

  /** whyNot: the reason of the first check that fails, or null. */
  function WhyNot(x: Inputs): Option<Reason>
  {
    if !HasAddress(x) then Some(NoWallet)
    else if x.loading || x.fetching then Some(Checking)
    else if OrganiserOfBet(x) == "" then Some(NoOrganiser)
    else if !SameAddress(x.organiser, OrganiserOfBet(x)) then Some(OrganiserMismatch)
    else if !GameStarted(x) then Some(NotStarted)
    else if MyBet(x) == 0 then Some(NoBet)
    else if CanVote(x) == Some(false) then Some(AlreadyVoted)
    else None
  }

  /** whyNot names the first failing check of the chain, and is null exactly
      when every check passes. */
  lemma WhyNotFirstFailing(x: Inputs)
    ensures WhyNot(x).None? <==> forall i :: 0 <= i < 7 ==> !Failures(x)[i]
    ensures WhyNot(x).Some? ==>
              var i := Rank(WhyNot(x).value);
              Failures(x)[i] && forall j :: 0 <= j < i ==> !Failures(x)[j]
  {
    var f := Failures(x);
    assert |f| == 7;
    if WhyNot(x).None? {
      forall i | 0 <= i < 7 ensures !f[i] {
        assert i == 0 || i == 1 || i == 2 || i == 3 || i == 4 || i == 5 || i == 6;
      }
    } else {
      assert f[Rank(WhyNot(x).value)];
    }
  }

  /** With every check passed the read said true: whyNot is null only for
      an eligible user. */
  lemma NoReasonMeansEligible(x: Inputs)
    requires WhyNot(x).None?
    ensures CanVote(x) == Some(true) && HasAddress(x) && MyBet(x) != 0 && GameStarted(x)
  {
  }

  function ReasonText(r: Reason): string
  {
    match r
    case NoWallet => "Connect a wallet to vote."
    case Checking => "Checking eligibility\U{2026}"
    case NoOrganiser => "Could not read organiser for this bet."
    case OrganiserMismatch => "This organiser address doesn\U{2019}t match the bet\U{2019}s organiser."
    case NotStarted => "Voting opens after the game ends."
    case NoBet => "You can only rate if you placed a bet on this match."
    case AlreadyVoted => "You may have already voted for this organiser on this match."
  }

  const FallbackText: string := "You can\U{2019}t rate now."

  // ---------- the view ----------

  datatype View =
    | CheckingEligibility          // 'Checking voting eligibility…'
    | ReasonOnly(text: string)     // the reason, and nothing else
    | RatingForm(disabled: bool, submitDisabled: bool, submitLabel: string)

  /** status === 'pending' || isMining. */
  predicate Busy(pending: bool, mining: bool) { pending || mining }

  /** The submit button's label, 'Submitting\U{2026}' exactly while busy. */
  function SubmitLabel(disabled: bool): (text: string)
    ensures text == "Submitting\U{2026}" <==> disabled
    ensures !disabled ==> text == "Submit"
  {
    if disabled then "Submitting\U{2026}" else "Submit"
  }

  function Render(x: Inputs, rate: int, pending: bool, mining: bool): View
  {
    if !HasAddress(x) || CanVote(x).None? then CheckingEligibility
    else if !CanVote(x).value then
      ReasonOnly(if WhyNot(x).Some? then ReasonText(WhyNot(x).value) else FallbackText)
    else
      var disabled := Busy(pending, mining);
      RatingForm(disabled, disabled || rate < 0, SubmitLabel(disabled))
  }

  /** Exactly one of the three views: checking without an account or while
      the read is in flight, the form exactly for an eligible account, and
      otherwise the reason, which is then always one of the chain's own
      messages and never the fallback. */
  lemma RenderBranches(x: Inputs, rate: int, pending: bool, mining: bool)
    ensures var v := Render(x, rate, pending, mining);
      (v.CheckingEligibility? <==> !HasAddress(x) || x.loading || x.fetching)
      && (v.RatingForm? <==> HasAddress(x) && CanVote(x) == Some(true))
      && (v.ReasonOnly? ==> WhyNot(x).Some? && v.text == ReasonText(WhyNot(x).value))
      && (v.RatingForm? ==> (v.disabled <==> pending || mining) && (v.disabled ==> v.submitDisabled))
  {
  }

  // ---------- voting ----------

  /** The rating buttons 0..5. */
  const Selectable: seq<int> := [0, 1, 2, 3, 4, 5]

  datatype Submission = Alert | Vote(organiser: Address, rate: int)

  /** submit: an alert for a rating outside 0..5, else vote(organiser, bet, rate). */
  function Submit(organiser: Address, rate: int): (s: Submission)
    ensures s.Vote? <==> 0 <= rate <= 5
    ensures s.Vote? ==> s.organiser == organiser && s.rate == rate
  {
    if rate < 0 || rate > 5 then Alert else Vote(organiser, rate)
  }

  /** Every rating a button can select is submitted as it is, and a vote is
      only ever one of them. */
  lemma SelectableAreSubmitted(organiser: Address, rate: int)
    ensures rate in Selectable ==> Submit(organiser, rate) == Vote(organiser, rate)
    ensures Submit(organiser, rate).Vote? ==> rate in Selectable
  {
    if 0 <= rate <= 5 {
      assert rate == Selectable[rate];
    }
  }
}
