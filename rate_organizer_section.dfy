/** The second rating form: eligibility as component state set by a chain
    read, a thank-you latch once the vote is mined, and a typed rating. */
module RateOrganizerSection {
  import opened Common

  const NotEligibleText: string := "You may have already voted, not placed a bet, or the match hasn\U{2019}t reached start time."
  const ReadFailedText: string := "Failed to read canVote from chain."

  datatype View =
    | Nothing          // no account: the component renders null
    | Checking         // 'Checking voting eligibility…'
    | Thanks           // the vote was mined
    | Ineligible(reason: string)   // 'You can’t rate now. ' + (reason ?? '')
    | Form(disabled: bool, buttonText: string)

  /** The render order: no account, still checking, thanks, ineligible, form. */
  function ViewOf(address: Option<Address>, canVote: Option<bool>, reason: Option<string>,
                  mined: bool, pending: bool, mining: bool): (v: View)
  {
    if address.None? || address.value == "" then Nothing
    else if canVote.None? then Checking
    else if mined then Thanks
    else if !canVote.value then Ineligible(if reason.Some? then reason.value else "")
    else Form(pending || mining, if mining then "Submitting\U{2026}" else "Rate organiser")
  }

  /** Each view in its own case: the form only for an eligible account
      whose vote has not been mined, and the thanks only once it has. */
  lemma ViewPrecedence(address: Option<Address>, canVote: Option<bool>, reason: Option<string>,
                       mined: bool, pending: bool, mining: bool)
    ensures var v := ViewOf(address, canVote, reason, mined, pending, mining);
      var connected := address.Some? && address.value != "";
      (v == Nothing <==> !connected)
      && (v == Checking <==> connected && canVote.None?)
      && (v == Thanks <==> connected && canVote.Some? && mined)
      && (v.Form? <==> connected && canVote == Some(true) && !mined)
      && (v.Form? ==> (v.disabled <==> pending || mining))
  {
  }

  /** The rate field's vote: parseInt(rate, 10) when it is a number in 0..5. */
  function RateToSubmit(rate: string): (r: Option<int>)
    ensures r.Some? <==> ParseInt(rate).Some? && 0 <= ParseInt(rate).value <= 5
    ensures r.Some? ==> r == ParseInt(rate)
  {
    var p := ParseInt(rate);
    if p.None? || p.value < 0 || p.value > 5 then None else p
  }

  /** The initial rate '5' is submitted as 5; an empty field is not submitted. */
  lemma RateExamples()
    ensures RateToSubmit("5") == Some(5)
    ensures RateToSubmit("") == None
  {
    ParseSingleDigit('5');
    ParseEmptyIsNaN();
  }

  class Section {
    var canVote: Option<bool>
    var reason: Option<string>
    var rate: string

    constructor ()
      ensures canVote == None && reason == None && rate == "5"
    {
      canVote := None;
      reason := None;
      rate := "5";
    }

    /** The eligibility effect. Without an account canVote goes back to
        null; `read` is the canVote result, or None when the read threw. */
    method Check(address: Option<Address>, read: Option<bool>)
      modifies this
      ensures rate == old(rate)
      ensures address.None? || address.value == "" ==> canVote == None && reason == old(reason)
      ensures address.Some? && address.value != "" && read.Some? ==>
                canVote == read && (reason.None? <==> read.value)
                && (reason.Some? ==> reason.value == NotEligibleText)
      ensures address.Some? && address.value != "" && read.None? ==>
                canVote == Some(false) && reason == Some(ReadFailedText)
    {
      if address.None? || address.value == "" {
        canVote := None;
        return;
      }
      if read.Some? {
        canVote := Some(read.value);
        reason := if read.value then None else Some(NotEligibleText);
      } else {
        canVote := Some(false);
        reason := Some(ReadFailedText);
      }
    }

    /** The mined effect: the form goes away and no reason is kept. */
    method Mined()
      modifies this
      ensures canVote == Some(false) && reason == None && rate == old(rate)
    {
      canVote := Some(false);
      reason := None;
    }

    /** The number input's onChange. */
    method SetRate(s: string)
      modifies this
      ensures rate == s && canVote == old(canVote) && reason == old(reason)
    {
      rate := s;
    }

    /** submitVote: the vote it writes, or None when it alerts instead. */
    method SubmitVote() returns (vote: Option<int>)
      ensures vote.Some? <==> ParseInt(rate).Some? && 0 <= ParseInt(rate).value <= 5
      ensures vote.Some? ==> vote == ParseInt(rate)
    {
      vote := RateToSubmit(rate);
    }

    function Render(address: Option<Address>, mined: bool, pending: bool, mining: bool): View
      reads this
    {
      ViewOf(address, canVote, reason, mined, pending, mining)
    }
  }

  /** After an eligibility check and a mined vote, a connected account sees
      the thanks whatever the check said. */
  method MinedShowsThanks(a: Address, read: Option<bool>, pending: bool, mining: bool) returns (v: View)
    requires a != ""
    ensures v == Thanks
  {
    var s := new Section();
    s.Check(Some(a), read);
    s.Mined();
    v := s.Render(Some(a), true, pending, mining);
  }
}
