/** The form that creates a match: four fields, the start time in unix
    seconds, the createFootballBet write, a latched error message and the
    reset once the creation is mined. */
module CreateBetForm {
  import opened Common

  /** createFootballBet(home, away, startTime, stake) paying the stake. */
  datatype CreateCall = CreateFootballBet(homeTeam: string, awayTeam: string, startTime: int, stake: nat, value: nat)

  datatype TxStatus = Idle | Pending | Success | Error

  /** The `error` of the write hook. */
  datatype TxError =
    | WithMessage(message: string)   // an object with a message
    | Plain(json: string)            // another object: JSON.stringify(error)
    | Str(s: string)                 // a string
    | Opaque                         // anything else

  /** `error` is truthy: an empty string is not. */
  predicate IsSet(e: Option<TxError>)
  {
    e.Some? && !(e.value.Str? && e.value.s == "")
  }

  /** The message the latch records: the text the error carries, and a
      fixed non-empty text when it carries none. */
  function MessageOf(e: TxError): (m: string)
    ensures e.WithMessage? ==> m == e.message
    ensures e.Plain? ==> m == e.json
    ensures e.Str? ==> m == e.s
    ensures e.Opaque? ==> m == "Unknown error" && m != ""
  {
    match e
    case WithMessage(m) => m
    case Plain(j) => j
    case Str(s) => s
    case Opaque => "Unknown error"
  }

  /** startTime ? Math.floor(dateMs / 1000) : 0, with dateMs the
      datetime-local value's new Date(startTime).getTime(). */
  function UnixStartTime(startTime: string, dateMs: int): (t: int)
    ensures startTime == "" ==> t == 0
    ensures startTime != "" ==> t * 1000 <= dateMs < t * 1000 + 1000
  {
    if startTime == "" then 0 else dateMs / 1000
  }

  /** The create button: disabled when a field is empty or while submitting. */
  predicate CreateDisabled(home: string, away: string, startTime: string, stake: string, pending: bool, mining: bool)
  {
    home == "" || away == "" || startTime == "" || stake == "" || pending || mining
  }

  /** An enabled button passes handleCreate's guard once the date lies
      after the epoch's first second; an empty start time both disables the
      button and fails the guard. */
  lemma EnabledPassesGuard(home: string, away: string, startTime: string, stake: string,
                           pending: bool, mining: bool, dateMs: int)
    ensures !CreateDisabled(home, away, startTime, stake, pending, mining) && dateMs >= 1000 ==>
              home != "" && away != "" && stake != "" && UnixStartTime(startTime, dateMs) > 0
    ensures startTime == "" ==>
              CreateDisabled(home, away, startTime, stake, pending, mining) && UnixStartTime(startTime, dateMs) == 0
  {
  }

  class Form {
    var homeTeam: string
    var awayTeam: string
    var startTime: string
    var stake: string
    var errorMessage: Option<string>
    var errorLogged: bool

    constructor ()
      ensures homeTeam == "" && awayTeam == "" && startTime == "" && stake == ""
      ensures errorMessage == None && !errorLogged
    {
      homeTeam, awayTeam, startTime, stake := "", "", "", "";
      errorMessage := None;
      errorLogged := false;
    }

    method SetFields(home: string, away: string, start: string, stakeText: string)
      modifies this
      ensures homeTeam == home && awayTeam == away && startTime == start && stake == stakeText
      ensures errorMessage == old(errorMessage) && errorLogged == old(errorLogged)
    {
      homeTeam, awayTeam, startTime, stake := home, away, start, stakeText;
    }

    /** handleCreate. `dateMs` is the start time's getTime(), `stakeWei` is
        parseEther(stake) or None when it throws, `writeError` the message
        when writeContract throws. */
    method HandleCreate(dateMs: int, stakeWei: Option<nat>, writeError: Option<string>) returns (call: Option<CreateCall>)
      modifies this
      ensures homeTeam == old(homeTeam) && awayTeam == old(awayTeam) && startTime == old(startTime) && stake == old(stake)
      ensures errorLogged == old(errorLogged)
      ensures var unix := UnixStartTime(startTime, dateMs);
        var ready := homeTeam != "" && awayTeam != "" && unix > 0 && stake != "";
        (!ready ==> call == None && errorMessage == old(errorMessage))
        && (ready && stakeWei.None? ==> call == None && errorMessage == Some("Invalid stake value"))
        && (ready && stakeWei.Some? ==>
              call == Some(CreateFootballBet(homeTeam, awayTeam, unix, stakeWei.value, stakeWei.value))
              && errorMessage == (if writeError.Some? then writeError else old(errorMessage)))
    {
      var unix := UnixStartTime(startTime, dateMs);
      if homeTeam == "" || awayTeam == "" || unix <= 0 || stake == "" {
        return None;
      }
      if stakeWei.None? {
        errorMessage := Some("Invalid stake value");
        return None;
      }
      call := Some(CreateFootballBet(homeTeam, awayTeam, unix, stakeWei.value, stakeWei.value));
      if writeError.Some? {
        errorMessage := writeError;
      }
    }

    /** The status effect: on entering the error status the message is
        recorded once and the latch closes; leaving it clears both. */
    method StatusChanged(status: TxStatus, error: Option<TxError>)
      modifies this
      ensures homeTeam == old(homeTeam) && awayTeam == old(awayTeam) && startTime == old(startTime) && stake == old(stake)
      ensures status == Error && IsSet(error) && !old(errorLogged) ==>
                errorMessage == Some(MessageOf(error.value)) && errorLogged
      ensures status == Error && (!IsSet(error) || old(errorLogged)) ==>
                errorMessage == old(errorMessage) && errorLogged == old(errorLogged)
      ensures status != Error ==> errorMessage == None && !errorLogged
    {
      var isError := status == Error;
      if isError && IsSet(error) && !errorLogged {
        errorMessage := Some(MessageOf(error.value));
        errorLogged := true;
      } else if !isError {
        errorMessage := None;
        errorLogged := false;
      }
    }

    /** The mined effect: all four fields are cleared. */
    method Mined()
      modifies this
      ensures homeTeam == "" && awayTeam == "" && startTime == "" && stake == ""
      ensures errorMessage == old(errorMessage) && errorLogged == old(errorLogged)
    {
      homeTeam, awayTeam, startTime, stake := "", "", "", "";
    }
  }

  /** The latch keeps the first error's message through later error
      renders, and a return to another status clears it. */
  method LatchKeepsFirst(first: string, second: string, next: TxStatus) returns (kept: Option<string>, after: Option<string>)
    requires first != "" && next != Error
    ensures kept == Some(first) && after == None
  {
    var f := new Form();
    f.StatusChanged(Error, Some(Str(first)));
    f.StatusChanged(Error, Some(Str(second)));
    kept := f.errorMessage;
    f.StatusChanged(next, None);
    after := f.errorMessage;
  }
}
