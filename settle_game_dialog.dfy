/** The organiser's settle dialog: open state guarded while a write is in
    flight, two goal inputs, the gameFinished write and the reset once it is
    mined. */
module SettleGameDialog {
  import opened Common

  /** gameFinished(homeGoals, awayGoals). */
  datatype SettleCall = GameFinished(homeGoals: int, awayGoals: int)

  /** The confirm button: disabled while pending or mining, and while
      either input is empty. */
  predicate ConfirmDisabled(pending: bool, mining: bool, home: string, away: string)
  {
    pending || mining || home == "" || away == ""
  }

  function ConfirmText(pending: bool, mining: bool): (s: string)
    ensures s == "Settling\U{2026}" <==> pending || mining
  {
    if pending || mining then "Settling\U{2026}" else "Confirm and Settle"
  }

  /** An enabled confirm button has two non-empty inputs; an empty input
      would parse to NaN, so an enabled button never hides an input that
      parseInt rejects for being empty. */
  lemma EnabledHasInputs(pending: bool, mining: bool, home: string, away: string)
    ensures !ConfirmDisabled(pending, mining, home, away) ==> home != "" && away != "" && !pending && !mining
    ensures home == "" ==> ConfirmDisabled(pending, mining, home, away) && ParseInt(home).None?
  {
    ParseEmptyIsNaN();
  }

  class Dialog {
    var open: bool
    var homeGoals: string
    var awayGoals: string

    constructor ()
      ensures !open && homeGoals == "" && awayGoals == ""
    {
      open := false;
      homeGoals := "";
      awayGoals := "";
    }

    /** onOpenChange(v): ignored while mining or pending. */
    method OnOpenChange(v: bool, mining: bool, pending: bool)
      modifies this
      ensures open == (if mining || pending then old(open) else v)
      ensures homeGoals == old(homeGoals) && awayGoals == old(awayGoals)
    {
      if mining || pending {
        return;
      }
      open := v;
    }

    method SetHomeGoals(s: string)
      modifies this
      ensures homeGoals == s && awayGoals == old(awayGoals) && open == old(open)
    {
      homeGoals := s;
    }

    method SetAwayGoals(s: string)
      modifies this
      ensures awayGoals == s && homeGoals == old(homeGoals) && open == old(open)
    {
      awayGoals := s;
    }

    /** handleSettle: gameFinished(home, away) in that order when both
        inputs parse, else None (the 'Enter valid integers' alert). */
    method HandleSettle() returns (call: Option<SettleCall>)
      ensures call.Some? <==> ParseInt(homeGoals).Some? && ParseInt(awayGoals).Some?
      ensures call.Some? ==> call.value == GameFinished(ParseInt(homeGoals).value, ParseInt(awayGoals).value)
    {
      var hg := ParseInt(homeGoals);
      var ag := ParseInt(awayGoals);
      if hg.None? || ag.None? {
        return None;
      }
      return Some(GameFinished(hg.value, ag.value));
    }

    /** The mined effect: closes the dialog and clears both inputs. */
    method Mined()
      modifies this
      ensures !open && homeGoals == "" && awayGoals == ""
    {
      open := false;
      homeGoals := "";
      awayGoals := "";
    }
  }

  /** After a mined settlement the dialog is closed and the confirm button
      is disabled until both goals are typed again. */
  method MinedResets(h: string, a: string, pending: bool, mining: bool) returns (open: bool, disabled: bool)
    ensures !open && disabled
  {
    var d := new Dialog();
    d.OnOpenChange(true, false, false);
    d.SetHomeGoals(h);
    d.SetAwayGoals(a);
    d.Mined();
    open := d.open;
    disabled := ConfirmDisabled(pending, mining, d.homeGoals, d.awayGoals);
  }
}
