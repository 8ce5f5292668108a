// The edit-event screen (frontend/app/editEvent.tsx): the effect that keeps
// exactly one event once the event has loaded, and the submit guard, whose
// validation also requires the event map.

module EditEvent {
  import opened Basics
  import opened EventModel

  /**
   * The effect on the event count: once loading is over an empty list gets
   * one blank event, and a longer list keeps only its first event.
   */
  method EnsureSingleEvent(d: EventDraft, loading: bool, now: string)
    modifies d
    ensures !loading ==> |d.events| == 1
    ensures old(d.events) != [] ==> d.events == [old(d.events)[0]]
    ensures old(d.events) == [] ==> d.events == (if loading then [] else [BlankEvent(now)])
    ensures d.menuItems == old(d.menuItems)
  {
    if |d.events| == 0 && !loading {
      d.events := [BlankEvent(now)];
    } else if |d.events| > 1 {
      d.events := [d.events[0]];
    }
  }

  /**
   * `handleSubmit`: the form's errors, and whether the update request goes
   * out, which it does exactly when there are none.
   */
  method Submit(d: EventDraft) returns (errors: seq<FormError>, sent: bool)
    requires d.events != []
    ensures errors == FormErrors(d.events[0], d.menuItems, true)
    ensures sent <==> errors == []
    ensures sent ==> FormComplete(d.events[0], d.menuItems, true)
  {
    errors := ValidateForm(d.events[0], d.menuItems, true);
    sent := |errors| == 0;
    FormErrorsEmptyIff(d.events[0], d.menuItems, true);
  }
}
