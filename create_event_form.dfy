// The create-event form (frontend/components/screens/CreateEventForm.tsx):
// the mount effect that leaves exactly one event, and the submit guard,
// which posts the event only when the form validates (without requiring an
// event map).

module CreateEventForm {
  import opened Basics
  import opened EventModel
  import EventSchema

  /** The effect run once on mount: exactly one event afterwards. */
  method EnsureSingleEvent(d: EventDraft, now: string)
    modifies d
    ensures |d.events| == 1
    ensures old(d.events) != [] ==> d.events == [old(d.events)[0]]
    ensures old(d.events) == [] ==> d.events == [BlankEvent(now)]
    ensures d.menuItems == old(d.menuItems)
  {
    if |d.events| == 0 {
      d.events := [BlankEvent(now)];
    } else if |d.events| > 1 {
      d.events := [d.events[0]];
    }
  }

  /**
   * `handleSubmit`: the request is posted exactly when the form has no
   * errors; the server's schema then accepts it exactly when a cover image
   * is set and a table layout is picked, since otherwise a null is posted.
   */
  method Submit(d: EventDraft, x: EventExtras) returns (errors: seq<FormError>, request: Option<EventSchema.CreateEventInput>)
    requires d.events != []
    ensures errors == FormErrors(d.events[0], d.menuItems, false)
    ensures request.Some? <==> errors == []
    ensures request.Some? ==> request.value == CreatePayload(d.events[0], d.menuItems, x, false)
    ensures request.Some? ==> (EventSchema.Issues(request.value) == []
                               <==> d.events[0].coverImage.Some? && x.guest.tableLayoutMap.Some?)
  {
    errors := ValidateForm(d.events[0], d.menuItems, false);
    if |errors| > 0 {
      request := None;
    } else {
      ValidFormAcceptedIff(d.events[0], d.menuItems, x, false);
      request := Some(CreatePayload(d.events[0], d.menuItems, x, false));
    }
  }

  /** Corrected: posting undefined for the missing cover image and layout, every request sent passes the schema. */
  method SubmitOmittingNulls(d: EventDraft, x: EventExtras) returns (errors: seq<FormError>, request: Option<EventSchema.CreateEventInput>)
    requires d.events != []
    ensures errors == FormErrors(d.events[0], d.menuItems, false)
    ensures request.Some? <==> errors == []
    ensures request.Some? ==> request.value == CreatePayload(d.events[0], d.menuItems, x, true)
    ensures request.Some? ==> EventSchema.Issues(request.value) == []
  {
    errors := ValidateForm(d.events[0], d.menuItems, false);
    if |errors| > 0 {
      request := None;
    } else {
      ValidFormMeetsSchema(d.events[0], d.menuItems, x);
      request := Some(CreatePayload(d.events[0], d.menuItems, x, true));
    }
  }
}
