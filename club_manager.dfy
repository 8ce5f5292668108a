// The club manager's event editor (frontend/components/screens/ClubManager.tsx).
// It shares the draft and its updaters with the create form, except that new
// menu items carry no image field, and its submit posts without validating.

module ClubManager {
  import opened Basics
  import opened EventModel
  import EventSchema

  /** The draft this screen keeps: new menu items have no image field. */
  method NewDraft() returns (d: EventDraft)
    ensures fresh(d) && d.events == [] && d.menuItems == [] && !d.menuItemsHaveImage
  {
    d := new EventDraft(false);
  }

  /** The effect run once on mount: exactly one event afterwards. */
  method EnsureSingleEvent(d: EventDraft, now: string)
    modifies d
    ensures |d.events| == 1
    ensures old(d.events) != [] ==> d.events == [old(d.events)[0]]
    ensures old(d.events) == [] ==> d.events == [BlankEvent(now)]
    ensures d.menuItems == old(d.menuItems)
  {
    if |d.events| == 0 {
      d.events := [BlankEvent(now)];
    } else if |d.events| > 1 {
      d.events := [d.events[0]];
    }
  }

  /**
   * The body posted: the first event as it is, whose tickets travel under
   * `ticketTypes` (a key the schema drops), with the menu and the other
   * sections; a missing cover image and an unpicked layout go out as null.
   */
  function ManagerPayload(e: ClubEvent, items: seq<MenuItem>, x: EventExtras): EventSchema.CreateEventInput {
    EventSchema.CreateEventInput([EventSchema.EventInput(
      e.name, e.date, e.time, EventSchema.Given(e.djArtists), e.description, Posted(e.coverImage, false),
      EventSchema.Absent, EventSchema.Given(MenuInputs(items)),
      EventSchema.Given(GuestInput(x.guest, false)),
      EventSchema.Given(x.galleryPhotos), EventSchema.Given(x.promoVideos), EventSchema.Given(x.happyHourTimings))])
  }

  /** `handleSubmit`: the request goes out whatever the draft holds. */
  method Submit(d: EventDraft, x: EventExtras) returns (request: EventSchema.CreateEventInput)
    requires d.events != []
    ensures request == ManagerPayload(d.events[0], d.menuItems, x)
  {
    request := ManagerPayload(d.events[0], d.menuItems, x);
  }

  /**
   * Nothing stops an unfinished draft: a fresh blank event fails the form
   * validation the other screens apply, and its request breaks the schema,
   * yet this screen posts it.
   */
  lemma BlankDraftIsPosted(now: string, x: EventExtras)
    ensures FormErrors(BlankEvent(now), [], false) != []
    ensures EventSchema.Issues(ManagerPayload(BlankEvent(now), [], x)) != []
  {
    assert Missing(BlankEvent(now).name);
    assert Required(TheEvent, "name") in FormErrors(BlankEvent(now), [], false);
  }
}
