// The server-side constraints on a create-event request
// (backend/src/schemas/eventSchema.ts), as a validator: the issues the
// schema reports for a payload, in the order it checks them.  A key the
// schema declares `.optional()` may be left out, but a null under it is a
// type error; the values under such keys are always of the declared type
// here, so null is the only way they can fail.

module EventSchema {
  import opened Basics

  /**
   * The JSON under an optional key: left out (an undefined value is dropped
   * when the body is serialised), null, or a value.
   */
  datatype Optional<T> = Absent | Null | Given(value: T)

  datatype TicketInput = TicketInput(name: string, price: string, description: Optional<string>, quantity: string)

  datatype MenuItemInput = MenuItemInput(name: string, price: string, description: Optional<string>,
                                         category: string, itemImage: Optional<string>)

  datatype GuestExperienceInput = GuestExperienceInput(dressCode: Optional<string>, entryRules: Optional<string>,
                                                       tableLayoutMap: Optional<string>, parkingInfo: Optional<string>,
                                                       accessibilityInfo: Optional<string>)

  datatype EventInput = EventInput(name: string, date: string, time: string, djArtists: Optional<string>,
                                   description: string, coverImage: Optional<string>,
                                   tickets: Optional<seq<TicketInput>>, menuItems: Optional<seq<MenuItemInput>>,
                                   guestExperience: Optional<GuestExperienceInput>,
                                   galleryPhotos: Optional<seq<string>>, promoVideos: Optional<seq<string>>,
                                   happyHourTimings: Optional<string>)

  datatype CreateEventInput = CreateEventInput(events: seq<EventInput>)

  /** `z.string().min(1, message)` */
  function Required(s: string, message: string): seq<string> {
    if |s| >= 1 then [] else [message]
  }

  /** The type check of an optional key: only null is refused. */
  function NotNull<T>(o: Optional<T>, message: string): seq<string> {
    if o.Null? then [message] else []
  }

  const NullString := "Expected string, received null"
  const NullArray := "Expected array, received null"
  const NullObject := "Expected object, received null"

  function TicketIssues(t: TicketInput): seq<string> {
    Required(t.name, "Ticket name is required")
    + Required(t.price, "Price is required")
    + NotNull(t.description, NullString)
    + Required(t.quantity, "Quantity is required")
  }

  function MenuItemIssues(m: MenuItemInput): seq<string> {
    Required(m.name, "Item name is required")
    + Required(m.price, "Price is required")
    + NotNull(m.description, NullString)
    + Required(m.category, "Category is required")
    + NotNull(m.itemImage, NullString)
  }

  /** The issues of the elements of an array, element by element. */
  function TicketListIssues(ts: seq<TicketInput>): seq<string> {
    if ts == [] then [] else TicketIssues(ts[0]) + TicketListIssues(ts[1..])
  }

  function MenuListIssues(ms: seq<MenuItemInput>): seq<string> {
    if ms == [] then [] else MenuItemIssues(ms[0]) + MenuListIssues(ms[1..])
  }

  /** `z.array(ticketSchema).optional()` */
  function TicketsIssues(o: Optional<seq<TicketInput>>): seq<string> {
    match o
    case Absent => []
    case Null => [NullArray]
    case Given(ts) => TicketListIssues(ts)
  }

  /** `z.array(menuItemSchema).optional()` */
  function MenuItemsIssues(o: Optional<seq<MenuItemInput>>): seq<string> {
    match o
    case Absent => []
    case Null => [NullArray]
    case Given(ms) => MenuListIssues(ms)
  }

  function GuestIssues(g: GuestExperienceInput): seq<string> {
    NotNull(g.dressCode, NullString)
    + NotNull(g.entryRules, NullString)
    + NotNull(g.tableLayoutMap, NullString)
    + NotNull(g.parkingInfo, NullString)
    + NotNull(g.accessibilityInfo, NullString)
  }

  /** `guestExperienceSchema.optional()` */
  function GuestExperienceIssues(o: Optional<GuestExperienceInput>): seq<string> {
    match o
    case Absent => []
    case Null => [NullObject]
    case Given(g) => GuestIssues(g)
  }

  /** The event's own keys, in the schema's order up to the arrays of items. */
  function HeadIssues(e: EventInput): seq<string> {
    Required(e.name, "Event name is required")
    + Required(e.date, "Event date is required")
    + Required(e.time, "Event time is required")
    + NotNull(e.djArtists, NullString)
    + Required(e.description, "Event description is required")
    + NotNull(e.coverImage, NullString)
  }

  /** The keys after the arrays of items. */
  function TailIssues(e: EventInput): seq<string> {
    GuestExperienceIssues(e.guestExperience)
    + NotNull(e.galleryPhotos, NullArray)
    + NotNull(e.promoVideos, NullArray)
    + NotNull(e.happyHourTimings, NullString)
  }

  function EventIssues(e: EventInput): (r: seq<string>)
    ensures r == [] ==> e.name != [] && e.date != [] && e.time != [] && e.description != []
  {
    HeadIssues(e) + TicketsIssues(e.tickets) + MenuItemsIssues(e.menuItems) + TailIssues(e)
  }

  function EventListIssues(es: seq<EventInput>): seq<string> {
    if es == [] then [] else EventIssues(es[0]) + EventListIssues(es[1..])
  }

  /** `createEventSchema`: the length check on `events` comes before its elements. */
  function Issues(input: CreateEventInput): (r: seq<string>)
    ensures r == [] ==> |input.events| == 1
  {
    (if |input.events| == 1 then [] else ["Exactly one event is required"])
    + EventListIssues(input.events)
  }

  predicate TicketOk(t: TicketInput) {
    t.name != [] && t.price != [] && !t.description.Null? && t.quantity != []
  }

  predicate MenuItemOk(m: MenuItemInput) {
    m.name != [] && m.price != [] && !m.description.Null? && m.category != [] && !m.itemImage.Null?
  }

  predicate GuestOk(g: GuestExperienceInput) {
    !g.dressCode.Null? && !g.entryRules.Null? && !g.tableLayoutMap.Null?
    && !g.parkingInfo.Null? && !g.accessibilityInfo.Null?
  }

  predicate EventOk(e: EventInput) {
    e.name != [] && e.date != [] && e.time != [] && !e.djArtists.Null? && e.description != []
    && !e.coverImage.Null?
    && !e.tickets.Null? && (e.tickets.Given? ==> forall i :: 0 <= i < |e.tickets.value| ==> TicketOk(e.tickets.value[i]))
    && !e.menuItems.Null?
    && (e.menuItems.Given? ==> forall i :: 0 <= i < |e.menuItems.value| ==> MenuItemOk(e.menuItems.value[i]))
    && !e.guestExperience.Null? && (e.guestExperience.Given? ==> GuestOk(e.guestExperience.value))
    && !e.galleryPhotos.Null? && !e.promoVideos.Null? && !e.happyHourTimings.Null?
  }

  lemma {:induction false} TicketListIssuesEmptyIff(ts: seq<TicketInput>)
    ensures TicketListIssues(ts) == [] <==> forall i :: 0 <= i < |ts| ==> TicketOk(ts[i])
  {
    if ts != [] {
      TicketListIssuesEmptyIff(ts[1..]);
      assert forall i :: 1 <= i < |ts| ==> ts[i] == ts[1..][i - 1];
    }
  }

  lemma {:induction false} MenuListIssuesEmptyIff(ms: seq<MenuItemInput>)
    ensures MenuListIssues(ms) == [] <==> forall i :: 0 <= i < |ms| ==> MenuItemOk(ms[i])
  {
    if ms != [] {
      MenuListIssuesEmptyIff(ms[1..]);
      assert forall i :: 1 <= i < |ms| ==> ms[i] == ms[1..][i - 1];
    }
  }

  /** An event draws no issue exactly when every constraint of eventSchema holds, null refused everywhere. */
  lemma EventIssuesEmptyIff(e: EventInput)
    ensures EventIssues(e) == [] <==> EventOk(e)
  {
    if e.tickets.Given? { TicketListIssuesEmptyIff(e.tickets.value); }
    if e.menuItems.Given? { MenuListIssuesEmptyIff(e.menuItems.value); }
  }

  /**
   * The schema accepts a request exactly when it holds one event whose name,
   * date, time and description are non-empty, whose tickets and menu items,
   * when given, have their required strings, and which has no null under
   * any optional key.
   */
  lemma AcceptedIff(input: CreateEventInput)
    ensures Issues(input) == [] <==> |input.events| == 1 && EventOk(input.events[0])
  {
    if |input.events| == 1 {
      EventIssuesEmptyIff(input.events[0]);
      assert EventListIssues(input.events) == EventIssues(input.events[0]) + EventListIssues([]);
    }
  }

  /** A null cover image alone is enough for the schema to refuse the request. */
  lemma NullCoverRefused(input: CreateEventInput)
    requires |input.events| == 1 && input.events[0].coverImage.Null?
    ensures NullString in Issues(input)
  {
    var e := input.events[0];
    assert NullString in HeadIssues(e);
    assert EventListIssues(input.events) == EventIssues(e) + EventListIssues([]);
  }
}
