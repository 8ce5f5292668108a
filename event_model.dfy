// The event draft edited by the create-event form, the edit-event screen and
// the club manager (frontend/components/screens/CreateEventForm.tsx,
// frontend/app/editEvent.tsx, frontend/components/screens/ClubManager.tsx):
// the event list with its ticket types, the menu item list, the id-keyed
// updaters the three screens share, and the form validation.

module EventModel {
  import opened Basics
  import opened Text
  import EventSchema

  datatype Ticket = Ticket(id: string, name: string, price: string, description: string, quantity: string)

  datatype MenuItem = MenuItem(id: string, name: string, price: string, description: string,
                               category: string, customCategory: Option<string>, itemImage: Option<string>)

  datatype ClubEvent = ClubEvent(id: string, name: string, date: string, time: string, djArtists: string,
                                 description: string, ticketTypes: seq<Ticket>,
                                 coverImage: Option<string>, eventMap: Option<string>)

  /** The category a new menu item starts with. */
  const DefaultCategory := "Appetizers & Snacks"

  /** A new event; its id is the current time rendered as a string. */
  function BlankEvent(id: string): ClubEvent {
    ClubEvent(id, "", "", "", "", "", [], None, None)
  }

  function BlankTicket(id: string): Ticket {
    Ticket(id, "", "", "", "")
  }

  /** A new menu item; the club manager's carries no image field. */
  function NewMenuItem(id: string, withImage: bool): MenuItem {
    MenuItem(id, "", "", "", DefaultCategory, None, if withImage then Some("") else None)
  }

  // ---------------------------------------------------------------------
  // Field access: `{ ...event, [field]: value }`
  // ---------------------------------------------------------------------

  datatype EventField = Name | Date | Time | DjArtists | Description | CoverImage | EventMap

  datatype FieldValue = Str(s: string) | MaybeStr(o: Option<string>)

  /** The value a field holds has the field's type: the image fields may be null. */
  predicate Fits(f: EventField, v: FieldValue) {
    if f == CoverImage || f == EventMap then v.MaybeStr? else v.Str?
  }

  function Get(e: ClubEvent, f: EventField): (v: FieldValue)
    ensures Fits(f, v)
  {
    match f
    case Name => Str(e.name)
    case Date => Str(e.date)
    case Time => Str(e.time)
    case DjArtists => Str(e.djArtists)
    case Description => Str(e.description)
    case CoverImage => MaybeStr(e.coverImage)
    case EventMap => MaybeStr(e.eventMap)
  }

  function Set(e: ClubEvent, f: EventField, v: FieldValue): ClubEvent
    requires Fits(f, v)
  {
    match f
    case Name => e.(name := v.s)
    case Date => e.(date := v.s)
    case Time => e.(time := v.s)
    case DjArtists => e.(djArtists := v.s)
    case Description => e.(description := v.s)
    case CoverImage => e.(coverImage := v.o)
    case EventMap => e.(eventMap := v.o)
  }

  /** Writing a field changes that field and nothing else; writing back what was read changes nothing. */
  lemma GetSet(e: ClubEvent, f: EventField, v: FieldValue, g: EventField)
    requires Fits(f, v)
    ensures Get(Set(e, f, v), g) == (if g == f then v else Get(e, g))
    ensures Set(e, f, v).id == e.id && Set(e, f, v).ticketTypes == e.ticketTypes
    ensures Set(e, f, Get(e, f)) == e
  {
  }

  datatype TicketField = TicketName | Price | TicketDescription | Quantity

  function GetTicket(t: Ticket, f: TicketField): string {
    match f
    case TicketName => t.name
    case Price => t.price
    case TicketDescription => t.description
    case Quantity => t.quantity
  }

  function SetTicket(t: Ticket, f: TicketField, v: string): Ticket {
    match f
    case TicketName => t.(name := v)
    case Price => t.(price := v)
    case TicketDescription => t.(description := v)
    case Quantity => t.(quantity := v)
  }

  datatype MenuField = ItemName | ItemPrice | ItemDescription | Category | CustomCategory | ItemImage

  /** A menu item field; the optional ones read as null when absent. */
  function GetItem(m: MenuItem, f: MenuField): Option<string> {
    match f
    case ItemName => Some(m.name)
    case ItemPrice => Some(m.price)
    case ItemDescription => Some(m.description)
    case Category => Some(m.category)
    case CustomCategory => m.customCategory
    case ItemImage => m.itemImage
  }

  function SetItem(m: MenuItem, f: MenuField, v: string): MenuItem {
    match f
    case ItemName => m.(name := v)
    case ItemPrice => m.(price := v)
    case ItemDescription => m.(description := v)
    case Category => m.(category := v)
    case CustomCategory => m.(customCategory := Some(v))
    case ItemImage => m.(itemImage := Some(v))
  }

  // ---------------------------------------------------------------------
  // The id-keyed list updaters
  // ---------------------------------------------------------------------

  /** `updateEvent`: every event with the id gets the new field value. */
  function UpdatedEvents(events: seq<ClubEvent>, id: string, f: EventField, v: FieldValue): (r: seq<ClubEvent>)
    requires Fits(f, v)
    ensures |r| == |events| && forall i :: 0 <= i < |r| ==> r[i].id == events[i].id
  {
    seq(|events|, i requires 0 <= i < |events| => if events[i].id == id then Set(events[i], f, v) else events[i])
  }

  /** Only the named field of the events with the id changes. */
  lemma UpdatedEventsSpec(events: seq<ClubEvent>, id: string, f: EventField, v: FieldValue)
    requires Fits(f, v)
    ensures |UpdatedEvents(events, id, f, v)| == |events|
    ensures forall i, g :: 0 <= i < |events| ==>
      Get(UpdatedEvents(events, id, f, v)[i], g) == (if events[i].id == id && g == f then v else Get(events[i], g))
    ensures forall i :: 0 <= i < |events| ==>
      UpdatedEvents(events, id, f, v)[i].id == events[i].id
      && UpdatedEvents(events, id, f, v)[i].ticketTypes == events[i].ticketTypes
  {
    forall i, g | 0 <= i < |events|
      ensures Get(UpdatedEvents(events, id, f, v)[i], g) == (if events[i].id == id && g == f then v else Get(events[i], g))
    {
      GetSet(events[i], f, v, g);
    }
  }

  /** `removeEvent`: the events without the id, in their order. */
  function WithoutEvent(events: seq<ClubEvent>, id: string): (r: seq<ClubEvent>)
    ensures forall i :: 0 <= i < |r| ==> r[i].id != id
    ensures forall i :: 0 <= i < |events| && events[i].id != id ==> events[i] in r
    ensures IsSubseq(r, events)
    ensures forall x :: multiset(r)[x] == if x.id != id then multiset(events)[x] else 0
  {
    var keep := (e: ClubEvent) => e.id != id;
    FilterIsSubseq(events, keep);
    FilterMultiset(events, keep);
    Filter(events, keep)
  }

  /** `addTicketToEvent`: the ticket goes at the end of the matching events' tickets. */
  function WithAddedTicket(events: seq<ClubEvent>, eventId: string, t: Ticket): (r: seq<ClubEvent>)
    ensures |r| == |events| && forall i :: 0 <= i < |r| ==> r[i].id == events[i].id
  {
    seq(|events|, i requires 0 <= i < |events| =>
      if events[i].id == eventId then events[i].(ticketTypes := events[i].ticketTypes + [t]) else events[i])
  }

  /**
   * Only the matching events gain a ticket, exactly one, at the end; their
   * other tickets and fields are unchanged, and other events are untouched.
   */
  lemma WithAddedTicketSpec(events: seq<ClubEvent>, eventId: string, t: Ticket)
    ensures |WithAddedTicket(events, eventId, t)| == |events|
    ensures forall i :: 0 <= i < |events| ==>
      var before := events[i].ticketTypes;
      var after := WithAddedTicket(events, eventId, t)[i].ticketTypes;
      |after| == |before| + (if events[i].id == eventId then 1 else 0)
      && after[..|before|] == before
      && (events[i].id == eventId ==> after[|before|] == t)
    ensures forall i, g :: 0 <= i < |events| ==>
      Get(WithAddedTicket(events, eventId, t)[i], g) == Get(events[i], g)
      && WithAddedTicket(events, eventId, t)[i].id == events[i].id
    ensures forall i :: 0 <= i < |events| && events[i].id != eventId ==> WithAddedTicket(events, eventId, t)[i] == events[i]
  {
  }

  function UpdatedTickets(ts: seq<Ticket>, ticketId: string, f: TicketField, v: string): seq<Ticket> {
    seq(|ts|, j requires 0 <= j < |ts| => if ts[j].id == ticketId then SetTicket(ts[j], f, v) else ts[j])
  }

  /** `updateEventTicket` */
  function WithUpdatedTicket(events: seq<ClubEvent>, eventId: string, ticketId: string, f: TicketField, v: string): (r: seq<ClubEvent>)
    ensures |r| == |events| && forall i :: 0 <= i < |r| ==> r[i].id == events[i].id
  {
    seq(|events|, i requires 0 <= i < |events| =>
      if events[i].id == eventId then events[i].(ticketTypes := UpdatedTickets(events[i].ticketTypes, ticketId, f, v))
      else events[i])
  }

  /**
   * Only the named field of the tickets with the id, inside the events with
   * the event id, changes; everything else keeps its value.
   */
  lemma WithUpdatedTicketSpec(events: seq<ClubEvent>, eventId: string, ticketId: string, f: TicketField, v: string)
    ensures |WithUpdatedTicket(events, eventId, ticketId, f, v)| == |events|
    ensures forall i :: 0 <= i < |events| ==>
      var e := WithUpdatedTicket(events, eventId, ticketId, f, v)[i];
      e.id == events[i].id && |e.ticketTypes| == |events[i].ticketTypes|
      && (forall g :: Get(e, g) == Get(events[i], g))
      && (forall j, h :: 0 <= j < |e.ticketTypes| ==>
            e.ticketTypes[j].id == events[i].ticketTypes[j].id
            && GetTicket(e.ticketTypes[j], h) ==
               (if events[i].id == eventId && events[i].ticketTypes[j].id == ticketId && h == f then v
                else GetTicket(events[i].ticketTypes[j], h)))
  {
  }

  /** The tickets without the id, in their order. */
  function WithoutTicketId(ts: seq<Ticket>, ticketId: string): (r: seq<Ticket>)
    ensures forall j :: 0 <= j < |r| ==> r[j].id != ticketId
    ensures forall j :: 0 <= j < |ts| && ts[j].id != ticketId ==> ts[j] in r
    ensures IsSubseq(r, ts)
    ensures forall x :: multiset(r)[x] == if x.id != ticketId then multiset(ts)[x] else 0
  {
    var keep := (t: Ticket) => t.id != ticketId;
    FilterIsSubseq(ts, keep);
    FilterMultiset(ts, keep);
    Filter(ts, keep)
  }

  /** `removeEventTicket` */
  function WithoutTicket(events: seq<ClubEvent>, eventId: string, ticketId: string): (r: seq<ClubEvent>)
    ensures |r| == |events| && forall i :: 0 <= i < |r| ==> r[i].id == events[i].id
  {
    seq(|events|, i requires 0 <= i < |events| =>
      if events[i].id == eventId then events[i].(ticketTypes := WithoutTicketId(events[i].ticketTypes, ticketId))
      else events[i])
  }

  /**
   * Within the events with the event id, exactly the tickets with the ticket
   * id disappear and the others stay in order; nothing else changes.
   */
  lemma WithoutTicketSpec(events: seq<ClubEvent>, eventId: string, ticketId: string)
    ensures |WithoutTicket(events, eventId, ticketId)| == |events|
    ensures forall i :: 0 <= i < |events| ==>
      var e := WithoutTicket(events, eventId, ticketId)[i];
      e.id == events[i].id && (forall g :: Get(e, g) == Get(events[i], g))
    ensures forall i :: 0 <= i < |events| && events[i].id == eventId ==>
      var ts := WithoutTicket(events, eventId, ticketId)[i].ticketTypes;
      IsSubseq(ts, events[i].ticketTypes)
      && (forall j :: 0 <= j < |ts| ==> ts[j].id != ticketId)
      && (forall j :: 0 <= j < |events[i].ticketTypes| && events[i].ticketTypes[j].id != ticketId ==>
            events[i].ticketTypes[j] in ts)
    ensures forall i :: 0 <= i < |events| && events[i].id != eventId ==> WithoutTicket(events, eventId, ticketId)[i] == events[i]
  {
  }

  /** `updateMenuItem` */
  function UpdatedMenuItems(items: seq<MenuItem>, itemId: string, f: MenuField, v: string): (r: seq<MenuItem>)
    ensures |r| == |items| && forall i :: 0 <= i < |r| ==> r[i].id == items[i].id
  {
    seq(|items|, i requires 0 <= i < |items| => if items[i].id == itemId then SetItem(items[i], f, v) else items[i])
  }

  /** Only the named field of the items with the id changes. */
  lemma UpdatedMenuItemsSpec(items: seq<MenuItem>, itemId: string, f: MenuField, v: string)
    ensures |UpdatedMenuItems(items, itemId, f, v)| == |items|
    ensures forall i, g :: 0 <= i < |items| ==>
      UpdatedMenuItems(items, itemId, f, v)[i].id == items[i].id
      && GetItem(UpdatedMenuItems(items, itemId, f, v)[i], g) ==
         (if items[i].id == itemId && g == f then Some(v) else GetItem(items[i], g))
  {
  }

  /** `removeMenuItem`: the items without the id, in their order. */
  function WithoutMenuItem(items: seq<MenuItem>, itemId: string): (r: seq<MenuItem>)
    ensures forall i :: 0 <= i < |r| ==> r[i].id != itemId
    ensures forall i :: 0 <= i < |items| && items[i].id != itemId ==> items[i] in r
    ensures IsSubseq(r, items)
    ensures forall x :: multiset(r)[x] == if x.id != itemId then multiset(items)[x] else 0
  {
    var keep := (m: MenuItem) => m.id != itemId;
    FilterIsSubseq(items, keep);
    FilterMultiset(items, keep);
    Filter(items, keep)
  }

  /** The draft a form screen keeps in its component state. */
  class EventDraft {
    var events: seq<ClubEvent>
    var menuItems: seq<MenuItem>
    /** Whether new menu items carry an (empty) image field. */
    const menuItemsHaveImage: bool

    constructor (menuItemsHaveImage: bool)
      ensures events == [] && menuItems == [] && this.menuItemsHaveImage == menuItemsHaveImage
    {
      events := [];
      menuItems := [];
      this.menuItemsHaveImage := menuItemsHaveImage;
    }

    /** `addEvent`, with the id drawn from the clock. */
    method AddEvent(now: string)
      modifies this
      ensures events == old(events) + [BlankEvent(now)] && menuItems == old(menuItems)
    {
      events := events + [BlankEvent(now)];
    }

    method UpdateEvent(id: string, f: EventField, v: FieldValue)
      requires Fits(f, v)
      modifies this
      ensures events == UpdatedEvents(old(events), id, f, v) && menuItems == old(menuItems)
    {
      events := UpdatedEvents(events, id, f, v);
    }

    method RemoveEvent(id: string)
      modifies this
      ensures events == WithoutEvent(old(events), id) && menuItems == old(menuItems)
    {
      events := WithoutEvent(events, id);
    }

    method AddTicketToEvent(eventId: string, now: string)
      modifies this
      ensures events == WithAddedTicket(old(events), eventId, BlankTicket(now)) && menuItems == old(menuItems)
    {
      events := WithAddedTicket(events, eventId, BlankTicket(now));
    }

    method UpdateEventTicket(eventId: string, ticketId: string, f: TicketField, v: string)
      modifies this
      ensures events == WithUpdatedTicket(old(events), eventId, ticketId, f, v) && menuItems == old(menuItems)
    {
      events := WithUpdatedTicket(events, eventId, ticketId, f, v);
    }

    method RemoveEventTicket(eventId: string, ticketId: string)
      modifies this
      ensures events == WithoutTicket(old(events), eventId, ticketId) && menuItems == old(menuItems)
    {
      events := WithoutTicket(events, eventId, ticketId);
    }

    /** `addMenuItem`: the new item goes first and the existing items follow unchanged. */
    method AddMenuItem(now: string)
      modifies this
      ensures menuItems == [NewMenuItem(now, menuItemsHaveImage)] + old(menuItems) && events == old(events)
      ensures menuItems[0].category == DefaultCategory
    {
      menuItems := [NewMenuItem(now, menuItemsHaveImage)] + menuItems;
    }

    method UpdateMenuItem(itemId: string, f: MenuField, v: string)
      modifies this
      ensures menuItems == UpdatedMenuItems(old(menuItems), itemId, f, v) && events == old(events)
    {
      menuItems := UpdatedMenuItems(menuItems, itemId, f, v);
    }

    method RemoveMenuItem(itemId: string)
      modifies this
      ensures menuItems == WithoutMenuItem(old(menuItems), itemId) && events == old(events)
    {
      menuItems := WithoutMenuItem(menuItems, itemId);
    }
  }

  // ---------------------------------------------------------------------
  // Form validation
  // ---------------------------------------------------------------------

  /**
   * `!s?.trim()`: absent, empty or white space only, which is when trimming
   * leaves nothing (Text.TrimEmptyIffBlank).
   */
  predicate Missing(s: string) {
    Blank(s)
  }

  /** What an error message is about: the event, or a ticket or menu item by its 1-based position. */
  datatype Subject = TheEvent | TicketAt(n: nat) | MenuItemAt(n: nat)

  /** A validation error: a required field of the subject is blank. */
  datatype FormError = Required(subject: Subject, field: string)

  /** The text shown for an error, e.g. "Ticket 2 price is required". */
  function Message(err: FormError): string {
    match err.subject
    case TheEvent => "Event " + err.field + " is required"
    case TicketAt(n) => "Ticket " + NatToString(n) + " " + err.field + " is required"
    case MenuItemAt(n) => "Menu item " + NatToString(n) + " " + err.field + " is required"
  }

  /** `errors.push(err)` when the check fails. */
  function PushIf(errors: seq<FormError>, failed: bool, err: FormError): (r: seq<FormError>)
    ensures |r| == |errors| + (if failed then 1 else 0)
  {
    if failed then errors + [err] else errors
  }

  function EventErrors(e: ClubEvent, requireEventMap: bool): (r: seq<FormError>)
    ensures |r| <= 5 && forall i :: 0 <= i < |r| ==> r[i].subject == TheEvent
    ensures !requireEventMap ==> |r| <= 4
  {
    var errors := PushIf([], Missing(e.name), Required(TheEvent, "name"));
    var errors := PushIf(errors, Missing(e.date), Required(TheEvent, "date"));
    var errors := PushIf(errors, Missing(e.time), Required(TheEvent, "time"));
    var errors := PushIf(errors, Missing(e.description), Required(TheEvent, "description"));
    PushIf(errors, requireEventMap && (e.eventMap.None? || Missing(e.eventMap.value)), Required(TheEvent, "map"))
  }

  /** The errors of the ticket shown at 1-based position `n`. */
  function TicketErrorsAt(t: Ticket, n: nat): seq<FormError> {
    var errors := PushIf([], Missing(t.name), Required(TicketAt(n), "name"));
    var errors := PushIf(errors, Missing(t.price), Required(TicketAt(n), "price"));
    PushIf(errors, Missing(t.quantity), Required(TicketAt(n), "quantity"))
  }

  function TicketErrors(ts: seq<Ticket>): (r: seq<FormError>)
    ensures forall i :: 0 <= i < |r| ==> r[i].subject.TicketAt?
  {
    if ts == [] then [] else TicketErrors(ts[..|ts| - 1]) + TicketErrorsAt(ts[|ts| - 1], |ts|)
  }

  /** The errors of the menu item shown at 1-based position `n`. */
  function MenuErrorsAt(m: MenuItem, n: nat): seq<FormError> {
    var errors := PushIf([], Missing(m.name), Required(MenuItemAt(n), "name"));
    var errors := PushIf(errors, Missing(m.price), Required(MenuItemAt(n), "price"));
    PushIf(errors, Missing(m.category), Required(MenuItemAt(n), "category"))
  }

  function MenuErrors(items: seq<MenuItem>): (r: seq<FormError>)
    ensures forall i :: 0 <= i < |r| ==> r[i].subject.MenuItemAt?
  {
    if items == [] then [] else MenuErrors(items[..|items| - 1]) + MenuErrorsAt(items[|items| - 1], |items|)
  }

  /** The order of the three groups of errors: the event's own, the tickets', then the menu's. */
  function Rank(s: Subject): nat {
    match s
    case TheEvent => 0
    case TicketAt(_) => 1
    case MenuItemAt(_) => 2
  }

  /** `validateForm` of the form's first event; the edit screen also requires the event map. */
  function FormErrors(e: ClubEvent, items: seq<MenuItem>, requireEventMap: bool): (r: seq<FormError>)
    ensures forall i, j :: 0 <= i < j < |r| ==> Rank(r[i].subject) <= Rank(r[j].subject)
  {
    EventErrors(e, requireEventMap) + TicketErrors(e.ticketTypes) + MenuErrors(items)
  }

  /** The `forEach` callback for one ticket: each blank field pushes its error. */
  method PushTicketErrors(errors: seq<FormError>, t: Ticket, n: nat) returns (r: seq<FormError>)
    ensures r == errors + TicketErrorsAt(t, n)
  {
    var name, price, quantity := Missing(t.name), Missing(t.price), Missing(t.quantity);
    r := errors;
    if name { r := r + [Required(TicketAt(n), "name")]; }
    assert r == errors + PushIf([], name, Required(TicketAt(n), "name"));
    if price { r := r + [Required(TicketAt(n), "price")]; }
    assert r == errors + PushIf(PushIf([], name, Required(TicketAt(n), "name")), price, Required(TicketAt(n), "price"));
    if quantity { r := r + [Required(TicketAt(n), "quantity")]; }
  }

  /** The `forEach` callback for one menu item: each blank field pushes its error. */
  method PushMenuItemErrors(errors: seq<FormError>, m: MenuItem, n: nat) returns (r: seq<FormError>)
    ensures r == errors + MenuErrorsAt(m, n)
  {
    var name, price, category := Missing(m.name), Missing(m.price), Missing(m.category);
    r := errors;
    if name { r := r + [Required(MenuItemAt(n), "name")]; }
    assert r == errors + PushIf([], name, Required(MenuItemAt(n), "name"));
    if price { r := r + [Required(MenuItemAt(n), "price")]; }
    assert r == errors + PushIf(PushIf([], name, Required(MenuItemAt(n), "name")), price, Required(MenuItemAt(n), "price"));
    if category { r := r + [Required(MenuItemAt(n), "category")]; }
  }

  /** The `forEach` over the tickets, pushing each blank field's error. */
  method ValidateTickets(ts: seq<Ticket>) returns (errors: seq<FormError>)
    ensures errors == TicketErrors(ts)
  {
    errors := [];
    var k := 0;
    while k < |ts|
      invariant 0 <= k <= |ts|
      invariant errors == TicketErrors(ts[..k])
    {
      errors := PushTicketErrors(errors, ts[k], k + 1);
      assert ts[..k + 1][..k] == ts[..k];
      k := k + 1;
    }
    assert ts[..k] == ts;
  }

  /** The `forEach` over the menu items, pushing each blank field's error. */
  method ValidateMenuItems(items: seq<MenuItem>) returns (errors: seq<FormError>)
    ensures errors == MenuErrors(items)
  {
    errors := [];
    var k := 0;
    while k < |items|
      invariant 0 <= k <= |items|
      invariant errors == MenuErrors(items[..k])
    {
      errors := PushMenuItemErrors(errors, items[k], k + 1);
      assert items[..k + 1][..k] == items[..k];
      k := k + 1;
    }
    assert items[..k] == items;
  }

  /** The checks of the event's own fields, pushing each blank field's error. */
  method ValidateEventFields(e: ClubEvent, requireEventMap: bool) returns (errors: seq<FormError>)
    ensures errors == EventErrors(e, requireEventMap)
  {
    var name, date, time, description := Missing(e.name), Missing(e.date), Missing(e.time), Missing(e.description);
    var mapMissing := requireEventMap && (e.eventMap.None? || Missing(e.eventMap.value));
    errors := [];
    if name { errors := errors + [Required(TheEvent, "name")]; }
    if date { errors := errors + [Required(TheEvent, "date")]; }
    if time { errors := errors + [Required(TheEvent, "time")]; }
    if description { errors := errors + [Required(TheEvent, "description")]; }
    if mapMissing { errors := errors + [Required(TheEvent, "map")]; }
  }

  method ValidateForm(e: ClubEvent, items: seq<MenuItem>, requireEventMap: bool) returns (errors: seq<FormError>)
    ensures errors == FormErrors(e, items, requireEventMap)
  {
    errors := ValidateEventFields(e, requireEventMap);
    var ticketErrors := ValidateTickets(e.ticketTypes);
    var menuErrors := ValidateMenuItems(items);
    errors := errors + ticketErrors + menuErrors;
  }

  predicate TicketComplete(t: Ticket) {
    !Missing(t.name) && !Missing(t.price) && !Missing(t.quantity)
  }

  predicate MenuItemComplete(m: MenuItem) {
    !Missing(m.name) && !Missing(m.price) && !Missing(m.category)
  }

  /** Every required field of the form, in the event, its tickets and the menu, is filled in. */
  predicate FormComplete(e: ClubEvent, items: seq<MenuItem>, requireEventMap: bool) {
    !Missing(e.name) && !Missing(e.date) && !Missing(e.time) && !Missing(e.description)
    && (requireEventMap ==> e.eventMap.Some? && !Missing(e.eventMap.value))
    && (forall i :: 0 <= i < |e.ticketTypes| ==> TicketComplete(e.ticketTypes[i]))
    && (forall i :: 0 <= i < |items| ==> MenuItemComplete(items[i]))
  }

  lemma TicketErrorsAtEmptyIff(x: Ticket, n: nat)
    ensures TicketErrorsAt(x, n) == [] <==> TicketComplete(x)
  {
  }

  lemma AllTicketCompleteSnoc(s: seq<Ticket>, init: seq<Ticket>)
    requires s != [] && init == s[..|s| - 1]
    ensures (forall i :: 0 <= i < |s| ==> TicketComplete(s[i]))
      <==> (forall i :: 0 <= i < |init| ==> TicketComplete(init[i])) && TicketComplete(s[|s| - 1])
  {
    if (forall i :: 0 <= i < |init| ==> TicketComplete(init[i])) && TicketComplete(s[|s| - 1]) {
      forall i | 0 <= i < |s| ensures TicketComplete(s[i]) {
        if i < |init| { assert init[i] == s[i]; }
      }
    }
    if forall i :: 0 <= i < |s| ==> TicketComplete(s[i]) {
      forall i | 0 <= i < |init| ensures TicketComplete(init[i]) { assert init[i] == s[i]; }
    }
  }

  lemma {:induction false} TicketErrorsEmptyIff(ts: seq<Ticket>)
    ensures TicketErrors(ts) == [] <==> forall i :: 0 <= i < |ts| ==> TicketComplete(ts[i])
  {
    if ts != [] {
      var init, last := ts[..|ts| - 1], ts[|ts| - 1];
      TicketErrorsEmptyIff(init);
      TicketErrorsAtEmptyIff(last, |ts|);
      AllTicketCompleteSnoc(ts, init);
    }
  }

  lemma MenuErrorsAtEmptyIff(x: MenuItem, n: nat)
    ensures MenuErrorsAt(x, n) == [] <==> MenuItemComplete(x)
  {
  }

  lemma AllMenuItemCompleteSnoc(s: seq<MenuItem>, init: seq<MenuItem>)
    requires s != [] && init == s[..|s| - 1]
    ensures (forall i :: 0 <= i < |s| ==> MenuItemComplete(s[i]))
      <==> (forall i :: 0 <= i < |init| ==> MenuItemComplete(init[i])) && MenuItemComplete(s[|s| - 1])
  {
    if (forall i :: 0 <= i < |init| ==> MenuItemComplete(init[i])) && MenuItemComplete(s[|s| - 1]) {
      forall i | 0 <= i < |s| ensures MenuItemComplete(s[i]) {
        if i < |init| { assert init[i] == s[i]; }
      }
    }
    if forall i :: 0 <= i < |s| ==> MenuItemComplete(s[i]) {
      forall i | 0 <= i < |init| ensures MenuItemComplete(init[i]) { assert init[i] == s[i]; }
    }
  }

  lemma {:induction false} MenuErrorsEmptyIff(items: seq<MenuItem>)
    ensures MenuErrors(items) == [] <==> forall i :: 0 <= i < |items| ==> MenuItemComplete(items[i])
  {
    if items != [] {
      var init, last := items[..|items| - 1], items[|items| - 1];
      MenuErrorsEmptyIff(init);
      MenuErrorsAtEmptyIff(last, |items|);
      AllMenuItemCompleteSnoc(items, init);
    }
  }

  /** The form validates exactly when every required field is filled in. */
  lemma FormErrorsEmptyIff(e: ClubEvent, items: seq<MenuItem>, requireEventMap: bool)
    ensures FormErrors(e, items, requireEventMap) == [] <==> FormComplete(e, items, requireEventMap)
  {
    TicketErrorsEmptyIff(e.ticketTypes);
    MenuErrorsEmptyIff(items);
  }

  /** Every error of the ticket at 0-based position k is reported, numbered k + 1. */
  lemma {:induction false} TicketErrorsReport(ts: seq<Ticket>, k: nat)
    requires k < |ts|
    ensures forall m :: m in TicketErrorsAt(ts[k], k + 1) ==> m in TicketErrors(ts)
  {
    if k < |ts| - 1 {
      var init := ts[..|ts| - 1];
      TicketErrorsReport(init, k);
      assert init[k] == ts[k];
    }
  }

  /** Every error of the menu item at 0-based position k is reported, numbered k + 1. */
  lemma {:induction false} MenuErrorsReport(items: seq<MenuItem>, k: nat)
    requires k < |items|
    ensures forall m :: m in MenuErrorsAt(items[k], k + 1) ==> m in MenuErrors(items)
  {
    if k < |items| - 1 {
      var init := items[..|items| - 1];
      MenuErrorsReport(init, k);
      assert init[k] == items[k];
    }
  }

  /** A blank ticket name or menu item name is reported with the item's 1-based position. */
  lemma BlankNamesReported(e: ClubEvent, items: seq<MenuItem>, requireEventMap: bool, k: nat)
    ensures k < |e.ticketTypes| && Missing(e.ticketTypes[k].name) ==>
      Required(TicketAt(k + 1), "name") in FormErrors(e, items, requireEventMap)
    ensures k < |items| && Missing(items[k].name) ==>
      Required(MenuItemAt(k + 1), "name") in FormErrors(e, items, requireEventMap)
  {
    if k < |e.ticketTypes| { TicketErrorsReport(e.ticketTypes, k); }
    if k < |items| { MenuErrorsReport(items, k); }
  }

  /**
   * The edit screen differs from the create form only in the event map: with
   * a filled-in map both report the same errors, and without one only the
   * edit screen reports it.
   */
  lemma EventMapOnlyRequiredWhenEditing(e: ClubEvent, items: seq<MenuItem>)
    ensures e.eventMap.Some? && !Missing(e.eventMap.value) ==> FormErrors(e, items, true) == FormErrors(e, items, false)
    ensures !(e.eventMap.Some? && !Missing(e.eventMap.value)) ==>
      Required(TheEvent, "map") in FormErrors(e, items, true) && Required(TheEvent, "map") !in FormErrors(e, items, false)
  {
  }

  // ---------------------------------------------------------------------
  // The create request
  // ---------------------------------------------------------------------

  /** The guest-experience section of the form; the table layout stays null until one is picked. */
  datatype GuestInfo = GuestInfo(dressCode: string, entryRules: string, tableLayoutMap: Option<string>,
                                 parkingInfo: string, accessibilityInfo: string)

  /** The other sections posted with the event: happy hours, gallery, promo videos and guest information. */
  datatype EventExtras = EventExtras(happyHourTimings: string, galleryPhotos: seq<string>,
                                     promoVideos: seq<string>, guest: GuestInfo)

  /**
   * A nullable value of the form as it travels: as written the form posts
   * null; with `omitNulls` it sends undefined, which leaves the key out.
   */
  function Posted(o: Option<string>, omitNulls: bool): EventSchema.Optional<string> {
    match o
    case Some(v) => EventSchema.Given(v)
    case None => if omitNulls then EventSchema.Absent else EventSchema.Null
  }

  /** A menu item's image: an item without the field has no key to post. */
  function ItemImageInput(o: Option<string>): EventSchema.Optional<string> {
    match o
    case Some(v) => EventSchema.Given(v)
    case None => EventSchema.Absent
  }

  function TicketInput(t: Ticket): EventSchema.TicketInput {
    EventSchema.TicketInput(t.name, t.price, EventSchema.Given(t.description), t.quantity)
  }

  function MenuItemInput(m: MenuItem): EventSchema.MenuItemInput {
    EventSchema.MenuItemInput(m.name, m.price, EventSchema.Given(m.description), m.category, ItemImageInput(m.itemImage))
  }

  function MenuInputs(items: seq<MenuItem>): seq<EventSchema.MenuItemInput> {
    seq(|items|, i requires 0 <= i < |items| => MenuItemInput(items[i]))
  }

  function GuestInput(g: GuestInfo, omitNulls: bool): EventSchema.GuestExperienceInput {
    EventSchema.GuestExperienceInput(EventSchema.Given(g.dressCode), EventSchema.Given(g.entryRules),
                                     Posted(g.tableLayoutMap, omitNulls), EventSchema.Given(g.parkingInfo),
                                     EventSchema.Given(g.accessibilityInfo))
  }

  /**
   * The body the create form posts: its single event with the cover image
   * `coverImageUrl || events[0].coverImage`, its tickets, the menu and the
   * other sections.  As written (`omitNulls` false) a missing cover image
   * and an unpicked table layout go out as null.
   */
  function CreatePayload(e: ClubEvent, items: seq<MenuItem>, x: EventExtras, omitNulls: bool): (r: EventSchema.CreateEventInput)
    ensures |r.events| == 1
    ensures r.events[0].coverImage.Null? <==> !omitNulls && e.coverImage.None?
    ensures r.events[0].tickets.Given? && |r.events[0].tickets.value| == |e.ticketTypes|
    ensures r.events[0].menuItems.Given? && |r.events[0].menuItems.value| == |items|
  {
    var tickets := seq(|e.ticketTypes|, i requires 0 <= i < |e.ticketTypes| => TicketInput(e.ticketTypes[i]));
    EventSchema.CreateEventInput([EventSchema.EventInput(
      e.name, e.date, e.time, EventSchema.Given(e.djArtists), e.description, Posted(e.coverImage, omitNulls),
      EventSchema.Given(tickets), EventSchema.Given(MenuInputs(items)),
      EventSchema.Given(GuestInput(x.guest, omitNulls)),
      EventSchema.Given(x.galleryPhotos), EventSchema.Given(x.promoVideos), EventSchema.Given(x.happyHourTimings))])
  }

  /**
   * For a form that passes the client-side validation, the schema accepts
   * the request exactly when nothing null is posted: as written, only when
   * a cover image is set and a table layout is picked.
   */
  lemma ValidFormAcceptedIff(e: ClubEvent, items: seq<MenuItem>, x: EventExtras, omitNulls: bool)
    requires FormErrors(e, items, false) == []
    ensures EventSchema.Issues(CreatePayload(e, items, x, omitNulls)) == []
            <==> omitNulls || (e.coverImage.Some? && x.guest.tableLayoutMap.Some?)
  {
    assert FormComplete(e, items, false) by { FormErrorsEmptyIff(e, items, false); }
    var p := CreatePayload(e, items, x, omitNulls);
    EventSchema.AcceptedIff(p);
    CompleteEventOk(e, items, x, omitNulls);
  }

  /** The event of the request of a complete form is well-formed exactly when nothing null is posted. */
  lemma CompleteEventOk(e: ClubEvent, items: seq<MenuItem>, x: EventExtras, omitNulls: bool)
    requires FormComplete(e, items, false)
    ensures EventSchema.EventOk(CreatePayload(e, items, x, omitNulls).events[0])
            <==> omitNulls || (e.coverImage.Some? && x.guest.tableLayoutMap.Some?)
  {
    var ev := CreatePayload(e, items, x, omitNulls).events[0];
    forall i | 0 <= i < |e.ticketTypes| ensures EventSchema.TicketOk(ev.tickets.value[i]) {
      var t := e.ticketTypes[i];
      assert t.name != [] && t.price != [] && t.quantity != [];
    }
    forall i | 0 <= i < |items| ensures EventSchema.MenuItemOk(ev.menuItems.value[i]) {
      var m := items[i];
      assert m.name != [] && m.price != [] && m.category != [];
    }
  }

  /**
   * As written, a filled-in form with no cover image and no table layout,
   * which the client accepts, is refused by the schema.
   */
  lemma FilledFormWithoutCoverRefused(e: ClubEvent, items: seq<MenuItem>, x: EventExtras)
    requires FormErrors(e, items, false) == [] && e.coverImage.None?
    ensures EventSchema.NullString in EventSchema.Issues(CreatePayload(e, items, x, false))
  {
    ValidFormAcceptedIff(e, items, x, false);
    EventSchema.NullCoverRefused(CreatePayload(e, items, x, false));
  }

  /** Corrected: sending undefined for the missing values, every form the client accepts passes the schema. */
  lemma ValidFormMeetsSchema(e: ClubEvent, items: seq<MenuItem>, x: EventExtras)
    requires FormErrors(e, items, false) == []
    ensures EventSchema.Issues(CreatePayload(e, items, x, true)) == []
  {
    ValidFormAcceptedIff(e, items, x, true);
  }
}
