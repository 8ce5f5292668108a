// The ticket purchase screen (payment): the ticket types passed in as a
// JSON parameter, the default choice, the remaining count and total of the
// chosen type, and the checks made before a purchase request is sent.

module Payment {
  import opened Basics
  import TicketCounter

  /** A ticket type as the event stores it; the price is a number of the currency. */
  datatype TicketType = TicketType(name: string, price: real, description: string,
                                   quantityAvailable: int, quantitySold: int)

  /** The `tickets` navigation parameter: missing, not JSON, or a parsed list. */
  datatype TicketsParam = NoParam | Unparsable | Parsed(list: seq<TicketType>)

  /** `eventTickets`: a missing or malformed parameter gives no tickets. */
  function EventTickets(p: TicketsParam): (r: seq<TicketType>)
    ensures p.Parsed? ==> r == p.list
    ensures !p.Parsed? ==> r == []
  {
    match p
    case Parsed(list) => list
    case _ => []
  }

  function Available(t: TicketType): int { t.quantityAvailable - t.quantitySold }

  /** The index of the first ticket type with tickets left. */
  function FirstAvailable(ts: seq<TicketType>): (r: Option<nat>)
    ensures r.Some? ==> r.value < |ts| && Available(ts[r.value]) > 0
                        && forall j :: 0 <= j < r.value ==> Available(ts[j]) <= 0
    ensures r.None? ==> forall j :: 0 <= j < |ts| ==> Available(ts[j]) <= 0
  {
    if ts == [] then None
    else if Available(ts[0]) > 0 then Some(0)
    else match FirstAvailable(ts[1..])
      case None => None
      case Some(i) => Some(i + 1)
  }

  /** The selection after the default-choice effect: the first available type, else unchanged. */
  function DefaultSelection(ts: seq<TicketType>, current: string): (r: string)
    ensures r == current || exists i :: 0 <= i < |ts| && ts[i].name == r && Available(ts[i]) > 0
    ensures (exists i :: 0 <= i < |ts| && Available(ts[i]) > 0) ==> exists i :: 0 <= i < |ts| && ts[i].name == r
    ensures FirstAvailable(ts).Some? ==> r == ts[FirstAvailable(ts).value].name
    ensures FirstAvailable(ts).None? ==> r == current
  {
    match FirstAvailable(ts)
    case Some(i) => ts[i].name
    case None => current
  }

  /** `eventTickets.find(t => t.name === name)` */
  function FindByName(ts: seq<TicketType>, name: string): (r: Option<nat>)
    ensures r.Some? ==> r.value < |ts| && ts[r.value].name == name
                        && forall j :: 0 <= j < r.value ==> ts[j].name != name
    ensures r.None? ==> forall j :: 0 <= j < |ts| ==> ts[j].name != name
  {
    if ts == [] then None
    else if ts[0].name == name then Some(0)
    else match FindByName(ts[1..], name)
      case None => None
      case Some(i) => Some(i + 1)
  }

  function SelectedTicket(ts: seq<TicketType>, name: string): (r: Option<TicketType>)
    ensures r.Some? ==> r.value in ts && r.value.name == name
    ensures r.None? <==> forall t :: t in ts ==> t.name != name
  {
    match FindByName(ts, name)
    case Some(i) => Some(ts[i])
    case None => None
  }

  /** `availableTickets` */
  function AvailableTickets(ts: seq<TicketType>, name: string): (r: int)
    ensures SelectedTicket(ts, name).None? ==> r == 0
    ensures SelectedTicket(ts, name).Some? ==> r == Available(SelectedTicket(ts, name).value)
  {
    match SelectedTicket(ts, name)
    case Some(t) => Available(t)
    case None => 0
  }

  /** `totalAmount` */
  function TotalAmount(ts: seq<TicketType>, name: string, quantity: int): (r: real)
    ensures SelectedTicket(ts, name).None? ==> r == 0.0
    ensures SelectedTicket(ts, name).Some? ==> r == SelectedTicket(ts, name).value.price * quantity as real
  {
    match SelectedTicket(ts, name)
    case Some(t) => t.price * quantity as real
    case None => 0.0
  }

  /** The counter is shown for a selected type with tickets left, capped at ten. */
  function CounterMax(available: int): (r: int)
    ensures r <= 10 && r <= available && (r == 10 || r == available)
  {
    if available < TicketCounter.DefaultMax then available else TicketCounter.DefaultMax
  }

  predicate CounterShown(ts: seq<TicketType>, name: string) {
    SelectedTicket(ts, name).Some? && AvailableTickets(ts, name) > 0
  }

  predicate UniqueNames(ts: seq<TicketType>) {
    forall i, j :: 0 <= i < j < |ts| ==> ts[i].name != ts[j].name
  }

  /**
   * When some type has tickets left, the default choice selects a type with
   * tickets left, provided the names are distinct (the lookup is by name).
   */
  lemma DefaultSelectionAvailable(ts: seq<TicketType>, current: string)
    requires UniqueNames(ts)
    requires exists j :: 0 <= j < |ts| && Available(ts[j]) > 0
    ensures SelectedTicket(ts, DefaultSelection(ts, current)).Some?
    ensures AvailableTickets(ts, DefaultSelection(ts, current)) > 0
  {
    var i := FirstAvailable(ts).value;
    var k := FindByName(ts, ts[i].name);
    assert k.Some?;
    assert k.value == i;
  }

  /** With two types of the same name, the lookup finds the first even when the default chose the second. */
  lemma DuplicateNameSelectsSoldOut()
    ensures var ts := [TicketType("VIP", 100.0, "", 10, 10), TicketType("VIP", 150.0, "", 10, 2)];
      DefaultSelection(ts, "") == "VIP" && AvailableTickets(ts, DefaultSelection(ts, "")) == 0
  {
    var ts := [TicketType("VIP", 100.0, "", 10, 10), TicketType("VIP", 150.0, "", 10, 2)];
    assert FirstAvailable(ts[1..]) == Some(0);
    assert FindByName(ts, "VIP") == Some(0);
  }

  datatype PurchaseRequest = PurchaseRequest(eventId: string, ticketType: string, quantity: int)

  /** What pressing Pay leads to before the network call. */
  datatype PurchaseCheck =
    | NoTicketSelected                  // "Please select a ticket type"
    | NotEnoughTickets(available: int)  // "Only N tickets available"
    | Send(request: PurchaseRequest)

  /** The checks of `handlePurchase`, in their order. */
  function CheckPurchase(ts: seq<TicketType>, eventId: string, name: string, quantity: int): (r: PurchaseCheck)
    ensures r.NoTicketSelected? <==> SelectedTicket(ts, name).None?
    ensures r.NotEnoughTickets? <==> SelectedTicket(ts, name).Some? && quantity > AvailableTickets(ts, name)
    ensures r.Send? ==> r.request == PurchaseRequest(eventId, name, quantity)
                        && quantity <= Available(SelectedTicket(ts, name).value)
  {
    if SelectedTicket(ts, name).None? then NoTicketSelected
    else if quantity > AvailableTickets(ts, name) then NotEnoughTickets(AvailableTickets(ts, name))
    else Send(PurchaseRequest(eventId, name, quantity))
  }

  /** The quantity the counter can reach from 1 always passes the availability check. */
  lemma CounterQuantityPasses(ts: seq<TicketType>, eventId: string, name: string, presses: seq<bool>)
    requires CounterShown(ts, name)
    ensures var q := TicketCounter.Presses(1, 1, CounterMax(AvailableTickets(ts, name)), presses);
      CheckPurchase(ts, eventId, name, q).Send?
  {
    var max := CounterMax(AvailableTickets(ts, name));
    TicketCounter.PressesInRange(1, 1, max, presses);
  }

  /** The result of the purchase request. */
  datatype PurchaseReply = Succeeded | Failed(message: Option<string>) | Unreachable(message: Option<string>)

  /** Where a reply leads: the bookings tab, or an alert with the server's message or a default. */
  datatype Outcome = ToBookings | Alert(title: string, message: string)

  function ReplyOutcome(reply: PurchaseReply): (r: Outcome)
    ensures r.ToBookings? <==> reply.Succeeded?
    ensures reply.Failed? && reply.message.Some? && reply.message.value != "" ==> r.message == reply.message.value
    ensures reply.Unreachable? && reply.message.Some? && reply.message.value != "" ==> r.message == reply.message.value
    ensures r.Alert? ==> r.title == "Purchase Failed" && r.message != ""
  {
    match reply
    case Succeeded => ToBookings
    case Failed(m) => Alert("Purchase Failed", if m.Some? && m.value != "" then m.value else "Something went wrong")
    case Unreachable(m) =>
      Alert("Purchase Failed", if m.Some? && m.value != "" then m.value else "Failed to purchase tickets. Please try again.")
  }

  /** The screen's state: the chosen type, the quantity and whether a purchase is in flight. */
  class PaymentScreen {
    const tickets: seq<TicketType>
    var selectedTicketType: string
    var quantity: int
    var purchasing: bool

    /** Mounting the screen, including the default-choice effect. */
    constructor (param: TicketsParam)
      ensures tickets == EventTickets(param)
      ensures selectedTicketType == DefaultSelection(tickets, "")
      ensures quantity == 1 && !purchasing
    {
      tickets := EventTickets(param);
      quantity := 1;
      purchasing := false;
      selectedTicketType := DefaultSelection(EventTickets(param), "");
    }

    /** Tapping a ticket type: only a type with tickets left becomes the selection. */
    method Tap(i: nat)
      requires i < |tickets|
      modifies this
      ensures selectedTicketType == if Available(tickets[i]) > 0 then tickets[i].name else old(selectedTicketType)
      ensures quantity == old(quantity) && purchasing == old(purchasing)
    {
      if Available(tickets[i]) > 0 {
        selectedTicketType := tickets[i].name;
      }
    }

    /** The counter's onChange. */
    method SetQuantity(q: int)
      modifies this
      ensures quantity == q && selectedTicketType == old(selectedTicketType) && purchasing == old(purchasing)
    {
      quantity := q;
    }

    /** Pressing Pay: the request to send, if the checks pass; sending marks the screen busy. */
    method StartPurchase(eventId: string) returns (check: PurchaseCheck)
      modifies this
      ensures check == CheckPurchase(tickets, eventId, selectedTicketType, quantity)
      ensures purchasing == (check.Send? || old(purchasing))
      ensures selectedTicketType == old(selectedTicketType) && quantity == old(quantity)
    {
      check := CheckPurchase(tickets, eventId, selectedTicketType, quantity);
      if check.Send? {
        purchasing := true;
      }
    }

    /** The reply arrives: the screen is no longer busy. */
    method FinishPurchase(reply: PurchaseReply) returns (outcome: Outcome)
      modifies this
      ensures outcome == ReplyOutcome(reply) && !purchasing
      ensures selectedTicketType == old(selectedTicketType) && quantity == old(quantity)
    {
      purchasing := false;
      outcome := ReplyOutcome(reply);
    }
  }
}
