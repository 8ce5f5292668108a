// The event card in the chatbot's answers (ChatbotEventCard): the sold-out
// badge, what a press does, and the booking line of a booked event.

module ChatEventCard {
  import opened Basics
  import opened Text
  import opened ChatCards
  import opened ChatEvents

  /** `isSoldOut`: no tickets is not sold out; otherwise every ticket type must be. */
  function IsSoldOut(tickets: Option<seq<Ticket>>): (r: bool)
    ensures tickets.None? || tickets.value == [] ==> !r
    ensures tickets.Some? && tickets.value != [] ==>
      (r <==> forall t :: t in tickets.value ==> t.quantityAvailable <= t.quantitySold)
  {
    match tickets
    case None => false
    case Some(ts) => ts != [] && AllSoldOut(ts)
  }

  /** `Array.prototype.every` over the ticket types. */
  function AllSoldOut(ts: seq<Ticket>): (r: bool)
    ensures r <==> forall t :: t in ts ==> t.quantityAvailable <= t.quantitySold
  {
    if ts == [] then true
    else
      assert forall t :: t in ts ==> t == ts[0] || t in ts[1..];
      ts[0].quantityAvailable <= ts[0].quantitySold && AllSoldOut(ts[1..])
  }

  /** One ticket type with seats left keeps the event on sale. */
  lemma OneAvailableNotSoldOut(tickets: seq<Ticket>, i: nat)
    requires i < |tickets| && tickets[i].quantityAvailable > tickets[i].quantitySold
    ensures !IsSoldOut(Some(tickets))
  {
    assert tickets[i] in tickets;
  }

  /** `handlePress`: a supplied handler replaces navigation to the event page. */
  function HandlePress(hasOnPress: bool, eventId: string): (r: Press)
    ensures hasOnPress <==> r == CallHandler
    ensures !hasOnPress ==> r.path == "/event/" + eventId
  {
    CardPress(hasOnPress, "/event/" + eventId)
  }

  datatype BookingStatus = Paid | Scanned

  /** The booking fields a booked event carries into the card. */
  datatype BookingInfo = BookingInfo(
    bookingId: string,
    status: Option<BookingStatus>,
    quantity: Option<int>,
    ticketType: Option<string>,
    ticketPrice: Option<real>)

  /** The booking line: quantity, ticket type and price, each defaulted by `||`. */
  datatype BookingLine = BookingLine(quantity: int, ticketType: string, price: real, showQrHint: bool)

  /**
   * The booking section: shown only for a booking id; a missing or zero
   * quantity reads 1, a missing or empty type "Ticket", a missing price 0;
   * the QR hint only for a paid booking.
   */
  function BookingSection(b: BookingInfo): (r: Option<BookingLine>)
    ensures r.Some? <==> b.bookingId != ""
    ensures r.Some? ==> (r.value.showQrHint <==> b.status == Some(Paid))
    ensures r.Some? ==> r.value.quantity == (if b.quantity.None? || b.quantity.value == 0 then 1 else b.quantity.value)
    ensures r.Some? ==> r.value.ticketType == (if b.ticketType.None? || b.ticketType.value == "" then "Ticket" else b.ticketType.value)
    ensures r.Some? ==> r.value.price == b.ticketPrice.GetOr(0.0)
  {
    if b.bookingId == "" then None
    else
      var quantity := if b.quantity.Some? && b.quantity.value != 0 then b.quantity.value else 1;
      Some(BookingLine(quantity, OrElse(b.ticketType.GetOr(""), "Ticket"), b.ticketPrice.GetOr(0.0), b.status == Some(Paid)))
  }

  /** The status badge: "Ready" for a paid booking, "Used" for a scanned one. */
  function StatusBadge(status: Option<BookingStatus>): (r: Option<string>)
    ensures status.None? <==> r.None?
    ensures r == Some("✅ Ready") <==> status == Some(Paid)
  {
    match status
    case None => None
    case Some(Paid) => Some("✅ Ready")
    case Some(Scanned) => Some("📱 Used")
  }
}
