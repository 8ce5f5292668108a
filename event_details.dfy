// The event details page of a club owner (event-details.tsx): the lowest
// ticket price shown, and the edit and delete actions, which do nothing
// until the event has loaded.  The requests and dialogs are not modelled;
// an action is the value saying what the page would do.

module EventDetails {
  import opened Basics

  datatype TicketType = TicketType(id: string, name: string, price: real)

  datatype LoadedEvent = LoadedEvent(id: string, name: string, tickets: Option<seq<TicketType>>)

  /** `Math.min(...prices)` over a non-empty list. */
  function MinPrice(tickets: seq<TicketType>): (r: real)
    requires tickets != []
    ensures forall t :: t in tickets ==> r <= t.price
    ensures exists t :: t in tickets && t.price == r
  {
    if |tickets| == 1 then
      assert tickets[0] in tickets;
      tickets[0].price
    else
      var rest := MinPrice(tickets[1..]);
      assert forall t :: t in tickets ==> t == tickets[0] || t in tickets[1..];
      assert tickets[0] in tickets;
      assert forall t :: t in tickets[1..] ==> t in tickets;
      if tickets[0].price <= rest then tickets[0].price else rest
  }

  /** `getLowestPrice`: 0 without tickets, else the cheapest ticket's price. */
  function LowestPrice(tickets: Option<seq<TicketType>>): (r: real)
    ensures tickets.None? || tickets.value == [] ==> r == 0.0
    ensures tickets.Some? && tickets.value != [] ==>
      (forall t :: t in tickets.value ==> r <= t.price) && (exists t :: t in tickets.value && t.price == r)
  {
    match tickets
    case None => 0.0
    case Some(ts) => if ts == [] then 0.0 else MinPrice(ts)
  }

  /** The lowest price does not depend on the order the ticket types are listed in. */
  lemma LowestPriceOrderFree(a: seq<TicketType>, b: seq<TicketType>)
    requires multiset(a) == multiset(b)
    ensures LowestPrice(Some(a)) == LowestPrice(Some(b))
  {
    if a != [] {
      assert |b| == |multiset(b)| == |a|;
      assert b != [];
      var la, lb := LowestPrice(Some(a)), LowestPrice(Some(b));
      assert la == MinPrice(a) && lb == MinPrice(b);
      var x :| x in a && x.price == la;
      var y :| y in b && y.price == lb;
      assert x in multiset(b) && y in multiset(a);
    } else {
      assert |b| == |multiset(b)| == 0;
    }
  }

  datatype Action =
    | NoAction
    | NavigateTo(path: string)
    | ConfirmDelete(eventId: string, prompt: string)

  /** `handleEditEvent` */
  function EditEvent(event: Option<LoadedEvent>): (r: Action)
    ensures event.None? <==> r == NoAction
    ensures event.Some? ==> r == NavigateTo("/editEvent?eventId=" + event.value.id)
  {
    match event
    case None => NoAction
    case Some(e) => NavigateTo("/editEvent?eventId=" + e.id)
  }

  /** `handleDeleteEvent`: a confirmation naming the event; the delete request only follows its Delete button. */
  function DeleteEvent(event: Option<LoadedEvent>): (r: Action)
    ensures event.None? <==> r == NoAction
    ensures event.Some? ==> r.ConfirmDelete? && r.eventId == event.value.id
    ensures event.Some? ==> r.prompt == "Are you sure you want to delete \"" + event.value.name + "\"? This action cannot be undone."
  {
    match event
    case None => NoAction
    case Some(e) => ConfirmDelete(e.id, "Are you sure you want to delete \"" + e.name + "\"? This action cannot be undone.")
  }

  /** What follows the server's reply to the delete request. */
  datatype DeleteOutcome = DeletedThenBack | ShowError(message: string)

  /** The reply to `DELETE /api/event/event/:id`; `Failed` is a thrown request. */
  datatype DeleteReply = Replied(success: bool, message: Option<string>) | Failed(message: Option<string>)

  function AfterDelete(reply: DeleteReply): (r: DeleteOutcome)
    ensures r.DeletedThenBack? <==> reply.Replied? && reply.success
    ensures r.ShowError? ==> r.message != ""
    ensures r.ShowError? && reply.message.Some? && reply.message.value != "" ==> r.message == reply.message.value
    ensures r.ShowError? && (reply.message.None? || reply.message.value == "") ==> r.message == "Failed to delete event"
  {
    match reply
    case Replied(success, message) =>
      if success then DeletedThenBack
      else ShowError(if message.Some? && message.value != "" then message.value else "Failed to delete event")
    case Failed(message) =>
      ShowError(if message.Some? && message.value != "" then message.value else "Failed to delete event")
  }
}
