// How the chatbot answers an intent (chatbotResponseUtils): the card frame
// sent with the answer, and which recommender writes the answer with which
// response type.  The recommenders themselves call the language model and
// are not modelled; the plan records which one is called on what.

module ChatResponse {
  import opened ChatEvents

  datatype CardKind = EventCard | ClubCard | BookingCard

  /** A card frame: its kind and title; the frontend fills in the items. */
  datatype Card = Card(kind: CardKind, title: string, itemCount: nat)

  predicate IsEventIntent(kind: string) { kind == "find_events" || kind == "filter_events" }
  predicate IsClubIntent(kind: string) { kind == "find_clubs" || kind == "filter_clubs" }

  /** `getCardData`: one empty frame for the event, club and bookings intents, none otherwise. */
  function CardData(intentKind: string): (r: seq<Card>)
    ensures IsEventIntent(intentKind) ==> r == [Card(EventCard, "Upcoming Events", 0)]
    ensures IsClubIntent(intentKind) ==> r == [Card(ClubCard, "Popular Clubs", 0)]
    ensures intentKind == "my_bookings" ==> r == [Card(BookingCard, "Your Bookings", 0)]
    ensures !IsEventIntent(intentKind) && !IsClubIntent(intentKind) && intentKind != "my_bookings" ==> r == []
    ensures |r| <= 1 && forall i :: 0 <= i < |r| ==> r[i].itemCount == 0
  {
    if IsEventIntent(intentKind) then [Card(EventCard, "Upcoming Events", 0)]
    else if IsClubIntent(intentKind) then [Card(ClubCard, "Popular Clubs", 0)]
    else if intentKind == "my_bookings" then [Card(BookingCard, "Your Bookings", 0)]
    else []
  }

  /** The model the database query read. */
  datatype QueryResult = ClubRows(clubs: seq<RawClub>) | EventRows(events: seq<ChatEvent>) | OtherRows

  /** Which writer produces the answer, and from what. */
  datatype Writer =
    | EventRecommendations(events: seq<ChatEvent>)
    | ClubRecommendations
    | GeneralConversation

  datatype Plan = Plan(writer: Writer, responseType: int)

  /**
   * `generateResponse`: events are recommended from the events of the clubs
   * read, or from the events read; clubs from the clubs read; anything else
   * goes to general conversation.
   */
  function ResponsePlan(intentKind: string, result: QueryResult): (r: Plan)
    ensures IsEventIntent(intentKind) ==> r.responseType == 2 && r.writer.EventRecommendations?
    ensures IsEventIntent(intentKind) && result.ClubRows? ==> r.writer.events == Extracted(result.clubs)
    ensures IsEventIntent(intentKind) && result.EventRows? ==> r.writer.events == result.events
    ensures IsClubIntent(intentKind) ==> r == Plan(ClubRecommendations, 3)
    ensures !IsEventIntent(intentKind) && !IsClubIntent(intentKind) ==> r == Plan(GeneralConversation, 0)
  {
    if IsEventIntent(intentKind) then
      match result
      case ClubRows(clubs) => Plan(EventRecommendations(Extracted(clubs)), 2)
      case EventRows(events) => Plan(EventRecommendations(events), 2)
      case OtherRows => Plan(EventRecommendations([]), 2)
    else if IsClubIntent(intentKind) then Plan(ClubRecommendations, 3)
    else Plan(GeneralConversation, 0)
  }

  /**
   * The card frame and the response type agree: an event frame goes with
   * type 2, a club frame with type 3, and every other answer has type 0.
   */
  lemma CardsMatchResponseType(intentKind: string, result: QueryResult)
    ensures var cards := CardData(intentKind); var t := ResponsePlan(intentKind, result).responseType;
      (t == 2 <==> cards == [Card(EventCard, "Upcoming Events", 0)])
      && (t == 3 <==> cards == [Card(ClubCard, "Popular Clubs", 0)])
      && (t == 0 <==> (cards == [] || cards == [Card(BookingCard, "Your Bookings", 0)]))
  {
  }
}
