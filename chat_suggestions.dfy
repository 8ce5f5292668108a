// The suggestion chips of the chatbot (chatbotSuggestions): a fixed list per
// screen, the general list for any other screen, and two city-specific
// chips put in front for a city other than Dubai, six chips at most.
//
// The constant lists are values here, so no call can change them.

module ChatSuggestions {
  import opened Basics

  datatype Category = Events | Clubs | Bookings | General | Help

  datatype Suggestion = Suggestion(text: string, category: Category)

  const Home: seq<Suggestion> := [
    Suggestion("Find events near me", Events),
    Suggestion("What's happening tonight?", Events),
    Suggestion("Show me clubs in Dubai", Clubs),
    Suggestion("Events this weekend", Events),
    Suggestion("Best nightclubs for electronic music", Clubs),
    Suggestion("Events under د.إ 100", Events)]

  const MapScreen: seq<Suggestion> := [
    Suggestion("Clubs within 5km", Clubs),
    Suggestion("Get directions to nearest club", Help),
    Suggestion("Show clubs by rating", Clubs),
    Suggestion("What's the parking situation?", Help),
    Suggestion("Clubs accessible by metro", Clubs),
    Suggestion("Show me club photos", Clubs)]

  const BookingsScreen: seq<Suggestion> := [
    Suggestion("Show my upcoming events", Bookings),
    Suggestion("How do I cancel a booking?", Help),
    Suggestion("Can I transfer my ticket?", Help),
    Suggestion("What's the refund policy?", Help),
    Suggestion("How to show my QR code?", Help)]

  const Profile: seq<Suggestion> := [
    Suggestion("How to update my preferences?", Help),
    Suggestion("Change notification settings", Help),
    Suggestion("View my booking history", Bookings),
    Suggestion("How to become a club owner?", Help),
    Suggestion("Account security settings", Help),
    Suggestion("Contact support", Help)]

  const GeneralList: seq<Suggestion> := [
    Suggestion("Find events near me", Events),
    Suggestion("Show me clubs in Dubai", Clubs),
    Suggestion("What's happening tonight?", Events),
    Suggestion("How do I book tickets?", Help),
    Suggestion("Events this weekend", Events),
    Suggestion("Contact support", Help)]

  const Screens: set<string> := {"HOME", "MAP", "BOOKINGS", "PROFILE", "GENERAL"}

  /** `getScreenSuggestions`: the screen's list; a missing or unknown screen gets the general list. */
  function ScreenSuggestions(screen: Option<string>): (r: seq<Suggestion>)
    ensures screen.None? || screen.value !in Screens ==> r == GeneralList
    ensures 1 <= |r| <= 6
  {
    match screen
    case None => GeneralList
    case Some(s) =>
      if s == "HOME" then Home
      else if s == "MAP" then MapScreen
      else if s == "BOOKINGS" then BookingsScreen
      else if s == "PROFILE" then Profile
      else GeneralList
  }

  /** Whether the city earns its own chips: given, and not Dubai. */
  predicate LocalCity(city: Option<string>) {
    city.Some? && city.value != "" && city.value != "Dubai"
  }

  /**
   * `getContextualSuggestions`: the screen's list is copied, the city chips
   * are put in front one after the other, and the first six are kept.
   */
  method ContextualSuggestions(screen: Option<string>, city: Option<string>) returns (r: seq<Suggestion>)
    ensures 1 <= |r| <= 6
    ensures !LocalCity(city) ==> r == Take(ScreenSuggestions(screen), 6)
    ensures LocalCity(city) ==>
      r == [Suggestion("Show me clubs in " + city.value, Clubs), Suggestion("Find events in " + city.value, Events)]
           + Take(ScreenSuggestions(screen), 4)
  {
    var suggestions := ScreenSuggestions(screen);
    if LocalCity(city) {
      suggestions := [Suggestion("Find events in " + city.value, Events)] + suggestions;
      suggestions := [Suggestion("Show me clubs in " + city.value, Clubs)] + suggestions;
    }
    r := Take(suggestions, 6);
  }
}
