// The rule-based parts of the chatbot's language service (openRouterService):
// keyword intent detection and its fallbacks, the policy topic of a
// question, the screen a prompt is told about, the database query chosen
// for an intent, and the booking counts put into the bookings prompt.
//
// The language model's reply to the intent request enters as a parameter
// (an intent it returned, a reply that did not parse, or a failed request);
// the prompt wording itself is not modelled.

module ChatIntents {
  import opened Basics
  import opened Text

  datatype CardType = EventCards | ClubCards | MixedCards

  /** The intent record the service returns; `kind` is the model's free-text type. */
  datatype Intent = Intent(
    kind: string,
    confidence: real,
    showCards: Option<bool>,
    cardType: Option<CardType>,
    nearMe: Option<bool>,
    location: string,
    keywords: Option<seq<string>>)

  function Plain(kind: string, confidence: real): Intent {
    Intent(kind, confidence, None, None, None, "", None)
  }

  /** What came back from the model when the keywords did not decide. */
  datatype ModelReply = Parsed(intent: Intent) | Unparsable | RequestFailed

  predicate MentionsAny(text: string, words: seq<string>) {
    exists i :: 0 <= i < |words| && Contains(text, words[i])
  }

  const BookingWords: seq<string> := ["my booking", "my ticket", "my order", "show my"]
  const EventWords: seq<string> := ["find event", "show event", "event near", "what event"]
  const ClubWords: seq<string> := ["find club", "show club", "club near", "what club"]

  /** `analyzeIntent`: keywords first, then the model's reply, then keyword fallbacks. */
  function AnalyzeIntent(message: string, reply: ModelReply): (r: Intent)
    ensures MentionsAny(ToLower(message), BookingWords) ==>
      r.kind == "my_bookings" && r.confidence == 0.9 && r.cardType == Some(MixedCards)
    ensures !MentionsAny(ToLower(message), BookingWords) && MentionsAny(ToLower(message), EventWords) ==>
      r.kind == "find_events" && r.confidence == 0.9 && r.cardType == Some(EventCards)
      && r.nearMe == Some(Contains(ToLower(message), "near me"))
    ensures (!MentionsAny(ToLower(message), BookingWords) && !MentionsAny(ToLower(message), EventWords)
      && MentionsAny(ToLower(message), ClubWords)) ==>
      r.kind == "find_clubs" && r.confidence == 0.9 && r.cardType == Some(ClubCards)
      && r.nearMe == Some(Contains(ToLower(message), "near me"))
    ensures (!MentionsAny(ToLower(message), BookingWords) && !MentionsAny(ToLower(message), EventWords)
      && !MentionsAny(ToLower(message), ClubWords)) ==>
      r == match reply
        case Parsed(i) => i
        case Unparsable => FallbackIntent(ToLower(message))
        case RequestFailed => Plain("general", 0.5)
  {
    var lower := ToLower(message);
    if MentionsAny(lower, BookingWords) then
      Intent("my_bookings", 0.9, Some(true), Some(MixedCards), None, "", None)
    else if MentionsAny(lower, EventWords) then
      Intent("find_events", 0.9, Some(true), Some(EventCards), Some(Contains(lower, "near me")), "", None)
    else if MentionsAny(lower, ClubWords) then
      Intent("find_clubs", 0.9, Some(true), Some(ClubCards), Some(Contains(lower, "near me")), "", None)
    else
      match reply
      case Parsed(i) => i
      case Unparsable => FallbackIntent(lower)
      case RequestFailed => Plain("general", 0.5)
  }

  /** The keyword fallback when the model's reply is not JSON. */
  function FallbackIntent(lower: string): (r: Intent)
    ensures (Contains(lower, "event") || Contains(lower, "party")) ==>
      r.kind == "find_events" && r.confidence == 0.7 && r.showCards == Some(true)
    ensures !(Contains(lower, "event") || Contains(lower, "party")) && (Contains(lower, "club") || Contains(lower, "venue")) ==>
      r.kind == "find_clubs" && r.confidence == 0.7 && r.showCards == Some(true)
    ensures !(Contains(lower, "event") || Contains(lower, "party") || Contains(lower, "club") || Contains(lower, "venue")) ==>
      r.kind == "general" && r.confidence == 0.5 && r.showCards == Some(false)
  {
    if Contains(lower, "event") || Contains(lower, "party") then
      Intent("find_events", 0.7, Some(true), Some(EventCards), None, "", None)
    else if Contains(lower, "club") || Contains(lower, "venue") then
      Intent("find_clubs", 0.7, Some(true), Some(ClubCards), None, "", None)
    else
      Intent("general", 0.5, Some(false), None, None, "", None)
  }

  /** Containing a phrase means containing every part of it. */
  lemma ContainsPart(s: string, needle: string, i: nat, j: nat)
    requires Contains(s, needle) && i <= j <= |needle|
    ensures Contains(s, needle[i..j])
  {
    var k :| 0 <= k <= |s| && StartsWith(s[k..], needle);
    assert StartsWith(s[k + i..], needle[i..j]);
  }

  /**
   * Asking about "my tickets" for an event is read as the bookings intent,
   * whatever the model would have said.
   */
  lemma BookingWordsWin(message: string, reply: ModelReply)
    requires Contains(ToLower(message), "my ticket") && Contains(ToLower(message), "find event")
    ensures AnalyzeIntent(message, reply).kind == "my_bookings"
  {
    assert BookingWords[1] == "my ticket";
  }

  /** Every keyword intent holds the keyword's own word, so the unparsable fallback agrees with it on events. */
  lemma EventKeywordsAgreeWithFallback(message: string)
    requires !MentionsAny(ToLower(message), BookingWords) && MentionsAny(ToLower(message), EventWords)
    ensures FallbackIntent(ToLower(message)).kind == AnalyzeIntent(message, Unparsable).kind
  {
    var lower := ToLower(message);
    var i :| 0 <= i < |EventWords| && Contains(lower, EventWords[i]);
    var w := EventWords[i];
    if i == 2 {
      assert w == "event near" && w[0..5] == "event";
      ContainsPart(lower, w, 0, 5);
    } else {
      assert w == EventWords[i] && (w == "find event" || w == "show event" || w == "what event");
      assert w[5..10] == "event";
      ContainsPart(lower, w, 5, 10);
    }
  }

  datatype PolicyType = Refund | Cancellation | GeneralPolicy

  /** `extractPolicyType`: refund wording wins over cancel wording; anything else is general. */
  function ExtractPolicyType(message: string): (r: PolicyType)
    ensures r == Refund <==> Contains(ToLower(message), "refund") || Contains(ToLower(message), "money back")
    ensures r == Cancellation <==>
      !(Contains(ToLower(message), "refund") || Contains(ToLower(message), "money back"))
      && Contains(ToLower(message), "cancel")
  {
    var lower := ToLower(message);
    if Contains(lower, "refund") || Contains(lower, "money back") then Refund
    else if Contains(lower, "cancel") || Contains(lower, "cancellation") then
      Cancellation
    else
      CancellationMentionsCancel(lower);
      GeneralPolicy
  }

  /** The second cancel word of the source is covered by the first. */
  lemma CancellationMentionsCancel(s: string)
    ensures Contains(s, "cancellation") ==> Contains(s, "cancel")
  {
    if Contains(s, "cancellation") {
      ContainsPart(s, "cancellation", 0, 6);
      assert "cancellation"[0..6] == "cancel";
    }
  }

  /** The screen the user is on, as the request names it. */
  datatype ScreenContext = ScreenContext(screen: string, hasBookings: bool, city: string)

  /** The paragraph about the screen put into a prompt. */
  datatype ScreenInfo = NoScreenInfo | HomeInfo | MapInfo | BookingsInfo(hasBookings: bool) | ProfileInfo

  /** `getScreenContextInfo`: one paragraph per known screen, nothing otherwise. */
  function ScreenContextInfo(context: Option<ScreenContext>): (r: ScreenInfo)
    ensures context.None? ==> r == NoScreenInfo
    ensures context.Some? && context.value.screen !in {"HOME", "MAP", "BOOKINGS", "PROFILE"} ==> r == NoScreenInfo
    ensures context.Some? && context.value.screen == "BOOKINGS" ==> r == BookingsInfo(context.value.hasBookings)
    ensures r != NoScreenInfo <==> context.Some? && context.value.screen in {"HOME", "MAP", "BOOKINGS", "PROFILE"}
  {
    match context
    case None => NoScreenInfo
    case Some(c) =>
      if c.screen == "HOME" then HomeInfo
      else if c.screen == "MAP" then MapInfo
      else if c.screen == "BOOKINGS" then BookingsInfo(c.hasBookings)
      else if c.screen == "PROFILE" then ProfileInfo
      else NoScreenInfo
  }

  /** The query the rules choose for an intent. */
  datatype DbQuery =
    | ApprovedClubs(city: Option<string>)
    | ActiveEvents(fromDate: string, city: Option<string>, nameKeywords: Option<seq<string>>)
    | PaidOrders(userId: string, orderStatus: string)

  /** `city` matched case-insensitively as the whole field when a location was extracted. */
  function CityFilter(intent: Intent): (r: Option<string>)
    ensures r.Some? <==> intent.location != ""
  {
    if intent.location != "" then Some(intent.location) else None
  }

  /** `generateDatabaseQuery`; `today` is the current date as "YYYY-MM-DD". */
  function GenerateDatabaseQuery(intent: Intent, userId: string, today: string): (r: DbQuery)
    ensures intent.kind == "find_clubs" ==> r == ApprovedClubs(CityFilter(intent))
    ensures intent.kind == "find_events" ==>
      r.ActiveEvents? && r.fromDate == today && r.city == CityFilter(intent) && r.nameKeywords == intent.keywords
    ensures intent.kind !in {"find_clubs", "find_events"} && Contains(intent.kind, "booking") && userId != "" ==>
      r == PaidOrders(userId, "paid")
    ensures r.PaidOrders? ==> r.orderStatus == "paid" && r.userId == userId
    ensures intent.kind !in {"find_clubs", "find_events"} && !(Contains(intent.kind, "booking") && userId != "") ==>
      r == ApprovedClubs(None)
  {
    if intent.kind == "find_clubs" then ApprovedClubs(CityFilter(intent))
    else if intent.kind == "find_events" then ActiveEvents(today, CityFilter(intent), intent.keywords)
    else if Contains(intent.kind, "booking") && userId != "" then PaidOrders(userId, "paid")
    else ApprovedClubs(None)
  }

  /** The bookings intent of a signed-in user always reads that user's paid orders. */
  lemma MyBookingsQuery(message: string, reply: ModelReply, userId: string, today: string)
    requires MentionsAny(ToLower(message), BookingWords) && userId != ""
    ensures GenerateDatabaseQuery(AnalyzeIntent(message, reply), userId, today) == PaidOrders(userId, "paid")
  {
    var k := AnalyzeIntent(message, reply).kind;
    assert k == "my_bookings";
    assert StartsWith(k[3..], "booking");
  }

  datatype BookingStatus = Paid | Scanned | OtherStatus
  datatype Booking = Booking(name: string, venue: string, date: string, status: BookingStatus)

  datatype BookingSummary = BookingSummary(total: nat, ready: nat, used: nat, shown: seq<Booking>)

  predicate IsPaid(b: Booking) { b.status == Paid }
  predicate IsScanned(b: Booking) { b.status == Scanned }

  /** The counts and the first three bookings that `handleMyBookings` puts into its prompt. */
  function SummariseBookings(bookings: seq<Booking>): (r: BookingSummary)
    ensures r.total == |bookings|
    ensures r.ready == |Filter(bookings, IsPaid)| && r.used == |Filter(bookings, IsScanned)|
    ensures |r.shown| <= 3 && |r.shown| <= |bookings| && r.shown == bookings[..|r.shown|]
    ensures |r.shown| == if |bookings| < 3 then |bookings| else 3
  {
    BookingSummary(|bookings|, |Filter(bookings, IsPaid)|, |Filter(bookings, IsScanned)|, Take(bookings, 3))
  }

  /** A booking is counted as ready or as used, never both. */
  lemma {:induction false} ReadyAndUsedDisjoint(bookings: seq<Booking>)
    ensures SummariseBookings(bookings).ready + SummariseBookings(bookings).used <= |bookings|
  {
    ReadyAndUsedCount(bookings);
    CountIsFilterLength(bookings, IsPaid);
    CountIsFilterLength(bookings, IsScanned);
  }

  lemma {:induction false} ReadyAndUsedCount(bookings: seq<Booking>)
    ensures Count(bookings, IsPaid) + Count(bookings, IsScanned) <= |bookings|
  {
    if bookings != [] {
      ReadyAndUsedCount(bookings[1..]);
    }
  }
}
