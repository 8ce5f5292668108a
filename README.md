# Nightlife app core logic, modelled in Dafny

The app lets guests find clubs and events, buy tickets and ask a chatbot for
suggestions. Club owners register a club and edit its events, tickets and
menu. Administrators approve new clubs. This project models the small pieces
of sequential logic under those screens and the chatbot's rule-based code.
It proves what each piece promises.

- **List and form state.** The updaters keyed by event id in the event
  editors (create form, edit screen, club manager). The search history and
  recently opened items, capped at five. The approval queue. The day and
  venue-type toggles. The one-time-code digit buffers.
- **Validators.** The event form, with and without the event map. The club
  registration form. The server's create-event schema
  (`createEventSchema`), with null distinct from a missing key. No handler
  in the modelled source applies that schema, so the results below hold if
  the create route validates with it. Lemmas state that a form the client
  accepts passes the schema only when a cover image is set and a table
  layout is picked, and that it always would if missing values were left
  out instead of sent as null.
- **Codecs and parsers.**
  - 12-hour time text and clock values, in both directions.
  - "YYYY-MM-DD" dates.
  - File names and MIME types.
  - Venue-type tokens.
  - Coordinates inside map links.
  - Phone masking.
  - The escaped search pattern.
- **Numeric rules.**
  - Ticket availability, totals and the purchase guard.
  - The clamped counter.
  - Map regions.
  - Heat-map bucketing, which keeps the total weight.
  - Carousel index wrap and clamp.
  - Date-range tabs.
  - The rule-based recommendations fallback.
- **Chatbot rule tables.**
  - Keyword intent detection.
  - Policy topics.
  - Query choice.
  - Suggestion chips.
  - Flattening events out of clubs.
  - Card routing.

Each source file of the core is one module. `Basics` and `Text` hold the
shared vocabulary: options, filter and map, trimming, case folding,
substring search and numerals. Code that changes component state step by
step is a class. Its fields are that state, and its methods name what they
modify. A loop in the source is a method with loop invariants. The method is
proved equal to a specification function, and the lemmas are about that
function. Pure expressions are functions with lemmas.

## Model

| member | source | states |
|---|---|---|
| AdminLogin.OtpCompleteIffFilled | admin-web/src/Pages/Login.tsx:236-241 | the joined code has four characters exactly when every one of the four slots holds a digit, and never more than four |
| AdminLogin.DigitsOnly | admin-web/src/Pages/Login.tsx:191 | the phone filter keeps only decimal digits, keeps every digit typed as often as it was typed, and keeps them in typing order |
| AdminLogin.DigitsOnlyKeepsDigits | admin-web/src/Pages/Login.tsx:191 | a phone that is already all digits passes the filter unchanged |
| AdminLogin.VerifyOutcomeOf | admin-web/src/Pages/Login.tsx:49-65 | sign-in happens exactly for a successful reply with role "admin", keeping its token; a successful non-admin reply fails with "Admin only can access"; every failure has a non-empty message |
| AdminLogin.OnlyAdminsSignIn | admin-web/src/Pages/Login.tsx:54-56 | no reply other than a successful admin one keeps a token; an unsuccessful reply shows its message or "Verification failed" |
| AdminLogin.SendErrorOf | admin-web/src/Pages/Login.tsx:35-43 | a redirect is offered exactly for code NOT_FOUND with a redirect URL, with the server message or "Admin account not found"; otherwise the message or "Failed to send OTP" |
| AdminLogin.LoginPage.constructor | admin-web/src/Pages/Login.tsx:18-25 | the page starts at the phone step with the default dial code, an empty phone, four empty slots, no error, no redirect and no token |
| AdminLogin.LoginPage.SelectCountry | admin-web/src/Pages/Login.tsx:26 | choosing a country sets the dial code sent with both requests |
| AdminLogin.LoginPage.TypePhone | admin-web/src/Pages/Login.tsx:191 | the phone field holds the digits of what was typed |
| AdminLogin.LoginPage.CanSendOtp | admin-web/src/Pages/Login.tsx:201 | sending is enabled exactly when not loading and the phone has at least five digits |
| AdminLogin.LoginPage.CanVerify | admin-web/src/Pages/Login.tsx:236 | verifying is enabled exactly when not loading and the joined code has four digits |
| AdminLogin.LoginPage.ChangeOtp | admin-web/src/Pages/Login.tsx:67-78 | an empty or one-digit value replaces slot idx and nothing else; any other value changes nothing |
| AdminLogin.LoginPage.OtpBackspace | admin-web/src/Pages/Login.tsx:80-98 | Backspace clears a filled slot, else the slot before it, and at the first empty slot does nothing |
| AdminLogin.LoginPage.SendOtp | admin-web/src/Pages/Login.tsx:28-47 | the request carries the dial code and the trimmed phone; a 200 reply moves to the code step, a failure sets the error and redirect of SendErrorOf; loading ends either way |
| AdminLogin.LoginPage.VerifyOtp | admin-web/src/Pages/Login.tsx:49-65 | the code sent is the joined slots; only an admin sign-in stores the token and opens /approve; any other outcome sets the error and stores nothing |
| OtpScreen.MaskedPhone | frontend/components/OtpScreen.tsx:23-29 | the masked number has the length of the number |
| OtpScreen.MaskedPhoneShape | frontend/components/OtpScreen.tsx:23-29 | up to four characters are shown whole; longer numbers keep their first two and last two characters and every character between is a star |
| OtpScreen.OutcomeOf | frontend/components/OtpScreen.tsx:66-88 | a successful reply routes to /profile for an incomplete profile, else /adminTabs for role admin, else /userTabs; any other reply alerts a non-empty message, defaulting to "Invalid OTP" or "Something went wrong" |
| OtpScreen.IncompleteProfileFirst | frontend/components/OtpScreen.tsx:72-73 | an incomplete profile goes to /profile whatever the role, admin included |
| OtpScreen.OtpEntry.constructor | frontend/components/OtpScreen.tsx:18 | the entry starts with four empty slots and no stored session, route or alert |
| OtpScreen.OtpEntry.ChangeOtp | frontend/components/OtpScreen.tsx:31-43 | a value of at most one character fills slot index and nothing else; a longer value is ignored |
| OtpScreen.OtpEntry.Complete | frontend/components/OtpScreen.tsx:53-55 | the joined code has length 4 exactly when all four slots are filled |
| OtpScreen.OtpEntry.Verify | frontend/components/OtpScreen.tsx:52-89 | an incomplete code alerts "Please enter complete OTP" and sends nothing; otherwise a routed reply stores the token and the user with role and profile flag and replaces the route, and an alert changes nothing stored |
| ApproveClubs.Filtered | admin-web/src/Pages/ApproveClubs.tsx:22-28 | a blank trimmed search lists every club; otherwise exactly the clubs with a searched field containing the lower-cased query, each as often as listed, in list order |
| ApproveClubs.BlankSearchListsAll | admin-web/src/Pages/ApproveClubs.tsx:23-24 | a search of white space only lists every club |
| ApproveClubs.Merged | admin-web/src/Pages/ApproveClubs.tsx:185 | the name, email, phone, address and every other field carried by the fetched details replace the list values; absent fields keep them |
| ApproveClubs.CardWithoutDetails | admin-web/src/Pages/ApproveClubs.tsx:185 | a club without fetched details is shown as listed |
| ApproveClubs.IdsToFetch | admin-web/src/Pages/ApproveClubs.tsx:55-58 | an id is fetched exactly when some listed club has it and its details are not held |
| ApproveClubs.WithoutClub | admin-web/src/Pages/ApproveClubs.tsx:81 | after a decision no entry has the decided id, and every other entry stays, as often as before and in order |
| ApproveClubs.WithoutAbsentClub | admin-web/src/Pages/ApproveClubs.tsx:96 | deciding an id that is not listed leaves the list unchanged |
| ApproveClubs.LoadParams | admin-web/src/Pages/ApproveClubs.tsx:34-38 | the list request always carries the status, and the type, city and search exactly when they are set |
| ApproveClubs.ApprovalQueue.constructor | admin-web/src/Pages/ApproveClubs.tsx:8-19 | the page starts with no clubs and no details, pending status, empty filters, nothing selected and no message |
| ApproveClubs.ApprovalQueue.Loaded | admin-web/src/Pages/ApproveClubs.tsx:40-42 | a list reply replaces the items |
| ApproveClubs.ApprovalQueue.DetailsArrived | admin-web/src/Pages/ApproveClubs.tsx:62-68 | arriving details are stored under their id, keeping the others, and that id is no longer to be fetched |
| ApproveClubs.ApprovalQueue.Decide | admin-web/src/Pages/ApproveClubs.tsx:76-104 | a successful approve or reject removes the club, closes the detail view and reports success; a failure keeps list and selection and shows the server message or "Approve failed"/"Reject failed" |
| ApproveClubs.ApprovalQueue.ResetFilters | admin-web/src/Pages/ApproveClubs.tsx:166 | Reset clears type and city and sets the status back to pending |
| BookingHeatmap.RegionOfPointsContainsThem | frontend/hooks/useBookingHeatmap.ts:29-41 | the inclusive bounds of withinRegion admit every point of a region computed for those very points |
| BookingHeatmap.BookingCount | frontend/hooks/useBookingHeatmap.ts:76-81 | the inner loop sums quantitySold over every ticket of every event, a missing count being 0 |
| BookingHeatmap.PointsOf | frontend/hooks/useBookingHeatmap.ts:71-91 | at most one point per club; every point has a positive weight and a club id and is the point of one of the clubs |
| BookingHeatmap.ClubsWithBookingsArePoints | frontend/hooks/useBookingHeatmap.ts:73-90 | every club whose map link yields coordinates and whose bookings are positive gives a point |
| BookingHeatmap.BuildPoints | frontend/hooks/useBookingHeatmap.ts:71-91 | the outer loop builds exactly PointsOf of the clubs |
| BookingHeatmap.BucketOf | frontend/hooks/useBookingHeatmap.ts:119-137 | a cell that no point reaches accumulates nothing |
| BookingHeatmap.IndexOfKey | frontend/hooks/useBookingHeatmap.ts:123 | a found position holds the key; no position means no cell has that key |
| BookingHeatmap.BucketsAccumulate | frontend/hooks/useBookingHeatmap.ts:118-137 | the cells are distinct keys, at most one per point, each holding exactly the sums and count of its points, and a cell exists exactly for the keys some point has |
| BookingHeatmap.AddPoint | frontend/hooks/useBookingHeatmap.ts:120-136 | one point opens at most one new cell and never removes one |
| BookingHeatmap.Buckets | frontend/hooks/useBookingHeatmap.ts:118-137 | there are never more cells than points |
| BookingHeatmap.Clustered | frontend/hooks/useBookingHeatmap.ts:138-144 | one cluster per cell, in the order the cells were opened, each at its cell's centre |
| BookingHeatmap.BucketsKeepWeight | frontend/hooks/useBookingHeatmap.ts:119-137 | the cells together weigh exactly what the points weigh |
| BookingHeatmap.ClusteredWeights | frontend/hooks/useBookingHeatmap.ts:139-143 | the clusters weigh what their cells weigh |
| BookingHeatmap.Clusters | frontend/hooks/useBookingHeatmap.ts:108-145 | there are never more clusters than points |
| BookingHeatmap.ClustersSummarisePoints | frontend/hooks/useBookingHeatmap.ts:108-145 | clustering keeps the total weight and puts each cluster at the mean latitude and longitude of the points of its cell |
| BookingHeatmap.CellCount | frontend/hooks/useBookingHeatmap.ts:120-123 | a cell accumulates something exactly when some point has its key |
| BookingHeatmap.VisiblePoints | frontend/hooks/useBookingHeatmap.ts:108-145 | the visible points are the clusters of the points within the region |
| BookingHeatmap.FillBuckets | frontend/hooks/useBookingHeatmap.ts:118-137 | the first loop builds exactly the cells of Buckets |
| BookingHeatmap.PlaceClusters | frontend/hooks/useBookingHeatmap.ts:138-144 | the second loop builds exactly Clustered of the cells |
| BookingHeatmap.Heatmap.constructor | frontend/hooks/useBookingHeatmap.ts:45-47 | the hook starts with no points, not loading and no error |
| BookingHeatmap.Heatmap.FetchData | frontend/hooks/useBookingHeatmap.ts:51-100 | a disabled map clears the points; a reply replaces them with PointsOf the clubs; a cancelled request keeps them silently; a failure keeps them and shows the message or "Failed to load heatmap"; loading ends |
| ChatIntents.AnalyzeIntent | backend/src/utils/openRouterService.ts:64-183 | booking words win as my_bookings (0.9, mixed cards); then event words as find_events and club words as find_clubs (0.9, near-me flag); otherwise the model's parsed intent, the keyword fallback for an unparsable reply, or general at 0.5 when the request fails |
| ChatIntents.FallbackIntent | backend/src/utils/openRouterService.ts:147-167 | "event" or "party" gives find_events at 0.7, else "club" or "venue" gives find_clubs at 0.7, else general at 0.5 without cards |
| ChatIntents.BookingWordsWin | backend/src/utils/openRouterService.ts:70-79 | a message asking for "my ticket" is the bookings intent even when it also says "find event" |
| ChatIntents.EventKeywordsAgreeWithFallback | backend/src/utils/openRouterService.ts:79-87 | a message that the event keywords classify gets the same kind from the unparsable-reply fallback |
| ChatIntents.ExtractPolicyType | backend/src/utils/openRouterService.ts:926-938 | refund exactly when "refund" or "money back" appears; cancellation exactly when not refund and "cancel" appears; general otherwise |
| ChatIntents.CancellationMentionsCancel | backend/src/utils/openRouterService.ts:933 | the "cancellation" test adds nothing to the "cancel" test |
| ChatIntents.ScreenContextInfo | backend/src/utils/openRouterService.ts:403-420 | a paragraph exactly for HOME, MAP, BOOKINGS and PROFILE; the bookings paragraph depends on whether the user has bookings; none for a missing or other screen |
| ChatIntents.CityFilter | backend/src/utils/openRouterService.ts:683-685 | the city condition is present exactly when a location was extracted |
| ChatIntents.GenerateDatabaseQuery | backend/src/utils/openRouterService.ts:672-734 | find_clubs reads approved clubs with the city filter; find_events reads active events from today with the city and name keywords; a booking kind with a user reads that user's paid orders; anything else reads all approved clubs |
| ChatIntents.MyBookingsQuery | backend/src/utils/openRouterService.ts:712-727 | a signed-in user's bookings message always reads that user's paid orders (a property of the function; its callers never reach this case, see "Left out") |
| ChatIntents.SummariseBookings | backend/src/utils/openRouterService.ts:554-563 | the summary counts all bookings, the paid ones as ready and the scanned ones as used, and shows the first three (all when fewer) |
| ChatIntents.ReadyAndUsedDisjoint | backend/src/utils/openRouterService.ts:554-555 | ready and used together never exceed the number of bookings |
| ChatIntents.ReadyAndUsedCount | backend/src/utils/openRouterService.ts:554-555 | no booking is both paid and scanned, so the two counts add up to at most the total |
| ChatSuggestions.ScreenSuggestions | backend/src/constants/chatbotSuggestions.ts:59-61 | a missing or unknown screen gets the general list; every list has one to six chips |
| ChatSuggestions.ContextualSuggestions | backend/src/constants/chatbotSuggestions.ts:64-90 | without a city other than Dubai the screen's first six chips; with one, the "Show me clubs in" and "Find events in" chips for it followed by the screen's first four; always one to six chips |
| ChatEvents.Flatten | backend/src/utils/chatbotDatabaseUtils.ts:91-104 | a record carries its club's name as venue, its club's city and distance, and its event's id, name, date and time |
| ChatEvents.ExtractEventsFromClubs | backend/src/utils/chatbotDatabaseUtils.ts:86-110 | the nested loops produce exactly Extracted of the clubs |
| ChatEvents.FromEventsLength | backend/src/utils/chatbotDatabaseUtils.ts:90-91 | a club contributes one record per event that has an id |
| ChatEvents.ExtractedLength | backend/src/utils/chatbotDatabaseUtils.ts:86-110 | the result has one record per event with an id across the clubs whose events are an array |
| ChatEvents.FromEventsOwned | backend/src/utils/chatbotDatabaseUtils.ts:89-105 | each record of a club names that club and flattens one of its events with an id |
| ChatEvents.ExtractedOwned | backend/src/utils/chatbotDatabaseUtils.ts:86-110 | every record carries the name, city and distance of a club of the input |
| ChatEvents.ClubWithoutEventsAddsNothing | backend/src/utils/chatbotDatabaseUtils.ts:89 | a club whose events are not an array adds no record |
| ChatEvents.ExtractedAppend | backend/src/utils/chatbotDatabaseUtils.ts:88 | records of earlier clubs come before those of later ones |
| ChatEvents.FromEvents | backend/src/utils/chatbotDatabaseUtils.ts:90-106 | every record has an id and the club's name as its venue |
| ChatEvents.FromClub | backend/src/utils/chatbotDatabaseUtils.ts:89-107 | every record has an id and the club's name as its venue |
| ChatEvents.Extracted | backend/src/utils/chatbotDatabaseUtils.ts:86-110 | every record has a non-empty id |
| ChatResponse.CardData | backend/src/utils/chatbotResponseUtils.ts:11-39 | one empty frame for the event, club and bookings intents with their titles, none for any other intent |
| ChatResponse.ResponsePlan | backend/src/utils/chatbotResponseUtils.ts:82-108 | event intents get type 2 with the events of the clubs read or the events read; club intents type 3; everything else general conversation with type 0 |
| ChatResponse.CardsMatchResponseType | backend/src/utils/chatbotResponseUtils.ts:6-108 | type 2 goes exactly with the event frame, type 3 exactly with the club frame, type 0 exactly with no frame or the bookings frame |
| AiFallback.Lines | backend/src/utils/aiService.ts:144-146 | the model's strings become lines one for one, in order |
| AiFallback.FromModel | backend/src/utils/aiService.ts:141-147 | missing fields take defaults: no verdict is false, a missing or zero confidence is 50, missing lists are empty; a verdict, insights and next steps that are present are kept |
| AiFallback.Top | backend/src/utils/aiService.ts:186-189 | the first entry of largest share, present exactly for a non-empty table: no share is larger, and every entry before it is smaller, so on a tie the earliest entry is named |
| AiFallback.RawConfidence | backend/src/utils/aiService.ts:160 | the unrounded confidence lies between 40 and 95 |
| AiFallback.Fallback | backend/src/utils/aiService.ts:152-226 | the verdict holds exactly for conversion above 70, revenue above 1000 and over 10 tickets; confidence is the rounded clamp in [40, 95]; one to three recommendations led by the conversion advice, the defaults when every figure is mid-range; the age insight comes first exactly when some age share is positive and it is the largest; the three next steps depend on revenue above 5000 |
| AiFallback.Recommend | backend/src/utils/aiService.ts:167-183 | at most three recommendations; the low- or high-conversion advice comes first when the rate is below 50 or above 80; none at all exactly when conversion, spending and sales are all mid-range |
| AiFallback.Insights | backend/src/utils/aiService.ts:185-198 | at most two insights; the age insight comes first exactly when some age share is positive, and it then quotes the largest share |
| AiFallback.NextSteps | backend/src/utils/aiService.ts:200-208 | the follow-up step above 5000 in revenue, the surveys otherwise, then the two reviews |
| ChatClubCard.OperatingDaysLabel | frontend/components/chatbot/ChatbotClubCard.tsx:44-49 | "Check venue" without days; one or two days joined with ", "; more than two gives the first two joined and "..." |
| ChatClubCard.ManyDaysLabel | frontend/components/chatbot/ChatbotClubCard.tsx:47-48 | three or more days show exactly "first, second..." |
| ChatClubCard.RatingStars | frontend/components/chatbot/ChatbotClubCard.tsx:51-55 | a missing, zero or NaN rating shows one filled and four empty stars; otherwise a string exists exactly when the rounded rating is in 0..5 (else repeat throws); every string has five stars |
| ChatClubCard.StarsOfRating | frontend/components/chatbot/ChatbotClubCard.tsx:53-54 | for a rating rounding to 1..5, star i is filled exactly when i is below the rounded rating |
| ChatClubCard.RatingAboveFiveThrows | frontend/components/chatbot/ChatbotClubCard.tsx:54 | a rating of 5.5 or more cannot be drawn |
| ChatClubCard.HandlePress | frontend/components/chatbot/ChatbotClubCard.tsx:36-42 | a supplied handler is called instead of navigating; otherwise the press opens /club/details?id= and the club id |
| ChatCards.CardPress | frontend/components/chatbot/ChatbotClubCard.tsx:36-42 | a supplied handler is called exactly when there is one; otherwise the press navigates to the given path |
| ChatEventCard.IsSoldOut | frontend/components/chatbot/ChatbotEventCard.tsx:70-73 | no tickets is never sold out; otherwise sold out exactly when every ticket type has available at most sold |
| ChatEventCard.AllSoldOut | frontend/components/chatbot/ChatbotEventCard.tsx:72 | `every` holds exactly when each ticket type has available at most sold |
| ChatEventCard.OneAvailableNotSoldOut | frontend/components/chatbot/ChatbotEventCard.tsx:72 | one ticket type with seats left keeps the event on sale |
| ChatEventCard.HandlePress | frontend/components/chatbot/ChatbotEventCard.tsx:48-54 | a supplied handler is called instead of navigating; otherwise the press opens /event/ and the event id |
| ChatEventCard.BookingSection | frontend/components/chatbot/ChatbotEventCard.tsx:144-153 | the booking line is shown exactly for a non-empty booking id; quantity defaults to 1 when missing or zero, type to "Ticket" when missing or empty, price to 0; the QR hint exactly for a paid booking |
| ChatEventCard.StatusBadge | frontend/components/chatbot/ChatbotEventCard.tsx:93-102 | a badge exactly when a status is given, "Ready" exactly for paid |
| ChatCards.Noun | frontend/components/chatbot/ChatbotCardsContainer.tsx:33-40 | the noun is singular exactly for one card |
| ChatCards.Title | frontend/components/chatbot/ChatbotCardsContainer.tsx:30-43 | a non-empty given title wins; otherwise the title reads "Found " followed by the card count |
| ChatCards.RenderCard | frontend/components/chatbot/ChatbotCardsContainer.tsx:45-85 | an item is drawn as an event card exactly in the events mode, or in the mixed mode when it has a date, a time or artists; otherwise as a club card; the key is the kind and the index |
| ChatCards.Container | frontend/components/chatbot/ChatbotCardsContainer.tsx:26-103 | nothing for no cards; otherwise the title, one card per item in order drawn by RenderCard, and the swipe hint |
| ChatCards.SingleKindModes | frontend/components/chatbot/ChatbotCardsContainer.tsx:66-82 | the events mode draws only event cards and the clubs mode only club cards, whatever the items hold |
| ChatCards.KeysDistinct | frontend/components/chatbot/ChatbotCardsContainer.tsx:50-80 | no two cards of a strip share a key |
| ChatCards.KeyInjective | frontend/components/chatbot/ChatbotCardsContainer.tsx:50-80 | a key determines its card's index |
| CountryPicker.Needle | frontend/components/ui/CountryPickerModal.tsx:18-19 | the needle is empty exactly when the query is white space only |
| CountryPicker.FilteredCountries | frontend/components/ui/CountryPickerModal.tsx:17-26 | a blank query lists every country; otherwise a country is listed, as often as in the table, exactly when its lower-cased name, dial code or code contains the trimmed lower-cased query; the list keeps the countries' order |
| CountryPicker.SurroundingSpacesIgnored | frontend/components/ui/CountryPickerModal.tsx:18 | spaces around the query do not change the list |
| EventDetails.MinPrice | frontend/app/event-details.tsx:145 | the minimum is at most every ticket's price and is the price of one of them |
| EventDetails.LowestPrice | frontend/app/event-details.tsx:143-146 | 0 without tickets; otherwise at most every price and equal to one of them |
| EventDetails.LowestPriceOrderFree | frontend/app/event-details.tsx:143-146 | the lowest price does not depend on the order of the ticket types |
| EventDetails.EditEvent | frontend/app/event-details.tsx:93-97 | editing does nothing until the event is loaded, then opens /editEvent?eventId= and its id |
| EventDetails.DeleteEvent | frontend/app/event-details.tsx:99-104 | deleting does nothing until the event is loaded, then asks for confirmation naming the event |
| EventDetails.AfterDelete | frontend/app/event-details.tsx:109-127 | the page goes back exactly after a successful reply; any other reply shows the server message or "Failed to delete event" |
| ClubDetails.AddIf | frontend/components/screens/ClubDetailsScreen.tsx:64-72 | one validation step adds its key exactly when its rule fails and leaves every other entry as it was |
| ClubDetails.ValidationErrorsKeys | frontend/components/screens/ClubDetailsScreen.tsx:62-73 | a field is in the error map exactly when its rule fails |
| ClubDetails.ValidationErrorsPerField | frontend/components/screens/ClubDetailsScreen.tsx:64-72 | name, phone and the other text fields fail exactly when blank after trimming; the venue type when none is chosen; the free-text type only for "Other" left blank; the days when none is picked |
| ClubDetails.ValidIffNoErrors | frontend/components/screens/ClubDetailsScreen.tsx:75 | the form is valid exactly when no error was recorded |
| ClubDetails.ValidationErrors | frontend/components/screens/ClubDetailsScreen.tsx:62-73 | every recorded message is non-empty |
| ClubDetails.Cleared | frontend/components/screens/ClubDetailsScreen.tsx:53-60 | clearing never adds an entry and never changes a kept message |
| ClubDetails.Payload | frontend/components/screens/ClubDetailsScreen.tsx:86-98 | on a valid form "Other" sends a non-blank venue name, and the operating days are sent as chosen |
| ClubDetails.ClearedSpec | frontend/components/screens/ClubDetailsScreen.tsx:53-60 | clearing removes the key's message when it has one, keeps every other entry, leaves a map without the key unchanged, and clearing twice equals clearing once |
| ClubDetails.VenuePayloadOfValidForm | frontend/components/screens/ClubDetailsScreen.tsx:90 | on a valid form "Other" sends the typed venue name, which is not blank, and any other choice sends its label |
| ClubDetails.ClubDetailsForm.constructor | frontend/components/screens/ClubDetailsScreen.tsx:51 | the screen starts without errors |
| ClubDetails.ClubDetailsForm.ClearError | frontend/components/screens/ClubDetailsScreen.tsx:53-60 | the shown errors become Cleared of the old ones |
| ClubDetails.ClubDetailsForm.Validate | frontend/components/screens/ClubDetailsScreen.tsx:62-80 | the shown errors are exactly the validation errors of the form and the result is whether the form is valid |
| ClubDetails.ClubDetailsForm.Submit | frontend/components/screens/ClubDetailsScreen.tsx:82-98 | a request is sent exactly for a valid form, carrying the payload with the venue type rule |
| ClubManager.NewDraft | frontend/components/screens/ClubManager.tsx:151-160 | the manager's draft starts empty and its new menu items carry no image field |
| ClubManager.EnsureSingleEvent | frontend/components/screens/ClubManager.tsx:67-84 | after the mount effect there is exactly one event: the first one kept, or a blank event when there was none; the menu is untouched |
| ClubManager.Submit | frontend/components/screens/ClubManager.tsx:176-212 | the request is built from the first event and the menu whatever they hold, without validation |
| ClubManager.BlankDraftIsPosted | frontend/components/screens/ClubManager.tsx:176-212 | a blank draft fails the form validation of the other screens and breaks the create-event schema, yet this screen posts it |
| CreateEventForm.EnsureSingleEvent | frontend/components/screens/CreateEventForm.tsx:65-82 | after the mount effect there is exactly one event: the first one kept, or a blank event when there was none; the menu is untouched |
| CreateEventForm.Submit | frontend/components/screens/CreateEventForm.tsx:225-330 | the errors are those of validateForm without an event map; a request is built exactly when there are none, from the first event, the menu and the other sections; the schema accepts it exactly when a cover image is set and a table layout is picked |
| CreateEventForm.SubmitOmittingNulls | frontend/components/screens/CreateEventForm.tsx:225-330 | corrected: the same submission leaving a missing cover image or table layout out of the request; the schema accepts every request it builds |
| EditEvent.EnsureSingleEvent | frontend/app/editEvent.tsx:149-165 | once loading is over there is exactly one event; while loading an empty list stays empty; the first event is kept; the menu is untouched |
| EditEvent.Submit | frontend/app/editEvent.tsx:309-315 | the errors are those of validateForm with the event map required; the update is sent exactly when there are none, and then every required field is filled |
| EventModel.Get | frontend/components/screens/CreateEventForm.tsx:84-90 | every field read has the field's type; only the image fields can be null |
| EventModel.GetSet | frontend/components/screens/CreateEventForm.tsx:84-90 | writing a field changes that field only, keeps the id and tickets, and writing back what was read changes nothing |
| EventModel.UpdatedEventsSpec | frontend/components/screens/CreateEventForm.tsx:84-90 | updateEvent keeps the number of events and changes only the named field of the events with the id |
| EventModel.WithoutEvent | frontend/components/screens/CreateEventForm.tsx:92-94 | removeEvent keeps every event without the id, each as often as before and in order, and no event with it |
| EventModel.WithAddedTicketSpec | frontend/components/screens/CreateEventForm.tsx:96-112 | addTicketToEvent appends the ticket to the tickets of the events with the id and changes nothing else |
| EventModel.WithUpdatedTicketSpec | frontend/components/screens/CreateEventForm.tsx:114-132 | updateEventTicket changes only the named field of the tickets with the id inside the events with the id |
| EventModel.WithoutTicketId | frontend/components/screens/CreateEventForm.tsx:140-142 | the tickets without the id, each as often as before, in order, and no ticket with it |
| EventModel.WithoutTicketSpec | frontend/components/screens/CreateEventForm.tsx:134-147 | removeEventTicket drops the ticket from the events with the id only, leaving the other events as they were |
| EventModel.UpdatedMenuItemsSpec | frontend/components/screens/CreateEventForm.tsx:161-167 | updateMenuItem keeps the number of items and changes only the named field of the items with the id |
| EventModel.WithoutMenuItem | frontend/components/screens/CreateEventForm.tsx:169-171 | removeMenuItem keeps every item without the id, each as often as before and in order, and no item with it |
| EventModel.EventDraft.constructor | frontend/components/screens/CreateEventForm.tsx:30-33 | the draft starts without events or menu items |
| EventModel.EventDraft.AddEvent | frontend/components/screens/CreateEventForm.tsx:50-62 | addEvent appends a blank event with the clock as id |
| EventModel.EventDraft.UpdateEvent | frontend/components/screens/CreateEventForm.tsx:84-90 | the events become UpdatedEvents and the menu is untouched |
| EventModel.EventDraft.RemoveEvent | frontend/components/screens/CreateEventForm.tsx:92-94 | the events become WithoutEvent and the menu is untouched |
| EventModel.EventDraft.AddTicketToEvent | frontend/components/screens/CreateEventForm.tsx:96-112 | the events become WithAddedTicket of a blank ticket and the menu is untouched |
| EventModel.EventDraft.UpdateEventTicket | frontend/components/screens/CreateEventForm.tsx:114-132 | the events become WithUpdatedTicket and the menu is untouched |
| EventModel.EventDraft.RemoveEventTicket | frontend/components/screens/CreateEventForm.tsx:134-147 | the events become WithoutTicket and the menu is untouched |
| EventModel.EventDraft.AddMenuItem | frontend/components/screens/CreateEventForm.tsx:149-159 | a new item in the default category goes first and the existing items follow unchanged |
| EventModel.EventDraft.UpdateMenuItem | frontend/components/screens/CreateEventForm.tsx:161-167 | the menu becomes UpdatedMenuItems and the events are untouched |
| EventModel.EventDraft.RemoveMenuItem | frontend/components/screens/CreateEventForm.tsx:169-171 | the menu becomes WithoutMenuItem and the events are untouched |
| EventModel.TicketErrors | frontend/components/screens/CreateEventForm.tsx:191-203 | every ticket error is about a ticket |
| EventModel.MenuErrors | frontend/components/screens/CreateEventForm.tsx:206-218 | every menu error is about a menu item |
| EventModel.TicketErrorsAtEmptyIff | frontend/components/screens/CreateEventForm.tsx:192-203 | a ticket yields no error exactly when its name, price and quantity are all non-blank |
| EventModel.MenuErrorsAtEmptyIff | frontend/components/screens/CreateEventForm.tsx:209-218 | a menu item yields no error exactly when its name, price and category are all non-blank |
| EventModel.ValidateTickets | frontend/components/screens/CreateEventForm.tsx:191-203 | the loop over the tickets pushes exactly TicketErrors |
| EventModel.ValidateMenuItems | frontend/components/screens/CreateEventForm.tsx:206-218 | the loop over the menu items pushes exactly MenuErrors |
| EventModel.PushTicketErrors | frontend/components/screens/CreateEventForm.tsx:192-203 | one pass of the ticket callback appends exactly that ticket's errors to those already pushed |
| EventModel.PushMenuItemErrors | frontend/components/screens/CreateEventForm.tsx:209-218 | one pass of the menu-item callback appends exactly that item's errors to those already pushed |
| EventModel.ValidateEventFields | frontend/components/screens/CreateEventForm.tsx:179-190 | the checks of the event's own fields push exactly EventErrors |
| EventModel.ValidateForm | frontend/components/screens/CreateEventForm.tsx:175-223 | validateForm returns exactly FormErrors, with the event map required only on the edit screen |
| EventModel.TicketErrorsEmptyIff | frontend/components/screens/CreateEventForm.tsx:191-203 | no ticket error exactly when every ticket has a name, price and quantity |
| EventModel.MenuErrorsEmptyIff | frontend/components/screens/CreateEventForm.tsx:206-218 | no menu error exactly when every item has a name, price and category |
| EventModel.FormErrorsEmptyIff | frontend/components/screens/CreateEventForm.tsx:175-223 | the form validates exactly when every required field is filled in |
| EventModel.TicketErrorsReport | frontend/components/screens/CreateEventForm.tsx:192-202 | every error of the ticket at position k is reported numbered k + 1 |
| EventModel.MenuErrorsReport | frontend/components/screens/CreateEventForm.tsx:207-217 | every error of the menu item at position k is reported numbered k + 1 |
| EventModel.BlankNamesReported | frontend/components/screens/CreateEventForm.tsx:193-210 | a blank ticket or menu item name is reported with its 1-based position |
| EventModel.EventMapOnlyRequiredWhenEditing | frontend/app/editEvent.tsx:272-274 | with a filled-in map both screens report the same errors; without one only the edit screen reports it |
| EventModel.ValidFormMeetsSchema | frontend/components/screens/CreateEventForm.tsx:305-328 | corrected: for a form that passes validateForm, the request that leaves missing values out meets the create-event schema |
| EventModel.ValidFormAcceptedIff | frontend/components/screens/CreateEventForm.tsx:225-330 | for a form that passes validateForm, the schema accepts the request exactly when nothing is posted as null: as written, exactly when a cover image is set and a table layout is picked |
| EventModel.CompleteEventOk | frontend/components/screens/CreateEventForm.tsx:305-323 | the event of a complete form meets the event schema exactly when no null is posted for its cover image or table layout |
| EventModel.FilledFormWithoutCoverRefused | frontend/components/screens/CreateEventForm.tsx:237-307 | as written, a form that passes validation but has no cover image posts coverImage null, and the schema reports "Expected string, received null" |
| EventModel.CreatePayload | frontend/components/screens/CreateEventForm.tsx:305-328 | the request holds one event, with one ticket per ticket type and one menu entry per item; its cover image is null exactly when none is set and nulls are not left out |
| EventModel.FormErrors | frontend/components/screens/CreateEventForm.tsx:175-223 | event errors come first, then ticket errors, then menu errors |
| EventModel.EventErrors | frontend/components/screens/CreateEventForm.tsx:179-190 | at most five errors, all about the event itself, and at most four when no event map is required |
| EventModel.UpdatedEvents | frontend/components/screens/CreateEventForm.tsx:84-90 | the same number of events, with the same ids in the same order |
| EventModel.WithAddedTicket | frontend/components/screens/CreateEventForm.tsx:96-112 | the same number of events, with the same ids in the same order |
| EventModel.WithUpdatedTicket | frontend/components/screens/CreateEventForm.tsx:114-132 | the same number of events, with the same ids in the same order |
| EventModel.WithoutTicket | frontend/components/screens/CreateEventForm.tsx:134-147 | the same number of events, with the same ids in the same order |
| EventModel.UpdatedMenuItems | frontend/components/screens/CreateEventForm.tsx:161-167 | the same number of items, with the same ids in the same order |
| EventSchema.TicketListIssuesEmptyIff | backend/src/schemas/eventSchema.ts:3-8 | a ticket list draws no issue exactly when every ticket has a non-empty name, price and quantity |
| EventSchema.MenuListIssuesEmptyIff | backend/src/schemas/eventSchema.ts:10-16 | a menu list draws no issue exactly when every item has a non-empty name, price and category |
| EventSchema.EventIssuesEmptyIff | backend/src/schemas/eventSchema.ts:18-39 | an event draws no issue exactly when its name, date, time and description are non-empty, no optional field is null, and its tickets, menu items and guest experience, when given, are well-formed |
| EventSchema.AcceptedIff | backend/src/schemas/eventSchema.ts:41-43 | a request is accepted exactly when it holds one event and that event is well-formed |
| EventSchema.NullCoverRefused | backend/src/schemas/eventSchema.ts:32 | a cover image sent as null draws the issue "Expected string, received null" |
| EventSchema.EventIssues | backend/src/schemas/eventSchema.ts:26-39 | an event without issues has a non-empty name, date, time and description |
| EventSchema.Issues | backend/src/schemas/eventSchema.ts:41-43 | a request without issues holds exactly one event |
| EventsTicketing.DialHour | frontend/components/screens/ClubManager/EventsTicketingSection.tsx:50-54 | the dial hour is between 1 and 12 and agrees with the 24-hour clock hour modulo 12 |
| EventsTicketing.MatchTime | frontend/components/screens/ClubManager/EventsTicketingSection.tsx:68 | a match of the time pattern has one or two hour digits, two minute digits and AM or PM |
| EventsTicketing.ParseTime | frontend/components/screens/ClubManager/EventsTicketingSection.tsx:64-81 | empty text gives no clock; a clock is parsed exactly when the text matches the pattern, and it is always a valid time of day |
| EventsTicketing.SetHours | frontend/components/screens/ClubManager/EventsTicketingSection.tsx:75-77 | setHours carries minutes past 59 into the hour and hours past 23 into the next day: the clock is the minutes given modulo one day, always a valid time |
| EventsTicketing.SetHoursInRange | frontend/components/screens/ClubManager/EventsTicketingSection.tsx:75-77 | an hour and minute already in range are set as given |
| EventsTicketing.ParseTimeCarries | frontend/components/screens/ClubManager/EventsTicketingSection.tsx:64-81 | "9:75 PM" opens the picker at 22:15, which formatTime writes back as "10:15 PM" |
| EventsTicketing.FormatTime | frontend/components/screens/ClubManager/EventsTicketingSection.tsx:49-56 | the text has at least seven characters and ends with the meridiem of the hour |
| EventsTicketing.FormatDate | frontend/components/screens/ClubManager/EventsTicketingSection.tsx:48 | for a year from 0 to 9999 the date is ten characters with dashes at positions 4 and 7 |
| EventsTicketing.FormatTimeShape | frontend/components/screens/ClubManager/EventsTicketingSection.tsx:49-56 | formatTime writes seven or eight characters ending in " AM" before noon and " PM" from noon |
| EventsTicketing.ParseFormatTime | frontend/components/screens/ClubManager/EventsTicketingSection.tsx:49-81 | parsing the text formatTime wrote gives back the same hours and minutes |
| EventsTicketing.ParseTimeInRange | frontend/components/screens/ClubManager/EventsTicketingSection.tsx:64-81 | a matching text with hour 1 to 12 and minutes below 60 gives the hour corrected for the meridiem and the minutes, unchanged |
| EventsTicketing.NextDay | frontend/components/screens/ClubManager/EventsTicketingSection.tsx:60 | the day after a valid calendar date is a valid date |
| EventsTicketing.PrevDay | frontend/components/screens/ClubManager/EventsTicketingSection.tsx:60 | the day before a valid calendar date is a valid date |
| EventsTicketing.NextPrevDay | frontend/components/screens/ClubManager/EventsTicketingSection.tsx:60 | the day before a date differs from it, and stepping back then forward (or forward then back) returns it |
| EventsTicketing.LocalOf | frontend/components/screens/ClubManager/EventsTicketingSection.tsx:48-60 | the local date and minute of a moment in a zone is a valid moment |
| EventsTicketing.FromLocal | frontend/components/screens/ClubManager/EventsTicketingSection.tsx:60 | the moment at a local date and minute is a valid moment |
| EventsTicketing.LocalOfFromLocal | frontend/components/screens/ClubManager/EventsTicketingSection.tsx:60 | converting a local time to a moment and back gives the local time |
| EventsTicketing.Pad4 | frontend/components/screens/ClubManager/EventsTicketingSection.tsx:48 | a year below 10000 is written as exactly four digits |
| EventsTicketing.ParsePad4 | frontend/components/screens/ClubManager/EventsTicketingSection.tsx:48 | reading the four digits back gives the year |
| EventsTicketing.IsoYear | frontend/components/screens/ClubManager/EventsTicketingSection.tsx:48 | toISOString writes a year from 0 to 9999 as four digits |
| EventsTicketing.ParseIsoDate | frontend/components/screens/ClubManager/EventsTicketingSection.tsx:58-62 | a parsed date is a valid calendar date of a four-digit year |
| EventsTicketing.ParseIsoDateOfIsoDate | frontend/components/screens/ClubManager/EventsTicketingSection.tsx:48-62 | parsing the "YYYY-MM-DD" text of a date gives the date back |
| EventsTicketing.ParseDate | frontend/components/screens/ClubManager/EventsTicketingSection.tsx:58-62 | parseDateString yields a valid moment, and the current moment for empty or invalid text |
| EventsTicketing.SaveUntouchedDate | frontend/components/screens/ClubManager/EventsTicketingSection.tsx:48-62 | opening and saving a stored date unchanged writes the previous day east of UTC and the same day elsewhere |
| EventsTicketing.SaveUntouchedDateShiftsBack | frontend/components/screens/ClubManager/EventsTicketingSection.tsx:48-62 | in UTC+4, "2024-05-10" is saved back as "2024-05-09" |
| EventsTicketing.SaveUntouchedLocalDate | frontend/components/screens/ClubManager/EventsTicketingSection.tsx:58-62 | had the local calendar date been written, the untouched picker would save the date it opened on, in every zone |
| EventsTicketing.Pickers.constructor | frontend/components/screens/ClubManager/EventsTicketingSection.tsx:40-46 | both pickers start closed with no wheel value |
| EventsTicketing.Pickers.OpenDate | frontend/components/screens/ClubManager/EventsTicketingSection.tsx:102-105 | pressing the Date field opens the date picker for that event on the parsed date |
| EventsTicketing.Pickers.OpenTime | frontend/components/screens/ClubManager/EventsTicketingSection.tsx:115-118 | pressing the Time field opens the time picker for that event on the parsed time |
| EventsTicketing.Pickers.ScrollDate | frontend/components/screens/ClubManager/EventsTicketingSection.tsx:265-267 | turning the iOS date wheel keeps the new moment |
| EventsTicketing.Pickers.ScrollTime | frontend/components/screens/ClubManager/EventsTicketingSection.tsx:325-327 | turning the iOS time wheel keeps the new clock |
| EventsTicketing.Pickers.AndroidDateChange | frontend/components/screens/ClubManager/EventsTicketingSection.tsx:258-264 | an Android "set" with a date updates the open event's date, a dismissal updates nothing, and the picker closes |
| EventsTicketing.Pickers.CancelDate | frontend/components/screens/ClubManager/EventsTicketingSection.tsx:283-288 | Cancel closes the date picker without an update |
| EventsTicketing.Pickers.SaveDate | frontend/components/screens/ClubManager/EventsTicketingSection.tsx:272-278 | Save writes formatDate of the wheel's moment, or of now, to the open event and closes the picker |
| EventsTicketing.Pickers.AndroidTimeChange | frontend/components/screens/ClubManager/EventsTicketingSection.tsx:318-324 | an Android "set" with a time updates the open event's time, a dismissal updates nothing, and the picker closes |
| EventsTicketing.Pickers.CancelTime | frontend/components/screens/ClubManager/EventsTicketingSection.tsx:343-348 | Cancel closes the time picker without an update |
| EventsTicketing.Pickers.SaveTime | frontend/components/screens/ClubManager/EventsTicketingSection.tsx:332-338 | Save writes formatTime of the wheel's clock, or of now, to the open event and closes the picker |
| EventsTicketing.OpenAndSaveDate | frontend/components/screens/ClubManager/EventsTicketingSection.tsx:272-278 | opening a stored date and saving at once writes the previous day east of UTC and the same day elsewhere |
| EventsTicketing.OpenAndSaveTime | frontend/components/screens/ClubManager/EventsTicketingSection.tsx:332-338 | opening a stored time formatTime wrote and saving at once keeps it |
| FeaturedCarousel.Insert | frontend/components/event/FeaturedCarousel.tsx:150 | inserting an event keeps every event already in the list and adds the new one |
| FeaturedCarousel.InsertSorted | frontend/components/event/FeaturedCarousel.tsx:150 | inserting into a newest-first list keeps it newest first |
| FeaturedCarousel.SortNewestFirst | frontend/components/event/FeaturedCarousel.tsx:150 | the sort is a permutation of its input |
| FeaturedCarousel.SortNewestFirstSorted | frontend/components/event/FeaturedCarousel.tsx:150 | the sorted list is ordered newest first by the date strings |
| FeaturedCarousel.FeaturedShape | frontend/components/event/FeaturedCarousel.tsx:147-151 | at most three featured events, newest first, each with a promo video and taken from the events |
| FeaturedCarousel.FeaturedAreNewest | frontend/components/event/FeaturedCarousel.tsx:147-151 | the featured events are the newest video events: when a video event is left out, three are featured and none of them is older than it |
| FeaturedCarousel.FeaturedCount | frontend/components/event/FeaturedCarousel.tsx:147-151 | three events are featured when at least three have a video, otherwise all that have one |
| FeaturedCarousel.Featured | frontend/components/event/FeaturedCarousel.tsx:147-151 | three events are featured, or every video event when there are fewer than three |
| FeaturedCarousel.NextIndex | frontend/components/event/FeaturedCarousel.tsx:155 | the next slide is the following one, wrapping from the last to the first, always in range |
| FeaturedCarousel.MomentumIndex | frontend/components/event/FeaturedCarousel.tsx:212-216 | the slide under the scroll offset, clamped to 0 below and to the last slide above; 0 when there are no slides |
| FeaturedCarousel.AdvanceCycles | frontend/components/event/FeaturedCarousel.tsx:153-157 | advancing n times from the first slide lands on slide n modulo the slide count |
| FeaturedCarousel.NextIndexOfRemainder | frontend/components/event/FeaturedCarousel.tsx:155 | the slide after slide n modulo the count is slide n + 1 modulo the count |
| FeaturedCarousel.Carousel.constructor | frontend/components/event/FeaturedCarousel.tsx:143-151 | the carousel starts on the first of the featured events, with no advance scheduled |
| FeaturedCarousel.Carousel.Renders | frontend/components/event/FeaturedCarousel.tsx:181-228 | the carousel draws something, and runs its timer, exactly when some event is featured |
| FeaturedCarousel.Carousel.Advance | frontend/components/event/FeaturedCarousel.tsx:153-194 | advancing moves the state and the ref together to the next slide; when the slide changes, the timer effect's cleanup cancels a scheduled advance |
| FeaturedCarousel.Carousel.VideoComplete | frontend/components/event/FeaturedCarousel.tsx:166-177 | the end of a video schedules an advance |
| FeaturedCarousel.Carousel.PendingFires | frontend/components/event/FeaturedCarousel.tsx:174-176 | the scheduled advance moves to the next slide and is spent |
| FeaturedCarousel.Carousel.ViewableChanged | frontend/components/event/FeaturedCarousel.tsx:197-210 | the first visible slide becomes active and a scheduled advance is cancelled; with none visible nothing changes |
| FeaturedCarousel.Carousel.MomentumEnd | frontend/components/event/FeaturedCarousel.tsx:212-226 | the slide under the scroll offset becomes active and a scheduled advance is cancelled |
| FilterModal.ToggleEventChip | frontend/components/Models/filterModel.tsx:162 | pressing an event chip negates that chip's flag and leaves every other filter as it was |
| FilterModal.ToggleChipTwice | frontend/components/Models/filterModel.tsx:162-176 | pressing an event or club chip twice restores the filters, and one press always changes the club filters |
| FilterModal.WithoutType | frontend/components/Models/filterModel.tsx:81 | removing a type drops every copy of it and keeps every other type |
| FilterModal.ToggledTypes | frontend/components/Models/filterModel.tsx:77-84 | a toggled type is selected afterwards exactly when it was not before; other types are untouched |
| FilterModal.ToggledTypesTwice | frontend/components/Models/filterModel.tsx:77-84 | toggling a type twice gives back the same selected types |
| FilterModal.Grouped | frontend/components/Models/filterModel.tsx:89 | the grouped numeral is never empty |
| FilterModal.WithoutCommas | frontend/components/Models/filterModel.tsx:89 | the numeral stripped of its separators has no comma |
| FilterModal.GroupedDigits | frontend/components/Models/filterModel.tsx:89 | without its commas the grouped numeral is all digits |
| FilterModal.ParseGrouped | frontend/components/Models/filterModel.tsx:89 | reading the grouped numeral without its commas gives back the number |
| FilterModal.FormatPriceSpec | frontend/components/Models/filterModel.tsx:86-90 | 0 shows "Free", 10000 and above "AED 10,000+", and any price between is "AED " followed by its own grouped numeral |
| FilterModal.FormatPrice | frontend/components/Models/filterModel.tsx:86-90 | "Free" exactly for price 0; every other price starts with "AED " |
| FilterModal.FilterSheet.constructor | frontend/components/Models/filterModel.tsx:57-58 | the sheet opens on the caller's filters, else a 10000 price cap, no distance and no club types |
| FilterModal.FilterSheet.ToggleClubType | frontend/components/Models/filterModel.tsx:77-84 | a club-type chip toggles that type and changes nothing else |
| FilterModal.FilterSheet.PressEventChip | frontend/components/Models/filterModel.tsx:162 | an event chip toggles its flag and changes nothing else |
| FilterModal.FilterSheet.PressClubChip | frontend/components/Models/filterModel.tsx:176 | a club chip toggles its flag and changes nothing else |
| FilterModal.FilterSheet.PressDistance | frontend/components/Models/filterModel.tsx:122 | a distance chip sets the distance of the list being filtered and only that |
| FilterModal.FilterSheet.SlidePrice | frontend/components/Models/filterModel.tsx:196-203 | the slider sets the rounded price cap on the events sheet and does nothing on the clubs sheet |
| FilterModal.FilterSheet.Apply | frontend/components/Models/filterModel.tsx:63-66 | apply hands the current filters to the caller |
| FilterModal.FilterSheet.Clear | frontend/components/Models/filterModel.tsx:68-75 | clear resets both filter sets to the defaults and hands the defaults to the caller |
| ImageUploader.ExtensionFromMimeType | frontend/components/ui/ImageUploader.tsx:181-201 | an extension is found exactly for the seven supported types, ignoring case, and it is non-empty and dot-free |
| ImageUploader.GuessMimeType | frontend/components/ui/ImageUploader.tsx:158-179 | the guess is one of the supported types or application/octet-stream |
| ImageUploader.GuessMimeOfExtension | frontend/components/ui/ImageUploader.tsx:158-201 | a name ending in the extension of a supported type is guessed back to that type |
| ImageUploader.LastPieceOfLowerSuffix | frontend/components/ui/ImageUploader.tsx:159 | when the lower-cased name ends in a dot and an extension, the last dot-separated piece is that extension |
| ImageUploader.VideoNamesHaveVideoType | frontend/components/ui/ImageUploader.tsx:158-212 | a name the preview shows as a video is uploaded with a video type |
| ImageUploader.VideoExtension | frontend/components/ui/ImageUploader.tsx:168-175 | the four video extensions map to video types |
| ImageUploader.LastSegment | frontend/components/ui/ImageUploader.tsx:147-148 | the last segment of a URI holds no slash |
| ImageUploader.DeriveFileName | frontend/components/ui/ImageUploader.tsx:141-156 | the asset's own name wins, then a last URI segment with a dot, else "upload_" with the clock and the type's extension or jpg |
| ImageUploader.GeneratedNameKeepsType | frontend/components/ui/ImageUploader.tsx:141-179 | a generated name is guessed back to the asset's supported type |
| ImageUploader.WithPrefix | frontend/components/ui/ImageUploader.tsx:64-66 | the prefix is prepended exactly when it is given and the name does not already contain it, ignoring case |
| ImageUploader.WithPrefixHoldsPrefix | frontend/components/ui/ImageUploader.tsx:64-66 | afterwards the name contains the prefix, and applying the rule again changes nothing |
| ImageUploader.UploadNameAndType | frontend/components/ui/ImageUploader.tsx:63-67 | the asset's own type is sent when it has one, else the type guessed from the final name |
| ImageUploader.RemoveAt | frontend/components/ui/ImageUploader.tsx:88-89 | removing index i drops that element and keeps the others in order; an index past the end removes nothing |
| ImageUploader.ExistingItems | frontend/components/ui/ImageUploader.tsx:33-35 | the tiles start as one finished remote tile per existing URL, in order |
| ImageUploader.Placeholders | frontend/components/ui/ImageUploader.tsx:53-57 | one uploading local tile per picked asset, in order |
| ImageUploader.Uploaded | frontend/components/ui/ImageUploader.tsx:73-74 | a finished upload replaces the tile with its key by the remote URL and leaves every other tile |
| ImageUploader.RemoteUrisAppend | frontend/components/ui/ImageUploader.tsx:73-79 | the remote URLs of two tile lists joined are their remote URLs joined |
| ImageUploader.RemoteUrisRemoveAt | frontend/components/ui/ImageUploader.tsx:87-92 | removing a tile removes exactly its URL, if it is remote, from the remote URLs |
| ImageUploader.Uploader.constructor | frontend/components/ui/ImageUploader.tsx:33-85 | the tiles and the URL list start from the existing URLs |
| ImageUploader.Uploader.Pick | frontend/components/ui/ImageUploader.tsx:50-58 | picked placeholders join the tiles, or replace them when one image is allowed |
| ImageUploader.Uploader.UploadDone | frontend/components/ui/ImageUploader.tsx:73-79 | a finished upload updates its tile and appends its URL to the list handed to the form (replaces it in single mode) |
| ImageUploader.Uploader.Remove | frontend/components/ui/ImageUploader.tsx:87-92 | removing drops the tile and the URL at the same index and hands the list to the form |
| ImageUploader.Uploader.UploadDoneByTiles | frontend/components/ui/ImageUploader.tsx:73-79 | corrected: a finished upload updates its tile and the form receives the remote URLs of the tiles |
| ImageUploader.Uploader.RemoveByTiles | frontend/components/ui/ImageUploader.tsx:87-92 | corrected: removing a tile removes exactly that tile's URL from the list the form receives |
| ImageUploader.OutOfOrderUploadsThenRemove | frontend/components/ui/ImageUploader.tsx:60-92 | two uploads finishing in reverse order, then removing the first tile, leave the form with the removed image's URL |
| ImageUploader.OutOfOrderUploadsThenRemoveByTiles | frontend/components/ui/ImageUploader.tsx:60-92 | the same events with the corrected list leave the form with the shown image's URL |
| MapUtils.DigitRun | frontend/utils/mapUtils.ts:8-11 | the run of digits from a position is read to its end: every character in it is a digit and the next is not |
| MapUtils.NumberAt | frontend/utils/mapUtils.ts:8-18 | a numeral read at a position ends after it and within the text |
| MapUtils.DigitRunOf | frontend/utils/mapUtils.ts:8-11 | a digit run followed by a non-digit is read whole |
| MapUtils.NumeralLayout | frontend/utils/mapUtils.ts:8-11 | where the sign, whole part, point and fraction of a written numeral lie |
| MapUtils.NumberAtNumeral | frontend/utils/mapUtils.ts:8-18 | a written numeral followed by a non-digit is read back as its value |
| MapUtils.FromPatterns | frontend/utils/mapUtils.ts:14-24 | coordinates are returned only when they lie within the latitude and longitude ranges |
| MapUtils.FirstMatchSpec | frontend/utils/mapUtils.ts:15 | match finds the leftmost position where the pattern matches, with no match before it, and none when no position matches |
| MapUtils.LinkCoordinates | frontend/utils/mapUtils.ts:3-24 | an empty link gives none, and any coordinates given are in range |
| MapUtils.ExtractCoordinates | frontend/utils/mapUtils.ts:3-29 | the loop over the four patterns returns the first in-range match, as the pattern-order definition says |
| MapUtils.MatchAtOfParts | frontend/utils/mapUtils.ts:8-11 | the prefix, a numeral, a comma and a numeral at the start of a text form a match of those coordinates |
| MapUtils.AtPartsMatch | frontend/utils/mapUtils.ts:8-11 | "@", a written numeral, "," and a written numeral match the first link form with the two numerals' values |
| MapUtils.AtTextMatches | frontend/utils/mapUtils.ts:8 | the "@" pattern matches at the start of an "@lat,lng" text |
| MapUtils.AtLinkGivesCoordinates | frontend/utils/mapUtils.ts:3-24 | an "@lat,lng" link with coordinates in range gives exactly those coordinates |
| MapUtils.MinOf | frontend/utils/mapUtils.ts:41-44 | the minimum is one of the values and no value is below it |
| MapUtils.MaxOf | frontend/utils/mapUtils.ts:41-44 | the maximum is one of the values and no value is above it |
| MapUtils.Latitudes | frontend/utils/mapUtils.ts:41-42 | the latitudes of the markers, in order |
| MapUtils.Longitudes | frontend/utils/mapUtils.ts:43-44 | the longitudes of the markers, in order |
| MapUtils.MapRegion | frontend/utils/mapUtils.ts:31-54 | no markers give the fixed region, and every span is at least 0.02 |
| MapUtils.MarkersInsideRegion | frontend/utils/mapUtils.ts:31-54 | every marker lies within half a span of the region's centre on both axes |
| MapUtils.OneMarkerRegion | frontend/utils/mapUtils.ts:31-54 | one marker gets the smallest region, centred on it |
| MenuModel.DisplayCategory | frontend/components/Models/menuModel.tsx:25-26 | a category mentioning appetisers or snacks shows as the merged title; otherwise the category, else the custom category, else "Others"; never empty |
| MenuModel.AllItems | frontend/components/Models/menuModel.tsx:21-32 | one local item per item, in order, each with its display category |
| MenuModel.Add | frontend/components/Models/menuModel.tsx:41-42 | adding to the insertion-ordered set keeps it duplicate-free and adds exactly the new name |
| MenuModel.AddItem | frontend/components/Models/menuModel.tsx:41-42 | one item adds its non-empty display and custom categories, and nothing else |
| MenuModel.Collected | frontend/components/Models/menuModel.tsx:36-44 | the collected names are duplicate-free and are exactly the non-empty display and custom categories of the items |
| MenuModel.AnyAppetiser | frontend/components/Models/menuModel.tsx:37-40 | the flag is set exactly when some display category mentions appetisers or snacks |
| MenuModel.WithoutMerged | frontend/components/Models/menuModel.tsx:47 | the filter keeps exactly the names other than "appetisers", "snacks" and the merged title, without duplicates |
| MenuModel.SubseqKeepsNoDup | frontend/components/Models/menuModel.tsx:47 | a filtered list of distinct names has distinct names |
| MenuModel.CategoriesShape | frontend/components/Models/menuModel.tsx:35-50 | "All" comes first, the merged title second exactly when some item is an appetiser or snack, and the rest are the kept collected names without duplicates |
| MenuModel.Categories | frontend/components/Models/menuModel.tsx:35-50 | "All" is the first tab, and the merged appetiser title the second whenever some item is an appetiser or snack |
| MenuModel.CategoriesRepeatAll | frontend/components/Models/menuModel.tsx:35-50 | as written, an item whose category is "All" gives the tab list ["All", "All"] |
| MenuModel.UniqueCategories | frontend/components/Models/menuModel.tsx:35-50 | corrected: the same tabs with "All" never repeated, the whole list duplicate-free |
| MenuModel.BuildCategories | frontend/components/Models/menuModel.tsx:35-50 | the loop with a set and a flag builds exactly the tab list defined by the items |
| MenuModel.VisibleItems | frontend/components/Models/menuModel.tsx:64-78 | the shown items keep their order, each is in the tab and matches the search, and every item that is in the tab and matches is shown as often as it occurs |
| MenuModel.AllTabBlankSearchShowsEverything | frontend/components/Models/menuModel.tsx:55-70 | the "All" tab with a blank search shows every item |
| MenuModel.NameMatchIsVisible | frontend/components/Models/menuModel.tsx:55-76 | an item of the tab whose name holds the search words, single-spaced, is shown |
| MenuModel.MenuSheet.constructor | frontend/components/Models/menuModel.tsx:21-53 | the sheet opens on the "All" tab with an empty search |
| MenuModel.MenuSheet.SelectCategory | frontend/components/Models/menuModel.tsx:52 | choosing a tab changes the tab and keeps the search |
| MenuModel.MenuSheet.Search | frontend/components/Models/menuModel.tsx:53 | typing changes the search and keeps the tab |
| MenuSection.CategoryChosenSpec | frontend/components/screens/ClubManager/MenuSection.tsx:86-92 | choosing a category sets it on the items with the id, empties their custom category for "Other", and changes nothing else |
| MenuSection.CategoryLabel | frontend/components/screens/ClubManager/MenuSection.tsx:134-137 | the button shows the category, or for "Other" the typed custom category, and never an empty text for "Other" |
| MenuSection.ChosenCategoryShown | frontend/components/screens/ClubManager/MenuSection.tsx:86-137 | right after a choice the item's button shows the chosen category, "Other" included |
| MenuSection.CategoryPicker.constructor | frontend/components/screens/ClubManager/MenuSection.tsx:78-79 | the picker starts hidden with no item |
| MenuSection.CategoryPicker.Open | frontend/components/screens/ClubManager/MenuSection.tsx:81-84 | opening shows the picker for that item |
| MenuSection.CategoryPicker.Close | frontend/components/screens/ClubManager/MenuSection.tsx:214 | closing hides the picker and keeps the item |
| MenuSection.CategoryPicker.Select | frontend/components/screens/ClubManager/MenuSection.tsx:86-95 | with an item selected its category is chosen, the events are untouched, and the picker closes and forgets the item |
| SearchPattern.UnescapeEscape | frontend/components/screens/SearchScreen.tsx:18-19 | escaping is lossless: the pattern reads each word back literally |
| SearchPattern.WordLen | frontend/components/screens/SearchScreen.tsx:20 | the leading word has no white space and is followed by white space or the end |
| SearchPattern.Words | frontend/components/screens/SearchScreen.tsx:20 | the words are non-empty and hold no white space |
| SearchPattern.WordsEmptyIffBlank | frontend/components/screens/SearchScreen.tsx:16-20 | a text has no words exactly when it is blank |
| SearchPattern.BuildRegexNoneIffBlank | frontend/components/screens/SearchScreen.tsx:15-22 | there is no pattern exactly when the input is blank, and a pattern has at least one word |
| SearchPattern.MatchesSpacedWords | frontend/components/screens/SearchScreen.tsx:18-21 | a text holding the words separated by single spaces matches the pattern at its start |
| SearchPattern.FieldContainingQueryMatches | frontend/components/screens/SearchScreen.tsx:18-21 | a field holding the words single-spaced somewhere passes the pattern's test |
| SearchPattern.Escape | frontend/components/screens/SearchScreen.tsx:19 | escaping keeps every character and adds at most one before each: the result is at least as long as the text and at most twice as long |
| SearchPattern.Unescape | frontend/components/screens/SearchScreen.tsx:19 | reading an escaped text back never makes it longer |
| SearchPattern.BuildRegex | frontend/components/screens/SearchScreen.tsx:15-22 | every word of a pattern is non-empty and holds no white space |
| SearchScreen.LoadListSpec | frontend/components/screens/SearchScreen.tsx:65-87 | the restored list is the first five stored entries of an array, and empty for anything else |
| SearchScreen.OtherQueries | frontend/components/screens/SearchScreen.tsx:94 | the surviving queries are exactly the earlier entries not equal to the trimmed text up to case, each as often as before, in order |
| SearchScreen.SavedHistorySpec | frontend/components/screens/SearchScreen.tsx:92-98 | the trimmed query heads at most five entries, no later entry equals it up to case, and the rest are the surviving earlier queries in order, all of them or the first four |
| SearchScreen.OtherSelections | frontend/components/screens/SearchScreen.tsx:102 | the surviving selections are exactly the earlier entries with another id and another name up to case, each as often as before, in order |
| SearchScreen.SavedSelectionsSpec | frontend/components/screens/SearchScreen.tsx:100-106 | the opened item heads at most five entries with its trimmed name, no later entry has its id or its name up to case, and the rest are the surviving selections in order, all of them or the first four |
| SearchScreen.DeletedHistorySpec | frontend/components/screens/SearchScreen.tsx:108-113 | deleting a query removes exactly the equal entries and keeps every other entry, as often as before and in order |
| SearchScreen.DeletedSelectionsSpec | frontend/components/screens/SearchScreen.tsx:115-120 | deleting a selection removes exactly the entries with its id and keeps every other entry, as often as before and in order |
| SearchScreen.SearchState.constructor | frontend/components/screens/SearchScreen.tsx:65-87 | both lists start as restored from the store |
| SearchScreen.SearchState.SaveToHistory | frontend/components/screens/SearchScreen.tsx:92-98 | saving a query replaces the history by the saved history and keeps the selections |
| SearchScreen.SearchState.SaveSelection | frontend/components/screens/SearchScreen.tsx:100-106 | saving a selection replaces the selections by the saved list and keeps the history |
| SearchScreen.SearchState.DeleteHistoryItem | frontend/components/screens/SearchScreen.tsx:108-113 | deleting a query changes only the history |
| SearchScreen.SearchState.DeleteSelectionItem | frontend/components/screens/SearchScreen.tsx:115-120 | deleting a selection changes only the selections |
| SearchScreen.SearchState.ClearAllHistory | frontend/components/screens/SearchScreen.tsx:122-126 | clearing the history empties it and keeps the selections |
| SearchScreen.SearchState.ClearAllSelections | frontend/components/screens/SearchScreen.tsx:128-132 | clearing the selections empties them and keeps the history |
| SearchScreen.FilteredEventsSpec | frontend/components/screens/SearchScreen.tsx:134-139 | a blank query shows every event; otherwise exactly the events whose name, artists or venue match, each as often as fetched, in order; none in clubs mode |
| SearchScreen.FilteredClubsSpec | frontend/components/screens/SearchScreen.tsx:141-146 | a blank query shows every club; otherwise exactly the clubs whose name, description, address or venue type match, each as often as fetched, in order; none in events mode |
| SearchScreen.LoadList | frontend/components/screens/SearchScreen.tsx:65-87 | at most five entries are restored |
| SearchScreen.SavedHistory | frontend/components/screens/SearchScreen.tsx:92-98 | the trimmed query comes first, and the history holds one to five entries |
| SearchScreen.FilteredEvents | frontend/components/screens/SearchScreen.tsx:134-139 | outside events mode no event is shown, and never more events than given |
| SearchScreen.FilteredClubs | frontend/components/screens/SearchScreen.tsx:141-146 | outside clubs mode no club is shown, and never more clubs than given |
| TicketCounter.PressInRange | frontend/components/ui/TicketCounter.tsx:18-31 | one press keeps a value inside [min, max] and moves it by at most one |
| TicketCounter.Press | frontend/components/ui/TicketCounter.tsx:18-31 | plus raises the value by at most one and never lowers it; minus lowers it by at most one and never raises it |
| TicketCounter.PressesInRange | frontend/components/ui/TicketCounter.tsx:18-31 | any series of presses starting inside [min, max] stays inside it |
| TicketCounter.PlusReachesMax | frontend/components/ui/TicketCounter.tsx:24-28 | enough plus presses reach the maximum, and the plus button then stops |
| TicketCounter.Counter.WithDefaults | frontend/components/ui/TicketCounter.tsx:12-17 | a counter without bounds uses 1 and 10 |
| TicketCounter.Counter.constructor | frontend/components/ui/TicketCounter.tsx:12-17 | a counter keeps the value and bounds it is given |
| TicketCounter.Counter.Decrement | frontend/components/ui/TicketCounter.tsx:18-22 | minus lowers the value by one only above the minimum, and never leaves the range |
| TicketCounter.Counter.Increment | frontend/components/ui/TicketCounter.tsx:24-28 | plus raises the value by one only below the maximum, and never leaves the range |
| TimelineTabs.AddDays | frontend/components/event/TimelineFilterTabs.tsx:123-143 | moving a valid date by a number of days gives a valid date |
| TimelineTabs.NextDayLater | frontend/components/event/TimelineFilterTabs.tsx:139-140 | the next day is later |
| TimelineTabs.AddDaysStep | frontend/components/event/TimelineFilterTabs.tsx:123-143 | one more day is the next day, whatever the sign of the count |
| TimelineTabs.AddDaysAdd | frontend/components/event/TimelineFilterTabs.tsx:123-127 | moving by a days and then b days is moving by a + b days |
| TimelineTabs.AddDaysForward | frontend/components/event/TimelineFilterTabs.tsx:125-127 | moving forward never goes back |
| TimelineTabs.AddDaysLater | frontend/components/event/TimelineFilterTabs.tsx:139-140 | moving forward by a positive count gives a later date |
| TimelineTabs.SetDate | frontend/components/event/TimelineFilterTabs.tsx:123-125 | setDate with any day number gives a valid moment |
| TimelineTabs.SetDateMoves | frontend/components/event/TimelineFilterTabs.tsx:123-125 | setting the day of the month k past the current one moves the date k days and keeps the time |
| TimelineTabs.SetEndOfDay | frontend/components/event/TimelineFilterTabs.tsx:118-126 | setHours(23, 59, 59, 999) keeps the date and moves to its last millisecond |
| TimelineTabs.SetFullYear | frontend/components/event/TimelineFilterTabs.tsx:141-142 | setFullYear gives a valid moment in that year at the same time of day |
| TimelineTabs.GetDateRange | frontend/components/event/TimelineFilterTabs.tsx:111-148 | the step-by-step Date updates give the range defined for the tab, and each range starts no later than it ends |
| TimelineTabs.TabRangeOrdered | frontend/components/event/TimelineFilterTabs.tsx:111-148 | every tab's range is made of valid moments and starts no later than it ends |
| TimelineTabs.TabRange | frontend/components/event/TimelineFilterTabs.tsx:111-148 | every range starts at midnight, and every range but upcoming ends at the last millisecond of its day |
| TimelineTabs.ThisWeekContainsToday | frontend/components/event/TimelineFilterTabs.tsx:121-128 | this week starts on the Sunday on or before today and contains the whole of today |
| TimelineTabs.WeekSpansSevenDays | frontend/components/event/TimelineFilterTabs.tsx:121-128 | the week starts at midnight and ends at the last millisecond six days later |
| TimelineTabs.NextWeekFollows | frontend/components/event/TimelineFilterTabs.tsx:129-136 | next week starts seven days after this week starts, after this week ends |
| TimelineTabs.UpcomingStartsTomorrow | frontend/components/event/TimelineFilterTabs.tsx:137-143 | upcoming starts after tonight ends, at tomorrow's midnight, and ends on today's date a year on |
| UserClubDetails.AllEvents | frontend/app/club/userClubDetailsScreen.tsx:37-40 | every event of the club is kept in order with only its venue changed, to the club's name when the club has one |
| UserClubDetails.Insert | frontend/app/club/userClubDetailsScreen.tsx:48 | inserting an event keeps the events already placed and adds it |
| UserClubDetails.StampOrderTotal | frontend/app/club/userClubDetailsScreen.tsx:45-48 | any two moments compare one way or the other |
| UserClubDetails.StampOrderTransitive | frontend/app/club/userClubDetailsScreen.tsx:45-48 | the moment order is transitive |
| UserClubDetails.InsertSorted | frontend/app/club/userClubDetailsScreen.tsx:48 | inserting into a list sorted by date keeps it sorted |
| UserClubDetails.SortByDate | frontend/app/club/userClubDetailsScreen.tsx:48 | the sort is a permutation of the events |
| UserClubDetails.SortByDateSorted | frontend/app/club/userClubDetailsScreen.tsx:48 | the sorted events are earliest first |
| UserClubDetails.FilteredEventsShape | frontend/app/club/userClubDetailsScreen.tsx:42-49 | the shown events are exactly the club's events dated inside the tab's range, each as often as the club lists it, earliest first |
| UserClubDetails.FilteredEvents | frontend/app/club/userClubDetailsScreen.tsx:42-49 | never more events are shown than the club has |
| UserClubDetails.TonightIsToday | frontend/app/club/userClubDetailsScreen.tsx:42-49 | with the tonight tab an event is shown exactly when it is dated today |
| UserClubDetails.SelectedCity | frontend/app/club/userClubDetailsScreen.tsx:62-67 | the club is shown in Abu Dhabi exactly when its trimmed, lower-cased city (Dubai when missing) contains "abu" |
| UserClubDetails.AbuDhabiCity | frontend/app/club/userClubDetailsScreen.tsx:62-67 | a city starting with "abu" in any case is shown as Abu Dhabi |
| UserClubDetails.PaddedCity | frontend/app/club/userClubDetailsScreen.tsx:62-67 | spaces around the city do not change where the club is shown |
| UserClubDetails.NoCityIsDubai | frontend/app/club/userClubDetailsScreen.tsx:62-67 | a club without a city is shown in Dubai |
| UserClubDetails.MapsUrl | frontend/app/club/userClubDetailsScreen.tsx:51-57 | the club's own map link is opened when it has one, else a map search for its name |
| UserClubScreen.ToggledTypes | frontend/components/screens/userClubScreen.tsx:38-44 | "all" clears the selection; the sole selected type toggles off; any other type is selected alone; never more than one type |
| UserClubScreen.ToggleTwiceClears | frontend/components/screens/userClubScreen.tsx:38-44 | choosing a type twice from nothing selected comes back to nothing selected |
| UserClubScreen.LowerKeepsSpace | frontend/components/screens/userClubScreen.tsx:55-56 | lower-casing keeps white space and commas where they are |
| UserClubScreen.TrimStartLower | frontend/components/screens/userClubScreen.tsx:55-56 | trimming the start commutes with lower-casing |
| UserClubScreen.TrimEndLower | frontend/components/screens/userClubScreen.tsx:55-56 | trimming the end commutes with lower-casing |
| UserClubScreen.SplitFromLower | frontend/components/screens/userClubScreen.tsx:55-56 | splitting at commas commutes with lower-casing |
| UserClubScreen.VenueTokensAreNormalized | frontend/components/screens/userClubScreen.tsx:53-58 | the screen's own venue tokens, lower-cased before splitting, equal the shared normaliser's tokens |
| UserClubScreen.FilteredClubs | frontend/components/screens/userClubScreen.tsx:79-86 | the listed clubs keep their order, each passes the city, search and type tests, and every club that passes is listed as often as it occurs |
| UserClubScreen.NoFiltersShowsAll | frontend/components/screens/userClubScreen.tsx:79-86 | with no city, search or type chosen every club is listed |
| UserClubScreen.BlankSearchKeepsClub | frontend/components/screens/userClubScreen.tsx:50-86 | a search of white space only keeps every club of the city and type |
| UserClubScreen.FetchQuery | frontend/components/screens/userClubScreen.tsx:63-68 | the request names the type exactly when one type is selected, and the city exactly when one is chosen |
| UserClubScreen.ClubListScreen.constructor | frontend/components/screens/userClubScreen.tsx:25-28 | the screen starts on the first city with no search and no type |
| UserClubScreen.ClubListScreen.ToggleType | frontend/components/screens/userClubScreen.tsx:38-44 | a type chip changes only the selection, which keeps at most one type |
| UserClubScreen.ClubListScreen.SelectCity | frontend/components/screens/userClubScreen.tsx:25 | choosing a city changes only the city |
| UserClubScreen.ClubListScreen.SetSearch | frontend/components/screens/userClubScreen.tsx:105 | typing changes only the search |
| ClubTypes.Underscored | frontend/utils/clubTypes.ts:7 | replacing white-space runs leaves no white space, only underscores and characters of the text, and never lengthens it |
| ClubTypes.Token | frontend/utils/clubTypes.ts:7 | a token holds no white space and no upper-case letter |
| ClubTypes.NormalizeClubType | frontend/utils/clubTypes.ts:3-9 | an empty text gives no tokens; every token is non-empty, comma-free, space-free and lower-case |
| ClubTypes.UnderscoredNoSpace | frontend/utils/clubTypes.ts:7 | a text without white space is left as it is |
| ClubTypes.TokenIdempotent | frontend/utils/clubTypes.ts:7 | normalising a token again changes nothing |
| ClubTypes.NormalizedTokensAreNormal | frontend/utils/clubTypes.ts:3-9 | every produced token is its own normal form |
| ClubTypes.FirstColor | frontend/utils/clubTypes.ts:24-28 | the loop returns the colour of the first token that has one, and nothing exactly when no token has one |
| ClubTypes.ClubTypeColor | frontend/utils/clubTypes.ts:22-29 | the colour is that of the first token of the normalised text that has a colour, and there is none exactly when no token has one |
| ClubMarker.ToInt32 | frontend/components/Map/ClubMarker.tsx:31 | the 32-bit conversion lands in the signed range and differs from the input by a multiple of 2^32 |
| ClubMarker.Pow2 | frontend/components/Map/ClubMarker.tsx:31 | powers of two are positive |
| ClubMarker.ShiftLeft | frontend/components/Map/ClubMarker.tsx:31-56 | a left shift yields a signed 32-bit value |
| ClubMarker.HashMagnitude | frontend/components/Map/ClubMarker.tsx:29-32 | the hash grows by at most 2^31 plus the largest code point per character |
| ClubMarker.HashIsExact | frontend/components/Map/ClubMarker.tsx:29-33 | for names shorter than 2^21 characters the hash stays below 2^53, where number arithmetic is exact |
| ClubMarker.ColorIndex | frontend/components/Map/ClubMarker.tsx:27-33 | the palette slot is below 10, and 0 for an empty name |
| ClubMarker.PickColor | frontend/components/Map/ClubMarker.tsx:13-60 | the loop's hash picks the palette entry at the defined slot, which is one of the palette's colours |
| ClubMarker.GetMarkerColor | frontend/components/Map/ClubMarker.tsx:13-35 | the fill colour is the marker palette's entry at the slot of the shift-5 hash, indigo for an empty name |
| ClubMarker.GetBorderColor | frontend/components/Map/ClubMarker.tsx:38-60 | the border colour is the border palette's entry at the slot of the shift-7 hash, white for an empty name |
| ClubMarker.SingleCharacterHash | frontend/components/Map/ClubMarker.tsx:29-32 | the hash of a one-character name is that character's code |
| ClubMarker.FallbackInitial | frontend/components/Map/ClubMarker.tsx:64-108 | at most one character: "C" for an empty title, nothing for a blank one, else the upper-cased first character of the trimmed title |
| ClubMarker.BlankTitleShowsNothing | frontend/components/Map/ClubMarker.tsx:64-108 | a title of white space only shows no initial |
| DaysSelector.ToggleDay | frontend/components/ui/DaysSelector.tsx:21-24 | a selected day is removed everywhere and every other day stays as often as before, in order; an unselected day is appended |
| DaysSelector.ToggleSelectedDayCount | frontend/components/ui/DaysSelector.tsx:22 | removing a selected day shortens the selection by exactly the number of its copies |
| DaysSelector.ToggleDayTwice | frontend/components/ui/DaysSelector.tsx:21-24 | toggling a day twice gives back the same selected days |
| DaysSelector.ChipLabel | frontend/components/ui/DaysSelector.tsx:45 | a chip shows the first three letters of its day |
| DaysSelector.ChipLabelsDistinct | frontend/components/ui/DaysSelector.tsx:5-45 | the seven chip labels are distinct |
| Payment.EventTickets | frontend/app/payment.tsx:81-87 | a parsed parameter gives its list; a missing or unparsable one gives no tickets |
| Payment.FirstAvailable | frontend/app/payment.tsx:93-95 | the first index whose type has tickets left, with none before it; none exactly when no type has tickets left |
| Payment.FindByName | frontend/app/payment.tsx:103 | the first index whose type has the given name; none exactly when no type has it |
| Payment.AvailableTickets | frontend/app/payment.tsx:104 | the remaining count of the selected type, 0 when nothing is selected |
| Payment.TotalAmount | frontend/app/payment.tsx:105 | the selected type's price, a real number, times the quantity; 0 when nothing is selected |
| Payment.DefaultSelection | frontend/app/payment.tsx:91-100 | the choice becomes the name of the first type with tickets left, and stays as it was when no type has tickets left |
| Payment.SelectedTicket | frontend/app/payment.tsx:103 | a found ticket is in the list and has the name; none exactly when no type has that name |
| Payment.CounterMax | frontend/app/payment.tsx:231 | the counter's maximum is the smaller of ten and the remaining count |
| Payment.DefaultSelectionAvailable | frontend/app/payment.tsx:90-104 | with distinct names and some type left, the default choice is found and has tickets left |
| Payment.DuplicateNameSelectsSoldOut | frontend/app/payment.tsx:90-104 | with two types of one name, the first sold out, the default choice resolves to the sold-out type |
| Payment.CheckPurchase | frontend/app/payment.tsx:107-124 | no selection and too large a quantity are refused (each exactly in its case); otherwise the request carries the event, the type and a quantity within the remaining count |
| Payment.CounterQuantityPasses | frontend/app/payment.tsx:224-231 | any quantity the counter can reach from 1 passes the purchase checks |
| Payment.ReplyOutcome | frontend/app/payment.tsx:128-137 | success leads to the bookings tab and only success does; a failure shows the server's non-empty message, and every alert has a title and a non-empty message |
| Payment.PaymentScreen.constructor | frontend/app/payment.tsx:76-99 | the screen starts with the parsed tickets, the default choice, quantity 1 and no purchase in flight |
| Payment.PaymentScreen.Tap | frontend/app/payment.tsx:202 | only a type with tickets left becomes the selection; nothing else changes |
| Payment.PaymentScreen.SetQuantity | frontend/app/payment.tsx:229 | the counter sets the quantity and nothing else |
| Payment.PaymentScreen.StartPurchase | frontend/app/payment.tsx:107-119 | the checks decide, and the screen becomes busy exactly when a request is sent |
| Payment.PaymentScreen.FinishPurchase | frontend/app/payment.tsx:128-139 | the reply's outcome is shown and the screen is no longer busy |

## Left out

- Network, database, storage and navigation calls are left out. Their replies are method parameters, and navigation is a value naming the target screen.
- Language-model prompts and calls in the chatbot and the recommendations service are left out. The model's answer is a parameter. Only the rule-based paths are modelled.
- Floating-point numbers are exact reals, so rounding in `parseFloat`, division and map-region arithmetic is not modelled. A NaN rating is a missing rating.
- Time zones are a fixed offset in minutes, so daylight-saving changes are not modelled. "Now" and the weekday are parameters.
- UserClubDetails: event dates are already-parsed local moments. `new Date("YYYY-MM-DD")` reads such text as UTC midnight, and that shift is not modelled.
- Locale formatting is not modelled: `toLocaleDateString`, the event dates in the event card, the event details and the carousel, and prices in currency format.
- Case folding and the regular-expression `i` flag cover ASCII letters only. White space is JavaScript's full set.
- ClubMarker: `charCodeAt` is taken as the code point. That holds for characters in the Basic Multilingual Plane only. The hash is exact for names shorter than 2^21 characters.
- String lengths and positions: a Dafny string is a sequence of characters, while JavaScript's `length`, `slice` and `charCodeAt` count UTF-16 code units. The two agree for text in the Basic Multilingual Plane only. This applies to the one-character test of `OtpScreen.OtpEntry.ChangeOtp` and `AdminLogin.LoginPage.ChangeOtp` (`value.length > 1`), to the characters `OtpScreen.MaskedPhone` keeps and stars, to the four `AdminLogin.LoginPage` slots and the joined code, and to the `ClubMarker` hash. An emoji or another character outside that plane counts as two units in the app and as one character in the model.
- ChatIntents.MyBookingsQuery: both callers of `generateDatabaseQuery` (backend/src/utils/chatbotDatabaseUtils.ts:13-14 and backend/src/controllers/chatbotController.ts:282) pass the schema text as the third argument, which the function takes as `userId` (backend/src/utils/openRouterService.ts:672-676). The lookup of a user's paid orders is therefore keyed by that text, and `executeAIGeneratedQuery` has no `Order` case, so it falls back to clubs. The model states what the function does for a real user id; the app as wired never passes one.
- `encodeURIComponent` is not modelled. The map search URL carries the searched text unencoded. The carousel's unique video URI (frontend/components/event/FeaturedCarousel.tsx:27) is not modelled.
- TimelineTabs: the `default` branch of `getDateRange` (frontend/components/event/TimelineFilterTabs.tsx:146-147) is unreachable, because a tab is one of four values.
- ChatSuggestions: a screen name such as "constructor" is not modelled. In JavaScript it would find an inherited property of the suggestion table.
- ClubTypes.ClubTypeColor: tokens such as "constructor" or "__proto__" are not modelled as colour keys. In JavaScript `CLUB_TYPE_COLORS[token]` finds an inherited, truthy property for them (frontend/utils/clubTypes.ts:25) and returns it as the colour; the model returns no colour.
- Cover, gallery, video and menu images picked as files and uploaded before posting are not modelled. The cover image is a URL or null.
- The edit screen's update request is checked against the schema in backend/src/controllers/eventController.ts:9-45 (used at :179). That schema and the create route's handler are not part of this model.
- Payment: ticket counts are integers. Prices are reals.
- Not modelled: the events count badge, the status badge wording, the filter sheet's title memo, and the search screen's placeholder text.
- SearchScreen: the event list aggregated from clubs (frontend/components/screens/SearchScreen.tsx:44-51) is an input of the filter. The press handlers (151-164) only navigate and are not modelled. The submit handler (190-193) only decides whether to call `SaveToHistory`, which is modelled. It calls it when the trimmed text is not empty, and the handler itself is not modelled.
- ImageUploader: the clock reading in generated names and tile keys is a parameter. Image picking, permissions and upload progress are left out.
- FeaturedCarousel: video playback and scrolling are not modelled. Timers are modelled only through the methods they call.
- ChatEvents: the flattened record leaves out the event's `guestExperience` (backend/src/utils/chatbotDatabaseUtils.ts:102), which is copied unchanged and read by nothing in the model.
- Not modelled: concurrency between in-flight requests and the state updates React batches. Each handler runs to completion on the state it reads.

## Findings

| source | as written | input that shows it | evidently intended | confidence | as-written member | corrected member |
|---|---|---|---|---|---|---|
| frontend/components/ui/ImageUploader.tsx:60-92 | uploaded URLs are appended in the order uploads finish, but removed by tile index | pick a and b, b's upload finishes first, remove tile 0 (a): the form keeps a's URL while the tile shown is b | removing a tile removes that tile's URL | high, not executed | ImageUploader.OutOfOrderUploadsThenRemove | ImageUploader.Uploader.RemoveByTiles |
| frontend/components/Models/menuModel.tsx:35-50 | the tabs start with "All" and add every item's category, so an item whose category is "All" adds a second "All" tab | one item with category "All": tabs ["All", "All"] | "All" appears once | medium, not executed | MenuModel.CategoriesRepeatAll | MenuModel.UniqueCategories |
| frontend/components/screens/CreateEventForm.tsx:237-320 | a missing cover image and table layout are posted as null, and the optional strings of `createEventSchema` refuse null; this matters if the create route validates with that schema, and no handler in the modelled source shows that it does | a form that passes validation with no cover image: "Expected string, received null" | a form that passes validation is accepted | medium (depends on the create route's handler), not executed | EventModel.FilledFormWithoutCoverRefused | CreateEventForm.SubmitOmittingNulls |
| frontend/components/screens/ClubManager/EventsTicketingSection.tsx:48-62 | a stored date is read at local midnight and written back with toISOString, the UTC date | in UTC+4, opening "2024-05-10" and saving without a change writes "2024-05-09" | saving an untouched date keeps it | high, not executed | EventsTicketing.SaveUntouchedDateShiftsBack | EventsTicketing.SaveUntouchedLocalDate |
