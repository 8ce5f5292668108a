// The horizontal strip of cards under a chatbot answer
// (ChatbotCardsContainer): nothing for no cards, a title counting them, one
// event or club card per item, and the swipe hint.

module ChatCards {
  import opened Basics
  import opened Text

  datatype CardMode = Events | Clubs | Mixed

  /** The fields of an item that decide its card in the mixed mode ("" where absent). */
  datatype Item = Item(date: string, time: string, djArtists: string)

  /** A drawn card with its React key. */
  datatype Drawn = EventCard(key: string, item: Item) | ClubCard(key: string, item: Item)

  datatype Strip = Strip(title: string, cards: seq<Drawn>, hint: string)

  /** What pressing a card does: call the handler the parent supplied, or navigate. */
  datatype Press = CallHandler | Navigate(path: string)

  /** The `handlePress` both cards share: a supplied handler replaces navigation to the card's page. */
  function CardPress(hasOnPress: bool, path: string): (r: Press)
    ensures hasOnPress <==> r == CallHandler
    ensures !hasOnPress ==> r.path == path
  {
    if hasOnPress then CallHandler else Navigate(path)
  }

  /** The noun of the count in the title, singular for exactly one card. */
  function Noun(mode: CardMode, count: nat): (r: string)
    ensures count == 1 <==> r in {"event", "venue", "result"}
  {
    match mode
    case Events => if count == 1 then "event" else "events"
    case Clubs => if count == 1 then "venue" else "venues"
    case Mixed => if count == 1 then "result" else "results"
  }

  /** `getTitle`: a non-empty given title wins, else "Found N ...". */
  function Title(mode: CardMode, count: nat, title: Option<string>): (r: string)
    ensures title.Some? && title.value != "" ==> r == title.value
    ensures title.None? || title.value == "" ==> StartsWith(r, "Found ") && StartsWith(r[6..], NatToString(count))
  {
    if title.Some? && title.value != "" then title.value
    else
      var r := "Found " + NatToString(count) + " " + Noun(mode, count);
      assert r[..6] == "Found ";
      assert r[6..][..|NatToString(count)|] == NatToString(count);
      r
  }

  /** The mixed mode's test: an item with a date, a time or artists is an event. */
  predicate LooksLikeEvent(item: Item) {
    item.date != "" || item.time != "" || item.djArtists != ""
  }

  function Key(prefix: string, index: nat): string {
    prefix + "-" + NatToString(index)
  }

  /** `renderCard` */
  function RenderCard(mode: CardMode, item: Item, index: nat): (r: Drawn)
    ensures r.item == item
    ensures r.EventCard? <==> (mode == Events || (mode == Mixed && LooksLikeEvent(item)))
    ensures r.key == Key(if r.EventCard? then "event" else "club", index)
  {
    if mode == Events || (mode == Mixed && LooksLikeEvent(item)) then EventCard(Key("event", index), item)
    else ClubCard(Key("club", index), item)
  }

  function Hint(mode: CardMode): string {
    "Swipe to see more " + match mode case Events => "events" case Clubs => "venues" case Mixed => "results"
  }

  /** The container: nothing without cards, else the title, a card per item in order, and the hint. */
  function Container(items: seq<Item>, mode: CardMode, title: Option<string>): (r: Option<Strip>)
    ensures items == [] <==> r.None?
    ensures r.Some? ==> r.value.title == Title(mode, |items|, title) && r.value.hint == Hint(mode)
    ensures r.Some? ==> (|r.value.cards| == |items|
      && forall i :: 0 <= i < |items| ==> r.value.cards[i] == RenderCard(mode, items[i], i))
  {
    if items == [] then None
    else Some(Strip(Title(mode, |items|, title), seq(|items|, i requires 0 <= i < |items| => RenderCard(mode, items[i], i)), Hint(mode)))
  }

  /** In the events and clubs modes every card is of the one kind, whatever the items hold. */
  lemma SingleKindModes(items: seq<Item>, title: Option<string>)
    requires items != []
    ensures forall d :: d in Container(items, Events, title).value.cards ==> d.EventCard?
    ensures forall d :: d in Container(items, Clubs, title).value.cards ==> d.ClubCard?
  {
    var ev := Container(items, Events, title).value.cards;
    var cl := Container(items, Clubs, title).value.cards;
    assert forall d :: d in ev ==> exists i :: 0 <= i < |items| && d == ev[i];
    assert forall d :: d in cl ==> exists i :: 0 <= i < |items| && d == cl[i];
  }

  /** Keys are distinct across the strip, so React can tell the cards apart. */
  lemma KeysDistinct(items: seq<Item>, mode: CardMode, title: Option<string>, i: nat, j: nat)
    requires i < j < |items|
    ensures Container(items, mode, title).value.cards[i].key != Container(items, mode, title).value.cards[j].key
  {
    var a := Container(items, mode, title).value.cards[i];
    var b := Container(items, mode, title).value.cards[j];
    KeyInjective(if a.EventCard? then "event" else "club", i, if b.EventCard? then "event" else "club", j);
  }

  /** A key determines its index: the prefixes differ in their first letter and the digits parse back. */
  lemma KeyInjective(p: string, i: nat, q: string, j: nat)
    requires p in {"event", "club"} && q in {"event", "club"}
    ensures Key(p, i) == Key(q, j) ==> i == j
  {
    if Key(p, i) == Key(q, j) {
      assert Key(p, i)[0] == p[0] && Key(q, j)[0] == q[0];
      assert p == q;
      assert Key(p, i)[|p| + 1..] == NatToString(i);
      assert Key(q, j)[|q| + 1..] == NatToString(j);
      ParseNatToString(i);
      ParseNatToString(j);
    }
  }
}
