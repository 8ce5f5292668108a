// The administrators' approval queue (admin-web ApproveClubs): the search
// over the listed clubs, the details fetched per club and merged over the
// list entry, approval or rejection removing a club, and the filter reset.
//
// Server replies are parameters; a missing text field is "".

module ApproveClubs {
  import opened Basics
  import opened Text

  datatype ClubItem = ClubItem(id: string, name: string, email: string, phone: string, address: string)

  /** The fields a detail reply carries; an absent field leaves the list value. */
  datatype ClubDetails = ClubDetails(
    id: Option<string>, name: Option<string>, email: Option<string>, phone: Option<string>, address: Option<string>)

  datatype Status = Pending | Approved | All

  /** Whether one of the searched fields contains the lower-cased query. */
  predicate MatchesQuery(c: ClubItem, q: string) {
    Contains(ToLower(c.name), q) || Contains(ToLower(c.email), q)
    || Contains(ToLower(c.phone), q) || Contains(ToLower(c.address), q)
  }

  /** `filtered`: all clubs for a blank search, else those with a field containing it, in list order. */
  function Filtered(items: seq<ClubItem>, search: string): (r: seq<ClubItem>)
    ensures ToLower(Trim(search)) == "" ==> r == items
    ensures ToLower(Trim(search)) != "" ==>
      IsSubseq(r, items)
      && (forall k :: 0 <= k < |r| ==> MatchesQuery(r[k], ToLower(Trim(search))))
      && (forall k :: 0 <= k < |items| && MatchesQuery(items[k], ToLower(Trim(search))) ==> items[k] in r)
      && (forall c :: multiset(r)[c] == if MatchesQuery(c, ToLower(Trim(search))) then multiset(items)[c] else 0)
  {
    var q := ToLower(Trim(search));
    if q == "" then items
    else
      var keep := (c: ClubItem) => MatchesQuery(c, q);
      FilterIsSubseq(items, keep);
      FilterMultiset(items, keep);
      Filter(items, keep)
  }

  /** A search of white space only lists every club. */
  lemma BlankSearchListsAll(items: seq<ClubItem>, search: string)
    requires Blank(search)
    ensures Filtered(items, search) == items
  {
    TrimEmptyIffBlank(search);
  }

  /** `{ ...c, ...details }`: every field the details carry wins. */
  function Merged(c: ClubItem, d: ClubDetails): (r: ClubItem)
    ensures d.name.Some? ==> r.name == d.name.value
    ensures d.name.None? ==> r.name == c.name
    ensures d.id.Some? ==> r.id == d.id.value
    ensures d.id.None? ==> r.id == c.id
    ensures d.email.Some? ==> r.email == d.email.value
    ensures d.email.None? ==> r.email == c.email
    ensures d.phone.Some? ==> r.phone == d.phone.value
    ensures d.phone.None? ==> r.phone == c.phone
    ensures d.address.Some? ==> r.address == d.address.value
    ensures d.address.None? ==> r.address == c.address
  {
    ClubItem(d.id.GetOr(c.id), d.name.GetOr(c.name), d.email.GetOr(c.email),
             d.phone.GetOr(c.phone), d.address.GetOr(c.address))
  }

  const NoDetails := ClubDetails(None, None, None, None, None)

  /** The card of a club: its entry merged with its fetched details, if any. */
  function CardOf(c: ClubItem, details: map<string, ClubDetails>): ClubItem {
    Merged(c, if c.id in details then details[c.id] else NoDetails)
  }

  /** Without fetched details a card shows the list entry unchanged. */
  lemma CardWithoutDetails(c: ClubItem, details: map<string, ClubDetails>)
    requires c.id !in details
    ensures CardOf(c, details) == c
  {
  }

  /** `idsToFetch`: the ids, in list order, of the clubs whose details are not yet held. */
  function IdsToFetch(items: seq<ClubItem>, details: map<string, ClubDetails>): (r: seq<string>)
    ensures forall id :: id in r <==> id !in details && exists k :: 0 <= k < |items| && items[k].id == id
    ensures |r| <= |items|
  {
    if items == [] then []
    else (if items[0].id !in details then [items[0].id] else []) + IdsToFetch(items[1..], details)
  }

  /** The list after a successful approval or rejection: that club gone, the rest in order. */
  function WithoutClub(items: seq<ClubItem>, id: string): (r: seq<ClubItem>)
    ensures forall k :: 0 <= k < |r| ==> r[k].id != id
    ensures forall k :: 0 <= k < |items| && items[k].id != id ==> items[k] in r
    ensures IsSubseq(r, items)
    ensures forall c :: multiset(r)[c] == if c.id != id then multiset(items)[c] else 0
  {
    var keep := (x: ClubItem) => x.id != id;
    FilterIsSubseq(items, keep);
    FilterMultiset(items, keep);
    Filter(items, keep)
  }

  /** Removing a club that is not listed keeps the list. */
  lemma WithoutAbsentClub(items: seq<ClubItem>, id: string)
    requires forall k :: 0 <= k < |items| ==> items[k].id != id
    ensures WithoutClub(items, id) == items
  {
    FilterAll(items, (x: ClubItem) => x.id != id);
  }

  function StatusName(s: Status): string {
    match s
    case Pending => "pending"
    case Approved => "approved"
    case All => "all"
  }

  /** The query of the list request: the status always, the other filters when set. */
  function LoadParams(status: Status, clubType: string, city: string, search: string): (r: seq<(string, string)>)
    ensures |r| >= 1 && r[0] == ("status", StatusName(status))
    ensures ("type", clubType) in r <==> clubType != ""
    ensures ("city", city) in r <==> city != ""
    ensures ("search", search) in r <==> search != ""
  {
    [("status", StatusName(status))]
    + (if clubType != "" then [("type", clubType)] else [])
    + (if city != "" then [("city", city)] else [])
    + (if search != "" then [("search", search)] else [])
  }

  /** The reply to an approve or reject request: success, or the server's message. */
  datatype Reply = Done | Failed(message: string)

  class ApprovalQueue {
    var items: seq<ClubItem>
    var details: map<string, ClubDetails>
    var search: string
    var status: Status
    var clubType: string
    var city: string
    var selected: Option<ClubItem>
    var message: Option<string>

    constructor ()
      ensures items == [] && details == map[] && search == "" && status == Pending
      ensures clubType == "" && city == "" && selected == None && message == None
    {
      items, details, search, status := [], map[], "", Pending;
      clubType, city, selected, message := "", "", None, None;
    }

    /** The cards shown. */
    function Cards(): seq<ClubItem>
      reads this
    {
      var held := details;
      Map(Filtered(items, search), (c: ClubItem) => CardOf(c, held))
    }

    /** A list reply replaces the items. */
    method Loaded(newItems: seq<ClubItem>)
      modifies this`items
      ensures items == newItems
    {
      items := newItems;
    }

    /** One club's details arrived; those already held for other clubs stay. */
    method DetailsArrived(id: string, club: ClubDetails)
      modifies this`details
      ensures details == old(details)[id := club]
      ensures id !in IdsToFetch(items, details)
    {
      details := details[id := club];
    }

    /** `approve` or `reject`: on success the club leaves the list and the detail view closes. */
    method Decide(id: string, approve: bool, reply: Reply)
      modifies this`items, this`selected, this`message
      ensures reply.Done? ==>
        items == WithoutClub(old(items), id) && selected == None
        && message == Some(if approve then "Approved successfully" else "Rejected successfully")
      ensures reply.Failed? ==>
        items == old(items) && selected == old(selected)
        && message == Some(OrElse(reply.message, if approve then "Approve failed" else "Reject failed"))
    {
      message := None;
      match reply {
        case Done =>
          items := WithoutClub(items, id);
          message := Some(if approve then "Approved successfully" else "Rejected successfully");
          selected := None;
        case Failed(m) =>
          message := Some(OrElse(m, if approve then "Approve failed" else "Reject failed"));
      }
    }

    /** Reset in the filter panel. */
    method ResetFilters()
      modifies this`clubType, this`city, this`status
      ensures status == Pending && clubType == "" && city == ""
    {
      clubType := "";
      city := "";
      status := Pending;
    }
  }
}
