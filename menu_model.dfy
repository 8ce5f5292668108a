// The menu sheet shown to guests (menuModel): items get a display category
// (appetisers and snacks merged into one), the category tabs are collected
// from the items, and the visible list is filtered by tab and search text.

module MenuModel {
  import opened Basics
  import opened Text
  import SearchPattern

  /** A menu item as it arrives; missing text fields read as "". */
  datatype MenuItem = MenuItem(name: string, price: string, itemImage: string, description: string,
                               category: string, customCategory: string)

  /** An item with its display category and lower-cased search fields. */
  datatype LocalItem = LocalItem(item: MenuItem, category: string,
                                 nameLower: string, descriptionLower: string, categoryLower: string)

  const MergedTitle := "Appetisers & Snacks"

  predicate IsAppetiser(lower: string) {
    Contains(lower, "appet") || Contains(lower, "snack")
  }

  /** The merged display category of an item. */
  function DisplayCategory(i: MenuItem): (r: string)
    ensures IsAppetiser(ToLower(i.category)) ==> r == MergedTitle
    ensures !IsAppetiser(ToLower(i.category)) && i.category != "" ==> r == i.category
    ensures !IsAppetiser(ToLower(i.category)) && i.category == "" ==>
      r == (if i.customCategory != "" then i.customCategory else "Others")
    ensures r != ""
  {
    if IsAppetiser(ToLower(i.category)) then MergedTitle
    else if i.category != "" then i.category
    else if i.customCategory != "" then i.customCategory
    else "Others"
  }

  function Localize(i: MenuItem): LocalItem {
    var merged := DisplayCategory(i);
    LocalItem(i, merged, ToLower(i.name), ToLower(i.description), ToLower(merged))
  }

  /** `allItems`: one local item per item, in order. */
  function AllItems(items: seq<MenuItem>): (r: seq<LocalItem>)
    ensures |r| == |items|
    ensures forall k :: 0 <= k < |items| ==> r[k].item == items[k] && r[k].category == DisplayCategory(items[k])
  {
    Map(items, Localize)
  }

  // -------------------------------------------------------------- categories

  predicate NoDup(s: seq<string>) {
    forall i, j :: 0 <= i < j < |s| ==> s[i] != s[j]
  }

  /** Set.prototype.add on a set kept in insertion order. */
  function Add(seen: seq<string>, x: string): (r: seq<string>)
    ensures NoDup(seen) ==> NoDup(r)
    ensures forall y :: y in r <==> y in seen || y == x
  {
    if x in seen then seen else seen + [x]
  }

  /** What one item adds: its display category and its custom category, when non-empty. */
  function AddItem(seen: seq<string>, i: LocalItem): (r: seq<string>)
    ensures NoDup(seen) ==> NoDup(r)
    ensures forall y :: y in r <==> y in seen || (y != "" && (y == i.category || y == i.item.customCategory))
  {
    var withCategory := if i.category != "" then Add(seen, i.category) else seen;
    if i.item.customCategory != "" then Add(withCategory, i.item.customCategory) else withCategory
  }

  /** The set after the loop has seen `items`. */
  function Collected(items: seq<LocalItem>): (r: seq<string>)
    ensures NoDup(r)
    ensures forall y :: y in r <==> y != "" && exists k :: 0 <= k < |items| && (y == items[k].category || y == items[k].item.customCategory)
  {
    if items == [] then []
    else
      var prev := Collected(items[..|items| - 1]);
      assert forall k :: 0 <= k < |items| - 1 ==> items[..|items| - 1][k] == items[k];
      AddItem(prev, items[|items| - 1])
  }

  /** The loop's flag: some item's display category mentions appetisers or snacks. */
  function AnyAppetiser(items: seq<LocalItem>): (r: bool)
    ensures r <==> exists k :: 0 <= k < |items| && IsAppetiser(ToLower(items[k].category))
  {
    if items == [] then false
    else
      assert forall k :: 0 <= k < |items| - 1 ==> items[..|items| - 1][k] == items[k];
      AnyAppetiser(items[..|items| - 1]) || IsAppetiser(ToLower(items[|items| - 1].category))
  }

  predicate KeepOutsideMerged(c: string) {
    ToLower(c) != "appetisers" && ToLower(c) != "snacks" && c != MergedTitle
  }

  function WithoutMerged(seen: seq<string>): (r: seq<string>)
    ensures NoDup(seen) ==> NoDup(r)
    ensures forall y :: y in r <==> y in seen && KeepOutsideMerged(y)
  {
    FilterIsSubseq(seen, KeepOutsideMerged);
    assert NoDup(seen) ==> NoDup(Filter(seen, KeepOutsideMerged)) by {
      if NoDup(seen) {
        SubseqKeepsNoDup(Filter(seen, KeepOutsideMerged), seen);
      }
    }
    Filter(seen, KeepOutsideMerged)
  }

  /** `categories` as written: "All", then the merged title if any, then the other collected names. */
  function Categories(items: seq<LocalItem>): (r: seq<string>)
    ensures |r| >= 1 && r[0] == "All"
    ensures AnyAppetiser(items) ==> |r| >= 2 && r[1] == MergedTitle
  {
    var rest := WithoutMerged(Collected(items));
    ["All"] + (if AnyAppetiser(items) then [MergedTitle] + rest else rest)
  }

  lemma {:induction false} SubseqKeepsNoDup(a: seq<string>, b: seq<string>)
    requires IsSubseq(a, b) && NoDup(b)
    ensures NoDup(a)
    decreases |b|
  {
    if a != [] && b != [] {
      if a[0] == b[0] {
        SubseqKeepsNoDup(a[1..], b[1..]);
        SubseqMembers(a[1..], b[1..]);
        assert forall j :: 1 <= j < |a| ==> a[j] == a[1..][j - 1];
        assert forall j :: 1 <= j < |b| ==> b[j] == b[1..][j - 1];
        assert b[0] !in b[1..];
      } else {
        SubseqKeepsNoDup(a, b[1..]);
      }
    }
  }

  /**
   * The tab list starts with "All"; the merged title is the second tab
   * exactly when some item is an appetiser or snack, and no tab after the
   * first repeats except that a category literally called "All" repeats it.
   */
  lemma CategoriesShape(items: seq<LocalItem>)
    ensures var r := Categories(items); |r| >= 1 && r[0] == "All"
    ensures var r := Categories(items); AnyAppetiser(items) <==> |r| >= 2 && r[1] == MergedTitle
    ensures NoDup(Categories(items)[1..])
    ensures forall c :: c in Categories(items)[1..] <==>
      (c == MergedTitle && AnyAppetiser(items)) || (c in Collected(items) && KeepOutsideMerged(c))
  {
    var rest := WithoutMerged(Collected(items));
    FrontTabs(AnyAppetiser(items), rest);
  }

  /** The tab list built from the flag and the remaining names, when the merged title is not among them. */
  lemma FrontTabs(flag: bool, rest: seq<string>)
    requires NoDup(rest) && MergedTitle !in rest
    ensures var r := ["All"] + (if flag then [MergedTitle] + rest else rest);
      r[0] == "All" && r[1..] == (if flag then [MergedTitle] + rest else rest)
      && (flag <==> |r| >= 2 && r[1] == MergedTitle)
      && NoDup(r[1..])
      && ("All" !in rest ==> NoDup(r))
  {
    var tail := if flag then [MergedTitle] + rest else rest;
    var r := ["All"] + tail;
    assert r[1..] == tail;
    if !flag && |r| >= 2 {
      assert r[1] == rest[0];
    }
    if flag {
      assert forall j :: 1 <= j < |tail| ==> tail[j] == rest[j - 1];
    }
    if "All" !in rest {
      assert forall j :: 1 <= j < |r| ==> r[j] == tail[j - 1];
    }
  }

  /** An item whose category is literally "All" puts a second "All" tab in the list. */
  lemma CategoriesRepeatAll()
    ensures var items := AllItems([MenuItem("Chef's pick", "50", "", "", "All", "")]);
      Categories(items) == ["All", "All"]
  {
    var items := AllItems([MenuItem("Chef's pick", "50", "", "", "All", "")]);
    var lowerAll := ToLower("All");
    assert lowerAll == "all";
    assert !IsAppetiser(lowerAll) by {
      forall i | 0 <= i <= |lowerAll| ensures !StartsWith(lowerAll[i..], "appet") && !StartsWith(lowerAll[i..], "snack") {
      }
    }
    assert items[0].category == "All";
    assert Collected(items) == ["All"];
    assert KeepOutsideMerged("All");
    assert WithoutMerged(["All"]) == ["All"];
    assert !AnyAppetiser(items);
  }

  predicate KeepTab(c: string) {
    KeepOutsideMerged(c) && c != "All"
  }

  /** The tab list with the "All" tab kept unique: collected names equal to "All" are dropped too. */
  function UniqueCategories(items: seq<LocalItem>): (r: seq<string>)
    ensures |r| >= 1 && r[0] == "All"
    ensures NoDup(r)
    ensures AnyAppetiser(items) <==> |r| >= 2 && r[1] == MergedTitle
    ensures forall c :: c in r[1..] <==>
      (c == MergedTitle && AnyAppetiser(items)) || (c in Collected(items) && KeepTab(c))
  {
    var rest := Filter(Collected(items), KeepTab);
    KeptTabsNoDup(Collected(items));
    FrontTabs(AnyAppetiser(items), rest);
    ["All"] + (if AnyAppetiser(items) then [MergedTitle] + rest else rest)
  }

  lemma KeptTabsNoDup(seen: seq<string>)
    requires NoDup(seen)
    ensures NoDup(Filter(seen, KeepTab))
  {
    FilterIsSubseq(seen, KeepTab);
    SubseqKeepsNoDup(Filter(seen, KeepTab), seen);
  }

  /** `categories`: the loop over the items with a set and a flag. */
  method BuildCategories(items: seq<LocalItem>) returns (r: seq<string>)
    ensures r == Categories(items)
  {
    var seen: seq<string> := [];
    var hasAppetisersSnacks := false;
    var k := 0;
    while k < |items|
      invariant 0 <= k <= |items|
      invariant seen == Collected(items[..k])
      invariant hasAppetisersSnacks == AnyAppetiser(items[..k])
    {
      var i := items[k];
      assert items[..k + 1][..k] == items[..k];
      if IsAppetiser(ToLower(i.category)) {
        hasAppetisersSnacks := true;
      }
      if i.category != "" {
        seen := Add(seen, i.category);
      }
      if i.item.customCategory != "" {
        seen := Add(seen, i.item.customCategory);
      }
      k := k + 1;
    }
    assert items[..k] == items;
    var withoutMerged := WithoutMerged(seen);
    var ordered := if hasAppetisersSnacks then [MergedTitle] + withoutMerged else withoutMerged;
    r := ["All"] + ordered;
  }

  // -------------------------------------------------------------- visible items

  /** Whether an item belongs to the selected tab. */
  predicate InCategory(i: LocalItem, selected: string) {
    var selectedLower := ToLower(selected);
    selected == "All" || i.categoryLower == selectedLower
    || (selectedLower == "appetisers & snacks" && IsAppetiser(i.categoryLower))
  }

  /** The fields the search text is tried against. */
  function SearchFields(i: LocalItem): seq<string> {
    [i.item.name, i.item.description, i.category, i.item.customCategory]
  }

  predicate Visible(i: LocalItem, selected: string, query: string) {
    InCategory(i, selected) &&
    match SearchPattern.BuildRegex(query)
    case None => true
    case Some(words) => exists f | f in SearchFields(i) :: SearchPattern.Test(words, f)
  }

  /** `visibleItems`: the items of the tab that match the search, in order. */
  function VisibleItems(all: seq<LocalItem>, selected: string, query: string): (r: seq<LocalItem>)
    ensures IsSubseq(r, all)
    ensures forall k :: 0 <= k < |r| ==> Visible(r[k], selected, query)
    ensures forall k :: 0 <= k < |all| && Visible(all[k], selected, query) ==> all[k] in r
    ensures forall i :: multiset(r)[i] == if Visible(i, selected, query) then multiset(all)[i] else 0
  {
    var keep := (i: LocalItem) => Visible(i, selected, query);
    FilterIsSubseq(all, keep);
    FilterMultiset(all, keep);
    Filter(all, keep)
  }

  /** The "All" tab with an empty or blank search shows every item. */
  lemma AllTabBlankSearchShowsEverything(all: seq<LocalItem>, query: string)
    requires Blank(query)
    ensures VisibleItems(all, "All", query) == all
  {
    SearchPattern.BuildRegexNoneIffBlank(query);
    FilterAll(all, (i: LocalItem) => Visible(i, "All", query));
  }

  /** An item of the tab whose name holds the search words (single-spaced) is shown. */
  lemma NameMatchIsVisible(all: seq<LocalItem>, selected: string, query: string, k: nat, at: nat)
    requires k < |all| && InCategory(all[k], selected)
    requires SearchPattern.BuildRegex(query).Some?
    requires at <= |all[k].item.name|
    requires StartsWith(all[k].item.name[at..], Join(SearchPattern.BuildRegex(query).value, " "))
    ensures all[k] in VisibleItems(all, selected, query)
  {
    var words := SearchPattern.BuildRegex(query).value;
    SearchPattern.BuildRegexNoneIffBlank(query);
    SearchPattern.FieldContainingQueryMatches(words, all[k].item.name, at);
    assert all[k].item.name in SearchFields(all[k]);
  }

  /** The sheet's state: the chosen tab and the search text. */
  class MenuSheet {
    const items: seq<LocalItem>
    var selectedCategory: string
    var searchQuery: string

    constructor (provided: seq<MenuItem>)
      ensures items == AllItems(provided) && selectedCategory == "All" && searchQuery == ""
    {
      items := AllItems(provided);
      selectedCategory := "All";
      searchQuery := "";
    }

    method SelectCategory(c: string)
      modifies this
      ensures selectedCategory == c && searchQuery == old(searchQuery)
    {
      selectedCategory := c;
    }

    method Search(q: string)
      modifies this
      ensures searchQuery == q && selectedCategory == old(selectedCategory)
    {
      searchQuery := q;
    }

    function Shown(): seq<LocalItem>
      reads this
    {
      VisibleItems(items, selectedCategory, searchQuery)
    }
  }
}
