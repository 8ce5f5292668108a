// The menu part of the event form (MenuSection): the category picker that
// opens for one menu item and writes the chosen category back to it.

module MenuSection {
  import opened Basics
  import opened EventModel

  /** The categories the picker lists, in order. */
  const CategoryOptions: seq<string> := [
    "Appetizers & Snacks", "Main Courses & Mains", "Vegetarian & Plant-Based", "Seafood",
    "Desserts & Sweets", "Beverages & Drinks", "Combos", "Other"
  ]

  /** The menu items after choosing `category` for the item `itemId`. */
  function CategoryChosen(items: seq<MenuItem>, itemId: string, category: string): seq<MenuItem> {
    var withCategory := UpdatedMenuItems(items, itemId, Category, category);
    if category == "Other" then UpdatedMenuItems(withCategory, itemId, CustomCategory, "") else withCategory
  }

  /**
   * Choosing a category changes the category of the items with the id, and
   * for "Other" also empties their custom category; every other field and
   * every other item stays as it was.
   */
  lemma CategoryChosenSpec(items: seq<MenuItem>, itemId: string, category: string)
    ensures |CategoryChosen(items, itemId, category)| == |items|
    ensures forall i :: 0 <= i < |items| && items[i].id != itemId ==>
      CategoryChosen(items, itemId, category)[i] == items[i]
    ensures forall i :: 0 <= i < |items| && items[i].id == itemId ==>
      CategoryChosen(items, itemId, category)[i] ==
        items[i].(category := category,
                  customCategory := if category == "Other" then Some("") else items[i].customCategory)
  {
    var once := UpdatedMenuItems(items, itemId, Category, category);
    UpdatedMenuItemsSpec(items, itemId, Category, category);
    assert forall i :: 0 <= i < |items| ==> once[i] == if items[i].id == itemId then items[i].(category := category) else items[i];
    if category == "Other" {
      UpdatedMenuItemsSpec(once, itemId, CustomCategory, "");
    }
  }

  /** The category button's text: a custom category for "Other" when one is typed, else the category. */
  function CategoryLabel(m: MenuItem): (r: string)
    ensures m.category != "Other" ==> r == m.category
    ensures m.category == "Other" ==> r != ""
    ensures m.category == "Other" && m.customCategory.Some? && m.customCategory.value != "" ==> r == m.customCategory.value
  {
    if m.category == "Other" then
      match m.customCategory
      case Some(c) => if c != "" then c else "Other"
      case None => "Other"
    else m.category
  }

  /** Right after a category is chosen for an item, its button shows that category, "Other" included. */
  lemma ChosenCategoryShown(items: seq<MenuItem>, itemId: string, category: string, i: nat)
    requires i < |items| && items[i].id == itemId
    ensures i < |CategoryChosen(items, itemId, category)|
    ensures CategoryLabel(CategoryChosen(items, itemId, category)[i]) == category
  {
    CategoryChosenSpec(items, itemId, category);
  }

  /** The picker's own state: whether it is shown and for which menu item. */
  class CategoryPicker {
    var visible: bool
    var selectedItemId: Option<string>

    constructor ()
      ensures !visible && selectedItemId == None
    {
      visible, selectedItemId := false, None;
    }

    /** `openCategoryPicker` */
    method Open(itemId: string)
      modifies this
      ensures selectedItemId == Some(itemId) && visible
    {
      selectedItemId := Some(itemId);
      visible := true;
    }

    /** Closing the picker without a choice hides it and keeps the selected item. */
    method Close()
      modifies this`visible
      ensures !visible
    {
      visible := false;
    }

    /**
     * `selectCategory`: with a selected (non-empty) item id, set its category
     * and, for "Other", clear its custom category; then close the picker.
     */
    method Select(draft: EventDraft, category: string)
      modifies this, draft
      ensures !visible && selectedItemId == None
      ensures draft.events == old(draft.events)
      ensures old(selectedItemId).Some? && old(selectedItemId).value != "" ==>
        draft.menuItems == CategoryChosen(old(draft.menuItems), old(selectedItemId).value, category)
      ensures old(selectedItemId).None? || old(selectedItemId).value == "" ==>
        draft.menuItems == old(draft.menuItems)
    {
      if selectedItemId.Some? && selectedItemId.value != "" {
        var id := selectedItemId.value;
        draft.UpdateMenuItem(id, Category, category);
        if category == "Other" {
          draft.UpdateMenuItem(id, CustomCategory, "");
        }
      }
      visible := false;
      selectedItemId := None;
    }
  }
}
