/** The filter sidebar of the shop page: the category checkboxes, the price radios, the
    "Clear All Filters" button and the collapsible sections. The selection and the range live
    in the shop page and reach the sidebar as props; here they are fields of the panel. */
module ShopFilters {
  import opened Seqs
  import opened Catalog

  /** `handleCategoryToggle(id)`: a selected id is removed (every occurrence of it); any other is
      appended at the end. */
  function ToggleCategory(selected: seq<int>, id: int): (r: seq<int>)
    ensures id in selected ==> id !in r && forall x :: x in r <==> x in selected && x != id
    ensures id !in selected ==> r == selected + [id]
  {
    if id in selected then
      var keep := (x: int) => x != id;
      FilterMembers(selected, keep);
      Filter(selected, keep)
    else selected + [id]
  }

  /** A toggle flips the membership of its id and of no other. */
  lemma ToggleFlips(selected: seq<int>, id: int, x: int)
    ensures x in ToggleCategory(selected, id) <==> (if x == id then id !in selected else x in selected)
  {
  }

  /** Toggling twice restores which ids are selected (not necessarily their order). */
  lemma ToggleTwice(selected: seq<int>, id: int)
    ensures forall x :: x in ToggleCategory(ToggleCategory(selected, id), id) <==> x in selected
  {
    forall x ensures x in ToggleCategory(ToggleCategory(selected, id), id) <==> x in selected {
      ToggleFlips(selected, id, x);
      ToggleFlips(ToggleCategory(selected, id), id, x);
    }
  }

  /** Toggling an id that was not selected and then toggling it again gives back the very same
      selection. */
  lemma ToggleTwiceAbsent(selected: seq<int>, id: int)
    requires id !in selected
    ensures ToggleCategory(ToggleCategory(selected, id), id) == selected
  {
    var keep := (x: int) => x != id;
    assert Filter(selected + [id], keep) == selected by {
      FilterAppend(selected, [id], keep);
      FilterAll(selected, keep);
    }
  }

  /** "All Categories" is checked exactly when nothing is selected. */
  predicate AllCategoriesChecked(selected: seq<int>) {
    |selected| == 0
  }

  /** The five price options, in display order. */
  const PriceOptions: seq<PriceRange> := [
    PriceRange(0, Infinity),
    PriceRange(0, Finite(1000)),
    PriceRange(1000, Finite(5000)),
    PriceRange(5000, Finite(10000)),
    PriceRange(10000, Infinity)
  ]

  /** A radio is checked when both ends of its option equal the current range. */
  predicate RadioChecked(range: PriceRange, option: PriceRange) {
    range.min == option.min && range.max == option.max
  }

  /** At most one price radio is checked, and the default range checks "All Prices". */
  lemma OneRadioAtMost(range: PriceRange)
    ensures forall i, j :: 0 <= i < j < |PriceOptions| ==>
      !(RadioChecked(range, PriceOptions[i]) && RadioChecked(range, PriceOptions[j]))
    ensures RadioChecked(AllPrices, PriceOptions[0])
  {
  }

  /** "Clear All Filters" is shown while some category is selected or the range is not
      `{ 0, Infinity }`. */
  predicate ShowClear(selected: seq<int>, range: PriceRange) {
    |selected| > 0 || range.min != 0 || range.max != Infinity
  }

  /** The button is shown exactly when the filters differ from their defaults. */
  lemma ShowClearIffNotDefault(selected: seq<int>, range: PriceRange)
    ensures ShowClear(selected, range) <==> !(selected == [] && range == AllPrices)
  {
  }

  /** `toggleSection(section)`: `!prev[section]`, where a key that is absent reads as
      `undefined` and so opens. */
  function ToggleSection(expanded: map<string, bool>, section: string): (r: map<string, bool>)
    ensures section in r && r[section] == !(section in expanded && expanded[section])
    ensures forall k :: k != section ==> (k in r <==> k in expanded) && (k in r ==> r[k] == expanded[k])
  {
    expanded[section := !(section in expanded && expanded[section])]
  }

  class FilterPanel {
    var expanded: map<string, bool>
    var selected: seq<int>
    var range: PriceRange

    /** Both sections open, no category and the default range. */
    constructor ()
      ensures expanded == map["category" := true, "price" := true]
      ensures selected == [] && range == AllPrices
      ensures AllCategoriesChecked(selected) && !ShowClear(selected, range)
    {
      expanded := map["category" := true, "price" := true];
      selected := [];
      range := AllPrices;
    }

    method ToggleOpen(section: string)
      modifies this
      ensures expanded == ToggleSection(old(expanded), section)
      ensures selected == old(selected) && range == old(range)
    {
      expanded := ToggleSection(expanded, section);
    }

    /** A category checkbox. */
    method Toggle(id: int)
      modifies this
      ensures selected == ToggleCategory(old(selected), id)
      ensures expanded == old(expanded) && range == old(range)
    {
      selected := ToggleCategory(selected, id);
    }

    /** The "All Categories" checkbox. */
    method ChooseAllCategories()
      modifies this
      ensures selected == [] && AllCategoriesChecked(selected)
      ensures expanded == old(expanded) && range == old(range)
    {
      selected := [];
    }

    /** The `i`-th price radio. */
    method ChoosePrice(i: nat)
      requires i < |PriceOptions|
      modifies this
      ensures range == PriceOptions[i] && RadioChecked(range, PriceOptions[i])
      ensures expanded == old(expanded) && selected == old(selected)
    {
      range := PriceOptions[i];
    }

    /** "Clear All Filters": no category and the full range, after which the button hides. */
    method ClearAll()
      modifies this
      ensures selected == [] && range == AllPrices && !ShowClear(selected, range)
      ensures expanded == old(expanded)
    {
      selected := [];
      range := AllPrices;
    }
  }
}
