/**
 * The filter panel: its local selection (categories, brands, price slider,
 * minimum rating), the handlers that edit it, each of which emits the new
 * criteria to `onFiltersChange`, "Clear All", the rating badge's close
 * button, and the active-filter badge count.
 */
module FilterPanel {
  import opened Wrappers
  import opened Seqs
  import Catalog

  /** `ids.filter(id => id !== x)`: every occurrence of `x` goes. */
  function RemoveAll(ids: seq<string>, x: string): (r: seq<string>)
    ensures x !in r && |r| <= |ids|
  {
    FilterMembers(ids, (id: string) => id != x);
    Filter(ids, (id: string) => id != x)
  }

  /** Removal drops exactly `x` and keeps the other ids in order; a list without `x` is returned as it was. */
  lemma RemoveAllCorrect(ids: seq<string>, x: string)
    ensures x !in RemoveAll(ids, x)
    ensures forall y :: y in RemoveAll(ids, x) <==> y in ids && y != x
    ensures IsSubsequence(RemoveAll(ids, x), ids)
    ensures x !in ids ==> RemoveAll(ids, x) == ids
  {
    FilterMembers(ids, (id: string) => id != x);
    FilterIsSubsequence(ids, (id: string) => id != x);
    if x !in ids {
      FilterKeepsAll(ids, (id: string) => id != x);
    }
  }

  /** Ticking and then unticking a box gives back the list without that id; for an id not yet there, the original list. */
  lemma AddThenRemove(ids: seq<string>, x: string)
    ensures RemoveAll(ids + [x], x) == RemoveAll(ids, x)
    ensures x !in ids ==> RemoveAll(ids + [x], x) == ids
  {
    FilterAppend(ids, [x], (id: string) => id != x);
    assert Filter([x], (id: string) => id != x) == [];
    RemoveAllCorrect(ids, x);
  }

  /** `selectedRating === rating ? null : rating` */
  function ToggleRating(current: Option<real>, rating: real): (r: Option<real>)
    ensures r == None <==> current == Some(rating)
    ensures r != None ==> r == Some(rating)
  {
    if current == Some(rating) then None else Some(rating)
  }

  /** Clicking a rating selects it unless it is the current one, which clears it; two clicks from nothing give nothing. */
  lemma ToggleRatingProperties(current: Option<real>, rating: real)
    ensures ToggleRating(current, rating) == None <==> current == Some(rating)
    ensures ToggleRating(current, rating) != None ==> ToggleRating(current, rating) == Some(rating)
    ensures ToggleRating(ToggleRating(None, rating), rating) == None
    ensures current != Some(rating) ==> ToggleRating(ToggleRating(current, rating), rating) == None
  {
  }

  predicate NoDuplicates(ids: seq<string>) {
    forall i, j :: 0 <= i < j < |ids| ==> ids[i] != ids[j]
  }

  class Panel {
    var selectedCategories: seq<string>
    var selectedBrands: seq<string>
    var priceRange: Catalog.PriceRange
    var selectedRating: Option<real>

    /** The checkboxes only ever add an id that is not ticked yet. */
    ghost predicate Valid()
      reads this
    {
      NoDuplicates(selectedCategories) && NoDuplicates(selectedBrands)
    }

    /** The local state as the criteria record the panel emits. */
    function Criteria(): Catalog.FilterCriteria
      reads this
    {
      Catalog.FilterCriteria(selectedCategories, selectedBrands, priceRange, selectedRating)
    }

    /** `selectedCategories.length + selectedBrands.length + (selectedRating ? 1 : 0)` */
    function ActiveFiltersCount(): nat
      reads this
    {
      Catalog.ActiveFiltersCount(Criteria())
    }

    constructor()
      ensures Valid() && Criteria() == Catalog.Cleared
    {
      selectedCategories := [];
      selectedBrands := [];
      priceRange := Catalog.PriceRange(0, 1000);
      selectedRating := None;
    }

    /** `handleCategoryChange`: append when ticked, remove every copy when unticked; emit the new state. */
    method HandleCategoryChange(categoryId: string, checked: bool) returns (emitted: Catalog.FilterCriteria)
      modifies this
      ensures selectedCategories == if checked then old(selectedCategories) + [categoryId]
        else RemoveAll(old(selectedCategories), categoryId)
      ensures selectedBrands == old(selectedBrands) && priceRange == old(priceRange) && selectedRating == old(selectedRating)
      ensures emitted == Criteria()
    {
      var updated := if checked then selectedCategories + [categoryId] else RemoveAll(selectedCategories, categoryId);
      selectedCategories := updated;
      emitted := Catalog.FilterCriteria(updated, selectedBrands, priceRange, selectedRating);
    }

    /** `handleBrandChange`: the same for the brand list. */
    method HandleBrandChange(brandId: string, checked: bool) returns (emitted: Catalog.FilterCriteria)
      modifies this
      ensures selectedBrands == if checked then old(selectedBrands) + [brandId]
        else RemoveAll(old(selectedBrands), brandId)
      ensures selectedCategories == old(selectedCategories) && priceRange == old(priceRange) && selectedRating == old(selectedRating)
      ensures emitted == Criteria()
    {
      var updated := if checked then selectedBrands + [brandId] else RemoveAll(selectedBrands, brandId);
      selectedBrands := updated;
      emitted := Catalog.FilterCriteria(selectedCategories, updated, priceRange, selectedRating);
    }

    /** `handlePriceChange`: store the slider value and emit; the badge count does not move. */
    method HandlePriceChange(value: Catalog.PriceRange) returns (emitted: Catalog.FilterCriteria)
      modifies this
      ensures priceRange == value
      ensures selectedCategories == old(selectedCategories) && selectedBrands == old(selectedBrands) && selectedRating == old(selectedRating)
      ensures emitted == Criteria()
      ensures ActiveFiltersCount() == old(ActiveFiltersCount())
    {
      priceRange := value;
      emitted := Catalog.FilterCriteria(selectedCategories, selectedBrands, value, selectedRating);
    }

    /** `handleRatingChange`: toggle the minimum rating and emit. */
    method HandleRatingChange(rating: real) returns (emitted: Catalog.FilterCriteria)
      modifies this
      ensures selectedRating == ToggleRating(old(selectedRating), rating)
      ensures selectedCategories == old(selectedCategories) && selectedBrands == old(selectedBrands) && priceRange == old(priceRange)
      ensures emitted == Criteria()
    {
      var newRating := ToggleRating(selectedRating, rating);
      selectedRating := newRating;
      emitted := Catalog.FilterCriteria(selectedCategories, selectedBrands, priceRange, newRating);
    }

    /** `clearAllFilters`: back to `{[], [], [0, 1000], null}`, emitted as such; the badge count drops to 0. */
    method ClearAllFilters() returns (emitted: Catalog.FilterCriteria)
      modifies this
      ensures Valid()
      ensures Criteria() == Catalog.Cleared && emitted == Catalog.Cleared
      ensures ActiveFiltersCount() == 0
    {
      selectedCategories := [];
      selectedBrands := [];
      priceRange := Catalog.PriceRange(0, 1000);
      selectedRating := None;
      emitted := Catalog.FilterCriteria([], [], Catalog.PriceRange(0, 1000), None);
    }

    /** The rating badge's close button: `setSelectedRating(null)` with nothing emitted. */
    method ClearRatingBadge()
      modifies this
      ensures selectedRating == None
      ensures selectedCategories == old(selectedCategories) && selectedBrands == old(selectedBrands) && priceRange == old(priceRange)
    {
      selectedRating := None;
    }

    /** A category checkbox click: `checked` is the negation of "already ticked", so ids never repeat. */
    method ClickCategoryBox(categoryId: string) returns (emitted: Catalog.FilterCriteria)
      requires Valid()
      modifies this
      ensures Valid()
      ensures categoryId in selectedCategories <==> categoryId !in old(selectedCategories)
      ensures selectedCategories == if categoryId in old(selectedCategories) then RemoveAll(old(selectedCategories), categoryId)
        else old(selectedCategories) + [categoryId]
      ensures forall id :: id != categoryId ==> (id in selectedCategories <==> id in old(selectedCategories))
      ensures selectedBrands == old(selectedBrands) && priceRange == old(priceRange) && selectedRating == old(selectedRating)
      ensures emitted == Criteria()
    {
      var ticked := categoryId in selectedCategories;
      RemoveAllCorrect(selectedCategories, categoryId);
      if !ticked {
        AppendKeepsNoDuplicates(selectedCategories, categoryId);
      } else {
        FilterKeepsNoDuplicates(selectedCategories, categoryId);
      }
      emitted := HandleCategoryChange(categoryId, !ticked);
    }

    /** A brand checkbox click. */
    method ClickBrandBox(brandId: string) returns (emitted: Catalog.FilterCriteria)
      requires Valid()
      modifies this
      ensures Valid()
      ensures brandId in selectedBrands <==> brandId !in old(selectedBrands)
      ensures selectedBrands == if brandId in old(selectedBrands) then RemoveAll(old(selectedBrands), brandId)
        else old(selectedBrands) + [brandId]
      ensures forall id :: id != brandId ==> (id in selectedBrands <==> id in old(selectedBrands))
      ensures selectedCategories == old(selectedCategories) && priceRange == old(priceRange) && selectedRating == old(selectedRating)
      ensures emitted == Criteria()
    {
      var ticked := brandId in selectedBrands;
      RemoveAllCorrect(selectedBrands, brandId);
      if !ticked {
        AppendKeepsNoDuplicates(selectedBrands, brandId);
      } else {
        FilterKeepsNoDuplicates(selectedBrands, brandId);
      }
      emitted := HandleBrandChange(brandId, !ticked);
    }
  }

  lemma AppendKeepsNoDuplicates(ids: seq<string>, x: string)
    requires NoDuplicates(ids) && x !in ids
    ensures NoDuplicates(ids + [x])
  {
  }

  lemma {:induction false} FilterKeepsNoDuplicates(ids: seq<string>, x: string)
    requires NoDuplicates(ids)
    ensures NoDuplicates(RemoveAll(ids, x))
  {
    if ids != [] {
      FilterKeepsNoDuplicates(ids[1..], x);
      FilterCons(ids[0], ids[1..], (id: string) => id != x);
      assert ids == [ids[0]] + ids[1..];
      FilterMembers(ids[1..], (id: string) => id != x);
      assert ids[0] !in ids[1..];
    }
  }
}
