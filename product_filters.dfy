/**
 * The filter sidebar (`src/components/ProductFilters.tsx`): the check-box
 * toggles for categories and tags, and the test that decides whether the
 * "Clear All Filters" button is shown.
 */
module ProductFilters {
  import opened Seqs
  import opened Types

  /**
   * `toggleCategory` and `toggleTag`: a selected value is deselected (every
   * copy of it is dropped), an unselected one is appended. Either way the
   * selection changes in exactly that value.
   */
  function Toggle(selected: seq<string>, x: string): (r: seq<string>)
    ensures forall y :: y in r <==> (y in selected) != (y == x)
  {
    if x in selected then Filter(selected, y => y != x) else selected + [x]
  }

  /** An unselected value is appended at the end, and toggling it again restores the selection. */
  lemma ToggleAbsent(selected: seq<string>, x: string)
    requires x !in selected
    ensures Toggle(selected, x) == selected + [x]
    ensures Toggle(Toggle(selected, x), x) == selected
  {
    FilterAppend(selected, [x], y => y != x);
    FilterAll(selected, y => y != x);
  }

  /** A selected value is removed everywhere, and the other values keep their order. */
  lemma TogglePresent(selected: seq<string>, x: string)
    requires x in selected
    ensures x !in Toggle(selected, x)
    ensures IsSubsequence(Toggle(selected, x), selected)
    ensures |Toggle(selected, x)| < |selected|
  {
    var p := y => y != x;
    var i :| 0 <= i < |selected| && selected[i] == x;
    assert !p(selected[i]);
    FilterIsSubsequence(selected, p);
    FilterShorter(selected, p);
  }

  /** Toggling never introduces a duplicate into a selection without duplicates. */
  lemma ToggleKeepsDistinct(selected: seq<string>, x: string)
    requires Distinct(selected)
    ensures Distinct(Toggle(selected, x))
  {
    if x in selected {
      FilterDistinct(selected, y => y != x);
    }
  }

  /**
   * `hasActiveFilters`: some category or tag is selected, a minimum rating is
   * set, or the diet is restricted.
   */
  predicate HasActiveFilters(categories: seq<Category>, tags: seq<ProductTag>, minRating: real, diet: DietFilter)
  {
    |categories| > 0 || |tags| > 0 || minRating > 0.0 || diet != All
  }
}
