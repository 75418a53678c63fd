/**
 * The "Shop by Category" carousel: a window of four cards over the category
 * list, moved by the previous/next buttons and the navigation dots.
 */
module CategoriesCarousel {
  import opened Numbers

  /** Cards visible at once. */
  const ItemsPerView: nat := 4

  /** The carousel lists eight categories. */
  const CategoryCount: nat := 8

  /** `Math.max(0, categories.length - itemsPerView)`: the last index at which the window is still full. */
  function MaxIndex(count: nat): (r: nat)
    ensures count <= ItemsPerView ==> r == 0
    ensures count > ItemsPerView ==> r + ItemsPerView == count
  {
    Max(0, count - ItemsPerView)
  }

  /** An index the window can stand at: from 0 up to `maxIndex`. */
  predicate Reachable(count: nat, i: int) {
    0 <= i <= MaxIndex(count)
  }

  /** `Array.from({ length: maxIndex + 1 })`: one navigation dot per reachable index, and no other. */
  function DotCount(count: nat): (r: nat)
    ensures forall i :: 0 <= i < r <==> Reachable(count, i)
    ensures r >= 1
  {
    MaxIndex(count) + 1
  }

  /** Eight categories give five window positions, 0..4, and five dots. */
  lemma EightCategories()
    ensures MaxIndex(CategoryCount) == 4 && DotCount(CategoryCount) == 5
  {
  }

  class Carousel {
    const count: nat
    var currentIndex: int

    /** The window never runs past either end. */
    ghost predicate Valid()
      reads this
    {
      Reachable(count, currentIndex)
    }

    /** `disabled={currentIndex === 0}` */
    predicate PrevDisabled()
      reads this
    {
      currentIndex == 0
    }

    /** `disabled={currentIndex >= maxIndex}` */
    predicate NextDisabled()
      reads this
    {
      currentIndex >= MaxIndex(count)
    }

    constructor(count: nat)
      ensures this.count == count && currentIndex == 0 && Valid()
    {
      this.count := count;
      currentIndex := 0;
    }

    /** `nextSlide`: one step right, clamped at `maxIndex`; a no-op exactly where the button is disabled. */
    method NextSlide()
      requires Valid()
      modifies this
      ensures Valid()
      ensures currentIndex == Min(old(currentIndex) + 1, MaxIndex(count))
      ensures old(NextDisabled()) ==> currentIndex == old(currentIndex)
      ensures !old(NextDisabled()) ==> currentIndex == old(currentIndex) + 1
    {
      currentIndex := Min(currentIndex + 1, MaxIndex(count));
    }

    /** `prevSlide`: one step left, clamped at 0; a no-op exactly where the button is disabled. */
    method PrevSlide()
      requires Valid()
      modifies this
      ensures Valid()
      ensures currentIndex == Max(old(currentIndex) - 1, 0)
      ensures old(PrevDisabled()) ==> currentIndex == old(currentIndex)
      ensures !old(PrevDisabled()) ==> currentIndex == old(currentIndex) - 1
    {
      currentIndex := Max(currentIndex - 1, 0);
    }

    /** A click on dot `i`, one of the `maxIndex + 1` dots rendered. */
    method ClickDot(i: nat)
      requires i < DotCount(count)
      modifies this
      ensures Valid()
      ensures currentIndex == i
    {
      currentIndex := i;
    }
  }
}
