/** The hero slider of the landing page (src/car/index.jsx): a slide index
    over two slides, stepped by the Next and Prev buttons and by a timer. */
module HeroSlider {
  import opened Wrap

  const TotalSlides: int := 2

  class Slider {
    var current: int

    /** The index is always one of the two slides. */
    predicate Valid()
      reads this
    {
      0 <= current < TotalSlides
    }

    constructor ()
      ensures current == 0 && Valid()
    {
      current := 0;
    }

    method HandleNext()
      requires Valid()
      modifies this
      ensures Valid() && current == NextIndex(old(current), TotalSlides)
      ensures current != old(current)
    {
      current := NextIndex(current, TotalSlides);
    }

    method HandlePrev()
      requires Valid()
      modifies this
      ensures Valid() && current == PrevIndex(old(current), TotalSlides)
      ensures current != old(current)
    {
      current := PrevIndex(current, TotalSlides);
    }

    /** The interval callback, every 5000 ms: the same step as HandleNext. */
    method Tick()
      requires Valid()
      modifies this
      ensures Valid() && current == NextIndex(old(current), TotalSlides)
    {
      current := NextIndex(current, TotalSlides);
    }
  }

  /** With two slides, Next and Prev are the same step, each its own inverse. */
  lemma {:induction false} TwoSlidesNextIsPrev(c: int)
    requires 0 <= c < TotalSlides
    ensures NextIndex(c, TotalSlides) == PrevIndex(c, TotalSlides) == 1 - c
    ensures PrevIndex(NextIndex(c, TotalSlides), TotalSlides) == c
    ensures NextIndex(PrevIndex(c, TotalSlides), TotalSlides) == c
  {
    StepsAreInverse(c, TotalSlides);
  }
}
