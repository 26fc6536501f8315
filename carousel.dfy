/** Wrap-around navigation over `n` slides, as both carousels on the home page compute it:
    `(i + 1) % n` forward and `(i - 1 + n) % n` back. The operand of `%` is never negative
    here, so JavaScript's truncating remainder and Dafny's agree. */
module CarouselIndex {

  function Next(i: nat, n: nat): (r: nat)
    requires n > 0
    ensures r < n
    ensures i < n - 1 ==> r == i + 1
    ensures i == n - 1 ==> r == 0
  {
    (i + 1) % n
  }

  function Prev(i: nat, n: nat): (r: nat)
    requires n > 0
    ensures r < n
    ensures 0 < i <= n ==> r == i - 1
    ensures i == 0 ==> r == n - 1
  {
    (i - 1 + n) % n
  }

  /** Back undoes forward and forward undoes back. */
  lemma PrevNextInverse(i: nat, n: nat)
    requires i < n
    ensures Prev(Next(i, n), n) == i
    ensures Next(Prev(i, n), n) == i
  {
  }

  /** `k` steps forward. */
  function Advance(i: nat, n: nat, k: nat): nat
    requires n > 0
    decreases k
  {
    if k == 0 then i else Next(Advance(i, n, k - 1), n)
  }

  /** Stepping forward `k` times from `i` lands on `(i + k) % n`. */
  lemma {:induction false} AdvanceIsOffset(i: nat, n: nat, k: nat)
    requires i < n
    ensures Advance(i, n, k) == (i + k) % n
    decreases k
  {
    if k > 0 {
      AdvanceIsOffset(i, n, k - 1);
      ModSucc(i + k - 1, n);
    }
  }

  lemma ModSucc(a: nat, n: nat)
    requires n > 0
    ensures ((a % n) + 1) % n == (a + 1) % n
  {
    var q, r := a / n, a % n;
    assert a == q * n + r && 0 <= r < n;
    if r + 1 < n {
      ModOfMultiplePlus(q, n, r + 1);
      ModOfMultiplePlus(0, n, r + 1);
    } else {
      assert a + 1 == (q + 1) * n;
      ModOfMultiplePlus(q + 1, n, 0);
      ModOfMultiplePlus(1, n, 0);
    }
  }

  lemma ModOfMultiplePlus(q: nat, n: nat, s: nat)
    requires 0 <= s < n
    ensures (q * n + s) % n == s
  {
    var a := q * n + s;
    var q', s' := a / n, a % n;
    assert a == q' * n + s' && 0 <= s' < n;
    var d := q - q';
    assert d * n == s' - s;
    MulAwayFromZero(d, n);
  }

  lemma MulAwayFromZero(d: int, n: int)
    requires n > 0
    ensures d == 0 || d * n >= n || d * n <= -n
  {
    if d > 0 {
      MulNonNegative(d - 1, n);
      assert d * n == (d - 1) * n + n;
    } else if d < 0 {
      MulNonNegative(-d - 1, n);
      assert d * n == -((-d - 1) * n) - n;
    }
  }

  lemma {:induction false} MulNonNegative(d: nat, n: int)
    requires n >= 0
    ensures d * n >= 0
    decreases d
  {
    if d > 0 {
      MulNonNegative(d - 1, n);
      assert d * n == (d - 1) * n + n;
    }
  }

  /** A full round of `n` steps returns to the starting slide. */
  lemma FullRoundReturns(i: nat, n: nat)
    requires i < n
    ensures Advance(i, n, n) == i
  {
    AdvanceIsOffset(i, n, n);
    ModOfMultiplePlus(1, n, i);
  }
}

/** The before/after comparison gallery: four transformations, a dragged split position, and
    prev/next/dot navigation that re-centres the split. A pointer event arrives as its
    `clientX` and the comparison box's `left` and `width`. */
module Gallery {
  import opened Common
  import CarouselIndex

  const TransformationCount: nat := 4

  const Centre: real := 50.0

  /** `handleSliderChange`: the pointer's share of the box width, as a percentage clamped to [0, 100]. */
  function SliderPercentage(clientX: real, left: real, width: real): real
    requires width > 0.0
  {
    var x := clientX - left;
    Clamp(0.0, 100.0, x / width * 100.0)
  }

  /** The split is always a percentage; the left edge gives 0 and the right edge 100. */
  lemma SliderPercentageRange(clientX: real, left: real, width: real)
    requires width > 0.0
    ensures 0.0 <= SliderPercentage(clientX, left, width) <= 100.0
    ensures SliderPercentage(left, left, width) == 0.0
    ensures SliderPercentage(left + width, left, width) == 100.0
  {
  }

  /** Inside the box the split follows the pointer proportionally; outside it sticks to the
      nearer edge. */
  lemma SliderPercentageTracksPointer(clientX: real, left: real, width: real)
    requires width > 0.0
    ensures left <= clientX <= left + width ==>
              SliderPercentage(clientX, left, width) == (clientX - left) / width * 100.0
    ensures clientX < left ==> SliderPercentage(clientX, left, width) == 0.0
    ensures clientX > left + width ==> SliderPercentage(clientX, left, width) == 100.0
  {
    var p := (clientX - left) / width * 100.0;
    if clientX < left {
      assert p < 0.0;
    } else if clientX > left + width {
      assert (clientX - left) / width > 1.0;
    } else {
      assert (clientX - left) / width <= 1.0;
      assert 0.0 <= p <= 100.0;
    }
  }

  /** Further right never moves the split left. */
  lemma SliderPercentageMonotone(x1: real, x2: real, left: real, width: real)
    requires width > 0.0 && x1 <= x2
    ensures SliderPercentage(x1, left, width) <= SliderPercentage(x2, left, width)
  {
    assert (x1 - left) / width <= (x2 - left) / width;
  }

  class TransformationGallery {
    var currentIndex: nat
    var sliderPosition: real
    var isDragging: bool

    ghost predicate Valid()
      reads this
    {
      currentIndex < TransformationCount && 0.0 <= sliderPosition <= 100.0
    }

    constructor ()
      ensures currentIndex == 0 && sliderPosition == Centre && !isDragging
      ensures Valid()
    {
      currentIndex := 0;
      sliderPosition := Centre;
      isDragging := false;
    }

    method GoToPrev()
      modifies this
      ensures currentIndex == CarouselIndex.Prev(old(currentIndex), TransformationCount)
      ensures sliderPosition == Centre && isDragging == old(isDragging)
      ensures Valid()
    {
      currentIndex := (currentIndex - 1 + TransformationCount) % TransformationCount;
      sliderPosition := Centre;
    }

    method GoToNext()
      modifies this
      ensures currentIndex == CarouselIndex.Next(old(currentIndex), TransformationCount)
      ensures sliderPosition == Centre && isDragging == old(isDragging)
      ensures Valid()
    {
      currentIndex := (currentIndex + 1) % TransformationCount;
      sliderPosition := Centre;
    }

    /** One navigation dot per transformation. */
    method DotClick(index: nat)
      requires index < TransformationCount
      modifies this
      ensures currentIndex == index && sliderPosition == Centre && isDragging == old(isDragging)
      ensures Valid()
    {
      currentIndex := index;
      sliderPosition := Centre;
    }

    method MouseDown(clientX: real, left: real, width: real)
      requires width > 0.0
      modifies this
      ensures isDragging && sliderPosition == SliderPercentage(clientX, left, width)
      ensures currentIndex == old(currentIndex)
      ensures old(Valid()) ==> Valid()
    {
      isDragging := true;
      sliderPosition := SliderPercentage(clientX, left, width);
      SliderPercentageRange(clientX, left, width);
    }

    /** Moves the split only during a drag. */
    method MouseMove(clientX: real, left: real, width: real)
      requires width > 0.0
      modifies this
      ensures old(isDragging) ==> sliderPosition == SliderPercentage(clientX, left, width)
      ensures !old(isDragging) ==> sliderPosition == old(sliderPosition)
      ensures isDragging == old(isDragging) && currentIndex == old(currentIndex)
      ensures old(Valid()) ==> Valid()
    {
      if isDragging {
        sliderPosition := SliderPercentage(clientX, left, width);
        SliderPercentageRange(clientX, left, width);
      }
    }

    method MouseUp()
      modifies this
      ensures !isDragging
      ensures sliderPosition == old(sliderPosition) && currentIndex == old(currentIndex)
    {
      isDragging := false;
    }

    method MouseLeave()
      modifies this
      ensures !isDragging
      ensures sliderPosition == old(sliderPosition) && currentIndex == old(currentIndex)
    {
      isDragging := false;
    }

    /** A touch moves the split whether or not a mouse drag is on. */
    method TouchMove(clientX: real, left: real, width: real)
      requires width > 0.0
      modifies this
      ensures sliderPosition == SliderPercentage(clientX, left, width)
      ensures isDragging == old(isDragging) && currentIndex == old(currentIndex)
      ensures old(Valid()) ==> Valid()
    {
      sliderPosition := SliderPercentage(clientX, left, width);
      SliderPercentageRange(clientX, left, width);
    }
  }
}

/** The testimonial carousel: four quotes, a direction for the slide animation, a six-second
    auto-advance (each firing is a `Tick`), arrows, dots, and a horizontal swipe. */
module Testimonials {
  import CarouselIndex

  const TestimonialCount: nat := 4

  const SwipeThreshold: real := 50.0

  datatype Swipe = ToPrev | ToNext | NoSwipe

  /** The decision of `handleDragEnd` for a horizontal drag offset. */
  function SwipeOutcome(offsetX: real): Swipe
  {
    if offsetX > SwipeThreshold then ToPrev
    else if offsetX < -SwipeThreshold then ToNext
    else NoSwipe
  }

  /** Right beyond 50 goes back, left beyond 50 goes forward, and a drag of at most 50 either
      way does nothing. */
  lemma SwipeOutcomeThresholds(offsetX: real)
    ensures SwipeOutcome(offsetX) == ToPrev <==> offsetX > 50.0
    ensures SwipeOutcome(offsetX) == ToNext <==> offsetX < -50.0
    ensures SwipeOutcome(offsetX) == NoSwipe <==> -50.0 <= offsetX <= 50.0
  {
  }

  /** The animation direction a dot click sets. */
  function DotDirection(index: nat, current: nat): int
  {
    if index > current then 1 else -1
  }

  /** Forward exactly when the dot lies to the right; clicking the current dot counts as back. */
  lemma DotDirectionSign(index: nat, current: nat)
    ensures DotDirection(index, current) == 1 <==> index > current
    ensures DotDirection(index, current) == -1 <==> index <= current
    ensures DotDirection(current, current) == -1
  {
  }

  class Carousel {
    var currentIndex: nat
    var direction: int

    constructor ()
      ensures currentIndex == 0 && direction == 0
    {
      currentIndex := 0;
      direction := 0;
    }

    method GoToPrev()
      modifies this
      ensures direction == -1
      ensures currentIndex == CarouselIndex.Prev(old(currentIndex), TestimonialCount)
      ensures currentIndex < TestimonialCount
    {
      direction := -1;
      currentIndex := (currentIndex - 1 + TestimonialCount) % TestimonialCount;
    }

    method GoToNext()
      modifies this
      ensures direction == 1
      ensures currentIndex == CarouselIndex.Next(old(currentIndex), TestimonialCount)
      ensures currentIndex < TestimonialCount
    {
      direction := 1;
      currentIndex := (currentIndex + 1) % TestimonialCount;
    }

    /** One firing of the auto-advance interval: the same step as the forward arrow. */
    method Tick()
      modifies this
      ensures direction == 1
      ensures currentIndex == CarouselIndex.Next(old(currentIndex), TestimonialCount)
    {
      direction := 1;
      currentIndex := (currentIndex + 1) % TestimonialCount;
    }

    /** `handleDragEnd`. */
    method DragEnd(offsetX: real)
      modifies this
      ensures SwipeOutcome(offsetX) == ToPrev ==>
                currentIndex == CarouselIndex.Prev(old(currentIndex), TestimonialCount) && direction == -1
      ensures SwipeOutcome(offsetX) == ToNext ==>
                currentIndex == CarouselIndex.Next(old(currentIndex), TestimonialCount) && direction == 1
      ensures SwipeOutcome(offsetX) == NoSwipe ==>
                currentIndex == old(currentIndex) && direction == old(direction)
    {
      if offsetX > SwipeThreshold {
        GoToPrev();
      } else if offsetX < -SwipeThreshold {
        GoToNext();
      }
    }

    /** One dot per testimonial. */
    method DotClick(index: nat)
      requires index < TestimonialCount
      modifies this
      ensures currentIndex == index
      ensures direction == DotDirection(index, old(currentIndex))
    {
      direction := if index > currentIndex then 1 else -1;
      currentIndex := index;
    }
  }

  /** Four ticks of the auto-advance show every testimonial once and come back to the first shown. */
  lemma AutoAdvanceCycles(i: nat)
    requires i < TestimonialCount
    ensures CarouselIndex.Advance(i, TestimonialCount, TestimonialCount) == i
  {
    CarouselIndex.FullRoundReturns(i, TestimonialCount);
  }
}
