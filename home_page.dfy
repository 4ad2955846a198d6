/**
 * The marketing home page's index arithmetic (pages/HomePage.tsx): the
 * three-item slideshow with its wrap-around neighbours, automatic advance
 * and indicator clicks, the rotating feature highlight, and the doubled
 * testimonial strip and the distance it scrolls.
 */
module HomePage {

  /** The slide before `i` among `n`, wrapping to the last. */
  function Prev(i: nat, n: nat): (r: nat)
    requires i < n
    ensures r < n
    ensures i > 0 ==> r == i - 1
    ensures i == 0 ==> r == n - 1
  {
    (i - 1 + n) % n
  }

  /** The slide after `i` among `n`, wrapping to the first. */
  function Next(i: nat, n: nat): (r: nat)
    requires i < n
    ensures r < n
    ensures i + 1 < n ==> r == i + 1
    ensures i + 1 == n ==> r == 0
  {
    (i + 1) % n
  }

  /** Stepping back and forward are inverse on the slide positions. */
  lemma PrevNextInverse(i: nat, n: nat)
    requires i < n
    ensures Next(Prev(i, n), n) == i
    ensures Prev(Next(i, n), n) == i
  {
  }

  /** `k` automatic advances from `i`. */
  function Advance(i: nat, n: nat, k: nat): (r: nat)
    requires i < n
    ensures r < n
  {
    if k == 0 then i else Next(Advance(i, n, k - 1), n)
  }

  /** Up to `n` advances move `k` places round the ring of `n` slides. */
  lemma {:induction false} AdvanceIsRotation(i: nat, n: nat, k: nat)
    requires i < n && k <= n
    ensures Advance(i, n, k) == if i + k < n then i + k else i + k - n
  {
    if k > 0 {
      AdvanceIsRotation(i, n, k - 1);
    }
  }

  /** `n` advances come back to the starting slide. */
  lemma FullCycleReturns(i: nat, n: nat)
    requires i < n
    ensures Advance(i, n, n) == i
  {
    AdvanceIsRotation(i, n, n);
  }

  datatype Position = PrevSlot | CurrentSlot | NextSlot

  datatype Visible<T> = Visible(item: T, position: Position)

  /** `getVisibleItems`: the previous, current and next slide, so tagged. */
  function VisibleItems<T>(items: seq<T>, i: nat): (r: seq<Visible<T>>)
    requires i < |items|
    ensures |r| == 3
    ensures r[0] == Visible(items[Prev(i, |items|)], PrevSlot)
    ensures r[1] == Visible(items[i], CurrentSlot)
    ensures r[2] == Visible(items[Next(i, |items|)], NextSlot)
  {
    [Visible(items[Prev(i, |items|)], PrevSlot), Visible(items[i], CurrentSlot),
     Visible(items[Next(i, |items|)], NextSlot)]
  }

  /** The slide component: its items, the current slide and whether the mouse is over it. */
  class AutoSlideshow<T> {
    const items: seq<T>
    var currentIndex: nat
    var isHovered: bool

    ghost predicate Valid()
      reads this
    {
      currentIndex < |items|
    }

    constructor (items: seq<T>)
      requires |items| > 0
      ensures Valid()
      ensures this.items == items && currentIndex == 0 && !isHovered
    {
      this.items := items;
      currentIndex := 0;
      isHovered := false;
    }

    /** The interval: runs only while not hovered, advancing one slide with wrap-around. */
    method Tick()
      requires Valid()
      modifies this
      ensures Valid()
      ensures !old(isHovered) ==> currentIndex == Next(old(currentIndex), |items|)
      ensures old(isHovered) ==> currentIndex == old(currentIndex)
      ensures isHovered == old(isHovered)
    {
      if !isHovered {
        currentIndex := (currentIndex + 1) % |items|;
      }
    }

    method Hover(over: bool)
      requires Valid()
      modifies this
      ensures Valid()
      ensures isHovered == over && currentIndex == old(currentIndex)
    {
      isHovered := over;
    }

    /** An indicator button: the current slide becomes the clicked one. */
    method Select(index: nat)
      requires Valid() && index < |items|
      modifies this
      ensures Valid()
      ensures currentIndex == index && isHovered == old(isHovered)
    {
      currentIndex := index;
    }

    function Shown(): (r: seq<Visible<T>>)
      requires Valid()
      reads this
      ensures |r| == 3 && r[1] == Visible(items[currentIndex], CurrentSlot)
    {
      VisibleItems(items, currentIndex)
    }
  }

  /** Five feature highlights rotate. */
  const FeatureCount: nat := 5

  class FeatureRotation {
    var currentFeatureIndex: nat

    ghost predicate Valid()
      reads this
    {
      currentFeatureIndex < FeatureCount
    }

    constructor ()
      ensures Valid() && currentFeatureIndex == 0
    {
      currentFeatureIndex := 0;
    }

    /** The three-second interval: the next feature, wrapping after the fifth. */
    method Tick()
      requires Valid()
      modifies this
      ensures Valid()
      ensures currentFeatureIndex == Next(old(currentFeatureIndex), FeatureCount)
    {
      currentFeatureIndex := (currentFeatureIndex + 1) % FeatureCount;
    }
  }

  /** The testimonial strip: the list twice over. */
  function Duplicated<T>(ts: seq<T>): (r: seq<T>)
    ensures |r| == 2 * |ts|
    ensures r[..|ts|] == ts && r[|ts|..] == ts
  {
    ts + ts
  }

  /** The width the strip is given per card, and the distance it scrolls per card. */
  const CardWidth: nat := 326

  /** What a card really takes up: a 320px card that does not shrink, plus the 24px gap to the next. */
  const CardStride: nat := 320 + 24

  const TestimonialCount: nat := 6

  /** The left edge of the `k`-th card of the strip. */
  function CardLeft(k: nat): nat {
    k * CardStride
  }

  /** The distance one animation cycle scrolls for `n` testimonials. */
  function ScrollDistance(n: nat): nat {
    n * CardWidth
  }

  /**
   * The strip is the list twice: card `i + n` is card `i`, and the strip
   * is given twice the width the animation scrolls.
   */
  lemma StripRepeatsAfterOneCopy<T>(ts: seq<T>, i: nat)
    requires i < |ts|
    ensures |Duplicated(ts)| * CardWidth == 2 * ScrollDistance(|ts|)
    ensures Duplicated(ts)[i + |ts|] == Duplicated(ts)[i] == ts[i]
  {
  }

  /**
   * The restart is not seamless: one cycle scrolls 18px per card short of
   * the second copy's first card, so the view jumps back while that card
   * is not yet at the edge.
   */
  lemma RestartFallsShortOfSecondCopy(n: nat)
    requires n > 0
    ensures ScrollDistance(n) < CardLeft(n)
    ensures CardLeft(n) - ScrollDistance(n) == 18 * n
  {
  }

  /**
   * For the six testimonials the cycle ends 236px into the sixth card
   * (index 5) instead of at the left edge of the seventh.
   */
  lemma SixTestimonialsRestartInsideTheLastCard()
    ensures ScrollDistance(TestimonialCount) == 1956
    ensures CardLeft(5) <= ScrollDistance(TestimonialCount) < CardLeft(6)
    ensures ScrollDistance(TestimonialCount) - CardLeft(5) == 236
  {
  }
}
