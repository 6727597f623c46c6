/**
 * The three-slide carousel above the catalog. The current slide index moves
 * forward and backward modulo the number of slides; every slide has an
 * "Explore" button that reports the slide's id to the page.
 */
module Carousel {

  datatype Slide = Slide(id: string, name: string, description: string)

  function Slides(): (r: seq<Slide>)
    ensures |r| == 3
  {
    [ Slide("laptops", "Laptops", "Powerful laptops for work and play"),
      Slide("pcs", "PCs", "High-performance desktop computers"),
      Slide("ipods", "SNI iPods", "Premium portable audio devices") ]
  }

  const SlideCount: nat := 3

  /** The slide after `i`, wrapping from the last to the first. */
  function Next(i: int): (r: int)
    requires 0 <= i < SlideCount
    ensures 0 <= r < SlideCount
    ensures r == if i == SlideCount - 1 then 0 else i + 1
  {
    (i + 1) % SlideCount
  }

  /** The slide before `i`, wrapping from the first to the last. */
  function Prev(i: int): (r: int)
    requires 0 <= i < SlideCount
    ensures 0 <= r < SlideCount
    ensures r == if i == 0 then SlideCount - 1 else i - 1
  {
    (i - 1 + SlideCount) % SlideCount
  }

  lemma PrevUndoesNext(i: int)
    requires 0 <= i < SlideCount
    ensures Prev(Next(i)) == i && Next(Prev(i)) == i
  {
  }

  /** Three steps forward come back to the start. */
  lemma NextThriceIsIdentity(i: int)
    requires 0 <= i < SlideCount
    ensures Next(Next(Next(i))) == i
  {
  }

  class CarouselHeader {
    var currentIndex: int

    predicate Valid()
      reads this
    {
      0 <= currentIndex < SlideCount
    }

    constructor ()
      ensures Valid() && currentIndex == 0
    {
      currentIndex := 0;
    }

    /** The right arrow, and also each tick of the five-second timer. */
    method NextSlide()
      requires Valid()
      modifies this
      ensures Valid() && currentIndex == Next(old(currentIndex))
    {
      currentIndex := (currentIndex + 1) % SlideCount;
    }

    /** The left arrow. */
    method PrevSlide()
      requires Valid()
      modifies this
      ensures Valid() && currentIndex == Prev(old(currentIndex))
    {
      currentIndex := (currentIndex - 1 + SlideCount) % SlideCount;
    }

    /** A dot or a label button: jumps to the slide it stands for. */
    method SelectSlide(index: int)
      requires 0 <= index < |Slides()|
      modifies this
      ensures Valid() && currentIndex == index
    {
      currentIndex := index;
    }

    /** The "Explore" button of slide `index`: reports that slide's id to the page. */
    method HandleCategoryClick(index: int) returns (selected: string)
      requires 0 <= index < |Slides()|
      ensures selected == Slides()[index].id
    {
      selected := Slides()[index].id;
    }
  }
}
