/** The project gallery: a strip of images that advances on its own while the mouse is away
    and can be stepped back and forth with wrap-around. */
module Gallery {

  const Images := [
    "1fl-img1.png", "2fl-img1.png", "2fl-img2.png", "2fl-img3.png", "2fl-img4.png",
    "2fl-img5.png", "2fl-img6.png", "3fl-img1.png", "3fl-img2.png", "3fl-img3.png",
    "3fl-img4.png", "3fl-img5.png", "3fl-img6.png", "3fl-img7.png", "3fl-img8.png",
    "3fl-img9.png", "3fl-img10.png", "3fl-img11.png", "3fl-img12.png"]

  const ImageCount := |Images|

  /** The successor index, wrapping the last image to the first. */
  function Next(i: nat): (r: nat)
    ensures r < ImageCount
    ensures i < ImageCount - 1 ==> r == i + 1
    ensures i == ImageCount - 1 ==> r == 0
  {
    (i + 1) % ImageCount
  }

  /** The predecessor index, wrapping the first image to the last. */
  function Prev(i: nat): (r: nat)
    ensures r < ImageCount
    ensures 0 < i < ImageCount ==> r == i - 1
    ensures i == 0 ==> r == ImageCount - 1
  {
    (i - 1 + ImageCount) % ImageCount
  }

  /** Stepping forward then back, or back then forward, returns to the image shown before. */
  lemma NextPrevInverse(i: nat)
    requires i < ImageCount
    ensures Prev(Next(i)) == i && Next(Prev(i)) == i
  {
  }

  class Carousel {
    var currentIndex: nat
    var isHovered: bool

    predicate Valid()
      reads this
    {
      currentIndex < ImageCount
    }

    constructor ()
      ensures currentIndex == 0 && !isHovered && Valid()
    {
      currentIndex := 0;
      isHovered := false;
    }

    /** The strip is shifted left by the current index times the width of one image, in percent. */
    function Offset(): (pct: nat)
      reads this
      requires Valid()
      ensures pct % 100 == 0 && pct / 100 == currentIndex
      ensures pct <= (ImageCount - 1) * 100
    {
      currentIndex * 100
    }

    method GoToNext()
      modifies this
      ensures currentIndex == Next(old(currentIndex)) && isHovered == old(isHovered) && Valid()
    {
      currentIndex := (currentIndex + 1) % ImageCount;
    }

    method GoToPrevious()
      modifies this
      ensures currentIndex == Prev(old(currentIndex)) && isHovered == old(isHovered) && Valid()
    {
      currentIndex := (currentIndex - 1 + ImageCount) % ImageCount;
    }

    /** One firing of the interval, which runs only while the mouse is off the strip: the same
        successor as the next button. */
    method Tick()
      modifies this
      requires !isHovered
      ensures currentIndex == Next(old(currentIndex)) && !isHovered && Valid()
    {
      currentIndex := (currentIndex + 1) % ImageCount;
    }

    method MouseEnter()
      modifies this
      ensures isHovered && currentIndex == old(currentIndex)
    {
      isHovered := true;
    }

    method MouseLeave()
      modifies this
      ensures !isHovered && currentIndex == old(currentIndex)
    {
      isHovered := false;
    }
  }
}
