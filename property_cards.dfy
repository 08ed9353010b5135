/**
 * The property cards: each card's auto-advancing carousel and the rule that decides which of
 * its images are shown, and the full-screen gallery with its buttons and keyboard handler.
 */
module PropertyCards {
  import opened Dom

  /** JavaScript's `%` for a positive divisor: the remainder takes the sign of the dividend. */
  function JsRem(a: int, n: int): (r: int)
    requires n > 0
    ensures a >= 0 ==> r == a % n
    ensures -n < r < n
  {
    if a >= 0 then a % n else -((-a) % n)
  }

  /** `(i + 1) % n`: the next image, wrapping from the last to the first. */
  function NextIndex(i: int, n: int): (r: int)
    requires n > 0
    ensures 0 <= i < n ==> 0 <= r < n && r == (if i == n - 1 then 0 else i + 1)
  {
    JsRem(i + 1, n)
  }

  /** `(i - 1 + n) % n`: the previous image, wrapping from the first to the last. */
  function PrevIndex(i: int, n: int): (r: int)
    requires n > 0
    ensures 0 <= i < n ==> 0 <= r < n && r == (if i == 0 then n - 1 else i - 1)
  {
    JsRem(i - 1 + n, n)
  }

  /** Stepping back undoes stepping forward, and forward undoes back. */
  lemma PrevUndoesNext(i: int, n: int)
    requires 0 <= i < n
    ensures PrevIndex(NextIndex(i, n), n) == i
    ensures NextIndex(PrevIndex(i, n), n) == i
  {
  }

  /** The index after `k` steps forward. */
  function Advance(i: int, k: nat, n: int): int
    requires n > 0
  {
    if k == 0 then i else NextIndex(Advance(i, k - 1, n), n)
  }

  /** Within one lap, `k` steps forward from `i` land on `i + k`, less `n` once past the end. */
  lemma {:induction false} AdvanceWithinLap(i: int, k: nat, n: int)
    requires 0 <= i < n && k <= n
    ensures Advance(i, k, n) == if i + k < n then i + k else i + k - n
  {
    if k > 0 {
      AdvanceWithinLap(i, k - 1, n);
    }
  }

  /** `n` steps forward come back to the start. */
  lemma FullCycle(i: int, n: int)
    requires 0 <= i < n
    ensures Advance(i, n, n) == i
  {
    AdvanceWithinLap(i, n, n);
  }

  /**
   * `shouldShow`: an image is shown when it is the current one, or when it is the previous
   * one and the current one has not finished loading.
   */
  predicate ShouldShow(imgIndex: int, current: int, n: int, loaded: set<int>)
    requires n > 0
  {
    imgIndex == current || (imgIndex == PrevIndex(current, n) && current !in loaded)
  }

  /** The images of a card that are shown. */
  function Visible(current: int, n: int, loaded: set<int>): set<int>
    requires n > 0
  {
    set i | 0 <= i < n && ShouldShow(i, current, n, loaded)
  }

  /** The current image is always shown. */
  lemma CurrentAlwaysShown(current: int, n: int, loaded: set<int>)
    requires 0 <= current < n
    ensures current in Visible(current, n, loaded)
  {
  }

  /** At most two images are shown: the current one and, perhaps, the previous one. */
  lemma AtMostTwoShown(current: int, n: int, loaded: set<int>)
    requires 0 <= current < n
    ensures Visible(current, n, loaded) <= {current, PrevIndex(current, n)}
    ensures |Visible(current, n, loaded)| <= 2
  {
    var v := Visible(current, n, loaded);
    var pair := {current, PrevIndex(current, n)};
    assert v <= pair;
    assert |pair| <= 2;
    SubsetCardinality(v, pair);
  }

  lemma SubsetCardinality(a: set<int>, b: set<int>)
    requires a <= b
    ensures |a| <= |b|
  {
    assert b == a + (b - a);
  }

  /** With two images or more, the previous image is shown exactly while the current one is still loading. */
  lemma PreviousShownIffLoading(current: int, n: int, loaded: set<int>)
    requires 0 <= current < n && n > 1
    ensures PrevIndex(current, n) in Visible(current, n, loaded) <==> current !in loaded
  {
  }

  /** Once the current image has loaded it is shown alone. */
  lemma LoadedShownAlone(current: int, n: int, loaded: set<int>)
    requires 0 <= current < n && current in loaded
    ensures Visible(current, n, loaded) == {current}
  {
  }

  /** As images load, the shown set can only shrink: loading never reveals an image. */
  lemma LoadingOnlyHides(current: int, n: int, loaded: set<int>, idx: int)
    requires n > 0
    ensures Visible(current, n, loaded + {idx}) <= Visible(current, n, loaded)
  {
  }

  class Gallery {
    var galleryOpen: bool
    var galleryImages: seq<string>
    var galleryIndex: int
    var galleryPropertyName: string

    /** The index names one of the images (or there are none). */
    ghost predicate Valid()
      reads this
    {
      galleryImages == [] || 0 <= galleryIndex < |galleryImages|
    }

    /** The initial state: closed, with no images. */
    constructor ()
      ensures Valid() && !galleryOpen && galleryImages == [] && galleryIndex == 0 && galleryPropertyName == ""
    {
      galleryOpen, galleryImages, galleryIndex, galleryPropertyName := false, [], 0, "";
    }

    /** `openGallery`: show the given images from `startIndex` and lock page scroll. */
    method OpenGallery(page: Page, images: seq<string>, startIndex: int, propertyName: string)
      modifies this, page`bodyOverflow
      ensures galleryOpen && galleryImages == images && galleryIndex == startIndex
      ensures galleryPropertyName == propertyName && page.bodyOverflow == Hidden
      ensures Valid() <==> images == [] || 0 <= startIndex < |images|
    {
      galleryImages := images;
      galleryIndex := startIndex;
      galleryPropertyName := propertyName;
      galleryOpen := true;
      page.SetBodyOverflow(Hidden);
    }

    /** `closeGallery`: only the open flag changes (and page scroll is released). */
    method CloseGallery(page: Page)
      modifies this`galleryOpen, page`bodyOverflow
      ensures !galleryOpen && page.bodyOverflow == Unset
    {
      galleryOpen := false;
      page.SetBodyOverflow(Unset);
    }

    /** `nextImage`. */
    method NextImage()
      requires |galleryImages| > 0
      modifies this`galleryIndex
      ensures galleryIndex == NextIndex(old(galleryIndex), |galleryImages|)
      ensures old(Valid()) ==> Valid()
    {
      galleryIndex := JsRem(galleryIndex + 1, |galleryImages|);
    }

    /** `prevImage`. */
    method PrevImage()
      requires |galleryImages| > 0
      modifies this`galleryIndex
      ensures galleryIndex == PrevIndex(old(galleryIndex), |galleryImages|)
      ensures old(Valid()) ==> Valid()
    {
      galleryIndex := JsRem(galleryIndex - 1 + |galleryImages|, |galleryImages|);
    }

    /** A thumbnail is clicked. */
    method SelectImage(idx: int)
      requires 0 <= idx < |galleryImages|
      modifies this`galleryIndex
      ensures galleryIndex == idx && Valid()
    {
      galleryIndex := idx;
    }

    /**
     * `handleKeyDown`: ignored while the gallery is closed; when it is open, Escape closes it,
     * ArrowRight and ArrowLeft step the index, and any other key changes nothing.
     */
    method HandleKeyDown(page: Page, key: string)
      requires galleryOpen && (key == "ArrowRight" || key == "ArrowLeft") ==> |galleryImages| > 0
      modifies this, page`bodyOverflow
      ensures galleryImages == old(galleryImages) && galleryPropertyName == old(galleryPropertyName)
      ensures old(Valid()) ==> Valid()
      ensures !old(galleryOpen) ==> unchanged(this) && unchanged(page)
      ensures old(galleryOpen) && key == "Escape" ==>
        !galleryOpen && galleryIndex == old(galleryIndex) && page.bodyOverflow == Unset
      ensures old(galleryOpen) && key == "ArrowRight" ==>
        galleryOpen && galleryIndex == NextIndex(old(galleryIndex), |galleryImages|) && unchanged(page)
      ensures old(galleryOpen) && key == "ArrowLeft" ==>
        galleryOpen && galleryIndex == PrevIndex(old(galleryIndex), |galleryImages|) && unchanged(page)
      ensures old(galleryOpen) && key != "Escape" && key != "ArrowRight" && key != "ArrowLeft" ==>
        unchanged(this) && unchanged(page)
    {
      if !galleryOpen {
        return;
      }
      if key == "Escape" { CloseGallery(page); }
      if key == "ArrowRight" { NextImage(); }
      if key == "ArrowLeft" { PrevImage(); }
    }
  }

  class PropertyCard {
    const images: seq<string>
    const name: string
    var currentImage: int
    var imagesLoaded: set<int>

    ghost predicate Valid()
      reads this
    {
      |images| > 0 && 0 <= currentImage < |images|
    }

    /** A card for a property with the given (non-empty) image list. */
    constructor (propertyImages: seq<string>, propertyName: string)
      requires |propertyImages| > 0
      ensures Valid() && images == propertyImages && name == propertyName
      ensures currentImage == 0 && imagesLoaded == {}
    {
      images := propertyImages;
      name := propertyName;
      currentImage := 0;
      imagesLoaded := {};
    }

    /** The three-second interval fires: `(prev + 1) % images.length`. */
    method AutoAdvance()
      requires Valid()
      modifies this`currentImage
      ensures Valid() && currentImage == NextIndex(old(currentImage), |images|)
    {
      currentImage := JsRem(currentImage + 1, |images|);
    }

    /** An image's load handler: its index joins `imagesLoaded`, which only grows. */
    method ImageLoaded(idx: int)
      modifies this`imagesLoaded
      ensures imagesLoaded == old(imagesLoaded) + {idx}
      ensures old(imagesLoaded) <= imagesLoaded
    {
      imagesLoaded := imagesLoaded + {idx};
    }

    /** A carousel indicator is clicked. */
    method SelectIndicator(i: int)
      requires Valid() && 0 <= i < |images|
      modifies this`currentImage
      ensures Valid() && currentImage == i
    {
      currentImage := i;
    }

    /** The images of this card that are shown now. */
    function Shown(): (s: set<int>)
      reads this
      requires Valid()
      ensures currentImage in s && |s| <= 2
    {
      CurrentAlwaysShown(currentImage, |images|, imagesLoaded);
      AtMostTwoShown(currentImage, |images|, imagesLoaded);
      Visible(currentImage, |images|, imagesLoaded)
    }

    /** A click on the carousel opens the gallery on this card's images at its current image. */
    method OpenInGallery(g: Gallery, page: Page)
      requires Valid()
      modifies g, page`bodyOverflow
      ensures g.Valid() && g.galleryOpen && g.galleryImages == images && g.galleryIndex == currentImage
      ensures g.galleryPropertyName == name && page.bodyOverflow == Hidden
    {
      g.OpenGallery(page, images, currentImage, name);
    }
  }
}
