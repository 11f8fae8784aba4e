/**
 * The product card's image carousel and zoom dialog, and the favourite
 * snapshot it hands to the favourites store.
 *
 * The image list is normalised once so that it is never empty; two indices
 * into it (one for the inline view, one for the zoom dialog) move cyclically
 * and independently of each other.
 */
module ProductCard {
  import opened Wrappers

  datatype ProductImage = ProductImage(url: string, alt: string)

  /** What the card passes to the favourites store on a toggle. */
  datatype FavoriteItem = FavoriteItem(id: int, name: string, category: string, image: string, description: string)

  /** The confirmation shown after a toggle. */
  datatype FavoriteNotice = Added(name: string) | Removed(name: string)

  /** The working image list: the product's images, or one placeholder with an empty url. */
  function NormalizeImages(images: Option<seq<ProductImage>>, name: string): (r: seq<ProductImage>)
    ensures |r| >= 1
    ensures images.Some? && images.value != [] ==> r == images.value
    ensures images.None? || images.value == [] ==> r == [ProductImage("", name)]
    ensures |r| > 1 <==> images.Some? && |images.value| > 1
  {
    if images.Some? && |images.value| > 0 then images.value else [ProductImage("", name)]
  }

  /** The index shown after "next" in a list of n images. */
  function NextIndex(i: nat, n: nat): (r: nat)
    requires i < n
    ensures r < n
    ensures r == if i + 1 < n then i + 1 else 0
  {
    if n > 1 then (i + 1) % n else i
  }

  /** The index shown after "previous" in a list of n images. */
  function PrevIndex(i: nat, n: nat): (r: nat)
    requires i < n
    ensures r < n
    ensures r == if i > 0 then i - 1 else n - 1
  {
    if n > 1 then (i - 1 + n) % n else i
  }

  lemma PrevUndoesNext(i: nat, n: nat)
    requires i < n
    ensures PrevIndex(NextIndex(i, n), n) == i
    ensures NextIndex(PrevIndex(i, n), n) == i
  {
  }

  lemma SingleImageNavigationIsIdentity(i: nat, n: nat)
    requires i < n == 1
    ensures NextIndex(i, n) == i && PrevIndex(i, n) == i
  {
  }

  /** The index reached from i by k presses of "next". */
  function NextTimes(i: nat, n: nat, k: nat): (r: nat)
    requires i < n
    ensures r < n
  {
    if k == 0 then i else NextIndex(NextTimes(i, n, k - 1), n)
  }

  /** The index reached from i by k presses of "previous". */
  function PrevTimes(i: nat, n: nat, k: nat): (r: nat)
    requires i < n
    ensures r < n
    decreases k
  {
    if k == 0 then i else PrevTimes(PrevIndex(i, n), n, k - 1)
  }

  lemma {:induction false} MulAtLeast(a: int, n: nat)
    requires a >= 1
    ensures a * n >= n
  {
    if a > 1 {
      MulAtLeast(a - 1, n);
      assert a * n == (a - 1) * n + n;
    }
  }

  /** Quotient and remainder are determined by x == q * n + r with 0 <= r < n. */
  lemma ModUnique(x: int, q: int, r: int, n: nat)
    requires n > 0 && 0 <= r < n && x == q * n + r
    ensures x % n == r
  {
    var q', r' := x / n, x % n;
    assert x == q' * n + r';
    if q' < q {
      MulAtLeast(q - q', n);
    } else if q < q' {
      MulAtLeast(q' - q, n);
    }
  }

  lemma ModSucc(a: nat, n: nat)
    requires n > 0
    ensures (a + 1) % n == if a % n + 1 < n then a % n + 1 else 0
  {
    var q, r := a / n, a % n;
    assert a == q * n + r;
    if r + 1 < n {
      ModUnique(a + 1, q, r + 1, n);
    } else {
      assert a + 1 == (q + 1) * n + 0;
      ModUnique(a + 1, q + 1, 0, n);
    }
  }

  /** k presses of "next" shift the index by k, cyclically. */
  lemma {:induction false} NextTimesIsShift(i: nat, n: nat, k: nat)
    requires i < n
    ensures NextTimes(i, n, k) == (i + k) % n
  {
    if k > 0 {
      NextTimesIsShift(i, n, k - 1);
      ModSucc(i + k - 1, n);
    }
  }

  /** n presses of "next" in a list of n images return to the starting image. */
  lemma NextCycle(i: nat, n: nat)
    requires i < n
    ensures NextTimes(i, n, n) == i
  {
    NextTimesIsShift(i, n, n);
    ModUnique(i + n, 1, i, n);
  }

  /** k presses of "previous" undo k presses of "next". */
  lemma {:induction false} PrevTimesUndoesNextTimes(i: nat, n: nat, k: nat)
    requires i < n
    ensures PrevTimes(NextTimes(i, n, k), n, k) == i
  {
    if k > 0 {
      var j := NextTimes(i, n, k - 1);
      PrevUndoesNext(j, n);
      PrevTimesUndoesNextTimes(i, n, k - 1);
    }
  }

  /** The snapshot handed to the favourites store: the card's fields and its first image's url. */
  function FavoriteSnapshot(id: int, name: string, category: string, images: seq<ProductImage>, description: string): (item: FavoriteItem)
    requires |images| >= 1
    ensures item.image == images[0].url
    ensures item.id == id && item.name == name && item.category == category && item.description == description
  {
    var url := images[0].url;
    FavoriteItem(id, name, category, if url != "" then url else "", description)
  }

  /** A missing or empty image list yields an empty snapshot image. */
  lemma SnapshotWithoutImages(id: int, name: string, category: string, images: Option<seq<ProductImage>>, description: string)
    requires images.None? || images.value == []
    ensures FavoriteSnapshot(id, name, category, NormalizeImages(images, name), description).image == ""
  {
  }

  /**
   * The favourites store is not part of this model; a toggle is taken to
   * remove the id when it is present and insert it otherwise.
   */
  function ToggleFavorite(favorites: set<int>, id: int): (r: set<int>)
    ensures id in r <==> id !in favorites
    ensures r - {id} == favorites - {id}
  {
    if id in favorites then favorites - {id} else favorites + {id}
  }

  /** One card: its props, the normalised images and the widget state. */
  class Card {
    const id: int
    const name: string
    const category: string
    const description: string
    const images: seq<ProductImage>
    var currentImageIndex: nat
    var modalImageIndex: nat
    var isDialogOpen: bool
    var imageLoaded: bool

    ghost predicate Valid()
      reads this
    {
      |images| >= 1 && currentImageIndex < |images| && modalImageIndex < |images|
    }

    /** Navigation is offered only when the list is more than its first image. */
    predicate HasMultipleImages(): (b: bool)
      requires |images| >= 1
      ensures b <==> images != [images[0]]
    {
      |images| > 1
    }

    constructor (id: int, name: string, category: string, images: Option<seq<ProductImage>>, description: string)
      ensures Valid()
      ensures this.id == id && this.name == name && this.category == category && this.description == description
      ensures this.images == NormalizeImages(images, name)
      ensures currentImageIndex == 0 && modalImageIndex == 0
      ensures !isDialogOpen && !imageLoaded
    {
      this.id, this.name, this.category, this.description := id, name, category, description;
      this.images := NormalizeImages(images, name);
      currentImageIndex, modalImageIndex := 0, 0;
      isDialogOpen, imageLoaded := false, false;
    }

    function CurrentImage(): (image: ProductImage)
      reads this
      requires Valid()
      ensures image in images
    {
      images[currentImageIndex]
    }

    function ModalImage(): (image: ProductImage)
      reads this
      requires Valid()
      ensures image in images
    {
      images[modalImageIndex]
    }

    method NextImage()
      requires Valid()
      modifies this`currentImageIndex
      ensures Valid()
      ensures currentImageIndex == NextIndex(old(currentImageIndex), |images|)
    {
      if HasMultipleImages() {
        currentImageIndex := (currentImageIndex + 1) % |images|;
      }
    }

    method PrevImage()
      requires Valid()
      modifies this`currentImageIndex
      ensures Valid()
      ensures currentImageIndex == PrevIndex(old(currentImageIndex), |images|)
    {
      if HasMultipleImages() {
        currentImageIndex := (currentImageIndex - 1 + |images|) % |images|;
      }
    }

    method NextModalImage()
      requires Valid()
      modifies this`modalImageIndex
      ensures Valid()
      ensures modalImageIndex == NextIndex(old(modalImageIndex), |images|)
    {
      if HasMultipleImages() {
        modalImageIndex := (modalImageIndex + 1) % |images|;
      }
    }

    method PrevModalImage()
      requires Valid()
      modifies this`modalImageIndex
      ensures Valid()
      ensures modalImageIndex == PrevIndex(old(modalImageIndex), |images|)
    {
      if HasMultipleImages() {
        modalImageIndex := (modalImageIndex - 1 + |images|) % |images|;
      }
    }

    /** Thumbnail click; the thumbnails are drawn from the image list, so the index is in range. */
    method HandleImageSelect(index: nat)
      requires Valid() && index < |images|
      modifies this`currentImageIndex
      ensures Valid() && currentImageIndex == index
    {
      currentImageIndex := index;
    }

    method HandleModalImageSelect(index: nat)
      requires Valid() && index < |images|
      modifies this`modalImageIndex
      ensures Valid() && modalImageIndex == index
    {
      modalImageIndex := index;
    }

    /** The dialog opens on the image shown inline. */
    method OpenZoomModal()
      requires Valid()
      modifies this`modalImageIndex, this`isDialogOpen
      ensures Valid() && isDialogOpen
      ensures modalImageIndex == currentImageIndex && ModalImage() == CurrentImage()
    {
      modalImageIndex := currentImageIndex;
      isDialogOpen := true;
    }

    /** The dialog's own open/close requests. */
    method SetDialogOpen(open: bool)
      requires Valid()
      modifies this`isDialogOpen
      ensures Valid() && isDialogOpen == open
    {
      isDialogOpen := open;
    }

    /** The inline image finished loading, or failed to: either ends the loading skeleton. */
    method SettleImage()
      requires Valid()
      modifies this`imageLoaded
      ensures Valid() && imageLoaded
    {
      imageLoaded := true;
    }

    /**
     * A click on a heart: the snapshot, the favourites after the toggle, and
     * the notice, chosen from the favourite state read before the toggle.
     */
    method HandleFavoriteToggle(favorites: set<int>) returns (item: FavoriteItem, favorites': set<int>, notice: FavoriteNotice)
      requires Valid()
      ensures item.image == images[0].url && item.id == id && item.name == name
      ensures item.category == category && item.description == description
      ensures id in favorites' <==> id !in favorites
      ensures favorites' - {id} == favorites - {id}
      ensures notice == if id in favorites then Removed(name) else Added(name)
      ensures notice.Added? <==> id in favorites'
    {
      var isProductFavorite := id in favorites;
      item := FavoriteSnapshot(id, name, category, images, description);
      favorites' := ToggleFavorite(favorites, item.id);
      if isProductFavorite {
        notice := Removed(name);
      } else {
        notice := Added(name);
      }
    }
  }
}
