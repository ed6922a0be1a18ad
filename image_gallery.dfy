/** The product page's image gallery: the main image followed by the additional angles, with
    arrows that wrap at both ends and a thumbnail strip. */
module ImageGallery {
  import opened Wrappers

  /** A row of the product's `images` list. */
  datatype ProductImage = ProductImage(imagePath: string, angleDescription: string)

  datatype Kind = Main | Additional

  /** `{ path, angle, type }`. */
  datatype GalleryImage = GalleryImage(path: string, angle: string, kind: Kind)

  /** `allImages`: the main image labelled "Main View", then one entry per additional image,
      labelled with its angle description or "Product View"; a `null` list counts as empty. */
  function AllImages(mainImage: string, additional: Option<seq<ProductImage>>): (r: seq<GalleryImage>)
    ensures var extra := additional.GetOr([]);
      |r| == 1 + |extra| &&
      r[0] == GalleryImage(mainImage, "Main View", Main) &&
      forall k :: 0 <= k < |extra| ==>
        r[k + 1].path == extra[k].imagePath && r[k + 1].kind == Additional &&
        r[k + 1].angle == (if extra[k].angleDescription != "" then extra[k].angleDescription else "Product View")
  {
    var extra := additional.GetOr([]);
    [GalleryImage(mainImage, "Main View", Main)] +
      seq(|extra|, k requires 0 <= k < |extra| =>
        GalleryImage(extra[k].imagePath,
                     if extra[k].angleDescription != "" then extra[k].angleDescription else "Product View",
                     Additional))
  }

  /** Only the first entry is the main image. */
  lemma OneMainImage(mainImage: string, additional: Option<seq<ProductImage>>)
    ensures var r := AllImages(mainImage, additional);
      forall k :: 0 <= k < |r| ==> (r[k].kind == Main <==> k == 0)
  {
  }

  /** `handleNext`: the last image wraps to the first. */
  function NextImage(i: int, len: nat): int {
    if i == len - 1 then 0 else i + 1
  }

  /** `handlePrevious`: the first image wraps to the last. */
  function PrevImage(i: int, len: nat): int {
    if i == 0 then len - 1 else i - 1
  }

  /** From an index of an existing image, both arrows land on an existing image, and each
      undoes the other. */
  lemma ArrowsWrap(i: int, len: nat)
    requires 0 <= i < len
    ensures 0 <= NextImage(i, len) < len && 0 <= PrevImage(i, len) < len
    ensures PrevImage(NextImage(i, len), len) == i
    ensures NextImage(PrevImage(i, len), len) == i
  {
  }

  /** Going `steps` times to the next image walks round the list, so `len` steps come back to
      the start. */
  lemma {:induction false} NextCycle(i: int, len: nat, steps: nat)
    requires 0 <= i < len && steps <= len
    ensures Iterate(i, len, steps) == if i + steps < len then i + steps else i + steps - len
    ensures steps == len ==> Iterate(i, len, steps) == i
  {
    if steps > 0 {
      NextCycle(i, len, steps - 1);
    }
  }

  function Iterate(i: int, len: nat, steps: nat): int {
    if steps == 0 then i else NextImage(Iterate(i, len, steps - 1), len)
  }

  /** The gallery's selection over a fixed image list. */
  class Gallery {
    const images: seq<GalleryImage>
    var selected: int

    ghost predicate Valid()
      reads this
    {
      0 <= selected < |images|
    }

    constructor (mainImage: string, additional: Option<seq<ProductImage>>)
      ensures Valid() && images == AllImages(mainImage, additional) && selected == 0
    {
      images := AllImages(mainImage, additional);
      selected := 0;
    }

    method Previous()
      requires Valid()
      modifies this
      ensures Valid() && selected == PrevImage(old(selected), |images|)
    {
      selected := PrevImage(selected, |images|);
    }

    method Next()
      requires Valid()
      modifies this
      ensures Valid() && selected == NextImage(old(selected), |images|)
    {
      selected := NextImage(selected, |images|);
    }

    /** A thumbnail click. */
    method Select(idx: int)
      requires Valid() && 0 <= idx < |images|
      modifies this
      ensures Valid() && selected == idx
    {
      selected := idx;
    }

    /** `allImages[selectedImageIndex]`. */
    function Current(): (img: GalleryImage)
      reads this
      requires Valid()
      ensures img in images
    {
      images[selected]
    }
  }
}
