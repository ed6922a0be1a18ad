/** The "featured products" carousel: a window of `perPage` products starting at `index`,
    moved by the arrows, the dots and an autoplay tick, and wrapping at both ends. */
module ProductSlider {
  import opened Catalog

  /** The resize handler's breakpoints. */
  function ItemsPerPage(width: int): (per: int)
    ensures 1 <= per <= 4
    ensures per == 1 <==> width < 640
    ensures per == 2 <==> 640 <= width < 1024
    ensures per == 3 <==> 1024 <= width < 1280
    ensures per == 4 <==> 1280 <= width
  {
    if width < 640 then 1 else if width < 1024 then 2 else if width < 1280 then 3 else 4
  }

  /** A wider window never shows fewer products per page. */
  lemma ItemsPerPageMonotone(narrow: int, wide: int)
    requires narrow <= wide
    ensures ItemsPerPage(narrow) <= ItemsPerPage(wide)
  {
  }

  /** `Math.max(0, products.length - itemsPerPage)`, the last index that still fills a page. */
  function MaxIndex(n: nat, per: int): (m: nat)
    ensures m >= n - per && (m == 0 || m == n - per)
    ensures per >= 1 ==> m < n || n == 0
  {
    if n - per > 0 then n - per else 0
  }

  /** `handleNext` and the autoplay tick: past the last full page back to 0, otherwise one on. */
  function NextIndex(i: int, n: nat, per: int): int {
    if i >= MaxIndex(n, per) then 0 else i + 1
  }

  /** `handlePrevious`: from 0 to the last full page, otherwise one back. */
  function PrevIndex(i: int, n: nat, per: int): int {
    if i == 0 then MaxIndex(n, per) else i - 1
  }

  predicate InRange(i: int, n: nat, per: int) {
    0 <= i <= MaxIndex(n, per)
  }

  /** From any index in range, both moves stay in range. */
  lemma MovesStayInRange(i: int, n: nat, per: int)
    requires InRange(i, n, per)
    ensures InRange(NextIndex(i, n, per), n, per)
    ensures InRange(PrevIndex(i, n, per), n, per)
  {
  }

  /** In range, `previous` undoes `next` and `next` undoes `previous`, wrap-around included. */
  lemma MovesInverse(i: int, n: nat, per: int)
    requires InRange(i, n, per)
    ensures PrevIndex(NextIndex(i, n, per), n, per) == i
    ensures NextIndex(PrevIndex(i, n, per), n, per) == i
  {
  }

  /** `products.slice(index, index + perPage)` for `index >= 0`, with `slice`'s clamping at the
      end of the list. */
  function Visible(products: seq<Product>, i: nat, per: nat): (shown: seq<Product>)
    ensures |shown| <= per
    ensures forall k :: 0 <= k < |shown| ==> i + k < |products| && shown[k] == products[i + k]
  {
    var lo := if i < |products| then i else |products|;
    var hi := if i + per < |products| then i + per else |products|;
    products[lo..hi]
  }

  /** From an index in range in a list of at least a page, the window is a full page. */
  lemma VisibleFullPage(products: seq<Product>, i: nat, per: nat)
    requires per <= |products| && InRange(i, |products|, per)
    ensures |Visible(products, i, per)| == per
  {
  }

  /** `Math.ceil(products.length / itemsPerPage)`, the number of dots. */
  function DotCount(n: nat, per: int): nat
    requires per >= 1
  {
    (n + per - 1) / per
  }

  /** A dot sets the index to its own position, and every dot's position is in range. */
  lemma {:induction false} DotsInRange(n: nat, per: int, dot: nat)
    requires per >= 1 && dot < DotCount(n, per)
    ensures InRange(dot, n, per)
  {
    if dot >= 1 {
      var q := (n + per - 1) / per;
      var r := (n + per - 1) % per;
      assert q * per + r == n + per - 1 && 0 <= r;
      assert dot <= q - 1;
      MulMono(dot, q - 1, per);
      assert (q - 1) * per == q * per - per;
      assert dot * per <= n - 1;
      MulMono(1, dot, per - 1);
      assert dot * (per - 1) == dot * per - dot;
      assert dot <= n - per;
    }
  }

  lemma MulMono(a: int, b: int, c: int)
    requires a <= b && c >= 0
    ensures a * c <= b * c
  {
    assert b * c - a * c == (b - a) * c;
  }

  /** The slider's state. */
  class Slider {
    var products: seq<Product>
    var index: int
    var perPage: int
    var autoPlay: bool

    ghost predicate Valid()
      reads this
    {
      index >= 0 && 1 <= perPage <= 4
    }

    /** Index 0, four per page and autoplay on, until the first resize and the fetch. */
    constructor ()
      ensures Valid() && products == [] && index == 0 && perPage == 4 && autoPlay
    {
      products := [];
      index := 0;
      perPage := 4;
      autoPlay := true;
    }

    /** The fetch: `response.data || []`. */
    method Load(fetched: seq<Product>)
      requires Valid()
      modifies this
      ensures Valid() && products == fetched
      ensures index == old(index) && perPage == old(perPage) && autoPlay == old(autoPlay)
    {
      products := fetched;
    }

    method Resize(width: int)
      requires Valid()
      modifies this
      ensures Valid() && perPage == ItemsPerPage(width)
      ensures products == old(products) && index == old(index) && autoPlay == old(autoPlay)
    {
      perPage := ItemsPerPage(width);
    }

    /** The left arrow: autoplay stops and the index moves back. */
    method Previous()
      requires Valid()
      modifies this
      ensures Valid() && !autoPlay && index == PrevIndex(old(index), |products|, perPage)
      ensures products == old(products) && perPage == old(perPage)
      ensures InRange(old(index), |products|, perPage) ==> InRange(index, |products|, perPage)
    {
      autoPlay := false;
      index := PrevIndex(index, |products|, perPage);
    }

    /** The right arrow: autoplay stops and the index moves on. */
    method Next()
      requires Valid()
      modifies this
      ensures Valid() && !autoPlay && index == NextIndex(old(index), |products|, perPage)
      ensures products == old(products) && perPage == old(perPage)
      ensures InRange(old(index), |products|, perPage) ==> InRange(index, |products|, perPage)
    {
      autoPlay := false;
      index := NextIndex(index, |products|, perPage);
    }

    /** One firing of the four-second interval, which exists only while autoplay is on and
        there are products: the same move as `next`, with autoplay left as it is. */
    method Tick()
      requires Valid()
      modifies this
      ensures Valid() && autoPlay == old(autoPlay)
      ensures products == old(products) && perPage == old(perPage)
      ensures index == if old(autoPlay) && |products| > 0 then NextIndex(old(index), |products|, perPage) else old(index)
    {
      if autoPlay && |products| > 0 {
        index := NextIndex(index, |products|, perPage);
      }
    }

    /** The ten-second timeout after an interaction, and leaving the carousel with the mouse. */
    method Resume()
      requires Valid()
      modifies this
      ensures Valid() && autoPlay
      ensures products == old(products) && perPage == old(perPage) && index == old(index)
    {
      autoPlay := true;
    }

    /** Entering the carousel with the mouse. */
    method Pause()
      requires Valid()
      modifies this
      ensures Valid() && !autoPlay
      ensures products == old(products) && perPage == old(perPage) && index == old(index)
    {
      autoPlay := false;
    }

    /** A dot: autoplay stops and the index jumps to the dot's position. */
    method Dot(dot: nat)
      requires Valid() && dot < DotCount(|products|, perPage)
      modifies this
      ensures Valid() && !autoPlay && index == dot && InRange(index, |products|, perPage)
      ensures products == old(products) && perPage == old(perPage)
    {
      DotsInRange(|products|, perPage, dot);
      autoPlay := false;
      index := dot;
    }

    /** What is rendered: nothing without products, else the window at the index. The page
        shifts its row of page groups left by `index` item widths, which brings exactly this
        window into view. */
    function Shown(): (shown: seq<Product>)
      reads this
      requires Valid()
      ensures |products| == 0 ==> shown == []
      ensures |shown| <= perPage
    {
      if |products| == 0 then [] else Visible(products, index, perPage)
    }
  }
}
