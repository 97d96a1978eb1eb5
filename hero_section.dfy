/** The home page's hero carousel: the slide list and the current-slide index. */
module HeroSection {
  import opened Text
  import opened JsNumber

  datatype Slide = Slide(id: int, image: string, link: string)

  /** A featured book as the carousel reads it: `images` holds the image sources in order. */
  datatype FeaturedBook = FeaturedBook(id: int, slug: string, images: seq<string>)

  const Placeholder: string := "https://placehold.co/1920x1080?text=Porboi"

  /** The three local banners shown when there are no featured books. */
  const FallbackSlides: seq<Slide> := [
    Slide(1, "/banners/banner1.png", "/shop?category=bengali-classics"),
    Slide(2, "/banners/banner2.png", "/shop?category=modern-bengali-literature"),
    Slide(3, "/banners/banner3.png", "/shop?category=book-fair-collection")
  ]

  /** A book's slide: its first image (or the placeholder when there is none or it is ''), linking to its slug (or its id). */
  function BookSlide(b: FeaturedBook): (s: Slide)
    ensures s.id == b.id && s.image != ""
    ensures |b.images| > 0 && b.images[0] != "" ==> s.image == b.images[0]
    ensures |b.images| == 0 || b.images[0] == "" ==> s.image == Placeholder
    ensures s.link == "/shop/" + (if b.slug != "" then b.slug else IntToString(b.id))
  {
    var image := if |b.images| > 0 && b.images[0] != "" then b.images[0] else Placeholder;
    Slide(b.id, image, "/shop/" + (if b.slug != "" then b.slug else IntToString(b.id)))
  }

  /** The slides: one per featured book, in order, or the fallback banners. */
  function Slides(featured: seq<FeaturedBook>): (r: seq<Slide>)
    ensures |featured| > 0 ==> |r| == |featured| && forall i :: 0 <= i < |r| ==> r[i] == BookSlide(featured[i])
    ensures |featured| == 0 ==> r == FallbackSlides
    ensures |r| >= 1
  {
    if |featured| == 0 then FallbackSlides else seq(|featured|, i requires 0 <= i < |featured| => BookSlide(featured[i]))
  }

  /** Every book slide links under `/shop/` to a non-empty product path. */
  lemma {:induction false} BookLinksUnderShop(featured: seq<FeaturedBook>, i: nat)
    requires i < |featured|
    ensures var l := Slides(featured)[i].link;
            |l| > 6 && l[..6] == "/shop/"
  {
    var b := featured[i];
    var tail := if b.slug != "" then b.slug else IntToString(b.id);
    assert Slides(featured)[i].link == "/shop/" + tail;
    assert ("/shop/" + tail)[..6] == "/shop/";
  }

  // ------------------------------------------------------------ the index

  /** `(prev + 1) % slides.length`. */
  function NextIndex(i: int, n: int): (r: int)
    requires n > 0
    ensures 0 <= i < n ==> 0 <= r < n
  {
    Rem(i + 1, n)
  }

  /** `(prev - 1 + slides.length) % slides.length`. */
  function PrevIndex(i: int, n: int): (r: int)
    requires n > 0
    ensures 0 <= i < n ==> 0 <= r < n
  {
    Rem(i - 1 + n, n)
  }

  lemma {:induction false} ModOfSmall(a: int, n: int)
    requires 0 <= a < n
    ensures a % n == a
  {
  }

  lemma {:induction false} ModOfShifted(a: int, n: int)
    requires n <= a < 2 * n
    ensures a % n == a - n
  {
    ModOfSmall(a - n, n);
    assert (a - n) % n == a % n;
  }

  /** On an index in range, `prev` undoes `next` and `next` undoes `prev`. */
  lemma {:induction false} NextPrevInverse(i: int, n: int)
    requires 0 <= i < n
    ensures PrevIndex(NextIndex(i, n), n) == i
    ensures NextIndex(PrevIndex(i, n), n) == i
  {
    var j := NextIndex(i, n);
    if i + 1 < n {
      ModOfSmall(i + 1, n);
      ModOfShifted(j - 1 + n, n);
    } else {
      ModOfShifted(i + 1, n);
      ModOfSmall(j - 1 + n, n);
    }
    var k := PrevIndex(i, n);
    if i > 0 {
      ModOfShifted(i - 1 + n, n);
      ModOfSmall(k + 1, n);
    } else {
      ModOfSmall(i - 1 + n, n);
      ModOfShifted(k + 1, n);
    }
  }

  /** `k` steps forward from an index in range. */
  function Advance(i: int, n: int, k: nat): (r: int)
    requires 0 <= i < n
    ensures 0 <= r < n
  {
    if k == 0 then i else NextIndex(Advance(i, n, k - 1), n)
  }

  /** Before the wrap, `k` steps forward add `k`; the step that reaches `n` wraps to 0. */
  lemma {:induction false} AdvanceCounts(i: int, n: int, k: nat)
    requires 0 <= i < n && i + k <= n
    ensures Advance(i, n, k) == if i + k == n then 0 else i + k
  {
    if k > 0 {
      AdvanceCounts(i, n, k - 1);
      if i + k == n {
        ModOfShifted(n, n);
      } else {
        ModOfSmall(i + k, n);
      }
    }
  }

  lemma {:induction false} AdvanceCompose(i: int, n: int, a: nat, b: nat)
    requires 0 <= i < n
    ensures Advance(i, n, a + b) == Advance(Advance(i, n, a), n, b)
  {
    if b > 0 {
      AdvanceCompose(i, n, a, b - 1);
    }
  }

  /** As many automatic advances as there are slides bring the carousel back to where it was. */
  lemma {:induction false} FullCycleReturns(i: int, n: int)
    requires 0 <= i < n
    ensures Advance(i, n, n) == i
  {
    AdvanceCompose(i, n, n - i, i);
    AdvanceCounts(i, n, n - i);
    AdvanceCounts(0, n, i);
  }

  class Carousel {
    const slides: seq<Slide>
    var current: int

    predicate Valid()
      reads this
    {
      |slides| >= 1 && 0 <= current < |slides|
    }

    constructor(featured: seq<FeaturedBook>)
      ensures slides == Slides(featured) && current == 0 && Valid()
    {
      slides := Slides(featured);
      current := 0;
    }

    /** `nextSlide()`. */
    method Next()
      requires |slides| >= 1
      modifies this
      ensures current == NextIndex(old(current), |slides|)
      ensures old(Valid()) ==> Valid()
    {
      current := NextIndex(current, |slides|);
    }

    /** `prevSlide()`. */
    method Prev()
      requires |slides| >= 1
      modifies this
      ensures current == PrevIndex(old(current), |slides|)
      ensures old(Valid()) ==> Valid()
    {
      current := PrevIndex(current, |slides|);
    }

    /** `goToSlide(index)`: exactly the index given. */
    method GoTo(index: int)
      modifies this
      ensures current == index
    {
      current := index;
    }

    /** One tick of the seven-second timer: the same step as `nextSlide`. */
    method Tick()
      requires |slides| >= 1
      modifies this
      ensures current == NextIndex(old(current), |slides|)
      ensures old(Valid()) ==> Valid()
    {
      Next();
    }
  }
}
