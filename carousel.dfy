/**
 * The image carousel of `components/ui/carousel.tsx`: the index of the
 * shown image moves forward and back around the ring of images, or jumps
 * to the dot that was clicked.
 */
module Carousel {
  import opened Common

  /** JavaScript's `a % n` for a positive `n`: the remainder takes the sign of `a`. */
  function JsRem(a: int, n: int): (r: int)
    requires n > 0
    ensures a >= 0 ==> r == a % n && 0 <= r < n
    ensures a < 0 ==> -n < r <= 0
  {
    if a >= 0 then a % n else -((-a) % n)
  }

  /** `(current + 1) % images.length`. */
  function NextIndex(current: int, n: int): (i: int)
    requires n > 0
    ensures 0 <= current < n ==> 0 <= i < n && i == (if current == n - 1 then 0 else current + 1)
  {
    JsRem(current + 1, n)
  }

  /** `(current - 1 + images.length) % images.length`. */
  function PrevIndex(current: int, n: int): (i: int)
    requires n > 0
    ensures 0 <= current < n ==> 0 <= i < n && i == (if current == 0 then n - 1 else current - 1)
  {
    JsRem(current - 1 + n, n)
  }

  /** Going back undoes going forward, and the other way round. */
  lemma PrevUndoesNext(current: int, n: int)
    requires 0 <= current < n
    ensures PrevIndex(NextIndex(current, n), n) == current
    ensures NextIndex(PrevIndex(current, n), n) == current
  {
  }

  /** `k` steps forward. */
  function Advance(current: int, n: int, k: nat): int
    requires n > 0
    decreases k
  {
    if k == 0 then current else Advance(NextIndex(current, n), n, k - 1)
  }

  /** Euclidean division has one quotient and one remainder. */
  lemma DivModUnique(x: int, n: int, q: int, r: int)
    requires n > 0 && 0 <= r < n && x == q * n + r
    ensures x % n == r && x / n == q
  {
    var d := x / n - q;
    assert n * d == r - x % n;
    assert d == 0 by {
      assert d > 0 ==> n * d >= n;
      assert d < 0 ==> n * d <= -n;
    }
  }

  /** Stepping past the last image is stepping from the first. */
  lemma WrapStep(n: int, k: int)
    requires n > 0 && k >= 1
    ensures (n - 1 + k) % n == (k - 1) % n
  {
    var q, r := (k - 1) / n, (k - 1) % n;
    assert k - 1 == q * n + r;
    assert n - 1 + k == (q + 1) * n + r;
    DivModUnique(n - 1 + k, n, q + 1, r);
  }

  /** `k` steps forward land `k` places further round the ring. */
  lemma {:induction false} AdvanceIsRotation(current: int, n: int, k: nat)
    requires 0 <= current < n
    ensures Advance(current, n, k) == (current + k) % n
    decreases k
  {
    if k > 0 {
      AdvanceIsRotation(NextIndex(current, n), n, k - 1);
      if current == n - 1 {
        WrapStep(n, k);
      }
    }
  }

  /** As many steps forward as there are images come back to the start. */
  lemma FullCycle(current: int, n: int)
    requires 0 <= current < n
    ensures Advance(current, n, n) == current
  {
    AdvanceIsRotation(current, n, n);
    DivModUnique(current + n, n, 1, current);
  }

  /** The carousel's state: its images and the index of the one shown. */
  class Carousel {
    const images: seq<string>
    var current: int

    /** The index points at an image, or is 0 when there is none. */
    ghost predicate Valid()
      reads this
    {
      if images == [] then current == 0 else 0 <= current < |images|
    }

    constructor (images: seq<string>)
      ensures Valid() && this.images == images && current == 0
    {
      this.images := images;
      current := 0;
    }

    /** The image on show; none, and the "No images available" placeholder, for an empty carousel. */
    function Shown(): (s: Option<string>)
      reads this
      requires Valid()
      ensures s.None? <==> images == []
      ensures s.Some? ==> s.value == images[current]
    {
      if images == [] then None else Some(images[current])
    }

    /** The counter's first number, "<position> / <count>": the 1-based place of the shown image. */
    function Position(): (p: int)
      reads this
      requires Valid() && images != []
      ensures 1 <= p <= |images|
      ensures images[p - 1] == images[current]
    {
      current + 1
    }

    /** The right arrow. */
    method Next()
      requires Valid() && |images| >= 1
      modifies this`current
      ensures Valid()
      ensures current == NextIndex(old(current), |images|)
    {
      current := JsRem(current + 1, |images|);
    }

    /** The left arrow. */
    method Prev()
      requires Valid() && |images| >= 1
      modifies this`current
      ensures Valid()
      ensures current == PrevIndex(old(current), |images|)
    {
      current := JsRem(current - 1 + |images|, |images|);
    }

    /** A click on the dot of image `index`. */
    method SelectDot(index: int)
      requires Valid() && 0 <= index < |images|
      modifies this`current
      ensures Valid() && current == index
    {
      current := index;
    }
  }
}
