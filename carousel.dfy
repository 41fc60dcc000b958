/**
 * The image carousel of an expanded product card
 * (src/components/ProductCard.tsx:21-31): `currentImageIndex` starts at 0 and
 * the two buttons move it cyclically through the product's images.
 *
 * The index is a JavaScript number. JavaScript's `%` truncates toward zero
 * and is NaN for a zero divisor, which a product without images reaches on
 * the first click; NaN then stays NaN.
 */
module Carousel {
  import opened Prng

  datatype Index = At(i: int) | NotANumber

  /** JavaScript's `a % n` on integers: the sign follows `a`, and a zero divisor gives NaN. */
  function JsRem(a: int, n: int): (r: Index)
    ensures n == 0 <==> r == NotANumber
    ensures n != 0 && 0 <= a ==> r == At(a % (if n < 0 then -n else n))
  {
    if n == 0 then NotANumber
    else
      var m := if n < 0 then -n else n;
      if a >= 0 then At(a % m) else At(-((-a) % m))
  }

  /** The updater of `nextImage` (line 25): `(prev + 1) % length`. */
  function NextIndex(prev: Index, length: nat): Index {
    match prev
    case NotANumber => NotANumber
    case At(i) => JsRem(i + 1, length)
  }

  /** The updater of `prevImage` (line 30): `(prev - 1 + length) % length`. */
  function PrevIndex(prev: Index, length: nat): Index {
    match prev
    case NotANumber => NotANumber
    case At(i) => JsRem(i - 1 + length, length)
  }

  /** The index names an image. */
  predicate InRange(idx: Index, length: nat) {
    idx.At? && 0 <= idx.i < length
  }

  /** `nextImage` moves to the following image and wraps from the last to the first. */
  lemma NextWraps(i: int, length: nat)
    requires 0 <= i < length
    ensures NextIndex(At(i), length) == At(if i == length - 1 then 0 else i + 1)
    ensures InRange(NextIndex(At(i), length), length)
  {
  }

  /** `prevImage` moves to the preceding image and wraps from the first to the last. */
  lemma PrevWraps(i: int, length: nat)
    requires 0 <= i < length
    ensures PrevIndex(At(i), length) == At(if i == 0 then length - 1 else i - 1)
    ensures InRange(PrevIndex(At(i), length), length)
  {
    if i > 0 {
      DivUnique(i - 1 + length, 1, i - 1, length);
    } else {
      DivUnique(length - 1, 0, length - 1, length);
    }
  }

  /** Without images every click yields NaN. */
  lemma NoImages(idx: Index)
    ensures NextIndex(idx, 0) == NotANumber && PrevIndex(idx, 0) == NotANumber
  {
  }

  /** The two buttons undo each other. */
  lemma NextPrevInverse(i: int, length: nat)
    requires 0 <= i < length
    ensures PrevIndex(NextIndex(At(i), length), length) == At(i)
    ensures NextIndex(PrevIndex(At(i), length), length) == At(i)
  {
    NextWraps(i, length);
    PrevWraps(i, length);
    var j := if i == length - 1 then 0 else i + 1;
    PrevWraps(j, length);
    var k := if i == 0 then length - 1 else i - 1;
    NextWraps(k, length);
  }

  /** The index after `k` clicks on `nextImage`. */
  function Nexts(idx: Index, length: nat, k: nat): Index {
    if k == 0 then idx else NextIndex(Nexts(idx, length, k - 1), length)
  }

  /** After `k` clicks on `nextImage` from image `i` the carousel shows image `(i + k) mod length`. */
  lemma {:induction false} NextsPosition(i: int, length: nat, k: nat)
    requires 0 <= i < length
    ensures Nexts(At(i), length, k) == At((i + k) % length)
  {
    if k > 0 {
      NextsPosition(i, length, k - 1);
      var j := (i + k - 1) % length;
      NextWraps(j, length);
      ModSucc(i + k - 1, length);
    }
  }

  /** `(x + 1) mod m` from `x mod m`. */
  lemma ModSucc(x: nat, m: nat)
    requires m > 0
    ensures (x + 1) % m == (if x % m == m - 1 then 0 else x % m + 1)
  {
    var q, r := x / m, x % m;
    if r == m - 1 {
      DivUnique(x + 1, q + 1, 0, m);
    } else {
      DivUnique(x + 1, q, r + 1, m);
    }
  }

  /** `length` clicks on `nextImage` come back to the starting image. */
  lemma NextsPeriod(i: int, length: nat)
    requires 0 <= i < length
    ensures Nexts(At(i), length, length) == At(i)
  {
    NextsPosition(i, length, length);
    DivUnique(i + length, 1, i, length);
  }

  /** The carousel state of one product card. */
  class ImageCarousel {
    var currentImageIndex: Index
    const imageCount: nat

    /** `useState(0)` for a product with `images`. */
    constructor (images: seq<string>)
      ensures currentImageIndex == At(0) && imageCount == |images|
      ensures imageCount > 0 ==> InRange(currentImageIndex, imageCount)
    {
      currentImageIndex := At(0);
      imageCount := |images|;
    }

    method NextImage()
      modifies this
      ensures currentImageIndex == NextIndex(old(currentImageIndex), imageCount)
      ensures InRange(old(currentImageIndex), imageCount) ==> InRange(currentImageIndex, imageCount)
    {
      match currentImageIndex
      case NotANumber =>
      case At(i) =>
        if 0 <= i < imageCount {
          NextWraps(i, imageCount);
        }
        currentImageIndex := JsRem(i + 1, imageCount);
    }

    method PrevImage()
      modifies this
      ensures currentImageIndex == PrevIndex(old(currentImageIndex), imageCount)
      ensures InRange(old(currentImageIndex), imageCount) ==> InRange(currentImageIndex, imageCount)
    {
      match currentImageIndex
      case NotANumber =>
      case At(i) =>
        if 0 <= i < imageCount {
          PrevWraps(i, imageCount);
        }
        currentImageIndex := JsRem(i - 1 + imageCount, imageCount);
    }
  }
}
