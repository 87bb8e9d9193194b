/**
  * Row-major addressing of a width × height pixel buffer: pixel (x, y) lives
  * at position x + y * width. Every transform of WebCamManager computes its
  * read and write positions this way.
  */
module Grid {

  /** The buffer position of column `x`, row `y` in rows `w` pixels wide. */
  function Index(x: int, y: int, w: int): (k: int)
  {
    x + y * w
  }

  /** A pixel inside the image has a position inside the first w*h slots. */
  lemma IndexInRange(x: int, y: int, w: int, h: int)
    requires 0 <= x < w && 0 <= y < h
    ensures 0 <= Index(x, y, w) < w * h
  {
    assert y * w <= (h - 1) * w by { MulMonotone(y, h - 1, w); }
    assert (h - 1) * w + w == w * h;
  }

  /** Column and row can be read back from a position by % and /. */
  lemma IndexCoordinates(x: int, y: int, w: int)
    requires 0 <= x < w && 0 <= y
    ensures Index(x, y, w) % w == x && Index(x, y, w) / w == y
  {
    var k := Index(x, y, w);
    DivModUnique(k, w, y, x);
  }

  /** Every slot below w*h is the position of exactly one pixel. */
  lemma Coordinates(k: int, w: int, h: int)
    requires 0 <= w && 0 <= h && 0 <= k < w * h
    ensures 0 < w && 0 < h
    ensures 0 <= k % w < w && 0 <= k / w < h
    ensures k == Index(k % w, k / w, w)
  {
    var q, r := k / w, k % w;
    assert k == q * w + r;
    if q >= h {
      MulMonotone(h, q, w);
      assert false;
    }
  }

  lemma MulMonotone(a: int, b: int, w: int)
    requires 0 <= a <= b && 0 <= w
    ensures a * w <= b * w
  {
    assert b * w == a * w + (b - a) * w;
  }

  lemma DivModUnique(k: int, w: int, q: int, r: int)
    requires 0 <= r < w && k == q * w + r
    ensures k / w == q && k % w == r
  {
    var q', r' := k / w, k % w;
    assert k == q' * w + r';
    assert (q - q') * w == r' - r;
    if q > q' {
      MulMonotone(1, q - q', w);
      assert false;
    } else if q < q' {
      MulMonotone(1, q' - q, w);
      assert false;
    }
  }
}
