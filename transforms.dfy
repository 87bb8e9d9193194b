/**
  * The four pixel-buffer transforms of WebCamManager (FlipVertical,
  * FlipHorizontal, RotateCW, RotateCCW). Each reads a row-major
  * width × height image out of `colors` and writes a freshly allocated
  * buffer of the same length as `colors`.
  *
  * Each transform is specified by a function on sequences (FlippedV,
  * FlippedH, RotatedCW, RotatedCCW): output slot k < width*height holds the
  * input pixel the source's loop writes there, and slots from width*height
  * on keep the default Color32 of the new array. The methods over arrays
  * follow the source's nested loops and are proved to produce exactly that
  * sequence.
  */
module Transforms {
  import opened Pixels
  import opened Grid
  import opened Permutations

  // ---------------------------------------------------------------------
  // Where each output slot is read from
  // ---------------------------------------------------------------------

  /** FlipVertical: slot (x, y) of the output comes from (x, h-1-y). */
  function FlipVerticalSource(k: int, w: int, h: int): (j: int)
    requires 0 <= w && 0 <= h && 0 <= k < w * h
    ensures 0 <= j < w * h
  {
    Coordinates(k, w, h);
    IndexInRange(k % w, h - 1 - k / w, w, h);
    Index(k % w, h - 1 - k / w, w)
  }

  /** FlipHorizontal: slot (x, y) of the output comes from (w-1-x, y). */
  function FlipHorizontalSource(k: int, w: int, h: int): (j: int)
    requires 0 <= w && 0 <= h && 0 <= k < w * h
    ensures 0 <= j < w * h
  {
    Coordinates(k, w, h);
    IndexInRange(w - 1 - k % w, k / w, w, h);
    Index(w - 1 - k % w, k / w, w)
  }

  /**
    * RotateCW of a w × h image gives an h × w image: output column c of
    * output row r comes from input column w-1-r of input row c.
    */
  function RotateCWSource(k: int, w: int, h: int): (j: int)
    requires 0 <= w && 0 <= h && 0 <= k < w * h
    ensures 0 <= j < w * h
  {
    Coordinates(k, h, w);
    IndexInRange(w - 1 - k / h, k % h, w, h);
    Index(w - 1 - k / h, k % h, w)
  }

  /**
    * RotateCCW of a w × h image gives an h × w image: output column c of
    * output row r comes from input column r of input row h-1-c.
    */
  function RotateCCWSource(k: int, w: int, h: int): (j: int)
    requires 0 <= w && 0 <= h && 0 <= k < w * h
    ensures 0 <= j < w * h
  {
    Coordinates(k, h, w);
    IndexInRange(k / h, h - 1 - k % h, w, h);
    Index(k / h, h - 1 - k % h, w)
  }

  // ---------------------------------------------------------------------
  // The transforms as functions on sequences
  // ---------------------------------------------------------------------

  function FlippedV(s: seq<Color32>, w: nat, h: nat): (r: seq<Color32>)
    requires w * h <= |s|
    ensures |r| == |s|
    ensures forall k :: w * h <= k < |r| ==> r[k] == Clear
  {
    seq(|s|, k requires 0 <= k < |s| => if k < w * h then s[FlipVerticalSource(k, w, h)] else Clear)
  }

  function FlippedH(s: seq<Color32>, w: nat, h: nat): (r: seq<Color32>)
    requires w * h <= |s|
    ensures |r| == |s|
    ensures forall k :: w * h <= k < |r| ==> r[k] == Clear
  {
    seq(|s|, k requires 0 <= k < |s| => if k < w * h then s[FlipHorizontalSource(k, w, h)] else Clear)
  }

  function RotatedCW(s: seq<Color32>, w: nat, h: nat): (r: seq<Color32>)
    requires w * h <= |s|
    ensures |r| == |s|
    ensures forall k :: w * h <= k < |r| ==> r[k] == Clear
  {
    seq(|s|, k requires 0 <= k < |s| => if k < w * h then s[RotateCWSource(k, w, h)] else Clear)
  }

  function RotatedCCW(s: seq<Color32>, w: nat, h: nat): (r: seq<Color32>)
    requires w * h <= |s|
    ensures |r| == |s|
    ensures forall k :: w * h <= k < |r| ==> r[k] == Clear
  {
    seq(|s|, k requires 0 <= k < |s| => if k < w * h then s[RotateCCWSource(k, w, h)] else Clear)
  }

  // ---------------------------------------------------------------------
  // Each transform writes input pixel (x, y) where the source writes it
  // ---------------------------------------------------------------------

  lemma FlippedVAt(s: seq<Color32>, w: nat, h: nat, x: int, y: int)
    requires w * h <= |s| && 0 <= x < w && 0 <= y < h
    ensures 0 <= Index(x, h - 1 - y, w) < w * h && Index(x, y, w) < w * h
    ensures FlippedV(s, w, h)[Index(x, h - 1 - y, w)] == s[Index(x, y, w)]
  {
    IndexInRange(x, y, w, h);
    IndexInRange(x, h - 1 - y, w, h);
    IndexCoordinates(x, h - 1 - y, w);
  }

  lemma FlippedHAt(s: seq<Color32>, w: nat, h: nat, x: int, y: int)
    requires w * h <= |s| && 0 <= x < w && 0 <= y < h
    ensures 0 <= Index(w - 1 - x, y, w) < w * h && Index(x, y, w) < w * h
    ensures FlippedH(s, w, h)[Index(w - 1 - x, y, w)] == s[Index(x, y, w)]
  {
    IndexInRange(x, y, w, h);
    IndexInRange(w - 1 - x, y, w, h);
    IndexCoordinates(w - 1 - x, y, w);
  }

  lemma RotatedCWAt(s: seq<Color32>, w: nat, h: nat, x: int, y: int)
    requires w * h <= |s| && 0 <= x < w && 0 <= y < h
    ensures 0 <= Index(y, w - 1 - x, h) < w * h && Index(x, y, w) < w * h
    ensures RotatedCW(s, w, h)[Index(y, w - 1 - x, h)] == s[Index(x, y, w)]
  {
    IndexInRange(x, y, w, h);
    IndexInRange(y, w - 1 - x, h, w);
    IndexCoordinates(y, w - 1 - x, h);
  }

  lemma RotatedCCWAt(s: seq<Color32>, w: nat, h: nat, x: int, y: int)
    requires w * h <= |s| && 0 <= x < w && 0 <= y < h
    ensures 0 <= Index(h - 1 - y, x, h) < w * h && Index(x, y, w) < w * h
    ensures RotatedCCW(s, w, h)[Index(h - 1 - y, x, h)] == s[Index(x, y, w)]
  {
    IndexInRange(x, y, w, h);
    IndexInRange(h - 1 - y, x, h, w);
    IndexCoordinates(h - 1 - y, x, h);
  }

  // ---------------------------------------------------------------------
  // Laws: involution, commutation, inverse, dimension swap
  // ---------------------------------------------------------------------

  /** Flipping vertically twice with the same dimensions restores the buffer. */
  lemma {:induction false} FlipVerticalInvolution(s: seq<Color32>, w: nat, h: nat)
    requires |s| == w * h
    ensures FlippedV(FlippedV(s, w, h), w, h) == s
  {
    var t := FlippedV(s, w, h);
    forall k | 0 <= k < |s|
      ensures FlippedV(t, w, h)[k] == s[k]
    {
      Coordinates(k, w, h);
      var x, y := k % w, k / w;
      FlippedVAt(t, w, h, x, h - 1 - y);
      FlippedVAt(s, w, h, x, y);
    }
  }

  /** Flipping horizontally twice with the same dimensions restores the buffer. */
  lemma {:induction false} FlipHorizontalInvolution(s: seq<Color32>, w: nat, h: nat)
    requires |s| == w * h
    ensures FlippedH(FlippedH(s, w, h), w, h) == s
  {
    var t := FlippedH(s, w, h);
    forall k | 0 <= k < |s|
      ensures FlippedH(t, w, h)[k] == s[k]
    {
      Coordinates(k, w, h);
      var x, y := k % w, k / w;
      FlippedHAt(t, w, h, w - 1 - x, y);
      FlippedHAt(s, w, h, x, y);
    }
  }

  /** The two flips commute, so "both" may apply them in either order. */
  lemma {:induction false} FlipsCommute(s: seq<Color32>, w: nat, h: nat)
    requires w * h <= |s|
    ensures FlippedH(FlippedV(s, w, h), w, h) == FlippedV(FlippedH(s, w, h), w, h)
  {
    var a := FlippedH(FlippedV(s, w, h), w, h);
    var b := FlippedV(FlippedH(s, w, h), w, h);
    forall k | 0 <= k < w * h
      ensures a[k] == b[k]
    {
      Coordinates(k, w, h);
      var x, y := w - 1 - k % w, h - 1 - k / w;
      FlippedHAt(FlippedV(s, w, h), w, h, x, h - 1 - y);
      FlippedVAt(s, w, h, x, y);
      FlippedVAt(FlippedH(s, w, h), w, h, w - 1 - x, y);
      FlippedHAt(s, w, h, x, y);
    }
  }

  /** RotateCCW on the swapped dimensions undoes RotateCW. */
  lemma {:induction false} RotateCCWUndoesCW(s: seq<Color32>, w: nat, h: nat)
    requires |s| == w * h
    ensures RotatedCCW(RotatedCW(s, w, h), h, w) == s
  {
    var t := RotatedCW(s, w, h);
    forall k | 0 <= k < |s|
      ensures RotatedCCW(t, h, w)[k] == s[k]
    {
      Coordinates(k, w, h);
      var x, y := k % w, k / w;
      RotatedCWAt(s, w, h, x, y);
      RotatedCCWAt(t, h, w, y, w - 1 - x);
    }
  }

  /** RotateCW on the swapped dimensions undoes RotateCCW. */
  lemma {:induction false} RotateCWUndoesCCW(s: seq<Color32>, w: nat, h: nat)
    requires |s| == w * h
    ensures RotatedCW(RotatedCCW(s, w, h), h, w) == s
  {
    var t := RotatedCCW(s, w, h);
    forall k | 0 <= k < |s|
      ensures RotatedCW(t, h, w)[k] == s[k]
    {
      Coordinates(k, w, h);
      var x, y := k % w, k / w;
      RotatedCCWAt(s, w, h, x, y);
      RotatedCWAt(t, h, w, h - 1 - y, x);
    }
  }

  /** Two clockwise quarter turns are a half turn: both flips. */
  lemma {:induction false} HalfTurn(s: seq<Color32>, w: nat, h: nat)
    requires w * h <= |s|
    ensures RotatedCW(RotatedCW(s, w, h), h, w) == FlippedH(FlippedV(s, w, h), w, h)
  {
    var t := RotatedCW(s, w, h);
    var a := RotatedCW(t, h, w);
    var b := FlippedH(FlippedV(s, w, h), w, h);
    forall k | 0 <= k < w * h
      ensures a[k] == b[k]
    {
      Coordinates(k, w, h);
      var x, y := w - 1 - k % w, h - 1 - k / w;
      RotatedCWAt(s, w, h, x, y);
      RotatedCWAt(t, h, w, y, w - 1 - x);
      FlippedHAt(FlippedV(s, w, h), w, h, x, h - 1 - y);
      FlippedVAt(s, w, h, x, y);
    }
  }

  /** Four clockwise quarter turns restore the buffer (dimensions swap back every second turn). */
  lemma {:induction false} FullTurn(s: seq<Color32>, w: nat, h: nat)
    requires |s| == w * h
    ensures RotatedCW(RotatedCW(RotatedCW(RotatedCW(s, w, h), h, w), w, h), h, w) == s
  {
    var half := FlippedH(FlippedV(s, w, h), w, h);
    HalfTurn(s, w, h);
    HalfTurn(half, w, h);
    calc {
      RotatedCW(RotatedCW(half, w, h), h, w);
      FlippedH(FlippedV(FlippedH(FlippedV(s, w, h), w, h), w, h), w, h);
      { FlipsCommute(FlippedV(s, w, h), w, h); }
      FlippedH(FlippedH(FlippedV(FlippedV(s, w, h), w, h), w, h), w, h);
      { FlipVerticalInvolution(s, w, h); }
      FlippedH(FlippedH(s, w, h), w, h);
      { FlipHorizontalInvolution(s, w, h); }
      s;
    }
  }

  /** A clockwise quarter turn followed by both flips is a counter-clockwise quarter turn. */
  lemma {:induction false} QuarterTurnThenBothFlips(s: seq<Color32>, w: nat, h: nat)
    requires w * h <= |s|
    ensures FlippedH(FlippedV(RotatedCW(s, w, h), h, w), h, w) == RotatedCCW(s, w, h)
  {
    var t := RotatedCW(s, w, h);
    var a := FlippedH(FlippedV(t, h, w), h, w);
    var b := RotatedCCW(s, w, h);
    forall k | 0 <= k < w * h
      ensures a[k] == b[k]
    {
      Coordinates(k, h, w);
      var x, y := k / h, h - 1 - k % h;
      RotatedCWAt(s, w, h, x, y);
      FlippedVAt(t, h, w, y, w - 1 - x);
      FlippedHAt(FlippedV(t, h, w), h, w, y, x);
      RotatedCCWAt(s, w, h, x, y);
    }
  }

  // ---------------------------------------------------------------------
  // Permutation: no pixel of the image is lost or doubled
  // ---------------------------------------------------------------------

  lemma FlipVerticalSourceInvolution(k: int, w: nat, h: nat)
    requires 0 <= k < w * h
    ensures FlipVerticalSource(FlipVerticalSource(k, w, h), w, h) == k
  {
    Coordinates(k, w, h);
    IndexCoordinates(k % w, h - 1 - k / w, w);
  }

  lemma FlipHorizontalSourceInvolution(k: int, w: nat, h: nat)
    requires 0 <= k < w * h
    ensures FlipHorizontalSource(FlipHorizontalSource(k, w, h), w, h) == k
  {
    Coordinates(k, w, h);
    IndexCoordinates(w - 1 - k % w, k / w, w);
  }

  lemma RotateSourcesInverse(k: int, w: nat, h: nat)
    requires 0 <= k < w * h
    ensures RotateCCWSource(RotateCWSource(k, w, h), h, w) == k
    ensures RotateCWSource(RotateCCWSource(k, w, h), h, w) == k
  {
    Coordinates(k, h, w);
    IndexCoordinates(w - 1 - k / h, k % h, w);
    IndexCoordinates(k / h, h - 1 - k % h, w);
  }

  lemma {:induction false} FlippedVIsPermutation(s: seq<Color32>, w: nat, h: nat)
    requires |s| == w * h
    ensures multiset(FlippedV(s, w, h)) == multiset(s)
  {
    var p := k => if 0 <= k < w * h then FlipVerticalSource(k, w, h) else 0;
    forall k | 0 <= k < w * h
      ensures 0 <= p(k) < w * h && p(p(k)) == k
    {
      FlipVerticalSourceInvolution(k, w, h);
    }
    LeftInverseInjective(p, p, |s|);
    ReindexedIsPermutation(s, FlippedV(s, w, h), p);
  }

  lemma {:induction false} FlippedHIsPermutation(s: seq<Color32>, w: nat, h: nat)
    requires |s| == w * h
    ensures multiset(FlippedH(s, w, h)) == multiset(s)
  {
    var p := k => if 0 <= k < w * h then FlipHorizontalSource(k, w, h) else 0;
    forall k | 0 <= k < w * h
      ensures 0 <= p(k) < w * h && p(p(k)) == k
    {
      FlipHorizontalSourceInvolution(k, w, h);
    }
    LeftInverseInjective(p, p, |s|);
    ReindexedIsPermutation(s, FlippedH(s, w, h), p);
  }

  lemma {:induction false} RotatedCWIsPermutation(s: seq<Color32>, w: nat, h: nat)
    requires |s| == w * h
    ensures multiset(RotatedCW(s, w, h)) == multiset(s)
  {
    var p := k => if 0 <= k < w * h then RotateCWSource(k, w, h) else 0;
    var q := k => if 0 <= k < h * w then RotateCCWSource(k, h, w) else 0;
    forall k | 0 <= k < w * h
      ensures 0 <= p(k) < w * h && q(p(k)) == k
    {
      RotateSourcesInverse(k, w, h);
    }
    LeftInverseInjective(p, q, |s|);
    ReindexedIsPermutation(s, RotatedCW(s, w, h), p);
  }

  lemma {:induction false} RotatedCCWIsPermutation(s: seq<Color32>, w: nat, h: nat)
    requires |s| == w * h
    ensures multiset(RotatedCCW(s, w, h)) == multiset(s)
  {
    var p := k => if 0 <= k < w * h then RotateCCWSource(k, w, h) else 0;
    var q := k => if 0 <= k < h * w then RotateCWSource(k, h, w) else 0;
    forall k | 0 <= k < w * h
      ensures 0 <= p(k) < w * h && q(p(k)) == k
    {
      RotateSourcesInverse(k, w, h);
    }
    LeftInverseInjective(p, q, |s|);
    ReindexedIsPermutation(s, RotatedCCW(s, w, h), p);
  }

  // ---------------------------------------------------------------------
  // The transforms as the source writes them: nested loops over arrays
  // ---------------------------------------------------------------------

  /** Copies input pixel (x, y) to (x, height-1-y), column by column. */
  method FlipVertical(colors: array<Color32>, width: nat, height: nat) returns (result: array<Color32>)
    requires width * height <= colors.Length
    ensures fresh(result)
    ensures result[..] == FlippedV(colors[..], width, height)
  {
    ghost var target := FlippedV(colors[..], width, height);
    result := new Color32[colors.Length](_ => Clear);
    for x := 0 to width
      invariant forall k :: 0 <= k < result.Length ==>
        result[k] == if FlipVerticalDone(k, width, height, x, 0) then target[k] else Clear
    {
      for y := 0 to height
        invariant forall k :: 0 <= k < result.Length ==>
          result[k] == if FlipVerticalDone(k, width, height, x, y) then target[k] else Clear
      {
        var j := x + (height - 1 - y) * width;
        FlippedVAt(colors[..], width, height, x, y);
        IndexCoordinates(x, height - 1 - y, width);
        result[j] := colors[x + y * width];
        forall k | 0 <= k < width * height && k != j
          ensures FlipVerticalDone(k, width, height, x, y + 1) == FlipVerticalDone(k, width, height, x, y)
        {
          Coordinates(k, width, height);
        }
      }
      forall k | 0 <= k < width * height
        ensures FlipVerticalDone(k, width, height, x, height) == FlipVerticalDone(k, width, height, x + 1, 0)
      {
        Coordinates(k, width, height);
      }
    }
    forall k | 0 <= k < width * height
      ensures FlipVerticalDone(k, width, height, width, 0)
    {
      Coordinates(k, width, height);
    }
    assert result[..] == target;
  }

  /**
    * Whether FlipVertical has written slot k once the column loop is at x
    * and the row loop at y: the slot's source column is below x, or it is
    * x and the slot's source row is below y.
    */
  ghost predicate FlipVerticalDone(k: int, w: int, h: int, x: int, y: int)
    requires 0 <= w && 0 <= h
  {
    0 <= k < w * h && w > 0 && (k % w < x || (k % w == x && h - 1 - k / w < y))
  }

  /** Copies input pixel (x, y) to (width-1-x, y), column by column. */
  method FlipHorizontal(colors: array<Color32>, width: nat, height: nat) returns (result: array<Color32>)
    requires width * height <= colors.Length
    ensures fresh(result)
    ensures result[..] == FlippedH(colors[..], width, height)
  {
    ghost var target := FlippedH(colors[..], width, height);
    result := new Color32[colors.Length](_ => Clear);
    for x := 0 to width
      invariant forall k :: 0 <= k < result.Length ==>
        result[k] == if FlipHorizontalDone(k, width, height, x, 0) then target[k] else Clear
    {
      for y := 0 to height
        invariant forall k :: 0 <= k < result.Length ==>
          result[k] == if FlipHorizontalDone(k, width, height, x, y) then target[k] else Clear
      {
        var j := (width - 1 - x) + y * width;
        FlippedHAt(colors[..], width, height, x, y);
        IndexCoordinates(width - 1 - x, y, width);
        result[j] := colors[x + y * width];
        forall k | 0 <= k < width * height && k != j
          ensures FlipHorizontalDone(k, width, height, x, y + 1) == FlipHorizontalDone(k, width, height, x, y)
        {
          Coordinates(k, width, height);
        }
      }
      forall k | 0 <= k < width * height
        ensures FlipHorizontalDone(k, width, height, x, height) == FlipHorizontalDone(k, width, height, x + 1, 0)
      {
        Coordinates(k, width, height);
      }
    }
    forall k | 0 <= k < width * height
      ensures FlipHorizontalDone(k, width, height, width, 0)
    {
      Coordinates(k, width, height);
    }
    assert result[..] == target;
  }

  /**
    * Whether FlipHorizontal has written slot k once the column loop is at x
    * and the row loop at y (the slot's source column is w-1-k%w).
    */
  ghost predicate FlipHorizontalDone(k: int, w: int, h: int, x: int, y: int)
    requires 0 <= w && 0 <= h
  {
    0 <= k < w * h && w > 0 && (w - 1 - k % w < x || (w - 1 - k % w == x && k / w < y))
  }

  /**
    * Rotates a width × height image a quarter turn clockwise into a
    * height × width image, writing the output in order through the running
    * index i: input columns from the last to the first, each read top to
    * bottom. (The source declares this method's parameters as
    * (colors, height, width) but its caller passes the image's width first;
    * here they are named for what they hold.)
    */
  method RotateCW(colors: array<Color32>, width: nat, height: nat) returns (result: array<Color32>)
    requires width * height <= colors.Length
    ensures fresh(result)
    ensures result[..] == RotatedCW(colors[..], width, height)
  {
    ghost var target := RotatedCW(colors[..], width, height);
    result := new Color32[colors.Length](_ => Clear);
    var i := 0;
    for x := width downto 0
      invariant i == (width - x) * height
      invariant forall k :: 0 <= k < result.Length ==> result[k] == if k < i then target[k] else Clear
    {
      for y := 0 to height
        invariant i == (width - 1 - x) * height + y
        invariant forall k :: 0 <= k < result.Length ==> result[k] == if k < i then target[k] else Clear
      {
        RotatedCWAt(colors[..], width, height, x, y);
        result[i] := colors[x + y * width];
        i := i + 1;
      }
    }
    assert result[..] == target;
  }

  /**
    * Rotates a width × height image a quarter turn counter-clockwise into a
    * height × width image, writing the output in order through the running
    * index i: input columns from the first to the last, each read bottom to
    * top.
    */
  method RotateCCW(colors: array<Color32>, width: nat, height: nat) returns (result: array<Color32>)
    requires width * height <= colors.Length
    ensures fresh(result)
    ensures result[..] == RotatedCCW(colors[..], width, height)
  {
    ghost var target := RotatedCCW(colors[..], width, height);
    result := new Color32[colors.Length](_ => Clear);
    var i := 0;
    for x := 0 to width
      invariant i == x * height
      invariant forall k :: 0 <= k < result.Length ==> result[k] == if k < i then target[k] else Clear
    {
      for y := height downto 0
        invariant i == x * height + (height - y)
        invariant forall k :: 0 <= k < result.Length ==> result[k] == if k < i then target[k] else Clear
      {
        RotatedCCWAt(colors[..], width, height, x, y);
        result[i] := colors[x + y * width];
        i := i + 1;
      }
    }
    assert result[..] == target;
  }
}
