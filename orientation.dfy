/**
  * RotateAndFlip: which rotation and mirroring WebCamManager applies to a
  * camera frame, and the buffer that results.
  *
  * The source keeps the mirroring as one integer, flipCode: int.MinValue for
  * none, 0 for vertical, 1 for horizontal, -1 for both. That integer logic
  * is modelled here as written (DeviceFlipCode, ToggleVerticalCode,
  * ToggleHorizontalCode, FlipCode) and, beside it, as two independent flags
  * (Flip, DeviceFlip, Toggle, Decide). Code maps the flags to the integer,
  * and the lemmas show that both descriptions agree and that the user's
  * settings act as exclusive-or on the flags.
  */
module Orientation {
  import opened Pixels
  import opened Transforms
  import opened Permutations

  /** int.MinValue, the source's "no flip" code. */
  const IntMinValue: int := -0x8000_0000

  // ---------------------------------------------------------------------
  // The flip code as the source computes it
  // ---------------------------------------------------------------------

  /** The code derived from the camera alone, branch for branch. */
  function DeviceFlipCode(isFrontFacing: bool, videoRotationAngle: int): (code: int)
    ensures code in {IntMinValue, 0, 1, -1}
    ensures code != IntMinValue ==> videoRotationAngle in {0, 90, 180, 270}
    ensures code == -1 ==> !isFrontFacing
  {
    if isFrontFacing then
      var code := if videoRotationAngle == 0 then 1
                  else if videoRotationAngle == 90 then 1
                  else IntMinValue;
      if videoRotationAngle == 180 then 0
      else if videoRotationAngle == 270 then 0
      else code
    else
      if videoRotationAngle == 180 then -1
      else if videoRotationAngle == 270 then -1
      else IntMinValue
  }

  /** The effect of a set `flipVertical` on the code. */
  function ToggleVerticalCode(code: int): (r: int)
    ensures (r in {IntMinValue, 0, 1, -1}) <==> (code in {IntMinValue, 0, 1, -1})
    ensures r == code <==> code !in {IntMinValue, 0, 1, -1}
  {
    if code == IntMinValue then 0
    else if code == 0 then IntMinValue
    else if code == 1 then -1
    else if code == -1 then 1
    else code
  }

  /** The effect of a set `flipHorizontal` on the code. */
  function ToggleHorizontalCode(code: int): (r: int)
    ensures (r in {IntMinValue, 0, 1, -1}) <==> (code in {IntMinValue, 0, 1, -1})
    ensures r == code <==> code !in {IntMinValue, 0, 1, -1}
  {
    if code == IntMinValue then 1
    else if code == 0 then -1
    else if code == 1 then IntMinValue
    else if code == -1 then 0
    else code
  }

  /** The code RotateAndFlip ends up with: camera first, then the user's settings. */
  function FlipCode(isFrontFacing: bool, videoRotationAngle: int, flipVertical: bool, flipHorizontal: bool): (code: int)
    ensures code in {IntMinValue, 0, 1, -1}
    ensures !flipVertical && !flipHorizontal ==> code == DeviceFlipCode(isFrontFacing, videoRotationAngle)
  {
    var code := DeviceFlipCode(isFrontFacing, videoRotationAngle);
    var code := if flipVertical then ToggleVerticalCode(code) else code;
    if flipHorizontal then ToggleHorizontalCode(code) else code
  }

  // ---------------------------------------------------------------------
  // The same decision as two flags
  // ---------------------------------------------------------------------

  datatype Flip = Flip(vertical: bool, horizontal: bool)

  const NoFlip: Flip := Flip(false, false)

  /** The integer the source uses for a pair of flags. */
  function Code(f: Flip): (code: int)
    ensures code in {IntMinValue, 0, 1, -1}
    ensures (code == IntMinValue) == (f == NoFlip)
  {
    match f
    case Flip(false, false) => IntMinValue
    case Flip(true, false) => 0
    case Flip(false, true) => 1
    case Flip(true, true) => -1
  }

  /**
    * The camera's own mirroring: the vertical flag exactly for angles 180
    * and 270; the horizontal flag for a front camera at 0 or 90 and for a
    * back camera at 180 or 270. Every other angle gives no flip.
    */
  function DeviceFlip(isFrontFacing: bool, videoRotationAngle: int): (f: Flip)
    ensures f.vertical <==> videoRotationAngle == 180 || videoRotationAngle == 270
    ensures f.horizontal <==>
      if isFrontFacing then videoRotationAngle == 0 || videoRotationAngle == 90
      else videoRotationAngle == 180 || videoRotationAngle == 270
  {
    var upsideDown := videoRotationAngle == 180 || videoRotationAngle == 270;
    var upright := videoRotationAngle == 0 || videoRotationAngle == 90;
    if isFrontFacing && upright then Flip(false, true)
    else if isFrontFacing && upsideDown then Flip(true, false)
    else if !isFrontFacing && upsideDown then Flip(true, true)
    else NoFlip
  }

  /** Each set user flag inverts its own flag and leaves the other alone. */
  function Toggle(f: Flip, vertical: bool, horizontal: bool): (r: Flip)
    ensures r == f <==> !vertical && !horizontal
    ensures r.vertical == f.vertical <==> !vertical
    ensures r.horizontal == f.horizontal <==> !horizontal
  {
    Flip(f.vertical != vertical, f.horizontal != horizontal)
  }

  /** The mirroring RotateAndFlip applies. */
  function Decide(isFrontFacing: bool, videoRotationAngle: int, flipVertical: bool, flipHorizontal: bool): (f: Flip)
    ensures !flipVertical && !flipHorizontal ==> f == DeviceFlip(isFrontFacing, videoRotationAngle)
    ensures f.vertical <==> ((videoRotationAngle == 180 || videoRotationAngle == 270) != flipVertical)
    ensures f.horizontal <==> (DeviceFlip(isFrontFacing, videoRotationAngle).horizontal != flipHorizontal)
  {
    Toggle(DeviceFlip(isFrontFacing, videoRotationAngle), flipVertical, flipHorizontal)
  }

  // ---------------------------------------------------------------------
  // The two descriptions agree
  // ---------------------------------------------------------------------

  /** Code is one-to-one onto the four values the source uses. */
  lemma CodeIsOneToOne(f: Flip, g: Flip)
    ensures Code(f) in {IntMinValue, 0, 1, -1}
    ensures Code(f) == Code(g) ==> f == g
    ensures Code(f) > IntMinValue <==> f != NoFlip
  {
  }

  /** The decision table of lines 373-404 is DeviceFlip. */
  lemma DeviceFlipCodeIsDeviceFlip(isFrontFacing: bool, videoRotationAngle: int)
    ensures DeviceFlipCode(isFrontFacing, videoRotationAngle) == Code(DeviceFlip(isFrontFacing, videoRotationAngle))
  {
  }

  /** A set flipVertical toggles exactly the vertical flag: none↔0 and 1↔-1. */
  lemma ToggleVerticalCodeIsToggle(f: Flip)
    ensures ToggleVerticalCode(Code(f)) == Code(Toggle(f, true, false))
  {
  }

  /** A set flipHorizontal toggles exactly the horizontal flag: none↔1 and 0↔-1. */
  lemma ToggleHorizontalCodeIsToggle(f: Flip)
    ensures ToggleHorizontalCode(Code(f)) == Code(Toggle(f, false, true))
  {
  }

  /** The integer code RotateAndFlip computes encodes Decide. */
  lemma FlipCodeIsDecide(isFrontFacing: bool, videoRotationAngle: int, flipVertical: bool, flipHorizontal: bool)
    ensures FlipCode(isFrontFacing, videoRotationAngle, flipVertical, flipHorizontal)
         == Code(Decide(isFrontFacing, videoRotationAngle, flipVertical, flipHorizontal))
  {
    var f := DeviceFlip(isFrontFacing, videoRotationAngle);
    DeviceFlipCodeIsDeviceFlip(isFrontFacing, videoRotationAngle);
    ToggleVerticalCodeIsToggle(f);
    ToggleHorizontalCodeIsToggle(Toggle(f, flipVertical, false));
  }

  /**
    * The code toggles form the four-element group: each is its own inverse
    * and the two commute, on every value the code can take.
    */
  lemma CodeTogglesCommuteAndCancel(code: int)
    requires code in {IntMinValue, 0, 1, -1}
    ensures ToggleVerticalCode(ToggleVerticalCode(code)) == code
    ensures ToggleHorizontalCode(ToggleHorizontalCode(code)) == code
    ensures ToggleVerticalCode(ToggleHorizontalCode(code)) == ToggleHorizontalCode(ToggleVerticalCode(code))
  {
  }

  /** Toggling twice composes by exclusive-or; in particular it cancels and commutes. */
  lemma ToggleComposes(f: Flip, v1: bool, h1: bool, v2: bool, h2: bool)
    ensures Toggle(Toggle(f, v1, h1), v2, h2) == Toggle(f, v1 != v2, h1 != h2)
    ensures Toggle(Toggle(f, v1, h1), v1, h1) == f
    ensures Toggle(Toggle(f, v1, h1), v2, h2) == Toggle(Toggle(f, v2, h2), v1, h1)
  {
  }

  // ---------------------------------------------------------------------
  // Applying a plan to a buffer
  // ---------------------------------------------------------------------

  /** The flip passes for `flip` on a w × h image: vertical before horizontal, none for NoFlip. */
  function ApplyFlip(t: seq<Color32>, w: nat, h: nat, flip: Flip): (r: seq<Color32>)
    requires w * h <= |t|
    ensures |r| == |t|
  {
    if flip.vertical && flip.horizontal then FlippedH(FlippedV(t, w, h), w, h)
    else if flip.vertical then FlippedV(t, w, h)
    else if flip.horizontal then FlippedH(t, w, h)
    else t
  }

  /**
    * The buffer RotateAndFlip returns: the quarter turn first, then the
    * flips on the dimensions after the turn (height × width when rotated).
    */
  function Oriented(s: seq<Color32>, width: nat, height: nat, rotate: bool, flip: Flip): (r: seq<Color32>)
    requires width * height <= |s|
    ensures |r| == |s|
  {
    if rotate then ApplyFlip(RotatedCW(s, width, height), height, width, flip)
    else ApplyFlip(s, width, height, flip)
  }

  /** Undoes Oriented: the same flips again, then a counter-clockwise turn. */
  function Restored(r: seq<Color32>, width: nat, height: nat, rotate: bool, flip: Flip): (s: seq<Color32>)
    requires width * height <= |r|
    ensures |s| == |r|
  {
    if rotate then RotatedCCW(ApplyFlip(r, height, width, flip), height, width)
    else ApplyFlip(r, width, height, flip)
  }

  /** Applying flip passes for f and then for g is applying them for f toggled by g. */
  lemma {:induction false} ApplyFlipComposes(t: seq<Color32>, w: nat, h: nat, f: Flip, g: Flip)
    requires |t| == w * h
    ensures ApplyFlip(ApplyFlip(t, w, h, f), w, h, g) == ApplyFlip(t, w, h, Toggle(f, g.vertical, g.horizontal))
  {
    var v := FlippedV(t, w, h);
    FlipVerticalInvolution(t, w, h);
    FlipHorizontalInvolution(t, w, h);
    FlipHorizontalInvolution(v, w, h);
    FlipsCommute(t, w, h);
    FlipsCommute(v, w, h);
    FlipVerticalInvolution(FlippedH(t, w, h), w, h);
  }

  /** The flip passes of one plan undo themselves. */
  lemma {:induction false} ApplyFlipInvolution(t: seq<Color32>, w: nat, h: nat, f: Flip)
    requires |t| == w * h
    ensures ApplyFlip(ApplyFlip(t, w, h, f), w, h, f) == t
  {
    ApplyFlipComposes(t, w, h, f, f);
  }

  /** RotateAndFlip loses no information: Restored gives the frame back. */
  lemma {:induction false} OrientedRestores(s: seq<Color32>, width: nat, height: nat, rotate: bool, flip: Flip)
    requires |s| == width * height
    ensures Restored(Oriented(s, width, height, rotate, flip), width, height, rotate, flip) == s
  {
    if rotate {
      ApplyFlipInvolution(RotatedCW(s, width, height), height, width, flip);
      RotateCCWUndoesCW(s, width, height);
    } else {
      ApplyFlipInvolution(s, width, height, flip);
    }
  }

  /** The flip passes only rearrange the pixels of a w × h image. */
  lemma {:induction false} ApplyFlipIsPermutation(t: seq<Color32>, w: nat, h: nat, f: Flip)
    requires |t| == w * h
    ensures multiset(ApplyFlip(t, w, h, f)) == multiset(t)
  {
    if f.vertical {
      FlippedVIsPermutation(t, w, h);
      if f.horizontal {
        FlippedHIsPermutation(FlippedV(t, w, h), w, h);
      }
    } else if f.horizontal {
      FlippedHIsPermutation(t, w, h);
    }
  }

  /** RotateAndFlip only rearranges the pixels of a width × height frame. */
  lemma {:induction false} OrientedIsPermutation(s: seq<Color32>, width: nat, height: nat, rotate: bool, flip: Flip)
    requires |s| == width * height
    ensures multiset(Oriented(s, width, height, rotate, flip)) == multiset(s)
  {
    if rotate {
      RotatedCWIsPermutation(s, width, height);
      ApplyFlipIsPermutation(RotatedCW(s, width, height), height, width, flip);
    } else {
      ApplyFlipIsPermutation(s, width, height, flip);
    }
  }

  /**
    * A rotated frame from a back camera at 180 or 270 degrees (both flips,
    * no user flags) comes out turned a quarter counter-clockwise.
    */
  lemma {:induction false} RotatedBackCameraUpsideDown(s: seq<Color32>, width: nat, height: nat, videoRotationAngle: int)
    requires width * height <= |s|
    requires videoRotationAngle == 180 || videoRotationAngle == 270
    ensures Oriented(s, width, height, true, Decide(false, videoRotationAngle, false, false)) == RotatedCCW(s, width, height)
  {
    QuarterTurnThenBothFlips(s, width, height);
  }

  // ---------------------------------------------------------------------
  // RotateAndFlip as the source writes it
  // ---------------------------------------------------------------------

  /**
    * Rotates the frame a quarter turn clockwise when rotate90Degree is set,
    * then flips it by the code derived from the camera and the user's
    * settings, on the swapped dimensions when rotated. With no rotation and
    * no flip the input array itself is returned.
    */
  method RotateAndFlip(colors: array<Color32>, width: nat, height: nat, rotate90Degree: bool,
                       isFrontFacing: bool, videoRotationAngle: int, flipVertical: bool, flipHorizontal: bool)
    returns (result: array<Color32>)
    requires width * height <= colors.Length
    ensures result == colors || fresh(result)
    ensures result.Length == colors.Length
    ensures result[..] == Oriented(colors[..], width, height, rotate90Degree,
                                   Decide(isFrontFacing, videoRotationAngle, flipVertical, flipHorizontal))
    ensures !rotate90Degree && Decide(isFrontFacing, videoRotationAngle, flipVertical, flipHorizontal) == NoFlip
            ==> result == colors
    ensures rotate90Degree || Decide(isFrontFacing, videoRotationAngle, flipVertical, flipHorizontal) != NoFlip
            ==> fresh(result)
  {
    result := colors;
    if rotate90Degree {
      result := RotateCW(result, width, height);
    }
    ghost var turned := result[..];
    var flipCode := FlipCode(isFrontFacing, videoRotationAngle, flipVertical, flipHorizontal);
    ghost var flip := Decide(isFrontFacing, videoRotationAngle, flipVertical, flipHorizontal);
    FlipCodeIsDecide(isFrontFacing, videoRotationAngle, flipVertical, flipHorizontal);
    CodeIsOneToOne(flip, flip);
    var w, h := width, height;
    if rotate90Degree {
      w, h := height, width;
    }
    if flipCode > IntMinValue {
      if flipCode == 0 {
        result := FlipVertical(result, w, h);
      } else if flipCode == 1 {
        result := FlipHorizontal(result, w, h);
      } else if flipCode < 0 {
        result := FlipVertical(result, w, h);
        result := FlipHorizontal(result, w, h);
      }
    }
    assert result[..] == ApplyFlip(turned, w, h, flip);
  }
}
