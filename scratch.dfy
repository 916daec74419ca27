/**
 * The scratch surface of one card (ScratchCard.js): a pointer state machine
 * over `isScratching`, `lastPoint` and `scratchedPixels`, and the coverage
 * gate that decides when the card is revealed.  The canvas drawing itself is
 * abstracted away: after each brush stroke the model is handed the RGBA byte
 * buffer that `getImageData` would return.
 */
module Scratch {
  import opened Wrappers

  /** The canvas is declared 200 by 200 pixels. */
  const Width: nat := 200
  const Height: nat := 200

  /** The share of the surface, in percent, above which the card is revealed. */
  const RevealPercent: real := 40.0

  datatype Point = Point(x: real, y: real)

  /** `data.filter(x => x === 0).length`: the number of zero bytes of the buffer. */
  function ZeroBytes(data: seq<int>): (n: nat)
    ensures n <= |data|
    ensures n == |data| <==> forall k :: 0 <= k < |data| ==> data[k] == 0
  {
    if |data| == 0 then 0
    else ZeroBytes(data[1..]) + (if data[0] == 0 then 1 else 0)
  }

  /**
   * `(zeros / 4) / pixels * 100`: the scratched share in percent.  Every
   * zero byte counts as a quarter pixel, whichever channel it sits in.
   */
  function Percent(zeros: nat, pixels: nat): real
    requires pixels > 0
  {
    ((zeros as real / 4.0) / (pixels as real)) * 100.0
  }

  /** The scratched share of a w by h RGBA buffer, in percent. */
  function Coverage(data: seq<int>, w: nat, h: nat): (c: real)
    requires w > 0 && h > 0 && |data| == 4 * w * h
    ensures 0.0 <= c <= 100.0
  {
    CoverageBounded(ZeroBytes(data), w * h);
    Percent(ZeroBytes(data), w * h)
  }

  lemma CoverageBounded(zeros: nat, pixels: nat)
    requires pixels > 0 && zeros <= 4 * pixels
    ensures 0.0 <= Percent(zeros, pixels) <= 100.0
  {
    var p := pixels as real;
    var q := zeros as real / 4.0;
    assert q <= p;
    assert q / p <= 1.0 by {
      assert (q / p) * p == q;
    }
  }

  /**
   * The reveal gate stated in integers: the coverage exceeds 40 percent
   * exactly when 25 times the zero-byte count exceeds 40 times the pixel count.
   */
  lemma RevealThresholdInIntegers(data: seq<int>, w: nat, h: nat)
    requires w > 0 && h > 0 && |data| == 4 * w * h
    ensures Coverage(data, w, h) > RevealPercent <==> 25 * ZeroBytes(data) > 40 * (w * h)
  {
    ThresholdScaled(ZeroBytes(data), w * h);
  }

  lemma ThresholdScaled(zeros: nat, pixels: nat)
    requires pixels > 0
    ensures Percent(zeros, pixels) > RevealPercent <==> 25 * zeros > 40 * pixels
  {
    var p := pixels as real;
    var c := Percent(zeros, pixels);
    assert c * p == 25.0 * (zeros as real);
    assert c > RevealPercent <==> c * p > RevealPercent * p;
  }

  /** Whether a scratch over `data` calls `onReveal`. */
  function Fires(data: seq<int>, revealed: bool): (b: bool)
    requires |data| == 4 * Width * Height
    ensures b <==> !revealed && 25 * ZeroBytes(data) > 40 * (Width * Height)
  {
    RevealThresholdInIntegers(data, Width, Height);
    Coverage(data, Width, Height) > RevealPercent && !revealed
  }

  /**
   * The gate counts zero bytes, not transparent pixels: one opaque black pixel
   * reads as 75 percent scratched, one fully transparent white pixel as 25.
   */
  lemma CountsZeroBytesNotTransparentPixels()
    ensures Coverage([0, 0, 0, 255], 1, 1) == 75.0
    ensures Coverage([255, 255, 255, 0], 1, 1) == 25.0
  {
    assert ZeroBytes([0, 0, 0, 255]) == 3 by {
      assert [0, 0, 0, 255][1..] == [0, 0, 255];
      assert [0, 0, 255][1..] == [0, 255];
      assert [0, 255][1..] == [255];
      assert [255][1..] == [];
    }
    assert ZeroBytes([255, 255, 255, 0]) == 1 by {
      assert [255, 255, 255, 0][1..] == [255, 255, 0];
      assert [255, 255, 0][1..] == [255, 0];
      assert [255, 0][1..] == [0];
      assert [0][1..] == [];
    }
  }

  /** The component's state. */
  class ScratchSurface {
    var isScratching: bool
    var lastPoint: Option<Point>
    var scratchedPixels: real

    constructor ()
      ensures !isScratching && lastPoint == None && scratchedPixels == 0.0
    {
      isScratching := false;
      lastPoint := None;
      scratchedPixels := 0.0;
    }

    /** Mouse down or touch start. */
    method HandleStart()
      modifies this
      ensures isScratching && lastPoint == None
      ensures scratchedPixels == old(scratchedPixels)
    {
      isScratching := true;
      lastPoint := None;
    }

    /** Mouse up, mouse leave or touch end. */
    method HandleEnd()
      modifies this
      ensures !isScratching && lastPoint == None
      ensures scratchedPixels == old(scratchedPixels)
    {
      isScratching := false;
      lastPoint := None;
    }

    /**
     * A pointer move at (clientX, clientY) over a canvas whose box starts at
     * (rectLeft, rectTop); `image` is the buffer after the brush stroke.
     * `fire` reports whether `onReveal` is called.
     */
    method Scratch(clientX: real, clientY: real, rectLeft: real, rectTop: real,
                   image: seq<int>, revealed: bool) returns (fire: bool)
      requires |image| == 4 * Width * Height
      modifies this
      ensures !old(isScratching) ==>
        !fire && lastPoint == old(lastPoint) && scratchedPixels == old(scratchedPixels)
      ensures old(isScratching) ==>
        lastPoint == Some(Point(clientX - rectLeft, clientY - rectTop)) &&
        scratchedPixels == Coverage(image, Width, Height) &&
        fire == Fires(image, revealed)
      ensures isScratching == old(isScratching)
    {
      if !isScratching {
        return false;
      }
      var x := clientX - rectLeft;
      var y := clientY - rectTop;
      lastPoint := Some(Point(x, y));
      var scratched := ZeroBytes(image) as real / 4.0;
      var percentage := (scratched / ((Width * Height) as real)) * 100.0;
      scratchedPixels := percentage;
      fire := percentage > RevealPercent && !revealed;
    }
  }
}
