/**
 * The sizing rule BaseVideoView.calcTextureLayout applies to its texture view:
 * letterbox the (possibly rotated) video into the parent, keeping its aspect ratio.
 * Java's `float` arithmetic is modelled over exact reals.
 */
module TextureLayout {
  import opened Optional

  /** The layout size (width, height) given to the texture view (android.graphics.Point). */
  datatype Size = Size(width: int, height: int)

  /** Java's `%` on `int`: the remainder of a division that truncates toward zero. */
  function JavaRem(a: int, b: int): (r: int)
    requires b > 0
    ensures a >= 0 ==> 0 <= r < b
    ensures a < 0 ==> -b < r <= 0
  {
    if a >= 0 then a % b else -((-a) % b)
  }

  /** Java's `/` on `int`: division truncating toward zero. */
  function JavaDiv(a: int, b: int): int
    requires b > 0
  {
    if a >= 0 then a / b else -((-a) / b)
  }

  /** Java's division identity: `(a / b) * b + a % b == a`. */
  lemma JavaDivRem(a: int, b: int)
    requires b > 0
    ensures b * JavaDiv(a, b) + JavaRem(a, b) == a
  {
    if a < 0 {
      var m := -a;
      assert m == b * (m / b) + m % b;
      assert b * -(m / b) == -(b * (m / b));
    } else {
      assert a == b * (a / b) + a % b;
    }
  }

  /** Java's `(int)` cast of a float: truncation toward zero (saturation at the int range is not modelled). */
  function TruncateToInt(x: real): (r: int)
    ensures x >= 0.0 ==> r as real <= x < r as real + 1.0
    ensures x < 0.0 ==> r as real - 1.0 < x <= r as real
  {
    if x >= 0.0 then x.Floor else -((-x).Floor)
  }

  /** Whether the rotation makes the layout swap the video's width and height. */
  predicate SwapsAxes(videoRotation: int) {
    JavaRem(JavaRem(videoRotation, 360), 180) == 90
  }

  /**
   * The video ratio `vr` of calcTextureLayout: width over height, with the two swapped when
   * the rotation, reduced with Java's remainder, is a quarter turn.
   */
  function VideoRatio(videoWidth: int, videoHeight: int, videoRotation: int): (vr: real)
    requires videoWidth > 0 && videoHeight > 0
    ensures vr > 0.0
    ensures SwapsAxes(videoRotation) ==> vr * videoWidth as real == videoHeight as real
    ensures !SwapsAxes(videoRotation) ==> vr * videoHeight as real == videoWidth as real
  {
    var rotation := JavaRem(videoRotation, 360);
    var vW := if JavaRem(rotation, 180) == 90 then videoHeight as real else videoWidth as real;
    var vH := if JavaRem(rotation, 180) == 90 then videoWidth as real else videoHeight as real;
    vW / vH
  }

  /** The screen ratio `sr` of calcTextureLayout: the parent's width over its height. */
  function ScreenRatio(parentWidth: int, parentHeight: int): (sr: real)
    requires parentHeight > 0
    ensures sr * parentHeight as real == parentWidth as real
  {
    parentWidth as real / parentHeight as real
  }

  /**
   * The texture view's size for a video of the given size and rotation inside a parent
   * of the given size, or None while either has not been measured.
   */
  function CalcTextureLayout(videoWidth: int, videoHeight: int, videoRotation: int,
                             parentWidth: int, parentHeight: int): (r: Option<Size>)
    ensures r.None? <==> videoWidth <= 0 || videoHeight <= 0 || parentWidth <= 0 || parentHeight <= 0
  {
    if videoWidth <= 0 || videoHeight <= 0 then None
    else if parentWidth <= 0 || parentHeight <= 0 then None
    else
      var vr := VideoRatio(videoWidth, videoHeight, videoRotation);
      var sr := ScreenRatio(parentWidth, parentHeight);
      if vr >= sr then
        Some(Size(parentWidth, TruncateToInt(parentWidth as real / vr + 0.5)))
      else
        Some(Size(TruncateToInt(parentHeight as real * vr + 0.5), parentHeight))
  }

  /**
   * A rotation swaps the axes exactly when it is non-negative and a quarter turn modulo a
   * half turn; a negative rotation never does, because Java's remainder keeps the sign.
   */
  lemma SwapsAxesIff(videoRotation: int)
    ensures SwapsAxes(videoRotation) <==> videoRotation >= 0 && videoRotation % 180 == 90
  {
    var r1 := JavaRem(videoRotation, 360);
    if videoRotation >= 0 {
      assert r1 == videoRotation % 360;
      assert videoRotation % 180 == r1 % 180 by {
        var q := videoRotation / 360;
        assert videoRotation == 360 * q + r1;
        assert videoRotation == 180 * (2 * q) + r1;
      }
    } else {
      assert r1 <= 0;
      assert JavaRem(r1, 180) <= 0;
    }
  }

  lemma SwapsAxesExamples()
    ensures SwapsAxes(90) && SwapsAxes(270) && SwapsAxes(450)
    ensures !SwapsAxes(0) && !SwapsAxes(180) && !SwapsAxes(-90) && !SwapsAxes(-270)
  {
  }

  /** A real rounded as `(int) (x + 0.5f)` lies within half a pixel of x. */
  lemma RoundedHalfUp(x: real)
    requires x >= 0.0
    ensures var n := TruncateToInt(x + 0.5); 0 <= n && x - 0.5 < n as real <= x + 0.5
  {
  }

  /**
   * With both sizes measured, the layout fills the parent along one axis, stays inside
   * it along the other, and keeps the video's aspect ratio to within half a pixel.
   */
  lemma LayoutFitsParent(videoWidth: int, videoHeight: int, videoRotation: int,
                         parentWidth: int, parentHeight: int)
    requires videoWidth > 0 && videoHeight > 0 && parentWidth > 0 && parentHeight > 0
    ensures var r := CalcTextureLayout(videoWidth, videoHeight, videoRotation, parentWidth, parentHeight);
            var vr := VideoRatio(videoWidth, videoHeight, videoRotation);
            && r.Some?
            && (vr >= ScreenRatio(parentWidth, parentHeight) ==>
                  && r.value.width == parentWidth
                  && 0 <= r.value.height <= parentHeight
                  && parentWidth as real / vr - 0.5 < r.value.height as real <= parentWidth as real / vr + 0.5)
            && (vr < ScreenRatio(parentWidth, parentHeight) ==>
                  && r.value.height == parentHeight
                  && 0 <= r.value.width <= parentWidth
                  && parentHeight as real * vr - 0.5 < r.value.width as real <= parentHeight as real * vr + 0.5)
  {
    var vr := VideoRatio(videoWidth, videoHeight, videoRotation);
    var pw, ph := parentWidth as real, parentHeight as real;
    if vr >= pw / ph {
      FitWidthBound(pw, ph, vr);
      RoundedHalfUp(pw / vr);
      var n := TruncateToInt(pw / vr + 0.5);
      assert n <= parentHeight by {
        assert n as real < ph + 1.0;
      }
    } else {
      FitHeightBound(pw, ph, vr);
      RoundedHalfUp(ph * vr);
      var n := TruncateToInt(ph * vr + 0.5);
      assert n <= parentWidth by {
        assert n as real < pw + 1.0;
      }
    }
  }

  lemma FitWidthBound(pw: real, ph: real, vr: real)
    requires pw > 0.0 && ph > 0.0 && vr > 0.0 && vr >= pw / ph
    ensures 0.0 < pw / vr <= ph
  {
    assert pw / ph * ph == pw;
    assert vr * ph >= pw;
  }

  lemma FitHeightBound(pw: real, ph: real, vr: real)
    requires pw > 0.0 && ph > 0.0 && vr > 0.0 && vr < pw / ph
    ensures 0.0 < ph * vr < pw
  {
    assert pw / ph * ph == pw;
  }

  /** A landscape 1920x1080 video in a 1080x1920 portrait parent fits the width: 1080x608. */
  lemma LandscapeInPortraitExample()
    ensures CalcTextureLayout(1920, 1080, 0, 1080, 1920) == Some(Size(1080, 608))
  {
    assert 1080.0 / (1920.0 / 1080.0) + 0.5 == 608.0;
  }

  /** The same video rotated a quarter turn has the parent's own ratio and fills it: 1080x1920. */
  lemma RotatedInPortraitExample()
    ensures CalcTextureLayout(1920, 1080, 90, 1080, 1920) == Some(Size(1080, 1920))
  {
    assert 1080.0 / (1080.0 / 1920.0) + 0.5 == 1920.5;
  }
}
