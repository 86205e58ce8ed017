/** Derivation of the rescaler's fixed-point parameters from the source and
    destination extents (WebPRescalerInit), and the inference of a missing
    destination dimension (WebPRescalerGetScaledDimensions). */
module RescalerParams {
  import opened CInt

  /** WEBP_RESCALER_ONE: 1.0 in the rescaler's 32.32 fixed-point format. It
      does not fit in `uint32_t`. */
  const ONE: int := 0x1_0000_0000

  /** WEBP_RESCALER_FRAC(x, y): the fraction x / y in units of ONE, cast to
      `uint32_t`. The reciprocal 1 / y fits for y >= 2; 1 / 1 is ONE, which
      the cast wraps to 0. */
  function Frac(x: int, y: int): (r: int)
    requires y > 0
    ensures 0 <= r < TWO_32
    ensures x == 1 && y >= 2 ==> r == ONE / y
    ensures x == 1 && y == 1 ==> r == 0
  {
    assert ToU64(ONE) == ONE;
    assert x == 1 && y >= 2 ==> ONE / y < TWO_32 by {
      if x == 1 && y >= 2 {
        var q := ONE / y;
        assert q * y <= ONE;
        MulMonotone(2, y, q);
      }
    }
    ToU32(ToU64(x * ONE) / y)
  }

  /** The scaling step pair of one axis: whether it expands, and the amounts
      `add` and `sub` by which its accumulator moves. */
  datatype AxisScale = AxisScale(expand: bool, add: int, sub: int)

  /** The horizontal rule of WebPRescalerInit: an expanding axis interpolates
      between two source samples and steps by (dstWidth - 1, srcWidth - 1); a
      shrinking (or same-size) axis box-filters with (srcWidth, dstWidth). */
  function XAxis(srcWidth: int, dstWidth: int): (x: AxisScale)
    requires srcWidth >= 1 && dstWidth >= 1
    ensures x.expand <==> srcWidth < dstWidth
    ensures x.expand ==> x.add == dstWidth - 1 && x.sub == srcWidth - 1
    ensures !x.expand ==> x.add == srcWidth && x.sub == dstWidth
  {
    var expand := srcWidth < dstWidth;
    AxisScale(expand, if expand then dstWidth - 1 else srcWidth, if expand then srcWidth - 1 else dstWidth)
  }

  /** The vertical rule of WebPRescalerInit. Unlike the horizontal one, an
      expanding axis steps by (srcHeight - 1, dstHeight - 1); a shrinking (or
      same-size) axis uses (srcHeight, dstHeight) like the horizontal one. */
  function YAxis(srcHeight: int, dstHeight: int): (y: AxisScale)
    requires srcHeight >= 1 && dstHeight >= 1
    ensures y.expand <==> srcHeight < dstHeight
    ensures y.expand ==> y.add == srcHeight - 1 && y.sub == dstHeight - 1
    ensures !y.expand ==> y.add == srcHeight && y.sub == dstHeight
  {
    var expand := srcHeight < dstHeight;
    AxisScale(expand, if expand then srcHeight - 1 else srcHeight, if expand then dstHeight - 1 else dstHeight)
  }

  /** The horizontal steps: `add` is positive, so the vertical-expand
      reciprocal Frac(1, xAdd) and the fxy_scale denominator are defined;
      `sub` is zero only when a single source column is expanded. */
  lemma XAxisSteps(srcWidth: int, dstWidth: int)
    requires srcWidth >= 1 && dstWidth >= 1
    ensures var x := XAxis(srcWidth, dstWidth);
      && x.add >= 1
      && x.sub >= 0
      && (x.sub == 0 <==> x.expand && srcWidth == 1)
      && (x.expand ==> x.sub < x.add)
      && (!x.expand ==> 1 <= x.sub <= x.add)
      && (x.add == 1 <==> srcWidth == 1 && dstWidth <= 2)
  {
  }

  /** The initial vertical accumulator of WebPRescalerInit. */
  function InitialAccum(y: AxisScale): (r: int)
    ensures y.expand ==> r == y.sub
    ensures !y.expand ==> r == y.add
    ensures y.sub >= 1 && y.add >= 1 ==> r >= 1
  {
    if y.expand then y.sub else y.add
  }

  /** The vertical steps are what the scheduler needs: `sub` is positive (so
      the needed-lines division is defined), `add` is not negative, and the
      initial accumulator is positive, so no row is pending after Init. `add`
      is zero exactly when a single source row is expanded: then the
      accumulator alone cannot end a drain. */
  lemma YAxisSteps(srcHeight: int, dstHeight: int)
    requires srcHeight >= 1 && dstHeight >= 1
    ensures var y := YAxis(srcHeight, dstHeight);
      && y.sub >= 1
      && y.add >= 0
      && (y.expand ==> y.add < y.sub)
      && (!y.expand ==> 1 <= y.sub <= y.add)
      && InitialAccum(y) >= 1
      && (y.add == 0 <==> srcHeight == 1 < dstHeight)
  {
  }

  /** `fxy_scale` of WebPRescalerInit for a shrinking vertical axis:
      dstHeight / (xAdd * yAdd) in units of ONE, computed in 64 bits; 0 is the
      sentinel for a ratio that does not fit in 32 bits. The products cannot
      wrap: dstHeight * ONE < 2^63 and xAdd * yAdd < 2^62 for 32-bit extents. */
  function FxyScale(dstHeight: int, xAdd: int, yAdd: int): (f: int)
    requires 1 <= dstHeight <= yAdd && xAdd >= 1
    ensures 0 <= f < TWO_32
    ensures f == 0 <==> (xAdd == 1 && yAdd == dstHeight) || xAdd * yAdd > dstHeight * ONE
    ensures f != 0 ==> f == dstHeight * ONE / (xAdd * yAdd)
  {
    var num := dstHeight * ONE;
    var den := xAdd * yAdd;
    var ratio := num / den;
    RatioAtMostOne(dstHeight, xAdd, yAdd);
    if ratio != ToU32(ratio) then 0 else ratio
  }

  /** The 64-bit ratio never exceeds ONE, equals ONE exactly in the case the
      comment in WebPRescalerInit names, and is 0 exactly when the denominator exceeds the numerator. */
  lemma RatioAtMostOne(dstHeight: int, xAdd: int, yAdd: int)
    requires 1 <= dstHeight <= yAdd && xAdd >= 1
    ensures var ratio := dstHeight * ONE / (xAdd * yAdd);
      && 0 <= ratio <= ONE
      && (ratio == ONE <==> xAdd == 1 && yAdd == dstHeight)
      && (ratio == 0 <==> xAdd * yAdd > dstHeight * ONE)
  {
    var num := dstHeight * ONE;
    var den := xAdd * yAdd;
    var ratio := num / den;
    assert den >= yAdd >= dstHeight by {
      MulMonotone(1, xAdd, yAdd);
    }
    assert ratio * den <= num < ratio * den + den;
    MulMonotone(ONE + 1, ratio, den);
    if den == dstHeight {
      assert xAdd == 1 by {
        MulMonotone(2, xAdd, yAdd);
      }
      DivIsUnique(num, den, ONE);
    } else {
      assert ONE * den > num by {
        assert ONE * den == ONE * dstHeight + ONE * (den - dstHeight);
      }
      MulMonotone(ONE, ratio, den);
      assert xAdd == 1 ==> yAdd != dstHeight;
    }
    if den > num {
      DivIsUnique(num, den, 0);
    }
    MulMonotone(1, ratio, den);
  }

  /** The sentinel stated on the image extents: with a shrinking vertical
      axis, fxy_scale is 0 exactly when the source is one column wide, the
      destination at most two, the heights agree, or the source has more than
      dstHeight * 2^32 samples per destination row. */
  lemma FxySentinel(srcWidth: int, srcHeight: int, dstWidth: int, dstHeight: int)
    requires srcWidth >= 1 && srcHeight >= 1 && dstWidth >= 1 && dstHeight >= 1
    requires !YAxis(srcHeight, dstHeight).expand
    ensures var x, y := XAxis(srcWidth, dstWidth), YAxis(srcHeight, dstHeight);
      FxyScale(dstHeight, x.add, y.add) == 0 <==>
        (srcWidth == 1 && dstWidth <= 2 && srcHeight == dstHeight) || x.add * y.add > dstHeight * ONE
  {
  }

  /** For extents below 2^16 the huge-source case cannot arise, so the
      sentinel is exactly the case documented beside it in the source: the
      ratio equals ONE because yAdd == srcHeight == dstHeight and xAdd == 1. */
  lemma FxySentinelForModestSizes(srcWidth: int, srcHeight: int, dstWidth: int, dstHeight: int)
    requires 1 <= srcWidth < 0x1_0000 && 1 <= srcHeight < 0x1_0000
    requires 1 <= dstWidth < 0x1_0000 && 1 <= dstHeight <= srcHeight
    ensures var x, y := XAxis(srcWidth, dstWidth), YAxis(srcHeight, dstHeight);
      (FxyScale(dstHeight, x.add, y.add) == 0 <==> x.add == 1 && srcHeight == dstHeight)
      && (FxyScale(dstHeight, x.add, y.add) != 0 ==>
            FxyScale(dstHeight, x.add, y.add) == dstHeight * ONE / (x.add * y.add))
  {
    var x, y := XAxis(srcWidth, dstWidth), YAxis(srcHeight, dstHeight);
    assert x.add * y.add < 0x1_0000 * 0x1_0000 by {
      MulMonotone(x.add, 0xFFFF, y.add);
      MulMonotone(y.add, 0xFFFF, 0xFFFF);
    }
    MulMonotone(1, dstHeight, ONE);
  }

  /** The example of a shrink/same case the sentinel covers. */
  lemma FxySentinelExample()
    ensures XAxis(1, 1).add == 1 && YAxis(4, 4).add == 4
    ensures FxyScale(4, XAxis(1, 1).add, YAxis(4, 4).add) == 0
  {
    RatioAtMostOne(4, 1, 4);
  }

  /** `(int)(((uint64_t)a * b + c - 1) / c)` for a positive `int` c: a
      ceiling division on 64-bit unsigned intermediates, truncated to `int`. */
  function CeilScale(a: Int32, b: Int32, c: Int32): (r: Int32)
    requires c > 0
    ensures a == 0 || b == 0 ==> r == 0
  {
    var n := ToU64(ToU64(a) * ToU64(b) + c - 1);
    assert a == 0 || b == 0 ==> n / c == 0 by {
      if a == 0 || b == 0 {
        assert ToU64(a) == 0 || ToU64(b) == 0;
        assert ToU64(a) * ToU64(b) == 0;
        assert n == c - 1;
        DivIsUnique(c - 1, c, 0);
      }
    }
    ToInt32(n / c)
  }

  /** When the exact ceiling fits in `int`, CeilScale is that ceiling: the
      least `r` with `r * c >= a * b`. */
  lemma CeilScaleExact(a: Int32, b: Int32, c: Int32)
    requires a >= 0 && b >= 0 && c > 0
    requires a * b <= (TWO_31 - 1) * c
    ensures CeilScale(a, b, c) >= 0
    ensures CeilScale(a, b, c) * c >= a * b
    ensures (CeilScale(a, b, c) - 1) * c < a * b
  {
    var p := a * b;
    assert 0 <= p < TWO_31 * TWO_31 by {
      MulMonotone(a, TWO_31, b);
      MulMonotone(b, TWO_31, TWO_31);
      MulMonotone(0, a, b);
    }
    var n := p + c - 1;
    assert ToU64(a) == a && ToU64(b) == b;
    assert 0 <= n < TWO_64;
    assert ToU64(ToU64(a) * ToU64(b) + c - 1) == n;
    var q := n / c;
    assert q * c <= n < q * c + c;
    assert q < TWO_31 by {
      MulMonotone(TWO_31, q, c);
    }
    assert 0 <= q by {
      MulMonotone(q, -1, c);
    }
    assert CeilScale(a, b, c) == q;
  }

  /** WebPRescalerGetScaledDimensions: a zero width is inferred from the
      height, then a zero height from the (possibly inferred) width, each only
      when the source extent divided by is positive. `Some((w, h))` is the pair
      written to `*scaled_width` / `*scaled_height` with status 1; `None` is
      status 0, with both outputs left as they were. */
  function ScaledDimensions(srcWidth: Int32, srcHeight: Int32, scaledWidth: Int32, scaledHeight: Int32)
    : (res: Option<(Int32, Int32)>)
    ensures res.Some? ==> res.value.0 > 0 && res.value.1 > 0
    ensures res.Some? && scaledWidth != 0 ==> res.value.0 == scaledWidth
    ensures res.Some? && scaledHeight != 0 ==> res.value.1 == scaledHeight
    ensures scaledWidth > 0 && scaledHeight > 0 ==> res == Some((scaledWidth, scaledHeight))
    ensures scaledWidth < 0 || scaledHeight < 0 ==> res.None?
    ensures scaledWidth == 0 && (srcHeight <= 0 || srcWidth == 0) ==> res.None?
    ensures scaledHeight == 0 && (srcWidth <= 0 || srcHeight == 0) ==> res.None?
  {
    var width := if scaledWidth == 0 && srcHeight > 0 then CeilScale(srcWidth, scaledHeight, srcHeight)
                 else scaledWidth;
    var height := if scaledHeight == 0 && srcWidth > 0 then CeilScale(srcHeight, width, srcWidth)
                  else scaledHeight;
    if width <= 0 || height <= 0 then None else Some((width, height))
  }

  datatype Option<T> = None | Some(value: T)

  /** A zero width is inferred as ceil(srcWidth * height / srcHeight). */
  lemma InferWidth(srcWidth: Int32, srcHeight: Int32, height: Int32)
    requires srcWidth > 0 && srcHeight > 0 && height > 0
    requires srcWidth * height <= (TWO_31 - 1) * srcHeight
    ensures var res := ScaledDimensions(srcWidth, srcHeight, 0, height);
      && res.Some?
      && res.value.1 == height
      && res.value.0 * srcHeight >= srcWidth * height
      && (res.value.0 - 1) * srcHeight < srcWidth * height
  {
    CeilScaleExact(srcWidth, height, srcHeight);
    MulMonotone(1, srcWidth, height);
    MulMonotone(CeilScale(srcWidth, height, srcHeight), 0, srcHeight);
  }

  /** A zero height is inferred as ceil(srcHeight * width / srcWidth). */
  lemma InferHeight(srcWidth: Int32, srcHeight: Int32, width: Int32)
    requires srcWidth > 0 && srcHeight > 0 && width > 0
    requires srcHeight * width <= (TWO_31 - 1) * srcWidth
    ensures var res := ScaledDimensions(srcWidth, srcHeight, width, 0);
      && res.Some?
      && res.value.0 == width
      && res.value.1 * srcWidth >= srcHeight * width
      && (res.value.1 - 1) * srcWidth < srcHeight * width
  {
    CeilScaleExact(srcHeight, width, srcWidth);
    MulMonotone(1, srcHeight, width);
    MulMonotone(CeilScale(srcHeight, width, srcWidth), 0, srcWidth);
  }

  /** With both dimensions unspecified nothing can be inferred: the width
      comes out 0, so the height does too, and the call fails. */
  lemma BothUnspecifiedFails(srcWidth: Int32, srcHeight: Int32)
    ensures ScaledDimensions(srcWidth, srcHeight, 0, 0).None?
  {
    if srcHeight > 0 {
      assert (srcHeight - 1) / srcHeight == 0;
      assert CeilScale(srcWidth, 0, srcHeight) == 0;
    }
  }

  /** srcWidth = 100, srcHeight = 50, height = 80 gives width 160. */
  lemma InferWidthExample()
    ensures ScaledDimensions(100, 50, 0, 80) == Some((160, 80))
  {
    assert CeilScale(100, 80, 50) == 160;
  }

  /** The `(int)` cast keeps only the low 32 bits of the 64-bit quotient: a
      width that does not fit in `int` can come back as a small positive
      value and be reported as success. */
  lemma InferWidthTruncates()
    ensures ScaledDimensions(0x1_0001, 1, 0, 0x1_0000) == Some((0x1_0000, 0x1_0000))
  {
    assert 0x1_0001 * 0x1_0000 == 0x1_0001_0000;
    assert CeilScale(0x1_0001, 0x1_0000, 1) == 0x1_0000;
  }
}
