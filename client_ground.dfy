/**
  The `Ground` class of client/src/class/Ground.ts: a static rectangle that
  remembers the width and height it was last given. `Body.scale` takes factors
  relative to the body's current size, so `updatePositionAndSize` divides the
  new size by the stored one. The scale calls are recorded, factor by factor,
  as their effect on the body.
 */
module ClientGround {
  import opened Physics

  function Product(fs: seq<real>): real
  {
    if fs == [] then 1.0 else fs[0] * Product(fs[1..])
  }

  lemma {:induction false} ProductAppend(fs: seq<real>, f: real)
    ensures Product(fs + [f]) == Product(fs) * f
  {
    if fs == [] {
      assert [f][1..] == [];
    } else {
      assert (fs + [f])[1..] == fs[1..] + [f];
      ProductAppend(fs[1..], f);
      var rest := Product(fs[1..]);
      assert fs[0] * (rest * f) == (fs[0] * rest) * f;
    }
  }

  /** The factor handed to `Body.scale`: the one that turns the stored size into the new one. */
  function ScaleFactor(newSize: real, storedSize: real): (k: real)
    requires storedSize != 0.0
    ensures k * storedSize == newSize
  {
    newSize / storedSize
  }

  /** One more scale takes a size that tracks the factors so far to the new size. */
  lemma ScaledSize(initial: real, fs: seq<real>, stored: real, newSize: real)
    requires initial * Product(fs) == stored && stored != 0.0
    ensures initial * Product(fs + [ScaleFactor(newSize, stored)]) == newSize
  {
    var k := ScaleFactor(newSize, stored);
    ProductAppend(fs, k);
    calc {
      initial * Product(fs + [k]);
      initial * (Product(fs) * k);
      (initial * Product(fs)) * k;
      stored * k;
    }
  }

  /** Resizing by a factor k scales by exactly k. */
  lemma ResizeByFactor(k: real, size: real)
    requires size != 0.0
    ensures ScaleFactor(k * size, size) == k
  {
  }

  class Ground {
    var position: Vec
    var width: real
    var height: real
    /** The factors of every `Body.scale` call so far, in order. */
    var xScales: seq<real>
    var yScales: seq<real>
    ghost const initialWidth: real
    ghost const initialHeight: real

    /**
      The body's size is its initial size times every factor applied since,
      and the stored width and height track it.
     */
    ghost predicate Valid()
      reads this
    {
      && |xScales| == |yScales|
      && initialWidth * Product(xScales) == width
      && initialHeight * Product(yScales) == height
    }

    /** Stores `width` and `height` exactly as given. */
    constructor(x: real, y: real, width: real, height: real)
      ensures Valid()
      ensures position == Vec(x, y) && this.width == width && this.height == height
      ensures initialWidth == width && initialHeight == height
      ensures xScales == [] && yScales == []
    {
      position := Vec(x, y);
      this.width := width;
      this.height := height;
      xScales := [];
      yScales := [];
      initialWidth := width;
      initialHeight := height;
    }

    /**
      Moves the body to (x, y), scales it by the new size over the stored one,
      then stores the new size. The division is unguarded in the source, so the
      stored size must not be zero.
     */
    method UpdatePositionAndSize(x: real, y: real, width: real, height: real)
      requires Valid()
      requires this.width != 0.0 && this.height != 0.0
      modifies this
      ensures Valid()
      ensures position == Vec(x, y)
      ensures xScales == old(xScales) + [ScaleFactor(width, old(this.width))]
      ensures yScales == old(yScales) + [ScaleFactor(height, old(this.height))]
      ensures this.width == width && this.height == height
    {
      position := Vec(x, y);
      var sx, sy := width / this.width, height / this.height;
      ScaledSize(initialWidth, xScales, this.width, width);
      ScaledSize(initialHeight, yScales, this.height, height);
      xScales := xScales + [sx];
      yScales := yScales + [sy];
      this.width := width;
      this.height := height;
    }

    /** The factors applied so far multiply to the current size over the initial one. */
    lemma ScalesAreRelative()
      requires Valid() && initialWidth != 0.0 && initialHeight != 0.0
      ensures Product(xScales) == width / initialWidth
      ensures Product(yScales) == height / initialHeight
    {
    }
  }
}
