/** `random_bbox` of diffengine/datasets/transforms/loading.py: draws a mask box
    (top, left, h, w) inside an image, keeping a margin to every border.

    The four calls to np.random.randint become the fields of a `Draws` value
    passed in by the caller; `RandInt` says which values such a call can
    return (half-open range, as the function's documentation says). Python's
    `//` by 2 is Dafny's `/ 2`: both round towards minus infinity when the
    divisor is positive. */
module Bbox {
  import opened Errors

  /** A Python argument value: an int, a tuple of values, or anything else
      (a float, a list, None, ...). */
  datatype Arg = IntArg(n: int) | TupleArg(items: seq<Arg>) | OtherArg

  /** A (height, width)-ordered pair of ints. */
  datatype Pair = Pair(h: int, w: int)

  /** The box random_bbox returns: (top, left, h, w). */
  datatype Box = Box(top: int, left: int, h: int, w: int)

  /** The results of the four np.random.randint calls, in call order. */
  datatype Draws = Draws(top: int, left: int, deltaTop: int, deltaLeft: int)

  /** Keyword defaults of random_bbox. */
  const DefaultDelta: Arg := IntArg(40)
  const DefaultMargin: Arg := IntArg(20)

  /** What np.random.randint(lo, hi) may return: a value of [lo, hi). An empty
      range raises instead, so then no value is constrained. */
  predicate RandInt(lo: int, hi: int, x: int) {
    lo < hi ==> lo <= x < hi
  }

  /** A tuple argument is kept as it is; anything else is repeated into a
      pair. */
  function AsTuple(a: Arg): seq<Arg> {
    if a.TupleArg? then a.items else [a, a]
  }

  /** mmengine's is_tuple_of(t, int): every component is an int. */
  predicate IsTupleOfInt(t: seq<Arg>) {
    forall i :: 0 <= i < |t| ==> t[i].IntArg?
  }

  /** Unpacking a tuple of ints into two names. */
  function Unpack(t: seq<Arg>, param: string): Result<Pair>
    requires IsTupleOfInt(t)
  {
    if |t| == 2 then Ok(Pair(t[0].n, t[1].n)) else Err(WrongArity(param))
  }

  /** Reference definition: the argument forms random_bbox accepts, and the
      pair each stands for. */
  predicate Accepted(a: Arg) {
    a.IntArg? || (a.TupleArg? && |a.items| == 2 && a.items[0].IntArg? && a.items[1].IntArg?)
  }

  function PairOf(a: Arg): Pair
    requires Accepted(a)
  {
    if a.IntArg? then Pair(a.n, a.n) else Pair(a.items[0].n, a.items[1].n)
  }

  /** The three normalised parameters (max_mask, max_delta, margin). */
  datatype Params = Params(mask: Pair, delta: Pair, margin: Pair)

  /** Reads the three size arguments: ints become square pairs, then all
      three must be tuples of ints (checked in parameter order), then each is
      unpacked into two names. A failure is an assertion or an unpacking
      error, and a success holds the two components of each tuple. */
  function Normalise(shape: Arg, delta: Arg, margin: Arg): (r: Result<Params>)
    ensures r.Err? ==> r.error.NotTupleOfInt? || r.error.WrongArity?
    ensures r.Err? ==> (r.error.NotTupleOfInt? <==>
              !(IsTupleOfInt(AsTuple(shape)) && IsTupleOfInt(AsTuple(delta)) && IsTupleOfInt(AsTuple(margin))))
    ensures r.Ok? ==> IsTupleOfInt(AsTuple(shape)) && IsTupleOfInt(AsTuple(delta)) && IsTupleOfInt(AsTuple(margin))
    ensures r.Ok? ==> |AsTuple(shape)| == 2 && |AsTuple(delta)| == 2 && |AsTuple(margin)| == 2
    ensures r.Ok? ==> && r.value.mask == Pair(AsTuple(shape)[0].n, AsTuple(shape)[1].n)
                      && r.value.delta == Pair(AsTuple(delta)[0].n, AsTuple(delta)[1].n)
                      && r.value.margin == Pair(AsTuple(margin)[0].n, AsTuple(margin)[1].n)
  {
    var s, d, m := AsTuple(shape), AsTuple(delta), AsTuple(margin);
    if !IsTupleOfInt(s) then Err(NotTupleOfInt("max_bbox_shape"))
    else if !IsTupleOfInt(d) then Err(NotTupleOfInt("max_bbox_delta"))
    else if !IsTupleOfInt(m) then Err(NotTupleOfInt("min_margin"))
    else
      match Unpack(s, "max_bbox_shape")
      case Err(e) => Err(e)
      case Ok(ps) =>
        match Unpack(d, "max_bbox_delta")
        case Err(e) => Err(e)
        case Ok(pd) =>
          match Unpack(m, "min_margin")
          case Err(e) => Err(e)
          case Ok(pm) => Ok(Params(ps, pd, pm))
  }

  /** An int x becomes the pair (x, x). */
  lemma IntBecomesSquarePair(x: int, y: int, z: int)
    ensures Normalise(IntArg(x), IntArg(y), IntArg(z)) == Ok(Params(Pair(x, x), Pair(y, y), Pair(z, z)))
  {
  }

  /** Normalisation succeeds exactly on the accepted forms and yields the
      pairs they stand for; otherwise it reports an assertion failure (some
      component is not an int) or an unpacking failure (a tuple of ints of the
      wrong length). */
  lemma NormaliseExactly(shape: Arg, delta: Arg, margin: Arg)
    ensures Normalise(shape, delta, margin).Ok? <==> Accepted(shape) && Accepted(delta) && Accepted(margin)
    ensures Normalise(shape, delta, margin).Ok? ==>
              Normalise(shape, delta, margin).value == Params(PairOf(shape), PairOf(delta), PairOf(margin))
    ensures Normalise(shape, delta, margin).Err? ==>
              Normalise(shape, delta, margin).error.NotTupleOfInt? || Normalise(shape, delta, margin).error.WrongArity?
  {
    AcceptedIsTupleOfTwoInts(shape);
    AcceptedIsTupleOfTwoInts(delta);
    AcceptedIsTupleOfTwoInts(margin);
  }

  lemma AcceptedIsTupleOfTwoInts(a: Arg)
    ensures Accepted(a) <==> IsTupleOfInt(AsTuple(a)) && |AsTuple(a)| == 2
    ensures Accepted(a) ==> AsTuple(a) == [IntArg(PairOf(a).h), IntArg(PairOf(a).w)]
  {
    if a.OtherArg? {
      assert !AsTuple(a)[0].IntArg?;
    }
  }

  /** The largest top and left (exclusive) the first two draws may take. */
  function MaxTop(imgH: int, p: Params): int { imgH - p.margin.h - p.mask.h }
  function MaxLeft(imgW: int, p: Params): int { imgW - p.margin.w - p.mask.w }

  /** Every draw comes from the range its randint call is given. */
  predicate DrawsFit(imgH: nat, imgW: nat, p: Params, d: Draws) {
    && RandInt(p.margin.h, MaxTop(imgH, p), d.top)
    && RandInt(p.margin.w, MaxLeft(imgW, p), d.left)
    && RandInt(0, p.delta.h / 2 + 1, d.deltaTop)
    && RandInt(0, p.delta.w / 2 + 1, d.deltaLeft)
  }

  /** The three checks random_bbox makes before drawing, as conditions that
      raise. */
  predicate MaskTooLarge(imgH: nat, imgW: nat, p: Params) {
    p.mask.h > imgH || p.mask.w > imgW
  }
  predicate DeltaTooLarge(p: Params) {
    p.delta.h / 2 * 2 >= p.mask.h || p.delta.w / 2 * 2 >= p.mask.w
  }
  predicate MarginTooLarge(imgH: nat, imgW: nat, p: Params) {
    imgH - p.mask.h < 2 * p.margin.h || imgW - p.mask.w < 2 * p.margin.w
  }

  /** random_bbox on normalised parameters: the three validations, then the
      four draws, then the box shrunk by the two delta draws at its top and
      left. It fails only by a validation or an empty draw range, and a box it
      returns is at least 1 x 1 and no larger than max_bbox_shape. */
  function RandomBboxOf(imgH: nat, imgW: nat, p: Params, d: Draws): (r: Result<Box>)
    requires DrawsFit(imgH, imgW, p, d)
    ensures r.Err? ==>
              r.error in {MaskLargerThanImage, DeltaNotSmallerThanMask, MarginUnsatisfiable, EmptyDrawRange}
    ensures r.Ok? ==> 1 <= r.value.h <= p.mask.h && 1 <= r.value.w <= p.mask.w
  {
    if MaskTooLarge(imgH, imgW, p) then Err(MaskLargerThanImage)
    else if DeltaTooLarge(p) then Err(DeltaNotSmallerThanMask)
    else if MarginTooLarge(imgH, imgW, p) then Err(MarginUnsatisfiable)
    // the four randint calls, each raising on an empty range
    else if !(p.margin.h < MaxTop(imgH, p)) then Err(EmptyDrawRange)
    else if !(p.margin.w < MaxLeft(imgW, p)) then Err(EmptyDrawRange)
    else if !(0 < p.delta.h / 2 + 1) then Err(EmptyDrawRange)
    else if !(0 < p.delta.w / 2 + 1) then Err(EmptyDrawRange)
    else Ok(Box(d.top + d.deltaTop, d.left + d.deltaLeft, p.mask.h - d.deltaTop, p.mask.w - d.deltaLeft))
  }

  /** random_bbox(img_shape=(imgH, imgW), max_bbox_shape=shape,
      max_bbox_delta=delta, min_margin=margin) with the given draws. */
  predicate RandomBboxDrawsFit(imgH: nat, imgW: nat, shape: Arg, delta: Arg, margin: Arg, d: Draws) {
    var p := Normalise(shape, delta, margin);
    p.Ok? ==> DrawsFit(imgH, imgW, p.value, d)
  }

  /** A normalisation error comes first; a box is drawn only for accepted
      arguments, and it keeps the margins they stand for. */
  function RandomBbox(imgH: nat, imgW: nat, shape: Arg, delta: Arg, margin: Arg, d: Draws): (r: Result<Box>)
    requires RandomBboxDrawsFit(imgH, imgW, shape, delta, margin, d)
    ensures Normalise(shape, delta, margin).Err? ==> r == Err(Normalise(shape, delta, margin).error)
    ensures r.Ok? ==> Accepted(shape) && Accepted(delta) && Accepted(margin)
    ensures r.Ok? ==> var m := PairOf(margin);
                      && m.h <= r.value.top && r.value.top + r.value.h < imgH - m.h
                      && m.w <= r.value.left && r.value.left + r.value.w < imgW - m.w
  {
    match Normalise(shape, delta, margin)
    case Err(e) => Err(e)
    case Ok(p) =>
      NormaliseExactly(shape, delta, margin);
      var b := RandomBboxOf(imgH, imgW, p, d);
      if b.Ok? then WithinMargins(imgH, imgW, p, d); b else b
  }

  /** The explicit validations raise exactly when one of their three
      conditions holds. */
  lemma ValidationRaisesExactly(imgH: nat, imgW: nat, p: Params, d: Draws)
    requires DrawsFit(imgH, imgW, p, d)
    ensures var r := RandomBboxOf(imgH, imgW, p, d);
            (r.Err? && r.error in {MaskLargerThanImage, DeltaNotSmallerThanMask, MarginUnsatisfiable})
            <==> MaskTooLarge(imgH, imgW, p) || DeltaTooLarge(p) || MarginTooLarge(imgH, imgW, p)
  {
  }

  /** A box is returned exactly when the validations pass and all four
      randint ranges are non-empty; every other failure is the empty range. */
  lemma SucceedsExactly(imgH: nat, imgW: nat, p: Params, d: Draws)
    requires DrawsFit(imgH, imgW, p, d)
    ensures var r := RandomBboxOf(imgH, imgW, p, d);
            r.Ok? <==>
              && !MaskTooLarge(imgH, imgW, p) && !DeltaTooLarge(p) && !MarginTooLarge(imgH, imgW, p)
              && imgH - p.mask.h > 2 * p.margin.h && imgW - p.mask.w > 2 * p.margin.w
              && p.delta.h >= 0 && p.delta.w >= 0
  {
  }

  /** The margin check lets the case `img - max_mask == 2 * margin` through;
      the first randint call then gets an empty range and raises. */
  lemma MarginEqualityFailsInDraw(imgH: nat, imgW: nat, p: Params, d: Draws)
    requires DrawsFit(imgH, imgW, p, d)
    requires !MaskTooLarge(imgH, imgW, p) && !DeltaTooLarge(p)
    requires imgH - p.mask.h == 2 * p.margin.h && imgW - p.mask.w >= 2 * p.margin.w
    ensures !MarginTooLarge(imgH, imgW, p)
    ensures RandomBboxOf(imgH, imgW, p, d) == Err(EmptyDrawRange)
  {
  }

  /** The shrunk h and w stay between max_mask - max_delta // 2 and max_mask,
      and are at least 1. */
  lemma SizeBounds(imgH: nat, imgW: nat, p: Params, d: Draws)
    requires DrawsFit(imgH, imgW, p, d)
    requires RandomBboxOf(imgH, imgW, p, d).Ok?
    ensures var b := RandomBboxOf(imgH, imgW, p, d).value;
            && p.mask.h - p.delta.h / 2 <= b.h <= p.mask.h
            && p.mask.w - p.delta.w / 2 <= b.w <= p.mask.w
            && 1 <= b.h && 1 <= b.w
  {
  }

  /** The box keeps the margins: it starts at margin or later and ends
      strictly before the far margin. */
  lemma WithinMargins(imgH: nat, imgW: nat, p: Params, d: Draws)
    requires DrawsFit(imgH, imgW, p, d)
    requires RandomBboxOf(imgH, imgW, p, d).Ok?
    ensures var b := RandomBboxOf(imgH, imgW, p, d).value;
            && p.margin.h <= b.top && b.top + b.h < imgH - p.margin.h
            && p.margin.w <= b.left && b.left + b.w < imgW - p.margin.w
  {
  }

  /** Shrinking moves only the top and left edges: bottom and right stay where
      the unshrunk box of the first two draws had them. */
  lemma BottomRightFixed(imgH: nat, imgW: nat, p: Params, d: Draws)
    requires DrawsFit(imgH, imgW, p, d)
    requires RandomBboxOf(imgH, imgW, p, d).Ok?
    ensures var b := RandomBboxOf(imgH, imgW, p, d).value;
            && b.top + b.h == d.top + p.mask.h
            && b.left + b.w == d.left + p.mask.w
  {
  }

  /** Contrary to the source's comment claiming the centre is kept, it is not: any real
      shrink in height moves the vertical centre (doubled, to stay in ints). */
  lemma CentreMovesWhenShrunk(imgH: nat, imgW: nat, p: Params, d: Draws)
    requires DrawsFit(imgH, imgW, p, d)
    requires RandomBboxOf(imgH, imgW, p, d).Ok?
    ensures var b := RandomBboxOf(imgH, imgW, p, d).value;
            (2 * b.top + b.h == 2 * d.top + p.mask.h) <==> d.deltaTop == 0
  {
  }
}
