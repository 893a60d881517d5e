/** Sprite-sheet animation: a frame index stepped at 24 frames per second,
    and the arithmetic that locates the current frame on the sheet. */
module Animations {
  import opened Wrappers

  /** Frames per second. */
  const FPS: int := 24

  /** A frame is advanced once more than this many seconds have accumulated. */
  const FRAME_TIME: real := 1.0 / 24.0

  /** An integer rectangle on a bitmap (`android.graphics.Rect`). */
  datatype IntRect = IntRect(left: int, top: int, right: int, bottom: int) {
    function Width(): int { right - left }
    function Height(): int { bottom - top }
  }

  /** A bitmap handle: a decoded asset, a region cut out of another bitmap
      (`Bitmap.createBitmap`), or a resized copy (`Bitmap.createScaledBitmap`).
      Pixels are not modelled, only the dimensions and where they came from. */
  datatype Bitmap =
    | Asset(name: string, assetWidth: int, assetHeight: int)
    | Region(sheet: Bitmap, area: IntRect)
    | Resized(image: Bitmap, newWidth: int, newHeight: int)
  {
    function Width(): int
    {
      match this
      case Asset(_, w, _) => w
      case Region(_, area) => area.Width()
      case Resized(_, w, _) => w
    }

    function Height(): int
    {
      match this
      case Asset(_, _, h) => h
      case Region(_, area) => area.Height()
      case Resized(_, _, h) => h
    }
  }

  /** The outcome of assigning the `currentFrame` setter: the new frame
      index, and whether the end-of-animation event was raised. */
  datatype Advance = Advance(frameIndex: int, ended: bool)

  /** The `currentFrame` setter given `value`: the value is taken modulo
      `frameCount`; wrapping back to 0 from a non-zero frame raises the end
      event and leaves the index where it was, otherwise the index moves. */
  function NextFrame(frameIndex: int, frameCount: int, value: int): (r: Advance)
    requires frameCount > 0 && value >= 0
    ensures 0 <= frameIndex < frameCount ==> 0 <= r.frameIndex < frameCount
    ensures r.ended ==> r.frameIndex == frameIndex && frameIndex != 0
    ensures !r.ended ==> r.frameIndex == value % frameCount
    ensures frameIndex == 0 ==> !r.ended
  {
    var next := value % frameCount;
    if frameIndex != 0 && next == 0 then Advance(frameIndex, true) else Advance(next, false)
  }

  /** Advancing by one (`currentFrame++`) moves to the next frame until the
      last one; from the last frame it raises the end event and stays there. */
  lemma AdvanceByOne(frameIndex: int, frameCount: int)
    requires 0 <= frameIndex < frameCount
    ensures frameIndex < frameCount - 1 ==> NextFrame(frameIndex, frameCount, frameIndex + 1) == Advance(frameIndex + 1, false)
    ensures frameCount > 1 && frameIndex == frameCount - 1 ==> NextFrame(frameIndex, frameCount, frameIndex + 1) == Advance(frameIndex, true)
  {
  }

  /** The frame index and the number of end events after `n` single-frame
      advances starting from `frameIndex`. */
  function Advances(frameIndex: int, frameCount: int, n: nat): (r: (int, nat))
    requires frameCount > 0 && frameIndex >= 0
    ensures 0 <= r.0 && (r.0 == frameIndex || r.0 < frameCount)
    ensures frameIndex < frameCount ==> r.0 < frameCount
    decreases n
  {
    if n == 0 then (frameIndex, 0)
    else
      var a := NextFrame(frameIndex, frameCount, frameIndex + 1);
      var rest := Advances(a.frameIndex, frameCount, n - 1);
      (rest.0, rest.1 + (if a.ended then 1 else 0))
  }

  /** From the first frame of an animation of two or more frames, `n`
      advances show frame min(n, frameCount - 1): the animation plays once
      and then sticks on its last frame, raising the end event on every
      further advance instead of wrapping around. */
  lemma {:induction false} PlaysOnceThenSticks(frameCount: int, n: nat)
    requires frameCount > 1
    ensures n < frameCount ==> Advances(0, frameCount, n) == (n, 0)
    ensures n >= frameCount ==> Advances(0, frameCount, n) == (frameCount - 1, n - (frameCount - 1))
  {
    if n > 0 {
      PlaysOnceThenSticks(frameCount, n - 1);
      var prev := Advances(0, frameCount, n - 1);
      AdvancesLast(0, frameCount, n - 1);
      AdvanceByOne(prev.0, frameCount);
    }
  }

  /** Splitting off the last of `n + 1` advances. */
  lemma {:induction false} AdvancesLast(frameIndex: int, frameCount: int, n: nat)
    requires frameCount > 0 && frameIndex >= 0
    ensures var prev := Advances(frameIndex, frameCount, n);
            var a := NextFrame(prev.0, frameCount, prev.0 + 1);
            Advances(frameIndex, frameCount, n + 1) == (a.frameIndex, prev.1 + (if a.ended then 1 else 0))
    decreases n
  {
    if n > 0 {
      var a := NextFrame(frameIndex, frameCount, frameIndex + 1);
      AdvancesLast(a.frameIndex, frameCount, n - 1);
    }
  }

  /** The state an animation reaches after one `update(deltaTime)`. */
  datatype TickResult = TickResult(frameIndex: int, timer: real, ended: bool)

  /** `update(deltaTime)`: animations of one frame are left alone; others
      accumulate time and advance one frame, restarting the timer, once the
      accumulated time exceeds 1/24 s. */
  function Tick(frameIndex: int, timer: real, frameCount: int, deltaTime: real): (r: TickResult)
    requires frameIndex >= 0
    ensures frameCount <= 1 ==> r == TickResult(frameIndex, timer, false)
    ensures frameCount > 1 && timer + deltaTime <= FRAME_TIME ==> r == TickResult(frameIndex, timer + deltaTime, false)
    ensures frameCount > 1 && timer + deltaTime > FRAME_TIME ==>
              r.timer == 0.0 && Advance(r.frameIndex, r.ended) == NextFrame(frameIndex, frameCount, frameIndex + 1)
  {
    if frameCount > 1 then
      var t := timer + deltaTime;
      if t > FRAME_TIME then
        var a := NextFrame(frameIndex, frameCount, frameIndex + 1);
        TickResult(a.frameIndex, 0.0, a.ended)
      else
        TickResult(frameIndex, t, false)
    else
      TickResult(frameIndex, timer, false)
  }

  /** Frame `frameIndex` lies on row `row` of a sheet `columns` frames wide. */
  predicate InRow(frameIndex: int, columns: int, row: int)
  {
    row * columns <= frameIndex < row * columns + columns
  }

  /** The first row in `from..last` holding frame `frameIndex`, if any. */
  function FindRow(frameIndex: int, columns: int, from: int, last: int): (r: Option<int>)
    decreases last - from
    ensures r.Some? ==> from <= r.value <= last && InRow(frameIndex, columns, r.value)
    ensures r.Some? ==> forall k :: from <= k < r.value ==> !InRow(frameIndex, columns, k)
    ensures r.None? ==> forall k :: from <= k <= last ==> !InRow(frameIndex, columns, k)
  {
    if from > last then None
    else if InRow(frameIndex, columns, from) then Some(from)
    else FindRow(frameIndex, columns, from + 1, last)
  }

  /** The row search as written in the source: rows 0 to `rows` inclusive,
      one row more than the sheet has. */
  function RowAsWritten(frameIndex: int, rows: int, columns: int): (r: Option<int>)
    ensures r.Some? ==> 0 <= r.value <= rows && InRow(frameIndex, columns, r.value)
  {
    FindRow(frameIndex, columns, 0, rows)
  }

  /** The row search over the rows 0 to `rows - 1` that the sheet has. */
  function RowOf(frameIndex: int, rows: int, columns: int): (r: Option<int>)
    ensures r.Some? ==> 0 <= r.value < rows && InRow(frameIndex, columns, r.value)
    ensures r.None? ==> forall k :: 0 <= k < rows ==> !InRow(frameIndex, columns, k)
  {
    FindRow(frameIndex, columns, 0, rows - 1)
  }

  /** On a sheet with positive width, a frame lies on exactly one row: the
      quotient of its index by the number of columns. */
  lemma {:induction false} InRowIsQuotient(frameIndex: int, columns: int, row: int)
    requires columns > 0
    ensures InRow(frameIndex, columns, row) <==> row == frameIndex / columns
  {
    var q := frameIndex / columns;
    assert q * columns <= frameIndex < q * columns + columns;
    if row < q {
      MulMonotone(row + 1, q, columns);
    } else if row > q {
      MulMonotone(q + 1, row, columns);
    }
  }

  lemma MulMonotone(a: int, b: int, c: int)
    requires a <= b && c > 0
    ensures a * c <= b * c
  {
  }

  /** When the frame index lies on the sheet, the row search finds the
      quotient of the index by the number of columns; the source's search
      and the search over the sheet's rows agree. */
  lemma {:induction false} RowOnValidSheet(frameIndex: int, rows: int, columns: int)
    requires columns > 0 && 0 <= frameIndex < rows * columns
    ensures RowOf(frameIndex, rows, columns) == Some(frameIndex / columns)
    ensures RowAsWritten(frameIndex, rows, columns) == Some(frameIndex / columns)
  {
    var q := frameIndex / columns;
    InRowIsQuotient(frameIndex, columns, q);
    if q >= rows {
      MulMonotone(rows, q, columns);
    }
    var r := RowOf(frameIndex, rows, columns);
    if r.Some? {
      InRowIsQuotient(frameIndex, columns, r.value);
    }
    var w := RowAsWritten(frameIndex, rows, columns);
    if w.Some? {
      InRowIsQuotient(frameIndex, columns, w.value);
    }
  }

  /** The source's search runs one row past the sheet: frame 8 of a
      one-row sheet 8 frames wide is reported on row 1, below the sheet,
      where the sheet's rows hold no such frame. */
  lemma RowSearchOverrun()
    ensures RowAsWritten(8, 1, 8) == Some(1)
    ensures RowOf(8, 1, 8) == None
  {
    assert !InRow(8, 8, 0) && InRow(8, 8, 1);
  }

  /** The rectangle of the current frame on the sheet, or None where the
      source throws (a zero column count, or a frame on none of the rows
      0 to `rows` that the source's search visits). */
  function FrameRect(frameIndex: int, rows: int, columns: int, frameWidth: int, frameHeight: int, firstFrameY: int): (r: Option<IntRect>)
    ensures r.Some? ==> r.value.Width() == frameWidth && r.value.Height() == frameHeight
    ensures r.Some? ==> exists row :: 0 <= row <= rows && InRow(frameIndex, columns, row) &&
                           r.value.left == (frameIndex % columns) * frameWidth &&
                           r.value.top == firstFrameY + row * frameHeight
    ensures r.None? <==> columns == 0 || RowAsWritten(frameIndex, rows, columns).None?
  {
    if columns == 0 then None
    else
      var column := frameIndex % columns;
      match RowAsWritten(frameIndex, rows, columns)
      case None => None
      case Some(row) =>
        Some(IntRect(column * frameWidth, firstFrameY + row * frameHeight,
                     column * frameWidth + frameWidth, firstFrameY + frameHeight + row * frameHeight))
  }

  /** A sprite-sheet animation. `frameIndex` and `timer` are its state. */
  class Animation {
    const bitmap: Bitmap
    const frameCount: int
    const frameWidth: int
    const frameHeight: int
    const rows: int
    const columns: int
    const firstFrameY: int
    var frameIndex: int
    var timer: real

    /** The frame index lies on the animation (or is 0 when it has no frames). */
    ghost predicate Valid()
      reads this`frameIndex
    {
      0 <= frameIndex && (frameIndex == 0 || frameIndex < frameCount)
    }

    /** Every frame of the animation lies on the sheet. */
    ghost predicate OnSheet()
    {
      columns > 0 && rows > 0 && frameCount <= rows * columns
    }

    constructor (bitmap: Bitmap, frameCount: int, frameWidth: int, frameHeight: int,
                 rows: int := 1, columns: int := frameCount, firstFrameY: int := 0)
      ensures this.bitmap == bitmap && this.frameCount == frameCount
      ensures this.frameWidth == frameWidth && this.frameHeight == frameHeight
      ensures this.rows == rows && this.columns == columns && this.firstFrameY == firstFrameY
      ensures frameIndex == 0 && timer == 0.0
      ensures Valid()
    {
      this.bitmap := bitmap;
      this.frameCount := frameCount;
      this.frameWidth := frameWidth;
      this.frameHeight := frameHeight;
      this.rows := rows;
      this.columns := columns;
      this.firstFrameY := firstFrameY;
      frameIndex := 0;
      timer := 0.0;
    }

    /** The private `currentFrame` setter. */
    method SetCurrentFrame(value: int) returns (ended: bool)
      requires frameCount > 0 && value >= 0
      modifies this`frameIndex
      ensures Advance(frameIndex, ended) == NextFrame(old(frameIndex), frameCount, value)
    {
      var nextFrame := value % frameCount;
      if frameIndex != 0 && nextFrame == 0 {
        ended := true;
      } else {
        frameIndex := nextFrame;
        ended := false;
      }
    }

    /** The column of the current frame. */
    function Column(): (r: int)
      reads this`frameIndex
      requires columns != 0
      ensures 0 <= r < if columns > 0 then columns else -columns
      ensures Valid() && columns > 0 ==> r == frameIndex % columns
    {
      frameIndex % columns
    }

    /** The row of the current frame: the source's search over rows 0 to
        `rows` inclusive. */
    method Row() returns (r: Option<int>)
      ensures r == RowAsWritten(frameIndex, rows, columns)
    {
      var row := 0;
      while row <= rows
        invariant row >= 0
        invariant RowAsWritten(frameIndex, rows, columns) == FindRow(frameIndex, columns, row, rows)
        decreases rows - row
      {
        if row * columns <= frameIndex < row * columns + columns {
          return Some(row);
        }
        row := row + 1;
      }
      return None;
    }

    /** The current frame's rectangle on the sheet. */
    method SourceRect() returns (r: Option<IntRect>)
      ensures r == FrameRect(frameIndex, rows, columns, frameWidth, frameHeight, firstFrameY)
    {
      if columns == 0 {
        return None;
      }
      var column := frameIndex % columns;
      var row := Row();
      match row
      case None =>
        r := None;
      case Some(rw) =>
        r := Some(IntRect(column * frameWidth, firstFrameY + rw * frameHeight,
                          column * frameWidth + frameWidth, firstFrameY + frameHeight + rw * frameHeight));
    }

    /** The bitmap of the current frame, cut out of the sheet. */
    method Frame() returns (r: Option<Bitmap>)
      ensures FrameRect(frameIndex, rows, columns, frameWidth, frameHeight, firstFrameY).Some? <==> r.Some?
      ensures r.Some? ==> r.value == Region(bitmap, FrameRect(frameIndex, rows, columns, frameWidth, frameHeight, firstFrameY).value)
      ensures r.Some? ==> r.value.Width() == frameWidth && r.value.Height() == frameHeight
    {
      var rect := SourceRect();
      match rect
      case None =>
        r := None;
      case Some(area) =>
        r := Some(Region(bitmap, area));
    }

    /** `update(deltaTime)`; returns whether the end event was raised. */
    method Update(deltaTime: real) returns (ended: bool)
      requires Valid()
      modifies this`frameIndex, this`timer
      ensures TickResult(frameIndex, timer, ended) == Tick(old(frameIndex), old(timer), frameCount, deltaTime)
      ensures Valid()
    {
      ended := false;
      if frameCount > 1 {
        timer := timer + deltaTime;
        if timer > 1.0 / FPS as real {
          ended := SetCurrentFrame(frameIndex + 1);
          timer := 0.0;
        }
      }
    }

    /** On a sheet that holds all its frames, the current frame has a
        rectangle, so `frame` does not throw. */
    lemma HasFrame()
      requires Valid() && OnSheet()
      ensures FrameRect(frameIndex, rows, columns, frameWidth, frameHeight, firstFrameY).Some?
    {
      assert rows * columns >= columns by {
        MulMonotone(1, rows, columns);
      }
      RowOnValidSheet(frameIndex, rows, columns);
    }

    /** `reset()`: back to the first frame with a cleared timer. */
    method Reset()
      modifies this`frameIndex, this`timer
      ensures frameIndex == 0 && timer == 0.0
      ensures Valid()
    {
      frameIndex := 0;
      timer := 0.0;
    }
  }

  /** On an animation whose frames lie on the sheet, every frame has a
      rectangle: column `frameIndex % columns` and row `frameIndex / columns`. */
  lemma {:induction false} FrameRectOnSheet(frameIndex: int, frameCount: int, rows: int, columns: int,
                                             frameWidth: int, frameHeight: int, firstFrameY: int)
    requires columns > 0 && rows > 0 && frameCount <= rows * columns
    requires 0 <= frameIndex < frameCount
    ensures FrameRect(frameIndex, rows, columns, frameWidth, frameHeight, firstFrameY)
            == Some(IntRect((frameIndex % columns) * frameWidth,
                            firstFrameY + (frameIndex / columns) * frameHeight,
                            (frameIndex % columns) * frameWidth + frameWidth,
                            firstFrameY + frameHeight + (frameIndex / columns) * frameHeight))
  {
    RowOnValidSheet(frameIndex, rows, columns);
  }
}
