/** The streaming rescale controller: WebPRescalerInit, WebPRescaleNeededLines,
    WebPRescalerImport and WebPRescalerExport over one work array that holds
    the two accumulation rows `irow` and `frow` at offsets that swap. */
module RescalerUtils {
  import opened CInt
  import opened RescalerParams

  /** WebPRescalerImportRow, which lives in the dsp code: the horizontally
      resampled value it writes at column `x` of `frow` for source row `row`. */
  type RowImporter = (int, int) -> int

  /** WebPRescalerExportRow's effect on the work array: the value it leaves in
      `irow[x]`, given the `irow` and `frow` rows and the accumulator. */
  type RowExporter = (seq<int>, seq<int>, int, int) -> int

  function Min(a: int, b: int): (r: int)
  {
    if a < b then a else b
  }

  function Max0(a: int): (r: int)
  {
    if a > 0 then a else 0
  }

  /** WebPRescalerHasPendingOutput: a destination row is ready when the
      accumulator has been driven non-positive and not every destination row
      has been produced. */
  predicate PendingOutput(yAccum: int, dstY: int, dstHeight: int)
    ensures PendingOutput(yAccum, dstY, dstHeight) ==> yAccum <= 0
    ensures dstY < dstHeight ==> (PendingOutput(yAccum, dstY, dstHeight) <==> yAccum <= 0)
    ensures dstY >= dstHeight ==> !PendingOutput(yAccum, dstY, dstHeight)
  {
    dstY < dstHeight && yAccum <= 0
  }

  /** How many rows WebPRescalerImport takes when it is offered `numLines`. */
  function ImportedLines(yAccum: int, ySub: int, dstY: int, dstHeight: int, numLines: int): (k: int)
    requires ySub >= 1
    ensures 0 <= k <= Max0(numLines)
    ensures PendingOutput(yAccum, dstY, dstHeight) ==> k == 0
  {
    if numLines <= 0 then 0
    else if dstY >= dstHeight then numLines
    else if yAccum <= 0 then 0
    else Min(numLines, CDiv(yAccum + ySub - 1, ySub))
  }

  /** The count ImportedLines gives is the one Import's loop produces: it
      stops at `numLines` or as soon as output is pending, and no row before
      it was taken while output was pending. */
  lemma ImportedLinesStops(yAccum: int, ySub: int, dstY: int, dstHeight: int, numLines: int)
    requires ySub >= 1
    ensures var k := ImportedLines(yAccum, ySub, dstY, dstHeight, numLines);
      && 0 <= k <= Max0(numLines)
      && (k == Max0(numLines) || PendingOutput(yAccum - k * ySub, dstY, dstHeight))
      && forall j :: 0 <= j < k ==> !PendingOutput(yAccum - j * ySub, dstY, dstHeight)
  {
    var k := ImportedLines(yAccum, ySub, dstY, dstHeight, numLines);
    if numLines > 0 && dstY < dstHeight && yAccum > 0 {
      CeilDivIsLeast(yAccum, ySub);
      var c := CDiv(yAccum + ySub - 1, ySub);
      forall j | 0 <= j < k
        ensures !PendingOutput(yAccum - j * ySub, dstY, dstHeight)
      {
        MulMonotone(j, c - 1, ySub);
      }
      MulMonotone(c, k, ySub);
    }
  }

  /** Conversely, any count with those three properties is ImportedLines. */
  lemma ImportedLinesUnique(yAccum: int, ySub: int, dstY: int, dstHeight: int, numLines: int, k: int)
    requires ySub >= 1
    requires 0 <= k <= Max0(numLines)
    requires k == Max0(numLines) || PendingOutput(yAccum - k * ySub, dstY, dstHeight)
    requires forall j :: 0 <= j < k ==> !PendingOutput(yAccum - j * ySub, dstY, dstHeight)
    ensures k == ImportedLines(yAccum, ySub, dstY, dstHeight, numLines)
  {
    ImportedLinesStops(yAccum, ySub, dstY, dstHeight, numLines);
    var m := ImportedLines(yAccum, ySub, dstY, dstHeight, numLines);
    assert k < m ==> !PendingOutput(yAccum - k * ySub, dstY, dstHeight);
    assert m < k ==> !PendingOutput(yAccum - m * ySub, dstY, dstHeight);
  }

  /** The accumulator only falls during an import, so if output was not
      pending before the last row taken, it was not pending before any. */
  lemma NotPendingBefore(yAccum: int, ySub: int, dstY: int, dstHeight: int, k: int)
    requires ySub >= 1
    requires k > 0 ==> !PendingOutput(yAccum - (k - 1) * ySub, dstY, dstHeight)
    ensures forall j :: 0 <= j < k ==> !PendingOutput(yAccum - j * ySub, dstY, dstHeight)
  {
    forall j | 0 <= j < k
      ensures !PendingOutput(yAccum - j * ySub, dstY, dstHeight)
    {
      MulMonotone(j, k - 1, ySub);
    }
  }

  /** Offered `numLines >= 0` rows while no output is pending and not every
      destination row is out, Import takes the needed-lines count, capped at
      `numLines`. */
  lemma ImportedLinesWhenReady(yAccum: int, ySub: int, dstY: int, dstHeight: int, numLines: int)
    requires ySub >= 1 && yAccum > 0 && dstY < dstHeight && numLines >= 0
    ensures var c := CDiv(yAccum + ySub - 1, ySub);
      ImportedLines(yAccum, ySub, dstY, dstHeight, numLines) == if c > numLines then numLines else c
  {
    CeilDivIsLeast(yAccum, ySub);
  }

  /** How many rows WebPRescalerExport produces. */
  function DrainCount(yAccum: int, yAdd: int, dstY: int, dstHeight: int): (n: int)
    requires yAdd >= 0
    ensures n > 0 <==> PendingOutput(yAccum, dstY, dstHeight)
    ensures 0 <= n && (dstY <= dstHeight ==> n <= dstHeight - dstY)
  {
    if !PendingOutput(yAccum, dstY, dstHeight) then 0
    else if yAdd == 0 then dstHeight - dstY
    else Min(dstHeight - dstY, (-yAccum) / yAdd + 1)
  }

  /** DrainCount is the count Export's loop produces: every row it exports
      was pending, and afterwards none is. */
  lemma DrainCountDrains(yAccum: int, yAdd: int, dstY: int, dstHeight: int)
    requires yAdd >= 0 && dstY <= dstHeight
    ensures var n := DrainCount(yAccum, yAdd, dstY, dstHeight);
      && 0 <= n <= dstHeight - dstY
      && !PendingOutput(yAccum + n * yAdd, dstY + n, dstHeight)
      && forall j :: 0 <= j < n ==> PendingOutput(yAccum + j * yAdd, dstY + j, dstHeight)
  {
    var n := DrainCount(yAccum, yAdd, dstY, dstHeight);
    if PendingOutput(yAccum, dstY, dstHeight) && yAdd > 0 {
      var q := (-yAccum) / yAdd;
      assert q * yAdd <= -yAccum < q * yAdd + yAdd;
      forall j | 0 <= j < n
        ensures PendingOutput(yAccum + j * yAdd, dstY + j, dstHeight)
      {
        MulMonotone(j, q, yAdd);
      }
      MulMonotone(q + 1, n, yAdd);
    }
  }

  /** Conversely, any count with those properties is DrainCount. */
  lemma DrainCountUnique(yAccum: int, yAdd: int, dstY: int, dstHeight: int, n: int)
    requires yAdd >= 0 && dstY <= dstHeight && n >= 0
    requires !PendingOutput(yAccum + n * yAdd, dstY + n, dstHeight)
    requires forall j :: 0 <= j < n ==> PendingOutput(yAccum + j * yAdd, dstY + j, dstHeight)
    ensures n == DrainCount(yAccum, yAdd, dstY, dstHeight)
  {
    DrainCountDrains(yAccum, yAdd, dstY, dstHeight);
    var m := DrainCount(yAccum, yAdd, dstY, dstHeight);
    assert n < m ==> PendingOutput(yAccum + n * yAdd, dstY + n, dstHeight);
    assert m < n ==> PendingOutput(yAccum + m * yAdd, dstY + m, dstHeight);
  }

  /** The row WebPRescalerImportRow produces from source row `row`. */
  function RowOf(importer: RowImporter, row: int, size: nat): (r: seq<int>)
    ensures |r| == size && forall x :: 0 <= x < size ==> r[x] == importer(row, x)
  {
    seq(size, x => importer(row, x))
  }

  /** Element-wise sum of two rows of the same length. */
  function AddRows(a: seq<int>, b: seq<int>): (r: seq<int>)
    requires |a| == |b|
    ensures |r| == |a| && forall x :: 0 <= x < |a| ==> r[x] == a[x] + b[x]
  {
    seq(|a|, x requires 0 <= x < |a| => a[x] + b[x])
  }

  /** The element-wise sum of the `k` rows imported from source row `src` on. */
  function SumOfRows(importer: RowImporter, src: int, k: nat, size: nat): (r: seq<int>)
    ensures |r| == size
  {
    if k == 0 then seq(size, x => 0)
    else AddRows(SumOfRows(importer, src, k - 1, size), RowOf(importer, src + k - 1, size))
  }

  /** The pair (irow, frow) of row contents after one turn of the import
      loop that brings in the row `next`: expanding keeps the two latest
      source rows, shrinking adds the new row into the accumulator. */
  function StepRows(expand: bool, rows: (seq<int>, seq<int>), next: seq<int>): (r: (seq<int>, seq<int>))
    requires |rows.0| == |next| && |rows.1| == |next|
    ensures r.1 == next && |r.0| == |next|
    ensures expand ==> r.0 == rows.1
    ensures !expand ==> forall x :: 0 <= x < |next| ==> r.0[x] == rows.0[x] + next[x]
  {
    if expand then (rows.1, next) else (AddRows(rows.0, next), next)
  }

  /** The pair (irow, frow) of row contents after `k` turns of the import
      loop, starting from rows `start` and source row `src`. */
  function RowsAfter(expand: bool, start: (seq<int>, seq<int>), importer: RowImporter, src: int, k: nat): (r: (seq<int>, seq<int>))
    requires |start.0| == |start.1|
    ensures |r.0| == |start.0| && |r.1| == |start.0|
  {
    if k == 0 then start
    else StepRows(expand, RowsAfter(expand, start, importer, src, k - 1), RowOf(importer, src + k - 1, |start.0|))
  }

  /** What `k` turns of the import loop leave in the two rows: the latest
      source row in frow; when expanding, the one before it (or the old frow
      after a single turn) in irow; when shrinking, the old irow plus the sum
      of all the imported rows. */
  lemma {:induction false} RowsAfterContents(expand: bool, start: (seq<int>, seq<int>), importer: RowImporter, src: int, k: nat)
    requires |start.0| == |start.1|
    ensures var r := RowsAfter(expand, start, importer, src, k);
      && (k > 0 ==> r.1 == RowOf(importer, src + k - 1, |start.0|))
      && (expand && k >= 2 ==> r.0 == RowOf(importer, src + k - 2, |start.0|))
      && (expand && k == 1 ==> r.0 == start.1)
      && (!expand ==> r.0 == AddRows(start.0, SumOfRows(importer, src, k, |start.0|)))
  {
    if k > 0 {
      RowsAfterContents(expand, start, importer, src, k - 1);
      if !expand {
        AccumulateStep(start.0, importer, src, k - 1, |start.0|);
      }
    }
  }

  /** Accumulating one more row into a running sum. */
  lemma AccumulateStep(base: seq<int>, importer: RowImporter, src: int, k: nat, size: nat)
    requires |base| == size
    ensures AddRows(AddRows(base, SumOfRows(importer, src, k, size)), RowOf(importer, src + k, size))
         == AddRows(base, SumOfRows(importer, src, k + 1, size))
  {
    var s := SumOfRows(importer, src, k, size);
    var r := RowOf(importer, src + k, size);
    assert SumOfRows(importer, src, k + 1, size) == AddRows(s, r);
  }

  /** The accumulation loop of WebPRescalerImport, irow[x] += frow[x], with
      the two rows given as offsets `dst` and `src` of length `n` into `a`,
      both below `end`. */
  method AddInto(a: array<int>, dst: int, src: int, n: int, end: int)
    requires 0 <= dst && 0 <= src && 0 <= n && dst + n <= end && src + n <= end && end <= a.Length
    requires dst + n <= src || src + n <= dst
    modifies a
    ensures a[dst..dst + n] == AddRows(old(a[dst..dst + n]), old(a[src..src + n]))
    ensures a[src..src + n] == old(a[src..src + n])
    ensures a[end..] == old(a[end..])
  {
    ghost var before := a[..];
    var x := 0;
    while x < n
      invariant 0 <= x <= n
      invariant forall i {:trigger a[i]} :: 0 <= i < a.Length ==>
        a[i] == (if dst <= i < dst + x then before[i] + before[i - dst + src] else before[i])
    {
      a[dst + x] := a[dst + x] + a[src + x];
      x := x + 1;
    }
    assert a[dst..dst + n] == AddRows(before[dst..dst + n], before[src..src + n]);
    assert a[src..src + n] == before[src..src + n];
    assert a[end..] == before[end..];
  }

  /** The rescaler state of rescaler_utils.c. The fields Init sets once are
      constants; the scheduler state (accumulator, row counters and the two
      row offsets into `work`) changes with every import and export. */
  class Rescaler {
    const xExpand: bool
    const yExpand: bool
    const srcWidth: int
    const srcHeight: int
    const dstWidth: int
    const dstHeight: int
    const dstStride: int
    const numChannels: int
    const xAdd: int
    const xSub: int
    const yAdd: int
    const ySub: int
    const fxScale: int
    const fyScale: int
    const fxyScale: int
    const work: array<int>

    var yAccum: int
    var srcY: int
    var dstY: int
    var irow: int
    var frow: int

    /** The length of one accumulation row: numChannels * dstWidth. */
    function RowSize(): int
    {
      numChannels * dstWidth
    }

    /** The settings Init fixes: the sizes, the two axes' steps and room for
        two rows in `work`. */
    ghost predicate Configured()
    {
      && srcWidth >= 1 && srcHeight >= 1 && dstWidth >= 1 && dstHeight >= 1 && numChannels >= 1
      && XAxis(srcWidth, dstWidth) == AxisScale(xExpand, xAdd, xSub)
      && YAxis(srcHeight, dstHeight) == AxisScale(yExpand, yAdd, ySub)
      && ySub >= 1 && yAdd >= 0
      && RowSize() >= 1 && 2 * RowSize() <= work.Length
    }

    /** Configured, with the two rows at offsets 0 and RowSize() of `work`
        in either order and the row counters in range. */
    ghost predicate Valid()
      reads this
    {
      && Configured()
      && ((irow == 0 && frow == RowSize()) || (irow == RowSize() && frow == 0))
      && 0 <= dstY <= dstHeight && srcY >= 0
    }

    /** The row `irow` designates. */
    ghost function IRow(): seq<int>
      reads this, work
      requires Valid()
    {
      work[irow..irow + RowSize()]
    }

    /** The row `frow` designates. */
    ghost function FRow(): seq<int>
      reads this, work
      requires Valid()
    {
      work[frow..frow + RowSize()]
    }

    predicate HasPendingOutput()
      reads this
      ensures HasPendingOutput() ==> yAccum <= 0
      ensures dstY < dstHeight ==> (HasPendingOutput() <==> yAccum <= 0)
      ensures dstY >= dstHeight ==> !HasPendingOutput()
    {
      PendingOutput(yAccum, dstY, dstHeight)
    }

    /** WebPRescalerInit. The caller's `work` array must hold at least the two
        rows; the destination buffer is not part of this model. */
    constructor Init(srcWidth: int, srcHeight: int, dstWidth: int, dstHeight: int, dstStride: int,
                     numChannels: int, work: array<int>)
      requires srcWidth >= 1 && srcHeight >= 1 && dstWidth >= 1 && dstHeight >= 1 && numChannels >= 1
      requires 2 * (numChannels * dstWidth) <= work.Length
      modifies work
      ensures Valid()
      ensures this.srcWidth == srcWidth && this.srcHeight == srcHeight
      ensures this.dstWidth == dstWidth && this.dstHeight == dstHeight
      ensures this.dstStride == dstStride && this.numChannels == numChannels && this.work == work
      ensures xExpand == (srcWidth < dstWidth) && yExpand == (srcHeight < dstHeight)
      ensures xAdd == (if xExpand then dstWidth - 1 else srcWidth)
      ensures xSub == (if xExpand then srcWidth - 1 else dstWidth)
      ensures yAdd == (if yExpand then srcHeight - 1 else srcHeight)
      ensures ySub == (if yExpand then dstHeight - 1 else dstHeight)
      ensures srcY == 0 && dstY == 0
      ensures yAccum == (if yExpand then ySub else yAdd) && yAccum >= 1
      ensures !xExpand ==> fxScale == Frac(1, xSub)
      ensures fyScale == (if yExpand then Frac(1, xAdd) else Frac(1, ySub))
      ensures !yExpand ==> fxyScale == FxyScale(dstHeight, xAdd, yAdd)
      ensures irow == 0 && frow == numChannels * dstWidth
      ensures forall i :: 0 <= i < 2 * (numChannels * dstWidth) ==> work[i] == 0
      ensures forall i :: 2 * (numChannels * dstWidth) <= i < work.Length ==> work[i] == old(work[i])
    {
      var x := XAxis(srcWidth, dstWidth);
      var y := YAxis(srcHeight, dstHeight);
      XAxisSteps(srcWidth, dstWidth);
      YAxisSteps(srcHeight, dstHeight);
      MulMonotone(1, numChannels, dstWidth);
      this.xExpand, this.yExpand := x.expand, y.expand;
      this.srcWidth, this.srcHeight := srcWidth, srcHeight;
      this.dstWidth, this.dstHeight := dstWidth, dstHeight;
      this.srcY, this.dstY := 0, 0;
      this.dstStride, this.numChannels := dstStride, numChannels;
      this.xAdd, this.xSub := x.add, x.sub;
      if !x.expand {
        this.fxScale := Frac(1, x.sub);
      }
      this.yAdd, this.ySub := y.add, y.sub;
      this.yAccum := InitialAccum(y);
      if !y.expand {
        this.fxyScale := FxyScale(dstHeight, x.add, y.add);
        this.fyScale := Frac(1, y.sub);
      } else {
        this.fyScale := Frac(1, x.add);
      }
      this.work := work;
      this.irow, this.frow := 0, numChannels * dstWidth;
      new;
      forall i | 0 <= i < 2 * (numChannels * dstWidth) {
        work[i] := 0;
      }
    }

    /** WebPRescaleNeededLines: how many more source rows must be imported for
        the next destination row to become ready, capped at maxNumLines. */
    function NeededLines(maxNumLines: int): (n: int)
      reads this
      requires ySub >= 1
      ensures n <= maxNumLines
      ensures CDiv(yAccum + ySub - 1, ySub) <= maxNumLines ==> n == CDiv(yAccum + ySub - 1, ySub)
      ensures CDiv(yAccum + ySub - 1, ySub) > maxNumLines ==> n == maxNumLines
      ensures yAccum > 0 && maxNumLines >= 1 ==>
        1 <= n && (n == maxNumLines || yAccum - n * ySub <= 0) && yAccum - (n - 1) * ySub > 0
      ensures yAccum > 0 && n < maxNumLines ==>
        n >= 1 && yAccum - n * ySub <= 0 && yAccum - (n - 1) * ySub > 0
      ensures 1 - 2 * ySub < yAccum <= 0 ==> n == Min(0, maxNumLines)
      ensures yAccum + ySub - 1 <= -ySub && maxNumLines >= 0 ==> n < 0
    {
      var numLines := CDiv(yAccum + ySub - 1, ySub);
      var n := if numLines > maxNumLines then maxNumLines else numLines;
      if yAccum > 0 then
        CeilDivIsLeast(yAccum, ySub);
        MulMonotone(n - 1, numLines - 1, ySub);
        n
      else if 1 - 2 * ySub < yAccum then
        CeilDivOfNonPositive(yAccum, ySub); n
      else
        assert numLines * ySub - ySub < yAccum + ySub - 1 <= numLines * ySub;
        n
    }

    /** WebPRescalerImportRow: fills the row `frow` designates and nothing else. */
    method ImportRow(importer: RowImporter, row: int)
      requires Valid()
      modifies work
      ensures FRow() == RowOf(importer, row, RowSize())
      ensures IRow() == old(IRow())
      ensures work[2 * RowSize()..] == old(work[2 * RowSize()..])
    {
      forall x | 0 <= x < RowSize() {
        work[frow + x] := importer(row, x);
      }
    }

    /** The accumulation step of WebPRescalerImport: irow[x] += frow[x]. */
    method AccumulateRow()
      requires Valid()
      modifies work
      ensures IRow() == AddRows(old(IRow()), old(FRow()))
      ensures FRow() == old(FRow())
      ensures work[2 * RowSize()..] == old(work[2 * RowSize()..])
    {
      AddInto(work, irow, frow, RowSize(), 2 * RowSize());
    }

    /** One turn of the loop in WebPRescalerImport: swap the rows when
        expanding, import source row `row` into `frow`, add it into `irow`
        when shrinking, and advance srcY and the accumulator. */
    method ImportOne(importer: RowImporter, row: int)
      requires Valid()
      modifies this`srcY, this`yAccum, this`irow, this`frow, work
      ensures Valid()
      ensures srcY == old(srcY) + 1 && yAccum == old(yAccum) - ySub
      ensures irow == (if yExpand then old(frow) else old(irow))
      ensures frow == (if yExpand then old(irow) else old(frow))
      ensures FRow() == RowOf(importer, row, RowSize())
      ensures yExpand ==> IRow() == old(FRow())
      ensures !yExpand ==> IRow() == AddRows(old(IRow()), FRow())
      ensures work[2 * RowSize()..] == old(work[2 * RowSize()..])
    {
      if yExpand {
        irow, frow := frow, irow;
        assert IRow() == old(FRow());
      }
      ImportRow(importer, row);
      if !yExpand {
        AccumulateRow();
      }
      srcY := srcY + 1;
      yAccum := yAccum - ySub;
    }

    /** The state of WebPRescalerImport's loop after `k` turns, measured from
        the accumulator `acc0`, row counter `srcY0`, row offsets `irow0` and
        `frow0`, row contents `start` and tail `tail` it started from. */
    ghost predicate ImportedSince(k: nat, acc0: int, srcY0: int, irow0: int, frow0: int,
                                  start: (seq<int>, seq<int>), tail: seq<int>, importer: RowImporter, src: int)
      reads this, work
    {
      && Valid()
      && |start.0| == RowSize() && |start.1| == RowSize()
      && srcY == srcY0 + k
      && yAccum == acc0 - k * ySub
      && irow == (if yExpand && k % 2 == 1 then frow0 else irow0)
      && frow == (if yExpand && k % 2 == 1 then irow0 else frow0)
      && IRow() == RowsAfter(yExpand, start, importer, src, k).0
      && FRow() == RowsAfter(yExpand, start, importer, src, k).1
      && work[2 * RowSize()..] == tail
    }

    /** The turn of WebPRescalerImport's loop that imports source row
        `src + k`: ImportOne, seen as one more step of the loop. */
    method ImportNext(importer: RowImporter, src: int, k: nat, ghost acc0: int, ghost srcY0: int,
                      ghost irow0: int, ghost frow0: int, ghost start: (seq<int>, seq<int>), ghost tail: seq<int>)
      requires ImportedSince(k, acc0, srcY0, irow0, frow0, start, tail, importer, src)
      modifies this`srcY, this`yAccum, this`irow, this`frow, work
      ensures ImportedSince(k + 1, acc0, srcY0, irow0, frow0, start, tail, importer, src)
      ensures yAccum == old(yAccum) - ySub
    {
      ghost var prev := RowsAfter(yExpand, start, importer, src, k);
      ImportOne(importer, src + k);
      ghost var next := RowOf(importer, src + k, RowSize());
      assert RowsAfter(yExpand, start, importer, src, k + 1) == StepRows(yExpand, prev, next);
      assert StepRows(yExpand, prev, next) == (if yExpand then (prev.1, next) else (AddRows(prev.0, next), next));
      assert (k + 1) * ySub == k * ySub + ySub;
    }

    /** WebPRescalerImport: imports up to numLines source rows, the first one
        being row `src` of the caller's image, and stops early as soon as a
        destination row is pending. While expanding vertically the two rows
        swap roles before each import, so the two latest source rows are kept;
        while shrinking, each imported row is added into `irow`. */
    method Import(numLines: int, src: int, importer: RowImporter) returns (totalImported: int)
      requires Valid()
      modifies this`srcY, this`yAccum, this`irow, this`frow, work
      ensures Valid()
      ensures 0 <= totalImported <= Max0(numLines)
      ensures totalImported == ImportedLines(old(yAccum), ySub, dstY, dstHeight, numLines)
      ensures totalImported == Max0(numLines) || HasPendingOutput()
      ensures forall j :: 0 <= j < totalImported ==> !PendingOutput(old(yAccum) - j * ySub, dstY, dstHeight)
      ensures old(yAccum) > 0 && dstY < dstHeight && numLines >= 0 ==> totalImported == old(NeededLines(numLines))
      ensures srcY == old(srcY) + totalImported
      ensures yAccum == old(yAccum) - totalImported * ySub
      ensures irow == (if yExpand && totalImported % 2 == 1 then old(frow) else old(irow))
      ensures frow == (if yExpand && totalImported % 2 == 1 then old(irow) else old(frow))
      ensures IRow() == RowsAfter(yExpand, (old(IRow()), old(FRow())), importer, src, totalImported).0
      ensures FRow() == RowsAfter(yExpand, (old(IRow()), old(FRow())), importer, src, totalImported).1
      ensures totalImported == 0 ==> work[..] == old(work[..])
      ensures work[2 * RowSize()..] == old(work[2 * RowSize()..])
    {
      ghost var acc0, irow0, frow0, srcY0 := yAccum, irow, frow, srcY;
      ghost var start, tail := (IRow(), FRow()), work[2 * RowSize()..];
      totalImported := 0;
      while totalImported < numLines && !HasPendingOutput()
        invariant ImportedSince(totalImported, acc0, srcY0, irow0, frow0, start, tail, importer, src)
        invariant 0 <= totalImported <= Max0(numLines)
        invariant totalImported > 0 ==> !PendingOutput(yAccum + ySub, dstY, dstHeight)
        invariant totalImported == 0 ==> work[..] == old(work[..])
        decreases numLines - totalImported
      {
        ImportNext(importer, src, totalImported, acc0, srcY0, irow0, frow0, start, tail);
        totalImported := totalImported + 1;
      }
      NotPendingBefore(acc0, ySub, dstY, dstHeight, totalImported);
      ImportedLinesUnique(acc0, ySub, dstY, dstHeight, numLines, totalImported);
      if acc0 > 0 && dstY < dstHeight && numLines >= 0 {
        ImportedLinesWhenReady(acc0, ySub, dstY, dstHeight, numLines);
      }
    }

    /** WebPRescalerExportRow: produces destination row dstY (the destination
        buffer is not part of this model), may rewrite the row `irow`
        designates, and advances dstY by one and the accumulator by yAdd. */
    method ExportRow(exporter: RowExporter)
      requires Valid() && HasPendingOutput()
      modifies this`yAccum, this`dstY, work
      ensures Valid()
      ensures dstY == old(dstY) + 1 && yAccum == old(yAccum) + yAdd
      ensures forall i :: irow <= i < irow + RowSize() ==>
        work[i] == exporter(old(IRow()), old(FRow()), old(yAccum), i - irow)
      ensures forall i :: 0 <= i < work.Length && !(irow <= i < irow + RowSize()) ==> work[i] == old(work[i])
    {
      var iv, fv := work[irow..irow + RowSize()], work[frow..frow + RowSize()];
      forall x | 0 <= x < RowSize() {
        work[irow + x] := exporter(iv, fv, yAccum, x);
      }
      yAccum := yAccum + yAdd;
      dstY := dstY + 1;
    }

    /** WebPRescalerExport: exports rows while one is pending and returns how
        many it exported. */
    method Export(exporter: RowExporter) returns (totalExported: int)
      requires Valid()
      modifies this`yAccum, this`dstY, work
      ensures Valid()
      ensures totalExported == DrainCount(old(yAccum), yAdd, old(dstY), dstHeight)
      ensures totalExported >= 0 && !HasPendingOutput()
      ensures forall j :: 0 <= j < totalExported ==> PendingOutput(old(yAccum) + j * yAdd, old(dstY) + j, dstHeight)
      ensures dstY == old(dstY) + totalExported
      ensures yAccum == old(yAccum) + totalExported * yAdd
      ensures !old(HasPendingOutput()) ==> totalExported == 0 && work[..] == old(work[..])
      ensures forall i :: 0 <= i < work.Length && !(irow <= i < irow + RowSize()) ==> work[i] == old(work[i])
    {
      totalExported := 0;
      while HasPendingOutput()
        invariant Valid()
        invariant totalExported >= 0
        invariant forall j :: 0 <= j < totalExported ==> PendingOutput(old(yAccum) + j * yAdd, old(dstY) + j, dstHeight)
        invariant dstY == old(dstY) + totalExported
        invariant yAccum == old(yAccum) + totalExported * yAdd
        invariant totalExported == 0 ==> work[..] == old(work[..])
        invariant forall i :: 0 <= i < work.Length && !(irow <= i < irow + RowSize()) ==> work[i] == old(work[i])
        decreases dstHeight - dstY
      {
        assert PendingOutput(old(yAccum) + totalExported * yAdd, old(dstY) + totalExported, dstHeight);
        ExportRow(exporter);
        assert (totalExported + 1) * yAdd == totalExported * yAdd + yAdd;
        totalExported := totalExported + 1;
      }
      DrainCountUnique(old(yAccum), yAdd, old(dstY), dstHeight, totalExported);
    }
  }
}
