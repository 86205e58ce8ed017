/** The row bookkeeping of a whole rescale driven the usual way: each source
    row is offered to WebPRescalerImport on its own, and WebPRescalerExport
    drains whatever became pending. The counts are those Import and Export
    are proved to produce; the lemmas show that after the last source row
    every destination row is out, and where the accumulator ends up. */
module Streaming {
  import opened CInt
  import opened RescalerParams
  import opened RescalerUtils

  /** The accumulator and destination row after offering one more source row
      to Import and then calling Export, from accumulator `acc` and
      destination row `dstY`. */
  function Round(y: AxisScale, dstHeight: int, acc: int, dstY: int): (r: (int, int))
    requires y.sub >= 1 && y.add >= 0 && 0 <= dstY <= dstHeight
    ensures dstY <= r.1 <= dstHeight
    ensures !PendingOutput(r.0, r.1, dstHeight)
  {
    var k := ImportedLines(acc, y.sub, dstY, dstHeight, 1);
    var acc1 := acc - k * y.sub;
    var n := DrainCount(acc1, y.add, dstY, dstHeight);
    DrainCountDrains(acc1, y.add, dstY, dstHeight);
    (acc1 + n * y.add, dstY + n)
  }

  /** The state after the first `r` source rows, starting from Init's, for
      the vertical steps `y` and `dstHeight` destination rows. */
  function Rounds(y: AxisScale, dstHeight: int, r: nat): (s: (int, int))
    requires y.sub >= 1 && y.add >= 0 && dstHeight >= 1
    ensures 0 <= s.1 <= dstHeight
  {
    if r == 0 then (InitialAccum(y), 0)
    else
      var prev := Rounds(y, dstHeight, r - 1);
      Round(y, dstHeight, prev.0, prev.1)
  }

  /** One round keeps the accumulator in (0, add] while rows remain, and
      moves it by -sub plus add per exported row. The premise holds after
      Init (the accumulator is add when shrinking and sub when expanding) and,
      by this lemma, after every round. */
  lemma RoundKeeps(y: AxisScale, dstHeight: int, acc: int, dstY: int)
    requires y.sub >= 1 && y.add >= 1 && 0 <= dstY <= dstHeight
    requires dstY < dstHeight ==> 0 < acc && (acc <= y.add || acc <= y.sub)
    ensures var r := Round(y, dstHeight, acc, dstY);
      && r.0 == acc - y.sub + (r.1 - dstY) * y.add
      && (r.1 < dstHeight ==> 0 < r.0 <= y.add)
      && (dstY == dstHeight ==> r.1 == dstHeight)
  {
    var r := Round(y, dstHeight, acc, dstY);
    if dstY < dstHeight {
      CeilDivIsLeast(acc, y.sub);
      assert ImportedLines(acc, y.sub, dstY, dstHeight, 1) == 1;
      var acc1 := acc - y.sub;
      var n := r.1 - dstY;
      DrainCountDrains(acc1, y.add, dstY, dstHeight);
      assert n == DrainCount(acc1, y.add, dstY, dstHeight);
      if n > 0 {
        assert PendingOutput(acc1 + (n - 1) * y.add, dstY + n - 1, dstHeight);
        MulAdd(n - 1, 1, y.add);
      }
    }
  }

  /** What holds after `r` rounds from Init when the vertical `add` is
      positive: the accumulator equals its initial value minus sub for each
      row in plus add for each row out, and while rows remain it is positive
      and, from the first round on, at most add. */
  lemma {:induction false} RoundsKeep(y: AxisScale, dstHeight: int, r: nat)
    requires y.sub >= 1 && y.add >= 1 && dstHeight >= 1
    requires InitialAccum(y) == y.add || InitialAccum(y) == y.sub
    ensures var s := Rounds(y, dstHeight, r);
      && s.0 + r * y.sub == InitialAccum(y) + s.1 * y.add
      && (s.1 < dstHeight ==> 0 < s.0 && (s.0 <= y.add || (r == 0 && s.0 <= y.sub)))
  {
    if r > 0 {
      RoundsKeep(y, dstHeight, r - 1);
      var p := Rounds(y, dstHeight, r - 1);
      RoundsStep(y, dstHeight, r, p.0, p.1);
    }
  }

  /** The inductive step of RoundsKeep: round `r` from a state that satisfies
      the law after `r - 1` rounds satisfies it after `r`. */
  lemma RoundsStep(y: AxisScale, dstHeight: int, r: int, acc: int, dstY: int)
    requires y.sub >= 1 && y.add >= 1 && 0 <= dstY <= dstHeight && r >= 1
    requires InitialAccum(y) == y.add || InitialAccum(y) == y.sub
    requires acc + (r - 1) * y.sub == InitialAccum(y) + dstY * y.add
    requires dstY < dstHeight ==> 0 < acc && (acc <= y.add || (r == 1 && acc <= y.sub))
    ensures var s := Round(y, dstHeight, acc, dstY);
      && s.0 + r * y.sub == InitialAccum(y) + s.1 * y.add
      && (s.1 < dstHeight ==> 0 < s.0 && s.0 <= y.add)
  {
    RoundKeeps(y, dstHeight, acc, dstY);
    var s := Round(y, dstHeight, acc, dstY);
    ConservationStep(InitialAccum(y), y.add, y.sub, r, acc, dstY, s.0, s.1);
  }

  /** The conservation law of RoundsKeep carried over one round. */
  lemma ConservationStep(init: int, add: int, sub: int, r: int, acc: int, dstY: int, acc': int, dstY': int)
    requires acc + (r - 1) * sub == init + dstY * add
    requires acc' == acc - sub + (dstY' - dstY) * add
    ensures acc' + r * sub == init + dstY' * add
  {
    MulAdd(r - 1, 1, sub);
    MulAdd(dstY, dstY' - dstY, add);
  }

  /** Feeding every source row once produces every destination row: after S
      rounds dstY == D. The accumulator is then back at its initial value S
      when shrinking, but ends at S - 1 (not at its initial D - 1) when
      expanding. */
  lemma AllRowsOut(srcHeight: int, dstHeight: int)
    requires srcHeight >= 1 && dstHeight >= 1
    ensures
      Rounds(YAxis(srcHeight, dstHeight), dstHeight, srcHeight).1 == dstHeight
    ensures srcHeight >= dstHeight ==>
      Rounds(YAxis(srcHeight, dstHeight), dstHeight, srcHeight).0 == InitialAccum(YAxis(srcHeight, dstHeight)) == srcHeight
    ensures srcHeight < dstHeight ==>
      Rounds(YAxis(srcHeight, dstHeight), dstHeight, srcHeight).0 == srcHeight - 1 < InitialAccum(YAxis(srcHeight, dstHeight))
  {
    var S, D := srcHeight, dstHeight;
    var y := YAxis(S, D);
    YAxisSteps(S, D);
    if y.add == 0 {
      assert S == 1 && y.sub == D - 1 && Rounds(y, D, 0) == (D - 1, 0);
      CeilDivIsLeast(D - 1, D - 1);
      assert ImportedLines(D - 1, D - 1, 0, D, 1) == 1;
    } else {
      RoundsKeep(y, D, S);
      var s := Rounds(y, D, S);
      var n := s.1;
      if S >= D {
        assert y.add == S && y.sub == D && InitialAccum(y) == S;
        ShrinkEnd(S, D, s.1, s.0);
      } else {
        assert y.add == S - 1 && y.sub == D - 1 && InitialAccum(y) == D - 1;
        ExpandEnd(S, D, s.1, s.0);
      }
    }
  }

  /** The arithmetic of AllRowsOut when shrinking: with (add, sub) = (S, D)
      and the accumulator starting at S, the conservation law and the bound
      while rows remain leave only n == D, with the accumulator back at S. */
  lemma ShrinkEnd(S: int, D: int, n: int, acc: int)
    requires 1 <= D <= S && 0 <= n <= D
    requires acc + S * D == S + n * S
    requires n < D ==> 0 < acc
    ensures n == D && acc == S
  {
    if n < D {
      MulAdd(D - 1, 1, S);
      MulMonotone(n, D - 1, S);
    }
    assert n * S == S * D;
  }

  /** The same when expanding: (add, sub) = (S - 1, D - 1) and the
      accumulator starts at D - 1; it ends at S - 1. */
  lemma ExpandEnd(S: int, D: int, n: int, acc: int)
    requires 2 <= S < D && 0 <= n <= D
    requires acc + S * (D - 1) == (D - 1) + n * (S - 1)
    requires n < D ==> 0 < acc
    ensures n == D && acc == S - 1
  {
    MulAdd(S - 1, 1, D - 1);
    assert S * (D - 1) == (S - 1) * (D - 1) + (D - 1);
    if n < D {
      MulMonotone(n, D - 1, S - 1);
    }
    MulAdd(D - 1, 1, S - 1);
  }

  /** One round on a live rescaler: Import offered source row `row` alone,
      then Export. Its effect on the accumulator and the destination row
      is Round's. */
  method ImportThenExport(r: Rescaler, row: int, importer: RowImporter, exporter: RowExporter)
    returns (imported: int, exported: int)
    requires r.Valid()
    modifies r`srcY, r`yAccum, r`irow, r`frow, r`dstY, r.work
    ensures r.Valid()
    ensures (r.yAccum, r.dstY) == Round(YAxis(r.srcHeight, r.dstHeight), r.dstHeight, old(r.yAccum), old(r.dstY))
    ensures r.srcY == old(r.srcY) + imported
  {
    imported := r.Import(1, row, importer);
    exported := r.Export(exporter);
  }
}
