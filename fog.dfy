/** The fog-of-war grid of the multiplayer version (js/fog.js): a cell array cleared every
    frame and raised around the player. */
module Fog {
  import opened JsMath
  import opened Wrappers
  import Core

  const CellSize: real := 40.0
  /** `Math.ceil(WORLD_WIDTH / FOG_CELL_SIZE)` and the same for the height. */
  const Cols: int := 48
  const Rows: int := 38
  const OuterRadius: real := 450.0
  const InnerRadius: real := 240.0
  const OuterSq: real := 202500.0
  const InnerSq: real := 57600.0

  /** `Math.ceil`. */
  function Ceil(x: real): (n: int)
    ensures x <= n as real < x + 1.0
  {
    -((-x).Floor)
  }

  lemma GridSize()
    ensures Cols == Ceil(Core.WorldWidth / CellSize)
    ensures Rows == Ceil(Core.WorldHeight / CellSize)
    ensures OuterSq == OuterRadius * OuterRadius && InnerSq == InnerRadius * InnerRadius
  {
  }

  /** The centre of cell `i` along one axis. */
  function Centre(i: int): real {
    i as real * CellSize + CellSize / 2.0
  }

  /** The squared distance from `(tx, ty)` to the centre of a cell. */
  function DistSq(tx: real, ty: real, col: int, row: int): (d: real)
    ensures d >= 0.0
  {
    Square(Centre(col) - tx) + Square(Centre(row) - ty)
  }

  /** The influence of a reveal on a cell within the outer radius: 1 inside the inner radius,
      falling off linearly with the distance to 0 at the outer radius. */
  function Influence(m: MathLib, d: real): real {
    if d <= InnerSq then 1.0
    else 1.0 - (m.sqrt(d) - InnerRadius) / (OuterRadius - InnerRadius)
  }

  lemma InfluenceInRange(m: MathLib, d: real)
    requires m.Valid() && 0.0 <= d <= OuterSq
    ensures 0.0 <= Influence(m, d) <= 1.0
    ensures d <= InnerSq ==> Influence(m, d) == 1.0
  {
    if d > InnerSq {
      SqrtCompare(m, d, OuterRadius);
      SqrtCompare(m, d, InnerRadius);
    }
  }

  /** A cell's value after `applyReveal(tx, ty)`: raised to the influence when its centre is
      within the outer radius, untouched otherwise. */
  function Revealed(prev: real, m: MathLib, tx: real, ty: real, col: int, row: int): real {
    var d := DistSq(tx, ty, col, row);
    if d > OuterSq then prev else Max(prev, Influence(m, d))
  }

  /** The reveal never lowers a cell, keeps cells in [0, 1], leaves cells beyond the outer
      radius alone and sets cells within the inner radius to 1. */
  lemma RevealProperties(prev: real, m: MathLib, tx: real, ty: real, col: int, row: int)
    requires m.Valid()
    ensures Revealed(prev, m, tx, ty, col, row) >= prev
    ensures 0.0 <= prev <= 1.0 ==> 0.0 <= Revealed(prev, m, tx, ty, col, row) <= 1.0
    ensures DistSq(tx, ty, col, row) > OuterSq ==> Revealed(prev, m, tx, ty, col, row) == prev
    ensures prev <= 1.0 && DistSq(tx, ty, col, row) <= InnerSq ==> Revealed(prev, m, tx, ty, col, row) == 1.0
  {
    var d := DistSq(tx, ty, col, row);
    if d <= OuterSq {
      InfluenceInRange(m, d);
    }
  }

  /** A cell whose centre is 100 units from the player is fully revealed; one 500 units away
      stays dark. */
  lemma RevealScenarios(m: MathLib)
    requires m.Valid()
    ensures Revealed(0.0, m, Centre(10) - 100.0, Centre(10), 10, 10) == 1.0
    ensures Revealed(0.0, m, Centre(20) - 500.0, Centre(10), 20, 10) == 0.0
  {
    assert DistSq(Centre(10) - 100.0, Centre(10), 10, 10) == 10000.0;
    assert DistSq(Centre(20) - 500.0, Centre(10), 20, 10) == 250000.0;
  }

  /** The cell rectangle `applyReveal` visits along one axis, clamped to the grid. */
  function StartCell(t: real): (s: int)
    ensures s >= 0
  {
    var f := ((t - OuterRadius) / CellSize).Floor;
    if f < 0 then 0 else f
  }

  function EndCell(t: real, count: int): (e: int)
    ensures e <= count - 1
  {
    var f := ((t + OuterRadius) / CellSize).Floor;
    if f > count - 1 then count - 1 else f
  }

  /** Along one axis, a cell outside the visited range has its centre more than the outer
      radius away. */
  lemma OutsideRangeIsFar(t: real, i: int, count: int)
    requires 0 <= i < count
    requires i < StartCell(t) || i > EndCell(t, count)
    ensures Abs(Centre(i) - t) > OuterRadius
  {
    if i < StartCell(t) {
      var f := ((t - OuterRadius) / CellSize).Floor;
      assert StartCell(t) == f;
      assert (i + 1) as real <= (t - OuterRadius) / CellSize;
    } else {
      var f := ((t + OuterRadius) / CellSize).Floor;
      assert EndCell(t, count) == f;
      assert i as real > (t + OuterRadius) / CellSize;
    }
  }

  /** So a cell outside the rectangle is beyond the outer radius: visiting only the rectangle
      reaches every cell the reveal can change. */
  lemma OutsideRectIsFar(tx: real, ty: real, col: int, row: int)
    requires 0 <= col < Cols && 0 <= row < Rows
    requires !(StartCell(tx) <= col <= EndCell(tx, Cols) && StartCell(ty) <= row <= EndCell(ty, Rows))
    ensures DistSq(tx, ty, col, row) > OuterSq
  {
    if !(StartCell(tx) <= col <= EndCell(tx, Cols)) {
      OutsideRangeIsFar(tx, col, Cols);
      SquareBeyond(Centre(col) - tx, OuterRadius);
    } else {
      OutsideRangeIsFar(ty, row, Rows);
      SquareBeyond(Centre(row) - ty, OuterRadius);
    }
  }

  /** Where an observer stands. */
  datatype Observer = Observer(x: real, y: real, isDestroyed: bool)

  /** A cell's value after `update`: the field is cleared and then revealed around a live
      player only. */
  function CellAfterUpdate(m: MathLib, player: Option<Observer>, col: int, row: int): real {
    if player.Some? && !player.value.isDestroyed then Revealed(0.0, m, player.value.x, player.value.y, col, row)
    else 0.0
  }

  /** Every cell lies in [0, 1] after `update`; with no live player every cell is 0. */
  lemma UpdateBounds(m: MathLib, player: Option<Observer>, col: int, row: int)
    requires m.Valid()
    ensures 0.0 <= CellAfterUpdate(m, player, col, row) <= 1.0
    ensures (player.None? || player.value.isDestroyed) ==> CellAfterUpdate(m, player, col, row) == 0.0
  {
    if player.Some? && !player.value.isDestroyed {
      RevealProperties(0.0, m, player.value.x, player.value.y, col, row);
    }
  }

  class FogRenderer {
    /** Whether `getContext('2d')` returned a context. */
    const hasContext: bool
    const alphaField: array<real>

    ghost predicate Valid()
      reads this
    {
      alphaField.Length == Cols * Rows
    }

    constructor (hasContext: bool)
      ensures Valid() && fresh(alphaField) && this.hasContext == hasContext
      ensures forall i :: 0 <= i < alphaField.Length ==> alphaField[i] == 0.0
    {
      this.hasContext := hasContext;
      alphaField := new real[Cols * Rows](_ => 0.0);
    }

    /** The body of the column loop of `applyReveal`: one cell raised to its influence. */
    method RevealCell(m: MathLib, tx: real, ty: real, col: int, row: int)
      requires Valid() && 0 <= col < Cols && 0 <= row < Rows
      modifies alphaField
      ensures forall i :: 0 <= i < alphaField.Length ==>
                alphaField[i] == (if i == row * Cols + col then Revealed(old(alphaField[i]), m, tx, ty, col, row)
                                  else old(alphaField[i]))
    {
      var cx := col as real * CellSize + CellSize / 2.0;
      var cy := row as real * CellSize + CellSize / 2.0;
      var dx := cx - tx;
      var dy := cy - ty;
      var distSq := Square(dx) + Square(dy);
      assert distSq == DistSq(tx, ty, col, row);
      if distSq <= OuterSq {
        var influence := 0.0;
        if distSq <= InnerSq {
          influence := 1.0;
        } else {
          var dist := m.sqrt(distSq);
          influence := 1.0 - (dist - InnerRadius) / (OuterRadius - InnerRadius);
        }
        var idx := row * Cols + col;
        if influence > alphaField[idx] {
          alphaField[idx] := influence;
        }
      }
    }

    /** `applyReveal(tx, ty)`: the nested loops over the clamped cell rectangle. */
    method ApplyReveal(m: MathLib, tx: real, ty: real)
      requires Valid()
      modifies alphaField
      ensures forall i :: 0 <= i < alphaField.Length ==>
                alphaField[i] == Revealed(old(alphaField[i]), m, tx, ty, i % Cols, i / Cols)
    {
      var startCol := StartCell(tx);
      var endCol := EndCell(tx, Cols);
      var startRow := StartCell(ty);
      var endRow := EndCell(ty, Rows);
      var row := startRow;
      while row <= endRow
        invariant startRow <= row && (row <= endRow + 1 || row == startRow)
        invariant forall i :: 0 <= i < alphaField.Length ==>
                    alphaField[i] == (if startRow <= i / Cols < row && startCol <= i % Cols <= endCol
                                      then Revealed(old(alphaField[i]), m, tx, ty, i % Cols, i / Cols)
                                      else old(alphaField[i]))
        decreases endRow - row
      {
        var col := startCol;
        while col <= endCol
          invariant startCol <= col && (col <= endCol + 1 || col == startCol)
          invariant forall i :: 0 <= i < alphaField.Length ==>
                      alphaField[i] == (if (startRow <= i / Cols < row && startCol <= i % Cols <= endCol) ||
                                           (i / Cols == row && startCol <= i % Cols < col)
                                        then Revealed(old(alphaField[i]), m, tx, ty, i % Cols, i / Cols)
                                        else old(alphaField[i]))
          decreases endCol - col
        {
          assert (row * Cols + col) / Cols == row && (row * Cols + col) % Cols == col;
          RevealCell(m, tx, ty, col, row);
          col := col + 1;
        }
        row := row + 1;
      }
      forall i | 0 <= i < alphaField.Length
        ensures alphaField[i] == Revealed(old(alphaField[i]), m, tx, ty, i % Cols, i / Cols)
      {
        if !(startRow <= i / Cols <= endRow && startCol <= i % Cols <= endCol) {
          OutsideRectIsFar(tx, ty, i % Cols, i / Cols);
        }
      }
    }

    /** `update`: without a context nothing happens; otherwise the field is cleared and the
        live player, if any, reveals around itself. */
    method Update(m: MathLib, player: Option<Observer>)
      requires Valid()
      modifies alphaField
      ensures !hasContext ==> forall i :: 0 <= i < alphaField.Length ==> alphaField[i] == old(alphaField[i])
      ensures hasContext ==> forall i :: 0 <= i < alphaField.Length ==>
                alphaField[i] == CellAfterUpdate(m, player, i % Cols, i / Cols)
    {
      if !hasContext {
        return;
      }
      for i := 0 to alphaField.Length
        invariant forall j :: 0 <= j < i ==> alphaField[j] == 0.0
      {
        alphaField[i] := 0.0;
      }
      if player.Some? && !player.value.isDestroyed {
        ApplyReveal(m, player.value.x, player.value.y);
      }
    }
  }
}
