/** The fog field of the single-player game (app.js `initializeFogGrid`, `ensureFogGrid`,
    `updateFogField` and the state part of `renderFog`): a cell array that fades back by
    `delta / 3` per frame and is raised around the player and a visible enemy. */
module AppFog {
  import opened JsMath
  import opened AppRules
  import Fog

  const CellSize: real := 16.0
  const RestoreSeconds: real := 3.0
  /** `tankBaseSize * 5` and `tankBaseSize * 2` with `tankBaseSize = 48`. */
  const InnerRadius: real := 240.0
  const FalloffRadius: real := 96.0
  const OuterRadius: real := 336.0
  const InnerSq: real := 57600.0
  const OuterSq: real := 112896.0
  /** `fogOuterRadius - fogInnerRadius || 1`. */
  const FalloffRange: real := 96.0
  const Cols: int := 120
  const Rows: int := 94
  const CellCount: int := 11280

  lemma GridSize()
    ensures InnerRadius == Max(HalfChassisWidth, HalfChassisHeight) * 5.0
    ensures FalloffRadius == Max(HalfChassisWidth, HalfChassisHeight) * 2.0
    ensures OuterRadius == InnerRadius + FalloffRadius
    ensures FalloffRange == (if OuterRadius - InnerRadius != 0.0 then OuterRadius - InnerRadius else 1.0)
    ensures InnerSq == InnerRadius * InnerRadius && OuterSq == OuterRadius * OuterRadius
    ensures Cols == Fog.Ceil(WorldWidth / CellSize) && Rows == Fog.Ceil(WorldHeight / CellSize)
    ensures CellCount == Cols * Rows
  {
  }

  function Centre(i: int): real {
    i as real * CellSize + CellSize / 2.0
  }

  /** The squared distance from `(tx, ty)` to the centre of a cell. */
  function DistSq(tx: real, ty: real, col: int, row: int): (d: real)
    ensures d >= 0.0
  {
    Square(Centre(col) - tx) + Square(Centre(row) - ty)
  }

  /** 1 inside the inner radius, falling off linearly to 0 at the outer radius. */
  function Influence(m: MathLib, d: real): real {
    if d <= InnerSq then 1.0 else 1.0 - (m.sqrt(d) - InnerRadius) / FalloffRange
  }

  lemma InfluenceInRange(m: MathLib, d: real)
    requires m.Valid() && 0.0 <= d <= OuterSq
    ensures 0.0 <= Influence(m, d) <= 1.0
  {
    if d > InnerSq {
      SqrtCompare(m, d, OuterRadius);
      SqrtCompare(m, d, InnerRadius);
    }
  }

  /** A cell after one `applyReveal(tx, ty)`. */
  function Revealed(prev: real, m: MathLib, tx: real, ty: real, col: int, row: int): real {
    var d := DistSq(tx, ty, col, row);
    if d > OuterSq then prev else Max(prev, Influence(m, d))
  }

  /** A reveal only raises a cell, keeps it in [0, 1], leaves cells beyond the outer radius
      alone and clears cells within the inner radius completely. */
  lemma RevealProperties(prev: real, m: MathLib, tx: real, ty: real, col: int, row: int)
    requires m.Valid()
    ensures Revealed(prev, m, tx, ty, col, row) >= prev
    ensures 0.0 <= prev <= 1.0 ==> 0.0 <= Revealed(prev, m, tx, ty, col, row) <= 1.0
    ensures DistSq(tx, ty, col, row) > OuterSq ==> Revealed(prev, m, tx, ty, col, row) == prev
    ensures prev <= 1.0 && DistSq(tx, ty, col, row) <= InnerSq ==> Revealed(prev, m, tx, ty, col, row) == 1.0
  {
    var d := DistSq(tx, ty, col, row);
    if d <= OuterSq {
      InfluenceInRange(m, d);
    }
  }

  /** One cell of the decay loop: lowered by `delta / 3` and floored at 0, only when
      `delta > 0`. */
  function Decayed(v: real, delta: real): (r: real)
    ensures delta <= 0.0 ==> r == v
    ensures delta > 0.0 ==> r == Max(0.0, v - delta / RestoreSeconds)
  {
    if delta > 0.0 then
      var value := v - delta / RestoreSeconds;
      if value > 0.0 then value else 0.0
    else v
  }

  /** Decay never raises a cell and keeps a cell of [0, 1] inside it. */
  lemma DecayBounds(v: real, delta: real)
    ensures 0.0 <= v ==> 0.0 <= Decayed(v, delta) <= v
    ensures v <= 1.0 ==> Decayed(v, delta) <= 1.0
  {
  }

  /** A frame long enough fades any cell of [0, 1] fully back: after 3 seconds the fog is
      restored. */
  lemma DecayRestores(v: real, delta: real)
    requires 0.0 <= v <= 1.0 && delta >= RestoreSeconds
    ensures Decayed(v, delta) == 0.0
  {
  }

  function StartCell(t: real): (s: int)
    ensures s >= 0
  {
    var f := ((t - OuterRadius) / CellSize).Floor;
    if f < 0 then 0 else f
  }

  function EndCell(t: real, count: int): (e: int)
    ensures e <= count - 1
  {
    var f := ((t + OuterRadius) / CellSize).Floor;
    if f > count - 1 then count - 1 else f
  }

  lemma OutsideRangeIsFar(t: real, i: int, count: int)
    requires 0 <= i < count
    requires i < StartCell(t) || i > EndCell(t, count)
    ensures Abs(Centre(i) - t) > OuterRadius
  {
    if i < StartCell(t) {
      var f := ((t - OuterRadius) / CellSize).Floor;
      assert StartCell(t) == f;
      assert (i + 1) as real <= (t - OuterRadius) / CellSize;
    } else {
      var f := ((t + OuterRadius) / CellSize).Floor;
      assert EndCell(t, count) == f;
      assert i as real > (t + OuterRadius) / CellSize;
    }
  }

  /** The clamped rectangle `applyReveal` visits holds every cell the reveal can change. */
  lemma OutsideRectIsFar(tx: real, ty: real, col: int, row: int)
    requires 0 <= col < Cols && 0 <= row < Rows
    requires !(StartCell(tx) <= col <= EndCell(tx, Cols) && StartCell(ty) <= row <= EndCell(ty, Rows))
    ensures DistSq(tx, ty, col, row) > OuterSq
  {
    if !(StartCell(tx) <= col <= EndCell(tx, Cols)) {
      OutsideRangeIsFar(tx, col, Cols);
      SquareBeyond(Centre(col) - tx, OuterRadius);
    } else {
      OutsideRangeIsFar(ty, row, Rows);
      SquareBeyond(Centre(row) - ty, OuterRadius);
    }
  }

  /** The field `ensureFogGrid` leaves: a fresh all-zero grid when none exists yet. */
  function Grid(prev: seq<real>): (g: seq<real>)
    ensures |g| == if |prev| == 0 then CellCount else |prev|
    ensures |prev| == 0 ==> forall i :: 0 <= i < |g| ==> g[i] == 0.0
    ensures |prev| != 0 ==> g == prev
  {
    if |prev| == 0 then seq(CellCount, _ => 0.0) else prev
  }

  /** Whether the enemy reveals the fog around itself this frame. */
  predicate EnemyReveals(enemy: Tank, enemyVisible: bool) {
    !enemy.isDestroyed && enemyVisible
  }

  /** A cell after `updateFogField`: decay first, then the player's reveal, then the enemy's. */
  function CellAfter(m: MathLib, v: real, delta: real, i: int, player: Tank, enemy: Tank, enemyVisible: bool): real {
    var p := Revealed(Decayed(v, delta), m, player.x, player.y, i % Cols, i / Cols);
    if EnemyReveals(enemy, enemyVisible) then Revealed(p, m, enemy.x, enemy.y, i % Cols, i / Cols) else p
  }

  /** The whole field after `updateFogField` with a drawing context. */
  function FieldAfter(m: MathLib, prev: seq<real>, delta: real, player: Tank, enemy: Tank, enemyVisible: bool): (r: seq<real>)
    requires |prev| == 0 || |prev| == CellCount
    ensures |r| == CellCount
  {
    var g := Grid(prev);
    seq(CellCount, i requires 0 <= i < CellCount => CellAfter(m, g[i], delta, i, player, enemy, enemyVisible))
  }

  predicate InUnit(s: seq<real>) {
    forall i :: 0 <= i < |s| ==> 0.0 <= s[i] <= 1.0
  }

  /** Every cell stays in [0, 1]. */
  lemma FieldStaysInUnit(m: MathLib, prev: seq<real>, delta: real, player: Tank, enemy: Tank, enemyVisible: bool)
    requires m.Valid() && (|prev| == 0 || |prev| == CellCount) && InUnit(prev)
    ensures InUnit(FieldAfter(m, prev, delta, player, enemy, enemyVisible))
  {
    var g := Grid(prev);
    var r := FieldAfter(m, prev, delta, player, enemy, enemyVisible);
    forall i | 0 <= i < |r| ensures 0.0 <= r[i] <= 1.0 {
      var d := Decayed(g[i], delta);
      DecayBounds(g[i], delta);
      RevealProperties(d, m, player.x, player.y, i % Cols, i / Cols);
      var p := Revealed(d, m, player.x, player.y, i % Cols, i / Cols);
      RevealProperties(p, m, enemy.x, enemy.y, i % Cols, i / Cols);
    }
  }

  /** Decay comes before the reveal, so a cell within the inner radius of the player is fully
      clear after the frame, however long the frame was. */
  lemma NearPlayerIsClear(m: MathLib, prev: seq<real>, delta: real, player: Tank, enemy: Tank, enemyVisible: bool, i: int)
    requires m.Valid() && (|prev| == 0 || |prev| == CellCount) && InUnit(prev) && 0 <= i < CellCount
    requires DistSq(player.x, player.y, i % Cols, i / Cols) <= InnerSq
    ensures FieldAfter(m, prev, delta, player, enemy, enemyVisible)[i] == 1.0
  {
    var g := Grid(prev);
    var d := Decayed(g[i], delta);
    DecayBounds(g[i], delta);
    RevealProperties(d, m, player.x, player.y, i % Cols, i / Cols);
    RevealProperties(1.0, m, enemy.x, enemy.y, i % Cols, i / Cols);
  }

  /** A cell no reveal reaches only decays; in particular a destroyed or unseen enemy reveals
      nothing. */
  lemma FarCellOnlyDecays(m: MathLib, prev: seq<real>, delta: real, player: Tank, enemy: Tank, enemyVisible: bool, i: int)
    requires (|prev| == 0 || |prev| == CellCount) && 0 <= i < CellCount
    requires DistSq(player.x, player.y, i % Cols, i / Cols) > OuterSq
    requires !EnemyReveals(enemy, enemyVisible) || DistSq(enemy.x, enemy.y, i % Cols, i / Cols) > OuterSq
    ensures FieldAfter(m, prev, delta, player, enemy, enemyVisible)[i] == Decayed(Grid(prev)[i], delta)
  {
  }

  /** A hidden or destroyed enemy leaves the field as the player alone would. */
  lemma HiddenEnemyRevealsNothing(m: MathLib, prev: seq<real>, delta: real, player: Tank, enemy: Tank, other: Tank, enemyVisible: bool)
    requires |prev| == 0 || |prev| == CellCount
    requires !EnemyReveals(enemy, enemyVisible)
    ensures FieldAfter(m, prev, delta, player, enemy, enemyVisible) == FieldAfter(m, prev, delta, player, other.(isDestroyed := true), false)
  {
  }

  class FogField {
    /** Whether `getContext('2d')` returned a context. */
    const hasContext: bool
    /** `fogAlpha`; empty until the grid is first built. */
    var alpha: array<real>

    ghost predicate Valid()
      reads this
    {
      alpha.Length == 0 || alpha.Length == CellCount
    }

    /** The field starts as `new Float32Array(0)`. */
    constructor (hasContext: bool)
      ensures Valid() && this.hasContext == hasContext && alpha.Length == 0
    {
      this.hasContext := hasContext;
      alpha := new real[0];
    }

    /** `ensureFogGrid`: builds the zero grid the first time. */
    method EnsureGrid()
      requires Valid()
      modifies this
      ensures Valid() && alpha.Length == CellCount
      ensures alpha[..] == Grid(old(alpha[..]))
      ensures old(alpha.Length) != 0 ==> alpha == old(alpha)
      ensures old(alpha.Length) == 0 ==> fresh(alpha)
    {
      if alpha.Length == 0 {
        alpha := new real[CellCount](_ => 0.0);
      }
    }

    /** The decay loop of `updateFogField`. */
    method Decay(delta: real)
      requires delta > 0.0
      modifies alpha
      ensures forall i :: 0 <= i < alpha.Length ==> alpha[i] == Decayed(old(alpha[i]), delta)
    {
      var decay := delta / RestoreSeconds;
      for i := 0 to alpha.Length
        invariant forall j :: 0 <= j < i ==> alpha[j] == Decayed(old(alpha[j]), delta)
        invariant forall j :: i <= j < alpha.Length ==> alpha[j] == old(alpha[j])
      {
        var value := alpha[i] - decay;
        alpha[i] := if value > 0.0 then value else 0.0;
      }
    }

    /** The body of the column loop of `applyReveal`: one cell raised to its influence. */
    method RevealCell(m: MathLib, centerX: real, centerY: real, col: int, row: int, dySq: real)
      requires alpha.Length == CellCount && 0 <= col < Cols && 0 <= row < Rows
      requires dySq == Square(Centre(row) - centerY)
      modifies alpha
      ensures forall i :: 0 <= i < alpha.Length ==>
                alpha[i] == (if i == row * Cols + col then Revealed(old(alpha[i]), m, centerX, centerY, col, row)
                             else old(alpha[i]))
    {
      var cellCenterX := col as real * CellSize + CellSize / 2.0;
      var dx := cellCenterX - centerX;
      var distSq := Square(dx) + dySq;
      var index := row * Cols + col;
      assert distSq == DistSq(centerX, centerY, col, row);
      if distSq <= OuterSq {
        var influence := 0.0;
        if distSq <= InnerSq {
          influence := 1.0;
        } else {
          var dist := m.sqrt(distSq);
          influence := 1.0 - (dist - InnerRadius) / FalloffRange;
        }
        if influence > alpha[index] {
          alpha[index] := influence;
        }
      }
    }

    /** `applyReveal(centerX, centerY)`: the nested loops over the clamped cell rectangle. */
    method ApplyReveal(m: MathLib, centerX: real, centerY: real)
      requires alpha.Length == CellCount
      modifies alpha
      ensures forall i :: 0 <= i < alpha.Length ==>
                alpha[i] == Revealed(old(alpha[i]), m, centerX, centerY, i % Cols, i / Cols)
    {
      var minCol := StartCell(centerX);
      var maxCol := EndCell(centerX, Cols);
      var minRow := StartCell(centerY);
      var maxRow := EndCell(centerY, Rows);
      var row := minRow;
      while row <= maxRow
        invariant minRow <= row && (row <= maxRow + 1 || row == minRow)
        invariant forall i :: 0 <= i < alpha.Length ==>
                    alpha[i] == (if minRow <= i / Cols < row && minCol <= i % Cols <= maxCol
                                 then Revealed(old(alpha[i]), m, centerX, centerY, i % Cols, i / Cols)
                                 else old(alpha[i]))
        decreases maxRow - row
      {
        var cellCenterY := row as real * CellSize + CellSize / 2.0;
        var dy := cellCenterY - centerY;
        var dySq := Square(dy);
        var col := minCol;
        while col <= maxCol
          invariant minCol <= col && (col <= maxCol + 1 || col == minCol)
          invariant forall i :: 0 <= i < alpha.Length ==>
                      alpha[i] == (if (minRow <= i / Cols < row && minCol <= i % Cols <= maxCol) ||
                                      (i / Cols == row && minCol <= i % Cols < col)
                                   then Revealed(old(alpha[i]), m, centerX, centerY, i % Cols, i / Cols)
                                   else old(alpha[i]))
          decreases maxCol - col
        {
          assert (row * Cols + col) / Cols == row && (row * Cols + col) % Cols == col;
          RevealCell(m, centerX, centerY, col, row, dySq);
          col := col + 1;
        }
        row := row + 1;
      }
      forall i | 0 <= i < alpha.Length
        ensures alpha[i] == Revealed(old(alpha[i]), m, centerX, centerY, i % Cols, i / Cols)
      {
        if !(minRow <= i / Cols <= maxRow && minCol <= i % Cols <= maxCol) {
          OutsideRectIsFar(centerX, centerY, i % Cols, i / Cols);
        }
      }
    }

    /** `updateFogField(delta)`. */
    method UpdateField(m: MathLib, delta: real, player: Tank, enemy: Tank, enemyVisible: bool)
      requires Valid()
      modifies this, alpha
      ensures Valid() && alpha.Length == CellCount
      ensures !hasContext ==> alpha[..] == Grid(old(alpha[..]))
      ensures hasContext ==> alpha[..] == FieldAfter(m, old(alpha[..]), delta, player, enemy, enemyVisible)
    {
      EnsureGrid();
      if !hasContext {
        return;
      }
      ghost var g := alpha[..];
      assert g == Grid(old(alpha[..]));
      if delta > 0.0 {
        Decay(delta);
      }
      assert forall i :: 0 <= i < alpha.Length ==> alpha[i] == Decayed(g[i], delta);
      ghost var d := alpha[..];
      ApplyReveal(m, player.x, player.y);
      ghost var p := alpha[..];
      assert forall i :: 0 <= i < alpha.Length ==> p[i] == Revealed(d[i], m, player.x, player.y, i % Cols, i / Cols);
      if !enemy.isDestroyed && enemyVisible {
        ApplyReveal(m, enemy.x, enemy.y);
      }
      assert forall i :: 0 <= i < alpha.Length ==> alpha[i] == CellAfter(m, g[i], delta, i, player, enemy, enemyVisible);
    }

    /** The state part of `renderFog(delta)`: nothing without a context or once the mission
        is completed, only the grid set-up once it has failed, the field update otherwise. */
    method Render(m: MathLib, delta: real, outcome: Outcome, player: Tank, enemy: Tank, enemyVisible: bool)
      requires Valid()
      modifies this, alpha
      ensures Valid()
      ensures !hasContext || outcome.Completed? ==> alpha == old(alpha) && alpha[..] == old(alpha[..])
      ensures hasContext && outcome.Failed? ==> alpha[..] == Grid(old(alpha[..]))
      ensures hasContext && outcome.NoOutcome? ==>
                alpha[..] == FieldAfter(m, old(alpha[..]), delta, player, enemy, enemyVisible)
    {
      if !hasContext {
        return;
      }
      if outcome.Completed? {
        return;
      }
      if outcome.Failed? {
        EnsureGrid();
        return;
      }
      UpdateField(m, delta, player, enemy, enemyVisible);
    }
  }
}
