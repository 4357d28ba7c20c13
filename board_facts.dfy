/** What the board rules guarantee: the turns the board enumerates are exactly
  * the legal ones within reach, a turn is reported possible exactly when one
  * exists, and what flips, moves, passes and clones do to a position. */
module BoardFacts {
  import opened Common
  import opened Tiles
  import opened Turns
  import opened Boards

  // ---------------------------------------------------------------------------
  // Enumeration of moves

  /** Destination `d` on the axis gives turn `t`: it passes validation and `t`
    * is the move built for it. */
  predicate AxisHit(p: Position, team: Team, fromX: int, fromY: int, xAxis: bool, d: int, t: Turn)
    requires p.Shaped()
  {
    t in AxisStep(p, team, fromX, fromY, xAxis, d)
  }

  /** The turns of steps lo .. c-1 of a scan, in order. */
  function Scan(step: int -> seq<Turn>, lo: int, c: int): seq<Turn>
    decreases c - lo
  {
    if c <= lo then [] else Scan(step, lo, c - 1) + step(c - 1)
  }

  lemma {:induction false} ScanMembership(step: int -> seq<Turn>, lo: int, c: int, t: Turn)
    ensures t in Scan(step, lo, c) <==> exists d :: lo <= d < c && t in step(d)
    decreases c - lo
  {
    if c > lo {
      ScanMembership(step, lo, c - 1, t);
      if t in step(c - 1) {
        assert t in Scan(step, lo, c);
      }
    }
  }

  lemma {:induction false} AxisMovesAreScan(p: Position, team: Team, fromX: int, fromY: int, xAxis: bool, c: int)
    requires p.Shaped()
    ensures AxisMovesBelow(p, team, fromX, fromY, xAxis, c) ==
            Scan(d => AxisStep(p, team, fromX, fromY, xAxis, d), -1, c)
    decreases c + 1
  {
    if c > -1 {
      AxisMovesAreScan(p, team, fromX, fromY, xAxis, c - 1);
    }
  }

  lemma AxisMovesMembership(p: Position, team: Team, fromX: int, fromY: int, xAxis: bool, c: int, t: Turn)
    requires p.Shaped()
    ensures t in AxisMovesBelow(p, team, fromX, fromY, xAxis, c) <==>
            exists d :: -1 <= d < c && AxisHit(p, team, fromX, fromY, xAxis, d, t)
  {
    var step := d => AxisStep(p, team, fromX, fromY, xAxis, d);
    AxisMovesAreScan(p, team, fromX, fromY, xAxis, c);
    ScanMembership(step, -1, c, t);
    if t in AxisMovesBelow(p, team, fromX, fromY, xAxis, c) {
      var d :| -1 <= d < c && t in step(d);
      assert AxisHit(p, team, fromX, fromY, xAxis, d, t);
    } else {
      forall d | -1 <= d < c
        ensures !AxisHit(p, team, fromX, fromY, xAxis, d, t)
      {
        assert t !in step(d);
      }
    }
  }

  /** The destinations `getPossibleMoves` tries from (x, y): the row and the
    * column through the origin, from -1 to maxIndex + 1. */
  predicate Enumerated(p: Position, x: int, y: int, toX: int, toY: int) {
    (toY == y && -1 <= toX <= |p.cells|) || (toX == x && -1 <= toY <= |p.cells|)
  }

  /** A legal move from a tile of no range cannot exist, so the guard in
    * `getPossibleMoves` (a face-up tile with positive range) excludes nothing. */
  lemma LegalMoveNeedsRange(p: Position, team: Team, x: int, y: int, toX: int, toY: int)
    requires p.Shaped()
    requires ValidateMove(p, team, x, y, toX, toY) == Ok
    ensures p.TileAt(x, y).Some? && p.TileAt(x, y).value.faceUp && RangeOf(p.TileAt(x, y).value.kind) > 0
  {
    var kind := p.TileAt(x, y).value.kind;
    assert RangeOf(kind) == 0 ==> kind == Tree && p.OnBoard(toX, toY);
    if p.OnBoard(toX, toY) {
      DistanceWithinInt(x, y, toX, toY);
    }
  }

  /** A destination of `getPossibleMoves` that passes `validateMove`. */
  ghost predicate OfferedMove(p: Position, team: Team, x: int, y: int, t: Turn)
    requires p.Shaped()
  {
    exists toX, toY :: Enumerated(p, x, y, toX, toY) && ValidateMove(p, team, x, y, toX, toY) == Ok &&
                       t == CandidateMove(p, team, x, y, toX, toY)
  }

  lemma PossibleMovesOnlyOffered(p: Position, team: Team, x: int, y: int, t: Turn)
    requires p.Shaped() && team != Neutral && t in PossibleMoves(p, team, x, y)
    ensures OfferedMove(p, team, x, y, t)
  {
    var n := |p.cells|;
    var xAxis := t in AxisMoves(p, team, x, y, true);
    assert t in AxisMoves(p, team, x, y, xAxis);
    AxisMovesMembership(p, team, x, y, xAxis, n + 1, t);
    var d :| -1 <= d < n + 1 && AxisHit(p, team, x, y, xAxis, d, t);
    AxisHitOffered(p, team, x, y, xAxis, d, t);
  }

  /** A destination tried along an axis that gives `t` makes `t` an offered move. */
  lemma AxisHitOffered(p: Position, team: Team, x: int, y: int, xAxis: bool, d: int, t: Turn)
    requires p.Shaped() && -1 <= d <= |p.cells| && AxisHit(p, team, x, y, xAxis, d, t)
    ensures OfferedMove(p, team, x, y, t)
  {
    var toX, toY := AxisTargetX(x, xAxis, d), AxisTargetY(y, xAxis, d);
    assert Enumerated(p, x, y, toX, toY);
  }

  lemma OfferedMovesPossible(p: Position, team: Team, x: int, y: int, t: Turn)
    requires p.Shaped() && team != Neutral && OfferedMove(p, team, x, y, t)
    ensures t in PossibleMoves(p, team, x, y)
  {
    var n := |p.cells|;
    var toX, toY :| Enumerated(p, x, y, toX, toY) && ValidateMove(p, team, x, y, toX, toY) == Ok &&
                    t == CandidateMove(p, team, x, y, toX, toY);
    LegalMoveNeedsRange(p, team, x, y, toX, toY);
    var xAxis := EnumeratedOnAxis(p, team, x, y, toX, toY, t);
  }

  /** An enumerated destination that passes validation is found along the
    * row or the column of the origin. */
  lemma EnumeratedOnAxis(p: Position, team: Team, x: int, y: int, toX: int, toY: int, t: Turn)
    returns (xAxis: bool)
    requires p.Shaped() && Enumerated(p, x, y, toX, toY) && ValidateMove(p, team, x, y, toX, toY) == Ok
    requires t == CandidateMove(p, team, x, y, toX, toY)
    ensures t in AxisMoves(p, team, x, y, xAxis)
  {
    var n := |p.cells|;
    xAxis := toY == y && -1 <= toX <= n;
    var d := if xAxis then toX else toY;
    assert -1 <= d < n + 1;
    assert AxisTargetX(x, xAxis, d) == toX && AxisTargetY(y, xAxis, d) == toY;
    assert AxisHit(p, team, x, y, xAxis, d, t);
    AxisMovesMembership(p, team, x, y, xAxis, n + 1, t);
  }

  /** `getPossibleMoves` returns exactly the moves to the tried destinations
    * that pass `validateMove`, each built with its score and as a Rescue when it
    * leaves the board. */
  lemma PossibleMovesExact(p: Position, team: Team, x: int, y: int, t: Turn)
    requires p.Shaped() && team != Neutral
    ensures t in PossibleMoves(p, team, x, y) <==>
            exists toX, toY :: Enumerated(p, x, y, toX, toY) && ValidateMove(p, team, x, y, toX, toY) == Ok &&
                               t == CandidateMove(p, team, x, y, toX, toY)
  {
    if t in PossibleMoves(p, team, x, y) {
      PossibleMovesOnlyOffered(p, team, x, y, t);
    }
    if OfferedMove(p, team, x, y, t) {
      OfferedMovesPossible(p, team, x, y, t);
    }
  }

  /** Every legal move that ends on the board or one square beyond its edge is
    * enumerated, built as `CandidateMove` describes. */
  lemma PossibleMovesComplete(p: Position, team: Team, x: int, y: int, toX: int, toY: int)
    requires p.Shaped() && team != Neutral
    requires ValidateMove(p, team, x, y, toX, toY) == Ok
    requires -1 <= toX <= |p.cells| && -1 <= toY <= |p.cells|
    ensures CandidateMove(p, team, x, y, toX, toY) in PossibleMoves(p, team, x, y)
  {
    PossibleMovesExact(p, team, x, y, CandidateMove(p, team, x, y, toX, toY));
    assert Enumerated(p, x, y, toX, toY);
  }

  /** Every enumerated move is a legal move of the given team from (x, y); it is
    * a Rescue exactly when it leaves the board, and its score is the value of
    * the captured tile, or of the rescued one. */
  lemma PossibleMovesSound(p: Position, team: Team, x: int, y: int, t: Turn)
    requires p.Shaped() && team != Neutral
    requires t in PossibleMoves(p, team, x, y)
    ensures t.IsMovement() && t.team == team && t.fromX == x && t.fromY == y
    ensures LegalMove(p, team, x, y, t.toX, t.toY)
    ensures t.Rescue? <==> !p.OnBoard(t.toX, t.toY)
    ensures t.score == ScoreOf(p, p.TileAt(x, y).value, t.toX, t.toY)
    ensures -1 <= t.toX <= |p.cells| && -1 <= t.toY <= |p.cells|
  {
    PossibleMovesExact(p, team, x, y, t);
  }

  /** As written, `validateDestination` accepts every off-board square on a
    * centre line, however far out, while `getPossibleMoves` tries only the
    * squares one step beyond the edge: a Fox on the left end of the centre row
    * may legally leave to (-2, centre), a move never enumerated. */
  lemma FarExitLegalButNotEnumerated(p: Position, team: Team, fox: Tile)
    requires p.Shaped() && |p.cells| > 0 && p.allTilesFaceUp && team == Predators
    requires fox.kind == Fox && fox.faceUp && p.cells[0][p.Centre()] == Some(fox)
    requires p.justFlippedNeutralTile != Some(fox.id) && p.justMovedPredator == None
    ensures ValidateMove(p, team, 0, p.Centre(), -2, p.Centre()) == Ok
    ensures forall t :: t in PossibleMoves(p, team, 0, p.Centre()) ==> t.IsMovement() && t.toX != -2
  {
    var c := p.Centre();
    assert PathClear(p, 0, c, -2, c);
    forall t | t in PossibleMoves(p, team, 0, c) ensures t.IsMovement() && t.toX != -2 {
      PossibleMovesSound(p, team, 0, c, t);
    }
  }

  // ---------------------------------------------------------------------------
  // Enumeration of turns

  lemma {:induction false} RowTurnsAreScan(p: Position, team: Team, y: int, x: int)
    requires p.Shaped() && team != Neutral
    ensures RowTurnsBelow(p, team, y, x) == Scan(i => CellTurns(p, team, i, y), 0, x)
    decreases x
  {
    if x > 0 {
      RowTurnsAreScan(p, team, y, x - 1);
    }
  }

  lemma RowTurnsMembership(p: Position, team: Team, y: int, x: int, t: Turn)
    requires p.Shaped() && team != Neutral
    ensures t in RowTurnsBelow(p, team, y, x) <==> exists i :: 0 <= i < x && t in CellTurns(p, team, i, y)
  {
    var step := i => CellTurns(p, team, i, y);
    RowTurnsAreScan(p, team, y, x);
    ScanMembership(step, 0, x, t);
    if t in RowTurnsBelow(p, team, y, x) {
      var i :| 0 <= i < x && t in step(i);
      assert t in CellTurns(p, team, i, y);
    } else {
      forall i | 0 <= i < x
        ensures t !in CellTurns(p, team, i, y)
      {
        assert t !in step(i);
      }
    }
  }

  lemma {:induction false} TurnsBelowRowMembership(p: Position, team: Team, y: int, t: Turn)
    requires p.Shaped() && team != Neutral
    ensures t in TurnsBelowRow(p, team, y) <==>
            exists i, j :: 0 <= i < |p.cells| && 0 <= j < y && t in CellTurns(p, team, i, j)
    decreases y
  {
    if y > 0 {
      var n := |p.cells|;
      var earlier := TurnsBelowRow(p, team, y - 1);
      var row := RowTurnsBelow(p, team, y - 1, n);
      assert TurnsBelowRow(p, team, y) == earlier + row;
      TurnsBelowRowMembership(p, team, y - 1, t);
      RowTurnsMembership(p, team, y - 1, n, t);
      if t in earlier + row {
        if t in earlier {
          var i, j :| 0 <= i < n && 0 <= j < y - 1 && t in CellTurns(p, team, i, j);
          assert 0 <= j < y;
        } else {
          var i :| 0 <= i < n && t in CellTurns(p, team, i, y - 1);
          assert 0 <= y - 1 < y;
        }
      }
      if exists i, j :: 0 <= i < n && 0 <= j < y && t in CellTurns(p, team, i, j) {
        var i, j :| 0 <= i < n && 0 <= j < y && t in CellTurns(p, team, i, j);
        if j == y - 1 {
          assert t in row;
        } else {
          assert t in earlier;
        }
      }
    }
  }

  /** `getPossibleTurns` offers a Flip of every face-down tile and every
    * enumerated move of every face-up tile, and nothing else. */
  lemma PossibleTurnsExact(p: Position, team: Team, t: Turn)
    requires p.Shaped() && team != Neutral
    ensures t in PossibleTurns(p, team) <==>
            exists x, y :: p.OnBoard(x, y) && t in CellTurns(p, team, x, y)
  {
    TurnsBelowRowMembership(p, team, |p.cells|, t);
  }

  /** A face-down tile can always be flipped, by either team. */
  lemma FaceDownTileOffersFlip(p: Position, team: Team, x: int, y: int)
    requires p.Shaped() && team != Neutral && p.OnBoard(x, y)
    requires p.cells[x][y].Some? && !p.cells[x][y].value.faceUp
    ensures Flip(team, x, y, p.cells[x][y].value) in PossibleTurns(p, team)
  {
    PossibleTurnsExact(p, team, Flip(team, x, y, p.cells[x][y].value));
  }

  /** `isMovementPossible(team, from)` holds exactly when some move from that
    * square is enumerated: its quick pre-checks exclude nothing legal. */
  lemma MovementPossibleAtIff(p: Position, team: Team, x: int, y: int)
    requires p.Shaped() && team != Neutral
    ensures MovementPossibleAt(p, team, x, y) <==> PossibleMoves(p, team, x, y) != []
  {
    var moves := PossibleMoves(p, team, x, y);
    if moves != [] {
      PossibleMovesSound(p, team, x, y, moves[0]);
    }
  }

  /** With an up-to-date all-face-up flag, `isTurnPossible` is true exactly when
    * `getPossibleTurns` offers a turn. */
  lemma TurnPossibleIff(p: Position, team: Team)
    requires p.Shaped() && team != Neutral
    requires p.allTilesFaceUp == AllFaceUp(p.cells)
    ensures TurnPossible(p, team) <==> PossibleTurns(p, team) != []
  {
    if !p.allTilesFaceUp {
      var x, y :| 0 <= x < |p.cells| && 0 <= y < |p.cells[x]| && p.cells[x][y].Some? && !p.cells[x][y].value.faceUp;
      FaceDownTileOffersFlip(p, team, x, y);
    } else {
      if MovementPossible(p, team) {
        var x, y :| 0 <= x < |p.cells| && 0 <= y < |p.cells| && MovementPossibleAt(p, team, x, y);
        MovementPossibleAtIff(p, team, x, y);
        PossibleTurnsExact(p, team, PossibleMoves(p, team, x, y)[0]);
      }
      if PossibleTurns(p, team) != [] {
        var t := PossibleTurns(p, team)[0];
        PossibleTurnsExact(p, team, t);
        var x, y :| p.OnBoard(x, y) && t in CellTurns(p, team, x, y);
        MovementPossibleAtIff(p, team, x, y);
      }
    }
  }
}
