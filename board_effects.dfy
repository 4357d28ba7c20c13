/** What flipping, moving, passing, adding, cloning and setting up do to a
  * position: which squares change, what is credited, what the history
  * remembers, and that every one of them keeps a board well formed. */
module BoardEffects {
  import opened Common
  import opened Tiles
  import opened Turns
  import opened Boards
  import BoardFacts

  /** Which team's history a move of `team` does not touch. */
  function Opponent(team: Team): Team {
    if team == Humans then Predators else Humans
  }

  // ---------------------------------------------------------------------------
  // Keeping identities unique

  /** A grid whose every tile carries the identity of the tile on the same
    * square of `g` (or of no tile there) keeps `g`'s identities unique and
    * below the same bound. */
  lemma SameIdsKeepInvariant(g: Grid, h: Grid, bound: nat)
    requires |h| == |g| && forall x | 0 <= x < |g| :: |h[x]| == |g[x]|
    requires forall x, y | 0 <= x < |g| && 0 <= y < |g[x]| ::
               h[x][y].Some? ==> g[x][y].Some? && h[x][y].value.id == g[x][y].value.id
    requires UniqueIds(g) && IdsBelow(g, bound)
    ensures UniqueIds(h) && IdsBelow(h, bound)
  {
  }

  /** Moving one tile keeps identities unique and below the same bound. */
  lemma MovedCellsKeepInvariant(p: Position, fromX: int, fromY: int, toX: int, toY: int)
    requires WellFormed(p) && p.OnBoard(fromX, fromY) && p.cells[fromX][fromY].Some?
    requires fromX != toX || fromY != toY
    ensures var g := MovedCells(p, fromX, fromY, toX, toY);
            |g| == |p.cells| && IsSquare(g) && UniqueIds(g) && IdsBelow(g, p.freshId)
  {
    var g: Grid := MovedCells(p, fromX, fromY, toX, toY);
    var n := |p.cells|;
    forall x: int, y: int | 0 <= x < n && 0 <= y < n && g[x][y].Some? ensures g[x][y].value.id < p.freshId {
      var sx, sy := MovedCellSource(p, fromX, fromY, toX, toY, x, y);
    }
    forall x1: int, y1: int, x2: int, y2: int | 0 <= x1 < n && 0 <= y1 < n && 0 <= x2 < n && 0 <= y2 < n &&
      g[x1][y1].Some? && g[x2][y2].Some? && g[x1][y1].value.id == g[x2][y2].value.id
      ensures x1 == x2 && y1 == y2
    {
      var sx1, sy1 := MovedCellSource(p, fromX, fromY, toX, toY, x1, y1);
      var sx2, sy2 := MovedCellSource(p, fromX, fromY, toX, toY, x2, y2);
    }
  }

  /** The square of `p` a tile of the moved grid comes from: the origin for
    * the destination, its own square for every other one. */
  lemma MovedCellSource(p: Position, fromX: int, fromY: int, toX: int, toY: int, x: int, y: int)
    returns (sx: int, sy: int)
    requires p.Shaped() && p.OnBoard(fromX, fromY) && (fromX != toX || fromY != toY)
    requires p.OnBoard(x, y) && MovedCells(p, fromX, fromY, toX, toY)[x][y].Some?
    ensures p.OnBoard(sx, sy) && p.cells[sx][sy] == MovedCells(p, fromX, fromY, toX, toY)[x][y]
    ensures (sx == fromX && sy == fromY) <==> (x == toX && y == toY)
    ensures !(x == toX && y == toY) ==> sx == x && sy == y
  {
    if x == toX && y == toY {
      sx, sy := fromX, fromY;
    } else {
      sx, sy := x, y;
    }
  }

  // ---------------------------------------------------------------------------
  // Flipping and passing

  /** A flip turns exactly one tile face-up and keeps its identity and kind;
    * a neutral tile becomes the just-flipped one; the flipping team forgets
    * its last move and the other team's record is kept. */
  lemma FlipEffect(p: Position, team: Team, x: int, y: int)
    requires WellFormed(p)
    ensures FlipTile(p, team, x, y).Success? <==> team != Neutral && p.OnBoard(x, y) && p.cells[x][y].Some?
    ensures FlipTile(p, team, x, y).Failure? ==> FlipTile(p, team, x, y).error == IllegalArgument
    ensures FlipTile(p, team, x, y).Success? ==>
      var e := FlipTile(p, team, x, y).value;
      var old_ := p.cells[x][y].value;
      var q := e.after;
      WellFormed(q) && q.freshId == p.freshId &&
      q.cells[x][y] == Some(old_.(faceUp := true)) &&
      (forall i, j | p.OnBoard(i, j) && (i != x || j != y) :: q.cells[i][j] == p.cells[i][j]) &&
      (q.justFlippedNeutralTile.Some? <==> TeamOf(old_.kind) == Neutral) &&
      (q.justFlippedNeutralTile.Some? ==> q.justFlippedNeutralTile.value == old_.id) &&
      PreviousOwnMove(q, team) == None &&
      PreviousOwnMove(q, Opponent(team)) == PreviousOwnMove(p, Opponent(team)) &&
      q.allTilesFaceUp == AllFaceUp(q.cells) &&
      e.credit == 0 && e.event == Flip(team, x, y, old_.(faceUp := true))
  {
    if FlipTile(p, team, x, y).Success? {
      var q := FlipTile(p, team, x, y).value.after;
      SameIdsKeepInvariant(p.cells, q.cells, p.freshId);
    }
  }

  /** Flipping the last face-down tile starts the end game, and flipping
    * never ends it. */
  lemma FlipFaceUpFlag(p: Position, team: Team, x: int, y: int)
    requires WellFormed(p) && FlipTile(p, team, x, y).Success?
    ensures var q := FlipTile(p, team, x, y).value.after;
            q.allTilesFaceUp <==>
              forall i, j | p.OnBoard(i, j) && (i != x || j != y) && p.cells[i][j].Some? :: p.cells[i][j].value.faceUp
  {
    var q := FlipTile(p, team, x, y).value.after;
    if !q.allTilesFaceUp {
      var i, j :| 0 <= i < |q.cells| && 0 <= j < |q.cells[i]| && q.cells[i][j].Some? && !q.cells[i][j].value.faceUp;
      assert p.OnBoard(i, j) && (i != x || j != y) && p.cells[i][j].Some? && !p.cells[i][j].value.faceUp;
    }
  }

  /** A neutral tile just flipped cannot be moved by anybody. */
  lemma JustFlippedTileCannotMove(p: Position, team: Team, x: int, y: int, mover: Team, toX: int, toY: int)
    requires WellFormed(p) && FlipTile(p, team, x, y).Success?
    requires TeamOf(p.cells[x][y].value.kind) == Neutral
    ensures LegalMove(FlipTile(p, team, x, y).value.after, mover, x, y, toX, toY) == false
  {
    FlipEffect(p, team, x, y);
  }

  /** `pass`: the board is untouched, the passing team forgets its last move,
    * nothing is just flipped any more, and the flag is refreshed. */
  lemma PassEffect(p: Position, team: Team)
    ensures PassTurn(p, team).Failure? <==> team == Neutral
    ensures PassTurn(p, team).Success? ==>
      var q := PassTurn(p, team).value;
      q.cells == p.cells && q.freshId == p.freshId &&
      q.justFlippedNeutralTile == None &&
      PreviousOwnMove(q, team) == None &&
      PreviousOwnMove(q, Opponent(team)) == PreviousOwnMove(p, Opponent(team)) &&
      q.allTilesFaceUp == AllFaceUp(p.cells) &&
      (WellFormed(p) ==> WellFormed(q))
  {
  }

  // ---------------------------------------------------------------------------
  // Moving

  /** A move that passed validation lifts the mover from its square and puts it
    * on the destination (removing any tile captured there), or takes it off
    * the board; no other square changes. */
  lemma MoveEffect(p: Position, team: Team, fromX: int, fromY: int, toX: int, toY: int)
    requires WellFormed(p) && MoveTile(p, team, fromX, fromY, toX, toY).Success?
    ensures p.OnBoard(fromX, fromY) && p.cells[fromX][fromY].Some?
    ensures var q := MoveTile(p, team, fromX, fromY, toX, toY).value.after;
            var mover := p.cells[fromX][fromY];
            WellFormed(q) && q.freshId == p.freshId &&
            q.cells[fromX][fromY] == None &&
            (p.OnBoard(toX, toY) ==> q.cells[toX][toY] == mover) &&
            (forall i, j | p.OnBoard(i, j) && (i != fromX || j != fromY) && (i != toX || j != toY) ::
               q.cells[i][j] == p.cells[i][j]) &&
            (!p.OnBoard(toX, toY) ==> !HoldsId(q.cells, mover.value.id)) &&
            q.allTilesFaceUp == AllFaceUp(q.cells)
  {
    var q := MoveTile(p, team, fromX, fromY, toX, toY).value.after;
    MovedCellsKeepInvariant(p, fromX, fromY, toX, toY);
  }

  /** What a move credits and announces: the captured tile's value for a
    * capture, nothing for a move to an empty square, and for a rescue the
    * rescued tile's own value, which is always positive. A move that passes
    * validation fails only when the tile captured is worth nothing. */
  lemma MoveCredit(p: Position, team: Team, fromX: int, fromY: int, toX: int, toY: int)
    requires WellFormed(p) && ValidateMove(p, team, fromX, fromY, toX, toY) == Ok
    ensures var r := MoveTile(p, team, fromX, fromY, toX, toY);
            var mover := p.cells[fromX][fromY].value;
            (r.Failure? <==> p.OnBoard(toX, toY) && p.cells[toX][toY].Some? && ValueOf(p.cells[toX][toY].value.kind) <= 0) &&
            (r.Failure? ==> r.error == IllegalArgument) &&
            (r.Success? ==>
               r.value.credit == ScoreOf(p, mover, toX, toY) && r.value.credit >= 0 &&
               r.value.event.IsMovement() && r.value.event.team == team &&
               r.value.event.fromX == fromX && r.value.event.fromY == fromY &&
               r.value.event.toX == toX && r.value.event.toY == toY &&
               r.value.event.score == r.value.credit &&
               (r.value.event.Rescue? <==> !p.OnBoard(toX, toY)) &&
               (r.value.event.Rescue? ==> r.value.credit >= 5))
  {
    var mover := p.cells[fromX][fromY].value;
    if !p.OnBoard(toX, toY) {
      CatalogueFacts(mover.kind);
    }
  }

  /** The history a move leaves: the moving team remembers a move of its own
    * tile and forgets it after moving a neutral tile; the other team's record
    * is untouched; nothing is just flipped any more. */
  lemma MoveHistory(p: Position, team: Team, fromX: int, fromY: int, toX: int, toY: int)
    requires WellFormed(p) && MoveTile(p, team, fromX, fromY, toX, toY).Success?
    ensures var q := MoveTile(p, team, fromX, fromY, toX, toY).value.after;
            var owner := TeamOf(p.cells[fromX][fromY].value.kind);
            q.justFlippedNeutralTile == None &&
            (owner == team ==> PreviousOwnMove(q, team) == Some(Move(team, fromX, fromY, toX, toY, 0))) &&
            (owner != team ==> owner == Neutral && PreviousOwnMove(q, team) == None) &&
            PreviousOwnMove(q, Opponent(team)) == PreviousOwnMove(p, Opponent(team))
  {
  }

  /** A team that has just moved one of its own tiles cannot move it straight
    * back while that record stands, whatever the other team did in between. */
  lemma NoImmediateReversal(p: Position, team: Team, fromX: int, fromY: int, toX: int, toY: int, r: Position)
    requires WellFormed(p) && MoveTile(p, team, fromX, fromY, toX, toY).Success?
    requires TeamOf(p.cells[fromX][fromY].value.kind) == team
    requires r.Shaped() && PreviousOwnMove(r, team) == PreviousOwnMove(MoveTile(p, team, fromX, fromY, toX, toY).value.after, team)
    requires r.TileAt(toX, toY).Some? && TeamOf(r.TileAt(toX, toY).value.kind) == team
    ensures !LegalMove(r, team, toX, toY, fromX, fromY)
  {
    MoveHistory(p, team, fromX, fromY, toX, toY);
  }

  /** A turn of one team leaves the other team's move record alone. */
  lemma OpponentTurnKeepsRecord(p: Position, team: Team, turn: Option<Turn>)
    requires WellFormed(p) && HaveTurn(p, team, turn).Success?
    ensures PreviousOwnMove(HaveTurn(p, team, turn).value.after, Opponent(team)) == PreviousOwnMove(p, Opponent(team))
  {
    if turn.value.Flip? {
      FlipEffect(p, team, turn.value.x, turn.value.y);
    } else {
      MoveHistory(p, team, turn.value.fromX, turn.value.fromY, turn.value.toX, turn.value.toY);
    }
  }

  /** Moving never turns a tile over: the face-down tiles stay where they are,
    * so a move neither starts nor ends the end game. */
  lemma MoveKeepsFaceDownTiles(p: Position, team: Team, fromX: int, fromY: int, toX: int, toY: int)
    requires WellFormed(p) && MoveTile(p, team, fromX, fromY, toX, toY).Success?
    ensures var q := MoveTile(p, team, fromX, fromY, toX, toY).value.after;
            (forall i, j | p.OnBoard(i, j) ::
               (q.cells[i][j].Some? && !q.cells[i][j].value.faceUp) <==>
               (p.cells[i][j].Some? && !p.cells[i][j].value.faceUp)) &&
            q.allTilesFaceUp == AllFaceUp(p.cells)
  {
    assert LegalMove(p, team, fromX, fromY, toX, toY);
    assert CaptureAllowed(p, p.cells[fromX][fromY].value, fromX, fromY, toX, toY);
    var q := MovedPosition(p, team, fromX, fromY, toX, toY);
    assert MoveTile(p, team, fromX, fromY, toX, toY).value.after == q.(allTilesFaceUp := AllFaceUp(q.cells));
    MovedCellsKeepFaceDownTiles(p, fromX, fromY, toX, toY);
  }

  /** Moving a face-up tile leaves every face-down tile where it was. */
  lemma MovedCellsKeepFaceDownTiles(p: Position, fromX: int, fromY: int, toX: int, toY: int)
    requires p.Shaped() && p.OnBoard(fromX, fromY) && p.cells[fromX][fromY].Some?
    requires p.cells[fromX][fromY].value.faceUp && (fromX != toX || fromY != toY)
    requires p.TileAt(toX, toY).Some? ==> p.TileAt(toX, toY).value.faceUp
    ensures var g := MovedCells(p, fromX, fromY, toX, toY);
            (forall i, j | p.OnBoard(i, j) ::
               (g[i][j].Some? && !g[i][j].value.faceUp) <==> (p.cells[i][j].Some? && !p.cells[i][j].value.faceUp)) &&
            AllFaceUp(g) == AllFaceUp(p.cells)
  {
    var g: Grid := MovedCells(p, fromX, fromY, toX, toY);
    var n := |p.cells|;
    assert AllFaceUp(g) <==> forall i, j | 0 <= i < n && 0 <= j < n :: g[i][j].Some? ==> g[i][j].value.faceUp;
    assert AllFaceUp(p.cells) <==>
           forall i, j | 0 <= i < n && 0 <= j < n :: p.cells[i][j].Some? ==> p.cells[i][j].value.faceUp;
  }

  // ---------------------------------------------------------------------------
  // Adding tiles, cloning, setting up

  /** `addTile` places a new face-down tile on an empty square, reopens the
    * game, and keeps the board well formed; it refuses an occupied or
    * off-board square, a missing or face-up tile and a tile already on the
    * board. */
  lemma AddTileEffect(p: Position, tile: Option<Tile>, x: int, y: int)
    requires WellFormed(p)
    ensures AddTile(p, tile, x, y).Success? <==>
              p.OnBoard(x, y) && p.cells[x][y].None? && tile.Some? && !tile.value.faceUp && !HoldsId(p.cells, tile.value.id)
    ensures AddTile(p, tile, x, y).Failure? ==> AddTile(p, tile, x, y).error == IllegalArgument
    ensures AddTile(p, tile, x, y).Success? ==>
      var q := AddTile(p, tile, x, y).value;
      WellFormed(q) && q.cells[x][y] == tile && !q.allTilesFaceUp &&
      (forall i, j | p.OnBoard(i, j) && (i != x || j != y) :: q.cells[i][j] == p.cells[i][j]) &&
      q.justFlippedNeutralTile == p.justFlippedNeutralTile &&
      q.justMovedHuman == p.justMovedHuman && q.justMovedPredator == p.justMovedPredator
  {
  }

  /** Two grids of the same shape with the same tiles in the same places, up
    * to identity. */
  predicate SameLayout(g: Grid, h: Grid) {
    |g| == |h| && (forall x | 0 <= x < |g| :: |g[x]| == |h[x]|) &&
    forall x, y | 0 <= x < |g| && 0 <= y < |g[x]| ::
      g[x][y].Some? == h[x][y].Some? &&
      (g[x][y].Some? ==> g[x][y].value.kind == h[x][y].value.kind && g[x][y].value.faceUp == h[x][y].value.faceUp)
  }

  /** `clone`: the copy has the same tiles in the same places, under identities
    * no tile of the original has, and is well formed. The just-flipped
    * identity is copied as it is and so names no tile of the copy. */
  lemma CloneEffect(p: Position)
    requires WellFormed(p)
    ensures var c := Cloned(p);
            WellFormed(c) && SameLayout(p.cells, c.cells) &&
            c.allTilesFaceUp == p.allTilesFaceUp && c.justFlippedNeutralTile == p.justFlippedNeutralTile &&
            c.justMovedHuman == p.justMovedHuman && c.justMovedPredator == p.justMovedPredator &&
            (forall x, y | c.OnBoard(x, y) && c.cells[x][y].Some? ::
               !HoldsId(p.cells, c.cells[x][y].value.id) && c.justFlippedNeutralTile != Some(c.cells[x][y].value.id))
  {
    var c := Cloned(p);
    var n := |p.cells|;
    forall x1: int, y1: int, x2: int, y2: int | 0 <= x1 < n && 0 <= y1 < n && 0 <= x2 < n && 0 <= y2 < n &&
      c.cells[x1][y1].Some? && c.cells[x2][y2].Some? && c.cells[x1][y1].value.id == c.cells[x2][y2].value.id
      ensures x1 == x2 && y1 == y2
    {
      assert p.cells[x1][y1].value.id == p.cells[x2][y2].value.id;
    }
  }

  /** Validation looks at the tiles' kinds and faces and at the history, never
    * at identities except for the just-flipped check: two positions with the
    * same layout and history that agree on whether the origin tile is the
    * just-flipped one validate every move alike. */
  lemma ValidateMoveLayoutOnly(p: Position, q: Position, team: Team, fromX: int, fromY: int, toX: int, toY: int)
    requires p.Shaped() && q.Shaped() && SameLayout(p.cells, q.cells)
    requires p.allTilesFaceUp == q.allTilesFaceUp && PreviousOwnMove(p, team) == PreviousOwnMove(q, team)
    requires p.TileAt(fromX, fromY).Some? ==>
               (p.justFlippedNeutralTile == Some(p.TileAt(fromX, fromY).value.id) <==>
                q.justFlippedNeutralTile == Some(q.TileAt(fromX, fromY).value.id))
    ensures ValidateMove(p, team, fromX, fromY, toX, toY) == ValidateMove(q, team, fromX, fromY, toX, toY)
  {
    assert forall x, y :: p.TileAt(x, y).Some? == q.TileAt(x, y).Some?;
    assert ValidateNoInterveningTiles(p, fromX, fromY, toX, toY) == ValidateNoInterveningTiles(q, fromX, fromY, toX, toY);
    if p.TileAt(fromX, fromY).Some? {
      assert ValidatePrey(p, fromX, fromY, toX, toY) == ValidatePrey(q, fromX, fromY, toX, toY);
    }
  }

  /** A clone validates every move as the original would with nothing
    * just flipped: the copied just-flipped identity never blocks a move. */
  lemma CloneIgnoresJustFlipped(p: Position, team: Team, fromX: int, fromY: int, toX: int, toY: int)
    requires WellFormed(p)
    ensures ValidateMove(Cloned(p), team, fromX, fromY, toX, toY) ==
            ValidateMove(p.(justFlippedNeutralTile := None), team, fromX, fromY, toX, toY)
  {
    CloneEffect(p);
    ValidateMoveLayoutOnly(Cloned(p), p.(justFlippedNeutralTile := None), team, fromX, fromY, toX, toY);
  }

  /** A move the board offers from (x, y) is legal on a clone. */
  lemma CloneAcceptsOfferedMove(p: Position, team: Team, x: int, y: int, t: Turn)
    requires WellFormed(p) && team != Neutral && t in PossibleMoves(p, team, x, y)
    ensures t.IsMovement() && t.fromX == x && t.fromY == y
    ensures ValidateMove(Cloned(p), team, x, y, t.toX, t.toY) == Ok
  {
    BoardFacts.PossibleMovesSound(p, team, x, y, t);
    CloneIgnoresJustFlipped(p, team, x, y, t.toX, t.toY);
    ValidateMoveLayoutOnly(p, p.(justFlippedNeutralTile := None), team, x, y, t.toX, t.toY);
  }

  /** A move that passes validation is carried out, unless the tile it
    * captures is worth nothing. */
  lemma ValidMoveFailsOnlyOnWorthlessCapture(q: Position, team: Team, fromX: int, fromY: int, toX: int, toY: int)
    requires q.Shaped() && ValidateMove(q, team, fromX, fromY, toX, toY) == Ok
    ensures MoveTile(q, team, fromX, fromY, toX, toY).Success? || MoveTile(q, team, fromX, fromY, toX, toY).error == IllegalArgument
  {
  }

  /** Every turn the board offers can be played on a clone without breaking
    * a rule; the only failure left is a capture worth nothing. */
  lemma CloneAcceptsOfferedTurns(p: Position, team: Team, t: Turn)
    requires WellFormed(p) && team != Neutral && t in PossibleTurns(p, team)
    ensures HaveTurn(Cloned(p), team, Some(t)).Success? ||
            HaveTurn(Cloned(p), team, Some(t)).error == IllegalArgument
  {
    var c := Cloned(p);
    assert c.Shaped();
    BoardFacts.PossibleTurnsExact(p, team, t);
    var x, y :| p.OnBoard(x, y) && t in CellTurns(p, team, x, y);
    if p.cells[x][y].value.faceUp {
      CloneAcceptsOfferedMove(p, team, x, y, t);
      ValidMoveFailsOnlyOnWorthlessCapture(c, team, x, y, t.toX, t.toY);
    } else {
      assert t.Flip? && t.x == x && t.y == y && c.cells[x][y].Some?;
    }
  }

  /** Rows further down start further along the scan. */
  lemma {:induction false} RowStartOrder(n: nat, y1: nat, y2: nat)
    requires y1 <= y2
    ensures y1 * n <= y2 * n
    decreases y2 - y1
  {
    if y1 < y2 {
      RowStartOrder(n, y1 + 1, y2);
      assert (y1 + 1) * n == y1 * n + n;
    }
  }

  /** The set-up scan visits squares in order of y, then x. */
  lemma ScanOrder(n: int, x1: int, y1: int, x2: int, y2: int)
    requires 0 < n && 0 <= x1 < n && 0 <= x2 < n && 0 <= y1 && 0 <= y2
    requires y1 < y2 || (y1 == y2 && x1 < x2)
    ensures y1 * n + x1 < y2 * n + x2
  {
    if y1 < y2 {
      RowStartOrder(n, y1 + 1, y2);
      assert (y1 + 1) * n == y1 * n + n;
    }
  }

  /** The square dealt after (x1, y1) gets a later tile. */
  lemma DealIndexOrder(n: int, x1: int, y1: int, x2: int, y2: int)
    requires ValidSize(n) && 0 <= x1 < n && 0 <= x2 < n && 0 <= y1 < n && 0 <= y2 < n
    requires (x1, y1) != ((n - 1) / 2, (n - 1) / 2) && (x2, y2) != ((n - 1) / 2, (n - 1) / 2)
    requires y1 < y2 || (y1 == y2 && x1 < x2)
    ensures DealIndex(n, x1, y1) < DealIndex(n, x2, y2)
  {
    var c := (n - 1) / 2;
    ScanOrder(n, x1, y1, x2, y2);
    if y1 < c || (y1 == c && x1 < c) {
      ScanOrder(n, x1, y1, c, c);
      if y2 > c || (y2 == c && x2 > c) {
        ScanOrder(n, c, c, x2, y2);
      }
    }
  }

  /** Distinct squares other than the centre get distinct tiles. */
  lemma DealIndexInjective(n: int, x1: int, y1: int, x2: int, y2: int)
    requires ValidSize(n) && 0 <= x1 < n && 0 <= x2 < n && 0 <= y1 < n && 0 <= y2 < n
    requires (x1, y1) != ((n - 1) / 2, (n - 1) / 2) && (x2, y2) != ((n - 1) / 2, (n - 1) / 2)
    requires DealIndex(n, x1, y1) == DealIndex(n, x2, y2)
    ensures x1 == x2 && y1 == y2
  {
    if y1 < y2 || (y1 == y2 && x1 < x2) {
      DealIndexOrder(n, x1, y1, x2, y2);
    } else if y2 < y1 || (y1 == y2 && x2 < x1) {
      DealIndexOrder(n, x2, y2, x1, y1);
    }
  }

  /** The first square is dealt the first tile. */
  lemma DealIndexNonNegative(n: int, x: int, y: int)
    requires ValidSize(n) && 0 <= x < n && 0 <= y < n && (x, y) != ((n - 1) / 2, (n - 1) / 2)
    ensures 0 <= DealIndex(n, x, y)
  {
    var c := (n - 1) / 2;
    if y > c || (y == c && x > c) {
      ScanOrder(n, c, c, x, y);
    }
  }

  /** The square at place `s` of the scan of a board `n` squares wide. */
  lemma {:induction false} ScanSquare(n: int, s: int) returns (x: int, y: int)
    requires 0 < n && 0 <= s
    ensures 0 <= x < n && 0 <= y && s == y * n + x
    decreases s
  {
    if s < n {
      x, y := s, 0;
    } else {
      x, y := ScanSquare(n, s - n);
      assert (y + 1) * n == y * n + n;
      y := y + 1;
    }
  }

  /** Each of the first n*n - 1 tiles is dealt to some square. */
  lemma DealIndexOnto(n: int, k: int) returns (x: int, y: int)
    requires ValidSize(n) && 0 <= k < n * n - 1
    ensures 0 <= x < n && 0 <= y < n && (x, y) != ((n - 1) / 2, (n - 1) / 2)
    ensures DealIndex(n, x, y) == k
  {
    var c := (n - 1) / 2;
    var centre := c * n + c;
    var s := if k < centre then k else k + 1;
    x, y := ScanSquare(n, s);
    if y >= n {
      RowStartOrder(n, n, y);
    }
    if y < c || (y == c && x < c) {
      ScanOrder(n, x, y, c, c);
      assert s < centre;
    } else if y > c || (y == c && x > c) {
      ScanOrder(n, c, c, x, y);
      assert s > centre;
    }
  }

  // ---------------------------------------------------------------------------
  // The tiles of a round

  /** The kinds of some tiles, in order. */
  function KindsOf(ts: seq<Tile>): seq<Kind> {
    seq(|ts|, i requires 0 <= i < |ts| => ts[i].kind)
  }

  /** `n` tiles of one kind: `n` of that kind and none of any other. */
  lemma {:induction false} RunCount(k: Kind, n: nat, other: Kind)
    ensures multiset(seq(n, _ => k))[other] == if other == k then n else 0
  {
    if n > 0 {
      RunCount(k, n - 1, other);
      assert seq(n, _ => k) == seq(n - 1, _ => k) + [k];
    }
  }

  /** A Hunter for each direction: as many Hunters facing a way as there are
    * directions naming it. */
  lemma {:induction false} HunterCount(ds: seq<Direction>, other: Kind)
    ensures multiset(seq(|ds|, i requires 0 <= i < |ds| => Hunter(ds[i])))[other] ==
            if other.Hunter? then multiset(ds)[other.direction] else 0
  {
    if ds != [] {
      var n := |ds| - 1;
      HunterCount(ds[..n], other);
      assert seq(|ds|, i requires 0 <= i < |ds| => Hunter(ds[i])) ==
             seq(n, i requires 0 <= i < n => Hunter(ds[..n][i])) + [Hunter(ds[n])];
      assert ds == ds[..n] + [ds[n]];
    }
  }

  /** The tiles of a round: 2 Bears, 6 Foxes, 2 Lumberjacks, a Hunter facing
    * each given direction, 8 Pheasants, 7 Ducks and 15 Trees. */
  lemma CatalogueCounts(directions: seq<Direction>, k: Kind)
    requires |directions| == HUNTERS
    ensures multiset(Catalogue(directions))[k] ==
            match k
            case Bear => BEARS
            case Fox => FOXES
            case Lumberjack => LUMBERJACKS
            case Hunter(d) => multiset(directions)[d]
            case Pheasant => PHEASANTS
            case Duck => DUCKS
            case Tree => TREES
  {
    RunCount(Bear, BEARS, k);
    RunCount(Fox, FOXES, k);
    RunCount(Lumberjack, LUMBERJACKS, k);
    HunterCount(directions, k);
    assert seq(HUNTERS, i requires 0 <= i < HUNTERS => Hunter(directions[i])) ==
           seq(|directions|, i requires 0 <= i < |directions| => Hunter(directions[i]));
    RunCount(Pheasant, PHEASANTS, k);
    RunCount(Duck, DUCKS, k);
    RunCount(Tree, TREES, k);
  }

  /** A sequence rearranged by a permutation of its indexes. */
  function Permuted<T>(c: seq<T>, order: seq<int>): seq<T>
    requires IsPermutation(order, |c|)
  {
    seq(|c|, i requires 0 <= i < |c| => c[order[i]])
  }

  /** Rearranging loses and duplicates nothing: the elements are the same,
    * each as many times. */
  lemma {:induction false} PermutedMultiset<T>(c: seq<T>, order: seq<int>)
    requires IsPermutation(order, |c|)
    ensures multiset(Permuted(c, order)) == multiset(c)
    decreases |c|
  {
    if |c| > 0 {
      var n := |c| - 1;
      var j := order[n];
      var rest := c[..j] + c[j + 1..];
      var restOrder := seq(n, i requires 0 <= i < n => if order[i] > j then order[i] - 1 else order[i]);
      forall i | 0 <= i < n
        ensures order[i] != j && 0 <= restOrder[i] < n && rest[restOrder[i]] == c[order[i]]
      {
        assert order[i] != order[n];
      }
      forall i, i2 | 0 <= i < i2 < n
        ensures restOrder[i] != restOrder[i2]
      {
        assert order[i] != order[i2];
      }
      PermutedMultiset(rest, restOrder);
      var s := Permuted(c, order);
      assert s[..n] == Permuted(rest, restOrder);
      assert s == s[..n] + [c[j]];
      assert c == c[..j] + [c[j]] + c[j + 1..];
    }
  }

  /** The shuffle keeps the round's tiles: the new tiles are of the kinds of
    * the catalogue, each kind as many times. */
  lemma ShuffleKeepsCatalogue(firstId: nat, order: seq<int>, directions: seq<Direction>)
    requires IsPermutation(order, TILE_COUNT) && |directions| == HUNTERS
    ensures multiset(KindsOf(ShuffledTiles(firstId, order, directions))) == multiset(Catalogue(directions))
  {
    assert KindsOf(ShuffledTiles(firstId, order, directions)) == Permuted(Catalogue(directions), order);
    PermutedMultiset(Catalogue(directions), order);
  }

  /** `setUpTiles` keeps the board well formed. */
  lemma SetUpKeepsWellFormed(p: Position, order: seq<int>, directions: seq<Direction>)
    requires WellFormed(p) && IsPermutation(order, TILE_COUNT) && |directions| == HUNTERS
    ensures WellFormed(SetUpTiles(p, order, directions))
  {
    var q := SetUpTiles(p, order, directions);
    var tiles := ShuffledTiles(p.freshId, order, directions);
    var n := |p.cells|;
    var c := (n - 1) / 2;
    forall x, y | 0 <= x < n && 0 <= y < n && q.cells[x][y].Some?
      ensures (x, y) != (c, c)
      ensures if 0 <= DealIndex(n, x, y) < TILE_COUNT then q.cells[x][y].value.id == p.freshId + DealIndex(n, x, y)
              else q.cells[x][y] == p.cells[x][y] && q.cells[x][y].value.id < p.freshId
    {
    }
    forall x1: int, y1: int, x2: int, y2: int | 0 <= x1 < n && 0 <= y1 < n && 0 <= x2 < n && 0 <= y2 < n &&
      q.cells[x1][y1].Some? && q.cells[x2][y2].Some? && q.cells[x1][y1].value.id == q.cells[x2][y2].value.id
      ensures x1 == x2 && y1 == y2
    {
      if 0 <= DealIndex(n, x1, y1) < TILE_COUNT && 0 <= DealIndex(n, x2, y2) < TILE_COUNT {
        DealIndexInjective(n, x1, y1, x2, y2);
      }
    }
  }

  /** `setUpTiles` on the published 7 x 7 board: the centre is empty and every
    * other square holds a new face-down tile; the 48 shuffled tiles are each
    * dealt to exactly one square, in scan order; nothing is flipped, nobody
    * has moved and the game is not in its end game. */
  lemma SetUpDealsEveryTile(p: Position, order: seq<int>, directions: seq<Direction>)
    requires WellFormed(p) && |p.cells| == DEFAULT_SIZE
    requires IsPermutation(order, TILE_COUNT) && |directions| == HUNTERS
    ensures var q := SetUpTiles(p, order, directions);
            var tiles := ShuffledTiles(p.freshId, order, directions);
            q.cells[3][3] == None &&
            (forall x, y | q.OnBoard(x, y) && (x, y) != (3, 3) ::
               0 <= DealIndex(7, x, y) < TILE_COUNT && q.cells[x][y] == Some(tiles[DealIndex(7, x, y)]) &&
               !tiles[DealIndex(7, x, y)].faceUp && !HoldsId(p.cells, tiles[DealIndex(7, x, y)].id)) &&
            (forall k | 0 <= k < TILE_COUNT :: exists x, y | q.OnBoard(x, y) :: q.cells[x][y] == Some(tiles[k])) &&
            (forall x1, y1, x2, y2 | q.OnBoard(x1, y1) && q.OnBoard(x2, y2) && (x1, y1) != (x2, y2) ::
               q.cells[x1][y1] != q.cells[x2][y2] || q.cells[x1][y1].None?) &&
            !q.allTilesFaceUp && q.justFlippedNeutralTile == None &&
            q.justMovedHuman == None && q.justMovedPredator == None
  {
    var q := SetUpTiles(p, order, directions);
    var tiles := ShuffledTiles(p.freshId, order, directions);
    forall x, y | q.OnBoard(x, y) && (x, y) != (3, 3)
      ensures 0 <= DealIndex(7, x, y) < TILE_COUNT
    {
      DealIndexNonNegative(7, x, y);
      if (x, y) != (6, 6) {
        DealIndexOrder(7, x, y, 6, 6);
      }
    }
    forall k | 0 <= k < TILE_COUNT
      ensures exists x, y | q.OnBoard(x, y) :: q.cells[x][y] == Some(tiles[k])
    {
      var x, y := DealIndexOnto(7, k);
      assert q.cells[x][y] == Some(tiles[k]);
    }
    SetUpKeepsWellFormed(p, order, directions);
  }
}
