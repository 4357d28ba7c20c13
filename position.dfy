/** The rules of the board as pure functions of a board position: what a move
  * must satisfy, which turns exist, and what flipping, moving and passing do.
  * The board class (module BoardImpls) keeps one such position in its fields
  * and is proved against these functions. The grid is indexed `cells[x][y]`. */
module Boards {
  import opened Common
  import opened Tiles
  import opened Turns

  /** The side of the published game board. */
  const DEFAULT_SIZE: int := 7

  /** How many tiles of each kind a new round deals out. */
  const BEARS: nat := 2
  const FOXES: nat := 6
  const LUMBERJACKS: nat := 2
  const HUNTERS: nat := 8
  const PHEASANTS: nat := 8
  const DUCKS: nat := 7
  const TREES: nat := 15
  const TILE_COUNT: nat := 48

  type Grid = seq<seq<Option<Tile>>>

  predicate IsSquare(g: Grid) {
    forall x | 0 <= x < |g| :: |g[x]| == |g|
  }

  /** A board side the constructor accepts: positive, odd and at most MAX_SIZE. */
  predicate ValidSize(size: int) {
    0 < size <= MAX_SIZE && size % 2 == 1
  }

  /** Everything the board's moves depend on. `justFlippedNeutralTile` holds the
    * identity of the tile the Java field points to; `freshId` is a model
    * artefact, a bound above every identity the board has seen, from which
    * new tile identities are drawn. */
  datatype Position = Position(
    cells: Grid,
    allTilesFaceUp: bool,
    justFlippedNeutralTile: Option<TileId>,
    justMovedHuman: Option<Turn>,
    justMovedPredator: Option<Turn>,
    freshId: nat)
  {
    /** A square grid no larger than the constructor allows. */
    predicate Shaped() { IsSquare(cells) && |cells| <= MAX_SIZE }

    function MaxIndex(): int { |cells| - 1 }

    function Centre(): int { (|cells| - 1) / 2 }

    /** `validateCoordsOnBoard` succeeds. */
    predicate OnBoard(x: int, y: int) { 0 <= x < |cells| && 0 <= y < |cells| }

    /** `getTile`: the tile at a square, none off the board. */
    function TileAt(x: int, y: int): (t: Option<Tile>)
      requires Shaped()
      ensures t.None? <==> !OnBoard(x, y) || cells[x][y].None?
      ensures t.Some? ==> OnBoard(x, y) && t == cells[x][y]
    {
      if OnBoard(x, y) then cells[x][y] else None
    }
  }

  function EmptyGrid(size: nat): (g: Grid)
    ensures |g| == size && IsSquare(g)
    ensures forall x, y | 0 <= x < size && 0 <= y < size :: g[x][y].None?
  {
    seq(size, _ => seq(size, _ => None))
  }

  /** No tile on the grid is face-down. */
  predicate AllFaceUp(g: Grid) {
    forall x, y | 0 <= x < |g| && 0 <= y < |g[x]| :: g[x][y].Some? ==> g[x][y].value.faceUp
  }

  /** The grid holds the tile with this identity. */
  predicate HoldsId(g: Grid, id: TileId) {
    exists x, y | 0 <= x < |g| && 0 <= y < |g[x]| :: g[x][y].Some? && g[x][y].value.id == id
  }

  predicate TeamRepresented(g: Grid, team: Team) {
    exists x, y | 0 <= x < |g| && 0 <= y < |g[x]| :: g[x][y].Some? && TeamOf(g[x][y].value.kind) == team
  }

  predicate BothTeamsRepresented(g: Grid) {
    TeamRepresented(g, Humans) && TeamRepresented(g, Predators)
  }

  predicate IdsBelow(g: Grid, bound: nat) {
    forall x, y | 0 <= x < |g| && 0 <= y < |g[x]| :: g[x][y].Some? ==> g[x][y].value.id < bound
  }

  /** A tile occupies at most one square. */
  predicate UniqueIds(g: Grid) {
    forall x1, y1, x2, y2 |
      0 <= x1 < |g| && 0 <= y1 < |g[x1]| && 0 <= x2 < |g| && 0 <= y2 < |g[x2]| ::
      g[x1][y1].Some? && g[x2][y2].Some? && g[x1][y1].value.id == g[x2][y2].value.id ==>
      x1 == x2 && y1 == y2
  }

  /** The invariant every board keeps. (The all-face-up flag is not part of it:
    * the flag can go stale, see `BoardImpls.BoardImpl.RemoveTile`.) */
  predicate WellFormed(p: Position) {
    ValidSize(|p.cells|) && p.Shaped() && IdsBelow(p.cells, p.freshId) && UniqueIds(p.cells) &&
    (p.justFlippedNeutralTile.Some? ==> p.justFlippedNeutralTile.value < p.freshId)
  }

  function SetCell(g: Grid, x: int, y: int, v: Option<Tile>): (r: Grid)
    requires 0 <= x < |g| && 0 <= y < |g[x]|
    ensures |r| == |g| && forall i | 0 <= i < |g| :: |r[i]| == |g[i]|
    ensures forall i, j | 0 <= i < |g| && 0 <= j < |g[i]| :: r[i][j] == if i == x && j == y then v else g[i][j]
  {
    g[x := g[x][y := v]]
  }

  function Abs(n: int): nat { if n < 0 then -n else n }
  function Min(a: int, b: int): int { if a < b then a else b }
  function Max(a: int, b: int): int { if a < b then b else a }

  // ---------------------------------------------------------------------------
  // Move validation

  /** Where a tile may go: any square of the board; once every tile is
    * face-up, also any off-board square on the centre row or column. */
  predicate DestinationAllowed(p: Position, toX: int, toY: int) {
    p.OnBoard(toX, toY) || (p.allTilesFaceUp && (toX == p.Centre() || toY == p.Centre()))
  }

  /** `validateDestination`. */
  function ValidateDestination(p: Position, toX: int, toY: int): (r: Outcome<Error>)
    ensures r == Ok <==> DestinationAllowed(p, toX, toY)
    ensures r.Fail? ==> r.error.IllegalMove?
  {
    if p.OnBoard(toX, toY) then Ok
    else if !p.allTilesFaceUp then Fail(IllegalMove(DestinationOffBoard))
    else if toX != p.Centre() && toY != p.Centre() then Fail(IllegalMove(NotThroughExit))
    else Ok
  }

  /** `Math.abs` on an int: the least int is its own absolute value, since
    * its negation wraps around. */
  function JavaAbs(v: int): (r: int)
    requires INTEGER_MIN_VALUE <= v <= INTEGER_MAX_VALUE
    ensures r == if v == INTEGER_MIN_VALUE then v else Abs(v)
  {
    if v < 0 then Int32(-v) else v
  }

  /** The distance `validateRange` measures, in int arithmetic: the x
    * difference, or the y difference when that is 0, wrapped to 32 bits
    * and passed through `Math.abs`. */
  function Distance(fromX: int, fromY: int, toX: int, toY: int): int {
    var dx := Int32(fromX - toX);
    JavaAbs(if dx != 0 then dx else Int32(fromY - toY))
  }

  /** The length of a straight move measured without wrapping. */
  function Span(fromX: int, fromY: int, toX: int, toY: int): nat {
    if fromX != toX then Abs(fromX - toX) else Abs(fromY - toY)
  }

  /** While the two ends are less than 2^31 apart on each axis, the wrapped
    * distance is the true one. */
  lemma DistanceWithinInt(fromX: int, fromY: int, toX: int, toY: int)
    requires Abs(fromX - toX) <= INTEGER_MAX_VALUE && Abs(fromY - toY) <= INTEGER_MAX_VALUE
    ensures Distance(fromX, fromY, toX, toY) == Span(fromX, fromY, toX, toY)
  {
  }

  /** A destination 2^31 squares away wraps: its distance is the least int,
    * below every range, and one a square nearer measures the greatest int,
    * which the unlimited range still allows. */
  lemma {:induction false} FarDestinationsWrap()
    ensures Distance(0, 3, INTEGER_MIN_VALUE, 3) == INTEGER_MIN_VALUE < 0
    ensures Span(0, 3, INTEGER_MIN_VALUE, 3) == INTEGER_MAX_VALUE + 1
    ensures Distance(1, 3, INTEGER_MIN_VALUE, 3) == INTEGER_MAX_VALUE == UNLIMITED
    ensures Span(1, 3, INTEGER_MIN_VALUE, 3) == INTEGER_MAX_VALUE + 2
  {
    assert Int32(0 - INTEGER_MIN_VALUE) == INTEGER_MIN_VALUE;
    assert Int32(1 - INTEGER_MIN_VALUE) == INTEGER_MIN_VALUE + 1;
  }

  /** Every square strictly between the two ends of a straight move is empty. */
  predicate PathClear(p: Position, fromX: int, fromY: int, toX: int, toY: int)
    requires p.Shaped()
  {
    (fromX == toX ==> forall y :: Min(fromY, toY) < y < Max(fromY, toY) ==> p.TileAt(fromX, y).None?) &&
    (fromX != toX ==> forall x :: Min(fromX, toX) < x < Max(fromX, toX) ==> p.TileAt(x, fromY).None?)
  }

  /** `validateNoInterveningTiles`: a crooked move is a programmer error. */
  function ValidateNoInterveningTiles(p: Position, fromX: int, fromY: int, toX: int, toY: int): (r: Outcome<Error>)
    requires p.Shaped()
    ensures r == Ok <==> (fromX == toX || fromY == toY) && PathClear(p, fromX, fromY, toX, toY)
    ensures r == Fail(IllegalArgument) <==> fromX != toX && fromY != toY
  {
    if fromX == toX then
      if exists y :: Min(fromY, toY) < y < Max(fromY, toY) && p.TileAt(fromX, y).Some? then Fail(IllegalMove(Blocked))
      else Ok
    else if fromY == toY then
      if exists x :: Min(fromX, toX) < x < Max(fromX, toX) && p.TileAt(x, fromY).Some? then Fail(IllegalMove(Blocked))
      else Ok
    else Fail(IllegalArgument)
  }

  /** A Hunter only captures in the direction it faces. */
  predicate Facing(d: Direction, fromX: int, fromY: int, toX: int, toY: int) {
    match d
    case BigX => fromX < toX
    case BigY => fromY < toY
    case SmallX => fromX > toX
    case SmallY => fromY > toY
  }

  /** The tile at the destination, if any, may be captured by the mover. */
  predicate CaptureAllowed(p: Position, mover: Tile, fromX: int, fromY: int, toX: int, toY: int)
    requires p.Shaped()
  {
    var occupant := p.TileAt(toX, toY);
    occupant.None? ||
    (occupant.value.faceUp && CanCapture(mover.kind, Some(occupant.value.kind)) &&
     (mover.kind.Hunter? ==> Facing(mover.kind.direction, fromX, fromY, toX, toY)))
  }

  /** `validatePrey`. */
  function ValidatePrey(p: Position, fromX: int, fromY: int, toX: int, toY: int): (r: Outcome<Error>)
    requires p.Shaped() && p.TileAt(fromX, fromY).Some?
    ensures r == Ok <==> CaptureAllowed(p, p.TileAt(fromX, fromY).value, fromX, fromY, toX, toY)
    ensures r.Fail? ==> r.error.IllegalMove?
  {
    var captured := p.TileAt(toX, toY);
    if captured.None? then Ok
    else if !captured.value.faceUp then Fail(IllegalMove(CaptureFaceDownTile))
    else
      var capturing := p.TileAt(fromX, fromY).value;
      if !CanCapture(capturing.kind, Some(captured.value.kind)) then Fail(IllegalMove(NotPrey))
      else if capturing.kind.Hunter? && !Facing(capturing.kind.direction, fromX, fromY, toX, toY) then
        Fail(IllegalMove(WrongDirection))
      else Ok
  }

  /** The record of the moving team's last move of one of its own tiles. */
  function PreviousOwnMove(p: Position, team: Team): Option<Turn> {
    if team == Predators then p.justMovedPredator else p.justMovedHuman
  }

  /** Every rule of a legal move at once, in no particular order. */
  predicate LegalMove(p: Position, team: Team, fromX: int, fromY: int, toX: int, toY: int)
    requires p.Shaped()
  {
    team != Neutral && p.OnBoard(fromX, fromY) && DestinationAllowed(p, toX, toY) &&
    p.TileAt(fromX, fromY).Some? &&
    var tile := p.TileAt(fromX, fromY).value;
    var owner := TeamOf(tile.kind);
    tile.faceUp &&
    (fromX == toX) != (fromY == toY) &&
    Distance(fromX, fromY, toX, toY) <= RangeOf(tile.kind) &&
    PathClear(p, fromX, fromY, toX, toY) &&
    CaptureAllowed(p, tile, fromX, fromY, toX, toY) &&
    (owner == team || owner == Neutral) &&
    p.justFlippedNeutralTile != Some(tile.id) &&
    !(owner == team && Reverses(Move(team, fromX, fromY, toX, toY, 0), PreviousOwnMove(p, team))) &&
    (p.OnBoard(toX, toY) || owner != Neutral)
  }

  /** `validateMove`: the checks in their order, the first failure reported.
    * Only a neutral moving team is a programmer error; every other failure
    * is a broken rule. */
  function ValidateMove(p: Position, team: Team, fromX: int, fromY: int, toX: int, toY: int): (r: Outcome<Error>)
    requires p.Shaped()
    ensures r == Ok <==> LegalMove(p, team, fromX, fromY, toX, toY)
    ensures r == Fail(IllegalArgument) <==>
      p.OnBoard(fromX, fromY) && DestinationAllowed(p, toX, toY) && team == Neutral
    ensures r.Fail? ==> r.error.IllegalMove? || r.error == IllegalArgument
  {
    if !p.OnBoard(fromX, fromY) then Fail(IllegalMove(OriginOffBoard))
    else if ValidateDestination(p, toX, toY).Fail? then ValidateDestination(p, toX, toY)
    else if team == Neutral then Fail(IllegalArgument)
    else if p.TileAt(fromX, fromY).None? then Fail(IllegalMove(NoTileToMove))
    else
      var tile := p.TileAt(fromX, fromY).value;
      if !tile.faceUp then Fail(IllegalMove(MovingFaceDownTile))
      else if fromX == toX && fromY == toY then Fail(IllegalMove(NoDistance))
      else if fromX != toX && fromY != toY then Fail(IllegalMove(Diagonal))
      else if Distance(fromX, fromY, toX, toY) > RangeOf(tile.kind) then Fail(IllegalMove(OutOfRange))
      else if ValidateNoInterveningTiles(p, fromX, fromY, toX, toY).Fail? then
        ValidateNoInterveningTiles(p, fromX, fromY, toX, toY)
      else if ValidatePrey(p, fromX, fromY, toX, toY).Fail? then ValidatePrey(p, fromX, fromY, toX, toY)
      else if TeamOf(tile.kind) != Neutral && TeamOf(tile.kind) != team then Fail(IllegalMove(OtherTeamsTile))
      else if p.justFlippedNeutralTile == Some(tile.id) then Fail(IllegalMove(JustFlippedNeutralTile))
      else if TeamOf(tile.kind) == team &&
              Reverses(Move(team, fromX, fromY, toX, toY, 0), PreviousOwnMove(p, team)) then
        Fail(IllegalMove(ReversesOwnMove))
      else if !p.OnBoard(toX, toY) && TeamOf(tile.kind) == Neutral then Fail(IllegalMove(RescuesNeutralTile))
      else Ok
  }

  /** The wrap lets a tile leave through an exit it could never reach: a
    * face-up Bear, whose range is 1, on the centre line at the edge of a
    * 7×7 board whose tiles are all face-up, may move 2^31 squares off the
    * board. */
  lemma FarRescueAccepted(p: Position, bear: Tile)
    requires p.Shaped() && |p.cells| == DEFAULT_SIZE && p.allTilesFaceUp
    requires p.TileAt(0, 3) == Some(bear) && bear.kind == Bear && bear.faceUp
    requires p.justMovedPredator.None? && p.justFlippedNeutralTile != Some(bear.id)
    ensures ValidateMove(p, Predators, 0, 3, INTEGER_MIN_VALUE, 3) == Ok
    ensures Span(0, 3, INTEGER_MIN_VALUE, 3) > RangeOf(Bear)
  {
    FarDestinationsWrap();
  }

  // ---------------------------------------------------------------------------
  // Enumerating turns

  /** `getScore(movingTile, toX, toY)`: the value of the tile captured, 0 for an
    * empty square, the mover's own value when it leaves the board. */
  function ScoreOf(p: Position, mover: Tile, toX: int, toY: int): int
    requires p.Shaped()
  {
    if p.OnBoard(toX, toY) then
      (if p.cells[toX][toY].Some? then ValueOf(p.cells[toX][toY].value.kind) else 0)
    else ValueOf(mover.kind)
  }

  /** The turn `getPossibleMoves` builds for a destination that passed validation. */
  function CandidateMove(p: Position, team: Team, fromX: int, fromY: int, toX: int, toY: int): Turn
    requires p.Shaped() && p.TileAt(fromX, fromY).Some?
  {
    var score := ScoreOf(p, p.TileAt(fromX, fromY).value, toX, toY);
    if p.OnBoard(toX, toY) then Move(team, fromX, fromY, toX, toY, score)
    else Rescue(team, fromX, fromY, toX, toY, score)
  }

  /** The destination with coordinate `c` on the row (`xAxis`) or the column of the origin. */
  function AxisTargetX(fromX: int, xAxis: bool, c: int): int { if xAxis then c else fromX }
  function AxisTargetY(fromY: int, xAxis: bool, c: int): int { if xAxis then fromY else c }

  /** The move to the destination with coordinate `d` on the axis, if it
    * passes validation. */
  function AxisStep(p: Position, team: Team, fromX: int, fromY: int, xAxis: bool, d: int): seq<Turn>
    requires p.Shaped()
  {
    var toX, toY := AxisTargetX(fromX, xAxis, d), AxisTargetY(fromY, xAxis, d);
    if ValidateMove(p, team, fromX, fromY, toX, toY) == Ok then [CandidateMove(p, team, fromX, fromY, toX, toY)]
    else []
  }

  /** The moves found along one axis among the destinations -1 .. c-1, in order. */
  function AxisMovesBelow(p: Position, team: Team, fromX: int, fromY: int, xAxis: bool, c: int): seq<Turn>
    requires p.Shaped()
    decreases c + 1
  {
    if c <= -1 then []
    else AxisMovesBelow(p, team, fromX, fromY, xAxis, c - 1) + AxisStep(p, team, fromX, fromY, xAxis, c - 1)
  }

  /** `getPossibleMoves(team, fromX, fromY, xAxis)`: destinations -1 .. maxIndex+1. */
  function AxisMoves(p: Position, team: Team, fromX: int, fromY: int, xAxis: bool): seq<Turn>
    requires p.Shaped()
  {
    AxisMovesBelow(p, team, fromX, fromY, xAxis, |p.cells| + 1)
  }

  /** `getPossibleMoves(team, tile, fromX, fromY)` on an on-board origin. */
  function PossibleMoves(p: Position, team: Team, fromX: int, fromY: int): seq<Turn>
    requires p.Shaped() && team != Neutral
  {
    var tile := p.TileAt(fromX, fromY);
    if tile.Some? && tile.value.faceUp && RangeOf(tile.value.kind) > 0 then
      AxisMoves(p, team, fromX, fromY, true) + AxisMoves(p, team, fromX, fromY, false)
    else []
  }

  /** The turns `getPossibleTurns` offers for one square. */
  function CellTurns(p: Position, team: Team, x: int, y: int): seq<Turn>
    requires p.Shaped() && team != Neutral
  {
    match p.TileAt(x, y)
    case None => []
    case Some(t) => if !t.faceUp then [Flip(team, x, y, t)] else PossibleMoves(p, team, x, y)
  }

  /** The turns of squares (0, y) .. (x-1, y). */
  function RowTurnsBelow(p: Position, team: Team, y: int, x: int): seq<Turn>
    requires p.Shaped() && team != Neutral
    decreases x
  {
    if x <= 0 then [] else RowTurnsBelow(p, team, y, x - 1) + CellTurns(p, team, x - 1, y)
  }

  /** The turns of rows 0 .. y-1, each row scanned along x. */
  function TurnsBelowRow(p: Position, team: Team, y: int): seq<Turn>
    requires p.Shaped() && team != Neutral
    decreases y
  {
    if y <= 0 then [] else TurnsBelowRow(p, team, y - 1) + RowTurnsBelow(p, team, y - 1, |p.cells|)
  }

  /** `getPossibleTurns`: rows in order of y, squares in order of x. */
  function PossibleTurns(p: Position, team: Team): seq<Turn>
    requires p.Shaped() && team != Neutral
  {
    TurnsBelowRow(p, team, |p.cells|)
  }

  /** `isMovementPossible(team, from)`. */
  predicate MovementPossibleAt(p: Position, team: Team, x: int, y: int)
    requires p.Shaped() && team != Neutral
  {
    var tile := p.TileAt(x, y);
    tile.Some? && p.justFlippedNeutralTile != Some(tile.value.id) &&
    (team == TeamOf(tile.value.kind) || TeamOf(tile.value.kind) == Neutral) &&
    PossibleMoves(p, team, x, y) != []
  }

  /** `isMovementPossible(team)`. */
  predicate MovementPossible(p: Position, team: Team)
    requires p.Shaped() && team != Neutral
  {
    exists x, y | 0 <= x < |p.cells| && 0 <= y < |p.cells| :: MovementPossibleAt(p, team, x, y)
  }

  /** `isTurnPossible` for a playing team: before the end game a flip is always
    * assumed possible. */
  predicate TurnPossible(p: Position, team: Team)
    requires p.Shaped() && team != Neutral
  {
    !p.allTilesFaceUp || MovementPossible(p, team)
  }

  // ---------------------------------------------------------------------------
  // Changing the position

  /** What a turn did: the position after it, the points credited to the
    * player who took it, and the turn the board announces. */
  datatype TurnEffect = TurnEffect(after: Position, credit: int, event: Turn)

  /** `flipTile`: no check that the tile was face-down. */
  function FlipTile(p: Position, team: Team, x: int, y: int): Result<TurnEffect, Error>
    requires p.Shaped()
  {
    if team == Neutral || !p.OnBoard(x, y) || p.cells[x][y].None? then Failure(IllegalArgument)
    else
      var tile := SetFaceUp(p.cells[x][y].value);
      var cells := SetCell(p.cells, x, y, Some(tile));
      var q := p.(cells := cells,
                  justFlippedNeutralTile := if TeamOf(tile.kind) == Neutral then Some(tile.id) else None,
                  justMovedHuman := if team == Humans then None else p.justMovedHuman,
                  justMovedPredator := if team == Humans then p.justMovedPredator else None,
                  allTilesFaceUp := AllFaceUp(cells));
      Success(TurnEffect(q, 0, Flip(team, x, y, tile)))
  }

  /** `pass` for a playing team. */
  function PassTurn(p: Position, team: Team): Result<Position, Error> {
    if team == Neutral then Failure(IllegalArgument)
    else Success(p.(justFlippedNeutralTile := None,
                    justMovedHuman := if team == Humans then None else p.justMovedHuman,
                    justMovedPredator := if team == Predators then None else p.justMovedPredator,
                    allTilesFaceUp := AllFaceUp(p.cells)))
  }

  /** `setPreviouslyMovedOwnTile`: a move of the team's own tile is recorded,
    * a move of a neutral tile clears the record. */
  function OwnMoveRecord(team: Team, mover: Tile, fromX: int, fromY: int, toX: int, toY: int): Option<Turn> {
    if TeamOf(mover.kind) == team then Some(Move(team, fromX, fromY, toX, toY, 0)) else None
  }

  /** The grid after the tile at `from` moves to `to` (leaves it, off the board). */
  function MovedCells(p: Position, fromX: int, fromY: int, toX: int, toY: int): Grid
    requires p.Shaped() && p.OnBoard(fromX, fromY)
  {
    var lifted := SetCell(p.cells, fromX, fromY, None);
    if p.OnBoard(toX, toY) then SetCell(lifted, toX, toY, p.cells[fromX][fromY]) else lifted
  }

  /** The position once a legal move has been carried out and before any
    * points are credited or the all-face-up flag is refreshed. */
  function MovedPosition(p: Position, team: Team, fromX: int, fromY: int, toX: int, toY: int): Position
    requires p.Shaped() && p.OnBoard(fromX, fromY) && p.cells[fromX][fromY].Some?
  {
    var record := OwnMoveRecord(team, p.cells[fromX][fromY].value, fromX, fromY, toX, toY);
    p.(cells := MovedCells(p, fromX, fromY, toX, toY),
       justFlippedNeutralTile := None,
       justMovedHuman := if team == Humans then record else p.justMovedHuman,
       justMovedPredator := if team == Predators then record else p.justMovedPredator)
  }

  /** `moveTile`. A capture credits the captured tile's value and a rescue the
    * rescued tile's value; crediting a value that is not positive fails
    * (AbstractPlayer.addToScore) after the tiles have already moved. */
  function MoveTile(p: Position, team: Team, fromX: int, fromY: int, toX: int, toY: int): Result<TurnEffect, Error>
    requires p.Shaped()
  {
    var v := ValidateMove(p, team, fromX, fromY, toX, toY);
    if v.Fail? then Failure(v.error) else CarryOutMove(p, team, fromX, fromY, toX, toY)
  }

  /** `moveTile` once the move has passed validation. */
  function CarryOutMove(p: Position, team: Team, fromX: int, fromY: int, toX: int, toY: int): Result<TurnEffect, Error>
    requires p.Shaped() && p.OnBoard(fromX, fromY) && p.cells[fromX][fromY].Some?
  {
      var mover := p.cells[fromX][fromY].value;
      var q := MovedPosition(p, team, fromX, fromY, toX, toY);
      var done := q.(allTilesFaceUp := AllFaceUp(q.cells));
      if !p.OnBoard(toX, toY) then
        Success(TurnEffect(done, ValueOf(mover.kind), Rescue(team, fromX, fromY, toX, toY, ValueOf(mover.kind))))
      else if p.cells[toX][toY].Some? then
        var points := ValueOf(p.cells[toX][toY].value.kind);
        if points <= 0 then Failure(IllegalArgument)
        else Success(TurnEffect(done, points, Move(team, fromX, fromY, toX, toY, points)))
      else Success(TurnEffect(done, 0, Move(team, fromX, fromY, toX, toY, 0)))
  }

  /** `haveTurn` for a player of the given team. */
  function HaveTurn(p: Position, team: Team, turn: Option<Turn>): Result<TurnEffect, Error>
    requires p.Shaped()
  {
    if turn.None? || turn.value.Pass? then Failure(IllegalArgument)
    else if turn.value.Flip? then FlipTile(p, team, turn.value.x, turn.value.y)
    else MoveTile(p, team, turn.value.fromX, turn.value.fromY, turn.value.toX, turn.value.toY)
  }

  /** `addTile`: the checks in their order. */
  function AddTile(p: Position, tile: Option<Tile>, x: int, y: int): Result<Position, Error>
    requires p.Shaped()
  {
    if !p.OnBoard(x, y) || p.cells[x][y].Some? || tile.None? || tile.value.faceUp || HoldsId(p.cells, tile.value.id) then
      Failure(IllegalArgument)
    else
      Success(p.(cells := SetCell(p.cells, x, y, tile), allTilesFaceUp := false,
                 freshId := Max(p.freshId, tile.value.id + 1)))
  }

  // ---------------------------------------------------------------------------
  // Cloning

  function ShiftTile(t: Option<Tile>, offset: nat): Option<Tile> {
    if t.Some? then Some(t.value.(id := t.value.id + offset)) else None
  }

  function ShiftIds(g: Grid, offset: nat): (r: Grid)
    ensures |r| == |g| && forall x | 0 <= x < |g| :: |r[x]| == |g[x]|
    ensures forall x, y | 0 <= x < |g| && 0 <= y < |g[x]| :: r[x][y] == ShiftTile(g[x][y], offset)
  {
    seq(|g|, x requires 0 <= x < |g| => seq(|g[x]|, y requires 0 <= y < |g[x]| => ShiftTile(g[x][y], offset)))
  }

  /** `clone`: every tile is copied into a new object (a fresh identity); the
    * history is copied as it is, so the just-flipped identity refers to a tile
    * of the original board. */
  function Cloned(p: Position): Position {
    p.(cells := ShiftIds(p.cells, p.freshId), freshId := p.freshId + p.freshId)
  }

  // ---------------------------------------------------------------------------
  // Setting up a round

  /** The tiles of a round in the order `getShuffledTiles` creates them, before
    * shuffling; each Hunter's random direction is given. */
  function Catalogue(directions: seq<Direction>): (ks: seq<Kind>)
    requires |directions| == HUNTERS
    ensures |ks| == TILE_COUNT
  {
    seq(BEARS, _ => Bear) + seq(FOXES, _ => Fox) + seq(LUMBERJACKS, _ => Lumberjack) +
    seq(HUNTERS, i requires 0 <= i < HUNTERS => Hunter(directions[i])) +
    seq(PHEASANTS, _ => Pheasant) + seq(DUCKS, _ => Duck) + seq(TREES, _ => Tree)
  }

  /** `order` rearranges 0 .. n-1: the shuffle. */
  predicate IsPermutation(order: seq<int>, n: nat) {
    |order| == n && (forall i | 0 <= i < n :: 0 <= order[i] < n) &&
    (forall i, j | 0 <= i < j < n :: order[i] != order[j])
  }

  /** `getShuffledTiles`: new face-down tiles with fresh identities, in the
    * shuffled order. */
  function ShuffledTiles(firstId: nat, order: seq<int>, directions: seq<Direction>): (ts: seq<Tile>)
    requires IsPermutation(order, TILE_COUNT) && |directions| == HUNTERS
    ensures |ts| == TILE_COUNT
    ensures forall i | 0 <= i < TILE_COUNT :: ts[i].id == firstId + i && !ts[i].faceUp
  {
    seq(TILE_COUNT, i requires 0 <= i < TILE_COUNT => NewTile(firstId + i, Catalogue(directions)[order[i]]))
  }

  /** The place of square (x, y) in the set-up scan (rows in order of y, squares
    * in order of x) among the squares other than the centre. */
  function DealIndex(size: int, x: int, y: int): int {
    var c := (size - 1) / 2;
    y * size + x - (if y > c || (y == c && x > c) then 1 else 0)
  }

  /** What `setUpTiles` leaves on a square: nothing at the centre; the tile dealt
    * to the square; the old content once the tiles have run out. */
  function DealtCell(g: Grid, tiles: seq<Tile>, x: int, y: int): Option<Tile>
    requires 0 <= x < |g| && 0 <= y < |g[x]|
  {
    var c := (|g| - 1) / 2;
    if x == c && y == c then None
    else if 0 <= DealIndex(|g|, x, y) < |tiles| then Some(tiles[DealIndex(|g|, x, y)])
    else g[x][y]
  }

  function DealtGrid(g: Grid, tiles: seq<Tile>): (r: Grid)
    ensures |r| == |g| && forall x | 0 <= x < |g| :: |r[x]| == |g[x]|
    ensures forall x, y | 0 <= x < |g| && 0 <= y < |g[x]| :: r[x][y] == DealtCell(g, tiles, x, y)
  {
    seq(|g|, x requires 0 <= x < |g| => seq(|g[x]|, y requires 0 <= y < |g[x]| => DealtCell(g, tiles, x, y)))
  }

  /** `setUpTiles` with the given shuffle and Hunter directions. */
  function SetUpTiles(p: Position, order: seq<int>, directions: seq<Direction>): Position
    requires IsPermutation(order, TILE_COUNT) && |directions| == HUNTERS
  {
    p.(cells := DealtGrid(p.cells, ShuffledTiles(p.freshId, order, directions)),
       allTilesFaceUp := false, justFlippedNeutralTile := None,
       justMovedHuman := None, justMovedPredator := None,
       freshId := p.freshId + TILE_COUNT)
  }
}
