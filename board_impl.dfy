/** The game board (`BoardImpl`) and its iterator: a square grid of tiles that
  * the methods below change in place. Each method is proved against the pure
  * rules of module Boards, read off the fields through `Pos()`. */
module BoardImpls {
  import opened Common
  import opened Tiles
  import opened Turns
  import opened Boards
  import opened Players
  import BoardEffects

  /** What the board tells its observers at the end of a turn: nothing (a
    * clone stays silent), or that the position changed, with the turn taken
    * (none for a pass). */
  datatype Notification = Silent | Notified(change: Option<Turn>)

  function Announce(isClone: bool, turn: Option<Turn>): Notification {
    if isClone then Silent else Notified(turn)
  }

  /** Two grids of the same shape that agree square by square are equal. */
  lemma GridsEqual(g: Grid, h: Grid)
    requires |g| == |h| && forall x | 0 <= x < |g| :: |g[x]| == |h[x]|
    requires forall x, y | 0 <= x < |g| && 0 <= y < |g[x]| :: g[x][y] == h[x][y]
    ensures g == h
  {
    forall x | 0 <= x < |g| ensures g[x] == h[x] {
      assert |g[x]| == |h[x]|;
    }
  }

  /** Moving along a row, the deal index grows by one except past the centre. */
  lemma DealIndexStep(n: int, x: int, y: int)
    requires ValidSize(n) && 0 <= x < n && 0 <= y < n
    ensures DealIndex(n, x + 1, y) == DealIndex(n, x, y) + (if x == (n - 1) / 2 && y == (n - 1) / 2 then 0 else 1)
  {
  }

  /** The end of one row is where the next row starts. */
  lemma DealIndexNextRow(n: int, y: int)
    requires ValidSize(n) && 0 <= y < n
    ensures DealIndex(n, n, y) == DealIndex(n, 0, y + 1)
  {
    assert (y + 1) * n == y * n + n;
  }

  /** One of the seven loops of `getShuffledTiles`: `count` more tiles of one kind. */
  method AppendKinds(kinds: seq<Kind>, k: Kind, count: nat) returns (r: seq<Kind>)
    ensures r == kinds + seq(count, _ => k)
  {
    r := kinds;
    var i := 0;
    while i < count
      invariant 0 <= i <= count
      invariant r == kinds + seq(i, _ => k)
    {
      assert seq(i + 1, _ => k) == seq(i, _ => k) + [k];
      r := r + [k];
      i := i + 1;
    }
  }

  /** `getShuffledTiles`: the tiles of a round, kind by kind, each Hunter
    * facing its given direction, then rearranged by the shuffle `order`; the
    * new tiles take identities from `firstId` on, in shuffled order. */
  method ShuffledTileList(firstId: nat, order: seq<int>, directions: seq<Direction>) returns (ts: seq<Tile>)
    requires IsPermutation(order, TILE_COUNT) && |directions| == HUNTERS
    ensures ts == ShuffledTiles(firstId, order, directions)
  {
    var kinds := AppendKinds([], Bear, BEARS);
    kinds := AppendKinds(kinds, Fox, FOXES);
    kinds := AppendKinds(kinds, Lumberjack, LUMBERJACKS);
    ghost var before := kinds;
    var i := 0;
    while i < HUNTERS
      invariant 0 <= i <= HUNTERS
      invariant kinds == before + seq(i, j requires 0 <= j < i => Hunter(directions[j]))
    {
      assert seq(i + 1, j requires 0 <= j < i + 1 => Hunter(directions[j])) ==
             seq(i, j requires 0 <= j < i => Hunter(directions[j])) + [Hunter(directions[i])];
      kinds := kinds + [Hunter(directions[i])];
      i := i + 1;
    }
    kinds := AppendKinds(kinds, Pheasant, PHEASANTS);
    kinds := AppendKinds(kinds, Duck, DUCKS);
    kinds := AppendKinds(kinds, Tree, TREES);
    assert kinds == Catalogue(directions);
    ts := [];
    i := 0;
    while i < TILE_COUNT
      invariant 0 <= i <= TILE_COUNT && |ts| == i
      invariant forall j | 0 <= j < i :: ts[j] == NewTile(firstId + j, kinds[order[j]])
    {
      ts := ts + [NewTile(firstId + i, kinds[order[i]])];
      i := i + 1;
    }
  }

  class BoardImpl {
    var tiles: Grid
    const maxIndex: int
    const centre: int
    var allTilesFaceUp: bool
    var justFlippedNeutralTile: Option<TileId>
    var justMovedHuman: Option<Turn>
    var justMovedPredator: Option<Turn>
    var isClone: bool
    /** Model artefact: a bound above every tile identity this board has seen. */
    var freshId: nat

    /** The position the fields hold. */
    function Pos(): Position
      reads this
    {
      Position(tiles, allTilesFaceUp, justFlippedNeutralTile, justMovedHuman, justMovedPredator, freshId)
    }

    /** The fields describe a square board: all the queries need. */
    ghost predicate Square()
      reads this
    {
      Pos().Shaped() && maxIndex == |tiles| - 1 && maxIndex >= 0
    }

    ghost predicate Valid()
      reads this
    {
      Square() && WellFormed(Pos()) && centre == maxIndex / 2
    }

    /** `getTile`: the tile on a square, none off the board. */
    function GetTile(x: int, y: int): (t: Option<Tile>)
      requires Square()
      reads this
      ensures t.None? <==> !Pos().OnBoard(x, y) || tiles[x][y].None?
      ensures t.Some? ==> Pos().OnBoard(x, y) && t == tiles[x][y]
    {
      Pos().TileAt(x, y)
    }

    /** The constructor: an empty board of an odd side of at most MAX_SIZE. */
    constructor(size: int)
      requires ValidSize(size)
      ensures Valid() && !isClone
      ensures Pos() == Position(EmptyGrid(size), true, None, None, None, 0)
      ensures maxIndex == size - 1 && centre == (size - 1) / 2
    {
      maxIndex := size - 1;
      tiles := EmptyGrid(size);
      allTilesFaceUp := true;
      centre := (size - 1) / 2;
      justFlippedNeutralTile := None;
      justMovedHuman := None;
      justMovedPredator := None;
      isClone := false;
      freshId := 0;
    }

    /** The field-by-field copy `clone` starts from, with an empty grid. */
    constructor CopyOf(original: BoardImpl)
      requires original.Valid()
      ensures maxIndex == original.maxIndex && centre == original.centre
      ensures tiles == EmptyGrid(|original.tiles|) && freshId == original.freshId + original.freshId
      ensures allTilesFaceUp == original.allTilesFaceUp && justFlippedNeutralTile == original.justFlippedNeutralTile
      ensures justMovedHuman == original.justMovedHuman && justMovedPredator == original.justMovedPredator
      ensures isClone == original.isClone
    {
      maxIndex := original.maxIndex;
      centre := original.centre;
      tiles := EmptyGrid(|original.tiles|);
      allTilesFaceUp := original.allTilesFaceUp;
      justFlippedNeutralTile := original.justFlippedNeutralTile;
      justMovedHuman := original.justMovedHuman;
      justMovedPredator := original.justMovedPredator;
      isClone := original.isClone;
      freshId := original.freshId + original.freshId;
    }

    /** The constructor's argument checks: a side that is not positive, is even
      * or exceeds MAX_SIZE is refused. */
    static method Create(size: int) returns (r: Result<BoardImpl, Error>)
      ensures r.Success? <==> ValidSize(size)
      ensures r.Failure? ==> r.error == IllegalArgument
      ensures r.Success? ==> fresh(r.value) && r.value.Valid() && !r.value.isClone &&
                             r.value.Pos() == Position(EmptyGrid(size), true, None, None, None, 0)
    {
      if size <= 0 || size % 2 == 0 || size > MAX_SIZE {
        return Failure(IllegalArgument);
      }
      var b := new BoardImpl(size);
      return Success(b);
    }

    // -------------------------------------------------------------------------
    // Adding and removing tiles

    /** `contains`: walks the board with its iterator looking for the tile
      * (by identity). */
    method Contains(tile: Tile) returns (found: bool)
      requires Square()
      ensures found == HoldsId(tiles, tile.id)
    {
      var iter := new BoardIterator(this);
      while iter.HasNext()
        invariant iter.board == this && iter.maxBoardIndex == maxIndex
        invariant -1 <= iter.xPos <= maxIndex && 0 <= iter.yPos <= maxIndex
        invariant forall x, y | 0 <= x <= maxIndex && 0 <= y <= maxIndex && iter.Visited(x, y) ::
                    !(tiles[x][y].Some? && tiles[x][y].value.id == tile.id)
        decreases maxIndex - iter.yPos, maxIndex - iter.xPos
      {
        var next := iter.Next();
        var t := next.value;
        if t.Some? && t.value.id == tile.id {
          return true;
        }
      }
      return false;
    }

    /** `addTile`: a new face-down tile on an empty square of the board. */
    method AddTile(tile: Option<Tile>, x: int, y: int) returns (r: Outcome<Error>)
      requires Valid()
      modifies this
      ensures Valid() && isClone == old(isClone)
      ensures var a := Boards.AddTile(old(Pos()), tile, x, y);
              (a.Success? ==> r == Ok && Pos() == a.value) &&
              (a.Failure? ==> r == Fail(a.error) && Pos() == old(Pos()))
    {
      if !(0 <= x <= maxIndex && 0 <= y <= maxIndex) || tiles[x][y].Some? {
        return Fail(IllegalArgument);
      }
      if tile.None? || tile.value.faceUp {
        return Fail(IllegalArgument);
      }
      var present := Contains(tile.value);
      if present {
        return Fail(IllegalArgument);
      }
      BoardEffects.AddTileEffect(Pos(), tile, x, y);
      tiles := SetCell(tiles, x, y, tile);
      allTilesFaceUp := false;
      freshId := Max(freshId, tile.value.id + 1);
      return Ok;
    }

    /** `removeTile`: empties a square and returns what was on it; nothing
      * happens off the board. The all-face-up flag is not refreshed. */
    method RemoveTile(x: int, y: int) returns (removed: Option<Tile>)
      requires Valid()
      modifies this
      ensures Valid()
      ensures removed == old(GetTile(x, y))
      ensures Pos() == if old(Pos()).OnBoard(x, y) then old(Pos()).(cells := SetCell(old(tiles), x, y, None))
                       else old(Pos())
      ensures isClone == old(isClone)
    {
      if !(0 <= x <= maxIndex && 0 <= y <= maxIndex) {
        return None;
      }
      removed := tiles[x][y];
      BoardEffects.SameIdsKeepInvariant(tiles, SetCell(tiles, x, y, None), freshId);
      tiles := SetCell(tiles, x, y, None);
    }

    // -------------------------------------------------------------------------
    // The end of a turn

    /** `checkAllTilesFaceUp`: column by column, stopping at the first
      * face-down tile. */
    method CheckAllTilesFaceUp()
      requires Valid()
      modifies this
      ensures Pos() == old(Pos()).(allTilesFaceUp := AllFaceUp(tiles))
      ensures Valid() && isClone == old(isClone)
    {
      var x := 0;
      while x <= maxIndex
        invariant 0 <= x <= maxIndex + 1
        invariant forall i, j | 0 <= i < x && 0 <= j <= maxIndex :: tiles[i][j].Some? ==> tiles[i][j].value.faceUp
      {
        var y := 0;
        while y <= maxIndex
          invariant 0 <= y <= maxIndex + 1
          invariant forall j | 0 <= j < y :: tiles[x][j].Some? ==> tiles[x][j].value.faceUp
        {
          var tile := GetTile(x, y);
          if tile.Some? && !tile.value.faceUp {
            allTilesFaceUp := false;
            return;
          }
          y := y + 1;
        }
        x := x + 1;
      }
      allTilesFaceUp := true;
    }

    /** `endTurn`: refreshes the all-face-up flag and notifies the observers
      * of the turn; a pass as the turn is refused. */
    method EndTurn(turn: Option<Turn>) returns (r: Outcome<Error>, note: Notification)
      requires Valid()
      modifies this
      ensures turn.Some? && turn.value.Pass? ==> r == Fail(IllegalArgument) && Pos() == old(Pos()) && note == Silent
      ensures !(turn.Some? && turn.value.Pass?) ==>
                r == Ok && Pos() == old(Pos()).(allTilesFaceUp := AllFaceUp(tiles)) && note == Announce(isClone, turn)
      ensures Valid() && isClone == old(isClone)
    {
      if turn.Some? && turn.value.Pass? {
        return Fail(IllegalArgument), Silent;
      }
      CheckAllTilesFaceUp();
      return Ok, Announce(isClone, turn);
    }

    // -------------------------------------------------------------------------
    // Flipping and passing

    /** `flipTile`. */
    method FlipTile(team: Team, x: int, y: int) returns (r: Outcome<Error>, note: Notification)
      requires Valid()
      modifies this
      ensures Valid() && isClone == old(isClone)
      ensures var f := Boards.FlipTile(old(Pos()), team, x, y);
              (f.Success? ==> r == Ok && Pos() == f.value.after && note == Announce(isClone, Some(f.value.event))) &&
              (f.Failure? ==> r == Fail(f.error) && Pos() == old(Pos()) && note == Silent)
    {
      if team == Neutral || !(0 <= x <= maxIndex && 0 <= y <= maxIndex) || tiles[x][y].None? {
        return Fail(IllegalArgument), Silent;
      }
      var tile := SetFaceUp(tiles[x][y].value);
      BoardEffects.SameIdsKeepInvariant(tiles, SetCell(tiles, x, y, Some(tile)), freshId);
      tiles := SetCell(tiles, x, y, Some(tile));
      if TeamOf(tile.kind) == Neutral {
        justFlippedNeutralTile := Some(tile.id);
      } else {
        justFlippedNeutralTile := None;
      }
      if team == Humans {
        justMovedHuman := None;
      } else {
        justMovedPredator := None;
      }
      r, note := EndTurn(Some(Flip(team, x, y, tile)));
    }

    /** `pass`: the just-flipped tile is forgotten before a neutral team is
      * refused. */
    method Pass(team: Team) returns (r: Outcome<Error>, note: Notification)
      requires Valid()
      modifies this
      ensures Valid() && isClone == old(isClone)
      ensures var s := PassTurn(old(Pos()), team);
              (s.Success? ==> r == Ok && Pos() == s.value && note == Announce(isClone, None)) &&
              (s.Failure? ==> r == Fail(s.error) && Pos() == old(Pos()).(justFlippedNeutralTile := None) && note == Silent)
    {
      justFlippedNeutralTile := None;
      match team {
        case Humans => justMovedHuman := None;
        case Predators => justMovedPredator := None;
        case Neutral => return Fail(IllegalArgument), Silent;
      }
      r, note := EndTurn(None);
    }

    // -------------------------------------------------------------------------
    // Moving

    /** `validateNoInterveningTiles`: scans the squares strictly between the
      * two ends of a straight move. */
    method CheckNoInterveningTiles(fromX: int, fromY: int, toX: int, toY: int) returns (r: Outcome<Error>)
      requires Square()
      ensures r == ValidateNoInterveningTiles(Pos(), fromX, fromY, toX, toY)
    {
      if fromX == toX {
        var y := Min(fromY, toY) + 1;
        while y < Max(fromY, toY)
          invariant Min(fromY, toY) < y && (y <= Max(fromY, toY) || y == Min(fromY, toY) + 1)
          invariant forall j :: Min(fromY, toY) < j < y ==> Pos().TileAt(fromX, j).None?
          decreases Max(fromY, toY) - y
        {
          if Pos().TileAt(fromX, y).Some? {
            return Fail(IllegalMove(Blocked));
          }
          y := y + 1;
        }
        return Ok;
      } else if fromY == toY {
        var x := Min(fromX, toX) + 1;
        while x < Max(fromX, toX)
          invariant Min(fromX, toX) < x <= Max(fromX, toX)
          invariant forall i :: Min(fromX, toX) < i < x ==> Pos().TileAt(i, fromY).None?
          decreases Max(fromX, toX) - x
        {
          if Pos().TileAt(x, fromY).Some? {
            return Fail(IllegalMove(Blocked));
          }
          x := x + 1;
        }
        return Ok;
      } else {
        return Fail(IllegalArgument);
      }
    }

    /** `validateMove`: the checks in their order, the first failure reported. */
    method ValidateMove(team: Team, fromX: int, fromY: int, toX: int, toY: int) returns (r: Outcome<Error>)
      requires Square()
      ensures r == Boards.ValidateMove(Pos(), team, fromX, fromY, toX, toY)
    {
      var p := Pos();
      if !p.OnBoard(fromX, fromY) {
        return Fail(IllegalMove(OriginOffBoard));
      }
      r := ValidateDestination(p, toX, toY);
      if r.Fail? {
        return;
      }
      if team == Neutral {
        return Fail(IllegalArgument);
      }
      var moving := GetTile(fromX, fromY);
      if moving.None? {
        return Fail(IllegalMove(NoTileToMove));
      }
      var tile := moving.value;
      if !tile.faceUp {
        return Fail(IllegalMove(MovingFaceDownTile));
      }
      if fromX == toX && fromY == toY {
        return Fail(IllegalMove(NoDistance));
      }
      if fromX != toX && fromY != toY {
        return Fail(IllegalMove(Diagonal));
      }
      if Distance(fromX, fromY, toX, toY) > RangeOf(tile.kind) {
        return Fail(IllegalMove(OutOfRange));
      }
      r := CheckNoInterveningTiles(fromX, fromY, toX, toY);
      if r.Fail? {
        return;
      }
      r := ValidatePrey(p, fromX, fromY, toX, toY);
      if r.Fail? {
        return;
      }
      var owner := TeamOf(tile.kind);
      if owner != Neutral && owner != team {
        return Fail(IllegalMove(OtherTeamsTile));
      }
      if justFlippedNeutralTile == Some(tile.id) {
        return Fail(IllegalMove(JustFlippedNeutralTile));
      }
      if owner == team {
        var previous := if team == Predators then justMovedPredator else justMovedHuman;
        if Reverses(Move(team, fromX, fromY, toX, toY, 0), previous) {
          return Fail(IllegalMove(ReversesOwnMove));
        }
      }
      if !p.OnBoard(toX, toY) && owner == Neutral {
        return Fail(IllegalMove(RescuesNeutralTile));
      }
      return Ok;
    }

    /** `setPreviouslyMovedOwnTile`. */
    method SetPreviouslyMovedOwnTile(team: Team, moving: Tile, fromX: int, fromY: int, toX: int, toY: int)
      returns (r: Outcome<Error>)
      requires Valid()
      modifies this
      ensures Valid()
      ensures team == Neutral ==> r == Fail(IllegalArgument) && Pos() == old(Pos())
      ensures team == Humans ==> r == Ok && Pos() == old(Pos()).(justMovedHuman := OwnMoveRecord(team, moving, fromX, fromY, toX, toY))
      ensures team == Predators ==> r == Ok && Pos() == old(Pos()).(justMovedPredator := OwnMoveRecord(team, moving, fromX, fromY, toX, toY))
      ensures isClone == old(isClone)
    {
      match team {
        case Humans =>
          if TeamOf(moving.kind) == Humans {
            justMovedHuman := Some(Move(team, fromX, fromY, toX, toY, 0));
          } else {
            justMovedHuman := None;
          }
        case Predators =>
          if TeamOf(moving.kind) == Predators {
            justMovedPredator := Some(Move(team, fromX, fromY, toX, toY, 0));
          } else {
            justMovedPredator := None;
          }
        case Neutral =>
          return Fail(IllegalArgument);
      }
      return Ok;
    }

    /** `moveTile`: a capture or a rescue credits the moving player. A capture
      * of a tile worth nothing is refused only after the tiles have moved. */
    method MoveTile(player: Player, fromX: int, fromY: int, toX: int, toY: int) returns (r: Outcome<Error>, note: Notification)
      requires Valid() && player.team.Some?
      modifies this, player
      ensures Valid() && isClone == old(isClone)
      ensures player.name == old(player.name) && player.team == old(player.team)
      ensures var m := Boards.MoveTile(old(Pos()), player.team.value, fromX, fromY, toX, toY);
              m.Success? ==> r == Ok && Pos() == m.value.after && player.score == old(player.score) + m.value.credit &&
                             note == Announce(isClone, Some(m.value.event))
      ensures var m := Boards.MoveTile(old(Pos()), player.team.value, fromX, fromY, toX, toY);
              var v := Boards.ValidateMove(old(Pos()), player.team.value, fromX, fromY, toX, toY);
              m.Failure? ==> r == Fail(m.error) && player.score == old(player.score) && note == Silent &&
                             Pos() == if v == Ok then MovedPosition(old(Pos()), player.team.value, fromX, fromY, toX, toY)
                                      else old(Pos())
    {
      var team := player.team.value;
      var v := ValidateMove(team, fromX, fromY, toX, toY);
      if v.Fail? {
        return v, Silent;
      }
      r, note := CompleteMove(player, team, fromX, fromY, toX, toY);
    }

    /** `moveTile` once the move has passed validation (see `CarryOutMove`). */
    method CompleteMove(player: Player, team: Team, fromX: int, fromY: int, toX: int, toY: int)
      returns (r: Outcome<Error>, note: Notification)
      requires Valid() && player.team == Some(team)
      requires Pos().OnBoard(fromX, fromY) && tiles[fromX][fromY].Some? && (fromX != toX || fromY != toY)
      requires !Pos().OnBoard(toX, toY) ==> TeamOf(tiles[fromX][fromY].value.kind) != Neutral
      modifies this, player
      ensures Valid() && isClone == old(isClone)
      ensures player.name == old(player.name) && player.team == old(player.team)
      ensures var m := CarryOutMove(old(Pos()), team, fromX, fromY, toX, toY);
              m.Success? ==> r == Ok && Pos() == m.value.after && player.score == old(player.score) + m.value.credit &&
                             note == Announce(isClone, Some(m.value.event))
      ensures var m := CarryOutMove(old(Pos()), team, fromX, fromY, toX, toY);
              m.Failure? ==> r == Fail(m.error) && player.score == old(player.score) && note == Silent &&
                             Pos() == MovedPosition(old(Pos()), team, fromX, fromY, toX, toY)
    {
      ghost var p := Pos();
      var captured, moving := Relocate(fromX, fromY, toX, toY);
      var score := 0;
      var isRescue := false;
      if !(0 <= toX <= maxIndex && 0 <= toY <= maxIndex) {
        score := ValueOf(moving.kind);
        CatalogueFacts(moving.kind);
        var added := player.AddToScore(score);
        isRescue := true;
      }
      justFlippedNeutralTile := None;
      var _ := SetPreviouslyMovedOwnTile(team, moving, fromX, fromY, toX, toY);
      ghost var q := MovedPosition(p, team, fromX, fromY, toX, toY);
      assert Pos() == q;
      if captured.Some? {
        score := ValueOf(captured.value.kind);
        var added := player.AddToScore(score);
        if added.Fail? {
          assert CarryOutMove(p, team, fromX, fromY, toX, toY) == Failure(IllegalArgument);
          return added, Silent;
        }
      }
      var turn := if isRescue then Rescue(team, fromX, fromY, toX, toY, score)
                  else Move(team, fromX, fromY, toX, toY, score);
      assert CarryOutMove(p, team, fromX, fromY, toX, toY) ==
             Success(TurnEffect(q.(allTilesFaceUp := AllFaceUp(q.cells)), score, turn));
      r, note := EndTurn(Some(turn));
      assert Pos() == q.(allTilesFaceUp := AllFaceUp(q.cells));
    }

    /** The tile movements of `moveTile`: the occupant of the destination is
      * taken off, the mover lifted from its square and put down on the
      * destination unless that is off the board. */
    method Relocate(fromX: int, fromY: int, toX: int, toY: int) returns (captured: Option<Tile>, moving: Tile)
      requires Valid() && Pos().OnBoard(fromX, fromY) && tiles[fromX][fromY].Some?
      requires fromX != toX || fromY != toY
      modifies this
      ensures Valid() && isClone == old(isClone)
      ensures captured == old(GetTile(toX, toY)) && moving == old(tiles[fromX][fromY].value)
      ensures Pos() == old(Pos()).(cells := MovedCells(old(Pos()), fromX, fromY, toX, toY))
    {
      ghost var p := Pos();
      captured := RemoveTile(toX, toY);
      moving := GetTile(fromX, fromY).value;
      var _ := RemoveTile(fromX, fromY);
      if 0 <= toX <= maxIndex && 0 <= toY <= maxIndex {
        tiles := SetCell(tiles, toX, toY, Some(moving));
      }
      GridsEqual(tiles, MovedCells(p, fromX, fromY, toX, toY));
      BoardEffects.MovedCellsKeepInvariant(p, fromX, fromY, toX, toY);
    }

    /** `haveTurn`: a flip is made for the player's team; a missing turn or a
      * pass is refused. */
    method HaveTurn(player: Player, turn: Option<Turn>) returns (r: Outcome<Error>, note: Notification)
      requires Valid() && player.team.Some?
      modifies this, player
      ensures Valid() && isClone == old(isClone)
      ensures player.name == old(player.name) && player.team == old(player.team)
      ensures var h := Boards.HaveTurn(old(Pos()), player.team.value, turn);
              h.Success? ==> r == Ok && Pos() == h.value.after && player.score == old(player.score) + h.value.credit &&
                             note == Announce(isClone, Some(h.value.event))
      ensures var h := Boards.HaveTurn(old(Pos()), player.team.value, turn);
              h.Failure? ==> r == Fail(h.error) && player.score == old(player.score) && note == Silent &&
                             Pos() == if turn.Some? && turn.value.IsMovement() &&
                                         Boards.ValidateMove(old(Pos()), player.team.value, turn.value.fromX, turn.value.fromY,
                                                             turn.value.toX, turn.value.toY) == Ok
                                      then MovedPosition(old(Pos()), player.team.value, turn.value.fromX, turn.value.fromY,
                                                         turn.value.toX, turn.value.toY)
                                      else old(Pos())
    {
      if turn.None? || turn.value.Pass? {
        return Fail(IllegalArgument), Silent;
      }
      var t := turn.value;
      if t.Flip? {
        r, note := FlipTile(player.team.value, t.x, t.y);
      } else {
        r, note := MoveTile(player, t.fromX, t.fromY, t.toX, t.toY);
      }
    }

    // -------------------------------------------------------------------------
    // Enumerating turns

    /** `getPossibleMoves(team, fromX, fromY, xAxis)`: tries every destination
      * on the origin's row (or column) from one square before the board to
      * one square past it, keeping those that pass validation. */
    method AxisMovesOf(team: Team, fromX: int, fromY: int, xAxis: bool) returns (moves: seq<Turn>)
      requires Square() && Pos().OnBoard(fromX, fromY) && tiles[fromX][fromY].Some?
      ensures moves == AxisMoves(Pos(), team, fromX, fromY, xAxis)
    {
      moves := [];
      var c := -1;
      while c <= maxIndex + 1
        invariant -1 <= c <= maxIndex + 2
        invariant moves == AxisMovesBelow(Pos(), team, fromX, fromY, xAxis, c)
      {
        ghost var step := AxisStep(Pos(), team, fromX, fromY, xAxis, c);
        assert AxisMovesBelow(Pos(), team, fromX, fromY, xAxis, c + 1) == moves + step;
        var toX, toY := AxisTargetX(fromX, xAxis, c), AxisTargetY(fromY, xAxis, c);
        var v := ValidateMove(team, fromX, fromY, toX, toY);
        if v == Ok {
          var score := ScoreOf(Pos(), tiles[fromX][fromY].value, toX, toY);
          if 0 <= toX <= maxIndex && 0 <= toY <= maxIndex {
            moves := moves + [Move(team, fromX, fromY, toX, toY, score)];
          } else {
            moves := moves + [Rescue(team, fromX, fromY, toX, toY, score)];
          }
        }
        c := c + 1;
      }
    }

    /** `getPossibleMoves(team, fromX, fromY)`: the row's moves then the
      * column's, for a face-up tile with some range; an origin off the board
      * is refused. */
    method GetPossibleMoves(team: Team, fromX: int, fromY: int) returns (r: Result<seq<Turn>, Error>)
      requires Square() && team != Neutral
      ensures r == if Pos().OnBoard(fromX, fromY) then Success(PossibleMoves(Pos(), team, fromX, fromY))
                   else Failure(IllegalArgument)
    {
      if !(0 <= fromX <= maxIndex && 0 <= fromY <= maxIndex) {
        return Failure(IllegalArgument);
      }
      var tile := GetTile(fromX, fromY);
      var moves: seq<Turn> := [];
      if tile.Some? && tile.value.faceUp && RangeOf(tile.value.kind) > 0 {
        var alongX := AxisMovesOf(team, fromX, fromY, true);
        var alongY := AxisMovesOf(team, fromX, fromY, false);
        moves := alongX + alongY;
      }
      return Success(moves);
    }

    /** `getPossibleTurns`: rows in order of y, squares in order of x; a flip
      * for each face-down tile, the possible moves of each face-up one. */
    method GetPossibleTurns(team: Team) returns (turns: seq<Turn>)
      requires Square() && team != Neutral
      ensures turns == PossibleTurns(Pos(), team)
    {
      ghost var p := Pos();
      turns := [];
      var y := 0;
      while y <= maxIndex
        invariant 0 <= y <= maxIndex + 1
        invariant turns == TurnsBelowRow(p, team, y)
      {
        var row := RowTurnsOf(team, y);
        assert TurnsBelowRow(p, team, y + 1) == turns + row;
        turns := turns + row;
        y := y + 1;
      }
    }

    /** The inner loop of `getPossibleTurns`: one row, in order of x. */
    method RowTurnsOf(team: Team, y: int) returns (turns: seq<Turn>)
      requires Square() && team != Neutral && 0 <= y <= maxIndex
      ensures turns == RowTurnsBelow(Pos(), team, y, |tiles|)
    {
      turns := [];
      var x := 0;
      while x <= maxIndex
        invariant 0 <= x <= maxIndex + 1
        invariant turns == RowTurnsBelow(Pos(), team, y, x)
      {
        var cell := CellTurnsOf(team, x, y);
        turns := turns + cell;
        x := x + 1;
      }
    }

    /** The turns `getPossibleTurns` collects on one square. */
    method CellTurnsOf(team: Team, x: int, y: int) returns (turns: seq<Turn>)
      requires Square() && team != Neutral && Pos().OnBoard(x, y)
      ensures turns == CellTurns(Pos(), team, x, y)
    {
      turns := [];
      var tile := GetTile(x, y);
      if tile.Some? {
        if !tile.value.faceUp {
          turns := [Flip(team, x, y, tile.value)];
        } else {
          var moves := GetPossibleMoves(team, x, y);
          turns := moves.value;
        }
      }
    }

    /** `isMovementPossible(team, from)`: there is a tile, not the one just
      * flipped, that the team may move, and it has somewhere to go. */
    method IsMovementPossibleAt(team: Team, x: int, y: int) returns (possible: bool)
      requires Square() && team != Neutral
      ensures possible == MovementPossibleAt(Pos(), team, x, y)
    {
      var tile := GetTile(x, y);
      if tile.None? || justFlippedNeutralTile == Some(tile.value.id) {
        return false;
      }
      var owner := TeamOf(tile.value.kind);
      if team != owner && owner != Neutral {
        return false;
      }
      var moves := GetPossibleMoves(team, x, y);
      return moves.value != [];
    }

    /** `isMovementPossible(team)`: rows in order of y, stopping at the first
      * square with a possible move. */
    method IsMovementPossible(team: Team) returns (possible: bool)
      requires Square() && team != Neutral
      ensures possible == MovementPossible(Pos(), team)
    {
      var y := 0;
      while y <= maxIndex
        invariant 0 <= y <= maxIndex + 1
        invariant forall i, j | 0 <= i <= maxIndex && 0 <= j < y :: !MovementPossibleAt(Pos(), team, i, j)
      {
        var x := 0;
        while x <= maxIndex
          invariant 0 <= x <= maxIndex + 1
          invariant forall i | 0 <= i < x :: !MovementPossibleAt(Pos(), team, i, y)
        {
          possible := IsMovementPossibleAt(team, x, y);
          if possible {
            return;
          }
          x := x + 1;
        }
        y := y + 1;
      }
      return false;
    }

    /** `isTurnPossible`: a neutral team is refused; while any tile is
      * face-down a turn is possible; after that, only a move. */
    method IsTurnPossible(team: Team) returns (r: Result<bool, Error>)
      requires Square()
      ensures team == Neutral ==> r == Failure(IllegalArgument)
      ensures team != Neutral ==> r == Success(TurnPossible(Pos(), team))
    {
      if team == Neutral {
        return Failure(IllegalArgument);
      }
      if allTilesFaceUp {
        var possible := IsMovementPossible(team);
        return Success(possible);
      }
      return Success(true);
    }

    /** `areBothTeamsRepresented`: walks the board with its iterator until it
      * has seen a Human and a Predator. */
    method AreBothTeamsRepresented() returns (both: bool)
      requires Square()
      ensures both == BothTeamsRepresented(tiles)
    {
      var humans, predators := false, false;
      var iter := new BoardIterator(this);
      while iter.HasNext()
        invariant iter.board == this && iter.maxBoardIndex == maxIndex
        invariant -1 <= iter.xPos <= maxIndex && 0 <= iter.yPos <= maxIndex
        invariant humans <==> exists x, y | 0 <= x <= maxIndex && 0 <= y <= maxIndex && iter.Visited(x, y) ::
                                tiles[x][y].Some? && TeamOf(tiles[x][y].value.kind) == Humans
        invariant predators <==> exists x, y | 0 <= x <= maxIndex && 0 <= y <= maxIndex && iter.Visited(x, y) ::
                                   tiles[x][y].Some? && TeamOf(tiles[x][y].value.kind) == Predators
        invariant !(humans && predators)
        decreases maxIndex - iter.yPos, maxIndex - iter.xPos
      {
        var next := iter.Next();
        var tile := next.value;
        if tile.Some? {
          var team := TeamOf(tile.value.kind);
          if team == Humans {
            humans := true;
          } else if team == Predators {
            predators := true;
          }
          if humans && predators {
            return true;
          }
        }
      }
      return false;
    }

    // -------------------------------------------------------------------------
    // Cloning and setting up

    /** `clone`: a new board, flagged as a clone, with a new copy of every
      * tile on the same square and the same history. */
    method Clone() returns (c: BoardImpl)
      requires Valid()
      ensures fresh(c) && c.Valid() && c.isClone
      ensures c.Pos() == Cloned(Pos()) && c.maxIndex == maxIndex && c.centre == centre
    {
      c := new BoardImpl.CopyOf(this);
      var y := 0;
      while y <= maxIndex
        invariant 0 <= y <= maxIndex + 1 && c.maxIndex == maxIndex && c.centre == centre
        invariant |c.tiles| == |tiles| && IsSquare(c.tiles)
        invariant forall i, j | 0 <= i < |tiles| && 0 <= j < |tiles| ::
                    c.tiles[i][j] == if j < y then ShiftTile(tiles[i][j], freshId) else None
        invariant c.Pos() == Cloned(Pos()).(cells := c.tiles)
      {
        CopyRow(c, y);
        y := y + 1;
      }
      c.isClone := true;
      GridsEqual(c.tiles, ShiftIds(tiles, freshId));
      BoardEffects.CloneEffect(Pos());
    }

    /** One row of `clone`'s copy loop, in order of x. */
    method CopyRow(c: BoardImpl, y: int)
      requires Valid() && c != this && 0 <= y <= maxIndex
      requires |c.tiles| == |tiles| && IsSquare(c.tiles)
      requires forall i, j | 0 <= i < |tiles| && 0 <= j < |tiles| ::
                 c.tiles[i][j] == if j < y then ShiftTile(tiles[i][j], freshId) else None
      modifies c
      ensures |c.tiles| == |tiles| && IsSquare(c.tiles)
      ensures forall i, j | 0 <= i < |tiles| && 0 <= j < |tiles| ::
                c.tiles[i][j] == if j <= y then ShiftTile(tiles[i][j], freshId) else None
      ensures c.Pos() == old(c.Pos()).(cells := c.tiles) && c.isClone == old(c.isClone)
    {
      var x := 0;
      while x <= maxIndex
        invariant 0 <= x <= maxIndex + 1
        invariant |c.tiles| == |tiles| && IsSquare(c.tiles)
        invariant forall i, j | 0 <= i < |tiles| && 0 <= j < |tiles| ::
                    c.tiles[i][j] == if j < y || (j == y && i < x) then ShiftTile(tiles[i][j], freshId) else None
        invariant c.Pos() == old(c.Pos()).(cells := c.tiles) && c.isClone == old(c.isClone)
      {
        var original := tiles[x][y];
        if original.Some? {
          c.tiles := SetCell(c.tiles, x, y, Some(original.value.(id := original.value.id + freshId)));
        }
        x := x + 1;
      }
    }

    /** `setUpTiles`: deals the shuffled tiles row by row (x fastest), leaving
      * the centre square empty, and forgets the history of the last round. */
    method SetUpTiles(order: seq<int>, directions: seq<Direction>)
      requires Valid() && IsPermutation(order, TILE_COUNT) && |directions| == HUNTERS
      modifies this
      ensures Valid() && isClone == old(isClone)
      ensures Pos() == Boards.SetUpTiles(old(Pos()), order, directions)
    {
      var firstId := freshId;
      var shuffled := ShuffledTileList(firstId, order, directions);
      ghost var g0 := tiles;
      var k := 0;
      var y := 0;
      while y <= maxIndex
        invariant 0 <= y <= maxIndex + 1 && |tiles| == |g0| && IsSquare(tiles)
        invariant k == Min(DealIndex(|g0|, 0, y), TILE_COUNT)
        invariant forall i, j | 0 <= i < |g0| && 0 <= j < |g0| ::
                    tiles[i][j] == if j < y then DealtCell(g0, shuffled, i, j) else g0[i][j]
        invariant Pos() == old(Pos()).(cells := tiles) && isClone == old(isClone)
      {
        k := DealRow(shuffled, g0, y, k);
        y := y + 1;
      }
      GridsEqual(tiles, DealtGrid(g0, shuffled));
      allTilesFaceUp := false;
      justFlippedNeutralTile := None;
      justMovedHuman := None;
      justMovedPredator := None;
      freshId := firstId + TILE_COUNT;
      BoardEffects.SetUpKeepsWellFormed(old(Pos()), order, directions);
    }

    /** One row of `setUpTiles`' deal: `k` tiles have been dealt before it. */
    method DealRow(shuffled: seq<Tile>, ghost g0: Grid, y: int, k0: int) returns (k: int)
      requires ValidSize(|g0|) && IsSquare(g0) && maxIndex == |g0| - 1 && centre == maxIndex / 2
      requires |tiles| == |g0| && IsSquare(tiles) && 0 <= y < |g0| && |shuffled| == TILE_COUNT
      requires k0 == Min(DealIndex(|g0|, 0, y), TILE_COUNT)
      requires forall i, j | 0 <= i < |g0| && 0 <= j < |g0| ::
                 tiles[i][j] == if j < y then DealtCell(g0, shuffled, i, j) else g0[i][j]
      modifies this
      ensures |tiles| == |g0| && IsSquare(tiles)
      ensures k == Min(DealIndex(|g0|, 0, y + 1), TILE_COUNT)
      ensures forall i, j | 0 <= i < |g0| && 0 <= j < |g0| ::
                tiles[i][j] == if j <= y then DealtCell(g0, shuffled, i, j) else g0[i][j]
      ensures Pos() == old(Pos()).(cells := tiles) && isClone == old(isClone)
    {
      var n := |g0|;
      k := k0;
      var x := 0;
      while x <= maxIndex
        invariant 0 <= x <= n && |tiles| == n && IsSquare(tiles)
        invariant k == Min(DealIndex(n, x, y), TILE_COUNT)
        invariant forall i, j | 0 <= i < n && 0 <= j < n ::
                    tiles[i][j] == if j < y || (j == y && i < x) then DealtCell(g0, shuffled, i, j) else g0[i][j]
        invariant Pos() == old(Pos()).(cells := tiles) && isClone == old(isClone)
      {
        DealIndexStep(n, x, y);
        if x == centre && y == centre {
          tiles := SetCell(tiles, x, y, None);
        } else if k < |shuffled| {
          BoardEffects.DealIndexNonNegative(n, x, y);
          tiles := SetCell(tiles, x, y, Some(shuffled[k]));
          k := k + 1;
        }
        x := x + 1;
      }
      DealIndexNextRow(n, y);
    }
  }

  /** The board's iterator: visits the squares row by row (x fastest),
    * yielding the tile on each, or none. */
  class BoardIterator {
    const board: BoardImpl
    const maxBoardIndex: int
    var xPos: int
    var yPos: int

    constructor(board: BoardImpl)
      ensures this.board == board && maxBoardIndex == board.maxIndex && xPos == -1 && yPos == 0
    {
      this.board := board;
      maxBoardIndex := board.maxIndex;
      xPos := -1;
      yPos := 0;
    }

    /** The square (x, y) has already been returned by `Next`. */
    predicate Visited(x: int, y: int)
      reads this
    {
      y < yPos || (y == yPos && x <= xPos)
    }

    /** `hasNext`. */
    predicate HasNext()
      reads this
    {
      xPos < maxBoardIndex || yPos < maxBoardIndex
    }

    /** `next`: advances along the row, then to the start of the next one; past
      * the last square it fails, having already advanced. */
    method Next() returns (r: Result<Option<Tile>, Error>)
      requires board.Square() && maxBoardIndex == board.maxIndex
      modifies this
      ensures old(xPos) < maxBoardIndex ==> xPos == old(xPos) + 1 && yPos == old(yPos)
      ensures old(xPos) >= maxBoardIndex ==> xPos == 0 && yPos == old(yPos) + 1
      ensures r == if old(xPos) >= maxBoardIndex && yPos > maxBoardIndex then Failure(IllegalState)
                   else Success(board.GetTile(xPos, yPos))
      ensures forall x, y | 0 <= x <= maxBoardIndex :: Visited(x, y) <==> old(Visited(x, y)) || (x == xPos && y == yPos)
    {
      xPos := xPos + 1;
      if xPos > maxBoardIndex {
        xPos := 0;
        yPos := yPos + 1;
        if yPos > maxBoardIndex {
          return Failure(IllegalState);
        }
      }
      return Success(board.GetTile(xPos, yPos));
    }

    /** `remove`: empties the square last returned. */
    method Remove()
      requires board.Valid()
      modifies board
      ensures board.Valid()
      ensures board.Pos() == if old(board.Pos()).OnBoard(xPos, yPos)
                             then old(board.Pos()).(cells := SetCell(old(board.tiles), xPos, yPos, None))
                             else old(board.Pos())
    {
      var _ := board.RemoveTile(xPos, yPos);
    }
  }
}
