/** The scans the simple computer players share (`AIHelper`): the first tile
  * to flip, a move of the first tile that can move, and the best-scoring
  * turns. A scan visits rows in order of y and, within a row, squares in
  * order of x. */
module AIHelper {
  import opened Common
  import opened Tiles
  import opened Turns
  import opened Boards
  import opened BoardImpls
  import BoardFacts

  /** Square (x, y) is visited before square (i, j). */
  predicate ScansBefore(x: int, y: int, i: int, j: int) {
    y < j || (y == j && x < i)
  }

  predicate FaceDownAt(p: Position, x: int, y: int)
    requires p.Shaped()
  {
    p.OnBoard(x, y) && p.cells[x][y].Some? && !p.cells[x][y].value.faceUp
  }

  ghost predicate NoFaceDownTile(p: Position)
    requires p.Shaped()
  {
    forall x, y :: !FaceDownAt(p, x, y)
  }

  /** `f` flips the first face-down tile of the scan (for no team in
    * particular). */
  ghost predicate IsFirstFlip(p: Position, f: Turn)
    requires p.Shaped()
  {
    f.Flip? && f.team == Neutral && FaceDownAt(p, f.x, f.y) && f.tile == p.cells[f.x][f.y].value &&
    forall i, j | ScansBefore(i, j, f.x, f.y) :: !FaceDownAt(p, i, j)
  }

  /** The first flip of a scan is a single turn. */
  lemma FirstFlipUnique(p: Position, f: Turn, g: Turn)
    requires p.Shaped() && IsFirstFlip(p, f) && IsFirstFlip(p, g)
    ensures f == g
  {
  }

  ghost predicate NoMoves(p: Position, team: Team)
    requires p.Shaped() && team != Neutral
  {
    forall x, y | p.OnBoard(x, y) :: PossibleMoves(p, team, x, y) == []
  }

  /** `m` is one of the moves of the first square of the scan that has any. */
  ghost predicate IsFirstMove(p: Position, team: Team, m: Turn)
    requires p.Shaped() && team != Neutral
  {
    m.IsMovement() && p.OnBoard(m.fromX, m.fromY) && m in PossibleMoves(p, team, m.fromX, m.fromY) &&
    forall i, j | p.OnBoard(i, j) && ScansBefore(i, j, m.fromX, m.fromY) :: PossibleMoves(p, team, i, j) == []
  }

  /** A move of the first movable tile is one of the turns the board offers. */
  lemma FirstMoveIsPossibleTurn(p: Position, team: Team, m: Turn)
    requires p.Shaped() && team != Neutral && IsFirstMove(p, team, m)
    ensures m in PossibleTurns(p, team)
  {
    var x, y := m.fromX, m.fromY;
    assert m in CellTurns(p, team, x, y);
    BoardFacts.PossibleTurnsExact(p, team, m);
  }

  /** `getFirstFlip`. */
  method GetFirstFlip(board: BoardImpl) returns (flip: Option<Turn>)
    requires board.Square()
    ensures flip.None? <==> NoFaceDownTile(board.Pos())
    ensures flip.Some? ==> IsFirstFlip(board.Pos(), flip.value)
  {
    var p := board.Pos();
    var y := 0;
    while y <= board.maxIndex
      invariant 0 <= y <= board.maxIndex + 1
      invariant forall i, j | j < y :: !FaceDownAt(p, i, j)
    {
      var x := 0;
      while x <= board.maxIndex
        invariant 0 <= x <= board.maxIndex + 1
        invariant forall i, j | ScansBefore(i, j, x, y) :: !FaceDownAt(p, i, j)
      {
        var tile := board.GetTile(x, y);
        if tile.Some? && !tile.value.faceUp {
          assert FaceDownAt(p, x, y);
          return Some(Flip(Neutral, x, y, tile.value));
        }
        x := x + 1;
      }
      y := y + 1;
    }
    return None;
  }

  /** `getRandomMoveOfFirstMovableTile`: any one of the moves of the first
    * square whose tile can move; none when no tile can. */
  method GetRandomMoveOfFirstMovableTile(board: BoardImpl, team: Team) returns (r: Result<Option<Turn>, Error>)
    requires board.Square()
    ensures team == Neutral ==> r == Failure(IllegalArgument)
    ensures team != Neutral ==>
              r.Success? && (r.value.None? <==> NoMoves(board.Pos(), team)) &&
              (r.value.Some? ==> IsFirstMove(board.Pos(), team, r.value.value))
  {
    if team == Neutral {
      return Failure(IllegalArgument);
    }
    var p := board.Pos();
    var fromY := 0;
    while fromY <= board.maxIndex
      invariant 0 <= fromY <= board.maxIndex + 1
      invariant forall i, j | p.OnBoard(i, j) && j < fromY :: PossibleMoves(p, team, i, j) == []
    {
      var fromX := 0;
      while fromX <= board.maxIndex
        invariant 0 <= fromX <= board.maxIndex + 1
        invariant forall i, j | p.OnBoard(i, j) && ScansBefore(i, j, fromX, fromY) :: PossibleMoves(p, team, i, j) == []
      {
        var moves := board.GetPossibleMoves(team, fromX, fromY);
        if moves.Success? && moves.value != [] {
          assert moves.value[0] in moves.value;
          var m :| m in moves.value;
          BoardFacts.PossibleMovesSound(p, team, fromX, fromY, m);
          return Success(Some(m));
        }
        fromX := fromX + 1;
      }
      fromY := fromY + 1;
    }
    return Success(None);
  }

  // ---------------------------------------------------------------------------
  // The best-scoring turns

  /** The highest score among some turns. */
  function MaxScore(ts: seq<Turn>): (m: int)
    requires ts != []
    ensures forall t | t in ts :: t.Score() <= m
    ensures exists t | t in ts :: t.Score() == m
    decreases |ts|
  {
    if |ts| == 1 then ts[0].Score()
    else
      assert ts == ts[..|ts| - 1] + [ts[|ts| - 1]];
      Max(MaxScore(ts[..|ts| - 1]), ts[|ts| - 1].Score())
  }

  /** The turns with score `m`, in their order. */
  function WithScore(ts: seq<Turn>, m: int): (r: seq<Turn>)
    ensures forall t | t in r :: t in ts && t.Score() == m
    ensures forall t | t in ts && t.Score() == m :: t in r
    decreases |ts|
  {
    if ts == [] then []
    else
      assert ts == ts[..|ts| - 1] + [ts[|ts| - 1]];
      WithScore(ts[..|ts| - 1], m) + if ts[|ts| - 1].Score() == m then [ts[|ts| - 1]] else []
  }

  /** The turns whose score is the highest, in their order: empty exactly
    * when there are no turns, and no turn outscores one of them. */
  function HighestScoring(ts: seq<Turn>): (r: seq<Turn>)
    ensures r == [] <==> ts == []
    ensures forall t | t in r :: t in ts && forall u | u in ts :: u.Score() <= t.Score()
    ensures ts != [] ==> forall u | u in ts && u.Score() == MaxScore(ts) :: u in r
    ensures ts != [] ==> forall t | t in r :: t.Score() == MaxScore(ts)
  {
    if ts == [] then [] else WithScore(ts, MaxScore(ts))
  }

  /** One more turn either starts a new list, joins the list or is ignored:
    * the three cases of `getHighestScoringTurns`' loop. */
  lemma HighestScoringAppend(ts: seq<Turn>, t: Turn)
    ensures HighestScoring(ts + [t]) ==
            if ts == [] || t.Score() > MaxScore(ts) then [t]
            else if t.Score() == MaxScore(ts) then HighestScoring(ts) + [t]
            else HighestScoring(ts)
  {
    var u := ts + [t];
    assert u[..|u| - 1] == ts;
    if ts != [] {
      var m := MaxScore(u);
      assert m == Max(MaxScore(ts), t.Score());
      assert WithScore(u, m) == WithScore(ts, m) + if t.Score() == m then [t] else [];
      if t.Score() > MaxScore(ts) {
        NoneWithScore(ts, m);
        assert HighestScoring(u) == [t];
      } else if t.Score() == MaxScore(ts) {
        assert HighestScoring(u) == HighestScoring(ts) + [t];
      } else {
        assert HighestScoring(u) == HighestScoring(ts);
      }
    } else {
      assert WithScore(u, t.Score()) == WithScore([], t.Score()) + [t];
    }
  }

  lemma NoneWithScore(ts: seq<Turn>, m: int)
    requires forall t | t in ts :: t.Score() < m
    ensures WithScore(ts, m) == []
  {
  }

  /** `getHighestScoringTurns`. */
  method GetHighestScoringTurns(board: BoardImpl, team: Team) returns (best: seq<Turn>)
    requires board.Square() && team != Neutral
    ensures best == HighestScoring(PossibleTurns(board.Pos(), team))
  {
    var turns := board.GetPossibleTurns(team);
    best := HighestScoringOf(turns);
  }

  /** The loop of `getHighestScoringTurns`, which keeps the list of the best
    * turns so far and compares each turn with the first of them. */
  method HighestScoringOf(turns: seq<Turn>) returns (best: seq<Turn>)
    ensures best == HighestScoring(turns)
  {
    best := [];
    var i := 0;
    while i < |turns|
      invariant 0 <= i <= |turns|
      invariant best == HighestScoring(turns[..i])
    {
      var turn := turns[i];
      assert turns[..i + 1] == turns[..i] + [turn];
      HighestScoringAppend(turns[..i], turn);
      if best == [] {
        best := [turn];
      } else {
        var firstListedTurn := best[0];
        if turn.Score() == firstListedTurn.Score() {
          best := best + [turn];
        } else if turn.Score() > firstListedTurn.Score() {
          best := [turn];
        }
      }
      i := i + 1;
    }
    assert turns[..i] == turns;
  }
}

/** The computer player that takes one of the best-scoring turns available
  * now, without looking ahead (`ShortSightedAI`). */
module ShortSightedAI {
  import opened Common
  import opened Tiles
  import opened Turns
  import opened Boards
  import opened Players
  import opened BoardImpls
  import opened AIHelper

  /** `getTurn`: no turn when the team has none; otherwise any one of the
    * highest-scoring turns, so no turn the board offers scores more. The
    * board is only read. */
  method GetTurn(player: Player, board: BoardImpl) returns (turn: Option<Turn>)
    requires board.Square() && player.team.Some? && player.team.value != Neutral
    ensures var turns := PossibleTurns(board.Pos(), player.team.value);
            (turn.None? <==> turns == []) &&
            (turn.Some? ==> turn.value in HighestScoring(turns) && turn.value in turns &&
                            forall u | u in turns :: u.Score() <= turn.value.Score())
  {
    var highestScoringTurns := GetHighestScoringTurns(board, player.team.value);
    if highestScoringTurns == [] {
      return None;
    }
    var t :| t in highestScoringTurns;
    return Some(t);
  }
}

/** The computer player that flips the first face-down tile it finds, and
  * otherwise moves the first tile that can move (`TrivialAI`). */
module TrivialAI {
  import opened Common
  import opened Tiles
  import opened Turns
  import opened Boards
  import opened Players
  import opened BoardImpls
  import opened AIHelper

  /** `getTurn`: the first flip while a tile is face down; after that a move
    * of the first movable tile, or none (a pass). A neutral team is refused
    * once there is nothing to flip. The board is only read. */
  method GetTurn(player: Player, board: BoardImpl) returns (r: Result<Option<Turn>, Error>)
    requires board.Square() && player.team.Some?
    ensures !NoFaceDownTile(board.Pos()) ==> r.Success? && r.value.Some? && IsFirstFlip(board.Pos(), r.value.value)
    ensures NoFaceDownTile(board.Pos()) && player.team.value == Neutral ==> r == Failure(IllegalArgument)
    ensures NoFaceDownTile(board.Pos()) && player.team.value != Neutral ==>
              r.Success? && (r.value.None? <==> NoMoves(board.Pos(), player.team.value)) &&
              (r.value.Some? ==> IsFirstMove(board.Pos(), player.team.value, r.value.value))
  {
    var firstFlip := GetFirstFlip(board);
    if firstFlip.Some? {
      return Success(firstFlip);
    }
    r := GetRandomMoveOfFirstMovableTile(board, player.team.value);
  }
}
