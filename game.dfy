/** A game of two rounds (`Game`): the two players swap teams between rounds,
  * take turns on one board, and count down the end game once every tile is
  * face up. The observers' notifications are kept as an event log. */
module Games {
  import opened Common
  import opened Tiles
  import opened Boards
  import opened Players
  import opened BoardImpls
  import BoardEffects

  /** The number of turns in the end game: five for each player. */
  const END_GAME_TURNS: int := 5 * 2

  const PLAYERS: int := 2

  /** What the game tells its observers. */
  datatype Event = ActivePlayerChanged | EndGameStarted | GameOver | NewRound

  /** Everything the game's rules read: the board position, the round (1 or 2),
    * the index of the player to move, the turns left and the events so far. */
  datatype GameState = GameState(pos: Position, round: int, active: int, turnsLeft: int, events: seq<Event>)

  /** `setPlayerTeam`: player number `round` plays Predators, the other Humans. */
  function TeamFor(playerNumber: int, round: int): (t: Team)
    ensures t != Neutral
    ensures t == Predators <==> playerNumber == round
  {
    if playerNumber == round then Predators else Humans
  }

  /** The team of the player to move. */
  function ActiveTeam(s: GameState): (t: Team)
    ensures t != Neutral
  {
    TeamFor(s.active + 1, s.round)
  }

  /** `endTurn`'s countdown: once at most END_GAME_TURNS are left each turn
    * uses one; before that the end game begins when every tile is face up. */
  function Countdown(turnsLeft: int, allFaceUp: bool): (r: int)
    ensures turnsLeft <= END_GAME_TURNS ==> r == turnsLeft - 1
    ensures turnsLeft > END_GAME_TURNS ==> r == if allFaceUp then END_GAME_TURNS else turnsLeft
    ensures r <= turnsLeft
  {
    var t := if turnsLeft <= END_GAME_TURNS then turnsLeft - 1 else turnsLeft;
    if t > END_GAME_TURNS && allFaceUp then END_GAME_TURNS else t
  }

  /** The countdown after a sequence of turns, given the face-up flag at each. */
  function CountdownAfter(turnsLeft: int, flags: seq<bool>): int
    decreases |flags|
  {
    if flags == [] then turnsLeft else CountdownAfter(Countdown(turnsLeft, flags[0]), flags[1..])
  }

  /** Once the end game has begun, the round lasts exactly as many more turns as
    * are left, whatever happens on the board. */
  lemma {:induction false} EndGameLength(turnsLeft: int, flags: seq<bool>)
    requires turnsLeft <= END_GAME_TURNS
    ensures CountdownAfter(turnsLeft, flags) == turnsLeft - |flags|
    decreases |flags|
  {
    if flags != [] {
      EndGameLength(Countdown(turnsLeft, flags[0]), flags[1..]);
    }
  }

  /** When `endTurn` announces the end game. */
  predicate EndGameBegins(turnsLeft: int, allFaceUp: bool) {
    turnsLeft > END_GAME_TURNS && allFaceUp
  }

  /** `toggleActivePlayer`'s index arithmetic. */
  function Toggled(i: int): (j: int)
    requires 0 <= i < PLAYERS
    ensures j == 1 - i
  {
    if i + 1 == PLAYERS then 0 else i + 1
  }

  /** The states a game passes through: a square board, round 1 or 2, an active
    * index 0 or 1, and either no countdown yet or at most END_GAME_TURNS left. */
  predicate Playing(s: GameState) {
    s.pos.Shaped() && (s.round == 1 || s.round == 2) && 0 <= s.active < PLAYERS &&
    (s.turnsLeft <= END_GAME_TURNS || s.turnsLeft == INTEGER_MAX_VALUE)
  }

  /** `isRoundOver`: no turns left, or every tile face up and one of the two
    * teams gone from the board. */
  predicate RoundOver(s: GameState) {
    s.turnsLeft == 0 || (s.pos.allTilesFaceUp && !BothTeamsRepresented(s.pos.cells))
  }

  /** `isOver`: the second round is over. */
  predicate Over(s: GameState) {
    s.round == 2 && RoundOver(s)
  }

  function EndTurnOf(s: GameState): (r: GameState)
    ensures Playing(s) ==> Playing(r)
    ensures r.events == s.events || r.events == s.events + [EndGameStarted]
  {
    s.(turnsLeft := Countdown(s.turnsLeft, s.pos.allTilesFaceUp),
       events := s.events + if EndGameBegins(s.turnsLeft, s.pos.allTilesFaceUp) then [EndGameStarted] else [])
  }

  function ToggleOf(s: GameState): (r: GameState)
    requires 0 <= s.active < PLAYERS
    ensures Playing(s) ==> Playing(r)
    ensures r.events == s.events + [ActivePlayerChanged] && !RoundEnded(r)
  {
    s.(active := Toggled(s.active), events := s.events + [ActivePlayerChanged])
  }

  function PrepareRoundOf(s: GameState, round: int, order: seq<int>, directions: seq<Direction>): GameState
    requires IsPermutation(order, TILE_COUNT) && |directions| == HUNTERS
  {
    s.(round := round, active := round - 1, pos := SetUpTiles(s.pos, order, directions),
       turnsLeft := INTEGER_MAX_VALUE)
  }

  /** `endRound`: round 2 ends the game, round 1 gives way to round 2. */
  function EndRoundOf(s: GameState, order: seq<int>, directions: seq<Direction>): (r: GameState)
    requires Playing(s) && IsPermutation(order, TILE_COUNT) && |directions| == HUNTERS
    ensures Playing(r) && RoundEnded(r) && r.round == 2
    ensures r.events == s.events + [if s.round == 2 then GameOver else NewRound]
    ensures s.round == 1 ==> r.active == 1 && r.turnsLeft == INTEGER_MAX_VALUE
  {
    if s.round == 2 then s.(events := s.events + [GameOver])
    else PrepareRoundOf(s, 2, order, directions).(events := s.events + [NewRound])
  }

  /** The board passes for the player to move. */
  function PassOf(s: GameState): (r: GameState)
    ensures Playing(s) ==> Playing(r)
    ensures r.events == s.events
  {
    s.(pos := PassTurn(s.pos, ActiveTeam(s)).value)
  }

  /** The last thing that happened was the end of a round. */
  predicate RoundEnded(s: GameState) {
    |s.events| > 0 && (s.events[|s.events| - 1] == GameOver || s.events[|s.events| - 1] == NewRound)
  }

  /** `handleBoardChange`: what a flip or a move leads to. Only events are
    * added, and the round never goes back. */
  function HandledChange(s: GameState, order: seq<int>, directions: seq<Direction>): (r: GameState)
    requires Playing(s) && IsPermutation(order, TILE_COUNT) && |directions| == HUNTERS
    ensures Playing(r) && s.round <= r.round && |s.events| < |r.events| && r.events[..|s.events|] == s.events
  {
    var s1 := EndTurnOf(s);
    if RoundOver(s1) then EndRoundOf(s1, order, directions)
    else
      var s2 := ToggleOf(s1);
      if TurnPossible(s2.pos, ActiveTeam(s2)) then s2 else PassBack(s2, order, directions)
  }

  /** The second half of `handleBoardChange`: the player to move has no turn,
    * so they pass and the move goes back to the other player. */
  function PassBack(s: GameState, order: seq<int>, directions: seq<Direction>): (r: GameState)
    requires Playing(s) && IsPermutation(order, TILE_COUNT) && |directions| == HUNTERS
    ensures Playing(r) && s.round <= r.round && |s.events| < |r.events| && r.events[..|s.events|] == s.events
  {
    var s3 := EndTurnOf(PassOf(s));
    if RoundOver(s3) then EndRoundOf(s3, order, directions)
    else
      var s4 := ToggleOf(s3);
      if TurnPossible(s4.pos, ActiveTeam(s4)) then s4 else EndRoundOf(s4, order, directions)
  }

  /** What `handleBoardChange` leaves behind: unless the round ended, the
    * player to move has a turn to take; the move goes to the opponent exactly
    * when the opponent can take a turn, and otherwise the opponent passes and
    * the pass counts as a turn. The end of round 1 starts round 2 with player
    * 2 to move; the end of round 2 ends the game. */
  lemma HandledChangeOutcome(s: GameState, order: seq<int>, directions: seq<Direction>)
    requires Playing(s) && IsPermutation(order, TILE_COUNT) && |directions| == HUNTERS
    ensures var r := HandledChange(s, order, directions);
            var opponent := TeamFor(2 - s.active, s.round);
            (!RoundEnded(r) ==> r.round == s.round && TurnPossible(r.pos, ActiveTeam(r))) &&
            (!RoundEnded(r) ==> (r.active != s.active <==> TurnPossible(s.pos, opponent))) &&
            (!RoundEnded(r) && r.active != s.active ==>
               r.pos == s.pos && r.turnsLeft == Countdown(s.turnsLeft, s.pos.allTilesFaceUp)) &&
            (!RoundEnded(r) && r.active == s.active ==>
               r.pos == PassTurn(s.pos, opponent).value &&
               r.turnsLeft == Countdown(Countdown(s.turnsLeft, s.pos.allTilesFaceUp), r.pos.allTilesFaceUp)) &&
            (RoundEnded(r) && s.round == 1 ==>
               r.round == 2 && r.active == 1 && r.turnsLeft == INTEGER_MAX_VALUE && r.events[|r.events| - 1] == NewRound) &&
            (RoundEnded(r) && s.round == 2 ==> r.round == 2 && r.events[|r.events| - 1] == GameOver)
  {
    var s1 := EndTurnOf(s);
    if !RoundOver(s1) {
      var s2 := ToggleOf(s1);
      if !TurnPossible(s2.pos, ActiveTeam(s2)) {
        PassBackOutcome(s2, order, directions);
      }
    }
  }

  lemma PassBackOutcome(s: GameState, order: seq<int>, directions: seq<Direction>)
    requires Playing(s) && IsPermutation(order, TILE_COUNT) && |directions| == HUNTERS
    ensures var r := PassBack(s, order, directions);
            (!RoundEnded(r) ==>
               r.round == s.round && r.active != s.active && TurnPossible(r.pos, ActiveTeam(r)) &&
               r.pos == PassTurn(s.pos, ActiveTeam(s)).value &&
               r.turnsLeft == Countdown(s.turnsLeft, r.pos.allTilesFaceUp)) &&
            (RoundEnded(r) && s.round == 1 ==>
               r.round == 2 && r.active == 1 && r.turnsLeft == INTEGER_MAX_VALUE && r.events[|r.events| - 1] == NewRound) &&
            (RoundEnded(r) && s.round == 2 ==> r.round == 2 && r.events[|r.events| - 1] == GameOver)
  {
  }

  /** A change the game reacts to: a flip or a move (a rescue is a move). */
  predicate IsBoardChange(note: Notification) {
    note.Notified? && note.change.Some? && !note.change.value.Pass?
  }

  class Game {
    const board: BoardImpl
    const players: array<Player>
    var activePlayerIndex: int
    var roundNumber: int
    var turnsLeft: int
    /** The notifications sent to the observers, oldest first. */
    var events: seq<Event>

    function State(): GameState
      reads this, board
    {
      GameState(board.Pos(), roundNumber, activePlayerIndex, turnsLeft, events)
    }

    /** Two different players and a live (not cloned) board. */
    ghost predicate Seated()
      reads this, board, players
    {
      players.Length == PLAYERS && players[0] != players[1] && board.Valid() && !board.isClone
    }

    /** Besides, each player is on the team the round gives them. */
    ghost predicate Valid()
      reads this, board, players, players[..]
    {
      Seated() && Playing(State()) &&
      players[0].team == Some(TeamFor(1, roundNumber)) && players[1].team == Some(TeamFor(2, roundNumber))
    }

    /** A new game on a board of the default size, ready for round 1; the
      * shuffle and the Hunters' directions for its tiles are given. */
    constructor(playerOne: Player, playerTwo: Player, order: seq<int>, directions: seq<Direction>)
      requires playerOne != playerTwo && IsPermutation(order, TILE_COUNT) && |directions| == HUNTERS
      modifies playerOne, playerTwo
      ensures Valid() && fresh(board) && players[0] == playerOne && players[1] == playerTwo
      ensures State() == GameState(SetUpTiles(Position(EmptyGrid(DEFAULT_SIZE), true, None, None, None, 0), order, directions),
                                   1, 0, INTEGER_MAX_VALUE, [])
      ensures !Over(State()) && playerOne.team == Some(Predators) && playerTwo.team == Some(Humans)
      ensures playerOne.score == old(playerOne.score) && playerTwo.score == old(playerTwo.score)
    {
      board := new BoardImpl(DEFAULT_SIZE);
      players := new Player[PLAYERS][playerOne, playerTwo];
      events := [];
      new;
      var _ := PrepareRound(1, order, directions);
    }

    /** `prepareRound`: only rounds 1 and 2 exist. */
    method PrepareRound(round: int, order: seq<int>, directions: seq<Direction>) returns (r: Outcome<Error>)
      requires Seated() && IsPermutation(order, TILE_COUNT) && |directions| == HUNTERS
      modifies this, board, players[..]
      ensures Seated() && events == old(events)
      ensures r == Ok <==> round == 1 || round == 2
      ensures r.Fail? ==> r.error == IllegalArgument && State() == old(State()) &&
                          players[0].team == old(players[0].team) && players[1].team == old(players[1].team)
      ensures r == Ok ==> Valid() && State() == PrepareRoundOf(old(State()), round, order, directions)
      ensures forall i | 0 <= i < PLAYERS :: players[i].score == old(players[i].score) && players[i].name == old(players[i].name)
    {
      if round != 1 && round != 2 {
        return Fail(IllegalArgument);
      }
      roundNumber := round;
      var playerIndex := 0;
      while playerIndex < players.Length
        invariant 0 <= playerIndex <= PLAYERS && Seated() && roundNumber == round
        invariant board.Pos() == old(board.Pos()) && activePlayerIndex == old(activePlayerIndex) && events == old(events)
        invariant forall i | 0 <= i < playerIndex :: players[i].team == Some(TeamFor(i + 1, round))
        invariant forall i | 0 <= i < PLAYERS :: players[i].score == old(players[i].score) && players[i].name == old(players[i].name)
      {
        SetPlayerTeam(playerIndex + 1, players[playerIndex]);
        playerIndex := playerIndex + 1;
      }
      activePlayerIndex := round - 1;
      board.SetUpTiles(order, directions);
      turnsLeft := INTEGER_MAX_VALUE;
      return Ok;
    }

    /** `setPlayerTeam`. */
    method SetPlayerTeam(playerNumber: int, player: Player)
      modifies player
      ensures player.team == Some(TeamFor(playerNumber, roundNumber))
      ensures player.score == old(player.score) && player.name == old(player.name)
    {
      if playerNumber == roundNumber {
        var _ := player.SetTeam(Some(Predators));
      } else {
        var _ := player.SetTeam(Some(Humans));
      }
    }

    /** `getPlayer`: players are numbered 1 and 2. */
    function GetPlayer(playerNumber: int): (r: Result<Player, Error>)
      requires Valid()
      reads this, board, players, players[..]
      ensures r.Success? <==> 1 <= playerNumber <= PLAYERS
      ensures r.Failure? ==> r.error == IllegalArgument
      ensures r.Success? ==> r.value.team == Some(TeamFor(playerNumber, roundNumber))
    {
      if 1 <= playerNumber <= PLAYERS then Success(players[playerNumber - 1]) else Failure(IllegalArgument)
    }

    /** `setPlayer`: the player takes the seat and the team the current round
      * gives that seat, whatever team they had. */
    method SetPlayer(playerNumber: int, player: Player?) returns (r: Outcome<Error>)
      requires Valid()
      requires player != null && 1 <= playerNumber <= PLAYERS ==> player != players[PLAYERS - playerNumber]
      modifies players, player
      ensures Valid() && State() == old(State())
      ensures r == Ok <==> player != null && player.name.Some? && 1 <= playerNumber <= PLAYERS
      ensures r.Fail? ==> r.error == IllegalArgument && players[..] == old(players[..])
      ensures r == Ok ==> players[playerNumber - 1] == player && player.team == Some(TeamFor(playerNumber, roundNumber)) &&
                          players[PLAYERS - playerNumber] == old(players[PLAYERS - playerNumber])
    {
      if player == null || player.name.None? || !(1 <= playerNumber <= PLAYERS) {
        return Fail(IllegalArgument);
      }
      players[playerNumber - 1] := player;
      SetPlayerTeam(playerNumber, player);
      return Ok;
    }

    /** `getActivePlayer`. */
    function GetActivePlayer(): (p: Player)
      requires Valid()
      reads this, board, players, players[..]
      ensures p.team == Some(ActiveTeam(State()))
    {
      players[activePlayerIndex]
    }

    /** `getActivePlayerNumber`: none once no turns are left. */
    function GetActivePlayerNumber(): (n: int)
      requires Valid()
      reads this, board, players, players[..]
      ensures n == 0 <==> turnsLeft == 0
      ensures n != 0 ==> 1 <= n <= PLAYERS && players[n - 1] == GetActivePlayer()
    {
      if turnsLeft == 0 then 0 else activePlayerIndex + 1
    }

    /** `isRoundOver`. */
    method IsRoundOver() returns (over: bool)
      requires Valid()
      ensures over == RoundOver(State())
    {
      if turnsLeft == 0 {
        return true;
      }
      if board.allTilesFaceUp {
        var both := board.AreBothTeamsRepresented();
        if !both {
          return true;
        }
      }
      return false;
    }

    /** `isOver`. */
    method IsOver() returns (over: bool)
      requires Valid()
      ensures over == Over(State())
    {
      if roundNumber != 2 {
        return false;
      }
      over := IsRoundOver();
    }

    /** `getWinner`: the player with strictly more points once the game is
      * over; none before that or on a tie. */
    method GetWinner() returns (winner: Player?)
      requires Valid()
      ensures winner != null <==> Over(State()) && players[0].score != players[1].score
      ensures winner != null ==>
                (winner == players[0] && players[0].score > players[1].score) ||
                (winner == players[1] && players[1].score > players[0].score)
    {
      var over := IsOver();
      if !over {
        return null;
      }
      if players[0].score > players[1].score {
        return players[0];
      } else if players[1].score > players[0].score {
        return players[1];
      }
      return null;
    }

    /** `getLoser`: the other player when there is a winner. */
    method GetLoser() returns (loser: Player?)
      requires Valid()
      ensures loser != null <==> Over(State()) && players[0].score != players[1].score
      ensures loser != null ==>
                (loser == players[0] && players[0].score < players[1].score) ||
                (loser == players[1] && players[1].score < players[0].score)
    {
      var winner := GetWinner();
      if winner == null {
        return null;
      } else if winner == players[0] {
        return players[1];
      } else {
        return players[0];
      }
    }

    /** `endTurn`. */
    method EndTurn()
      requires Valid()
      modifies this
      ensures Valid() && State() == EndTurnOf(old(State()))
    {
      if turnsLeft <= END_GAME_TURNS {
        turnsLeft := turnsLeft - 1;
      }
      if turnsLeft > END_GAME_TURNS && board.allTilesFaceUp {
        turnsLeft := END_GAME_TURNS;
        events := events + [EndGameStarted];
      }
    }

    /** `endRound`. */
    method EndRound(order: seq<int>, directions: seq<Direction>)
      requires Valid() && IsPermutation(order, TILE_COUNT) && |directions| == HUNTERS
      modifies this, board, players[..]
      ensures Valid() && State() == EndRoundOf(old(State()), order, directions)
    {
      if roundNumber == 2 {
        events := events + [GameOver];
      } else {
        var _ := PrepareRound(2, order, directions);
        events := events + [NewRound];
      }
    }

    /** `toggleActivePlayer`. */
    method ToggleActivePlayer()
      requires Valid()
      modifies this
      ensures Valid() && State() == ToggleOf(old(State()))
    {
      activePlayerIndex := activePlayerIndex + 1;
      if activePlayerIndex == PLAYERS {
        activePlayerIndex := 0;
      }
      events := events + [ActivePlayerChanged];
    }

    /** `update`: a flip or a move on the board is handled; anything else, a
      * pass included, is ignored. */
    method Update(note: Notification, order: seq<int>, directions: seq<Direction>)
      requires Valid() && IsPermutation(order, TILE_COUNT) && |directions| == HUNTERS
      modifies this, board, players[..]
      ensures Valid()
      ensures State() == if IsBoardChange(note) then HandledChange(old(State()), order, directions) else old(State())
    {
      if IsBoardChange(note) {
        HandleBoardChange(order, directions);
      }
    }

    /** `handleBoardChange`. */
    method HandleBoardChange(order: seq<int>, directions: seq<Direction>)
      requires Valid() && IsPermutation(order, TILE_COUNT) && |directions| == HUNTERS
      modifies this, board, players[..]
      ensures Valid() && State() == HandledChange(old(State()), order, directions)
    {
      EndTurn();
      var over := IsRoundOver();
      if over {
        EndRound(order, directions);
        return;
      }
      ToggleActivePlayer();
      var possible := board.IsTurnPossible(GetActivePlayer().team.value);
      if possible == Success(false) {
        PassBackMove(order, directions);
      }
    }

    /** The second half of `handleBoardChange`. */
    method PassBackMove(order: seq<int>, directions: seq<Direction>)
      requires Valid() && IsPermutation(order, TILE_COUNT) && |directions| == HUNTERS
      modifies this, board, players[..]
      ensures Valid() && State() == PassBack(old(State()), order, directions)
    {
      PassActivePlayer();
      EndTurn();
      var over := IsRoundOver();
      if over {
        EndRound(order, directions);
      } else {
        ToggleActivePlayer();
        var possible := board.IsTurnPossible(GetActivePlayer().team.value);
        if possible == Success(false) {
          EndRound(order, directions);
        }
      }
    }

    /** The board's `pass` for the player to move. */
    method PassActivePlayer()
      requires Valid()
      modifies board
      ensures Valid() && State() == PassOf(old(State()))
    {
      var _, _ := board.Pass(GetActivePlayer().team.value);
    }
  }
}
