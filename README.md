# Tally Ho: the game model

Tally Ho is a two-player board game. Every tile starts face-down on a square board of odd side, with the centre square left empty. The teams are the Humans (Hunters and Lumberjacks) and the Predators (Bears and Foxes), and there are neutral tiles (Pheasants, Ducks and Trees).

On a turn a player does one of three things:
- flips a face-down tile;
- moves a face-up tile of their own team, or a neutral one, in a straight line, capturing the tile it lands on when that is its prey;
- once every tile is face up, rescues a tile off the board along the centre row or column.

Captures and rescues score the tile's value. Once every tile is face up, ten more turns are played. A game has two rounds, with the teams swapped between them.

This project models the Java package `tallyho.model`:
- the tiles and the turns;
- the board and its rules engine (`BoardImpl`);
- the player;
- the game's state machine (`Game`);
- the computer players `TrivialAI` and `ShortSightedAI`, their shared scans (`AIHelper`), the look-ahead AI (`OldLookAheadAI`) with its `Path`, and the min-max tree (`MinMaxTreeImpl`).

## Layout

The modules are:
- `Common`: the shared Option, Result and error types.
- `Tiles`: the tile catalogue.
- `Turns`: the Flip, Move, Rescue and Pass turns.
- `Boards`: the board as a value (`Position`), the rule functions that specify the board's methods, and the turn effects.
- `BoardFacts` and `BoardEffects`: lemmas about the rules and about what each turn does.
- `BoardImpls`: the imperative board, and the notifications its observers receive. It is a class whose methods are proved against `Boards`.
- `Players`: the player.
- `Games`: the pure state machine of a game, and the `Game` class proved against it.
- `Paths`: the look-ahead path and its score.
- `AIHelper`, `ShortSightedAI` and `TrivialAI`: the simple computer players.
- `LookAhead`: the look-ahead search, specified as a function and carried out by `OldLookAheadAI`.
- `MinMax`: the min-max values of a turn tree, and `MinMaxTreeImpl`.

A board is a square grid of optional tiles. A tile is a value carrying an identity, a kind and a face. The board also holds:
- the just-flipped neutral tile's identity;
- each team's last move of one of its own tiles;
- an all-tiles-face-up flag;
- a clone flag.

Observers are modelled by the notification each operation returns, and by the event log of a `Game`. Java exceptions are `Failure` results. `IllegalArgument` and `IllegalState` stand for the runtime exceptions, `IllegalMove` for `IllegalMoveException`.

Where the documentation and the code disagree, the model follows the code:
- The comment on `getPossibleMoves(team, tile, x, y)` (`BoardImpl.java:541-543`) says the moves are the legal ones from the board position alone, ignoring who owns the tile and whether it is the just-flipped neutral tile. The code calls `validateMove` on each destination (`BoardImpl.java:645`, `665`), and `validateMove` enforces both the ownership check (`BoardImpl.java:873`) and the just-flipped neutral tile check (`BoardImpl.java:876`), so the model keeps only moves that pass every check.
- `getRandomMoveOfFirstMovableTile` is documented as returning the first possible move. The code shuffles the first movable tile's moves, so any one of them may be returned, and the model says so.

The model also keeps behaviour of the code that looks unintended:
- `validateRange` (`BoardImpl.java:1055-1073`) measures a move's length in int arithmetic. A destination 2^31 squares away wraps, and `Math.abs` of the least int is negative. So a Bear, whose range is 1, may leave the board through a far exit: `Boards.FarRescueAccepted` states this case, and `Boards.FarDestinationsWrap` gives the wrapped distances.
- The look-ahead AI plays its own turns on the board's clones as itself (`OldLookAheadAI.java:290` with `getPlayer` at lines 340-343). Each capture or rescue it tries is credited to the real AI's score (`BoardImpl.java:714-717` and 729-731). `LookAhead.SearchCreditsTheAI` proves that a completed search credits the AI at least the points of any first turn it tries.
- A player's name is limited to 20 UTF-16 code units, as `String.length()` counts them, not 20 characters (`Players.Utf16Length`).

## Model

| member | source | states |
|---|---|---|
| Tiles.LastIndexOf | src/main/java/tallyho/model/tile/AbstractTile.java:40-44 | the index is -1 or holds the character, and no later index holds it |
| Tiles.SimpleName | src/main/java/tallyho/model/tile/AbstractTile.java:40-44 | the name is a dot-free suffix of the class name, preceded by a dot whenever it is shorter |
| Tiles.SimpleNames | src/main/java/tallyho/model/tile/AbstractTile.java:40-44 | a tile's name is its class name without the `tallyho.model.tile.` package |
| Tiles.SimpleNameOfQualified | src/main/java/tallyho/model/tile/AbstractTile.java:40-44 | stripping the package of a qualified class name gives back the class name |
| Tiles.NewTile | src/main/java/tallyho/model/tile/AbstractTile.java:17-19 | a new tile is face-down and keeps its identity and kind |
| Tiles.SetFaceUp | src/main/java/tallyho/model/tile/AbstractTile.java:31-33 | the tile is face-up afterwards, with the same identity and kind |
| Tiles.CatalogueFacts | src/main/java/tallyho/model/tile/NeutralTile.java:32-34 | the neutral tiles are the birds and trees, Humans and Predators are their species, every team tile is worth at least 5, and birds fly any distance |
| Tiles.CaptureMatchesPrey | src/main/java/tallyho/model/tile/Hunter.java:32-49 | `canCapture` accepts exactly the instances of the species `getPrey` lists |
| Tiles.CaptureCrossesTeams | src/main/java/tallyho/model/tile/NeutralTile.java:24-27 | neutral tiles capture nothing, and no tile captures its own team |
| Turns.DoubleToInt | src/main/java/tallyho/model/turn/Flip.java:26-31 | Java's cast of a double to int: within int's bounds, and truncation toward zero inside them |
| Turns.NewFlip | src/main/java/tallyho/model/turn/Flip.java:26-31 | a flip has the given team and tile, scores 0 and has the truncated coordinates |
| Turns.FlipKeepsIntegralCoordinates | src/main/java/tallyho/model/turn/Flip.java:26-31 | whole-number coordinates pass through the Flip constructor unchanged |
| Turns.ReversesSymmetric | src/main/java/tallyho/model/turn/Move.java:43-50 | reversal is symmetric, and a move reverses itself only when it goes nowhere |
| Turns.Int32 | src/main/java/tallyho/model/turn/Move.java:131-137 | the value lies in int's range, is congruent to the unbounded result modulo 2^32, and is that result when it fits |
| Turns.MoveHashInjective | src/main/java/tallyho/model/turn/Move.java:131-137 | on boards up to the largest size, two moves hash alike exactly when `equals` holds |
| Turns.RescueHashInjective | src/main/java/tallyho/model/turn/Rescue.java:44-51 | two rescues from squares of the largest board hash alike exactly when `equals` holds, that is when their origins agree |
| Turns.MoveRescueEqualityAsymmetric | src/main/java/tallyho/model/turn/Rescue.java:31-42 | as written, a Move equals a Rescue that does not equal it back, and the two hash differently |
| Turns.MovementEqualsFixedConsistent | src/main/java/tallyho/model/turn/Rescue.java:31-42 | the corrected equality is reflexive and symmetric, and equal turns hash alike |
| Boards.EmptyGrid | src/main/java/tallyho/model/BoardImpl.java:134-152 | an empty square grid of the given side |
| Boards.ValidateDestination | src/main/java/tallyho/model/BoardImpl.java:239-260 | succeeds exactly when the destination is on the board, or is off it on a centre line once every tile is face up |
| Boards.ValidateNoInterveningTiles | src/main/java/tallyho/model/BoardImpl.java:1086-1121 | a straight move succeeds exactly when every square strictly between its ends is empty; a crooked one is an illegal argument |
| Boards.ValidatePrey | src/main/java/tallyho/model/BoardImpl.java:998-1042 | succeeds exactly when the destination is empty or off the board, or the mover may capture its tile (a Hunter only in the direction it faces) |
| Boards.ValidateMove | src/main/java/tallyho/model/BoardImpl.java:836-883 | succeeds exactly when every rule of a legal move holds, with the range measured in wrapping int arithmetic; a neutral team is an illegal argument, and every other failure is an illegal move |
| Boards.JavaAbs | src/main/java/tallyho/model/BoardImpl.java:1058-1060 | `Math.abs` on an int: the absolute value, except that the least int stays itself |
| Boards.DistanceWithinInt | src/main/java/tallyho/model/BoardImpl.java:1055-1062 | while the ends are less than 2^31 apart, the wrapped distance is the true length of the move |
| Boards.FarDestinationsWrap | src/main/java/tallyho/model/BoardImpl.java:1055-1062 | a destination 2^31 squares away measures the least int, and one a square nearer measures the greatest int, although both are farther |
| Boards.FarRescueAccepted | src/main/java/tallyho/model/BoardImpl.java:836-883 | on a 7×7 board with every tile face-up, a Bear at the edge of the centre row passes validation to a square 2^31 off the board, beyond its range of 1 |
| Boards.Position.TileAt | src/main/java/tallyho/model/BoardImpl.java:404-414 | no tile off the board or on an empty square; otherwise the tile on the square |
| Boards.ShiftIds | src/main/java/tallyho/model/BoardImpl.java:1196-1218 | the copy has the same shape and the same tiles on the same squares, with identities moved up by the offset |
| Boards.Catalogue | src/main/java/tallyho/model/BoardImpl.java:774-792 | a round has 48 tiles |
| Boards.ShuffledTiles | src/main/java/tallyho/model/BoardImpl.java:774-792 | 48 new face-down tiles whose identities run on from the first fresh one |
| Boards.DealtGrid | src/main/java/tallyho/model/BoardImpl.java:744-767 | the dealt grid keeps the board's shape, and each square holds what the deal leaves there |
| BoardFacts.AxisMovesMembership | src/main/java/tallyho/model/BoardImpl.java:633-680 | a move is found along an axis exactly when it comes from a destination tried there that passes validation |
| BoardFacts.LegalMoveNeedsRange | src/main/java/tallyho/model/BoardImpl.java:555-575 | a legal move needs a face-up mover with positive range, so the guard in `getPossibleMoves` excludes nothing |
| BoardFacts.PossibleMovesOnlyOffered | src/main/java/tallyho/model/BoardImpl.java:555-575 | every move returned comes from a tried destination that passes validation |
| BoardFacts.OfferedMovesPossible | src/main/java/tallyho/model/BoardImpl.java:555-575 | every tried destination that passes validation yields a returned move |
| BoardFacts.PossibleMovesExact | src/main/java/tallyho/model/BoardImpl.java:555-575 | both directions: the moves returned are exactly the validated tried destinations, with their score, and a Rescue when they leave the board |
| BoardFacts.PossibleMovesComplete | src/main/java/tallyho/model/BoardImpl.java:633-680 | every legal move to the board or one square beyond its edge is returned |
| BoardFacts.PossibleMovesSound | src/main/java/tallyho/model/BoardImpl.java:587-620 | every move returned is legal for the team, is a Rescue exactly when it leaves the board, and scores the value of the tile captured or rescued |
| BoardFacts.FarExitLegalButNotEnumerated | src/main/java/tallyho/model/BoardImpl.java:239-260 | as written, a move far off the board on a centre line is legal but never returned by `getPossibleMoves` |
| BoardFacts.RowTurnsMembership | src/main/java/tallyho/model/BoardImpl.java:512-528 | a turn is in a row's scan exactly when it is offered on one of the row's squares |
| BoardFacts.TurnsBelowRowMembership | src/main/java/tallyho/model/BoardImpl.java:512-528 | a turn is in the scan of the first rows exactly when it is offered on a square of one of them |
| BoardFacts.PossibleTurnsExact | src/main/java/tallyho/model/BoardImpl.java:512-528 | both directions: the turns offered are exactly a flip of each face-down tile and the possible moves of each face-up tile |
| BoardFacts.FaceDownTileOffersFlip | src/main/java/tallyho/model/BoardImpl.java:512-528 | either team may flip any face-down tile |
| BoardFacts.MovementPossibleAtIff | src/main/java/tallyho/model/BoardImpl.java:1180-1190 | `isMovementPossible(team, from)` holds exactly when some move from that square is returned |
| BoardFacts.TurnPossibleIff | src/main/java/tallyho/model/BoardImpl.java:476-489 | with an up-to-date face-up flag, `isTurnPossible` holds exactly when some turn is offered |
| BoardEffects.MovedCellsKeepInvariant | src/main/java/tallyho/model/BoardImpl.java:704-719 | moving one tile keeps the identities unique and below the fresh-identity bound |
| BoardEffects.FlipEffect | src/main/java/tallyho/model/BoardImpl.java:272-311 | a flip turns exactly one tile face-up with the same identity and kind; a neutral tile becomes the just-flipped one; the flipping team forgets its last move and the other team keeps its record |
| BoardEffects.FlipFaceUpFlag | src/main/java/tallyho/model/BoardImpl.java:345-357 | flipping the last face-down tile sets the all-face-up flag, and flipping never clears it |
| BoardEffects.JustFlippedTileCannotMove | src/main/java/tallyho/model/BoardImpl.java:955-963 | after a neutral tile is flipped, no team can move it on the next turn |
| BoardEffects.PassEffect | src/main/java/tallyho/model/BoardImpl.java:319-336 | a pass leaves the tiles alone, makes the passing team forget its last move, clears the just-flipped tile and refreshes the flag |
| BoardEffects.MoveEffect | src/main/java/tallyho/model/BoardImpl.java:698-739 | a validated move lifts the mover and puts it on the destination, replacing any captured tile, or takes it off the board; no other square changes |
| BoardEffects.MoveCredit | src/main/java/tallyho/model/BoardImpl.java:728-732 | a capture credits the captured tile's value, a plain move credits nothing, and a rescue credits the rescued tile's positive value; the only failure is a capture worth nothing |
| BoardEffects.MoveHistory | src/main/java/tallyho/model/BoardImpl.java:807-831 | the moving team records a move of its own tile and forgets its record after moving a neutral tile; the other team's record is untouched; nothing is just flipped afterwards |
| BoardEffects.NoImmediateReversal | src/main/java/tallyho/model/BoardImpl.java:924-944 | a team cannot move its own tile straight back while its record of that move stands |
| BoardEffects.OpponentTurnKeepsRecord | src/main/java/tallyho/model/BoardImpl.java:807-831 | a turn of one team leaves the other team's move record as it was |
| BoardEffects.MoveKeepsFaceDownTiles | src/main/java/tallyho/model/BoardImpl.java:698-739 | a move turns no tile over, so it neither starts nor ends the end game |
| BoardEffects.AddTileEffect | src/main/java/tallyho/model/BoardImpl.java:157-181 | a new face-down tile goes on an empty square and keeps the board well formed; an occupied or off-board square, a missing or face-up tile and a tile already on the board are refused |
| BoardEffects.CloneEffect | src/main/java/tallyho/model/BoardImpl.java:1196-1218 | the clone has the same tiles on the same squares under new identities and is well formed; the copied just-flipped identity names none of its tiles |
| BoardEffects.ValidateMoveLayoutOnly | src/main/java/tallyho/model/BoardImpl.java:836-883 | validation depends on the layout and history alone, apart from the just-flipped check |
| BoardEffects.CloneIgnoresJustFlipped | src/main/java/tallyho/model/BoardImpl.java:1196-1218 | a clone validates every move as the original would with nothing just flipped |
| BoardEffects.CloneAcceptsOfferedMove | src/main/java/tallyho/model/BoardImpl.java:1196-1218 | a move the original offers is legal on its clone |
| BoardEffects.ValidMoveFailsOnlyOnWorthlessCapture | src/main/java/tallyho/model/BoardImpl.java:698-739 | a validated move is carried out unless it captures a tile worth nothing |
| BoardEffects.CloneAcceptsOfferedTurns | src/main/java/tallyho/model/BoardImpl.java:419-437 | every turn the board offers can be played on a clone without breaking a rule |
| BoardEffects.DealIndexOrder | src/main/java/tallyho/model/BoardImpl.java:744-767 | a square later in the scan is dealt a later tile |
| BoardEffects.DealIndexInjective | src/main/java/tallyho/model/BoardImpl.java:744-767 | distinct squares other than the centre are dealt distinct tiles |
| BoardEffects.DealIndexNonNegative | src/main/java/tallyho/model/BoardImpl.java:744-767 | the first square is dealt the first tile, and no square is dealt a tile before it |
| BoardEffects.DealIndexOnto | src/main/java/tallyho/model/BoardImpl.java:744-767 | each of the first n*n-1 tiles is dealt to some square other than the centre |
| BoardEffects.CatalogueCounts | src/main/java/tallyho/model/BoardImpl.java:774-792 | a round has 2 Bears, 6 Foxes, 2 Lumberjacks, a Hunter facing each given direction, 8 Pheasants, 7 Ducks and 15 Trees |
| BoardEffects.PermutedMultiset | src/main/java/tallyho/model/BoardImpl.java:790 | rearranging by a permutation keeps every element, each as many times |
| BoardEffects.ShuffleKeepsCatalogue | src/main/java/tallyho/model/BoardImpl.java:774-792 | the shuffled tiles are of the catalogue's kinds, each kind as many times |
| BoardEffects.SetUpKeepsWellFormed | src/main/java/tallyho/model/BoardImpl.java:744-767 | setting up keeps the identities unique and below the fresh-identity bound |
| BoardEffects.SetUpDealsEveryTile | src/main/java/tallyho/model/BoardImpl.java:744-767 | on the 7 x 7 board the centre is empty, every other square holds a new face-down tile, each shuffled tile lands on exactly one square, and the history is cleared |
| BoardImpls.AppendKinds | src/main/java/tallyho/model/BoardImpl.java:776-781 | the list grows by exactly `count` tiles of the kind |
| BoardImpls.ShuffledTileList | src/main/java/tallyho/model/BoardImpl.java:774-792 | the list built equals the shuffled tiles of the catalogue |
| BoardImpls.BoardImpl.constructor | src/main/java/tallyho/model/BoardImpl.java:134-152 | an empty, valid board of the given side with no history |
| BoardImpls.BoardImpl.CopyOf | src/main/java/tallyho/model/BoardImpl.java:1196-1218 | a clone-flagged board with the original's history and an empty grid |
| BoardImpls.BoardImpl.Create | src/main/java/tallyho/model/BoardImpl.java:134-152 | a side that is not positive, is even or exceeds MAX_SIZE is refused; any other side gives a fresh empty board |
| BoardImpls.BoardImpl.GetTile | src/main/java/tallyho/model/BoardImpl.java:404-414 | no tile off the board or on an empty square; otherwise the tile on the square |
| BoardImpls.BoardImpl.Contains | src/main/java/tallyho/model/BoardImpl.java:189-204 | true exactly when the board holds a tile with that identity |
| BoardImpls.BoardImpl.AddTile | src/main/java/tallyho/model/BoardImpl.java:157-181 | the board becomes the position the `addTile` rules give, or stays as it was with the error they give |
| BoardImpls.BoardImpl.RemoveTile | src/main/java/tallyho/model/BoardImpl.java:1133-1143 | returns the tile on the square and empties it; off the board nothing changes; the flag is left alone |
| BoardImpls.BoardImpl.CheckAllTilesFaceUp | src/main/java/tallyho/model/BoardImpl.java:363-376 | the flag becomes true exactly when no tile is face-down |
| BoardImpls.BoardImpl.EndTurn | src/main/java/tallyho/model/BoardImpl.java:345-357 | refreshes the flag and announces the turn (silently on a clone); a Pass as the turn is refused |
| BoardImpls.BoardImpl.FlipTile | src/main/java/tallyho/model/BoardImpl.java:272-311 | the board becomes the flip's effect, or reports the flip's error |
| BoardImpls.BoardImpl.Pass | src/main/java/tallyho/model/BoardImpl.java:319-336 | the board becomes the pass's effect; for a neutral team, the just-flipped tile is forgotten and the pass is refused |
| BoardImpls.BoardImpl.CheckNoInterveningTiles | src/main/java/tallyho/model/BoardImpl.java:1086-1121 | agrees with `ValidateNoInterveningTiles` |
| BoardImpls.BoardImpl.ValidateMove | src/main/java/tallyho/model/BoardImpl.java:836-883 | agrees with the rule function `ValidateMove`, so it succeeds exactly on legal moves |
| BoardImpls.BoardImpl.SetPreviouslyMovedOwnTile | src/main/java/tallyho/model/BoardImpl.java:807-831 | the moving team's record becomes this move of its own tile, or is cleared after a neutral tile's move |
| BoardImpls.BoardImpl.MoveTile | src/main/java/tallyho/model/BoardImpl.java:698-739 | the board and the player's score become what `moveTile`'s rules give; a move that fails validation changes nothing, while a validated capture of a tile worth nothing leaves the tiles moved and the history updated and reports an illegal argument |
| BoardImpls.BoardImpl.CompleteMove | src/main/java/tallyho/model/BoardImpl.java:704-739 | a validated move leaves the board and the score that carrying out the move gives |
| BoardImpls.BoardImpl.Relocate | src/main/java/tallyho/model/BoardImpl.java:704-719 | the grid becomes the moved grid, and the captured tile and the mover are returned |
| BoardImpls.BoardImpl.HaveTurn | src/main/java/tallyho/model/BoardImpl.java:419-437 | a flip or move has the effect of `HaveTurn` for the player's team; a missing turn or a pass is refused |
| BoardImpls.BoardImpl.AxisMovesOf | src/main/java/tallyho/model/BoardImpl.java:633-680 | the moves found along the axis are exactly the validated destinations from -1 to maxIndex+1, in order |
| BoardImpls.BoardImpl.GetPossibleMoves | src/main/java/tallyho/model/BoardImpl.java:555-575 | an origin off the board is refused; otherwise the result is the specified possible moves |
| BoardImpls.BoardImpl.GetPossibleTurns | src/main/java/tallyho/model/BoardImpl.java:512-528 | the turns are the specified possible turns, in scan order |
| BoardImpls.BoardImpl.RowTurnsOf | src/main/java/tallyho/model/BoardImpl.java:514-526 | one row's turns in order of x |
| BoardImpls.BoardImpl.CellTurnsOf | src/main/java/tallyho/model/BoardImpl.java:516-525 | a flip of a face-down tile, or the possible moves of a face-up one |
| BoardImpls.BoardImpl.IsMovementPossibleAt | src/main/java/tallyho/model/BoardImpl.java:1180-1190 | agrees with the specified `MovementPossibleAt` |
| BoardImpls.BoardImpl.IsMovementPossible | src/main/java/tallyho/model/BoardImpl.java:497-507 | true exactly when some square has a possible move |
| BoardImpls.BoardImpl.IsTurnPossible | src/main/java/tallyho/model/BoardImpl.java:476-489 | a neutral team is refused; otherwise agrees with `TurnPossible` |
| BoardImpls.BoardImpl.AreBothTeamsRepresented | src/main/java/tallyho/model/BoardImpl.java:449-471 | true exactly when some Human and some Predator tile is on the board |
| BoardImpls.BoardImpl.Clone | src/main/java/tallyho/model/BoardImpl.java:1196-1218 | a fresh board holding the cloned position |
| BoardImpls.BoardImpl.CopyRow | src/main/java/tallyho/model/BoardImpl.java:1196-1218 | one row of the grid becomes the copied row |
| BoardImpls.BoardImpl.SetUpTiles | src/main/java/tallyho/model/BoardImpl.java:744-767 | the board becomes the dealt position with the history cleared |
| BoardImpls.BoardImpl.DealRow | src/main/java/tallyho/model/BoardImpl.java:746-765 | one row is dealt from the shuffled tiles, continuing the count |
| BoardImpls.BoardIterator.constructor | src/main/java/tallyho/model/BoardImpl.java:53-60 | the iterator starts just before the first square of the first row |
| BoardImpls.BoardIterator.Next | src/main/java/tallyho/model/BoardImpl.java:79-88 | returns the tile on the next square in row order and marks it visited; past the end it fails |
| BoardImpls.BoardIterator.Remove | src/main/java/tallyho/model/BoardImpl.java:65-67 | empties the square last returned |
| Players.Player.constructor | src/main/java/tallyho/model/player/AbstractPlayer.java:16-18 | a new player has no name, no team and no points |
| Players.Player.AddToScore | src/main/java/tallyho/model/player/AbstractPlayer.java:23-29 | positive points are added; anything else is refused and the score is kept |
| Players.Utf16Length | src/main/java/tallyho/model/player/AbstractPlayer.java:43 | a name's length in UTF-16 code units: between its number of characters and twice that, and equal to it exactly when no character lies beyond the Basic Multilingual Plane |
| Players.SupplementaryCharactersCountTwice | src/main/java/tallyho/model/player/AbstractPlayer.java:43 | a name made of characters beyond the Basic Multilingual Plane counts two units for each |
| Players.Player.SetName | src/main/java/tallyho/model/player/AbstractPlayer.java:41-46 | a present name of at most the maximum number of UTF-16 code units is set; otherwise refused and unchanged |
| Players.Player.SetTeam | src/main/java/tallyho/model/player/AbstractPlayer.java:66-73 | a neutral team is refused; any other team, or none, is set |
| Games.TeamFor | src/main/java/tallyho/model/Game.java:211-220 | the player whose number is the round plays Predators, the other Humans; never neutral |
| Games.ActiveTeam | src/main/java/tallyho/model/Game.java:225-227 | the player to move is never neutral |
| Games.Countdown | src/main/java/tallyho/model/Game.java:352-361 | in the end game each turn uses one; before it the countdown drops to END_GAME_TURNS once every tile is face up; it never grows |
| Games.EndGameLength | src/main/java/tallyho/model/Game.java:352-361 | once the end game begins, any k more turns leave exactly k fewer turns, whatever the board does |
| Games.Toggled | src/main/java/tallyho/model/Game.java:384-392 | the active index switches between 0 and 1 |
| Games.EndTurnOf | src/main/java/tallyho/model/Game.java:352-361 | keeps a game in play and adds at most the end-game event |
| Games.ToggleOf | src/main/java/tallyho/model/Game.java:384-392 | keeps a game in play and announces the new active player |
| Games.EndRoundOf | src/main/java/tallyho/model/Game.java:366-378 | round 2 ends the game; round 1 gives way to round 2 with player 2 to move and no countdown |
| Games.PassOf | src/main/java/tallyho/model/Game.java:333 | the board passes for the player to move, and the game stays in play |
| Games.HandledChange | src/main/java/tallyho/model/Game.java:319-347 | the game stays in play, only events are added and the round never goes back |
| Games.PassBack | src/main/java/tallyho/model/Game.java:332-345 | the same for the pass-back half |
| Games.HandledChangeOutcome | src/main/java/tallyho/model/Game.java:319-347 | unless the round ended, the player to move has a turn; the move passes to the opponent exactly when the opponent has a turn, and otherwise the opponent's pass counts as a turn; round ends lead to round 2 or the game's end |
| Games.PassBackOutcome | src/main/java/tallyho/model/Game.java:332-345 | after a pass the move goes back to a player who has a turn, or the round ends |
| Games.Game.constructor | src/main/java/tallyho/model/Game.java:68-75 | a valid game on the default board, in round 1 with player 1 to move |
| Games.Game.PrepareRound | src/main/java/tallyho/model/Game.java:89-110 | rounds other than 1 and 2 are refused; otherwise the teams are assigned, the tiles dealt and the countdown reset |
| Games.Game.SetPlayerTeam | src/main/java/tallyho/model/Game.java:211-220 | the player takes the team the round gives the seat |
| Games.Game.GetPlayer | src/main/java/tallyho/model/Game.java:162-169 | players 1 and 2 are returned; other numbers are refused |
| Games.Game.SetPlayer | src/main/java/tallyho/model/Game.java:192-209 | a bad number or missing player is refused; otherwise the seat and the round's team are set |
| Games.Game.GetActivePlayer | src/main/java/tallyho/model/Game.java:225-227 | the player in the active seat |
| Games.Game.GetActivePlayerNumber | src/main/java/tallyho/model/Game.java:234-239 | the active seat's number, or none once no turns are left |
| Games.Game.IsRoundOver | src/main/java/tallyho/model/Game.java:404-415 | agrees with `RoundOver` |
| Games.Game.IsOver | src/main/java/tallyho/model/Game.java:143-145 | agrees with `Over` |
| Games.Game.GetWinner | src/main/java/tallyho/model/Game.java:264-279 | once over, the player with strictly more points; none before that or on a tie |
| Games.Game.GetLoser | src/main/java/tallyho/model/Game.java:286-294 | the other player when there is a winner, none otherwise |
| Games.Game.EndTurn | src/main/java/tallyho/model/Game.java:352-361 | the game's state becomes `EndTurnOf` of the old one |
| Games.Game.EndRound | src/main/java/tallyho/model/Game.java:366-378 | the game's state becomes `EndRoundOf` of the old one |
| Games.Game.ToggleActivePlayer | src/main/java/tallyho/model/Game.java:384-392 | the game's state becomes `ToggleOf` of the old one |
| Games.Game.Update | src/main/java/tallyho/model/Game.java:299-306 | a flip or move is handled as `HandledChange`; any other notification changes nothing |
| Games.Game.HandleBoardChange | src/main/java/tallyho/model/Game.java:319-347 | the game's state becomes `HandledChange` of the old one |
| Games.Game.PassBackMove | src/main/java/tallyho/model/Game.java:332-345 | the game's state becomes `PassBack` of the old one |
| Games.Game.PassActivePlayer | src/main/java/tallyho/model/Game.java:333 | the game's state becomes `PassOf` of the old one |
| Paths.PathScoreAlternates | src/main/java/tallyho/model/player/ai/Path.java:56-71 | a path's score is its first turn's score minus the rest's score from the other side |
| Paths.MissingEntryKeepsParity | src/main/java/tallyho/model/player/ai/Path.java:56-71 | a missing entry adds nothing but keeps its place in the alternation |
| Paths.Path.constructor | src/main/java/tallyho/model/player/ai/Path.java:25-31 | a path of the one given turn |
| Paths.Path.CopyOf | src/main/java/tallyho/model/player/ai/Path.java:85-94 | a path with the same entries |
| Paths.Path.Create | src/main/java/tallyho/model/player/ai/Path.java:25-31 | a missing first turn is refused; otherwise a fresh one-turn path |
| Paths.Path.AddTurn | src/main/java/tallyho/model/player/ai/Path.java:38-40 | the entry goes at the end, and the first turn is kept |
| Paths.Path.GetFirstTurn | src/main/java/tallyho/model/player/ai/Path.java:47-49 | the path's first entry |
| Paths.Path.GetLength | src/main/java/tallyho/model/player/ai/Path.java:78-80 | the number of entries, never zero |
| Paths.Path.GetScore | src/main/java/tallyho/model/player/ai/Path.java:56-71 | the alternating-sign score `PathScore` |
| Paths.Path.Clone | src/main/java/tallyho/model/player/ai/Path.java:85-94 | a fresh path with the same entries |
| AIHelper.FirstFlipUnique | src/main/java/tallyho/model/player/ai/AIHelper.java:30-45 | the first flip of the scan is unique |
| AIHelper.FirstMoveIsPossibleTurn | src/main/java/tallyho/model/player/ai/AIHelper.java:54-77 | the move chosen is one of the turns the board offers |
| AIHelper.GetFirstFlip | src/main/java/tallyho/model/player/ai/AIHelper.java:30-45 | none exactly when no tile is face-down; otherwise the flip of the first face-down tile in scan order |
| AIHelper.GetRandomMoveOfFirstMovableTile | src/main/java/tallyho/model/player/ai/AIHelper.java:54-77 | a neutral team is refused; none exactly when no tile can move; otherwise one of the first movable tile's moves |
| AIHelper.MaxScore | src/main/java/tallyho/model/player/ai/AIHelper.java:103-125 | the highest score of the turns, attained by one of them |
| AIHelper.WithScore | src/main/java/tallyho/model/player/ai/AIHelper.java:103-125 | both directions: exactly the turns of that score |
| AIHelper.HighestScoring | src/main/java/tallyho/model/player/ai/AIHelper.java:103-125 | empty exactly when there are no turns; exactly the turns of the highest score |
| AIHelper.HighestScoringAppend | src/main/java/tallyho/model/player/ai/AIHelper.java:110-123 | one more turn starts a new list, joins it, or is ignored |
| AIHelper.GetHighestScoringTurns | src/main/java/tallyho/model/player/ai/AIHelper.java:103-125 | the highest-scoring of the turns the board offers |
| AIHelper.HighestScoringOf | src/main/java/tallyho/model/player/ai/AIHelper.java:108-124 | the loop computes the highest-scoring turns of its input |
| ShortSightedAI.GetTurn | src/main/java/tallyho/model/player/ai/ShortSightedAI.java:22-36 | none exactly when no turn is offered; otherwise an offered turn that no offered turn outscores |
| TrivialAI.GetTurn | src/main/java/tallyho/model/player/ai/TrivialAI.java:27-36 | the first flip while a tile is face-down; then a move of the first movable tile, none exactly when nothing moves; a neutral team is refused |
| LookAhead.TurnEffects | src/main/java/tallyho/model/BoardImpl.java:419-437 | a successful turn keeps the board well formed and credits no negative points |
| LookAhead.PathsFromSound | src/main/java/tallyho/model/player/ai/OldLookAheadAI.java:263-329 | every path found from a node has the look-ahead length and extends the path so far; no side is credited negative points; the only error is a worthless capture |
| LookAhead.AfterTurnSound | src/main/java/tallyho/model/player/ai/OldLookAheadAI.java:287-315 | the same below a node that is not a leaf |
| LookAhead.ContinueSound | src/main/java/tallyho/model/player/ai/OldLookAheadAI.java:292-315 | the same one level deeper |
| LookAhead.PathsOfTurnsSound | src/main/java/tallyho/model/player/ai/OldLookAheadAI.java:307-314 | the same over a row of turns |
| LookAhead.AllPathsSound | src/main/java/tallyho/model/player/ai/OldLookAheadAI.java:175-197 | every path has depth+1 entries and starts with one of the first turns; each first turn leads to a path; the only error is a worthless capture |
| LookAhead.NoLookAhead | src/main/java/tallyho/model/player/ai/OldLookAheadAI.java:277-283 | with no look-ahead the paths are the first turns themselves |
| LookAhead.ErrorStops | src/main/java/tallyho/model/player/ai/OldLookAheadAI.java:307-314 | once one search in a row fails, the rest are not searched |
| LookAhead.AllPathsErrorStops | src/main/java/tallyho/model/player/ai/OldLookAheadAI.java:175-197 | the same for the first turns |
| LookAhead.FirstTurnCredit | src/main/java/tallyho/model/player/ai/OldLookAheadAI.java:287-291 | a first turn played on the clone credits the AI its points |
| LookAhead.SearchCreditsTheAI | src/main/java/tallyho/model/player/ai/OldLookAheadAI.java:337-346 | a completed search of depth at least one credits the real AI at least a first turn's points |
| LookAhead.MaxPathScore | src/main/java/tallyho/model/player/ai/OldLookAheadAI.java:135-166 | the highest path score, attained by one path |
| LookAhead.WithPathScore | src/main/java/tallyho/model/player/ai/OldLookAheadAI.java:135-166 | both directions: exactly the paths of that score |
| LookAhead.BestPaths | src/main/java/tallyho/model/player/ai/OldLookAheadAI.java:135-166 | empty exactly when there are no paths; exactly the paths of the highest score |
| LookAhead.BestPathsAppend | src/main/java/tallyho/model/player/ai/OldLookAheadAI.java:145-163 | one more path starts a new list, joins it, or is ignored |
| LookAhead.BestStepsAreBest | src/main/java/tallyho/model/player/ai/OldLookAheadAI.java:145-163 | the loop's steps compute the best paths |
| LookAhead.OldLookAheadAI.constructor | src/main/java/tallyho/model/player/ai/OldLookAheadAI.java:54-60 | an AI of the given depth with no team |
| LookAhead.OldLookAheadAI.Create | src/main/java/tallyho/model/player/ai/OldLookAheadAI.java:54-60 | a negative depth is refused |
| LookAhead.OldLookAheadAI.CreateDefault | src/main/java/tallyho/model/player/ai/OldLookAheadAI.java:44-46 | an AI of the default depth |
| LookAhead.OldLookAheadAI.GetOpponent | src/main/java/tallyho/model/player/ai/OldLookAheadAI.java:78-91 | a new player of the other team; a missing or neutral team is an illegal state |
| LookAhead.OldLookAheadAI.SetTeam | src/main/java/tallyho/model/player/ai/OldLookAheadAI.java:67-70 | a neutral team is refused; otherwise the team is set and a fresh opponent made |
| LookAhead.OldLookAheadAI.GetPlayer | src/main/java/tallyho/model/player/ai/OldLookAheadAI.java:337-346 | the AI at even depths, the opponent at odd ones |
| LookAhead.OldLookAheadAI.GetAllPathsFrom | src/main/java/tallyho/model/player/ai/OldLookAheadAI.java:263-329 | the paths and outcome are those of `PathsFrom`; the board is only read |
| LookAhead.OldLookAheadAI.PlayOnCopy | src/main/java/tallyho/model/player/ai/OldLookAheadAI.java:287-315 | those of `AfterTurn` |
| LookAhead.OldLookAheadAI.GetNextPaths | src/main/java/tallyho/model/player/ai/OldLookAheadAI.java:292-315 | those of `Continue` |
| LookAhead.OldLookAheadAI.SearchTurns | src/main/java/tallyho/model/player/ai/OldLookAheadAI.java:307-314 | those of `PathsOfTurns`; the given path is left as it was |
| LookAhead.OldLookAheadAI.SearchOnCopy | src/main/java/tallyho/model/player/ai/OldLookAheadAI.java:312-313 | the search from one turn on a copy of the path |
| LookAhead.OldLookAheadAI.GetAllPaths | src/main/java/tallyho/model/player/ai/OldLookAheadAI.java:175-197 | those of `AllPaths` over the offered turns |
| LookAhead.OldLookAheadAI.GetBestPaths | src/main/java/tallyho/model/player/ai/OldLookAheadAI.java:135-166 | the best of all the paths, in the order found |
| LookAhead.OldLookAheadAI.BestOf | src/main/java/tallyho/model/player/ai/OldLookAheadAI.java:145-163 | the loop keeps exactly the best paths |
| LookAhead.OldLookAheadAI.GetTurn | src/main/java/tallyho/model/player/ai/OldLookAheadAI.java:103-126 | the first turn of a best path; with no turn to start from, an illegal state |
| MinMax.MinimumChildValueIsLeast | src/main/java/tallyho/model/player/ai/MinMaxTreeImpl.java:181-194 | the minimum is at most every child's value and is one of them |
| MinMax.MaximumChildValueIsGreatest | src/main/java/tallyho/model/player/ai/MinMaxTreeImpl.java:202-215 | the maximum is at least every child's value and is one of them |
| MinMax.MinMaxValueBounds | src/main/java/tallyho/model/player/ai/MinMaxTreeImpl.java:158-173 | a leaf is worth its score; otherwise its score plus the worst child for the team's own turn and the best child for the other team's, in both directions |
| MinMax.WithValue | src/main/java/tallyho/model/player/ai/MinMaxTreeImpl.java:92-124 | both directions: exactly the nodes of that value |
| MinMax.ChildAppend | src/main/java/tallyho/model/player/ai/MinMaxTreeImpl.java:181-215 | one more child updates the minimum, maximum and value list as the loops do |
| MinMax.BestNodes | src/main/java/tallyho/model/player/ai/MinMaxTreeImpl.java:92-124 | a nonempty list of root children of the highest value, containing every such child |
| MinMax.GetMinMaxValue | src/main/java/tallyho/model/player/ai/MinMaxTreeImpl.java:158-173 | computes `MinMaxValue` |
| MinMax.GetMinimumChildValue | src/main/java/tallyho/model/player/ai/MinMaxTreeImpl.java:181-194 | computes the least child value |
| MinMax.GetMaximumChildValue | src/main/java/tallyho/model/player/ai/MinMaxTreeImpl.java:202-215 | computes the greatest child value |
| MinMax.MinMaxTreeImpl.constructor | src/main/java/tallyho/model/player/ai/MinMaxTreeImpl.java:39-43 | a tree for the team with an empty root |
| MinMax.MinMaxTreeImpl.Create | src/main/java/tallyho/model/player/ai/MinMaxTreeImpl.java:39-43 | a negative depth is refused |
| MinMax.MinMaxTreeImpl.GetBestNextNodes | src/main/java/tallyho/model/player/ai/MinMaxTreeImpl.java:92-124 | an empty root is an illegal state; otherwise the best root children |
| MinMax.MinMaxTreeImpl.GetBestTurn | src/main/java/tallyho/model/player/ai/MinMaxTreeImpl.java:76-83 | an empty root is an illegal state; otherwise the turn of one of the best root children |

## Left out

- The Swing user interface (`tallyho.view`) and the program's entry point are not part of this model.
- Observers are not modelled as callbacks. Each board operation returns the notification it would send, and a `Game` keeps the events it sends as a log.
- Randomness is a parameter or a free choice:
  - the shuffle of the tiles is a permutation given to the set-up;
  - each Hunter's direction is given;
  - the choice among equally good turns in `ShortSightedAI`, `AIHelper`, `OldLookAheadAI.getTurn` and `MinMaxTreeImpl.getBestTurn` is any member of the set the contract names.
- `OldLookAheadAI.getTurn` removes duplicates through a `HashSet` and shuffles. This affects only which best turn is chosen, and the contract allows any of them.
- `toString`, the message texts, `getNameAndRound` and other display helpers are not modelled.
- `Tree.java`, `Duck.java` and `Directional.java` are not part of this model:
  - the Tree's range and value and the Duck's value are unknown constants (`TREE_RANGE`, `TREE_VALUE`, `DUCK_VALUE`);
  - a direction is a datatype.
- `LookAheadAI` is not modelled: it is a second, unfinished look-ahead player built on the min-max tree.
- `MinMaxTreeImpl.generateTurnTree` is a stub in the source. The min-max functions and methods are stated over a given tree of turns. `MinMax.MinMaxTreeImpl.constructor` builds an empty root, as the stub does.
- 32-bit overflow of scores and turn counters is not modelled: they are unbounded integers. Where int arithmetic shapes a result it is written out:
  - hash codes use `Int32`;
  - the range check of `validateMove` uses `Int32` and `JavaAbs`;
  - the Flip constructor's cast uses `DoubleToInt`.
- Coordinates are unbounded integers. For values outside int's range, which Java cannot pass, the model wraps the range check's differences as Java would wrap them.
- NaN and infinite coordinates given to the Flip constructor are not modelled.
- Null arguments that the types rule out are not modelled. Those the source checks are `None` arguments that give the source's error.
- Tiles are values with identities, not shared objects. `setFaceUp` through an alias of a tile on the board is not modelled; only the board's own flip turns a tile face-up.
- `LookAhead.OldLookAheadAI.SetTeam`: given no team, the source fails with a `NullPointerException` in `getOpponent`; the model reports `IllegalState`.
- A `RuntimeException` that wraps an `IllegalMoveException` in the look-ahead search is reported as the underlying error.
- Fresh tile identities come from a counter on the board, which stands for object allocation.
- The computer players' methods require a team to be set, as the source's callers always do.
- The `Game` invariant requires the two seats to hold different players. The source assumes this without checking it.
- The allTilesFaceUp flag can go stale through `removeTile` or the iterator's `remove`. The model keeps this behaviour (`BoardImpls.BoardImpl.RemoveTile`), and the rule lemmas that need the flag to be up to date require it.
- The scenario tests on concrete boards are not restated as lemmas. The general properties above cover what they check.

## Findings

| source | as written | input that shows it | evidently intended | confidence | as-written member | corrected member |
|---|---|---|---|---|---|---|
| src/main/java/tallyho/model/turn/Rescue.java:31-42 | `Move.equals` accepts any Move with the same four coordinates, a Rescue included, but `Rescue.equals` accepts only a Rescue, and the two hash codes differ | Move(Humans, 0, 3, -1, 3) against Rescue(Humans, 0, 3, -1, 3) | equality is symmetric and equal turns hash alike: a Move and a Rescue are never equal | not executed | Turns.MoveRescueEqualityAsymmetric | Turns.MovementEqualsFixedConsistent |
