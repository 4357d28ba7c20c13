/** The computer player that looks a fixed number of turns ahead
  * (`OldLookAheadAI`). It lists every line of play (a `Path`) from each of
  * its possible turns down to its look-ahead depth, alternating between its
  * own team and the other, playing each turn on a clone of the board; it then
  * keeps the paths with the best score and plays the first turn of one.
  *
  * The search is specified by the pure functions `PathsFrom`, `Continue` and
  * `PathsOfTurns`, which give the paths found, the points credited to each
  * side along the way and the error that ended the search, if any. */
module LookAhead {
  import opened Common
  import opened Tiles
  import opened Turns
  import opened Boards
  import opened Players
  import opened BoardImpls
  import opened Paths
  import BoardEffects

  /** The depth the no-argument constructor chooses. */
  const DEFAULT_LOOK_AHEAD_DEPTH: nat := 2

  /** The team that moves at a depth of the search: the searching team at
    * even depths, the other team at odd ones. */
  function SideAt(team: Team, depth: nat): Team {
    if depth % 2 == 0 then team else BoardEffects.Opponent(team)
  }

  /** What a (part of a) search produces: the paths found, in order, the
    * points credited to the searching side and to the other side while
    * playing turns on clones, and the error that ended it, if one did. The
    * credits count also when an error ends the search. */
  datatype Search = Search(paths: seq<seq<Option<Turn>>>, aiCredit: int, opponentCredit: int, error: Option<Error>)

  const NOTHING: Search := Search([], 0, 0, None)

  /** One part of the search followed by the next: an error in the first
    * stops the search before the second begins. */
  function Then(a: Search, b: Search): Search {
    if a.error.Some? then a
    else Search(a.paths + b.paths, a.aiCredit + b.aiCredit, a.opponentCredit + b.opponentCredit, b.error)
  }

  /** Points scored by the side that moves at `depth`. */
  function Credited(s: Search, depth: nat, credit: int): Search {
    if depth % 2 == 0 then s.(aiCredit := s.aiCredit + credit)
    else s.(opponentCredit := s.opponentCredit + credit)
  }

  /** A turn that succeeds keeps the board well formed and credits no
    * negative number of points. */
  lemma TurnEffects(p: Position, team: Team, turn: Option<Turn>)
    requires WellFormed(p) && HaveTurn(p, team, turn).Success?
    ensures WellFormed(HaveTurn(p, team, turn).value.after)
    ensures HaveTurn(p, team, turn).value.credit >= 0
  {
    var t := turn.value;
    if t.Flip? {
      BoardEffects.FlipEffect(p, team, t.x, t.y);
    } else {
      BoardEffects.MoveEffect(p, team, t.fromX, t.fromY, t.toX, t.toY);
      BoardEffects.MoveCredit(p, team, t.fromX, t.fromY, t.toX, t.toY);
    }
  }

  /** `getAllPaths(board, turn, depth, parentPath)`: the path so far gains the
    * turn (except at depth 0, where it already starts with it); at the
    * look-ahead depth that path is the only one; otherwise the turn, if any,
    * is played on a clone by the side whose depth it is, and the search goes
    * on from the clone. */
  function PathsFrom(p: Position, team: Team, maxDepth: nat, turn: Option<Turn>, depth: nat,
                     prefix: seq<Option<Turn>>): Search
    requires WellFormed(p) && team != Neutral && depth <= maxDepth
    decreases maxDepth - depth, 2, 0
  {
    var path := if depth > 0 then prefix + [turn] else prefix;
    if depth == maxDepth then Search([path], 0, 0, None)
    else AfterTurn(p, team, maxDepth, turn, depth, path)
  }

  /** Below a node that is not a leaf: the turn, if any, played on a clone
    * by the side whose depth it is; the search goes on from the clone. */
  function AfterTurn(p: Position, team: Team, maxDepth: nat, turn: Option<Turn>, depth: nat,
                     path: seq<Option<Turn>>): Search
    requires WellFormed(p) && team != Neutral && depth < maxDepth
    decreases maxDepth - depth, 1, 0
  {
    BoardEffects.CloneEffect(p);
    var c := Cloned(p);
    if turn.None? then Continue(c, team, maxDepth, depth, path)
    else
      var h := HaveTurn(c, SideAt(team, depth), turn);
      if h.Failure? then Search([], 0, 0, Some(h.error))
      else
        TurnEffects(c, SideAt(team, depth), turn);
        Credited(Continue(h.value.after, team, maxDepth, depth, path), depth, h.value.credit)
  }

  /** The search one level deeper: every turn the next side has, each on a
    * copy of the path; a missing entry when it has none. */
  function Continue(q: Position, team: Team, maxDepth: nat, depth: nat, path: seq<Option<Turn>>): Search
    requires WellFormed(q) && team != Neutral && depth < maxDepth
    decreases maxDepth - depth, 0, 0
  {
    var next := PossibleTurns(q, SideAt(team, depth + 1));
    if next == [] then PathsFrom(q, team, maxDepth, None, depth + 1, path)
    else PathsOfTurns(q, team, maxDepth, next, depth + 1, path)
  }

  /** The searches from several turns at the same depth, in order. */
  function PathsOfTurns(q: Position, team: Team, maxDepth: nat, turns: seq<Turn>, depth: nat,
                        prefix: seq<Option<Turn>>): Search
    requires WellFormed(q) && team != Neutral && depth <= maxDepth
    decreases maxDepth - depth, 3, |turns|
  {
    if turns == [] then NOTHING
    else Then(PathsOfTurns(q, team, maxDepth, turns[..|turns| - 1], depth, prefix),
              PathsFrom(q, team, maxDepth, Some(turns[|turns| - 1]), depth, prefix))
  }

  /** `getAllPaths(board)`: the searches from the given first turns, each
    * starting a path of its own. */
  function AllPaths(p: Position, team: Team, maxDepth: nat, turns: seq<Turn>): Search
    requires WellFormed(p) && team != Neutral
    decreases |turns|
  {
    if turns == [] then NOTHING
    else
      var first := turns[|turns| - 1];
      Then(AllPaths(p, team, maxDepth, turns[..|turns| - 1]),
           PathsFrom(p, team, maxDepth, Some(first), 0, [Some(first)]))
  }

  /** The whole search of a team from a position. */
  function SearchFrom(p: Position, team: Team, maxDepth: nat): Search
    requires WellFormed(p) && team != Neutral
  {
    AllPaths(p, team, maxDepth, PossibleTurns(p, team))
  }

  // ---------------------------------------------------------------------------
  // What the search finds

  /** Every path is `maxDepth + 1` entries long and extends `start`; neither
    * side is credited a negative number of points; and the only error is an
    * IllegalArgument for a capture worth nothing, never an IllegalMove, since
    * every turn played is one the board offered. */
  ghost predicate Sound(s: Search, maxDepth: nat, start: seq<Option<Turn>>) {
    (forall path | path in s.paths :: |path| == maxDepth + 1 && start <= path) &&
    s.aiCredit >= 0 && s.opponentCredit >= 0 &&
    (s.error.Some? ==> s.error.value == IllegalArgument)
  }

  lemma ThenSound(a: Search, b: Search, maxDepth: nat, start: seq<Option<Turn>>)
    requires Sound(a, maxDepth, start) && Sound(b, maxDepth, start)
    ensures Sound(Then(a, b), maxDepth, start)
  {
  }

  lemma {:induction false} PathsFromSound(p: Position, team: Team, maxDepth: nat, turn: Option<Turn>, depth: nat,
                                          prefix: seq<Option<Turn>>)
    requires WellFormed(p) && team != Neutral && depth <= maxDepth
    requires turn.Some? ==> turn.value in PossibleTurns(p, SideAt(team, depth))
    requires |prefix| == if depth == 0 then 1 else depth
    ensures var s := PathsFrom(p, team, maxDepth, turn, depth, prefix);
            Sound(s, maxDepth, if depth > 0 then prefix + [turn] else prefix) &&
            (s.error.None? ==> s.paths != [])
    decreases maxDepth - depth, 2, 0
  {
    if depth < maxDepth {
      AfterTurnSound(p, team, maxDepth, turn, depth, if depth > 0 then prefix + [turn] else prefix);
    }
  }

  lemma {:induction false} AfterTurnSound(p: Position, team: Team, maxDepth: nat, turn: Option<Turn>, depth: nat,
                                          path: seq<Option<Turn>>)
    requires WellFormed(p) && team != Neutral && depth < maxDepth
    requires turn.Some? ==> turn.value in PossibleTurns(p, SideAt(team, depth))
    requires |path| == depth + 1
    ensures var s := AfterTurn(p, team, maxDepth, turn, depth, path);
            Sound(s, maxDepth, path) && (s.error.None? ==> s.paths != [])
    decreases maxDepth - depth, 1, 0
  {
    BoardEffects.CloneEffect(p);
    var c := Cloned(p);
    var side := SideAt(team, depth);
    if turn.None? {
      ContinueSound(c, team, maxDepth, depth, path);
    } else {
      BoardEffects.CloneAcceptsOfferedTurns(p, side, turn.value);
      var h := HaveTurn(c, side, turn);
      if h.Success? {
        TurnEffects(c, side, turn);
        ContinueSound(h.value.after, team, maxDepth, depth, path);
      }
    }
  }

  lemma {:induction false} ContinueSound(q: Position, team: Team, maxDepth: nat, depth: nat, path: seq<Option<Turn>>)
    requires WellFormed(q) && team != Neutral && depth < maxDepth && |path| == depth + 1
    ensures var s := Continue(q, team, maxDepth, depth, path);
            Sound(s, maxDepth, path) && (s.error.None? ==> s.paths != [])
    decreases maxDepth - depth, 0, 0
  {
    var side := SideAt(team, depth + 1);
    var next := PossibleTurns(q, side);
    if next == [] {
      PathsFromSound(q, team, maxDepth, None, depth + 1, path);
    } else {
      PathsOfTurnsSound(q, team, maxDepth, next, depth + 1, path);
    }
  }

  lemma {:induction false} PathsOfTurnsSound(q: Position, team: Team, maxDepth: nat, turns: seq<Turn>, depth: nat,
                                             prefix: seq<Option<Turn>>)
    requires WellFormed(q) && team != Neutral && 0 < depth <= maxDepth && |prefix| == depth
    requires forall t | t in turns :: t in PossibleTurns(q, SideAt(team, depth))
    ensures var s := PathsOfTurns(q, team, maxDepth, turns, depth, prefix);
            Sound(s, maxDepth, prefix) && (s.error.None? && turns != [] ==> s.paths != [])
    decreases maxDepth - depth, 3, |turns|
  {
    if turns != [] {
      var last := turns[|turns| - 1];
      PathsOfTurnsSound(q, team, maxDepth, turns[..|turns| - 1], depth, prefix);
      PathsFromSound(q, team, maxDepth, Some(last), depth, prefix);
      var b := PathsFrom(q, team, maxDepth, Some(last), depth, prefix);
      assert Sound(b, maxDepth, prefix) by {
        forall path | path in b.paths ensures prefix <= path {
          assert prefix <= prefix + [Some(last)];
        }
      }
      ThenSound(PathsOfTurns(q, team, maxDepth, turns[..|turns| - 1], depth, prefix), b, maxDepth, prefix);
    }
  }

  /** The whole search: every path has `maxDepth + 1` entries and starts with
    * one of the first turns, each first turn leads to at least one path, and
    * the search fails only on a capture worth nothing. */
  lemma {:induction false} AllPathsSound(p: Position, team: Team, maxDepth: nat, turns: seq<Turn>)
    requires WellFormed(p) && team != Neutral
    requires forall t | t in turns :: t in PossibleTurns(p, team)
    ensures var s := AllPaths(p, team, maxDepth, turns);
            (forall path: seq<Option<Turn>> | path in s.paths ::
               |path| == maxDepth + 1 && path[0].Some? && path[0].value in turns) &&
            s.aiCredit >= 0 && s.opponentCredit >= 0 &&
            (s.error.Some? ==> s.error.value == IllegalArgument) &&
            (s.error.None? ==> (s.paths == [] <==> turns == []))
    decreases |turns|
  {
    if turns != [] {
      var first := turns[|turns| - 1];
      var init := turns[..|turns| - 1];
      AllPathsSound(p, team, maxDepth, init);
      PathsFromSound(p, team, maxDepth, Some(first), 0, [Some(first)]);
      var b := PathsFrom(p, team, maxDepth, Some(first), 0, [Some(first)]);
      forall path | path in b.paths ensures path[0] == Some(first) {
        assert [Some(first)] <= path;
      }
    }
  }

  /** With no look-ahead the paths are the first turns themselves, and no
    * turn is played. */
  lemma {:induction false} NoLookAhead(p: Position, team: Team, turns: seq<Turn>)
    requires WellFormed(p) && team != Neutral
    ensures AllPaths(p, team, 0, turns) == Search(seq(|turns|, i requires 0 <= i < |turns| => [Some(turns[i])]), 0, 0, None)
    decreases |turns|
  {
    if turns != [] {
      NoLookAhead(p, team, turns[..|turns| - 1]);
    }
  }

  /** Once part of a row of searches fails, the rest is not searched. */
  lemma {:induction false} ErrorStops(q: Position, team: Team, maxDepth: nat, turns: seq<Turn>, depth: nat,
                                      prefix: seq<Option<Turn>>, k: nat)
    requires WellFormed(q) && team != Neutral && depth <= maxDepth && k <= |turns|
    requires PathsOfTurns(q, team, maxDepth, turns[..k], depth, prefix).error.Some?
    ensures PathsOfTurns(q, team, maxDepth, turns, depth, prefix) == PathsOfTurns(q, team, maxDepth, turns[..k], depth, prefix)
    decreases |turns| - k
  {
    if k < |turns| {
      assert turns[..|turns| - 1][..k] == turns[..k];
      ErrorStops(q, team, maxDepth, turns[..|turns| - 1], depth, prefix, k);
    } else {
      assert turns[..k] == turns;
    }
  }

  /** The same for the first turns. */
  lemma {:induction false} AllPathsErrorStops(p: Position, team: Team, maxDepth: nat, turns: seq<Turn>, k: nat)
    requires WellFormed(p) && team != Neutral && k <= |turns|
    requires AllPaths(p, team, maxDepth, turns[..k]).error.Some?
    ensures AllPaths(p, team, maxDepth, turns) == AllPaths(p, team, maxDepth, turns[..k])
    decreases |turns| - k
  {
    if k < |turns| {
      assert turns[..|turns| - 1][..k] == turns[..k];
      AllPathsErrorStops(p, team, maxDepth, turns[..|turns| - 1], k);
    } else {
      assert turns[..k] == turns;
    }
  }

  /** A first turn that succeeds on the clone credits the AI its points,
    * and the rest of the search under it credits the AI nothing negative. */
  lemma FirstTurnCredit(p: Position, team: Team, maxDepth: nat, t: Turn)
    requires WellFormed(p) && team != Neutral && maxDepth >= 1
    requires HaveTurn(Cloned(p), team, Some(t)).Success?
    ensures PathsFrom(p, team, maxDepth, Some(t), 0, [Some(t)]).aiCredit >= HaveTurn(Cloned(p), team, Some(t)).value.credit
  {
    BoardEffects.CloneEffect(p);
    var h := HaveTurn(Cloned(p), team, Some(t));
    TurnEffects(Cloned(p), team, Some(t));
    ContinueSound(h.value.after, team, maxDepth, 0, [Some(t)]);
    assert PathsFrom(p, team, maxDepth, Some(t), 0, [Some(t)]) == AfterTurn(p, team, maxDepth, Some(t), 0, [Some(t)]);
    assert AfterTurn(p, team, maxDepth, Some(t), 0, [Some(t)]) ==
           Credited(Continue(h.value.after, team, maxDepth, 0, [Some(t)]), 0, h.value.credit);
  }

  /** Look-ahead plays the searching side's turns with the AI itself, so a
    * first turn that scores on the clone raises the points credited to the
    * AI: a search that looks at least one turn ahead and completes credits
    * the AI at least that turn's points, although the board it was asked
    * about is left as it was. */
  lemma SearchCreditsTheAI(p: Position, team: Team, maxDepth: nat, turns: seq<Turn>, t: Turn)
    requires WellFormed(p) && team != Neutral && maxDepth >= 1
    requires forall u | u in turns :: u in PossibleTurns(p, team)
    requires t in turns && HaveTurn(Cloned(p), team, Some(t)).Success?
    requires AllPaths(p, team, maxDepth, turns).error.None?
    ensures AllPaths(p, team, maxDepth, turns).aiCredit >= HaveTurn(Cloned(p), team, Some(t)).value.credit
  {
    var i :| 0 <= i < |turns| && turns[i] == t;
    AllPathsCreditCovers(p, team, maxDepth, turns, i);
    FirstTurnCredit(p, team, maxDepth, t);
  }

  /** A completed search credits the AI at least what the search under any
    * one of its first turns does. */
  lemma AllPathsCreditCovers(p: Position, team: Team, maxDepth: nat, turns: seq<Turn>, i: nat)
    requires WellFormed(p) && team != Neutral
    requires forall u | u in turns :: u in PossibleTurns(p, team)
    requires i < |turns| && AllPaths(p, team, maxDepth, turns).error.None?
    ensures AllPaths(p, team, maxDepth, turns).aiCredit >=
            PathsFrom(p, team, maxDepth, Some(turns[i]), 0, [Some(turns[i])]).aiCredit
  {
    var parts := FirstSearches(p, team, maxDepth, turns);
    AllPathsChain(p, team, maxDepth, turns);
    forall k | 0 <= k < |parts| ensures parts[k].aiCredit >= 0 {
      FirstSearchCredit(p, team, maxDepth, turns[k]);
    }
    ChainCovers(parts, i);
  }

  /** The searches under each first turn, in order. */
  function FirstSearches(p: Position, team: Team, maxDepth: nat, turns: seq<Turn>): (r: seq<Search>)
    requires WellFormed(p) && team != Neutral
    ensures |r| == |turns|
  {
    seq(|turns|, k requires 0 <= k < |turns| => PathsFrom(p, team, maxDepth, Some(turns[k]), 0, [Some(turns[k])]))
  }

  /** Searches run one after the other. */
  function Chain(parts: seq<Search>): Search
    decreases |parts|
  {
    if parts == [] then NOTHING else Then(Chain(parts[..|parts| - 1]), parts[|parts| - 1])
  }

  lemma {:induction false} AllPathsChain(p: Position, team: Team, maxDepth: nat, turns: seq<Turn>)
    requires WellFormed(p) && team != Neutral
    ensures AllPaths(p, team, maxDepth, turns) == Chain(FirstSearches(p, team, maxDepth, turns))
    decreases |turns|
  {
    if turns != [] {
      var n := |turns| - 1;
      AllPathsChain(p, team, maxDepth, turns[..n]);
      var parts := FirstSearches(p, team, maxDepth, turns);
      assert parts[..n] == FirstSearches(p, team, maxDepth, turns[..n]);
    }
  }

  /** A completed chain of searches that credit nothing negative credits at
    * least what any one of them does. */
  lemma {:induction false} ChainCovers(parts: seq<Search>, i: nat)
    requires forall k | 0 <= k < |parts| :: parts[k].aiCredit >= 0
    requires i < |parts| && Chain(parts).error.None?
    ensures Chain(parts).aiCredit >= parts[i].aiCredit
    decreases |parts|
  {
    var n := |parts| - 1;
    ChainCredit(parts[..n]);
    if i < n {
      ChainCovers(parts[..n], i);
    }
  }

  lemma {:induction false} ChainCredit(parts: seq<Search>)
    requires forall k | 0 <= k < |parts| :: parts[k].aiCredit >= 0
    ensures Chain(parts).aiCredit >= 0
    decreases |parts|
  {
    if parts != [] {
      ChainCredit(parts[..|parts| - 1]);
    }
  }

  lemma FirstSearchCredit(p: Position, team: Team, maxDepth: nat, t: Turn)
    requires WellFormed(p) && team != Neutral && t in PossibleTurns(p, team)
    ensures PathsFrom(p, team, maxDepth, Some(t), 0, [Some(t)]).aiCredit >= 0
  {
    PathsFromSound(p, team, maxDepth, Some(t), 0, [Some(t)]);
  }

  /** One more turn in a row of searches. */
  lemma PathsOfTurnsSnoc(q: Position, team: Team, maxDepth: nat, turns: seq<Turn>, i: nat, depth: nat,
                         prefix: seq<Option<Turn>>)
    requires WellFormed(q) && team != Neutral && depth <= maxDepth && i < |turns|
    ensures PathsOfTurns(q, team, maxDepth, turns[..i + 1], depth, prefix) ==
            Then(PathsOfTurns(q, team, maxDepth, turns[..i], depth, prefix),
                 PathsFrom(q, team, maxDepth, Some(turns[i]), depth, prefix))
  {
    assert turns[..i + 1][..i] == turns[..i];
  }

  /** One more first turn. */
  lemma AllPathsSnoc(p: Position, team: Team, maxDepth: nat, turns: seq<Turn>, i: nat)
    requires WellFormed(p) && team != Neutral && i < |turns|
    ensures AllPaths(p, team, maxDepth, turns[..i + 1]) ==
            Then(AllPaths(p, team, maxDepth, turns[..i]), PathsFrom(p, team, maxDepth, Some(turns[i]), 0, [Some(turns[i])]))
  {
    assert turns[..i + 1][..i] == turns[..i];
  }

  // ---------------------------------------------------------------------------
  // The best paths

  /** The highest score among some paths. */
  function MaxPathScore(ps: seq<seq<Option<Turn>>>): (m: int)
    requires ps != []
    ensures forall path | path in ps :: PathScore(path) <= m
    ensures exists path | path in ps :: PathScore(path) == m
    decreases |ps|
  {
    if |ps| == 1 then PathScore(ps[0])
    else
      assert ps == ps[..|ps| - 1] + [ps[|ps| - 1]];
      Max(MaxPathScore(ps[..|ps| - 1]), PathScore(ps[|ps| - 1]))
  }

  /** The paths with score `m`, in their order. */
  function WithPathScore(ps: seq<seq<Option<Turn>>>, m: int): (r: seq<seq<Option<Turn>>>)
    ensures forall path | path in r :: path in ps && PathScore(path) == m
    ensures forall path | path in ps && PathScore(path) == m :: path in r
    decreases |ps|
  {
    if ps == [] then []
    else
      assert ps == ps[..|ps| - 1] + [ps[|ps| - 1]];
      WithPathScore(ps[..|ps| - 1], m) + if PathScore(ps[|ps| - 1]) == m then [ps[|ps| - 1]] else []
  }

  /** The best paths: those whose score is the highest, in their order; none
    * only when there are no paths. */
  function BestPaths(ps: seq<seq<Option<Turn>>>): (r: seq<seq<Option<Turn>>>)
    ensures r == [] <==> ps == []
    ensures forall path | path in r :: path in ps && forall other | other in ps :: PathScore(other) <= PathScore(path)
    ensures ps != [] ==> forall path | path in ps && PathScore(path) == MaxPathScore(ps) :: path in r
    ensures ps != [] ==> forall path | path in r :: PathScore(path) == MaxPathScore(ps)
  {
    if ps == [] then [] else WithPathScore(ps, MaxPathScore(ps))
  }

  lemma NoneWithPathScore(ps: seq<seq<Option<Turn>>>, m: int)
    requires forall path | path in ps :: PathScore(path) < m
    ensures WithPathScore(ps, m) == []
  {
  }

  lemma MaxPathScoreSnoc(ps: seq<seq<Option<Turn>>>, path: seq<Option<Turn>>)
    requires ps != []
    ensures MaxPathScore(ps + [path]) == Max(MaxPathScore(ps), PathScore(path))
  {
    assert (ps + [path])[..|ps|] == ps;
  }

  lemma WithPathScoreSnoc(ps: seq<seq<Option<Turn>>>, path: seq<Option<Turn>>, m: int)
    ensures WithPathScore(ps + [path], m) == WithPathScore(ps, m) + if PathScore(path) == m then [path] else []
  {
    assert (ps + [path])[..|ps|] == ps;
  }

  /** One more path either starts a new list, joins the list or is ignored:
    * the three cases of `getBestPaths`' loop. */
  lemma BestPathsAppend(ps: seq<seq<Option<Turn>>>, path: seq<Option<Turn>>)
    ensures BestPaths(ps + [path]) ==
            if ps == [] || PathScore(path) > MaxPathScore(ps) then [path]
            else if PathScore(path) == MaxPathScore(ps) then BestPaths(ps) + [path]
            else BestPaths(ps)
  {
    var score := PathScore(path);
    if ps == [] {
      WithPathScoreSnoc([], path, score);
      assert [] + [path] == [path];
    } else {
      var m := MaxPathScore(ps);
      MaxPathScoreSnoc(ps, path);
      WithPathScoreSnoc(ps, path, Max(m, score));
      if score > m {
        NoneWithPathScore(ps, score);
      }
    }
  }

  /** One step of `getBestPaths`' loop, comparing the next path with the
    * first of the best so far. */
  function BestStep(best: seq<seq<Option<Turn>>>, path: seq<Option<Turn>>): seq<seq<Option<Turn>>> {
    if best == [] then [path]
    else if PathScore(path) == PathScore(best[0]) then best + [path]
    else if PathScore(path) > PathScore(best[0]) then [path]
    else best
  }

  /** The loop's steps over some paths, from no best path. */
  function BestSteps(ps: seq<seq<Option<Turn>>>): seq<seq<Option<Turn>>>
    decreases |ps|
  {
    if ps == [] then [] else BestStep(BestSteps(ps[..|ps| - 1]), ps[|ps| - 1])
  }

  /** The loop's steps keep the best paths of the paths seen so far. */
  lemma {:induction false} BestStepsAreBest(ps: seq<seq<Option<Turn>>>)
    ensures BestSteps(ps) == BestPaths(ps)
    decreases |ps|
  {
    if ps != [] {
      var init := ps[..|ps| - 1];
      var last := ps[|ps| - 1];
      BestStepsAreBest(init);
      assert ps == init + [last];
      BestPathsAppend(init, last);
      if init != [] {
        var best := BestPaths(init);
        assert best[0] in best;
      }
    }
  }

  // ---------------------------------------------------------------------------
  // The player

  /** The paths hold the given lists of turns, in order. */
  ghost predicate Hold(ps: seq<Path>, contents: seq<seq<Option<Turn>>>)
    reads set p | p in ps
  {
    |ps| == |contents| && forall k | 0 <= k < |ps| :: ps[k].turns == contents[k]
  }

  lemma HoldAppend(ps: seq<Path>, more: seq<Path>, contents: seq<seq<Option<Turn>>>, moreContents: seq<seq<Option<Turn>>>)
    requires Hold(ps, contents) && Hold(more, moreContents)
    ensures Hold(ps + more, contents + moreContents)
  {
  }

  class OldLookAheadAI {
    /** The AI as a player: its name, score and team. */
    const player: Player
    /** How many turns after the first the search looks at. */
    const turnsToLookAhead: nat
    /** The stand-in for the other side, made when the team is set. */
    var opponent: Player?

    /** The team is set and the opponent plays for the other team. */
    ghost predicate Ready()
      reads this, player, opponent
    {
      player.team.Some? && player.team.value != Neutral &&
      opponent != null && opponent != player && opponent.team == Some(BoardEffects.Opponent(player.team.value))
    }

    /** The constructor: a player with no team yet. */
    constructor(turnsToLookAhead: nat)
      ensures this.turnsToLookAhead == turnsToLookAhead && opponent == null
      ensures fresh(player) && player.name == None && player.score == 0 && player.team == None
    {
      this.turnsToLookAhead := turnsToLookAhead;
      player := new Player();
      opponent := null;
    }

    /** The constructors' argument check: a negative depth is refused. */
    static method Create(turnsToLookAhead: int) returns (r: Result<OldLookAheadAI, Error>)
      ensures r.Success? <==> turnsToLookAhead >= 0
      ensures r.Failure? ==> r.error == IllegalArgument
      ensures r.Success? ==> fresh(r.value) && fresh(r.value.player) &&
                             r.value.turnsToLookAhead == turnsToLookAhead && r.value.opponent == null
    {
      if turnsToLookAhead < 0 {
        return Failure(IllegalArgument);
      }
      var ai := new OldLookAheadAI(turnsToLookAhead);
      return Success(ai);
    }

    /** The no-argument constructor. */
    static method CreateDefault() returns (ai: OldLookAheadAI)
      ensures fresh(ai) && fresh(ai.player) && ai.turnsToLookAhead == DEFAULT_LOOK_AHEAD_DEPTH && ai.opponent == null
    {
      ai := new OldLookAheadAI(DEFAULT_LOOK_AHEAD_DEPTH);
    }

    /** `getOpponent`: a new player for the other team; a missing or neutral
      * team is an illegal state. */
    method GetOpponent() returns (r: Result<Player, Error>)
      ensures player.team.Some? && player.team.value != Neutral ==>
                r.Success? && fresh(r.value) && r.value.team == Some(BoardEffects.Opponent(player.team.value)) &&
                r.value.score == 0 && r.value.name == None
      ensures player.team.None? || player.team.value == Neutral ==> r == Failure(IllegalState)
    {
      var opponent := new Player();
      if player.team == Some(Humans) {
        var _ := opponent.SetTeam(Some(Predators));
      } else if player.team == Some(Predators) {
        var _ := opponent.SetTeam(Some(Humans));
      } else {
        return Failure(IllegalState);
      }
      return Success(opponent);
    }

    /** `setTeam`: a neutral team is refused and nothing changes; otherwise
      * the team is set and a new opponent made for the other team. */
    method SetTeam(team: Option<Team>) returns (r: Outcome<Error>)
      modifies this, player
      ensures team == Some(Neutral) ==> r == Fail(IllegalArgument) && player.team == old(player.team) && opponent == old(opponent)
      ensures team.None? ==> r == Fail(IllegalState) && player.team == None && opponent == old(opponent)
      ensures team.Some? && team.value != Neutral ==>
                r == Ok && player.team == team && Ready() && fresh(opponent) && opponent.score == 0
      ensures player.score == old(player.score) && player.name == old(player.name)
    {
      r := player.SetTeam(team);
      if r.Fail? {
        return;
      }
      var o := GetOpponent();
      if o.Failure? {
        return Fail(o.error);
      }
      opponent := o.value;
    }

    /** `getPlayer(depth)`: the AI at even depths, its opponent at odd ones;
      * each plays for the side whose depth it is. */
    function GetPlayer(depth: nat): (who: Player?)
      reads this, player, opponent
      ensures Ready() ==> who != null && who.team == Some(SideAt(player.team.value, depth))
    {
      if depth % 2 == 0 then player else opponent
    }

    /** `getAllPaths(board, turn, depth, parentPath)`. The paths returned are
      * the given one or new ones; the board is only read. */
    method GetAllPathsFrom(board: BoardImpl, turn: Option<Turn>, depth: nat, parentPath: Path)
        returns (allPaths: seq<Path>, r: Outcome<Error>)
      requires Ready() && board.Valid() && depth <= turnsToLookAhead
      requires |parentPath.turns| == if depth == 0 then 1 else depth
      modifies parentPath, player, opponent
      ensures Ready() && player.team == old(player.team)
      ensures var s := PathsFrom(board.Pos(), player.team.value, turnsToLookAhead, turn, depth, old(parentPath.turns));
              (r == Ok <==> s.error.None?) && (r.Fail? ==> r.error == s.error.value) &&
              (r == Ok ==> Hold(allPaths, s.paths)) &&
              player.score == old(player.score) + s.aiCredit && opponent.score == old(opponent.score) + s.opponentCredit
      ensures forall q | q in allPaths :: q == parentPath || fresh(q)
      decreases turnsToLookAhead - depth, 2
    {
      if depth > 0 {
        parentPath.AddTurn(turn);
      }
      if depth == turnsToLookAhead {
        return [parentPath], Ok;
      }
      allPaths, r := PlayOnCopy(board, turn, depth, parentPath);
    }

    /** The part of `getAllPaths` below a node that is not a leaf: the turn,
      * if any, is played on a copy of the board by the player whose depth
      * it is, and the search goes on from the copy. */
    method PlayOnCopy(board: BoardImpl, turn: Option<Turn>, depth: nat, parentPath: Path)
        returns (allPaths: seq<Path>, r: Outcome<Error>)
      requires Ready() && board.Valid() && depth < turnsToLookAhead
      requires |parentPath.turns| == depth + 1
      modifies parentPath, player, opponent
      ensures Ready() && player.team == old(player.team)
      ensures var s := AfterTurn(board.Pos(), player.team.value, turnsToLookAhead, turn, depth, old(parentPath.turns));
              (r == Ok <==> s.error.None?) && (r.Fail? ==> r.error == s.error.value) &&
              (r == Ok ==> Hold(allPaths, s.paths)) &&
              player.score == old(player.score) + s.aiCredit && opponent.score == old(opponent.score) + s.opponentCredit
      ensures forall q | q in allPaths :: q == parentPath || fresh(q)
      decreases turnsToLookAhead - depth, 1
    {
      var boardCopy := board.Clone();
      if turn.Some? {
        var mover := GetPlayer(depth);
        var done, _ := boardCopy.HaveTurn(mover, turn);
        if done.Fail? {
          return [], done;
        }
      }
      allPaths, r := GetNextPaths(boardCopy, depth, parentPath);
    }

    /** The part of `getAllPaths` that goes one level deeper: the next side's
      * turns, each on a clone of the path, or a missing entry when it has
      * none. */
    method GetNextPaths(board: BoardImpl, depth: nat, parentPath: Path) returns (allPaths: seq<Path>, r: Outcome<Error>)
      requires Ready() && board.Valid() && depth < turnsToLookAhead
      requires |parentPath.turns| == depth + 1
      modifies parentPath, player, opponent
      ensures Ready() && player.team == old(player.team)
      ensures var s := Continue(board.Pos(), player.team.value, turnsToLookAhead, depth, old(parentPath.turns));
              (r == Ok <==> s.error.None?) && (r.Fail? ==> r.error == s.error.value) &&
              (r == Ok ==> Hold(allPaths, s.paths)) &&
              player.score == old(player.score) + s.aiCredit && opponent.score == old(opponent.score) + s.opponentCredit
      ensures forall q | q in allPaths :: q == parentPath || fresh(q)
      decreases turnsToLookAhead - depth, 0
    {
      var team := player.team.value;
      var nextPlayer := GetPlayer(depth + 1);
      var nextTurns := board.GetPossibleTurns(nextPlayer.team.value);
      if nextTurns == [] {
        allPaths, r := GetAllPathsFrom(board, None, depth + 1, parentPath);
        return;
      }
      allPaths, r := SearchTurns(board, nextTurns, depth + 1, parentPath);
    }

    /** The loop of `getAllPaths` over the next side's turns, in order; it
      * stops at the first search that fails. The given path is left as it
      * was. */
    method SearchTurns(board: BoardImpl, nextTurns: seq<Turn>, depth: nat, parentPath: Path)
        returns (allPaths: seq<Path>, r: Outcome<Error>)
      requires Ready() && board.Valid() && 0 < depth <= turnsToLookAhead
      requires |parentPath.turns| == depth
      modifies player, opponent
      ensures Ready() && player.team == old(player.team)
      ensures var s := PathsOfTurns(board.Pos(), player.team.value, turnsToLookAhead, nextTurns, depth, parentPath.turns);
              (r == Ok <==> s.error.None?) && (r.Fail? ==> r.error == s.error.value) &&
              (r == Ok ==> Hold(allPaths, s.paths)) &&
              player.score == old(player.score) + s.aiCredit && opponent.score == old(opponent.score) + s.opponentCredit
      ensures forall q | q in allPaths :: fresh(q)
      decreases turnsToLookAhead - depth, 4
    {
      var team := player.team.value;
      ghost var q := board.Pos();
      ghost var path := parentPath.turns;
      ghost var s := NOTHING;
      ghost var contents: seq<seq<Option<Turn>>> := [];
      allPaths := [];
      var i := 0;
      while i < |nextTurns|
        invariant 0 <= i <= |nextTurns|
        invariant Ready() && player.team == Some(team)
        invariant s == PathsOfTurns(q, team, turnsToLookAhead, nextTurns[..i], depth, path)
        invariant s.error.None? && contents == s.paths
        invariant player.score == old(player.score) + s.aiCredit && opponent.score == old(opponent.score) + s.opponentCredit
        invariant Hold(allPaths, contents)
        invariant forall p | p in allPaths :: fresh(p)
      {
        var more, done := SearchOnCopy(board, nextTurns[i], depth, parentPath);
        ghost var b := PathsFrom(q, team, turnsToLookAhead, Some(nextTurns[i]), depth, path);
        PathsOfTurnsSnoc(q, team, turnsToLookAhead, nextTurns, i, depth, path);
        if done.Fail? {
          ErrorStops(q, team, turnsToLookAhead, nextTurns, depth, path, i + 1);
          return [], done;
        }
        HoldAppend(allPaths, more, contents, b.paths);
        allPaths := allPaths + more;
        contents := contents + b.paths;
        s := Then(s, b);
        i := i + 1;
      }
      assert nextTurns[..i] == nextTurns;
      r := Ok;
    }

    /** One turn of `getAllPaths`' loop: the search from that turn on a copy
      * of the path, which is left as it was. */
    method SearchOnCopy(board: BoardImpl, nextTurn: Turn, depth: nat, parentPath: Path)
        returns (more: seq<Path>, r: Outcome<Error>)
      requires Ready() && board.Valid() && 0 < depth <= turnsToLookAhead
      requires |parentPath.turns| == depth
      modifies player, opponent
      ensures Ready() && player.team == old(player.team)
      ensures var s := PathsFrom(board.Pos(), player.team.value, turnsToLookAhead, Some(nextTurn), depth, parentPath.turns);
              (r == Ok <==> s.error.None?) && (r.Fail? ==> r.error == s.error.value) &&
              (r == Ok ==> Hold(more, s.paths)) &&
              player.score == old(player.score) + s.aiCredit && opponent.score == old(opponent.score) + s.opponentCredit
      ensures forall q | q in more :: fresh(q)
      decreases turnsToLookAhead - depth, 3
    {
      var copyPath := parentPath.Clone();
      more, r := GetAllPathsFrom(board, Some(nextTurn), depth, copyPath);
    }

    /** `getAllPaths(board)`: the paths from each of the team's possible
      * turns, in order. The board is only read. */
    method GetAllPaths(board: BoardImpl) returns (allPaths: seq<Path>, r: Outcome<Error>)
      requires Ready() && board.Valid()
      modifies player, opponent
      ensures Ready() && player.team == old(player.team)
      ensures var s := SearchFrom(board.Pos(), player.team.value, turnsToLookAhead);
              (r == Ok <==> s.error.None?) && (r.Fail? ==> r.error == s.error.value) &&
              (r == Ok ==> Hold(allPaths, s.paths)) &&
              player.score == old(player.score) + s.aiCredit && opponent.score == old(opponent.score) + s.opponentCredit
      ensures forall q | q in allPaths :: fresh(q)
    {
      var team := player.team.value;
      var firstTurns := board.GetPossibleTurns(team);
      ghost var p := board.Pos();
      ghost var s := NOTHING;
      ghost var contents: seq<seq<Option<Turn>>> := [];
      allPaths := [];
      var i := 0;
      while i < |firstTurns|
        invariant 0 <= i <= |firstTurns|
        invariant Ready() && player.team == Some(team)
        invariant s == AllPaths(p, team, turnsToLookAhead, firstTurns[..i])
        invariant s.error.None? && contents == s.paths
        invariant player.score == old(player.score) + s.aiCredit && opponent.score == old(opponent.score) + s.opponentCredit
        invariant Hold(allPaths, contents)
        invariant forall q | q in allPaths :: fresh(q)
      {
        var firstTurn := firstTurns[i];
        var start := new Path(firstTurn);
        var more, done := GetAllPathsFrom(board, Some(firstTurn), 0, start);
        ghost var b := PathsFrom(p, team, turnsToLookAhead, Some(firstTurn), 0, [Some(firstTurn)]);
        AllPathsSnoc(p, team, turnsToLookAhead, firstTurns, i);
        if done.Fail? {
          AllPathsErrorStops(p, team, turnsToLookAhead, firstTurns, i + 1);
          return [], done;
        }
        HoldAppend(allPaths, more, contents, b.paths);
        allPaths := allPaths + more;
        contents := contents + b.paths;
        s := Then(s, b);
        i := i + 1;
      }
      assert firstTurns[..i] == firstTurns;
      r := Ok;
    }

    /** `getBestPaths`: the paths with the highest score, in the order they
      * were found. */
    method GetBestPaths(board: BoardImpl) returns (bestPaths: seq<Path>, r: Outcome<Error>)
      requires Ready() && board.Valid()
      modifies player, opponent
      ensures Ready() && player.team == old(player.team)
      ensures var s := SearchFrom(board.Pos(), player.team.value, turnsToLookAhead);
              (r == Ok <==> s.error.None?) && (r.Fail? ==> r.error == s.error.value) &&
              (r == Ok ==> Hold(bestPaths, BestPaths(s.paths))) &&
              player.score == old(player.score) + s.aiCredit && opponent.score == old(opponent.score) + s.opponentCredit
    {
      var allPaths;
      allPaths, r := GetAllPaths(board);
      if r.Fail? {
        return [], r;
      }
      ghost var ps := SearchFrom(board.Pos(), player.team.value, turnsToLookAhead).paths;
      bestPaths := BestOf(allPaths, ps);
    }

    /** The loop of `getBestPaths`, which keeps the best paths so far and
      * compares each path with the first of them. */
    static method BestOf(allPaths: seq<Path>, ghost ps: seq<seq<Option<Turn>>>) returns (bestPaths: seq<Path>)
      requires Hold(allPaths, ps)
      ensures Hold(bestPaths, BestPaths(ps))
    {
      bestPaths := [];
      ghost var best: seq<seq<Option<Turn>>> := [];
      var i := 0;
      while i < |allPaths|
        invariant 0 <= i <= |allPaths|
        invariant best == BestSteps(ps[..i]) && Hold(bestPaths, best)
      {
        var path := allPaths[i];
        assert path.turns == ps[i];
        assert Hold([path], [ps[i]]);
        assert ps[..i + 1][..i] == ps[..i];
        var score := path.GetScore();
        if bestPaths == [] {
          bestPaths := [path];
        } else {
          var firstBestPath := bestPaths[0];
          var bestScore := firstBestPath.GetScore();
          if score == bestScore {
            HoldAppend(bestPaths, [path], best, [ps[i]]);
            bestPaths := bestPaths + [path];
          } else if score > bestScore {
            bestPaths := [path];
          }
        }
        best := BestStep(best, ps[i]);
        i := i + 1;
      }
      assert ps[..i] == ps;
      BestStepsAreBest(ps);
    }

    /** `getTurn`: the first turn of one of the best paths. With no turn to
      * start a path from, that is an illegal state. The board is only read,
      * but the AI's and its opponent's scores take the points of the turns
      * played on clones. */
    method GetTurn(board: BoardImpl) returns (r: Result<Turn, Error>)
      requires Ready() && board.Valid()
      modifies player, opponent
      ensures Ready() && player.team == old(player.team)
      ensures var team := player.team.value;
              var s := SearchFrom(board.Pos(), team, turnsToLookAhead);
              (s.error.Some? ==> r == Failure(s.error.value) && s.error.value == IllegalArgument) &&
              (s.error.None? && PossibleTurns(board.Pos(), team) == [] ==> r == Failure(IllegalState)) &&
              (s.error.None? && PossibleTurns(board.Pos(), team) != [] ==>
                 r.Success? && r.value in PossibleTurns(board.Pos(), team) &&
                 exists path | path in BestPaths(s.paths) :: |path| > 0 && path[0] == Some(r.value)) &&
              player.score == old(player.score) + s.aiCredit && opponent.score == old(opponent.score) + s.opponentCredit
    {
      ghost var team := player.team.value;
      ghost var s := SearchFrom(board.Pos(), team, turnsToLookAhead);
      AllPathsSound(board.Pos(), team, turnsToLookAhead, PossibleTurns(board.Pos(), team));
      var bestPaths, done := GetBestPaths(board);
      if done.Fail? {
        return Failure(done.error);
      }
      if bestPaths == [] {
        return Failure(IllegalState);
      }
      assert bestPaths[0] in bestPaths;
      var chosen :| chosen in bestPaths;
      assert chosen.turns in BestPaths(s.paths);
      r := Success(chosen.turns[0].value);
    }
  }
}
