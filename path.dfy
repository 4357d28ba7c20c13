/** A line of play the look-ahead AI considers (`Path`): a first turn, then
  * the turns that follow it, alternating between the two sides. An entry may
  * be missing (Java's null) where the side to move had no turn. */
module Paths {
  import opened Common
  import opened Turns

  /** What an entry at index `i` adds to the score of the side that made the
    * first turn: its own turns count for it, the other side's against it, and
    * a missing entry counts nothing. */
  function EntryScore(i: int, entry: Option<Turn>): int {
    if entry.None? then 0 else if i % 2 == 0 then entry.value.Score() else -entry.value.Score()
  }

  /** `getScore`: the entries' contributions, summed in order. */
  function PathScore(turns: seq<Option<Turn>>): int
    decreases |turns|
  {
    if turns == [] then 0
    else PathScore(turns[..|turns| - 1]) + EntryScore(|turns| - 1, turns[|turns| - 1])
  }

  /** The score of a path seen by the side that made its first turn is that
    * turn's score minus the score of the rest of the path seen by the other
    * side: the signs alternate with the position in the path. */
  lemma {:induction false} PathScoreAlternates(turns: seq<Option<Turn>>)
    requires |turns| > 0
    ensures PathScore(turns) == EntryScore(0, turns[0]) - PathScore(turns[1..])
    decreases |turns|
  {
    if |turns| > 1 {
      var prefix := turns[..|turns| - 1];
      PathScoreAlternates(prefix);
      assert prefix[1..] == turns[1..][..|turns[1..]| - 1];
      assert EntryScore(|turns| - 1, turns[|turns| - 1]) == -EntryScore(|turns[1..]| - 1, turns[1..][|turns[1..]| - 1]);
    } else {
      assert turns[..0] == [];
    }
  }

  /** A missing entry adds nothing, but it still takes its place, so the turn
    * after it counts for the side whose place that is. */
  lemma {:induction false} MissingEntryKeepsParity(turns: seq<Option<Turn>>, next: Turn)
    ensures PathScore(turns + [None]) == PathScore(turns)
    ensures PathScore(turns + [None] + [Some(next)]) ==
            PathScore(turns) + (if |turns| % 2 == 0 then -next.Score() else next.Score())
  {
    assert (turns + [None])[..|turns|] == turns;
    assert (turns + [None] + [Some(next)])[..|turns| + 1] == turns + [None];
  }

  class Path {
    var turns: seq<Option<Turn>>

    /** A path always starts with a turn. */
    ghost predicate Valid()
      reads this
    {
      |turns| > 0 && turns[0].Some?
    }

    /** The constructor: a path of one turn. */
    constructor(firstTurn: Turn)
      ensures Valid() && turns == [Some(firstTurn)]
    {
      turns := [Some(firstTurn)];
    }

    /** The copy `clone` makes: the same entries in a list of its own. */
    constructor CopyOf(original: Path)
      ensures turns == original.turns
    {
      turns := original.turns;
    }

    /** The constructor's argument check: a missing first turn is refused. */
    static method Create(firstTurn: Option<Turn>) returns (r: Result<Path, Error>)
      ensures r.Success? <==> firstTurn.Some?
      ensures r.Failure? ==> r.error == IllegalArgument
      ensures r.Success? ==> fresh(r.value) && r.value.Valid() && r.value.turns == [firstTurn]
    {
      if firstTurn.None? {
        return Failure(IllegalArgument);
      }
      var p := new Path(firstTurn.value);
      return Success(p);
    }

    /** `addTurn`: a turn, or a missing one, goes at the end. */
    method AddTurn(turn: Option<Turn>)
      modifies this
      ensures turns == old(turns) + [turn]
      ensures old(Valid()) ==> Valid() && GetFirstTurn() == old(GetFirstTurn())
    {
      turns := turns + [turn];
    }

    /** `getFirstTurn`. */
    function GetFirstTurn(): (t: Turn)
      requires Valid()
      reads this
      ensures Some(t) == turns[0]
    {
      turns[0].value
    }

    /** `getLength`: never zero. */
    function GetLength(): (n: int)
      requires Valid()
      reads this
      ensures n == |turns| && n >= 1
    {
      |turns|
    }

    /** `getScore`: the score for the side that made the first turn. */
    method GetScore() returns (score: int)
      ensures score == PathScore(turns)
    {
      score := 0;
      var i := 0;
      while i < |turns|
        invariant 0 <= i <= |turns|
        invariant score == PathScore(turns[..i])
      {
        assert turns[..i + 1][..i] == turns[..i];
        var turn := turns[i];
        if turn.Some? {
          if i % 2 == 0 {
            score := score + turn.value.Score();
          } else {
            score := score - turn.value.Score();
          }
        }
        i := i + 1;
      }
      assert turns[..i] == turns;
    }

    /** `clone`: a new path with a copy of the list of turns. */
    method Clone() returns (c: Path)
      ensures fresh(c) && c.turns == turns
    {
      c := new Path.CopyOf(this);
    }
  }
}
