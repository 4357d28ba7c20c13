/** A player's score, name and team (`AbstractPlayer`). */
module Players {
  import opened Common
  import opened Tiles

  /** The longest name a player may have. */
  const MAX_NAME_LENGTH: int := 20

  /** The UTF-16 code units a character takes: two (a surrogate pair) beyond
    * the Basic Multilingual Plane, one otherwise. */
  function CodeUnits(c: char): nat {
    if c as int >= 0x1_0000 then 2 else 1
  }

  /** `String.length()`: a name's length in UTF-16 code units, which is its
    * number of characters exactly when none lies beyond the Basic
    * Multilingual Plane. */
  function Utf16Length(s: string): (n: nat)
    ensures |s| <= n <= 2 * |s|
    ensures n == |s| <==> forall i | 0 <= i < |s| :: s[i] as int < 0x1_0000
    decreases |s|
  {
    if s == [] then 0
    else
      assert forall i | 1 <= i < |s| :: s[1..][i - 1] == s[i];
      CodeUnits(s[0]) + Utf16Length(s[1..])
  }

  /** A name made only of characters beyond the Basic Multilingual Plane is
    * twice as long as its number of characters: eleven of them exceed the
    * limit. */
  lemma {:induction false} SupplementaryCharactersCountTwice(s: string)
    requires forall i | 0 <= i < |s| :: s[i] as int >= 0x1_0000
    ensures Utf16Length(s) == 2 * |s|
    decreases |s|
  {
    if s != [] {
      SupplementaryCharactersCountTwice(s[1..]);
    }
  }

  class Player {
    var name: Option<string>
    var score: int
    var team: Option<Team>

    /** A player's score never goes below zero. */
    ghost predicate Valid()
      reads this
    {
      score >= 0 && (team.Some? ==> team.value != Neutral) &&
      (name.Some? ==> Utf16Length(name.value) <= MAX_NAME_LENGTH)
    }

    /** A new player: no name, no team, no points. */
    constructor()
      ensures Valid() && name == None && score == 0 && team == None
    {
      name := None;
      score := 0;
      team := None;
    }

    /** `addToScore`: only a positive number of points may be added. */
    method AddToScore(points: int) returns (r: Outcome<Error>)
      modifies this
      ensures r == Ok <==> points > 0
      ensures r.Fail? ==> r.error == IllegalArgument && score == old(score)
      ensures r == Ok ==> score == old(score) + points
      ensures name == old(name) && team == old(team)
      ensures old(Valid()) ==> Valid() && score >= old(score)
    {
      if points <= 0 {
        return Fail(IllegalArgument);
      }
      score := score + points;
      return Ok;
    }

    /** `setName`: a name is required and may have at most MAX_NAME_LENGTH
      * UTF-16 code units. */
    method SetName(newName: Option<string>) returns (r: Outcome<Error>)
      modifies this
      ensures r == Ok <==> newName.Some? && Utf16Length(newName.value) <= MAX_NAME_LENGTH
      ensures r.Fail? ==> r.error == IllegalArgument && name == old(name)
      ensures r == Ok ==> name == newName
      ensures score == old(score) && team == old(team)
      ensures old(Valid()) ==> Valid()
    {
      if newName.None? || Utf16Length(newName.value) > MAX_NAME_LENGTH {
        return Fail(IllegalArgument);
      }
      name := newName;
      return Ok;
    }

    /** `setTeam`: a player may not be neutral; an absent team is accepted. */
    method SetTeam(newTeam: Option<Team>) returns (r: Outcome<Error>)
      modifies this
      ensures r == Ok <==> newTeam != Some(Neutral)
      ensures r.Fail? ==> r.error == IllegalArgument && team == old(team)
      ensures r == Ok ==> team == newTeam
      ensures score == old(score) && name == old(name)
      ensures old(Valid()) ==> Valid()
    {
      if newTeam == Some(Neutral) {
        return Fail(IllegalArgument);
      }
      team := newTeam;
      return Ok;
    }
  }
}
