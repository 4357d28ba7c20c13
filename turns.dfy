/** The turns a player can take: flipping a tile, moving one (a Rescue is a move
  * off the board) and passing. Java's class hierarchy Turn > AbstractTurn >
  * {Flip, Move > Rescue, Pass} becomes one datatype; `IsMovement` is
  * `instanceof Move`. */
module Turns {
  import opened Common
  import opened Tiles

  datatype Turn =
    | Flip(team: Team, x: int, y: int, tile: Tile)
    | Move(team: Team, fromX: int, fromY: int, toX: int, toY: int, score: int)
    | Rescue(team: Team, fromX: int, fromY: int, toX: int, toY: int, score: int)
    | Pass(team: Team)
  {
    /** `instanceof Move`: a Rescue is a Move too. */
    predicate IsMovement() { Move? || Rescue? }

    /** `getScore`: a flip and a pass are built with score 0. */
    function Score(): int { if IsMovement() then score else 0 }
  }

  const INTEGER_MIN_VALUE: int := -0x8000_0000

  /** Java's `(int)` cast of a double: truncation toward zero, saturating at
    * the bounds of `int`. (NaN and infinities are not modelled.) */
  function DoubleToInt(d: real): (i: int)
    ensures INTEGER_MIN_VALUE <= i <= INTEGER_MAX_VALUE
    ensures INTEGER_MIN_VALUE as real <= d <= INTEGER_MAX_VALUE as real ==>
      (if d >= 0.0 then i as real <= d < i as real + 1.0 else i as real - 1.0 < d <= i as real)
  {
    if d >= INTEGER_MAX_VALUE as real then INTEGER_MAX_VALUE
    else if d <= INTEGER_MIN_VALUE as real then INTEGER_MIN_VALUE
    else if d >= 0.0 then d.Floor
    else -((-d).Floor)
  }

  /** The Flip constructor, which takes its coordinates as doubles. */
  function NewFlip(team: Team, x: real, y: real, tile: Tile): (f: Turn)
    ensures f.Flip? && f.team == team && f.tile == tile && f.Score() == 0
    ensures f.x == DoubleToInt(x) && f.y == DoubleToInt(y)
  {
    Flip(team, DoubleToInt(x), DoubleToInt(y), tile)
  }

  /** Whole-number coordinates pass through the Flip constructor unchanged. */
  lemma FlipKeepsIntegralCoordinates(team: Team, x: int, y: int, tile: Tile)
    requires INTEGER_MIN_VALUE <= x <= INTEGER_MAX_VALUE && INTEGER_MIN_VALUE <= y <= INTEGER_MAX_VALUE
    ensures NewFlip(team, x as real, y as real, tile) == Flip(team, x, y, tile)
  {
  }

  /** `Move.reverses`: `m` goes back from where `other` went to where it came from. */
  predicate Reverses(m: Turn, other: Option<Turn>)
    requires m.IsMovement()
  {
    other.Some? && other.value.IsMovement() &&
    m.fromX == other.value.toX && m.fromY == other.value.toY &&
    m.toX == other.value.fromX && m.toY == other.value.fromY
  }

  /** Reversal is symmetric, and no move reverses itself unless it goes nowhere. */
  lemma ReversesSymmetric(a: Turn, b: Turn)
    requires a.IsMovement() && b.IsMovement()
    ensures Reverses(a, Some(b)) <==> Reverses(b, Some(a))
    ensures Reverses(a, Some(a)) <==> a.fromX == a.toX && a.fromY == a.toY
    ensures !Reverses(a, None)
  {
  }

  /** Java's `equals` on movements, dispatched on the class of `m`: a Move equals
    * any Move (a Rescue included) with the same four coordinates; a Rescue
    * equals only a Rescue from the same square. */
  predicate MovementEquals(m: Turn, other: Option<Turn>)
    requires m.IsMovement()
  {
    other.Some? &&
    if m.Rescue? then
      other.value.Rescue? && other.value.fromX == m.fromX && other.value.fromY == m.fromY
    else
      other.value.IsMovement() &&
      other.value.fromX == m.fromX && other.value.fromY == m.fromY &&
      other.value.toX == m.toX && other.value.toY == m.toY
  }

  /** A Java `int` result of arithmetic done on unbounded integers: reduction
    * into [-2^31, 2^31). Java's wrap-around at each step gives the same value. */
  function Int32(v: int): (r: int)
    ensures INTEGER_MIN_VALUE <= r <= INTEGER_MAX_VALUE
    ensures (r - v) % 0x1_0000_0000 == 0
    ensures INTEGER_MIN_VALUE <= v <= INTEGER_MAX_VALUE ==> r == v
  {
    (v - INTEGER_MIN_VALUE) % 0x1_0000_0000 + INTEGER_MIN_VALUE
  }

  /** `hashCode`, dispatched on the class of `m`. */
  function HashCode(m: Turn): int
    requires m.IsMovement()
  {
    if m.Rescue? then Int32(m.fromX * MAX_SIZE + m.fromY)
    else Int32(m.fromX + m.fromY * MAX_SIZE + m.toX * MAX_SIZE * MAX_SIZE
                    + m.toY * MAX_SIZE * MAX_SIZE * MAX_SIZE)
  }

  /** The corrected equality: a Rescue and a plain Move are never equal, so
    * equality is symmetric; a Rescue is identified by its origin. */
  predicate MovementEqualsFixed(m: Turn, other: Option<Turn>)
    requires m.IsMovement()
  {
    other.Some? &&
    if m.Rescue? then
      other.value.Rescue? && other.value.fromX == m.fromX && other.value.fromY == m.fromY
    else
      other.value.Move? &&
      other.value.fromX == m.fromX && other.value.fromY == m.fromY &&
      other.value.toX == m.toX && other.value.toY == m.toY
  }

  predicate OnBoardCoordinate(c: int) { 0 <= c < MAX_SIZE }

  lemma {:induction false} Base19Digits(lo: int, hi: int)
    requires 0 <= lo < MAX_SIZE
    ensures (lo + hi * MAX_SIZE) % MAX_SIZE == lo
    ensures (lo + hi * MAX_SIZE) / MAX_SIZE == hi
  {
  }

  /** The Move hash code is the base-19 number with digits fromX, fromY, toX,
    * toY, so it tells apart any two moves between squares of the largest board. */
  lemma {:induction false} MoveHashInjective(a: Turn, b: Turn)
    requires a.Move? && b.Move?
    requires OnBoardCoordinate(a.fromX) && OnBoardCoordinate(a.fromY) && OnBoardCoordinate(a.toX) && OnBoardCoordinate(a.toY)
    requires OnBoardCoordinate(b.fromX) && OnBoardCoordinate(b.fromY) && OnBoardCoordinate(b.toX) && OnBoardCoordinate(b.toY)
    ensures HashCode(a) == HashCode(b) <==> MovementEquals(a, Some(b))
  {
    var ha := a.fromX + (a.fromY + (a.toX + a.toY * MAX_SIZE) * MAX_SIZE) * MAX_SIZE;
    var hb := b.fromX + (b.fromY + (b.toX + b.toY * MAX_SIZE) * MAX_SIZE) * MAX_SIZE;
    assert 0 <= ha < 0x1_0000_0000 / 2 && 0 <= hb < 0x1_0000_0000 / 2;
    assert HashCode(a) == ha && HashCode(b) == hb;
    if ha == hb {
      Base19Digits(a.fromX, a.fromY + (a.toX + a.toY * MAX_SIZE) * MAX_SIZE);
      Base19Digits(b.fromX, b.fromY + (b.toX + b.toY * MAX_SIZE) * MAX_SIZE);
      Base19Digits(a.fromY, a.toX + a.toY * MAX_SIZE);
      Base19Digits(b.fromY, b.toX + b.toY * MAX_SIZE);
      Base19Digits(a.toX, a.toY);
      Base19Digits(b.toX, b.toY);
    }
  }

  /** The Rescue hash code is the base-19 number with digits fromY, fromX, so
    * it tells apart any two rescues from squares of the largest board, which
    * is what its equality compares. */
  lemma {:induction false} RescueHashInjective(a: Turn, b: Turn)
    requires a.Rescue? && b.Rescue?
    requires OnBoardCoordinate(a.fromX) && OnBoardCoordinate(a.fromY)
    requires OnBoardCoordinate(b.fromX) && OnBoardCoordinate(b.fromY)
    ensures HashCode(a) == HashCode(b) <==> MovementEquals(a, Some(b))
  {
    var ha := a.fromY + a.fromX * MAX_SIZE;
    var hb := b.fromY + b.fromX * MAX_SIZE;
    assert HashCode(a) == ha && HashCode(b) == hb;
    if ha == hb {
      Base19Digits(a.fromY, a.fromX);
      Base19Digits(b.fromY, b.fromX);
    }
  }

  /** As written, Move and Rescue break Java's equals contract: a Move equals a
    * Rescue with the same coordinates, the Rescue does not equal the Move, and
    * the two hash differently. */
  lemma MoveRescueEqualityAsymmetric()
    ensures var m := Move(Humans, 0, 3, -1, 3, 0);
            var r := Rescue(Humans, 0, 3, -1, 3, 5);
            MovementEquals(m, Some(r)) && !MovementEquals(r, Some(m)) && HashCode(m) != HashCode(r)
  {
  }

  /** The corrected equality is symmetric and agrees with the hash codes. */
  lemma MovementEqualsFixedConsistent(a: Turn, b: Turn)
    requires a.IsMovement() && b.IsMovement()
    ensures MovementEqualsFixed(a, Some(b)) <==> MovementEqualsFixed(b, Some(a))
    ensures MovementEqualsFixed(a, Some(b)) ==> HashCode(a) == HashCode(b)
    ensures MovementEqualsFixed(a, Some(a))
  {
  }
}
