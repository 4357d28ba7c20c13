/** The tiles of Tally Ho: their teams, values, ranges and what they may capture.
  * A Java tile is a mutable object whose only changing property is whether it
  * is face-up; here a tile is a value carrying an identity `id` that stands for
  * the object's identity (the board compares tiles by identity). */
module Tiles {
  import opened Common

  datatype Team = Humans | Neutral | Predators

  const INTEGER_MAX_VALUE: int := 0x7fff_ffff

  type Range = r: int | 0 <= r <= INTEGER_MAX_VALUE

  /** The range of a tile that may move any distance (Java's Integer.MAX_VALUE). */
  const UNLIMITED: Range := INTEGER_MAX_VALUE

  /** The Tree and Duck classes are not part of this model: the range and value
    * of a Tree and the value of a Duck are left as unknown constants. */
  const TREE_RANGE: Range
  const TREE_VALUE: int
  const DUCK_VALUE: int

  /** The way a Hunter faces; it may only capture in that direction. */
  datatype Direction = BigX | BigY | SmallX | SmallY

  datatype Kind = Bear | Fox | Hunter(direction: Direction) | Lumberjack | Pheasant | Duck | Tree

  /** The abstract classes a tile can be an instance of, as named in `getPrey`. */
  datatype Species = HumanSpecies | PredatorSpecies | BirdSpecies | TreeSpecies

  type TileId = nat

  datatype Tile = Tile(id: TileId, kind: Kind, faceUp: bool)

  predicate IsInstance(k: Kind, s: Species) {
    match s
    case HumanSpecies => k.Hunter? || k.Lumberjack?
    case PredatorSpecies => k.Bear? || k.Fox?
    case BirdSpecies => k.Pheasant? || k.Duck?
    case TreeSpecies => k.Tree?
  }

  function TeamOf(k: Kind): Team {
    match k
    case Bear | Fox => Predators
    case Hunter(_) | Lumberjack => Humans
    case Pheasant | Duck | Tree => Neutral
  }

  function ValueOf(k: Kind): int {
    match k
    case Bear => 10
    case Fox => 5
    case Hunter(_) | Lumberjack => 5
    case Pheasant => 3
    case Duck => DUCK_VALUE
    case Tree => TREE_VALUE
  }

  function RangeOf(k: Kind): Range {
    match k
    case Bear | Lumberjack => 1
    case Fox | Hunter(_) | Pheasant | Duck => UNLIMITED
    case Tree => TREE_RANGE
  }

  /** The species a tile may capture, in the order `getPrey` lists them. */
  function PreyOf(k: Kind): seq<Species> {
    match k
    case Bear => [HumanSpecies]
    case Fox => [BirdSpecies]
    case Hunter(_) => [BirdSpecies, PredatorSpecies]
    case Lumberjack => [TreeSpecies]
    case Pheasant | Duck | Tree => []
  }

  /** `canCapture`; `None` is the null tile, which nothing can capture. */
  predicate CanCapture(k: Kind, other: Option<Kind>) {
    other.Some? &&
    match k
    case Bear => IsInstance(other.value, HumanSpecies)
    case Fox => IsInstance(other.value, BirdSpecies)
    case Hunter(_) => IsInstance(other.value, PredatorSpecies) || IsInstance(other.value, BirdSpecies)
    case Lumberjack => IsInstance(other.value, TreeSpecies)
    case Pheasant | Duck | Tree => false
  }

  function QualifiedClassName(k: Kind): string {
    "tallyho.model.tile." +
    match k
    case Bear => "Bear"
    case Fox => "Fox"
    case Hunter(_) => "Hunter"
    case Lumberjack => "Lumberjack"
    case Pheasant => "Pheasant"
    case Duck => "Duck"
    case Tree => "Tree"
  }

  /** `String.lastIndexOf(char)`: -1 when `c` does not occur. */
  function LastIndexOf(s: string, c: char): (i: int)
    ensures -1 <= i < |s|
    ensures i >= 0 ==> s[i] == c
    ensures forall j :: i < j < |s| ==> s[j] != c
  {
    if |s| == 0 then -1
    else if s[|s| - 1] == c then |s| - 1
    else LastIndexOf(s[..|s| - 1], c)
  }

  /** The part of a class name after its last dot. */
  function SimpleName(className: string): (r: string)
    ensures '.' !in r
    ensures |r| <= |className| && r == className[|className| - |r|..]
    ensures |r| < |className| ==> className[|className| - |r| - 1] == '.'
  {
    className[LastIndexOf(className, '.') + 1..]
  }

  /** `getName`: the tile's class name without its package. */
  function NameOf(k: Kind): string {
    SimpleName(QualifiedClassName(k))
  }

  /** A new tile, which is face-down. */
  function NewTile(id: TileId, kind: Kind): (t: Tile)
    ensures !t.faceUp && t.id == id && t.kind == kind
  {
    Tile(id, kind, false)
  }

  function SetFaceUp(t: Tile): (r: Tile)
    ensures r.faceUp && r.id == t.id && r.kind == t.kind
  {
    t.(faceUp := true)
  }

  /** The tile's team, value, range and prey as the tile reports them. */
  function TeamOfTile(t: Tile): Team { TeamOf(t.kind) }

  lemma CatalogueFacts(k: Kind)
    ensures TeamOf(k) == Neutral <==> IsInstance(k, BirdSpecies) || IsInstance(k, TreeSpecies)
    ensures TeamOf(k) == Humans <==> IsInstance(k, HumanSpecies)
    ensures TeamOf(k) == Predators <==> IsInstance(k, PredatorSpecies)
    ensures TeamOf(k) != Neutral ==> ValueOf(k) >= 5
    ensures IsInstance(k, BirdSpecies) ==> RangeOf(k) == UNLIMITED
  {
  }

  /** `canCapture` agrees with `getPrey`: a tile captures exactly the tiles that
    * are instances of a species it lists as prey. */
  lemma CaptureMatchesPrey(k: Kind, other: Kind)
    ensures CanCapture(k, Some(other)) <==> exists i :: 0 <= i < |PreyOf(k)| && IsInstance(other, PreyOf(k)[i])
  {
    if CanCapture(k, Some(other)) {
      match k
      case Bear => assert IsInstance(other, PreyOf(k)[0]);
      case Fox => assert IsInstance(other, PreyOf(k)[0]);
      case Lumberjack => assert IsInstance(other, PreyOf(k)[0]);
      case Hunter(_) =>
        if IsInstance(other, BirdSpecies) {
          assert IsInstance(other, PreyOf(k)[0]);
        } else {
          assert IsInstance(other, PreyOf(k)[1]);
        }
    }
  }

  /** Neutral tiles capture nothing, and no tile captures a tile of its own team. */
  lemma CaptureCrossesTeams(k: Kind, other: Option<Kind>)
    ensures TeamOf(k) == Neutral ==> !CanCapture(k, other)
    ensures CanCapture(k, other) ==> TeamOf(other.value) != TeamOf(k)
  {
  }

  /** `getName` strips the package: the name of a class in a package ending in
    * a dot is the class's own (dot-free) name. */
  lemma {:induction false} SimpleNameOfQualified(pkg: string, name: string)
    requires |pkg| > 0 && pkg[|pkg| - 1] == '.' && '.' !in name
    ensures SimpleName(pkg + name) == name
  {
    var s := pkg + name;
    assert s[|pkg| - 1] == '.';
    assert forall j :: |pkg| <= j < |s| ==> s[j] == name[j - |pkg|];
    assert LastIndexOf(s, '.') == |pkg| - 1;
    assert s[|pkg|..] == name;
  }

  lemma SimpleNames(k: Kind)
    ensures NameOf(k) == QualifiedClassName(k)[19..]
  {
    var q := QualifiedClassName(k);
    SimpleNameOfQualified(q[..19], q[19..]);
    assert q[..19] + q[19..] == q;
  }
}
