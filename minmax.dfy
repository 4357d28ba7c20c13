/** The min-max tree of turns (`MinMaxTreeImpl`): below a dummy root, each
  * node holds a turn and the turns that may follow it. A node is worth its
  * turn's score plus the worst of its children for the searching team when
  * that team made the node's turn (the other side answers), and the best of
  * them otherwise. The tree builder never adds a node below the root, so the
  * value functions are stated over a tree given explicitly. */
module MinMax {
  import opened Common
  import opened Tiles
  import opened Turns
  import opened BoardImpls

  datatype TurnNode = TurnNode(turn: Turn, children: seq<TurnNode>)

  /** `getMinMaxValue`. */
  function MinMaxValue(node: TurnNode, team: Team): int
    decreases node, 1
  {
    node.turn.Score() +
    if node.children == [] then 0
    else if team == node.turn.team then MinimumChildValue(node.children, team)
    else MaximumChildValue(node.children, team)
  }

  /** `getMinimumChildValue`: the smallest value among the children. */
  function MinimumChildValue(children: seq<TurnNode>, team: Team): int
    requires children != []
    decreases children, 0
  {
    var last := children[|children| - 1];
    if |children| == 1 then MinMaxValue(last, team)
    else
      var m := MinimumChildValue(children[..|children| - 1], team);
      if MinMaxValue(last, team) < m then MinMaxValue(last, team) else m
  }

  /** `getMaximumChildValue`: the largest value among the children. */
  function MaximumChildValue(children: seq<TurnNode>, team: Team): int
    requires children != []
    decreases children, 0
  {
    var last := children[|children| - 1];
    if |children| == 1 then MinMaxValue(last, team)
    else
      var m := MaximumChildValue(children[..|children| - 1], team);
      if MinMaxValue(last, team) > m then MinMaxValue(last, team) else m
  }

  /** The minimum child value is no more than any child's value, and it is
    * one child's value. */
  lemma {:induction false} MinimumChildValueIsLeast(children: seq<TurnNode>, team: Team)
    requires children != []
    ensures forall c | c in children :: MinimumChildValue(children, team) <= MinMaxValue(c, team)
    ensures exists c | c in children :: MinimumChildValue(children, team) == MinMaxValue(c, team)
    decreases |children|
  {
    var last := children[|children| - 1];
    if |children| > 1 {
      var prefix := children[..|children| - 1];
      MinimumChildValueIsLeast(prefix, team);
      assert children == prefix + [last];
      var c :| c in prefix && MinimumChildValue(prefix, team) == MinMaxValue(c, team);
      assert c in children;
    } else {
      assert children == [last];
    }
  }

  /** The maximum child value is no less than any child's value, and it is
    * one child's value. */
  lemma {:induction false} MaximumChildValueIsGreatest(children: seq<TurnNode>, team: Team)
    requires children != []
    ensures forall c | c in children :: MinMaxValue(c, team) <= MaximumChildValue(children, team)
    ensures exists c | c in children :: MaximumChildValue(children, team) == MinMaxValue(c, team)
    decreases |children|
  {
    var last := children[|children| - 1];
    if |children| > 1 {
      var prefix := children[..|children| - 1];
      MaximumChildValueIsGreatest(prefix, team);
      assert children == prefix + [last];
      var c :| c in prefix && MaximumChildValue(prefix, team) == MinMaxValue(c, team);
      assert c in children;
    } else {
      assert children == [last];
    }
  }

  /** What a node is worth: a leaf its turn's score; after a turn of the
    * searching team, the score plus the value of the child that is worst for
    * it, and no more than the score plus any child's value; after a turn of
    * the other side, the score plus the best child's value. */
  lemma MinMaxValueBounds(node: TurnNode, team: Team)
    ensures node.children == [] ==> MinMaxValue(node, team) == node.turn.Score()
    ensures node.children != [] && team == node.turn.team ==>
              (forall c | c in node.children :: MinMaxValue(node, team) <= node.turn.Score() + MinMaxValue(c, team)) &&
              (exists c | c in node.children :: MinMaxValue(node, team) == node.turn.Score() + MinMaxValue(c, team))
    ensures node.children != [] && team != node.turn.team ==>
              (forall c | c in node.children :: MinMaxValue(node, team) >= node.turn.Score() + MinMaxValue(c, team)) &&
              (exists c | c in node.children :: MinMaxValue(node, team) == node.turn.Score() + MinMaxValue(c, team))
  {
    if node.children != [] {
      if team == node.turn.team {
        MinimumChildValueIsLeast(node.children, team);
        var c :| c in node.children && MinimumChildValue(node.children, team) == MinMaxValue(c, team);
      } else {
        MaximumChildValueIsGreatest(node.children, team);
        var c :| c in node.children && MaximumChildValue(node.children, team) == MinMaxValue(c, team);
      }
    }
  }

  /** The nodes worth `v`, in their order. */
  function WithValue(nodes: seq<TurnNode>, team: Team, v: int): (r: seq<TurnNode>)
    ensures forall n | n in r :: n in nodes && MinMaxValue(n, team) == v
    ensures forall n | n in nodes && MinMaxValue(n, team) == v :: n in r
    decreases |nodes|
  {
    if nodes == [] then []
    else
      var last := nodes[|nodes| - 1];
      assert nodes == nodes[..|nodes| - 1] + [last];
      WithValue(nodes[..|nodes| - 1], team, v) + if MinMaxValue(last, team) == v then [last] else []
  }

  lemma NoneWithValue(nodes: seq<TurnNode>, team: Team, v: int)
    requires forall n | n in nodes :: MinMaxValue(n, team) < v
    ensures WithValue(nodes, team, v) == []
  {
  }

  /** One more child: the minimum, the maximum and the nodes of a value each
    * take it in the way the loops over the children do. */
  lemma ChildAppend(children: seq<TurnNode>, c: TurnNode, team: Team, v: int)
    requires children != []
    ensures var u := MinMaxValue(c, team);
            MinimumChildValue(children + [c], team) == (if u < MinimumChildValue(children, team) then u else MinimumChildValue(children, team)) &&
            MaximumChildValue(children + [c], team) == (if u > MaximumChildValue(children, team) then u else MaximumChildValue(children, team)) &&
            WithValue(children + [c], team, v) == WithValue(children, team, v) + (if u == v then [c] else [])
  {
    assert (children + [c])[..|children|] == children;
  }

  /** The best next nodes: the root's children with the highest value, in
    * their order; never empty, and no child is worth more than one of them. */
  function BestNodes(rootChildren: seq<TurnNode>, team: Team): (r: seq<TurnNode>)
    requires rootChildren != []
    ensures r != []
    ensures forall n | n in r :: n in rootChildren && forall c | c in rootChildren :: MinMaxValue(c, team) <= MinMaxValue(n, team)
    ensures forall c | c in rootChildren && MinMaxValue(c, team) == MaximumChildValue(rootChildren, team) :: c in r
  {
    MaximumChildValueIsGreatest(rootChildren, team);
    WithValue(rootChildren, team, MaximumChildValue(rootChildren, team))
  }

  /** `getMinMaxValue`, recursing through the children. */
  method GetMinMaxValue(node: TurnNode, team: Team) returns (v: int)
    ensures v == MinMaxValue(node, team)
    decreases node, 1
  {
    v := node.turn.Score();
    if node.children != [] {
      if team == node.turn.team {
        var m := GetMinimumChildValue(node, team);
        v := v + m;
      } else {
        var m := GetMaximumChildValue(node, team);
        v := v + m;
      }
    }
  }

  /** `getMinimumChildValue`: the first child's value, replaced by any
    * smaller one. */
  method GetMinimumChildValue(node: TurnNode, team: Team) returns (minimumChild: int)
    requires node.children != []
    ensures minimumChild == MinimumChildValue(node.children, team)
    decreases node, 0
  {
    var children := node.children;
    minimumChild := GetMinMaxValue(children[0], team);
    assert children[..1] == [children[0]];
    var i := 1;
    while i < |children|
      invariant 1 <= i <= |children|
      invariant minimumChild == MinimumChildValue(children[..i], team)
    {
      assert children[..i + 1] == children[..i] + [children[i]];
      ChildAppend(children[..i], children[i], team, 0);
      var childValue := GetMinMaxValue(children[i], team);
      if childValue < minimumChild {
        minimumChild := childValue;
      }
      i := i + 1;
    }
    assert children[..i] == children;
  }

  /** `getMaximumChildValue`: the first child's value, replaced by any
    * larger one. */
  method GetMaximumChildValue(node: TurnNode, team: Team) returns (maximumChild: int)
    requires node.children != []
    ensures maximumChild == MaximumChildValue(node.children, team)
    decreases node, 0
  {
    var children := node.children;
    maximumChild := GetMinMaxValue(children[0], team);
    assert children[..1] == [children[0]];
    var i := 1;
    while i < |children|
      invariant 1 <= i <= |children|
      invariant maximumChild == MaximumChildValue(children[..i], team)
    {
      assert children[..i + 1] == children[..i] + [children[i]];
      ChildAppend(children[..i], children[i], team, 0);
      var childValue := GetMinMaxValue(children[i], team);
      if childValue > maximumChild {
        maximumChild := childValue;
      }
      i := i + 1;
    }
    assert children[..i] == children;
  }

  class MinMaxTreeImpl {
    /** The turn tree, as the children of its dummy root. */
    var rootChildren: seq<TurnNode>
    /** The team whose turn is being chosen. */
    const team: Team

    /** The constructor: `generateTurnTree` makes a root with no children. */
    constructor(team: Team, board: BoardImpl, depth: nat)
      ensures this.team == team && rootChildren == []
    {
      this.team := team;
      rootChildren := [];
    }

    /** The constructor's argument check: a negative depth is refused. */
    static method Create(team: Team, board: BoardImpl, depth: int) returns (r: Result<MinMaxTreeImpl, Error>)
      ensures r.Success? <==> depth >= 0
      ensures r.Failure? ==> r.error == IllegalArgument
      ensures r.Success? ==> fresh(r.value) && r.value.team == team && r.value.rootChildren == []
    {
      if depth < 0 {
        return Failure(IllegalArgument);
      }
      var tree := new MinMaxTreeImpl(team, board, depth);
      return Success(tree);
    }

    /** `getBestNextNodes`: a root with no children is an illegal state;
      * otherwise the children with the highest value, in order. */
    method GetBestNextNodes() returns (r: Result<seq<TurnNode>, Error>)
      ensures rootChildren == [] ==> r == Failure(IllegalState)
      ensures rootChildren != [] ==> r == Success(BestNodes(rootChildren, team))
    {
      var root := rootChildren;
      if |root| == 0 {
        return Failure(IllegalState);
      }
      var bestNextNodes := [root[0]];
      var highestMinMaxValue := GetMinMaxValue(root[0], team);
      assert root[..1] == [root[0]];
      var i := 1;
      while i < |root|
        invariant 1 <= i <= |root|
        invariant highestMinMaxValue == MaximumChildValue(root[..i], team)
        invariant bestNextNodes == WithValue(root[..i], team, highestMinMaxValue)
      {
        var rootChild := root[i];
        assert root[..i + 1] == root[..i] + [rootChild];
        var rootChildMinMaxValue := GetMinMaxValue(rootChild, team);
        ChildAppend(root[..i], rootChild, team, highestMinMaxValue);
        if rootChildMinMaxValue == highestMinMaxValue {
          bestNextNodes := bestNextNodes + [rootChild];
        } else if rootChildMinMaxValue > highestMinMaxValue {
          MaximumChildValueIsGreatest(root[..i], team);
          NoneWithValue(root[..i], team, rootChildMinMaxValue);
          ChildAppend(root[..i], rootChild, team, rootChildMinMaxValue);
          bestNextNodes := [rootChild];
          highestMinMaxValue := rootChildMinMaxValue;
        }
        i := i + 1;
      }
      assert root[..i] == root;
      return Success(bestNextNodes);
    }

    /** `getBestTurn`: the turn of any one of the best next nodes; none when
      * the root has no children, as after the constructor. */
    method GetBestTurn() returns (r: Result<Turn, Error>)
      ensures rootChildren == [] ==> r == Failure(IllegalState)
      ensures rootChildren != [] ==>
                r.Success? && exists n | n in BestNodes(rootChildren, team) :: n.turn == r.value
    {
      var bestNextNodes := GetBestNextNodes();
      if bestNextNodes.Failure? {
        return Failure(bestNextNodes.error);
      }
      assert bestNextNodes.value[0] in bestNextNodes.value;
      var chosen :| chosen in bestNextNodes.value;
      return Success(chosen.turn);
    }
  }
}
