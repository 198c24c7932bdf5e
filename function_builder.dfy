/**
  The `NodeBuilder` result builder and the `Group` it feeds
  (FunctionBuilder page, Sources/Group.swift).

  A builder block lists `Nodeable` children; each child flattens to a list of
  nodes (`buildNodes`), and a group's `nodes` are those lists concatenated in
  order.
 */
module FunctionBuilder {
  import opened Wrappers

  /** The conformers of the `Nodeable` protocol that the page defines. */
  datatype Nodeable =
    | Cell(text: string)             // default conformance: flattens to itself
    | EmptyNode                      // flattens to nothing
    | Opt(wrapped: Option<Nodeable>) // `Optional<Wrapped: Nodeable>`

  /** `Group<Nodeable>`: the flat list of nodes built for it. */
  datatype Group = Group(nodes: seq<Nodeable>)

  predicate AllCells(ns: seq<Nodeable>) {
    forall i :: 0 <= i < |ns| ==> ns[i].Cell?
  }

  /** True when some cell is reachable from `n` through present optionals. */
  predicate HoldsCell(n: Nodeable) {
    match n
    case Cell(_) => true
    case EmptyNode => false
    case Opt(None) => false
    case Opt(Some(w)) => HoldsCell(w)
  }

  // ---------------------------------------------------------------------------
  // Nodeable.buildNodes

  /** `n.buildNodes()`: a cell yields itself, an empty node or `nil` yields
      nothing, a present optional yields what its wrapped node yields. */
  function BuildNodes(n: Nodeable): (r: seq<Nodeable>)
    ensures |r| <= 1 && AllCells(r)
    ensures r != [] <==> HoldsCell(n)
  {
    match n
    case Cell(_) => [n]
    case EmptyNode => []
    case Opt(None) => []
    case Opt(Some(w)) => BuildNodes(w)
  }

  lemma CellBuildsItself(text: string)
    ensures BuildNodes(Cell(text)) == [Cell(text)]
  {
  }

  lemma EmptyNodeBuildsNothing()
    ensures BuildNodes(EmptyNode) == []
  {
  }

  /** An optional is transparent: `nil` contributes nothing, a present value
      contributes exactly what the value contributes. */
  lemma OptionalIsTransparent(n: Option<Nodeable>)
    ensures n.None? ==> BuildNodes(Opt(n)) == []
    ensures n.Some? ==> BuildNodes(Opt(n)) == BuildNodes(n.value)
  {
  }

  /** Flattening is a projection: each node it yields flattens to itself. */
  lemma BuildNodesIdempotent(n: Nodeable)
    ensures forall i :: 0 <= i < |BuildNodes(n)| ==> BuildNodes(BuildNodes(n)[i]) == [BuildNodes(n)[i]]
  {
  }

  // ---------------------------------------------------------------------------
  // NodeBuilder

  /** `buildBlock()`: the empty block, built as `EmptyNode().buildNodes()`. */
  function BuildEmptyBlock(): (r: seq<Nodeable>)
    ensures r == []
  {
    BuildNodes(EmptyNode)
  }

  /** `buildBlock(_ nodes: Nodeable...)`: the children, in order. */
  function BuildBlock(children: seq<Nodeable>): (r: seq<Nodeable>)
    ensures |r| == |children|
    ensures forall i :: 0 <= i < |r| ==> r[i] == children[i]
  {
    children
  }

  /** `buildIf`: an absent `if` branch becomes an `EmptyNode`. */
  function BuildIf(n: Option<Nodeable>): (r: Nodeable)
    ensures BuildNodes(r) == BuildNodes(Opt(n))
    ensures n.None? ==> r == EmptyNode
    ensures n.Some? ==> r == n.value
  {
    match n
    case Some(v) => v
    case None => EmptyNode
  }

  /** `buildEither(first:)`: the taken `if` branch, unchanged. */
  function BuildEitherFirst(first: Nodeable): (r: Nodeable)
    ensures r == first
  {
    first
  }

  /** `buildEither(second:)`: the taken `else` branch, unchanged. */
  function BuildEitherSecond(second: Nodeable): (r: Nodeable)
    ensures r == second
  {
    second
  }

  // ---------------------------------------------------------------------------
  // Group

  /** `data.flatMap { node($0).buildNodes() }`. */
  function FlatMapNodes<T>(data: seq<T>, node: T -> Nodeable): (r: seq<Nodeable>)
    ensures |r| <= |data| && AllCells(r)
  {
    if data == [] then [] else BuildNodes(node(data[0])) + FlatMapNodes(data[1..], node)
  }

  /** `Group(of: data, node: node)`. */
  function GroupOf<T>(data: seq<T>, node: T -> Nodeable): (g: Group)
    ensures |g.nodes| <= |data| && AllCells(g.nodes)
  {
    Group(FlatMapNodes(data, node))
  }

  /** `Group { ... }` with the block's children: the flattened children.
      The `compactMap { $0 }` of the source runs over non-optional values and
      keeps every one of them, so it does not appear here. */
  function GroupOfBlock(block: seq<Nodeable>): (g: Group)
    ensures |g.nodes| <= |block| && AllCells(g.nodes)
  {
    Group(FlatMapNodes(BuildBlock(block), n => n))
  }

  /** Flattening distributes over concatenation of the input. */
  lemma {:induction false} FlatMapNodesAppend<T>(a: seq<T>, b: seq<T>, node: T -> Nodeable)
    ensures FlatMapNodes(a + b, node) == FlatMapNodes(a, node) + FlatMapNodes(b, node)
  {
    if a == [] {
      assert a + b == b;
    } else {
      assert (a + b)[1..] == a[1..] + b;
      FlatMapNodesAppend(a[1..], b, node);
    }
  }

  /** Each element contributes its own flattened node, in input order. */
  lemma FlatMapNodesSingle<T>(x: T, node: T -> Nodeable)
    ensures FlatMapNodes([x], node) == BuildNodes(node(x))
  {
  }

  /** With a closure that always makes a cell, the group holds exactly one
      node per element: the cell made for it. */
  lemma {:induction false} GroupOfCellsKeepsEveryElement<T>(data: seq<T>, node: T -> Nodeable)
    requires forall x :: node(x).Cell?
    ensures |GroupOf(data, node).nodes| == |data|
    ensures forall i :: 0 <= i < |data| ==> GroupOf(data, node).nodes[i] == node(data[i])
  {
    if data != [] {
      GroupOfCellsKeepsEveryElement(data[1..], node);
      assert node(data[0]).Cell?;
      CellBuildsItself(node(data[0]).text);
      var r := FlatMapNodes(data, node);
      assert r == [node(data[0])] + FlatMapNodes(data[1..], node);
      forall i | 0 <= i < |data|
        ensures r[i] == node(data[i])
      {
        if i > 0 {
          assert r[i] == FlatMapNodes(data[1..], node)[i - 1];
          assert data[1..][i - 1] == data[i];
        }
      }
    }
  }

  /** A block made only of cells yields a group of exactly those cells. */
  lemma {:induction false} GroupOfCellBlock(block: seq<Nodeable>)
    requires AllCells(block)
    ensures GroupOfBlock(block).nodes == block
  {
    if block != [] {
      GroupOfCellBlock(block[1..]);
      assert block[0].Cell?;
      CellBuildsItself(block[0].text);
      assert block == [block[0]] + block[1..];
    }
  }

  /** An `if` whose condition is false contributes nothing: the group is the
      group of the surrounding children alone. */
  lemma AbsentIfContributesNothing(before: seq<Nodeable>, after: seq<Nodeable>)
    ensures GroupOfBlock(before + [BuildIf(None)] + after).nodes
         == GroupOfBlock(before + after).nodes
  {
    var id := (n: Nodeable) => n;
    FlatMapNodesAppend(before + [BuildIf(None)], after, id);
    FlatMapNodesAppend(before, [BuildIf(None)], id);
    FlatMapNodesSingle(BuildIf(None), id);
    FlatMapNodesAppend(before, after, id);
  }

  /** An `if`/`else` contributes exactly the nodes of the branch taken. */
  lemma IfElseContributesTakenBranch(before: seq<Nodeable>, c: bool, a: Nodeable, b: Nodeable, after: seq<Nodeable>)
    ensures GroupOfBlock(before + [if c then BuildEitherFirst(a) else BuildEitherSecond(b)] + after).nodes
         == GroupOfBlock(before).nodes + BuildNodes(if c then a else b) + GroupOfBlock(after).nodes
  {
    var id := (n: Nodeable) => n;
    var chosen := if c then a else b;
    FlatMapNodesAppend(before + [chosen], after, id);
    FlatMapNodesAppend(before, [chosen], id);
    FlatMapNodesSingle(chosen, id);
  }

  /** The page's group of four cells "a", "b", "c", "d" holds those four nodes. */
  lemma FourCellGroup()
    ensures GroupOfBlock([Cell("a"), Cell("b"), Cell("c"), Cell("d")]).nodes
         == [Cell("a"), Cell("b"), Cell("c"), Cell("d")]
  {
  }

  /** `Group(of: ["a", "b", "c"]) { Cell($0) }` holds one cell per string. */
  lemma GroupOfThreeStrings()
    ensures GroupOf(["a", "b", "c"], (s: string) => Cell(s)).nodes == [Cell("a"), Cell("b"), Cell("c")]
  {
  }
}
