/** findFuncs and FuncVisitor: collecting the extents of a file's function
    declarations from its syntax tree. Parsing and position computation are
    external; the tree is given as the sequence of nodes ast.Walk visits. */
module FuncFinder {
  import opened Profiles
  import opened Matcher

  /** A syntax-tree node as the visitor sees it: a function declaration, with
      the positions of its Pos() and End(), or a node of any other kind. */
  datatype Node = FuncDecl(name: string, pos: Position, end: Position) | OtherNode

  /** The extent recorded for a declaration node. */
  function ExtentOf(n: Node): FuncExtent
    requires n.FuncDecl?
  {
    FuncExtent(n.name, n.pos.line, n.pos.col, n.end.line, n.end.col)
  }

  /** The extents of the declaration nodes, in walk order. */
  function FuncDecls(nodes: seq<Node>): seq<FuncExtent> {
    if nodes == [] then []
    else
      var last := nodes[|nodes| - 1];
      FuncDecls(nodes[..|nodes| - 1]) + (if last.FuncDecl? then [ExtentOf(last)] else [])
  }

  /** FuncVisitor: the visitor whose funcs field grows as the walk proceeds. */
  class FuncVisitor {
    const name: string
    var funcs: seq<FuncExtent>

    constructor (name: string)
      ensures this.name == name && funcs == []
    {
      this.name := name;
      funcs := [];
    }

    /** Visit: appends the extent of a function declaration, ignores any other node. */
    method Visit(node: Node)
      modifies this
      ensures funcs == if node.FuncDecl? then old(funcs) + [ExtentOf(node)] else old(funcs)
    {
      match node {
        case FuncDecl(_, _, _) =>
          funcs := funcs + [ExtentOf(node)];
        case OtherNode =>
      }
    }
  }

  /** findFuncs: walks the nodes with a fresh visitor and returns what it collected. */
  method FindFuncs(name: string, nodes: seq<Node>) returns (funcs: seq<FuncExtent>)
    ensures funcs == FuncDecls(nodes)
    ensures forall e :: e in funcs <==>
      exists i :: 0 <= i < |nodes| && nodes[i].FuncDecl? && ExtentOf(nodes[i]) == e
  {
    var visitor := new FuncVisitor(name);
    for i := 0 to |nodes|
      invariant visitor.funcs == FuncDecls(nodes[..i])
    {
      assert nodes[..i + 1][..i] == nodes[..i];
      visitor.Visit(nodes[i]);
    }
    assert nodes[..|nodes|] == nodes;
    funcs := visitor.funcs;
    FuncDeclsMembers(nodes);
  }

  /** An extent is collected exactly when some declaration node has it. */
  lemma {:induction false} FuncDeclsMembers(nodes: seq<Node>)
    ensures forall e :: e in FuncDecls(nodes) <==>
      exists i :: 0 <= i < |nodes| && nodes[i].FuncDecl? && ExtentOf(nodes[i]) == e
  {
    if nodes != [] {
      var init := nodes[..|nodes| - 1];
      FuncDeclsMembers(init);
      forall e | e in FuncDecls(nodes)
        ensures exists i :: 0 <= i < |nodes| && nodes[i].FuncDecl? && ExtentOf(nodes[i]) == e
      {
        if e in FuncDecls(init) {
          var i :| 0 <= i < |init| && init[i].FuncDecl? && ExtentOf(init[i]) == e;
          assert nodes[i] == init[i];
        } else {
          assert nodes[|nodes| - 1].FuncDecl? && ExtentOf(nodes[|nodes| - 1]) == e;
        }
      }
      forall e | exists i :: 0 <= i < |nodes| && nodes[i].FuncDecl? && ExtentOf(nodes[i]) == e
        ensures e in FuncDecls(nodes)
      {
        var i :| 0 <= i < |nodes| && nodes[i].FuncDecl? && ExtentOf(nodes[i]) == e;
        if i < |init| {
          assert init[i] == nodes[i];
        }
      }
    }
  }

  /** Collecting over consecutive parts of the walk concatenates the results:
      the extents keep walk order. */
  lemma {:induction false} FuncDeclsAppend(a: seq<Node>, b: seq<Node>)
    ensures FuncDecls(a + b) == FuncDecls(a) + FuncDecls(b)
    decreases |b|
  {
    if b == [] {
      assert a + b == a;
    } else {
      var b' := b[..|b| - 1];
      assert (a + b)[..|a + b| - 1] == a + b';
      assert (a + b)[|a + b| - 1] == b[|b| - 1];
      FuncDeclsAppend(a, b');
    }
  }
}
