/** The labware containment tree (`src/labmodel.py`): a root holds objects,
    objects hold jigs and wells, jigs hold objects of an accepted shape, and
    wells hold liquids up to their capacity. */
module LabModel {
  import opened Common

  /** The node classes with their own fields; volumes are in microlitres. */
  datatype Kind =
    | LiquidKind(volume: real)
    | WellKind(maxVolume: real)
    | JigKind(accept: string)
    | ObjectKind(shape: string)
    | RootKind

  /** The checks each `add` makes before appending: the class of the child
      and, for a well, the capacity given the volume already held. */
  function AddCheck(parent: Kind, child: Kind, used: real): (r: Result<()>)
    ensures parent.LiquidKind? ==> r == Err(ValueError("Cannot add to Liquid"))
    ensures parent.WellKind? ==> (r.Ok? <==> child.LiquidKind? && used + child.volume <= parent.maxVolume)
    ensures parent.JigKind? ==> (r.Ok? <==> child.ObjectKind? && (parent.accept == "any" || parent.accept == child.shape))
    ensures parent.ObjectKind? ==> (r.Ok? <==> child.JigKind? || child.WellKind?)
    ensures parent.RootKind? ==> (r.Ok? <==> child.ObjectKind?)
    ensures r.Err? ==> r.error.ValueError?
  {
    match parent
    case LiquidKind(_) => Err(ValueError("Cannot add to Liquid"))
    case WellKind(maxVolume) =>
      if !child.LiquidKind? then Err(ValueError("Can only add Liquid to Well"))
      else if used + child.volume > maxVolume then Err(ValueError("Exceeds maximum volume"))
      else Ok(())
    case JigKind(accept) =>
      if !child.ObjectKind? then Err(ValueError("Can only add Object to Jig"))
      else if accept != "any" && accept != child.shape then
        Err(ValueError("Jig only accepts " + accept + ", but got " + child.shape))
      else Ok(())
    case ObjectKind(_) =>
      if !(child.JigKind? || child.WellKind?) then Err(ValueError("Can only add Jig or Well to Object"))
      else Ok(())
    case RootKind =>
      if !child.ObjectKind? then Err(ValueError("Can only add Object to Root"))
      else Ok(())
  }

  /** A liquid's volume; other nodes hold none of their own. */
  function VolumeOf(k: Kind): real {
    if k.LiquidKind? then k.volume else 0.0
  }

  /** A node of the tree. Its name and class fields are never reassigned;
      `add` appends to `subNode` in place. */
  class LabNode {
    const name: string
    const kind: Kind
    var subNode: seq<LabNode>

    constructor(name: string, kind: Kind)
      ensures this.name == name && this.kind == kind && subNode == []
    {
      this.name := name;
      this.kind := kind;
      subNode := [];
    }

    /** `sum(liq.volume for liq in self.sub_node)`. */
    function Used(): real
      reads this
    {
      SumVolumes(subNode)
    }

    /** A well never holds more than its capacity. */
    predicate Valid()
      reads this
    {
      kind.WellKind? ==> Used() <= kind.maxVolume
    }

    /** `add`: on success exactly one child is appended at the end and the
        node itself is returned; on failure nothing changes. */
    method Add(other: LabNode) returns (r: Result<LabNode>)
      modifies this
      ensures var check := AddCheck(kind, other.kind, old(Used()));
        (check.Ok? ==> r == Ok(this) && subNode == old(subNode) + [other])
        && (check.Err? ==> r == Err(check.error) && subNode == old(subNode))
      ensures old(Valid()) ==> Valid()
      ensures r.Ok? && kind.WellKind? ==> Used() <= kind.maxVolume
    {
      var check := AddCheck(kind, other.kind, Used());
      if check.Err? {
        return Err(check.error);
      }
      SumVolumesAppend(subNode, other);
      subNode := subNode + [other];
      return Ok(this);
    }
  }

  function SumVolumes(nodes: seq<LabNode>): real {
    if nodes == [] then 0.0 else SumVolumes(nodes[..|nodes| - 1]) + VolumeOf(nodes[|nodes| - 1].kind)
  }

  lemma SumVolumesAppend(nodes: seq<LabNode>, n: LabNode)
    ensures SumVolumes(nodes + [n]) == SumVolumes(nodes) + VolumeOf(n.kind)
  {
    assert (nodes + [n])[..|nodes|] == nodes;
  }

  /** A snapshot of a subtree, as `__str__` walks it. */
  datatype Tree = Tree(name: string, kind: Kind, children: seq<Tree>)

  function Spaces(n: nat): (s: string)
    ensures |s| == n && forall i | 0 <= i < n :: s[i] == ' '
  {
    if n == 0 then "" else " " + Spaces(n - 1)
  }

  /** The first line of a node; `show` is Python's `str` of a float. */
  function Header(name: string, k: Kind, show: real -> string): string {
    match k
    case LiquidKind(v) => name + "(liquid, volume=" + show(v) + ")"
    case WellKind(m) => name + "(well, max_volume=" + show(m) + ")"
    case JigKind(a) => name + "(jig, accept=" + a + ")"
    case ObjectKind(s) => name + "(object, shape=" + s + ")"
    case RootKind => name + "(root)"
  }

  /** `__str__(indent)`: the node's line, then each child on its own line at
      `indent + 2`. A liquid has no children to print. */
  function Render(t: Tree, indent: nat, show: real -> string): (r: string)
    ensures Spaces(indent) + Header(t.name, t.kind, show) <= r
    decreases t, 1
  {
    var line := Spaces(indent) + Header(t.name, t.kind, show);
    if t.kind.LiquidKind? then line else line + RenderChildren(t.children, indent + 2, show)
  }

  function RenderChildren(cs: seq<Tree>, indent: nat, show: real -> string): string
    decreases cs, 0
  {
    if cs == [] then "" else "\n" + Render(cs[0], indent, show) + RenderChildren(cs[1..], indent, show)
  }

  lemma {:induction false} RenderChildrenAppend(cs: seq<Tree>, c: Tree, indent: nat, show: real -> string)
    ensures RenderChildren(cs + [c], indent, show) == RenderChildren(cs, indent, show) + "\n" + Render(c, indent, show)
  {
    if cs == [] {
      assert [c][1..] == [];
    } else {
      assert (cs + [c])[1..] == cs[1..] + [c];
      RenderChildrenAppend(cs[1..], c, indent, show);
    }
  }

  /** Adding a child to a node that prints its children adds one more line
      block at the end, indented two further. */
  lemma RenderAfterAdd(name: string, k: Kind, cs: seq<Tree>, c: Tree, indent: nat, show: real -> string)
    requires !k.LiquidKind?
    ensures Render(Tree(name, k, cs + [c]), indent, show)
      == Render(Tree(name, k, cs), indent, show) + "\n" + Render(c, indent + 2, show)
  {
    RenderChildrenAppend(cs, c, indent + 2, show);
  }
}
