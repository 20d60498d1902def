/** Scenario nodes and their labware contracts (`src/protocol/protocol.py`):
    a node is called with the labware produced upstream, checks it against
    its existing-labware slots, and returns the labware it hands on. */
module ProtocolNodes {
  import opened Common
  import Requirement

  type Labware = Requirement.BaseLabware

  datatype NodeType = ProtocolType | StoreType | DiscardType | LoadingType | UnloadingType

  /** `ExistingLabwareSetup`: an existing-labware requirement and where to
      prepare it. */
  datatype ExistingSetup = ExistingSetup(requirement: Labware, prepareTo: string)

  /** The requirement of a `RequirementSetup`: a reagent or new labware. */
  datatype Need = ReagentNeed(reagent: Requirement.Reagent) | LabwareNeed(labware: Labware)

  datatype RequirementSetup = RequirementSetup(requirement: Need, prepareTo: string)

  /** The subclass of a node and the fields it adds. */
  datatype Variant =
    | BaseNode(nodeType: NodeType)
    | ProtocolNode(requirements: map<string, RequirementSetup>, protocolName: string, duration: int)
    | StoreNode(storeCondition: Requirement.StoreType, optimalTime: Option<int>)
    | LoadingNode(labware: Labware, loadCondition: Requirement.StoreType)
    | UnloadingNode

  function TypeOf(v: Variant): NodeType {
    match v
    case BaseNode(t) => t
    case ProtocolNode(_, _, _) => ProtocolType
    case StoreNode(_, _) => StoreType
    case LoadingNode(_, _) => LoadingType
    case UnloadingNode => UnloadingType
  }

  /** `Node.returns`: every existing-labware slot with its requirement. */
  function ExistingReturns(existing: map<string, ExistingSetup>): (r: map<string, Labware>)
    ensures r.Keys == existing.Keys
    ensures forall n | n in r :: r[n] == existing[n].requirement
  {
    map n | n in existing :: existing[n].requirement
  }

  /** The requirements of a protocol that are labware, not reagents. */
  function LabwareNeeds(reqs: map<string, RequirementSetup>): (r: map<string, Labware>)
    ensures forall n :: n in r <==> n in reqs && reqs[n].requirement.LabwareNeed?
    ensures forall n | n in r :: r[n] == reqs[n].requirement.labware
  {
    map n | n in reqs && reqs[n].requirement.LabwareNeed? :: reqs[n].requirement.labware
  }

  /** `returns` of each subclass. */
  function Returns(v: Variant, existing: map<string, ExistingSetup>): map<string, Labware> {
    match v
    case ProtocolNode(reqs, _, _) => ExistingReturns(existing) + LabwareNeeds(reqs)
    case BaseNode(_) => ExistingReturns(existing)
    case StoreNode(_, _) => ExistingReturns(existing)
    case LoadingNode(labware, _) => map["new_labware" := labware]
    case UnloadingNode => map[]
  }

  /** A protocol hands on its existing labware and its labware
      requirements, the requirement winning on a shared name; reagents are
      never handed on. */
  lemma ProtocolReturns(reqs: map<string, RequirementSetup>, name: string, duration: int, existing: map<string, ExistingSetup>, n: string)
    ensures var r := Returns(ProtocolNode(reqs, name, duration), existing);
      (n in r <==> n in existing || (n in reqs && reqs[n].requirement.LabwareNeed?))
      && (n in reqs && reqs[n].requirement.LabwareNeed? ==> r[n] == reqs[n].requirement.labware)
      && (n in existing && !(n in reqs && reqs[n].requirement.LabwareNeed?) ==> r[n] == existing[n].requirement)
  {
  }

  /** The checks meant for `__post_init__`, which the model classes never
      run: protocol names are disjoint between existing labware and
      requirements, loading has no existing labware, unloading exactly one. */
  function Validate(v: Variant, existing: map<string, ExistingSetup>): (r: Result<()>)
    ensures r.Ok? <==>
      (v.ProtocolNode? ==> existing.Keys !! v.requirements.Keys)
      && (v.LoadingNode? ==> |existing| == 0)
      && (v.UnloadingNode? ==> |existing| == 1)
    ensures r.Err? ==> r.error.ValueError?
  {
    match v
    case ProtocolNode(reqs, _, _) =>
      UnionSizeDisjoint(existing.Keys, reqs.Keys);
      if |existing.Keys + reqs.Keys| != |existing| + |reqs| then
        Err(ValueError("Duplicate names found between existing labwares and requirements."))
      else Ok(())
    case LoadingNode(_, _) =>
      if |existing| != 0 then Err(ValueError("Loading node cannot have existing labwares.")) else Ok(())
    case UnloadingNode =>
      if |existing| != 1 then Err(ValueError("Unloading node must have exactly one existing labware.")) else Ok(())
    case StoreNode(_, _) => Ok(())
    case BaseNode(_) => Ok(())
  }

  /** Two sets' union is as large as both together exactly when they are
      disjoint. */
  lemma UnionSizeDisjoint(x: set<string>, y: set<string>)
    ensures |x + y| == |x| + |y| <==> x !! y
  {
    assert |x + y| == |x - y| + |y - x| + |x * y|;
    assert |x - y| == |x| - |x * y|;
    assert |y - x| == |y| - |x * y|;
    if !(x !! y) {
      var e :| e in x && e in y;
      assert e in x * y;
    }
  }

  /** Building a node as written: the models are pydantic models, which
      never call `__post_init__`, so every combination is accepted. */
  function BuildAsWritten(v: Variant, existing: map<string, ExistingSetup>): (r: Result<(Variant, map<string, ExistingSetup>)>)
    ensures r == Ok((v, existing))
  {
    Ok((v, existing))
  }

  /** Building a node with the `__post_init__` checks run. */
  function Build(v: Variant, existing: map<string, ExistingSetup>): (r: Result<(Variant, map<string, ExistingSetup>)>)
    ensures r.Ok? <==> Validate(v, existing).Ok?
    ensures r.Ok? ==> r.value == (v, existing)
  {
    var _ :- Validate(v, existing);
    Ok((v, existing))
  }

  /** An unloading node without its labware, or a loading node with one, is
      built as written, though the checks refuse both. */
  lemma PostInitNeverRuns(e: ExistingSetup, labware: Labware, cond: Requirement.StoreType)
    ensures BuildAsWritten(UnloadingNode, map[]).Ok? && Build(UnloadingNode, map[]).Err?
    ensures BuildAsWritten(LoadingNode(labware, cond), map["plate" := e]).Ok?
      && Build(LoadingNode(labware, cond), map["plate" := e]).Err?
  {
    assert |map["plate" := e]| == 1;
  }

  /** For a valid protocol no name is shadowed: it hands on as many labware
      as it has existing slots and labware requirements together. */
  lemma ValidProtocolHandsOnAll(reqs: map<string, RequirementSetup>, name: string, duration: int, existing: map<string, ExistingSetup>)
    requires Validate(ProtocolNode(reqs, name, duration), existing).Ok?
    ensures |Returns(ProtocolNode(reqs, name, duration), existing)| == |existing| + |LabwareNeeds(reqs)|
  {
    var a := ExistingReturns(existing);
    var b := LabwareNeeds(reqs);
    assert b.Keys <= reqs.Keys;
    assert a.Keys !! b.Keys;
    assert (a + b).Keys == a.Keys + b.Keys;
    assert |a.Keys + b.Keys| == |a.Keys| + |b.Keys| by {
      DisjointUnionSize(a.Keys, b.Keys);
    }
  }

  lemma {:induction false} DisjointUnionSize(x: set<string>, y: set<string>)
    requires x !! y
    ensures |x + y| == |x| + |y|
  {
    if x != {} {
      var e :| e in x;
      DisjointUnionSize(x - {e}, y);
      assert x + y == (x - {e}) + y + {e};
      assert e !in (x - {e}) + y;
    } else {
      assert x + y == y;
    }
  }

  /** A loading node hands on exactly its new labware, an unloading node
      nothing. */
  lemma LoadingAndUnloadingReturns(labware: Labware, cond: Requirement.StoreType, existing: map<string, ExistingSetup>)
    ensures Returns(LoadingNode(labware, cond), existing) == map["new_labware" := labware]
    ensures Returns(UnloadingNode, existing) == map[]
  {
  }

  /** The position of the first keyword argument `__call__` refuses: a name
      with no existing-labware slot, or labware of another type. */
  function FirstRefused(existing: map<string, ExistingSetup>, kwds: seq<(string, Labware)>): (r: Option<nat>)
    ensures r.None? <==> forall i | 0 <= i < |kwds| :: Fits(existing, kwds[i])
    ensures r.Some? ==>
      (r.value < |kwds| && !Fits(existing, kwds[r.value])
       && forall i | 0 <= i < r.value :: Fits(existing, kwds[i]))
  {
    if kwds == [] then None
    else if !Fits(existing, kwds[0]) then Some(0)
    else
      var r := FirstRefused(existing, kwds[1..]);
      assert forall i | 1 <= i < |kwds| :: kwds[i] == kwds[1..][i - 1];
      if r.None? then None else Some(r.value + 1)
  }

  predicate Fits(existing: map<string, ExistingSetup>, kw: (string, Labware)) {
    kw.0 in existing && existing[kw.0].requirement.labwareType == kw.1.labwareType
  }

  function Refusal(existing: map<string, ExistingSetup>, kw: (string, Labware)): Exception {
    if kw.0 !in existing then ValueError("Labware name '" + kw.0 + "' not found in existing labwares.")
    else ValueError("Labware type mismatch for '" + kw.0 + "': expected '" + existing[kw.0].requirement.labwareType
                    + "', got '" + kw.1.labwareType + "'.")
  }

  /** The parents recorded by the first `k` keyword arguments. */
  function Recorded(parents: map<string, Labware>, kwds: seq<(string, Labware)>): map<string, Labware> {
    if kwds == [] then parents
    else Recorded(parents, kwds[..|kwds| - 1])[kwds[|kwds| - 1].0 := kwds[|kwds| - 1].1]
  }

  /** A node of the scenario. `parents` holds the `parent_labware` set on the
      requirement of each existing-labware slot. */
  class Node {
    const variant: Variant
    const nodeType: NodeType
    var existingLabwares: map<string, ExistingSetup>
    var parents: map<string, Labware>

    /** The model classes never run `__post_init__`: nothing is checked. */
    constructor(variant: Variant, existing: map<string, ExistingSetup>)
      ensures this.variant == variant && nodeType == TypeOf(variant)
      ensures existingLabwares == existing && parents == map[]
    {
      this.variant := variant;
      nodeType := TypeOf(variant);
      existingLabwares := existing;
      parents := map[];
    }

    /** `__call__`: each keyword argument in order is checked and then
        recorded as its slot's parent, so a refusal leaves the earlier ones
        recorded; when all pass, the node's `returns()` is the result. */
    method Call(kwds: seq<(string, Labware)>) returns (r: Result<map<string, Labware>>)
      modifies this
      ensures existingLabwares == old(existingLabwares)
      ensures var refused := FirstRefused(existingLabwares, kwds);
        (refused.Some? ==>
          r == Err(Refusal(existingLabwares, kwds[refused.value]))
          && parents == Recorded(old(parents), kwds[..refused.value]))
        && (refused.None? ==>
          r == Ok(Returns(variant, existingLabwares)) && parents == Recorded(old(parents), kwds))
    {
      var i := 0;
      while i < |kwds|
        invariant 0 <= i <= |kwds|
        invariant existingLabwares == old(existingLabwares)
        invariant forall j | 0 <= j < i :: Fits(existingLabwares, kwds[j])
        invariant parents == Recorded(old(parents), kwds[..i])
      {
        var (name, labware) := kwds[i];
        if name !in existingLabwares || existingLabwares[name].requirement.labwareType != labware.labwareType {
          FirstRefusedAt(existingLabwares, kwds, i);
          return Err(Refusal(existingLabwares, kwds[i]));
        }
        assert kwds[..i + 1][..i] == kwds[..i];
        parents := parents[name := labware];
        i := i + 1;
      }
      assert kwds[..i] == kwds;
      return Ok(Returns(variant, existingLabwares));
    }
  }

  lemma FirstRefusedAt(existing: map<string, ExistingSetup>, kwds: seq<(string, Labware)>, i: nat)
    requires i < |kwds| && !Fits(existing, kwds[i]) && forall j | 0 <= j < i :: Fits(existing, kwds[j])
    ensures FirstRefused(existing, kwds) == Some(i)
  {
  }

  /** A loading node has no slot, so it refuses any argument. */
  lemma LoadingRefusesArguments(existing: map<string, ExistingSetup>, labware: Labware, cond: Requirement.StoreType, kwds: seq<(string, Labware)>)
    requires Validate(LoadingNode(labware, cond), existing).Ok? && |kwds| > 0
    ensures FirstRefused(existing, kwds) == Some(0)
  {
  }
}
