/** The experiment description of `src/experiment.py`: registries of
    reagent names and protocols, protocols with their reagents and labware,
    the scenario of protocol calls, stores and moves that pass labware from
    node to node, and the packing of reagent volumes into containers. */
module Experiment {
  import opened Common
  import Requirement
  import Grouping
  import opened Labware

  // ---------------------------------------------------------------------
  // compress_list: packing volumes into containers

  /** The runs `compress_list` cuts its input into: the runs already closed
      and the one being filled. */
  datatype Runs = Runs(closed: seq<seq<real>>, open: seq<real>)

  /** The runs after reading `xs`: an input joins the open run while the
      run plus the dead volume stays within the maximum; otherwise it closes
      the run and starts the next one. */
  function RunsOf(xs: seq<real>, maxVolume: real, deadVolume: real): Runs {
    if xs == [] then Runs([], [])
    else
      var p := RunsOf(xs[..|xs| - 1], maxVolume, deadVolume);
      var x := xs[|xs| - 1];
      if Total(p.open) + x + deadVolume <= maxVolume then Runs(p.closed, p.open + [x])
      else Runs(p.closed + [p.open], [x])
  }

  /** One container per run with a positive total, holding the run plus
      the dead volume. */
  function Outputs(runs: seq<seq<real>>, deadVolume: real): (r: seq<real>)
    ensures |r| <= |runs|
  {
    if runs == [] then []
    else
      var o := Outputs(runs[..|runs| - 1], deadVolume);
      var s := Total(runs[|runs| - 1]);
      if s > 0.0 then o + [s + deadVolume] else o
  }

  /** What `compress_list` returns. */
  function Compress(xs: seq<real>, maxVolume: real, deadVolume: real): seq<real> {
    var p := RunsOf(xs, maxVolume, deadVolume);
    Outputs(p.closed + [p.open], deadVolume)
  }

  /** `compress_list`: one pass keeping the open run's total. */
  method CompressList(volumeList: seq<real>, maxVolume: real, deadVolume: real) returns (result: seq<real>)
    ensures result == Compress(volumeList, maxVolume, deadVolume)
  {
    result := [];
    var currentSum := 0.0;
    for i := 0 to |volumeList|
      invariant Compressed(volumeList[..i], maxVolume, deadVolume, result, currentSum)
    {
      var x := volumeList[i];
      ghost var (result0, sum0) := (result, currentSum);
      if currentSum + x + deadVolume <= maxVolume {
        currentSum := currentSum + x;
      } else {
        if currentSum > 0.0 {
          result := result + [currentSum + deadVolume];
        }
        currentSum := x;
      }
      CompressNext(volumeList, i, maxVolume, deadVolume, result0, sum0, result, currentSum);
    }
    assert volumeList[..|volumeList|] == volumeList;
    CompressDone(volumeList, maxVolume, deadVolume, result, currentSum);
    if currentSum > 0.0 {
      result := result + [currentSum + deadVolume];
    }
  }

  /** The loop's state after reading `xs`: the containers of the closed
      runs, and the open run's total. */
  predicate Compressed(xs: seq<real>, maxVolume: real, deadVolume: real, result: seq<real>, currentSum: real) {
    var p := RunsOf(xs, maxVolume, deadVolume);
    result == Outputs(p.closed, deadVolume) && currentSum == Total(p.open)
  }

  /** After the last input the open run is closed too. */
  lemma CompressDone(xs: seq<real>, maxVolume: real, deadVolume: real, result: seq<real>, currentSum: real)
    requires Compressed(xs, maxVolume, deadVolume, result, currentSum)
    ensures Compress(xs, maxVolume, deadVolume) == result + (if currentSum > 0.0 then [currentSum + deadVolume] else [])
  {
    var p := RunsOf(xs, maxVolume, deadVolume);
    OutputsAppend(p.closed, p.open, deadVolume);
  }

  lemma CompressStep(xs: seq<real>, x: real, maxVolume: real, deadVolume: real,
                     result0: seq<real>, sum0: real, result: seq<real>, currentSum: real)
    requires Compressed(xs, maxVolume, deadVolume, result0, sum0)
    requires sum0 + x + deadVolume <= maxVolume ==> result == result0 && currentSum == sum0 + x
    requires !(sum0 + x + deadVolume <= maxVolume) ==>
      result == result0 + (if sum0 > 0.0 then [sum0 + deadVolume] else []) && currentSum == x
    ensures Compressed(xs + [x], maxVolume, deadVolume, result, currentSum)
  {
    var p := RunsOf(xs, maxVolume, deadVolume);
    RunsStep(xs, x, maxVolume, deadVolume);
    if sum0 + x + deadVolume <= maxVolume {
      TotalAppend(p.open, x);
    } else {
      OutputsAppend(p.closed, p.open, deadVolume);
      TotalAppend([], x);
    }
  }

  /** `CompressStep` at input `i` of the list. */
  lemma CompressNext(xs: seq<real>, i: nat, maxVolume: real, deadVolume: real,
                     result0: seq<real>, sum0: real, result: seq<real>, currentSum: real)
    requires i < |xs| && Compressed(xs[..i], maxVolume, deadVolume, result0, sum0)
    requires sum0 + xs[i] + deadVolume <= maxVolume ==> result == result0 && currentSum == sum0 + xs[i]
    requires !(sum0 + xs[i] + deadVolume <= maxVolume) ==>
      result == result0 + (if sum0 > 0.0 then [sum0 + deadVolume] else []) && currentSum == xs[i]
    ensures Compressed(xs[..i + 1], maxVolume, deadVolume, result, currentSum)
  {
    CompressStep(xs[..i], xs[i], maxVolume, deadVolume, result0, sum0, result, currentSum);
    assert xs[..i + 1] == xs[..i] + [xs[i]];
  }

  lemma TotalAppend(s: seq<real>, x: real)
    ensures Total(s + [x]) == Total(s) + x
  {
    assert (s + [x])[..|s|] == s;
  }

  lemma OutputsAppend(runs: seq<seq<real>>, r: seq<real>, deadVolume: real)
    ensures Outputs(runs + [r], deadVolume)
      == Outputs(runs, deadVolume) + (if Total(r) > 0.0 then [Total(r) + deadVolume] else [])
  {
    assert (runs + [r])[..|runs|] == runs;
  }

  /** The runs, one after the other. */
  function Flatten(runs: seq<seq<real>>): seq<real> {
    if runs == [] then [] else Flatten(runs[..|runs| - 1]) + runs[|runs| - 1]
  }

  lemma FlattenAppend(runs: seq<seq<real>>, r: seq<real>)
    ensures Flatten(runs + [r]) == Flatten(runs) + r
  {
    assert (runs + [r])[..|runs|] == runs;
  }

  /** Reading one more input, as `RunsOf` unfolds. */
  lemma RunsStep(xs: seq<real>, x: real, maxVolume: real, deadVolume: real)
    ensures var p := RunsOf(xs, maxVolume, deadVolume);
      RunsOf(xs + [x], maxVolume, deadVolume)
        == if Total(p.open) + x + deadVolume <= maxVolume then Runs(p.closed, p.open + [x])
           else Runs(p.closed + [p.open], [x])
  {
    assert (xs + [x])[..|xs|] == xs;
  }

  /** The runs cut the input into contiguous pieces, in input order. */
  lemma {:induction false} RunsCoverInput(xs: seq<real>, maxVolume: real, deadVolume: real)
    ensures var p := RunsOf(xs, maxVolume, deadVolume); Flatten(p.closed + [p.open]) == xs
  {
    if xs == [] {
      FlattenAppend([], []);
    } else {
      var init := xs[..|xs| - 1];
      var x := xs[|xs| - 1];
      assert xs == init + [x];
      var p := RunsOf(init, maxVolume, deadVolume);
      RunsCoverInput(init, maxVolume, deadVolume);
      RunsStep(init, x, maxVolume, deadVolume);
      FlattenAppend(p.closed, p.open);
      var q := RunsOf(xs, maxVolume, deadVolume);
      if Total(p.open) + x + deadVolume <= maxVolume {
        assert q == Runs(p.closed, p.open + [x]);
        FlattenAppend(p.closed, p.open + [x]);
        AppendLast(Flatten(p.closed), p.open, x);
      } else {
        assert q == Runs(p.closed + [p.open], [x]);
        FlattenAppend(p.closed + [p.open], [x]);
      }
    }
  }

  lemma AppendLast(a: seq<real>, b: seq<real>, x: real)
    ensures a + (b + [x]) == (a + b) + [x]
  {}

  /** A run of two or more inputs fits a container with its dead volume;
      only a run of a single input can overflow. */
  lemma {:induction false} RunsFit(xs: seq<real>, maxVolume: real, deadVolume: real)
    ensures var p := RunsOf(xs, maxVolume, deadVolume);
      forall r | r in p.closed + [p.open] :: |r| <= 1 || Total(r) + deadVolume <= maxVolume
  {
    if xs != [] {
      var init := xs[..|xs| - 1];
      var x := xs[|xs| - 1];
      var p := RunsOf(init, maxVolume, deadVolume);
      RunsFit(init, maxVolume, deadVolume);
      if Total(p.open) + x + deadVolume <= maxVolume {
        assert (p.open + [x])[..|p.open|] == p.open;
        assert forall r | r in p.closed :: r in p.closed + [p.open];
      }
    }
  }

  /** Each container comes from one run with a positive total. */
  lemma {:induction false} OutputsFromRuns(runs: seq<seq<real>>, deadVolume: real, j: nat)
    requires j < |Outputs(runs, deadVolume)|
    ensures exists r | r in runs :: Total(r) > 0.0 && Outputs(runs, deadVolume)[j] == Total(r) + deadVolume
  {
    var init := runs[..|runs| - 1];
    var o := Outputs(init, deadVolume);
    var last := runs[|runs| - 1];
    if j < |o| {
      OutputsFromRuns(init, deadVolume, j);
      var r :| r in init && Total(r) > 0.0 && o[j] == Total(r) + deadVolume;
      assert r in runs;
    } else {
      assert last in runs;
    }
  }

  lemma {:induction false} InFlatten(runs: seq<seq<real>>, r: seq<real>, y: real)
    requires r in runs && y in r
    ensures y in Flatten(runs)
  {
    var init := runs[..|runs| - 1];
    if r == runs[|runs| - 1] {
    } else {
      assert r in init;
      InFlatten(init, r, y);
    }
  }

  /** Every container holds more than the dead volume and at most the
      maximum, except one holding a single input that alone overflows. */
  lemma CompressBounds(xs: seq<real>, maxVolume: real, deadVolume: real, j: nat)
    requires j < |Compress(xs, maxVolume, deadVolume)|
    ensures var c := Compress(xs, maxVolume, deadVolume)[j];
      c > deadVolume
      && (c <= maxVolume || exists i | 0 <= i < |xs| :: c == xs[i] + deadVolume)
  {
    var p := RunsOf(xs, maxVolume, deadVolume);
    var runs := p.closed + [p.open];
    OutputsFromRuns(runs, deadVolume, j);
    var r :| r in runs && Total(r) > 0.0 && Outputs(runs, deadVolume)[j] == Total(r) + deadVolume;
    RunsFit(xs, maxVolume, deadVolume);
    assert |r| <= 1 || Total(r) + deadVolume <= maxVolume;
    if |r| == 1 {
      assert Total(r) == Total([]) + r[0];
      RunsCoverInput(xs, maxVolume, deadVolume);
      InFlatten(runs, r, r[0]);
      var i :| 0 <= i < |xs| && xs[i] == r[0];
    }
  }

  /** The totals of the runs, added up. */
  function RunTotals(runs: seq<seq<real>>): real {
    if runs == [] then 0.0 else RunTotals(runs[..|runs| - 1]) + Total(runs[|runs| - 1])
  }

  lemma {:induction false} FlattenTotal(runs: seq<seq<real>>)
    ensures Total(Flatten(runs)) == RunTotals(runs)
  {
    if runs != [] {
      FlattenTotal(runs[..|runs| - 1]);
      TotalConcat(Flatten(runs[..|runs| - 1]), runs[|runs| - 1]);
    }
  }

  lemma {:induction false} OutputsTotal(runs: seq<seq<real>>, deadVolume: real)
    requires forall r | r in runs :: Total(r) >= 0.0
    ensures Total(Outputs(runs, deadVolume)) == RunTotals(runs) + Times(|Outputs(runs, deadVolume)|, deadVolume)
  {
    if runs != [] {
      var init := runs[..|runs| - 1];
      assert forall r | r in init :: r in runs;
      OutputsTotal(init, deadVolume);
      var o := Outputs(init, deadVolume);
      var s := Total(runs[|runs| - 1]);
      if s > 0.0 {
        var o2 := o + [s + deadVolume];
        assert o2[..|o|] == o;
        assert Total(o2) == Total(o) + (s + deadVolume);
      }
    }
  }

  lemma RunsNonNegative(runs: seq<seq<real>>, xs: seq<real>)
    requires Flatten(runs) == xs
    requires forall i | 0 <= i < |xs| :: xs[i] >= 0.0
    ensures forall r | r in runs :: Total(r) >= 0.0
  {
    forall r | r in runs ensures Total(r) >= 0.0 {
      forall i | 0 <= i < |r| ensures r[i] >= 0.0 {
        InFlatten(runs, r, r[i]);
        var k :| 0 <= k < |xs| && xs[k] == r[i];
      }
      TotalNonNegative(r);
    }
  }

  /** For non-negative inputs nothing is lost or invented: the containers
      hold the inputs plus one dead volume each. */
  lemma CompressConservesVolume(xs: seq<real>, maxVolume: real, deadVolume: real)
    requires forall i | 0 <= i < |xs| :: xs[i] >= 0.0
    ensures var c := Compress(xs, maxVolume, deadVolume);
      Total(c) == Total(xs) + Times(|c|, deadVolume)
  {
    var p := RunsOf(xs, maxVolume, deadVolume);
    var runs := p.closed + [p.open];
    RunsCoverInput(xs, maxVolume, deadVolume);
    RunsNonNegative(runs, xs);
    FlattenTotal(runs);
    OutputsTotal(runs, deadVolume);
  }

  // ---------------------------------------------------------------------
  // Requirements and scenario nodes

  type Volume = Requirement.LiquidVolume

  /** `Reagent`: a volume of a named reagent in a container type. */
  datatype Reagent = Reagent(labwareType: string, reagentName: string, volume: Volume, prepareTo: string)

  /** `NewLabware` and `ExistingLabware`: a labware type and where to
      prepare it. */
  datatype LabwareNeed = LabwareNeed(labwareType: string, prepareTo: string)

  /** `ParentLabware`: a labware as produced by a scenario node. */
  datatype ParentLabware = ParentLabware(nodeId: Uuid, labwareLabel: string, labwareType: string)

  /** The `min_length=1, max_length=100` constraint on names and labels. */
  predicate ValidLabel(s: string) {
    1 <= |s| <= 100
  }

  function LabelError(): Exception {
    ValueError("String should have between 1 and 100 characters")
  }

  /** Building a `ParentLabware` validates its label. */
  function NewParent(nodeId: Uuid, name: string, labwareType: string): (r: Result<ParentLabware>)
    ensures r.Ok? <==> ValidLabel(name)
    ensures r.Ok? ==> r.value == ParentLabware(nodeId, name, labwareType)
  {
    if ValidLabel(name) then Ok(ParentLabware(nodeId, name, labwareType)) else Err(LabelError())
  }

  /** A call of a protocol; it keeps a reference to the protocol itself, so
      its `get` sees the protocol's labware as it is now. */
  datatype ProtocolCall = ProtocolCall(id: Uuid, duration: Time, protocol: Protocol, args: map<string, ParentLabware>)

  datatype Store = Store(id: Uuid, duration: Time, storeType: Requirement.StoreType, labware: ParentLabware)

  datatype MoveIn = MoveIn(id: Uuid, duration: Time, labwareType: string)

  datatype MoveOut = MoveOut(id: Uuid, duration: Time, labware: ParentLabware)

  datatype ScenarioNode =
    | CallNode(call: ProtocolCall)
    | StoreNode(store: Store)
    | MoveInNode(moveIn: MoveIn)
    | MoveOutNode(moveOut: MoveOut)

  function NodeId(n: ScenarioNode): Uuid {
    match n
    case CallNode(c) => c.id
    case StoreNode(s) => s.id
    case MoveInNode(m) => m.id
    case MoveOutNode(m) => m.id
  }

  /** `ProtocolCall.get`: the labware of that name, existing labware first,
      then new labware, handed on from this call. */
  function CallGet(c: ProtocolCall, name: string): (r: Result<ParentLabware>)
    reads c.protocol
    ensures r.Ok? <==> (name in c.protocol.existingLabware || name in c.protocol.newLabware) && ValidLabel(name)
    ensures r.Ok? ==> r.value.nodeId == c.id && r.value.labwareLabel == name
    ensures r.Ok? && name in c.protocol.existingLabware ==> r.value.labwareType == c.protocol.existingLabware[name].labwareType
    ensures r.Ok? && name !in c.protocol.existingLabware ==> r.value.labwareType == c.protocol.newLabware[name].labwareType
    ensures r.Err? ==> r.error.ValueError?
  {
    if name in c.protocol.existingLabware then NewParent(c.id, name, c.protocol.existingLabware[name].labwareType)
    else if name in c.protocol.newLabware then NewParent(c.id, name, c.protocol.newLabware[name].labwareType)
    else Err(ValueError("Labware name '" + name + "' not found in protocol."))
  }

  /** `Store.get`: the stored labware, handed on from the store. */
  function StoreGet(s: Store): (r: ParentLabware)
    ensures r.nodeId == s.id
    ensures r.labwareLabel == s.labware.labwareLabel && r.labwareType == s.labware.labwareType
  {
    ParentLabware(s.id, s.labware.labwareLabel, s.labware.labwareType)
  }

  /** `MoveIn.get`: a labware labelled after its type; the label can
      exceed the length limit. */
  function MoveInGet(m: MoveIn): (r: Result<ParentLabware>)
    ensures r.Ok? <==> |m.labwareType| <= 92
    ensures r.Ok? ==>
      (r.value.nodeId == m.id && r.value.labwareType == m.labwareType
       && r.value.labwareLabel == "move_in_" + m.labwareType)
  {
    NewParent(m.id, "move_in_" + m.labwareType, m.labwareType)
  }

  /** The node a `ParentLabware` points to: the `{p.id: p for p in nodes}`
      dictionary keeps the last node with that id. */
  function FindNode(nodes: seq<ScenarioNode>, id: Uuid): (r: Option<ScenarioNode>)
    ensures r.None? <==> forall i | 0 <= i < |nodes| :: NodeId(nodes[i]) != id
    ensures r.Some? ==> NodeId(r.value) == id && exists i :: LastWithId(nodes, id, i, r.value)
  {
    if nodes == [] then None
    else if NodeId(nodes[|nodes| - 1]) == id then
      assert LastWithId(nodes, id, |nodes| - 1, nodes[|nodes| - 1]);
      Some(nodes[|nodes| - 1])
    else
      var init := nodes[..|nodes| - 1];
      assert forall i | 0 <= i < |init| :: init[i] == nodes[i];
      assert forall k | 0 <= k < |init| && LastWithId(init, id, k, init[k]) :: LastWithId(nodes, id, k, nodes[k]);
      FindNode(init, id)
  }

  /** `n` sits at index `i` of `nodes` and no later node has id `id`. */
  predicate LastWithId(nodes: seq<ScenarioNode>, id: Uuid, i: int, n: ScenarioNode) {
    0 <= i < |nodes| && nodes[i] == n && forall j | i < j < |nodes| :: NodeId(nodes[j]) != id
  }

  /** The protocols the protocol calls among `nodes` refer to. */
  function CallProtocols(nodes: seq<ScenarioNode>): set<Protocol> {
    set n | n in nodes && n.CallNode? :: n.call.protocol
  }

  /** `check_parent_labware`: the referenced node must exist; a protocol
      call must hand on a labware of that name and type, a store or move-out
      the very labware it holds; a move-in is not checked. */
  function CheckParentLabware(nodes: seq<ScenarioNode>, labware: ParentLabware): (r: Result<()>)
    reads CallProtocols(nodes)
    ensures r.Err? ==> r.error.ValueError?
    ensures FindNode(nodes, labware.nodeId).None? ==> r.Err?
    ensures FindNode(nodes, labware.nodeId).Some? ==>
      var node := FindNode(nodes, labware.nodeId).value;
      (node.CallNode? ==>
         (r.Ok? <==> CallGet(node.call, labware.labwareLabel).Ok?
                     && CallGet(node.call, labware.labwareLabel).value.labwareType == labware.labwareType))
      && (node.StoreNode? ==>
         (r.Ok? <==> node.store.labware.labwareLabel == labware.labwareLabel
                     && node.store.labware.labwareType == labware.labwareType))
      && (node.MoveOutNode? ==>
         (r.Ok? <==> node.moveOut.labware.labwareLabel == labware.labwareLabel
                     && node.moveOut.labware.labwareType == labware.labwareType))
      && (node.MoveInNode? ==> r.Ok?)
  {
    var found := FindNode(nodes, labware.nodeId);
    if found.None? then Err(ValueError("Node ID '" + labware.nodeId + "' not found."))
    else
      match found.value
      case CallNode(c) =>
        var def :- CallGet(c, labware.labwareLabel);
        if def.labwareType != labware.labwareType then
          Err(ValueError("Labware type mismatch for '" + labware.labwareLabel + "': expected '"
                         + def.labwareType + "', got '" + labware.labwareType + "'."))
        else Ok(())
      case StoreNode(s) => SameLabware(s.labware, labware)
      case MoveOutNode(m) => SameLabware(m.labware, labware)
      case MoveInNode(_) => Ok(())
  }

  /** The label, then the type, of the labware a store or move-out holds. */
  function SameLabware(held: ParentLabware, labware: ParentLabware): (r: Result<()>)
    ensures r.Ok? <==> held.labwareLabel == labware.labwareLabel && held.labwareType == labware.labwareType
    ensures r.Err? ==> r.error.ValueError?
  {
    if held.labwareLabel != labware.labwareLabel then
      Err(ValueError("Labware label mismatch: expected '" + held.labwareLabel + "', got '" + labware.labwareLabel + "'."))
    else if held.labwareType != labware.labwareType then
      Err(ValueError("Labware type mismatch for '" + labware.labwareLabel + "': expected '"
                     + held.labwareType + "', got '" + labware.labwareType + "'."))
    else Ok(())
  }

  /** Node ids are unique, as freshly drawn UUIDs are. */
  predicate DistinctIds(nodes: seq<ScenarioNode>) {
    forall i, j | 0 <= i < j < |nodes| :: NodeId(nodes[i]) != NodeId(nodes[j])
  }

  lemma FindDistinct(nodes: seq<ScenarioNode>, i: nat)
    requires DistinctIds(nodes) && i < |nodes|
    ensures FindNode(nodes, NodeId(nodes[i])) == Some(nodes[i])
  {
    var r := FindNode(nodes, NodeId(nodes[i]));
    var k :| LastWithId(nodes, NodeId(nodes[i]), k, r.value);
    assert !(k < i) && !(i < k);
  }

  /** What a store hands on is accepted downstream. */
  lemma StoreGetAccepted(nodes: seq<ScenarioNode>, i: nat)
    requires DistinctIds(nodes) && i < |nodes| && nodes[i].StoreNode?
    ensures CheckParentLabware(nodes, StoreGet(nodes[i].store)).Ok?
  {
    FindDistinct(nodes, i);
  }

  /** What a protocol call hands on is accepted downstream, as long as the
      protocol still has that labware. */
  lemma CallGetAccepted(nodes: seq<ScenarioNode>, i: nat, name: string)
    requires DistinctIds(nodes) && i < |nodes| && nodes[i].CallNode?
    requires CallGet(nodes[i].call, name).Ok?
    ensures CheckParentLabware(nodes, CallGet(nodes[i].call, name).value).Ok?
  {
    FindDistinct(nodes, i);
  }

  /** Anything pointing at a move-in is accepted, whatever its label and
      type. */
  lemma MoveInUnchecked(nodes: seq<ScenarioNode>, i: nat, name: string, labwareType: string)
    requires DistinctIds(nodes) && i < |nodes| && nodes[i].MoveInNode?
    ensures CheckParentLabware(nodes, ParentLabware(NodeId(nodes[i]), name, labwareType)).Ok?
  {
    FindDistinct(nodes, i);
  }

  // ---------------------------------------------------------------------
  // Protocols and the experiment

  /** The position of the first keyword argument a protocol call refuses:
      a name that is not existing labware, or labware of another type. */
  function FirstRefused(existing: map<string, LabwareNeed>, kwds: seq<(string, ParentLabware)>): (r: Option<nat>)
    ensures r.None? <==> forall i | 0 <= i < |kwds| :: Fits(existing, kwds[i])
    ensures r.Some? ==>
      (r.value < |kwds| && !Fits(existing, kwds[r.value])
       && forall i | 0 <= i < r.value :: Fits(existing, kwds[i]))
  {
    if kwds == [] then None
    else if !Fits(existing, kwds[0]) then Some(0)
    else
      var r := FirstRefused(existing, kwds[1..]);
      assert forall i | 1 <= i < |kwds| :: kwds[i] == kwds[1..][i - 1];
      if r.None? then None else Some(r.value + 1)
  }

  predicate Fits(existing: map<string, LabwareNeed>, kw: (string, ParentLabware)) {
    kw.0 in existing && existing[kw.0].labwareType == kw.1.labwareType
  }

  function Refusal(existing: map<string, LabwareNeed>, kw: (string, ParentLabware)): Exception {
    if kw.0 !in existing then ValueError("Labware name '" + kw.0 + "' not found in protocol.")
    else ValueError("Labware type mismatch for '" + kw.0 + "': expected '" + existing[kw.0].labwareType
                    + "', got '" + kw.1.labwareType + "'.")
  }

  /** The keyword arguments as the `args` dictionary. */
  function Args(kwds: seq<(string, ParentLabware)>): (m: map<string, ParentLabware>)
    ensures forall n :: n in m <==> exists i | 0 <= i < |kwds| :: kwds[i].0 == n
  {
    if kwds == [] then map[]
    else
      var init := kwds[..|kwds| - 1];
      assert forall i | 0 <= i < |init| :: init[i] == kwds[i];
      Args(init)[kwds[|kwds| - 1].0 := kwds[|kwds| - 1].1]
  }

  /** A protocol of the experiment: its reagents, the labware it creates and
      the labware it works on, each by name. */
  class Protocol {
    const experiment: Experiment
    const protocolName: string
    const duration: Time
    var reagent: map<string, Reagent>
    var newLabware: map<string, LabwareNeed>
    var existingLabware: map<string, LabwareNeed>

    constructor(experiment: Experiment, protocolName: string, duration: Time)
      ensures this.experiment == experiment && this.protocolName == protocolName && this.duration == duration
      ensures reagent == map[] && newLabware == map[] && existingLabware == map[]
    {
      this.experiment := experiment;
      this.protocolName := protocolName;
      this.duration := duration;
      reagent := map[];
      newLabware := map[];
      existingLabware := map[];
    }

    /** `add_reagent`: only a reagent name the experiment declared; an
        existing entry is silently replaced. */
    method AddReagent(name: string, labwareType: string, reagentName: string, volume: Volume, prepareTo: string)
      returns (r: Result<()>)
      modifies this
      ensures name !in experiment.reagentName ==>
        r == Err(ValueError("Reagent name '" + name + "' not defined in experiment.")) && reagent == old(reagent)
      ensures name in experiment.reagentName ==>
        r == Ok(()) && reagent == old(reagent)[name := Reagent(labwareType, reagentName, volume, prepareTo)]
      ensures newLabware == old(newLabware) && existingLabware == old(existingLabware)
    {
      if name !in experiment.reagentName {
        return Err(ValueError("Reagent name '" + name + "' not defined in experiment."));
      }
      reagent := reagent[name := Reagent(labwareType, reagentName, volume, prepareTo)];
      return Ok(());
    }

    /** `add_new_labware`: a name already used is refused; the message names
        the labware type. */
    method AddNewLabware(name: string, labwareType: string, prepareTo: string) returns (r: Result<()>)
      modifies this
      ensures name in old(newLabware) ==>
        r == Err(ValueError("Labware type '" + labwareType + "' already exists.")) && newLabware == old(newLabware)
      ensures name !in old(newLabware) ==>
        r == Ok(()) && newLabware == old(newLabware)[name := LabwareNeed(labwareType, prepareTo)]
      ensures reagent == old(reagent) && existingLabware == old(existingLabware)
    {
      if name in newLabware {
        return Err(ValueError("Labware type '" + labwareType + "' already exists."));
      }
      newLabware := newLabware[name := LabwareNeed(labwareType, prepareTo)];
      return Ok(());
    }

    /** `add_existing_labware`: a name already used is refused. */
    method AddExistingLabware(name: string, labwareType: string, prepareTo: string) returns (r: Result<()>)
      modifies this
      ensures name in old(existingLabware) ==>
        r == Err(ValueError("Sample name '" + name + "' already exists.")) && existingLabware == old(existingLabware)
      ensures name !in old(existingLabware) ==>
        r == Ok(()) && existingLabware == old(existingLabware)[name := LabwareNeed(labwareType, prepareTo)]
      ensures reagent == old(reagent) && newLabware == old(newLabware)
    {
      if name in existingLabware {
        return Err(ValueError("Sample name '" + name + "' already exists."));
      }
      existingLabware := existingLabware[name := LabwareNeed(labwareType, prepareTo)];
      return Ok(());
    }

    /** `__call__`: every keyword must name existing labware of the same
        type; then exactly one call, with a fresh `id`, joins the
        experiment's protocol calls. */
    method Call(id: Uuid, kwds: seq<(string, ParentLabware)>) returns (r: Result<ProtocolCall>)
      modifies experiment
      ensures var refused := FirstRefused(existingLabware, kwds);
        (refused.Some? ==>
          r == Err(Refusal(existingLabware, kwds[refused.value]))
          && experiment.protocolCalls == old(experiment.protocolCalls))
        && (refused.None? ==>
          r == Ok(ProtocolCall(id, duration, this, Args(kwds)))
          && experiment.protocolCalls == old(experiment.protocolCalls) + [r.value])
      ensures experiment.reagentName == old(experiment.reagentName) && experiment.protocols == old(experiment.protocols)
      ensures experiment.stores == old(experiment.stores) && experiment.movesIn == old(experiment.movesIn)
      ensures experiment.movesOut == old(experiment.movesOut)
    {
      for i := 0 to |kwds|
        invariant forall j | 0 <= j < i :: Fits(existingLabware, kwds[j])
      {
        var (name, labware) := kwds[i];
        if name !in existingLabware || existingLabware[name].labwareType != labware.labwareType {
          RefusedAt(existingLabware, kwds, i);
          return Err(Refusal(existingLabware, kwds[i]));
        }
      }
      var call := ProtocolCall(id, duration, this, Args(kwds));
      experiment.protocolCalls := experiment.protocolCalls + [call];
      return Ok(call);
    }
  }

  lemma RefusedAt(existing: map<string, LabwareNeed>, kwds: seq<(string, ParentLabware)>, i: nat)
    requires i < |kwds| && !Fits(existing, kwds[i]) && forall j | 0 <= j < i :: Fits(existing, kwds[j])
    ensures FirstRefused(existing, kwds) == Some(i)
  {
  }

  function CallNodes(cs: seq<ProtocolCall>): (r: seq<ScenarioNode>)
    ensures |r| == |cs| && forall i | 0 <= i < |cs| :: r[i] == CallNode(cs[i])
  {
    if cs == [] then [] else CallNodes(cs[..|cs| - 1]) + [CallNode(cs[|cs| - 1])]
  }

  function StoreNodes(ss: seq<Store>): (r: seq<ScenarioNode>)
    ensures |r| == |ss| && forall i | 0 <= i < |ss| :: r[i] == StoreNode(ss[i])
  {
    if ss == [] then [] else StoreNodes(ss[..|ss| - 1]) + [StoreNode(ss[|ss| - 1])]
  }

  function MoveInNodes(ms: seq<MoveIn>): (r: seq<ScenarioNode>)
    ensures |r| == |ms| && forall i | 0 <= i < |ms| :: r[i] == MoveInNode(ms[i])
  {
    if ms == [] then [] else MoveInNodes(ms[..|ms| - 1]) + [MoveInNode(ms[|ms| - 1])]
  }

  function MoveOutNodes(ms: seq<MoveOut>): (r: seq<ScenarioNode>)
    ensures |r| == |ms| && forall i | 0 <= i < |ms| :: r[i] == MoveOutNode(ms[i])
  {
    if ms == [] then [] else MoveOutNodes(ms[..|ms| - 1]) + [MoveOutNode(ms[|ms| - 1])]
  }

  /** No two entries of a list are equal. */
  predicate NoDuplicates<T(==)>(xs: seq<T>) {
    forall i, j | 0 <= i < j < |xs| :: xs[i] != xs[j]
  }

  /** The experiment: declared reagent names, protocols, and the scenario
      lists that calls, stores and moves append to. */
  class Experiment {
    const name: string
    var reagentName: seq<string>
    var protocols: seq<Protocol>
    var protocolCalls: seq<ProtocolCall>
    var stores: seq<Store>
    var movesIn: seq<MoveIn>
    var movesOut: seq<MoveOut>

    /** The name is valid, and both registries are free of duplicates. */
    predicate Valid()
      reads this
    {
      ValidLabel(name) && NoDuplicates(reagentName)
      && forall i, j | 0 <= i < j < |protocols| :: protocols[i].protocolName != protocols[j].protocolName
    }

    constructor(name: string)
      ensures this.name == name && reagentName == [] && protocols == []
      ensures protocolCalls == [] && stores == [] && movesIn == [] && movesOut == []
    {
      this.name := name;
      reagentName := [];
      protocols := [];
      protocolCalls := [];
      stores := [];
      movesIn := [];
      movesOut := [];
    }

    /** `Experiment(name=...)`: the name is validated. */
    static method New(name: string) returns (r: Result<Experiment>)
      ensures r.Ok? <==> ValidLabel(name)
      ensures r.Err? ==> r.error.ValueError?
      ensures r.Ok? ==> fresh(r.value) && r.value.Valid() && r.value.name == name && r.value.protocolCalls == []
    {
      if !ValidLabel(name) {
        return Err(LabelError());
      }
      var e := new Experiment(name);
      return Ok(e);
    }

    /** `get_scenario_nodes`: calls, then stores, moves in and moves out. */
    function ScenarioNodes(): seq<ScenarioNode>
      reads this
    {
      CallNodes(protocolCalls) + StoreNodes(stores) + MoveInNodes(movesIn) + MoveOutNodes(movesOut)
    }

    /** `new_reagent_name`: a declared name is refused, a new one appended. */
    method NewReagentName(n: string) returns (r: Result<()>)
      requires Valid()
      modifies this
      ensures Valid()
      ensures n in old(reagentName) ==>
        r == Err(ValueError("Reagent name '" + n + "' already exists.")) && reagentName == old(reagentName)
      ensures n !in old(reagentName) ==> r == Ok(()) && reagentName == old(reagentName) + [n]
      ensures protocols == old(protocols) && ScenarioNodes() == old(ScenarioNodes())
    {
      if n in reagentName {
        return Err(ValueError("Reagent name '" + n + "' already exists."));
      }
      reagentName := reagentName + [n];
      return Ok(());
    }

    /** `new_protocol`: a used protocol name is refused; otherwise the name
        is validated and the new, empty protocol appended. */
    method NewProtocol(protocolName: string, duration: Time) returns (r: Result<Protocol>)
      requires Valid()
      modifies this
      ensures Valid()
      ensures (exists i | 0 <= i < |old(protocols)| :: old(protocols)[i].protocolName == protocolName) ==>
        r == Err(ValueError("Protocol name '" + protocolName + "' already exists.")) && protocols == old(protocols)
      ensures (forall i | 0 <= i < |old(protocols)| :: old(protocols)[i].protocolName != protocolName) ==>
        (!ValidLabel(protocolName) ==> r == Err(LabelError()) && protocols == old(protocols))
        && (ValidLabel(protocolName) ==>
              r.Ok? && fresh(r.value) && protocols == old(protocols) + [r.value]
              && r.value.experiment == this && r.value.protocolName == protocolName && r.value.duration == duration
              && r.value.reagent == map[] && r.value.newLabware == map[] && r.value.existingLabware == map[])
      ensures reagentName == old(reagentName) && ScenarioNodes() == old(ScenarioNodes())
    {
      var i := 0;
      while i < |protocols|
        invariant 0 <= i <= |protocols|
        invariant forall j | 0 <= j < i :: protocols[j].protocolName != protocolName
      {
        if protocols[i].protocolName == protocolName {
          return Err(ValueError("Protocol name '" + protocolName + "' already exists."));
        }
        i := i + 1;
      }
      if !ValidLabel(protocolName) {
        return Err(LabelError());
      }
      var p := new Protocol(this, protocolName, duration);
      protocols := protocols + [p];
      return Ok(p);
    }

    /** `store`: the labware is checked, the store appended, and the labware
        handed on from the store. */
    method StoreLabware(storeType: Requirement.StoreType, duration: Time, labware: ParentLabware, id: Uuid)
      returns (r: Result<ParentLabware>)
      requires Valid()
      modifies this
      ensures Valid()
      ensures var check := CheckParentLabware(old(ScenarioNodes()), labware);
        (check.Err? ==> r == Err(check.error) && stores == old(stores))
        && (check.Ok? ==>
              stores == old(stores) + [Store(id, duration, storeType, labware)]
              && r == Ok(StoreGet(Store(id, duration, storeType, labware))))
      ensures reagentName == old(reagentName) && protocols == old(protocols) && protocolCalls == old(protocolCalls)
      ensures movesIn == old(movesIn) && movesOut == old(movesOut)
    {
      var check := CheckParentLabware(ScenarioNodes(), labware);
      if check.Err? {
        return Err(check.error);
      }
      var s := Store(id, duration, storeType, labware);
      stores := stores + [s];
      return Ok(StoreGet(s));
    }

    /** `move_in`: the move is appended before its labware is built, so an
        over-long label fails after the move is recorded. */
    method MoveInLabware(labwareType: string, duration: Time, id: Uuid) returns (r: Result<ParentLabware>)
      requires Valid()
      modifies this
      ensures Valid()
      ensures movesIn == old(movesIn) + [MoveIn(id, duration, labwareType)]
      ensures r == MoveInGet(MoveIn(id, duration, labwareType))
      ensures reagentName == old(reagentName) && protocols == old(protocols) && protocolCalls == old(protocolCalls)
      ensures stores == old(stores) && movesOut == old(movesOut)
    {
      var m := MoveIn(id, duration, labwareType);
      movesIn := movesIn + [m];
      return MoveInGet(m);
    }

    /** `move_out`: the labware is checked and the move appended; nothing is
        handed on. */
    method MoveOutLabware(labware: ParentLabware, duration: Time, id: Uuid) returns (r: Result<()>)
      requires Valid()
      modifies this
      ensures Valid()
      ensures var check := CheckParentLabware(old(ScenarioNodes()), labware);
        r == check
        && (check.Err? ==> movesOut == old(movesOut))
        && (check.Ok? ==> movesOut == old(movesOut) + [MoveOut(id, duration, labware)])
      ensures reagentName == old(reagentName) && protocols == old(protocols) && protocolCalls == old(protocolCalls)
      ensures stores == old(stores) && movesIn == old(movesIn)
    {
      var check := CheckParentLabware(ScenarioNodes(), labware);
      if check.Err? {
        return check;
      }
      movesOut := movesOut + [MoveOut(id, duration, labware)];
      return Ok(());
    }
  }

  // ---------------------------------------------------------------------
  // Reagent totals

  /** A reagent group's key: its container type and reagent name. */
  type Key = (string, string)

  function ReagentKey(r: Reagent): Key {
    (r.labwareType, r.reagentName)
  }

  /** `group_reagents`: the groups as `(key, reagents)` pairs in the
      dictionary's order. */
  method GroupReagents(reagents: seq<Reagent>) returns (items: seq<(Key, seq<Reagent>)>)
    ensures |items| == |Grouping.Keys(reagents, ReagentKey)|
    ensures forall i | 0 <= i < |items| ::
      items[i].0 == Grouping.Keys(reagents, ReagentKey)[i]
      && items[i].1 == Grouping.Group(reagents, ReagentKey, items[i].0)
  {
    var keys, groups := Grouping.GroupBy(reagents, ReagentKey);
    items := [];
    for i := 0 to |keys|
      invariant |items| == i
      invariant forall j | 0 <= j < i :: items[j] == (keys[j], groups[keys[j]])
    {
      items := items + [(keys[i], groups[keys[i]])];
    }
  }

  /** Every group is non-empty and holds exactly the reagents of its key,
      in input order; together the groups hold every reagent once. */
  lemma GroupsOfReagents(reagents: seq<Reagent>, k: Key, i: nat)
    requires k in Grouping.Keys(reagents, ReagentKey)
    requires i < |reagents|
    ensures |Grouping.Group(reagents, ReagentKey, k)| > 0
    ensures ReagentKey(reagents[i]) == k ==> reagents[i] in Grouping.Group(reagents, ReagentKey, k)
    ensures Grouping.TotalSize(reagents, ReagentKey, Grouping.Keys(reagents, ReagentKey)) == |reagents|
  {
    var j :| 0 <= j < |reagents| && ReagentKey(reagents[j]) == k;
    Grouping.GroupHasAll(reagents, ReagentKey, j);
    Grouping.GroupHasAll(reagents, ReagentKey, i);
    Grouping.GroupsPartition(reagents, ReagentKey);
  }

  /** The volumes of a group, in millilitres. */
  function VolumesMl(reqs: seq<Reagent>): (v: seq<real>)
    ensures |v| == |reqs| && forall i | 0 <= i < |reqs| :: v[i] == Requirement.ToMl(reqs[i].volume)
  {
    if reqs == [] then [] else VolumesMl(reqs[..|reqs| - 1]) + [Requirement.ToMl(reqs[|reqs| - 1].volume)]
  }

  /** One reagent per container, in millilitres, to be prepared anywhere. */
  function AsReagents(typeName: string, reagentName: string, volumes: seq<real>): (r: seq<Reagent>)
    ensures |r| == |volumes|
    ensures forall i | 0 <= i < |r| :: r[i] == Reagent(typeName, reagentName, Ml(volumes[i]), "")
  {
    if volumes == [] then []
    else AsReagents(typeName, reagentName, volumes[..|volumes| - 1]) + [Reagent(typeName, reagentName, Ml(volumes[|volumes| - 1]), "")]
  }

  /** One group's entry in `sum_reagent_volumes`: its type is looked up by
      the first reagent's type, must have a single well, and the group's
      volumes are packed into containers of that type. */
  function SumGroup(item: (Key, seq<Reagent>), types: map<string, LabwareType>): (r: Result<(Key, seq<Reagent>)>)
    ensures r.Ok? <==>
      (|item.1| > 0 && item.1[0].labwareType in types && |types[item.1[0].labwareType].maxVolume| == 1)
    ensures |item.1| == 0 ==> r.Err? && r.error.IndexError?
    ensures |item.1| > 0 && item.1[0].labwareType !in types ==> r.Err? && r.error.ValueError?
    ensures |item.1| > 0 && item.1[0].labwareType in types && |types[item.1[0].labwareType].maxVolume| != 1 ==>
      r.Err? && r.error.NotImplementedError?
  {
    var (key, reqs) := item;
    if |reqs| == 0 then Err(IndexError("list index out of range"))
    else if reqs[0].labwareType !in types then
      Err(ValueError("Labware type '" + reqs[0].labwareType + "' not found in labware types."))
    else
      var lt := types[reqs[0].labwareType];
      if |lt.maxVolume| != 1 then
        Err(NotImplementedError("Currently only labware types with a single max volume are supported."))
      else
        var volumes := Compress(VolumesMl(reqs), Requirement.ToMl(lt.maxVolume[0]), Requirement.ToMl(lt.deadVolume));
        Ok(((lt.name, key.1), AsReagents(lt.name, key.1, volumes)))
  }

  /** A group that succeeds yields, under its type's name and its reagent
      name, one reagent per container of its packing, in millilitres and
      with no place to prepare it. */
  lemma SumGroupEntries(item: (Key, seq<Reagent>), types: map<string, LabwareType>)
    requires SumGroup(item, types).Ok?
    ensures var lt := types[item.1[0].labwareType];
      var c := Compress(VolumesMl(item.1), Requirement.ToMl(lt.maxVolume[0]), Requirement.ToMl(lt.deadVolume));
      var e := SumGroup(item, types).value;
      e.0 == (lt.name, item.0.1) && |e.1| == |c|
      && forall i | 0 <= i < |c| :: e.1[i] == Reagent(lt.name, item.0.1, Ml(c[i]), "")
  {
  }

  /** `sum_reagent_volumes`: the groups in order, the first failing group
      raising, a later group replacing an earlier one with the same key. */
  function Summed(items: seq<(Key, seq<Reagent>)>, types: map<string, LabwareType>): Result<map<Key, seq<Reagent>>> {
    if items == [] then Ok(map[])
    else
      var m :- Summed(items[..|items| - 1], types);
      var e :- SumGroup(items[|items| - 1], types);
      Ok(m[e.0 := e.1])
  }

  method SumReagentVolumes(items: seq<(Key, seq<Reagent>)>, types: map<string, LabwareType>)
    returns (r: Result<map<Key, seq<Reagent>>>)
    ensures r == Summed(items, types)
  {
    var summed: map<Key, seq<Reagent>> := map[];
    for i := 0 to |items|
      invariant Summed(items[..i], types) == Ok(summed)
    {
      var (key, reqs) := items[i];
      if |reqs| == 0 {
        SummedFails(items, i, types, summed);
        return Err(IndexError("list index out of range"));
      }
      if reqs[0].labwareType !in types {
        SummedFails(items, i, types, summed);
        return Err(ValueError("Labware type '" + reqs[0].labwareType + "' not found in labware types."));
      }
      var lt := types[reqs[0].labwareType];
      if |lt.maxVolume| != 1 {
        SummedFails(items, i, types, summed);
        return Err(NotImplementedError("Currently only labware types with a single max volume are supported."));
      }
      var volumes := CompressList(VolumesMl(reqs), Requirement.ToMl(lt.maxVolume[0]), Requirement.ToMl(lt.deadVolume));
      assert SumGroup(items[i], types) == Ok(((lt.name, key.1), AsReagents(lt.name, key.1, volumes)));
      SummedStep(items, i, types, summed);
      summed := summed[(lt.name, key.1) := AsReagents(lt.name, key.1, volumes)];
    }
    assert items[..|items|] == items;
    return Ok(summed);
  }

  lemma SummedStep(items: seq<(Key, seq<Reagent>)>, i: nat, types: map<string, LabwareType>, m: map<Key, seq<Reagent>>)
    requires i < |items| && Summed(items[..i], types) == Ok(m) && SumGroup(items[i], types).Ok?
    ensures var e := SumGroup(items[i], types).value;
      Summed(items[..i + 1], types) == Ok(m[e.0 := e.1])
  {
    assert items[..i + 1][..i] == items[..i];
  }

  lemma SummedFails(items: seq<(Key, seq<Reagent>)>, i: nat, types: map<string, LabwareType>, m: map<Key, seq<Reagent>>)
    requires i < |items| && Summed(items[..i], types) == Ok(m) && SumGroup(items[i], types).Err?
    ensures Summed(items, types) == Err(SumGroup(items[i], types).error)
  {
    assert items[..i + 1][..i] == items[..i];
    SummedKeepsError(items, i + 1, types);
  }

  /** Once a prefix of the groups fails, the whole fails the same way. */
  lemma {:induction false} SummedKeepsError(items: seq<(Key, seq<Reagent>)>, n: nat, types: map<string, LabwareType>)
    requires n <= |items|
    ensures Summed(items[..n], types).Err? ==> Summed(items, types) == Summed(items[..n], types)
    decreases |items| - n
  {
    if n < |items| {
      SummedKeepsError(items, n + 1, types);
      assert items[..n + 1][..n] == items[..n];
    } else {
      assert items[..n] == items;
    }
  }

  /** Summing succeeds exactly when every group does. */
  lemma {:induction false} SummedOk(items: seq<(Key, seq<Reagent>)>, types: map<string, LabwareType>)
    ensures Summed(items, types).Ok? <==> forall i | 0 <= i < |items| :: SumGroup(items[i], types).Ok?
  {
    if items != [] {
      var init := items[..|items| - 1];
      SummedOk(init, types);
      assert Summed(items, types).Ok? <==> Summed(init, types).Ok? && SumGroup(items[|init|], types).Ok?;
      AllGroupsSplit(items, init, types);
    }
  }

  lemma AllGroupsSplit(items: seq<(Key, seq<Reagent>)>, init: seq<(Key, seq<Reagent>)>, types: map<string, LabwareType>)
    requires items != [] && init == items[..|items| - 1]
    ensures (forall i | 0 <= i < |items| :: SumGroup(items[i], types).Ok?) <==>
      (forall i | 0 <= i < |init| :: SumGroup(init[i], types).Ok?)
      && SumGroup(items[|init|], types).Ok?
  {
    if forall i | 0 <= i < |items| :: SumGroup(items[i], types).Ok? {
      forall i | 0 <= i < |init| ensures SumGroup(init[i], types).Ok? {
        assert init[i] == items[i];
      }
    }
    if (forall i | 0 <= i < |init| :: SumGroup(init[i], types).Ok?) && SumGroup(items[|init|], types).Ok? {
      forall i | 0 <= i < |items| ensures SumGroup(items[i], types).Ok? {
        if i < |init| {
          assert init[i] == items[i];
        }
      }
    }
  }

  /** Each entry of `m` is what some group produced under its key. */
  predicate EntriesFromGroups(items: seq<(Key, seq<Reagent>)>, types: map<string, LabwareType>, m: map<Key, seq<Reagent>>) {
    forall k | k in m :: exists i | 0 <= i < |items| :: SumGroup(items[i], types) == Ok((k, m[k]))
  }

  /** Every group succeeded and has an entry in `m` under its key. */
  predicate GroupsHaveEntries(items: seq<(Key, seq<Reagent>)>, types: map<string, LabwareType>, m: map<Key, seq<Reagent>>) {
    forall i | 0 <= i < |items| :: SumGroup(items[i], types).Ok? && SumGroup(items[i], types).value.0 in m
  }

  /** On success each entry is the packing of some group under its key,
      and every group has an entry under its key. */
  lemma {:induction false} SummedEntries(items: seq<(Key, seq<Reagent>)>, types: map<string, LabwareType>)
    requires Summed(items, types).Ok?
    ensures EntriesFromGroups(items, types, Summed(items, types).value)
    ensures GroupsHaveEntries(items, types, Summed(items, types).value)
  {
    if items != [] {
      var init := items[..|items| - 1];
      var last := items[|items| - 1];
      SummedEntries(init, types);
      var m0 := Summed(init, types).value;
      var e := SumGroup(last, types).value;
      var m := Summed(items, types).value;
      assert m == m0[e.0 := e.1];
      EntriesStep(items, types, m0, e, m);
    }
  }

  lemma EntriesStep(items: seq<(Key, seq<Reagent>)>, types: map<string, LabwareType>,
                    m0: map<Key, seq<Reagent>>, e: (Key, seq<Reagent>), m: map<Key, seq<Reagent>>)
    requires items != [] && SumGroup(items[|items| - 1], types) == Ok(e) && m == m0[e.0 := e.1]
    requires EntriesFromGroups(items[..|items| - 1], types, m0) && GroupsHaveEntries(items[..|items| - 1], types, m0)
    ensures EntriesFromGroups(items, types, m) && GroupsHaveEntries(items, types, m)
  {
    EntriesFromStep(items, types, m0, e, m);
    GroupsHaveStep(items, types, m0, e, m);
  }

  lemma EntriesFromStep(items: seq<(Key, seq<Reagent>)>, types: map<string, LabwareType>,
                        m0: map<Key, seq<Reagent>>, e: (Key, seq<Reagent>), m: map<Key, seq<Reagent>>)
    requires items != [] && SumGroup(items[|items| - 1], types) == Ok(e) && m == m0[e.0 := e.1]
    requires EntriesFromGroups(items[..|items| - 1], types, m0)
    ensures EntriesFromGroups(items, types, m)
  {
    var init := items[..|items| - 1];
    forall k | k in m ensures exists i | 0 <= i < |items| :: SumGroup(items[i], types) == Ok((k, m[k])) {
      if k == e.0 {
        assert SumGroup(items[|init|], types) == Ok((k, m[k]));
      } else {
        var i :| 0 <= i < |init| && SumGroup(init[i], types) == Ok((k, m0[k]));
        assert items[i] == init[i];
      }
    }
  }

  lemma GroupsHaveStep(items: seq<(Key, seq<Reagent>)>, types: map<string, LabwareType>,
                       m0: map<Key, seq<Reagent>>, e: (Key, seq<Reagent>), m: map<Key, seq<Reagent>>)
    requires items != [] && SumGroup(items[|items| - 1], types) == Ok(e) && m == m0[e.0 := e.1]
    requires GroupsHaveEntries(items[..|items| - 1], types, m0)
    ensures GroupsHaveEntries(items, types, m)
  {
    var init := items[..|items| - 1];
    forall i | 0 <= i < |items| ensures SumGroup(items[i], types).Ok? && SumGroup(items[i], types).value.0 in m {
      if i < |init| {
        assert items[i] == init[i];
      }
    }
  }

  /** Grouped reagents never hit the empty-group case: only the type lookup
      and the single-well rule can fail. */
  lemma GroupedNeverEmpty(reagents: seq<Reagent>, items: seq<(Key, seq<Reagent>)>, i: nat)
    requires |items| == |Grouping.Keys(reagents, ReagentKey)|
    requires forall j | 0 <= j < |items| ::
      items[j].0 == Grouping.Keys(reagents, ReagentKey)[j]
      && items[j].1 == Grouping.Group(reagents, ReagentKey, items[j].0)
    requires i < |items|
    ensures |items[i].1| > 0 && items[i].1[0].labwareType == items[i].0.0
  {
    var k := items[i].0;
    assert k in Grouping.Keys(reagents, ReagentKey);
    var j :| 0 <= j < |reagents| && ReagentKey(reagents[j]) == k;
    Grouping.GroupHasAll(reagents, ReagentKey, j);
  }
}
