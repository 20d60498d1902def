/** The scenario-building experiment of `src/protocol/experiment.py`:
    protocols declare reagents and labware, calling a protocol appends a
    snapshot of it to the experiment's scenario, and the reagents of all
    protocols are grouped and split into containers. Container types are
    values here (compared field by field), not names. */
module ScenarioExperiment {
  import opened Common
  import Requirement
  import Grouping
  import opened Labware

  /** `Reagent`: a volume of a named reagent in a container type. */
  datatype Reagent = Reagent(labwareType: LabwareType, reagentName: string, volume: Volume, prepareTo: string)

  /** `NewLabware` and `ExistingLabware`: a container type and where to
      prepare it. */
  datatype LabwareNeed = LabwareNeed(labwareType: LabwareType, prepareTo: string)

  /** `ParentLabware`: a labware as handed on by a scenario item. */
  datatype ParentLabware = ParentLabware(protocolId: Uuid, labwareLabel: string, labwareType: LabwareType)

  /** The `min_length=1, max_length=100` constraint on names and labels. */
  predicate ValidLabel(s: string) {
    1 <= |s| <= 100
  }

  function LabelError(): Exception {
    ValueError("String should have between 1 and 100 characters")
  }

  /** A container type in messages, by its name. */
  function TypeText(lt: LabwareType): string {
    "name='" + lt.name + "'"
  }

  /** Building a `ParentLabware` validates its label. */
  function NewParent(id: Uuid, name: string, labwareType: LabwareType): (r: Result<ParentLabware>)
    ensures r.Ok? <==> ValidLabel(name)
    ensures r.Ok? ==> r.value == ParentLabware(id, name, labwareType)
    ensures r.Err? ==> r.error.ValueError?
  {
    if ValidLabel(name) then Ok(ParentLabware(id, name, labwareType)) else Err(LabelError())
  }

  /** `ProtocolCall`: a copy of the protocol's declarations at the time of
      the call, with its own id and the labware it was called with. */
  datatype ProtocolCall = ProtocolCall(
    id: Uuid,
    protocolName: string,
    reagent: map<string, Reagent>,
    newLabware: map<string, LabwareNeed>,
    existingLabware: map<string, LabwareNeed>,
    duration: Time,
    args: map<string, ParentLabware>)

  /** `Store`: keeping labware under a storage condition for a while. */
  datatype Store = Store(id: Uuid, args: map<string, ParentLabware>, storeType: Requirement.StoreType, duration: Time)

  /** An entry of `Experiment.scenario`. */
  datatype ScenarioItem = CallItem(call: ProtocolCall) | StoreItem(store: Store)

  // ---------------------------------------------------------------------
  // Handing labware on

  /** `ProtocolCall.get`: the labware of that name, existing labware first,
      then new labware, handed on from this call. */
  function CallGet(c: ProtocolCall, name: string): (r: Result<ParentLabware>)
    ensures r.Ok? <==> (name in c.existingLabware || name in c.newLabware) && ValidLabel(name)
    ensures r.Ok? ==> r.value.protocolId == c.id && r.value.labwareLabel == name
    ensures r.Ok? && name in c.existingLabware ==> r.value.labwareType == c.existingLabware[name].labwareType
    ensures r.Ok? && name !in c.existingLabware ==> r.value.labwareType == c.newLabware[name].labwareType
    ensures name !in c.existingLabware && name !in c.newLabware ==>
      r == Err(ValueError("Labware name '" + name + "' not found in protocol."))
    ensures r.Err? ==> r.error.ValueError?
  {
    if name in c.existingLabware then NewParent(c.id, name, c.existingLabware[name].labwareType)
    else if name in c.newLabware then NewParent(c.id, name, c.newLabware[name].labwareType)
    else Err(ValueError("Labware name '" + name + "' not found in protocol."))
  }

  /** `Store.get`: a labware the store was given, handed on from the store
      under the name it was given by. */
  function StoreGet(s: Store, name: string): (r: Result<ParentLabware>)
    ensures r.Ok? <==> name in s.args && ValidLabel(name)
    ensures r.Ok? ==> r.value == s.args[name].(protocolId := s.id, labwareLabel := name)
    ensures name !in s.args ==> r == Err(ValueError("Labware name '" + name + "' not found in store."))
    ensures r.Err? ==> r.error.ValueError?
  {
    if name in s.args then NewParent(s.id, name, s.args[name].labwareType)
    else Err(ValueError("Labware name '" + name + "' not found in store."))
  }

  // ---------------------------------------------------------------------
  // Calling a protocol

  /** The keyword argument is existing labware of the declared type. */
  predicate Fits(existing: map<string, LabwareNeed>, kw: (string, ParentLabware)) {
    kw.0 in existing && existing[kw.0].labwareType == kw.1.labwareType
  }

  /** The position of the first keyword argument a call refuses. */
  function FirstRefused(existing: map<string, LabwareNeed>, kwds: seq<(string, ParentLabware)>): (r: Option<nat>)
    ensures r.None? <==> forall i | 0 <= i < |kwds| :: Fits(existing, kwds[i])
    ensures r.Some? ==>
      (r.value < |kwds| && !Fits(existing, kwds[r.value])
       && forall i | 0 <= i < r.value :: Fits(existing, kwds[i]))
  {
    if kwds == [] then None
    else if !Fits(existing, kwds[0]) then Some(0)
    else
      var r := FirstRefused(existing, kwds[1..]);
      assert forall i | 1 <= i < |kwds| :: kwds[i] == kwds[1..][i - 1];
      if r.None? then None else Some(r.value + 1)
  }

  function Refusal(existing: map<string, LabwareNeed>, kw: (string, ParentLabware)): Exception {
    if kw.0 !in existing then ValueError("Labware name '" + kw.0 + "' not found in protocol.")
    else ValueError("Labware type mismatch for '" + kw.0 + "': expected '" + TypeText(existing[kw.0].labwareType)
                    + "', got '" + TypeText(kw.1.labwareType) + "'.")
  }

  /** The keyword arguments as the `args` dictionary. */
  function Args(kwds: seq<(string, ParentLabware)>): (m: map<string, ParentLabware>)
    ensures forall n :: n in m <==> exists i | 0 <= i < |kwds| :: kwds[i].0 == n
    ensures forall n | n in m :: exists i | 0 <= i < |kwds| :: kwds[i] == (n, m[n])
  {
    if kwds == [] then map[]
    else
      var init := kwds[..|kwds| - 1];
      assert forall i | 0 <= i < |init| :: init[i] == kwds[i];
      Args(init)[kwds[|kwds| - 1].0 := kwds[|kwds| - 1].1]
  }

  lemma RefusedAt(existing: map<string, LabwareNeed>, kwds: seq<(string, ParentLabware)>, i: nat)
    requires i < |kwds| && !Fits(existing, kwds[i]) && forall j | 0 <= j < i :: Fits(existing, kwds[j])
    ensures FirstRefused(existing, kwds) == Some(i)
  {
  }

  /** A call that was accepted holds, under each argument name, existing
      labware of the declared type. */
  lemma AcceptedArgsFit(existing: map<string, LabwareNeed>, kwds: seq<(string, ParentLabware)>)
    requires FirstRefused(existing, kwds).None?
    ensures forall n | n in Args(kwds) :: n in existing && existing[n].labwareType == Args(kwds)[n].labwareType
  {
    forall n | n in Args(kwds) ensures n in existing && existing[n].labwareType == Args(kwds)[n].labwareType {
      var i :| 0 <= i < |kwds| && kwds[i] == (n, Args(kwds)[n]);
      assert Fits(existing, kwds[i]);
    }
  }

  /** What a call hands on is accepted by a protocol that declares existing
      labware of the same type under the argument's name. */
  lemma HandedOnAccepted(c: ProtocolCall, name: string, existing: map<string, LabwareNeed>, argName: string)
    requires CallGet(c, name).Ok? && argName in existing
    ensures Fits(existing, (argName, CallGet(c, name).value)) <==>
      existing[argName].labwareType ==
        (if name in c.existingLabware then c.existingLabware[name] else c.newLabware[name]).labwareType
  {
  }

  /** A call's existing labware, handed back to a call of the same
      declarations under the same name, is accepted. */
  lemma {:induction false} GetThenCall(c: ProtocolCall, names: seq<string>)
    requires forall i | 0 <= i < |names| :: names[i] in c.existingLabware && ValidLabel(names[i])
    ensures forall i | 0 <= i < |names| :: CallGet(c, names[i]).Ok?
    ensures FirstRefused(c.existingLabware, seq(|names|, i requires 0 <= i < |names| => (names[i], CallGet(c, names[i]).value))).None?
  {
    var kwds := seq(|names|, i requires 0 <= i < |names| => (names[i], CallGet(c, names[i]).value));
    forall i | 0 <= i < |kwds| ensures Fits(c.existingLabware, kwds[i]) {
      assert kwds[i] == (names[i], CallGet(c, names[i]).value);
    }
  }

  /** A protocol of the experiment: its reagents, the labware it creates and
      the labware it works on, each by name. */
  class Protocol {
    const experiment: Experiment
    const protocolName: string
    const duration: Time
    var reagent: map<string, Reagent>
    var newLabware: map<string, LabwareNeed>
    var existingLabware: map<string, LabwareNeed>

    constructor(experiment: Experiment, protocolName: string, duration: Time)
      ensures this.experiment == experiment && this.protocolName == protocolName && this.duration == duration
      ensures reagent == map[] && newLabware == map[] && existingLabware == map[]
    {
      this.experiment := experiment;
      this.protocolName := protocolName;
      this.duration := duration;
      reagent := map[];
      newLabware := map[];
      existingLabware := map[];
    }

    /** `add_reagent`: only a reagent name the experiment declared; an
        existing entry is silently replaced. */
    method AddReagent(name: string, labwareType: LabwareType, reagentName: string, volume: Volume, prepareTo: string)
      returns (r: Result<()>)
      modifies this
      ensures name !in experiment.reagentName ==>
        r == Err(ValueError("Reagent name '" + name + "' not defined in experiment.")) && reagent == old(reagent)
      ensures name in experiment.reagentName ==>
        r == Ok(()) && reagent == old(reagent)[name := Reagent(labwareType, reagentName, volume, prepareTo)]
      ensures newLabware == old(newLabware) && existingLabware == old(existingLabware)
    {
      if name !in experiment.reagentName {
        return Err(ValueError("Reagent name '" + name + "' not defined in experiment."));
      }
      reagent := reagent[name := Reagent(labwareType, reagentName, volume, prepareTo)];
      return Ok(());
    }

    /** `add_new_labware`: a name already used is refused; the message names
        the container type. */
    method AddNewLabware(name: string, labwareType: LabwareType, prepareTo: string) returns (r: Result<()>)
      modifies this
      ensures name in old(newLabware) ==>
        r == Err(ValueError("Labware type '" + TypeText(labwareType) + "' already exists."))
        && newLabware == old(newLabware)
      ensures name !in old(newLabware) ==>
        r == Ok(()) && newLabware == old(newLabware)[name := LabwareNeed(labwareType, prepareTo)]
      ensures reagent == old(reagent) && existingLabware == old(existingLabware)
    {
      if name in newLabware {
        return Err(ValueError("Labware type '" + TypeText(labwareType) + "' already exists."));
      }
      newLabware := newLabware[name := LabwareNeed(labwareType, prepareTo)];
      return Ok(());
    }

    /** `add_existing_labware`: a name already used is refused. */
    method AddExistingLabware(name: string, labwareType: LabwareType, prepareTo: string) returns (r: Result<()>)
      modifies this
      ensures name in old(existingLabware) ==>
        r == Err(ValueError("Sample name '" + name + "' already exists.")) && existingLabware == old(existingLabware)
      ensures name !in old(existingLabware) ==>
        r == Ok(()) && existingLabware == old(existingLabware)[name := LabwareNeed(labwareType, prepareTo)]
      ensures reagent == old(reagent) && newLabware == old(newLabware)
    {
      if name in existingLabware {
        return Err(ValueError("Sample name '" + name + "' already exists."));
      }
      existingLabware := existingLabware[name := LabwareNeed(labwareType, prepareTo)];
      return Ok(());
    }

    /** `__call__`: every keyword must name existing labware of the same
        type; then one call, copying the declarations, joins the scenario. */
    method Call(id: Uuid, kwds: seq<(string, ParentLabware)>) returns (r: Result<ProtocolCall>)
      modifies experiment
      ensures var refused := FirstRefused(existingLabware, kwds);
        (refused.Some? ==>
          r == Err(Refusal(existingLabware, kwds[refused.value]))
          && experiment.scenario == old(experiment.scenario))
        && (refused.None? ==>
          r == Ok(ProtocolCall(id, protocolName, reagent, newLabware, existingLabware, duration, Args(kwds)))
          && experiment.scenario == old(experiment.scenario) + [CallItem(r.value)])
      ensures experiment.reagentName == old(experiment.reagentName) && experiment.protocols == old(experiment.protocols)
    {
      for i := 0 to |kwds|
        invariant forall j | 0 <= j < i :: Fits(existingLabware, kwds[j])
      {
        var (name, labware) := kwds[i];
        if name !in existingLabware || existingLabware[name].labwareType != labware.labwareType {
          RefusedAt(existingLabware, kwds, i);
          return Err(Refusal(existingLabware, kwds[i]));
        }
      }
      var call := ProtocolCall(id, protocolName, reagent, newLabware, existingLabware, duration, Args(kwds));
      experiment.scenario := experiment.scenario + [CallItem(call)];
      return Ok(call);
    }
  }

  // ---------------------------------------------------------------------
  // The experiment

  /** No two entries of a list are equal. */
  predicate NoDuplicates<T(==)>(xs: seq<T>) {
    forall i, j | 0 <= i < j < |xs| :: xs[i] != xs[j]
  }

  /** The experiment: declared reagent names, protocols, and the scenario
      that protocol calls append to. */
  class Experiment {
    const name: string
    var reagentName: seq<string>
    var protocols: seq<Protocol>
    var scenario: seq<ScenarioItem>

    /** The name is valid, and both registries are free of duplicates. */
    predicate Valid()
      reads this, protocols
    {
      ValidLabel(name) && NoDuplicates(reagentName)
      && forall i, j | 0 <= i < j < |protocols| :: protocols[i].protocolName != protocols[j].protocolName
    }

    constructor(name: string)
      ensures this.name == name && reagentName == [] && protocols == [] && scenario == []
    {
      this.name := name;
      reagentName := [];
      protocols := [];
      scenario := [];
    }

    /** `Experiment(name=...)`: the name is validated. */
    static method New(name: string) returns (r: Result<Experiment>)
      ensures r.Ok? <==> ValidLabel(name)
      ensures r.Err? ==> r.error.ValueError?
      ensures r.Ok? ==> fresh(r.value) && r.value.Valid() && r.value.name == name && r.value.scenario == []
    {
      if !ValidLabel(name) {
        return Err(LabelError());
      }
      var e := new Experiment(name);
      return Ok(e);
    }

    /** `new_reagent_name`: a declared name is refused, a new one appended. */
    method NewReagentName(n: string) returns (r: Result<()>)
      requires Valid()
      modifies this
      ensures Valid()
      ensures n in old(reagentName) ==>
        r == Err(ValueError("Reagent name '" + n + "' already exists.")) && reagentName == old(reagentName)
      ensures n !in old(reagentName) ==> r == Ok(()) && reagentName == old(reagentName) + [n]
      ensures protocols == old(protocols) && scenario == old(scenario)
    {
      if n in reagentName {
        return Err(ValueError("Reagent name '" + n + "' already exists."));
      }
      reagentName := reagentName + [n];
      return Ok(());
    }

    /** `new_protocol`: a used protocol name is refused; otherwise the name
        is validated and the new, empty protocol appended. */
    method NewProtocol(protocolName: string, duration: Time) returns (r: Result<Protocol>)
      requires Valid()
      modifies this
      ensures Valid()
      ensures (exists i | 0 <= i < |old(protocols)| :: old(protocols)[i].protocolName == protocolName) ==>
        r == Err(ValueError("Protocol name '" + protocolName + "' already exists.")) && protocols == old(protocols)
      ensures (forall i | 0 <= i < |old(protocols)| :: old(protocols)[i].protocolName != protocolName) ==>
        (!ValidLabel(protocolName) ==> r == Err(LabelError()) && protocols == old(protocols))
        && (ValidLabel(protocolName) ==>
              r.Ok? && fresh(r.value) && protocols == old(protocols) + [r.value]
              && r.value.experiment == this && r.value.protocolName == protocolName && r.value.duration == duration
              && r.value.reagent == map[] && r.value.newLabware == map[] && r.value.existingLabware == map[])
      ensures reagentName == old(reagentName) && scenario == old(scenario)
    {
      var i := 0;
      while i < |protocols|
        invariant 0 <= i <= |protocols|
        invariant forall j | 0 <= j < i :: protocols[j].protocolName != protocolName
      {
        if protocols[i].protocolName == protocolName {
          return Err(ValueError("Protocol name '" + protocolName + "' already exists."));
        }
        i := i + 1;
      }
      if !ValidLabel(protocolName) {
        return Err(LabelError());
      }
      var p := new Protocol(this, protocolName, duration);
      protocols := protocols + [p];
      return Ok(p);
    }
  }

  // ---------------------------------------------------------------------
  // Splitting a total volume into containers

  /** The inputs for which `volume_list` stops: nothing to split, all of it
      fits one container, or each full container takes something away. */
  predicate Terminates(total: real, maxVolume: real, deadVolume: real) {
    total <= 0.0 || total + deadVolume <= maxVolume || deadVolume < maxVolume
  }

  /** How many more rounds the loop may take, at most. */
  function Rounds(total: real, maxVolume: real, deadVolume: real): nat {
    if total <= 0.0 then 0
    else if total + deadVolume <= maxVolume || maxVolume <= deadVolume then 1
    else
      Quotient(total, maxVolume - deadVolume);
      (total / (maxVolume - deadVolume)).Floor + 2
  }

  /** Dividing a positive amount by a positive one, and taking one divisor
      away first. */
  lemma Quotient(a: real, d: real)
    requires a > 0.0 && d > 0.0
    ensures a / d > 0.0
    ensures a <= d ==> a / d <= 1.0
    ensures (a - d) / d == a / d - 1.0
  {
    var x := a / d;
    var y := (a - d) / d;
    assert x * d == a;
    assert y * d == a - d;
    assert (x - 1.0 - y) * d == 0.0;
    ZeroProduct(x - 1.0 - y, d);
    if a <= d {
      assert (1.0 - x) * d == d - a;
      NonNegativeFactor(1.0 - x, d);
    }
  }

  lemma ZeroProduct(p: real, d: real)
    requires d != 0.0 && p * d == 0.0
    ensures p == 0.0
  {
  }

  lemma NonNegativeFactor(p: real, d: real)
    requires d > 0.0 && p * d >= 0.0
    ensures p >= 0.0
  {
  }

  lemma RoundsDecrease(total: real, maxVolume: real, deadVolume: real)
    requires total > 0.0 && total + deadVolume > maxVolume && deadVolume < maxVolume
    ensures Rounds(total - (maxVolume - deadVolume), maxVolume, deadVolume) < Rounds(total, maxVolume, deadVolume)
  {
    var d := maxVolume - deadVolume;
    var x := total / d;
    Quotient(total, d);
    assert (x - 1.0).Floor == x.Floor - 1;
  }

  /** The containers `volume_list` fills: full ones while the rest with its
      dead volume overflows a container, then one for the rest. */
  function Volumes(total: real, maxVolume: real, deadVolume: real): seq<real>
    requires Terminates(total, maxVolume, deadVolume)
    decreases Rounds(total, maxVolume, deadVolume)
  {
    if total <= 0.0 then []
    else if total + deadVolume > maxVolume then
      RoundsDecrease(total, maxVolume, deadVolume);
      [maxVolume] + Volumes(total - (maxVolume - deadVolume), maxVolume, deadVolume)
    else [total + deadVolume]
  }

  /** `volume_list`. The loop does not stop when a container holds no more
      than its dead volume (see `NeverEnds`), hence the precondition. */
  method VolumeList(totalVolume: real, maxVolume: real, deadVolume: real) returns (volumes: seq<real>)
    requires Terminates(totalVolume, maxVolume, deadVolume)
    ensures volumes == Volumes(totalVolume, maxVolume, deadVolume)
  {
    volumes := [];
    var total := totalVolume;
    while total > 0.0
      invariant Terminates(total, maxVolume, deadVolume)
      invariant volumes + Volumes(total, maxVolume, deadVolume) == Volumes(totalVolume, maxVolume, deadVolume)
      decreases Rounds(total, maxVolume, deadVolume)
    {
      if total + deadVolume > maxVolume {
        RoundsDecrease(total, maxVolume, deadVolume);
        volumes := volumes + [maxVolume];
        total := total - (maxVolume - deadVolume);
      } else {
        volumes := volumes + [total + deadVolume];
        total := 0.0;
      }
    }
  }

  /** Nothing to split gives no container; otherwise every container but
      the last is full, and each holds more than the dead volume and no
      more than the maximum. */
  lemma {:induction false} VolumesShape(total: real, maxVolume: real, deadVolume: real)
    requires Terminates(total, maxVolume, deadVolume)
    ensures var v := Volumes(total, maxVolume, deadVolume);
      (v == [] <==> total <= 0.0)
      && (forall i | 0 <= i < |v| - 1 :: v[i] == maxVolume)
      && (forall i | 0 <= i < |v| :: deadVolume < v[i] <= maxVolume)
    decreases Rounds(total, maxVolume, deadVolume)
  {
    if total > 0.0 && total + deadVolume > maxVolume {
      var rest := total - (maxVolume - deadVolume);
      RoundsDecrease(total, maxVolume, deadVolume);
      VolumesShape(rest, maxVolume, deadVolume);
      var v := Volumes(total, maxVolume, deadVolume);
      assert v == [maxVolume] + Volumes(rest, maxVolume, deadVolume);
      assert Volumes(rest, maxVolume, deadVolume) != [];
    }
  }

  /** Without the dead volumes the containers hold exactly the total. */
  lemma {:induction false} VolumesTotal(total: real, maxVolume: real, deadVolume: real)
    requires Terminates(total, maxVolume, deadVolume) && total > 0.0
    ensures var v := Volumes(total, maxVolume, deadVolume);
      Total(v) == total + Times(|v|, deadVolume)
    decreases Rounds(total, maxVolume, deadVolume)
  {
    var v := Volumes(total, maxVolume, deadVolume);
    if total + deadVolume > maxVolume {
      var rest := total - (maxVolume - deadVolume);
      RoundsDecrease(total, maxVolume, deadVolume);
      VolumesTotal(rest, maxVolume, deadVolume);
      TotalConcat([maxVolume], Volumes(rest, maxVolume, deadVolume));
      assert [maxVolume][..0] == [];
    } else {
      assert v[..0] == [];
    }
  }

  /** The smallest integer not below `x`. */
  function Ceil(x: real): int {
    -((-x).Floor)
  }

  /** When containers take more than their dead volume, there are
      `ceil(total / (max - dead))` of them. */
  lemma {:induction false} VolumesCount(total: real, maxVolume: real, deadVolume: real)
    requires deadVolume < maxVolume && total > 0.0
    ensures |Volumes(total, maxVolume, deadVolume)| == Ceil(total / (maxVolume - deadVolume))
    decreases Rounds(total, maxVolume, deadVolume)
  {
    var d := maxVolume - deadVolume;
    var x := total / d;
    if total + deadVolume > maxVolume {
      var rest := total - d;
      RoundsDecrease(total, maxVolume, deadVolume);
      VolumesCount(rest, maxVolume, deadVolume);
      Quotient(total, d);
      assert Ceil(x - 1.0) == Ceil(x) - 1;
    } else {
      Quotient(total, d);
    }
  }

  /** One round of the loop. */
  function Next(total: real, maxVolume: real, deadVolume: real): real {
    if total + deadVolume > maxVolume then total - (maxVolume - deadVolume) else 0.0
  }

  function After(total: real, maxVolume: real, deadVolume: real, n: nat): real {
    if n == 0 then total else Next(After(total, maxVolume, deadVolume, n - 1), maxVolume, deadVolume)
  }

  /** Outside the precondition the loop never stops: the rest never drops
      below the starting total, so it stays positive. */
  lemma {:induction false} NeverEnds(total: real, maxVolume: real, deadVolume: real, n: nat)
    requires !Terminates(total, maxVolume, deadVolume)
    ensures After(total, maxVolume, deadVolume, n) >= total > 0.0
  {
    if n > 0 {
      NeverEnds(total, maxVolume, deadVolume, n - 1);
    }
  }

  // ---------------------------------------------------------------------
  // Reagent totals

  /** A reagent group's key: its container type's name and reagent name. */
  type Key = (string, string)

  function ReagentKey(r: Reagent): Key {
    (r.labwareType.name, r.reagentName)
  }

  /** `group_reagents`: the groups as `(key, reagents)` pairs in the
      dictionary's order. */
  method GroupReagents(reagents: seq<Reagent>) returns (items: seq<(Key, seq<Reagent>)>)
    ensures |items| == |Grouping.Keys(reagents, ReagentKey)|
    ensures forall i | 0 <= i < |items| ::
      items[i].0 == Grouping.Keys(reagents, ReagentKey)[i]
      && items[i].1 == Grouping.Group(reagents, ReagentKey, items[i].0)
  {
    var keys, groups := Grouping.GroupBy(reagents, ReagentKey);
    items := [];
    for i := 0 to |keys|
      invariant |items| == i
      invariant forall j | 0 <= j < i :: items[j] == (keys[j], groups[keys[j]])
    {
      items := items + [(keys[i], groups[keys[i]])];
    }
  }

  /** Every group is non-empty, its first reagent's type has the key's
      name, and it holds every reagent of its key; together the groups hold
      every reagent once. */
  lemma GroupsOfReagents(reagents: seq<Reagent>, k: Key, i: nat)
    requires k in Grouping.Keys(reagents, ReagentKey)
    requires i < |reagents|
    ensures var g := Grouping.Group(reagents, ReagentKey, k);
      |g| > 0 && g[0].labwareType.name == k.0
    ensures ReagentKey(reagents[i]) == k ==> reagents[i] in Grouping.Group(reagents, ReagentKey, k)
    ensures Grouping.TotalSize(reagents, ReagentKey, Grouping.Keys(reagents, ReagentKey)) == |reagents|
  {
    var j :| 0 <= j < |reagents| && ReagentKey(reagents[j]) == k;
    Grouping.GroupHasAll(reagents, ReagentKey, j);
    Grouping.GroupHasAll(reagents, ReagentKey, i);
    Grouping.GroupsPartition(reagents, ReagentKey);
  }

  /** The volumes of a group, in millilitres. */
  function VolumesMl(reqs: seq<Reagent>): (v: seq<real>)
    ensures |v| == |reqs| && forall i | 0 <= i < |reqs| :: v[i] == Requirement.ToMl(reqs[i].volume)
  {
    if reqs == [] then [] else VolumesMl(reqs[..|reqs| - 1]) + [Requirement.ToMl(reqs[|reqs| - 1].volume)]
  }

  /** One reagent per container, in millilitres, to be prepared anywhere. */
  function AsReagents(lt: LabwareType, reagentName: string, volumes: seq<real>): (r: seq<Reagent>)
    ensures |r| == |volumes|
    ensures forall i | 0 <= i < |r| :: r[i] == Reagent(lt, reagentName, Ml(volumes[i]), "")
  {
    if volumes == [] then []
    else AsReagents(lt, reagentName, volumes[..|volumes| - 1]) + [Reagent(lt, reagentName, Ml(volumes[|volumes| - 1]), "")]
  }

  /** The splitting of a group stops: `volume_list` is reached only for a
      non-empty group of a single-well type. */
  predicate GroupTerminates(item: (Key, seq<Reagent>)) {
    |item.1| > 0 && |item.1[0].labwareType.maxVolume| == 1 ==>
      var lt := item.1[0].labwareType;
      Terminates(Total(VolumesMl(item.1)), Requirement.ToMl(lt.maxVolume[0]), Requirement.ToMl(lt.deadVolume))
  }

  /** One group's entry in `sum_reagent_volumes`: the first reagent's type
      must have a single well, and the group's total is split into
      containers of that type. */
  function SumGroup(item: (Key, seq<Reagent>)): (r: Result<(Key, seq<Reagent>)>)
    requires GroupTerminates(item)
    ensures r.Ok? <==> |item.1| > 0 && |item.1[0].labwareType.maxVolume| == 1
    ensures |item.1| == 0 ==> r.Err? && r.error.IndexError?
    ensures |item.1| > 0 && |item.1[0].labwareType.maxVolume| != 1 ==>
      r == Err(NotImplementedError("Currently only labware types with a single max volume are supported."))
  {
    var (key, reqs) := item;
    if |reqs| == 0 then Err(IndexError("list index out of range"))
    else
      var lt := reqs[0].labwareType;
      if |lt.maxVolume| != 1 then
        Err(NotImplementedError("Currently only labware types with a single max volume are supported."))
      else
        var volumes := Volumes(Total(VolumesMl(reqs)), Requirement.ToMl(lt.maxVolume[0]), Requirement.ToMl(lt.deadVolume));
        Ok(((lt.name, key.1), AsReagents(lt, key.1, volumes)))
  }

  /** The millilitres in a list of reagents. */
  function ReagentsMl(rs: seq<Reagent>): real {
    Total(VolumesMl(rs))
  }

  /** A group that succeeds yields, under its type's name and its reagent
      name, containers of that type for that reagent, every one but the
      last full and each holding more than the dead volume. */
  lemma SumGroupEntries(item: (Key, seq<Reagent>))
    requires GroupTerminates(item) && SumGroup(item).Ok?
    ensures var lt := item.1[0].labwareType;
      var e := SumGroup(item).value;
      e.0 == (lt.name, item.0.1)
      && (forall i | 0 <= i < |e.1| :: e.1[i].labwareType == lt && e.1[i].reagentName == item.0.1)
      && (forall i | 0 <= i < |e.1| - 1 :: e.1[i].volume == Ml(Requirement.ToMl(lt.maxVolume[0])))
      && (forall i | 0 <= i < |e.1| ::
            Requirement.ToMl(lt.deadVolume) < Requirement.ToMl(e.1[i].volume) <= Requirement.ToMl(lt.maxVolume[0]))
  {
    var lt := item.1[0].labwareType;
    VolumesShape(ReagentsMl(item.1), Requirement.ToMl(lt.maxVolume[0]), Requirement.ToMl(lt.deadVolume));
  }

  /** A group that succeeds keeps its volume: the containers hold the
      group's millilitres plus one dead volume each, and nothing at all
      when the group holds nothing. */
  lemma SumGroupConserves(item: (Key, seq<Reagent>))
    requires GroupTerminates(item) && SumGroup(item).Ok?
    ensures var e := SumGroup(item).value;
      var dead := Requirement.ToMl(item.1[0].labwareType.deadVolume);
      (ReagentsMl(item.1) > 0.0 ==> ReagentsMl(e.1) == ReagentsMl(item.1) + Times(|e.1|, dead))
      && (ReagentsMl(item.1) <= 0.0 ==> e.1 == [])
  {
    var lt := item.1[0].labwareType;
    var total := ReagentsMl(item.1);
    var full := Requirement.ToMl(lt.maxVolume[0]);
    var dead := Requirement.ToMl(lt.deadVolume);
    var v := Volumes(total, full, dead);
    VolumesShape(total, full, dead);
    MlOfReagents(lt, item.0.1, v);
    if total > 0.0 {
      VolumesTotal(total, full, dead);
    }
  }

  /** Containers made from millilitre amounts give back those amounts. */
  lemma MlOfReagents(lt: LabwareType, reagentName: string, v: seq<real>)
    ensures VolumesMl(AsReagents(lt, reagentName, v)) == v
  {
    var rs := AsReagents(lt, reagentName, v);
    forall i | 0 <= i < |v| ensures VolumesMl(rs)[i] == v[i] {
      assert rs[i] == Reagent(lt, reagentName, Ml(v[i]), "");
    }
  }

  /** `sum_reagent_volumes`: the groups in order, the first failing group
      raising, a later group replacing an earlier one with the same key. */
  function Summed(items: seq<(Key, seq<Reagent>)>): Result<map<Key, seq<Reagent>>>
    requires forall i | 0 <= i < |items| :: GroupTerminates(items[i])
  {
    if items == [] then Ok(map[])
    else
      var m :- Summed(items[..|items| - 1]);
      var e :- SumGroup(items[|items| - 1]);
      Ok(m[e.0 := e.1])
  }

  method SumReagentVolumes(items: seq<(Key, seq<Reagent>)>) returns (r: Result<map<Key, seq<Reagent>>>)
    requires forall i | 0 <= i < |items| :: GroupTerminates(items[i])
    ensures r == Summed(items)
  {
    var summed: map<Key, seq<Reagent>> := map[];
    for i := 0 to |items|
      invariant Summed(items[..i]) == Ok(summed)
    {
      var (key, reqs) := items[i];
      if |reqs| == 0 {
        SummedFails(items, i, summed);
        return Err(IndexError("list index out of range"));
      }
      var lt := reqs[0].labwareType;
      if |lt.maxVolume| != 1 {
        SummedFails(items, i, summed);
        return Err(NotImplementedError("Currently only labware types with a single max volume are supported."));
      }
      var volumes := VolumeList(Total(VolumesMl(reqs)), Requirement.ToMl(lt.maxVolume[0]), Requirement.ToMl(lt.deadVolume));
      assert SumGroup(items[i]) == Ok(((lt.name, key.1), AsReagents(lt, key.1, volumes)));
      SummedStep(items, i, summed);
      summed := summed[(lt.name, key.1) := AsReagents(lt, key.1, volumes)];
    }
    assert items[..|items|] == items;
    return Ok(summed);
  }

  lemma SummedStep(items: seq<(Key, seq<Reagent>)>, i: nat, m: map<Key, seq<Reagent>>)
    requires forall j | 0 <= j < |items| :: GroupTerminates(items[j])
    requires i < |items| && Summed(items[..i]) == Ok(m) && SumGroup(items[i]).Ok?
    ensures var e := SumGroup(items[i]).value;
      Summed(items[..i + 1]) == Ok(m[e.0 := e.1])
  {
    assert items[..i + 1][..i] == items[..i];
  }

  lemma SummedFails(items: seq<(Key, seq<Reagent>)>, i: nat, m: map<Key, seq<Reagent>>)
    requires forall j | 0 <= j < |items| :: GroupTerminates(items[j])
    requires i < |items| && Summed(items[..i]) == Ok(m) && SumGroup(items[i]).Err?
    ensures Summed(items) == Err(SumGroup(items[i]).error)
  {
    SummedFailsAt(items, i, m);
    SummedKeepsError(items, i + 1);
  }

  lemma SummedFailsAt(items: seq<(Key, seq<Reagent>)>, i: nat, m: map<Key, seq<Reagent>>)
    requires forall j | 0 <= j < |items| :: GroupTerminates(items[j])
    requires i < |items| && Summed(items[..i]) == Ok(m) && SumGroup(items[i]).Err?
    ensures Summed(items[..i + 1]) == Err(SumGroup(items[i]).error)
  {
    assert items[..i + 1][..i] == items[..i];
  }

  /** Once a prefix of the groups fails, the whole fails the same way. */
  lemma {:induction false} SummedKeepsError(items: seq<(Key, seq<Reagent>)>, n: nat)
    requires forall i | 0 <= i < |items| :: GroupTerminates(items[i])
    requires n <= |items|
    ensures Summed(items[..n]).Err? ==> Summed(items) == Summed(items[..n])
    decreases |items| - n
  {
    if n < |items| {
      SummedKeepsError(items, n + 1);
      assert items[..n + 1][..n] == items[..n];
    } else {
      assert items[..n] == items;
    }
  }

  /** Summing succeeds exactly when every group does, that is when every
      group is non-empty and of a single-well type. */
  lemma {:induction false} SummedOk(items: seq<(Key, seq<Reagent>)>)
    requires forall i | 0 <= i < |items| :: GroupTerminates(items[i])
    ensures Summed(items).Ok? <==>
      forall i | 0 <= i < |items| :: |items[i].1| > 0 && |items[i].1[0].labwareType.maxVolume| == 1
  {
    if items != [] {
      var init := items[..|items| - 1];
      assert forall i | 0 <= i < |init| :: init[i] == items[i];
      SummedOk(init);
      assert Summed(items).Ok? <==> Summed(init).Ok? && SumGroup(items[|init|]).Ok?;
      SingleWellSplit(items, init);
    }
  }

  lemma SingleWellSplit(items: seq<(Key, seq<Reagent>)>, init: seq<(Key, seq<Reagent>)>)
    requires items != [] && init == items[..|items| - 1]
    ensures (forall i | 0 <= i < |items| :: |items[i].1| > 0 && |items[i].1[0].labwareType.maxVolume| == 1) <==>
      (forall i | 0 <= i < |init| :: |init[i].1| > 0 && |init[i].1[0].labwareType.maxVolume| == 1)
      && |items[|init|].1| > 0 && |items[|init|].1[0].labwareType.maxVolume| == 1
  {
    assert forall i | 0 <= i < |init| :: init[i] == items[i];
  }

  /** On success every group's entry is present under its key, unless a
      later group has the same key. */
  lemma {:induction false} SummedHasLastEntry(items: seq<(Key, seq<Reagent>)>, i: nat)
    requires forall j | 0 <= j < |items| :: GroupTerminates(items[j])
    requires forall j | 0 <= j < |items| :: SumGroup(items[j]).Ok?
    requires i < |items| && forall j | i < j < |items| :: SumGroup(items[j]).value.0 != SumGroup(items[i]).value.0
    ensures Summed(items).Ok?
    ensures var e := SumGroup(items[i]).value; e.0 in Summed(items).value && Summed(items).value[e.0] == e.1
  {
    var init := items[..|items| - 1];
    assert forall j | 0 <= j < |init| :: init[j] == items[j];
    SummedOk(items);
    if i < |items| - 1 {
      SummedHasLastEntry(init, i);
    }
  }
}
