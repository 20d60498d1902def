/** Liquids and labware requirements (`src/requirement/requirement.py`):
    volumes with units, taking part of a liquid, and the discard-or-store
    rule of a labware requirement. Models are frozen, so every operation
    returns new values. */
module Requirement {
  import opened Common

  datatype LiquidUnit = L | Ml | Ul

  /** Millilitres per unit, the exact factors of the unit registry. */
  function MlPer(u: LiquidUnit): (f: real)
    ensures f > 0.0
  {
    match u
    case L => 1000.0
    case Ml => 1.0
    case Ul => 0.001
  }

  /** `LiquidVolume`: a strictly positive magnitude in a unit. */
  datatype LiquidVolume = LiquidVolume(volume: real, unit: LiquidUnit)

  function ToMl(v: LiquidVolume): real {
    v.volume * MlPer(v.unit)
  }

  /** Building a `LiquidVolume` validates `PositiveFloat`. */
  function NewVolume(volume: real, unit: LiquidUnit): (r: Result<LiquidVolume>)
    ensures r.Ok? <==> volume > 0.0
    ensures r.Ok? ==> r.value == LiquidVolume(volume, unit)
    ensures r.Err? ==> r.error.ValueError?
  {
    if volume > 0.0 then Ok(LiquidVolume(volume, unit))
    else Err(ValueError("Input should be greater than 0"))
  }

  /** `LiquidName`: between 1 and 100 characters. */
  predicate ValidName(name: string) {
    1 <= |name| <= 100
  }

  datatype Liquid = Liquid(name: string, volume: LiquidVolume)

  /** What the frozen model guarantees of every `Liquid` instance. */
  predicate ValidLiquid(l: Liquid) {
    ValidName(l.name) && l.volume.volume > 0.0
  }

  /** `Liquid.from_primitive`: the volume is validated, then the name. */
  function FromPrimitive(name: string, volume: real, unit: LiquidUnit): (r: Result<Liquid>)
    ensures r.Ok? <==> volume > 0.0 && ValidName(name)
    ensures r.Ok? ==> r.value.name == name && r.value.volume == LiquidVolume(volume, unit) && ValidLiquid(r.value)
    ensures r.Err? ==> r.error.ValueError?
  {
    var v :- NewVolume(volume, unit);
    if !ValidName(name) then Err(ValueError("String should have between 1 and 100 characters"))
    else Ok(Liquid(name, v))
  }

  /** `take_volume`: the requested volume is validated, compared with the
      available one in common units, and the remainder is expressed in the
      liquid's own unit; a zero remainder fails its own validation. */
  function TakeVolume(l: Liquid, volume: real, unit: LiquidUnit): (r: Result<(Liquid, Liquid)>)
    requires ValidLiquid(l)
    ensures r.Err? ==> r.error.ValueError?
    ensures r.Ok? ==> r.value.0.name == l.name && r.value.1.name == l.name
    ensures r.Ok? ==> r.value.0.volume.unit == l.volume.unit && r.value.1.volume == LiquidVolume(volume, unit)
  {
    var taken :- NewVolume(volume, unit);
    if ToMl(taken) > ToMl(l.volume) then Err(ValueError("Requested volume exceeds available volume"))
    else
      var rest :- NewVolume((ToMl(l.volume) - ToMl(taken)) / MlPer(l.volume.unit), l.volume.unit);
      Ok((Liquid(l.name, rest), Liquid(l.name, taken)))
  }

  /** Taking succeeds exactly for an amount strictly between nothing and
      everything; then remaining and taken add up to the original, both keep
      the name, the remainder keeps the original unit and the part taken
      has the requested one. */
  lemma TakeVolumeSpec(l: Liquid, volume: real, unit: LiquidUnit)
    requires ValidLiquid(l)
    ensures var r := TakeVolume(l, volume, unit);
      (r.Ok? <==> 0.0 < volume && volume * MlPer(unit) < ToMl(l.volume))
      && (r.Err? ==> r.error.ValueError?)
      && (r.Ok? ==>
            var (rest, taken) := r.value;
            ToMl(rest.volume) + ToMl(taken.volume) == ToMl(l.volume)
            && rest.name == l.name && taken.name == l.name
            && rest.volume.unit == l.volume.unit && taken.volume == LiquidVolume(volume, unit)
            && ValidLiquid(rest) && ValidLiquid(taken))
  {
    var f := MlPer(l.volume.unit);
    if volume > 0.0 && volume * MlPer(unit) <= ToMl(l.volume) {
      var d := ToMl(l.volume) - volume * MlPer(unit);
      assert (d / f) * f == d;
      assert d / f > 0.0 <==> d > 0.0;
    }
  }

  /** Asking for more than there is fails; so does asking for all of it. */
  lemma TakeAllFails(l: Liquid)
    requires ValidLiquid(l)
    ensures TakeVolume(l, l.volume.volume, l.volume.unit).Err?
    ensures TakeVolume(l, 0.0, l.volume.unit).Err?
  {
    TakeVolumeSpec(l, l.volume.volume, l.volume.unit);
  }

  datatype StoreType = Cold4 | Cold20 | Cold80 | Ambient | Warm30 | Warm37

  /** The `store` field as given: absent, a list, or a set. */
  datatype StoreInput = NoStore | StoreList(list: seq<StoreType>) | StoreSet(items: set<StoreType>)

  datatype LabwareKind = NewLabwareKind | ExistingLabwareKind

  datatype BaseLabware = BaseLabware(
    kind: LabwareKind,
    id: Uuid,
    labwareType: string,
    discard: bool,
    store: Option<set<StoreType>>,
    prepareTo: string)

  /** `validate_store`: a list becomes the set of its elements. */
  function ValidateStore(s: StoreInput): (r: Option<set<StoreType>>)
    ensures s.NoStore? <==> r.None?
    ensures s.StoreList? ==> r == Some(set i | 0 <= i < |s.list| :: s.list[i])
    ensures s.StoreSet? ==> r == Some(s.items)
  {
    match s
    case NoStore => None
    case StoreList(list) => Some(set i | 0 <= i < |list| :: list[i])
    case StoreSet(items) => Some(items)
  }

  /** `Reagent`: a named liquid to prepare in a container type. */
  datatype Reagent = Reagent(prepareTo: string, name: string, volume: LiquidVolume, containerType: string, replenishedWithin: Option<int>)

  /** The labware validation: the type is a 1..100 character string, then
      `check_mutual_exclusion` asks for exactly one of discard and store. */
  function NewBaseLabware(kind: LabwareKind, id: Uuid, labwareType: string, discard: bool, store: StoreInput, prepareTo: string)
    : (r: Result<BaseLabware>)
    ensures r.Ok? <==> ValidName(labwareType) && (discard <==> store.NoStore?)
    ensures r.Err? ==> r.error.ValueError?
    ensures r.Ok? ==>
      (r.value.store == ValidateStore(store) && r.value.discard == discard
       && r.value.labwareType == labwareType && r.value.kind == kind)
  {
    var st := ValidateStore(store);
    if !ValidName(labwareType) then Err(ValueError("String should have between 1 and 100 characters"))
    else if discard && st.Some? then Err(ValueError("discard and store can not be used together"))
    else if !discard && st.None? then Err(ValueError("discard or store must be used"))
    else Ok(BaseLabware(kind, id, labwareType, discard, st, prepareTo))
  }

  /** A validated labware is discarded or stored, never both nor neither. */
  lemma DiscardXorStore(kind: LabwareKind, id: Uuid, labwareType: string, discard: bool, store: StoreInput, prepareTo: string)
    ensures var r := NewBaseLabware(kind, id, labwareType, discard, store, prepareTo);
      r.Ok? ==> (r.value.discard <==> r.value.store.None?)
  {
  }

  const AllStoreTypes: seq<StoreType> := [Cold4, Cold20, Cold80, Ambient, Warm30, Warm37]

  predicate Distinct(xs: seq<StoreType>) {
    forall i, j | 0 <= i < j < |xs| :: xs[i] != xs[j]
  }

  /** The elements of `s`, in the order they appear in `order`. */
  function Members(order: seq<StoreType>, s: set<StoreType>): (r: seq<StoreType>)
    requires Distinct(order)
    ensures forall i | 0 <= i < |r| :: r[i] in s && r[i] in order
    ensures forall x | x in order && x in s :: x in r
    ensures Distinct(r)
  {
    if order == [] then []
    else if order[0] in s then [order[0]] + Members(order[1..], s)
    else Members(order[1..], s)
  }

  /** `serialize_store`: the set is written as a list of its elements. The
      order of a Python set is not modelled; the enum's order is used. */
  function SerializeStore(store: Option<set<StoreType>>): (r: Option<seq<StoreType>>)
    ensures r.None? <==> store.None?
    ensures r.Some? ==> Distinct(r.value) && forall x | x in r.value :: x in store.value
  {
    assert Distinct(AllStoreTypes);
    match store
    case None => None
    case Some(s) => Some(Members(AllStoreTypes, s))
  }

  /** The list written out holds each stored type once, and reading it back
      gives the same set. */
  lemma StoreRoundTrip(store: Option<set<StoreType>>)
    ensures SerializeStore(store).None? <==> store.None?
    ensures store.Some? ==>
      var list := SerializeStore(store).value;
      Distinct(list) && ValidateStore(StoreList(list)) == store
  {
    if store.Some? {
      var s := store.value;
      var list := Members(AllStoreTypes, s);
      forall x: StoreType ensures x in AllStoreTypes {
        match x
        case Cold4 => assert AllStoreTypes[0] == x;
        case Cold20 => assert AllStoreTypes[1] == x;
        case Cold80 => assert AllStoreTypes[2] == x;
        case Ambient => assert AllStoreTypes[3] == x;
        case Warm30 => assert AllStoreTypes[4] == x;
        case Warm37 => assert AllStoreTypes[5] == x;
      }
      assert (set i | 0 <= i < |list| :: list[i]) == s by {
        forall x | x in s ensures x in (set i | 0 <= i < |list| :: list[i]) {
          var i :| 0 <= i < |list| && list[i] == x;
        }
      }
    }
  }
}
