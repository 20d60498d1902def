/** The liquid-name and labware-type registries (`src/requirement/label.py`). */
module RequirementLabels {
  import opened Common
  import opened NameRegistry
  import Requirement

  datatype LiquidName = LiquidName(name: string, store: Requirement.StoreType, aliases: seq<string>)

  datatype LabwareType = LabwareType(name: string, aliases: seq<string>)

  function LiquidNameOf(e: LiquidName): string { e.name }
  function LiquidAliasesOf(e: LiquidName): seq<string> { e.aliases }
  function TypeNameOf(e: LabwareType): string { e.name }
  function TypeAliasesOf(e: LabwareType): seq<string> { e.aliases }

  /** `LiquidNameStorage`, with its list as an instance field that starts
      empty. */
  class LiquidNameStorage {
    var liquidNames: seq<LiquidName>

    /** Primary names never repeat. */
    predicate Valid()
      reads this
    {
      DistinctNames(liquidNames, LiquidNameOf)
    }

    constructor()
      ensures liquidNames == [] && Valid()
    {
      liquidNames := [];
    }

    function IsLiquidName(n: string): bool
      reads this
    {
      IsKnown(liquidNames, LiquidNameOf, LiquidAliasesOf, n)
    }

    method AddLiquidName(n: string, store: Requirement.StoreType, aliases: Option<seq<string>>) returns (r: Result<()>)
      requires Valid()
      modifies this
      ensures Valid()
      ensures old(IsLiquidName(n)) ==>
        r == Err(ValueError("Liquid name '" + n + "' already exists.")) && liquidNames == old(liquidNames)
      ensures !old(IsLiquidName(n)) ==>
        r.Ok? && liquidNames == old(liquidNames) + [LiquidName(n, store, if aliases.Some? then aliases.value else [])]
    {
      var a := if aliases.Some? then aliases.value else [];
      if IsLiquidName(n) {
        return Err(ValueError("Liquid name '" + n + "' already exists."));
      }
      AppendKeepsDistinct(liquidNames, LiquidName(n, store, a), LiquidNameOf, LiquidAliasesOf);
      liquidNames := liquidNames + [LiquidName(n, store, a)];
      return Ok(());
    }

    method RemoveLiquidName(n: string)
      requires Valid()
      modifies this
      ensures Valid()
      ensures liquidNames == Without(old(liquidNames), LiquidNameOf, n)
    {
      WithoutKeepsDistinct(liquidNames, LiquidNameOf, n);
      liquidNames := Without(liquidNames, LiquidNameOf, n);
    }
  }

  /** `LabwareTypeStorage`: the same registry over labware types. */
  class LabwareTypeStorage {
    var labwareTypes: seq<LabwareType>

    predicate Valid()
      reads this
    {
      DistinctNames(labwareTypes, TypeNameOf)
    }

    constructor()
      ensures labwareTypes == [] && Valid()
    {
      labwareTypes := [];
    }

    function IsLabwareType(n: string): bool
      reads this
    {
      IsKnown(labwareTypes, TypeNameOf, TypeAliasesOf, n)
    }

    method AddLabwareType(n: string, aliases: Option<seq<string>>) returns (r: Result<()>)
      requires Valid()
      modifies this
      ensures Valid()
      ensures old(IsLabwareType(n)) ==>
        r == Err(ValueError("Labware type '" + n + "' already exists.")) && labwareTypes == old(labwareTypes)
      ensures !old(IsLabwareType(n)) ==>
        r.Ok? && labwareTypes == old(labwareTypes) + [LabwareType(n, if aliases.Some? then aliases.value else [])]
    {
      var a := if aliases.Some? then aliases.value else [];
      if IsLabwareType(n) {
        return Err(ValueError("Labware type '" + n + "' already exists."));
      }
      AppendKeepsDistinct(labwareTypes, LabwareType(n, a), TypeNameOf, TypeAliasesOf);
      labwareTypes := labwareTypes + [LabwareType(n, a)];
      return Ok(());
    }

    method RemoveLabwareType(n: string)
      requires Valid()
      modifies this
      ensures Valid()
      ensures labwareTypes == Without(old(labwareTypes), TypeNameOf, n)
    {
      WithoutKeepsDistinct(labwareTypes, TypeNameOf, n);
      labwareTypes := Without(labwareTypes, TypeNameOf, n);
    }
  }

  /** As written, a fresh storage has no list: its attribute is the
      class-level `Field`, so every query, addition and removal raises
      TypeError. */
  lemma FreshStoragesRaise(n: string, store: Requirement.StoreType, aliases: seq<string>)
    ensures IsKnownAsWritten(ClassField, LiquidNameOf, LiquidAliasesOf, n).Err?
    ensures AddAsWritten(ClassField, LiquidName(n, store, aliases), LiquidNameOf, LiquidAliasesOf) == Err(NotIterable)
    ensures RemoveAsWritten(ClassField, LiquidNameOf, n) == Err(NotIterable)
    ensures IsKnownAsWritten(ClassField, TypeNameOf, TypeAliasesOf, n).Err?
    ensures AddAsWritten(ClassField, LabwareType(n, aliases), TypeNameOf, TypeAliasesOf) == Err(NotIterable)
    ensures RemoveAsWritten(ClassField, TypeNameOf, n) == Err(NotIterable)
  {
  }
}
