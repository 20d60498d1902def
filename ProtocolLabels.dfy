/** The label registry of protocol nodes (`src/protocol/label.py`). */
module ProtocolLabels {
  import opened Common
  import opened NameRegistry

  datatype Label = Label(name: string, aliases: seq<string>)

  function LabelNameOf(e: Label): string { e.name }
  function LabelAliasesOf(e: Label): seq<string> { e.aliases }

  /** `LabelStorage`, with its list as an instance field that starts empty. */
  class LabelStorage {
    var labels: seq<Label>

    /** Primary names never repeat. */
    predicate Valid()
      reads this
    {
      DistinctNames(labels, LabelNameOf)
    }

    constructor()
      ensures labels == [] && Valid()
    {
      labels := [];
    }

    function IsLabelName(n: string): bool
      reads this
    {
      IsKnown(labels, LabelNameOf, LabelAliasesOf, n)
    }

    /** The refusal message says "Liquid name", as in the source. */
    method AddLabel(n: string, aliases: Option<seq<string>>) returns (r: Result<()>)
      requires Valid()
      modifies this
      ensures Valid()
      ensures old(IsLabelName(n)) ==>
        r == Err(ValueError("Liquid name '" + n + "' already exists.")) && labels == old(labels)
      ensures !old(IsLabelName(n)) ==>
        r.Ok? && labels == old(labels) + [Label(n, if aliases.Some? then aliases.value else [])]
    {
      var a := if aliases.Some? then aliases.value else [];
      if IsLabelName(n) {
        return Err(ValueError("Liquid name '" + n + "' already exists."));
      }
      AppendKeepsDistinct(labels, Label(n, a), LabelNameOf, LabelAliasesOf);
      labels := labels + [Label(n, a)];
      return Ok(());
    }

    method RemoveLabelName(n: string)
      requires Valid()
      modifies this
      ensures Valid()
      ensures labels == Without(old(labels), LabelNameOf, n)
    {
      WithoutKeepsDistinct(labels, LabelNameOf, n);
      labels := Without(labels, LabelNameOf, n);
    }
  }

  /** A label added under a new name is known by its name and aliases, and
      removing that name leaves it known only through aliases of other
      labels. */
  lemma AddThenRemove(labels: seq<Label>, n: string, aliases: seq<string>, m: string)
    requires !IsKnown(labels, LabelNameOf, LabelAliasesOf, n)
    ensures IsKnown(labels + [Label(n, aliases)], LabelNameOf, LabelAliasesOf, m)
      <==> IsKnown(labels, LabelNameOf, LabelAliasesOf, m) || m == n || m in aliases
    ensures Without(labels + [Label(n, aliases)], LabelNameOf, n) == Without(labels, LabelNameOf, n)
  {
    AppendKnown(labels, Label(n, aliases), LabelNameOf, LabelAliasesOf, m);
    WithoutConcat(labels, [Label(n, aliases)], LabelNameOf, n);
  }

  /** As written, a fresh storage's attribute is the class-level `Field`,
      so every operation raises TypeError. */
  lemma FreshStorageRaises(n: string, aliases: seq<string>)
    ensures IsKnownAsWritten(ClassField, LabelNameOf, LabelAliasesOf, n).Err?
    ensures AddAsWritten(ClassField, Label(n, aliases), LabelNameOf, LabelAliasesOf) == Err(NotIterable)
    ensures RemoveAsWritten(ClassField, LabelNameOf, n) == Err(NotIterable)
  {
  }
}
