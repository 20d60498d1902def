/** The alias-aware name lists shared by `src/requirement/label.py` and
    `src/protocol/label.py`: an entry is known by its name or any of its
    aliases, adding refuses a known name, removing filters by primary name.
    Entries are any type, seen through their `name` and `aliases`. */
module NameRegistry {
  import opened Common

  /** `is_*`: `any(n == e.name or n in e.aliases for e in entries)`. */
  function IsKnown<T>(entries: seq<T>, name: T -> string, aliases: T -> seq<string>, n: string): (b: bool)
    ensures b <==> exists i | 0 <= i < |entries| :: n == name(entries[i]) || n in aliases(entries[i])
  {
    if entries == [] then false
    else if n == name(entries[0]) || n in aliases(entries[0]) then true
    else
      var b := IsKnown(entries[1..], name, aliases, n);
      assert forall i | 1 <= i < |entries| :: entries[i] == entries[1..][i - 1];
      b
  }

  /** `remove_*`: the entries whose primary name differs, in order. */
  function Without<T>(entries: seq<T>, name: T -> string, n: string): (r: seq<T>)
    ensures |r| <= |entries|
    ensures forall i | 0 <= i < |r| :: name(r[i]) != n && r[i] in entries
    ensures forall i | 0 <= i < |entries| && name(entries[i]) != n :: entries[i] in r
  {
    if entries == [] then []
    else if name(entries[0]) != n then [entries[0]] + Without(entries[1..], name, n)
    else Without(entries[1..], name, n)
  }

  /** Filtering keeps order: it distributes over concatenation and keeps
      exactly the single entries whose name differs. */
  lemma {:induction false} WithoutConcat<T>(a: seq<T>, b: seq<T>, name: T -> string, n: string)
    ensures Without(a + b, name, n) == Without(a, name, n) + Without(b, name, n)
    ensures forall e: T :: Without([e], name, n) == (if name(e) != n then [e] else [])
  {
    if a != [] {
      assert (a + b)[1..] == a[1..] + b;
      WithoutConcat(a[1..], b, name, n);
    } else {
      assert a + b == b;
    }
    forall e: T ensures Without([e], name, n) == (if name(e) != n then [e] else []) {
      assert [e][1..] == [];
    }
  }

  /** Removal looks at primary names only: afterwards `n` is still known
      exactly when a remaining entry has it as an alias. */
  lemma RemovalIgnoresAliases<T>(entries: seq<T>, name: T -> string, aliases: T -> seq<string>, n: string)
    ensures IsKnown(Without(entries, name, n), name, aliases, n)
      <==> exists i | 0 <= i < |entries| :: name(entries[i]) != n && n in aliases(entries[i])
  {
    var r := Without(entries, name, n);
    if exists i | 0 <= i < |entries| :: name(entries[i]) != n && n in aliases(entries[i]) {
      var i :| 0 <= i < |entries| && name(entries[i]) != n && n in aliases(entries[i]);
      var j :| 0 <= j < |r| && r[j] == entries[i];
    }
    if IsKnown(r, name, aliases, n) {
      var j :| 0 <= j < |r| && (n == name(r[j]) || n in aliases(r[j]));
      var i :| 0 <= i < |entries| && entries[i] == r[j];
    }
  }

  /** After appending an entry under an unknown name, what is known is what
      was known before plus the entry's name and aliases. */
  lemma AppendKnown<T>(entries: seq<T>, e: T, name: T -> string, aliases: T -> seq<string>, m: string)
    ensures IsKnown(entries + [e], name, aliases, m)
      <==> IsKnown(entries, name, aliases, m) || m == name(e) || m in aliases(e)
  {
    var s := entries + [e];
    assert s[|entries|] == e;
    if IsKnown(entries, name, aliases, m) {
      var i :| 0 <= i < |entries| && (m == name(entries[i]) || m in aliases(entries[i]));
      assert s[i] == entries[i];
    }
    if IsKnown(s, name, aliases, m) && !(m == name(e) || m in aliases(e)) {
      var i :| 0 <= i < |s| && (m == name(s[i]) || m in aliases(s[i]));
      assert s[i] == entries[i];
    }
  }

  /** No two entries share a primary name. */
  predicate DistinctNames<T>(entries: seq<T>, name: T -> string) {
    forall i, j | 0 <= i < j < |entries| :: name(entries[i]) != name(entries[j])
  }

  /** Adding only under an unknown name keeps primary names distinct (the
      new aliases are not checked and may repeat a known name). */
  lemma AppendKeepsDistinct<T>(entries: seq<T>, e: T, name: T -> string, aliases: T -> seq<string>)
    requires DistinctNames(entries, name) && !IsKnown(entries, name, aliases, name(e))
    ensures DistinctNames(entries + [e], name)
  {
    var s := entries + [e];
    forall i, j | 0 <= i < j < |s| ensures name(s[i]) != name(s[j]) {
      assert s[i] == entries[i];
      if j < |entries| {
        assert s[j] == entries[j];
      }
    }
  }

  /** Filtering keeps primary names distinct. */
  lemma {:induction false} WithoutKeepsDistinct<T>(entries: seq<T>, name: T -> string, n: string)
    requires DistinctNames(entries, name)
    ensures DistinctNames(Without(entries, name, n), name)
  {
    if entries != [] {
      var rest := entries[1..];
      assert DistinctNames(rest, name) by {
        forall i, j | 0 <= i < j < |rest| ensures name(rest[i]) != name(rest[j]) {
          assert rest[i] == entries[i + 1] && rest[j] == entries[j + 1];
        }
      }
      WithoutKeepsDistinct(rest, name, n);
      if name(entries[0]) != n {
        var w := Without(rest, name, n);
        var s := [entries[0]] + w;
        forall i, j | 0 <= i < j < |s| ensures name(s[i]) != name(s[j]) {
          if i == 0 {
            assert s[j] == w[j - 1];
            var k :| 0 <= k < |rest| && rest[k] == w[j - 1];
            assert entries[k + 1] == rest[k];
          } else {
            assert s[i] == w[i - 1] && s[j] == w[j - 1];
          }
        }
      }
    }
  }

  /** The storage attribute as the classes declare it: a class-level
      `dataclasses.field(...)` outside a dataclass stays a `Field` object,
      so no instance ever has a list of its own. */
  datatype Attribute<T> = ClassField | Instance(items: seq<T>)

  const NotIterable: Exception := TypeError("'Field' object is not iterable")

  /** `is_*` as written: iterating the `Field` object raises. */
  function IsKnownAsWritten<T>(attr: Attribute<T>, name: T -> string, aliases: T -> seq<string>, n: string): (r: Result<bool>)
    ensures attr.ClassField? ==> r == Err(NotIterable)
    ensures attr.Instance? ==> r == Ok(IsKnown(attr.items, name, aliases, n))
  {
    match attr
    case ClassField => Err(NotIterable)
    case Instance(items) => Ok(IsKnown(items, name, aliases, n))
  }

  /** `add_*` as written: the membership test runs first. */
  function AddAsWritten<T>(attr: Attribute<T>, e: T, name: T -> string, aliases: T -> seq<string>): (r: Result<Attribute<T>>)
    ensures attr.ClassField? ==> r == Err(NotIterable)
  {
    var known :- IsKnownAsWritten(attr, name, aliases, name(e));
    if known then Err(ValueError("'" + name(e) + "' already exists."))
    else Ok(Instance(attr.items + [e]))
  }

  /** `remove_*` as written: the comprehension iterates the `Field` object. */
  function RemoveAsWritten<T>(attr: Attribute<T>, name: T -> string, n: string): (r: Result<Attribute<T>>)
    ensures attr.ClassField? ==> r == Err(NotIterable)
    ensures attr.Instance? ==> r == Ok(Instance(Without(attr.items, name, n)))
  {
    match attr
    case ClassField => Err(NotIterable)
    case Instance(items) => Ok(Instance(Without(items, name, n)))
  }
}
