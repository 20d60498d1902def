/** Shared vocabulary of the model: optional values, results carrying the
    exception the Python code raises, times as whole seconds and UUIDs by
    their canonical text form. */
module Common {

  datatype Option<+T> = None | Some(value: T)

  /** The exception classes the modelled code raises or lets through. */
  datatype Exception =
    | ValueError(msg: string)
    | IndexError(msg: string)
    | KeyError(msg: string)
    | TypeError(msg: string)
    | AttributeError(msg: string)
    | NotImplementedError(msg: string)
    | ConnectionClosed
    | DriverError(msg: string)
    | FatalDriverError(msg: string)
    | HttpError(code: nat, msg: string)
    | PlainException(msg: string)  // a bare `Exception`
    | RecursionError
    | UnboundLocalError(msg: string)

  datatype Result<+T> = Ok(value: T) | Err(error: Exception) {
    predicate IsFailure() { Err? }
    function PropagateFailure<U>(): Result<U>
      requires Err?
    {
      Err(error)
    }
    function Extract(): T
      requires Ok?
    {
      value
    }
  }

  /** A datetime or timedelta, in whole seconds. */
  type Time = int

  /** A UUID, identified with its canonical string form, so that `str(id)` and
      `UUID(text)` are the identity on well-formed values. */
  type Uuid = string

  function Max(a: int, b: int): int { if a < b then b else a }

  /** Python's `sep.join(parts)` for a one-character separator. */
  function Join(parts: seq<string>, sep: char): string {
    if parts == [] then ""
    else if |parts| == 1 then parts[0]
    else parts[0] + [sep] + Join(parts[1..], sep)
  }

  /** Python's `s.split(sep)` for a one-character separator: always at least
      one field, no field contains the separator, and joining the fields
      back gives `s`. */
  function Split(s: string, sep: char): (r: seq<string>)
    ensures |r| >= 1
    ensures forall i | 0 <= i < |r| :: sep !in r[i]
    ensures Join(r, sep) == s
  {
    if s == [] then [""]
    else if s[0] == sep then
      var rest := Split(s[1..], sep);
      assert s == [sep] + s[1..];
      [""] + rest
    else
      var rest := Split(s[1..], sep);
      assert s == [s[0]] + s[1..];
      [[s[0]] + rest[0]] + rest[1..]
  }

  /** Splitting after a field that holds no separator peels that field off. */
  lemma {:induction false} SplitAfterField(p: string, sep: char, rest: string)
    requires sep !in p
    ensures Split(p + [sep] + rest, sep) == [p] + Split(rest, sep)
  {
    if p != [] {
      var s := p + [sep] + rest;
      assert s[1..] == p[1..] + [sep] + rest;
      SplitAfterField(p[1..], sep, rest);
      SplitFieldStep(s, sep, p, Split(rest, sep));
    } else {
      assert p + [sep] + rest == [sep] + rest;
    }
  }

  lemma SplitFieldStep(s: string, sep: char, p: string, tail: seq<string>)
    requires s != [] && p != [] && s[0] == p[0] && s[0] != sep
    requires Split(s[1..], sep) == [p[1..]] + tail
    ensures Split(s, sep) == [p] + tail
  {
    assert [p[0]] + p[1..] == p;
  }

  /** Splitting inverts joining when no field holds the separator. */
  lemma {:induction false} SplitJoin(parts: seq<string>, sep: char)
    requires |parts| >= 1
    requires forall i | 0 <= i < |parts| :: sep !in parts[i]
    ensures Split(Join(parts, sep), sep) == parts
  {
    if |parts| == 1 {
      SplitNoSep(parts[0], sep);
    } else {
      SplitJoin(parts[1..], sep);
      SplitAfterField(parts[0], sep, Join(parts[1..], sep));
    }
  }

  lemma {:induction false} SplitNoSep(s: string, sep: char)
    requires sep !in s
    ensures Split(s, sep) == [s]
  {
    if s != [] {
      SplitNoSep(s[1..], sep);
      assert s == [s[0]] + s[1..];
    }
  }
}
