/** The CSV record logger (class DataLogger): a list of registered field
    names, the latest value of each, an optional rounding per field, and the
    name of the file rows go to. Opening, writing and deleting the file are
    not part of this model; `write_line` is modelled up to the row it hands
    to the CSV writer. */
module Logger {
  import opened Wrappers

  /** The keyword default of `prefix`, the form both control scripts use. */
  const DefaultPrefix: string := ""

  /** The values a caller stores. Python's `bool` is a subclass of `int`,
      so it counts as a number for the rounding test. */
  datatype Value = Bool(b: bool) | Int(i: int) | Float(x: real) | Text(s: string)

  /** `isinstance(value, (int, float))`. */
  predicate IsNumber(v: Value) {
    v.Bool? || v.Int? || v.Float?
  }

  /** The errors `set_field` and `write_line` raise. */
  datatype LogError =
    | KeyError(message: string)
    | ValueError(message: string)
    /** `open(None, ...)`: a line written before any file was created. */
    | TypeError

  function UnknownField(name: string): string {
    "Field '" + name + "' not found in the logger."
  }

  function UnsetField(name: string): string {
    "Field '" + name + "' has not been set."
  }

  /** The first registered field, in registration order, that still holds
      None; None when every field has a value. */
  function FirstUnset(fields: seq<string>, data: map<string, Option<Value>>): (u: Option<string>)
    requires forall f :: f in fields ==> f in data
    ensures u.None? <==> forall k :: 0 <= k < |fields| ==> data[fields[k]].Some?
    ensures u.Some? ==>
      exists k :: 0 <= k < |fields| && fields[k] == u.value && data[u.value].None? && (forall m :: 0 <= m < k ==> data[fields[m]].Some?)
  {
    if |fields| == 0 then None
    else if data[fields[0]].None? then Some(fields[0])
    else
      var rest := FirstUnset(fields[1..], data);
      assert forall k :: 1 <= k < |fields| ==> fields[k] == fields[1..][k - 1];
      rest
  }

  /** The first field without a value, scanning in registration order, is
      what FirstUnset reports. */
  lemma {:induction false} FirstUnsetAt(fields: seq<string>, data: map<string, Option<Value>>, k: nat)
    requires forall f :: f in fields ==> f in data
    requires k < |fields| && data[fields[k]].None?
    requires forall m :: 0 <= m < k ==> data[fields[m]].Some?
    ensures FirstUnset(fields, data) == Some(fields[k])
  {
    if k > 0 {
      assert forall m :: 0 <= m < k - 1 ==> fields[1..][m] == fields[m + 1];
      FirstUnsetAt(fields[1..], data, k - 1);
    }
  }

  /** The row the CSV writer receives: the value of every registered field,
      in registration order. */
  function RowOf(fields: seq<string>, data: map<string, Option<Value>>): (row: seq<Value>)
    requires forall k :: 0 <= k < |fields| ==> fields[k] in data && data[fields[k]].Some?
    ensures |row| == |fields|
    ensures forall k :: 0 <= k < |fields| ==> row[k] == data[fields[k]].value
  {
    seq(|fields|, k requires 0 <= k < |fields| => data[fields[k]].value)
  }

  /** What `set_field` stores: the rounded value when the field has a
      number of decimals and the value is a number, the value unchanged
      otherwise (None included). */
  function Stored(round: (Value, int) -> Value, decimals: Option<int>, value: Option<Value>): (s: Option<Value>)
    ensures decimals.None? ==> s == value
    ensures value.None? ==> s.None?
    ensures value.Some? && !IsNumber(value.value) ==> s == value
    ensures decimals.Some? && value.Some? && IsNumber(value.value) ==> s == Some(round(value.value, decimals.value))
  {
    if decimals.Some? && value.Some? && IsNumber(value.value) then Some(round(value.value, decimals.value))
    else value
  }

  /** The prefix and file name `create_file` leaves: an explicit name is
      used as given and the prefix is kept; otherwise a non-empty prefix
      first gains a "_" (and keeps it), and the name is the prefix, the
      time stamp and ".csv". */
  function Created(prefix: string, name: Option<string>, stamp: string): (pf: (string, string))
    ensures name.Some? ==> pf == (prefix, name.value)
    ensures name.None? && prefix == "" ==> pf == ("", stamp + ".csv")
    ensures name.None? && prefix != "" ==> pf == (prefix + "_", prefix + "_" + stamp + ".csv")
  {
    match name
    case Some(n) => (prefix, n)
    case None =>
      if prefix == "" then ("", stamp + ".csv")
      else (prefix + "_", prefix + "_" + stamp + ".csv")
  }

  /** Because the prefix is rewritten in place, a second generated name
      carries one more "_" than the first. */
  lemma SecondNameGainsUnderscore(prefix: string, stamp1: string, stamp2: string)
    requires prefix != ""
    ensures var first := Created(prefix, None, stamp1);
      var second := Created(first.0, None, stamp2);
      && first.1 == prefix + "_" + stamp1 + ".csv"
      && second.1 == prefix + "__" + stamp2 + ".csv"
  {
    var first := Created(prefix, None, stamp1);
    assert first.0 == prefix + "_";
    assert first.0 + "_" == prefix + "__";
  }

  /** With an empty prefix the generated name is the stamp alone, on every
      call. */
  lemma EmptyPrefixIsStable(stamp1: string, stamp2: string)
    ensures var first := Created(DefaultPrefix, None, stamp1);
      && first == (DefaultPrefix, stamp1 + ".csv")
      && Created(first.0, None, stamp2) == (DefaultPrefix, stamp2 + ".csv")
  {
  }

  /** A field just registered has no value, so no line can be written
      until it is set. */
  lemma NewFieldBlocksWrite(fields: seq<string>, data: map<string, Option<Value>>, name: string)
    requires forall f :: f in fields ==> f in data
    ensures FirstUnset(fields + [name], data[name := None]).Some?
  {
    var fs := fields + [name];
    var d := data[name := None];
    assert fs[|fields|] == name;
    assert d[fs[|fields|]].None?;
  }

  /** Setting a registered field to a value never makes it unset again,
      and the other fields keep theirs. */
  lemma SetFieldKeepsOthers(round: (Value, int) -> Value, data: map<string, Option<Value>>, decimals: Option<int>, name: string, v: Value, other: string)
    requires other != name && other in data
    ensures var d := data[name := Stored(round, decimals, Some(v))];
      d[name].Some? && d[other] == data[other]
  {
  }

  class DataLogger {
    /** Python's `round(value, decimals)`; its arithmetic is not modelled. */
    const round: (Value, int) -> Value
    var fields: seq<string>
    var data: map<string, Option<Value>>
    var decimals: map<string, Option<int>>
    var fileName: Option<string>
    var prefix: string

    /** Every registered field has an entry in `data` and in `decimals`,
        and nothing else has. */
    ghost predicate Valid()
      reads this
    {
      && (forall f :: f in fields <==> f in data)
      && (forall f :: f in fields <==> f in decimals)
    }

    /** `__init__`: no fields, no file yet; the prefix defaults to the
        empty string. */
    constructor (round: (Value, int) -> Value, prefix: Option<string>)
      ensures Valid()
      ensures this.round == round && this.prefix == OrDefault(prefix, DefaultPrefix)
      ensures fields == [] && data == map[] && decimals == map[] && fileName == None
    {
      this.round := round;
      fields := [];
      data := map[];
      decimals := map[];
      fileName := None;
      this.prefix := OrDefault(prefix, DefaultPrefix);
    }

    /** `create_file`: the explicit name, or one generated from the prefix
        and the time stamp `stamp` (the caller's clock reading). */
    method CreateFile(name: Option<string>, stamp: string)
      modifies this
      requires Valid()
      ensures Valid()
      ensures fileName.Some? && (prefix, fileName.value) == Created(old(prefix), name, stamp)
      ensures fields == old(fields) && data == old(data) && decimals == old(decimals)
    {
      if name.None? {
        if prefix != "" {
          prefix := prefix + "_";
        } else {
          assert prefix + stamp == stamp;
        }
        fileName := Some(prefix + stamp + ".csv");
      } else {
        fileName := name;
      }
    }

    /** `add_field`: appends the name (a repeated name is appended again),
        resets its value to None and records its decimals. */
    method AddField(name: string, places: Option<int>)
      modifies this
      requires Valid()
      ensures Valid()
      ensures fields == old(fields) + [name]
      ensures data == old(data)[name := None]
      ensures decimals == old(decimals)[name := places]
      ensures prefix == old(prefix) && fileName == old(fileName)
    {
      fields := fields + [name];
      data := data[name := None];
      decimals := decimals[name := places];
    }

    /** `set_field`: a registered field takes the value, rounded when
        it has decimals and the value is a number; any other name is a
        KeyError and changes nothing. */
    method SetField(name: string, value: Option<Value>) returns (outcome: Outcome<LogError>)
      modifies this
      requires Valid()
      ensures Valid()
      ensures name !in fields ==> outcome == Fail(KeyError(UnknownField(name))) && data == old(data)
      ensures name in fields ==> outcome == Pass && data == old(data)[name := Stored(round, decimals[name], value)]
      ensures fields == old(fields) && decimals == old(decimals)
      ensures prefix == old(prefix) && fileName == old(fileName)
    {
      if name in fields {
        data := data[name := Stored(round, decimals[name], value)];
        outcome := Pass;
      } else {
        outcome := Fail(KeyError(UnknownField(name)));
      }
    }

    /** `write_line`: a ValueError naming the first field still unset,
        before the file is touched; otherwise the row of values in field
        order, which fails only when no file was ever created. */
    method WriteLine() returns (r: Result<seq<Value>, LogError>)
      requires Valid()
      ensures FirstUnset(fields, data).Some? ==> r == Err(ValueError(UnsetField(FirstUnset(fields, data).value)))
      ensures FirstUnset(fields, data).None? && fileName.None? ==> r == Err(TypeError)
      ensures FirstUnset(fields, data).None? && fileName.Some? ==> r == Ok(RowOf(fields, data))
    {
      for k := 0 to |fields|
        invariant forall m :: 0 <= m < k ==> data[fields[m]].Some?
      {
        if data[fields[k]].None? {
          FirstUnsetAt(fields, data, k);
          return Err(ValueError(UnsetField(fields[k])));
        }
      }
      assert FirstUnset(fields, data).None?;
      if fileName.None? {
        return Err(TypeError);
      }
      var row := [];
      for k := 0 to |fields|
        invariant |row| == k
        invariant forall m :: 0 <= m < k ==> row[m] == data[fields[m]].value
      {
        row := row + [data[fields[k]].value];
      }
      assert row == RowOf(fields, data);
      return Ok(row);
    }

    /** `get_file_name`: None before any file was created, the name last
        created afterwards. */
    function GetFileName(): (n: Option<string>)
      reads this
      ensures n == fileName
    {
      fileName
    }
  }
}
