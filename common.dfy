/**
 * Shared vocabulary of the back-tester model: optional values, results that
 * carry the error an operation raises, and the loosely typed field maps that
 * the records of the system are converted to and from (`to_dict` and
 * `from_dict` in every record class).
 */
module Common {

  datatype Option<+T> = None | Some(value: T)

  /** The outcome of an operation that may raise: its value, or the error it raises. */
  datatype Result<+T, +E> = Ok(value: T) | Err(error: E) {
    predicate IsFailure() { Err? }

    function PropagateFailure<U>(): Result<U, E>
      requires Err?
    {
      Err(error)
    }

    function Extract(): T
      requires Ok?
    {
      value
    }
  }

  /**
   * A value stored in a field map. Numbers are reals (floating-point rounding is
   * not modelled), integers stay integers, date-times are caller-supplied
   * integer instants, `Null` is Python's None and `Dict` a string-to-string map.
   */
  datatype Value =
    | Str(s: string)
    | Num(r: real)
    | Int(i: int)
    | Time(t: int)
    | Null
    | Dict(d: map<string, string>)

  /** A record converted to a dictionary keyed by field name. */
  type FieldMap = map<string, Value>

  /** Why building a record from a field map fails before its own validation runs. */
  datatype FieldError =
    | MissingField(name: string)      // a required keyword argument is absent
    | UnexpectedField                 // a key that is not a field of the record
    | WrongType(name: string)         // a value of a kind the field cannot hold
    | BadEnumValue(name: string)      // a string that names no member of the enumeration

  function Abs(x: real): (r: real)
    ensures r >= 0.0 && (r == x || r == -x)
  {
    if x < 0.0 then -x else x
  }

  /** The sum of a sequence of reals, added left to right as Python's `sum` does. */
  function Sum(xs: seq<real>): real
  {
    if xs == [] then 0.0 else Sum(xs[..|xs| - 1]) + xs[|xs| - 1]
  }

  lemma {:induction false} SumAppend(xs: seq<real>, x: real)
    ensures Sum(xs + [x]) == Sum(xs) + x
  {
    assert (xs + [x])[..|xs + [x]| - 1] == xs;
  }

  // ---- reading fields of a field map, as keyword arguments are bound ----

  /**
   * A value a real-valued field can hold. A dataclass does not check types, so an
   * integer given for a float field is kept; its arithmetic is that of its real value.
   */
  predicate IsReal(v: Value) { v.Num? || v.Int? }

  function RealOf(v: Value): real
    requires IsReal(v)
  {
    if v.Num? then v.r else v.i as real
  }

  /** A value an integer field can hold: an integer, or a float with no fractional part. */
  predicate IsWhole(v: Value) { v.Int? || (v.Num? && v.r.Floor as real == v.r) }

  function IntOf(v: Value): int
    requires IsWhole(v)
  {
    if v.Int? then v.i else v.r.Floor
  }

  /** A required real-valued field. */
  function GetNum(d: FieldMap, name: string): (r: Result<real, FieldError>)
    ensures r.Ok? <==> name in d && IsReal(d[name])
    ensures r.Ok? ==> r.value == RealOf(d[name])
    ensures name in d && d[name].Num? ==> r == Ok(d[name].r)
    ensures name in d && d[name].Int? ==> r == Ok(d[name].i as real)
  {
    if name !in d then Err(MissingField(name))
    else if !IsReal(d[name]) then Err(WrongType(name))
    else Ok(RealOf(d[name]))
  }

  /** A real-valued field with a default, used when the key is absent. */
  function GetNumOr(d: FieldMap, name: string, default: real): (r: Result<real, FieldError>)
    ensures name !in d ==> r == Ok(default)
    ensures name in d ==> (r.Ok? <==> IsReal(d[name]))
    ensures name in d && r.Ok? ==> r.value == RealOf(d[name])
    ensures name in d && d[name].Num? ==> r == Ok(d[name].r)
    ensures name in d && d[name].Int? ==> r == Ok(d[name].i as real)
  {
    if name !in d then Ok(default)
    else if !IsReal(d[name]) then Err(WrongType(name))
    else Ok(RealOf(d[name]))
  }

  /** An optional real field: `Null` or absent is None. */
  function GetOptNum(d: FieldMap, name: string): (r: Result<Option<real>, FieldError>)
    ensures name !in d ==> r == Ok(None)
    ensures name in d && d[name].Null? ==> r == Ok(None)
    ensures name in d && d[name].Num? ==> r == Ok(Some(d[name].r))
    ensures name in d && d[name].Int? ==> r == Ok(Some(d[name].i as real))
    ensures r.Err? <==> name in d && !d[name].Null? && !IsReal(d[name])
  {
    if name !in d then Ok(None)
    else if d[name].Null? then Ok(None)
    else if IsReal(d[name]) then Ok(Some(RealOf(d[name])))
    else Err(WrongType(name))
  }

  function GetStr(d: FieldMap, name: string): (r: Result<string, FieldError>)
    ensures r.Ok? <==> name in d && d[name].Str?
    ensures r.Ok? ==> r.value == d[name].s
  {
    if name !in d then Err(MissingField(name))
    else if !d[name].Str? then Err(WrongType(name))
    else Ok(d[name].s)
  }

  function GetStrOr(d: FieldMap, name: string, default: string): (r: Result<string, FieldError>)
    ensures name !in d ==> r == Ok(default)
    ensures name in d ==> (r.Ok? <==> d[name].Str?)
    ensures name in d && r.Ok? ==> r.value == d[name].s
  {
    if name !in d then Ok(default)
    else if !d[name].Str? then Err(WrongType(name))
    else Ok(d[name].s)
  }

  /** A required integer field. */
  function GetInt(d: FieldMap, name: string): (r: Result<int, FieldError>)
    ensures r.Ok? <==> name in d && IsWhole(d[name])
    ensures name in d && d[name].Int? ==> r == Ok(d[name].i)
    ensures r.Ok? ==> r.value as real == RealOf(d[name])
  {
    if name !in d then Err(MissingField(name))
    else if !IsWhole(d[name]) then Err(WrongType(name))
    else Ok(IntOf(d[name]))
  }

  /** An integer field with a default, used when the key is absent. */
  function GetIntOr(d: FieldMap, name: string, default: int): (r: Result<int, FieldError>)
    ensures name !in d ==> r == Ok(default)
    ensures name in d ==> (r.Ok? <==> IsWhole(d[name]))
    ensures name in d && d[name].Int? ==> r == Ok(d[name].i)
    ensures name in d && r.Ok? ==> r.value as real == RealOf(d[name])
  {
    if name !in d then Ok(default)
    else if !IsWhole(d[name]) then Err(WrongType(name))
    else Ok(IntOf(d[name]))
  }

  function GetTime(d: FieldMap, name: string): (r: Result<int, FieldError>)
    ensures r.Ok? <==> name in d && d[name].Time?
    ensures r.Ok? ==> r.value == d[name].t
  {
    if name !in d then Err(MissingField(name))
    else if !d[name].Time? then Err(WrongType(name))
    else Ok(d[name].t)
  }

  /** An optional date-time field: `Null` or absent is None. */
  function GetOptTime(d: FieldMap, name: string): (r: Result<Option<int>, FieldError>)
    ensures name !in d ==> r == Ok(None)
    ensures name in d && d[name].Null? ==> r == Ok(None)
    ensures name in d && d[name].Time? ==> r == Ok(Some(d[name].t))
    ensures r.Err? <==> name in d && !d[name].Null? && !d[name].Time?
  {
    if name !in d then Ok(None)
    else if d[name].Null? then Ok(None)
    else if d[name].Time? then Ok(Some(d[name].t))
    else Err(WrongType(name))
  }

  /** An optional dictionary field: `Null` or absent is None. */
  function GetOptDict(d: FieldMap, name: string): (r: Result<Option<map<string, string>>, FieldError>)
    ensures name !in d ==> r == Ok(None)
    ensures name in d && d[name].Null? ==> r == Ok(None)
    ensures name in d && d[name].Dict? ==> r == Ok(Some(d[name].d))
    ensures r.Err? <==> name in d && !d[name].Null? && !d[name].Dict?
  {
    if name !in d then Ok(None)
    else if d[name].Null? then Ok(None)
    else if d[name].Dict? then Ok(Some(d[name].d))
    else Err(WrongType(name))
  }

  function OptNum(x: Option<real>): (v: Value)
    ensures x.None? <==> v.Null?
    ensures x.Some? ==> v == Num(x.value)
  {
    if x.Some? then Num(x.value) else Null
  }

  function OptTime(x: Option<int>): (v: Value)
    ensures x.None? <==> v.Null?
    ensures x.Some? ==> v == Time(x.value)
  {
    if x.Some? then Time(x.value) else Null
  }

  function OptDict(x: Option<map<string, string>>): (v: Value)
    ensures x.None? <==> v.Null?
    ensures x.Some? ==> v == Dict(x.value)
  {
    if x.Some? then Dict(x.value) else Null
  }
}
