/** Validation helpers for header and query-parameter values
    (lib/validation-helpers.js). */
module Validation {
  import opened Results
  import opened JsValues

  /** What `castHeaderValue` returns: a string, or a flat array of strings. */
  datatype HeaderValue = Single(text: string) | Multiple(items: seq<string>)

  /** `typeof v === 'string' || typeof v === 'number' && isFinite(v) ||
      typeof v === 'boolean'` */
  predicate IsCastable(v: Value) {
    v.Str? || (v.Num? && v.n.Int?) || v.Bool?
  }

  /** `v + ''` on a castable value. */
  function Stringify(v: Value): string
    requires IsCastable(v)
  {
    match v
    case Str(s) => s
    case Bool(b) => if b then "true" else "false"
    case Num(n) => IntString(n.i)
  }

  const EmptyParamName := "Unexpected empty param name."

  const EmptyHeaderName := "Unexpected empty header name."

  function DuplicateHeader(header: string): string {
    "Unexpected duplicate `" + header + "` header."
  }

  function QueryValueError(param: string): string {
    "Unexpected value for `" + param + "` param."
  }

  function HeaderValueError(header: string): string {
    "Unexpected value for `" + header + "` header."
  }

  /** `castQueryValue(value, param)` */
  function CastQueryValue(value: Value, param: string): (r: Result<string>)
    ensures r.Ok? <==> IsCastable(value)
    ensures value.Str? ==> r == Ok(value.s)
    ensures value.Bool? ==> r == Ok(if value.b then "true" else "false")
    ensures value.Num? && value.n.Int? ==> r == Ok(IntString(value.n.i))
    ensures r.Err? ==> r.message == QueryValueError(param)
  {
    if IsCastable(value) then Ok(Stringify(value)) else Err(QueryValueError(param))
  }

  /** `castHeaderValue(value, header, inArray)`: a scalar is cast; an array
      outside an array is cast item by item through `castHeaderValue(item,
      header, true)`; anything else throws. */
  function CastHeaderValue(value: Value, header: string, inArray: bool): (r: Result<HeaderValue>)
    ensures inArray && r.Ok? ==> r.value.Single?
    ensures r.Err? ==> r.message == HeaderValueError(header)
    decreases if inArray then 0 else 2, 0
  {
    if IsCastable(value) then Ok(Single(Stringify(value)))
    else if !inArray && value.Arr? then
      var items :- CastItems(value.items, header);
      Ok(Multiple(items))
    else Err(HeaderValueError(header))
  }

  /** `items.map(function(item) { return castHeaderValue(item, header, true); })`,
      which stops at the first item that throws. */
  function CastItems(items: seq<Value>, header: string): (r: Result<seq<string>>)
    ensures r.Ok? <==> forall i :: 0 <= i < |items| ==> IsCastable(items[i])
    ensures r.Ok? ==> (|r.value| == |items| &&
      forall i :: 0 <= i < |items| ==> r.value[i] == Stringify(items[i]))
    ensures r.Err? ==> r.message == HeaderValueError(header)
    decreases 1, |items|
  {
    if items == [] then Ok([])
    else
      var first :- CastHeaderValue(items[0], header, true);
      var rest :- CastItems(items[1..], header);
      Ok([first.text] + rest)
  }

  /** On a scalar, the header cast and the query cast give the same string;
      on anything else both throw, each naming its header or parameter. */
  lemma HeaderCastAgreesWithQueryCast(value: Value, name: string, inArray: bool)
    requires !value.Arr?
    ensures CastHeaderValue(value, name, inArray).Ok? <==> CastQueryValue(value, name).Ok?
    ensures CastQueryValue(value, name).Ok? ==>
      CastHeaderValue(value, name, inArray) == Ok(Single(CastQueryValue(value, name).value))
  {
  }

  /** A one-level array casts to an array of the same length whose i-th item
      is the cast of the i-th input item; it throws iff some item is not a
      castable scalar (a nested array included). */
  lemma ArrayCast(items: seq<Value>, header: string)
    ensures var r := CastHeaderValue(Arr(items), header, false);
      (r.Ok? <==> forall i :: 0 <= i < |items| ==> IsCastable(items[i])) &&
      (r.Ok? ==> (r.value.Multiple? && |r.value.items| == |items| &&
        forall i :: 0 <= i < |items| ==> r.value.items[i] == CastQueryValue(items[i], header).value))
  {
  }

  /** Any array inside an array throws, naming the header; `castQueryValue`
      never accepts an array. */
  lemma ArraysRejected(items: seq<Value>, name: string)
    ensures CastHeaderValue(Arr(items), name, true) == Err(HeaderValueError(name))
    ensures CastQueryValue(Arr(items), name) == Err(QueryValueError(name))
  {
  }

  /** `null`, `undefined`, objects, functions, buffers and non-finite numbers
      make both casts throw. */
  lemma NonScalarsRejected(value: Value, name: string, inArray: bool)
    requires value.Null? || value.Undefined? || value.Obj? || value.Func? || value.Buf? ||
             value == Num(NaN) || value == Num(PosInfinity) || value == Num(NegInfinity)
    ensures CastQueryValue(value, name) == Err(QueryValueError(name))
    ensures CastHeaderValue(value, name, inArray) == Err(HeaderValueError(name))
  {
  }

  /** `castHeaderValue(['a string', 42, true, false])`. */
  lemma CastArrayExample()
    ensures CastHeaderValue(Arr([Str("a string"), Num(Int(42)), Bool(true), Bool(false)]), "foo", false)
      == Ok(Multiple(["a string", "42", "true", "false"]))
  {
    var items := [Str("a string"), Num(Int(42)), Bool(true), Bool(false)];
    assert DecimalString(42) == DecimalString(4) + [DigitChar(2)] == "42";
    var r := CastItems(items, "foo");
    assert r.Ok?;
    assert r.value == ["a string", "42", "true", "false"];
  }
}
