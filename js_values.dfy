/** The JavaScript values the library inspects, with the handful of language
    operations it applies to them: truthiness, `typeof`, `hasOwnProperty`,
    `Object.keys` and property reads. */
module JsValues {
  import opened Results

  newtype byte = x: int | 0 <= x < 256

  /** A JavaScript number. Finite numbers are modelled by the integers. */
  datatype Number = Int(i: int) | NaN | PosInfinity | NegInfinity

  /** An object property: its name and its value. */
  type Property = (string, Value)

  datatype Value =
    | Undefined
    | Null
    | Bool(b: bool)
    | Num(n: Number)
    | Str(s: string)
    | Arr(items: seq<Value>)
      /** `own` lists the own enumerable properties in `Object.keys` order;
          `inherited` lists what the prototype chain supplies, nearest first. */
    | Obj(own: seq<Property>, inherited: seq<Property>)
    | Func
    | Buf(bytes: seq<byte>)

  /** `!!v` */
  predicate Truthy(v: Value) {
    match v
    case Undefined => false
    case Null => false
    case Bool(b) => b
    case Num(n) => (match n case Int(i) => i != 0 case NaN => false case _ => true)
    case Str(s) => s != ""
    case _ => true
  }

  /** `typeof v` */
  function TypeOf(v: Value): string {
    match v
    case Undefined => "undefined"
    case Null => "object"
    case Bool(_) => "boolean"
    case Num(_) => "number"
    case Str(_) => "string"
    case Func => "function"
    case _ => "object"
  }

  /** The negation of the library's recurring guard `!v || typeof v !== 'object'`. */
  predicate IsObject(v: Value)
    ensures IsObject(v) <==> v.Arr? || v.Obj? || v.Buf?
  {
    Truthy(v) && TypeOf(v) == "object"
  }

  function DigitChar(d: nat): char
    requires d < 10
  {
    "0123456789"[d]
  }

  /** The decimal numeral of `n` without leading zeros, as `n + ''` gives it. */
  function DecimalString(n: nat): (r: string)
    ensures |r| > 0
    ensures forall c :: c in r ==> '0' <= c <= '9'
  {
    if n < 10 then [DigitChar(n)] else DecimalString(n / 10) + [DigitChar(n % 10)]
  }

  /** `i + ''` for an integer `i`. */
  function IntString(i: int): (r: string)
    ensures |r| > 0
  {
    if i < 0 then "-" + DecimalString(-i) else DecimalString(i)
  }

  /** Index-keyed properties `(offset + k, items[k])`. */
  function IndexProps(items: seq<Value>, offset: nat): (r: seq<Property>)
    ensures |r| == |items|
  {
    if items == [] then [] else [(DecimalString(offset), items[0])] + IndexProps(items[1..], offset + 1)
  }

  /** The one-character strings of `s`. */
  function CharValues(s: string): (r: seq<Value>)
    ensures |r| == |s|
  {
    if s == [] then [] else [Str([s[0]])] + CharValues(s[1..])
  }

  function ByteValues(bytes: seq<byte>): (r: seq<Value>)
    ensures |r| == |bytes|
  {
    if bytes == [] then [] else [Num(Int(bytes[0] as int))] + ByteValues(bytes[1..])
  }

  /** The own enumerable properties of `v`, in `Object.keys` order. Arrays,
      strings and buffers have one property per index; other primitives and
      functions have none. */
  function OwnProps(v: Value): seq<Property> {
    match v
    case Obj(own, _) => own
    case Arr(items) => IndexProps(items, 0)
    case Str(s) => IndexProps(CharValues(s), 0)
    case Buf(bytes) => IndexProps(ByteValues(bytes), 0)
    case _ => []
  }

  function Names(props: seq<Property>): (r: seq<string>)
    ensures |r| == |props|
    ensures forall i :: 0 <= i < |props| ==> r[i] == props[i].0
  {
    if props == [] then [] else [props[0].0] + Names(props[1..])
  }

  /** `Object.keys(v)` */
  function Keys(v: Value): seq<string> {
    Names(OwnProps(v))
  }

  /** `{}.hasOwnProperty.call(v, k)`: arrays and strings also own `length`. */
  predicate HasOwn(v: Value, k: string) {
    Lookup(OwnProps(v), k).Some? || ((v.Arr? || v.Str?) && k == "length")
  }

  /** The value of the first property named `k`. */
  function Lookup(props: seq<Property>, k: string): Option<Value> {
    if props == [] then None
    else if props[0].0 == k then Some(props[0].1)
    else Lookup(props[1..], k)
  }

  /** A name is found exactly when it is among the property names. */
  lemma {:induction false} LookupFinds(props: seq<Property>, k: string)
    ensures Lookup(props, k).Some? <==> k in Names(props)
  {
    if props != [] {
      LookupFinds(props[1..], k);
      assert Names(props) == [props[0].0] + Names(props[1..]);
    }
  }

  /** `hasOwnProperty` answers true for every key `Object.keys` lists. */
  lemma HasOwnKeys(v: Value, k: string)
    ensures k in Keys(v) ==> HasOwn(v, k)
  {
    LookupFinds(OwnProps(v), k);
  }

  /** `v[k]`: an own property, else an inherited one, else `undefined`. */
  function Get(v: Value, k: string): Value {
    match Lookup(OwnProps(v), k)
    case Some(x) => x
    case None =>
      match v
      case Obj(_, inherited) => (match Lookup(inherited, k) case Some(x) => x case None => Undefined)
      case Arr(items) => if k == "length" then Num(Int(|items|)) else Undefined
      case Str(s) => if k == "length" then Num(Int(|s|)) else Undefined
      case Buf(bytes) => if k == "length" then Num(Int(|bytes|)) else Undefined
      case _ => Undefined
  }

  /** No two properties share a name, as with the own properties of every
      JavaScript object. */
  predicate DistinctNames(props: seq<Property>) {
    forall i, j :: 0 <= i < j < |props| ==> props[i].0 != props[j].0
  }

  /** With distinct names, looking up the name of an entry finds that entry. */
  lemma {:induction false} LookupDistinct(props: seq<Property>, i: nat)
    requires DistinctNames(props) && i < |props|
    ensures Lookup(props, props[i].0) == Some(props[i].1)
  {
    if i > 0 {
      var rest := props[1..];
      assert props[0].0 != props[i].0;
      assert rest[i - 1] == props[i];
      assert DistinctNames(rest) by {
        forall a, b | 0 <= a < b < |rest| ensures rest[a].0 != rest[b].0 {
          assert rest[a] == props[a + 1] && rest[b] == props[b + 1];
        }
      }
      LookupDistinct(rest, i - 1);
    }
  }

  /** `Object.keys(o).forEach(function(k) { ... o[k] ... })` reads, for the
      i-th key, the value of the i-th own entry. */
  lemma OwnEntryRead(v: Value, i: nat)
    requires DistinctNames(OwnProps(v)) && i < |OwnProps(v)|
    ensures Keys(v)[i] == OwnProps(v)[i].0
    ensures Get(v, Keys(v)[i]) == OwnProps(v)[i].1
  {
    LookupDistinct(OwnProps(v), i);
  }

  /** A plain object literal `{k1: v1, ...}`. */
  function Literal(own: seq<Property>): Value {
    Obj(own, [])
  }

  function LowerChar(c: char): char {
    if 'A' <= c <= 'Z' then (c as int + 32) as char else c
  }

  /** `s.toLowerCase()`, for the ASCII letters. */
  function ToLowerCase(s: string): (r: string)
    ensures |r| == |s|
  {
    if s == [] then [] else [LowerChar(s[0])] + ToLowerCase(s[1..])
  }

  /** Lower-casing twice is lower-casing once. */
  lemma {:induction false} ToLowerCaseIdempotent(s: string)
    ensures ToLowerCase(ToLowerCase(s)) == ToLowerCase(s)
  {
    if s != [] {
      ToLowerCaseIdempotent(s[1..]);
      var t := ToLowerCase(s);
      assert t[0] == LowerChar(s[0]) && t[1..] == ToLowerCase(s[1..]);
    }
  }
}
