/**
 * JSON values as `JSON.parse` produces them, and the few JavaScript operations the core applies to
 * such values: truthiness, property access (which throws on `null`), conversion to text in template
 * literals and query strings, object spread, and the numeric results of a division.
 */
module Json {
  import opened Wrappers
  import Text

  /** A parsed JSON value. Objects are maps: `JSON.parse` keeps the last of duplicate keys and key order
      plays no part in this model. */
  datatype Json =
    | JNull
    | JBool(b: bool)
    | JNum(n: real)
    | JStr(s: string)
    | JArr(elems: seq<Json>)
    | JObj(fields: map<string, Json>)

  /** A JavaScript number, including the non-finite results of dividing by zero. */
  datatype JsNumber = Finite(value: real) | PosInfinity | NegInfinity | NaN

  /** `a / b` on JavaScript numbers with finite operands. */
  function Divide(a: real, b: real): (r: JsNumber)
    ensures b != 0.0 <==> r.Finite?
    ensures b != 0.0 ==> r.value * b == a
  {
    if b != 0.0 then Finite(a / b)
    else if a > 0.0 then PosInfinity
    else if a < 0.0 then NegInfinity
    else NaN
  }

  /** JavaScript truthiness of a value that may be `undefined` (None). */
  predicate Truthy(v: Option<Json>) {
    match v
    case None => false
    case Some(JNull) => false
    case Some(JBool(b)) => b
    case Some(JNum(n)) => n != 0.0
    case Some(JStr(s)) => s != ""
    case Some(JArr(_)) => true
    case Some(JObj(_)) => true
  }

  /** What reading a property yields: a TypeError (the receiver is `null` or `undefined`), `undefined`,
      or a value. */
  datatype Access = Throws | Undefined | Present(value: Json) {
    /** The value read, with `undefined` as None; only meaningful when nothing was thrown. */
    function Value(): Option<Json> {
      if Present? then Some(value) else None
    }
  }

  /** `v.key` for a key that is not a built-in property of strings, arrays or numbers (all keys read
      by this model are of that kind). */
  function Member(v: Option<Json>, key: string): (a: Access)
    ensures a.Throws? <==> (v.None? || v == Some(JNull))
    ensures a.Present? <==> (v.Some? && v.value.JObj? && key in v.value.fields)
  {
    match v
    case None => Throws
    case Some(JNull) => Throws
    case Some(JObj(f)) => if key in f then Present(f[key]) else Undefined
    case Some(_) => Undefined
  }

  /** Optional chaining `v?.key`: `undefined` when `v` is `null` or `undefined`. */
  function Get(v: Option<Json>, key: string): (r: Option<Json>)
    ensures r.Some? <==> v.Some? && v.value.JObj? && key in v.value.fields
    ensures r.Some? ==> r.value == v.value.fields[key]
  {
    if v.None? || v == Some(JNull) then None else Member(v, key).Value()
  }

  /** `${v}` (equivalently `String(v)`) for a value that may be `undefined`. Number-to-text conversion is
      the parameter `numText`; arrays join their elements' texts with commas, writing `null` elements
      as the empty text. */
  function TemplateText(v: Option<Json>, numText: real -> string): string {
    match v
    case None => "undefined"
    case Some(j) => ValueText(j, numText)
  }

  function ValueText(j: Json, numText: real -> string): string
    decreases j
  {
    match j
    case JNull => "null"
    case JBool(b) => if b then "true" else "false"
    case JNum(n) => numText(n)
    case JStr(s) => s
    case JArr(es) => ElemsText(es, numText)
    case JObj(_) => "[object Object]"
  }

  function ElemsText(es: seq<Json>, numText: real -> string): string
    decreases es
  {
    if es == [] then ""
    else
      var head := if es[0] == JNull then "" else ValueText(es[0], numText);
      if |es| == 1 then head else head + "," + ElemsText(es[1..], numText)
  }

  /** The text `ToPrimitive` gives a string, an array or an object; None for the other values, whose
      primitive is themselves. */
  function PrimitiveText(v: Option<Json>, numText: real -> string): (r: Option<string>)
    ensures r.Some? <==> v.Some? && (v.value.JStr? || v.value.JArr? || v.value.JObj?)
    ensures v.Some? && v.value.JStr? ==> r == Some(v.value.s)
  {
    match v
    case Some(JStr(s)) => Some(s)
    case Some(JArr(_)) => Some(ValueText(v.value, numText))
    case Some(JObj(_)) => Some(ValueText(v.value, numText))
    case _ => None
  }

  /** `ToNumber` of a value that may be `undefined`: NaN for `undefined`, 0 for `null`, 0 or 1 for a
      boolean; a text, and an array's or object's primitive text, are read by the parameter
      `toNumber`. */
  function NumberOf(v: Option<Json>, toNumber: string -> JsNumber, numText: real -> string): (r: JsNumber)
    ensures v.None? ==> r == NaN
    ensures v.Some? && v.value.JNum? ==> r == Finite(v.value.n)
    ensures PrimitiveText(v, numText).Some? ==> r == toNumber(PrimitiveText(v, numText).value)
  {
    match v
    case None => NaN
    case Some(JNull) => Finite(0.0)
    case Some(JBool(b)) => Finite(if b then 1.0 else 0.0)
    case Some(JNum(n)) => Finite(n)
    case Some(_) => toNumber(PrimitiveText(v, numText).value)
  }

  /** `x >= y` on JavaScript numbers: false whenever either side is NaN. */
  predicate NumberAtLeast(x: JsNumber, y: JsNumber) {
    match (x, y)
    case (NaN, _) => false
    case (_, NaN) => false
    case (PosInfinity, _) => true
    case (_, NegInfinity) => true
    case (NegInfinity, _) => false
    case (_, PosInfinity) => false
    case (Finite(a), Finite(b)) => a >= b
  }

  /** `a >= b` on values that may be `undefined`: when both primitives are texts they compare as text,
      otherwise both sides are converted to numbers. */
  predicate AtLeast(a: Option<Json>, b: Option<Json>, toNumber: string -> JsNumber, numText: real -> string) {
    var x := PrimitiveText(a, numText);
    var y := PrimitiveText(b, numText);
    if x.Some? && y.Some? then !Text.Before(x.value, y.value)
    else NumberAtLeast(NumberOf(a, toNumber, numText), NumberOf(b, toNumber, numText))
  }

  /** Two numbers compare as numbers, two texts as text, and `undefined` is never at least anything
      nor anything at least it. */
  lemma AtLeastCases(a: Option<Json>, b: Option<Json>, toNumber: string -> JsNumber, numText: real -> string)
    ensures a.Some? && a.value.JNum? && b.Some? && b.value.JNum? ==>
      (AtLeast(a, b, toNumber, numText) <==> a.value.n >= b.value.n)
    ensures a.Some? && a.value.JStr? && b.Some? && b.value.JStr? ==>
      (AtLeast(a, b, toNumber, numText) <==> !Text.Before(a.value.s, b.value.s))
    ensures a.None? || b.None? ==> !AtLeast(a, b, toNumber, numText)
  {
  }

  /** The own enumerable properties `{...v}` copies out of a value: an object's fields, an array's or a
      string's elements under their decimal indices, nothing for `null`, booleans and numbers. */
  function SpreadFields(v: Json): (m: map<string, Json>)
    ensures v.JObj? ==> m == v.fields
    ensures (v.JNull? || v.JBool? || v.JNum?) ==> m == map[]
  {
    match v
    case JObj(f) => f
    case JArr(es) => IndexedFields(es, 0)
    case JStr(s) => IndexedFields(seq(|s|, i requires 0 <= i < |s| => JStr([s[i]])), 0)
    case _ => map[]
  }

  function IndexedFields(es: seq<Json>, from: nat): map<string, Json>
    decreases |es| - from
  {
    if from >= |es| then map[] else IndexedFields(es, from + 1)[Text.NatText(from) := es[from]]
  }

  /** `v[0]` on a value that is neither `null` nor `undefined`: an array's first element, a string's
      first character, an object's "0" member; `undefined` (None) otherwise. */
  function First(v: Json): (r: Option<Json>)
    ensures v.JArr? ==> (r.Some? <==> v.elems != []) && (r.Some? ==> r.value == v.elems[0])
  {
    match v
    case JArr(es) => if es == [] then None else Some(es[0])
    case JStr(s) => if s == "" then None else Some(JStr([s[0]]))
    case JObj(f) => if "0" in f then Some(f["0"]) else None
    case _ => None
  }

  /** `v.length === 0` on a value that is neither `null` nor `undefined`. */
  predicate LengthIsZero(v: Json) {
    match v
    case JArr(es) => es == []
    case JStr(s) => s == ""
    case JObj(f) => "length" in f && f["length"] == JNum(0.0)
    case _ => false
  }

  /** The object that `JSON.stringify` writes for an object literal whose members may be `undefined`:
      `undefined` members are left out, and of two members with one key the later wins. */
  function ObjectOf(members: seq<(string, Option<Json>)>): (r: Json)
    ensures r.JObj?
    ensures forall k :: k in r.fields ==> exists i :: 0 <= i < |members| && members[i].0 == k
  {
    if members == [] then JObj(map[])
    else
      var init := ObjectOf(members[..|members| - 1]).fields;
      var (k, v) := members[|members| - 1];
      JObj(if v.Some? then init[k := v.value] else init - {k})
  }

  /** With distinct keys, each defined member is found under its key and an undefined one is absent. */
  lemma {:induction false} ObjectOfMember(members: seq<(string, Option<Json>)>, i: nat)
    requires i < |members|
    requires forall a, b :: 0 <= a < b < |members| ==> members[a].0 != members[b].0
    ensures members[i].1.Some? ==>
      members[i].0 in ObjectOf(members).fields && ObjectOf(members).fields[members[i].0] == members[i].1.value
    ensures members[i].1.None? ==> members[i].0 !in ObjectOf(members).fields
    decreases |members|
  {
    var n := |members| - 1;
    if i < n {
      ObjectOfMember(members[..n], i);
    } else if n > 0 {
      var init := members[..n];
      forall j | 0 <= j < |init| ensures init[j].0 != members[i].0 {
        assert init[j] == members[j];
      }
    }
  }

  /** A defined member that no later member overrides is found under its key. */
  lemma {:induction false} ObjectOfLatest(members: seq<(string, Option<Json>)>, i: nat)
    requires i < |members| && members[i].1.Some?
    requires forall j :: i < j < |members| ==> members[j].0 != members[i].0
    ensures members[i].0 in ObjectOf(members).fields && ObjectOf(members).fields[members[i].0] == members[i].1.value
    decreases |members|
  {
    var n := |members| - 1;
    if i < n {
      ObjectOfLatest(members[..n], i);
    }
  }
}
