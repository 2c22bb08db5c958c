/** Values produced by `JSON.parse` / `Response.json()`, and the three JavaScript
    operations the transcription service applies to them: truthiness tests
    (`if (!text)`, `if (data?.type)`), optional property access (`payload?.id`)
    and string conversion (`${id}` in a template literal). */
module JsonValues {
  import opened Optional

  /** A parsed JSON value. Numbers are integers in this model. Object fields
      keep their source order, duplicates included. */
  datatype Json =
    | JNull
    | JBool(b: bool)
    | JNum(n: int)
    | JStr(s: string)
    | JArr(items: seq<Json>)
    | JObj(fields: seq<(string, Json)>)

  /** JavaScript truthiness: `null`, `false`, `0` and `''` are falsy; arrays and
      objects are truthy even when empty. */
  predicate Truthy(v: Json) {
    match v
    case JNull => false
    case JBool(b) => b
    case JNum(n) => n != 0
    case JStr(s) => s != ""
    case JArr(_) => true
    case JObj(_) => true
  }

  /** Truthiness of the result of an optional property access (`undefined` is falsy). */
  predicate TruthyField(v: Option<Json>) {
    v.Some? && Truthy(v.value)
  }

  /** The value `JSON.parse` keeps for `key`: with duplicate keys the last one wins. */
  function Lookup(fields: seq<(string, Json)>, key: string): (r: Option<Json>)
    ensures r.None? <==> forall i :: 0 <= i < |fields| ==> fields[i].0 != key
    ensures r.Some? ==> exists i :: 0 <= i < |fields| && fields[i] == (key, r.value)
                                     && forall j :: i < j < |fields| ==> fields[j].0 != key
    decreases |fields|
  {
    if |fields| == 0 then None
    else if fields[|fields| - 1].0 == key then Some(fields[|fields| - 1].1)
    else
      var init := fields[..|fields| - 1];
      var r := Lookup(init, key);
      assert forall i :: 0 <= i < |init| ==> init[i] == fields[i];
      assert r.Some? ==> exists i :: 0 <= i < |init| && fields[i] == (key, r.value)
                                     && forall j :: i < j < |fields| ==> fields[j].0 != key;
      r
  }

  /** `v?.key` for the keys this service reads (`type`, `text`, `id`): none of
      them is a property of a primitive or an array, so only objects answer. */
  function Member(v: Json, key: string): (r: Option<Json>)
    ensures r.Some? ==> v.JObj?
    ensures v.JObj? ==> r == Lookup(v.fields, key)
  {
    match v
    case JObj(fields) => Lookup(fields, key)
    case _ => None
  }

  function DigitChar(d: nat): char
    requires d < 10
  {
    "0123456789"[d]
  }

  /** Decimal text of a natural number, most significant digit first. */
  function NatText(n: nat): (r: string)
    ensures |r| > 0
    ensures forall i :: 0 <= i < |r| ==> '0' <= r[i] <= '9'
    decreases n
  {
    if n < 10 then [DigitChar(n)] else NatText(n / 10) + [DigitChar(n % 10)]
  }

  function IntText(n: int): string {
    if n < 0 then "-" + NatText(-n) else NatText(n)
  }

  /** `String(v)`: strings are themselves, arrays join their items' texts with
      commas (a `null` item gives the empty text), objects give `[object Object]`. */
  function Display(v: Json): (r: string)
    decreases v, 1
    ensures v.JStr? ==> r == v.s
    ensures v.JObj? ==> r == "[object Object]"
    ensures v.JArr? && |v.items| == 0 ==> r == ""
  {
    match v
    case JNull => "null"
    case JBool(b) => if b then "true" else "false"
    case JNum(n) => IntText(n)
    case JStr(s) => s
    case JArr(_) => JoinItems(v, 0)
    case JObj(_) => "[object Object]"
  }

  /** `Array.prototype.join(',')` over the items of `v` from index `i` on. */
  function JoinItems(v: Json, i: nat): string
    requires v.JArr? && i <= |v.items|
    decreases v, 0, |v.items| - i
  {
    if i == |v.items| then ""
    else
      var item := if v.items[i].JNull? then "" else Display(v.items[i]);
      if i + 1 == |v.items| then item else item + "," + JoinItems(v, i + 1)
  }
}
