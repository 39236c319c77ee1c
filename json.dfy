/** JSON values as JavaScript code sees them after `JSON.parse`: truthiness, property
    reads, and `String(...)`. Numbers are integers here (see README). */
module Json {
  import opened Common
  import opened Text

  datatype Json =
    | JNull
    | JBool(b: bool)
    | JNumber(n: int)
    | JString(s: string)
    | JArray(items: seq<Json>)
    | JObject(fields: map<string, Json>)

  /** What `JSON.parse` (or `Response.json()`) makes of a text: a value, or a throw. */
  datatype ParseResult = Parsed(value: Json) | Malformed

  /** JavaScript truthiness: `null`, `false`, `0` and `""` are falsy, everything else
      (arrays and objects included, even empty ones) is truthy. */
  predicate Truthy(v: Json)
  {
    match v
    case JNull => false
    case JBool(b) => b
    case JNumber(n) => n != 0
    case JString(s) => s != ""
    case JArray(_) => true
    case JObject(_) => true
  }

  /** `key` is the canonical numeral of an index below `len` ("0", "1", ..., never "01"). */
  predicate IsIndex(key: string, len: nat)
  {
    IsDigits(key) && NatToDecimal(ParseDecimal(key)) == key && ParseDecimal(key) < len
  }

  /** `v[key]` on a value that is not `null`: an own property of an object, an element of
      an array, or a one-character string of a string; `None` stands for `undefined`.
      Members inherited from the prototypes are not modelled: no key the handlers read
      names one. Reading a property of `null` throws and is the caller's case. */
  function Get(v: Json, key: string): (r: Option<Json>)
    requires v != JNull
    ensures v.JObject? ==> (r.Some? <==> key in v.fields)
    ensures v.JObject? && key in v.fields ==> r == Some(v.fields[key])
    ensures v.JBool? || v.JNumber? ==> r == None
  {
    match v
    case JObject(m) => if key in m then Some(m[key]) else None
    case JArray(xs) => if IsIndex(key, |xs|) then Some(xs[ParseDecimal(key)]) else None
    case JString(s) => if IsIndex(key, |s|) then Some(JString([s[ParseDecimal(key)]])) else None
    case _ => None
  }

  /** Index `i` of an array is read under the key `${i}`. */
  lemma GetIndex(xs: seq<Json>, i: nat)
    requires i < |xs|
    ensures Get(JArray(xs), NatToDecimal(i)) == Some(xs[i])
  {
    DecimalRoundTrip(i);
  }

  /** No other key reads an element: a key that reads something from an array is the
      numeral of an index, and what it reads is the element there (so "01" or "-0"
      reads nothing). */
  lemma GetIndexOnly(xs: seq<Json>, key: string)
    requires Get(JArray(xs), key).Some?
    ensures exists i: nat :: i < |xs| && key == NatToDecimal(i) && Get(JArray(xs), key) == Some(xs[i])
  {
    var i := ParseDecimal(key);
    assert key == NatToDecimal(i);
  }

  /** Position `i` of a string is read under the key `${i}`, as the one-character string
      there. */
  lemma GetCharIndex(s: string, i: nat)
    requires i < |s|
    ensures Get(JString(s), NatToDecimal(i)) == Some(JString([s[i]]))
  {
    DecimalRoundTrip(i);
  }

  /** `v?.[key]`: `undefined` when `v` is `null` or `undefined`, otherwise `v[key]`. */
  function OptGet(v: Option<Json>, key: string): (r: Option<Json>)
    ensures v == None || v == Some(JNull) ==> r == None
    ensures v.Some? && v.value != JNull ==> r == Get(v.value, key)
  {
    match v
    case None => None
    case Some(JNull) => None
    case Some(x) => Get(x, key)
  }

  /** `xs.join(',')` on already converted parts. */
  function Join(parts: seq<string>): (r: string)
    ensures parts == [] ==> r == ""
    ensures |parts| == 1 ==> r == parts[0]
  {
    if parts == [] then ""
    else if |parts| == 1 then parts[0]
    else Join(parts[..|parts| - 1]) + "," + parts[|parts| - 1]
  }

  /** Whether `String(v)` returns rather than throws. A parsed object with an own
      `toString` key throws: that key hides `Object.prototype.toString`, its value is
      never callable, and `valueOf` gives back the object itself, so no primitive is
      found. An array throws when one of its elements does. */
  predicate Convertible(v: Json)
  {
    match v
    case JObject(fields) => "toString" !in fields
    case JArray(xs) => forall i :: 0 <= i < |xs| ==> Convertible(xs[i])
    case _ => true
  }

  /** `String(v)`, `None` where it throws. An array joins its elements with commas,
      writing `null` elements as the empty string; an object is `[object Object]`. */
  function ToJsString(v: Json): (r: Option<string>)
    ensures r.Some? <==> Convertible(v)
    ensures v.JString? ==> r == Some(v.s)
    ensures v.JObject? && r.Some? ==> r.value == "[object Object]"
    decreases v
  {
    match v
    case JNull => Some("null")
    case JBool(b) => Some(if b then "true" else "false")
    case JNumber(n) => Some(IntToDecimal(n))
    case JString(s) => Some(s)
    case JArray(xs) =>
      var parts := seq(|xs|, i requires 0 <= i < |xs| => if xs[i] == JNull then Some("") else ToJsString(xs[i]));
      if forall i :: 0 <= i < |xs| ==> parts[i].Some? then
        assert forall i :: 0 <= i < |xs| ==> Convertible(xs[i]) by {
          forall i | 0 <= i < |xs| ensures Convertible(xs[i]) {
            assert parts[i].Some?;
          }
        }
        Some(Join(seq(|xs|, i requires 0 <= i < |xs| => match parts[i] { case Some(p) => p case None => "" })))
      else None
    case JObject(fields) => if "toString" in fields then None else Some("[object Object]")
  }

  /** `String(v || '')`, `None` where it throws: falsy values become the empty string,
      strings stay as they are, and only a value `String` cannot convert throws. */
  function StringOrEmpty(v: Option<Json>): (r: Option<string>)
    ensures v == None || !Truthy(v.value) ==> r == Some("")
    ensures v.Some? && v.value.JString? ==> r == Some(v.value.s)
    ensures r == None <==> v.Some? && Truthy(v.value) && !Convertible(v.value)
    ensures v.Some? && Truthy(v.value) ==> r == ToJsString(v.value)
  {
    if v.Some? && Truthy(v.value) then ToJsString(v.value) else Some("")
  }

  /** Exactly `null`, `false`, `0` and `""` are falsy. */
  lemma FalsyValues(v: Json)
    ensures !Truthy(v) <==> v == JNull || v == JBool(false) || v == JNumber(0) || v == JString("")
  {
  }
}
