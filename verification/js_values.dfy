/** The two JavaScript built-ins the dispatcher applies to a message payload:
    `Object.values` and `String(value)`. The dispatcher turns
    `payload_json` into the provider's positional template parameters with
    `Object.values(payload).map(value => String(value))`. */
module JsValues {
  import opened Wrappers
  import opened Text
  import opened Types

  /** The message of the TypeError `Object.values(null)` throws. */
  const NullToObjectError := "Cannot convert undefined or null to object"

  /** `String(v)`. Arrays are joined with "," and their null elements become
      the empty string; every object prints as "[object Object]". */
  function JsString(v: Json): string
    decreases v, if v.JArray? then |v.items| + 1 else 0
  {
    match v
    case JNull => "null"
    case JBool(b) => if b then "true" else "false"
    case JNumber(n) => IntToDecimal(n)
    case JString(s) => s
    case JArray(items) => JoinElements(v, 0)
    case JObject(_) => "[object Object]"
  }

  /** `Array.prototype.join(",")` over the elements of `v` from index `i`. */
  function JoinElements(v: Json, i: nat): string
    requires v.JArray? && i <= |v.items|
    decreases v, |v.items| - i
  {
    if i == |v.items| then ""
    else
      var head := if v.items[i].JNull? then "" else JsString(v.items[i]);
      if i + 1 == |v.items| then head else head + "," + JoinElements(v, i + 1)
  }

  /** The value `JSON.parse` leaves under `key` when it occurs several times:
      the last one. */
  function LastValue(entries: seq<(string, Json)>, key: string): (r: Option<Json>)
    ensures r.Some? <==> exists i :: 0 <= i < |entries| && entries[i].0 == key
    ensures r.Some? ==> exists i :: 0 <= i < |entries| && entries[i] == (key, r.value)
    decreases |entries|
  {
    if |entries| == 0 then None
    else if entries[|entries| - 1].0 == key then Some(entries[|entries| - 1].1)
    else LastValue(entries[..|entries| - 1], key)
  }

  /** Property access `v.key` on a parsed, non-null JSON value: `None` stands
      for `undefined`, which is what every non-object value yields for the
      keys the handlers read. */
  function Get(v: Json, key: string): (r: Option<Json>)
    ensures r.Some? <==> v.JObject? && exists i :: 0 <= i < |v.entries| && v.entries[i].0 == key
  {
    if v.JObject? then LastValue(v.entries, key) else None
  }

  /** The keys of an object literal in the order `JSON.parse` creates them:
      a key given several times keeps the position of its first occurrence. */
  function UniqueKeys(entries: seq<(string, Json)>): (ks: seq<string>)
    ensures forall k :: k in ks <==> exists i :: 0 <= i < |entries| && entries[i].0 == k
    ensures forall i, j :: 0 <= i < j < |ks| ==> ks[i] != ks[j]
    ensures |ks| <= |entries|
    decreases |entries|
  {
    if |entries| == 0 then []
    else
      var init := entries[..|entries| - 1];
      var ks := UniqueKeys(init);
      var k := entries[|entries| - 1].0;
      assert forall i :: 0 <= i < |init| ==> init[i] == entries[i];
      if k in ks then ks else ks + [k]
  }

  /** Object keys are pairwise distinct, as in every object `JSON.parse`
      returns and every `jsonb` value the database stores. */
  predicate DistinctKeys(entries: seq<(string, Json)>) {
    forall i, j :: 0 <= i < j < |entries| ==> entries[i].0 != entries[j].0
  }

  /** `Object.values(v)`: the values of an object in enumeration order (one
      per distinct key, the last one given), the elements of an array, the
      one-character strings of a string, nothing for a boolean or a number,
      and a TypeError for null. */
  function ObjectValues(v: Json): (r: Result<seq<Json>, string>)
    ensures r.Err? <==> v.JNull?
    ensures v.JObject? ==> |r.value| == |UniqueKeys(v.entries)|
    ensures v.JObject? ==> forall i :: 0 <= i < |r.value| ==> Some(r.value[i]) == Get(v, UniqueKeys(v.entries)[i])
    ensures v.JArray? ==> r == Ok(v.items)
  {
    match v
    case JNull => Err(NullToObjectError)
    case JBool(_) => Ok([])
    case JNumber(_) => Ok([])
    case JString(s) => Ok(seq(|s|, i requires 0 <= i < |s| => JString([s[i]])))
    case JArray(items) => Ok(items)
    case JObject(entries) =>
      var ks := UniqueKeys(entries);
      assert forall i :: 0 <= i < |ks| ==> LastValue(entries, ks[i]).Some? by {
        forall i | 0 <= i < |ks| ensures LastValue(entries, ks[i]).Some? {
          assert ks[i] in ks;
        }
      }
      Ok(seq(|ks|, i requires 0 <= i < |ks| => LastValue(entries, ks[i]).value))
  }

  /** The positional template parameters built from a message payload, or the
      message of the TypeError building them throws. */
  function TemplateParams(payload: Json): (r: Result<seq<string>, string>)
    ensures r.Err? <==> payload.JNull?
    ensures r.Ok? ==> |r.value| == |ObjectValues(payload).value|
  {
    match ObjectValues(payload)
    case Err(e) => Err(e)
    case Ok(values) => Ok(seq(|values|, i requires 0 <= i < |values| => JsString(values[i])))
  }

  /** With distinct keys, every key is its own first occurrence. */
  lemma {:induction false} UniqueKeysOfDistinct(entries: seq<(string, Json)>)
    requires DistinctKeys(entries)
    ensures UniqueKeys(entries) == seq(|entries|, i requires 0 <= i < |entries| => entries[i].0)
    decreases |entries|
  {
    if |entries| > 0 {
      var init := entries[..|entries| - 1];
      assert forall i :: 0 <= i < |init| ==> init[i] == entries[i];
      UniqueKeysOfDistinct(init);
      var k := entries[|entries| - 1].0;
    }
  }

  /** With distinct keys, the value read under an entry's key is that entry's. */
  lemma {:induction false} LastValueOfDistinct(entries: seq<(string, Json)>, i: nat)
    requires DistinctKeys(entries) && i < |entries|
    ensures LastValue(entries, entries[i].0) == Some(entries[i].1)
    decreases |entries|
  {
    if i < |entries| - 1 {
      var init := entries[..|entries| - 1];
      assert init[i] == entries[i];
      assert entries[|entries| - 1].0 != entries[i].0;
      LastValueOfDistinct(init, i);
    }
  }

  /** With distinct keys, an object's values are its entries' values in
      order. */
  lemma ObjectValuesOfDistinct(entries: seq<(string, Json)>)
    requires DistinctKeys(entries)
    ensures ObjectValues(JObject(entries)) == Ok(seq(|entries|, i requires 0 <= i < |entries| => entries[i].1))
  {
    UniqueKeysOfDistinct(entries);
    var ks := UniqueKeys(entries);
    var r := ObjectValues(JObject(entries)).value;
    assert |r| == |ks| == |entries|;
    forall i | 0 <= i < |entries| ensures r[i] == entries[i].1 {
      assert ks[i] == entries[i].0;
      LastValueOfDistinct(entries, i);
      assert Some(r[i]) == Get(JObject(entries), ks[i]);
    }
    assert r == seq(|entries|, i requires 0 <= i < |entries| => entries[i].1);
  }

  /** A payload whose values are all strings, with distinct keys as JSON
      objects from the database have, yields exactly those strings in key
      order: the common case of an order-notification payload. */
  lemma StringPayloadParams(entries: seq<(string, Json)>)
    requires DistinctKeys(entries)
    requires forall i :: 0 <= i < |entries| ==> entries[i].1.JString?
    ensures TemplateParams(JObject(entries)).Ok?
    ensures var p := TemplateParams(JObject(entries)).value;
      |p| == |entries| && forall i :: 0 <= i < |entries| ==> p[i] == entries[i].1.s
  {
    ObjectValuesOfDistinct(entries);
  }

  /** A key given twice contributes one parameter, carrying the later value. */
  lemma DuplicateKeyCountsOnce(k: string, first: string, second: string)
    ensures TemplateParams(JObject([(k, JString(first)), (k, JString(second))])) == Ok([second])
  {
    var entries := [(k, JString(first)), (k, JString(second))];
    assert UniqueKeys(entries[..1]) == [k];
    assert UniqueKeys(entries) == [k];
    assert LastValue(entries, k) == Some(JString(second));
    var values := ObjectValues(JObject(entries)).value;
    assert values == [JString(second)];
    var p := TemplateParams(JObject(entries)).value;
    assert |p| == 1 && p[0] == JsString(values[0]) == second;
    assert p == [second];
  }

  /** A number-valued payload entry becomes its decimal numeral. */
  lemma NumberParam(n: int)
    ensures JsString(JNumber(n)) == IntToDecimal(n)
    ensures 0 <= n ==> DecimalValue(JsString(JNumber(n))) == n
  {
    if 0 <= n {
      DecimalRoundTrip(n);
    }
  }

  /** A value interpolated into a PostgREST filter (`eq.${value}`):
      `undefined` becomes the text "undefined". */
  function FilterText(v: Option<Json>): string {
    if v.None? then "undefined" else JsString(v.value)
  }

  /** A string value reaches the filter unchanged. */
  lemma FilterTextOfString(s: string)
    ensures FilterText(Some(JString(s))) == s
    ensures FilterText(None) == "undefined"
  {
  }
}
