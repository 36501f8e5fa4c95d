/** The base API response record: a business code, a message and the raw payload, parsed from
    a decoded body with the defaults "500" and "Unknown error". Also the field readers the
    derived responses share. */
module MuseWalletResponse {
  import opened Wrappers
  import opened KeyOrder
  import opened PhpValue

  datatype Response = Response(code: string, message: string, data: Value)

  /** `$response['code'] ?? '500'`, passed to a `string` property. */
  function CodeOf(response: Array): (r: Result<string, string>)
    ensures Isset(response, "code").None? ==> r == Ok("500")
    ensures forall s :: Get(response, "code") == Some(Str(s)) ==> r == Ok(s)
    ensures r.Err? <==> Isset(response, "code").Some? && Isset(response, "code").value.Arr?
  {
    CoerceString(Isset(response, "code").UnwrapOr(Str("500")))
  }

  /** `$response['message'] ?? 'Unknown error'`, passed to a `string` property. */
  function MessageOf(response: Array): (r: Result<string, string>)
    ensures Isset(response, "message").None? ==> r == Ok("Unknown error")
    ensures forall s :: Get(response, "message") == Some(Str(s)) ==> r == Ok(s)
    ensures r.Err? <==> Isset(response, "message").Some? && Isset(response, "message").value.Arr?
  {
    CoerceString(Isset(response, "message").UnwrapOr(Str("Unknown error")))
  }

  /** `$response['data'] ?? []`, the payload the derived responses read their fields from. */
  function DataOf(response: Array): Value {
    Isset(response, "data").UnwrapOr(Arr([]))
  }

  /** `$data[$key] ?? null`, passed to a `?string` property. */
  function Field(data: Value, key: string): (r: Result<Option<string>, string>)
    ensures Index(data, key).None? ==> r == Ok(None)
    ensures forall s :: Index(data, key) == Some(Str(s)) ==> r == Ok(Some(s))
    ensures r.Err? <==> Index(data, key).Some? && Index(data, key).value.Arr?
  {
    CoerceNullableString(Index(data, key))
  }

  /** A `?string` property as `toArray` writes it. */
  function Nullable(o: Option<string>): Value {
    if o.Some? then Str(o.value) else Null
  }

  /** Writing a property and reading it back gives the property. */
  lemma FieldNullable(entries: Array, key: string, o: Option<string>)
    requires Get(entries, key) == Some(Nullable(o))
    ensures Field(Arr(entries), key) == Ok(o)
  {
  }

  /** No key is listed twice. */
  predicate Distinct(keys: seq<string>) {
    forall i, j :: 0 <= i < j < |keys| ==> keys[i] != keys[j]
  }

  /** `$data[$key] ?? null` for each key in turn, as a derived response's `fromArray`
      fills its optional properties; a type error on any of them is the whole call's. */
  function ReadFields(data: Value, keys: seq<string>): (r: Result<seq<Option<string>>, string>)
    ensures r.Ok? ==> |r.value| == |keys|
    ensures r.Ok? ==> forall i :: 0 <= i < |keys| ==> Field(data, keys[i]) == Ok(r.value[i])
    ensures r.Err? <==> exists i :: 0 <= i < |keys| && Field(data, keys[i]).Err?
  {
    if |keys| == 0 then Ok([])
    else
      var first :- Field(data, keys[0]);
      var rest :- ReadFields(data, keys[1..]);
      Ok([first] + rest)
  }

  /** A payload that is not an array yields null for every property. */
  lemma ReadFieldsNoPayload(data: Value, keys: seq<string>)
    requires !data.Arr?
    ensures ReadFields(data, keys).Ok?
    ensures forall i :: 0 <= i < |keys| ==> ReadFields(data, keys).value[i].None?
  {
  }

  /** The entries `toArray` writes for the optional properties, in order. */
  function Row(keys: seq<string>, values: seq<Option<string>>): (a: Array)
    requires |keys| == |values|
    ensures |a| == |keys|
    ensures forall i :: 0 <= i < |a| ==> a[i] == (keys[i], Nullable(values[i]))
  {
    if |keys| == 0 then [] else [(keys[0], Nullable(values[0]))] + Row(keys[1..], values[1..])
  }

  /** Each property `toArray` wrote is found under its key, whatever entries precede the
      row, provided those use other keys. */
  lemma RowLookup(prefix: Array, keys: seq<string>, values: seq<Option<string>>, i: nat)
    requires |keys| == |values| && Distinct(keys) && i < |keys|
    requires forall x :: x in prefix ==> x.0 !in keys
    ensures Get(prefix + Row(keys, values), keys[i]) == Some(Nullable(values[i]))
  {
    var a := prefix + Row(keys, values);
    forall j | 0 <= j < |prefix| + i
      ensures a[j].0 != a[|prefix| + i].0
    {
      if j < |prefix| {
        assert a[j] in prefix;
      }
    }
    GetAt(a, |prefix| + i);
  }

  /** When every key reads as the matching value, the whole read gives those values. */
  lemma {:induction false} ReadFieldsAll(data: Value, keys: seq<string>, values: seq<Option<string>>)
    requires |keys| == |values|
    requires forall i :: 0 <= i < |keys| ==> Field(data, keys[i]) == Ok(values[i])
    ensures ReadFields(data, keys) == Ok(values)
  {
    if |keys| > 0 {
      assert Field(data, keys[0]) == Ok(values[0]);
      forall i | 0 <= i < |keys| - 1
        ensures Field(data, keys[1..][i]) == Ok(values[1..][i])
      {
        assert keys[1..][i] == keys[i + 1];
      }
      ReadFieldsAll(data, keys[1..], values[1..]);
      assert values == [values[0]] + values[1..];
    }
  }

  /** Reading the properties back from an array holding each of them under its key gives
      the same properties. */
  lemma ReadRow(a: Array, keys: seq<string>, values: seq<Option<string>>)
    requires |keys| == |values|
    requires forall i :: 0 <= i < |keys| ==> Get(a, keys[i]) == Some(Nullable(values[i]))
    ensures ReadFields(Arr(a), keys) == Ok(values)
  {
    forall i | 0 <= i < |keys|
      ensures Field(Arr(a), keys[i]) == Ok(values[i])
    {
      FieldNullable(a, keys[i], values[i]);
    }
    ReadFieldsAll(Arr(a), keys, values);
  }

  /** What a derived response's `toArray` returns: `code` and `message`, then each optional
      property under the key `fromArray` reads it from, null when unset. */
  function PropertiesArray(code: string, message: string, keys: seq<string>, values: seq<Option<string>>): (a: Array)
    requires |keys| == |values| && Distinct(keys) && "code" !in keys && "message" !in keys
    ensures |a| == 2 + |keys| && a[0] == ("code", Str(code)) && a[1] == ("message", Str(message))
    ensures forall i :: 0 <= i < |keys| ==> a[2 + i] == (keys[i], Nullable(values[i]))
    ensures DistinctKeys(a)
    ensures Get(a, "code") == Some(Str(code)) && Get(a, "message") == Some(Str(message))
    ensures forall i :: 0 <= i < |keys| ==> Get(a, keys[i]) == Some(Nullable(values[i]))
    ensures forall x :: x in a ==> x.0 == "code" || x.0 == "message" || x.0 in keys
  {
    var prefix := [("code", Str(code)), ("message", Str(message))];
    var a := prefix + Row(keys, values);
    assert forall x :: x in prefix ==> x.0 !in keys;
    forall i | 0 <= i < |keys|
      ensures Get(a, keys[i]) == Some(Nullable(values[i]))
    {
      RowLookup(prefix, keys, values, i);
    }
    GetAt(a, 0);
    GetAt(a, 1);
    assert forall x :: x in a ==> x in prefix || x in Row(keys, values);
    a
  }

  /** `$this->code === '200'`, which every derived response inherits. */
  predicate IsSuccessfulCode(code: string) {
    code == "200"
  }

  /** `MuseWalletResponse::fromArray($response)`. The payload defaults to null. */
  function FromArray(response: Array): (r: Result<Response, string>)
    ensures r.Err? <==> CodeOf(response).Err? || MessageOf(response).Err?
    ensures r.Ok? ==> r.value.data == Isset(response, "data").UnwrapOr(Null)
    ensures r.Ok? ==> r.value.code == CodeOf(response).value && r.value.message == MessageOf(response).value
  {
    var code :- CodeOf(response);
    var message :- MessageOf(response);
    Ok(Response(code, message, Isset(response, "data").UnwrapOr(Null)))
  }

  predicate IsSuccessful(r: Response) {
    IsSuccessfulCode(r.code)
  }

  /** `MuseWalletResponse::toArray()`. */
  function ToArray(r: Response): (a: Array)
    ensures DistinctKeys(a)
    ensures Get(a, "code") == Some(Str(r.code))
    ensures Get(a, "message") == Some(Str(r.message))
    ensures Get(a, "data") == Some(r.data)
  {
    var a := [("code", Str(r.code)), ("message", Str(r.message)), ("data", r.data)];
    GetDistinct(a, "code", a[0].1);
    GetDistinct(a, "message", a[1].1);
    GetDistinct(a, "data", a[2].1);
    a
  }

  /** Serialising a response and parsing it back gives the same response. */
  lemma FromArrayToArray(r: Response)
    ensures FromArray(ToArray(r)) == Ok(r)
  {
  }

  /** Parsing a body whose code and message are strings and serialising the result reproduces
      the body's code, message and data. */
  lemma ToArrayFromArray(response: Array, code: string, message: string)
    requires Get(response, "code") == Some(Str(code))
    requires Get(response, "message") == Some(Str(message))
    ensures FromArray(response).Ok?
    ensures Get(ToArray(FromArray(response).value), "code") == Get(response, "code")
    ensures Get(ToArray(FromArray(response).value), "message") == Get(response, "message")
    ensures Get(response, "data").Some? ==> Get(ToArray(FromArray(response).value), "data") == Get(response, "data")
  {
  }

  /** A body without a code is read as a system error, hence never successful. */
  lemma MissingCodeNotSuccessful(response: Array)
    requires Isset(response, "code").None?
    ensures FromArray(response).Ok? ==> !IsSuccessful(FromArray(response).value)
  {
  }

  /** The code is converted to a string, so an integer 200 counts as success. */
  lemma IntegerCodeSuccessful(response: Array)
    requires Get(response, "code") == Some(Int(200))
    requires Isset(response, "message").None?
    ensures FromArray(response).Ok? && IsSuccessful(FromArray(response).value)
  {
    assert IntToString(200) == "200" by {
      assert NatToString(20) == "20" by {
        assert NatToString(2) == "2";
      }
    }
  }
}
