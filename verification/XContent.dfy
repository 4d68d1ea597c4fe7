/** The streaming token model of the XContent (JSON) parser the clause handler
    reads from, the JSON documents those tokens come from, and `map()`: the
    atomic read of a whole nested object. */
module XContent {
  import opened Wrappers

  /** One parser token. `Scalar` stands for every token whose `isValue()` holds
      (strings, numbers, booleans) and carries its `text()`; `NullValue` is the
      null token, which is not a value token. */
  datatype Token =
    | FieldName(name: string)
    | Scalar(text: string)
    | NullValue
    | StartObject
    | EndObject
    | StartArray
    | EndArray

  /** A JSON document; scalars are kept by their textual form. */
  datatype Json =
    | JScalar(text: string)
    | JNull
    | JArray(items: seq<Json>)
    | JObject(fields: seq<Field>)

  datatype Field = Field(key: string, value: Json)

  /** The token stream a JSON parser emits for `v`. */
  function Tokenize(v: Json): seq<Token>
    decreases v
  {
    match v
    case JScalar(t) => [Scalar(t)]
    case JNull => [NullValue]
    case JArray(items) => [StartArray] + TokenizeItems(items) + [EndArray]
    case JObject(fields) => [StartObject] + TokenizeFields(fields) + [EndObject]
  }

  function TokenizeItems(items: seq<Json>): seq<Token>
    decreases items
  {
    if |items| == 0 then [] else Tokenize(items[0]) + TokenizeItems(items[1..])
  }

  /** The tokens of an object's members, without the surrounding braces. */
  function TokenizeFields(fields: seq<Field>): seq<Token>
    decreases fields
  {
    if |fields| == 0 then []
    else [FieldName(fields[0].key)] + Tokenize(fields[0].value) + TokenizeFields(fields[1..])
  }

  function Shift(o: Option<nat>, k: nat): Option<nat>
  {
    match o
    case None => None
    case Some(i) => Some(i + k)
  }

  /** Index of the token that closes the container opened `depth` levels above
      the start of `ts`, or None when the stream ends first. */
  function CloseIndex(ts: seq<Token>, depth: nat): (r: Option<nat>)
    ensures r.Some? ==> r.value < |ts|
    ensures r.Some? ==> ts[r.value].EndObject? || ts[r.value].EndArray?
    decreases |ts|
  {
    if |ts| == 0 then None
    else if ts[0].EndObject? || ts[0].EndArray? then
      if depth == 0 then Some(0) else Shift(CloseIndex(ts[1..], depth - 1), 1)
    else if ts[0].StartObject? || ts[0].StartArray? then
      Shift(CloseIndex(ts[1..], depth + 1), 1)
    else
      Shift(CloseIndex(ts[1..], depth), 1)
  }

  /** `parser.map()` with the parser on a START_OBJECT: reads the whole object
      and returns its member tokens and the tokens after its END_OBJECT. */
  function ReadObject(ts: seq<Token>): (r: Option<(seq<Token>, seq<Token>)>)
    ensures r.Some? ==> |r.value.1| < |ts|
    ensures r.Some? ==> exists close :: ts == r.value.0 + [close] + r.value.1
  {
    match CloseIndex(ts, 0)
    case None => None
    case Some(k) =>
      assert ts == ts[..k] + [ts[k]] + ts[k + 1..];
      Some((ts[..k], ts[k + 1..]))
  }

  lemma ShiftZero(o: Option<nat>)
    ensures Shift(o, 0) == o
  {
  }

  lemma ShiftShift(o: Option<nat>, a: nat, b: nat)
    ensures Shift(Shift(o, a), b) == Shift(o, a + b)
  {
  }

  /** A token that neither opens nor closes a container is stepped over. */
  lemma CloseIndexOverPlain(t: Token, ts: seq<Token>, depth: nat)
    requires t.FieldName? || t.Scalar? || t.NullValue?
    ensures CloseIndex([t] + ts, depth) == Shift(CloseIndex(ts, depth), 1)
  {
    assert ([t] + ts)[1..] == ts;
  }

  /** An opener takes the scan one level deeper. */
  lemma CloseIndexOverOpen(open: Token, ts: seq<Token>, depth: nat)
    requires open.StartObject? || open.StartArray?
    ensures CloseIndex([open] + ts, depth) == Shift(CloseIndex(ts, depth + 1), 1)
  {
    assert ([open] + ts)[1..] == ts;
  }

  /** A closer below the top level takes the scan one level up. */
  lemma CloseIndexOverClose(close: Token, ts: seq<Token>, depth: nat)
    requires close.EndObject? || close.EndArray?
    ensures CloseIndex([close] + ts, depth + 1) == Shift(CloseIndex(ts, depth), 1)
  {
    assert ([close] + ts)[1..] == ts;
  }

  /** A bracketed container whose contents are balanced is skipped as a whole. */
  lemma CloseIndexSkipsContainer(open: Token, inner: seq<Token>, close: Token, rest: seq<Token>, depth: nat)
    requires open.StartObject? || open.StartArray?
    requires close.EndObject? || close.EndArray?
    requires CloseIndex(inner + ([close] + rest), depth + 1)
          == Shift(CloseIndex([close] + rest, depth + 1), |inner|)
    ensures CloseIndex([open] + inner + [close] + rest, depth)
         == Shift(CloseIndex(rest, depth), |inner| + 2)
  {
    assert [open] + inner + [close] + rest == [open] + (inner + ([close] + rest));
    CloseIndexOverOpen(open, inner + ([close] + rest), depth);
    CloseIndexOverClose(close, rest, depth);
    ShiftShift(CloseIndex(rest, depth), 1, |inner|);
    ShiftShift(CloseIndex(rest, depth), 1 + |inner|, 1);
  }

  /** Skipping a complete JSON value never changes the matching close token:
      the value's tokens are balanced. */
  lemma {:induction false} CloseIndexSkipsValue(v: Json, rest: seq<Token>, depth: nat)
    ensures CloseIndex(Tokenize(v) + rest, depth) == Shift(CloseIndex(rest, depth), |Tokenize(v)|)
    decreases v, 1
  {
    match v
    case JScalar(t) =>
      CloseIndexOverPlain(Scalar(t), rest, depth);
    case JNull =>
      CloseIndexOverPlain(NullValue, rest, depth);
    case JArray(items) =>
      CloseIndexSkipsItems(items, [EndArray] + rest, depth + 1);
      CloseIndexSkipsContainer(StartArray, TokenizeItems(items), EndArray, rest, depth);
    case JObject(fields) =>
      CloseIndexSkipsFields(fields, [EndObject] + rest, depth + 1);
      CloseIndexSkipsContainer(StartObject, TokenizeFields(fields), EndObject, rest, depth);
  }

  lemma {:induction false} CloseIndexSkipsItems(items: seq<Json>, rest: seq<Token>, depth: nat)
    ensures CloseIndex(TokenizeItems(items) + rest, depth)
         == Shift(CloseIndex(rest, depth), |TokenizeItems(items)|)
    decreases items, 0
  {
    if |items| > 0 {
      var tail := TokenizeItems(items[1..]) + rest;
      assert TokenizeItems(items) + rest == Tokenize(items[0]) + tail;
      CloseIndexSkipsValue(items[0], tail, depth);
      CloseIndexSkipsItems(items[1..], rest, depth);
      ShiftShift(CloseIndex(rest, depth), |TokenizeItems(items[1..])|, |Tokenize(items[0])|);
    } else {
      assert TokenizeItems(items) + rest == rest;
      ShiftZero(CloseIndex(rest, depth));
    }
  }

  lemma {:induction false} CloseIndexSkipsFields(fields: seq<Field>, rest: seq<Token>, depth: nat)
    ensures CloseIndex(TokenizeFields(fields) + rest, depth)
         == Shift(CloseIndex(rest, depth), |TokenizeFields(fields)|)
    decreases fields, 0
  {
    if |fields| > 0 {
      var more := TokenizeFields(fields[1..]);
      var value := Tokenize(fields[0].value);
      var tail := more + rest;
      assert TokenizeFields(fields) + rest == [FieldName(fields[0].key)] + (value + tail);
      assert |TokenizeFields(fields)| == 1 + |value| + |more|;
      CloseIndexOverPlain(FieldName(fields[0].key), value + tail, depth);
      CloseIndexSkipsValue(fields[0].value, tail, depth);
      CloseIndexSkipsFields(fields[1..], rest, depth);
      ShiftShift(CloseIndex(rest, depth), |more|, |value|);
      ShiftShift(CloseIndex(rest, depth), |more| + |value|, 1);
    } else {
      assert TokenizeFields(fields) + rest == rest;
      ShiftZero(CloseIndex(rest, depth));
    }
  }

  /** `map()` reads back exactly the members of a serialized object and leaves
      the parser just after its END_OBJECT. */
  lemma ReadObjectRoundTrip(fields: seq<Field>, rest: seq<Token>)
    ensures ReadObject(TokenizeFields(fields) + [EndObject] + rest)
         == Some((TokenizeFields(fields), rest))
  {
    var body := TokenizeFields(fields);
    var ts := body + [EndObject] + rest;
    CloseIndexSkipsFields(fields, [EndObject] + rest, 0);
    assert body + ([EndObject] + rest) == ts;
    assert CloseIndex([EndObject] + rest, 0) == Some(0);
    assert ts[..|body|] == body;
    assert ts[|body| + 1..] == rest;
  }
}
