/** Reference extraction: the token loop at the start of the clause handler,
    which walks the members of the `saved` object and collects a `name`, or a
    selector from a `tags` array or a `query` object. */
module Extraction {
  import opened Wrappers
  import opened XContent
  import opened SavedQueryTypes

  /** What the loop collected: the saved-query name (savedQueryName) and the
      store selector (queriesQuery), each absent until a member sets it. */
  datatype Reference = Reference(name: Option<string>, selector: Option<Selector>)

  const Nothing: Reference := Reference(None, None)

  /** Texts of the value tokens of `ts`, in order. */
  function ValueTexts(ts: seq<Token>): seq<string>
  {
    if |ts| == 0 then []
    else (if ts[0].Scalar? then [ts[0].text] else []) + ValueTexts(ts[1..])
  }

  /** The inner loop of a `tags` array: collects the text of every value token
      up to the first END_ARRAY and returns the tokens after it. */
  function TagRun(ts: seq<Token>): (r: Option<(seq<string>, seq<Token>)>)
    ensures r.Some? ==> |r.value.1| < |ts|
    ensures r.Some? ==> forall t | t in r.value.1 :: t in ts
  {
    if |ts| == 0 then None
    else if ts[0].EndArray? then Some(([], ts[1..]))
    else
      match TagRun(ts[1..])
      case None => None
      case Some((tags, rest)) =>
        Some(((if ts[0].Scalar? then [ts[0].text] else []) + tags, rest))
  }

  /** The member loop, reading until the END_OBJECT of the `saved` object.
      `field` is the current field name; `acc` what has been collected. */
  function Scan(ts: seq<Token>, field: string, acc: Reference): (r: Result<Reference, Error>)
    ensures r.Failure? ==> r.error == TruncatedInput || r.error.UnsupportedField?
    ensures r.Success? && acc.name.Some? ==> r.value.name.Some?
    ensures r.Success? && acc.selector.Some? ==> r.value.selector.Some?
    decreases |ts|
  {
    if |ts| == 0 then Failure(TruncatedInput)
    else
      match ts[0]
      case EndObject => Success(acc)
      case FieldName(f) => Scan(ts[1..], f, acc)
      case Scalar(text) =>
        Scan(ts[1..], field, if field == "name" then acc.(name := Some(text)) else acc)
      case StartObject =>
        if field == "query" then
          match ReadObject(ts[1..])
          case None => Failure(TruncatedInput)
          case Some((body, rest)) => Scan(rest, field, acc.(selector := Some(Subquery(body))))
        else Failure(UnsupportedField(field))
      case StartArray =>
        if field == "tags" then
          match TagRun(ts[1..])
          case None => Failure(TruncatedInput)
          case Some((tags, rest)) => Scan(rest, field, acc.(selector := Some(TagTerms(tags))))
        else Failure(UnsupportedField(field))
      case _ => Scan(ts[1..], field, acc)
  }

  /** Extraction over the tokens after the `saved` object's START_OBJECT. */
  function Extract(ts: seq<Token>): (r: Result<Reference, Error>)
    ensures r.Failure? ==>
      || r.error == TruncatedInput
      || r.error == UnsupportedField("")
      || (r.error.UnsupportedField? && FieldName(r.error.field) in ts)
    ensures r.Success? ==> EndObject in ts
    ensures r.Success? && r.value.name.Some? ==> Scalar(r.value.name.value) in ts
  {
    ScanReadsFromStream(ts, "", Nothing);
    Scan(ts, "", Nothing)
  }

  /** What the member loop reports comes from the stream it read: a rejected
      field is the current one or a field name of the stream, a success has
      met an END_OBJECT, and a newly collected name is a value token's text. */
  lemma {:induction false} ScanReadsFromStream(ts: seq<Token>, field: string, acc: Reference)
    ensures var r := Scan(ts, field, acc);
      r.Failure? && r.error.UnsupportedField? ==> r.error.field == field || FieldName(r.error.field) in ts
    ensures Scan(ts, field, acc).Success? ==> EndObject in ts
    ensures var r := Scan(ts, field, acc);
      r.Success? && r.value.name.Some? && r.value.name != acc.name ==> Scalar(r.value.name.value) in ts
    decreases |ts|
  {
    if |ts| > 0 {
      match ts[0]
      case EndObject =>
      case FieldName(f) =>
        ScanReadsFromStream(ts[1..], f, acc);
      case Scalar(text) =>
        ScanReadsFromStream(ts[1..], field, if field == "name" then acc.(name := Some(text)) else acc);
      case StartObject =>
        if field == "query" {
          match ReadObject(ts[1..])
          case None =>
          case Some((body, rest)) =>
            ScanReadsFromStream(rest, field, acc.(selector := Some(Subquery(body))));
            assert forall t | t in rest :: t in ts by {
              var close :| ts[1..] == body + [close] + rest;
            }
        }
      case StartArray =>
        if field == "tags" {
          match TagRun(ts[1..])
          case None =>
          case Some((tags, rest)) =>
            ScanReadsFromStream(rest, field, acc.(selector := Some(TagTerms(tags))));
        }
      case _ =>
        ScanReadsFromStream(ts[1..], field, acc);
    }
  }

  /** The `tags` run holds exactly the value tokens before the first END_ARRAY,
      in order, and leaves the parser just after that END_ARRAY. */
  lemma {:induction false} TagRunReadsValues(ts: seq<Token>, k: nat)
    requires k < |ts| && ts[k] == EndArray
    requires forall j | 0 <= j < k :: ts[j] != EndArray
    ensures TagRun(ts) == Some((ValueTexts(ts[..k]), ts[k + 1..]))
  {
    if k > 0 {
      assert ts[0] != EndArray;
      TagRunReadsValues(ts[1..], k - 1);
      assert ts[..k][1..] == ts[1..][..k - 1];
      assert ts[1..][k..] == ts[k + 1..];
    }
  }

  /** A `tags` array that is never closed is a truncated stream. */
  lemma {:induction false} TagRunNeedsEnd(ts: seq<Token>)
    ensures TagRun(ts).None? <==> EndArray !in ts
  {
    if |ts| > 0 {
      TagRunNeedsEnd(ts[1..]);
      assert ts == [ts[0]] + ts[1..];
    }
  }

  // ---- The same loop read over whole JSON documents ----

  /** A member the loop rejects: an object other than `query`, or an array
      other than `tags`. */
  predicate Rejected(f: Field)
  {
    (f.value.JObject? && f.key != "query") || (f.value.JArray? && f.key != "tags")
  }

  /** A member that sets the name. */
  predicate NameField(f: Field)
  {
    f.key == "name" && f.value.JScalar?
  }

  /** A member that sets the selector. */
  predicate SelectorField(f: Field)
  {
    (f.key == "query" && f.value.JObject?) || (f.key == "tags" && f.value.JArray?)
  }

  function ScalarTexts(items: seq<Json>): seq<string>
  {
    if |items| == 0 then []
    else (if items[0].JScalar? then [items[0].text] else []) + ScalarTexts(items[1..])
  }

  /** The selector a selecting member stands for. */
  function SelectorOf(f: Field): Selector
    requires SelectorField(f)
  {
    if f.value.JObject? then Subquery(TokenizeFields(f.value.fields))
    else TagTerms(ScalarTexts(f.value.items))
  }

  /** Array items that are all scalars or nulls. */
  predicate Flat(items: seq<Json>)
  {
    forall i | 0 <= i < |items| :: items[i].JScalar? || items[i].JNull?
  }

  /** Documents whose `tags` arrays are flat (nested containers inside a
      `tags` array end the inner loop early; see Examples.NestedTagArray). */
  predicate SimpleFields(fs: seq<Field>)
  {
    forall i | 0 <= i < |fs| :: fs[i].key == "tags" && fs[i].value.JArray? ==> Flat(fs[i].value.items)
  }

  /** Member-by-member reference reading of a document. */
  function Step(acc: Reference, f: Field): Result<Reference, Error>
  {
    if Rejected(f) then Failure(UnsupportedField(f.key))
    else if NameField(f) then Success(acc.(name := Some(f.value.text)))
    else if SelectorField(f) then Success(acc.(selector := Some(SelectorOf(f))))
    else Success(acc)
  }

  function FoldFields(fs: seq<Field>, acc: Reference): Result<Reference, Error>
  {
    if |fs| == 0 then Success(acc)
    else
      match Step(acc, fs[0])
      case Failure(e) => Failure(e)
      case Success(next) => FoldFields(fs[1..], next)
  }

  lemma {:induction false} TagRunOverFlatItems(items: seq<Json>, rest: seq<Token>)
    requires Flat(items)
    ensures TagRun(TokenizeItems(items) + [EndArray] + rest) == Some((ScalarTexts(items), rest))
  {
    var ts := TokenizeItems(items) + [EndArray] + rest;
    if |items| == 0 {
      assert ts == [EndArray] + rest;
    } else {
      var tail := TokenizeItems(items[1..]) + [EndArray] + rest;
      assert ts == Tokenize(items[0]) + tail;
      assert |Tokenize(items[0])| == 1;
      assert ts[1..] == tail;
      assert Flat(items[1..]) by {
        forall i | 0 <= i < |items[1..]|
          ensures items[1..][i].JScalar? || items[1..][i].JNull?
        {
          assert items[1..][i] == items[i + 1];
        }
      }
      TagRunOverFlatItems(items[1..], rest);
    }
  }

  /** The loop over a scalar or null value token: only a `name` value is kept. */
  lemma ScanReadsScalar(key: string, v: Json, tail: seq<Token>, acc: Reference)
    requires v.JScalar? || v.JNull?
    ensures Step(acc, Field(key, v)).Success?
    ensures Scan(Tokenize(v) + tail, key, acc) == Scan(tail, key, Step(acc, Field(key, v)).value)
  {
    assert (Tokenize(v) + tail)[1..] == tail;
  }

  /** The loop over an object value: `query` captures the object's tokens,
      any other field is rejected. */
  lemma ScanReadsObject(key: string, members: seq<Field>, tail: seq<Token>, acc: Reference)
    ensures Step(acc, Field(key, JObject(members))).Failure? ==>
      Scan(Tokenize(JObject(members)) + tail, key, acc)
        == Failure(Step(acc, Field(key, JObject(members))).error)
    ensures Step(acc, Field(key, JObject(members))).Success? ==>
      Scan(Tokenize(JObject(members)) + tail, key, acc)
        == Scan(tail, key, Step(acc, Field(key, JObject(members))).value)
  {
    if key == "query" {
      var ts := Tokenize(JObject(members)) + tail;
      assert ts[1..] == TokenizeFields(members) + [EndObject] + tail;
      ReadObjectRoundTrip(members, tail);
    }
  }

  /** The loop over an array value: `tags` collects the flat items' texts,
      any other field is rejected. */
  lemma ScanReadsArray(key: string, items: seq<Json>, tail: seq<Token>, acc: Reference)
    requires key == "tags" ==> Flat(items)
    ensures Step(acc, Field(key, JArray(items))).Failure? ==>
      Scan(Tokenize(JArray(items)) + tail, key, acc)
        == Failure(Step(acc, Field(key, JArray(items))).error)
    ensures Step(acc, Field(key, JArray(items))).Success? ==>
      Scan(Tokenize(JArray(items)) + tail, key, acc)
        == Scan(tail, key, Step(acc, Field(key, JArray(items))).value)
  {
    if key == "tags" {
      var ts := Tokenize(JArray(items)) + tail;
      assert ts[1..] == TokenizeItems(items) + [EndArray] + tail;
      TagRunOverFlatItems(items, tail);
    }
  }

  /** The loop over one serialized member agrees with one `Step`. */
  lemma ScanReadsMember(f: Field, tail: seq<Token>, field: string, acc: Reference)
    requires f.key == "tags" && f.value.JArray? ==> Flat(f.value.items)
    ensures Step(acc, f).Failure? ==>
      Scan([FieldName(f.key)] + Tokenize(f.value) + tail, field, acc)
        == Failure(Step(acc, f).error)
    ensures Step(acc, f).Success? ==>
      Scan([FieldName(f.key)] + Tokenize(f.value) + tail, field, acc)
        == Scan(tail, f.key, Step(acc, f).value)
  {
    var ts := [FieldName(f.key)] + Tokenize(f.value) + tail;
    assert ts[1..] == Tokenize(f.value) + tail;
    assert f == Field(f.key, f.value);
    match f.value
    case JScalar(_) => ScanReadsScalar(f.key, f.value, tail, acc);
    case JNull => ScanReadsScalar(f.key, f.value, tail, acc);
    case JObject(members) => ScanReadsObject(f.key, members, tail, acc);
    case JArray(items) => ScanReadsArray(f.key, items, tail, acc);
  }

  /** On a serialized document, the token loop agrees with the member-by-member
      reading: same collected reference, same first error. */
  lemma {:induction false} ScanMatchesFold(fs: seq<Field>, field: string, acc: Reference, rest: seq<Token>)
    requires SimpleFields(fs)
    ensures Scan(TokenizeFields(fs) + [EndObject] + rest, field, acc) == FoldFields(fs, acc)
  {
    var ts := TokenizeFields(fs) + [EndObject] + rest;
    if |fs| == 0 {
      assert ts == [EndObject] + rest;
    } else {
      var f := fs[0];
      var tail := TokenizeFields(fs[1..]) + [EndObject] + rest;
      assert ts == [FieldName(f.key)] + Tokenize(f.value) + tail;
      assert SimpleFields(fs[1..]) by {
        forall i | 0 <= i < |fs[1..]| && fs[1..][i].key == "tags" && fs[1..][i].value.JArray?
          ensures Flat(fs[1..][i].value.items)
        {
          assert fs[1..][i] == fs[i + 1];
        }
      }
      ScanReadsMember(f, tail, field, acc);
      if Step(acc, f).Success? {
        ScanMatchesFold(fs[1..], f.key, Step(acc, f).value, rest);
      }
    }
  }

  // ---- What the loop collects from a document ----

  /** Member `i` is the last one that sets the name. */
  predicate LastNameAt(fs: seq<Field>, i: int)
  {
    0 <= i < |fs| && NameField(fs[i]) && forall j | i < j < |fs| :: !NameField(fs[j])
  }

  /** Member `i` is the last one that sets the selector. */
  predicate LastSelectorAt(fs: seq<Field>, i: int)
  {
    0 <= i < |fs| && SelectorField(fs[i]) && forall j | i < j < |fs| :: !SelectorField(fs[j])
  }

  /** The first rejected member aborts the reading with an error naming it,
      whatever follows. */
  lemma {:induction false} FoldRejectsFirst(fs: seq<Field>, acc: Reference, i: nat)
    requires i < |fs| && Rejected(fs[i])
    requires forall j | 0 <= j < i :: !Rejected(fs[j])
    ensures FoldFields(fs, acc) == Failure(UnsupportedField(fs[i].key))
  {
    if i > 0 {
      assert !Rejected(fs[0]);
      FoldRejectsFirst(fs[1..], Step(acc, fs[0]).value, i - 1);
    }
  }

  /** Without rejected members the reading succeeds; the name is the last
      `name` scalar and the selector the last `tags` array or `query` object,
      each left as it was when no member sets it. */
  lemma {:induction false} FoldAccepts(fs: seq<Field>, acc: Reference)
    requires forall i | 0 <= i < |fs| :: !Rejected(fs[i])
    ensures FoldFields(fs, acc).Success?
    ensures (forall i | 0 <= i < |fs| :: !NameField(fs[i])) ==> FoldFields(fs, acc).value.name == acc.name
    ensures (exists i | 0 <= i < |fs| :: NameField(fs[i])) ==> FoldFields(fs, acc).value.name.Some?
    ensures forall i | LastNameAt(fs, i) :: FoldFields(fs, acc).value.name == Some(fs[i].value.text)
    ensures (forall i | 0 <= i < |fs| :: !SelectorField(fs[i])) ==> FoldFields(fs, acc).value.selector == acc.selector
    ensures (exists i | 0 <= i < |fs| :: SelectorField(fs[i])) ==> FoldFields(fs, acc).value.selector.Some?
    ensures forall i | LastSelectorAt(fs, i) :: FoldFields(fs, acc).value.selector == Some(SelectorOf(fs[i]))
  {
    FoldName(fs, acc);
    FoldSelector(fs, acc);
  }

  /** The name half of FoldAccepts. */
  lemma {:induction false} FoldName(fs: seq<Field>, acc: Reference)
    requires forall i | 0 <= i < |fs| :: !Rejected(fs[i])
    ensures FoldFields(fs, acc).Success?
    ensures (forall i | 0 <= i < |fs| :: !NameField(fs[i])) ==> FoldFields(fs, acc).value.name == acc.name
    ensures (exists i | 0 <= i < |fs| :: NameField(fs[i])) ==> FoldFields(fs, acc).value.name.Some?
    ensures forall i | LastNameAt(fs, i) :: FoldFields(fs, acc).value.name == Some(fs[i].value.text)
  {
    if |fs| > 0 {
      var next := Step(acc, fs[0]).value;
      var tail := fs[1..];
      FoldName(tail, next);
      var r := FoldFields(fs, acc).value;
      assert r == FoldFields(tail, next).value;
      assert NameField(fs[0]) ==> next.name == Some(fs[0].value.text);
      assert !NameField(fs[0]) ==> next.name == acc.name;
      FoldKeepsSome(tail, next);
      forall i | LastNameAt(fs, i)
        ensures r.name == Some(fs[i].value.text)
      {
        if i == 0 {
          assert forall j | 0 <= j < |tail| :: !NameField(tail[j]) by {
            forall j | 0 <= j < |tail| ensures !NameField(tail[j]) {
              assert tail[j] == fs[j + 1];
            }
          }
        } else {
          assert LastNameAt(tail, i - 1) by {
            forall j | i - 1 < j < |tail| ensures !NameField(tail[j]) {
              assert tail[j] == fs[j + 1];
            }
          }
        }
      }
      if forall i | 0 <= i < |fs| :: !NameField(fs[i]) {
        assert forall j | 0 <= j < |tail| :: !NameField(tail[j]) by {
          forall j | 0 <= j < |tail| ensures !NameField(tail[j]) {
            assert tail[j] == fs[j + 1];
          }
        }
      }
      if exists i | 0 <= i < |fs| :: NameField(fs[i]) {
        var i :| 0 <= i < |fs| && NameField(fs[i]);
        if i > 0 {
          assert NameField(tail[i - 1]);
        }
      }
    }
  }

  /** The selector half of FoldAccepts. */
  lemma {:induction false} FoldSelector(fs: seq<Field>, acc: Reference)
    requires forall i | 0 <= i < |fs| :: !Rejected(fs[i])
    ensures FoldFields(fs, acc).Success?
    ensures (forall i | 0 <= i < |fs| :: !SelectorField(fs[i])) ==> FoldFields(fs, acc).value.selector == acc.selector
    ensures (exists i | 0 <= i < |fs| :: SelectorField(fs[i])) ==> FoldFields(fs, acc).value.selector.Some?
    ensures forall i | LastSelectorAt(fs, i) :: FoldFields(fs, acc).value.selector == Some(SelectorOf(fs[i]))
  {
    if |fs| > 0 {
      var next := Step(acc, fs[0]).value;
      var tail := fs[1..];
      FoldSelector(tail, next);
      var r := FoldFields(fs, acc).value;
      assert r == FoldFields(tail, next).value;
      assert SelectorField(fs[0]) ==> next.selector == Some(SelectorOf(fs[0]));
      assert !SelectorField(fs[0]) ==> next.selector == acc.selector;
      FoldKeepsSome(tail, next);
      forall i | LastSelectorAt(fs, i)
        ensures r.selector == Some(SelectorOf(fs[i]))
      {
        if i == 0 {
          assert forall j | 0 <= j < |tail| :: !SelectorField(tail[j]) by {
            forall j | 0 <= j < |tail| ensures !SelectorField(tail[j]) {
              assert tail[j] == fs[j + 1];
            }
          }
        } else {
          assert LastSelectorAt(tail, i - 1) by {
            forall j | i - 1 < j < |tail| ensures !SelectorField(tail[j]) {
              assert tail[j] == fs[j + 1];
            }
          }
        }
      }
      if forall i | 0 <= i < |fs| :: !SelectorField(fs[i]) {
        assert forall j | 0 <= j < |tail| :: !SelectorField(tail[j]) by {
          forall j | 0 <= j < |tail| ensures !SelectorField(tail[j]) {
            assert tail[j] == fs[j + 1];
          }
        }
      }
      if exists i | 0 <= i < |fs| :: SelectorField(fs[i]) {
        var i :| 0 <= i < |fs| && SelectorField(fs[i]);
        if i > 0 {
          assert SelectorField(tail[i - 1]);
        }
      }
    }
  }

  /** Nothing a member does clears a name or a selector once set. */
  lemma {:induction false} FoldKeepsSome(fs: seq<Field>, acc: Reference)
    requires FoldFields(fs, acc).Success?
    ensures acc.name.Some? ==> FoldFields(fs, acc).value.name.Some?
    ensures acc.selector.Some? ==> FoldFields(fs, acc).value.selector.Some?
  {
    if |fs| > 0 {
      FoldKeepsSome(fs[1..], Step(acc, fs[0]).value);
    }
  }

  // ---- The same facts about Extract over a serialized `saved` object ----

  /** An object-valued member other than `query`, or an array-valued member
      other than `tags`, fails extraction with an error naming that member
      (the first such member, in document order). */
  lemma {:induction false} ExtractRejectsUnsupported(fs: seq<Field>, rest: seq<Token>, i: nat)
    requires SimpleFields(fs)
    requires i < |fs| && Rejected(fs[i])
    requires forall j | 0 <= j < i :: !Rejected(fs[j])
    ensures Extract(TokenizeFields(fs) + [EndObject] + rest) == Failure(UnsupportedField(fs[i].key))
  {
    ScanMatchesFold(fs, "", Nothing, rest);
    FoldRejectsFirst(fs, Nothing, i);
  }

  /** Any other document is accepted: scalar members other than `name` are
      ignored, the name is the last `name` scalar (if any), and the selector
      is the last `tags` array or `query` object (if any), the two selector
      forms overwriting each other. */
  lemma {:induction false} ExtractCollects(fs: seq<Field>, rest: seq<Token>)
    requires SimpleFields(fs)
    requires forall i | 0 <= i < |fs| :: !Rejected(fs[i])
    ensures Extract(TokenizeFields(fs) + [EndObject] + rest).Success?
    ensures Extract(TokenizeFields(fs) + [EndObject] + rest).value.name.None?
        <==> forall i | 0 <= i < |fs| :: !NameField(fs[i])
    ensures forall i | LastNameAt(fs, i) ::
        Extract(TokenizeFields(fs) + [EndObject] + rest).value.name == Some(fs[i].value.text)
    ensures Extract(TokenizeFields(fs) + [EndObject] + rest).value.selector.None?
        <==> forall i | 0 <= i < |fs| :: !SelectorField(fs[i])
    ensures forall i | LastSelectorAt(fs, i) ::
        Extract(TokenizeFields(fs) + [EndObject] + rest).value.selector == Some(SelectorOf(fs[i]))
  {
    ScanMatchesFold(fs, "", Nothing, rest);
    FoldAccepts(fs, Nothing);
  }
}
