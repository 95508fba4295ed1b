// Encoding and decoding undo each other, and decoding accepts exactly what encoding writes.
module JournalCodec {
  import opened Collections
  import opened Decimals
  import opened Journal

  // The same value with every decimal in canonical form: equal, since decimals are compared as numbers.
  function Normal(v: Value): Value {
    match v
    case VDecimal(d) => VDecimal(Canonical(d))
    case VTuple(items) => VTuple(NormalAll(items))
    case VRecord(name, fields) => VRecord(name, NormalFields(fields))
    case _ => v
  }

  function NormalAll(items: seq<Value>): (r: seq<Value>)
    ensures |r| == |items|
  {
    if items == [] then [] else [Normal(items[0])] + NormalAll(items[1..])
  }

  function NormalFields(fields: seq<Field>): (r: seq<Field>)
    ensures |r| == |fields|
  {
    if fields == [] then []
    else [Field(fields[0].name, Normal(fields[0].value))] + NormalFields(fields[1..])
  }

  // A value of the vocabulary; its records are as their constructors leave them.
  ghost predicate Supported(schema: Schema, v: Value) {
    match v
    case VDecimal(d) => d.Valid()
    case VTuple(items) => AllSupported(schema, items)
    case VEnum(name, member) => name in schema.enums && member in schema.enums[name]
    case VRecord(name, fields) =>
      && name in schema.records && FieldNames(fields) == schema.records[name] && Distinct(schema.records[name])
      && FieldsSupported(schema, fields)
      && schema.construct(name, NormalFields(fields)) == Some(NormalFields(fields))
    case Foreign => false
    case _ => true
  }

  ghost predicate AllSupported(schema: Schema, items: seq<Value>) {
    items != [] ==> Supported(schema, items[0]) && AllSupported(schema, items[1..])
  }

  ghost predicate FieldsSupported(schema: Schema, fields: seq<Field>) {
    fields != [] ==> Supported(schema, fields[0].value) && FieldsSupported(schema, fields[1..])
  }

  // What a constructor makes of values of the vocabulary is of the vocabulary, and constructing it
  // again changes nothing.
  ghost predicate Lawful(schema: Schema) {
    forall name: string, given: seq<Field> ::
      name in schema.records && FieldsSupported(schema, given) && FieldNames(given) == schema.records[name]
      && schema.construct(name, given).Some? ==>
        Supported(schema, VRecord(name, schema.construct(name, given).value))
  }

  // ----- shapes -----

  lemma TaggedShape(tag: string, payload: Json)
    ensures var pairs := Tagged(tag, payload).pairs;
            && Keys(pairs) == {"t", "v"}
            && Get(pairs, "t") == Some(JText(tag)) && Get(pairs, "v") == Some(payload)
            && pairs[IndexOf(pairs, "v")].value == payload
  {
    var pairs := Tagged(tag, payload).pairs;
    assert pairs[0].key == "t" && pairs[1].key == "v";
    assert pairs[0] in pairs && pairs[1] in pairs;
    assert Front(pairs) == [pairs[0]] && Last(Front(pairs)) == pairs[0];
  }

  lemma NamedShape(tag: string, name: string, payload: Json)
    ensures var pairs := Named(tag, name, payload).pairs;
            && Keys(pairs) == {"t", "n", "v"}
            && Get(pairs, "t") == Some(JText(tag)) && Get(pairs, "n") == Some(JText(name))
            && Get(pairs, "v") == Some(payload)
            && pairs[IndexOf(pairs, "n")].value == JText(name) && pairs[IndexOf(pairs, "v")].value == payload
  {
    var pairs := Named(tag, name, payload).pairs;
    assert pairs[0].key == "t" && pairs[1].key == "n" && pairs[2].key == "v";
    assert pairs[0] in pairs && pairs[1] in pairs && pairs[2] in pairs;
    assert Front(pairs) == [pairs[0], pairs[1]] && Last(Front(pairs)) == pairs[1];
    assert Front(Front(pairs)) == [pairs[0]];
  }

  // With distinct keys every key is found at its own place.
  lemma {:induction false} IndexAt(pairs: seq<Pair>, i: nat)
    requires i < |pairs|
    requires forall a, b :: 0 <= a < b < |pairs| ==> pairs[a].key != pairs[b].key
    ensures pairs[i].key in Keys(pairs) && IndexOf(pairs, pairs[i].key) == i
  {
    assert pairs[i] in pairs;
    var k := IndexOf(pairs, pairs[i].key);
    assert pairs[k].key == pairs[i].key;
  }

  // ----- round trips -----

  // The three facts proved together of every supported value.
  ghost predicate RoundTrips(schema: Schema, v: Value) {
    && Encode(schema, v).Ok?
    && Decode(schema, Encode(schema, v).value) == Ok(Normal(v))
    && Encode(schema, Normal(v)) == Encode(schema, v)
  }

  lemma IntTextReads(n: int)
    ensures ReadsAs(IntText(n)) && ReadInt(IntText(n)) == Some(n)
  {
    IntReadBack(n);
  }

  lemma DecimalBack(d: Decimal)
    requires d.Valid()
    ensures DecodeDecimal(DecimalText(d)) == Ok(VDecimal(Canonical(d)))
    ensures Canonical(d).Valid() && DecimalText(Canonical(d)) == DecimalText(d)
  {
    DecimalRoundTrip(d);
    CanonicalValid(d);
  }

  lemma DecimalDecodes(schema: Schema, text: string)
    ensures Decode(schema, Tagged("decimal", JText(text))) == DecodeDecimal(text)
  {
    TaggedShape("decimal", JText(text));
  }

  lemma DecimalLeaf(schema: Schema, d: Decimal)
    requires d.Valid()
    ensures RoundTrips(schema, VDecimal(d))
  {
    DecimalBack(d);
    DecimalDecodes(schema, DecimalText(d));
    assert Encode(schema, VDecimal(d)) == Ok(Tagged("decimal", JText(DecimalText(d))));
  }

  lemma TimeLeaf(schema: Schema, time: int)
    ensures RoundTrips(schema, VTime(time))
  {
    IntTextReads(time);
    TaggedShape("datetime", JText(IntText(time)));
  }

  lemma DateLeaf(schema: Schema, day: int)
    ensures RoundTrips(schema, VDate(day))
  {
    IntTextReads(day);
    TaggedShape("date", JText(IntText(day)));
  }

  lemma SpanLeaf(schema: Schema, span: int)
    ensures RoundTrips(schema, VSpan(span))
  {
    TaggedShape("timedelta", JInt(span));
  }

  lemma EnumRoundTrip(schema: Schema, v: Value)
    requires Supported(schema, v) && v.VEnum?
    ensures RoundTrips(schema, v)
  {
    NamedShape("enum", v.name, JText(v.member));
  }

  lemma TupleRoundTrip(schema: Schema, v: Value)
    requires v.VTuple? && EncodeAll(schema, v.items).Ok?
    requires DecodeAll(schema, EncodeAll(schema, v.items).value) == Ok(NormalAll(v.items))
    requires EncodeAll(schema, NormalAll(v.items)) == EncodeAll(schema, v.items)
    ensures RoundTrips(schema, v)
  {
    TaggedShape("tuple", JList(EncodeAll(schema, v.items).value));
  }

  lemma RecordRoundTrip(schema: Schema, v: Value)
    requires v.VRecord? && Supported(schema, v) && EncodeFields(schema, v.fields).Ok?
    requires var pairs := EncodeFields(schema, v.fields).value;
             && Keys(pairs) == ToSet(schema.records[v.name])
             && DecodeFields(schema, pairs, schema.records[v.name]) == Ok(NormalFields(v.fields))
    requires EncodeFields(schema, NormalFields(v.fields)) == EncodeFields(schema, v.fields)
    ensures RoundTrips(schema, v)
  {
    NamedShape("dataclass", v.name, JObject(EncodeFields(schema, v.fields).value));
  }

  // What encoding the fields leaves: each at its place, under its name.
  ghost predicate FieldsEncoded(schema: Schema, fields: seq<Field>, pairs: seq<Pair>) {
    && |pairs| == |fields|
    && forall i :: 0 <= i < |fields| ==>
         pairs[i].key == fields[i].name && Encode(schema, fields[i].value) == Ok(pairs[i].value)
  }

  lemma {:induction false} EncodedAt(schema: Schema, fields: seq<Field>)
    requires EncodeFields(schema, fields).Ok?
    ensures FieldsEncoded(schema, fields, EncodeFields(schema, fields).value)
  {
    if fields != [] {
      EncodedAt(schema, fields[1..]);
      var rest := EncodeFields(schema, fields[1..]).value;
      forall i | 1 <= i < |fields|
        ensures rest[i - 1].key == fields[i].name && Encode(schema, fields[i].value) == Ok(rest[i - 1].value)
      {
        assert fields[1..][i - 1] == fields[i];
      }
    }
  }

  lemma EncodedKeys(schema: Schema, fields: seq<Field>, pairs: seq<Pair>)
    requires FieldsEncoded(schema, fields, pairs) && Distinct(FieldNames(fields))
    ensures Keys(pairs) == ToSet(FieldNames(fields))
    ensures forall i :: 0 <= i < |fields| ==> fields[i].name in Keys(pairs) && IndexOf(pairs, fields[i].name) == i
  {
    var names := FieldNames(fields);
    forall a, b | 0 <= a < b < |pairs| ensures pairs[a].key != pairs[b].key {
      assert names[a] != names[b];
    }
    forall i | 0 <= i < |fields| ensures fields[i].name in Keys(pairs) && IndexOf(pairs, fields[i].name) == i {
      IndexAt(pairs, i);
    }
    forall k ensures k in Keys(pairs) <==> k in ToSet(names) {
      if k in Keys(pairs) {
        var i := IndexOf(pairs, k);
        assert names[i] == k;
      }
      if k in names {
        var i :| 0 <= i < |names| && names[i] == k;
        assert pairs[i] in pairs;
      }
    }
  }

  // Decoding the encoded fields from the k-th on.
  lemma {:induction false} FieldsBack(schema: Schema, fields: seq<Field>, pairs: seq<Pair>, k: nat)
    requires k <= |fields| && FieldsEncoded(schema, fields, pairs) && Distinct(FieldNames(fields))
    requires forall i :: k <= i < |fields| ==> Decode(schema, pairs[i].value) == Ok(Normal(fields[i].value))
    requires forall n :: n in FieldNames(fields)[k..] ==> n in Keys(pairs)
    ensures DecodeFields(schema, pairs, FieldNames(fields)[k..]) == Ok(NormalFields(fields[k..]))
    decreases |fields| - k
  {
    EncodedKeys(schema, fields, pairs);
    var names := FieldNames(fields)[k..];
    if k < |fields| {
      assert names[0] == fields[k].name && names[1..] == FieldNames(fields)[k + 1..];
      assert fields[k..][1..] == fields[k + 1..];
      FieldsBack(schema, fields, pairs, k + 1);
    }
  }

  // Decoding the encoding of any value of the vocabulary gives an equal value, and equal values
  // are encoded alike.
  lemma {:induction false} ValueRoundTrip(schema: Schema, v: Value)
    requires Supported(schema, v)
    ensures RoundTrips(schema, v)
    decreases v, 0
  {
    match v
    case VTuple(items) =>
      ItemsRoundTrip(schema, items);
      TupleRoundTrip(schema, v);
    case VRecord(name, fields) =>
      FieldsRoundTrip(schema, fields);
      var pairs := EncodeFields(schema, fields).value;
      EncodedAt(schema, fields);
      EncodedKeys(schema, fields, pairs);
      FieldsDecode(schema, fields, pairs);
      assert FieldNames(fields)[0..] == FieldNames(fields) && fields[0..] == fields;
      FieldsBack(schema, fields, pairs, 0);
      RecordRoundTrip(schema, v);
    case VEnum(_, _) => EnumRoundTrip(schema, v);
    case VDecimal(d) => DecimalLeaf(schema, d);
    case VTime(time) => TimeLeaf(schema, time);
    case VDate(day) => DateLeaf(schema, day);
    case VSpan(span) => SpanLeaf(schema, span);
    case _ =>
  }

  lemma {:induction false} ItemsRoundTrip(schema: Schema, items: seq<Value>)
    requires AllSupported(schema, items)
    ensures EncodeAll(schema, items).Ok?
    ensures DecodeAll(schema, EncodeAll(schema, items).value) == Ok(NormalAll(items))
    ensures EncodeAll(schema, NormalAll(items)) == EncodeAll(schema, items)
    decreases items, 0
  {
    if items != [] {
      ValueRoundTrip(schema, items[0]);
      ItemsRoundTrip(schema, items[1..]);
      var encoded := EncodeAll(schema, items).value;
      assert encoded[1..] == EncodeAll(schema, items[1..]).value;
      assert NormalAll(items)[1..] == NormalAll(items[1..]);
    }
  }

  lemma {:induction false} FieldsRoundTrip(schema: Schema, fields: seq<Field>)
    requires FieldsSupported(schema, fields)
    ensures EncodeFields(schema, fields).Ok?
    ensures forall i :: 0 <= i < |fields| ==> RoundTrips(schema, fields[i].value)
    ensures EncodeFields(schema, NormalFields(fields)) == EncodeFields(schema, fields)
    decreases fields, 0
  {
    if fields != [] {
      ValueRoundTrip(schema, fields[0].value);
      FieldsRoundTrip(schema, fields[1..]);
      forall i | 1 <= i < |fields| ensures RoundTrips(schema, fields[i].value) {
        assert fields[1..][i - 1] == fields[i];
      }
      assert NormalFields(fields)[1..] == NormalFields(fields[1..]);
    }
  }

  lemma FieldsDecode(schema: Schema, fields: seq<Field>, pairs: seq<Pair>)
    requires FieldsEncoded(schema, fields, pairs)
    requires forall i :: 0 <= i < |fields| ==> RoundTrips(schema, fields[i].value)
    ensures forall i :: 0 <= i < |fields| ==> Decode(schema, pairs[i].value) == Ok(Normal(fields[i].value))
  {
    forall i | 0 <= i < |fields| ensures Decode(schema, pairs[i].value) == Ok(Normal(fields[i].value)) {
      assert RoundTrips(schema, fields[i].value);
    }
  }

  // ----- what is decoded is of the vocabulary -----

  lemma {:induction false} DecodedSupported(schema: Schema, j: Json)
    requires Lawful(schema) && Decode(schema, j).Ok?
    ensures Supported(schema, Decode(schema, j).value)
    decreases j, 0
  {
    if j.JObject? {
      var pairs := j.pairs;
      if Get(pairs, "t") == Some(JText("tuple")) {
        ItemsSupported(schema, pairs[IndexOf(pairs, "v")].value.items);
      } else if Get(pairs, "t") == Some(JText("dataclass")) {
        var name, payload := pairs[IndexOf(pairs, "n")].value.text, pairs[IndexOf(pairs, "v")].value;
        RecordSupported(schema, name, payload.pairs);
      } else if Get(pairs, "t") == Some(JText("enum")) {
      } else {
        LeafSupported(schema, pairs);
      }
    }
  }

  lemma RecordSupported(schema: Schema, name: string, pairs: seq<Pair>)
    requires Lawful(schema) && name in schema.records && Keys(pairs) == ToSet(schema.records[name])
    requires DecodeFields(schema, pairs, schema.records[name]).Ok?
    requires schema.construct(name, DecodeFields(schema, pairs, schema.records[name]).value).Some?
    ensures Supported(
              schema, VRecord(name, schema.construct(name, DecodeFields(schema, pairs, schema.records[name]).value).value))
    decreases pairs, 1
  {
    FieldsDecodedSupported(schema, pairs, schema.records[name]);
  }

  lemma {:induction false} FieldsDecodedSupported(schema: Schema, pairs: seq<Pair>, names: seq<string>)
    requires Lawful(schema) && (forall n :: n in names ==> n in Keys(pairs)) && DecodeFields(schema, pairs, names).Ok?
    ensures FieldsSupported(schema, DecodeFields(schema, pairs, names).value)
    ensures FieldNames(DecodeFields(schema, pairs, names).value) == names
    decreases pairs, 0, |names|
  {
    if names != [] {
      DecodedSupported(schema, pairs[IndexOf(pairs, names[0])].value);
      FieldsDecodedSupported(schema, pairs, names[1..]);
      assert DecodeFields(schema, pairs, names).value[1..] == DecodeFields(schema, pairs, names[1..]).value;
    }
  }

  lemma LeafSupported(schema: Schema, pairs: seq<Pair>)
    requires DecodeLeaf(pairs).Ok?
    ensures Supported(schema, DecodeLeaf(pairs).value)
  {
    var tag, payload := Get(pairs, "t").value, Get(pairs, "v").value;
    if tag != JText("timedelta") {
      TextSupported(schema, tag, payload.text);
    }
  }

  lemma TextSupported(schema: Schema, tag: Json, text: string)
    requires DecodeText(tag, text).Ok?
    ensures Supported(schema, DecodeText(tag, text).value)
  {
    if tag == JText("decimal") {
      DecimalTextsExactly(text);
    }
  }

  lemma {:induction false} ItemsSupported(schema: Schema, items: seq<Json>)
    requires Lawful(schema) && DecodeAll(schema, items).Ok?
    ensures AllSupported(schema, DecodeAll(schema, items).value)
    decreases items, 0
  {
    if items != [] {
      DecodedSupported(schema, items[0]);
      ItemsSupported(schema, items[1..]);
      assert DecodeAll(schema, items).value[1..] == DecodeAll(schema, items[1..]).value;
    }
  }

  // ----- documents -----

  lemma EnvelopeShape(payload: Json)
    ensures var pairs := [Pair("codec_version", JText(VERSION)), Pair("value", payload)];
            && Keys(pairs) == {"codec_version", "value"}
            && Get(pairs, "codec_version") == Some(JText(VERSION)) && Get(pairs, "value") == Some(payload)
  {
    var pairs := [Pair("codec_version", JText(VERSION)), Pair("value", payload)];
    assert pairs[0] in pairs && pairs[1] in pairs;
    assert Front(pairs) == [pairs[0]] && Last(Front(pairs)) == pairs[0];
  }

  lemma DocumentRoundTrip(schema: Schema, v: Value)
    requires Supported(schema, v)
    ensures CanonicalDocument(schema, v).Ok?
    ensures DecodeCanonical(schema, CanonicalDocument(schema, v).value) == Ok(Normal(v))
  {
    ValueRoundTrip(schema, v);
    EnvelopeShape(Encode(schema, v).value);
  }

  lemma DocumentSource(schema: Schema, document: Json)
    requires Lawful(schema) && DecodeCanonical(schema, document).Ok?
    ensures var v := DecodeCanonical(schema, document).value;
            Supported(schema, v) && CanonicalDocument(schema, v) == Ok(document)
  {
    DecodedSupported(schema, Get(document.pairs, "value").value);
  }

  // The documents decoded are exactly the documents encoded.
  lemma DocumentsExactly(schema: Schema, document: Json)
    requires Lawful(schema)
    ensures DecodeCanonical(schema, document).Ok?
       <==> exists v :: Supported(schema, v) && CanonicalDocument(schema, v) == Ok(document)
  {
    if DecodeCanonical(schema, document).Ok? {
      DocumentSource(schema, document);
    }
    if v :| Supported(schema, v) && CanonicalDocument(schema, v) == Ok(document) {
      DocumentRoundTrip(schema, v);
    }
  }
}
