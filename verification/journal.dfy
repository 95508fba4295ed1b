// The tagged journal encoding and its strict decoder: execution/journal_codec.py.
module Journal {
  import opened Collections
  import opened Decimals

  datatype Field = Field(name: string, value: Value)

  // The closed vocabulary of journal values. Foreign stands for anything outside it.
  datatype Value =
    | VNull
    | VBool(flag: bool)
    | VText(text: string)
    | VInt(number: int)
    | VDecimal(decimal: Decimal)
    | VTime(time: int)
    | VDate(day: int)
    | VSpan(span: int)
    | VTuple(items: seq<Value>)
    | VEnum(name: string, member: string)
    | VRecord(name: string, fields: seq<Field>)
    | Foreign

  datatype Pair = Pair(key: string, value: Json)

  // An ordered JSON tree.
  datatype Json =
    | JNull
    | JBool(flag: bool)
    | JText(text: string)
    | JInt(number: int)
    | JFloat(digits: string)
    | JList(items: seq<Json>)
    | JObject(pairs: seq<Pair>)

  // The enumerations and records of the vocabulary: their names, members and fields in order, and
  // what constructing a record makes of its fields, if it does not refuse them.
  datatype Schema = Schema(
    enums: map<string, set<string>>, records: map<string, seq<string>>,
    construct: (string, seq<Field>) -> Option<seq<Field>>)

  const VERSION := "shadow.execution.journal-codec.v1"

  // ----- encoding -----

  function Tagged(tag: string, payload: Json): Json {
    JObject([Pair("t", JText(tag)), Pair("v", payload)])
  }

  function Named(tag: string, name: string, payload: Json): Json {
    JObject([Pair("t", JText(tag)), Pair("n", JText(name)), Pair("v", payload)])
  }

  function Encode(schema: Schema, v: Value): Result<Json> {
    match v
    case VNull => Ok(JNull)
    case VBool(flag) => Ok(JBool(flag))
    case VText(text) => Ok(JText(text))
    case VInt(number) => Ok(JInt(number))
    case VDecimal(d) => if d.Valid() then Ok(Tagged("decimal", JText(DecimalText(d)))) else Err("expected finite Decimal")
    case VTime(time) => Ok(Tagged("datetime", JText(IntText(time))))
    case VDate(day) => Ok(Tagged("date", JText(IntText(day))))
    case VSpan(span) => Ok(Tagged("timedelta", JInt(span)))
    case VTuple(items) =>
      var encoded :- EncodeAll(schema, items);
      Ok(Tagged("tuple", JList(encoded)))
    case VEnum(name, member) =>
      if name in schema.enums then Ok(Named("enum", name, JText(member))) else Err("unsupported enum")
    case VRecord(name, fields) =>
      if name !in schema.records then Err("unsupported journal value")
      else
        var encoded :- EncodeFields(schema, fields);
        Ok(Named("dataclass", name, JObject(encoded)))
    case Foreign => Err("unsupported journal value")
  }

  function EncodeAll(schema: Schema, items: seq<Value>): Result<seq<Json>> {
    if items == [] then Ok([])
    else
      var first :- Encode(schema, items[0]);
      var rest :- EncodeAll(schema, items[1..]);
      Ok([first] + rest)
  }

  function EncodeFields(schema: Schema, fields: seq<Field>): Result<seq<Pair>> {
    if fields == [] then Ok([])
    else
      var first :- Encode(schema, fields[0].value);
      var rest :- EncodeFields(schema, fields[1..]);
      Ok([Pair(fields[0].name, first)] + rest)
  }

  // ----- decoding -----

  function Keys(pairs: seq<Pair>): set<string> {
    set p | p in pairs :: p.key
  }

  // A repeated key keeps its last value.
  function IndexOf(pairs: seq<Pair>, key: string): (i: nat)
    requires key in Keys(pairs)
    ensures i < |pairs| && pairs[i].key == key
    decreases |pairs|
  {
    if Last(pairs).key == key then |pairs| - 1
    else
      assert pairs == Front(pairs) + [Last(pairs)];
      IndexOf(Front(pairs), key)
  }

  function Get(pairs: seq<Pair>, key: string): Option<Json> {
    if key in Keys(pairs) then Some(pairs[IndexOf(pairs, key)].value) else None
  }

  function FieldNames(fields: seq<Field>): seq<string> {
    Map((f: Field) => f.name, fields)
  }

  function Decode(schema: Schema, j: Json): Result<Value>
    decreases j, 0
  {
    match j
    case JNull => Ok(VNull)
    case JBool(flag) => Ok(VBool(flag))
    case JText(text) => Ok(VText(text))
    case JInt(number) => Ok(VInt(number))
    case JFloat(_) => Err("malformed journal value")
    case JList(_) => Err("untagged list is not a journal value")
    case JObject(pairs) =>
      if Get(pairs, "t") == Some(JText("tuple")) then DecodeTuple(schema, pairs)
      else if Get(pairs, "t") == Some(JText("dataclass")) then DecodeRecord(schema, pairs)
      else if Get(pairs, "t") == Some(JText("enum")) then DecodeEnum(schema, pairs)
      else DecodeLeaf(pairs)
  }

  function DecodeLeaf(pairs: seq<Pair>): Result<Value> {
    if Keys(pairs) != {"t", "v"} then Err("malformed tagged journal value")
    else
      var tag, payload := Get(pairs, "t").value, Get(pairs, "v").value;
      if tag == JText("timedelta") then
        if payload.JInt? then Ok(VSpan(payload.number)) else Err("duration payload must be an integer")
      else if !payload.JText? then Err("payload must be text")
      else DecodeText(tag, payload.text)
  }

  function DecodeText(tag: Json, text: string): Result<Value> {
    if tag == JText("decimal") then DecodeDecimal(text)
    else if tag == JText("datetime") then DecodeTime(text)
    else if tag == JText("date") then DecodeDate(text)
    else Err("unknown journal value tag")
  }

  function DecodeDecimal(text: string): Result<Value> {
    match DecimalFromText(text)
    case Ok(d) => Ok(VDecimal(d))
    case Err(e) => Err(e)
  }

  function DecodeTime(text: string): Result<Value> {
    if ReadsAs(text) then Ok(VTime(ReadInt(text).value)) else Err("noncanonical timestamp payload")
  }

  function DecodeDate(text: string): Result<Value> {
    if ReadsAs(text) then Ok(VDate(ReadInt(text).value)) else Err("noncanonical date payload")
  }

  // The text is an integer's own text.
  predicate ReadsAs(text: string) {
    ReadInt(text).Some? && IntText(ReadInt(text).value) == text
  }

  function DecodeEnum(schema: Schema, pairs: seq<Pair>): Result<Value> {
    if Keys(pairs) != {"t", "n", "v"} then Err("malformed tagged journal value")
    else
      var name, raw := Get(pairs, "n").value, Get(pairs, "v").value;
      if !name.JText? || !raw.JText? || name.text !in schema.enums then Err("unknown enum payload")
      else if raw.text !in schema.enums[name.text] then Err("invalid enum payload")
      else Ok(VEnum(name.text, raw.text))
  }

  function DecodeTuple(schema: Schema, pairs: seq<Pair>): Result<Value>
    decreases pairs, 1
  {
    if Keys(pairs) != {"t", "v"} then Err("malformed tagged journal value")
    else
      var payload := pairs[IndexOf(pairs, "v")].value;
      if !payload.JList? then Err("tuple payload must be a list")
      else
        var items :- DecodeAll(schema, payload.items);
        Ok(VTuple(items))
  }

  function DecodeAll(schema: Schema, items: seq<Json>): Result<seq<Value>>
    decreases items, 0
  {
    if items == [] then Ok([])
    else
      var first :- Decode(schema, items[0]);
      var rest :- DecodeAll(schema, items[1..]);
      Ok([first] + rest)
  }

  function DecodeRecord(schema: Schema, pairs: seq<Pair>): Result<Value>
    decreases pairs, 1
  {
    if Keys(pairs) != {"t", "n", "v"} then Err("malformed tagged journal value")
    else
      var name, payload := pairs[IndexOf(pairs, "n")].value, pairs[IndexOf(pairs, "v")].value;
      if !name.JText? || name.text !in schema.records || !payload.JObject? then Err("unknown dataclass payload")
      else if Keys(payload.pairs) != ToSet(schema.records[name.text]) then
        Err("dataclass fields do not match codec schema")
      else
        var fields :- DecodeFields(schema, payload.pairs, schema.records[name.text]);
        var constructed := schema.construct(name.text, fields);
        if constructed.None? then Err("invalid payload") else Ok(VRecord(name.text, constructed.value))
  }

  // The named fields, in the record's order.
  function DecodeFields(schema: Schema, pairs: seq<Pair>, names: seq<string>): Result<seq<Field>>
    requires forall n :: n in names ==> n in Keys(pairs)
    decreases pairs, 0, |names|
  {
    if names == [] then Ok([])
    else
      var first :- Decode(schema, pairs[IndexOf(pairs, names[0])].value);
      var rest :- DecodeFields(schema, pairs, names[1..]);
      Ok([Field(names[0], first)] + rest)
  }

  // ----- documents -----

  function CanonicalDocument(schema: Schema, v: Value): Result<Json> {
    var encoded :- Encode(schema, v);
    Ok(JObject([Pair("codec_version", JText(VERSION)), Pair("value", encoded)]))
  }

  function DecodeCanonical(schema: Schema, document: Json): Result<Value> {
    if !document.JObject? || Keys(document.pairs) != {"codec_version", "value"} then Err("malformed codec envelope")
    else if Get(document.pairs, "codec_version") != Some(JText(VERSION)) then Err("unsupported codec version")
    else
      var v :- Decode(schema, Get(document.pairs, "value").value);
      if CanonicalDocument(schema, v) != Ok(document) then Err("journal payload is not canonical") else Ok(v)
  }
}
