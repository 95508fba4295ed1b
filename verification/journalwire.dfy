// What a journal value looks like on the wire: execution/journal_codec.py.
module JournalWire {
  import opened Collections
  import opened Rounding
  import opened Decimals
  import opened Journal

  // ----- numbers as text -----

  // Decimal digits, without a leading zero but for zero itself.
  predicate Numeral(t: string) {
    t != "" && (forall c :: c in t ==> '0' <= c <= '9') && (|t| > 1 ==> t[0] != '0')
  }

  // The number that digits stand for.
  function NumberOf(t: string): int
    requires forall c :: c in t ==> '0' <= c <= '9'
  {
    if t == "" then 0
    else
      assert forall c :: c in Front(t) ==> c in t;
      10 * NumberOf(Front(t)) + (Last(t) as int - '0' as int)
  }

  predicate IntegerText(t: string, n: int) {
    if n < 0 then t != "" && t[0] == '-' && Numeral(t[1..]) && NumberOf(t[1..]) == -n
    else Numeral(t) && NumberOf(t) == n
  }

  lemma {:induction false} DigitsNumber(digits: seq<Digit>)
    ensures forall c :: c in DigitsText(digits) ==> '0' <= c <= '9'
    ensures NumberOf(DigitsText(digits)) == DigitsValue(digits)
  {
    if digits != [] {
      DigitsNumber(Front(digits));
      assert DigitsText(digits) == DigitsText(Front(digits)) + [DigitChar(Last(digits))];
      assert Front(DigitsText(digits)) == DigitsText(Front(digits));
    }
  }

  lemma DigitsNumeral(digits: seq<Digit>)
    requires digits != [] && (|digits| > 1 ==> digits[0] != 0)
    ensures Numeral(DigitsText(digits)) && NumberOf(DigitsText(digits)) == DigitsValue(digits)
  {
    DigitsNumber(digits);
    assert DigitsText(digits)[0] == DigitChar(digits[0]);
  }

  lemma IntegerWritten(n: int)
    ensures IntegerText(IntText(n), n)
  {
    var digits := NatDigits(if n < 0 then -n else n);
    DigitsNumeral(digits);
    if n < 0 {
      assert IntText(n)[1..] == DigitsText(digits);
    }
  }

  // Sign, digits without trailing zeros, and the power of ten they are counted in.
  predicate DecimalParts(value: real, sign: string, digits: string, e: int) {
    && Numeral(digits)
    && if value == 0.0 then sign == "0" && digits == "0" && e == 0
       else
         && sign == (if value < 0.0 then "1" else "0") && Last(digits) != '0'
         && Shift(NumberOf(digits) as real, e) == (if value < 0.0 then -value else value)
  }

  ghost predicate DecimalWritten(t: string, d: Decimal) {
    exists sign: string, digits: string, exponent: string, e: int ::
      && t == sign + ":" + digits + ":" + exponent && IntegerText(exponent, e)
      && DecimalParts(d.Value(), sign, digits, e)
  }

  // A decimal without needless digits has the sign it shows, and its digits are its magnitude.
  lemma NormalMagnitude(c: Decimal)
    requires Normal(c)
    ensures var magnitude := Shift(DigitsValue(c.digits) as real, c.exponent);
            && magnitude > 0.0 && c.Value() == if c.negative then -magnitude else magnitude
  {
    LeadingPositive(c.digits);
    var m := DigitsValue(c.digits);
    ShiftOrder(m as real, 0.0, c.exponent);
    ShiftPlus(m as real, 0.0, c.exponent);
    assert c.Coefficient() as real == if c.negative then -(m as real) else m as real;
  }

  lemma NormalParts(c: Decimal)
    requires Normal(c) && c.Value() != 0.0
    ensures DecimalParts(c.Value(), if c.negative then "1" else "0", DigitsText(c.digits), c.exponent)
  {
    NormalMagnitude(c);
    DigitsNumeral(c.digits);
    assert Last(DigitsText(c.digits)) == DigitChar(Last(c.digits));
  }

  lemma CanonicalParts(d: Decimal)
    requires d.Valid()
    ensures var c := Canonical(d);
            DecimalParts(d.Value(), if c.negative then "1" else "0", DigitsText(c.digits), c.exponent)
  {
    CanonicalValid(d);
    if d.Value() == 0.0 {
      DigitsNumeral([0]);
      assert DigitsText([0]) == "0";
    } else {
      NormalForm(d);
      NormalParts(Canonical(d));
    }
  }

  lemma TextWritten(d: Decimal)
    requires d.Valid()
    ensures DecimalWritten(DecimalText(d), d)
  {
    var c := Canonical(d);
    CanonicalParts(d);
    IntegerWritten(c.exponent);
    assert DecimalText(d) == (if c.negative then "1" else "0") + ":" + DigitsText(c.digits) + ":" + IntText(c.exponent);
  }

  // ----- values -----

  // An object of a tag and a payload, in that order.
  predicate TaggedAs(j: Json, tag: string, payload: Json) {
    j == JObject([Pair("t", JText(tag)), Pair("v", payload)])
  }

  predicate NamedAs(j: Json, tag: string, name: string, payload: Json) {
    j == JObject([Pair("t", JText(tag)), Pair("n", JText(name)), Pair("v", payload)])
  }

  ghost predicate Wire(schema: Schema, v: Value, j: Json)
    decreases v
  {
    match v
    case VNull => j == JNull
    case VBool(flag) => j == JBool(flag)
    case VText(text) => j == JText(text)
    case VInt(number) => j == JInt(number)
    case VDecimal(d) => exists t :: DecimalWritten(t, d) && TaggedAs(j, "decimal", JText(t))
    case VTime(time) => exists t :: IntegerText(t, time) && TaggedAs(j, "datetime", JText(t))
    case VDate(day) => exists t :: IntegerText(t, day) && TaggedAs(j, "date", JText(t))
    case VSpan(span) => TaggedAs(j, "timedelta", JInt(span))
    case VTuple(items) =>
      exists encoded: seq<Json> ::
        && TaggedAs(j, "tuple", JList(encoded)) && |encoded| == |items|
        && forall i :: 0 <= i < |items| ==> Wire(schema, items[i], encoded[i])
    case VEnum(name, member) => name in schema.enums && NamedAs(j, "enum", name, JText(member))
    case VRecord(name, fields) =>
      && name in schema.records
      && exists pairs: seq<Pair> ::
           && NamedAs(j, "dataclass", name, JObject(pairs)) && |pairs| == |fields|
           && forall i :: 0 <= i < |fields| ==> pairs[i].key == fields[i].name && Wire(schema, fields[i].value, pairs[i].value)
    case Foreign => false
  }

  ghost predicate AllWire(schema: Schema, items: seq<Value>, encoded: seq<Json>) {
    |encoded| == |items| && forall i :: 0 <= i < |items| ==> Wire(schema, items[i], encoded[i])
  }

  ghost predicate FieldsWire(schema: Schema, fields: seq<Field>, pairs: seq<Pair>) {
    && |pairs| == |fields|
    && forall i :: 0 <= i < |fields| ==> pairs[i].key == fields[i].name && Wire(schema, fields[i].value, pairs[i].value)
  }

  // Every value that is encoded has its tag, its parts in order, and its leaves as text or numbers.
  lemma {:induction false} EncodesTo(schema: Schema, v: Value)
    requires Encode(schema, v).Ok?
    ensures Wire(schema, v, Encode(schema, v).value)
    decreases v, 1
  {
    var j := Encode(schema, v).value;
    match v {
      case VDecimal(d) =>
        TextWritten(d);
        assert TaggedAs(j, "decimal", JText(DecimalText(d)));
      case VTime(time) =>
        IntegerWritten(time);
        assert TaggedAs(j, "datetime", JText(IntText(time)));
      case VDate(day) =>
        IntegerWritten(day);
        assert TaggedAs(j, "date", JText(IntText(day)));
      case VTuple(items) =>
        ItemsEncodeTo(schema, items);
        assert TaggedAs(j, "tuple", JList(EncodeAll(schema, items).value));
      case VRecord(name, fields) =>
        FieldsEncodeTo(schema, fields);
        assert NamedAs(j, "dataclass", name, JObject(EncodeFields(schema, fields).value));
      case _ =>
    }
  }

  lemma {:induction false} ItemsEncodeTo(schema: Schema, items: seq<Value>)
    requires EncodeAll(schema, items).Ok?
    ensures AllWire(schema, items, EncodeAll(schema, items).value)
    decreases items, 0
  {
    if items != [] {
      EncodesTo(schema, items[0]);
      ItemsEncodeTo(schema, items[1..]);
      HeadAndTail(items);
    }
  }

  lemma {:induction false} FieldsEncodeTo(schema: Schema, fields: seq<Field>)
    requires EncodeFields(schema, fields).Ok?
    ensures FieldsWire(schema, fields, EncodeFields(schema, fields).value)
    decreases fields, 0
  {
    if fields != [] {
      EncodesTo(schema, fields[0].value);
      FieldsEncodeTo(schema, fields[1..]);
      HeadAndTail(fields);
    }
  }

  // The document of a value names the codec's version and carries the value.
  lemma DocumentWritten(schema: Schema, v: Value)
    requires CanonicalDocument(schema, v).Ok?
    ensures exists payload ::
              && CanonicalDocument(schema, v)
              == Ok(JObject([Pair("codec_version", JText("shadow.execution.journal-codec.v1")), Pair("value", payload)]))
              && Wire(schema, v, payload)
  {
    EncodesTo(schema, v);
  }
}
