// The repository's records satisfy what the codec needs of constructors, so its documents are
// decoded exactly as they are encoded.
module VocabularyCodec {
  import opened Collections
  import opened Order
  import Decimals
  import opened Journal
  import opened JournalCodec
  import opened Vocabulary

  // ----- field names -----

  ghost predicate NewUpTo(names: seq<string>, lo: nat, hi: nat) {
    forall i, j :: 0 <= i < j < |names| && lo <= j < hi ==> names[i] != names[j]
  }

  // Kinds whose field names are compared together.
  function Group(kind: Kind): nat {
    match kind
    case Bar => 1
    case FeatureSnapshot => 1
    case Quote => 2
    case SubmitRequest => 2
    case OrderIntent => 2
    case RiskPolicy => 3
    case RiskState => 3
    case RiskDecision => 4
    case BrokerOrder => 4
    case Signal => 5
    case CanaryConfig => 6
    case BrokerFill => 7
    case BrokerSnapshot => 7
    case TradeUpdate => 7
    case SubmissionResult => 7
    case _ => 0
  }

  lemma ShortNames(kind: Kind)
    requires Group(kind) == 0
    ensures Distinct(FieldsOf(kind))
  {
  }

  lemma BrokerNames(kind: Kind)
    requires Group(kind) == 7
    ensures Distinct(FieldsOf(kind))
  {
  }

  lemma ObservationNames(kind: Kind)
    requires Group(kind) == 1
    ensures Distinct(FieldsOf(kind))
  {
  }

  lemma RequestNames(kind: Kind)
    requires Group(kind) == 2
    ensures Distinct(FieldsOf(kind))
  {
  }

  lemma RiskNames(kind: Kind)
    requires Group(kind) == 3
    ensures Distinct(FieldsOf(kind))
  {
  }

  lemma OrderNames(kind: Kind)
    requires Group(kind) == 4
    ensures Distinct(FieldsOf(kind))
  {
  }

  lemma SignalFirst()
    ensures NewUpTo(FieldsOf(Signal), 0, 14)
  {
  }

  lemma SignalLast()
    ensures NewUpTo(FieldsOf(Signal), 14, 19)
  {
  }

  lemma CanaryFirst()
    ensures NewUpTo(FieldsOf(CanaryConfig), 0, 14)
  {
  }

  lemma CanaryMiddle()
    ensures NewUpTo(FieldsOf(CanaryConfig), 14, 19)
  {
  }

  lemma CanaryLater()
    ensures NewUpTo(FieldsOf(CanaryConfig), 19, 23)
  {
  }

  lemma CanaryLast()
    ensures NewUpTo(FieldsOf(CanaryConfig), 23, 26)
  {
  }

  lemma Joined(names: seq<string>, lo: nat, mid: nat, hi: nat)
    requires NewUpTo(names, lo, mid) && NewUpTo(names, mid, hi)
    ensures NewUpTo(names, lo, hi) && (lo == 0 && |names| <= hi ==> Distinct(names))
  {
  }

  lemma SignalNames()
    ensures Distinct(FieldsOf(Signal))
  {
    SignalFirst();
    SignalLast();
    Joined(FieldsOf(Signal), 0, 14, 19);
  }

  lemma CanaryNames()
    ensures Distinct(FieldsOf(CanaryConfig))
  {
    CanaryFirst();
    CanaryMiddle();
    CanaryLater();
    CanaryLast();
    Joined(FieldsOf(CanaryConfig), 14, 19, 23);
    Joined(FieldsOf(CanaryConfig), 14, 23, 26);
    Joined(FieldsOf(CanaryConfig), 0, 14, 26);
  }

  lemma DistinctNames(kind: Kind)
    ensures Distinct(FieldsOf(kind))
  {
    match Group(kind)
    case 1 => ObservationNames(kind);
    case 2 => RequestNames(kind);
    case 3 => RiskNames(kind);
    case 4 => OrderNames(kind);
    case 5 => SignalNames();
    case 6 => CanaryNames();
    case 7 => BrokerNames(kind);
    case _ => ShortNames(kind);
  }

  // ----- fields and items, one by one -----

  lemma {:induction false} NormalFieldAt(fields: seq<Field>, i: nat)
    requires i < |fields|
    ensures NormalFields(fields)[i] == Field(fields[i].name, Normal(fields[i].value))
  {
    if i > 0 {
      NormalFieldAt(fields[1..], i - 1);
    }
  }

  lemma {:induction false} NormalItemAt(items: seq<Value>, i: nat)
    requires i < |items|
    ensures NormalAll(items)[i] == Normal(items[i])
  {
    if i > 0 {
      NormalItemAt(items[1..], i - 1);
    }
  }

  lemma {:induction false} SupportedItems(schema: Schema, items: seq<Value>)
    ensures AllSupported(schema, items) <==> forall v :: v in items ==> Supported(schema, v)
  {
    if items != [] {
      SupportedItems(schema, items[1..]);
      HeadAndTail(items);
      assert items[0] in items;
    }
  }

  lemma {:induction false} SupportedFields(schema: Schema, fields: seq<Field>)
    ensures FieldsSupported(schema, fields) <==> forall f :: f in fields ==> Supported(schema, f.value)
  {
    if fields != [] {
      SupportedFields(schema, fields[1..]);
      HeadAndTail(fields);
      assert fields[0] in fields;
    }
  }

  // ----- normal forms look the same -----

  // Putting a value's decimals in canonical form changes nothing that a constructor sees.
  lemma {:induction false} NormalSeen(schema: Schema, v: Value)
    requires Supported(schema, v)
    ensures See(Normal(v)) == See(v)
    decreases v, 0
  {
    match v
    case VDecimal(d) => Decimals.CanonicalValid(d);
    case VTuple(items) =>
      SupportedItems(schema, items);
      forall i | 0 <= i < |items| ensures See(NormalAll(items)[i]) == See(items[i]) {
        assert items[i] in items;
        NormalItemAt(items, i);
        NormalSeen(schema, items[i]);
      }
      assert See(Normal(v)).items == See(v).items;
    case VRecord(_, fields) =>
      SupportedFields(schema, fields);
      forall i | 0 <= i < |fields| ensures See(NormalFields(fields)[i].value) == See(fields[i].value) {
        assert fields[i] in fields;
        NormalFieldAt(fields, i);
        NormalSeen(schema, fields[i].value);
      }
      assert See(Normal(v)).parts == See(v).parts;
    case _ =>
  }

  lemma NormalEachSeen(schema: Schema, given: seq<Field>)
    requires FieldsSupported(schema, given)
    ensures SeeEach(NormalFields(given)) == SeeEach(given)
  {
    SupportedFields(schema, given);
    forall i | 0 <= i < |given| ensures See(NormalFields(given)[i].value) == See(given[i].value) {
      assert given[i] in given;
      NormalFieldAt(given, i);
      NormalSeen(schema, given[i].value);
    }
  }

  // ----- arranging once is enough -----

  lemma {:induction false} OnceDistinct(items: seq<Value>)
    ensures Distinct(Once(items)) && (Distinct(items) ==> Once(items) == items)
  {
    if items != [] {
      assert items == Front(items) + [Last(items)];
      OnceDistinct(Front(items));
    }
  }

  lemma NormalSorted(schema: Schema, how: Arrangement, items: seq<Value>)
    requires forall v :: v in items ==> Supported(schema, v)
    ensures var s := NormalAll(Sort(Sorter(how), items)); Sort(Sorter(how), s) == s
  {
    var s := Sort(Sorter(how), items);
    var n := NormalAll(s);
    SortSorted(Sorter(how), items);
    SortElements(Sorter(how), items);
    forall i, j | 0 <= i < j < |n| ensures KeyLe(Sorter(how)(n[i]), Sorter(how)(n[j])) {
      NormalItemAt(s, i);
      NormalItemAt(s, j);
      assert s[i] in items && s[j] in items;
      NormalSeen(schema, s[i]);
      NormalSeen(schema, s[j]);
    }
    SortOfSorted(Sorter(how), n);
  }

  // Members of enumerations have no decimals.
  lemma {:induction false} NormalMembers(items: seq<Value>)
    requires forall v :: v in items ==> v.VEnum?
    ensures NormalAll(items) == items
  {
    forall i | 0 <= i < |items| ensures NormalAll(items)[i] == items[i] {
      assert items[i] in items;
      NormalItemAt(items, i);
    }
  }

  lemma OnceSorted(how: Arrangement, items: seq<Value>)
    requires how == ByMember && forall v :: v in items ==> v.VEnum?
    ensures var s := Sort(Sorter(how), Once(items)); NormalAll(s) == s && Once(s) == s && Sort(Sorter(how), s) == s
  {
    var s := Sort(Sorter(how), Once(items));
    SortElements(Sorter(how), Once(items));
    NormalMembers(s);
    OnceDistinct(items);
    DistinctPermute(Once(items), s);
    OnceDistinct(s);
    SortSorted(Sorter(how), Once(items));
    SortOfSorted(Sorter(how), s);
  }

  lemma ArrangedAgain(schema: Schema, how: Arrangement, v: Value)
    requires Supported(schema, v) && (how == ByMember ==> forall x :: x in Items(v) ==> x.VEnum?)
    ensures Arranged(how, Normal(Arranged(how, v))) == Normal(Arranged(how, v))
  {
    if v.VTuple? {
      SupportedItems(schema, v.items);
    }
    if how == ByMember {
      OnceSorted(how, Items(v));
    } else {
      NormalSorted(schema, how, Items(v));
    }
  }

  lemma ArrangedSupported(schema: Schema, how: Arrangement, v: Value)
    requires Supported(schema, v)
    ensures Supported(schema, Arranged(how, v))
  {
    var base := if how == ByMember then Once(Items(v)) else Items(v);
    SupportedItems(schema, Items(v));
    SortElements(Sorter(how), base);
    SupportedItems(schema, Sort(Sorter(how), base));
  }

  lemma SettledSupported(schema: Schema, kind: Kind, given: seq<Field>)
    requires FieldsSupported(schema, given)
    ensures FieldsSupported(schema, Settled(kind, given)) && FieldNames(Settled(kind, given)) == FieldNames(given)
  {
    var out := Settled(kind, given);
    SupportedFields(schema, given);
    forall f | f in out ensures Supported(schema, f.value) {
      var i :| 0 <= i < |out| && out[i] == f;
      assert given[i] in given;
      if ArrangedBy(kind, i).Some? {
        ArrangedSupported(schema, ArrangedBy(kind, i).value, given[i].value);
      }
    }
    SupportedFields(schema, out);
  }

  // What is sorted once is told apart by itself: only a decision's reasons are taken once.
  ghost predicate MembersWhereOnce(kind: Kind, given: seq<Field>) {
    forall i :: 0 <= i < |given| && ArrangedBy(kind, i) == Some(ByMember) ==>
      forall x :: x in Items(given[i].value) ==> x.VEnum?
  }

  lemma SettledAgain(schema: Schema, kind: Kind, given: seq<Field>)
    requires FieldsSupported(schema, given) && MembersWhereOnce(kind, given)
    ensures var n := NormalFields(Settled(kind, given)); Settled(kind, n) == n
  {
    var out := Settled(kind, given);
    var n := NormalFields(out);
    SupportedFields(schema, given);
    forall i | 0 <= i < |n| ensures Settled(kind, n)[i] == n[i] {
      assert given[i] in given;
      NormalFieldAt(out, i);
      if ArrangedBy(kind, i).Some? {
        ArrangedAgain(schema, ArrangedBy(kind, i).value, given[i].value);
      }
    }
  }

  // ----- the checks do not see the arrangement -----

  // The same elements, each as often.
  ghost predicate Rearranged(a: seq<Sight>, b: seq<Sight>) { multiset(a) == multiset(b) }

  lemma UnrepeatedRearranged(aspect: Aspect, a: seq<Sight>, b: seq<Sight>)
    requires Rearranged(a, b)
    ensures Unrepeated(Map(Lens(aspect), a)) == Unrepeated(Map(Lens(aspect), b))
  {
    MapPermute(Lens(aspect), a, b);
    SameMembers(Map(Lens(aspect), a), Map(Lens(aspect), b));
    assert ToSet(Map(Lens(aspect), a)) == ToSet(Map(Lens(aspect), b));
  }

  // What a constructor may do to one argument.
  ghost predicate Related(how: Option<Arrangement>, a: Sight, b: Sight) {
    match how
    case None => b == a
    case Some(ByMember) => b.Row? && forall s :: s in b.items <==> s in ItemsOf(a)
    case Some(_) => b.Row? && Rearranged(ItemsOf(a), b.items)
  }

  ghost predicate Differ(kind: Kind, p: seq<Sight>, q: seq<Sight>) {
    |p| == |q| && forall i: nat :: i < |p| ==> Related(ArrangedBy(kind, i), p[i], q[i])
  }

  lemma PolicyStays(p: seq<Sight>, q: seq<Sight>)
    requires |p| == 10 && PolicyChecks(p) && Differ(RiskPolicy, p, q)
    ensures PolicyChecks(q)
  {
    SameMembers(ItemsOf(p[2]), q[2].items);
    UnrepeatedRearranged(Identifier, ItemsOf(p[2]), q[2].items);
  }

  lemma StateStays(p: seq<Sight>, q: seq<Sight>)
    requires |p| == 9 && StateChecks(p) && Differ(RiskState, p, q)
    ensures StateChecks(q)
  {
    SameMembers(ItemsOf(p[4]), q[4].items);
    SameMembers(ItemsOf(p[5]), q[5].items);
  }

  lemma DecisionStays(p: seq<Sight>, q: seq<Sight>)
    requires |p| == 13 && DecisionChecks(p) && Differ(RiskDecision, p, q)
    ensures DecisionChecks(q)
  {
    SameEmpty(q[2].items, ItemsOf(p[2]));
  }

  lemma HoldingsStay(parent: Sight, a: Sight, b: Sight)
    requires Holdings(parent, a) && b.Row? && Rearranged(a.items, b.items)
    ensures Holdings(parent, b)
  {
    SameMembers(a.items, b.items);
    UnrepeatedRearranged(Held, a.items, b.items);
  }

  lemma ListingsStay(parent: Sight, a: Sight, b: Sight)
    requires Listings(parent, a) && b.Row? && Rearranged(a.items, b.items)
    ensures Listings(parent, b)
  {
    SameMembers(a.items, b.items);
    UnrepeatedRearranged(OrderId, a.items, b.items);
    FilterPermute(HasClient(), a.items, b.items);
    UnrepeatedRearranged(Client, Filter(HasClient(), a.items), Filter(HasClient(), b.items));
  }

  lemma SnapshotDiffers(p: seq<Sight>, q: seq<Sight>)
    requires |p| == 7 && Differ(BrokerSnapshot, p, q)
    ensures |q| == 7 && q[0] == p[0] && q[3..] == p[3..]
    ensures q[1].Row? && Rearranged(ItemsOf(p[1]), q[1].items) && q[2].Row? && Rearranged(ItemsOf(p[2]), q[2].items)
  {
    assert Related(Some(ByHeld), p[1], q[1]) && Related(Some(ByOrderId), p[2], q[2]);
    forall i: nat | 3 <= i < 7 ensures q[i] == p[i] {
      assert Related(ArrangedBy(BrokerSnapshot, i), p[i], q[i]);
    }
  }

  lemma SnapshotStays(p: seq<Sight>, q: seq<Sight>)
    requires |p| == 7 && SnapshotChecks(p) && Differ(BrokerSnapshot, p, q)
    ensures SnapshotChecks(q)
  {
    SnapshotDiffers(p, q);
    HoldingsStay(p[0], p[1], q[1]);
    ListingsStay(p[0], p[2], q[2]);
    assert q[3] == q[3..][0] && q[4] == q[3..][1] && q[5] == q[3..][2] && q[6] == q[3..][3];
  }

  lemma Untouched(kind: Kind, p: seq<Sight>, q: seq<Sight>)
    requires kind !in {RiskDecision, RiskPolicy, RiskState, BrokerSnapshot} && Differ(kind, p, q)
    ensures q == p
  {
  }

  // No check sees what a constructor does to its arguments.
  lemma ChecksStay(kind: Kind, p: seq<Sight>, q: seq<Sight>)
    requires Checks(kind, p) && Differ(kind, p, q)
    ensures Checks(kind, q)
  {
    match kind
    case RiskPolicy => PolicyStays(p, q);
    case RiskState => StateStays(p, q);
    case BrokerSnapshot => SnapshotStays(p, q);
    case RiskDecision => DecisionStays(p, q);
    case _ => Untouched(kind, p, q);
  }

  function Eye(): Value -> Sight { (v: Value) => See(v) }

  lemma RowSeen(v: Value)
    ensures ItemsOf(See(v)) == Map(Eye(), Items(v))
  {
  }

  lemma ArrangedSeen(how: Arrangement, v: Value)
    requires how != ByMember
    ensures See(Arranged(how, v)).Row? && Rearranged(ItemsOf(See(v)), See(Arranged(how, v)).items)
  {
    RowSeen(v);
    RowSeen(Arranged(how, v));
    MapPermute(Eye(), Items(v), Sort(Sorter(how), Items(v)));
  }

  lemma OnceSeen(v: Value)
    ensures var r := See(Arranged(ByMember, v)); r.Row? && forall s :: s in r.items <==> s in ItemsOf(See(v))
  {
    var r := Arranged(ByMember, v);
    RowSeen(v);
    RowSeen(r);
    SortElements(Sorter(ByMember), Once(Items(v)));
    MapMembers(Eye(), Items(v), Items(r));
    MapMembers(Eye(), Items(r), Items(v));
  }

  lemma SettledDiffers(kind: Kind, given: seq<Field>)
    ensures Differ(kind, SeeEach(given), SeeEach(Settled(kind, given)))
  {
    forall i: nat | i < |given|
      ensures Related(ArrangedBy(kind, i), See(given[i].value), See(Tidy(kind, i, given[i].value)))
    {
      var how := ArrangedBy(kind, i);
      if how == Some(ByMember) {
        OnceSeen(given[i].value);
      } else if how.Some? {
        ArrangedSeen(how.value, given[i].value);
      }
    }
  }

  lemma ItemSeen(v: Value, x: Value)
    requires x in Items(v)
    ensures See(x) in ItemsOf(See(v))
  {
    RowSeen(v);
    Listed(Eye(), Items(v), x);
  }

  lemma ReasonsSeen(v: Value)
    requires forall s :: s in ItemsOf(See(v)) ==> OneOf(REJECTION, s)
    ensures forall x :: x in Items(v) ==> OneOf(REJECTION, See(x))
  {
    forall x | x in Items(v) ensures OneOf(REJECTION, See(x)) {
      ItemSeen(v, x);
    }
  }

  lemma OnlyReasonsOnce(kind: Kind, given: seq<Field>)
    requires Checks(kind, SeeEach(given))
    ensures MembersWhereOnce(kind, given)
  {
    if kind == RiskDecision {
      assert DecisionChecks(SeeEach(given));
      ReasonsAreMembers(given[2].value);
    }
  }

  lemma ReasonsAreMembers(v: Value)
    requires forall s :: s in ItemsOf(See(v)) ==> OneOf(REJECTION, s)
    ensures forall x :: x in Items(v) ==> x.VEnum?
  {
    ReasonsSeen(v);
    forall x | x in Items(v) ensures x.VEnum? {
      assert See(x).Choice?;
    }
  }

  // ----- every record -----

  // Constructing again what was constructed, in normal form, changes nothing.
  lemma ConstructedAgain(schema: Schema, name: string, given: seq<Field>)
    requires FieldsSupported(schema, given) && Construct(name, given).Some?
    ensures var out := Construct(name, given).value;
            && FieldNames(out) == FieldNames(given) && FieldsSupported(schema, out)
            && Construct(name, NormalFields(out)) == Some(NormalFields(out))
  {
    var kind := KindAmong(KINDS, name).value;
    OnlyReasonsOnce(kind, given);
    SettledDiffers(kind, given);
    ChecksStay(kind, SeeEach(given), SeeEach(Settled(kind, given)));
    SettledSupported(schema, kind, given);
    SettledAgain(schema, kind, given);
    NormalEachSeen(schema, Settled(kind, given));
  }

  // The repository's enumerations and records.
  function RecordFields(name: string): seq<string> {
    var kind := KindAmong(KINDS, name);
    if kind.Some? then FieldsOf(kind.value) else []
  }

  function JournalSchema(): Schema {
    Schema(Enumerations(), map name | name in RecordNames() :: RecordFields(name),
           (name: string, given: seq<Field>) => Construct(name, given))
  }

  function Named(): Kind -> string { (k: Kind) => NameOf(k) }

  ghost predicate OfTheJournal(schema: Schema) {
    && (forall name :: name in schema.records ==> schema.records[name] == RecordFields(name))
    && (forall name: string, given: seq<Field> :: schema.construct(name, given) == Construct(name, given))
  }

  lemma ConstructedSupported(schema: Schema, name: string, given: seq<Field>)
    requires OfTheJournal(schema) && name in schema.records && FieldsSupported(schema, given)
    requires FieldNames(given) == RecordFields(name) && Construct(name, given).Some?
    ensures Supported(schema, VRecord(name, Construct(name, given).value))
  {
    ConstructedAgain(schema, name, given);
    DistinctFields(name);
    RecordOf(schema, name, Construct(name, given).value);
  }

  lemma DistinctFields(name: string)
    ensures Distinct(RecordFields(name))
  {
    if KindAmong(KINDS, name).Some? {
      DistinctNames(KindAmong(KINDS, name).value);
    }
  }

  lemma RecordOf(schema: Schema, name: string, out: seq<Field>)
    requires name in schema.records && FieldNames(out) == schema.records[name] && Distinct(schema.records[name])
    requires FieldsSupported(schema, out) && schema.construct(name, NormalFields(out)) == Some(NormalFields(out))
    ensures Supported(schema, VRecord(name, out))
  {
  }

  lemma JournalLawful(schema: Schema)
    requires OfTheJournal(schema)
    ensures Lawful(schema)
  {
    forall name: string, given: seq<Field> |
      name in schema.records && FieldsSupported(schema, given) && FieldNames(given) == schema.records[name]
      && schema.construct(name, given).Some?
      ensures Supported(schema, VRecord(name, schema.construct(name, given).value))
    {
      ConstructedSupported(schema, name, given);
    }
  }

  lemma ShortNamed(a: Kind, b: Kind)
    requires NameOf(a) == NameOf(b) && |NameOf(a)| <= 10
    ensures a == b
  {
  }

  lemma MiddleNamed(a: Kind, b: Kind)
    requires NameOf(a) == NameOf(b) && 10 < |NameOf(a)| <= 12
    ensures a == b
  {
  }

  lemma LongNamed(a: Kind, b: Kind)
    requires NameOf(a) == NameOf(b) && 12 < |NameOf(a)|
    ensures a == b
  {
  }

  lemma NamesTellApart(a: Kind, b: Kind)
    requires NameOf(a) == NameOf(b)
    ensures a == b
  {
    if |NameOf(a)| <= 10 {
      ShortNamed(a, b);
    } else if |NameOf(a)| <= 12 {
      MiddleNamed(a, b);
    } else {
      LongNamed(a, b);
    }
  }

  lemma AllKinds(kind: Kind)
    ensures kind in KINDS
  {
  }

  lemma KindFound(kind: Kind)
    ensures KindAmong(KINDS, NameOf(kind)) == Some(kind) && RecordFields(NameOf(kind)) == FieldsOf(kind)
  {
    AllKinds(kind);
    NamesTellApart(KindAmong(KINDS, NameOf(kind)).value, kind);
  }

  function RecordNames(): set<string> { ToSet(Map(Named(), KINDS)) }

  lemma NameListed(kind: Kind)
    ensures NameOf(kind) in RecordNames()
  {
    AllKinds(kind);
    Listed(Named(), KINDS, kind);
  }

  // Every record of the vocabulary is in the schema, under its own name and with its own fields.
  lemma SchemaComplete(kind: Kind)
    ensures NameOf(kind) in JournalSchema().records && JournalSchema().records[NameOf(kind)] == FieldsOf(kind)
  {
    KindFound(kind);
    NameListed(kind);
  }

  // Every record of the repository is constructed as the codec needs.
  lemma SchemaLawful()
    ensures Lawful(JournalSchema())
  {
    JournalLawful(JournalSchema());
  }

  // The repository's documents that are decoded are exactly those that are encoded.
  lemma JournalDocumentsExactly(document: Json)
    ensures DecodeCanonical(JournalSchema(), document).Ok?
       <==> exists v :: Supported(JournalSchema(), v) && CanonicalDocument(JournalSchema(), v) == Ok(document)
  {
    SchemaLawful();
    DocumentsExactly(JournalSchema(), document);
  }
}
