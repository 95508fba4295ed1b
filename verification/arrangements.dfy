// Records that sort what they are given do not depend on how it is arranged, unless it ties.
module Arrangements {
  import opened Collections
  import opened Order
  import opened Journal
  import opened Vocabulary
  import opened VocabularyCodec

  // The same arguments, but for the order of arranged lists and repetitions where each is taken once.
  ghost predicate Reordered(how: Option<Arrangement>, a: Value, b: Value) {
    match how
    case None => b == a
    case Some(ByMember) => forall x :: x in Items(b) <==> x in Items(a)
    case Some(_) => multiset(Items(b)) == multiset(Items(a))
  }

  ghost predicate ReorderedEach(kind: Kind, given: seq<Field>, other: seq<Field>) {
    && |other| == |given|
    && forall i: nat :: i < |given| ==>
         other[i].name == given[i].name && Reordered(ArrangedBy(kind, i), given[i].value, other[i].value)
  }

  // The items sorted by a key are told apart by it.
  ghost predicate ToldApart(how: Option<Arrangement>, v: Value) {
    match how
    case None => true
    case Some(ByMember) => forall x :: x in Items(v) ==> OneOf(REJECTION, See(x))
    case Some(key) => KeysIdentify(Sorter(key), Items(v))
  }

  lemma OncePermute(a: seq<Value>, b: seq<Value>)
    requires forall x :: x in a <==> x in b
    ensures multiset(Once(a)) == multiset(Once(b))
  {
    OnceDistinct(a);
    OnceDistinct(b);
    SameElementsSameMultiset(Once(a), Once(b));
  }

  // Elements separated by a word are told apart by the key made of it.
  lemma WordsIdentify<T>(key: T -> Key, word: T -> string, s: seq<T>)
    requires Separates(word, s) && forall x :: x in s ==> key(x) == [Text(word(x))]
    ensures KeysIdentify(key, s)
  {
    forall x, y | x in s && y in s && key(x) == key(y) ensures x == y {
      assert key(x)[0] == Text(word(x)) && key(y)[0] == Text(word(y));
    }
  }

  function MemberWord(): Value -> string { (v: Value) => Worded(See(v)) }

  lemma ReasonWord(x: Value)
    requires OneOf(REJECTION, See(x))
    ensures x == VEnum(REJECTION, MemberWord()(x))
  {
  }

  lemma ReasonsToldApart(s: seq<Value>)
    requires forall x :: x in s ==> OneOf(REJECTION, See(x))
    ensures KeysIdentify(Sorter(ByMember), s)
  {
    forall x | x in s ensures x == VEnum(REJECTION, MemberWord()(x)) {
      ReasonWord(x);
    }
    WordsIdentify(Sorter(ByMember), MemberWord(), s);
  }

  lemma OnceSame(a: Value, b: Value)
    requires (forall x :: x in Items(a) <==> x in Items(b)) && forall x :: x in Items(a) ==> OneOf(REJECTION, See(x))
    ensures Arranged(ByMember, a) == Arranged(ByMember, b)
  {
    OncePermute(Items(a), Items(b));
    ReasonsToldApart(Once(Items(a)));
    SortPermutation(Sorter(ByMember), Once(Items(a)), Once(Items(b)));
  }

  lemma SortedSame(how: Arrangement, a: Value, b: Value)
    requires how != ByMember && multiset(Items(a)) == multiset(Items(b)) && KeysIdentify(Sorter(how), Items(a))
    ensures Arranged(how, a) == Arranged(how, b)
  {
    SortPermutation(Sorter(how), Items(a), Items(b));
  }

  lemma TidyReordered(kind: Kind, i: nat, a: Value, b: Value)
    requires Reordered(ArrangedBy(kind, i), a, b) && ToldApart(ArrangedBy(kind, i), a)
    ensures Tidy(kind, i, a) == Tidy(kind, i, b)
  {
    var how := ArrangedBy(kind, i);
    if how == Some(ByMember) {
      OnceSame(a, b);
    } else if how.Some? {
      SortedSame(how.value, a, b);
    }
  }

  function WordOf(aspect: Aspect): Value -> string { (v: Value) => Lens(aspect)(See(v)) }

  lemma WordsSeen(aspect: Aspect, v: Value)
    ensures Map(Lens(aspect), ItemsOf(See(v))) == Map(WordOf(aspect), Items(v))
  {
    RowSeen(v);
  }

  // Lists without repetition under an aspect are told apart by the key made of it.
  lemma UnrepeatedToldApart(how: Arrangement, aspect: Aspect, v: Value)
    requires Unrepeated(Map(Lens(aspect), ItemsOf(See(v))))
    requires (how, aspect) in {(ByIdentifier, Identifier), (ByHeld, Held), (ByOrderId, OrderId)}
    ensures KeysIdentify(Sorter(how), Items(v))
  {
    WordsSeen(aspect, v);
    FullLengthDistinct(Map(WordOf(aspect), Items(v)));
    DistinctMap(WordOf(aspect), Items(v));
    forall x | x in Items(v) ensures Sorter(how)(x) == [Text(WordOf(aspect)(x))] {
      KeyOfWord(how, aspect, See(x));
    }
    WordsIdentify(Sorter(how), WordOf(aspect), Items(v));
  }

  lemma KeyOfWord(how: Arrangement, aspect: Aspect, s: Sight)
    requires (how, aspect) in {(ByIdentifier, Identifier), (ByHeld, Held), (ByOrderId, OrderId)}
    ensures KeyBy(how, s) == [Text(Lens(aspect)(s))]
  {
  }

  // A state's positions and orders may agree in what they are sorted by.
  ghost predicate Arrangeable(kind: Kind, given: seq<Field>) {
    kind == RiskState ==>
      && |given| == 9 && KeysIdentify(Sorter(ByPosition), Items(given[4].value))
      && KeysIdentify(Sorter(ByIntent), Items(given[5].value))
  }

  lemma SnapshotToldApart(parent: Sight, positions: Value, orders: Value)
    requires Holdings(parent, See(positions)) && Listings(parent, See(orders))
    ensures ToldApart(Some(ByHeld), positions) && ToldApart(Some(ByOrderId), orders)
  {
    UnrepeatedToldApart(ByHeld, Held, positions);
    UnrepeatedToldApart(ByOrderId, OrderId, orders);
  }

  lemma AcceptedToldApart(kind: Kind, given: seq<Field>, i: nat)
    requires Checks(kind, SeeEach(given)) && Arrangeable(kind, given) && i < |given|
    ensures ToldApart(ArrangedBy(kind, i), given[i].value)
  {
    if ArrangedBy(kind, i).Some? {
      match kind
      case RiskPolicy => UnrepeatedToldApart(ByIdentifier, Identifier, given[2].value);
      case RiskDecision => ReasonsSeen(given[2].value);
      case BrokerSnapshot => SnapshotToldApart(See(given[0].value), given[1].value, given[2].value);
      case _ =>
    }
  }

  // A record does not depend on the arrangement of the lists it is constructed from.
  lemma ArrangementErased(kind: Kind, given: seq<Field>, other: seq<Field>)
    requires Checks(kind, SeeEach(given)) && Arrangeable(kind, given) && ReorderedEach(kind, given, other)
    ensures Settled(kind, other) == Settled(kind, given)
  {
    forall i: nat | i < |given| ensures Settled(kind, other)[i] == Settled(kind, given)[i] {
      AcceptedToldApart(kind, given, i);
      TidyReordered(kind, i, given[i].value, other[i].value);
    }
  }

  // Only the arranged list at one place is reordered.
  function With(given: seq<Field>, i: nat, items: seq<Value>): seq<Field>
    requires i < |given|
  {
    given[i := Field(given[i].name, VTuple(items))]
  }

  lemma WithReordered(kind: Kind, given: seq<Field>, i: nat, how: Arrangement, items: seq<Value>)
    requires i < |given| && ArrangedBy(kind, i) == Some(how) && how != ByMember
    requires multiset(items) == multiset(Items(given[i].value))
    ensures ReorderedEach(kind, given, With(given, i, items))
  {
    var other := With(given, i, items);
    forall k: nat | k < |given| ensures Reordered(ArrangedBy(kind, k), given[k].value, other[k].value) {
      if k != i && ArrangedBy(kind, k).Some? {
        assert other[k] == given[k];
      }
    }
  }

  lemma ArrangedItems(how: Arrangement, v: Value)
    requires how != ByMember
    ensures Arranged(how, v).items == Sort(Sorter(how), Items(v))
  {
  }

  lemma WithDiffers(kind: Kind, given: seq<Field>, i: nat, how: Arrangement, items: seq<Value>)
    requires i < |given| && ArrangedBy(kind, i) == Some(how) && how != ByMember
    requires Sort(Sorter(how), items) != Sort(Sorter(how), Items(given[i].value))
    ensures Settled(kind, With(given, i, items)) != Settled(kind, given)
  {
    ArrangedItems(how, given[i].value);
    ArrangedItems(how, VTuple(items));
    assert Settled(kind, given)[i].value == Arranged(how, given[i].value);
    assert Settled(kind, With(given, i, items))[i].value == Arranged(how, VTuple(items));
  }

  lemma TiedField(kind: Kind, given: seq<Field>, i: nat, how: Arrangement) returns (other: seq<Field>)
    requires i < |given| && ArrangedBy(kind, i) == Some(how) && how != ByMember
    requires !KeysIdentify(Sorter(how), Items(given[i].value))
    ensures ReorderedEach(kind, given, other) && Settled(kind, other) != Settled(kind, given)
  {
    var items := TiesMatter(Sorter(how), Items(given[i].value));
    WithReordered(kind, given, i, how, items);
    WithDiffers(kind, given, i, how, items);
    other := With(given, i, items);
  }

  lemma TiedState(given: seq<Field>) returns (other: seq<Field>)
    requires |given| == 9 && !Arrangeable(RiskState, given)
    ensures ReorderedEach(RiskState, given, other) && Settled(RiskState, other) != Settled(RiskState, given)
  {
    if KeysIdentify(Sorter(ByPosition), Items(given[4].value)) {
      other := TiedField(RiskState, given, 5, ByIntent);
    } else {
      other := TiedField(RiskState, given, 4, ByPosition);
    }
  }

  // The arrangement is erased exactly when what is sorted does not tie.
  lemma ArrangementErasedExactly(kind: Kind, given: seq<Field>)
    requires Checks(kind, SeeEach(given))
    ensures Arrangeable(kind, given)
       <==> forall other :: ReorderedEach(kind, given, other) ==> Settled(kind, other) == Settled(kind, given)
  {
    if Arrangeable(kind, given) {
      forall other | ReorderedEach(kind, given, other) ensures Settled(kind, other) == Settled(kind, given) {
        ArrangementErased(kind, given, other);
      }
    } else {
      StateLength(kind, given);
      var _ := TiedState(given);
    }
  }

  lemma StateLength(kind: Kind, given: seq<Field>)
    requires kind == RiskState && Checks(kind, SeeEach(given))
    ensures |given| == 9
  {
  }
}
