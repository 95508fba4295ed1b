// The sort keys of the program and Python's stable sort over them.
module Order {
  import opened Collections

  // One component of a sort key: a time or count, an exact number, or text.
  datatype Part = Num(n: int) | Amount(r: real) | Text(t: string)

  // Keys compare component by component, as tuples do.
  type Key = seq<Part>

  predicate TextLe(a: string, b: string) {
    if a == [] then true
    else if b == [] then false
    else if a[0] != b[0] then a[0] < b[0]
    else TextLe(a[1..], b[1..])
  }

  predicate PartLe(a: Part, b: Part) {
    match (a, b)
    case (Num(x), Num(y)) => x <= y
    case (Num(_), _) => true
    case (Amount(_), Num(_)) => false
    case (Amount(x), Amount(y)) => x <= y
    case (Amount(_), Text(_)) => true
    case (Text(x), Text(y)) => TextLe(x, y)
    case (Text(_), _) => false
  }

  predicate KeyLe(a: Key, b: Key) {
    if a == [] then true
    else if b == [] then false
    else if a[0] != b[0] then PartLe(a[0], b[0])
    else KeyLe(a[1..], b[1..])
  }

  lemma {:induction false} TextOrder(a: string, b: string, c: string)
    ensures TextLe(a, b) || TextLe(b, a)
    ensures TextLe(a, b) && TextLe(b, a) ==> a == b
    ensures TextLe(a, b) && TextLe(b, c) ==> TextLe(a, c)
  {
    if a != [] && b != [] && a[0] == b[0] {
      TextOrder(a[1..], b[1..], if c == [] then [] else c[1..]);
      assert a == [a[0]] + a[1..] && b == [b[0]] + b[1..];
    }
  }

  lemma PartOrder(a: Part, b: Part, c: Part)
    ensures PartLe(a, b) || PartLe(b, a)
    ensures PartLe(a, b) && PartLe(b, a) ==> a == b
    ensures PartLe(a, b) && PartLe(b, c) ==> PartLe(a, c)
  {
    if a.Text? && b.Text? {
      TextOrder(a.t, b.t, if c.Text? then c.t else []);
    }
  }

  // The key order is total, antisymmetric and transitive.
  lemma {:induction false} KeyOrder(a: Key, b: Key, c: Key)
    ensures KeyLe(a, b) || KeyLe(b, a)
    ensures KeyLe(a, b) && KeyLe(b, a) ==> a == b
    ensures KeyLe(a, b) && KeyLe(b, c) ==> KeyLe(a, c)
  {
    if a != [] && b != [] {
      if a[0] == b[0] {
        KeyOrder(a[1..], b[1..], if c == [] then [] else c[1..]);
        assert a == [a[0]] + a[1..] && b == [b[0]] + b[1..];
      } else {
        PartOrder(a[0], b[0], if c == [] then b[0] else c[0]);
      }
    }
  }

  ghost predicate Sorted<T>(key: T -> Key, s: seq<T>) {
    forall i, j :: 0 <= i < j < |s| ==> KeyLe(key(s[i]), key(s[j]))
  }

  // Elements with equal keys are equal.
  ghost predicate KeysIdentify<T>(key: T -> Key, s: seq<T>) {
    forall x, y :: x in s && y in s && key(x) == key(y) ==> x == y
  }

  // Insert x after every element whose key does not exceed its own.
  function Insert<T>(key: T -> Key, x: T, s: seq<T>): (r: seq<T>)
    ensures |r| == |s| + 1
    ensures multiset(r) == multiset(s) + multiset{x}
  {
    if s == [] then [x]
    else
      assert s == Front(s) + [Last(s)];
      if KeyLe(key(Last(s)), key(x)) then s + [x]
      else Insert(key, x, Front(s)) + [Last(s)]
  }

  // The stable sort.
  function Sort<T>(key: T -> Key, s: seq<T>): (r: seq<T>)
    ensures |r| == |s|
    ensures multiset(r) == multiset(s)
  {
    if s == [] then []
    else
      assert s == Front(s) + [Last(s)];
      Insert(key, Last(s), Sort(key, Front(s)))
  }

  lemma SortElements<T>(key: T -> Key, s: seq<T>)
    ensures forall x :: x in Sort(key, s) <==> x in s
  {
    assert forall x :: x in Sort(key, s) <==> x in multiset(Sort(key, s));
  }

  lemma {:induction false} InsertSorted<T>(key: T -> Key, x: T, s: seq<T>)
    requires Sorted(key, s)
    ensures Sorted(key, Insert(key, x, s))
  {
    if s != [] {
      var last := Last(s);
      if KeyLe(key(last), key(x)) {
        forall i | 0 <= i < |s| ensures KeyLe(key(s[i]), key(x)) {
          KeyOrder(key(s[i]), key(last), key(x));
        }
      } else {
        InsertSorted(key, x, Front(s));
        KeyOrder(key(last), key(x), key(x));
        var r := Insert(key, x, Front(s));
        forall i | 0 <= i < |r| ensures KeyLe(key(r[i]), key(last)) {
          assert r[i] in multiset(r);
          assert r[i] == x || r[i] in Front(s);
        }
      }
    }
  }

  lemma {:induction false} SortSorted<T>(key: T -> Key, s: seq<T>)
    ensures Sorted(key, Sort(key, s))
  {
    if s != [] {
      SortSorted(key, Front(s));
      InsertSorted(key, Last(s), Sort(key, Front(s)));
    }
  }

  lemma {:induction false} SortOfSorted<T>(key: T -> Key, s: seq<T>)
    requires Sorted(key, s)
    ensures Sort(key, s) == s
  {
    if s != [] {
      SortOfSorted(key, Front(s));
      assert s == Front(s) + [Last(s)];
      if |s| > 1 {
        assert KeyLe(key(s[|s| - 2]), key(s[|s| - 1]));
      }
    }
  }

  lemma {:induction false} FilterSorted<T(!new)>(key: T -> Key, p: T -> bool, s: seq<T>)
    requires Sorted(key, s)
    ensures Sorted(key, Filter(p, s))
  {
    if s != [] {
      FilterSorted(key, p, Front(s));
      assert s == Front(s) + [Last(s)];
      forall x | x in Front(s) ensures KeyLe(key(x), key(Last(s))) {
        var i :| 0 <= i < |Front(s)| && Front(s)[i] == x;
        assert s[i] == x;
      }
    }
  }

  lemma {:induction false} InsertFilter<T(!new)>(key: T -> Key, p: T -> bool, x: T, s: seq<T>)
    requires Sorted(key, s)
    ensures Filter(p, Insert(key, x, s)) == if p(x) then Insert(key, x, Filter(p, s)) else Filter(p, s)
  {
    if s == [] {
      FilterSnoc(p, [], x);
      assert [] + [x] == [x];
    } else {
      var last := Last(s);
      FilterSnoc(p, s, x);
      if KeyLe(key(last), key(x)) {
        var kept := Filter(p, s);
        if kept != [] {
          assert Last(kept) in kept;
          var i :| 0 <= i < |s| && s[i] == Last(kept);
          assert i == |s| - 1 || KeyLe(key(s[i]), key(last));
          KeyOrder(key(s[i]), key(last), key(x));
        }
      } else {
        InsertFilter(key, p, x, Front(s));
        FilterSnoc(p, Insert(key, x, Front(s)), last);
        if p(last) {
          var kept := Filter(p, Front(s)) + [last];
          assert Front(kept) == Filter(p, Front(s));
        }
      }
    }
  }

  // Sorting commutes with filtering.
  lemma {:induction false} SortFilter<T(!new)>(key: T -> Key, p: T -> bool, s: seq<T>)
    ensures Filter(p, Sort(key, s)) == Sort(key, Filter(p, s))
  {
    if s != [] {
      SortFilter(key, p, Front(s));
      SortSorted(key, Front(s));
      InsertFilter(key, p, Last(s), Sort(key, Front(s)));
      if p(Last(s)) {
        var kept := Filter(p, Front(s)) + [Last(s)];
        assert Front(kept) == Filter(p, Front(s));
      }
    }
  }

  lemma SortedSameLast<T>(key: T -> Key, a: seq<T>, b: seq<T>)
    requires Sorted(key, a) && Sorted(key, b)
    requires multiset(a) == multiset(b) && a != [] && b != []
    requires KeysIdentify(key, a)
    ensures Last(a) == Last(b)
  {
    var x, y := Last(a), Last(b);
    assert x in multiset(b) && y in multiset(a);
    var i :| 0 <= i < |b| && b[i] == x;
    var j :| 0 <= j < |a| && a[j] == y;
    assert i == |b| - 1 || KeyLe(key(x), key(y));
    assert j == |a| - 1 || KeyLe(key(y), key(x));
    KeyOrder(key(x), key(y), key(y));
  }

  lemma FrontMultiset<T>(s: seq<T>)
    requires s != []
    ensures multiset(Front(s)) == multiset(s) - multiset{Last(s)}
  {
    assert s == Front(s) + [Last(s)];
  }

  lemma FrontIdentify<T>(key: T -> Key, s: seq<T>)
    requires s != [] && KeysIdentify(key, s)
    ensures KeysIdentify(key, Front(s))
  {
    assert forall x :: x in Front(s) ==> x in s;
  }

  lemma SameFrontAndLast<T>(a: seq<T>, b: seq<T>)
    requires a != [] && b != [] && Front(a) == Front(b) && Last(a) == Last(b)
    ensures a == b
  {
    assert a == Front(a) + [Last(a)] && b == Front(b) + [Last(b)];
  }

  // A sorted arrangement of identified elements is unique.
  lemma {:induction false} SortedUnique<T>(key: T -> Key, a: seq<T>, b: seq<T>)
    requires Sorted(key, a) && Sorted(key, b)
    requires multiset(a) == multiset(b)
    requires KeysIdentify(key, a)
    ensures a == b
  {
    assert |multiset(a)| == |multiset(b)|;
    if a != [] {
      SortedSameLast(key, a, b);
      FrontMultiset(a);
      FrontMultiset(b);
      FrontIdentify(key, a);
      SortedUnique(key, Front(a), Front(b));
      SameFrontAndLast(a, b);
    }
  }

  lemma SortPermutation<T>(key: T -> Key, a: seq<T>, b: seq<T>)
    requires multiset(a) == multiset(b)
    requires KeysIdentify(key, a)
    ensures Sort(key, a) == Sort(key, b)
  {
    SortSorted(key, a);
    SortSorted(key, b);
    SortElements(key, a);
    assert KeysIdentify(key, Sort(key, a));
    SortedUnique(key, Sort(key, a), Sort(key, b));
  }

  // When p holds of everything below an element it holds of, the elements
  // satisfying p are a prefix of the sorted sequence.
  lemma {:induction false} SortedSplit<T(!new)>(key: T -> Key, p: T -> bool, s: seq<T>)
    requires Sorted(key, s)
    requires forall x, y :: x in s && y in s && p(y) && KeyLe(key(x), key(y)) ==> p(x)
    ensures s == Filter(p, s) + Filter(Not(p), s)
  {
    if s != [] {
      assert s == Front(s) + [Last(s)];
      SortedSplit(key, p, Front(s));
      if p(Last(s)) {
        forall x | x in s ensures p(x) {
          var i :| 0 <= i < |s| && s[i] == x;
          KeyOrder(key(x), key(x), key(x));
          assert i == |s| - 1 || KeyLe(key(s[i]), key(Last(s)));
        }
        FilterAll(p, s);
        FilterNone(Not(p), s);
      }
    }
  }

  // The first greatest element, as Python's max returns it.
  function MaxBy<T>(key: T -> Key, s: seq<T>): (r: T)
    requires s != []
    ensures r in s
  {
    if |s| == 1 then s[0]
    else
      var m := MaxBy(key, Front(s));
      if KeyLe(key(Last(s)), key(m)) then m else Last(s)
  }

  lemma {:induction false} MaxByGreatest<T>(key: T -> Key, s: seq<T>, x: T)
    requires x in s
    ensures KeyLe(key(x), key(MaxBy(key, s)))
  {
    KeyOrder(key(x), key(x), key(x));
    if |s| > 1 {
      assert s == Front(s) + [Last(s)];
      var m := MaxBy(key, Front(s));
      if x in Front(s) {
        MaxByGreatest(key, Front(s), x);
        KeyOrder(key(Last(s)), key(m), key(m));
        KeyOrder(key(x), key(m), key(Last(s)));
      } else {
        KeyOrder(key(x), key(Last(s)), key(m));
      }
    }
  }

  // Sequences with the same elements have greatest elements with the same key.
  lemma MaxBySameElements<T>(key: T -> Key, a: seq<T>, b: seq<T>)
    requires a != [] && b != []
    requires forall x :: x in a <==> x in b
    ensures key(MaxBy(key, a)) == key(MaxBy(key, b))
  {
    MaxByGreatest(key, a, MaxBy(key, b));
    MaxByGreatest(key, b, MaxBy(key, a));
    KeyOrder(key(MaxBy(key, a)), key(MaxBy(key, b)), []);
  }

  lemma Swapped<T>(key: T -> Key, s: seq<T>, i: nat, j: nat)
    requires i < |s| && j < |s| && key(s[i]) == key(s[j]) && Sorted(key, s)
    ensures var r := s[i := s[j]][j := s[i]]; multiset(r) == multiset(s) && Sorted(key, r)
  {
    var r := s[i := s[j]][j := s[i]];
    assert forall k :: 0 <= k < |s| ==> key(r[k]) == key(s[k]);
  }

  // Of items that tie, the sort keeps the order they are given in.
  lemma TiesMatter<T>(key: T -> Key, s: seq<T>) returns (other: seq<T>)
    requires !KeysIdentify(key, s)
    ensures multiset(other) == multiset(s) && Sort(key, other) != Sort(key, s)
  {
    var x, y :| x in s && y in s && key(x) == key(y) && x != y;
    var sorted := Sort(key, s);
    SortElements(key, s);
    SortSorted(key, s);
    var i :| 0 <= i < |sorted| && sorted[i] == x;
    var j :| 0 <= j < |sorted| && sorted[j] == y;
    other := sorted[i := y][j := x];
    Swapped(key, sorted, i, j);
    SortOfSorted(key, other);
    assert other[i] == y;
  }
}
