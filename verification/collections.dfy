// Options, results and the sequence vocabulary shared by every component.
module Collections {

  datatype Option<+T> = None | Some(value: T)

  // Err carries the condition the program reports when it raises.
  datatype Result<+T> = Ok(value: T) | Err(error: string)
  {
    predicate IsFailure() {
      Err?
    }

    function PropagateFailure<U>(): Result<U>
      requires Err?
    {
      Err(error)
    }

    function Extract(): T
      requires Ok?
    {
      value
    }
  }

  predicate Space(c: char) {
    c in {' ', '\t', '\n', '\r'}
  }

  predicate Blank(text: string) {
    forall c :: c in text ==> Space(c)
  }

  // Unchanged by stripping white space.
  predicate Trimmed(text: string) {
    text != "" ==> !Space(text[0]) && !Space(Last(text))
  }

  function Last<T>(s: seq<T>): T
    requires s != []
  {
    s[|s| - 1]
  }

  function Front<T>(s: seq<T>): seq<T>
    requires s != []
  {
    s[..|s| - 1]
  }

  lemma FrontAndLast<T>(s: seq<T>)
    requires s != []
    ensures s == Front(s) + [Last(s)]
  {
  }

  // The last n elements, or all of them when there are fewer.
  function LastN<T>(s: seq<T>, n: nat): seq<T> {
    if |s| <= n then s else s[|s| - n..]
  }

  function Map<T, U>(f: T -> U, s: seq<T>): (r: seq<U>)
    ensures |r| == |s|
    ensures forall i :: 0 <= i < |s| ==> r[i] == f(s[i])
  {
    seq(|s|, i requires 0 <= i < |s| => f(s[i]))
  }

  ghost predicate Distinct<T>(s: seq<T>) {
    forall i, j :: 0 <= i < j < |s| ==> s[i] != s[j]
  }

  function ToSet<T(==)>(s: seq<T>): set<T> {
    set x | x in s
  }

  function Not<T>(p: T -> bool): T -> bool {
    x => !p(x)
  }

  function Both<T>(p: T -> bool, q: T -> bool): T -> bool {
    x => p(x) && q(x)
  }

  // The elements satisfying p, in order.
  function Filter<T(!new)>(p: T -> bool, s: seq<T>): (r: seq<T>)
    ensures |r| <= |s|
    ensures forall x :: x in r <==> x in s && p(x)
  {
    if s == [] then
      []
    else
      assert s == Front(s) + [Last(s)];
      if p(Last(s)) then Filter(p, Front(s)) + [Last(s)] else Filter(p, Front(s))
  }

  lemma FilterSnoc<T(!new)>(p: T -> bool, s: seq<T>, x: T)
    ensures Filter(p, s + [x]) == if p(x) then Filter(p, s) + [x] else Filter(p, s)
  {
    assert Front(s + [x]) == s;
  }

  lemma AppendSnoc<T>(a: seq<T>, b: seq<T>)
    requires b != []
    ensures a + b == (a + Front(b)) + [Last(b)]
  {
  }

  lemma {:induction false} FilterAppend<T(!new)>(p: T -> bool, a: seq<T>, b: seq<T>)
    ensures Filter(p, a + b) == Filter(p, a) + Filter(p, b)
  {
    if b == [] {
      assert a + b == a;
    } else {
      FilterAppend(p, a, Front(b));
      AppendSnoc(a, b);
      FilterSnoc(p, a + Front(b), Last(b));
    }
  }

  lemma {:induction false} FilterSame<T(!new)>(p: T -> bool, q: T -> bool, s: seq<T>)
    requires forall x :: x in s ==> p(x) == q(x)
    ensures Filter(p, s) == Filter(q, s)
  {
    if s != [] {
      FilterSame(p, q, Front(s));
      assert Last(s) in s;
    }
  }

  lemma {:induction false} FilterAll<T(!new)>(p: T -> bool, s: seq<T>)
    requires forall x :: x in s ==> p(x)
    ensures Filter(p, s) == s
  {
    if s != [] {
      assert s == Front(s) + [Last(s)];
      forall x | x in Front(s) ensures p(x) { assert x in s; }
      FilterAll(p, Front(s));
    }
  }

  lemma {:induction false} FilterNone<T(!new)>(p: T -> bool, s: seq<T>)
    requires forall x :: x in s ==> !p(x)
    ensures Filter(p, s) == []
  {
    if s != [] {
      FilterNone(p, Front(s));
      assert Last(s) in s;
    }
  }

  // Filtering twice is filtering once by the conjunction.
  lemma {:induction false} FilterFilter<T(!new)>(p: T -> bool, q: T -> bool, r: T -> bool, s: seq<T>)
    requires forall x :: x in s ==> (r(x) <==> p(x) && q(x))
    ensures Filter(p, Filter(q, s)) == Filter(r, s)
  {
    if s != [] {
      FilterFilter(p, q, r, Front(s));
      var x := Last(s);
      assert x in s;
      if q(x) {
        FilterSnoc(p, Filter(q, Front(s)), x);
      }
    }
  }

  lemma {:induction false} FilterCount<T(!new)>(p: T -> bool, s: seq<T>, x: T)
    ensures multiset(Filter(p, s))[x] == if p(x) then multiset(s)[x] else 0
  {
    if s != [] {
      FilterCount(p, Front(s), x);
      assert s == Front(s) + [Last(s)];
    }
  }

  lemma {:induction false} FilterDistinct<T(!new)>(p: T -> bool, s: seq<T>)
    requires Distinct(s)
    ensures Distinct(Filter(p, s))
  {
    if s != [] {
      FilterDistinct(p, Front(s));
      assert s == Front(s) + [Last(s)];
      assert Last(s) !in Front(s);
    }
  }

  // The window of a longer history, taken one element at a time.
  lemma LastNSnoc<T>(s: seq<T>, x: T, n: nat)
    requires n > 0
    ensures LastN(LastN(s, n) + [x], n) == LastN(s + [x], n)
  {
  }

  lemma {:induction false} DistinctMultiset<T>(s: seq<T>, x: T)
    requires Distinct(s)
    ensures multiset(s)[x] == if x in s then 1 else 0
  {
    if s != [] {
      DistinctMultiset(Front(s), x);
      assert s == Front(s) + [Last(s)];
      assert Last(s) !in Front(s);
    }
  }

  lemma SameElementsSameMultiset<T>(a: seq<T>, b: seq<T>)
    requires Distinct(a) && Distinct(b)
    requires forall x :: x in a <==> x in b
    ensures multiset(a) == multiset(b)
  {
    forall x ensures multiset(a)[x] == multiset(b)[x] {
      DistinctMultiset(a, x);
      DistinctMultiset(b, x);
    }
  }

  lemma {:induction false} DistinctLength<T>(s: seq<T>)
    requires Distinct(s)
    ensures |ToSet(s)| == |s|
  {
    if s != [] {
      DistinctLength(Front(s));
      assert s == Front(s) + [Last(s)];
      assert Last(s) !in Front(s);
      assert ToSet(s) == ToSet(Front(s)) + {Last(s)};
    }
  }

  lemma {:induction false} FullLengthDistinct<T>(s: seq<T>)
    requires |ToSet(s)| == |s|
    ensures Distinct(s)
  {
    if s != [] {
      assert s == Front(s) + [Last(s)];
      SetNoLonger(Front(s));
      assert ToSet(s) == ToSet(Front(s)) + {Last(s)};
      assert Last(s) !in ToSet(Front(s));
      FullLengthDistinct(Front(s));
    }
  }

  lemma {:induction false} SetNoLonger<T>(s: seq<T>)
    ensures |ToSet(s)| <= |s|
  {
    if s != [] {
      SetNoLonger(Front(s));
      assert s == Front(s) + [Last(s)];
      assert ToSet(s) == ToSet(Front(s)) + {Last(s)};
    }
  }

  lemma DistinctPermute<T>(a: seq<T>, b: seq<T>)
    requires multiset(a) == multiset(b) && Distinct(a)
    ensures Distinct(b)
  {
    assert |a| == |multiset(a)| == |multiset(b)| == |b|;
    assert forall x :: x in a <==> x in multiset(a);
    assert forall x :: x in b <==> x in multiset(b);
    assert ToSet(a) == ToSet(b);
    DistinctLength(a);
    FullLengthDistinct(b);
  }

  lemma SameMembers<T>(a: seq<T>, b: seq<T>)
    requires multiset(a) == multiset(b)
    ensures forall x :: x in a <==> x in b
  {
    assert forall x :: x in a <==> x in multiset(a);
    assert forall x :: x in b <==> x in multiset(b);
  }

  lemma FilterPermute<T(!new)>(p: T -> bool, a: seq<T>, b: seq<T>)
    requires multiset(a) == multiset(b)
    ensures multiset(Filter(p, a)) == multiset(Filter(p, b)) && |Filter(p, a)| == |Filter(p, b)|
  {
    forall x ensures multiset(Filter(p, a))[x] == multiset(Filter(p, b))[x] {
      FilterCount(p, a, x);
      FilterCount(p, b, x);
    }
    assert multiset(Filter(p, a)) == multiset(Filter(p, b));
    assert |multiset(Filter(p, a))| == |Filter(p, a)|;
  }

  // When exactly the first n elements satisfy p, filtering keeps them.
  lemma FilterByIndex<T(!new)>(p: T -> bool, s: seq<T>, n: nat)
    requires n <= |s| && forall i :: 0 <= i < |s| ==> (p(s[i]) <==> i < n)
    ensures Filter(p, s) == s[..n]
  {
    var earlier, later := s[..n], s[n..];
    assert s == earlier + later;
    FilterAppend(p, earlier, later);
    forall x | x in earlier ensures p(x) {
      var i :| 0 <= i < |earlier| && earlier[i] == x;
      assert s[i] == x;
    }
    forall x | x in later ensures !p(x) {
      var i :| 0 <= i < |later| && later[i] == x;
      assert s[n + i] == x;
    }
    FilterAll(p, earlier);
    FilterNone(p, later);
  }

  // A relation between every earlier and later element survives filtering.
  lemma {:induction false} FilterPairwise<T(!new)>(p: T -> bool, related: (T, T) -> bool, s: seq<T>)
    requires forall i, j :: 0 <= i < j < |s| ==> related(s[i], s[j])
    ensures forall i, j :: 0 <= i < j < |Filter(p, s)| ==> related(Filter(p, s)[i], Filter(p, s)[j])
  {
    if s != [] {
      var front := Front(s);
      FilterPairwise(p, related, front);
      forall x | x in Filter(p, front) ensures related(x, Last(s)) {
        var i :| 0 <= i < |front| && front[i] == x;
        assert s[i] == x;
      }
    }
  }

  lemma FilterCommute<T(!new)>(p: T -> bool, q: T -> bool, s: seq<T>)
    ensures Filter(p, Filter(q, s)) == Filter(q, Filter(p, s))
  {
    FilterFilter(p, q, Both(p, q), s);
    FilterFilter(q, p, Both(p, q), s);
  }

  lemma DistinctMapDistinct<T, U>(f: T -> U, s: seq<T>)
    requires Distinct(Map(f, s))
    ensures Distinct(s)
  {
    forall i, j | 0 <= i < j < |s| ensures s[i] != s[j] {
      assert Map(f, s)[i] != Map(f, s)[j];
    }
  }

  ghost predicate Separates<T, U>(f: T -> U, s: seq<T>) {
    forall x, y :: x in s && y in s && f(x) == f(y) ==> x == y
  }

  lemma DistinctMap<T, U>(f: T -> U, s: seq<T>)
    ensures Distinct(Map(f, s)) <==> Distinct(s) && Separates(f, s)
  {
    if Distinct(Map(f, s)) {
      DistinctMapDistinct(f, s);
      forall x, y | x in s && y in s && f(x) == f(y) ensures x == y {
        var i :| 0 <= i < |s| && s[i] == x;
        var j :| 0 <= j < |s| && s[j] == y;
        assert Map(f, s)[i] == Map(f, s)[j];
      }
    }
    if Distinct(s) && Separates(f, s) {
      forall i, j | 0 <= i < j < |s| ensures Map(f, s)[i] != Map(f, s)[j] {
        assert s[i] in s && s[j] in s && s[i] != s[j];
      }
    }
  }

  lemma HeadAndTail<T>(s: seq<T>)
    requires s != []
    ensures forall x :: x in s <==> x == s[0] || x in s[1..]
  {
    assert s == [s[0]] + s[1..];
  }

  function Hits<T, U(==)>(f: T -> U, y: U): T -> bool { (x: T) => f(x) == y }

  lemma {:induction false} MapCount<T(!new), U(!new)>(f: T -> U, s: seq<T>, y: U)
    ensures multiset(Map(f, s))[y] == |Filter(Hits(f, y), s)|
  {
    if s != [] {
      MapCount(f, Front(s), y);
      assert Map(f, s) == Map(f, Front(s)) + [f(Last(s))];
    }
  }

  lemma MapPermute<T(!new), U(!new)>(f: T -> U, a: seq<T>, b: seq<T>)
    requires multiset(a) == multiset(b)
    ensures multiset(Map(f, a)) == multiset(Map(f, b)) && |a| == |b|
  {
    assert |multiset(a)| == |multiset(b)|;
    forall y ensures multiset(Map(f, a))[y] == multiset(Map(f, b))[y] {
      MapCount(f, a, y);
      MapCount(f, b, y);
      FilterPermute(Hits(f, y), a, b);
    }
    assert multiset(Map(f, a)) == multiset(Map(f, b));
  }

  lemma MapMembers<T, U>(f: T -> U, a: seq<T>, b: seq<T>)
    requires forall x :: x in a ==> x in b
    ensures forall y :: y in Map(f, a) ==> y in Map(f, b)
  {
    forall y | y in Map(f, a) ensures y in Map(f, b) {
      var i :| 0 <= i < |a| && Map(f, a)[i] == y;
      assert a[i] in b;
      var j :| 0 <= j < |b| && b[j] == a[i];
      assert Map(f, b)[j] == y;
    }
  }

  lemma SameEmpty<T>(a: seq<T>, b: seq<T>)
    requires forall x :: x in a <==> x in b
    ensures a == [] <==> b == []
  {
    if a != [] {
      assert a[0] in b;
    }
    if b != [] {
      assert b[0] in a;
    }
  }

  lemma Listed<T, U>(f: T -> U, s: seq<T>, x: T)
    requires x in s
    ensures f(x) in Map(f, s)
  {
    var k :| 0 <= k < |s| && s[k] == x;
    assert Map(f, s)[k] == f(x);
  }
}
