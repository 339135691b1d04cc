/** Orders on strings and sorted sequences, as Go's `sort` package leaves them:
    sorted permutations whose relative order of equivalent elements is open. */
module Ordering {

  /** Byte-wise lexicographic order, Go's `<=` on strings. */
  predicate StringLe(a: string, b: string)
  {
    |a| == 0 || (|b| != 0 && (a[0] < b[0] || (a[0] == b[0] && StringLe(a[1..], b[1..]))))
  }

  predicate StringLess(a: string, b: string)
  {
    a != b && StringLe(a, b)
  }

  lemma {:induction false} StringLeTotal(a: string, b: string)
    ensures StringLe(a, b) || StringLe(b, a)
    ensures StringLe(a, b) && StringLe(b, a) ==> a == b
  {
    if |a| != 0 && |b| != 0 && a[0] == b[0] {
      StringLeTotal(a[1..], b[1..]);
      assert a == [a[0]] + a[1..] && b == [b[0]] + b[1..];
    }
  }

  lemma {:induction false} StringLeTransitive(a: string, b: string, c: string)
    requires StringLe(a, b) && StringLe(b, c)
    ensures StringLe(a, c)
  {
    if |a| != 0 && a[0] == b[0] == c[0] {
      StringLeTransitive(a[1..], b[1..], c[1..]);
    }
  }

  ghost predicate TotalOn<T(!new)>(le: (T, T) -> bool, s: set<T>)
  {
    forall x, y | x in s && y in s :: le(x, y) || le(y, x)
  }

  ghost predicate TransitiveOn<T(!new)>(le: (T, T) -> bool, s: set<T>)
  {
    forall x, y, z | x in s && y in s && z in s && le(x, y) && le(y, z) :: le(x, z)
  }

  ghost predicate AntisymmetricOn<T(!new)>(le: (T, T) -> bool, s: set<T>)
  {
    forall x, y | x in s && y in s && le(x, y) && le(y, x) :: x == y
  }

  ghost predicate Within<T(!new)>(s: seq<T>, all: set<T>)
  {
    forall i | 0 <= i < |s| :: s[i] in all
  }

  ghost predicate SortedBy<T(!new)>(le: (T, T) -> bool, s: seq<T>)
  {
    forall i, j | 0 <= i < j < |s| :: le(s[i], s[j])
  }

  /** What a call of sort.Slice promises: a permutation in order. */
  ghost predicate SortOf<T(!new)>(le: (T, T) -> bool, sorted: seq<T>, input: seq<T>)
  {
    multiset(sorted) == multiset(input) && SortedBy(le, sorted)
  }

  /** Two sorted arrangements of the same elements coincide as soon as
      elements that compare equal are equal. */
  lemma {:induction false} SortedUnique<T(!new)>(le: (T, T) -> bool, a: seq<T>, b: seq<T>, all: set<T>)
    requires multiset(a) == multiset(b)
    requires SortedBy(le, a) && SortedBy(le, b)
    requires Within(a, all) && AntisymmetricOn(le, all)
    ensures a == b
  {
    SameLength(a, b);
    if |a| != 0 {
      SortedHead(le, a, b, all);
      SameTails(a, b);
      SortedUnique(le, a[1..], b[1..], all);
      assert a == [a[0]] + a[1..] && b == [b[0]] + b[1..];
    }
  }

  lemma SameLength<T(!new)>(a: seq<T>, b: seq<T>)
    requires multiset(a) == multiset(b)
    ensures |a| == |b|
  {
    assert |multiset(a)| == |a| && |multiset(b)| == |b|;
  }

  lemma DropFirst<T(!new)>(a: seq<T>)
    requires |a| != 0
    ensures multiset(a) == multiset{a[0]} + multiset(a[1..])
  {
    assert a == [a[0]] + a[1..];
  }

  lemma SameTails<T(!new)>(a: seq<T>, b: seq<T>)
    requires multiset(a) == multiset(b) && |a| != 0 && |b| != 0 && a[0] == b[0]
    ensures multiset(a[1..]) == multiset(b[1..])
  {
    DropFirst(a);
    DropFirst(b);
    assert multiset(a[1..]) == multiset(a) - multiset{a[0]};
    assert multiset(b[1..]) == multiset(b) - multiset{b[0]};
  }

  lemma SortedHead<T(!new)>(le: (T, T) -> bool, a: seq<T>, b: seq<T>, all: set<T>)
    requires multiset(a) == multiset(b) && |a| == |b| != 0
    requires SortedBy(le, a) && SortedBy(le, b)
    requires Within(a, all) && AntisymmetricOn(le, all)
    ensures a[0] == b[0]
  {
    var x, y := a[0], b[0];
    assert x in multiset(b) && y in multiset(a);
    var i :| 0 <= i < |a| && a[i] == y;
    var j :| 0 <= j < |b| && b[j] == x;
  }

  lemma CountTwice<T>(s: seq<T>, i: nat, j: nat)
    requires i < j < |s| && s[i] == s[j]
    ensures multiset(s)[s[i]] >= 2
  {
    assert s == s[..j] + s[j..];
    assert s[i] in s[..j] && s[j] in s[j..];
  }

  lemma CountOnce<T>(s: seq<T>, p: nat)
    requires p < |s| && forall q | 0 <= q < |s| && q != p :: s[q] != s[p]
    ensures multiset(s)[s[p]] == 1
  {
    assert s == s[..p] + [s[p]] + s[p + 1..];
    assert s[p] !in s[..p] && s[p] !in s[p + 1..];
  }

  // ---- a sort ---------------------------------------------------------------

  function Insert<T>(le: (T, T) -> bool, x: T, s: seq<T>): (r: seq<T>)
    ensures multiset(r) == multiset(s) + multiset{x}
    ensures |r| == |s| + 1
  {
    if |s| == 0 then [x]
    else if le(x, s[0]) then [x] + s
    else
      assert s == [s[0]] + s[1..];
      [s[0]] + Insert(le, x, s[1..])
  }

  /** One arrangement that sort.Slice may produce. */
  function Sort<T>(le: (T, T) -> bool, s: seq<T>): (r: seq<T>)
    ensures multiset(r) == multiset(s)
    ensures |r| == |s|
  {
    if |s| == 0 then []
    else
      assert s == [s[0]] + s[1..];
      Insert(le, s[0], Sort(le, s[1..]))
  }

  lemma {:induction false} InsertSorted<T(!new)>(le: (T, T) -> bool, x: T, s: seq<T>, all: set<T>)
    requires SortedBy(le, s) && Within(s, all) && x in all
    requires TotalOn(le, all) && TransitiveOn(le, all)
    ensures SortedBy(le, Insert(le, x, s))
  {
    if |s| != 0 && !le(x, s[0]) {
      InsertSorted(le, x, s[1..], all);
      var r := Insert(le, x, s[1..]);
      forall j | 0 <= j < |r| ensures le(s[0], r[j]) {
        assert r[j] in multiset(r);
        assert r[j] == x || r[j] in s[1..];
      }
    }
  }

  lemma {:induction false} SortSorted<T(!new)>(le: (T, T) -> bool, s: seq<T>, all: set<T>)
    requires Within(s, all)
    requires TotalOn(le, all) && TransitiveOn(le, all)
    ensures SortOf(le, Sort(le, s), s)
  {
    if |s| != 0 {
      SortSorted(le, s[1..], all);
      var rest := Sort(le, s[1..]);
      forall i | 0 <= i < |rest| ensures rest[i] in all {
        assert rest[i] in multiset(rest);
        assert rest[i] in s[1..];
      }
      InsertSorted(le, s[0], rest, all);
    }
  }

  // ---- strictly sorted lists of strings -------------------------------------

  ghost predicate StrictlySorted(s: seq<string>)
  {
    forall i, j | 0 <= i < j < |s| :: StringLess(s[i], s[j])
  }

  lemma StringOrderOn(s: set<string>)
    ensures TotalOn(StringLe, s) && TransitiveOn(StringLe, s) && AntisymmetricOn(StringLe, s)
  {
    forall x, y | x in s && y in s ensures StringLe(x, y) || StringLe(y, x) { StringLeTotal(x, y); }
    forall x, y | x in s && y in s && StringLe(x, y) && StringLe(y, x) ensures x == y { StringLeTotal(x, y); }
    forall x, y, z | x in s && y in s && z in s && StringLe(x, y) && StringLe(y, z) ensures StringLe(x, z) {
      StringLeTransitive(x, y, z);
    }
  }

  /** Strictly sorted lists with the same elements are the same list. */
  lemma {:induction false} StrictlySortedUnique(a: seq<string>, b: seq<string>)
    requires StrictlySorted(a) && StrictlySorted(b)
    requires forall x :: x in a <==> x in b
    ensures a == b
  {
    StrictNoDuplicates(a);
    StrictNoDuplicates(b);
    forall x ensures multiset(a)[x] == multiset(b)[x] {
      assert x in multiset(a) <==> x in a;
      assert x in multiset(b) <==> x in b;
    }
    assert multiset(a) == multiset(b);
    var all := set x | x in a;
    StringOrderOn(all);
    SortedUnique(StringLe, a, b, all);
  }

  lemma {:induction false} StrictNoDuplicates(a: seq<string>)
    requires StrictlySorted(a)
    ensures forall x :: multiset(a)[x] <= 1
  {
    if |a| != 0 {
      StrictNoDuplicates(a[1..]);
      assert a == [a[0]] + a[1..];
      assert a[0] !in a[1..];
    }
  }

  // ---- sorting the elements of a set ----------------------------------------

  ghost predicate Distinct<T(!new)>(s: seq<T>)
  {
    forall i, j | 0 <= i < j < |s| :: s[i] != s[j]
  }

  /** Collects the elements of a set, in some order. */
  method Elements<T(==)>(s: set<T>) returns (r: seq<T>)
    ensures forall i, j | 0 <= i < j < |r| :: r[i] != r[j]
    ensures forall x :: x in r <==> x in s
  {
    r := [];
    var rest := s;
    while rest != {}
      invariant rest <= s
      invariant forall i, j | 0 <= i < j < |r| :: r[i] != r[j]
      invariant forall x :: x in r <==> x in s && x !in rest
      decreases rest
    {
      var x :| x in rest;
      rest := rest - {x};
      r := r + [x];
    }
  }

  lemma SortDistinct<T(!new)>(le: (T, T) -> bool, s: seq<T>)
    requires Distinct(s)
    ensures Distinct(Sort(le, s))
    ensures forall x :: x in Sort(le, s) <==> x in s
  {
    var r := Sort(le, s);
    forall x ensures x in r <==> x in s {
      assert x in r <==> x in multiset(r);
      assert x in s <==> x in multiset(s);
    }
    forall i, j | 0 <= i < j < |r| ensures r[i] != r[j] {
      if r[i] == r[j] {
        assert r[i] in r && r[i] in s;
        var p :| 0 <= p < |s| && s[p] == r[i];
        CountTwice(r, i, j);
        CountOnce(s, p);
      }
    }
  }

  /** sort.Strings over the elements of a set. */
  method SortedStrings(s: set<string>) returns (r: seq<string>)
    ensures StrictlySorted(r) && forall x :: x in r <==> x in s
  {
    var list := Elements(s);
    r := Sort(StringLe, list);
    SortDistinct(StringLe, list);
    StringOrderOn(s);
    SortSorted(StringLe, list, s);
  }

  /** sort.Ints over the elements of a set. */
  method SortedInts(s: set<int>) returns (r: seq<int>)
    ensures (forall i, j | 0 <= i < j < |r| :: r[i] < r[j]) && forall x :: x in r <==> x in s
  {
    var list := Elements(s);
    var le := (a: int, b: int) => a <= b;
    r := Sort(le, list);
    SortDistinct(le, list);
    SortSorted(le, list, s);
  }

  lemma HasMember<T>(s: seq<T>)
    ensures s == [] || exists x :: x in s
  {
    if s != [] {
      assert s[0] in s;
    }
  }
}
