/** Sorting as the library sorts are used here: a result that is ordered and a permutation of its input. */
module Sorting {
  import opened ByteStrings

  ghost predicate Preorder<T(!new)>(le: (T, T) -> bool) {
    && (forall x, y :: le(x, y) || le(y, x))
    && (forall x, y, z :: le(x, y) && le(y, z) ==> le(x, z))
  }

  predicate Sorted<T>(le: (T, T) -> bool, s: seq<T>) {
    forall i, j :: 0 <= i < j < |s| ==> le(s[i], s[j])
  }

  /** No two different members of `s` are tied. */
  ghost predicate NoTies<T(!new)>(le: (T, T) -> bool, s: seq<T>) {
    forall x, y :: x in s && y in s && le(x, y) && le(y, x) ==> x == y
  }

  function Insert<T>(le: (T, T) -> bool, x: T, s: seq<T>): seq<T> {
    if s == [] || le(x, s[0]) then [x] + s else [s[0]] + Insert(le, x, s[1..])
  }

  function Sort<T>(le: (T, T) -> bool, s: seq<T>): seq<T> {
    if s == [] then [] else Insert(le, s[0], Sort(le, s[1..]))
  }

  lemma {:induction false} InsertPermutes<T>(le: (T, T) -> bool, x: T, s: seq<T>)
    ensures multiset(Insert(le, x, s)) == multiset(s) + multiset{x}
    ensures forall y :: y in Insert(le, x, s) <==> y == x || y in s
  {
    if s != [] && !le(x, s[0]) {
      InsertPermutes(le, x, s[1..]);
      assert s == [s[0]] + s[1..];
    }
  }

  lemma {:induction false} InsertSorts<T(!new)>(le: (T, T) -> bool, x: T, s: seq<T>)
    requires Preorder(le) && Sorted(le, s)
    ensures Sorted(le, Insert(le, x, s))
  {
    if s != [] {
      if !le(x, s[0]) {
        InsertSorts(le, x, s[1..]);
        InsertPermutes(le, x, s[1..]);
        var r := Insert(le, x, s[1..]);
        forall j | 0 <= j < |r| ensures le(s[0], r[j]) {
          assert r[j] in r;
        }
      } else {
        forall j | 0 <= j < |s| ensures le(x, s[j]) {
          assert j > 0 ==> le(s[0], s[j]);
        }
      }
    }
  }

  lemma {:induction false} SortPermutes<T>(le: (T, T) -> bool, s: seq<T>)
    ensures multiset(Sort(le, s)) == multiset(s)
    ensures |Sort(le, s)| == |s|
  {
    if s != [] {
      SortPermutes(le, s[1..]);
      InsertPermutes(le, s[0], Sort(le, s[1..]));
      assert s == [s[0]] + s[1..];
    }
    assert |multiset(Sort(le, s))| == |multiset(s)|;
  }

  lemma {:induction false} SortSorts<T(!new)>(le: (T, T) -> bool, s: seq<T>)
    requires Preorder(le)
    ensures Sorted(le, Sort(le, s))
    ensures multiset(Sort(le, s)) == multiset(s)
    ensures |Sort(le, s)| == |s|
  {
    SortPermutes(le, s);
    if s != [] {
      SortSorts(le, s[1..]);
      InsertSorts(le, s[0], Sort(le, s[1..]));
    }
  }

  lemma SameTails<T>(a: seq<T>, b: seq<T>)
    requires a != [] && b != [] && a[0] == b[0] && multiset(a) == multiset(b)
    ensures multiset(a[1..]) == multiset(b[1..])
  {
    assert a == [a[0]] + a[1..] && b == [b[0]] + b[1..];
    assert multiset(a[1..]) == multiset(a) - multiset{a[0]};
  }

  lemma SameHeads<T(!new)>(le: (T, T) -> bool, a: seq<T>, b: seq<T>)
    requires Sorted(le, a) && Sorted(le, b) && multiset(a) == multiset(b) && a != []
    requires Preorder(le) && NoTies(le, a)
    ensures b != [] && a[0] == b[0]
  {
    assert a[0] in multiset(b);
    var i :| 0 <= i < |b| && b[i] == a[0];
    assert b[0] in multiset(a);
    var j :| 0 <= j < |a| && a[j] == b[0];
    assert le(a[0], a[j]) && le(b[0], b[i]);
  }

  lemma {:induction false} SortedUnique<T(!new)>(le: (T, T) -> bool, a: seq<T>, b: seq<T>)
    requires Sorted(le, a) && Sorted(le, b) && multiset(a) == multiset(b)
    requires Preorder(le) && NoTies(le, a)
    ensures a == b
  {
    assert |multiset(a)| == |multiset(b)|;
    if a != [] {
      SameHeads(le, a, b);
      SameTails(a, b);
      SortedUnique(le, a[1..], b[1..]);
      assert a == [a[0]] + a[1..] && b == [b[0]] + b[1..];
    }
  }

  /** Sorting forgets the order of its input. */
  lemma SortIgnoresOrder<T(!new)>(le: (T, T) -> bool, a: seq<T>, b: seq<T>)
    requires Preorder(le) && multiset(a) == multiset(b) && NoTies(le, a)
    ensures Sort(le, a) == Sort(le, b)
  {
    SortSorts(le, a);
    SortSorts(le, b);
    forall x | x in Sort(le, a) ensures x in a {
      assert x in multiset(Sort(le, a));
    }
    SortedUnique(le, Sort(le, a), Sort(le, b));
  }

  /** `sort.Strings`. */
  function SortStrings(s: seq<Bytes>): seq<Bytes> {
    Sort(AtMost, s)
  }

  lemma StringOrder()
    ensures Preorder(AtMost)
    ensures forall s: seq<Bytes> :: NoTies(AtMost, s)
  {
    LessIsStrictOrder();
  }

  lemma SortStringsIgnoresOrder(a: seq<Bytes>, b: seq<Bytes>)
    ensures SortStrings(a) == SortStrings(b) <==> multiset(a) == multiset(b)
    ensures multiset(SortStrings(a)) == multiset(a)
    ensures SortStrings(SortStrings(a)) == SortStrings(a)
    ensures Sorted(AtMost, SortStrings(a))
  {
    StringOrder();
    SortSorts(AtMost, a);
    SortSorts(AtMost, b);
    if multiset(a) == multiset(b) {
      SortIgnoresOrder(AtMost, a, b);
    }
    SortIgnoresOrder(AtMost, SortStrings(a), a);
  }

  /** The members of a finite set of strings, ascending. */
  ghost function Ascending(s: set<Bytes>): seq<Bytes> {
    if s == {} then [] else
      var x :| x in s;
      Insert(AtMost, x, Ascending(s - {x}))
  }

  predicate StrictlyAscending(s: seq<Bytes>) {
    forall i, j :: 0 <= i < j < |s| ==> Less(s[i], s[j])
  }

  lemma {:induction false} InsertAscends(x: Bytes, s: seq<Bytes>)
    requires StrictlyAscending(s) && x !in s
    ensures StrictlyAscending(Insert(AtMost, x, s))
    ensures forall y :: y in Insert(AtMost, x, s) <==> y == x || y in s
    ensures |Insert(AtMost, x, s)| == |s| + 1
  {
    LessIsStrictOrder();
    if s != [] && !AtMost(x, s[0]) {
      InsertAscends(x, s[1..]);
      var r := Insert(AtMost, x, s[1..]);
      assert forall y :: y in s <==> y == s[0] || y in s[1..];
      forall j | 0 <= j < |r| ensures Less(s[0], r[j]) {
        assert r[j] in r;
      }
    }
  }

  lemma {:induction false} AscendingSorts(s: set<Bytes>)
    ensures StrictlyAscending(Ascending(s))
    ensures forall x :: x in Ascending(s) <==> x in s
    ensures |Ascending(s)| == |s|
    decreases s
  {
    if s != {} {
      var x :| x in s && Ascending(s) == Insert(AtMost, x, Ascending(s - {x}));
      AscendingSorts(s - {x});
      InsertAscends(x, Ascending(s - {x}));
    }
  }

  lemma HasMember<T>(s: seq<T>)
    ensures s == [] || exists x :: x in s
  {
    if s != [] {
      assert s[0] in s;
    }
  }

  lemma {:induction false} StrictlyAscendingUnique(a: seq<Bytes>, b: seq<Bytes>)
    requires StrictlyAscending(a) && StrictlyAscending(b)
    requires forall x :: x in a <==> x in b
    ensures a == b
  {
    if a == [] {
      HasMember(b);
    } else {
      LessIsStrictOrder();
      assert a[0] in b && b[0] in a;
      assert forall y :: y in a <==> y == a[0] || y in a[1..];
      assert forall y :: y in b <==> y == b[0] || y in b[1..];
      StrictlyAscendingUnique(a[1..], b[1..]);
      assert a == [a[0]] + a[1..] && b == [b[0]] + b[1..];
    }
  }
}
