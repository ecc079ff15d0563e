/** Ordered scans: the filter-and-sort scan of the in-memory engine, the range-bounded scan of the SlateDB engine,
    and one definition of what a scan returns that both are proved to meet. */
module Scans {
  import opened ByteStrings
  import opened Results
  import opened Sorting

  datatype Entry = Entry(key: Bytes, value: Bytes)
  datatype ScanOptions = ScanOptions(prefix: Bytes, startAfter: Bytes, limit: int, reverse: bool)

  /** `a` is met before `b` in iteration order. */
  predicate Before(a: Bytes, b: Bytes, reverse: bool) {
    if reverse then Less(b, a) else Less(a, b)
  }

  predicate Matches(k: Bytes, o: ScanOptions) {
    HasPrefix(k, o.prefix) && (o.startAfter != [] ==> Before(o.startAfter, k, o.reverse))
  }

  predicate Ordered(s: seq<Bytes>, reverse: bool) {
    forall i, j :: 0 <= i < j < |s| ==> Before(s[i], s[j], reverse)
  }

  predicate Distinct<T(==)>(s: seq<T>) {
    forall i, j :: 0 <= i < j < |s| ==> s[i] != s[j]
  }

  function Reversed<T>(s: seq<T>): (r: seq<T>)
    ensures |r| == |s| && forall i :: 0 <= i < |s| ==> r[i] == s[|s| - 1 - i]
  {
    seq(|s|, i requires 0 <= i < |s| => s[|s| - 1 - i])
  }

  function Truncated<T>(s: seq<T>, limit: int): (r: seq<T>)
    ensures forall x :: x in r ==> x in s
  {
    if 0 < limit < |s| then s[..limit] else s
  }

  function Entries(data: map<Bytes, Bytes>, keys: seq<Bytes>): (r: seq<Entry>)
    requires forall k :: k in keys ==> k in data
    ensures |r| == |keys| && forall i :: 0 <= i < |r| ==> r[i] == Entry(keys[i], data[keys[i]])
  {
    seq(|keys|, i requires 0 <= i < |keys| => Entry(keys[i], data[keys[i]]))
  }

  function KeysOf(es: seq<Entry>): (r: seq<Bytes>)
    ensures |r| == |es| && forall i :: 0 <= i < |r| ==> r[i] == es[i].key
  {
    seq(|es|, i requires 0 <= i < |es| => es[i].key)
  }

  ghost function InOrder(keys: set<Bytes>, reverse: bool): seq<Bytes> {
    if reverse then Reversed(Ascending(keys)) else Ascending(keys)
  }

  ghost function Matching(data: map<Bytes, Bytes>, o: ScanOptions): set<Bytes> {
    set k | k in data && Matches(k, o)
  }

  lemma ReversedMembers<T>(s: seq<T>)
    ensures forall x :: x in Reversed(s) <==> x in s
  {
    forall x | x in s ensures x in Reversed(s) {
      var i :| 0 <= i < |s| && s[i] == x;
      assert Reversed(s)[|s| - 1 - i] == x;
    }
  }

  lemma ReversedReversed<T>(s: seq<T>)
    ensures Reversed(Reversed(s)) == s
  {
  }

  lemma ReversedOrder(s: seq<Bytes>, reverse: bool)
    requires Ordered(s, reverse)
    ensures Ordered(Reversed(s), !reverse)
  {
  }

  lemma InOrderSorts(keys: set<Bytes>, reverse: bool)
    ensures Ordered(InOrder(keys, reverse), reverse)
    ensures forall k :: k in InOrder(keys, reverse) <==> k in keys
    ensures |InOrder(keys, reverse)| == |keys|
  {
    AscendingSorts(keys);
    if reverse {
      ReversedOrder(Ascending(keys), false);
      ReversedMembers(Ascending(keys));
    }
  }

  lemma AscendingUnique(s: seq<Bytes>, keys: set<Bytes>)
    requires Ordered(s, false) && forall k :: k in s <==> k in keys
    ensures s == Ascending(keys)
  {
    AscendingSorts(keys);
    StrictlyAscendingUnique(s, Ascending(keys));
  }

  lemma OrderedUnique(s: seq<Bytes>, keys: set<Bytes>, reverse: bool)
    requires Ordered(s, reverse) && forall k :: k in s <==> k in keys
    ensures s == InOrder(keys, reverse)
  {
    if reverse {
      ReversedOrder(s, true);
      ReversedMembers(s);
      AscendingUnique(Reversed(s), keys);
      ReversedReversed(s);
    } else {
      AscendingUnique(s, keys);
    }
  }

  /** What a scan returns: the matching keys in iteration order, cut at the limit, with their values. */
  ghost function Scan(data: map<Bytes, Bytes>, o: ScanOptions): seq<Entry> {
    InOrderSorts(Matching(data, o), o.reverse);
    Entries(data, Truncated(InOrder(Matching(data, o), o.reverse), o.limit))
  }

  /** The same by `Matches` and `Before`. */
  ghost predicate Meets(data: map<Bytes, Bytes>, o: ScanOptions, out: seq<Entry>) {
    && Ordered(KeysOf(out), o.reverse)
    && (forall e :: e in out ==> e.key in data && e.value == data[e.key] && Matches(e.key, o))
    && (o.limit > 0 ==> |out| <= o.limit)
    && (forall k :: k in data && Matches(k, o) && k !in KeysOf(out) ==>
          o.limit > 0 && |out| == o.limit && forall e :: e in out ==> Before(e.key, k, o.reverse))
  }

  /** The same, said without sorting: in order, only stored matching entries, no more than the limit, and a matching
      key that is absent was cut off by a full page of earlier keys. */
  ghost predicate IsScan(data: map<Bytes, Bytes>, o: ScanOptions, out: seq<Entry>) {
    && (forall i, j :: 0 <= i < j < |out| ==>
          if o.reverse then Less(out[j].key, out[i].key) else Less(out[i].key, out[j].key))
    && (forall e :: e in out ==> e.key in data && e.value == data[e.key] && IsAskedFor(e.key, o))
    && (o.limit > 0 ==> |out| <= o.limit)
    && (forall k :: k in data && IsAskedFor(k, o) && k !in KeysOf(out) ==>
          && o.limit > 0 && |out| == o.limit
          && forall e :: e in out ==> if o.reverse then Less(k, e.key) else Less(e.key, k))
  }

  /** Starts with the prefix, and comes after StartAfter in the direction of the scan. */
  ghost predicate IsAskedFor(k: Bytes, o: ScanOptions) {
    && (exists rest :: k == o.prefix + rest)
    && (o.startAfter == [] || (if o.reverse then Less(k, o.startAfter) else Less(o.startAfter, k)))
  }

  lemma AskedMatches(k: Bytes, o: ScanOptions)
    ensures IsAskedFor(k, o) <==> Matches(k, o)
  {
    if HasPrefix(k, o.prefix) {
      assert k == o.prefix + k[|o.prefix|..];
    }
  }

  lemma IsScanMeets(data: map<Bytes, Bytes>, o: ScanOptions, out: seq<Entry>)
    ensures IsScan(data, o, out) <==> Meets(data, o, out)
  {
    forall k ensures IsAskedFor(k, o) <==> Matches(k, o) {
      AskedMatches(k, o);
    }
    OrderedEntries(out, o.reverse);
  }

  lemma OrderedEntries(out: seq<Entry>, reverse: bool)
    ensures Ordered(KeysOf(out), reverse) <==>
            forall i, j :: 0 <= i < j < |out| ==>
              if reverse then Less(out[j].key, out[i].key) else Less(out[i].key, out[j].key)
  {
    assert Ordered(KeysOf(out), reverse) <==>
           forall i, j :: 0 <= i < j < |out| ==> Before(out[i].key, out[j].key, reverse);
  }

  /** Meeting the description is the same as being the scan. */
  lemma ScanCharacterised(data: map<Bytes, Bytes>, o: ScanOptions, out: seq<Entry>)
    ensures out == Scan(data, o) <==> IsScan(data, o, out)
  {
    IsScanMeets(data, o, out);
    MeetsCharacterised(data, o, out);
  }

  lemma SplitInOrder(front: seq<Bytes>, keys: set<Bytes>, reverse: bool)
    requires Ordered(front, reverse) && forall k :: k in front ==> k in keys
    requires forall k, f :: k in keys && k !in front && f in front ==> Before(f, k, reverse)
    ensures front <= InOrder(keys, reverse)
    ensures (forall k :: k in keys ==> k in front) <==> front == InOrder(keys, reverse)
  {
    var rest := set k | k in keys && k !in front;
    var tail := InOrder(rest, reverse);
    InOrderSorts(rest, reverse);
    InOrderSorts(keys, reverse);
    var s := front + tail;
    forall i, j | 0 <= i < j < |s| ensures Before(s[i], s[j], reverse) {
      if i < |front| <= j {
        assert s[i] in front && s[j] in tail;
      }
    }
    forall k ensures k in s <==> k in keys {
      assert k in s <==> k in front || k in tail;
    }
    OrderedUnique(s, keys, reverse);
    if rest == {} {
      assert forall k :: k in keys ==> k in front;
    } else {
      var k :| k in rest;
      assert k in keys && k !in front;
    }
  }

  lemma EntriesOfKeys(data: map<Bytes, Bytes>, out: seq<Entry>)
    requires forall e :: e in out ==> e.key in data && e.value == data[e.key]
    ensures forall k :: k in KeysOf(out) ==> k in data
    ensures Entries(data, KeysOf(out)) == out
  {
    forall k | k in KeysOf(out) ensures k in data {
      var i :| 0 <= i < |out| && KeysOf(out)[i] == k;
      assert out[i] in out;
    }
    assert forall i :: 0 <= i < |out| ==> out[i] in out;
  }

  lemma MeetsCharacterised(data: map<Bytes, Bytes>, o: ScanOptions, out: seq<Entry>)
    ensures out == Scan(data, o) <==> Meets(data, o, out)
  {
    if Meets(data, o, out) {
      EntriesOfKeys(data, out);
      var ks := KeysOf(out);
      forall k | k in ks ensures k in Matching(data, o) {
        var i :| 0 <= i < |out| && ks[i] == k;
        assert out[i] in out;
      }
      forall k, f | k in Matching(data, o) && k !in ks && f in ks ensures Before(f, k, o.reverse) {
        var i :| 0 <= i < |out| && ks[i] == f;
        assert out[i] in out;
      }
      SplitInOrder(ks, Matching(data, o), o.reverse);
      assert Truncated(InOrder(Matching(data, o), o.reverse), o.limit) == ks;
    }
    ScanMeets(data, o);
  }

  lemma ScanKeys(data: map<Bytes, Bytes>, o: ScanOptions)
    ensures KeysOf(Scan(data, o)) == Truncated(InOrder(Matching(data, o), o.reverse), o.limit)
    ensures forall e :: e in Scan(data, o) ==> e.key in Matching(data, o) && e.value == data[e.key]
  {
    var all, out := InOrder(Matching(data, o), o.reverse), Scan(data, o);
    InOrderSorts(Matching(data, o), o.reverse);
    forall e | e in out ensures e.key in Matching(data, o) && e.value == data[e.key] {
      var i :| 0 <= i < |out| && out[i] == e;
      assert all[i] in all;
    }
  }

  /** What a truncated listing leaves out comes after all that it shows. */
  lemma CutOff(all: seq<Bytes>, limit: int, reverse: bool, k: Bytes)
    requires Ordered(all, reverse) && k in all && k !in Truncated(all, limit)
    ensures 0 < limit == |Truncated(all, limit)|
    ensures forall f :: f in Truncated(all, limit) ==> Before(f, k, reverse)
  {
    var j :| 0 <= j < |all| && all[j] == k;
    var front := Truncated(all, limit);
    assert forall i :: 0 <= i < |front| ==> front[i] == all[i] && front[i] != k;
  }

  lemma ScanMeets(data: map<Bytes, Bytes>, o: ScanOptions)
    ensures Meets(data, o, Scan(data, o))
  {
    var all, out := InOrder(Matching(data, o), o.reverse), Scan(data, o);
    InOrderSorts(Matching(data, o), o.reverse);
    ScanKeys(data, o);
    MemberKeys(out);
    forall k | k in data && Matches(k, o) && k !in KeysOf(out)
      ensures o.limit > 0 && |out| == o.limit && forall e :: e in out ==> Before(e.key, k, o.reverse)
    {
      CutOff(all, o.limit, o.reverse, k);
    }
  }

  lemma OrderedConcat(a: seq<Bytes>, b: seq<Bytes>, reverse: bool)
    requires a != [] && Ordered(a, reverse) && Ordered(b, reverse)
    requires forall k :: k in b ==> Before(a[|a| - 1], k, reverse)
    ensures Ordered(a + b, reverse)
  {
    LessIsStrictOrder();
    var s := a + b;
    forall i, j | 0 <= i < j < |s| ensures Before(s[i], s[j], reverse) {
      if i < |a| <= j {
        assert s[j] in b;
        assert i < |a| - 1 ==> Before(a[i], a[|a| - 1], reverse);
      }
    }
  }

  lemma MemberKeys(es: seq<Entry>)
    ensures forall e :: e in es ==> e.key in KeysOf(es)
    ensures forall k :: k in KeysOf(es) ==> exists e :: e in es && e.key == k
  {
    forall e | e in es ensures e.key in KeysOf(es) {
      var i :| 0 <= i < |es| && es[i] == e;
      assert KeysOf(es)[i] == e.key;
    }
    forall k | k in KeysOf(es) ensures exists e :: e in es && e.key == k {
      var i :| 0 <= i < |es| && KeysOf(es)[i] == k;
      assert es[i] in es && es[i].key == k;
    }
  }

  lemma KeysOfConcat(a: seq<Entry>, b: seq<Entry>)
    ensures KeysOf(a + b) == KeysOf(a) + KeysOf(b)
  {
  }

  lemma JoinPages(data: map<Bytes, Bytes>, o: ScanOptions, page: seq<Entry>, rest: seq<Entry>)
    requires page != [] && page[|page| - 1].key != [] && Meets(data, o, page)
    requires Meets(data, o.(startAfter := page[|page| - 1].key, limit := 0), rest)
    ensures Meets(data, o.(limit := 0), page + rest)
  {
    var last := page[|page| - 1].key;
    var o1 := o.(startAfter := last, limit := 0);
    assert page[|page| - 1] in page;
    ResumedMatches(o, last);
    KeysOfConcat(page, rest);
    assert Ordered(KeysOf(page + rest), o.reverse) by {
      MemberKeys(rest);
      forall k | k in KeysOf(rest) ensures Before(last, k, o.reverse) {
        var e :| e in rest && e.key == k;
        assert Matches(e.key, o1);
      }
      OrderedConcat(KeysOf(page), KeysOf(rest), o.reverse);
    }
    forall k | k in data && Matches(k, o) ensures k in KeysOf(page) || k in KeysOf(rest) {
      if k !in KeysOf(page) {
        assert page[|page| - 1] in page && Before(last, k, o.reverse);
        assert Matches(k, o1);
      }
    }
  }

  /** Resuming after the last key of a page continues exactly where the page stopped. */
  lemma PagesCoverTheScan(data: map<Bytes, Bytes>, o: ScanOptions, page: seq<Entry>)
    requires page == Scan(data, o) && page != [] && page[|page| - 1].key != []
    ensures Scan(data, o.(limit := 0)) == page + Scan(data, o.(startAfter := page[|page| - 1].key, limit := 0))
  {
    var o1 := o.(startAfter := page[|page| - 1].key, limit := 0);
    ScanMeets(data, o);
    ScanMeets(data, o1);
    JoinPages(data, o, page, Scan(data, o1));
    MeetsCharacterised(data, o.(limit := 0), page + Scan(data, o1));
  }

  lemma ResumedMatches(o: ScanOptions, last: Bytes)
    requires Matches(last, o) && last != []
    ensures forall k :: Matches(k, o.(startAfter := last, limit := 0)) ==> Matches(k, o.(limit := 0))
    ensures forall k :: Matches(k, o) <==> Matches(k, o.(limit := 0))
  {
    LessIsStrictOrder();
  }

  // ---- storage/memory.go: filter, sort, reverse, truncate ----

  lemma {:induction false} SortDistinct(s: seq<Bytes>)
    requires Distinct(s)
    ensures StrictlyAscending(SortStrings(s))
    ensures forall k :: k in SortStrings(s) <==> k in s
  {
    if s != [] {
      assert forall k :: k in s <==> k == s[0] || k in s[1..];
      SortDistinct(s[1..]);
      InsertAscends(s[0], SortStrings(s[1..]));
    }
  }

  method ReverseKeys(keys: seq<Bytes>) returns (r: seq<Bytes>)
    ensures r == Reversed(keys)
  {
    r := keys;
    var i, j := 0, |keys| - 1;
    while i < j
      invariant 0 <= i <= |keys| && j == |keys| - 1 - i && |r| == |keys|
      invariant i <= j + 1
      invariant forall k :: 0 <= k < |keys| && (k < i || j < k) ==> r[k] == keys[|keys| - 1 - k]
      invariant forall k :: i <= k <= j ==> r[k] == keys[k]
    {
      r := r[i := r[j]][j := r[i]];
      i, j := i + 1, j - 1;
    }
  }

  /** The first loop: the matching keys, in no particular order. */
  method FilterKeys(data: map<Bytes, Bytes>, o: ScanOptions) returns (keys: seq<Bytes>)
    ensures Distinct(keys) && forall k :: k in keys <==> k in Matching(data, o)
  {
    LessIsTotal();
    keys := [];
    var todo := data.Keys;
    while todo != {}
      invariant todo <= data.Keys && Distinct(keys)
      invariant forall k :: k in keys <==> k in data && k !in todo && Matches(k, o)
      decreases todo
    {
      var k :| k in todo;
      todo := todo - {k};
      if o.prefix != [] && !HasPrefix(k, o.prefix) {
        continue;
      }
      if o.startAfter != [] {
        if (!o.reverse && AtMost(k, o.startAfter)) || (o.reverse && AtMost(o.startAfter, k)) {
          continue;
        }
      }
      keys := keys + [k];
    }
  }

  /** The last loop: the keys with their values. */
  method CollectEntries(data: map<Bytes, Bytes>, keys: seq<Bytes>) returns (out: seq<Entry>)
    requires forall k :: k in keys ==> k in data
    ensures out == Entries(data, keys)
  {
    out := [];
    for i := 0 to |keys|
      invariant |out| == i
      invariant forall j :: 0 <= j < i ==> out[j] == Entry(keys[j], data[keys[j]])
    {
      out := out + [Entry(keys[i], data[keys[i]])];
    }
  }

  method ScanEntries(data: map<Bytes, Bytes>, o: ScanOptions) returns (out: seq<Entry>)
    ensures out == Scan(data, o) && IsScan(data, o, out)
  {
    var keys := FilterKeys(data, o);
    SortDistinct(keys);
    keys := SortStrings(keys);
    AscendingUnique(keys, Matching(data, o));
    if o.reverse {
      keys := ReverseKeys(keys);
    }
    InOrderSorts(Matching(data, o), o.reverse);
    if o.limit > 0 && |keys| > o.limit {
      keys := keys[..o.limit];
    }
    assert keys == Truncated(InOrder(Matching(data, o), o.reverse), o.limit);
    out := CollectEntries(data, keys);
    ScanCharacterised(data, o, out);
  }

  // ---- storage/slatedb.go: range bounds and the filtering iterator ----

  function Repeat(b: byte, n: nat): (r: Bytes)
    ensures |r| == n && forall i :: 0 <= i < n ==> r[i] == b
  {
    seq(n, _ => b)
  }

  /** `x` lies above every string that starts with `prefix`. */
  ghost predicate AboveAll(x: Bytes, prefix: Bytes) {
    forall s: Bytes :: HasPrefix(s, prefix) ==> Less(s, x)
  }

  /** Where `prefixSuccessor` cuts: the last byte below 0xFF, or -1. */
  function CutAt(prefix: Bytes): (i: int)
    ensures -1 <= i < |prefix|
    ensures i >= 0 ==> prefix[i] != 0xFF
    ensures forall j :: i < j < |prefix| ==> prefix[j] == 0xFF
  {
    if prefix == [] then -1
    else if prefix[|prefix| - 1] != 0xFF then |prefix| - 1
    else CutAt(prefix[..|prefix| - 1])
  }

  lemma {:induction false} BelowManyFFs(x: Bytes, n: nat)
    requires n > |x|
    ensures Less(x, Repeat(0xFF, n))
  {
    if x != [] {
      BelowManyFFs(x[1..], n - 1);
      assert Repeat(0xFF, n)[1..] == Repeat(0xFF, n - 1);
    }
  }

  /** Anything below the successor is reached by a long enough string with the prefix. */
  lemma {:induction false} BelowSuccessor(x: Bytes, front: Bytes, c: byte, n: nat)
    requires c < 0xFF && n > |x| && Less(x, front + [c + 1])
    ensures Less(x, front + [c] + Repeat(0xFF, n))
  {
    var hi := front + [c] + Repeat(0xFF, n);
    if front == [] {
      if x != [] && x[0] == c {
        BelowManyFFs(x[1..], n);
        assert hi[1..] == Repeat(0xFF, n);
      }
    } else if x != [] && x[0] == front[0] {
      assert (front + [c + 1])[1..] == front[1..] + [c + 1];
      BelowSuccessor(x[1..], front[1..], c, n);
      assert hi[1..] == front[1..] + [c] + Repeat(0xFF, n);
    }
  }

  lemma PrefixedBelowSuccessor(s: Bytes, front: Bytes, c: byte, prefix: Bytes)
    requires c < 0xFF && front + [c] <= prefix && HasPrefix(s, prefix)
    ensures Less(s, front + [c + 1])
  {
    assert s[..|front| + 1] == prefix[..|front| + 1] == front + [c];
    assert s == front + s[|front|..] && s[|front|] == c;
    LessUnderPrefix(front, s[|front|..], [c + 1]);
  }

  lemma OnlyFFsHaveNoBound(x: Bytes, prefix: Bytes)
    requires CutAt(prefix) < 0
    ensures !AboveAll(x, prefix)
  {
    LessIsStrictOrder();
    var reach := prefix + Repeat(0xFF, |x| + 1);
    assert HasPrefix(reach, prefix) && reach == Repeat(0xFF, |reach|);
    BelowManyFFs(x, |reach|);
  }

  lemma BelowSuccessorIsNotAbove(x: Bytes, front: Bytes, c: byte, prefix: Bytes)
    requires 0 <= CutAt(prefix) && front == prefix[..CutAt(prefix)] && c == prefix[CutAt(prefix)]
    requires Less(x, front + [c + 1])
    ensures !AboveAll(x, prefix)
  {
    LessIsStrictOrder();
    var reach := prefix + Repeat(0xFF, |x| + 1);
    assert HasPrefix(reach, prefix);
    var n := |prefix| - |front| + |x|;
    BelowSuccessor(x, front, c, n);
    assert prefix[..|front| + 1] == front + [c];
    assert reach == front + [c] + Repeat(0xFF, n);
  }

  lemma FromSuccessorIsAbove(x: Bytes, front: Bytes, c: byte, prefix: Bytes)
    requires c < 0xFF && front + [c] <= prefix && AtMost(front + [c + 1], x)
    ensures AboveAll(x, prefix)
  {
    forall s: Bytes | HasPrefix(s, prefix) ensures Less(s, x) {
      PrefixedBelowSuccessor(s, front, c, prefix);
      LessIsStrictOrder();
    }
  }

  lemma SuccessorIsLeast(prefix: Bytes)
    ensures CutAt(prefix) < 0 ==> forall x: Bytes :: !AboveAll(x, prefix)
    ensures CutAt(prefix) >= 0 ==>
              var u := prefix[..CutAt(prefix)] + [prefix[CutAt(prefix)] + 1];
              forall x: Bytes :: AboveAll(x, prefix) <==> AtMost(u, x)
  {
    var i := CutAt(prefix);
    forall x: Bytes
      ensures i < 0 ==> !AboveAll(x, prefix)
      ensures i >= 0 ==> (AboveAll(x, prefix) <==> AtMost(prefix[..i] + [prefix[i] + 1], x))
    {
      if i < 0 {
        OnlyFFsHaveNoBound(x, prefix);
      } else {
        var front, c := prefix[..i], prefix[i];
        assert prefix[..i + 1] == front + [c];
        LessTrichotomy(x, front + [c + 1]);
        if Less(x, front + [c + 1]) {
          BelowSuccessorIsNotAbove(x, front, c, prefix);
        } else {
          FromSuccessorIsAbove(x, front, c, prefix);
        }
      }
    }
  }

  /** Copies the prefix up to its last byte below 0xFF and increments that byte. */
  method PrefixSuccessor(prefix: Bytes) returns (r: Option<Bytes>)
    ensures r.None? ==> forall x: Bytes :: !AboveAll(x, prefix)
    ensures r.Some? ==> forall x: Bytes :: AboveAll(x, prefix) <==> AtMost(r.value, x)
    ensures r.None? <==> forall j :: 0 <= j < |prefix| ==> prefix[j] == 0xFF
    ensures r == Successor(prefix)
  {
    SuccessorIsLeast(prefix);
    var i := |prefix| - 1;
    while i >= 0
      invariant -1 <= i < |prefix|
      invariant CutAt(prefix) == CutAt(prefix[..i + 1])
    {
      assert prefix[..i + 1][..i] == prefix[..i];
      if prefix[i] != 0xFF {
        var out := new byte[i + 1](j requires 0 <= j <= i => prefix[j]);
        out[i] := out[i] + 1;
        assert out[..] == prefix[..i] + [prefix[i] + 1];
        return Some(out[..]);
      }
      i := i - 1;
    }
    return None;
  }

  function Successor(prefix: Bytes): Option<Bytes> {
    var i := CutAt(prefix);
    if i < 0 then None else Some(prefix[..i] + [prefix[i] + 1])
  }

  datatype KeyRange = KeyRange(start: Option<Bytes>, startInclusive: bool, end: Option<Bytes>, endInclusive: bool)

  predicate InRange(k: Bytes, kr: KeyRange) {
    && (kr.start.Some? ==> if kr.startInclusive then AtMost(kr.start.value, k) else Less(kr.start.value, k))
    && (kr.end.Some? ==> if kr.endInclusive then AtMost(k, kr.end.value) else Less(k, kr.end.value))
  }

  /** The bounds hold every matching key; a StartAfter overwrites the bound on the side it resumes from. */
  method RangeFor(prefix: Bytes, startAfter: Bytes, reverse: bool) returns (kr: KeyRange)
    ensures forall k, limit :: Matches(k, ScanOptions(prefix, startAfter, limit, reverse)) ==> InRange(k, kr)
    ensures startAfter == [] ==> forall k :: InRange(k, kr) <==> HasPrefix(k, prefix)
    ensures startAfter != [] && reverse ==> forall k :: InRange(k, kr) <==> AtMost(prefix, k) && Less(k, startAfter)
    ensures startAfter != [] && !reverse ==>
              forall k :: InRange(k, kr) <==>
                Less(startAfter, k) && (Successor(prefix).Some? ==> Less(k, Successor(prefix).value))
  {
    LessIsTotal();
    kr := KeyRange(None, false, None, false);
    if prefix != [] {
      kr := kr.(start := Some(prefix), startInclusive := true);
      var upper := PrefixSuccessor(prefix);
      if upper.Some? {
        kr := kr.(end := upper, endInclusive := false);
      }
    }
    forall k ensures InRange(k, kr) <==> HasPrefix(k, prefix) {
      PrefixIsRange(k, prefix);
    }
    if startAfter != [] {
      if reverse {
        kr := kr.(end := Some(startAfter), endInclusive := false);
      } else {
        kr := kr.(start := Some(startAfter), startInclusive := false);
      }
    }
  }

  ghost predicate DivergesAt(k: Bytes, prefix: Bytes, i: nat) {
    i < |prefix| && i < |k| && prefix[..i] == k[..i] && prefix[i] < k[i]
  }

  lemma {:induction false} FromPrefixOn(k: Bytes, prefix: Bytes)
    requires AtMost(prefix, k)
    ensures HasPrefix(k, prefix) || exists i :: DivergesAt(k, prefix, i)
  {
    if prefix != [] && k != [] {
      if prefix[0] == k[0] {
        assert prefix == [prefix[0]] + prefix[1..] && k == [k[0]] + k[1..];
        FromPrefixOn(k[1..], prefix[1..]);
        if HasPrefix(k[1..], prefix[1..]) {
          assert k[..|prefix|] == [k[0]] + k[1..][..|prefix| - 1];
        } else {
          var i: nat :| DivergesAt(k[1..], prefix[1..], i);
          assert prefix[..i + 1] == [prefix[0]] + prefix[1..][..i] && k[..i + 1] == [k[0]] + k[1..][..i];
          assert DivergesAt(k, prefix, i + 1);
        }
      } else {
        assert DivergesAt(k, prefix, 0);
      }
    }
  }

  lemma PrefixComesFirst(k: Bytes, prefix: Bytes)
    requires HasPrefix(k, prefix)
    ensures AtMost(prefix, k)
  {
    assert k == prefix + k[|prefix|..] && prefix == prefix + [];
    LessUnderPrefix(prefix, [], k[|prefix|..]);
  }

  /** A key that departs upwards from a prefix lies above all strings with it. */
  lemma DivergedIsAbove(k: Bytes, prefix: Bytes, i: nat, s: Bytes)
    requires DivergesAt(k, prefix, i) && HasPrefix(s, prefix)
    ensures Less(s, k)
  {
    assert s[..i] == prefix[..i] && s[i] == prefix[i];
    assert s == s[..i] + s[i..] && k == s[..i] + k[i..];
    LessUnderPrefix(s[..i], s[i..], k[i..]);
  }

  lemma AboveOrPrefixed(k: Bytes, prefix: Bytes)
    requires AtMost(prefix, k) && !HasPrefix(k, prefix)
    ensures AboveAll(k, prefix)
  {
    FromPrefixOn(k, prefix);
    var i: nat :| DivergesAt(k, prefix, i);
    forall s: Bytes | HasPrefix(s, prefix) ensures Less(s, k) {
      DivergedIsAbove(k, prefix, i, s);
    }
  }

  lemma PrefixedIsBelow(k: Bytes, prefix: Bytes, u: Bytes)
    requires HasPrefix(k, prefix) && AboveAll(u, prefix)
    ensures Less(k, u)
  {
  }

  /** The keys with a prefix are exactly an interval. */
  lemma PrefixIsRange(k: Bytes, prefix: Bytes)
    ensures HasPrefix(k, prefix) <==>
              AtMost(prefix, k) && (Successor(prefix).Some? ==> Less(k, Successor(prefix).value))
  {
    SuccessorIsLeast(prefix);
    if HasPrefix(k, prefix) {
      PrefixComesFirst(k, prefix);
      if Successor(prefix).Some? {
        PrefixedIsBelow(k, prefix, Successor(prefix).value);
      }
    } else if AtMost(prefix, k) {
      AboveOrPrefixed(k, prefix);
      if Successor(prefix).Some? {
        LessTrichotomy(Successor(prefix).value, k);
      }
    }
  }

  /** The engine's iterator: the stored keys inside the range, in iteration order. */
  ghost function RangeEntries(data: map<Bytes, Bytes>, kr: KeyRange, reverse: bool): seq<Entry> {
    var keys := set k | k in data && InRange(k, kr);
    InOrderSorts(keys, reverse);
    Entries(data, InOrder(keys, reverse))
  }

  function Kept(es: seq<Entry>, o: ScanOptions): seq<Entry> {
    if es == [] then [] else
      var e := es[|es| - 1];
      Kept(es[..|es| - 1], o) + if Matches(e.key, o) then [e] else []
  }

  lemma {:induction false} KeptMembers(es: seq<Entry>, o: ScanOptions)
    ensures forall e :: e in Kept(es, o) <==> e in es && Matches(e.key, o)
  {
    if es != [] {
      KeptMembers(es[..|es| - 1], o);
      assert es == es[..|es| - 1] + [es[|es| - 1]];
    }
  }

  lemma AppendOrdered(front: seq<Bytes>, k: Bytes, reverse: bool)
    requires Ordered(front, reverse) && forall f :: f in front ==> Before(f, k, reverse)
    ensures Ordered(front + [k], reverse)
  {
  }

  lemma LastComesLast(es: seq<Entry>, reverse: bool)
    requires es != [] && Ordered(KeysOf(es), reverse)
    ensures Ordered(KeysOf(es[..|es| - 1]), reverse)
    ensures forall e :: e in es[..|es| - 1] ==> Before(e.key, es[|es| - 1].key, reverse)
  {
    var front, ks := es[..|es| - 1], KeysOf(es);
    assert KeysOf(front) == ks[..|es| - 1];
    forall e | e in front ensures Before(e.key, es[|es| - 1].key, reverse) {
      var n :| 0 <= n < |front| && front[n] == e;
      assert Before(ks[n], ks[|es| - 1], reverse);
    }
  }

  lemma {:induction false} KeptOrdered(es: seq<Entry>, o: ScanOptions)
    requires Ordered(KeysOf(es), o.reverse)
    ensures Ordered(KeysOf(Kept(es, o)), o.reverse)
  {
    if es != [] {
      var front, e := es[..|es| - 1], es[|es| - 1];
      LastComesLast(es, o.reverse);
      KeptOrdered(front, o);
      if Matches(e.key, o) {
        KeptMembers(front, o);
        MemberKeys(Kept(front, o));
        AppendOrdered(KeysOf(Kept(front, o)), e.key, o.reverse);
        assert KeysOf(Kept(es, o)) == KeysOf(Kept(front, o)) + [e.key];
      }
    }
  }

  lemma {:induction false} KeptPrefix(es: seq<Entry>, n: nat, o: ScanOptions)
    requires n <= |es|
    ensures Kept(es[..n], o) <= Kept(es, o)
    decreases |es|
  {
    if n < |es| {
      KeptPrefix(es[..|es| - 1], n, o);
      assert es[..|es| - 1][..n] == es[..n];
    } else {
      assert es[..n] == es;
    }
  }

  lemma RangeMembers(data: map<Bytes, Bytes>, kr: KeyRange, reverse: bool)
    ensures var es := RangeEntries(data, kr, reverse);
            Ordered(KeysOf(es), reverse)
            && forall k, v :: Entry(k, v) in es <==> k in data && InRange(k, kr) && v == data[k]
  {
    var keys := set k | k in data && InRange(k, kr);
    InOrderSorts(keys, reverse);
    var es := RangeEntries(data, kr, reverse);
    var ks := InOrder(keys, reverse);
    assert KeysOf(es) == ks;
    forall k, v ensures Entry(k, v) in es <==> k in data && InRange(k, kr) && v == data[k] {
      if Entry(k, v) in es {
        var i :| 0 <= i < |es| && es[i] == Entry(k, v);
        assert ks[i] in keys;
      }
      if k in keys && v == data[k] {
        var i :| 0 <= i < |ks| && ks[i] == k;
        assert es[i] == Entry(k, v);
      }
    }
  }

  /** All that a scan keeps of a range holding every matching key is the unlimited scan. */
  lemma KeptIsScan(data: map<Bytes, Bytes>, kr: KeyRange, o: ScanOptions)
    requires forall k :: Matches(k, o) ==> InRange(k, kr)
    ensures Kept(RangeEntries(data, kr, o.reverse), o) == Scan(data, o.(limit := 0))
  {
    var es := RangeEntries(data, kr, o.reverse);
    RangeMembers(data, kr, o.reverse);
    KeptMembers(es, o);
    KeptOrdered(es, o);
    var out := Kept(es, o);
    MemberKeys(out);
    forall e | e in out ensures e.key in data && e.value == data[e.key] && Matches(e.key, o) {
      assert e == Entry(e.key, e.value);
    }
    forall k | k in data && Matches(k, o) ensures k in KeysOf(out) {
      assert Entry(k, data[k]) in es;
    }
    assert forall k :: Matches(k, o) <==> Matches(k, o.(limit := 0));
    MeetsCharacterised(data, o.(limit := 0), out);
  }

  lemma LimitTruncates(data: map<Bytes, Bytes>, o: ScanOptions)
    ensures Scan(data, o) == Truncated(Scan(data, o.(limit := 0)), o.limit)
  {
    assert Matching(data, o) == Matching(data, o.(limit := 0));
  }

  /** Stands for the engine's iterator, which is not modelled further. */
  method OpenIterator(data: map<Bytes, Bytes>, kr: KeyRange, reverse: bool) returns (iter: seq<Entry>)
    ensures iter == RangeEntries(data, kr, reverse)
  {
    var keys: seq<Bytes> := [];
    var todo := data.Keys;
    while todo != {}
      invariant todo <= data.Keys && Distinct(keys)
      invariant forall k :: k in keys <==> k in data && k !in todo && InRange(k, kr)
      decreases todo
    {
      var k :| k in todo;
      todo := todo - {k};
      if InRange(k, kr) {
        keys := keys + [k];
      }
    }
    SortDistinct(keys);
    keys := SortStrings(keys);
    OrderedUnique(keys, (set k | k in data && InRange(k, kr)), false);
    InOrderSorts((set k | k in data && InRange(k, kr)), reverse);
    if reverse {
      keys := ReverseKeys(keys);
    }
    iter := Entries(data, keys);
  }

  /** Filters the iterator's entries and stops at a full page. */
  method ScanWith(iter: seq<Entry>, o: ScanOptions) returns (out: seq<Entry>)
    ensures out == Truncated(Kept(iter, o), o.limit)
  {
    LessIsTotal();
    out := [];
    var i := 0;
    while i < |iter|
      invariant 0 <= i <= |iter|
      invariant out == Kept(iter[..i], o)
      invariant o.limit > 0 ==> |out| < o.limit
    {
      var e := iter[i];
      i := i + 1;
      assert iter[..i][..i - 1] == iter[..i - 1];
      KeptPrefix(iter, i, o);
      if o.prefix != [] && !HasPrefix(e.key, o.prefix) {
        continue;
      }
      if o.startAfter != [] {
        if (!o.reverse && AtMost(e.key, o.startAfter)) || (o.reverse && AtMost(o.startAfter, e.key)) {
          continue;
        }
      }
      out := out + [e];
      if o.limit > 0 && |out| >= o.limit {
        return;
      }
    }
    assert iter[..i] == iter;
  }

  /** The range-bounded scan returns exactly what the filter-and-sort scan returns. */
  method SlateScan(data: map<Bytes, Bytes>, o: ScanOptions) returns (out: seq<Entry>)
    ensures out == Scan(data, o) && IsScan(data, o, out)
  {
    var kr := RangeFor(o.prefix, o.startAfter, o.reverse);
    var iter := OpenIterator(data, kr, o.reverse);
    out := ScanWith(iter, o);
    assert o == ScanOptions(o.prefix, o.startAfter, o.limit, o.reverse);
    KeptIsScan(data, kr, o);
    LimitTruncates(data, o);
    ScanCharacterised(data, o, out);
  }
}
