/** Tree nodes and their canonical encoding, the preimage of the content address. */
module Nodes {
  import opened ByteStrings
  import opened Results
  import opened Sorting

  datatype Node = Node(name: Bytes, leaf: bool, blobs: seq<Bytes>, children: seq<Bytes>)

  /** A node as it is stored: both lists sorted. */
  function Normal(n: Node): Node {
    n.(blobs := SortStrings(n.blobs), children := SortStrings(n.children))
  }

  function Tagged(tag: byte, items: seq<Bytes>): Bytes {
    if items == [] then [] else [tag] + items[0] + Tagged(tag, items[1..])
  }

  function Encoded(n: Node): Bytes {
    n.name + [0] + [if n.leaf then 1 else 0] + Tagged(2, SortStrings(n.blobs)) + Tagged(3, SortStrings(n.children))
  }

  lemma {:induction false} TaggedAppend(tag: byte, items: seq<Bytes>, i: nat)
    requires i < |items|
    ensures Tagged(tag, items[..i + 1]) == Tagged(tag, items[..i]) + [tag] + items[i]
  {
    if i > 0 {
      TaggedAppend(tag, items[1..], i - 1);
      assert items[..i + 1][1..] == items[1..][..i] && items[..i][1..] == items[1..][..i - 1];
    } else {
      assert items[..1] == [items[0]];
    }
  }

  method WriteTagged(buf: Bytes, tag: byte, items: seq<Bytes>) returns (r: Bytes)
    ensures r == buf + Tagged(tag, items)
  {
    r := buf;
    for i := 0 to |items|
      invariant r == buf + Tagged(tag, items[..i])
    {
      TaggedAppend(tag, items, i);
      r := r + [tag];
      r := r + items[i];
    }
    assert items[..|items|] == items;
  }

  method Canonical(n: Node) returns (buf: Bytes)
    ensures buf == Encoded(n)
  {
    buf := n.name;
    buf := buf + [0];
    if n.leaf {
      buf := buf + [1];
    } else {
      buf := buf + [0];
    }
    buf := WriteTagged(buf, 2, SortStrings(n.blobs));
    buf := WriteTagged(buf, 3, SortStrings(n.children));
  }

  // ---- Reading an encoding back ----

  /** A byte that the encoding itself uses between its parts. */
  predicate Separator(b: byte) {
    b == 0 || b == 2 || b == 3
  }

  predicate Plain(s: Bytes) {
    forall i :: 0 <= i < |s| ==> !Separator(s[i])
  }

  predicate AllPlain(items: seq<Bytes>) {
    forall e :: e in items ==> Plain(e)
  }

  /** No listed hash or child ID holds a separator. The name may hold any bytes. */
  predicate PlainNode(n: Node) {
    AllPlain(n.blobs) && AllPlain(n.children)
  }

  predicate HexDigit(b: byte) {
    0x30 <= b <= 0x39 || 0x61 <= b <= 0x66
  }

  predicate Hex(s: Bytes) {
    forall i :: 0 <= i < |s| ==> HexDigit(s[i])
  }

  /** Every listed hash and child ID is a hex string, as `hex.EncodeToString` produces. */
  predicate HexNode(n: Node) {
    (forall b :: b in n.blobs ==> Hex(b)) && (forall c :: c in n.children ==> Hex(c))
  }

  lemma HexIsPlain(n: Node)
    requires HexNode(n)
    ensures PlainNode(n)
  {
    forall e | e in n.blobs || e in n.children ensures Plain(e) {
      assert Hex(e);
    }
  }

  function LastZero(s: Bytes): (i: int)
    ensures -1 <= i < |s|
  {
    if s == [] then -1 else if s[|s| - 1] == 0 then |s| - 1 else LastZero(s[..|s| - 1])
  }

  function PlainRun(s: Bytes): (n: nat)
    ensures n <= |s|
  {
    if s == [] || Separator(s[0]) then 0 else 1 + PlainRun(s[1..])
  }

  function ReadTagged(tag: byte, s: Bytes): (r: (seq<Bytes>, Bytes))
    decreases |s|
  {
    if s == [] || s[0] != tag then ([], s) else
      var n := PlainRun(s[1..]);
      var (items, rest) := ReadTagged(tag, s[1 + n..]);
      ([s[1..][..n]] + items, rest)
  }

  function ReadLists(s: Bytes): (seq<Bytes>, seq<Bytes>) {
    var (blobs, more) := ReadTagged(2, s);
    (blobs, ReadTagged(3, more).0)
  }

  /** The last zero byte is the flag of an inner node, or the separator before the flag of a leaf. */
  function Decode(s: Bytes): Option<Node> {
    var i := LastZero(s);
    if 0 <= i < |s| - 1 && s[i + 1] == 1 then
      Some(Node(s[..i], true, ReadLists(s[i + 2..]).0, ReadLists(s[i + 2..]).1))
    else if 1 <= i then
      Some(Node(s[..i - 1], false, ReadLists(s[i + 1..]).0, ReadLists(s[i + 1..]).1))
    else None
  }

  predicate NoZero(s: Bytes) {
    forall i :: 0 <= i < |s| ==> s[i] != 0
  }

  lemma {:induction false} FindZero(front: Bytes, tail: Bytes)
    requires NoZero(tail)
    ensures LastZero(front + [0] + tail) == |front|
  {
    if tail == [] {
      assert front + [0] + tail == front + [0];
    } else {
      var s := front + [0] + tail;
      FindZero(front, tail[..|tail| - 1]);
      assert s[..|s| - 1] == front + [0] + tail[..|tail| - 1];
    }
  }

  lemma {:induction false} PlainRunStops(item: Bytes, more: Bytes)
    requires Plain(item) && (more != [] ==> Separator(more[0]))
    ensures PlainRun(item + more) == |item|
  {
    if item == [] {
      assert item + more == more;
    } else {
      PlainRunStops(item[1..], more);
      assert (item + more)[1..] == item[1..] + more;
    }
  }

  lemma {:induction false} TaggedHasNoZero(tag: byte, items: seq<Bytes>)
    requires tag != 0 && AllPlain(items)
    ensures NoZero(Tagged(tag, items))
  {
    if items != [] {
      TaggedHasNoZero(tag, items[1..]);
      assert Plain(items[0]);
    }
  }

  /** One tagged item is read off the front. */
  lemma ReadOne(tag: byte, item: Bytes, after: Bytes)
    requires Plain(item) && (after != [] ==> Separator(after[0]))
    ensures ReadTagged(tag, [tag] + item + after)
            == ([item] + ReadTagged(tag, after).0, ReadTagged(tag, after).1)
  {
    var s := [tag] + item + after;
    assert s[1..] == item + after;
    PlainRunStops(item, after);
    assert s[1 + |item|..] == after && s[1..][..|item|] == item;
  }

  lemma TaggedStart(tag: byte, items: seq<Bytes>, more: Bytes)
    requires Separator(tag) && (more != [] ==> Separator(more[0]))
    ensures var s := Tagged(tag, items) + more; s != [] ==> Separator(s[0])
  {
  }

  lemma TaggedFront(tag: byte, items: seq<Bytes>, more: Bytes)
    requires items != []
    ensures Tagged(tag, items) + more == [tag] + items[0] + (Tagged(tag, items[1..]) + more)
  {
    var front, rest := [tag] + items[0], Tagged(tag, items[1..]);
    assert Tagged(tag, items) == front + rest;
    AppendAssociates(front, rest, more);
  }

  /** Reading continues behind the first item. */
  lemma ReadNext(tag: byte, items: seq<Bytes>, after: Bytes, more: Bytes)
    requires items != [] && Plain(items[0]) && (after != [] ==> Separator(after[0]))
    requires ReadTagged(tag, after) == (items[1..], more)
    ensures ReadTagged(tag, [tag] + items[0] + after) == (items, more)
  {
    ReadOne(tag, items[0], after);
    assert [items[0]] + items[1..] == items;
  }

  lemma {:induction false} ReadBack(tag: byte, items: seq<Bytes>, more: Bytes)
    requires Separator(tag) && AllPlain(items)
    requires more != [] ==> Separator(more[0]) && more[0] != tag
    ensures ReadTagged(tag, Tagged(tag, items) + more) == (items, more)
  {
    if items == [] {
      assert Tagged(tag, items) + more == more;
    } else {
      TaggedFront(tag, items, more);
      TaggedStart(tag, items[1..], more);
      ReadBack(tag, items[1..], more);
      ReadNext(tag, items, Tagged(tag, items[1..]) + more, more);
    }
  }

  lemma ListsReadBack(blobs: seq<Bytes>, children: seq<Bytes>)
    requires AllPlain(blobs) && AllPlain(children)
    ensures ReadLists(Tagged(2, blobs) + Tagged(3, children)) == (blobs, children)
  {
    ReadBack(2, blobs, Tagged(3, children));
    ReadBack(3, children, []);
    assert Tagged(3, children) + [] == Tagged(3, children);
  }

  lemma TailIsPlain(blobs: seq<Bytes>, children: seq<Bytes>)
    requires AllPlain(blobs) && AllPlain(children)
    ensures var tail := Tagged(2, blobs) + Tagged(3, children); NoZero(tail) && (tail != [] ==> tail[0] != 1)
  {
    TaggedHasNoZero(2, blobs);
    TaggedHasNoZero(3, children);
  }

  lemma DecodeLeaf(name: Bytes, tail: Bytes)
    requires NoZero(tail)
    ensures Decode(name + [0] + [1] + tail) == Some(Node(name, true, ReadLists(tail).0, ReadLists(tail).1))
  {
    var s := name + [0] + [1] + tail;
    FindZero(name, [1] + tail);
    AppendAssociates(name + [0], [1], tail);
    assert s[..|name|] == name && s[|name| + 2..] == tail;
  }

  lemma DecodeInner(name: Bytes, tail: Bytes)
    requires NoZero(tail) && (tail != [] ==> tail[0] != 1)
    ensures Decode(name + [0] + [0] + tail) == Some(Node(name, false, ReadLists(tail).0, ReadLists(tail).1))
  {
    var s := name + [0] + [0] + tail;
    FindZero(name + [0], tail);
    assert s[..|name|] == name && s[|name| + 2..] == tail;
  }

  lemma SortKeeps(s: seq<Bytes>, x: Bytes)
    ensures x in SortStrings(s) <==> x in s
  {
    SortStringsIgnoresOrder(s, s);
    assert x in multiset(SortStrings(s)) <==> x in multiset(s);
  }

  lemma SortKeepsPlain(s: seq<Bytes>)
    requires AllPlain(s)
    ensures AllPlain(SortStrings(s))
  {
    forall b | b in SortStrings(s) ensures Plain(b) {
      SortKeeps(s, b);
    }
  }

  lemma AppendAssociates(a: Bytes, b: Bytes, c: Bytes)
    ensures a + b + c == a + (b + c)
  {
  }

  /** The encoding of a node without separators in its entries can be read back: name, flag and both sorted lists. The
      name may hold any bytes, zeros included. */
  lemma DecodeEncoded(n: Node)
    requires PlainNode(n)
    ensures Decode(Encoded(n)) == Some(Normal(n))
  {
    SortKeepsPlain(n.blobs);
    SortKeepsPlain(n.children);
    var blobs, children := SortStrings(n.blobs), SortStrings(n.children);
    var tail := Tagged(2, blobs) + Tagged(3, children);
    ListsReadBack(blobs, children);
    TailIsPlain(blobs, children);
    AppendAssociates(n.name + [0] + [if n.leaf then 1 else 0], Tagged(2, blobs), Tagged(3, children));
    if n.leaf {
      DecodeLeaf(n.name, tail);
    } else {
      DecodeInner(n.name, tail);
    }
  }

  /** Two nodes encode alike exactly when they agree on name, flag and both collections, whatever the list order. */
  lemma EncodedAlike(a: Node, b: Node)
    requires PlainNode(a) && PlainNode(b)
    ensures Encoded(a) == Encoded(b) <==> Normal(a) == Normal(b)
    ensures Normal(a) == Normal(b) <==>
            a.name == b.name && a.leaf == b.leaf
            && multiset(a.blobs) == multiset(b.blobs) && multiset(a.children) == multiset(b.children)
  {
    DecodeEncoded(a);
    DecodeEncoded(b);
    SortStringsIgnoresOrder(a.blobs, b.blobs);
    SortStringsIgnoresOrder(a.children, b.children);
  }

  /** In particular for the hex strings that the tree lists. */
  lemma HexEncodedAlike(a: Node, b: Node)
    requires HexNode(a) && HexNode(b)
    ensures Encoded(a) == Encoded(b) <==> Normal(a) == Normal(b)
  {
    HexIsPlain(a);
    HexIsPlain(b);
    EncodedAlike(a, b);
  }

  lemma NormalKeepsEncoding(n: Node)
    ensures Encoded(Normal(n)) == Encoded(n) && Normal(Normal(n)) == Normal(n)
    ensures HexNode(n) ==> HexNode(Normal(n))
    ensures multiset(Normal(n).blobs) == multiset(n.blobs) && multiset(Normal(n).children) == multiset(n.children)
    ensures Sorted(AtMost, Normal(n).blobs) && Sorted(AtMost, Normal(n).children)
  {
    SortStringsIgnoresOrder(n.blobs, n.blobs);
    SortStringsIgnoresOrder(n.children, n.children);
    forall e | HexNode(n) && (e in Normal(n).blobs || e in Normal(n).children) ensures Hex(e) {
      SortKeeps(n.blobs, e);
      SortKeeps(n.children, e);
    }
  }

  // ---- When encodings are unambiguous ----

  predicate From(alphabet: set<byte>, s: Bytes) {
    forall i :: 0 <= i < |s| ==> s[i] in alphabet
  }

  /** The entries of `n` are strings over `alphabet`. */
  ghost predicate EntriesFrom(alphabet: set<byte>, n: Node) {
    (forall e :: e in n.blobs ==> From(alphabet, e)) && (forall e :: e in n.children ==> From(alphabet, e))
  }

  /** No two different nodes with entries over `alphabet` encode alike. */
  ghost predicate Unambiguous(alphabet: set<byte>) {
    forall a, b ::
      EntriesFrom(alphabet, a) && EntriesFrom(alphabet, b) && Encoded(a) == Encoded(b) ==> Normal(a) == Normal(b)
  }

  lemma {:induction false} TaggedEmpties(tag: byte)
    ensures SortStrings([[], []]) == [[], []] && SortStrings([[tag]]) == [[tag]]
    ensures Tagged(tag, [[], []]) == [tag, tag] == Tagged(tag, [[tag]])
  {
    var one: seq<Bytes>, two: seq<Bytes> := [[]], [[], []];
    assert two[1..] == one && one[1..] == [] && [[tag]][1..] == [];
    assert SortStrings(one) == one && Tagged(tag, one) == [tag];
  }

  /** Through any separator two different nodes collide: an entry that holds it reads as the end of an entry, or as the
      end of the name. */
  lemma CollisionThrough(b: byte) returns (x: Node, y: Node)
    requires Separator(b)
    ensures EntriesFrom({b}, x) && EntriesFrom({b}, y)
    ensures Encoded(x) == Encoded(y) && Normal(x) != Normal(y)
  {
    TaggedEmpties(b);
    if b == 2 {
      x, y := Node([], true, [[2]], []), Node([], true, [[], []], []);
    } else if b == 3 {
      x, y := Node([], true, [], [[3]]), Node([], true, [], [[], []]);
    } else {
      x, y := Node([], true, [[0, 0]], []), Node([0, 1, 2], false, [], []);
      assert SortStrings([[0, 0]]) == [[0, 0]] && Tagged(2, [[0, 0]]) == [2, 0, 0];
    }
  }

  lemma PlainOver(alphabet: set<byte>, n: Node)
    requires 0 !in alphabet && 2 !in alphabet && 3 !in alphabet && EntriesFrom(alphabet, n)
    ensures PlainNode(n)
  {
    forall e | e in n.blobs || e in n.children ensures Plain(e) {
      assert From(alphabet, e);
    }
  }

  /** The exact condition: over an alphabet of entry bytes, encodings are unambiguous exactly when it holds no
      separator. */
  lemma UnambiguousIffNoSeparator(alphabet: set<byte>)
    ensures Unambiguous(alphabet) <==> 0 !in alphabet && 2 !in alphabet && 3 !in alphabet
  {
    if 0 !in alphabet && 2 !in alphabet && 3 !in alphabet {
      forall a, b | EntriesFrom(alphabet, a) && EntriesFrom(alphabet, b) && Encoded(a) == Encoded(b)
        ensures Normal(a) == Normal(b)
      {
        PlainOver(alphabet, a);
        PlainOver(alphabet, b);
        EncodedAlike(a, b);
      }
    } else {
      var b: byte := if 0 in alphabet then 0 else if 2 in alphabet then 2 else 3;
      var x, y := CollisionThrough(b);
      WiderAlphabet(b, alphabet, x);
      WiderAlphabet(b, alphabet, y);
    }
  }

  lemma WiderAlphabet(b: byte, alphabet: set<byte>, n: Node)
    requires b in alphabet && EntriesFrom({b}, n)
    ensures EntriesFrom(alphabet, n)
  {
    forall e | e in n.blobs || e in n.children ensures From(alphabet, e) {
      assert From({b}, e);
    }
  }

  // ---- Content addresses ----

  /** Idealised hash: hex output, never empty, and no collisions. */
  ghost predicate Ideal(sha: Digest) {
    (forall x: Bytes :: Hex(sha(x)) && sha(x) != []) && (forall x: Bytes, y: Bytes :: sha(x) == sha(y) ==> x == y)
  }

  function HexText(x: Bytes): Bytes {
    if x == [] then [0x30] else [HexDigitOf(x[0] / 16), HexDigitOf(x[0] % 16)] + HexText(x[1..])
  }

  lemma {:induction false} HexTextIsHex(x: Bytes)
    ensures Hex(HexText(x)) && |HexText(x)| == 2 * |x| + 1
  {
    if x != [] {
      HexTextIsHex(x[1..]);
    }
  }

  lemma DigitPairInjective(a: byte, b: byte)
    requires HexDigitOf(a / 16) == HexDigitOf(b / 16) && HexDigitOf(a % 16) == HexDigitOf(b % 16)
    ensures a == b
  {
    assert a / 16 == b / 16 && a % 16 == b % 16;
  }

  lemma {:induction false} HexTextInjective(x: Bytes, y: Bytes)
    requires HexText(x) == HexText(y)
    ensures x == y
  {
    HexTextIsHex(x);
    HexTextIsHex(y);
    if x != [] {
      var t := HexText(x);
      assert t[0] == HexDigitOf(y[0] / 16) && t[1] == HexDigitOf(y[0] % 16) && t[2..] == HexText(y[1..]);
      DigitPairInjective(x[0], y[0]);
      HexTextInjective(x[1..], y[1..]);
      assert x == [x[0]] + x[1..] && y == [y[0]] + y[1..];
    }
  }

  /** The idealisation is consistent: plain hex text meets it. */
  lemma IdealHashExists()
    ensures Ideal(x => HexText(x))
  {
    forall x: Bytes, y: Bytes ensures Hex(HexText(x)) && HexText(x) != [] && (HexText(x) == HexText(y) ==> x == y) {
      HexTextIsHex(x);
      if HexText(x) == HexText(y) {
        HexTextInjective(x, y);
      }
    }
  }

  function NodeId(sha: Digest, n: Node): Bytes {
    sha(Encoded(n))
  }

  /** Content addressing as the tree uses it: `sum` addresses bodies, `id` addresses nodes. */
  datatype Hasher = Hasher(sum: Digest, id: Node -> Bytes)

  function HasherOf(sha: Digest): Hasher {
    Hasher(sha, (n: Node) => NodeId(sha, n))
  }

  ghost predicate CanonicalAt(hs: Hasher, n: Node) {
    hs.id(n) == NodeId(hs.sum, n)
  }

  /** Node addresses are hashes of canonical encodings. */
  ghost predicate Canonically(hs: Hasher) {
    forall n :: CanonicalAt(hs, n)
  }

  /** All that the stores need of their hashes: addresses are hex text and pin down what is stored under them. */
  ghost predicate Pins(hs: Hasher) {
    && (forall x: Bytes :: Hex(hs.sum(x)))
    && (forall n: Node :: Hex(hs.id(n)) && hs.id(n) != [] && hs.id(Normal(n)) == hs.id(n))
    && (forall a: Node, b: Node :: PlainNode(a) && PlainNode(b) && hs.id(a) == hs.id(b) ==> Normal(a) == Normal(b))
  }

  /** Hashing the canonical encoding pins content: two nodes share an address only if they agree on everything. */
  lemma CanonicalHashPins(sha: Digest)
    requires Ideal(sha)
    ensures Pins(HasherOf(sha))
  {
    var hs := HasherOf(sha);
    forall n: Node ensures hs.id(Normal(n)) == hs.id(n) {
      NormalKeepsEncoding(n);
    }
    forall a: Node, b: Node | PlainNode(a) && PlainNode(b) && hs.id(a) == hs.id(b) ensures Normal(a) == Normal(b) {
      EncodedAlike(a, b);
    }
  }
}
