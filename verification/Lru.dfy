/** The LRU store: victim selection under two caps, and conditional eviction that races with other writers. */
module Lru {
  import opened ByteStrings
  import opened Results
  import opened Sorting
  import opened Scans

  /** A stored record; times are Unix nanoseconds. */
  datatype Record = Record(revision: nat, size: int, createdAt: int, accessedAt: int)
  datatype Item = Item(key: Bytes, rec: Record)
  type Records = map<Bytes, Record>

  /** Soft caps; a cap of zero or less is off. */
  datatype Caps = Caps(bytes: int, items: int)

  // ---- Keys ----

  /** `prefix`, two hex digits of the key's shard, a slash, the key. */
  function FullKey(prefix: Bytes, hash: Bytes -> nat, shards: nat, key: Bytes): Bytes
    requires 1 <= shards <= 256
  {
    var shard := hash(key) % shards;
    prefix + [HexDigitOf(shard / 16), HexDigitOf(shard % 16), 0x2F] + key
  }

  function UserKey(prefix: Bytes, stored: Bytes): Option<Bytes> {
    if |stored| < |prefix| + 3 || stored[|prefix| + 2] != 0x2F then None else Some(stored[|prefix| + 3..])
  }

  /** A scan recovers every user key, whatever bytes it holds, so distinct keys never collide. */
  lemma UserKeyOfFullKey(prefix: Bytes, hash: Bytes -> nat, shards: nat, key: Bytes, other: Bytes)
    requires 1 <= shards <= 256
    ensures UserKey(prefix, FullKey(prefix, hash, shards, key)) == Some(key)
    ensures HasPrefix(FullKey(prefix, hash, shards, key), prefix)
    ensures FullKey(prefix, hash, shards, key) == FullKey(prefix, hash, shards, other) ==> key == other
  {
    assert FullKey(prefix, hash, shards, key)[|prefix| + 3..] == key;
    assert FullKey(prefix, hash, shards, other)[|prefix| + 3..] == other;
  }

  // ---- Victims ----

  /** Eviction order: oldest access first, ties by key. */
  predicate NotNewer(a: Item, b: Item) {
    a.rec.accessedAt < b.rec.accessedAt || (a.rec.accessedAt == b.rec.accessedAt && AtMost(a.key, b.key))
  }

  function Total(items: seq<Item>): int {
    if items == [] then 0 else items[0].rec.size + Total(items[1..])
  }

  predicate Over(caps: Caps, total: int, count: int) {
    (caps.bytes > 0 && total > caps.bytes) || (caps.items > 0 && count > caps.items)
  }

  predicate OverCaps(caps: Caps, items: seq<Item>) {
    Over(caps, Total(items), |items|)
  }

  /** `n` is the length of the shortest front part of `sorted` whose removal brings the rest under both caps. */
  ghost predicate ShortestCut(caps: Caps, sorted: seq<Item>, n: nat) {
    n <= |sorted| && !OverCaps(caps, sorted[n..]) && OverBefore(caps, sorted, n)
  }

  /** Removing any shorter front part leaves too much. */
  ghost predicate OverBefore(caps: Caps, sorted: seq<Item>, n: nat)
    requires n <= |sorted|
  {
    forall k :: 0 <= k < n ==> OverCaps(caps, sorted[k..])
  }

  ghost predicate AreVictims(caps: Caps, items: seq<Item>, out: seq<Item>) {
    var sorted := Sort(NotNewer, items);
    |out| <= |sorted| && out == sorted[..|out|] && ShortestCut(caps, sorted, |out|)
  }

  lemma EvictionOrder()
    ensures Preorder(NotNewer)
  {
    LessIsStrictOrder();
  }

  ghost predicate DistinctKeys(items: seq<Item>) {
    forall i, j :: 0 <= i < j < |items| ==> items[i].key != items[j].key
  }

  lemma KeysBreakTies(items: seq<Item>)
    requires DistinctKeys(items)
    ensures NoTies(NotNewer, items)
  {
    LessIsStrictOrder();
  }

  lemma TotalStep(items: seq<Item>, i: nat)
    requires i < |items|
    ensures Total(items[i..]) == items[i].rec.size + Total(items[i + 1..])
  {
    assert items[i..][1..] == items[i + 1..];
  }

  method SumSizes(items: seq<Item>) returns (total: int)
    ensures total == Total(items)
  {
    total := 0;
    for i := 0 to |items|
      invariant total + Total(items[i..]) == Total(items)
    {
      TotalStep(items, i);
      total := total + items[i].rec.size;
    }
  }

  /** Runs the totals down from the front of the order until both caps hold. */
  method CutFront(sorted: seq<Item>, caps: Caps) returns (out: seq<Item>)
    ensures out <= sorted && ShortestCut(caps, sorted, |out|)
    ensures caps.bytes > 0 ==> Total(sorted[|out|..]) <= caps.bytes
    ensures caps.items > 0 ==> |sorted| - |out| <= caps.items
    ensures forall k :: 0 <= k < |out| ==>
              (caps.bytes > 0 && Total(sorted[k..]) > caps.bytes) || (caps.items > 0 && |sorted| - k > caps.items)
  {
    var total := SumSizes(sorted);
    var count := |sorted|;
    assert sorted[0..] == sorted;
    out := [];
    for i := 0 to |sorted|
      invariant out == sorted[..i] && total == Total(sorted[i..]) && count == |sorted| - i
      invariant OverBefore(caps, sorted, i)
    {
      assert Over(caps, total, count) == OverCaps(caps, sorted[i..]);
      var overBytes := caps.bytes > 0 && total > caps.bytes;
      var overItems := caps.items > 0 && count > caps.items;
      if !overBytes && !overItems {
        return;
      }
      TotalStep(sorted, i);
      out := out + [sorted[i]];
      total := total - sorted[i].rec.size;
      count := count - 1;
    }
  }

  method Victims(items: seq<Item>, caps: Caps) returns (out: seq<Item>)
    ensures AreVictims(caps, items, out)
    ensures DistinctKeys(items) ==>
              forall v, u :: v in out && u in items && u !in out ==>
                v.rec.accessedAt < u.rec.accessedAt || (v.rec.accessedAt == u.rec.accessedAt && Less(v.key, u.key))
  {
    var sorted := Sort(NotNewer, items);
    out := CutFront(sorted, caps);
    forall v, u | DistinctKeys(items) && v in out && u in items && u !in out
      ensures v.rec.accessedAt < u.rec.accessedAt || (v.rec.accessedAt == u.rec.accessedAt && Less(v.key, u.key))
    {
      VictimIsOlder(caps, items, out, v, u);
    }
  }

  /** A victim was accessed before any entry that stays, ties going by key. */
  lemma VictimIsOlder(caps: Caps, items: seq<Item>, out: seq<Item>, v: Item, u: Item)
    requires DistinctKeys(items) && AreVictims(caps, items, out) && v in out && u in items && u !in out
    ensures v.rec.accessedAt < u.rec.accessedAt || (v.rec.accessedAt == u.rec.accessedAt && Less(v.key, u.key))
  {
    EvictionOrder();
    SortSorts(NotNewer, items);
    var sorted := Sort(NotNewer, items);
    SortedListing(items, sorted);
    var i :| 0 <= i < |out| && out[i] == v;
    var j :| 0 <= j < |sorted| && sorted[j] == u;
    assert forall n :: 0 <= n < |out| ==> out[n] == sorted[n] && out[n] != u;
    assert i < j && sorted[i] == v && NotNewer(sorted[i], sorted[j]);
  }

  /** The selection depends only on which items there are, not on the order they are given in. */
  lemma VictimsIgnoreOrder(caps: Caps, a: seq<Item>, b: seq<Item>, va: seq<Item>, vb: seq<Item>)
    requires DistinctKeys(a) && multiset(a) == multiset(b)
    requires AreVictims(caps, a, va) && AreVictims(caps, b, vb)
    ensures va == vb
  {
    EvictionOrder();
    KeysBreakTies(a);
    SortIgnoresOrder(NotNewer, a, b);
    CutIsUnique(caps, Sort(NotNewer, a), |va|, |vb|);
  }

  lemma CutIsUnique(caps: Caps, sorted: seq<Item>, m: nat, n: nat)
    requires ShortestCut(caps, sorted, m) && ShortestCut(caps, sorted, n)
    ensures m == n
  {
  }

  // ---- Eviction without other writers ----

  /** The eviction transaction for one victim: it deletes the record only as it was scanned. */
  function Evict(records: Records, v: Item): Records {
    if v.key in records && records[v.key].revision == v.rec.revision && records[v.key].accessedAt == v.rec.accessedAt
    then records - {v.key} else records
  }

  function EvictAll(records: Records, schedule: seq<Item>): Records {
    if schedule == [] then records else EvictAll(Evict(records, schedule[0]), schedule[1..])
  }

  /** A listing of all records. */
  ghost predicate Lists(records: Records, items: seq<Item>) {
    && DistinctKeys(items)
    && forall k, r :: Item(k, r) in items <==> k in records && records[k] == r
  }

  ghost function Keys(items: seq<Item>): set<Bytes> {
    set v | v in items :: v.key
  }

  /** Any schedule of scanned items, with repetitions, deletes just their keys. */
  lemma {:induction false} EvictAllDeletesKeys(records: Records, schedule: seq<Item>, done: set<Bytes>)
    requires forall v :: v in schedule ==> v.key in records && records[v.key] == v.rec
    ensures EvictAll(records - done, schedule) == records - (done + Keys(schedule))
  {
    if schedule == [] {
      assert done + Keys(schedule) == done;
    } else {
      var v, rest := schedule[0], schedule[1..];
      assert v in schedule && forall u :: u in rest ==> u in schedule;
      assert Evict(records - done, v) == records - (done + {v.key});
      EvictAllDeletesKeys(records, rest, done + {v.key});
      assert schedule == [v] + rest;
      assert done + {v.key} + Keys(rest) == done + Keys(schedule);
    }
  }

  lemma {:induction false} TotalConcat(a: seq<Item>, b: seq<Item>)
    ensures Total(a + b) == Total(a) + Total(b)
  {
    if a == [] {
      assert a + b == b;
    } else {
      TotalConcat(a[1..], b);
      assert (a + b)[1..] == a[1..] + b;
    }
  }

  lemma {:induction false} TotalIgnoresOrder(a: seq<Item>, b: seq<Item>)
    requires DistinctKeys(a) && DistinctKeys(b) && forall v :: v in a <==> v in b
    ensures Total(a) == Total(b) && |a| == |b|
  {
    if a == [] {
      HasMember(b);
    } else {
      assert a[0] in b;
      var i :| 0 <= i < |b| && b[i] == a[0];
      var rest := b[..i] + b[i + 1..];
      assert b == b[..i] + [b[i]] + b[i + 1..];
      forall v ensures v in a[1..] <==> v in rest {
        assert v in a <==> v == a[0] || v in a[1..];
        assert v in b <==> v == b[i] || v in rest;
      }
      TotalIgnoresOrder(a[1..], rest);
      TotalConcat(b[..i] + [b[i]], b[i + 1..]);
      TotalConcat(b[..i], [b[i]]);
      TotalConcat(b[..i], b[i + 1..]);
    }
  }

  /** Of a listing in any order, cutting a front part off lists the records left by removing its keys. */
  lemma CutListing(records: Records, sorted: seq<Item>, n: nat)
    requires Lists(records, sorted) && n <= |sorted|
    ensures Lists(records - Keys(sorted[..n]), sorted[n..])
  {
    var out, rest := sorted[..n], sorted[n..];
    assert sorted == out + rest;
    forall k, r ensures Item(k, r) in rest <==> k in records - Keys(out) && (records - Keys(out))[k] == r {
      assert Item(k, r) in sorted <==> Item(k, r) in out || Item(k, r) in rest;
      if Item(k, r) in rest {
        NotInFront(sorted, n, Item(k, r));
      }
    }
  }

  lemma NotInFront(sorted: seq<Item>, n: nat, v: Item)
    requires DistinctKeys(sorted) && n <= |sorted| && v in sorted[n..]
    ensures v.key !in Keys(sorted[..n])
  {
    var j :| n <= j < |sorted| && sorted[j] == v;
    forall u | u in sorted[..n] ensures u.key != v.key {
      var i :| 0 <= i < n && sorted[i] == u;
    }
  }

  lemma RestIsListed(records: Records, items: seq<Item>, out: seq<Item>, sorted: seq<Item>)
    requires Lists(records, items) && sorted == Sort(NotNewer, items) && out <= sorted
    ensures Lists(records - Keys(out), sorted[|out|..])
  {
    EvictionOrder();
    SortSorts(NotNewer, items);
    SortedListing(items, sorted);
    assert Lists(records, sorted);
    CutListing(records, sorted, |out|);
    assert out == sorted[..|out|];
  }

  lemma SortedListing(items: seq<Item>, sorted: seq<Item>)
    requires DistinctKeys(items) && multiset(sorted) == multiset(items)
    ensures DistinctKeys(sorted) && forall v :: v in sorted <==> v in items
  {
    forall v ensures v in sorted <==> v in items {
      assert v in multiset(sorted) <==> v in multiset(items);
    }
    forall i, j | 0 <= i < j < |sorted| ensures sorted[i].key != sorted[j].key {
      if sorted[i].key == sorted[j].key {
        assert sorted[i] in sorted && sorted[j] in sorted;
        var a :| 0 <= a < |items| && items[a] == sorted[i];
        var b :| 0 <= b < |items| && items[b] == sorted[j];
        assert a == b;
        TwiceInSorted(items, sorted, i, j, a);
      }
    }
  }

  lemma TwiceInSorted(items: seq<Item>, sorted: seq<Item>, i: nat, j: nat, a: nat)
    requires DistinctKeys(items) && i < j < |sorted| && a < |items| && sorted[i] == sorted[j] == items[a]
    ensures multiset(sorted) != multiset(items)
  {
    var v := items[a];
    assert items == items[..a] + [v] + items[a + 1..];
    assert v !in items[..a] && v !in items[a + 1..];
    assert multiset(items)[v] == 1;
    assert sorted == sorted[..j] + [v] + sorted[j + 1..] && v in sorted[..j];
    assert multiset(sorted)[v] >= 2;
  }

  lemma ListsSame(records: Records, a: seq<Item>, b: seq<Item>)
    requires Lists(records, a) && Lists(records, b)
    ensures Total(a) == Total(b) && |a| == |b|
  {
    forall v ensures v in a <==> v in b {
      assert v == Item(v.key, v.rec);
    }
    TotalIgnoresOrder(a, b);
  }

  lemma ScheduleDeletesVictims(records: Records, caps: Caps, items: seq<Item>, out: seq<Item>, schedule: seq<Item>)
    requires Lists(records, items) && AreVictims(caps, items, out)
    requires forall v :: v in schedule <==> v in out
    ensures EvictAll(records, schedule) == records - Keys(out)
  {
    forall v | v in schedule ensures v.key in records && records[v.key] == v.rec {
      ChosenAreStored(records, caps, items, out, v);
    }
    EvictAllDeletesKeys(records, schedule, {});
    assert records - {} == records && {} + Keys(schedule) == Keys(out);
  }

  /** With no other writers, whichever workers take the victims in whatever order, eviction ends in one state, and that
      state is under both caps. */
  lemma EveryScheduleEndsUnderCaps(records: Records, caps: Caps, items: seq<Item>, out: seq<Item>,
                                   schedule: seq<Item>, rest: seq<Item>)
    requires Lists(records, items) && AreVictims(caps, items, out)
    requires forall v :: v in schedule <==> v in out
    requires Lists(EvictAll(records, schedule), rest)
    ensures EvictAll(records, schedule) == records - Keys(out)
    ensures !OverCaps(caps, rest)
  {
    var sorted := Sort(NotNewer, items);
    ScheduleDeletesVictims(records, caps, items, out, schedule);
    RestIsListed(records, items, out, sorted);
    ListsSame(records - Keys(out), rest, sorted[|out|..]);
  }

  // ---- Times ----

  /** What Go's `UnixNano` yields for the zero time, whose nanoseconds do not fit into 64 bits and wrap around. */
  const ZERO_NANO := -6795364578871345152

  function UnixNano(t: Option<int>): int {
    if t.None? then ZERO_NANO else t.value
  }

  /** The access time `Set` stores, and the creation time it stores for a new key. */
  function StoredTime(t: Option<int>, now: int): int {
    if UnixNano(t) == 0 then now else UnixNano(t)
  }

  /** An unset time is replaced by the current one only when the clock shows the wrapped zero time; it is the start of
      1970 that is replaced. */
  lemma WhenTimeIsNow(t: Option<int>, now: int)
    ensures StoredTime(t, now) == now <==> t in {Some(0), Some(now)} || (t == None && now == ZERO_NANO)
  {
  }

  /** So an entry set without an access time is a victim as soon as any entry with a later one is. */
  lemma UntimedGoesFirst(caps: Caps, items: seq<Item>, out: seq<Item>, k: Bytes, rec: Record, now: int, other: Item)
    requires DistinctKeys(items) && AreVictims(caps, items, out)
    requires rec.accessedAt == StoredTime(None, now) && Item(k, rec) in items
    requires other in out && other.rec.accessedAt > ZERO_NANO
    ensures Item(k, rec) in out
  {
    if Item(k, rec) !in out {
      VictimIsOlder(caps, items, out, other, Item(k, rec));
    }
  }

  // ---- Other writers ----

  function Set(records: Records, k: Bytes, size: int, createdAt: int, accessedAt: int): Records {
    records[k := Record(if k in records then records[k].revision + 1 else 1, size, createdAt, accessedAt)]
  }

  function Touch(records: Records, k: Bytes, now: int): Records {
    if k in records then records[k := records[k].(accessedAt := now, revision := records[k].revision + 1)] else records
  }

  /** A victim a worker has still to deal with, and what history said of its key when it was scanned. */
  datatype Victim = Victim(item: Item, writes: nat, deletes: nat)

  /** The records, the victims of all evictors in flight, and history: how often each key was written and deleted. */
  datatype Sys = Sys(records: Records, victims: set<Victim>, writes: map<Bytes, nat>, deletes: map<Bytes, nat>)

  datatype Step =
    | DoSet(key: Bytes, size: int, createdAt: int, accessedAt: int)
    | DoTouch(key: Bytes, now: int)
    | DoDelete(key: Bytes)
    | DoScan(chosen: seq<Item>)
    | DoEvict(victim: Victim)

  function Count(m: map<Bytes, nat>, k: Bytes): nat {
    if k in m then m[k] else 0
  }

  function Bump(m: map<Bytes, nat>, k: Bytes): map<Bytes, nat> {
    m[k := Count(m, k) + 1]
  }

  ghost predicate Enabled(s: Sys, a: Step) {
    match a
    case DoTouch(k, _) => k in s.records
    case DoDelete(k) => k in s.records
    case DoScan(chosen) => exists items, caps :: Lists(s.records, items) && AreVictims(caps, items, chosen)
    case DoEvict(v) => v in s.victims
    case _ => true
  }

  ghost function Apply(s: Sys, a: Step): Sys {
    match a
    case DoSet(k, size, c, t) => s.(records := Set(s.records, k, size, c, t), writes := Bump(s.writes, k))
    case DoTouch(k, now) => s.(records := Touch(s.records, k, now), writes := Bump(s.writes, k))
    case DoDelete(k) => s.(records := s.records - {k}, deletes := Bump(s.deletes, k))
    case DoScan(chosen) =>
      s.(victims := s.victims + set v | v in chosen :: Victim(v, Count(s.writes, v.key), Count(s.deletes, v.key)))
    case DoEvict(v) =>
      var k := v.item.key;
      s.(records := Evict(s.records, v.item),
         deletes := if Evict(s.records, v.item) == s.records then s.deletes else Bump(s.deletes, k))
  }

  /** While a scanned key is not deleted, its record is the scanned one plus the writes since. */
  ghost predicate VictimOk(s: Sys, v: Victim) {
    var k := v.item.key;
    && Count(s.writes, k) >= v.writes && Count(s.deletes, k) >= v.deletes
    && (Count(s.deletes, k) == v.deletes ==>
          && k in s.records && s.records[k].revision == v.item.rec.revision + (Count(s.writes, k) - v.writes)
          && (Count(s.writes, k) == v.writes ==> s.records[k] == v.item.rec))
  }

  ghost predicate VictimsOk(s: Sys) {
    forall v :: v in s.victims ==> VictimOk(s, v)
  }

  lemma ChosenAreStored(records: Records, caps: Caps, items: seq<Item>, chosen: seq<Item>, v: Item)
    requires Lists(records, items) && AreVictims(caps, items, chosen) && v in chosen
    ensures v.key in records && records[v.key] == v.rec
  {
    EvictionOrder();
    SortSorts(NotNewer, items);
    SortedListing(items, Sort(NotNewer, items));
    assert v in Sort(NotNewer, items) && Item(v.key, v.rec) in items;
  }

  lemma StepKeepsVictims(s: Sys, a: Step)
    requires VictimsOk(s) && Enabled(s, a)
    ensures VictimsOk(Apply(s, a))
  {
    var t := Apply(s, a);
    forall v | v in t.victims ensures VictimOk(t, v) {
      if v in s.victims {
        assert VictimOk(s, v);
      } else {
        var items, caps :| Lists(s.records, items) && AreVictims(caps, items, a.chosen);
        ChosenAreStored(s.records, caps, items, a.chosen, v.item);
      }
    }
  }

  ghost predicate IsRun(states: seq<Sys>, steps: seq<Step>) {
    && |states| == |steps| + 1
    && forall i {:trigger steps[i]} :: 0 <= i < |steps| ==>
              Enabled(states[i], steps[i]) && states[i + 1] == Apply(states[i], steps[i])
  }

  lemma {:induction false} RunKeepsVictims(states: seq<Sys>, steps: seq<Step>, i: nat)
    requires IsRun(states, steps) && states[0].victims == {} && i < |states|
    ensures VictimsOk(states[i])
  {
    if i > 0 {
      RunKeepsVictims(states, steps, i - 1);
      assert steps[i - 1] == steps[i - 1];
      StepKeepsVictims(states[i - 1], steps[i - 1]);
    }
  }

  /** In every run, an entry set or touched after an evictor scanned it is lost to that evictor exactly when its key was
      deleted in between and what is stored now shows the scanned revision and access time again. */
  lemma FreshEntryIsLostIff(states: seq<Sys>, steps: seq<Step>, i: nat, v: Victim)
    requires IsRun(states, steps) && states[0].victims == {} && i < |states| && v in states[i].victims
    requires Count(states[i].writes, v.item.key) > v.writes
    ensures Evict(states[i].records, v.item) != states[i].records <==>
              && Count(states[i].deletes, v.item.key) > v.deletes
              && v.item.key in states[i].records
              && states[i].records[v.item.key].revision == v.item.rec.revision
              && states[i].records[v.item.key].accessedAt == v.item.rec.accessedAt
  {
    RunKeepsVictims(states, steps, i);
    assert VictimOk(states[i], v);
  }

  /** And while its key is not deleted, an entry that an evictor does delete is exactly the one it scanned. */
  lemma EvictedAsScanned(states: seq<Sys>, steps: seq<Step>, i: nat, v: Victim)
    requires IsRun(states, steps) && states[0].victims == {} && i < |states| && v in states[i].victims
    requires Count(states[i].deletes, v.item.key) == v.deletes
    ensures Evict(states[i].records, v.item) != states[i].records ==>
              v.item.key in states[i].records && states[i].records[v.item.key] == v.item.rec
  {
    RunKeepsVictims(states, steps, i);
    assert VictimOk(states[i], v);
  }

  const EMPTY := Sys(map[], {}, map[], map[])

  /** Set, scan, delete, set again with the same access time: the run's states one by one. */
  ghost function RecreatedStates(k: Bytes, scanned: Record, fresher: Record): seq<Sys> {
    var v := Victim(Item(k, scanned), 1, 0);
    [EMPTY,
     Sys(map[k := scanned], {}, map[k := 1], map[]),
     Sys(map[k := scanned], {v}, map[k := 1], map[]),
     Sys(map[], {v}, map[k := 1], map[k := 1]),
     Sys(map[k := fresher], {v}, map[k := 2], map[k := 1])]
  }

  function RecreatedSteps(k: Bytes, scanned: Record, fresher: Record): seq<Step> {
    [DoSet(k, scanned.size, scanned.createdAt, scanned.accessedAt),
     DoScan([Item(k, scanned)]),
     DoDelete(k),
     DoSet(k, fresher.size, fresher.createdAt, fresher.accessedAt)]
  }

  lemma OneVictim(k: Bytes, r: Record, caps: Caps)
    requires caps.bytes > 0 && r.size > caps.bytes
    ensures Lists(map[k := r], [Item(k, r)]) && AreVictims(caps, [Item(k, r)], [Item(k, r)])
  {
    var items := [Item(k, r)];
    assert Sort(NotNewer, items) == items;
    assert items[..1] == items && items[1..] == [] && items[0..] == items;
    assert Total(items) == r.size && OverCaps(caps, items) && items == items[0..];
    assert OverBefore(caps, items, 1);
    assert ShortestCut(caps, items, 1);
  }

  lemma ScanFollows(k: Bytes, scanned: Record, fresher: Record, caps: Caps)
    requires caps.bytes > 0 && scanned.size > caps.bytes
    ensures var states, steps := RecreatedStates(k, scanned, fresher), RecreatedSteps(k, scanned, fresher);
            Enabled(states[1], steps[1]) && states[2] == Apply(states[1], steps[1])
  {
    OneVictim(k, scanned, caps);
    var states, steps := RecreatedStates(k, scanned, fresher), RecreatedSteps(k, scanned, fresher);
    assert Apply(states[1], steps[1]).victims == {Victim(Item(k, scanned), 1, 0)};
  }

  /** Both happen in one run: the entry set last, whatever its size and creation time, is new to the evictor that has
      scanned its predecessor, and is evicted. */
  lemma RecreatedEntryIsEvicted(k: Bytes, scanned: Record, fresher: Record, caps: Caps)
    requires scanned.revision == fresher.revision == 1 && scanned.accessedAt == fresher.accessedAt
    requires caps.bytes > 0 && scanned.size > caps.bytes
    ensures var states, v := RecreatedStates(k, scanned, fresher), Victim(Item(k, scanned), 1, 0);
            && IsRun(states, RecreatedSteps(k, scanned, fresher)) && states[0].victims == {}
            && v in states[4].victims && Count(states[4].writes, k) > v.writes
            && states[4].records == map[k := fresher] && Evict(states[4].records, v.item) == map[]
  {
    var states, steps := RecreatedStates(k, scanned, fresher), RecreatedSteps(k, scanned, fresher);
    ScanFollows(k, scanned, fresher, caps);
    WritesFollow(k, scanned, fresher);
    assert map[k := fresher] - {k} == map[];
  }

  lemma WritesFollow(k: Bytes, scanned: Record, fresher: Record)
    requires scanned.revision == fresher.revision == 1
    ensures var states, steps := RecreatedStates(k, scanned, fresher), RecreatedSteps(k, scanned, fresher);
            && Enabled(states[0], steps[0]) && states[1] == Apply(states[0], steps[0])
            && Enabled(states[2], steps[2]) && states[3] == Apply(states[2], steps[2])
            && Enabled(states[3], steps[3]) && states[4] == Apply(states[3], steps[3])
  {
    assert map[k := scanned] - {k} == map[];
  }

  class Store {
    var records: Records
    const caps: Caps

    constructor (caps: Caps)
      ensures records == map[] && this.caps == caps
    {
      records, this.caps := map[], caps;
    }

    /** Unset times are `None`. */
    method SetEntry(k: Bytes, size: int, createdAt: Option<int>, accessedAt: Option<int>, now: int)
      modifies this
      ensures k in records && records == old(records)[k := records[k]]
      ensures records[k].revision == if k in old(records) then old(records)[k].revision + 1 else 1
      ensures records[k].size == size && records[k].accessedAt == StoredTime(accessedAt, now)
      ensures records[k].createdAt == if k in old(records) && createdAt.None? then old(records)[k].createdAt
                                      else StoredTime(createdAt, now)
      ensures records == Set(old(records), k, size, records[k].createdAt, records[k].accessedAt)
    {
      var r := Record(0, size, UnixNano(createdAt), UnixNano(accessedAt));
      if r.createdAt == 0 {
        r := r.(createdAt := now);
      }
      if r.accessedAt == 0 {
        r := r.(accessedAt := now);
      }
      if k !in records {
        r := r.(revision := 1);
      } else {
        r := r.(revision := records[k].revision + 1);
        if createdAt.None? {
          r := r.(createdAt := records[k].createdAt);
        }
      }
      records := records[k := r];
    }

    method TouchEntry(k: Bytes, now: int) returns (found: bool)
      modifies this
      ensures found <==> k in old(records)
      ensures records == Touch(old(records), k, now)
      ensures found ==>
                var r := old(records)[k];
                records == old(records)[k := r.(accessedAt := now, revision := r.revision + 1)]
      ensures !found ==> records == old(records)
    {
      if k !in records {
        return false;
      }
      var r := records[k];
      r := r.(accessedAt := now, revision := r.revision + 1);
      records := records[k := r];
      return true;
    }

    method ScanAll() returns (items: seq<Item>)
      ensures Lists(records, items)
    {
      items := [];
      var todo := records.Keys;
      while todo != {}
        invariant todo <= records.Keys && DistinctKeys(items)
        invariant forall k, r :: Item(k, r) in items <==> k in records && k !in todo && records[k] == r
        decreases todo
      {
        var k :| k in todo;
        todo := todo - {k};
        forall i | 0 <= i < |items| ensures items[i].key != k {
          assert Item(items[i].key, items[i].rec) in items;
        }
        items := items + [Item(k, records[k])];
      }
    }

    /** One eviction pass. The workers' transactions commit in any order; those for keys in `failing` fail. */
    method EvictOnce(failing: set<Bytes>) returns (ok: bool)
      modifies this
      ensures IsPass(old(records), caps, failing, records, ok)
      ensures ok ==>
                forall rest :: Lists(records, rest) ==>
                  && (caps.bytes > 0 ==> Total(rest) <= caps.bytes)
                  && (caps.items > 0 ==> |rest| <= caps.items)
      ensures forall d, k :: d in old(records) && d !in records && k in records && k !in failing ==>
                var gone, kept := old(records)[d].accessedAt, records[k].accessedAt;
                gone < kept || (gone == kept && Less(d, k))
    {
      ghost var before := records;
      ok := RunPass(failing);
      forall d, k | d in before && d !in records && k in records && k !in failing
        ensures var gone, kept := before[d].accessedAt, records[k].accessedAt;
                gone < kept || (gone == kept && Less(d, k))
      {
        GoneIsOlder(before, caps, failing, records, ok, d, k);
      }
      PassEndsUnderCaps(before, caps, failing, records, ok);
    }

    method RunPass(failing: set<Bytes>) returns (ok: bool)
      modifies this
      ensures IsPass(old(records), caps, failing, records, ok)
    {
      var items := ScanAll();
      var victims := Victims(items, caps);
      VictimsEvicted(records, caps, items, victims);
      ok := WorkOff(victims, failing);
    }

    /** The workers: each victim still to do is taken by some worker and deleted if it is as it was scanned. */
    method WorkOff(victims: seq<Item>, failing: set<Bytes>) returns (ok: bool)
      requires forall v :: v in victims ==> v.key in records && records[v.key] == v.rec
      modifies this
      ensures records == old(records) - (Keys(victims) - failing)
      ensures ok <==> Keys(victims) !! failing
    {
      ok := true;
      var todo := set v | v in victims;
      while todo != {}
        invariant forall v :: v in todo ==> v in victims
        invariant Distributed(old(records), records, victims, todo, failing, ok)
        decreases todo
      {
        var v :| v in todo;
        WorkedOne(old(records), records, victims, todo, failing, ok, v);
        todo := todo - {v};
        if v.key in failing {
          ok := false;
        } else if v.key in records {
          var current := records[v.key];
          if current.revision == v.rec.revision && current.accessedAt == v.rec.accessedAt {
            records := records - {v.key};
          }
        }
      }
      WorkedAll(old(records), records, victims, failing, ok);
    }
  }

  /** Of some listing of `before`, the victims went whose keys are not in `failing`; `ok` says whether all did. */
  ghost predicate IsPass(before: Records, caps: Caps, failing: set<Bytes>, after: Records, ok: bool) {
    exists items, out ::
      && Lists(before, items) && AreVictims(caps, items, out)
      && after == before - (Keys(out) - failing)
      && (ok <==> Keys(out) !! failing)
  }

  lemma PassEndsUnderCaps(before: Records, caps: Caps, failing: set<Bytes>, after: Records, ok: bool)
    requires IsPass(before, caps, failing, after, ok)
    ensures ok ==>
              forall rest :: Lists(after, rest) ==>
                (caps.bytes > 0 ==> Total(rest) <= caps.bytes) && (caps.items > 0 ==> |rest| <= caps.items)
  {
    var items: seq<Item>, victims: seq<Item> :|
      && Lists(before, items) && AreVictims(caps, items, victims)
      && after == before - (Keys(victims) - failing)
      && (ok <==> Keys(victims) !! failing);
    if ok {
      assert Keys(victims) - failing == Keys(victims);
      VictimsEvicted(before, caps, items, victims);
      forall rest | Lists(after, rest) ensures !OverCaps(caps, rest) {
        EveryScheduleEndsUnderCaps(before, caps, items, victims, victims, rest);
      }
    }
  }

  /** A record that a pass took was accessed before any that it left alone. */
  lemma GoneIsOlder(before: Records, caps: Caps, failing: set<Bytes>, after: Records, ok: bool, d: Bytes, k: Bytes)
    requires IsPass(before, caps, failing, after, ok)
    requires d in before && d !in after && k in after && k !in failing
    ensures k in before && after[k] == before[k]
    ensures var gone, kept := before[d].accessedAt, after[k].accessedAt;
            gone < kept || (gone == kept && Less(d, k))
  {
    var items: seq<Item>, victims: seq<Item> :|
      && Lists(before, items) && AreVictims(caps, items, victims)
      && after == before - (Keys(victims) - failing)
      && (ok <==> Keys(victims) !! failing);
    var v: Item :| v in victims && v.key == d;
    VictimsEvicted(before, caps, items, victims);
    VictimIsOlder(caps, items, victims, v, Item(k, before[k]));
  }

  /** The keys of the victims already worked off. */
  ghost function DoneKeys(victims: seq<Item>, todo: set<Item>): set<Bytes> {
    set v | v in victims && v !in todo :: v.key
  }

  /** Victims off the list are gone from the records unless their transactions failed; `ok` says whether any failed. */
  ghost predicate Distributed(before: Records, records: Records, victims: seq<Item>, todo: set<Item>,
                              failing: set<Bytes>, ok: bool) {
    records == before - (DoneKeys(victims, todo) - failing) && (ok <==> DoneKeys(victims, todo) !! failing)
  }

  lemma WorkedOne(before: Records, records: Records, victims: seq<Item>, todo: set<Item>,
                  failing: set<Bytes>, ok: bool, v: Item)
    requires forall u :: u in victims ==> u.key in before && before[u.key] == u.rec
    requires v in todo && v in victims && Distributed(before, records, victims, todo, failing, ok)
    ensures v.key in failing ==> Distributed(before, records, victims, todo - {v}, failing, false)
    ensures v.key !in failing ==> Distributed(before, Evict(records, v), victims, todo - {v}, failing, ok)
  {
    assert DoneKeys(victims, todo - {v}) == DoneKeys(victims, todo) + {v.key};
    assert v.key !in failing ==>
             before - (DoneKeys(victims, todo) - failing) - {v.key}
             == before - (DoneKeys(victims, todo - {v}) - failing);
  }

  lemma WorkedAll(before: Records, records: Records, victims: seq<Item>, failing: set<Bytes>, ok: bool)
    requires Distributed(before, records, victims, {}, failing, ok)
    ensures records == before - (Keys(victims) - failing) && (ok <==> Keys(victims) !! failing)
  {
    assert DoneKeys(victims, {}) == Keys(victims);
  }

  lemma VictimsEvicted(records: Records, caps: Caps, items: seq<Item>, out: seq<Item>)
    requires Lists(records, items) && AreVictims(caps, items, out)
    ensures forall v :: v in out ==> v.key in records && records[v.key] == v.rec
    ensures EvictAll(records, out) == records - Keys(out)
  {
    forall v | v in out ensures v.key in records && records[v.key] == v.rec {
      ChosenAreStored(records, caps, items, out, v);
    }
    ScheduleDeletesVictims(records, caps, items, out, out);
  }
}
