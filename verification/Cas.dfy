/** Versioned records with compare-and-swap, tombstones, resurrection and a two-step garbage collector. */
module Cas {
  import opened ByteStrings
  import opened Results
  import opened Sorting
  import opened Scans

  /** A record; a record that is not live is a tombstone. `deletedAt` is the zero time when `None`. */
  datatype Record = Record(
    key: Bytes, value: Bytes, revision: nat, live: bool, createdAt: int, updatedAt: int, deletedAt: Option<int>)

  type Records = map<Bytes, Record>

  datatype Config = Config(maxValueBytes: int, retention: int, allowResurrection: bool)
  datatype Error = EmptyKey | TooLarge | Exists | Deleted | NotFound | RevisionMismatch | UpdateFailed

  /** A caller's update function: a new value, or an error that aborts. */
  type Updater = Record -> Option<Bytes>

  predicate TooBig(cfg: Config, value: Bytes) {
    cfg.maxValueBytes > 0 && |value| > cfg.maxValueBytes
  }

  predicate IsLive(recs: Records, key: Bytes) {
    key in recs && recs[key].live
  }

  // ---- What each operation does to the records ----

  datatype Op =
    | Create(key: Bytes, value: Bytes)
    | Swap(key: Bytes, expected: nat, value: Bytes)
    | Update(key: Bytes, f: Updater)
    | Delete(key: Bytes, expected: nat)

  /** The record an operation writes at time `now`: `Ok(None)` when it succeeds without writing. */
  function Written(cfg: Config, recs: Records, op: Op, now: int): Result<Option<Record>, Error> {
    if op.key == [] then Err(EmptyKey) else
    match op
    case Create(key, value) =>
      if TooBig(cfg, value) then Err(TooLarge)
      else if IsLive(recs, key) then Err(Exists)
      else if key in recs && !cfg.allowResurrection then Err(Deleted)
      else if key in recs
      then Ok(Some(Record(key, value, recs[key].revision + 1, true, recs[key].createdAt, now, None)))
      else Ok(Some(Record(key, value, 1, true, now, now, None)))
    case Swap(key, expected, value) =>
      if TooBig(cfg, value) then Err(TooLarge)
      else if !IsLive(recs, key) then Err(NotFound)
      else if recs[key].revision != expected then Err(RevisionMismatch)
      else Ok(Replaced(recs[key], value, now))
    case Update(key, f) =>
      if !IsLive(recs, key) then Err(NotFound)
      else if f(recs[key]).None? then Err(UpdateFailed)
      else if TooBig(cfg, f(recs[key]).value) then Err(TooLarge)
      else Ok(Replaced(recs[key], f(recs[key]).value, now))
    case Delete(key, expected) =>
      if !IsLive(recs, key) then Err(NotFound)
      else if expected != 0 && recs[key].revision != expected then Err(RevisionMismatch)
      else Ok(Some(recs[key].(value := [],
                              live := false,
                              revision := recs[key].revision + 1,
                              updatedAt := now,
                              deletedAt := Some(now))))
  }

  /** An update to an identical value is not written. */
  function Replaced(rec: Record, value: Bytes, now: int): Option<Record> {
    if rec.value == value then None else Some(rec.(value := value, revision := rec.revision + 1, updatedAt := now))
  }

  function Perform(cfg: Config, recs: Records, op: Op, now: int): Records {
    match Written(cfg, recs, op, now)
    case Ok(Some(rec)) => recs[op.key := rec]
    case _ => recs
  }

  predicate OldTombstone(rec: Record, cutoff: int) {
    !rec.live && rec.deletedAt.Some? && rec.deletedAt.value < cutoff
  }

  /** The collector's transaction for one scanned key: expiry is checked again. */
  function Collect(recs: Records, key: Bytes, cutoff: int): Records {
    if key in recs && OldTombstone(recs[key], cutoff) then recs - {key} else recs
  }

  /** `recs` is what is left of `all` after removing some old tombstones. */
  predicate Swept(all: Records, recs: Records, cutoff: int) {
    && (forall k :: k in recs ==> k in all && recs[k] == all[k])
    && (forall k :: k in all && k !in recs ==> OldTombstone(all[k], cutoff))
  }

  predicate NoneLeft(recs: Records, keys: seq<Bytes>) {
    forall k :: k in keys ==> k !in recs
  }

  lemma CollectKeepsSwept(all: Records, recs: Records, done: seq<Bytes>, key: Bytes, cutoff: int)
    requires Swept(all, recs, cutoff) && NoneLeft(recs, done) && key in all && OldTombstone(all[key], cutoff)
    ensures Swept(all, Collect(recs, key, cutoff), cutoff) && NoneLeft(Collect(recs, key, cutoff), done + [key])
  {
  }

  lemma SweptClean(all: Records, recs: Records, expired: seq<Bytes>, cutoff: int)
    requires Swept(all, recs, cutoff) && NoneLeft(recs, expired)
    requires forall k :: k in all && OldTombstone(all[k], cutoff) ==> k in expired
    ensures recs == map k | k in all && !OldTombstone(all[k], cutoff) :: all[k]
  {
  }

  // ---- Listing ----

  datatype ListOptions = ListOptions(prefix: Bytes, startAfter: Bytes, limit: int, includeTombstones: bool)

  /** `next` is where the following page resumes; empty when the listing is exhausted. */
  datatype Page = Page(records: seq<Record>, next: Bytes)

  /** Records are stored under their own keys, which are never empty. */
  ghost predicate OwnKeys(recs: Records) {
    forall k :: k in recs ==> k != [] && recs[k].key == k
  }

  ghost function Shown(recs: Records, o: ListOptions): set<Bytes> {
    set k | k in recs && HasPrefix(k, o.prefix) && (o.startAfter != [] ==> Less(o.startAfter, k))
            && (recs[k].live || o.includeTombstones)
  }

  function At(recs: Records, keys: seq<Bytes>): (r: seq<Record>)
    requires forall k :: k in keys ==> k in recs
    ensures |r| == |keys| && forall i :: 0 <= i < |r| ==> r[i] == recs[keys[i]]
  {
    seq(|keys|, i requires 0 <= i < |keys| => recs[keys[i]])
  }

  function RecordKeys(rs: seq<Record>): (r: seq<Bytes>)
    ensures |r| == |rs| && forall i :: 0 <= i < |r| ==> r[i] == rs[i].key
  {
    seq(|rs|, i requires 0 <= i < |rs| => rs[i].key)
  }

  ghost function InKeyOrder(recs: Records, keys: set<Bytes>): seq<Record>
    requires keys <= recs.Keys
  {
    AscendingSorts(keys);
    At(recs, Ascending(keys))
  }

  /** All records to be shown, ascending by key, whatever the limit. */
  ghost function Listing(recs: Records, o: ListOptions): seq<Record> {
    InKeyOrder(recs, Shown(recs, o))
  }

  ghost predicate IsPage(recs: Records, o: ListOptions, p: Page) {
    && p.records == Truncated(Listing(recs, o), o.limit)
    && p.next == if 0 < o.limit < |Listing(recs, o)| then Listing(recs, o)[o.limit - 1].key else []
  }

  lemma AppendDistinct(rs: seq<Record>, r: Record)
    requires Distinct(RecordKeys(rs)) && forall other :: other in rs ==> other.key != r.key
    ensures Distinct(RecordKeys(rs + [r]))
  {
    forall i | 0 <= i < |rs| ensures RecordKeys(rs)[i] != r.key {
      assert rs[i] in rs;
    }
  }

  predicate KeyAtMost(a: Record, b: Record) {
    AtMost(a.key, b.key)
  }

  lemma {:induction false} InsertKeys(x: Record, s: seq<Record>)
    ensures RecordKeys(Insert(KeyAtMost, x, s)) == Insert(AtMost, x.key, RecordKeys(s))
  {
    if s != [] && !KeyAtMost(x, s[0]) {
      InsertKeys(x, s[1..]);
      assert RecordKeys(s)[1..] == RecordKeys(s[1..]);
    }
  }

  lemma {:induction false} SortKeys(s: seq<Record>)
    ensures RecordKeys(Sort(KeyAtMost, s)) == SortStrings(RecordKeys(s))
    ensures forall r :: r in Sort(KeyAtMost, s) <==> r in s
  {
    if s != [] {
      SortKeys(s[1..]);
      InsertKeys(s[0], Sort(KeyAtMost, s[1..]));
      InsertPermutes(KeyAtMost, s[0], Sort(KeyAtMost, s[1..]));
      assert RecordKeys(s)[1..] == RecordKeys(s[1..]);
    }
  }

  lemma RecordKeyOf(rs: seq<Record>, k: Bytes)
    ensures k in RecordKeys(rs) <==> exists r :: r in rs && r.key == k
  {
    if k in RecordKeys(rs) {
      var i :| 0 <= i < |rs| && RecordKeys(rs)[i] == k;
      assert rs[i] in rs;
    }
    if r :| r in rs && r.key == k {
      var i :| 0 <= i < |rs| && rs[i] == r;
      assert RecordKeys(rs)[i] == k;
    }
  }

  lemma FoundKeys(recs: Records, keys: set<Bytes>, found: seq<Record>, k: Bytes)
    requires keys <= recs.Keys && forall k :: k in keys ==> recs[k].key == k
    requires forall r :: r in found <==> r.key in keys && recs[r.key] == r
    ensures k in RecordKeys(found) <==> k in keys
  {
    RecordKeyOf(found, k);
    if k in keys {
      assert recs[k] in found;
    }
  }

  lemma SortedIsListing(recs: Records, keys: set<Bytes>, found: seq<Record>)
    requires keys <= recs.Keys && forall k :: k in keys ==> recs[k].key == k
    requires Distinct(RecordKeys(found))
    requires forall r :: r in found <==> r.key in keys && recs[r.key] == r
    ensures Sort(KeyAtMost, found) == InKeyOrder(recs, keys)
  {
    var sorted, ordered := Sort(KeyAtMost, found), Ascending(keys);
    SortKeys(found);
    AscendingSorts(keys);
    assert RecordKeys(sorted) == ordered by {
      SortDistinct(RecordKeys(found));
      forall k ensures k in RecordKeys(sorted) <==> k in ordered {
        FoundKeys(recs, keys, found, k);
      }
      StrictlyAscendingUnique(RecordKeys(sorted), ordered);
    }
    forall i | 0 <= i < |sorted| ensures sorted[i] == recs[ordered[i]] {
      assert sorted[i] in sorted && RecordKeys(sorted)[i] == ordered[i];
    }
  }

  class Store {
    const cfg: Config
    var recs: Records

    ghost predicate Valid()
      reads this
    {
      OwnKeys(recs)
    }

    constructor (cfg: Config)
      ensures Valid() && this.cfg == cfg && recs == map[]
    {
      this.cfg, recs := cfg, map[];
    }

    method CreateRecord(key: Bytes, value: Bytes, now: int) returns (r: Result<Record, Error>)
      requires Valid()
      modifies this
      ensures Valid()
      ensures recs == Perform(cfg, old(recs), Create(key, value), now)
      ensures r.Ok? <==> key != [] && !(cfg.maxValueBytes > 0 && |value| > cfg.maxValueBytes)
                         && (key in old(recs) ==> !old(recs)[key].live && cfg.allowResurrection)
      ensures r.Ok? ==>
                && recs == old(recs)[key := r.value]
                && r.value == if key in old(recs)
                              then Record(key, value, old(recs)[key].revision + 1, true, old(recs)[key].createdAt, now,
                                          None)
                              else Record(key, value, 1, true, now, now, None)
      ensures r.Err? ==> recs == old(recs) && Written(cfg, old(recs), Create(key, value), now) == Err(r.error)
      ensures r.Err? ==> r.error == if key == [] then EmptyKey
                                    else if cfg.maxValueBytes > 0 && |value| > cfg.maxValueBytes then TooLarge
                                    else if old(recs)[key].live then Exists
                                    else Deleted
    {
      if key == [] {
        return Err(EmptyKey);
      }
      if cfg.maxValueBytes > 0 && |value| > cfg.maxValueBytes {
        return Err(TooLarge);
      }
      var out := Record(key, value, 1, true, now, now, None);
      if key in recs {
        if recs[key].live {
          return Err(Exists);
        }
        if !cfg.allowResurrection {
          return Err(Deleted);
        }
        out := Record(key, value, recs[key].revision + 1, true, recs[key].createdAt, now, None);
      }
      recs := recs[key := out];
      return Ok(out);
    }

    method CompareAndSwap(key: Bytes, expected: nat, value: Bytes, now: int) returns (r: Result<Record, Error>)
      requires Valid()
      modifies this
      ensures Valid()
      ensures recs == Perform(cfg, old(recs), Swap(key, expected, value), now)
      ensures r.Err? ==> Written(cfg, old(recs), Swap(key, expected, value), now) == Err(r.error)
      ensures r.Ok? <==>
                && key != [] && !(cfg.maxValueBytes > 0 && |value| > cfg.maxValueBytes)
                && key in old(recs) && old(recs)[key].live && old(recs)[key].revision == expected
      ensures r.Ok? && old(recs)[key].value == value ==> recs == old(recs) && r.value == old(recs)[key]
      ensures r.Ok? && old(recs)[key].value != value ==>
                && recs == old(recs)[key := r.value]
                && r.value == old(recs)[key].(value := value, revision := expected + 1, updatedAt := now)
      ensures r.Err? ==> recs == old(recs)
      ensures r.Err? ==> r.error == if key == [] then EmptyKey
                                    else if cfg.maxValueBytes > 0 && |value| > cfg.maxValueBytes then TooLarge
                                    else if key !in old(recs) || !old(recs)[key].live then NotFound
                                    else RevisionMismatch
    {
      if key == [] {
        return Err(EmptyKey);
      }
      if cfg.maxValueBytes > 0 && |value| > cfg.maxValueBytes {
        return Err(TooLarge);
      }
      if key !in recs || !recs[key].live {
        return Err(NotFound);
      }
      if recs[key].revision != expected {
        return Err(RevisionMismatch);
      }
      var out := recs[key];
      if out.value == value {
        return Ok(out);
      }
      out := out.(value := value, revision := out.revision + 1, updatedAt := now);
      recs := recs[key := out];
      return Ok(out);
    }

    method UpdateRecord(key: Bytes, f: Updater, now: int) returns (r: Result<Record, Error>)
      requires Valid()
      modifies this
      ensures Valid()
      ensures recs == Perform(cfg, old(recs), Update(key, f), now)
      ensures r.Err? ==> Written(cfg, old(recs), Update(key, f), now) == Err(r.error)
      ensures r.Ok? <==>
                && key != [] && key in old(recs) && old(recs)[key].live && f(old(recs)[key]).Some?
                && !(cfg.maxValueBytes > 0 && |f(old(recs)[key]).value| > cfg.maxValueBytes)
      ensures r.Ok? && f(old(recs)[key]) == Some(old(recs)[key].value) ==>
                recs == old(recs) && r.value == old(recs)[key]
      ensures r.Ok? && f(old(recs)[key]) != Some(old(recs)[key].value) ==>
                && recs == old(recs)[key := r.value]
                && r.value == old(recs)[key].(value := f(old(recs)[key]).value,
                                              revision := old(recs)[key].revision + 1,
                                              updatedAt := now)
      ensures r.Err? ==> recs == old(recs)
      ensures r.Err? ==> r.error == if key == [] then EmptyKey
                                    else if key !in old(recs) || !old(recs)[key].live then NotFound
                                    else if f(old(recs)[key]).None? then UpdateFailed
                                    else TooLarge
    {
      if key == [] {
        return Err(EmptyKey);
      }
      if key !in recs || !recs[key].live {
        return Err(NotFound);
      }
      var out := recs[key];
      var v := f(out);
      if v.None? {
        return Err(UpdateFailed);
      }
      if cfg.maxValueBytes > 0 && |v.value| > cfg.maxValueBytes {
        return Err(TooLarge);
      }
      if out.value == v.value {
        return Ok(out);
      }
      out := out.(value := v.value, revision := out.revision + 1, updatedAt := now);
      recs := recs[key := out];
      return Ok(out);
    }

    /** An expected revision of zero deletes any revision. */
    method DeleteRecord(key: Bytes, expected: nat, now: int) returns (r: Result<Record, Error>)
      requires Valid()
      modifies this
      ensures Valid()
      ensures recs == Perform(cfg, old(recs), Delete(key, expected), now)
      ensures r.Err? ==> Written(cfg, old(recs), Delete(key, expected), now) == Err(r.error)
      ensures r.Ok? <==>
                key != [] && key in old(recs) && old(recs)[key].live && expected in {0, old(recs)[key].revision}
      ensures r.Ok? ==>
                && recs == old(recs)[key := r.value]
                && r.value == old(recs)[key].(value := [],
                                              live := false,
                                              revision := old(recs)[key].revision + 1,
                                              updatedAt := now,
                                              deletedAt := Some(now))
      ensures r.Err? ==> recs == old(recs)
      ensures r.Err? ==> r.error == if key == [] then EmptyKey
                                    else if key !in old(recs) || !old(recs)[key].live then NotFound
                                    else RevisionMismatch
    {
      if key == [] {
        return Err(EmptyKey);
      }
      if key !in recs || !recs[key].live {
        return Err(NotFound);
      }
      if expected != 0 && recs[key].revision != expected {
        return Err(RevisionMismatch);
      }
      var out := recs[key];
      out := out.(value := [], live := false, revision := out.revision + 1, updatedAt := now, deletedAt := Some(now));
      recs := recs[key := out];
      return Ok(out);
    }

    /** The records to be shown, in no particular order. */
    method Select(o: ListOptions) returns (records: seq<Record>)
      requires Valid()
      ensures Distinct(RecordKeys(records))
      ensures forall r :: r in records <==> r.key in Shown(recs, o) && recs[r.key] == r
    {
      LessIsTotal();
      records := [];
      var todo := recs.Keys;
      while todo != {}
        invariant todo <= recs.Keys && Distinct(RecordKeys(records))
        invariant forall r :: r in records <==> r.key in Shown(recs, o) && r.key !in todo && recs[r.key] == r
        decreases todo
      {
        var k :| k in todo;
        todo := todo - {k};
        if o.prefix != [] && !HasPrefix(k, o.prefix) {
          continue;
        }
        if o.startAfter != [] && AtMost(k, o.startAfter) {
          continue;
        }
        if !recs[k].live && !o.includeTombstones {
          continue;
        }
        AppendDistinct(records, recs[k]);
        records := records + [recs[k]];
      }
    }

    /** Lists live records, and tombstones on request, by key; a full page says where to resume. */
    method List(o: ListOptions) returns (page: Page)
      requires Valid()
      ensures IsPage(recs, o, page) && ShowsAPage(recs, o, page)
    {
      var records := Select(o);
      SortedIsListing(recs, Shown(recs, o), records);
      records := Sort(KeyAtMost, records);
      PageInFields(recs, o);
      if o.limit > 0 && |records| > o.limit {
        records := records[..o.limit];
        return Page(records, records[|records| - 1].key);
      }
      return Page(records, []);
    }

    /** Removes every tombstone older than the retention and returns how many it removed. */
    method GC(now: int) returns (removed: nat)
      requires Valid()
      modifies this
      ensures Valid()
      ensures cfg.retention <= 0 ==> recs == old(recs) && removed == 0
      ensures cfg.retention > 0 ==>
                && (forall k :: k in recs ==> k in old(recs) && recs[k] == old(recs)[k])
                && (forall k :: k in old(recs) ==>
                      (k !in recs <==> && !old(recs)[k].live && old(recs)[k].deletedAt.Some?
                                       && old(recs)[k].deletedAt.value < now - cfg.retention))
      ensures removed == |old(recs)| - |recs|
    {
      if cfg.retention <= 0 {
        return 0;
      }
      var cutoff := now - cfg.retention;
      var expired := Expired(cutoff);
      ghost var all := recs;
      removed := RemoveAll(expired, cutoff);
      SweptClean(all, recs, expired, cutoff);
    }

    /** The collector's loop over the keys its scan found. */
    method RemoveAll(expired: seq<Bytes>, cutoff: int) returns (removed: nat)
      requires Valid() && forall k :: k in expired ==> k in recs && OldTombstone(recs[k], cutoff)
      modifies this
      ensures Valid() && Swept(old(recs), recs, cutoff) && NoneLeft(recs, expired)
      ensures removed == |old(recs)| - |recs|
    {
      removed := 0;
      for i := 0 to |expired|
        invariant Valid() && Swept(old(recs), recs, cutoff) && NoneLeft(recs, expired[..i])
        invariant removed == |old(recs)| - |recs|
      {
        assert expired[..i + 1] == expired[..i] + [expired[i]] && expired[i] in expired;
        CollectKeepsSwept(old(recs), recs, expired[..i], expired[i], cutoff);
        var didRemove := RemoveExpired(expired[i], cutoff);
        if didRemove {
          removed := removed + 1;
        }
      }
      assert expired[..|expired|] == expired;
    }

    /** The collector's transaction for one key. */
    method RemoveExpired(key: Bytes, cutoff: int) returns (didRemove: bool)
      requires Valid()
      modifies this
      ensures Valid()
      ensures recs == Collect(old(recs), key, cutoff)
      ensures didRemove <==> && key in old(recs) && !old(recs)[key].live && old(recs)[key].deletedAt.Some?
                             && old(recs)[key].deletedAt.value < cutoff
      ensures recs == if didRemove then old(recs) - {key} else old(recs)
      ensures |recs| == |old(recs)| - if didRemove then 1 else 0
    {
      didRemove := false;
      if key !in recs {
        return;
      }
      if recs[key].live || recs[key].deletedAt.None? || recs[key].deletedAt.value >= cutoff {
        return;
      }
      ghost var before := recs;
      recs := recs - {key};
      assert before == recs[key := before[key]];
      didRemove := true;
    }

    /** The collector's scan. */
    method Expired(cutoff: int) returns (expired: seq<Bytes>)
      ensures forall k :: k in expired <==> k in recs && OldTombstone(recs[k], cutoff)
    {
      expired := [];
      var todo := recs.Keys;
      while todo != {}
        invariant todo <= recs.Keys
        invariant forall k :: k in expired <==> k in recs && k !in todo && OldTombstone(recs[k], cutoff)
        decreases todo
      {
        var k :| k in todo;
        todo := todo - {k};
        if !recs[k].live && recs[k].deletedAt.Some? && recs[k].deletedAt.value < cutoff {
          expired := expired + [k];
        }
      }
    }
  }

  /** A page is followed by exactly what the listing resumed after it shows; the last page says it is the last. */
  lemma PagesCoverTheListing(recs: Records, o: ListOptions, page: Page)
    requires OwnKeys(recs) && IsPage(recs, o, page)
    ensures page.next == [] <==> page.records == Listing(recs, o)
    ensures page.next != [] ==> Listing(recs, o) == page.records + Listing(recs, o.(startAfter := page.next))
    ensures page.next != [] ==> |page.records| > 0
  {
    if 0 < o.limit < |Listing(recs, o)| {
      FullPage(recs, o, page);
      RestIsShown(recs, o, Ascending(Shown(recs, o)), o.limit);
      SplitListing(recs, o, o.(startAfter := page.next), o.limit);
    }
  }

  lemma FullPage(recs: Records, o: ListOptions, page: Page)
    requires OwnKeys(recs) && IsPage(recs, o, page) && 0 < o.limit < |Listing(recs, o)|
    ensures |Listing(recs, o)| == |Ascending(Shown(recs, o))|
    ensures page.records == Listing(recs, o)[..o.limit] && |page.records| == o.limit
    ensures page.next == Ascending(Shown(recs, o))[o.limit - 1] != []
  {
    AscendingSorts(Shown(recs, o));
    ListedKey(recs, o, o.limit - 1);
  }

  lemma ListedKey(recs: Records, o: ListOptions, i: nat)
    requires OwnKeys(recs) && i < |Ascending(Shown(recs, o))|
    ensures |Listing(recs, o)| == |Ascending(Shown(recs, o))|
    ensures Listing(recs, o)[i].key == Ascending(Shown(recs, o))[i] != []
  {
    AscendingSorts(Shown(recs, o));
    assert Ascending(Shown(recs, o))[i] in Ascending(Shown(recs, o));
  }

  lemma AtSplits(recs: Records, keys: seq<Bytes>, n: nat)
    requires n <= |keys| && forall k :: k in keys ==> k in recs
    ensures forall k :: k in keys[n..] ==> k in recs
    ensures At(recs, keys)[n..] == At(recs, keys[n..])
  {
  }

  lemma SplitListing(recs: Records, o: ListOptions, o': ListOptions, n: nat)
    requires n <= |Ascending(Shown(recs, o))| && Ascending(Shown(recs, o')) == Ascending(Shown(recs, o))[n..]
    ensures n <= |Listing(recs, o)| && Listing(recs, o) == Listing(recs, o)[..n] + Listing(recs, o')
  {
    AscendingSorts(Shown(recs, o));
    AtSplits(recs, Ascending(Shown(recs, o)), n);
    FrontAndRest(Listing(recs, o), n);
  }

  lemma FrontAndRest(s: seq<Record>, n: nat)
    requires n <= |s|
    ensures s == s[..n] + s[n..]
  {
  }

  /** Of an ascending listing, what comes after the n-th key is just what lies behind it. */
  lemma Behind(keys: seq<Bytes>, n: nat, k: Bytes)
    requires StrictlyAscending(keys) && 0 < n <= |keys|
    ensures k in keys[n..] <==> k in keys && Less(keys[n - 1], k)
  {
    LessIsTotal();
    if k in keys && Less(keys[n - 1], k) {
      var i :| 0 <= i < |keys| && keys[i] == k;
      assert i >= n;
      assert keys[n..][i - n] == k;
    }
    if k in keys[n..] {
      var i :| n <= i < |keys| && keys[i] == k;
    }
  }

  /** Resuming after a key that is shown shows exactly what was shown behind it. */
  lemma ShownBehind(recs: Records, o: ListOptions, last: Bytes, k: Bytes)
    requires last in Shown(recs, o) && last != []
    ensures k in Shown(recs, o.(startAfter := last)) <==> k in Shown(recs, o) && Less(last, k)
  {
    if o.startAfter != [] && Less(last, k) {
      LessTransitive(o.startAfter, last, k);
    }
  }

  lemma RestIsShown(recs: Records, o: ListOptions, keys: seq<Bytes>, n: nat)
    requires keys == Ascending(Shown(recs, o)) && 0 < n <= |keys| && keys[n - 1] != []
    ensures Ascending(Shown(recs, o.(startAfter := keys[n - 1]))) == keys[n..]
  {
    var more := Shown(recs, o.(startAfter := keys[n - 1]));
    AscendingSorts(Shown(recs, o));
    AscendingSorts(more);
    assert keys[n - 1] in keys;
    forall k ensures k in Ascending(more) <==> k in keys[n..] {
      Behind(keys, n, k);
      ShownBehind(recs, o, keys[n - 1], k);
    }
    StrictlyAscendingUnique(Ascending(more), keys[n..]);
  }

  ghost function PageOf(recs: Records, o: ListOptions): (p: Page)
    ensures IsPage(recs, o, p)
  {
    var all := Listing(recs, o);
    Page(Truncated(all, o.limit), if 0 < o.limit < |all| then all[o.limit - 1].key else [])
  }

  /** What a listing's caller is shown: in key order, just stored records that were asked for, no more than the limit.
      Whatever else was asked for lies behind the key to resume at, and there is such a key only if something does. */
  ghost predicate ShowsAPage(recs: Records, o: ListOptions, page: Page) {
    && (forall i, j :: 0 <= i < j < |page.records| ==> Less(page.records[i].key, page.records[j].key))
    && (forall r :: r in page.records ==> r.key in recs && recs[r.key] == r && IsListed(r, o))
    && (o.limit > 0 ==> |page.records| <= o.limit)
    && (forall k :: k in recs && IsListed(recs[k], o) && recs[k] !in page.records ==>
          page.next != [] && Less(page.next, k))
    && (page.next != [] ==>
          && 0 < o.limit == |page.records| && page.next == page.records[|page.records| - 1].key
          && exists k :: k in recs && IsListed(recs[k], o) && recs[k] !in page.records)
  }

  ghost predicate IsListed(r: Record, o: ListOptions) {
    && (r.live || o.includeTombstones)
    && (exists rest :: r.key == o.prefix + rest)
    && (o.startAfter == [] || Less(o.startAfter, r.key))
  }

  lemma ListedIsShown(recs: Records, o: ListOptions, k: Bytes)
    requires OwnKeys(recs)
    ensures k in Shown(recs, o) <==> k in recs && IsListed(recs[k], o)
  {
    if HasPrefix(k, o.prefix) {
      assert k == o.prefix + k[|o.prefix|..];
    }
  }

  lemma PageInFields(recs: Records, o: ListOptions)
    requires OwnKeys(recs)
    ensures ShowsAPage(recs, o, PageOf(recs, o))
  {
    var page, all := PageOf(recs, o), Listing(recs, o);
    forall k ensures k in Shown(recs, o) <==> k in recs && IsListed(recs[k], o) {
      ListedIsShown(recs, o, k);
    }
    ListingShows(recs, o);
    PageOrder(recs, o);
    forall k | k in recs && IsListed(recs[k], o) && recs[k] !in page.records
      ensures page.next != [] && Less(page.next, k)
    {
      RecordKeyOf(page.records, k);
      BehindThePage(recs, o, k);
    }
    if page.next != [] {
      NextIsNotShown(recs, o);
    }
  }

  lemma PageOrder(recs: Records, o: ListOptions)
    requires OwnKeys(recs)
    ensures var rs := PageOf(recs, o).records;
            && (forall i, j :: 0 <= i < j < |rs| ==> Less(rs[i].key, rs[j].key))
            && (forall r :: r in rs ==> r in Listing(recs, o))
  {
    var page := PageOf(recs, o);
    PageAscends(recs, o);
    forall i, j | 0 <= i < j < |page.records| ensures Less(page.records[i].key, page.records[j].key) {
      assert Before(RecordKeys(page.records)[i], RecordKeys(page.records)[j], false);
    }
  }

  /** A page that says where to resume has left something out. */
  lemma NextIsNotShown(recs: Records, o: ListOptions)
    requires OwnKeys(recs) && PageOf(recs, o).next != []
    ensures var page := PageOf(recs, o);
            && 0 < o.limit == |page.records| && page.next == page.records[|page.records| - 1].key
            && exists r :: r in Listing(recs, o) && r !in page.records
  {
    var page, all := PageOf(recs, o), Listing(recs, o);
    ListingShows(recs, o);
    var r := all[o.limit];
    forall i | 0 <= i < |page.records| ensures page.records[i] != r {
      assert Before(RecordKeys(all)[i], RecordKeys(all)[o.limit], false);
      LessTrichotomy(all[i].key, r.key);
    }
  }

  /** Asking for page after page until none is left. */
  ghost function AllPages(recs: Records, o: ListOptions): seq<Record>
    requires OwnKeys(recs)
    decreases |Listing(recs, o)|
  {
    var page := PageOf(recs, o);
    PagesCoverTheListing(recs, o, page);
    if page.next == [] then page.records else page.records + AllPages(recs, o.(startAfter := page.next))
  }

  /** Paging with any limit shows every record exactly once, in key order. */
  lemma {:induction false} PagingLosesNothing(recs: Records, o: ListOptions)
    requires OwnKeys(recs)
    ensures AllPages(recs, o) == Listing(recs, o)
    ensures StrictlyAscending(RecordKeys(Listing(recs, o)))
    ensures forall r :: r in Listing(recs, o) <==> r.key in Shown(recs, o) && recs[r.key] == r
    decreases |Listing(recs, o)|
  {
    var page := PageOf(recs, o);
    PagesCoverTheListing(recs, o, page);
    if page.next != [] {
      PagingLosesNothing(recs, o.(startAfter := page.next));
    }
    ListingShows(recs, o);
  }

  lemma ListingShows(recs: Records, o: ListOptions)
    requires OwnKeys(recs)
    ensures StrictlyAscending(RecordKeys(Listing(recs, o)))
    ensures forall r :: r in Listing(recs, o) <==> r.key in Shown(recs, o) && recs[r.key] == r
  {
    var keys, all := Ascending(Shown(recs, o)), Listing(recs, o);
    AscendingSorts(Shown(recs, o));
    forall i | 0 <= i < |keys| ensures RecordKeys(all)[i] == keys[i] {
      ListedKey(recs, o, i);
    }
    forall r ensures r in all <==> r.key in Shown(recs, o) && recs[r.key] == r {
      if r in all {
        var i :| 0 <= i < |all| && all[i] == r;
        assert keys[i] in keys;
      }
      if r.key in Shown(recs, o) && recs[r.key] == r {
        var i :| 0 <= i < |keys| && keys[i] == r.key;
        assert all[i] == r;
      }
    }
  }

  // ---- Interleavings ----

  /** A `GC` call in flight: its cutoff, the keys it still has to visit, how many records it has removed. */
  datatype Collector = Collector(cutoff: int, todo: seq<Bytes>, removed: nat)

  /** The records, the collectors in flight, and for each key the records written since it was last collected. */
  datatype Sys = Sys(recs: Records, collectors: map<nat, Collector>, log: map<Bytes, seq<Record>>)

  datatype Step =
    | DoOp(op: Op, now: int)
    | StartGC(c: nat, cutoff: int, todo: seq<Bytes>)
    | VisitKey(c: nat)

  function Log(s: Sys, key: Bytes): seq<Record> {
    if key in s.log then s.log[key] else []
  }

  /** A scan finds exactly the old tombstones; its cutoff is fixed then. */
  ghost predicate Enabled(s: Sys, a: Step) {
    match a
    case DoOp(_, _) => true
    case StartGC(c, cutoff, todo) =>
      c !in s.collectors && forall k :: k in todo <==> k in s.recs && OldTombstone(s.recs[k], cutoff)
    case VisitKey(c) => c in s.collectors && s.collectors[c].todo != []
  }

  function ApplyOp(cfg: Config, s: Sys, op: Op, now: int): Sys {
    match Written(cfg, s.recs, op, now)
    case Ok(Some(rec)) => s.(recs := s.recs[op.key := rec], log := s.log[op.key := Log(s, op.key) + [rec]])
    case _ => s
  }

  function ApplyVisit(s: Sys, c: nat): Sys
    requires c in s.collectors && s.collectors[c].todo != []
  {
    var g := s.collectors[c];
    var key := g.todo[0];
    if key in s.recs && OldTombstone(s.recs[key], g.cutoff)
    then s.(recs := s.recs - {key},
            log := s.log - {key},
            collectors := s.collectors[c := g.(todo := g.todo[1..], removed := g.removed + 1)])
    else s.(collectors := s.collectors[c := g.(todo := g.todo[1..])])
  }

  function Apply(cfg: Config, s: Sys, a: Step): Sys
    requires a.VisitKey? ==> a.c in s.collectors && s.collectors[a.c].todo != []
  {
    match a
    case DoOp(op, now) => ApplyOp(cfg, s, op, now)
    case StartGC(c, cutoff, todo) => s.(collectors := s.collectors[c := Collector(cutoff, todo, 0)])
    case VisitKey(c) => ApplyVisit(s, c)
  }

  ghost predicate Follows(cfg: Config, s: Sys, a: Step, t: Sys) {
    Enabled(s, a) && t == Apply(cfg, s, a)
  }

  ghost predicate IsRun(cfg: Config, states: seq<Sys>, steps: seq<Step>) {
    && |states| == |steps| + 1
    && forall i {:trigger steps[i]} :: 0 <= i < |steps| ==> Follows(cfg, states[i], steps[i], states[i + 1])
  }

  const EMPTY := Sys(map[], map[], map[])

  /** The stored record is the last one written, and the n-th write has revision n. */
  ghost predicate LogOk(s: Sys, key: Bytes) {
    var log := Log(s, key);
    && (key in s.recs <==> log != [])
    && (key in s.recs ==> s.recs[key] == log[|log| - 1])
    && forall i :: 0 <= i < |log| ==> log[i].revision == i + 1
  }

  /** Every key's log is in order, and records stay under their own non-empty keys. */
  ghost predicate SysOk(s: Sys) {
    (forall key :: LogOk(s, key)) && OwnKeys(s.recs)
  }

  /** Every write takes the next revision. */
  lemma WritesCountUp(cfg: Config, recs: Records, op: Op, now: int)
    requires Written(cfg, recs, op, now).Ok? && Written(cfg, recs, op, now).value.Some?
    ensures Written(cfg, recs, op, now).value.value.revision == if op.key in recs then recs[op.key].revision + 1 else 1
  {
  }

  lemma AppendKeepsLog(s: Sys, key: Bytes, rec: Record, t: Sys)
    requires LogOk(s, key) && t == s.(recs := s.recs[key := rec], log := s.log[key := Log(s, key) + [rec]])
    requires rec.revision == if key in s.recs then s.recs[key].revision + 1 else 1
    ensures LogOk(t, key)
  {
  }

  lemma WritesOwnKey(cfg: Config, recs: Records, op: Op, now: int)
    requires OwnKeys(recs)
    ensures OwnKeys(Perform(cfg, recs, op, now))
  {
  }

  lemma OpKeepsSys(cfg: Config, s: Sys, op: Op, now: int)
    requires SysOk(s)
    ensures SysOk(ApplyOp(cfg, s, op, now))
  {
    var t, w := ApplyOp(cfg, s, op, now), Written(cfg, s.recs, op, now);
    if w.Ok? && w.value.Some? {
      WritesCountUp(cfg, s.recs, op, now);
      WritesOwnKey(cfg, s.recs, op, now);
      assert LogOk(s, op.key);
      AppendKeepsLog(s, op.key, w.value.value, t);
      forall key ensures LogOk(t, key) {
        assert LogOk(s, key);
      }
    }
  }

  lemma CollectedKeepsLog(s: Sys, key: Bytes, other: Bytes, t: Sys)
    requires LogOk(s, other) && t.recs == s.recs - {key} && t.log == s.log - {key}
    ensures LogOk(t, other)
  {
    if other != key {
      assert Log(t, other) == Log(s, other);
    }
  }

  lemma VisitKeepsSys(s: Sys, c: nat)
    requires SysOk(s) && Enabled(s, VisitKey(c))
    ensures SysOk(ApplyVisit(s, c))
  {
    var t, key := ApplyVisit(s, c), s.collectors[c].todo[0];
    forall other ensures LogOk(t, other) {
      assert LogOk(s, other);
      if t.recs != s.recs {
        CollectedKeepsLog(s, key, other, t);
      }
    }
  }

  lemma StepKeepsSys(cfg: Config, s: Sys, a: Step, t: Sys)
    requires SysOk(s) && Follows(cfg, s, a, t)
    ensures SysOk(t)
  {
    match a {
      case DoOp(op, now) => OpKeepsSys(cfg, s, op, now);
      case VisitKey(c) => VisitKeepsSys(s, c);
      case StartGC(_, _, _) =>
        forall key ensures LogOk(t, key) {
          assert LogOk(s, key);
        }
    }
  }

  lemma {:induction false} RunKeepsSys(cfg: Config, states: seq<Sys>, steps: seq<Step>, i: nat)
    requires IsRun(cfg, states, steps) && states[0] == EMPTY && i < |states|
    ensures SysOk(states[i])
  {
    if i == 0 {
      assert forall key :: LogOk(EMPTY, key);
    } else {
      RunKeepsSys(cfg, states, steps, i - 1);
      assert Follows(cfg, states[i - 1], steps[i - 1], states[i]);
      StepKeepsSys(cfg, states[i - 1], steps[i - 1], states[i]);
    }
  }

  /** Between collections of a key each revision names one record: the n-th written. */
  lemma RevisionNamesOneRecord(cfg: Config, states: seq<Sys>, steps: seq<Step>, i: nat, key: Bytes)
    requires IsRun(cfg, states, steps) && states[0] == EMPTY && i < |states| && key in states[i].recs
    ensures var log, rec := Log(states[i], key), states[i].recs[key];
            0 < rec.revision == |log| && log[rec.revision - 1] == rec && forall n :: 0 <= n < |log| ==>
                log[n].revision == n + 1
  {
    RunKeepsSys(cfg, states, steps, i);
    assert LogOk(states[i], key);
  }

  // ---- Paging while others write ----

  /** The pages of a caller that asks for page after page, each taken from the records of its own moment. */
  ghost function PagesOver(moments: seq<Records>, o: ListOptions): seq<Page> {
    if moments == [] then [] else
      var page := PageOf(moments[0], o);
      [page] + if page.next == [] then [] else PagesOver(moments[1..], o.(startAfter := page.next))
  }

  function KeysOfPages(pages: seq<Page>): seq<Bytes> {
    if pages == [] then [] else RecordKeys(pages[0].records) + KeysOfPages(pages[1..])
  }

  predicate Finished(pages: seq<Page>) {
    pages != [] && pages[|pages| - 1].next == []
  }

  ghost predicate AllOwnKeys(moments: seq<Records>) {
    forall recs :: recs in moments ==> OwnKeys(recs)
  }

  predicate After(keys: seq<Bytes>, start: Bytes) {
    start != [] ==> forall k :: k in keys ==> Less(start, k)
  }

  predicate AscendAfter(keys: seq<Bytes>, start: Bytes) {
    StrictlyAscending(keys) && After(keys, start)
  }

  /** A page shows the first of the keys to be shown; if not all, it names the last one it shows. */
  lemma PageShows(recs: Records, o: ListOptions)
    requires OwnKeys(recs)
    ensures var page, all := PageOf(recs, o), Ascending(Shown(recs, o));
            var keys := RecordKeys(page.records);
            && keys <= all
            && (if page.next == [] then keys == all else keys != [] && keys[|keys| - 1] == page.next)
  {
    var page, all := PageOf(recs, o), Ascending(Shown(recs, o));
    ListingKeys(recs, o);
    if 0 < o.limit < |Listing(recs, o)| {
      FullPage(recs, o, page);
      assert RecordKeys(page.records) == all[..o.limit];
    }
  }

  lemma ListingKeys(recs: Records, o: ListOptions)
    requires OwnKeys(recs)
    ensures RecordKeys(Listing(recs, o)) == Ascending(Shown(recs, o))
  {
    AscendingSorts(Shown(recs, o));
    forall i | 0 <= i < |Ascending(Shown(recs, o))|
      ensures RecordKeys(Listing(recs, o))[i] == Ascending(Shown(recs, o))[i]
    {
      ListedKey(recs, o, i);
    }
  }

  lemma PageAscends(recs: Records, o: ListOptions)
    requires OwnKeys(recs)
    ensures AscendAfter(RecordKeys(PageOf(recs, o).records), o.startAfter)
  {
    var keys, all := RecordKeys(PageOf(recs, o).records), Ascending(Shown(recs, o));
    PageShows(recs, o);
    AscendingSorts(Shown(recs, o));
    assert keys == all[..|keys|];
    forall k | k in keys ensures k in Shown(recs, o) {
      assert k in all;
    }
  }

  lemma LaterIsAfter(keys: seq<Bytes>, start: Bytes, next: Bytes)
    requires After(keys, next) && next != [] && (start != [] ==> Less(start, next))
    ensures After(keys, start)
  {
    if start != [] {
      forall k | k in keys ensures Less(start, k) {
        LessTransitive(start, next, k);
      }
    }
  }

  lemma KeysOfFirstPage(moments: seq<Records>, o: ListOptions)
    requires moments != []
    ensures var page := PageOf(moments[0], o);
            var rest := if page.next == [] then [] else PagesOver(moments[1..], o.(startAfter := page.next));
            KeysOfPages(PagesOver(moments, o)) == RecordKeys(page.records) + KeysOfPages(rest)
  {
    var page := PageOf(moments[0], o);
    var rest := if page.next == [] then [] else PagesOver(moments[1..], o.(startAfter := page.next));
    assert PagesOver(moments, o) == [page] + rest;
  }

  lemma KeysFollowOn(keys: seq<Bytes>, rest: seq<Bytes>, start: Bytes)
    requires keys != [] && keys[|keys| - 1] != []
    requires AscendAfter(keys, start) && AscendAfter(rest, keys[|keys| - 1])
    ensures AscendAfter(keys + rest, start)
  {
    var next := keys[|keys| - 1];
    assert next in keys;
    OrderedConcat(keys, rest, false);
    LaterIsAfter(rest, start, next);
  }

  lemma PageThenRest(recs: Records, o: ListOptions, rest: seq<Bytes>)
    requires OwnKeys(recs)
    requires var page := PageOf(recs, o); if page.next == [] then rest == [] else AscendAfter(rest, page.next)
    ensures AscendAfter(RecordKeys(PageOf(recs, o).records) + rest, o.startAfter)
  {
    var page := PageOf(recs, o);
    var keys := RecordKeys(page.records);
    PageAscends(recs, o);
    if page.next == [] {
      assert keys + rest == keys;
    } else {
      PageShows(recs, o);
      KeysFollowOn(keys, rest, o.startAfter);
    }
  }

  /** Whatever is written between the pages, their keys ascend strictly: no key is shown twice. */
  lemma {:induction false} PagesAscend(moments: seq<Records>, o: ListOptions)
    requires AllOwnKeys(moments)
    ensures AscendAfter(KeysOfPages(PagesOver(moments, o)), o.startAfter)
    decreases |moments|
  {
    if moments != [] {
      var page := PageOf(moments[0], o);
      var o' := o.(startAfter := page.next);
      var rest := if page.next == [] then [] else PagesOver(moments[1..], o');
      if page.next != [] {
        PagesAscend(moments[1..], o');
      }
      PageThenRest(moments[0], o, KeysOfPages(rest));
      KeysOfFirstPage(moments, o);
    }
  }

  ghost predicate AlwaysShown(moments: seq<Records>, o: ListOptions, k: Bytes) {
    forall recs :: recs in moments ==> k in Shown(recs, o)
  }

  lemma BehindThePrefix(keys: seq<Bytes>, all: seq<Bytes>, k: Bytes)
    requires StrictlyAscending(all) && keys <= all && keys != [] && k in all && k !in keys
    ensures Less(keys[|keys| - 1], k)
  {
    var i :| 0 <= i < |all| && all[i] == k;
    assert forall n :: 0 <= n < |keys| ==> keys[n] == all[n];
  }

  /** A key that a page does not reach is still to be shown behind it. */
  lemma BehindThePage(recs: Records, o: ListOptions, k: Bytes)
    requires OwnKeys(recs) && k in Shown(recs, o) && k !in RecordKeys(PageOf(recs, o).records)
    ensures PageOf(recs, o).next != [] && Less(PageOf(recs, o).next, k)
  {
    var keys, all := RecordKeys(PageOf(recs, o).records), Ascending(Shown(recs, o));
    PageShows(recs, o);
    AscendingSorts(Shown(recs, o));
    assert k in all;
    if PageOf(recs, o).next != [] {
      BehindThePrefix(keys, all, k);
    }
  }

  /** A key shown at every moment a page is taken is on some page, once the pages come to their end. */
  lemma {:induction false} SteadyKeyIsShown(moments: seq<Records>, o: ListOptions, k: Bytes)
    requires AllOwnKeys(moments) && AlwaysShown(moments, o, k) && Finished(PagesOver(moments, o))
    ensures k in KeysOfPages(PagesOver(moments, o))
    decreases |moments|
  {
    var pages, page := PagesOver(moments, o), PageOf(moments[0], o);
    assert moments[0] in moments;
    if k !in RecordKeys(page.records) {
      BehindThePage(moments[0], o, k);
      var o' := o.(startAfter := page.next);
      assert pages[1..] == PagesOver(moments[1..], o');
      forall recs | recs in moments[1..] ensures k in Shown(recs, o') {
        assert k in Shown(recs, o);
      }
      SteadyKeyIsShown(moments[1..], o', k);
    }
  }

  /** The records of a run at the given moments. */
  function RecordsAt(states: seq<Sys>, moments: seq<nat>): (r: seq<Records>)
    requires forall m :: m in moments ==> m < |states|
    ensures |r| == |moments|
    ensures forall i :: 0 <= i < |r| ==> moments[i] in moments && r[i] == states[moments[i]].recs
  {
    seq(|moments|, i requires 0 <= i < |moments| => assert moments[i] in moments; states[moments[i]].recs)
  }

  /** In every run, pages taken at any moments, with any writes and collections between them: keys strictly ascend over
      all pages, and a key shown at every one of those moments is among them, once the last page says it is the last. */
  lemma PagingInRuns(cfg: Config, states: seq<Sys>, steps: seq<Step>, moments: seq<nat>, o: ListOptions)
    requires IsRun(cfg, states, steps) && states[0] == EMPTY && forall m :: m in moments ==> m < |states|
    ensures var pages := PagesOver(RecordsAt(states, moments), o);
            && StrictlyAscending(KeysOfPages(pages))
            && (Finished(pages) ==>
                  forall k :: AlwaysShown(RecordsAt(states, moments), o, k) ==> k in KeysOfPages(pages))
  {
    var at := RecordsAt(states, moments);
    forall recs | recs in at ensures OwnKeys(recs) {
      var i :| 0 <= i < |at| && at[i] == recs;
      assert moments[i] in moments;
      RunKeepsSys(cfg, states, steps, moments[i]);
    }
    PagesAscend(at, o);
    forall k | Finished(PagesOver(at, o)) && AlwaysShown(at, o, k) ensures k in KeysOfPages(PagesOver(at, o)) {
      SteadyKeyIsShown(at, o, k);
    }
  }

  predicate Collected(s: Sys, t: Sys, key: Bytes) {
    key in s.recs && key !in t.recs
  }

  /** No step from state `i` up to state `j` collects `key`. */
  ghost predicate Uncollected(states: seq<Sys>, i: nat, j: nat, key: Bytes)
    requires j < |states|
  {
    forall n :: i <= n < j ==> !Collected(states[n], states[n + 1], key)
  }

  lemma {:induction false} UncollectedStays(states: seq<Sys>, i: nat, j: nat, key: Bytes, n: nat)
    requires i <= n <= j < |states| && Uncollected(states, i, j, key) && key in states[i].recs
    ensures key in states[n].recs
    decreases n
  {
    if i < n {
      UncollectedStays(states, i, j, key, n - 1);
      assert !Collected(states[n - 1], states[n], key);
    }
  }

  lemma LogGrows(cfg: Config, s: Sys, a: Step, t: Sys, key: Bytes)
    requires SysOk(s) && Follows(cfg, s, a, t) && key in s.recs && key in t.recs
    ensures Log(s, key) <= Log(t, key)
    ensures |Log(t, key)| <= |Log(s, key)| + 1
  {
    assert LogOk(s, key);
  }

  lemma {:induction false} LogGrowsOverRun(cfg: Config, states: seq<Sys>, steps: seq<Step>, i: nat, j: nat, key: Bytes)
    requires IsRun(cfg, states, steps) && states[0] == EMPTY && i <= j < |states|
    requires key in states[i].recs && Uncollected(states, i, j, key)
    ensures Log(states[i], key) <= Log(states[j], key)
    decreases j
  {
    if i < j {
      LogGrowsOverRun(cfg, states, steps, i, j - 1, key);
      RunKeepsSys(cfg, states, steps, j - 1);
      UncollectedStays(states, i, j, key, j - 1);
      UncollectedStays(states, i, j, key, j);
      assert Follows(cfg, states[j - 1], steps[j - 1], states[j]);
      LogGrows(cfg, states[j - 1], steps[j - 1], states[j], key);
    }
  }

  lemma SwappedStateUntouched(cfg: Config, states: seq<Sys>, steps: seq<Step>, i: nat, j: nat, key: Bytes, n: nat)
    requires IsRun(cfg, states, steps) && states[0] == EMPTY && i <= n <= j < |states|
    requires key in states[i].recs && Uncollected(states, i, j, key)
    requires key in states[j].recs && states[j].recs[key].revision == states[i].recs[key].revision
    ensures key in states[n].recs && states[n].recs[key] == states[i].recs[key]
  {
    UncollectedStays(states, i, j, key, n);
    LogGrowsOverRun(cfg, states, steps, i, n, key);
    LogGrowsOverRun(cfg, states, steps, n, j, key);
    RevisionNamesOneRecord(cfg, states, steps, i, key);
    RevisionNamesOneRecord(cfg, states, steps, n, key);
    RevisionNamesOneRecord(cfg, states, steps, j, key);
  }

  /** What a compare-and-swap proves that succeeds on a revision read earlier: that nothing was written since the read,
      every state in between holding the very record that was read, exactly when the key was not collected since. */
  lemma SwapProvesUntouched(cfg: Config, states: seq<Sys>, steps: seq<Step>, i: nat, j: nat,
                            key: Bytes, value: Bytes, now: int)
    requires IsRun(cfg, states, steps) && states[0] == EMPTY && i <= j < |states| && key in states[i].recs
    requires Written(cfg, states[j].recs, Swap(key, states[i].recs[key].revision, value), now).Ok?
    ensures (forall n :: i <= n <= j ==> key in states[n].recs && states[n].recs[key] == states[i].recs[key])
            <==> Uncollected(states, i, j, key)
  {
    if Uncollected(states, i, j, key) {
      forall n | i <= n <= j ensures key in states[n].recs && states[n].recs[key] == states[i].recs[key] {
        SwappedStateUntouched(cfg, states, steps, i, j, key, n);
      }
    }
  }

  /** Records leave the store only through a collector's visit, which takes one old tombstone. */
  lemma OnlyCollectorsRemove(cfg: Config, s: Sys, a: Step, t: Sys, key: Bytes)
    requires Follows(cfg, s, a, t) && Collected(s, t, key)
    ensures a.VisitKey? && t.recs == s.recs - {key}
    ensures OldTombstone(s.recs[key], s.collectors[a.c].cutoff)
  {
  }

  // ---- What collectors report ----

  /** The step is a visit by collector `c` that removes a record. */
  predicate Removes(s: Sys, a: Step, t: Sys, c: nat) {
    a == VisitKey(c) && t.recs != s.recs
  }

  /** How many of the first `i` steps are removals by `c`. */
  ghost function Removals(states: seq<Sys>, steps: seq<Step>, c: nat, i: nat): nat
    requires i <= |steps| < |states|
  {
    if i == 0 then 0
    else Removals(states, steps, c, i - 1) + if Removes(states[i - 1], steps[i - 1], states[i], c) then 1 else 0
  }

  ghost predicate TookOldTombstone(s: Sys, t: Sys, cutoff: int) {
    exists key :: key in s.recs && OldTombstone(s.recs[key], cutoff) && t.recs == s.recs - {key}
  }

  /** What a step does to the count of `c`, and to its cutoff. */
  lemma StepCounts(cfg: Config, s: Sys, a: Step, t: Sys, c: nat)
    requires Follows(cfg, s, a, t)
    ensures c in s.collectors ==>
              && c in t.collectors && t.collectors[c].cutoff == s.collectors[c].cutoff
              && t.collectors[c].removed == s.collectors[c].removed + if Removes(s, a, t, c) then 1 else 0
    ensures c !in s.collectors ==>
              && !Removes(s, a, t, c)
              && (c in t.collectors ==> t.collectors[c].removed == 0)
    ensures Removes(s, a, t, c) ==>
              TookOldTombstone(s, t, s.collectors[c].cutoff)
  {
    if Removes(s, a, t, c) {
      assert s.collectors[c].todo[0] in s.recs;
    }
  }

  lemma {:induction false} CountsOverRun(cfg: Config, states: seq<Sys>, steps: seq<Step>, i: nat, c: nat)
    requires IsRun(cfg, states, steps) && states[0] == EMPTY && i < |states|
    ensures Removals(states, steps, c, i) == if c in states[i].collectors then states[i].collectors[c].removed else 0
  {
    if i > 0 {
      CountsOverRun(cfg, states, steps, i - 1, c);
      assert Follows(cfg, states[i - 1], steps[i - 1], states[i]);
      StepCounts(cfg, states[i - 1], steps[i - 1], states[i], c);
    }
  }

  lemma {:induction false} CutoffStays(cfg: Config, states: seq<Sys>, steps: seq<Step>, n: nat, i: nat, c: nat)
    requires IsRun(cfg, states, steps) && n <= i < |states| && c in states[n].collectors
    ensures c in states[i].collectors && states[i].collectors[c].cutoff == states[n].collectors[c].cutoff
    decreases i
  {
    if n < i {
      CutoffStays(cfg, states, steps, n, i - 1, c);
      assert Follows(cfg, states[i - 1], steps[i - 1], states[i]);
      StepCounts(cfg, states[i - 1], steps[i - 1], states[i], c);
    }
  }

  /** In every run what a collector reports is exactly how many records it removed, and each of them was at that moment
      a tombstone older than its cutoff. */
  lemma CollectorsCountExactly(cfg: Config, states: seq<Sys>, steps: seq<Step>, i: nat, c: nat)
    requires IsRun(cfg, states, steps) && states[0] == EMPTY && i < |states| && c in states[i].collectors
    ensures states[i].collectors[c].removed == Removals(states, steps, c, i)
    ensures forall n :: 0 <= n < i && Removes(states[n], steps[n], states[n + 1], c) ==>
              TookOldTombstone(states[n], states[n + 1], states[i].collectors[c].cutoff)
  {
    CountsOverRun(cfg, states, steps, i, c);
    forall n | 0 <= n < i && Removes(states[n], steps[n], states[n + 1], c)
      ensures TookOldTombstone(states[n], states[n + 1], states[i].collectors[c].cutoff)
    {
      assert Follows(cfg, states[n], steps[n], states[n + 1]);
      StepCounts(cfg, states[n], steps[n], states[n + 1], c);
      CutoffStays(cfg, states, steps, n, i, c);
    }
  }

  /** The key was not stored as an old tombstone at some moment from `a` to `n`. */
  ghost predicate WasClear(states: seq<Sys>, a: nat, n: nat, key: Bytes, cutoff: int) {
    n < |states| && exists m :: a <= m <= n && !(key in states[m].recs && OldTombstone(states[m].recs[key], cutoff))
  }

  /** Of the keys its scan found at `a`, the collector has `todo` left at `n`, and the others were clear since. */
  ghost predicate HasVisited(states: seq<Sys>, a: nat, n: nat, c: nat, cutoff: int, found: seq<Bytes>) {
    && n < |states| && c in states[n].collectors && states[n].collectors[c].cutoff == cutoff
    && var todo := states[n].collectors[c].todo;
       && |todo| <= |found| && todo == found[|found| - |todo|..]
       && forall k :: k in found[..|found| - |todo|] ==> WasClear(states, a, n, k, cutoff)
  }

  lemma VisitClears(cfg: Config, s: Sys, a: Step, t: Sys, c: nat)
    requires Follows(cfg, s, a, t) && c in s.collectors && a == VisitKey(c)
    ensures var g, key := s.collectors[c], s.collectors[c].todo[0];
            && c in t.collectors && t.collectors[c].cutoff == g.cutoff && t.collectors[c].todo == g.todo[1..]
            && !(key in t.recs && OldTombstone(t.recs[key], g.cutoff))
  {
  }

  lemma OtherStepsLeave(cfg: Config, s: Sys, a: Step, t: Sys, c: nat)
    requires Follows(cfg, s, a, t) && c in s.collectors && a != VisitKey(c)
    ensures c in t.collectors && t.collectors[c] == s.collectors[c]
  {
  }

  lemma NextVisit(cfg: Config, states: seq<Sys>, steps: seq<Step>, a: nat, n: nat, c: nat, cutoff: int,
                  found: seq<Bytes>)
    requires IsRun(cfg, states, steps) && a <= n < |steps| && HasVisited(states, a, n, c, cutoff, found)
    ensures HasVisited(states, a, n + 1, c, cutoff, found)
  {
    var s, t := states[n], states[n + 1];
    assert Follows(cfg, s, steps[n], t);
    var todo := s.collectors[c].todo;
    var done := |found| - |todo|;
    forall k | k in found[..done] ensures WasClear(states, a, n + 1, k, cutoff) {
      assert WasClear(states, a, n, k, cutoff);
    }
    if steps[n] == VisitKey(c) {
      VisitClears(cfg, s, steps[n], t, c);
      assert found[..done + 1] == found[..done] + [todo[0]];
      assert WasClear(states, a, n + 1, todo[0], cutoff);
    } else {
      OtherStepsLeave(cfg, s, steps[n], t, c);
    }
  }

  lemma {:induction false} VisitsGoOn(cfg: Config, states: seq<Sys>, steps: seq<Step>, a: nat, n: nat, c: nat,
                                      cutoff: int, found: seq<Bytes>)
    requires IsRun(cfg, states, steps) && a < n < |states| && steps[a] == StartGC(c, cutoff, found)
    ensures HasVisited(states, a, n, c, cutoff, found)
    decreases n
  {
    if n == a + 1 {
      assert Follows(cfg, states[a], steps[a], states[n]);
    } else {
      VisitsGoOn(cfg, states, steps, a, n - 1, c, cutoff, found);
      NextVisit(cfg, states, steps, a, n - 1, c, cutoff, found);
    }
  }

  /** In every run, by the time a collector has no key left to visit, each key that was an old tombstone when it began
      has been gone, or something else than that, at some moment since. */
  lemma FinishedCollectorVisitedAll(cfg: Config, states: seq<Sys>, steps: seq<Step>, a: nat, n: nat, c: nat,
                                    cutoff: int, found: seq<Bytes>, key: Bytes)
    requires IsRun(cfg, states, steps) && a < n < |states| && steps[a] == StartGC(c, cutoff, found)
    requires c in states[n].collectors && states[n].collectors[c].todo == []
    requires key in states[a].recs && !states[a].recs[key].live && states[a].recs[key].deletedAt.Some?
             && states[a].recs[key].deletedAt.value < cutoff
    ensures exists m :: a < m <= n && (key in states[m].recs && !states[m].recs[key].live ==>
              states[m].recs[key].deletedAt.None? || states[m].recs[key].deletedAt.value >= cutoff)
  {
    assert Follows(cfg, states[a], steps[a], states[a + 1]);
    VisitsGoOn(cfg, states, steps, a, n, c, cutoff, found);
    assert found[..|found|] == found && key in found;
    assert WasClear(states, a, n, key, cutoff);
    var m :| a <= m <= n && !(key in states[m].recs && OldTombstone(states[m].recs[key], cutoff));
    assert m != a;
  }

  // ---- Revisions restart ----

  function Created(key: Bytes, value: Bytes, now: int): Record {
    Record(key, value, 1, true, now, now, None)
  }

  function Buried(key: Bytes): Record {
    Record(key, [], 2, false, 0, 1, Some(1))
  }

  /** Create, delete, collect, create: the run's states one by one. */
  function RestartStates(key: Bytes, first: Bytes, second: Bytes): seq<Sys> {
    var created, buried, again := Created(key, first, 0), Buried(key), Created(key, second, 3);
    [EMPTY,
     Sys(map[key := created], map[], map[key := [created]]),
     Sys(map[key := buried], map[], map[key := [created, buried]]),
     Sys(map[key := buried], map[0 := Collector(2, [key], 0)], map[key := [created, buried]]),
     Sys(map[], map[0 := Collector(2, [], 1)], map[]),
     Sys(map[key := again], map[0 := Collector(2, [], 1)], map[key := [again]])]
  }

  function RestartSteps(key: Bytes, first: Bytes, second: Bytes): seq<Step> {
    [DoOp(Create(key, first), 0),
     DoOp(Delete(key, 1), 1),
     StartGC(0, 2, [key]),
     VisitKey(0),
     DoOp(Create(key, second), 3)]
  }

  /** The exception is real: in this run the key is collected after its revision 1 was read and created again, and a
      swap that expects the revision that was read succeeds on another value. */
  lemma RevisionsRestartAfterCollection(cfg: Config, key: Bytes, first: Bytes, second: Bytes, third: Bytes, now: int)
    requires key != [] && first != second && !TooBig(cfg, first) && !TooBig(cfg, second) && !TooBig(cfg, third)
    ensures var states := RestartStates(key, first, second);
            && IsRun(cfg, states, RestartSteps(key, first, second)) && states[0] == EMPTY
            && key in states[1].recs && states[1].recs[key].value == first
            && Written(cfg, states[5].recs, Swap(key, states[1].recs[key].revision, third), now).Ok?
            && states[5].recs[key].value == second
            && !Uncollected(states, 1, 5, key)
  {
    var states := RestartStates(key, first, second);
    RestartBegins(cfg, key, first, second);
    RestartEnds(cfg, key, first, second);
    assert Collected(states[3], states[4], key);
  }

  lemma RestartBegins(cfg: Config, key: Bytes, first: Bytes, second: Bytes)
    requires key != [] && !TooBig(cfg, first)
    ensures var states, steps := RestartStates(key, first, second), RestartSteps(key, first, second);
            Follows(cfg, states[0], steps[0], states[1]) && Follows(cfg, states[1], steps[1], states[2])
  {
    var states := RestartStates(key, first, second);
    var created, buried := Created(key, first, 0), Buried(key);
    assert Log(states[0], key) + [created] == [created] && Log(states[1], key) + [buried] == [created, buried];
    WriteFollows(cfg, states[0], Create(key, first), 0, created, states[1]);
    WriteFollows(cfg, states[1], Delete(key, 1), 1, buried, states[2]);
  }

  lemma RestartEnds(cfg: Config, key: Bytes, first: Bytes, second: Bytes)
    requires key != [] && !TooBig(cfg, second)
    ensures var states, steps := RestartStates(key, first, second), RestartSteps(key, first, second);
            && Follows(cfg, states[2], steps[2], states[3]) && Follows(cfg, states[3], steps[3], states[4])
            && Follows(cfg, states[4], steps[4], states[5])
  {
    var states, steps := RestartStates(key, first, second), RestartSteps(key, first, second);
    assert Follows(cfg, states[3], steps[3], states[4]) by {
      assert [key][1..] == [] && states[3].recs - {key} == map[] && states[3].log - {key} == map[];
    }
    assert Log(states[4], key) + [Created(key, second, 3)] == [Created(key, second, 3)];
    WriteFollows(cfg, states[4], Create(key, second), 3, Created(key, second, 3), states[5]);
  }

  lemma WriteFollows(cfg: Config, s: Sys, op: Op, now: int, rec: Record, t: Sys)
    requires Written(cfg, s.recs, op, now) == Ok(Some(rec))
    requires t.recs == s.recs[op.key := rec] && t.collectors == s.collectors
    requires t.log == s.log[op.key := Log(s, op.key) + [rec]]
    ensures Follows(cfg, s, DoOp(op, now), t)
  {
  }
}
