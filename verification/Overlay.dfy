/** The in-memory KV and its transactions: buffered writes overlaid on a snapshot. */
module Overlay {
  import opened ByteStrings
  import opened Results
  import opened Scans

  type Data = map<Bytes, Bytes>

  /** A buffered write: a new value, or `None` for a deletion. */
  type Pending = map<Bytes, Option<Bytes>>

  /** The map a transaction's reads should see: the snapshot with the buffered writes laid over it. */
  function Overlaid(snap: Data, pending: Pending): Data {
    map k | k in snap.Keys + pending.Keys && (if k in pending then pending[k].Some? else true)
      :: if k in pending then pending[k].value else snap[k]
  }

  function Except(pending: Pending, todo: set<Bytes>): Pending {
    map k | k in pending && k !in todo :: pending[k]
  }

  /** Laying one more buffered write over the map. */
  lemma OverlayStep(snap: Data, pending: Pending, todo: set<Bytes>, k: Bytes)
    requires k in todo && k in pending
    ensures Overlaid(snap, Except(pending, todo - {k})) ==
            if pending[k].None? then Overlaid(snap, Except(pending, todo)) - {k}
            else Overlaid(snap, Except(pending, todo))[k := pending[k].value]
  {
    assert Except(pending, todo - {k}) == Except(pending, todo)[k := pending[k]];
    OverlayPut(snap, Except(pending, todo), k, pending[k]);
  }

  lemma OverlayPut(snap: Data, pending: Pending, k: Bytes, write: Option<Bytes>)
    ensures Overlaid(snap, pending[k := write]) ==
            if write.None? then Overlaid(snap, pending) - {k} else Overlaid(snap, pending)[k := write.value]
  {
  }

  datatype Op = GetOp(key: Bytes) | PutOp(key: Bytes, value: Bytes) | DeleteOp(key: Bytes) | ScanOp(opts: ScanOptions)
  datatype Reply = Found(value: Bytes) | NotFound | Done | Scanned(entries: seq<Entry>)

  /** What one operation answers and leaves behind when it is run directly on a map. */
  ghost function Direct(data: Data, op: Op): (Reply, Data) {
    match op
    case GetOp(k) => (if k in data then Found(data[k]) else NotFound, data)
    case PutOp(k, v) => (Done, data[k := v])
    case DeleteOp(k) => (Done, data - {k})
    case ScanOp(o) => (Scanned(Scan(data, o)), data)
  }

  /** The replies to operations run one after the other directly on a map, and what they leave behind. */
  ghost function Replies(data: Data, ops: seq<Op>): seq<Reply>
    decreases |ops|
  {
    if ops == [] then [] else [Direct(data, ops[0]).0] + Replies(Direct(data, ops[0]).1, ops[1..])
  }

  ghost function Left(data: Data, ops: seq<Op>): Data
    decreases |ops|
  {
    if ops == [] then data else Left(Direct(data, ops[0]).1, ops[1..])
  }

  /** What a transaction's callback does next, given the replies it has had: one more operation, or return. */
  datatype Choice = Do(op: Op) | Return(ok: bool)

  type Callback = seq<Reply> -> Choice

  /** How a callback ended: whether with nil, the replies it had, and the map it left. */
  datatype Outcome = Outcome(ok: bool, replies: seq<Reply>, data: Data)

  /** The callback run directly on a map, from where it has had `replies`; `None` when it takes more than `limit`
      further operations. */
  ghost function DirectCall(data: Data, f: Callback, replies: seq<Reply>, limit: nat): Option<Outcome>
    decreases limit
  {
    match f(replies)
    case Return(ok) => Some(Outcome(ok, replies, data))
    case Do(op) =>
      if limit == 0 then None
      else DirectCall(Direct(data, op).1, f, replies + [Direct(data, op).0], limit - 1)
  }

  class MemoryTx {
    const snap: Data
    var pending: Pending

    constructor (snap: Data)
      ensures this.snap == snap && pending == map[]
    {
      this.snap := snap;
      pending := map[];
    }

    ghost function View(): Data
      reads this
    {
      Overlaid(snap, pending)
    }

    method Get(key: Bytes) returns (r: Reply)
      ensures r == Direct(View(), GetOp(key)).0
      ensures r == if key in View() then Found(View()[key]) else NotFound
    {
      if key in pending {
        return if pending[key].None? then NotFound else Found(pending[key].value);
      }
      return if key in snap then Found(snap[key]) else NotFound;
    }

    method Put(key: Bytes, value: Bytes)
      modifies this
      ensures View() == old(View())[key := value]
    {
      pending := pending[key := Some(value)];
    }

    method Delete(key: Bytes)
      modifies this
      ensures View() == old(View()) - {key}
    {
      pending := pending[key := None];
    }

    method Scan(opts: ScanOptions) returns (r: Reply)
      ensures r == Scanned(Scans.Scan(View(), opts))
    {
      var view := snap;
      var todo := pending.Keys;
      while todo != {}
        invariant todo <= pending.Keys
        invariant view == Overlaid(snap, Except(pending, todo))
        decreases todo
      {
        var k :| k in todo;
        OverlayStep(snap, pending, todo, k);
        todo := todo - {k};
        view := if pending[k].None? then view - {k} else view[k := pending[k].value];
      }
      assert Except(pending, {}) == pending;
      var entries := ScanEntries(view, opts);
      r := Scanned(entries);
    }

    /** One operation of the callback. */
    method Perform(op: Op) returns (r: Reply)
      modifies this
      ensures (r, View()) == Direct(old(View()), op)
      ensures match op
              case GetOp(k) => r == (if k in View() then Found(View()[k]) else NotFound) && View() == old(View())
              case PutOp(k, v) => r == Done && View() == old(View())[k := v]
              case DeleteOp(k) => r == Done && View() == old(View()) - {k}
              case ScanOp(o) => r == Scanned(Scans.Scan(View(), o)) && View() == old(View())
    {
      match op
      case GetOp(k) => r := Get(k);
      case PutOp(k, v) => Put(k, v); r := Done;
      case DeleteOp(k) => Delete(k); r := Done;
      case ScanOp(o) => r := Scan(o);
    }
  }

  class MemoryKV {
    var data: Data

    constructor ()
      ensures data == map[]
    {
      data := map[];
    }

    method Get(key: Bytes) returns (r: Reply)
      ensures r == if key in data then Found(data[key]) else NotFound
    {
      return if key in data then Found(data[key]) else NotFound;
    }

    method Scan(opts: ScanOptions) returns (r: Reply)
      ensures r == Scanned(Scans.Scan(data, opts))
    {
      var entries := ScanEntries(data, opts);
      r := Scanned(entries);
    }

    /** Runs a callback, which may choose each operation by the replies so far and returns after at most `limit`. */
    method Transaction(f: Callback, ghost limit: nat) returns (ok: bool, replies: seq<Reply>)
      requires DirectCall(data, f, [], limit).Some?
      modifies this
      ensures var direct := DirectCall(old(data), f, [], limit).value;
              && ok == direct.ok && replies == direct.replies
              && data == if ok then direct.data else old(data)
    {
      var tx := new MemoryTx(data);
      assert tx.View() == data;
      replies := [];
      ghost var left := limit;
      while f(replies).Do?
        invariant fresh(tx) && tx.snap == data == old(data)
        invariant DirectCall(tx.View(), f, replies, left) == DirectCall(data, f, [], limit)
        decreases left
      {
        var r := tx.Perform(f(replies).op);
        replies, left := replies + [r], left - 1;
      }
      ok := f(replies).ok;
      if ok {
        Commit(tx);
      }
    }

    method Commit(tx: MemoryTx)
      requires tx.snap == data
      modifies this
      ensures data == tx.View()
    {
      var todo := tx.pending.Keys;
      while todo != {}
        invariant todo <= tx.pending.Keys
        invariant data == Overlaid(tx.snap, Except(tx.pending, todo))
        decreases todo
      {
        var k :| k in todo;
        OverlayStep(tx.snap, tx.pending, todo, k);
        todo := todo - {k};
        if tx.pending[k].None? {
          data := data - {k};
        } else {
          data := data[k := tx.pending[k].value];
        }
      }
      assert Except(tx.pending, {}) == tx.pending;
    }
  }

  /** Whatever it chooses, a callback that returns has performed a sequence of operations: those it chose, one by one,
      by the replies up to there. */
  lemma {:induction false} CallIsRun(data: Data, f: Callback, replies: seq<Reply>, limit: nat) returns (ops: seq<Op>)
    requires DirectCall(data, f, replies, limit).Some?
    ensures var direct := DirectCall(data, f, replies, limit).value;
            && direct.replies == replies + Replies(data, ops) && direct.data == Left(data, ops)
            && f(direct.replies) == Return(direct.ok)
    ensures |Replies(data, ops)| == |ops|
    ensures forall i :: 0 <= i < |ops| ==> f(replies + Replies(data, ops)[..i]) == Do(ops[i])
    decreases limit
  {
    ops := [];
    if f(replies).Do? {
      var op := f(replies).op;
      var rest := CallIsRun(Direct(data, op).1, f, replies + [Direct(data, op).0], limit - 1);
      ops := [op] + rest;
      OneThenRest(data, op, rest);
      Regroup(replies, [Direct(data, op).0], Replies(Direct(data, op).1, rest));
      ChosenSoFar(f, replies, Direct(data, op).0, Replies(Direct(data, op).1, rest), op, rest);
    } else {
      assert replies + [] == replies;
    }
  }

  lemma ChosenSoFar(f: Callback, replies: seq<Reply>, reply: Reply, later: seq<Reply>, op: Op, rest: seq<Op>)
    requires f(replies) == Do(op) && |later| == |rest|
    requires forall i :: 0 <= i < |rest| ==> f(replies + [reply] + later[..i]) == Do(rest[i])
    ensures forall i :: 0 <= i < |rest| + 1 ==> f(replies + ([reply] + later)[..i]) == Do(([op] + rest)[i])
  {
    forall i | 0 <= i < |rest| + 1 ensures f(replies + ([reply] + later)[..i]) == Do(([op] + rest)[i]) {
      if i == 0 {
        assert replies + ([reply] + later)[..0] == replies;
      } else {
        assert replies + ([reply] + later)[..i] == replies + [reply] + later[..i - 1];
      }
    }
  }

  lemma OneThenRest(data: Data, op: Op, rest: seq<Op>)
    ensures Left(data, [op] + rest) == Left(Direct(data, op).1, rest)
    ensures Replies(data, [op] + rest) == [Direct(data, op).0] + Replies(Direct(data, op).1, rest)
  {
    assert ([op] + rest)[1..] == rest;
  }

  lemma {:induction false} StateConcat(data: Data, a: seq<Op>, b: seq<Op>)
    ensures Left(data, a + b) == Left(Left(data, a), b)
    decreases |a|
  {
    if a == [] {
      assert a + b == b;
    } else {
      StateConcat(Direct(data, a[0]).1, a[1..], b);
      assert (a + b)[1..] == a[1..] + b;
    }
  }

  lemma {:induction false} RepliesConcat(data: Data, a: seq<Op>, b: seq<Op>)
    ensures Replies(data, a + b) == Replies(data, a) + Replies(Left(data, a), b)
    decreases |a|
  {
    if a == [] {
      assert a + b == b;
    } else {
      var (reply, mid) := Direct(data, a[0]);
      RepliesConcat(mid, a[1..], b);
      assert (a + b)[1..] == a[1..] + b;
      Regroup([reply], Replies(mid, a[1..]), Replies(Left(data, a), b));
    }
  }

  lemma Regroup(x: seq<Reply>, y: seq<Reply>, z: seq<Reply>)
    ensures x + (y + z) == x + y + z
  {
  }

  /** Later operations see exactly the earlier writes of their own transaction: running `a` then `b` on the private
      copy is running `b` on what `a` left. */
  lemma DirectRunConcat(data: Data, a: seq<Op>, b: seq<Op>)
    ensures Left(data, a + b) == Left(Left(data, a), b)
    ensures Replies(data, a + b) == Replies(data, a) + Replies(Left(data, a), b)
  {
    StateConcat(data, a, b);
    RepliesConcat(data, a, b);
  }

  /** Each operation gets one reply, which the earlier operations determine. */
  lemma {:induction false} ReplyAt(data: Data, ops: seq<Op>, i: nat)
    requires i < |ops|
    ensures |Replies(data, ops)| == |ops|
    ensures Replies(data, ops)[i] == Direct(Left(data, ops[..i]), ops[i]).0
    decreases |ops|
  {
    var mid, rest := Direct(data, ops[0]).1, ops[1..];
    if rest != [] {
      ReplyAt(mid, rest, if i > 0 then i - 1 else 0);
    }
    if i > 0 {
      assert ops[..i][1..] == rest[..i - 1];
    }
  }

  /** A read inside a transaction sees the transaction's last write of the key, or that it deleted it. */
  lemma GetSeesLastWrite(data: Data, ops: seq<Op>, i: nat, n: nat)
    requires n < i < |ops| && ops[i].GetOp? && Writes(ops[n], ops[i].key) && Unwritten(ops[n + 1..i], ops[i].key)
    ensures |Replies(data, ops)| == |ops|
    ensures Replies(data, ops)[i] == if ops[n].PutOp? then Found(ops[n].value) else NotFound
  {
    ReplyAt(data, ops, i);
    assert ops[..i][n + 1..] == ops[n + 1..i];
    LastWriteWins(data, ops[..i], ops[i].key, n);
  }

  /** Before any write of its own, it sees what was there when the transaction began. */
  lemma GetSeesSnapshot(data: Data, ops: seq<Op>, i: nat)
    requires i < |ops| && ops[i].GetOp? && Unwritten(ops[..i], ops[i].key)
    ensures |Replies(data, ops)| == |ops|
    ensures Replies(data, ops)[i] == if ops[i].key in data then Found(data[ops[i].key]) else NotFound
  {
    ReplyAt(data, ops, i);
    UnwrittenStays(data, ops[..i], ops[i].key);
  }

  predicate Writes(op: Op, key: Bytes) {
    (op.PutOp? || op.DeleteOp?) && op.key == key
  }

  predicate Unwritten(ops: seq<Op>, key: Bytes) {
    forall i :: 0 <= i < |ops| ==> !Writes(ops[i], key)
  }

  /** A key the callback never writes keeps its value. */
  lemma {:induction false} UnwrittenStays(data: Data, ops: seq<Op>, key: Bytes)
    requires Unwritten(ops, key)
    ensures key in Left(data, ops) <==> key in data
    ensures key in data ==> Left(data, ops)[key] == data[key]
    decreases |ops|
  {
    if ops != [] {
      assert !Writes(ops[0], key);
      UnwrittenStays(Direct(data, ops[0]).1, ops[1..], key);
    }
  }

  /** A key the callback writes ends as its last write says. */
  lemma {:induction false} LastWriteWins(data: Data, ops: seq<Op>, key: Bytes, i: nat)
    requires i < |ops| && Writes(ops[i], key) && Unwritten(ops[i + 1..], key)
    ensures var after := Left(data, ops);
            (key in after <==> ops[i].PutOp?) && (ops[i].PutOp? ==> after[key] == ops[i].value)
    decreases i
  {
    var mid, rest := Direct(data, ops[0]).1, ops[1..];
    if i == 0 {
      UnwrittenStays(mid, rest, key);
    } else {
      assert rest[i..] == ops[i + 1..];
      LastWriteWins(mid, rest, key, i - 1);
    }
  }
}
