/** Declared sizes: the streaming checker wrapped around uploads and the buffering one of the in-memory store. */
module SizedReaders {
  import opened ByteStrings
  import opened Results

  datatype ReadError = Nil | Eof | Failure | SizeMismatch

  /** How one call to the source behaves: at most `max` bytes, and whether the end is reported together with them. */
  datatype Chunk = Chunk(max: nat, eager: bool)

  datatype Ending = Clean | Broken

  /** Any `io.Reader`: byte `i` is `data(i)` up to `length`, then end of file or a failure; without a length it never
      ends. Call `k` is cut as `cut(k)` says, so short and empty reads may come anywhere and without end. `pos` bytes
      have been read in `calls` calls. */
  datatype Source = Source(
    data: nat -> byte,
    length: Option<nat>,
    ending: Ending,
    cut: nat -> Chunk,
    pos: nat,
    calls: nat)
  {
    predicate Valid() {
      length.Some? ==> pos <= length.value
    }

    /** The next `m` bytes, as if there were no end. */
    function Bytes(m: nat): (b: seq<byte>)
      ensures |b| == m && forall i :: 0 <= i < m ==> b[i] == data(pos + i)
    {
      seq<byte>(m, i requires 0 <= i => data(pos + i))
    }

    predicate Holds(m: nat) {
      length.Some? ==> pos + m <= length.value
    }

    function Count(n: nat): (m: nat)
      requires Valid()
      ensures m <= n && Holds(m)
    {
      var most := if cut(calls).max < n then cut(calls).max else n;
      if Holds(most) then most else length.value - pos
    }

    function After(n: nat): (s: Source)
      requires Valid()
      ensures s.Valid()
    {
      this.(pos := pos + Count(n), calls := calls + 1)
    }

    function Report(n: nat): ReadError
      requires Valid()
    {
      if length == Some(pos + Count(n)) && cut(calls).eager then (if ending.Clean? then Eof else Failure) else Nil
    }
  }

  /** Exactly the sources whose declared size is right. */
  predicate Accepted(s: Source, size: int) {
    s.ending.Clean? && s.length.Some? && s.length.value - s.pos == size
  }

  /** From its next call on, a source that settles makes progress on every non-empty read. */
  ghost predicate Settled(s: Source, quiet: nat) {
    forall k :: k >= s.calls + quiet ==> s.cut(k).max > 0 && s.cut(k).eager
  }

  // ---- storage/s3.go: exactSizeReader ----

  datatype Exact = Exact(src: Source, remaining: nat, validated: bool)

  function ExactRead(r: Exact, n: nat): (step: (Exact, Bytes, ReadError))
    requires r.src.Valid()
    ensures step.0.src.Valid()
  {
    if r.validated then (r, [], Eof)
    else if r.remaining > 0 then
      var p := if n > r.remaining then r.remaining else n;
      var got, err := r.src.Bytes(r.src.Count(p)), r.src.Report(p);
      var left := r.remaining - |got|;
      var told := if err == Eof && left > 0 then SizeMismatch else if err == Eof then Nil else err;
      (Exact(r.src.After(p), left, false), got, told)
    else
      var err := r.src.Report(1);
      var next := Exact(r.src.After(1), 0, r.src.Count(1) == 0 && err == Eof);
      (next, [], if r.src.Count(1) != 0 then SizeMismatch else err)
  }

  class SourceReader {
    var s: Source

    constructor (s: Source)
      requires s.Valid()
      ensures this.s == s
    {
      this.s := s;
    }

    method Read(n: nat) returns (got: Bytes, err: ReadError)
      requires s.Valid()
      modifies this
      ensures got == old(s).Bytes(old(s).Count(n)) && err == old(s).Report(n) && s == old(s).After(n)
    {
      got, err := s.Bytes(s.Count(n)), s.Report(n);
      s := s.After(n);
    }
  }

  class ExactSizeReader {
    const r: SourceReader
    var remaining: nat
    var validated: bool

    constructor (r: SourceReader, size: nat)
      ensures this.r == r && State() == Exact(r.s, size, false)
    {
      this.r := r;
      remaining := size;
      validated := false;
    }

    ghost function State(): Exact
      reads this, r
    {
      Exact(r.s, remaining, validated)
    }

    method Read(n: nat) returns (got: Bytes, err: ReadError)
      requires r.s.Valid()
      modifies this, r
      ensures (State(), got, err) == ExactRead(old(State()), n)
    {
      if validated {
        return [], Eof;
      }
      if remaining > 0 {
        var p := n;
        if p > remaining {
          p := remaining;
        }
        got, err := r.Read(p);
        remaining := remaining - |got|;
        if err == Eof && remaining > 0 {
          return got, SizeMismatch;
        }
        if err != Nil && err != Eof {
          return got, err;
        }
        return got, Nil;
      }
      got, err := r.Read(1);
      if |got| != 0 {
        return [], SizeMismatch;
      }
      if err == Nil {
        return [], Nil;
      }
      if err != Eof {
        return [], err;
      }
      validated := true;
      return [], Eof;
    }
  }

  /** A caller that keeps reading into buffers of the given sizes until the first error. */
  function ExactRun(r: Exact, bufs: seq<nat>): (Bytes, ReadError)
    requires r.src.Valid()
    decreases |bufs|
  {
    if bufs == [] then ([], Nil) else
      var (next, got, err) := ExactRead(r, bufs[0]);
      if err != Nil then (got, err) else
        var (more, last) := ExactRun(next, bufs[1..]);
        (got + more, last)
  }

  /** What one read says of the source is true of it. */
  lemma ReadIsTruthful(r: Exact, n: nat)
    requires r.src.Valid() && !r.validated
    ensures var (next, got, err) := ExactRead(r, n);
            && got == r.src.Bytes(|got|) && |got| <= r.remaining && r.src.Holds(|got|)
            && (err == Nil ==>
                  !next.validated && next.remaining == r.remaining - |got|
                  && next.src == r.src.(pos := r.src.pos + |got|, calls := r.src.calls + 1))
            && (err == Eof ==> Accepted(r.src, |got|) && |got| == r.remaining)
            && (err == SizeMismatch ==> r.src.length != Some(r.src.pos + r.remaining))
            && (err == Failure ==> r.src.ending.Broken? && r.src.length == Some(r.src.pos + |got|))
  {
  }

  lemma BytesJoin(s: Source, t: Source, m: nat, n: nat)
    requires t == s.(pos := s.pos + m, calls := t.calls)
    ensures s.Bytes(m) + t.Bytes(n) == s.Bytes(m + n)
  {
  }

  /** Whatever the source, endless ones included, its chunking and the buffers: the bytes delivered are the source's
      first; end of file means exactly the declared bytes of a source that ended; and each error is truthful. */
  lemma {:induction false} ExactRunDelivers(r: Exact, bufs: seq<nat>)
    requires r.src.Valid() && !r.validated
    ensures var (got, err) := ExactRun(r, bufs);
            && got == r.src.Bytes(|got|) && |got| <= r.remaining && r.src.Holds(|got|)
            && (err == Eof ==> Accepted(r.src, |got|) && |got| == r.remaining)
            && (err == SizeMismatch ==> r.src.length != Some(r.src.pos + r.remaining))
            && (err == Failure ==> r.src.ending.Broken? && r.src.length == Some(r.src.pos + |got|))
    decreases |bufs|
  {
    if bufs != [] {
      var (next, got, err) := ExactRead(r, bufs[0]);
      ReadIsTruthful(r, bufs[0]);
      if err == Nil {
        ExactRunDelivers(next, bufs[1..]);
        BytesJoin(r.src, next.src, |got|, |ExactRun(next, bufs[1..]).0|);
      }
    }
  }

  /** Once the source settles, a read into a non-empty buffer delivers something or ends. */
  lemma SettledReadProgresses(r: Exact, n: nat, quiet: nat)
    requires r.src.Valid() && !r.validated && n > 0 && Settled(r.src, quiet)
    ensures var (next, got, err) := ExactRead(r, n);
            err == Nil ==>
              && next.src.calls == r.src.calls + 1 && next.remaining == r.remaining - |got|
              && (quiet > 0 ==> Settled(next.src, quiet - 1))
              && (quiet == 0 ==> Settled(next.src, 0) && |got| > 0)
  {
    ReadIsTruthful(r, n);
    if quiet == 0 {
      assert r.src.cut(r.src.calls).max > 0 && r.src.cut(r.src.calls).eager;
    }
  }

  /** Of a source that settles, enough non-empty buffers always reach an error or end of file, be it endless or not. */
  lemma {:induction false} ExactRunEnds(r: Exact, bufs: seq<nat>, quiet: nat)
    requires r.src.Valid() && !r.validated && Settled(r.src, quiet) && |bufs| > quiet + r.remaining
    requires forall i :: 0 <= i < |bufs| ==> bufs[i] > 0
    ensures ExactRun(r, bufs).1 != Nil
    decreases |bufs|
  {
    var (next, got, err) := ExactRead(r, bufs[0]);
    SettledReadProgresses(r, bufs[0], quiet);
    ReadIsTruthful(r, bufs[0]);
    if err == Nil {
      ExactRunEnds(next, bufs[1..], if quiet > 0 then quiet - 1 else 0);
    }
  }

  /** The streaming checker ends in acceptance exactly for the sources of the declared size. */
  lemma ExactAccepts(src: Source, size: nat, bufs: seq<nat>, quiet: nat)
    requires src.Valid() && Settled(src, quiet) && |bufs| > quiet + size
    requires forall i :: 0 <= i < |bufs| ==> bufs[i] > 0
    ensures ExactRun(Exact(src, size, false), bufs).1 == Eof <==> Accepted(src, size)
    ensures Accepted(src, size) ==> ExactRun(Exact(src, size, false), bufs).0 == src.Bytes(size)
  {
    ExactRunDelivers(Exact(src, size, false), bufs);
    ExactRunEnds(Exact(src, size, false), bufs, quiet);
  }

  // ---- storage/memory.go: readExactSize ----

  /** Copies through a limit of `limit` bytes until the source ends or fails. */
  method CopyLimited(src: SourceReader, limit: nat, room: nat -> nat, ghost quiet: nat)
    returns (data: Bytes, err: ReadError)
    requires src.s.Valid() && Settled(src.s, quiet) && forall i: nat :: room(i) > 0
    modifies src
    ensures data == old(src.s).Bytes(|data|) && |data| <= limit && old(src.s).Holds(|data|)
    ensures err == Nil || err == Failure
    ensures err == Nil ==>
              |data| == limit || (old(src.s).ending.Clean? && old(src.s).length == Some(old(src.s).pos + |data|))
    ensures err == Failure ==> old(src.s).ending.Broken? && old(src.s).length == Some(old(src.s).pos + |data|)
  {
    data := [];
    var left: nat, calls: nat := limit, 0;
    ghost var loud: nat := quiet;
    while left > 0
      invariant |data| + left == limit && data == old(src.s).Bytes(|data|) && old(src.s).Holds(|data|)
      invariant src.s == old(src.s).(pos := old(src.s).pos + |data|, calls := old(src.s).calls + calls)
      invariant Settled(src.s, loud)
      decreases loud + left
    {
      var p := room(calls);
      if p > left {
        p := left;
      }
      CopyProgresses(src.s, p, loud);
      BytesJoin(old(src.s), src.s, |data|, src.s.Count(p));
      var got, e := src.Read(p);
      calls := calls + 1;
      data, left := data + got, left - |got|;
      loud := if loud > 0 then loud - 1 else 0;
      if e == Eof {
        return data, Nil;
      }
      if e != Nil {
        return data, e;
      }
    }
    return data, Nil;
  }

  lemma CopyProgresses(s: Source, n: nat, quiet: nat)
    requires s.Valid() && n > 0 && Settled(s, quiet)
    ensures Settled(s.After(n), if quiet > 0 then quiet - 1 else 0)
    ensures quiet == 0 && s.Report(n) == Nil ==> s.Count(n) > 0
  {
    if quiet == 0 {
      assert s.cut(s.calls).max > 0 && s.cut(s.calls).eager;
    }
  }

  /** Buffers the source through a limit of one byte past the declared size. `room` gives the free space the buffer
      offers to each read. */
  method ReadExactSize(src: SourceReader, size: int, room: nat -> nat, ghost quiet: nat)
    returns (data: Bytes, err: ReadError)
    requires src.s.Valid() && Settled(src.s, quiet) && forall i: nat :: room(i) > 0
    modifies src
    ensures err == Nil <==> Accepted(old(src.s), size)
    ensures err == Nil ==> data == old(src.s).Bytes(size)
    ensures err == SizeMismatch ==> old(src.s).length != Some(old(src.s).pos + size)
    ensures err == Failure ==> old(src.s).ending.Broken?
    ensures err != Nil ==> data == []
    ensures err in {Nil, SizeMismatch, Failure}
  {
    if size < 0 {
      return [], SizeMismatch;
    }
    data, err := CopyLimited(src, size + 1, room, quiet);
    if err != Nil {
      return [], err;
    }
    if |data| != size {
      return [], SizeMismatch;
    }
    return data, Nil;
  }
}
