/** Partial writes to a socket: sys_writev and sys_sendfile (src/syscall.rs).  The socket is an oracle
    that accepts a count of the bytes offered, possibly short, or refuses with an errno; `stream`
    is everything it has accepted. */
module Transfer {
  import opened Wrappers

  type Byte = x: int | 0 <= x < 256

  const EINVAL: int := -22
  const EBADF: int := -9
  const CHUNK: nat := 4096

  class Stream {
    const oracle: nat -> int
    var calls: nat
    var stream: seq<Byte>
    /** The latest send: its answer, and whether it took the whole buffer. */
    ghost var answer: int
    ghost var full: bool

    constructor (oracle: nat -> int)
      ensures this.oracle == oracle && calls == 0 && stream == []
    {
      this.oracle := oracle;
      calls, stream := 0, [];
    }

    /** Since `before`, was the latest send refused or short? */
    ghost predicate CutShort(before: nat)
      reads this
    {
      calls > before && !full
    }

    /** A send of any non-empty buffer: accepts a prefix, or refuses. */
    method Send(buf: seq<Byte>) returns (n: int)
      modifies this
      ensures n <= |buf| && calls == old(calls) + 1 && answer == n && full == (n == |buf|)
      ensures stream == if n > 0 then old(stream) + buf[..n] else old(stream)
    {
      n := oracle(calls);
      calls := calls + 1;
      if n > |buf| { n := |buf|; }
      if n > 0 { stream := stream + buf[..n]; }
      answer, full := n, n == |buf|;
    }
  }

  // ---- writev ----

  function Concat(iov: seq<seq<Byte>>): seq<Byte> {
    if iov == [] then [] else iov[0] + Concat(iov[1..])
  }

  lemma {:induction false} ConcatSplit(iov: seq<seq<Byte>>, i: nat)
    requires i < |iov|
    ensures Concat(iov) == Concat(iov[..i]) + iov[i] + Concat(iov[i + 1..])
  {
    if i == 0 {
      assert iov[..0] == [];
    } else {
      ConcatSplit(iov[1..], i - 1);
      assert iov[1..][..i - 1] == iov[1..i] && iov[..i][1..] == iov[1..i];
      assert iov[1..][i..] == iov[i + 1..];
    }
  }

  lemma ConcatPrefix(iov: seq<seq<Byte>>, i: nat)
    requires i < |iov|
    ensures Concat(iov[..i + 1]) == Concat(iov[..i]) + iov[i]
    ensures Concat(iov[..i]) + iov[i] <= Concat(iov)
  {
    ConcatSplit(iov, i);
    ConcatSplit(iov[..i + 1], i);
    assert iov[..i + 1][..i] == iov[..i] && iov[..i + 1][i + 1..] == [];
  }

  /** The first n bytes of the vectors. */
  predicate Took(iov: seq<seq<Byte>>, before: seq<Byte>, after: seq<Byte>, n: nat) {
    n <= |Concat(iov)| && after == before + Concat(iov)[..n]
  }

  /** sys_writev.  `readable` counts the leading iovec entries that can be read; `fault` is the error
      of the next one.  The bytes accepted are exactly the first r bytes of the concatenation.  Fewer
      than all are reported only after a short or refused send, or up to an entry that cannot be
      read; an error only when nothing was accepted, and it is that of the send or of the entry. */
  method Writev(s: Stream, iov: seq<seq<Byte>>, readable: nat, fault: int) returns (r: int)
    requires fault < 0
    modifies s
    ensures r < 0 ==> s.stream == old(s.stream)
    ensures r < 0 ==> (s.CutShort(old(s.calls)) && r == s.answer) || (r == fault && readable < |iov| && Concat(iov[..readable]) == [])
    ensures r >= 0 ==> Took(iov, old(s.stream), s.stream, r)
    ensures 0 <= r < |Concat(iov)| ==> s.CutShort(old(s.calls)) || (readable < |iov| && r == |Concat(iov[..readable])|)
  {
    hide Took, Concat;
    var total := 0;
    ghost var before := s.stream;
    TookNone(iov, before);
    for i := 0 to |iov|
      invariant i <= readable && s.calls >= old(s.calls)
      invariant total == Upto(iov, i) && Took(iov, before, s.stream, total)
    {
      if i >= readable {
        if total > 0 { return total; }
        TookNothing(iov, before, s.stream, i);
        return fault;
      }
      if |iov[i]| == 0 {
        TookMore(iov, i, before, s.stream, 0);
        continue;
      }
      ghost var was := s.stream;
      var written := s.Send(iov[i]);
      if written < 0 {
        if total > 0 { return total; }
        TookNothing(iov, before, s.stream, i);
        return written;
      }
      TookMore(iov, i, before, was, written);
      total := total + written;
      if written < |iov[i]| { return total; }
    }
    assert iov[..|iov|] == iov;
    return total;
  }

  /** How many bytes the first i vectors hold. */
  function Upto(iov: seq<seq<Byte>>, i: nat): nat
    requires i <= |iov|
  {
    |Concat(iov[..i])|
  }

  lemma TookNone(iov: seq<seq<Byte>>, before: seq<Byte>)
    ensures Upto(iov, 0) == 0 && Took(iov, before, before, 0)
  {
    assert iov[..0] == [];
  }

  lemma TookNothing(iov: seq<seq<Byte>>, before: seq<Byte>, after: seq<Byte>, i: nat)
    requires Took(iov, before, after, 0) && i <= |iov| && Upto(iov, i) == 0
    ensures after == before && Concat(iov[..i]) == []
  {
  }

  /** After the first i vectors, n bytes of the next one. */
  lemma TookMore(iov: seq<seq<Byte>>, i: nat, before: seq<Byte>, was: seq<Byte>, n: nat)
    requires i < |iov| && n <= |iov[i]| && Took(iov, before, was, Upto(iov, i))
    ensures Upto(iov, i + 1) == Upto(iov, i) + |iov[i]|
    ensures Took(iov, before, if n > 0 then was + iov[i][..n] else was, Upto(iov, i) + n)
  {
    ConcatPrefix(iov, i);
    Short(iov, i, n);
    Short(iov, i, 0);
    hide Concat;
    assert was + iov[i][..n] == before + (Concat(iov[..i]) + iov[i][..n]);
    if n == 0 { assert was + iov[i][..n] == was; }
  }

  lemma Short(iov: seq<seq<Byte>>, i: nat, n: nat)
    requires i < |iov| && n <= |iov[i]|
    ensures |Concat(iov[..i])| + n <= |Concat(iov)|
    ensures Concat(iov)[..|Concat(iov[..i])| + n] == Concat(iov[..i]) + iov[i][..n]
  {
    ConcatSplit(iov, i);
  }

  /** The vectors left after the first n bytes: what a caller passes next. */
  function Rest(iov: seq<seq<Byte>>, n: nat): seq<seq<Byte>>
    requires n <= |Concat(iov)|
    decreases |iov|
  {
    if iov == [] then []
    else if n < |iov[0]| then [iov[0][n..]] + iov[1..]
    else Rest(iov[1..], n - |iov[0]|)
  }

  lemma {:induction false} RestConcat(iov: seq<seq<Byte>>, n: nat)
    requires n <= |Concat(iov)|
    ensures Concat(Rest(iov, n)) == Concat(iov)[n..]
    decreases |iov|
  {
    if iov != [] {
      if n < |iov[0]| {
        var r := [iov[0][n..]] + iov[1..];
        assert r[1..] == iov[1..];
      } else {
        RestConcat(iov[1..], n - |iov[0]|);
      }
    }
  }

  /** Any number of retries, each from the reported count: the stream is a contiguous prefix of the
      data, without gap or repeat. */
  method WritevAll(s: Stream, iov: seq<seq<Byte>>, tries: nat) returns (done: nat)
    modifies s
    ensures Took(iov, old(s.stream), s.stream, done)
  {
    ghost var data := Concat(iov);
    var rest := iov;
    done := 0;
    for t := 0 to tries
      invariant done <= |data| && s.stream == old(s.stream) + data[..done] && Concat(rest) == data[done..]
    {
      var r := Writev(s, rest, |rest|, -14);
      if r > 0 {
        RestConcat(rest, r);
        assert data[..done] + data[done..][..r] == data[..done + r];
        rest := Rest(rest, r);
        done := done + r;
      }
    }
  }

  // ---- sendfile ----

  /** vfs::pread of an open file: the bytes available from `at`, up to `count`. */
  function Pread(file: seq<Byte>, at: nat, count: nat): seq<Byte> {
    if at >= |file| then []
    else if count < |file| - at then file[at..at + count]
    else file[at..]
  }

  lemma PreadIsSlice(file: seq<Byte>, at: nat, count: nat, n: nat)
    requires n <= |Pread(file, at, count)| && Pread(file, at, count) != []
    ensures |Pread(file, at, count)| <= count && at + n <= |file| && Pread(file, at, count)[..n] == file[at..at + n]
  {
  }

  lemma Extend(file: seq<Byte>, lo: nat, mid: nat, hi: nat)
    requires lo <= mid <= hi <= |file|
    ensures file[lo..mid] + file[mid..hi] == file[lo..hi]
  {
  }

  /** The file's bytes from `start`, n of them, were accepted. */
  predicate Sent(file: seq<Byte>, start: nat, before: seq<Byte>, after: seq<Byte>, n: nat) {
    if n == 0 then after == before else start + n <= |file| && after == before + file[start..start + n]
  }

  lemma PreadAtEnd(file: seq<Byte>, at: nat, count: nat)
    requires count > 0 && Pread(file, at, count) == []
    ensures at >= |file|
  {
  }

  lemma SentMore(file: seq<Byte>, start: nat, before: seq<Byte>, was: seq<Byte>, n: nat, want: nat, more: nat)
    requires Sent(file, start, before, was, n) && Pread(file, start + n, want) != [] && more <= |Pread(file, start + n, want)|
    ensures more <= |Pread(file, start + n, want)| <= want
    ensures Sent(file, start, before, if more > 0 then was + Pread(file, start + n, want)[..more] else was, n + more)
  {
    hide Pread;
    PreadIsSlice(file, start + n, want, more);
    if more > 0 && n > 0 { Appended(file, start, before, n, more); }
  }

  lemma Appended(file: seq<Byte>, start: nat, before: seq<Byte>, n: nat, more: nat)
    requires start + n + more <= |file|
    ensures (before + file[start..start + n]) + file[start + n..start + n + more] == before + file[start..start + n + more]
  {
    Extend(file, start, start + n, start + n + more);
  }

  /** sys_sendfile.  `start` is the caller's offset or the file position; the new one is returned.
      `opens` counts the reads before another thread closes the input.  The bytes accepted are
      exactly the file's from `start` on, and the offset advances by exactly their number.  Fewer
      than `count` are sent only at the end of the file, after a short or refused send, or when the
      input was closed. */
  method Sendfile(s: Stream, outIsSocket: bool, inIsFile: bool, file: seq<Byte>, opens: nat, start: nat, count: nat)
    returns (r: int, next: nat)
    modifies s
    ensures r < 0 ==>
      && s.stream == old(s.stream) && next == start
      && ((r == EINVAL && (!outIsSocket || !inIsFile)) || (r == EBADF && opens == 0 && count > 0) || (s.CutShort(old(s.calls)) && r == s.answer))
    ensures r >= 0 ==> next == start + r && r <= count
    ensures r > 0 ==> next <= |file| && s.stream == old(s.stream) + file[start..next]
    ensures r == 0 ==> s.stream == old(s.stream)
    ensures 0 <= r < count ==> next >= |file| || s.CutShort(old(s.calls)) || s.calls == old(s.calls) + opens
    ensures !outIsSocket || !inIsFile ==> r == EINVAL
    ensures r >= 0 && r == count ==> count <= 4096 * (s.calls - old(s.calls)) < count + 4096
  {
    if !outIsSocket || !inIsFile { return EINVAL, start; }
    hide Sent, InChunks;
    NoChunks();
    SentNone(file, start, s.stream);
    ghost var before := s.stream;
    var total: nat, remaining: nat, preads := 0, count, 0;
    while remaining > 0
      invariant total + remaining == count && s.calls == old(s.calls) + preads && preads <= opens && (total == 0 ==> preads == 0)
      invariant Sent(file, start, before, s.stream, total)
      invariant InChunks(total, preads, remaining == 0 || start + total >= |file|)
      decreases remaining
    {
      if preads == opens {
        if total > 0 { break; }
        SentIs(file, start, before, s.stream, 0);
        return EBADF, start;
      }
      var sent, full := SendChunk(s, file, start + total, remaining, start, before, total, preads);
      if sent == None { break; }
      preads := preads + 1;
      if sent.value < 0 {
        if total > 0 { break; }
        SentIs(file, start, before, s.stream, 0);
        return sent.value, start;
      }
      total, remaining := total + sent.value, remaining - sent.value;
      if !full { break; }
    }
    SentIs(file, start, before, s.stream, total);
    if remaining == 0 { ChunkCount(total, preads, true); }
    return total, start + total;
  }

  /** One turn of the loop: a chunk is read and handed to the socket.  None at the end of the file;
      otherwise what the send answered, and whether it took the whole chunk. */
  method SendChunk(s: Stream, file: seq<Byte>, off: nat, remaining: nat, ghost start: nat, ghost before: seq<Byte>, ghost total: nat, ghost chunks: nat)
    returns (sent: Option<int>, full: bool)
    requires remaining > 0 && off == start + total && Sent(file, start, before, s.stream, total) && InChunks(total, chunks, off >= |file|)
    modifies s
    ensures sent == None ==> off >= |file| && s.stream == old(s.stream) && s.calls == old(s.calls)
    ensures sent.Some? ==> s.calls == old(s.calls) + 1 && sent.value == s.answer && full == s.full && sent.value <= remaining && (if full then sent.value > 0 else sent.value < remaining)
    ensures sent.Some? && sent.value < 0 ==> s.stream == old(s.stream)
    ensures sent.Some? && sent.value >= 0 ==> Sent(file, start, before, s.stream, total + sent.value)
    ensures full && sent.Some? ==> InChunks(total + sent.value, chunks + 1, sent.value == remaining || off + sent.value >= |file|)
  {
    hide Pread, Sent, InChunks;
    var want := if remaining < CHUNK then remaining else CHUNK;
    var buf := Pread(file, off, want);
    if buf == [] {
      PreadAtEnd(file, off, want);
      return None, false;
    }
    ghost var was := s.stream;
    var n := s.Send(buf);
    ChunkMore(file, off, remaining, total, chunks);
    if n >= 0 { SentMore(file, start, before, was, total, want, n); }
    return Some(n), n == |buf|;
  }

  /** Whole chunks so far, or, at the end, a last one that is not full. */
  predicate InChunks(total: nat, chunks: nat, ended: bool) {
    total == 4096 * chunks || (ended && 4096 * (chunks - 1) < total < 4096 * chunks)
  }

  lemma NoChunks()
    ensures InChunks(0, 0, false) && InChunks(0, 0, true)
  {
  }

  lemma ChunkMore(file: seq<Byte>, off: nat, remaining: nat, total: nat, chunks: nat)
    requires remaining > 0 && InChunks(total, chunks, off >= |file|)
    requires var want := if remaining < CHUNK then remaining else CHUNK; Pread(file, off, want) != []
    ensures var want := if remaining < CHUNK then remaining else CHUNK;
      var n := |Pread(file, off, want)|;
      n <= remaining && InChunks(total + n, chunks + 1, remaining - n == 0 || off + n >= |file|)
  {
  }

  lemma ChunkCount(total: nat, chunks: nat, ended: bool)
    requires InChunks(total, chunks, ended)
    ensures total <= 4096 * chunks < total + 4096
  {
  }

  lemma SentNone(file: seq<Byte>, start: nat, before: seq<Byte>)
    ensures Sent(file, start, before, before, 0)
  {
  }

  lemma SentIs(file: seq<Byte>, start: nat, before: seq<Byte>, after: seq<Byte>, n: nat)
    requires Sent(file, start, before, after, n)
    ensures if n == 0 then after == before else start + n <= |file| && after == before + file[start..start + n]
  {
  }

  /** Any number of sendfile calls, each resuming at the reported offset. */
  method SendfileAll(s: Stream, file: seq<Byte>, start: nat, count: nat, tries: nat) returns (off: nat)
    requires start <= |file|
    modifies s
    ensures start <= off <= |file| && off - start <= count && s.stream == old(s.stream) + file[start..off]
  {
    off := start;
    for t := 0 to tries
      invariant start <= off <= |file| && off - start <= count && s.stream == old(s.stream) + file[start..off]
    {
      var r, next := Sendfile(s, true, true, file, |file| + 1, off, count - (off - start));
      assert file[start..off] + file[off..if r > 0 then next else off] == file[start..if r > 0 then next else off];
      off := next;
    }
  }
}
