/** The copy loops over open files: internal/fsx/copy_linux.go, copy.go and copyRange of extents_linux.go. */
module CopyLoops {
  import opened ByteFiles
  import opened DestRefs
  import opened ExtentIndex

  datatype Err = NoErr | Canceled | SourceChanged | ShortWrite | Io

  /** The bytes reported to the progress callback, and whether the cancel callback has said to stop. */
  class Meter {
    var credited: nat
    ghost var stopped: bool

    constructor ()
      ensures credited == 0 && !stopped
    {
      credited, stopped := 0, false;
    }

    method Canceled() returns (stop: bool)
      modifies this`stopped
      ensures stopped == (old(stopped) || stop)
    {
      stop := *;
      stopped := stopped || stop;
    }

    method Add(n: nat)
      modifies this`credited
      ensures credited == old(credited) + n
    {
      credited := credited + n;
    }
  }

  ghost function Span(lo: int, n: nat): (s: set<int>)
    ensures forall k :: k in s <==> lo <= k < lo + n
  {
    if n == 0 then {} else Span(lo, n - 1) + {lo + n - 1}
  }

  /** An open file.  Calls fail or move fewer bytes as the kernel likes.  written holds the offsets that a write has
      touched: the rest are holes.  source is the clone source made of the file, if any, and kept says how much of
      the file clones may read through it; torn, once set, says that some of that was lost while the source was
      live. */
  class File {
    var data: seq<Byte>
    var pos: nat
    ghost var written: set<int>
    ghost var source: DestRef?
    ghost var kept: nat
    ghost var torn: bool
    // What the kernel said to a reflink, if one was asked for, and whether it refused copy_file_range.
    ghost var reflinked: Option<bool>
    ghost var refused: bool
    // Some call on the file failed or moved less than it was asked to, or the file was found changed.
    ghost var trouble: bool
    ghost var changed: bool

    constructor (data: seq<Byte>)
      ensures this.data == data && pos == 0 && written == {} && source == null && kept == 0 && !torn
      ensures reflinked == None && !refused && !trouble && !changed
    {
      this.data, pos, written, source, kept, torn := data, 0, {}, null, 0, false;
      reflinked, refused, trouble, changed := None, false, false, false;
    }

    /** Clones can read the file. */
    ghost predicate Live()
      reads this, source
    {
      source != null && !source.dead
    }

    /** A full buffer, or what is left and eof, or an error after any prefix. */
    method ReadAt(max: nat, off: nat) returns (p: seq<Byte>, eof: bool, failed: bool)
      modifies this`trouble
      ensures trouble == (old(trouble) || failed)
      ensures |p| <= max && (p != [] ==> off + |p| <= |data| && p == data[off..off + |p|])
      ensures !eof && !failed ==> |p| == max
      ensures eof ==> |p| < max && |data| <= off + |p|
    {
      var left := if off < |data| then |data| - off else 0;
      var n: int := *;
      n := Max(0, Min(n, Min(max, left)));
      p := if n == 0 then [] else data[off..off + n];
      eof := n == left && n < max;
      failed := !eof && n < max;
      trouble := trouble || failed;
    }

    /** At least one byte, or eof at the end, or an error. */
    method Read(max: nat) returns (p: seq<Byte>, eof: bool, failed: bool)
      requires 0 < max && pos <= |data|
      modifies this`pos, this`trouble
      ensures trouble == (old(trouble) || failed)
      ensures |p| <= max && old(pos) + |p| == pos <= |data| && p == data[old(pos)..pos]
      ensures eof ==> pos == |data|
      ensures p != [] || eof || failed
    {
      var n: int := *;
      n := Max(0, Min(n, Min(max, |data| - pos)));
      p := data[pos..pos + n];
      pos := pos + n;
      eof := *;
      eof := pos == |data| && (eof || n == 0);
      failed := *;
      failed := (failed || n == 0) && !eof;
      trouble := trouble || failed;
    }

    method Write(p: seq<Byte>) returns (n: nat, failed: bool)
      modifies this
      ensures n <= |p| && pos == old(pos) + n
      ensures data == ByteFiles.WriteAt(old(data), old(pos), p[..n])
      ensures source == old(source) && kept == old(kept) && reflinked == old(reflinked) && refused == old(refused)
      ensures trouble == (old(trouble) || failed || n < |p|)
      ensures torn == (old(torn) || (Live() && Discards(old(data), data, kept)))
    {
      n :| 0 <= n <= |p|;
      ghost var was := data;
      data := ByteFiles.WriteAt(data, pos, p[..n]);
      torn := torn || (Live() && Discards(was, data, kept));
      written := written + Span(pos, n);
      pos := pos + n;
      failed := *;
      trouble := trouble || failed || n < |p|;
    }

    /** Does not move the file offset.  A write that fails may have written any of its own range. */
    method WriteAt(p: seq<Byte>, off: nat) returns (ok: bool)
      modifies this`data, this`written, this`torn, this`trouble
      ensures OnlyRange(old(data), data, off, off + |p|)
      ensures torn == (old(torn) || (Live() && Discards(old(data), data, kept)))
      ensures trouble == (old(trouble) || !ok)
      ensures ok ==> data == ByteFiles.WriteAt(old(data), off, p)
      ensures ok ==> written == old(written) + Span(off, |p|)
    {
      ok := *;
      trouble := trouble || !ok;
      var n :| 0 <= n <= |p|;
      ghost var was := data;
      if ok {
        data := ByteFiles.WriteAt(data, off, p);
        written := written + Span(off, |p|);
      } else {
        data := ByteFiles.WriteAt(data, off, p[..n]);
        written := written + Span(off, n);
      }
      torn := torn || (Live() && Discards(was, data, kept));
    }

    /** Does not move the file offset. */
    method Truncate(n: nat) returns (ok: bool)
      modifies this`data, this`written, this`torn, this`trouble
      ensures written == if ok then set k | k in old(written) && k < n else old(written)
      ensures data == if ok then ByteFiles.Truncate(old(data), n) else old(data)
      ensures trouble == (old(trouble) || !ok)
      ensures torn == (old(torn) || (Live() && Discards(old(data), data, kept)))
    {
      ok := *;
      trouble := trouble || !ok;
      if ok {
        ghost var was := data;
        data := ByteFiles.Truncate(data, n);
        written := set k | k in written && k < n;
        torn := torn || (Live() && Discards(was, data, kept));
      }
    }

    /** The last look at a source: its size, its time, and where what was cloned lies.  It can only be too wary. */
    method Unchanged(size: nat) returns (same: bool)
      modifies this`changed
      ensures same ==> |data| == size
      ensures changed == (old(changed) || (!same && |data| == size))
    {
      same := *;
      same := same && |data| == size;
      changed := changed || (!same && |data| == size);
    }

    /** FICLONE: all or nothing. */
    method Reflink(src: File) returns (ok: bool)
      modifies this`data, this`torn, this`reflinked
      ensures data == (if ok then src.data else old(data)) && reflinked == Some(ok)
      ensures torn == (old(torn) || (Live() && Discards(old(data), data, kept)))
    {
      ok := *;
      reflinked := Some(ok);
      if ok {
        ghost var was := data;
        data := src.data;
        torn := torn || (Live() && Discards(was, data, kept));
      }
    }

    /** One copy_file_range call at both file offsets: no bytes means the source's end. */
    method RangeCall(src: File, max: nat) returns (n: nat, failed: bool, unsupported: bool)
      requires src != this && src.pos <= |src.data| && 0 < max
      modifies this, src`pos
      ensures !failed ==> n <= max && src.pos == old(src.pos) + n <= |src.data| && pos == old(pos) + n
      ensures !failed ==> data == ByteFiles.WriteAt(old(data), old(pos), src.data[old(src.pos)..src.pos])
      ensures !failed && n == 0 ==> src.pos == |src.data|
      ensures failed ==> data == old(data) && pos == old(pos) && src.pos == old(src.pos)
      ensures refused == (old(refused) || (failed && unsupported)) && reflinked == old(reflinked)
      ensures trouble == (old(trouble) || (failed && !unsupported))
      ensures source == old(source) && kept == old(kept)
      ensures torn == (old(torn) || (Live() && Discards(old(data), data, kept)))
    {
      n, failed, unsupported := 0, *, *;
      refused, trouble := refused || (failed && unsupported), trouble || (failed && !unsupported);
      ghost var was := data;
      if !failed && src.pos < |src.data| {
        n :| 0 < n <= max && src.pos + n <= |src.data|;
        data := ByteFiles.WriteAt(data, pos, src.data[src.pos..src.pos + n]);
        written := written + Span(pos, n);
        pos, src.pos := pos + n, src.pos + n;
        torn := torn || (Live() && Discards(was, data, kept));
      }
    }
  }

  // ---- writeNonZero ----

  /** What writeNonZero has done once the blocks before lim are settled. */
  ghost predicate NonZeroSoFar(was: seq<Byte>, p: seq<Byte>, off: nat, lim: nat, now: seq<Byte>) {
    && lim <= |p|
    && |was| <= |now| <= Max(|was|, off + lim)
    && forall k :: At(now, k) ==
        if off <= k < off + lim && !InZeroBlock(p, k - off) then p[k - off] else At(was, k)
  }

  /** The file offsets of p's first lim bytes that are in a block with a non-zero byte. */
  ghost function NonZeroOffsets(p: seq<Byte>, off: nat, lim: nat): (s: set<int>)
    requires lim <= |p|
    ensures forall k :: k in s <==> off <= k < off + lim && !InZeroBlock(p, k - off)
  {
    if lim == 0 then {}
    else NonZeroOffsets(p, off, lim - 1) + if InZeroBlock(p, lim - 1) then {} else {off + lim - 1}
  }

  /** All indices of a block agree on whether the block is zero. */
  lemma WholeBlock(p: seq<Byte>, i: nat, k: nat)
    requires i % SPARSE_BLOCK == 0 && i <= k < i + SPARSE_BLOCK && k < |p|
    ensures InZeroBlock(p, k) <==> AllZero(p[i..Min(i + SPARSE_BLOCK, |p|)])
  {
    assert BlockLo(k) == i;
  }

  lemma BlockAgrees(p: seq<Byte>, i: nat, end: nat, zero: bool)
    requires i % SPARSE_BLOCK == 0 && i < |p| && end == Min(i + SPARSE_BLOCK, |p|) && zero == AllZero(p[i..end])
    ensures forall k :: i <= k < end ==> (InZeroBlock(p, k) <==> zero)
  {
    forall k | i <= k < end ensures InZeroBlock(p, k) <==> zero {
      WholeBlock(p, i, k);
    }
  }

  lemma NextBlock(i: nat)
    requires i % SPARSE_BLOCK == 0
    ensures (i + SPARSE_BLOCK) % SPARSE_BLOCK == 0
  {
  }

  /** One run of non-zero blocks is written. */
  lemma RunWritten(was: seq<Byte>, p: seq<Byte>, off: nat, start: nat, i: nat, now: seq<Byte>, g: seq<Byte>)
    requires NonZeroSoFar(was, p, off, start, now) && start < i <= |p|
    requires forall k :: start <= k < i ==> !InZeroBlock(p, k)
    requires g == ByteFiles.WriteAt(now, off + start, p[start..i])
    ensures NonZeroSoFar(was, p, off, i, g)
  {
    forall k ensures At(g, k) == if off <= k < off + i && !InZeroBlock(p, k - off) then p[k - off] else At(was, k) {
      if off + start <= k < off + i {
        assert p[start..i][k - (off + start)] == p[k - off];
      }
    }
  }

  lemma RunOffsets(p: seq<Byte>, off: nat, start: nat, i: nat, wrote: set<int>)
    requires start < i <= |p| && forall k :: start <= k < i ==> !InZeroBlock(p, k)
    ensures wrote + NonZeroOffsets(p, off, start) + Span(off + start, |p[start..i]|) ==
            wrote + NonZeroOffsets(p, off, i)
  {
    assert NonZeroOffsets(p, off, start) + Span(off + start, |p[start..i]|) == NonZeroOffsets(p, off, i);
  }

  /** Writes the run of non-zero blocks p[start..i]. */
  method WriteRun(dst: File, p: seq<Byte>, off: nat, start: nat, i: nat,
                  ghost was: seq<Byte>, ghost wrote: set<int>) returns (ok: bool)
    requires start < i <= |p| && NonZeroSoFar(was, p, off, start, dst.data)
    requires dst.written == wrote + NonZeroOffsets(p, off, start)
    requires forall k :: start <= k < i ==> !InZeroBlock(p, k)
    modifies dst`data, dst`written, dst`torn, dst`trouble
    ensures !ok ==> dst.trouble
    ensures ok ==> NonZeroSoFar(was, p, off, i, dst.data)
    ensures ok ==> dst.written == wrote + NonZeroOffsets(p, off, i)
    ensures OnlyRange(was, dst.data, off, off + |p|) && (dst.kept <= off || !dst.Live() ==> dst.torn == old(dst.torn))
  {
    ghost var now := dst.data;
    ok := dst.WriteAt(p[start..i], off + start);
    RunInRange(was, p, off, start, i, now, dst.data, dst.kept);
    if ok {
      RunWritten(was, p, off, start, i, now, dst.data);
      RunOffsets(p, off, start, i, wrote);
    }
  }

  lemma RunInRange(was: seq<Byte>, p: seq<Byte>, off: nat, start: nat, i: nat, now: seq<Byte>, g: seq<Byte>, kept: nat)
    requires start < i <= |p| && NonZeroSoFar(was, p, off, start, now) && OnlyRange(now, g, off + start, off + i)
    ensures OnlyRange(was, g, off, off + |p|) && (kept <= off ==> !Discards(now, g, kept))
  {
    SoFarInRange(was, p, off, start, now);
    InRange(was, now, g, off, off + |p|, off + start, off + i, kept);
  }

  lemma SoFarInRange(was: seq<Byte>, p: seq<Byte>, off: nat, start: nat, now: seq<Byte>)
    requires NonZeroSoFar(was, p, off, start, now)
    ensures OnlyRange(was, now, off, off + |p|)
  {
  }

  /** A change inside the range, after changes inside the range; bytes kept below it are not discarded. */
  lemma InRange(was: seq<Byte>, now: seq<Byte>, g: seq<Byte>, lo: int, hi: int, start: int, end: int, kept: nat)
    requires OnlyRange(was, now, lo, hi) && OnlyRange(now, g, start, end) && lo <= start <= end <= hi
    ensures OnlyRange(was, g, lo, hi) && (kept <= lo ==> !Discards(now, g, kept))
  {
  }

  /** Skipping a zero block settles it. */
  lemma ZeroSkipped(was: seq<Byte>, p: seq<Byte>, off: nat, i: nat, end: nat, now: seq<Byte>)
    requires NonZeroSoFar(was, p, off, i, now) && i <= end <= |p|
    requires forall k :: i <= k < end ==> InZeroBlock(p, k)
    ensures NonZeroSoFar(was, p, off, end, now)
    ensures NonZeroOffsets(p, off, end) == NonZeroOffsets(p, off, i)
  {
  }

  /** The bytes before this are written or skipped: those from a pending run on are still to be written. */
  function Settled(runStart: int, i: nat): int {
    if runStart < 0 then i else runStart
  }

  /** The blocks before i are settled, but for a pending run of non-zero ones. */
  ghost predicate BlocksDone(was: seq<Byte>, p: seq<Byte>, off: nat, wrote: set<int>, i: nat, runStart: int,
                             now: seq<Byte>, written: set<int>) {
    && i % SPARSE_BLOCK == 0
    && var at := Min(i, |p|);
       && (runStart == -1 || 0 <= runStart < at)
       && NonZeroSoFar(was, p, off, Settled(runStart, at), now)
       && written == wrote + NonZeroOffsets(p, off, Settled(runStart, at))
       && forall k :: Settled(runStart, at) <= k < at ==> !InZeroBlock(p, k)
  }

  /** One block: a run begins, goes on, or is written before a zero block. */
  method PutBlock(dst: File, p: seq<Byte>, off: nat, i: nat, runStart: int, ghost was: seq<Byte>, ghost wrote: set<int>)
    returns (ok: bool, run: int)
    requires i < |p| && BlocksDone(was, p, off, wrote, i, runStart, dst.data, dst.written)
    modifies dst`data, dst`written, dst`torn, dst`trouble
    ensures !ok ==> dst.trouble
    ensures ok ==> BlocksDone(was, p, off, wrote, i + SPARSE_BLOCK, run, dst.data, dst.written)
    ensures OnlyRange(was, dst.data, off, off + |p|) && (dst.kept <= off || !dst.Live() ==> dst.torn == old(dst.torn))
  {
    var end := Min(i + SPARSE_BLOCK, |p|);
    var zero := AllZero(p[i..end]);
    BlockAgrees(p, i, end, zero);
    NextBlock(i);
    ok, run := true, runStart;
    if !zero && run < 0 {
      run := i;
    }
    if zero && run >= 0 {
      ok := WriteRun(dst, p, off, run, i, was, wrote);
      if !ok {
        return;
      }
      run := -1;
    }
    if zero {
      ZeroSkipped(was, p, off, i, end, dst.data);
    }
  }

  /** Puts p at off with as few writes as the zero blocks allow: a byte is written exactly if its block of p
      is not all zero. */
  method WriteNonZero(dst: File, p: seq<Byte>, off: nat) returns (ok: bool)
    modifies dst`data, dst`written, dst`torn, dst`trouble
    ensures !ok ==> dst.trouble
    ensures ok ==> WroteNonZero(old(dst.data), p, off, dst.data)
    ensures ok ==> dst.written == old(dst.written) + NonZeroOffsets(p, off, |p|)
    // Succeed or fail, nothing outside p's range changes.
    ensures OnlyRange(old(dst.data), dst.data, off, off + |p|)
    ensures (dst.kept <= off || !dst.Live() ==> dst.torn == old(dst.torn))
  {
    ghost var was, wrote := dst.data, dst.written;
    var runStart := -1;
    var i := 0;
    NoneDone(p, off, was, wrote);
    while i < |p|
      invariant 0 <= i && BlocksDone(was, p, off, wrote, i, runStart, dst.data, dst.written)
      invariant OnlyRange(was, dst.data, off, off + |p|)
                && (dst.kept <= off || !dst.Live() ==> dst.torn == old(dst.torn))
    {
      ok, runStart := PutBlock(dst, p, off, i, runStart, was, wrote);
      if !ok {
        return;
      }
      i := i + SPARSE_BLOCK;
    }
    ok := PutRest(dst, p, off, i, runStart, was, wrote);
  }

  /** The run that reaches the end of the buffer. */
  method PutRest(dst: File, p: seq<Byte>, off: nat, i: nat, runStart: int, ghost was: seq<Byte>, ghost wrote: set<int>)
    returns (ok: bool)
    requires |p| <= i && BlocksDone(was, p, off, wrote, i, runStart, dst.data, dst.written)
    modifies dst`data, dst`written, dst`torn, dst`trouble
    ensures !ok ==> dst.trouble
    ensures ok ==> WroteNonZero(was, p, off, dst.data) && dst.written == wrote + NonZeroOffsets(p, off, |p|)
    ensures OnlyRange(was, dst.data, off, off + |p|) && (dst.kept <= off || !dst.Live() ==> dst.torn == old(dst.torn))
  {
    ok := true;
    if runStart >= 0 {
      ok := WriteRun(dst, p, off, runStart, |p|, was, wrote);
    }
  }

  lemma NoneDone(p: seq<Byte>, off: nat, now: seq<Byte>, written: set<int>)
    ensures BlocksDone(now, p, off, written, 0, -1, now, written)
  {
  }

  // ---- The loops ----

  const DEFAULT_BUF_SIZE: nat := 1048576

  function BufSize(wanted: int): (n: nat)
    ensures 0 < n
  {
    if wanted <= 0 then DEFAULT_BUF_SIZE else wanted
  }

  /** Everything past what is written reads as zero: a new file, or one truncated to nothing. */
  ghost predicate ZeroFrom(f: seq<Byte>, lo: int, hi: int) {
    forall k :: lo <= k < hi ==> At(f, k) == 0
  }

  /** What is written from was to now is written for the sake of a non-zero byte near it: holes stay holes. */
  ghost predicate HolesStay(src: seq<Byte>, was: set<int>, now: set<int>) {
    forall k :: 0 <= k && k in now && k !in was ==> Near(src, k)
  }

  lemma HolesStillStay(src: seq<Byte>, was: set<int>, mid: set<int>, now: set<int>)
    requires HolesStay(src, was, mid) && HolesStay(src, mid, now)
    ensures HolesStay(src, was, now)
  {
  }

  lemma ChunkLeavesHoles(src: seq<Byte>, p: seq<Byte>, off: nat, was: set<int>)
    requires off + |p| <= |src| && p == src[off..off + |p|]
    ensures HolesStay(src, was, was + NonZeroOffsets(p, off, |p|))
  {
    forall k | k in NonZeroOffsets(p, off, |p|) ensures Near(src, k) { NonZeroIsNear(src, p, off, k - off); }
  }

  /** Writes p, which is of src at off, where the destination reads as zero. */
  method PutChunk(dst: File, src: File, p: seq<Byte>, off: nat) returns (ok: bool)
    requires dst != src && off + |p| <= |src.data| && p == src.data[off..off + |p|]
    requires ZeroFrom(dst.data, off, off + |p|)
    modifies dst`data, dst`written, dst`torn, dst`trouble
    ensures !ok ==> dst.trouble
    ensures ok ==> |dst.data| <= Max(|old(dst.data)|, off + |p|)
    ensures ok ==> forall k :: At(dst.data, k) == At(if off <= k < off + |p| then src.data else old(dst.data), k)
    ensures ok ==> HolesStay(src.data, old(dst.written), dst.written)
    ensures OnlyRange(old(dst.data), dst.data, off, off + |p|)
    ensures (dst.kept <= off || !dst.Live() ==> dst.torn == old(dst.torn))
  {
    ghost var before := dst.data;
    ChunkLeavesHoles(src.data, p, off, dst.written);
    ok := WriteNonZero(dst, p, off);
    if ok {
      WroteNonZeroIsWrite(before, p, off, dst.data);
      forall k | off <= k < off + |p| ensures At(src.data, k) == p[k - off] {}
    }
  }

  /** One range of the file, onto a destination that is a hole there. */
  method CopyRange(dst: File, src: File, off: nat, length: nat, wanted: int, meter: Meter) returns (err: Err)
    requires dst != src && ZeroFrom(dst.data, off, off + length)
    modifies dst`data, dst`written, dst`torn, dst`trouble, src`trouble, meter
    // It succeeds unless a call fails, the caller cancels, or the source has become too short.
    ensures err == NoErr || src.trouble || dst.trouble || meter.stopped
            || (err == SourceChanged && |src.data| < off + length)
    ensures err == NoErr ==>
      && (length > 0 ==> off + length <= |src.data|)
      && |dst.data| <= Max(|old(dst.data)|, off + length)
      && meter.credited == old(meter.credited) + length
      && forall k :: At(dst.data, k) == if off <= k < off + length then At(src.data, k) else At(old(dst.data), k)
    ensures err == NoErr ==> HolesStay(src.data, old(dst.written), dst.written)
    ensures OnlyRange(old(dst.data), dst.data, off, off + length)
    ensures (dst.kept <= off || !dst.Live() ==> dst.torn == old(dst.torn))
  {
    var bufSize := BufSize(wanted);
    var at, left := off, length;
    ghost var was, wrote, paid := dst.data, dst.written, meter.credited;
    while left > 0
      invariant 0 <= left && off <= at && at + left == off + length
      invariant at > off ==> at <= |src.data|
      invariant |was| <= |dst.data| <= Max(|was|, at) && (dst.kept <= off || !dst.Live() ==> dst.torn == old(dst.torn))
      invariant meter.credited == paid + (at - off) && HolesStay(src.data, wrote, dst.written)
      invariant forall k :: At(dst.data, k) == if off <= k < at then At(src.data, k) else At(was, k)
    {
      var canceled := meter.Canceled();
      if canceled {
        return Canceled;
      }
      var p, eof, failed := src.ReadAt(Min(bufSize, left), at);
      if |p| > 0 {
        ghost var mid := dst.written;
        var ok := PutChunk(dst, src, p, at);
        if !ok {
          return Io;
        }
        HolesStillStay(src.data, wrote, mid, dst.written);
        at := at + |p|;
        left := left - |p|;
        meter.Add(|p|);
      }
      if eof && left > 0 {
        return SourceChanged;
      }
      if failed {
        return Io;
      }
    }
    err := NoErr;
  }

  /** The whole source, with holes for its zero blocks.  Neither its hole map nor its size before is trusted:
      the length is what the reads returned. */
  method CopySparse(dst: File, src: File, wanted: int, meter: Meter) returns (n: nat, err: Err)
    requires dst != src && dst.data == [] && src.pos == 0
    modifies dst`data, dst`written, dst`torn, dst`trouble, src`pos, src`trouble, meter
    ensures err == NoErr || src.trouble || dst.trouble || meter.stopped
    ensures src.pos <= |src.data|
    ensures err == NoErr ==>
      dst.data == src.data && n == |src.data| && meter.credited == old(meter.credited) + n
    ensures err == NoErr ==> HolesStay(src.data, old(dst.written), dst.written)
    ensures !dst.Live() ==> dst.torn == old(dst.torn)
  {
    var bufSize := BufSize(wanted);
    n := 0;
    ghost var paid, wrote := meter.credited, dst.written;
    while true
      invariant n == src.pos <= |src.data|
      invariant |dst.data| <= n && meter.credited == paid + n && (!dst.Live() ==> dst.torn == old(dst.torn))
      invariant forall k :: At(dst.data, k) == if k < n then At(src.data, k) else 0
      invariant HolesStay(src.data, wrote, dst.written)
      decreases |src.data| - n
    {
      var canceled := meter.Canceled();
      if canceled {
        return n, Canceled;
      }
      var p, eof, failed := src.Read(bufSize);
      if |p| > 0 {
        ghost var mid := dst.written;
        var ok := PutChunk(dst, src, p, n);
        if !ok {
          return n, Io;
        }
        HolesStillStay(src.data, wrote, mid, dst.written);
        n := n + |p|;
        meter.Add(|p|);
      }
      if eof {
        break;
      }
      if failed {
        return n, Io;
      }
    }
    var ok := dst.Truncate(n);
    if !ok {
      return n, Io;
    }
    SameReads(dst.data, src.data);
    err := NoErr;
  }

  /** Copies up to size bytes inside the kernel.  ok is false only before any byte moved. */
  method CopyFileRange(dst: File, src: File, size: nat, chunkMax: nat, meter: Meter)
    returns (copied: nat, ok: bool, err: Err)
    requires dst != src && dst.data == [] && dst.pos == 0 && src.pos == 0 && 0 < chunkMax
    modifies dst, src`pos, src`trouble, meter
    ensures err == NoErr || dst.trouble || dst.refused || meter.stopped
    ensures !ok ==>
      err == NoErr && dst.data == [] && dst.pos == 0 && src.pos == 0 && meter.credited == old(meter.credited)
    // Only a refusal by the kernel makes the caller look for another way.
    ensures !ok ==> dst.refused
    ensures dst.reflinked == old(dst.reflinked)
    ensures ok && err == NoErr ==>
      && copied == Min(size, |src.data|) && dst.data == src.data[..copied]
      && meter.credited == old(meter.credited) + copied
    ensures dst.source == old(dst.source) && dst.kept == old(dst.kept) && (!dst.Live() ==> dst.torn == old(dst.torn))
  {
    var remaining := size;
    copied := 0;
    ghost var paid := meter.credited;
    while remaining > 0
      invariant 0 <= remaining && copied + remaining == size
      invariant copied == src.pos == dst.pos <= |src.data| && dst.data == src.data[..copied]
      invariant dst.reflinked == old(dst.reflinked)
      invariant meter.credited == paid + copied
      invariant dst.source == old(dst.source) && dst.kept == old(dst.kept)
                && (!dst.Live() ==> dst.torn == old(dst.torn))
    {
      var canceled := meter.Canceled();
      if canceled {
        return copied, true, Canceled;
      }
      var chunk := if remaining > chunkMax then chunkMax else remaining;
      ghost var before := dst.data;
      var n, failed, unsupported := dst.RangeCall(src, chunk);
      if failed {
        if copied == 0 && unsupported {
          return 0, false, NoErr;
        }
        return copied, true, Io;
      }
      if n == 0 {
        break;
      }
      assert before + src.data[copied..copied + n] == src.data[..copied + n];
      SameReads(dst.data, src.data[..copied + n]);
      copied := copied + n;
      remaining := remaining - n;
      meter.Add(n);
    }
    return copied, true, NoErr;
  }

  /** The portable loop: what every other way of copying must agree with. */
  method PlainCopy(dst: File, src: File, wanted: int, meter: Meter) returns (written: nat, err: Err)
    requires dst != src && dst.data == [] && dst.pos == 0 && src.pos == 0
    modifies dst, src`pos, src`trouble, meter
    ensures err == NoErr || src.trouble || dst.trouble || meter.stopped
    ensures err == NoErr ==>
      dst.data == src.data && written == |src.data| && meter.credited == old(meter.credited) + written
    ensures dst.reflinked == old(dst.reflinked) && dst.refused == old(dst.refused)
    ensures dst.source == old(dst.source) && dst.kept == old(dst.kept) && (!dst.Live() ==> dst.torn == old(dst.torn))
  {
    var bufSize := BufSize(wanted);
    written := 0;
    ghost var paid := meter.credited;
    while true
      invariant written == src.pos == dst.pos <= |src.data| && dst.data == src.data[..written]
      invariant meter.credited == paid + written
      invariant dst.reflinked == old(dst.reflinked) && dst.refused == old(dst.refused)
      invariant dst.source == old(dst.source) && dst.kept == old(dst.kept)
                && (!dst.Live() ==> dst.torn == old(dst.torn))
      decreases |src.data| - written
    {
      var canceled := meter.Canceled();
      if canceled {
        return written, Canceled;
      }
      ghost var before := dst.data;
      var p, eof, failed := src.Read(bufSize);
      if |p| > 0 {
        var nw, werr := dst.Write(p);
        if nw > 0 {
          written := written + nw;
          meter.Add(nw);
        }
        if werr {
          return written, Io;
        }
        if nw < |p| {
          return written, ShortWrite;
        }
        assert p[..nw] == p;
        assert before + p == src.data[..written];
        SameReads(dst.data, src.data[..written]);
      }
      if eof {
        return written, NoErr;
      }
      if failed {
        return written, Io;
      }
    }
  }
}
