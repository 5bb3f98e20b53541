/** The choice of copy method and the restart after a failed extent pass: copyData and copyDedup. */
module CopyData {
  import opened ByteFiles
  import opened Segments
  import opened CopyLoops
  import opened DestRefs
  import opened ExtentIndex

  /** What the walk's Lstat said: the size then, and the 512-byte blocks the file occupies. */
  datatype Info = Info(size: nat, blocks: nat)

  /** How the bytes got to the destination. */
  datatype Way = Reflink | Dedup | Sparse | Range | Plain

  /** Fewer blocks than the size implies: the file has holes. */
  predicate IsSparse(info: Info) {
    info.blocks * 512 < info.size
  }

  /** The extents describe this source: a backed byte is the device's byte. */
  ghost predicate MapOk(exts: seq<Extent>, content: seq<Byte>, disk: int -> Byte) {
    forall b, a :: Backed(exts, b, a) && 0 <= b < |content| ==> content[b] == disk(a)
  }

  /** A range clone from an earlier copy: the device's bytes appear, or nothing happens. */
  method CloneSegment(dst: File, s: Segment, disk: int -> Byte) returns (ok: bool)
    requires 0 <= s.off && 0 < s.length
    modifies dst`data, dst`written, dst`torn
    ensures !ok ==> dst.data == old(dst.data)
    ensures OnlyRange(old(dst.data), dst.data, s.off, s.End())
    ensures dst.torn == (old(dst.torn) || (dst.Live() && Discards(old(dst.data), dst.data, dst.kept)))
    ensures dst.written == if ok then old(dst.written) + Span(s.off, s.length) else old(dst.written)
    ensures ok ==> |dst.data| == Max(|old(dst.data)|, s.End())
    ensures ok ==> forall k :: At(dst.data, k) == if s.Has(k) then disk(s.Address(k)) else At(old(dst.data), k)
  {
    ok := *;
    if ok {
      var p := seq(s.length, j requires 0 <= j < s.length => disk(s.phys + j));
      ghost var was := dst.data;
      dst.data := ByteFiles.WriteAt(dst.data, s.off, p);
      dst.written := dst.written + Span(s.off, s.length);
      dst.torn := dst.torn || (dst.Live() && Discards(was, dst.data, dst.kept));
    }
  }

  /** Fills in a shared segment, by a clone that succeeds or else by a copy of the range. */
  method CopyShared(dst: File, src: File, s: Segment, disk: int -> Byte, wanted: int, meter: Meter)
    returns (cloned: bool, err: Err)
    requires dst != src && 0 <= s.off && 0 < s.length && ZeroFrom(dst.data, s.off, s.End())
    modifies dst`data, dst`written, dst`torn, dst`trouble, src`trouble, meter
    // Succeed or fail, the rest of the file is left alone.
    ensures err == NoErr || src.trouble || dst.trouble || meter.stopped
            || (err == SourceChanged && |src.data| < s.End())
    ensures OnlyRange(old(dst.data), dst.data, s.off, s.End()) && (dst.kept <= s.off ==> dst.torn == old(dst.torn))
    ensures err == NoErr ==>
      && |dst.data| <= Max(|old(dst.data)|, s.End())
      && meter.credited == old(meter.credited) + (if cloned then 0 else s.length)
      && (!cloned ==> s.End() <= |src.data|)
      && (if cloned then dst.written == old(dst.written) + Span(s.off, s.length)
          else HolesStay(src.data, old(dst.written), dst.written))
      && forall k :: At(dst.data, k) ==
           if s.Has(k) then (if cloned then disk(s.Address(k)) else At(src.data, k)) else At(old(dst.data), k)
  {
    cloned := CloneSegment(dst, s, disk);
    if cloned {
      return true, NoErr;
    }
    err := CopyRange(dst, src, s.off, s.length, wanted, meter);
  }

  /** The destination agrees with the source on [0, done) wherever the source has bytes, and is a hole after. */
  ghost predicate CopiedTo(dst: seq<Byte>, src: seq<Byte>, done: int) {
    && |dst| <= Max(done, 0)
    && (forall k :: 0 <= k < done && k < |src| ==> At(dst, k) == src[k])
    && (forall k :: done <= k ==> At(dst, k) == 0)
  }

  /** A shared segment's bytes are the device's at its address. */
  ghost predicate Shows(content: seq<Byte>, disk: int -> Byte, s: Segment) {
    s.shared ==> forall k :: 0 <= k < |content| && s.Has(k) ==> content[k] == disk(s.Address(k))
  }

  /** What is written is in the segment, if other files share it, or for the sake of a non-zero byte. */
  ghost predicate SegmentLeavesHoles(src: seq<Byte>, s: Segment, was: set<int>, now: set<int>) {
    forall k :: 0 <= k && k in now && k !in was ==> (s.shared && s.Has(k)) || Near(src, k)
  }

  /** And so for a file: in an extent that other files share, or for the sake of a non-zero byte. */
  ghost predicate FileLeavesHoles(src: seq<Byte>, exts: seq<Extent>, was: set<int>, now: set<int>) {
    forall k :: 0 <= k && k in now && k !in was ==> InShareable(exts, k) || Near(src, k)
  }

  predicate InShareable(exts: seq<Extent>, k: int) {
    exists i :: 0 <= i < |exts| && exts[i].Shareable() && exts[i].Covers(k)
  }

  lemma SegmentInFile(src: seq<Byte>, exts: seq<Extent>, s: Segment, was: set<int>, mid: set<int>, now: set<int>)
    requires s.shared ==> PieceOf(exts, |exts|, s)
    requires FileLeavesHoles(src, exts, was, mid) && SegmentLeavesHoles(src, s, mid, now)
    ensures FileLeavesHoles(src, exts, was, now)
  {
    if s.shared {
      var i :| 0 <= i < |exts| && exts[i].Shareable()
               && exts[i].logical <= s.off && s.End() <= exts[i].logical + exts[i].length
               && s.phys == exts[i].Address(s.off);
      forall k | s.Has(k) ensures InShareable(exts, k) { assert exts[i].Covers(k); }
    }
  }

  /** The next segment of the plan. */
  method CopySegment(dst: File, src: File, s: Segment, disk: int -> Byte, wanted: int, meter: Meter) returns (err: Err)
    requires dst != src && 0 <= s.off && 0 < s.length && dst.kept == s.off
    requires CopiedTo(dst.data, src.data, s.off) && Shows(src.data, disk, s)
    modifies dst`data, dst`written, dst`torn, dst`kept, dst`trouble, src`trouble, meter
    ensures err == NoErr || src.trouble || dst.trouble || meter.stopped
            || (err == SourceChanged && |src.data| < s.End())
    ensures dst.torn == old(dst.torn)
    ensures err == NoErr ==>
      && CopiedTo(dst.data, src.data, s.End()) && dst.kept == s.End()
      && SegmentLeavesHoles(src.data, s, old(dst.written), dst.written)
      && meter.credited == old(meter.credited) + s.length
  {
    ghost var before := dst.data;
    if s.shared {
      var cloned;
      cloned, err := CopyShared(dst, src, s, disk, wanted, meter);
      if err != NoErr {
        return;
      }
      if cloned {
        meter.Add(s.length);
      }
    } else {
      err := CopyRange(dst, src, s.off, s.length, wanted, meter);
      if err != NoErr {
        return;
      }
    }
    SegmentCopied(before, dst.data, src.data, s);
    dst.kept := s.End();
  }

  /** The plan, and whether there is anything in it to clone. */
  method PlanOf(exts: seq<Extent>, size: nat) returns (segs: seq<Segment>, any: bool)
    ensures Tiles(segs, size) && SharedArePieces(exts, segs)
    ensures SortedDisjoint(exts) ==> (any <==> exists b, a :: 0 <= b < size && Backed(exts, b, a))
  {
    segs := PlanSegments(exts, size);
    any := exists i :: 0 <= i < |segs| && segs[i].shared;
    if SortedDisjoint(exts) { SharedExactlyWhenBacked(exts, size, segs); }
  }

  /** The extent pass.  applies is false only with dst untouched.  exts is the plan-time FIEMAP answer, or none if
      the call failed.  The file becomes a clone source, and however the pass ends no byte that a clone may read
      has been lost. */
  method CopyDedup(dst: File, src: File, size: nat, probe: bool, exts: Option<seq<Extent>>, disk: int -> Byte,
                   wanted: int, meter: Meter, fd: FileDedup, dev: nat, ino: nat)
    returns (n: nat, applies: bool, err: Err)
    requires dst != src && dst.data == [] && 0 < size && fd.ref == null && dst.source == null
    requires exts.Some? ==> MapOk(exts.value, src.data, disk)
    modifies dst`data, dst`written, dst`torn, dst`source, dst`kept, dst`trouble, src`trouble, src`changed, meter, fd
    // It applies where clones work and some byte of the file lies in an extent that other files share.
    // It succeeds unless a call fails, the caller cancels, or the source has changed.
    ensures err == NoErr || src.trouble || dst.trouble || meter.stopped
            || (err == SourceChanged && (|src.data| != size || src.changed))
    ensures applies ==> probe && exts.Some?
    ensures probe && exts.Some? && SortedDisjoint(exts.value) ==>
      (applies <==> exists b, a :: 0 <= b < size && Backed(exts.value, b, a))
    ensures !applies ==> dst.written == old(dst.written)
    ensures !applies ==> dst.data == [] && meter.credited == old(meter.credited) && fd.ref == null && dst.source == null
    // The final check makes a stale size an error, never a wrong copy.
    ensures applies && err == NoErr ==>
      dst.data == src.data && n == size == |src.data| && meter.credited == old(meter.credited) + n
    // Outside the extents that other files share, holes stay holes.
    ensures applies && err == NoErr ==>
      exts.Some? && FileLeavesHoles(src.data, exts.value, old(dst.written), dst.written)
    ensures applies ==> fd.ref != null && fresh(fd.ref) && dst.source == fd.ref
    ensures applies ==> fd.ref.Model() == Ref(dev, ino, true, None, false)
    ensures dst.torn == old(dst.torn)
  {
    if !probe || exts.None? {
      return 0, false, NoErr;
    }
    var segs, any := PlanOf(exts.value, size);
    if !any {
      return 0, false, NoErr;
    }
    fd.ref := new DestRef(dev, ino);
    dst.source, dst.kept := fd.ref, 0;
    ghost var paid, wrote := meter.credited, dst.written;
    ghost var done := 0;
    for i := 0 to |segs|
      invariant done == if i < |segs| then segs[i].off else size
      invariant CopiedTo(dst.data, src.data, done)
      invariant meter.credited == paid + done
      invariant FileLeavesHoles(src.data, exts.value, wrote, dst.written)
      invariant dst.kept == done && dst.torn == old(dst.torn)
      invariant fd.ref != null && fresh(fd.ref) && dst.source == fd.ref
                && fd.ref.Model() == Ref(dev, ino, true, None, false)
    {
      var s := segs[i];
      var canceled := meter.Canceled();
      if canceled {
        return 0, true, Canceled;
      }
      PieceIsMapped(exts.value, src.data, disk, s);
      ghost var mid := dst.written;
      var e := CopySegment(dst, src, s, disk, wanted, meter);
      if e != NoErr {
        return 0, true, e;
      }
      SegmentInFile(src.data, exts.value, s, wrote, mid, dst.written);
      done := s.End();
    }
    ghost var before := dst.data;
    var ok := dst.Truncate(size);
    if !ok {
      return 0, true, Io;
    }
    var same := src.Unchanged(size);
    if !same {
      return 0, true, SourceChanged;
    }
    forall k | 0 <= k < |src.data| ensures At(dst.data, k) == At(src.data, k) {
      assert At(before, k) == src.data[k];
    }
    SameReads(dst.data, src.data);
    return size, true, NoErr;
  }

  lemma SharedExactlyWhenBacked(exts: seq<Extent>, size: nat, segs: seq<Segment>)
    requires Tiles(segs, size) && PlansBacked(exts, size, segs)
    ensures (exists i :: 0 <= i < |segs| && segs[i].shared) <==> exists b, a :: 0 <= b < size && Backed(exts, b, a)
  {
    if i :| 0 <= i < |segs| && segs[i].shared {
      assert segs[i].Has(segs[i].off) && Planned(segs, segs[i].off, segs[i].Address(segs[i].off));
    }
    if b, a :| 0 <= b < size && Backed(exts, b, a) { assert Planned(segs, b, a); }
  }

  /** A piece of a shareable extent shows the device's bytes. */
  lemma PieceIsMapped(exts: seq<Extent>, content: seq<Byte>, disk: int -> Byte, s: Segment)
    requires MapOk(exts, content, disk) && (s.shared ==> PieceOf(exts, |exts|, s)) && 0 <= s.off
    ensures Shows(content, disk, s)
  {
    if !s.shared { return; }
    var i :| 0 <= i < |exts| && exts[i].Shareable()
             && exts[i].logical <= s.off && s.End() <= exts[i].logical + exts[i].length
             && s.phys == exts[i].Address(s.off);
    forall k | s.Has(k) && k < |content| ensures content[k] == disk(s.Address(k)) {
      assert exts[i].Covers(k) && exts[i].Address(k) == s.Address(k);
      assert Backed(exts, k, s.Address(k));
    }
  }

  lemma SegmentCopied(before: seq<Byte>, after: seq<Byte>, src: seq<Byte>, s: Segment)
    requires CopiedTo(before, src, s.off) && 0 <= s.off && 0 < s.length
    requires |after| <= Max(|before|, s.End())
    requires forall k :: s.Has(k) && k < |src| ==> At(after, k) == src[k]
    requires forall k :: !s.Has(k) ==> At(after, k) == At(before, k)
    ensures CopiedTo(after, src, s.End())
  {
    forall k | s.End() <= k ensures At(after, k) == 0 {
      assert At(before, k) == 0;
    }
  }

  /** The ways that copyData may take with what the walk's Lstat said. */
  predicate CanBe(way: Way, info: Option<Info>) {
    match info
    case None => way == Plain
    case Some(i) =>
      (match way
       case Reflink => 0 < i.size
       case Dedup => 0 < i.size
       case Sparse => IsSparse(i)
       case Range => !IsSparse(i)
       case Plain => !IsSparse(i))
  }

  /** What a success leaves in the destination, and the count it returns: copy_file_range stops at the size of the
      walk's Lstat, and a reflink returns it. */
  function CopyAnswer(way: Way, info: Option<Info>, src: seq<Byte>): (r: (seq<Byte>, nat))
    requires CanBe(way, info)
  {
    match way
    case Reflink => (src, info.value.size)
    case Range => (src[..Min(info.value.size, |src|)], Min(info.value.size, |src|))
    case _ => (src, |src|)
  }

  /** Whether the walk's size is good enough for this way: a reflink returns it, and copy_file_range stops
      at it.  The other ways do not use it, or check it. */
  predicate SizeServes(way: Way, info: Option<Info>, length: nat) {
    match way
    case Reflink => info.Some? && info.value.size == length
    case Range => info.Some? && length <= info.value.size
    case _ => true
  }

  lemma ServesExactlyWhen(way: Way, info: Option<Info>, src: seq<Byte>)
    requires CanBe(way, info)
    ensures CopyAnswer(way, info, src) == (src, |src|) <==> SizeServes(way, info, |src|)
  {
    if way == Range && SizeServes(way, info, |src|) { assert src[..|src|] == src; }
  }

  /** Told before the copy: whichever way it takes, the answer is the plain loop's, if and only if there is no size
      from the walk or it is the source's length.  With any other size a reflink returns it, and of an empty size
      copy_file_range copies nothing. */
  lemma SizeMustBeRight(info: Option<Info>, src: seq<Byte>)
    ensures (forall way :: CanBe(way, info) ==> CopyAnswer(way, info, src) == (src, |src|)) <==>
            info.None? || info.value.size == |src|
    ensures info.Some? && info.value.size != |src| ==>
              var way := if 0 < info.value.size then Reflink else Range;
              CanBe(way, info) && CopyAnswer(way, info, src).1 == info.value.size != |src|
  {
    forall way | CanBe(way, info) ensures CopyAnswer(way, info, src) == (src, |src|) <==> SizeServes(way, info, |src|) {
      ServesExactlyWhen(way, info, src);
    }
    if info.Some? && info.value.size != |src| {
      var way := if 0 < info.value.size then Reflink else Range;
      assert CanBe(way, info) && CopyAnswer(way, info, src) != (src, |src|);
    }
  }

  /** A clone source of this copy alone: none yet, or one made on dst in this call. */
  ghost predicate OwnSource(dst: File, fd: FileDedup)
    reads dst, dst.source, fd, fd.ref
  {
    if fd.ref == null then !dst.Live() else dst.source == fd.ref && !fd.ref.dead && fd.ref.handle && fd.ref.path == None
  }

  /** The choice of way.  If the extent pass ends in doubt, its clone source dies and the copy starts over from an
      empty file. */
  method CopyFileData(dst: File, src: File, info: Option<Info>, probe: bool, exts: Option<seq<Extent>>,
                      disk: int -> Byte, wanted: int, chunkMax: nat, meter: Meter, fd: FileDedup, dev: nat, ino: nat)
    returns (n: nat, err: Err, way: Way, restarted: bool)
    requires dst != src && dst.data == [] && dst.pos == 0 && src.pos == 0 && 0 < chunkMax && fd.ref == null
    requires dst.source == null
    requires exts.Some? ==> MapOk(exts.value, src.data, disk)
    modifies dst, src`pos, src`trouble, src`changed, meter, fd
    // It fails only where a call did, or the caller canceled.
    ensures err == NoErr || src.trouble || dst.trouble || dst.refused || meter.stopped
    ensures err == NoErr ==> CanBe(way, info) && (dst.data, n) == CopyAnswer(way, info, src.data)
    // So a way agrees with PlainCopy exactly when the size it trusts is right for it.
    ensures err == NoErr ==>
      ((dst.data == src.data && n == |src.data|) <==> SizeServes(way, info, |src.data|))
    // The progress callback is paid for exactly the returned bytes, unless a pass was thrown away.
    ensures err == NoErr && !restarted ==> meter.credited == old(meter.credited) + n
    ensures restarted ==> info.Some? && way != Reflink && way != Dedup
    // The order of preference: a reflink that works; the extent pass, where it applies; holes; the kernel; the loop.
    ensures info.None? ==> way == Plain
    ensures info.Some? && 0 < info.value.size ==> dst.reflinked.Some? && (dst.reflinked.value <==> way == Reflink)
    ensures info.Some? && info.value.size == 0 ==> way != Reflink && way != Dedup && !restarted
    ensures info.Some? && 0 < info.value.size && dst.reflinked == Some(false) ==>
      ((way == Dedup || restarted) ==> probe && exts.Some?)
      && (probe && exts.Some? && SortedDisjoint(exts.value) ==>
            ((way == Dedup || restarted) <==> exists b, a :: 0 <= b < info.value.size && Backed(exts.value, b, a)))
    ensures way == Sparse ==> info.Some? && info.value.blocks * 512 < info.value.size
    ensures info.Some? && (way == Range || way == Plain) ==>
            !(info.value.blocks * 512 < info.value.size) || err != NoErr
    ensures info.Some? && way == Plain && err == NoErr ==> dst.refused
    // A sparse file keeps its holes, after a restart too; a deduplicated one keeps those outside shared extents.
    ensures err == NoErr && way == Sparse ==> HolesStay(src.data, old(dst.written), dst.written)
    ensures err == NoErr && way == Dedup ==>
      exts.Some? && FileLeavesHoles(src.data, exts.value, old(dst.written), dst.written)
    // No byte is lost while a clone may read it, and what is left is at most a live clone source of this file.
    ensures dst.torn == old(dst.torn) && OwnSource(dst, fd)
    ensures fd.ref != null ==> fresh(fd.ref) && fd.ref.dev == dev && fd.ref.ino == ino && way == Dedup && !restarted
  {
    restarted := false;
    if info.None? {
      n, err := PlainCopy(dst, src, wanted, meter);
      return n, err, Plain, false;
    }
    var size := info.value.size;
    if size > 0 {
      var ok := dst.Reflink(src);
      if ok {
        meter.Add(size);
        return size, NoErr, Reflink, false;
      }
      var m, applies, e := CopyDedup(dst, src, size, probe, exts, disk, wanted, meter, fd, dev, ino);
      if applies {
        if e != SourceChanged {
          return m, e, Dedup, false;
        }
        restarted := true;
        fd.Kill();
        var cut := dst.Truncate(0);
        if !cut {
          return 0, Io, Plain, true;
        }
      }
    }
    n, err, way := CopyBytes(dst, src, info.value, wanted, chunkMax, meter);
    if err == NoErr { ServesExactlyWhen(way, info, src.data); }
  }

  /** With no extents shared: hole by hole, or inside the kernel, or by the portable loop. */
  method CopyBytes(dst: File, src: File, info: Info, wanted: int, chunkMax: nat, meter: Meter)
    returns (n: nat, err: Err, way: Way)
    requires dst != src && dst.data == [] && dst.pos == 0 && src.pos == 0 && 0 < chunkMax && !dst.Live()
    modifies dst, src`pos, src`trouble, meter
    ensures err == NoErr || src.trouble || dst.trouble || dst.refused || meter.stopped
    ensures way == Sparse <==> info.blocks * 512 < info.size
    ensures way == Sparse || way == Range || (way == Plain && dst.refused)
    ensures err == NoErr ==> CanBe(way, Some(info)) && (dst.data, n) == CopyAnswer(way, Some(info), src.data)
    ensures err == NoErr ==> meter.credited == old(meter.credited) + n
    ensures err == NoErr && way == Sparse ==> HolesStay(src.data, old(dst.written), dst.written)
    ensures dst.source == old(dst.source) && dst.torn == old(dst.torn) && dst.reflinked == old(dst.reflinked)
  {
    if IsSparse(info) {
      n, err := CopySparse(dst, src, wanted, meter);
      return n, err, Sparse;
    }
    var copied, ok, e := CopyFileRange(dst, src, info.size, chunkMax, meter);
    if ok {
      return copied, e, Range;
    }
    n, err := PlainCopy(dst, src, wanted, meter);
    way := Plain;
  }
}
