/** What every step of the dedup protocol keeps: live records are true, and a copy that ends without
    an error equals its source. */
module DedupSafety {
  import opened ByteFiles
  import opened Segments
  import opened ExtentIndex
  import opened DestRefs
  import opened DedupProtocol

  /** File range [off, off+length) holds the device's bytes at phys. */
  ghost predicate HoldsDisk(f: seq<Byte>, off: int, disk: Disk, dev: nat, phys: int, length: int) {
    forall b :: off <= b < off + length ==> At(f, b) == disk(dev, phys + (b - off))
  }

  /** Byte b lies at address a now, or it did and left for good. */
  ghost predicate Placed(src: SrcFile, b: int, a: int) {
    Lies(src.exts, b, a) || (b, a) in src.gone
  }

  /** While the mtime is the first one, so is the content. */
  ghost predicate Watched(src: SrcFile, x: Worker) {
    x.stamp <= src.mtime && (src.mtime == x.stamp ==> src.content == x.snapshot)
  }

  ghost predicate InCloned(x: Worker, b: int) {
    exists c :: c in x.cloned && c.Has(b)
  }

  /** Every byte of every shared segment was backed at its planned address when the plan was made. */
  ghost predicate PlanHolds(src: SrcFile, x: Worker) {
    forall k, b :: 0 <= k < |x.segs| && x.segs[k].shared && x.segs[k].Has(b) ==> Placed(src, b, x.segs[k].Address(b))
  }

  ghost predicate ClonedOk(disk: Disk, src: SrcFile, dst: seq<Byte>, x: Worker) {
    && (forall c :: c in x.cloned ==> c in x.segs[..Min(x.i, |x.segs|)] && c.shared)
    && (forall c, b :: c in x.cloned && c.Has(b) ==> At(dst, b) == disk(src.dev, c.Address(b)))
  }

  /** The segment loop's invariant. */
  ghost predicate Progress(disk: Disk, src: SrcFile, dst: seq<Byte>, x: Worker) {
    && Tiles(x.segs, x.size) && x.i <= |x.segs|
    && PlanHolds(src, x)
    && ClonedOk(disk, src, dst, x)
    && (forall b :: x.done <= b ==> At(dst, b) == 0)
    && (src.mtime == x.stamp ==> forall b :: 0 <= b < x.done && !InCloned(x, b) ==> At(dst, b) == At(x.snapshot, b))
  }

  function StartOf(x: Worker): int {
    if x.i < |x.segs| then x.segs[x.i].off else x.size
  }

  /** Each byte of the shared segment copied so far is the device's, unless its extent has moved. */
  ghost predicate CopiedOk(disk: Disk, src: SrcFile, dst: seq<Byte>, x: Worker)
    requires x.i < |x.segs|
  {
    forall b :: x.Seg().off <= b < x.done ==>
      (b, x.Seg().Address(b)) in src.gone || At(dst, b) == disk(src.dev, x.Seg().Address(b))
  }

  ghost predicate InSegment(x: Worker) {
    x.i < |x.segs| && x.Seg().off <= x.done <= x.Seg().End()
  }

  ghost predicate WorkerOk(disk: Disk, src: SrcFile, dst: seq<Byte>, x: Worker) {
    && (x.pc.Planning? ==> dst == [] && x.done == 0 && x.i == 0 && x.cloned == [])
    && (!x.pc.Idle? && !x.pc.Detached? ==> Watched(src, x))
    && (x.InLoop() ==> Progress(disk, src, dst, x))
    && match x.pc
       case Ready => x.done == StartOf(x)
       case Waiting(_) => x.done == StartOf(x)
       case Cloning(rec, delta) => x.i < |x.segs| && x.Seg().shared && x.done == StartOf(x)
         && rec.Covers(x.Seg().phys, x.Seg().length) && rec.phys <= x.Seg().phys && delta == x.Seg().phys - rec.phys
       case Copying(h) => InSegment(x) && (x.Seg().shared ==> CopiedOk(disk, src, dst, x))
         && (h.Some? ==> x.Seg().shared && h.value.dev == src.dev)
       case Rechecking(h) => InSegment(x) && x.Seg().shared && x.done == x.Seg().End() && CopiedOk(disk, src, dst, x)
         && (h.Some? ==> h.value.dev == src.dev)
       case Recording(h, loc) => InSegment(x) && x.Seg().shared && x.done == x.Seg().End()
         && (h.Some? ==> h.value.dev == src.dev)
         && (loc.Some? ==>
               && loc.value == Rec(x.Seg().phys, x.Seg().length, x.Seg().off, x.ino)
               && HoldsDisk(dst, loc.value.off, disk, src.dev, loc.value.phys, loc.value.length))
       case Releasing(_) => InSegment(x)
       case Statting => Progress(disk, src, dst, x) && x.i == |x.segs| && x.done == x.size && |dst| == x.size
       case Mapping => x.done == x.size == |dst| && |x.snapshot| == x.size && Tiles(x.segs, x.size)
         && ClonedOk(disk, src, dst, x)
         && (forall b :: 0 <= b < x.size && !InCloned(x, b) ==> At(dst, b) == At(x.snapshot, b))
         && (forall c, b :: c in x.cloned && c.Has(b) ==>
               (b, c.Address(b)) in src.gone || At(x.snapshot, b) == disk(src.dev, c.Address(b)))
       case Verified => dst == x.snapshot
       case Published(_) => dst == x.snapshot
       case _ => true
  }

  /** A record made by this protocol names real bytes, until its file is killed. */
  ghost predicate RecOk(s: State, d: nat, r: Rec) {
    && r.ref in s.refs && r.ref in s.files && 0 <= r.off && 0 < r.length
    && (!s.refs[r.ref].dead ==> HoldsDisk(s.files[r.ref], r.off, s.disk, d, r.phys, r.length))
  }

  ghost predicate RefOk(s: State, ino: nat)
    requires ino in s.refs
  {
    && s.refs[ino].ino == ino && ino in s.files
    && (!s.refs[ino].dead ==> ino !in s.discarded && s.refs[ino].Reachable())
  }

  ghost predicate OwnsFile(s: State, x: Worker) {
    && (x.Attached() ==>
          && x.ino in s.refs && !s.refs[x.ino].dead && s.refs[x.ino].open
          && forall p :: p in s.recorded && p.1.ref == x.ino ==> p.1.off + p.1.length <= x.done)
    && (x.pc.Planning? ==> x.ino !in s.refs && x.ino !in s.discarded)
    && (x.pc.Detached? && x.ino in s.refs ==> s.refs[x.ino].dead)
  }

  ghost predicate ActorOk(s: State, w: nat)
    requires w in s.workers
  {
    var x := s.workers[w];
    !x.pc.Idle? ==>
      && x.file in s.srcs && x.ino in s.files
      && WorkerOk(s.disk, s.srcs[x.file], s.files[x.ino], x)
      && OwnsFile(s, x)
      && (x.pc.Cloning? ==> (s.srcs[x.file].dev, x.pc.rec) in s.recorded)
  }

  ghost predicate DataInv(s: State) {
    && (forall f :: f in s.srcs ==> SrcOk(s.disk, s.srcs[f]))
    && IndexOk(s.index)
    && (forall d: nat, r :: r in Records(s.index, d) ==> (d, r) in s.recorded)
    && (forall p :: p in s.recorded ==> RecOk(s, p.0, p.1))
    && (forall ino :: ino in s.refs ==> RefOk(s, ino))
    && (forall ino :: ino in s.discarded ==> ino in s.files)
    && (forall w :: w in s.workers ==> ActorOk(s, w))
    && (forall v, w | v in s.workers && w in s.workers && v != w ::
          s.workers[v].pc.Idle? || s.workers[w].pc.Idle? || s.workers[v].ino != s.workers[w].ino)
  }

  // ---- One worker, on values ----

  lemma SourceMoves(disk: Disk, src: SrcFile, src': SrcFile, dst: seq<Byte>, x: Worker)
    requires WorkerOk(disk, src, dst, x) && SrcStep(disk, src, src')
    ensures WorkerOk(disk, src', dst, x)
  {
  }

  /** Reading a chunk and skipping its zero blocks. */
  lemma ChunkLands(disk: Disk, src: SrcFile, dst: seq<Byte>, x: Worker, n: nat, g: seq<Byte>)
    requires WorkerOk(disk, src, dst, x) && SrcOk(disk, src) && x.pc.Copying?
    requires 0 < n && x.done + n <= x.Seg().End() && x.done + n <= |src.content|
    requires WroteNonZero(dst, src.content[x.done..x.done + n], x.done, g)
    ensures WorkerOk(disk, src, g, x.(done := x.done + n))
    ensures forall b :: b < x.done ==> At(g, b) == At(dst, b)
  {
    var p := src.content[x.done..x.done + n];
    var y := x.(done := x.done + n);
    WroteNonZeroIsWrite(dst, p, x.done, g);
    forall c, b | c in x.cloned && c.Has(b) ensures b < x.done {
      ClonedIsBehind(x, c);
    }
    forall b | x.done <= b < y.done ensures At(g, b) == src.content[b] {
      assert p[b - x.done] == src.content[b];
    }
    assert forall b :: InCloned(y, b) <==> InCloned(x, b);
    if x.Seg().shared {
      forall b | x.Seg().off <= b < y.done
        ensures (b, x.Seg().Address(b)) in src.gone || At(g, b) == disk(src.dev, x.Seg().Address(b))
      {
        if x.done <= b {
          assert x.segs[x.i].Has(b);
          assert Placed(src, b, x.Seg().Address(b));
        }
      }
    }
  }

  /** Cloned segments end where the current one starts, or earlier. */
  lemma ClonedIsBehind(x: Worker, c: Segment)
    requires Tiles(x.segs, x.size) && x.i <= |x.segs|
    requires c in x.segs[..x.i]
    ensures c.End() <= StartOf(x)
  {
    var k :| 0 <= k < x.i && x.segs[k] == c;
    SegmentsAscend(x.segs, x.size, k, x.i);
  }

  lemma {:induction false} SegmentsAscend(segs: seq<Segment>, size: int, k: int, i: int)
    requires Tiles(segs, size) && 0 <= k < i <= |segs|
    ensures segs[k].End() <= (if i < |segs| then segs[i].off else size)
    decreases i - k
  {
    if k + 1 < i {
      SegmentsAscend(segs, size, k + 1, i);
    }
  }

  /** Moving on to the next segment, with or without a new cloned one. */
  lemma SegmentEnds(disk: Disk, src: SrcFile, dst: seq<Byte>, x: Worker)
    requires Progress(disk, src, dst, x) && Watched(src, x) && InSegment(x) && x.done == x.Seg().End()
    ensures WorkerOk(disk, src, dst, x.Next())
  {
    var y := x.Next();
    assert y.done == StartOf(y) by {
      if y.i < |y.segs| { assert x.segs[y.i].off == x.segs[y.i - 1].End(); }
    }
    forall c | c in x.cloned ensures c in y.segs[..y.i] {
      assert x.segs[..x.i] <= y.segs[..y.i];
    }
    assert forall b :: InCloned(y, b) <==> InCloned(x, b);
  }

  /** Cloning a record's bytes puts the device's bytes of the segment on the destination, and nothing else. */
  lemma CloneWrites(disk: Disk, dev: nat, dst: seq<Byte>, from: seq<Byte>, r: Rec, seg: Segment)
    requires 0 <= r.off && HoldsDisk(from, r.off, disk, dev, r.phys, r.length)
    requires r.phys <= seg.phys && r.Covers(seg.phys, seg.length) && 0 <= seg.off && 0 < seg.length
    requires r.off + (seg.phys - r.phys) + seg.length <= |from|
    ensures var lo := r.off + (seg.phys - r.phys);
            var g := WriteAt(dst, seg.off, from[lo..lo + seg.length]);
            && (forall b :: seg.Has(b) ==> At(g, b) == disk(dev, seg.Address(b)))
            && (forall b :: !seg.Has(b) ==> At(g, b) == At(dst, b))
  {
    var lo := r.off + (seg.phys - r.phys);
    var p := from[lo..lo + seg.length];
    forall b | seg.Has(b) ensures p[b - seg.off] == disk(dev, seg.Address(b)) {
      assert p[b - seg.off] == At(from, lo + (b - seg.off));
    }
  }

  lemma CloneLands(disk: Disk, src: SrcFile, dst: seq<Byte>, x: Worker, g: seq<Byte>)
    requires WorkerOk(disk, src, dst, x) && x.pc.Cloning?
    requires forall b :: x.Seg().Has(b) ==> At(g, b) == disk(src.dev, x.Seg().Address(b))
    requires forall b :: !x.Seg().Has(b) ==> At(g, b) == At(dst, b)
    ensures WorkerOk(disk, src, g, x.Next().(cloned := x.cloned + [x.Seg()]))
    ensures forall b :: b < x.done ==> At(g, b) == At(dst, b)
  {
    var seg := x.Seg();
    var y := x.Next().(cloned := x.cloned + [seg]);
    assert y.done == StartOf(y) by {
      if y.i < |y.segs| { assert x.segs[y.i].off == x.segs[y.i - 1].End(); }
    }
    forall c | c in y.cloned ensures c in y.segs[..y.i] && c.shared {
      if c in x.cloned {
        assert x.segs[..x.i] <= y.segs[..y.i];
      } else {
        assert y.segs[..y.i][x.i] == seg;
      }
    }
    forall c, b | c in y.cloned && c.Has(b) ensures At(g, b) == disk(src.dev, c.Address(b)) {
      if c in x.cloned {
        ClonedIsBehind(x, c);
      }
    }
    forall b | InCloned(x, b) || seg.Has(b) ensures InCloned(y, b) {
      assert seg in y.cloned;
      if !seg.Has(b) {
        var c :| c in x.cloned && c.Has(b);
        assert c in y.cloned;
      }
    }
  }

  /** If the source still maps the segment where the plan put it, nothing of it ever left, so the
      bytes that were read are the device's. */
  lemma RecheckProves(disk: Disk, src: SrcFile, dst: seq<Byte>, x: Worker)
    requires WorkerOk(disk, src, dst, x) && SrcOk(disk, src) && x.pc.Rechecking?
    requires Mapped(src.exts, x.Seg())
    ensures HoldsDisk(dst, x.Seg().off, disk, src.dev, x.Seg().phys, x.Seg().length)
  {
    forall b | x.Seg().off <= b < x.Seg().off + x.Seg().length
      ensures At(dst, b) == disk(src.dev, x.Seg().phys + (b - x.Seg().off))
    {
      assert x.Seg().Has(b);
      assert Backed(src.exts, b, x.Seg().Address(b));
    }
  }

  /** The first of the two final checks: size and mtime are those of the first fstat. */
  lemma StatProves(disk: Disk, src: SrcFile, dst: seq<Byte>, x: Worker)
    requires WorkerOk(disk, src, dst, x) && SrcOk(disk, src) && x.pc.Statting?
    requires |src.content| == x.size && src.mtime == x.stamp
    ensures src.content == x.snapshot
    ensures WorkerOk(disk, src, dst, x.(pc := if x.cloned == [] then Verified else Mapping))
  {
    var y := x.(pc := Mapping);
    assert forall b :: InCloned(y, b) <==> InCloned(x, b);
    forall c, b | c in x.cloned && c.Has(b)
      ensures (b, c.Address(b)) in src.gone || At(x.snapshot, b) == disk(src.dev, c.Address(b))
    {
      var k :| 0 <= k < |x.segs| && x.segs[k] == c;
      assert Placed(src, b, c.Address(b));
      assert 0 <= b < x.size;
    }
    if x.cloned == [] {
      forall k | 0 <= k < |dst| ensures At(dst, k) == At(x.snapshot, k) {
        assert !InCloned(x, k);
      }
      SameReads(dst, x.snapshot);
    }
  }

  /** The second: every cloned segment is still where the plan found it, so its bytes at the fstat were
      the device's too. */
  lemma MapProves(disk: Disk, src: SrcFile, dst: seq<Byte>, x: Worker)
    requires WorkerOk(disk, src, dst, x) && SrcOk(disk, src) && x.pc.Mapping?
    requires forall c :: c in x.cloned ==> Mapped(src.exts, c)
    ensures dst == x.snapshot
  {
    forall b | 0 <= b < |dst| ensures At(dst, b) == At(x.snapshot, b) {
      if InCloned(x, b) {
        var c :| c in x.cloned && c.Has(b);
        assert Backed(src.exts, b, c.Address(b));
      }
    }
    SameReads(dst, x.snapshot);
  }

  lemma PlanProves(disk: Disk, src: SrcFile, x: Worker, segs: seq<Segment>)
    requires WorkerOk(disk, src, [], x) && x.pc.Planning? && Tiles(segs, x.size)
    requires forall i :: 0 <= i < |segs| && segs[i].shared ==> PieceOf(src.exts, |src.exts|, segs[i])
    ensures WorkerOk(disk, src, [], x.(pc := Ready, segs := segs))
  {
    forall k, b | 0 <= k < |segs| && segs[k].shared && segs[k].Has(b)
      ensures Backed(src.exts, b, segs[k].Address(b))
    {
      var i :| 0 <= i < |src.exts| && src.exts[i].Shareable()
               && src.exts[i].logical <= segs[k].off && segs[k].End() <= src.exts[i].logical + src.exts[i].length
               && segs[k].phys == src.exts[i].Address(segs[k].off);
      assert src.exts[i].Covers(b) && src.exts[i].Address(b) == segs[k].Address(b);
    }
  }

  lemma TruncateLands(disk: Disk, src: SrcFile, dst: seq<Byte>, x: Worker)
    requires WorkerOk(disk, src, dst, x) && x.pc.Ready? && x.i == |x.segs|
    ensures WorkerOk(disk, src, Truncate(dst, x.size), x.(pc := Statting))
    ensures forall b :: b < x.done ==> At(Truncate(dst, x.size), b) == At(dst, b)
  {
    var y := x.(pc := Statting);
    assert forall b :: InCloned(y, b) <==> InCloned(x, b);
    forall c, b | c in x.cloned && c.Has(b) ensures b < x.size {
      ClonedIsBehind(x, c);
    }
  }

  // ---- All workers together ----

  /** s' differs from s in one worker and in what that worker's file holds past x.done. */
  ghost predicate OwnFileOnly(s: State, s': State, w: nat) {
    && w in s.workers && s.workers[w].Attached()
    && w in s'.workers && s'.workers == s.workers[w := s'.workers[w]]
    && s'.disk == s.disk && s'.srcs == s.srcs && s'.refs == s.refs && s'.index == s.index
    && s'.recorded == s.recorded && s'.discarded == s.discarded
    && var x, y := s.workers[w], s'.workers[w];
       && y.ino == x.ino && y.file == x.file && y.Attached() && x.done <= y.done
       && x.ino in s'.files && x.ino in s.files && s'.files == s.files[x.ino := s'.files[x.ino]]
       && (forall b :: b < x.done ==> At(s'.files[x.ino], b) == At(s.files[x.ino], b))
  }

  lemma OwnFileRecord(s: State, s': State, w: nat, d: nat, r: Rec)
    requires OwnFileOnly(s, s', w) && OwnsFile(s, s.workers[w]) && (d, r) in s.recorded && RecOk(s, d, r)
    ensures RecOk(s', d, r)
  {
    if r.ref == s.workers[w].ino {
      assert (d, r).1.off + (d, r).1.length <= s.workers[w].done;
    }
  }

  lemma OwnFileOther(s: State, s': State, w: nat, v: nat)
    requires OwnFileOnly(s, s', w) && v in s.workers && v != w && ActorOk(s, v)
    requires s.workers[v].pc.Idle? || s.workers[v].ino != s.workers[w].ino
    ensures ActorOk(s', v)
  {
  }

  lemma OwnFileSelf(s: State, s': State, w: nat)
    requires OwnFileOnly(s, s', w) && OwnsFile(s, s.workers[w])
    ensures OwnsFile(s', s'.workers[w])
  {
    var x, y := s.workers[w], s'.workers[w];
    forall p | p in s'.recorded && p.1.ref == y.ino ensures p.1.off + p.1.length <= y.done {
      assert p.1.off + p.1.length <= x.done;
    }
  }

  /** The frame of most steps: one worker moves on and writes its own file past what is recorded. */
  lemma OwnFileStep(s: State, s': State, w: nat)
    requires DataInv(s) && OwnFileOnly(s, s', w)
    requires var x, y := s.workers[w], s'.workers[w];
             && x.file in s.srcs
             && WorkerOk(s.disk, s.srcs[x.file], s'.files[x.ino], y)
             && (y.pc.Cloning? ==> (s.srcs[x.file].dev, y.pc.rec) in s.recorded)
    ensures DataInv(s')
  {
    assert ActorOk(s, w);
    forall p | p in s'.recorded ensures RecOk(s', p.0, p.1) {
      OwnFileRecord(s, s', w, p.0, p.1);
    }
    forall ino | ino in s'.refs ensures RefOk(s', ino) {
      assert RefOk(s, ino);
    }
    OwnFileSelf(s, s', w);
    assert ActorOk(s', w);
    forall v | v in s'.workers ensures ActorOk(s', v) {
      if v != w {
        OwnFileOther(s, s', w, v);
      }
    }
  }

  /** A step that only changes one worker's place keeps everything if the new place's facts hold. */
  lemma PcStep(s: State, s': State, w: nat, pc: Pc)
    requires DataInv(s) && w in s.workers && s.workers[w].Attached()
    requires s'.workers == s.workers[w := s.workers[w].(pc := pc)]
    requires s'.disk == s.disk && s'.srcs == s.srcs && s'.refs == s.refs && s'.index == s.index
    requires s'.recorded == s.recorded && s'.discarded == s.discarded && s'.files == s.files
    requires s.workers[w].(pc := pc).Attached()
    requires ActorOk(s, w)
    requires WorkerOk(s.disk, s.srcs[s.workers[w].file], s.files[s.workers[w].ino], s.workers[w].(pc := pc))
    requires pc.Cloning? ==> (s.srcs[s.workers[w].file].dev, pc.rec) in s.recorded
    ensures DataInv(s')
  {
    var x := s.workers[w];
    assert s.files == s.files[x.ino := s.files[x.ino]];
    OwnFileStep(s, s', w);
  }

  lemma EnvKeeps(s: State, f: nat, src: SrcFile)
    requires DataInv(s) && f in s.srcs && SrcStep(s.disk, s.srcs[f], src)
    ensures DataInv(s.(srcs := s.srcs[f := src]))
  {
    var s' := s.(srcs := s.srcs[f := src]);
    forall v | v in s'.workers ensures ActorOk(s', v) {
      assert ActorOk(s, v);
      var x := s.workers[v];
      if !x.pc.Idle? && x.file == f {
        SourceMoves(s.disk, s.srcs[f], src, s.files[x.ino], x);
      }
    }
    forall p | p in s'.recorded ensures RecOk(s', p.0, p.1) { assert RecOk(s, p.0, p.1); }
    forall ino | ino in s'.refs ensures RefOk(s', ino) { assert RefOk(s, ino); }
  }

  /** A new temp file has a fresh inode, so no other worker and no record knows it. */
  lemma BeginKeeps(s: State, w: nat, f: nat, ino: nat, size: nat)
    requires DataInv(s) && CanBegin(s, w, f, ino)
    ensures DataInv(DoBegin(s, w, f, ino, size))
  {
    var s' := DoBegin(s, w, f, ino, size);
    forall v | v in s'.workers ensures ActorOk(s', v) {
      if v != w { assert ActorOk(s, v); }
    }
    forall p | p in s'.recorded ensures RecOk(s', p.0, p.1) { assert RecOk(s, p.0, p.1); }
    forall i | i in s'.refs ensures RefOk(s', i) { assert RefOk(s, i); }
    forall v | v in s'.workers && v != w ensures s'.workers[v].pc.Idle? || s'.workers[v].ino != ino {
      assert ActorOk(s, v);
    }
  }

  /** The plan's worker gets a reference that no record names yet. */
  lemma PlanKeeps(s: State, w: nat, segs: seq<Segment>, dev: nat)
    requires DataInv(s) && CanPlan(s, w, segs) && AnyShared(segs)
    ensures DataInv(DoPlan(s, w, segs, dev))
  {
    var s' := DoPlan(s, w, segs, dev);
    var x := s.workers[w];
    assert ActorOk(s, w);
    PlanProves(s.disk, s.srcs[x.file], x, segs);
    forall p | p in s'.recorded ensures RecOk(s', p.0, p.1) && p.1.ref != x.ino { assert RecOk(s, p.0, p.1); }
    forall v | v in s'.workers ensures ActorOk(s', v) {
      if v != w { OtherAfterPlan(s, s', w, v); }
    }
    forall i | i in s'.refs ensures RefOk(s', i) {
      if i in s.refs { assert RefOk(s, i); }
    }
  }

  lemma NoPlanKeeps(s: State, w: nat)
    requires DataInv(s) && Runs(s, w) && s.workers[w].pc.Planning?
    ensures DataInv(SetPc(s, w, Detached))
  {
    var s' := SetPc(s, w, Detached);
    assert ActorOk(s, w);
    forall v | v in s'.workers ensures ActorOk(s', v) { assert ActorOk(s, v); }
    forall p | p in s'.recorded ensures RecOk(s', p.0, p.1) { assert RecOk(s, p.0, p.1); }
    forall i | i in s'.refs ensures RefOk(s', i) { assert RefOk(s, i); }
  }

  lemma OtherAfterPlan(s: State, s': State, w: nat, v: nat)
    requires w in s.workers && v in s.workers && v != w && ActorOk(s, v)
    requires s.workers[v].pc.Idle? || s.workers[v].ino != s.workers[w].ino
    requires s'.workers.Keys == s.workers.Keys && s'.workers[v] == s.workers[v]
    requires s'.disk == s.disk && s'.srcs == s.srcs && s'.files == s.files && s'.recorded == s.recorded
    requires s'.discarded == s.discarded
    requires forall i :: i != s.workers[w].ino ==>
             (i in s'.refs <==> i in s.refs) && (i in s.refs ==> s'.refs[i] == s.refs[i])
    ensures ActorOk(s', v)
  {
  }

  lemma AcquireProves(disk: Disk, src: SrcFile, dst: seq<Byte>, x: Worker, a: Answer)
    requires WorkerOk(disk, src, dst, x) && x.pc.Ready? && x.i < |x.segs| && x.Seg().shared
    requires a.Hit? ==> a.rec.Covers(x.Seg().phys, x.Seg().length) && a.rec.phys <= x.Seg().phys
                        && a.delta == x.Seg().phys - a.rec.phys
    requires a.Mine? ==> a.claim.dev == src.dev
    ensures WorkerOk(disk, src, dst, x.(pc := Answered(a)))
  {
  }

  lemma AcquireKeeps(s: State, w: nat)
    requires DataInv(s) && CanAcquire(s, w)
    ensures DataInv(DoAcquire(s, w))
  {
    var s' := DoAcquire(s, w);
    var x := s.workers[w];
    var src := s.srcs[x.file];
    assert ActorOk(s, w);
    var a := Asked(s, w);
    AcquireProves(s.disk, src, s.files[x.ino], x, a);
    PcStep(s, s', w, s'.workers[w].pc);
  }

  lemma CloneKeeps(s: State, w: nat)
    requires DataInv(s) && CanClone(s, w)
    ensures DataInv(DoClone(s, w))
  {
    var s' := DoClone(s, w);
    var x := s.workers[w];
    var r, dev := x.pc.rec, s.srcs[x.file].dev;
    CloneSourceHolds(s, w);
    assert ActorOk(s, w);
    CloneWrites(s.disk, dev, s.files[x.ino], s.files[r.ref], r, x.Seg());
    CloneLands(s.disk, s.srcs[x.file], s.files[x.ino], x, s'.files[x.ino]);
    OwnFileStep(s, s', w);
  }

  /** A clone that can succeed reads the record's own inode, and the record is true. */
  lemma CloneSourceHolds(s: State, w: nat)
    requires DataInv(s) && CanClone(s, w)
    ensures var x := s.workers[w]; var r := x.pc.rec;
            && CloneSource(s.refs[r.ref], s.names) == Some(r.ref)
            && 0 <= r.off && HoldsDisk(s.files[r.ref], r.off, s.disk, s.srcs[x.file].dev, r.phys, r.length)
            && r.ref !in s.discarded
            && x.pc.delta == x.Seg().phys - r.phys && r.phys <= x.Seg().phys && r.Covers(x.Seg().phys, x.Seg().length)
            && 0 < x.Seg().length
  {
    var x := s.workers[w];
    assert ActorOk(s, w);
    assert RecOk(s, s.srcs[x.file].dev, x.pc.rec);
    assert RefOk(s, x.pc.rec.ref);
  }

  lemma ChunkKeeps(s: State, w: nat, n: nat, g: seq<Byte>)
    requires DataInv(s) && CanCopyChunk(s, w, n, g)
    ensures DataInv(DoCopyChunk(s, w, n, g))
  {
    assert ActorOk(s, w);
    ChunkOk(s, w, n, g);
    OwnFileStep(s, DoCopyChunk(s, w, n, g), w);
  }

  ghost predicate SameBefore(f: seq<Byte>, g: seq<Byte>, done: int) {
    forall b :: b < done ==> At(g, b) == At(f, b)
  }

  lemma ChunkOk(s: State, w: nat, n: nat, g: seq<Byte>)
    requires CanCopyChunk(s, w, n, g) && ActorOk(s, w) && SrcOk(s.disk, s.Src(w))
    ensures OwnFileOnly(s, DoCopyChunk(s, w, n, g), w)
    ensures WorkerOk(s.disk, s.Src(w), g, DoCopyChunk(s, w, n, g).workers[w])
  {
    var y := s.workers[w].(done := s.workers[w].done + n);
    assert WorkerOk(s.disk, s.Src(w), g, y) && SameBefore(s.files[y.ino], g, s.workers[w].done) by {
      ChunkLands(s.disk, s.Src(w), s.files[s.workers[w].ino], s.workers[w], n, g);
    }
    assert DoCopyChunk(s, w, n, g).workers[w] == y;
  }

  lemma CopyEndKeeps(s: State, w: nat)
    requires DataInv(s) && CanCopyEnd(s, w)
    ensures DataInv(DoCopyEnd(s, w))
  {
    var s' := DoCopyEnd(s, w);
    var x := s.workers[w];
    assert ActorOk(s, w);
    if x.Seg().shared {
      PcStep(s, s', w, Rechecking(x.pc.held));
    } else {
      SegmentEnds(s.disk, s.srcs[x.file], s.files[x.ino], x);
      PlainEndIsOwn(s, w);
      OwnFileStep(s, s', w);
    }
  }

  lemma PlainEndIsOwn(s: State, w: nat)
    requires CanCopyEnd(s, w) && !s.workers[w].Seg().shared && 0 <= s.workers[w].Seg().End()
    ensures OwnFileOnly(s, DoCopyEnd(s, w), w)
  {
    var x := s.workers[w];
    assert s.files == s.files[x.ino := s.files[x.ino]];
  }

  lemma RecheckKeeps(s: State, w: nat, ok: bool)
    requires DataInv(s) && CanRecheck(s, w, ok)
    ensures DataInv(DoRecheck(s, w, ok))
  {
    var s' := DoRecheck(s, w, ok);
    var x := s.workers[w];
    assert ActorOk(s, w);
    if ok {
      RecheckProves(s.disk, s.srcs[x.file], s.files[x.ino], x);
    }
    PcStep(s, s', w, s'.workers[w].pc);
  }

  /** Recording adds a true record that ends where the owner's file is final. */
  lemma RecordKeeps(s: State, w: nat)
    requires DataInv(s) && CanRecord(s, w)
    ensures DataInv(DoRecord(s, w))
  {
    var s' := DoRecord(s, w);
    var x := s.workers[w];
    assert ActorOk(s, w);
    SegmentEnds(s.disk, s.srcs[x.file], s.files[x.ino], x);
    var mid := s.(workers := s'.workers);
    assert s.files == s.files[x.ino := s.files[x.ino]];
    OwnFileStep(s, mid, w);
    if x.pc.loc.Some? {
      NewRecordKeeps(mid, s', w, s.srcs[x.file].dev, x.pc.loc.value);
    } else {
      forall v | v in s'.workers ensures ActorOk(s', v) { assert ActorOk(mid, v); }
      forall p | p in s'.recorded ensures RecOk(s', p.0, p.1) { assert RecOk(mid, p.0, p.1); }
      forall i | i in s'.refs ensures RefOk(s', i) { assert RefOk(mid, i); }
    }
  }

  lemma NewRecordKeeps(s: State, s': State, w: nat, d: nat, r: Rec)
    requires DataInv(s) && w in s.workers && s.workers[w].Attached() && s.workers[w].ino == r.ref
    requires r.off + r.length <= s.workers[w].done && RecOk(s, d, r)
    requires s'.disk == s.disk && s'.srcs == s.srcs && s'.refs == s.refs && s'.workers == s.workers
    requires s'.discarded == s.discarded && s'.files == s.files
    requires s'.index == AddRecord(s.index, d, r) && s'.recorded == s.recorded + {(d, r)}
    ensures DataInv(s')
  {
    forall v | v in s'.workers ensures ActorOk(s', v) {
      assert ActorOk(s, v);
      if v != w && !s.workers[v].pc.Idle? {
        assert s.workers[v].ino != s.workers[w].ino;
      }
    }
    forall p | p in s'.recorded ensures RecOk(s', p.0, p.1) {
      if p in s.recorded { assert RecOk(s, p.0, p.1); }
    }
    forall i | i in s'.refs ensures RefOk(s', i) { assert RefOk(s, i); }
  }

  lemma TruncateKeeps(s: State, w: nat)
    requires DataInv(s) && CanTruncate(s, w)
    ensures DataInv(DoTruncate(s, w))
  {
    var x := s.workers[w];
    assert ActorOk(s, w);
    TruncateLands(s.disk, s.srcs[x.file], s.files[x.ino], x);
    OwnFileStep(s, DoTruncate(s, w), w);
  }

  lemma StatKeeps(s: State, w: nat)
    requires DataInv(s) && Runs(s, w) && s.workers[w].pc.Statting?
    ensures DataInv(SetPc(s, w, AfterStat(s, w)))
  {
    var s' := SetPc(s, w, AfterStat(s, w));
    var x := s.workers[w];
    assert ActorOk(s, w);
    if !s'.workers[w].pc.Failed? {
      StatProves(s.disk, s.srcs[x.file], s.files[x.ino], x);
    }
    PcStep(s, s', w, s'.workers[w].pc);
  }

  lemma MapCheckKeeps(s: State, w: nat)
    requires DataInv(s) && Runs(s, w) && s.workers[w].pc.Mapping?
    ensures DataInv(SetPc(s, w, AfterMapCheck(s, w)))
  {
    var s' := SetPc(s, w, AfterMapCheck(s, w));
    var x := s.workers[w];
    assert ActorOk(s, w);
    if !s'.workers[w].pc.Failed? {
      MapProves(s.disk, s.srcs[x.file], s.files[x.ino], x);
    }
    PcStep(s, s', w, s'.workers[w].pc);
  }

  /** After commit the reference leads through the path, so it is still reachable. */
  lemma CommitKeeps(s: State, w: nat)
    requires DataInv(s) && HasRef(s, w) && s.workers[w].pc.Published?
    ensures DataInv(DoCommit(s, w))
  {
    var s' := DoCommit(s, w);
    assert ActorOk(s, w);
    forall v | v in s'.workers ensures ActorOk(s', v) { assert ActorOk(s, v); }
    forall p | p in s'.recorded ensures RecOk(s', p.0, p.1) { assert RecOk(s, p.0, p.1); }
    forall i | i in s'.refs ensures RefOk(s', i) { assert RefOk(s, i); }
  }

  lemma KillKeeps(s: State, w: nat)
    requires DataInv(s) && HasRef(s, w) && s.workers[w].pc.Failed?
    ensures DataInv(DoKill(s, w))
  {
    var s' := DoKill(s, w);
    assert ActorOk(s, w);
    forall v | v in s'.workers ensures ActorOk(s', v) { assert ActorOk(s, v); }
    forall p | p in s'.recorded ensures RecOk(s', p.0, p.1) { assert RecOk(s, p.0, p.1); }
    forall i | i in s'.refs ensures RefOk(s', i) { assert RefOk(s, i); }
  }

  /** Discarding bytes is allowed only after kill, so no live record loses its bytes. */
  lemma RewriteKeeps(s: State, w: nat, g: seq<Byte>)
    requires DataInv(s) && Runs(s, w) && s.workers[w].pc.Detached?
    ensures DataInv(DoRewrite(s, w, g))
  {
    var s' := DoRewrite(s, w, g);
    var x := s.workers[w];
    assert ActorOk(s, w);
    forall v | v in s'.workers ensures ActorOk(s', v) {
      assert ActorOk(s, v);
      if v != w && !s.workers[v].pc.Idle? {
        assert s.workers[v].ino != x.ino;
      }
    }
    forall p | p in s'.recorded ensures RecOk(s', p.0, p.1) { assert RecOk(s, p.0, p.1); }
    forall i | i in s'.refs ensures RefOk(s', i) { assert RefOk(s, i); }
  }

  lemma LeaveKeeps(s: State, w: nat)
    requires DataInv(s) && Runs(s, w) && s.workers[w].pc.Detached?
    ensures DataInv(SetPc(s, w, Idle))
  {
    var s' := SetPc(s, w, Idle);
    forall v | v in s'.workers ensures ActorOk(s', v) { assert ActorOk(s, v); }
    forall p | p in s'.recorded ensures RecOk(s', p.0, p.1) { assert RecOk(s, p.0, p.1); }
    forall i | i in s'.refs ensures RefOk(s', i) { assert RefOk(s, i); }
  }

  /** Directory entries and the claim table are no part of what is kept. */
  lemma QuietKeeps(s: State, s': State)
    requires DataInv(s)
    requires s'.disk == s.disk && s'.srcs == s.srcs && s'.refs == s.refs && s'.index == s.index && s'.files == s.files
    requires s'.recorded == s.recorded && s'.discarded == s.discarded && s'.workers == s.workers
    ensures DataInv(s')
  {
    forall v | v in s'.workers ensures ActorOk(s', v) { assert ActorOk(s, v); }
    forall p | p in s'.recorded ensures RecOk(s', p.0, p.1) { assert RecOk(s, p.0, p.1); }
    forall i | i in s'.refs ensures RefOk(s', i) { assert RefOk(s, i); }
  }

  lemma MoveProves(disk: Disk, src: SrcFile, dst: seq<Byte>, x: Worker, pc: Pc)
    requires WorkerOk(disk, src, dst, x) && x.Attached()
    requires
      || (x.pc.Ready? && x.i < |x.segs| && !x.Seg().shared && pc == Copying(None))
      || (x.pc.Cloning? && pc == Copying(None))
      || (x.pc.Waiting? && pc.Ready?)
      || (x.pc.Copying? && pc.Releasing?)
      || (x.pc.Verified? && pc.Published?)
      || pc.Failed?
    ensures WorkerOk(disk, src, dst, x.(pc := pc))
  {
  }

  /** Steps that only move one attached worker. */
  lemma MoveStep(s: State, s': State, w: nat, pc: Pc)
    requires DataInv(s) && w in s.workers && s.workers[w].Attached()
    requires s'.workers == s.workers[w := s.workers[w].(pc := pc)]
    requires s'.disk == s.disk && s'.srcs == s.srcs && s'.refs == s.refs && s'.index == s.index
    requires s'.recorded == s.recorded && s'.discarded == s.discarded && s'.files == s.files
    requires var x := s.workers[w];
      || (x.pc.Ready? && x.i < |x.segs| && !x.Seg().shared && pc == Copying(None))
      || (x.pc.Cloning? && pc == Copying(None))
      || (x.pc.Waiting? && pc.Ready?)
      || (x.pc.Copying? && pc.Releasing?)
      || (x.pc.Verified? && pc.Published?)
      || pc.Failed?
    ensures DataInv(s')
  {
    var x := s.workers[w];
    assert ActorOk(s, w);
    MoveProves(s.disk, s.srcs[x.file], s.files[x.ino], x, pc);
    PcStep(s, s', w, pc);
  }

  lemma LoopStepKeeps(s: State, t: Step)
    requires DataInv(s) && Enabled(s, t)
    requires t.Acquire? || t.CloneOk? || t.CopyChunk? || t.CopyEnd? || t.Recheck? || t.Record?
    ensures DataInv(Apply(s, t))
  {
    match t
    case Acquire(w) => AcquireKeeps(s, w);
    case CloneOk(w) => CloneKeeps(s, w);
    case CopyChunk(w, n, g) => ChunkKeeps(s, w, n, g);
    case CopyEnd(w) => CopyEndKeeps(s, w);
    case Recheck(w, ok) => RecheckKeeps(s, w, ok);
    case Record(w) => RecordKeeps(s, w);
  }

  lemma MoveStepKeeps(s: State, t: Step)
    requires DataInv(s) && Enabled(s, t)
    requires t.StartPlain? || t.CloneFail? || t.WaitDone? || t.Cancel? || t.CopyFail? || t.Release? || t.Publish?
             || t.Abandon?
    ensures DataInv(Apply(s, t))
  {
    if t.Release? || t.Publish? || t.Abandon? { EndMoveKeeps(s, t); } else { LoopMoveKeeps(s, t); }
  }

  lemma EndMoveKeeps(s: State, t: Step)
    requires DataInv(s) && Enabled(s, t) && (t.Release? || t.Publish? || t.Abandon?)
    ensures DataInv(Apply(s, t))
  {
    MoveStep(s, Apply(s, t), t.w, Apply(s, t).workers[t.w].pc);
  }

  lemma LoopMoveKeeps(s: State, t: Step)
    requires DataInv(s) && Enabled(s, t) && (t.StartPlain? || t.CloneFail? || t.WaitDone? || t.Cancel? || t.CopyFail?)
    ensures DataInv(ApplyLoop(s, t))
  {
    MoveStep(s, ApplyLoop(s, t), t.w, ApplyLoop(s, t).workers[t.w].pc);
  }

  lemma StartStepKeeps(s: State, t: Step)
    requires DataInv(s) && Enabled(s, t) && (t.Begin? || t.Plan?)
    ensures DataInv(Apply(s, t))
  {
    match t
    case Begin(w, f, ino, size) => BeginKeeps(s, w, f, ino, size);
    case Plan(w, segs, dev) => PlanStepKeeps(s, w, segs, dev);
  }

  lemma PlanStepKeeps(s: State, w: nat, segs: seq<Segment>, dev: nat)
    requires DataInv(s) && CanPlan(s, w, segs)
    ensures DataInv(DoPlan(s, w, segs, dev))
  {
    if AnyShared(segs) { PlanKeeps(s, w, segs, dev); } else { NoPlanKeeps(s, w); }
  }

  lemma CheckStepKeeps(s: State, t: Step)
    requires DataInv(s) && Enabled(s, t) && (t.TruncateToSize? || t.Stat? || t.MapCheck?)
    ensures DataInv(Apply(s, t))
  {
    match t
    case TruncateToSize(w) => TruncateKeeps(s, w);
    case Stat(w) => StatKeeps(s, w);
    case MapCheck(w) => MapCheckKeeps(s, w);
  }

  lemma LifeStepKeeps(s: State, t: Step)
    requires DataInv(s) && Enabled(s, t)
    requires t.Env? || t.Rename? || t.Commit? || t.Kill? || t.Rewrite? || t.Leave?
    ensures DataInv(Apply(s, t))
  {
    if t.Env? || t.Rename? {
      WorldStepKeeps(s, t);
    } else if t.Commit? || t.Kill? {
      RefStepKeeps(s, t);
    } else {
      DetachedStepKeeps(s, t);
    }
  }

  lemma WorldStepKeeps(s: State, t: Step)
    requires DataInv(s) && Enabled(s, t) && (t.Env? || t.Rename?)
    ensures DataInv(ApplyOuter(s, t))
  {
    match t
    case Env(f, src) => EnvKeeps(s, f, src);
    case Rename(names) => QuietKeeps(s, s.(names := names));
  }

  lemma RefStepKeeps(s: State, t: Step)
    requires DataInv(s) && Enabled(s, t) && (t.Commit? || t.Kill?)
    ensures DataInv(ApplyOuter(s, t))
  {
    match t
    case Commit(w) => CommitKeeps(s, w);
    case Kill(w) => KillKeeps(s, w);
  }

  lemma DetachedStepKeeps(s: State, t: Step)
    requires DataInv(s) && Enabled(s, t) && (t.Rewrite? || t.Leave?)
    ensures DataInv(ApplyOuter(s, t))
  {
    match t
    case Rewrite(w, g) => RewriteKeeps(s, w, g);
    case Leave(w) => LeaveKeeps(s, w);
  }

  lemma StepKeeps(s: State, t: Step)
    requires DataInv(s) && Enabled(s, t)
    ensures DataInv(Apply(s, t))
  {
    if t.Acquire? || t.CloneOk? || t.CopyChunk? || t.CopyEnd? || t.Recheck? || t.Record? {
      LoopStepKeeps(s, t);
    } else if t.Begin? || t.Plan? {
      StartStepKeeps(s, t);
    } else if t.TruncateToSize? || t.Stat? || t.MapCheck? {
      CheckStepKeeps(s, t);
    } else if t.Env? || t.Rename? || t.Commit? || t.Kill? || t.Rewrite? || t.Leave? {
      LifeStepKeeps(s, t);
    } else {
      MoveStepKeeps(s, t);
    }
  }

  lemma {:induction false} RunKeeps(states: seq<State>, steps: seq<Step>, k: nat)
    requires Run(states, steps) && k < |states|
    ensures DataInv(states[k])
  {
    if k > 0 {
      RunKeeps(states, steps, k - 1);
      StepKeeps(states[k - 1], steps[k - 1]);
    }
  }

  // ---- Main results ----

  /** In every interleaving, a live record's range of its destination file is the device range it names. */
  lemma LiveRecordsAreTrue(states: seq<State>, steps: seq<Step>, k: nat, d: nat, r: Rec)
    requires Run(states, steps) && k < |states|
    requires var s := states[k]; r in Records(s.index, d) && (r.ref in s.refs ==> !s.refs[r.ref].dead)
    ensures var s := states[k];
            r.ref in s.files && HoldsDisk(s.files[r.ref], r.off, s.disk, d, r.phys, r.length)
  {
    RunKeeps(states, steps, k);
    assert RecOk(states[k], d, r);
  }

  /** In every interleaving, a copyDedup that returned no error left a destination that equals the source
      as it was at the first fstat, for as long as the file is the worker's. */
  lemma VerifiedCopyEqualsSource(states: seq<State>, steps: seq<Step>, k: nat, w: nat)
    requires Run(states, steps) && k < |states| && w in states[k].workers
    requires states[k].workers[w].pc.Verified? || states[k].workers[w].pc.Published?
    ensures var s, x := states[k], states[k].workers[w];
            x.ino in s.files && s.files[x.ino] == x.snapshot
  {
    RunKeeps(states, steps, k);
    assert ActorOk(states[k], w);
  }

  /** And the source still had that content, at that size, at the final fstat: the check is not fooled by
      a source that changed and changed back. */
  lemma FinalStatSeesTheSnapshot(states: seq<State>, steps: seq<Step>, k: nat)
    requires Run(states, steps) && k < |steps| && steps[k].Stat?
    requires var w := steps[k].w; !states[k + 1].workers[w].pc.Failed?
    ensures var s, x := states[k], states[k].workers[steps[k].w];
            s.srcs[x.file].content == x.snapshot && |x.snapshot| == x.size
  {
    RunKeeps(states, steps, k);
    assert ActorOk(states[k], steps[k].w);
  }

  /** No clone reads a file whose bytes were discarded: a clone that can succeed reads the inode its record
      was written to, with the bytes still there, and gets the device's bytes of the wanted segment. */
  lemma ClonesReadLiveBytes(states: seq<State>, steps: seq<Step>, k: nat)
    requires Run(states, steps) && k < |steps| && steps[k].CloneOk?
    ensures var s, x := states[k], states[k].workers[steps[k].w];
            var from := CloneSource(s.refs[x.pc.rec.ref], s.names).value;
            && from == x.pc.rec.ref && from !in s.discarded
            && s.refs[from].dev == s.refs[x.ino].dev
            && forall b :: x.Seg().Has(b) ==>
                 At(states[k + 1].files[x.ino], b) == s.disk(s.srcs[x.file].dev, x.Seg().Address(b))
  {
    RunKeeps(states, steps, k);
    RunKeeps(states, steps, k + 1);
    var s, w := states[k], steps[k].w;
    CloneSourceHolds(s, w);
    assert ActorOk(states[k + 1], w);
    assert s.workers[w].Seg() in states[k + 1].workers[w].cloned;
  }

  /** A live reference always leads somewhere, and no inode that lost its bytes has one. */
  lemma LiveRefsReach(states: seq<State>, steps: seq<Step>, k: nat, ino: nat)
    requires Run(states, steps) && k < |states|
    requires var s := states[k]; ino in s.refs && !s.refs[ino].dead
    ensures states[k].refs[ino].Reachable() && ino !in states[k].discarded
  {
    RunKeeps(states, steps, k);
    assert RefOk(states[k], ino);
  }

  /** From its publication on, whoever opens the path reads what the source was at the first fstat. */
  lemma PublishedPathShows(states: seq<State>, steps: seq<Step>, k: nat)
    requires Run(states, steps) && k < |steps| && steps[k].Publish?
    ensures var s, s', x := states[k], states[k + 1], states[k].workers[steps[k].w];
            && s'.names == s.names[steps[k].path := x.ino] && s'.refs == s.refs
            && x.ino in s'.files && s'.files[x.ino] == x.snapshot
  {
    RunKeeps(states, steps, k);
    assert ActorOk(states[k], steps[k].w);
  }

  /** From its commit on a file serves clones exactly while the path it was published under still names it. */
  lemma CommittedServesExactlyWhile(states: seq<State>, steps: seq<Step>, k: nat, names: map<nat, nat>)
    requires Run(states, steps) && k < |steps| && steps[k].Commit?
    ensures var x := states[k].workers[steps[k].w];
            && x.pc.Published? && x.ino in states[k + 1].refs
            && (CloneSource(states[k + 1].refs[x.ino], names) == Some(x.ino) <==>
                x.pc.path in names && names[x.pc.path] == x.ino)
  {
    RunKeeps(states, steps, k);
    assert ActorOk(states[k], steps[k].w);
    assert RefOk(states[k], states[k].workers[steps[k].w].ino);
  }
}
