/** CopyFile of internal/fsx/copy.go: a temp file is written beside the destination and renamed into place. */
module CopyFiles {
  import opened ByteFiles
  import opened CopyData
  import opened CopyLoops
  import opened DestRefs
  import opened ExtentIndex
  import opened Segments

  /** The destination at one moment: what each path names, what each inode holds, this copy's clone source, and
      whether by then a byte, or the file itself, was lost while clones could read it. */
  datatype Snap = Snap(names: map<nat, nat>, files: map<nat, seq<Byte>>, ref: Option<Ref>, torn: bool) {
    /** What a reader of the path finds. */
    function Shows(path: nat): Option<seq<Byte>> {
      if path in names && names[path] in files then Some(files[names[path]]) else None
    }

    /** A clone that finds the reference live reads the file it was made for, which has lost nothing. */
    predicate RefServes() {
      && !torn
      && (ref.Some? && !ref.value.dead ==>
            CloneSource(ref.value, names) == Some(ref.value.ino) && ref.value.ino in files)
    }
  }

  datatype Outcome = Copied | Incomplete | Failed   // Incomplete: published, but not all its metadata

  /** Which calls on the destination's directory have failed. */
  datatype Faults = Faults(create: bool, rename: bool, remove: bool)

  class Volume {
    var names: map<nat, nat>
    var files: map<nat, seq<Byte>>
    ghost var seen: seq<Snap>      // every moment since the beginning
    ghost var faults: Faults       // what was refused

    constructor (names: map<nat, nat>, files: map<nat, seq<Byte>>)
      ensures this.names == names && this.files == files && seen == [] && faults == Faults(false, false, false)
    {
      this.names, this.files, seen, faults := names, files, [], Faults(false, false, false);
    }

    /** fd is this copy's clone source and f its temp file. */
    ghost function Now(fd: FileDedup, f: File): Snap
      reads this, fd, fd.ref, f
    {
      Snap(names, files, if fd.ref == null then None else Some(fd.ref.Model()), f.torn)
    }

    /** A moment passes. */
    ghost method Tick(fd: FileDedup, f: File)
      modifies `seen
      ensures seen == old(seen) + [Now(fd, f)]
    {
      seen := seen + [Now(fd, f)];
    }

    /** A new file under a new name: the system picks both. */
    method CreateTemp(tmp: nat, ino: nat, fd: FileDedup, f: File) returns (ok: bool)
      requires tmp !in names && ino !in files
      modifies this
      ensures names == if ok then old(names)[tmp := ino] else old(names)
      ensures files == if ok then old(files)[ino := []] else old(files)
      ensures faults == old(faults).(create := old(faults).create || !ok)
      ensures seen == old(seen) + [Now(fd, f)]
    {
      ok := *;
      faults := faults.(create := faults.create || !ok);
      if ok {
        names, files := names[tmp := ino], files[ino := []];
      }
      Tick(fd, f);
    }

    /** The temp file holds what was written to it. */
    method Flush(ino: nat, fd: FileDedup, f: File)
      modifies this
      ensures names == old(names) && files == old(files)[ino := f.data] && seen == old(seen) + [Now(fd, f)]
      ensures faults == old(faults)
    {
      files := files[ino := f.data];
      Tick(fd, f);
    }

    /** The rename is atomic. */
    method Rename(from: nat, to: nat, fd: FileDedup, f: File) returns (ok: bool)
      requires from in names && from != to
      modifies this
      ensures files == old(files) && names == if ok then old(names)[to := old(names)[from]] - {from} else old(names)
      ensures faults == old(faults).(rename := old(faults).rename || !ok)
      ensures seen == old(seen) + [Now(fd, f)]
    {
      ok := *;
      faults := faults.(rename := faults.rename || !ok);
      if ok {
        names := names[to := names[from]] - {from};
      }
      Tick(fd, f);
    }

    /** A file removed while clones could read it is a loss. */
    method Remove(path: nat, fd: FileDedup, f: File) returns (ok: bool)
      modifies this, f`torn
      ensures files == old(files) && names == if ok then old(names) - {path} else old(names)
      ensures f.torn == (old(f.torn) || (ok && f.Live()))
      ensures faults == old(faults).(remove := old(faults).remove || !ok)
      ensures seen == old(seen) + [Now(fd, f)]
    {
      ok := *;
      faults := faults.(remove := faults.remove || !ok);
      if ok {
        names := names - {path};
        f.torn := f.torn || f.Live();
      }
      Tick(fd, f);
    }
  }

  // ---- What holds at every moment ----

  /** No other path and no other inode has changed. */
  ghost predicate RestIsSame(was: Snap, now: Snap, dst: nat, tmp: nat, ino: nat) {
    && (forall p :: p != dst && p != tmp ==> (p in now.names <==> p in was.names))
    && (forall p :: p != dst && p != tmp && p in was.names ==> now.names[p] == was.names[p])
    && (forall i :: i in was.files && i != ino ==> i in now.files && now.files[i] == was.files[i])
  }

  /** Before the rename a reader of dst finds what was there; clones are served. */
  ghost predicate BeforeOk(was: Snap, now: Snap, dst: nat, tmp: nat, ino: nat) {
    now.Shows(dst) == was.Shows(dst) && now.RefServes() && RestIsSame(was, now, dst, tmp, ino)
  }

  /** A reader of dst finds what was there or the whole new file; clones are served. */
  ghost predicate MomentOk(was: Snap, now: Snap, whole: seq<Byte>, dst: nat, tmp: nat, ino: nat) {
    && (now.Shows(dst) == was.Shows(dst) || now.Shows(dst) == Some(whole))
    && now.RefServes() && RestIsSame(was, now, dst, tmp, ino)
  }

  ghost predicate AllBefore(was: Snap, seen: seq<Snap>, dst: nat, tmp: nat, ino: nat) {
    forall k :: 0 <= k < |seen| ==> BeforeOk(was, seen[k], dst, tmp, ino)
  }

  ghost predicate MomentsOk(was: Snap, seen: seq<Snap>, whole: seq<Byte>, dst: nat, tmp: nat, ino: nat) {
    forall k :: 0 <= k < |seen| ==> MomentOk(was, seen[k], whole, dst, tmp, ino)
  }

  /** The names the system picked are new ones. */
  ghost predicate NewNames(was: Snap, dst: nat, tmp: nat, ino: nat) {
    && tmp !in was.names && ino !in was.files && dst != tmp
    && forall p :: p in was.names ==> was.names[p] in was.files
  }

  /** The temp file is being written: nothing leads to it but its own name. */
  ghost predicate Writing(was: Snap, now: Snap, tmp: nat, ino: nat) {
    && now.names == was.names[tmp := ino] && ino in now.files && !now.torn
    && (forall i :: i in was.files && i != ino ==> i in now.files && now.files[i] == was.files[i])
    && (now.ref.Some? ==> now.ref.value.ino == ino && now.ref.value.open && !now.ref.value.dead)
  }

  lemma WritingIsOk(was: Snap, now: Snap, dst: nat, tmp: nat, ino: nat)
    requires NewNames(was, dst, tmp, ino) && Writing(was, now, tmp, ino)
    ensures BeforeOk(was, now, dst, tmp, ino)
  {
  }

  /** The temp file has become dst. */
  ghost predicate Published(was: Snap, now: Snap, whole: seq<Byte>, dst: nat, ino: nat) {
    && now.names == was.names[dst := ino] && ino in now.files && now.files[ino] == whole && !now.torn
    && (forall i :: i in was.files && i != ino ==> i in now.files && now.files[i] == was.files[i])
    && (now.ref.Some? ==>
          now.ref.value.ino == ino && !now.ref.value.dead && (now.ref.value.open || now.ref.value.path == Some(dst)))
  }

  lemma PublishedIsOk(was: Snap, now: Snap, whole: seq<Byte>, dst: nat, tmp: nat, ino: nat)
    requires Published(was, now, whole, dst, ino)
    ensures MomentOk(was, now, whole, dst, tmp, ino)
  {
  }

  /** The clone source, if there is one, is the temp file's. */
  ghost predicate Linked(fd: FileDedup, f: File, ino: nat)
    reads fd, fd.ref, f, f.source
  {
    if fd.ref == null then !f.Live() else f.source == fd.ref && fd.ref.ino == ino && !fd.ref.dead && fd.ref.handle
  }

  // ---- The steps of a copy ----

  /** copyContents: the temp file gets what copyData gives it.  The moments inside copyData change only the temp
      file's bytes and the clone source, and torn would tell if one of them lost what clones could read. */
  method CopyContents(v: Volume, fd: FileDedup, f: File, src: File, info: Option<Info>, probe: bool,
                      exts: Option<seq<Extent>>, disk: int -> Byte, wanted: int, chunkMax: nat, meter: Meter,
                      ghost was: Snap, dst: nat, tmp: nat, ino: nat)
    returns (n: nat, err: Err, way: Way)
    requires f != src && f.data == [] && f.pos == 0 && src.pos == 0 && 0 < chunkMax && fd.ref == null
    requires f.source == null
    requires exts.Some? ==> MapOk(exts.value, src.data, disk)
    requires NewNames(was, dst, tmp, ino) && Writing(was, v.Now(fd, f), tmp, ino)
    requires AllBefore(was, v.seen, dst, tmp, ino)
    modifies v, fd, f, src`pos, src`trouble, src`changed, meter
    ensures err == NoErr || src.trouble || f.trouble || f.refused || meter.stopped
    ensures v.faults == old(v.faults)
    ensures fd.ref != null ==> fresh(fd.ref)
    ensures Writing(was, v.Now(fd, f), tmp, ino) && AllBefore(was, v.seen, dst, tmp, ino) && Linked(fd, f, ino)
    ensures err == NoErr ==> CanBe(way, info) && (v.files[ino], n) == CopyAnswer(way, info, src.data)
  {
    var restarted;
    n, err, way, restarted := CopyFileData(f, src, info, probe, exts, disk, wanted, chunkMax, meter, fd, 0, ino);
    v.Flush(ino, fd, f);
    WritingIsOk(was, v.Now(fd, f), dst, tmp, ino);
  }

  /** The rename, then the commit: between them clones read through the handle. */
  method Publish(v: Volume, fd: FileDedup, f: File, ghost was: Snap, dst: nat, tmp: nat, ino: nat) returns (ok: bool)
    requires NewNames(was, dst, tmp, ino) && Writing(was, v.Now(fd, f), tmp, ino)
    requires AllBefore(was, v.seen, dst, tmp, ino)
    modifies v, fd.ref
    ensures fd.ref == old(fd.ref) && v.files == old(v.files)
    ensures v.faults == old(v.faults).(rename := old(v.faults).rename || !ok)
    ensures if ok then
              && Published(was, v.Now(fd, f), v.files[ino], dst, ino)
              && MomentsOk(was, v.seen, v.files[ino], dst, tmp, ino)
              && (fd.ref != null ==> fd.ref.path == Some(dst) && !fd.ref.handle)
            else
              && Writing(was, v.Now(fd, f), tmp, ino) && AllBefore(was, v.seen, dst, tmp, ino)
              && v.Now(fd, f) == old(v.Now(fd, f))
  {
    ok := v.Rename(tmp, dst, fd, f);
    if !ok {
      assert v.Now(fd, f) == old(v.Now(fd, f));
      WritingIsOk(was, v.Now(fd, f), dst, tmp, ino);
      return;
    }
    assert v.names == was.names[dst := ino];
    PublishedIsOk(was, v.Now(fd, f), v.files[ino], dst, tmp, ino);
    fd.Commit(dst);
    PublishedIsOk(was, v.Now(fd, f), v.files[ino], dst, tmp, ino);
    v.Tick(fd, f);
  }

  /** The clone source dies before the file goes: no moment is torn. */
  method Discard(v: Volume, fd: FileDedup, f: File, ghost was: Snap, dst: nat, tmp: nat, ino: nat)
    requires NewNames(was, dst, tmp, ino) && Writing(was, v.Now(fd, f), tmp, ino)
    requires AllBefore(was, v.seen, dst, tmp, ino)
    requires Linked(fd, f, ino)
    modifies v, fd, fd.ref, f`torn
    ensures AllBefore(was, v.seen, dst, tmp, ino) && v.names - {tmp} == was.names && v.files == old(v.files)
    ensures old(fd.ref) != null ==> old(fd.ref).dead
    // The temp name is left only if it cannot be removed.
    ensures tmp !in v.names || v.faults.remove
    ensures v.faults == old(v.faults).(remove := v.faults.remove)
  {
    fd.Kill();
    WritingIsOk(was, v.Now(fd, f), dst, tmp, ino);
    v.Tick(fd, f);
    var removed := v.Remove(tmp, fd, f);
    assert was.names[tmp := ino] - {tmp} == was.names;
    assert v.names - {tmp} == was.names;
  }

  /** The end of a copy: published if all went well and the rename does too, else discarded.  synced and closed say
      whether what was asked of fsync and of close was done, metaOk whether all metadata was set. */
  method Settle(v: Volume, fd: FileDedup, f: File, good: bool, metaOk: bool, synced: bool, closed: bool,
                ghost was: Snap, dst: nat, tmp: nat, ino: nat)
      returns (out: Outcome)
    requires NewNames(was, dst, tmp, ino) && Writing(was, v.Now(fd, f), tmp, ino)
    requires AllBefore(was, v.seen, dst, tmp, ino)
    requires Linked(fd, f, ino) && !v.faults.rename
    modifies v, fd, fd.ref, f`torn
    ensures v.files == old(v.files)
    // Incomplete metadata stops nothing; only what lost data, or the rename, does.
    ensures out.Failed? <==> !(good && synced && closed) || (v.faults.rename && !old(v.faults).rename)
    ensures !out.Failed? ==> (out.Copied? <==> metaOk)
    ensures out.Failed? ==> tmp !in v.names || v.faults.remove
    ensures v.faults.create == old(v.faults).create
    ensures out.Failed? ==> AllBefore(was, v.seen, dst, tmp, ino) && v.names - {tmp} == was.names
    ensures out.Failed? && old(fd.ref) != null ==> old(fd.ref).dead
    ensures !out.Failed? ==>
            good && v.names == was.names[dst := ino] && MomentsOk(was, v.seen, v.files[ino], dst, tmp, ino)
    ensures !out.Failed? && old(fd.ref) != null ==>
              !old(fd.ref).dead && CloneSource(old(fd.ref).Model(), v.names) == Some(ino) && !old(fd.ref).handle
  {
    if good && synced && closed {
      var renamed := Publish(v, fd, f, was, dst, tmp, ino);
      if renamed {
        return if metaOk then Copied else Incomplete;
      }
    }
    Discard(v, fd, f, was, dst, tmp, ino);
    out := Failed;
  }

  /** At every moment a reader of dst finds the old file or the whole new one, and clones find a live source only
      with all its bytes.  A copy that fails leaves every path as it was, but perhaps its temp name, and its clone
      source dead.  One that succeeds leaves dst with what copyData answers, which is the source's bytes exactly
      when the walk's size served the way it took; no temp name; and a clone source that leads to the published
      file through its path. */
  method CopyFile(v: Volume, src: File, info: Option<Info>, probe: bool, exts: Option<seq<Extent>>, disk: int -> Byte,
                  wanted: int, chunkMax: nat, meter: Meter, dst: nat, tmp: nat, ino: nat,
                  canceled: bool, readable: bool, metaOk: bool, synced: bool, closed: bool)
    returns (n: nat, out: Outcome, way: Way, ghost ref: DestRef?, ghost f: File?)
    requires v.faults == Faults(false, false, false)
    requires v.seen == [] && src.pos == 0 && 0 < chunkMax && (exts.Some? ==> MapOk(exts.value, src.data, disk))
    requires NewNames(Snap(v.names, v.files, None, false), dst, tmp, ino)
    modifies v, src`pos, src`trouble, src`changed, meter
    // It fails only if it was canceled or some call did, and succeeds only if none that matters did.
    ensures out.Failed? ==>
      || canceled || !readable || !synced || !closed || v.faults.create || v.faults.rename
      || src.trouble || meter.stopped || (f != null && (f.trouble || f.refused))
    ensures !out.Failed? ==> !canceled && readable && synced && closed && (out.Copied? <==> metaOk)
    ensures tmp in v.names ==> v.faults.remove
    ensures out.Failed? ==> AllBefore(Snap(old(v.names), old(v.files), None, false), v.seen, dst, tmp, ino)
    ensures out.Failed? ==> v.names - {tmp} == old(v.names) && (ref == null || ref.dead)
    ensures !out.Failed? ==> v.names == old(v.names)[dst := ino] && ino in v.files
    ensures !out.Failed? ==>
            MomentsOk(Snap(old(v.names), old(v.files), None, false), v.seen, v.files[ino], dst, tmp, ino)
    ensures !out.Failed? ==> CanBe(way, info) && (v.files[ino], n) == CopyAnswer(way, info, src.data)
    ensures !out.Failed? ==> (v.files[ino] == src.data && n == |src.data| <==> SizeServes(way, info, |src.data|))
    ensures !out.Failed? && ref != null ==> !ref.dead && CloneSource(ref.Model(), v.names) == Some(ino) && !ref.handle
    ensures forall i :: i in old(v.files) ==> i in v.files && v.files[i] == old(v.files)[i]
  {
    n, out, way, ref, f := 0, Failed, Plain, null, null;
    ghost var was := Snap(v.names, v.files, None, false);
    assert v.names - {tmp} == v.names;
    if canceled || !readable {
      return;
    }
    var fd := new FileDedup();
    var temp := new File([]);
    f := temp;
    var ok := v.CreateTemp(tmp, ino, fd, temp);
    if !ok {
      return;
    }
    WritingIsOk(was, v.Now(fd, temp), dst, tmp, ino);
    var err;
    n, err, way := CopyContents(v, fd, temp, src, info, probe, exts, disk, wanted, chunkMax, meter, was, dst, tmp, ino);
    ref := fd.ref;
    out := Settle(v, fd, temp, err == NoErr, metaOk, synced, closed, was, dst, tmp, ino);
    if err == NoErr { ServesExactlyWhen(way, info, src.data); }
  }
}
