/** The life of a destination file as a clone source: destRef and fileDedup in internal/fsx/extents.go. */
module DestRefs {
  import opened ExtentIndex

  /** What records point at: the inode ino of device dev, which a clone gets at through the handle while open
      and through path, once published, after. */
  datatype Ref = Ref(dev: nat, ino: nat, open: bool, path: Option<nat>, dead: bool) {
    /** Something still leads to the file's bytes. */
    predicate Reachable() { open || path.Some? }
  }

  /** The inode a clone may read now, given what each path names.  The path is trusted only while it
      names the file that was written. */
  function CloneSource(r: Ref, names: map<nat, nat>): (ino: Option<nat>)
    ensures ino.Some? ==> !r.dead && ino.value == r.ino
    ensures ino.None? ==>
            r.dead || (!r.open && (r.path.None? || r.path.value !in names || names[r.path.value] != r.ino))
  {
    if r.dead then None
    else if r.open then Some(r.ino)
    else if r.path.Some? && r.path.value in names && names[r.path.value] == r.ino then Some(names[r.path.value])
    else None
  }

  /** The object behind a Ref.  Every method body runs under the reference's mutex. */
  class DestRef {
    const dev: nat
    const ino: nat
    var handle: bool
    var path: Option<nat>
    var dead: bool

    ghost function Model(): Ref
      reads this
    {
      Ref(dev, ino, handle, path, dead)
    }

    constructor (dev: nat, ino: nat)
      ensures Model() == Ref(dev, ino, true, None, false)
    {
      this.dev, this.ino, handle, path, dead := dev, ino, true, None, false;
    }

    /** The inode on which with would run its function, or none for errNoSource.  names is what an open
        by path finds. */
    method With(names: map<nat, nat>) returns (from: Option<nat>)
      ensures from == CloneSource(Model(), names)
    {
      if dead {
        return None;
      }
      if handle {
        return Some(ino);
      }
      if path.None? || path.value !in names {
        return None;
      }
      var found := names[path.value];
      if found != ino {
        return None;
      }
      from := Some(found);
    }

    /** Points the reference at the published path and closes the handle, in one step. */
    method Commit(published: nat)
      modifies this
      ensures Model() == old(Model()).(path := Some(published), open := false)
      // A clone at any moment sees a handle or a path.
      ensures Model().Reachable()
    {
      path := Some(published);
      CloseLocked();
    }

    method Kill()
      modifies this
      ensures Model() == old(Model()).(dead := true, open := false)
      ensures forall names :: CloneSource(Model(), names).None?
    {
      dead := true;
      CloseLocked();
    }

    method CloseLocked()
      modifies this`handle
      ensures !handle
    {
      if handle {
        handle := false;
      }
    }
  }

  /** The dedup state of one CopyFile: nil until copyDedup applies, and nil again after kill. */
  class FileDedup {
    var ref: DestRef?
    var recs: seq<Rec>

    constructor ()
      ensures ref == null && recs == []
    {
      ref, recs := null, [];
    }

    method Commit(path: nat)
      modifies ref
      ensures ref != null ==> ref.Model() == old(ref.Model()).(path := Some(path), open := false)
    {
      if ref == null {
        return;
      }
      ref.Commit(path);
    }

    /** The file serves no clone any more, and is forgotten. */
    method Kill()
      modifies this, ref
      ensures ref == null
      ensures old(ref) != null ==> recs == [] && old(ref).Model() == old(ref.Model()).(dead := true, open := false)
      ensures old(ref) == null ==> recs == old(recs)
    {
      if ref == null {
        return;
      }
      ref.Kill();
      ref, recs := null, [];
    }
  }
}
