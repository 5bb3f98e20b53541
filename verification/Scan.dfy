/** Skip or copy: internal/scan/scan.go. */
module Scan {
  import opened ByteFiles

  /** A file's content and attributes.  The owner is absent where the filesystem does not report one. */
  datatype Body = Body(data: seq<Byte>, mtime: int, mode: nat, owner: Owner)

  datatype Owner = Unknown | Owned(uid: nat, gid: nat)

  /** What Lstat and a read of the destination path give. */
  datatype There = Absent | OtherType | Regular(body: Body)

  datatype Reason = New | TypeChange | SizeDiffers | MtimeDiffers | ContentDiffers

  datatype Verdict = NeedCopy(reason: Reason) | UpToDate(modeDiff: bool, ownerDiff: bool, timeDiff: bool) {
    predicate Drift() {
      UpToDate? && (modeDiff || ownerDiff || timeDiff)
    }
  }

  /** One second, in nanoseconds. */
  const MTIME_TOLERANCE := 1_000_000_000

  function AbsDur(d: int): (r: int)
    ensures r >= 0 && (r == d || r == -d)
  {
    if d < 0 then -d else d
  }

  /** Differences in mode and, where both sides report it, owner. */
  function CompareAttrs(src: Body, dst: Body): Verdict {
    UpToDate(src.mode != dst.mode, src.owner.Owned? && dst.owner.Owned? && src.owner != dst.owner, false)
  }

  /** readable says that both files could be read to the end; the digests stand for the contents. */
  function Compare(src: Body, dst: There, checksum: bool, readable: bool): Verdict {
    match dst
    case Absent => NeedCopy(New)
    case OtherType => NeedCopy(TypeChange)
    case Regular(d) =>
      if |src.data| != |d.data| then NeedCopy(SizeDiffers)
      else
        var mtimeMatch := AbsDur(src.mtime - d.mtime) <= MTIME_TOLERANCE;
        if !checksum && !mtimeMatch then NeedCopy(MtimeDiffers)
        else if checksum && !(readable && src.data == d.data) then NeedCopy(ContentDiffers)
        else CompareAttrs(src, d).(timeDiff := checksum && !mtimeMatch)
  }

  /** With --checksum a readable file is skipped exactly when its content is there already, whatever the times;
      without it, exactly when size and, to the second, mtime agree. */
  lemma SkippedExactlyWhen(src: Body, dst: There, checksum: bool, readable: bool)
    ensures checksum && readable ==>
            (Compare(src, dst, checksum, readable).UpToDate? <==> dst.Regular? && dst.body.data == src.data)
    ensures !checksum ==>
              (Compare(src, dst, checksum, readable).UpToDate? <==>
               && dst.Regular? && |dst.body.data| == |src.data|
               && -MTIME_TOLERANCE <= src.mtime - dst.body.mtime <= MTIME_TOLERANCE)
  {
  }

  /** Each verdict and each kind of drift, by what the two files show. */
  lemma VerdictSays(src: Body, dst: There, checksum: bool, readable: bool)
    ensures var v := Compare(src, dst, checksum, readable);
            && (v == NeedCopy(New) <==> dst.Absent?) && (v == NeedCopy(TypeChange) <==> dst.OtherType?)
            && (v == NeedCopy(SizeDiffers) <==> dst.Regular? && |dst.body.data| != |src.data|)
            && (v == NeedCopy(MtimeDiffers) ==> !checksum) && (v == NeedCopy(ContentDiffers) ==> checksum)
    ensures var v := Compare(src, dst, checksum, readable);
            v.UpToDate? ==>
              && (v.modeDiff <==> src.mode != dst.body.mode)
              && (v.ownerDiff <==>
                    exists u, g, u', g' ::
                      src.owner == Owned(u, g) && dst.body.owner == Owned(u', g') && (u, g) != (u', g'))
              && (v.timeDiff <==>
                    checksum && (src.mtime - dst.body.mtime > 1_000_000_000
                      || dst.body.mtime - src.mtime > 1_000_000_000))
              && (v.Drift() <==> v.modeDiff || v.ownerDiff || v.timeDiff)
  {
    if dst.Regular? && src.owner.Owned? && dst.body.owner.Owned? {
      var a, b := src.owner, dst.body.owner;
      assert src.owner == Owned(a.uid, a.gid) && dst.body.owner == Owned(b.uid, b.gid);
    }
  }

  /** A file just synced or just copied with its attributes is not touched again. */
  lemma SecondRunIsQuiet(src: Body, dst: Body, checksum: bool)
    requires dst.data == src.data && dst.mtime == src.mtime && dst.mode == src.mode
    requires dst.owner == src.owner || dst.owner.Unknown?
    ensures Compare(src, Regular(dst), checksum, true) == UpToDate(false, false, false)
  {
  }

  /** The read loop of hashFile: every byte is fed to the hasher, in order, whatever the sizes of the reads; a failed
      read gives no digest. */
  method HashFile(data: seq<Byte>, bufSize: nat) returns (fed: seq<Byte>, ok: bool)
    requires 0 < bufSize
    ensures ok ==> fed == data
  {
    fed, ok := [], true;
    while |fed| < |data|
      invariant ok && fed <= data
    {
      ok := *;
      if !ok {
        return;
      }
      var n :| 0 < n <= bufSize && n <= |data| - |fed|;
      fed := fed + data[|fed|..|fed| + n];
    }
  }
}
