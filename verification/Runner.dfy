/** The runner, updating its counters, hardlink bookkeeping and the trees in place: each method takes the turn that
    RunCopy gives an entry. */
module Runner {
  import opened Scan
  import opened RunCopy

  class Runner {
    const c: Cfg
    // The two trees.
    var src: seq<Node>
    var dst: seq<Node>
    var inodes: map<nat, Body>
    // The counters.
    var files: int
    var bytes: int
    var dirs: int
    var symlinks: int
    var linked: int
    var skipped: int
    var updated: int
    var totalFiles: int
    var totalBytes: int
    var failed: nat
    // Hard links: the primary of each inode, and the entries to link once all copies are made.
    var hardlinkMap: map<nat, Primary>
    var hardlinks: seq<nat>
    // The run.
    var st: seq<Status>
    var walked: nat
    var aborted: bool
    var stopped: bool
    var finished: bool
    var phase: Phase

    constructor (c: Cfg)
      ensures this.c == c && View() == Start(c) && hardlinks == []
    {
      this.c := c;
      src, dst, inodes := c.src, c.dst, c.inodes;
      files, bytes, dirs, symlinks, linked, skipped, updated, totalFiles, totalBytes, failed := 0, 0, 0, 0, 0, 0, 0,
        0, 0, 0;
      hardlinkMap, hardlinks := map[], [];
      st, walked := seq(|c.src|, _ => Unseen), 0;
      aborted, stopped, finished, phase := false, false, false, Walking;
    }

    function View(): State
      reads this
    {
      State(src, dst, inodes, st, walked, hardlinkMap,
            Counts(files, bytes, dirs, symlinks, linked, skipped, updated, totalFiles, totalBytes), failed, aborted,
            stopped, finished, phase)
    }

    ghost predicate Ready(i: nat)
      reads this
    {
      Shaped(c, View()) && i < |c.src|
    }

    /** Every change of the destination goes to the source entry when the two are one. */
    method Replace(i: nat, n: Node)
      requires Ready(i)
      modifies `src, `dst
      ensures View() == SetDst(c, old(View()), i, n)
    {
      if i in c.alias {
        src := src[i := n];
      } else {
        dst := dst[i := n];
      }
    }

    /** The work of entry i succeeded and left n at its destination. */
    method Publish(i: nat, n: Node, how: How)
      requires Ready(i)
      modifies `src, `dst, `st
      ensures View() == SetDst(c, Finish(old(View()), i, how), i, n)
    {
      st := st[i := Finished(how)];
      Replace(i, n);
    }

    method SkipEntry(i: nat)
      requires Ready(i)
      modifies `st, `skipped
      ensures View() == RunCopy.SkipEntry(old(View()), i)
    {
      skipped := skipped + 1;
      st := st[i := Finished(Skipped)];
    }

    method FailEntry(i: nat, removed: bool)
      requires Ready(i)
      modifies `src, `dst, `st, `failed
      ensures View() == Fail(c, old(View()), i, removed)
    {
      if removed {
        Replace(i, Missing);
      }
      st := st[i := Dropped];
      failed := failed + 1;
    }

    method FinishUnchangedFile(i: nat, v: Verdict, e: Env)
      requires Ready(i)
      modifies `inodes, `st, `updated, `skipped
      ensures View() == FinishUnchanged(c, old(View()), i, v, e)
    {
      if c.preserve {
        if v.Drift() {
          var n := DstNode(c, View(), i);
          if !c.dry && n.File? {
            inodes := inodes[n.ino := e.body];
          }
          updated := updated + 1;
          st := st[i := Finished(Updated)];
          return;
        }
      }
      SkipEntry(i);
    }

    method EnqueueFile(i: nat, checkUnchanged: bool)
      requires Ready(i) && c.src[i].File?
      modifies `files, `bytes, `totalFiles, `totalBytes, `st
      ensures View() == Enqueue(c, old(View()), i, checkUnchanged)
    {
      var size := |c.SrcBody(i).data|;
      totalFiles := totalFiles + 1;
      totalBytes := totalBytes + size;
      if c.dry {
        files := files + 1;
        bytes := bytes + size;
        st := st[i := Finished(Copied)];
        return;
      }
      st := st[i := Queued(checkUnchanged)];
    }

    method HandleMultiLink(i: nat, e: Env)
      requires Ready(i) && c.src[i].File?
      modifies this
      ensures |st| == |old(st)| && hardlinks == old(hardlinks) + if st[i].Deferred? then [i] else []
      ensures View() == RunCopy.HandleMultiLink(c, old(View()), i, e)
    {
      var key := c.src[i].ino;
      if key in hardlinkMap {
        var p := hardlinkMap[key];
        if p.adopted && SameDestFile(c, View(), p.i, i) {
          SkipEntry(i);
          return;
        }
        st := st[i := Deferred];
        hardlinks := hardlinks + [i];
        return;
      }
      HandlePrimary(i, e);
    }

    /** The first name of an inode that the walk meets. */
    method HandlePrimary(i: nat, e: Env)
      requires Ready(i) && c.src[i].File? && c.src[i].ino !in hardlinkMap
      modifies this
      ensures View() == RunCopy.HandleMultiLink(c, old(View()), i, e)
      ensures |st| == |old(st)| && hardlinks == old(hardlinks) && !st[i].Deferred?
    {
      var key := c.src[i].ino;
      var v := VerdictFor(c, View(), i, e.readable);
      if !v.NeedCopy? {
        FinishUnchangedFile(i, v, e);
        hardlinkMap := hardlinkMap[key := Primary(i, true)];
        return;
      }
      EnqueueFile(i, false);
      hardlinkMap := hardlinkMap[key := Primary(i, false)];
    }

    method HandleRegular(i: nat, e: Env)
      requires Ready(i) && c.src[i].File?
      modifies this
      ensures View() == RunCopy.HandleRegular(c, old(View()), i, e)
    {
      if c.Grouped(i) {
        HandleMultiLink(i, e);
        return;
      }
      if c.dry {
        var v := VerdictFor(c, View(), i, e.readable);
        if !v.NeedCopy? {
          FinishUnchangedFile(i, v, e);
          return;
        }
        EnqueueFile(i, false);
        return;
      }
      EnqueueFile(i, true);
    }

    method RecreateSymlink(i: nat, target: nat, e: Env)
      requires Ready(i)
      modifies `src, `dst, `st, `skipped, `symlinks, `failed
      ensures View() == RunCopy.RecreateSymlink(c, old(View()), i, target, e)
    {
      var cur := DstNode(c, View(), i);
      if cur.Symlink? && cur.target == target {
        SkipEntry(i);
        return;
      }
      if c.dry {
        CountSymlink(i);
        return;
      }
      ReplaceSymlink(i, target, e);
    }

    /** A dry run only counts the link. */
    method CountSymlink(i: nat)
      requires Ready(i)
      modifies `st, `symlinks
      ensures View() == var s := Finish(old(View()), i, Symlinked);
                        s.(counts := s.counts.(symlinks := s.counts.symlinks + 1))
    {
      symlinks := symlinks + 1;
      st := st[i := Finished(Symlinked)];
    }

    method ReplaceSymlink(i: nat, target: nat, e: Env)
      requires Ready(i)
      modifies `src, `dst, `st, `symlinks, `failed
      ensures View() == if !e.ok then Fail(c, old(View()), i, e.removed)
                        else var s := SetDst(c, Finish(old(View()), i, Symlinked), i, Symlink(e.newIno, target));
                             s.(counts := s.counts.(symlinks := s.counts.symlinks + 1))
    {
      if !e.ok {
        FailEntry(i, e.removed);
        return;
      }
      Publish(i, Symlink(e.newIno, target), Symlinked);
      symlinks := symlinks + 1;
    }

    /** One queued file: a late skip, no room left, or up to MAX_RETRIES + 1 attempts at the copy. */
    method CopyOne(i: nat, e: Env, space: bool, attempts: seq<Attempt>) returns (tries: nat)
      requires Ready(i) && c.src[i].File? && st[i].Queued? && |attempts| > MAX_RETRIES
      modifies this
      ensures hardlinks == old(hardlinks)
      // Only a passing error of a run that goes on is tried again, and always while tries are left.
      ensures tries <= 3
      ensures forall k :: 0 <= k < tries ==>
                attempts[k].answer.Failure? && attempts[k].answer.passing && !attempts[k].aborted
      ensures space && !SkipsJob(c, old(View()), i, e) ==>
                || tries == 3 || attempts[tries].aborted || !attempts[tries].answer.Failure?
                || !attempts[tries].answer.passing
      // The last answer decides.
      ensures View() == Settled(c, old(View()), i, e, space, attempts[tries].answer)
    {
      tries := 0;
      if st[i].check {
        var v := VerdictFor(c, View(), i, e.readable);
        if !v.NeedCopy? {
          SkipQueued(i, v, e);
          return;
        }
      }
      if !space {
        Abandon(i);
        return;
      }
      while tries < MAX_RETRIES && attempts[tries].Again()
        invariant tries <= MAX_RETRIES && forall k :: 0 <= k < tries ==> attempts[k].Again()
        decreases MAX_RETRIES - tries
      {
        tries := tries + 1;
      }
      EndCopy(i, e, attempts[tries].answer);
    }

    /** The bytes of a file that turned out up to date leave the totals again. */
    method SkipQueued(i: nat, v: Verdict, e: Env)
      requires Ready(i) && c.src[i].File? && st[i] == Queued(true) && v.UpToDate?
      requires v == VerdictFor(c, View(), i, e.readable)
      modifies this
      ensures View() == RunCopy.CopyOne(c, old(View()), i, e) && hardlinks == old(hardlinks)
    {
      FinishUnchangedFile(i, v, e);
      totalFiles := totalFiles - 1;
      totalBytes := totalBytes - |c.SrcBody(i).data|;
    }

    /** The run is aborting and leaves this job undone. */
    method Abandon(i: nat)
      requires Ready(i)
      modifies `st, `aborted
      ensures View() == old(View()).(st := old(st)[i := Dropped], aborted := true)
    {
      st := st[i := Dropped];
      aborted := true;
    }

    method EndCopy(i: nat, e: Env, a: Answer)
      requires Ready(i) && c.src[i].File? && st[i].Queued?
      modifies this
      ensures !SkipsJob(c, old(View()), i, e) ==> View() == Settled(c, old(View()), i, e, true, a)
      ensures hardlinks == old(hardlinks)
    {
      match a
      case Canceled => Abandon(i);
      case Failure(_, fatal) =>
        FailEntry(i, false);
        aborted := aborted || fatal;
      case _ => Transferred(i, e);
    }

    method Transferred(i: nat, e: Env)
      requires Ready(i) && c.src[i].File?
      modifies this
      ensures View() == Transfer(c, old(View()), i, e.(ok := true)) && hardlinks == old(hardlinks)
    {
      Publish(i, File(e.newIno), Copied);
      inodes := inodes[e.newIno := e.body];
      files := files + 1;
      bytes := bytes + |c.SrcBody(i).data|;
    }

    /** The entries of the list, linked in order. */
    method ApplyHardlinks(es: seq<Env>)
      requires Shaped(c, View()) && |es| == |hardlinks| && AllLinkable(c, View(), hardlinks)
      modifies this
      ensures hardlinks == old(hardlinks) && View() == LinkAll(c, old(View()), old(hardlinks), es)
    {
      ghost var was := View();
      var k := 0;
      while k < |hardlinks|
        invariant k <= |hardlinks| && hardlinks == old(hardlinks)
        invariant Shaped(c, was) && AllLinkable(c, was, hardlinks[..k])
        invariant View() == LinkAll(c, was, hardlinks[..k], es[..k])
      {
        assert hardlinks[..k + 1][..k] == hardlinks[..k] && es[..k + 1][..k] == es[..k];
        LinkOne(hardlinks[k], es[k]);
        k := k + 1;
      }
      assert hardlinks[..k] == hardlinks && es[..k] == es;
    }

    method RemoveSource(i: nat, e: Env)
      requires Ready(i)
      modifies `src, `failed
      ensures View() == RemoveEntry(c, old(View()), i, e)
    {
      if SameEntry(c, View(), i) {
        failed := failed + 1;
        return;
      }
      if e.ok {
        src := src[i := Missing];
        return;
      }
      failed := failed + 1;
    }

    method LinkOne(i: nat, e: Env)
      requires Ready(i) && Linkable(c, View(), i)
      modifies this
      ensures View() == LinkEntry(c, old(View()), i, e) && hardlinks == old(hardlinks)
    {
      if aborted {
        // A primary that an aborted worker left undone may have no destination to link to.
        st := st[i := Dropped];
        return;
      }
      if c.dry {
        linked := linked + 1;
        st := st[i := Finished(Linked)];
        return;
      }
      if !e.ok {
        FailEntry(i, e.removed);
        return;
      }
      var target := DstNode(c, View(), hardlinkMap[c.src[i].ino].i);
      Publish(i, target, Linked);
      linked := linked + 1;
    }
  }

  // ---- The retries of one copy ----

  /** The first try and this many more. */
  const MAX_RETRIES: nat := 3

  /** What fsx.CopyFile tells: the data is published, or published with incomplete metadata, or a cancel cut it
      short, or it failed; a fatal failure, of a full destination or under --fatal-errors, aborts the run. */
  datatype Answer = Done | MetaOnly | Canceled | Failure(passing: bool, fatal: bool)

  /** One attempt, and whether the run is aborted by its end. */
  datatype Attempt = Attempt(answer: Answer, aborted: bool) {
    predicate Again() {
      answer.Failure? && answer.passing && !aborted
    }
  }

  /** The end of entry i's job: a is the answer of its last attempt. */
  function Settled(c: Cfg, s: State, i: nat, e: Env, space: bool, a: Answer): State
    requires Shaped(c, s) && i < |c.src| && c.src[i].File? && s.st[i].Queued?
  {
    if SkipsJob(c, s, i, e) then CopyOne(c, s, i, e)
    else if !space || a.Canceled? then s.(st := s.st[i := Dropped], aborted := true)
    else if a.Failure? then CopyOne(c, s, i, e.(ok := false)).(aborted := s.aborted || a.fatal)
    else CopyOne(c, s, i, e.(ok := true))
  }

  /** What each end of a job leaves.  Only a lack of room, a cancel and a fatal failure abort the run. */
  lemma SettledOutcomes(c: Cfg, s: State, i: nat, e: Env, space: bool, a: Answer)
    requires Shaped(c, s) && i < |c.src| && c.src[i].File? && s.st[i].Queued? && !SkipsJob(c, s, i, e)
    ensures var s' := Settled(c, s, i, e, space, a);
            && (s'.aborted <==> s.aborted || !space || a == Canceled || exists p :: a == Failure(p, true))
            && s'.failed == s.failed + (if space && a.Failure? then 1 else 0)
            && s'.walked == s.walked && s'.primary == s.primary && s'.phase == s.phase
    ensures var s' := Settled(c, s, i, e, space, a);
            if space && (a == Done || a == MetaOnly) then
              && s'.st == s.st[i := Finished(Copied)] && DstNode(c, s', i) == File(e.newIno)
              && s'.inodes == s.inodes[e.newIno := e.body]
              && s'.counts == s.counts.(files := s.counts.files + 1,
                bytes := s.counts.bytes + |c.inodes[c.src[i].ino].data|)
            else
              && s'.st == s.st[i := Dropped] && s'.src == s.src && s'.dst == s.dst && s'.inodes == s.inodes
              && s'.counts == s.counts
  {
    assert a.Failure? ==> a == Failure(a.passing, a.fatal);
  }

  /** However the job ends, it is a turn of the run's machine, with an abort before it or after it. */
  lemma SettledIsRun(c: Cfg, s: State, i: nat, e: Env, space: bool, a: Answer)
    requires Reachable(c, s) && !s.aborted && !c.dry
    requires var ok := space && (a.Done? || a.MetaOnly?); Enabled(c, s, RunJob(i, e.(ok := ok)))
    ensures Reachable(c, Settled(c, s, i, e, space, a))
  {
    var e' := e.(ok := space && (a.Done? || a.MetaOnly?));
    if SkipsJob(c, s, i, e) {
      SkipIsRun(c, s, i, e, e'.ok);
    } else if !space || a.Canceled? {
      DropIsRun(c, s, i, e');
    } else {
      CopyIsRun(c, s, i, e');
      if a.Failure? { AbortIsRun(c, CopyOne(c, s, i, e')); }
    }
  }

  lemma SkipIsRun(c: Cfg, s: State, i: nat, e: Env, ok: bool)
    requires Reachable(c, s) && !s.aborted && Enabled(c, s, RunJob(i, e.(ok := ok))) && SkipsJob(c, s, i, e)
    ensures Reachable(c, CopyOne(c, s, i, e))
  {
    CopyIsRun(c, s, i, e.(ok := ok));
    assert CopyOne(c, s, i, e.(ok := ok)) == CopyOne(c, s, i, e);
  }

  lemma CopyIsRun(c: Cfg, s: State, i: nat, e: Env)
    requires Reachable(c, s) && !s.aborted && Enabled(c, s, RunJob(i, e))
    ensures var s' := CopyOne(c, s, i, e); Reachable(c, s') && Shaped(c, s') && !s'.aborted
  {
    ReachStep(c, s, RunJob(i, e));
  }

  lemma AbortIsRun(c: Cfg, s: State)
    requires Reachable(c, s) && Shaped(c, s) && !c.dry
    ensures Reachable(c, s.(aborted := true))
  {
    ReachStep(c, s, Abort);
  }

  lemma DropIsRun(c: Cfg, s: State, i: nat, e: Env)
    requires Reachable(c, s) && !c.dry && Enabled(c, s, RunJob(i, e))
    ensures Reachable(c, s.(st := s.st[i := Dropped], aborted := true))
  {
    AbortIsRun(c, s);
    ReachStep(c, s.(aborted := true), RunJob(i, e));
  }

  predicate Linkable(c: Cfg, s: State, i: nat) {
    c.Grouped(i) && c.src[i].ino in s.primary
  }

  predicate AllLinkable(c: Cfg, s: State, list: seq<nat>) {
    forall k :: 0 <= k < |list| ==> Linkable(c, s, list[k])
  }

  function LinkAll(c: Cfg, s: State, list: seq<nat>, es: seq<Env>): (s': State)
    requires Shaped(c, s) && |es| == |list| && AllLinkable(c, s, list)
    ensures Shaped(c, s') && s'.primary == s.primary
  {
    var n := |list| - 1;
    if n < 0 then s else LinkEntry(c, LinkAll(c, s, list[..n], es[..n]), list[n], es[n])
  }
}
