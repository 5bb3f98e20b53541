/** What a run reports and when it removes: the count of failures, what a failure leaves behind, and the run that is
    complete enough for --move. */
module RunTurns {
  import opened Scan
  import opened RunCopy

  // ---- Failures ----

  /** A visit of entry m works on the destination itself: a directory is made, or a link is put where cur is no such
      link. */
  predicate CanFail(m: Node, cur: Node) {
    m.Dir? || (m.Symlink? && !(cur.Symlink? && cur.target == m.target))
  }

  /** The turn's own work did not succeed: a directory that was not made, a link that was not replaced, a copy that
      was not published, a source that was not removed. */
  ghost predicate Fails(c: Cfg, s: State, t: Step)
    requires Enabled(c, s, t)
  {
    match t
    case Visit(e) =>
      !c.dry && !e.ok && CanFail(c.src[s.walked], DstNode(c, s, s.walked))
    case RunJob(i, e) =>
      !s.aborted && !e.ok && !(s.st[i] == Queued(true) && VerdictFor(c, s, i, e.readable).UpToDate?)
    case MakeLink(_, e) => !s.aborted && !e.ok && !c.dry
    case RemoveSource(i, e) => !e.ok || SameEntry(c, s, i)
    case _ => false
  }

  /** The entry whose turn it is. */
  function Turn(s: State, t: Step): nat {
    match t
    case Visit(_) => s.walked
    case RunJob(i, _) => i
    case MakeLink(i, _) => i
    case RemoveSource(i, _) => i
    case _ => 0
  }

  ghost function Failures(c: Cfg, states: seq<State>, steps: seq<Step>, k: nat): nat
    requires Run(c, states, steps) && k <= |steps|
  {
    if k == 0 then 0
    else Failures(c, states, steps, k - 1) + if Fails(c, states[k - 1], steps[k - 1]) then 1 else 0
  }

  lemma TurnCounts(c: Cfg, s: State, t: Step)
    requires Enabled(c, s, t)
    ensures Apply(c, s, t).failed == s.failed + if Fails(c, s, t) then 1 else 0
  {
    match t
    case Visit(e) => VisitCounts(c, s, e);
    case RunJob(i, e) => JobCounts(c, s, i, e);
    case _ =>
  }

  function EntryFails(c: Cfg, s: State, i: nat, e: Env): nat
    requires i < |c.src| && i < |s.src| == |s.dst|
  {
    if !c.dry && !e.ok && CanFail(c.src[i], DstNode(c, s, i)) then 1 else 0
  }

  predicate More(s: State, s': State, n: nat) {
    s'.failed == s.failed + n
  }

  lemma VisitCounts(c: Cfg, s: State, e: Env)
    requires Shaped(c, s) && s.walked < |c.src|
    ensures More(s, VisitEntry(c, s, e), EntryFails(c, s, s.walked, e))
  {
    var s' := s.(walked := s.walked + 1);
    assert EntryFails(c, s', s.walked, e) == EntryFails(c, s, s.walked, e);
    var d := HandleEntry(c, s', s.walked, e);
    assert More(s', d, EntryFails(c, s, s.walked, e)) by { EntryCounts(c, s', s.walked, e); }
    assert VisitEntry(c, s, e) == d;
  }

  lemma EntryCounts(c: Cfg, s: State, i: nat, e: Env)
    requires Shaped(c, s) && i < |c.src|
    ensures More(s, HandleEntry(c, s, i, e), EntryFails(c, s, i, e))
  {
    match c.src[i]
    case Dir => DirBook(c, s, i, e);
    case Symlink(_, target) =>
      SymlinkBook(c, s, i, target, e);
      LinkCounts(c, s, i, target, e);
    case _ => FileBook(c, s, i, e);
  }

  lemma LinkCounts(c: Cfg, s: State, i: nat, target: nat, e: Env)
    requires i < |s.st| == |s.src| == |s.dst|
    ensures var cur := DstNode(c, s, i);
            var fails := !c.dry && !e.ok && !(cur.Symlink? && cur.target == target);
            RecreateSymlink(c, s, i, target, e).failed == s.failed + if fails then 1 else 0
  {
  }

  lemma JobCounts(c: Cfg, s: State, i: nat, e: Env)
    requires Enabled(c, s, RunJob(i, e))
    ensures Apply(c, s, RunJob(i, e)).failed == s.failed + if Fails(c, s, RunJob(i, e)) then 1 else 0
  {
  }

  /** The failures a run reports are exactly the turns that failed. */
  lemma {:induction false} FailuresAreCounted(c: Cfg, states: seq<State>, steps: seq<Step>, k: nat)
    requires Run(c, states, steps) && k <= |steps|
    ensures states[k].failed == Failures(c, states, steps, k)
  {
    if k > 0 {
      FailuresAreCounted(c, states, steps, k - 1);
      TurnCounts(c, states[k - 1], steps[k - 1]);
    }
  }

  /** A failure changes no file and no count, and no entry but its own: the old destination is as it was, or gone
      where replacing it got so far; the source is as it was. */
  lemma FailureLeaves(c: Cfg, s: State, t: Step)
    requires Enabled(c, s, t) && Fails(c, s, t)
    ensures var s', i := Apply(c, s, t), Turn(s, t);
            && i < |s.src| && s'.counts == s.counts && s'.inodes == s.inodes && s'.aborted == s.aborted
            && s'.st == (if t.RemoveSource? then s.st else s.st[i := Dropped])
            && (var gone := (t.MakeLink? || (t.Visit? && c.src[i].Symlink?)) && t.e.removed;
                if gone then
                  DstNode(c, s', i) == Missing && (i in c.alias || s'.src == s.src)
                  && forall j :: 0 <= j < |s.src| && j != i ==> s'.src[j] == s.src[j] && s'.dst[j] == s.dst[j]
                else s'.src == s.src && s'.dst == s.dst)
  {
    match t
    case Visit(e) => VisitFailureLeaves(c, s, e);
    case _ =>
  }

  lemma VisitFailureLeaves(c: Cfg, s: State, e: Env)
    requires Enabled(c, s, Visit(e)) && Fails(c, s, Visit(e))
    ensures var s', i := Apply(c, s, Visit(e)), s.walked;
            && s'.counts == s.counts && s'.inodes == s.inodes && s'.aborted == s.aborted
            && s'.st == s.st[i := Dropped]
            && (if c.src[i].Symlink? && e.removed then
                  DstNode(c, s', i) == Missing && (i in c.alias || s'.src == s.src)
                  && forall j :: 0 <= j < |s.src| && j != i ==> s'.src[j] == s.src[j] && s'.dst[j] == s.dst[j]
                else s'.src == s.src && s'.dst == s.dst)
  {
  }

  // ---- The run that --move needs ----

  /** One of the first k steps broke the walk off. */
  predicate Stopped(steps: seq<Step>, k: int)
    requires k <= |steps|
  {
    exists j :: 0 <= j < k && steps[j] == StopWalk
  }

  /** The walk came to its end, nothing aborted the run before its links were made, and none of the first k steps
      broke it off. */
  ghost predicate Complete(c: Cfg, states: seq<State>, steps: seq<Step>, k: nat)
    requires Run(c, states, steps) && k <= |steps|
  {
    exists m :: 0 <= m < k && steps[m] == EndLinks(false) && !states[m].aborted && !Stopped(steps, m)
  }

  lemma {:induction false} StoppedIsTold(c: Cfg, states: seq<State>, steps: seq<Step>, k: nat)
    requires Run(c, states, steps) && k <= |steps|
    ensures states[k].stopped <==> Stopped(steps, k)
  {
    if k > 0 {
      StoppedIsTold(c, states, steps, k - 1);
      BookStep(c, states[k - 1], steps[k - 1]);
    }
  }

  /** The marks of the run itself are as they were. */
  predicate SameMarks(s: State, s': State) {
    s'.stopped == s.stopped && s'.aborted == s.aborted && s'.finished == s.finished && s'.phase == s.phase
  }

  /** How a step moves the run's own marks. */
  lemma BookStep(c: Cfg, s: State, t: Step)
    requires Enabled(c, s, t)
    ensures var s' := Apply(c, s, t);
            && (s'.stopped <==> s.stopped || t == StopWalk)
            && s'.finished == (if t.EndLinks? then t == EndLinks(false) && !s.aborted && !s.stopped else s.finished)
            && (s'.phase.Removing? <==> s.phase.Removing? || t.EndLinks?)
  {
    if t.Visit? {
      VisitBook(c, s, t.e);
    } else if t.RunJob? && !s.aborted {
      JobBook(c, s, t.i, t.e);
    }
  }

  lemma VisitBook(c: Cfg, s: State, e: Env)
    requires Shaped(c, s) && s.walked < |c.src|
    ensures SameMarks(s, VisitEntry(c, s, e))
  {
    var s' := s.(walked := s.walked + 1);
    var d := HandleEntry(c, s', s.walked, e);
    assert SameMarks(s', d) by { EntryBook(c, s', s.walked, e); }
    assert VisitEntry(c, s, e) == d;
  }

  lemma EntryBook(c: Cfg, s: State, i: nat, e: Env)
    requires Shaped(c, s) && i < |c.src|
    ensures SameMarks(s, HandleEntry(c, s, i, e))
  {
    match c.src[i]
    case Dir => DirBook(c, s, i, e);
    case Symlink(_, target) => SymlinkBook(c, s, i, target, e);
    case _ => FileBook(c, s, i, e);
  }

  lemma DirBook(c: Cfg, s: State, i: nat, e: Env)
    requires Shaped(c, s) && i < |c.src| && c.src[i].Dir?
    ensures var s' := HandleEntry(c, s, i, e);
            SameMarks(s, s') && s'.failed == s.failed + if e.ok || c.dry then 0 else 1
  {
  }

  lemma SymlinkBook(c: Cfg, s: State, i: nat, target: nat, e: Env)
    requires Shaped(c, s) && i < |c.src| && c.src[i].Symlink? && target == c.src[i].target
    ensures SameMarks(s, HandleEntry(c, s, i, e))
    ensures HandleEntry(c, s, i, e) == RecreateSymlink(c, s, i, target, e)
  {
    LinkBook(c, s, i, target, e);
  }

  lemma FileBook(c: Cfg, s: State, i: nat, e: Env)
    requires Shaped(c, s) && i < |c.src| && !c.src[i].Dir? && !c.src[i].Symlink?
    ensures SameMarks(s, HandleEntry(c, s, i, e)) && HandleEntry(c, s, i, e).failed == s.failed
  {
    RegularBook(c, s, i, e);
  }

  lemma LinkBook(c: Cfg, s: State, i: nat, target: nat, e: Env)
    requires i < |s.st| == |s.src| == |s.dst|
    ensures SameMarks(s, RecreateSymlink(c, s, i, target, e))
  {
  }

  lemma UnchangedBook(c: Cfg, s: State, i: nat, v: Verdict, e: Env)
    requires i < |s.st| == |s.src| == |s.dst|
    ensures SameMarks(s, FinishUnchanged(c, s, i, v, e)) && FinishUnchanged(c, s, i, v, e).failed == s.failed
  {
  }

  lemma EnqueueBook(c: Cfg, s: State, i: nat, check: bool)
    requires c.Valid() && i < |s.st| && i < |c.src| && c.src[i].File?
    ensures SameMarks(s, Enqueue(c, s, i, check)) && Enqueue(c, s, i, check).failed == s.failed
  {
  }

  lemma RegularBook(c: Cfg, s: State, i: nat, e: Env)
    requires Shaped(c, s) && i < |c.src| && c.src[i].File?
    ensures SameMarks(s, HandleRegular(c, s, i, e)) && HandleRegular(c, s, i, e).failed == s.failed
  {
    UnchangedBook(c, s, i, VerdictFor(c, s, i, e.readable), e);
    EnqueueBook(c, s, i, false);
    EnqueueBook(c, s, i, true);
    if c.Grouped(i) { MultiBook(c, s, i, e); }
  }

  lemma MultiBook(c: Cfg, s: State, i: nat, e: Env)
    requires Shaped(c, s) && i < |c.src| && c.src[i].File?
    ensures SameMarks(s, HandleMultiLink(c, s, i, e)) && HandleMultiLink(c, s, i, e).failed == s.failed
  {
    if c.src[i].ino !in s.primary {
      if VerdictFor(c, s, i, e.readable).UpToDate? { AdoptBook(c, s, i, e); } else { PrimaryBook(c, s, i, e); }
    }
  }

  lemma AdoptBook(c: Cfg, s: State, i: nat, e: Env)
    requires Shaped(c, s) && i < |c.src| && c.src[i].File? && c.src[i].ino !in s.primary
    requires VerdictFor(c, s, i, e.readable).UpToDate?
    ensures SameMarks(s, HandleMultiLink(c, s, i, e)) && HandleMultiLink(c, s, i, e).failed == s.failed
  {
    var d := FinishUnchanged(c, s, i, VerdictFor(c, s, i, e.readable), e);
    assert SameMarks(s, d) && d.failed == s.failed by {
      UnchangedBook(c, s, i, VerdictFor(c, s, i, e.readable), e);
    }
    assert HandleMultiLink(c, s, i, e) == d.(primary := s.primary[c.src[i].ino := Primary(i, true)]);
  }

  lemma PrimaryBook(c: Cfg, s: State, i: nat, e: Env)
    requires Shaped(c, s) && i < |c.src| && c.src[i].File? && c.src[i].ino !in s.primary
    requires !VerdictFor(c, s, i, e.readable).UpToDate?
    ensures SameMarks(s, HandleMultiLink(c, s, i, e)) && HandleMultiLink(c, s, i, e).failed == s.failed
  {
    var d := Enqueue(c, s, i, false);
    assert SameMarks(s, d) && d.failed == s.failed by { EnqueueBook(c, s, i, false); }
    assert HandleMultiLink(c, s, i, e) == d.(primary := s.primary[c.src[i].ino := Primary(i, false)]);
  }

  lemma JobBook(c: Cfg, s: State, i: nat, e: Env)
    requires Shaped(c, s) && i < |c.src| && c.src[i].File? && s.st[i].Queued?
    ensures SameMarks(s, CopyOne(c, s, i, e))
  {
    if SkipsJob(c, s, i, e) {
      UnchangedBook(c, s, i, VerdictFor(c, s, i, e.readable), e);
    } else {
      TransferBook(c, s, i, e);
    }
  }

  lemma TransferBook(c: Cfg, s: State, i: nat, e: Env)
    requires Shaped(c, s) && i < |c.src| && c.src[i].File?
    ensures SameMarks(s, Transfer(c, s, i, e))
  {
  }

  lemma {:induction false} FinishedIsComplete(c: Cfg, states: seq<State>, steps: seq<Step>, k: nat)
    requires Run(c, states, steps) && k <= |steps|
    ensures states[k].phase.Removing? || !states[k].finished
    ensures states[k].finished <==> Complete(c, states, steps, k)
  {
    if k > 0 {
      FinishedIsComplete(c, states, steps, k - 1);
      StoppedIsTold(c, states, steps, k - 1);
      BookStep(c, states[k - 1], steps[k - 1]);
      CompleteGrows(c, states, steps, k);
    }
  }

  lemma CompleteGrows(c: Cfg, states: seq<State>, steps: seq<Step>, k: nat)
    requires Run(c, states, steps) && 0 < k <= |steps|
    ensures Complete(c, states, steps, k) <==>
              || Complete(c, states, steps, k - 1)
              || (steps[k - 1] == EndLinks(false) && !states[k - 1].aborted && !Stopped(steps, k - 1))
  {
  }

  /** A source is removed only after a complete run, and in a complete run of --move each moved source may go, as
      long as it is there. */
  lemma RemovesExactlyWhenComplete(c: Cfg, states: seq<State>, steps: seq<Step>, k: nat, i: nat, e: Env)
    requires Run(c, states, steps) && k <= |steps|
    ensures Enabled(c, states[k], RemoveSource(i, e)) <==>
              && c.move && !c.dry && Complete(c, states, steps, k)
              && Shaped(c, states[k]) && i < |c.src| && !states[k].src[i].Missing?
              && exists how :: states[k].st[i] == Finished(how) && how != Listed
  {
    FinishedIsComplete(c, states, steps, k);
    if Shaped(c, states[k]) && i < |c.src| && states[k].st[i].Finished? {
      assert states[k].st[i] == Finished(states[k].st[i].how);
    }
  }
}
