/** A dry run tells what a real one will do: the fate of every entry follows from the two trees alone. */
module RunCounts {
  import opened Scan
  import opened RunCopy

  // ---- The fate of an entry ----

  /** The earliest entry with the source inode of entry i. */
  function First(c: Cfg, i: nat, from: nat := 0): (h: nat)
    requires from <= i < |c.src|
    requires forall k :: 0 <= k < from ==> c.src[k] != c.src[i]
    ensures from <= h <= i && c.src[h] == c.src[i] && forall k :: 0 <= k < h ==> c.src[k] != c.src[i]
    decreases i - from
  {
    if c.src[from] == c.src[i] then from else First(c, i, from + 1)
  }

  /** Entry i is compared with its destination: it is no later name of an earlier entry's inode. */
  predicate Judged(c: Cfg, i: nat)
    requires i < |c.src|
  {
    c.src[i].File? && (c.Grouped(i) ==> First(c, i) == i)
  }

  function FirstVerdict(c: Cfg, i: nat): Verdict
    requires c.Valid() && i < |c.src| && c.src[i].File?
  {
    Compare(c.SrcBody(i), ThereIs(InitNode(c, i), c.inodes), c.checksum, true)
  }

  function OwnFate(c: Cfg, i: nat): How
    requires c.Valid() && i < |c.src| && c.src[i].File?
  {
    var v := FirstVerdict(c, i);
    if v.NeedCopy? then Copied else if c.preserve && v.Drift() then Updated else Skipped
  }

  /** What becomes of entry i in a run without failures, told from the trees before the run. */
  function Fate(c: Cfg, i: nat): How
    requires c.Valid() && i < |c.src|
  {
    match c.src[i]
    case Dir => Listed
    case Symlink(_, target) =>
      if InitNode(c, i).Symlink? && InitNode(c, i).target == target then Skipped else Symlinked
    case File(_) =>
      if Judged(c, i) then OwnFate(c, i)
      else
        var h := First(c, i);
        if FirstVerdict(c, h).UpToDate? && c.sameFile && InitNode(c, h).File?
          && InitNode(c, i) == InitNode(c, h) then Skipped
        else Linked
  }

  /** Two entries lead to one file at the destination only as names of one multiply-linked source. */
  ghost predicate Unaliased(c: Cfg)
    requires c.Valid()
  {
    && c.alias == {}
    && forall i, j :: 0 <= i < j < |c.src| && c.dst[i].File? && c.dst[i] == c.dst[j] ==>
      c.Grouped(i) && c.src[i] == c.src[j]
  }

  // ---- Every clean run ----

  /** The destination of entry i is as it was, and if it is still to be compared so is the file there. */
  ghost predicate AsBefore(c: Cfg, s: State, i: nat)
    requires Shaped(c, s) && i < |c.src|
  {
    && s.dst[i] == c.dst[i]
    && (c.dst[i].File? && Judged(c, i) ==> c.dst[i].ino in s.inodes && s.inodes[c.dst[i].ino] == c.inodes[c.dst[i].ino])
  }

  ghost predicate FateOk(c: Cfg, s: State, i: nat)
    requires Shaped(c, s) && i < |c.src|
  {
    && (i < s.walked <==> !s.st[i].Unseen?)
    && match s.st[i]
       case Unseen => AsBefore(c, s, i)
       case Queued(check) => AsBefore(c, s, i) && Judged(c, i)
         && (if check then !c.Grouped(i) else OwnFate(c, i).Copied?)
       case Deferred => Fate(c, i).Linked? && AsBefore(c, s, i)
       case Finished(how) => how == Fate(c, i)
       case Dropped => false
  }

  ghost predicate PrimaryOk(c: Cfg, s: State, ino: nat)
    requires Shaped(c, s) && ino in s.primary
  {
    var h := s.primary[ino].i;
    && h < s.walked && c.src[h] == File(ino) && ino in c.multi && Judged(c, h)
    && s.primary[ino].adopted == FirstVerdict(c, h).UpToDate?
    && (s.primary[ino].adopted ==> s.dst[h] == c.dst[h] && s.st[h].Finished?)
  }

  ghost predicate Inv(c: Cfg, s: State) {
    && Shaped(c, s) && c.alias == {} && Unaliased(c)
    && (forall k :: k in c.inodes ==> k in s.inodes)
    && (forall i :: 0 <= i < |c.src| ==> FateOk(c, s, i))
    && (forall ino :: ino in s.primary ==> PrimaryOk(c, s, ino))
    && (forall i :: 0 <= i < s.walked && c.Grouped(i) ==> c.src[i].ino in s.primary)
    && (!s.phase.Walking? ==> s.walked == |s.src|)
    && (s.phase.Linking? || s.phase.Removing? ==> forall i :: 0 <= i < |s.st| ==> !s.st[i].Queued?)
    && (s.phase.Removing? ==> forall i :: 0 <= i < |s.st| ==> !s.st[i].Deferred?)
  }

  /** No failure, no interruption, no removal of sources. */
  predicate CleanStep(t: Step) {
    match t
    case Visit(e) => e.readable && e.ok
    case RunJob(_, e) => e.readable && e.ok
    case MakeLink(_, e) => e.ok
    case StopWalk => false
    case Abort => false
    case RemoveSource(_, _) => false
    case EndLinks(canceled) => !canceled
    case _ => true
  }

  // ---- One entry's turn ----

  /** Entry i's turn, from s to s': others see nothing of it but the file it may have synced. */
  ghost predicate Turn(c: Cfg, s: State, s': State, i: nat)
    requires Shaped(c, s) && i < |c.src|
  {
    && Shaped(c, s') && s'.src == s.src && s'.dst == s.dst[i := s'.dst[i]] && s'.st == s.st[i := s'.st[i]]
      && s'.phase == s.phase
    && !s.st[i].Finished?
    && (forall k :: k in s.inodes ==>
          k in s'.inodes && (s'.inodes[k] == s.inodes[k]
            || (Judged(c, i) && s.st[i] != Deferred && c.dst[i] == File(k))))
    && (if i < s.walked then s'.walked == s.walked && s'.primary == s.primary
        else s.phase.Walking? && i == s.walked && s'.walked == i + 1 && GroupKnown(c, s, s', i))
    && (s'.st[i].Queued? || s'.st[i].Deferred? ==> s.phase.Walking?)
  }

  /** A new name's inode has its primary, this name if it is the first. */
  ghost predicate GroupKnown(c: Cfg, s: State, s': State, i: nat)
    requires Shaped(c, s) && Shaped(c, s') && i < |c.src|
  {
    if c.Grouped(i) && c.src[i].ino !in s.primary then
      c.src[i].ino in s'.primary && s'.primary == s.primary[c.src[i].ino := s'.primary[c.src[i].ino]]
        && PrimaryOk(c, s', c.src[i].ino)
    else s'.primary == s.primary
  }

  lemma OthersKeep(c: Cfg, s: State, s': State, i: nat, j: nat)
    requires Inv(c, s) && i < |c.src| && j < |c.src| && i != j && Turn(c, s, s', i)
    ensures FateOk(c, s', j)
  {
    assert FateOk(c, s, j) && FateOk(c, s, i);
    assert s'.dst[j] == s.dst[j] && s'.st[j] == s.st[j];
    if Judged(c, i) && Judged(c, j) && c.dst[i].File? && c.dst[j] == c.dst[i] { OneJudged(c, i, j); }
  }

  /** Of the names of one inode the first alone is judged. */
  lemma OneJudged(c: Cfg, i: nat, j: nat)
    requires i < |c.src| && j < |c.src| && c.src[i] == c.src[j] && c.Grouped(i) && Judged(c, i) && Judged(c, j)
    ensures i == j
  {
  }

  lemma PrimariesKeep(c: Cfg, s: State, s': State, i: nat)
    requires Inv(c, s) && i < |c.src| && Turn(c, s, s', i)
    ensures forall ino :: ino in s'.primary ==> PrimaryOk(c, s', ino)
    ensures forall k :: 0 <= k < s'.walked && c.Grouped(k) ==> c.src[k].ino in s'.primary
  {
    forall ino | ino in s'.primary ensures PrimaryOk(c, s', ino) {
      if ino in s.primary { PrimaryKeeps(c, s, s', i, ino); }
    }
    GroupsKeep(c, s, s', i);
  }

  lemma PrimaryKeeps(c: Cfg, s: State, s': State, i: nat, ino: nat)
    requires Shaped(c, s) && i < |c.src| && Turn(c, s, s', i) && ino in s.primary && PrimaryOk(c, s, ino)
    ensures ino in s'.primary && PrimaryOk(c, s', ino)
  {
  }

  lemma GroupsKeep(c: Cfg, s: State, s': State, i: nat)
    requires Shaped(c, s) && i < |c.src| && Turn(c, s, s', i)
    requires forall k :: 0 <= k < s.walked && c.Grouped(k) ==> c.src[k].ino in s.primary
    ensures forall k :: 0 <= k < s'.walked && c.Grouped(k) ==> c.src[k].ino in s'.primary
  {
  }

  lemma TurnKeeps(c: Cfg, s: State, s': State, i: nat)
    requires Inv(c, s) && i < |c.src| && Turn(c, s, s', i) && FateOk(c, s', i)
    ensures Inv(c, s')
  {
    PrimariesKeep(c, s, s', i);
    forall j | 0 <= j < |c.src| ensures FateOk(c, s', j) {
      if j != i { OthersKeep(c, s, s', i, j); }
    }
  }

  lemma VerdictIsFirst(c: Cfg, s: State, i: nat)
    requires Shaped(c, s) && c.alias == {} && i < |c.src| && Judged(c, i) && AsBefore(c, s, i)
    ensures VerdictFor(c, s, i, true) == FirstVerdict(c, i)
  {
    assert c.KnownNode(c.dst[i]);
  }

  lemma VisitDir(c: Cfg, s: State, e: Env)
    requires Inv(c, s) && Enabled(c, s, Visit(e)) && CleanStep(Visit(e)) && c.src[s.walked].Dir?
    ensures var s' := Apply(c, s, Visit(e)); Turn(c, s, s', s.walked) && FateOk(c, s', s.walked)
  {
    assert FateOk(c, s, s.walked);
  }

  lemma VisitLink(c: Cfg, s: State, e: Env)
    requires Inv(c, s) && Enabled(c, s, Visit(e)) && CleanStep(Visit(e)) && c.src[s.walked].Symlink?
    ensures var s' := Apply(c, s, Visit(e)); Turn(c, s, s', s.walked) && FateOk(c, s', s.walked)
  {
    var i, s1 := s.walked, s.(walked := s.walked + 1);
    assert FateOk(c, s, i);
    Recreated(c, s1, i, c.src[i].target, e);
    LinkTurn(c, s, Apply(c, s, Visit(e)));
  }

  /** A symlink that is there, or will be. */
  ghost predicate LinkSettled(c: Cfg, s: State, s': State, i: nat)
    requires Shaped(c, s) && i < |c.src|
  {
    && Shaped(c, s') && s'.src == s.src && s'.inodes == s.inodes && s'.primary == s.primary && s'.phase == s.phase
    && s'.walked == s.walked && s'.st == s.st[i := Finished(Fate(c, i))] && s'.dst == s.dst[i := s'.dst[i]]
  }

  lemma Recreated(c: Cfg, s: State, i: nat, target: nat, e: Env)
    requires Shaped(c, s) && c.alias == {} && i < |c.src| && e.ok
    requires c.src[i].Symlink? && c.src[i].target == target && s.dst[i] == c.dst[i]
    ensures LinkSettled(c, s, RecreateSymlink(c, s, i, target, e), i)
  {
  }

  lemma LinkTurn(c: Cfg, s: State, s': State)
    requires Inv(c, s) && s.phase.Walking? && s.walked < |c.src| && c.src[s.walked].Symlink? && s.st[s.walked].Unseen?
    requires LinkSettled(c, s.(walked := s.walked + 1), s', s.walked)
    ensures Turn(c, s, s', s.walked) && FateOk(c, s', s.walked)
  {
  }

  lemma VisitMember(c: Cfg, s: State, e: Env)
    requires Inv(c, s) && Enabled(c, s, Visit(e)) && CleanStep(Visit(e)) && c.Grouped(s.walked)
    requires c.src[s.walked].ino in s.primary
    ensures var s' := Apply(c, s, Visit(e)); Turn(c, s, s', s.walked) && FateOk(c, s', s.walked)
  {
    var i, s' := s.walked, Apply(c, s, Visit(e));
    assert FateOk(c, s, i) && PrimaryOk(c, s, c.src[i].ino);
    assert First(c, i) == s.primary[c.src[i].ino].i;
    assert s'.inodes == s.inodes && s'.primary == s.primary && s'.dst == s.dst;
  }

  lemma VisitJudged(c: Cfg, s: State, e: Env)
    requires Inv(c, s) && Enabled(c, s, Visit(e)) && CleanStep(Visit(e)) && c.src[s.walked].File?
    requires c.Grouped(s.walked) ==> c.src[s.walked].ino !in s.primary
    ensures var s' := Apply(c, s, Visit(e)); Turn(c, s, s', s.walked) && FateOk(c, s', s.walked)
  {
    var i, s' := s.walked, Apply(c, s, Visit(e));
    assert FateOk(c, s, i) && Judged(c, i);
    var s1 := s.(walked := i + 1);
    assert AsBefore(c, s1, i);
    VerdictIsFirst(c, s1, i);
    if (c.Grouped(i) || c.dry) && FirstVerdict(c, i).UpToDate? {
      KeepVisited(c, s, e);
    } else {
      QueueVisited(c, s, e);
    }
  }

  lemma QueueVisited(c: Cfg, s: State, e: Env)
    requires Inv(c, s) && Enabled(c, s, Visit(e)) && CleanStep(Visit(e)) && Judged(c, s.walked)
    requires AsBefore(c, s, s.walked)
    requires c.Grouped(s.walked) ==> c.src[s.walked].ino !in s.primary
    requires VerdictFor(c, s.(walked := s.walked + 1), s.walked, true) == FirstVerdict(c, s.walked)
    requires !((c.Grouped(s.walked) || c.dry) && FirstVerdict(c, s.walked).UpToDate?) && s.st[s.walked].Unseen?
    ensures var s' := Apply(c, s, Visit(e)); Turn(c, s, s', s.walked) && FateOk(c, s', s.walked)
  {
    var i, s' := s.walked, Apply(c, s, Visit(e));
    assert s'.inodes == s.inodes && s'.dst == s.dst;
    assert s'.st == s.st[i := if c.dry then Finished(Copied) else Queued(!c.Grouped(i))];
  }

  /** Entry i was found up to date: at most its file's attributes changed. */
  ghost predicate Kept(c: Cfg, s: State, f: State, i: nat)
    requires Shaped(c, s) && i < |c.src| && c.src[i].File?
  {
    && f.src == s.src && f.dst == s.dst && f.st == s.st[i := Finished(OwnFate(c, i))] && f.phase == s.phase
    && f.primary == s.primary
    && forall k :: k in s.inodes ==> k in f.inodes && (f.inodes[k] == s.inodes[k] || s.dst[i] == File(k))
  }

  lemma UnchangedIsKept(c: Cfg, s: State, i: nat, e: Env)
    requires Shaped(c, s) && c.alias == {} && i < |c.src| && c.src[i].File? && FirstVerdict(c, i).UpToDate?
    ensures Kept(c, s, FinishUnchanged(c, s, i, FirstVerdict(c, i), e), i)
    ensures FinishUnchanged(c, s, i, FirstVerdict(c, i), e).walked == s.walked
  {
  }

  lemma KeptVisit(c: Cfg, s: State, f: State, s': State, i: nat)
    requires Inv(c, s) && s.phase.Walking? && i == s.walked && i < |c.src| && Judged(c, i) && AsBefore(c, s, i)
    requires s.st[i].Unseen?
    requires c.Grouped(i) ==> c.src[i].ino !in s.primary
    requires Kept(c, s, f, i) && f.walked == i + 1 && FirstVerdict(c, i).UpToDate?
    requires s' == if c.Grouped(i) then f.(primary := s.primary[c.src[i].ino := Primary(i, true)]) else f
    ensures Turn(c, s, s', i) && FateOk(c, s', i)
  {
    assert Fate(c, i) == OwnFate(c, i);
  }

  lemma KeepVisited(c: Cfg, s: State, e: Env)
    requires Inv(c, s) && Enabled(c, s, Visit(e)) && CleanStep(Visit(e)) && Judged(c, s.walked)
    requires AsBefore(c, s, s.walked)
    requires c.Grouped(s.walked) ==> c.src[s.walked].ino !in s.primary
    requires VerdictFor(c, s.(walked := s.walked + 1), s.walked, true) == FirstVerdict(c, s.walked)
    requires (c.Grouped(s.walked) || c.dry) && FirstVerdict(c, s.walked).UpToDate? && s.st[s.walked].Unseen?
    ensures var s' := Apply(c, s, Visit(e)); Turn(c, s, s', s.walked) && FateOk(c, s', s.walked)
  {
    var i, s1 := s.walked, s.(walked := s.walked + 1);
    var f := FinishUnchanged(c, s1, i, FirstVerdict(c, i), e);
    UnchangedIsKept(c, s1, i, e);
    VisitFinishes(c, s, e, f);
    KeptVisit(c, s, f, Apply(c, s, Visit(e)), i);
  }

  lemma VisitFinishes(c: Cfg, s: State, e: Env, f: State)
    requires Enabled(c, s, Visit(e)) && e.readable && Judged(c, s.walked)
    requires c.Grouped(s.walked) ==> c.src[s.walked].ino !in s.primary
    requires VerdictFor(c, s.(walked := s.walked + 1), s.walked, true) == FirstVerdict(c, s.walked)
    requires (c.Grouped(s.walked) || c.dry) && FirstVerdict(c, s.walked).UpToDate?
    requires f == FinishUnchanged(c, s.(walked := s.walked + 1), s.walked, FirstVerdict(c, s.walked), e)
    ensures Apply(c, s, Visit(e)) ==
            if c.Grouped(s.walked) then f.(primary := s.primary[c.src[s.walked].ino := Primary(s.walked, true)]) else f
  {
  }

  lemma JobTurns(c: Cfg, s: State, i: nat, e: Env)
    requires Inv(c, s) && !s.aborted && Enabled(c, s, RunJob(i, e)) && CleanStep(RunJob(i, e))
    ensures var s' := Apply(c, s, RunJob(i, e)); Turn(c, s, s', i) && FateOk(c, s', i)
  {
    assert FateOk(c, s, i);
    VerdictIsFirst(c, s, i);
    if SkipsJob(c, s, i, e) { RunSkips(c, s, i, e); } else { RunCopies(c, s, i, e); }
  }

  lemma RunSkips(c: Cfg, s: State, i: nat, e: Env)
    requires Shaped(c, s) && !s.aborted && Enabled(c, s, RunJob(i, e)) && CleanStep(RunJob(i, e)) && c.alias == {}
    requires FateOk(c, s, i) && VerdictFor(c, s, i, true) == FirstVerdict(c, i) && SkipsJob(c, s, i, e)
    ensures var s' := Apply(c, s, RunJob(i, e)); Turn(c, s, s', i) && FateOk(c, s', i)
  {
    var s' := Apply(c, s, RunJob(i, e));
    assert s'.dst == s.dst && s'.st == s.st[i := Finished(OwnFate(c, i))] && s'.primary == s.primary;
  }

  lemma RunCopies(c: Cfg, s: State, i: nat, e: Env)
    requires Shaped(c, s) && !s.aborted && Enabled(c, s, RunJob(i, e)) && CleanStep(RunJob(i, e)) && c.alias == {}
    requires FateOk(c, s, i) && VerdictFor(c, s, i, true) == FirstVerdict(c, i) && !SkipsJob(c, s, i, e)
    ensures var s' := Apply(c, s, RunJob(i, e)); Turn(c, s, s', i) && FateOk(c, s', i)
  {
    var s' := Apply(c, s, RunJob(i, e));
    assert s'.st == s.st[i := Finished(Copied)] && s'.inodes == s.inodes[e.newIno := e.body] && s'.primary == s.primary;
    assert s'.dst == s.dst[i := File(e.newIno)];
  }

  lemma LinkTurns(c: Cfg, s: State, i: nat, e: Env)
    requires Inv(c, s) && !s.aborted && Enabled(c, s, MakeLink(i, e)) && CleanStep(MakeLink(i, e))
    ensures var s' := Apply(c, s, MakeLink(i, e)); Turn(c, s, s', i) && FateOk(c, s', i)
  {
    var s' := Apply(c, s, MakeLink(i, e));
    assert FateOk(c, s, i);
    assert s'.st == s.st[i := Finished(Linked)] && s'.inodes == s.inodes && s'.primary == s.primary;
  }

  lemma PhaseClean(c: Cfg, s: State, t: Step)
    requires Inv(c, s) && !s.aborted && Enabled(c, s, t) && (t.EndWalk? || t.EndJobs? || t.EndLinks?)
    ensures Inv(c, Apply(c, s, t))
  {
    var s' := Apply(c, s, t);
    forall i | 0 <= i < |c.src| ensures FateOk(c, s', i) { assert FateOk(c, s, i); }
    forall ino | ino in s'.primary ensures PrimaryOk(c, s', ino) { assert PrimaryOk(c, s, ino); }
  }

  lemma VisitTurns(c: Cfg, s: State, e: Env)
    requires Inv(c, s) && Enabled(c, s, Visit(e)) && CleanStep(Visit(e))
    ensures var s' := Apply(c, s, Visit(e)); Turn(c, s, s', s.walked) && FateOk(c, s', s.walked)
  {
    var i := s.walked;
    if c.src[i].Dir? {
      VisitDir(c, s, e);
    } else if c.src[i].Symlink? {
      VisitLink(c, s, e);
    } else if c.Grouped(i) && c.src[i].ino in s.primary {
      VisitMember(c, s, e);
    } else {
      VisitJudged(c, s, e);
    }
  }

  lemma StepClean(c: Cfg, s: State, t: Step)
    requires Inv(c, s) && !s.aborted && Enabled(c, s, t) && CleanStep(t)
    ensures Inv(c, Apply(c, s, t))
  {
    match t
    case Visit(e) =>
      VisitTurns(c, s, e);
      TurnKeeps(c, s, Apply(c, s, t), s.walked);
    case RunJob(i, e) =>
      JobTurns(c, s, i, e);
      TurnKeeps(c, s, Apply(c, s, t), i);
    case MakeLink(i, e) =>
      LinkTurns(c, s, i, e);
      TurnKeeps(c, s, Apply(c, s, t), i);
    case _ => PhaseClean(c, s, t);
  }

  // ---- Counting ----

  function Plus(a: Counts, b: Counts): Counts {
    Counts(a.files + b.files, a.bytes + b.bytes, a.dirs + b.dirs, a.symlinks + b.symlinks, a.linked + b.linked,
           a.skipped + b.skipped, a.updated + b.updated, a.totalFiles + b.totalFiles, a.totalBytes + b.totalBytes)
  }

  /** What an entry with this status has added to the counts. */
  function Gave(c: Cfg, i: nat, st: Status): Counts
    requires c.Valid() && i < |c.src|
  {
    var size := if c.src[i].File? then |c.SrcBody(i).data| else 0;
    var none := NoCounts();
    match st
    case Queued(_) => none.(totalFiles := 1, totalBytes := size)
    case Finished(how) =>
      (match how
       case Copied => none.(files := 1, bytes := size, totalFiles := 1, totalBytes := size)
       case Skipped => none.(skipped := 1)
       case Updated => none.(updated := 1)
       case Linked => none.(linked := 1)
       case Symlinked => none.(symlinks := 1)
       case Listed => none.(dirs := 1))
    case _ => none
  }

  /** What the first n entries have added. */
  function Total(c: Cfg, st: seq<Status>, n: nat): Counts
    requires c.Valid() && n <= |st| <= |c.src|
  {
    if n == 0 then NoCounts() else Plus(Total(c, st, n - 1), Gave(c, n - 1, st[n - 1]))
  }

  lemma {:induction false} TotalSet(c: Cfg, st: seq<Status>, n: nat, i: nat, x: Status)
    requires c.Valid() && n <= |st| <= |c.src| && i < |st|
    ensures if i < n then Plus(Total(c, st[i := x], n), Gave(c, i, st[i])) == Plus(Total(c, st, n), Gave(c, i, x))
            else Total(c, st[i := x], n) == Total(c, st, n)
  {
    if n > 0 {
      TotalSet(c, st, n - 1, i, x);
      var t, t', g := Total(c, st, n - 1), Total(c, st[i := x], n - 1), Gave(c, n - 1, st[n - 1]);
      assert Total(c, st, n) == Plus(t, g);
      if i == n - 1 {
        assert Total(c, st[i := x], n) == Plus(t', Gave(c, i, x));
        PlusSwaps(t, Gave(c, i, x), g);
      } else {
        assert Total(c, st[i := x], n) == Plus(t', g);
        PlusSwaps(t', g, Gave(c, i, st[i]));
        PlusSwaps(t, g, Gave(c, i, x));
      }
    }
  }

  lemma PlusSwaps(a: Counts, b: Counts, d: Counts)
    ensures Plus(Plus(a, b), d) == Plus(Plus(a, d), b)
  {
  }

  lemma {:induction false} TotalOfUnseen(c: Cfg, st: seq<Status>, n: nat)
    requires c.Valid() && n <= |st| <= |c.src| && forall i :: 0 <= i < n ==> st[i].Unseen?
    ensures Total(c, st, n) == NoCounts()
  {
    if n > 0 {
      TotalOfUnseen(c, st, n - 1);
      assert Gave(c, n - 1, st[n - 1]) == NoCounts();
    }
  }

  /** The counters are what the entries gave. */
  ghost predicate Counted(c: Cfg, s: State)
    requires c.Valid()
  {
    |s.st| == |c.src| && s.counts == Total(c, s.st, |s.st|)
  }

  /** One entry's turn adds what it gives. */
  ghost predicate CountsTurn(c: Cfg, s: State, s': State, i: nat)
    requires c.Valid() && i < |c.src| == |s.st|
  {
    OneStatus(s, s', i) && Plus(s'.counts, Gave(c, i, s.st[i])) == Plus(s.counts, Gave(c, i, s'.st[i]))
  }

  lemma CountsKeep(c: Cfg, s: State, s': State, i: nat)
    requires c.Valid() && i < |c.src| && Counted(c, s) && CountsTurn(c, s, s', i)
    ensures Counted(c, s')
  {
    var x := s'.st[i];
    assert s'.st == s.st[i := x];
    TotalSet(c, s.st, |s.st|, i, x);
    PlusCancels(s'.counts, Total(c, s.st[i := x], |s.st|), Gave(c, i, s.st[i]));
  }

  lemma PlusCancels(a: Counts, b: Counts, d: Counts)
    requires Plus(a, d) == Plus(b, d)
    ensures a == b
  {
  }

  lemma UnchangedCounts(c: Cfg, s: State, i: nat, v: Verdict, e: Env)
    requires Shaped(c, s) && i < |c.src|
    ensures var s' := FinishUnchanged(c, s, i, v, e);
            && OneStatus(s, s', i) && s'.st[i].Finished? && s'.counts == Plus(s.counts, Gave(c, i, s'.st[i]))
  {
  }

  lemma EnqueueCounts(c: Cfg, s: State, i: nat, check: bool)
    requires Shaped(c, s) && i < |c.src| && c.src[i].File?
    ensures var s' := Enqueue(c, s, i, check);
            OneStatus(s, s', i) && s'.counts == Plus(s.counts, Gave(c, i, s'.st[i]))
  {
  }

  lemma RegularCounts(c: Cfg, s: State, i: nat, e: Env)
    requires Shaped(c, s) && i < |c.src| && c.src[i].File? && s.st[i].Unseen?
    ensures CountsTurn(c, s, HandleRegular(c, s, i, e), i)
  {
    UnchangedCounts(c, s, i, VerdictFor(c, s, i, e.readable), e);
    EnqueueCounts(c, s, i, true);
    EnqueueCounts(c, s, i, false);
    if c.Grouped(i) { MultiCounts(c, s, i, e); }
  }

  lemma MultiCounts(c: Cfg, s: State, i: nat, e: Env)
    requires Shaped(c, s) && i < |c.src| && c.src[i].File? && s.st[i].Unseen?
    ensures CountsTurn(c, s, HandleMultiLink(c, s, i, e), i)
  {
    if c.src[i].ino in s.primary { MemberCounts(c, s, i, e); } else { PrimaryCounts(c, s, i, e); }
  }

  lemma MemberCounts(c: Cfg, s: State, i: nat, e: Env)
    requires Shaped(c, s) && i < |c.src| && c.src[i].File? && s.st[i].Unseen? && c.src[i].ino in s.primary
    ensures CountsTurn(c, s, HandleMultiLink(c, s, i, e), i)
  {
  }

  lemma PrimaryCounts(c: Cfg, s: State, i: nat, e: Env)
    requires Shaped(c, s) && i < |c.src| && c.src[i].File? && s.st[i].Unseen? && c.src[i].ino !in s.primary
    ensures CountsTurn(c, s, HandleMultiLink(c, s, i, e), i)
  {
    UnchangedCounts(c, s, i, VerdictFor(c, s, i, e.readable), e);
    EnqueueCounts(c, s, i, false);
  }

  lemma SymlinkCounts(c: Cfg, s: State, i: nat, target: nat, e: Env)
    requires Shaped(c, s) && i < |c.src| && s.st[i].Unseen? && e.ok
    ensures CountsTurn(c, s, RecreateSymlink(c, s, i, target, e), i)
  {
    var cur := DstNode(c, s, i);
    if !(cur.Symlink? && cur.target == target) { NewLinkCounts(c, s, i, target, e); }
  }

  lemma NewLinkCounts(c: Cfg, s: State, i: nat, target: nat, e: Env)
    requires Shaped(c, s) && i < |c.src| && s.st[i].Unseen? && e.ok
    requires var cur := DstNode(c, s, i); !(cur.Symlink? && cur.target == target)
    ensures CountsTurn(c, s, RecreateSymlink(c, s, i, target, e), i)
  {
  }

  lemma DirCounts(c: Cfg, s: State, i: nat)
    requires Shaped(c, s) && i < |c.src| && s.st[i].Unseen?
    ensures CountsTurn(c, s, Finish(s, i, Listed).(counts := s.counts.(dirs := s.counts.dirs + 1)), i)
  {
  }

  lemma EntryCounts(c: Cfg, s: State, i: nat, e: Env)
    requires Shaped(c, s) && i < |c.src| && s.st[i].Unseen? && (c.src[i].File? || e.ok)
    ensures CountsTurn(c, s, HandleEntry(c, s, i, e), i)
  {
    match c.src[i]
    case Dir => DirCounts(c, s, i);
    case Symlink(_, target) => SymlinkCounts(c, s, i, target, e);
    case File(_) => RegularCounts(c, s, i, e);
  }

  lemma SkipCounts(c: Cfg, s: State, i: nat, e: Env)
    requires Shaped(c, s) && i < |c.src| && c.src[i].File? && s.st[i].Queued? && SkipsJob(c, s, i, e)
    ensures CountsTurn(c, s, CopyOne(c, s, i, e), i)
  {
    UnchangedCounts(c, s, i, VerdictFor(c, s, i, e.readable), e);
  }

  lemma CopyCounts(c: Cfg, s: State, i: nat, e: Env)
    requires Shaped(c, s) && i < |c.src| && c.src[i].File? && s.st[i].Queued? && !SkipsJob(c, s, i, e) && e.ok
    ensures CountsTurn(c, s, CopyOne(c, s, i, e), i)
  {
  }

  lemma StepIsJob(c: Cfg, s: State, i: nat, e: Env)
    requires Enabled(c, s, RunJob(i, e)) && !s.aborted
    ensures Apply(c, s, RunJob(i, e)) == CopyOne(c, s, i, e)
  {
  }

  lemma JobCounted(c: Cfg, s: State, i: nat, e: Env)
    requires Shaped(c, s) && Counted(c, s) && i < |c.src| && c.src[i].File? && s.st[i].Queued? && e.ok
    ensures Counted(c, CopyOne(c, s, i, e))
  {
    if SkipsJob(c, s, i, e) { SkipCounts(c, s, i, e); } else { CopyCounts(c, s, i, e); }
    CountsKeep(c, s, CopyOne(c, s, i, e), i);
  }

  lemma LinkCounts(c: Cfg, s: State, i: nat, e: Env)
    requires Enabled(c, s, MakeLink(i, e)) && CleanStep(MakeLink(i, e)) && !s.aborted
    ensures CountsTurn(c, s, Apply(c, s, MakeLink(i, e)), i)
  {
  }

  lemma VisitIsEntry(c: Cfg, s: State, e: Env)
    requires Shaped(c, s) && s.walked < |c.src|
    ensures VisitEntry(c, s, e) == HandleEntry(c, s.(walked := s.walked + 1), s.walked, e)
  {
  }

  lemma StepIsVisit(c: Cfg, s: State, e: Env)
    requires Enabled(c, s, Visit(e))
    ensures Apply(c, s, Visit(e)) == VisitEntry(c, s, e)
  {
  }

  lemma EntryCounted(c: Cfg, s: State, i: nat, e: Env)
    requires Shaped(c, s) && Counted(c, s) && i < |c.src| && s.st[i].Unseen? && e.ok
    ensures Counted(c, HandleEntry(c, s, i, e))
  {
    EntryCounts(c, s, i, e);
    CountsKeep(c, s, HandleEntry(c, s, i, e), i);
  }

  lemma VisitCounted(c: Cfg, s: State, e: Env)
    requires Enabled(c, s, Visit(e)) && Counted(c, s) && e.ok && s.st[s.walked].Unseen?
    ensures Counted(c, Apply(c, s, Visit(e)))
  {
    StepIsVisit(c, s, e);
    VisitIsEntry(c, s, e);
    EntryCounted(c, s.(walked := s.walked + 1), s.walked, e);
  }

  lemma StepCounts(c: Cfg, s: State, t: Step)
    requires !s.aborted && Enabled(c, s, t) && CleanStep(t) && Counted(c, s) && (t.Visit? ==> s.st[s.walked].Unseen?)
    ensures Counted(c, Apply(c, s, t)) && !Apply(c, s, t).aborted
  {
    var s' := Apply(c, s, t);
    assert !s'.aborted;
    if t.Visit? {
      VisitCounted(c, s, t.e);
    } else if t.RunJob? {
      StepIsJob(c, s, t.i, t.e);
      JobCounted(c, s, t.i, t.e);
    } else if t.MakeLink? {
      LinkCounts(c, s, t.i, t.e);
      CountsKeep(c, s, s', t.i);
    } else {
      assert s'.st == s.st && s'.counts == s.counts;
    }
  }

  // ---- Dry and real ----

  ghost predicate CleanRun(c: Cfg, states: seq<State>, steps: seq<Step>) {
    Run(c, states, steps) && forall k :: 0 <= k < |steps| ==> CleanStep(steps[k])
  }

  lemma {:induction false} CleanKeeps(c: Cfg, states: seq<State>, steps: seq<Step>, k: nat)
    requires CleanRun(c, states, steps) && Unaliased(c) && k <= |steps|
    ensures Inv(c, states[k]) && Counted(c, states[k]) && !states[k].aborted
  {
    if k == 0 {
      StartOk(c);
    } else {
      CleanKeeps(c, states, steps, k - 1);
      StepClean(c, states[k - 1], steps[k - 1]);
      if steps[k - 1].Visit? { assert FateOk(c, states[k - 1], states[k - 1].walked); }
      StepCounts(c, states[k - 1], steps[k - 1]);
    }
  }

  lemma StartOk(c: Cfg)
    requires c.Valid() && Unaliased(c)
    ensures Inv(c, Start(c)) && Counted(c, Start(c))
  {
    TotalOfUnseen(c, Start(c).st, |c.src|);
    forall i | 0 <= i < |c.src| ensures FateOk(c, Start(c), i) { assert c.KnownNode(c.dst[i]); }
  }

  /** The counts of a clean run that came to its end, told from the trees before it. */
  function Foretold(c: Cfg): seq<Status>
    requires c.Valid()
  {
    seq(|c.src|, i requires 0 <= i < |c.src| => Finished(Fate(c, i)))
  }

  lemma CleanRunEnds(c: Cfg, states: seq<State>, steps: seq<Step>)
    requires CleanRun(c, states, steps) && Unaliased(c) && states[|steps|].phase.Removing?
    ensures states[|steps|].st == Foretold(c) && states[|steps|].counts == Total(c, Foretold(c), |c.src|)
  {
    CleanKeeps(c, states, steps, |steps|);
    var s := states[|steps|];
    forall i | 0 <= i < |c.src| ensures s.st[i] == Finished(Fate(c, i)) { assert FateOk(c, s, i); }
  }

  lemma {:induction false} SameTotal(c: Cfg, d: Cfg, st: seq<Status>, n: nat)
    requires c.Valid() && d.Valid() && d.src == c.src && d.inodes == c.inodes && n <= |st| <= |c.src|
    ensures Total(c, st, n) == Total(d, st, n)
  {
    if n > 0 { SameTotal(c, d, st, n - 1); }
  }

  /** What an entry with this status has still to copy: files and bytes. */
  function ToDo(c: Cfg, i: nat, st: Status): (nat, nat)
    requires c.Valid() && i < |c.src|
  {
    if st.Queued? && c.src[i].File? then (1, |c.SrcBody(i).data|) else (0, 0)
  }

  function Open(c: Cfg, st: seq<Status>, n: nat): (nat, nat)
    requires c.Valid() && n <= |st| <= |c.src|
  {
    if n == 0 then (0, 0)
    else (Open(c, st, n - 1).0 + ToDo(c, n - 1, st[n - 1]).0, Open(c, st, n - 1).1 + ToDo(c, n - 1, st[n - 1]).1)
  }

  /** The totals are the work done and the work to do. */
  predicate Balanced(t: Counts, open: (nat, nat)) {
    t.totalFiles == t.files + open.0 && t.totalBytes == t.bytes + open.1
  }

  lemma OneIsBalanced(c: Cfg, i: nat, st: Status)
    requires c.Valid() && i < |c.src| && (st.Queued? ==> c.src[i].File?)
    ensures Balanced(Gave(c, i, st), ToDo(c, i, st))
  {
  }

  lemma {:induction false} AllAreBalanced(c: Cfg, st: seq<Status>, n: nat)
    requires c.Valid() && n <= |st| <= |c.src|
    requires forall i :: 0 <= i < n && st[i].Queued? ==> c.src[i].File?
    ensures Balanced(Total(c, st, n), Open(c, st, n))
  {
    if n > 0 {
      AllAreBalanced(c, st, n - 1);
      OneIsBalanced(c, n - 1, st[n - 1]);
    }
  }

  /** At every moment of a clean run the totals discovered are what has been copied and what is still queued:
      progress never passes its total, and with no job left it has reached it. */
  lemma TotalsAreCopied(c: Cfg, states: seq<State>, steps: seq<Step>, k: nat)
    requires CleanRun(c, states, steps) && Unaliased(c) && k <= |steps|
    ensures var s := states[k];
            && |s.st| == |c.src|
            && var open := Open(c, s.st, |c.src|);
               && Balanced(s.counts, open)
               && (s.phase.Linking? || s.phase.Removing? ==> open == (0, 0))
  {
    var s := states[k];
    CleanKeeps(c, states, steps, k);
    forall i | 0 <= i < |c.src| && s.st[i].Queued? ensures c.src[i].File? {
      assert FateOk(c, s, i);
    }
    AllAreBalanced(c, s.st, |c.src|);
    if s.phase.Linking? || s.phase.Removing? { NoneOpen(c, s.st, |c.src|); }
  }

  lemma {:induction false} NoneOpen(c: Cfg, st: seq<Status>, n: nat)
    requires c.Valid() && n <= |st| <= |c.src| && forall i :: 0 <= i < n ==> !st[i].Queued?
    ensures Open(c, st, n) == (0, 0)
  {
    if n > 0 { NoneOpen(c, st, n - 1); }
  }

  /** A clean dry run and a clean real run over the same trees, each in any interleaving, end with the same counts,
      and the totals they discovered are the files and bytes they counted. */
  lemma DryRunTells(c: Cfg, states: seq<State>, steps: seq<Step>, d: Cfg, dryStates: seq<State>, drySteps: seq<Step>)
    requires !c.dry && d == c.(dry := true) && c.Valid() && Unaliased(c)
    requires CleanRun(c, states, steps) && states[|steps|].phase.Removing?
    requires CleanRun(d, dryStates, drySteps) && dryStates[|drySteps|].phase.Removing?
    ensures var did, said := states[|steps|].counts, dryStates[|drySteps|].counts;
            did == said && did.totalFiles == did.files && did.totalBytes == did.bytes
  {
    CleanRunEnds(c, states, steps);
    SameFates(c, d);
    CleanRunEnds(d, dryStates, drySteps);
    SameTotal(c, d, Foretold(c), |c.src|);
    TotalsAreCopied(c, states, steps, |steps|);
  }

  lemma SameFates(c: Cfg, d: Cfg)
    requires c.Valid() && Unaliased(c) && d == c.(dry := true)
    ensures d.Valid() && Unaliased(d) && Foretold(c) == Foretold(d)
  {
    assert forall n: Node :: c.KnownNode(n) == d.KnownNode(n);
    forall i | 0 <= i < |c.src| ensures Fate(c, i) == Fate(d, i) { SameFirst(c, d, i, 0); }
  }

  lemma {:induction false} SameFirst(c: Cfg, d: Cfg, i: nat, from: nat)
    requires d.src == c.src && from <= i < |c.src| && forall k :: 0 <= k < from ==> c.src[k] != c.src[i]
    ensures First(c, i, from) == First(d, i, from)
    decreases i - from
  {
    if c.src[from] != c.src[i] { SameFirst(c, d, i, from + 1); }
  }
}
