/** What no run loses: after any run, with failures and with --move, and how the names of one inode end up together. */
module RunSafety {
  import opened Scan
  import opened RunCopy

  // ---- What every step keeps ----

  /** A size and a time that agree mean equal content: what the quick check relies on. */
  ghost predicate Honest(c: Cfg)
    requires c.Valid()
  {
    c.checksum || forall i ::
      0 <= i < |c.src| && c.src[i].File? && InitNode(c, i).File? && InitNode(c, i).ino in c.inodes ==>
      (var there := c.inodes[InitNode(c, i).ino];
       Compare(c.SrcBody(i), Regular(there), false, true).UpToDate? ==> there.data == c.SrcBody(i).data)
  }

  /** A file is at the destination of entry i; if the quick check can be relied on, with the content of its source. */
  ghost predicate Placed(c: Cfg, s: State, i: nat)
    requires Shaped(c, s) && i < |c.src| && c.src[i].File?
  {
    var n := DstNode(c, s, i);
    n.File? && n.ino in s.inodes && (Honest(c) ==> s.inodes[n.ino].data == c.SrcBody(i).data)
  }

  /** No file's content changes in place. */
  ghost predicate SameFiles(checksum: bool, m: map<nat, Body>, m': map<nat, Body>) {
    forall k :: k in m ==> k in m' && m'[k].data == m[k].data && (checksum || m'[k].mtime == m[k].mtime)
  }

  ghost predicate Untouched(c: Cfg, s: State, i: nat)
    requires Shaped(c, s) && i < |c.src|
  {
    s.src[i] == c.src[i] && s.dst[i] == c.dst[i]
  }

  /** A file copied or adopted on its own account. */
  ghost predicate HeadOk(c: Cfg, s: State, i: nat)
    requires Shaped(c, s) && i < |c.src| && c.src[i].File?
  {
    match s.st[i]
    case Queued(check) => Untouched(c, s, i) && (check ==> !c.Grouped(i))
    case Finished(how) => (how.Copied? || how.Skipped? || how.Updated?) && Placed(c, s, i)
    case Dropped => s.src[i] == c.src[i]
    case _ => false
  }

  /** A later name of the inode whose earliest name is entry h. */
  ghost predicate MemberOk(c: Cfg, s: State, i: nat, h: nat)
    requires Shaped(c, s) && i < |c.src| && h < |c.src|
  {
    match s.st[i]
    case Deferred => Untouched(c, s, i)
    case Finished(how) =>
      (how.Linked? || how.Skipped?) && !s.st[h].Queued? && (s.st[h].Finished? ==> DstNode(c, s, i) == DstNode(c, s, h))
    case Dropped => !s.st[h].Queued? && (i !in c.alias ==> s.src[i] == c.src[i])
    case _ => false
  }

  ghost predicate EntryOk(c: Cfg, s: State, i: nat)
    requires Shaped(c, s) && i < |c.src|
  {
    if s.walked <= i then s.st[i].Unseen? && Untouched(c, s, i)
    else match c.src[i]
      case Dir => s.st[i] == Finished(Listed) || s.st[i].Dropped?
      case Symlink(_, target) =>
        || (s.st[i].Dropped? && s.src[i] == c.src[i])
        || (Moved(s, i) && DstNode(c, s, i).Symlink? && DstNode(c, s, i).target == target)
      case File(ino) =>
        if ino in c.multi then
          && ino in s.primary && s.primary[ino].i < s.walked && c.src[s.primary[ino].i] == c.src[i]
          && if s.primary[ino].i == i then HeadOk(c, s, i) else MemberOk(c, s, i, s.primary[ino].i)
        else HeadOk(c, s, i)
  }

  /** An entry is given up only in a run that failed somewhere or was aborted. */
  ghost predicate NoneDropped(s: State) {
    s.failed == 0 && !s.aborted ==> forall i :: 0 <= i < |s.st| ==> !s.st[i].Dropped?
  }

  predicate WalkDone(s: State) {
    !s.phase.Walking? && !s.aborted && !s.stopped ==> s.walked == |s.src|
  }

  ghost predicate Base(c: Cfg, s: State) {
    && Shaped(c, s) && !c.dry && NoneDropped(s) && WalkDone(s)
    && SameFiles(c.checksum, c.inodes, s.inodes)
    && (forall ino :: ino in s.primary ==>
          var h := s.primary[ino].i;
          && h < s.walked && c.src[h] == File(ino)
          && (s.primary[ino].adopted ==> s.st[h].Finished?))
    && (s.phase.Linking? || s.phase.Removing? ==> forall i :: 0 <= i < |s.st| ==> !s.st[i].Queued?)
    && (s.phase.Removing? ==> forall i :: 0 <= i < |s.st| ==> !s.st[i].Deferred?)
  }

  ghost predicate Inv(c: Cfg, s: State) {
    Base(c, s) && forall i :: 0 <= i < |c.src| ==> EntryOk(c, s, i)
  }

  /** An up-to-date verdict at a destination nobody has touched yet is about equal content. */
  lemma UpToDateHolds(c: Cfg, s: State, i: nat, readable: bool)
    requires Base(c, s) && i < |c.src| && c.src[i].File? && Untouched(c, s, i)
    requires VerdictFor(c, s, i, readable).UpToDate?
    ensures Placed(c, s, i)
  {
    assert c.KnownNode(c.src[i]) && c.KnownNode(c.dst[i]);
    assert DstNode(c, s, i) == InitNode(c, i);
  }

  // ---- One entry's turn leaves the others alone ----

  predicate NewPrimary(s: State, s': State, ino: nat, i: nat) {
    s'.primary == s.primary[ino := Primary(i, true)] || s'.primary == s.primary[ino := Primary(i, false)]
  }

  /** Only entry i changed: its status, its destination, its source if that is the destination. */
  ghost predicate OnlyEntry(c: Cfg, s: State, s': State, i: nat)
    requires Shaped(c, s) && Shaped(c, s') && i < |c.src|
  {
    && s'.src == s.src[i := s'.src[i]] && s'.dst == s.dst[i := s'.dst[i]] && s'.st == s.st[i := s'.st[i]]
    && SameFiles(c.checksum, s.inodes, s'.inodes)
    && (s'.primary == s.primary || (c.src[i].File? && c.src[i].ino !in s.primary && NewPrimary(s, s', c.src[i].ino, i)))
    && (s'.walked == s.walked || (s'.walked == s.walked + 1 && i == s.walked))
  }

  /** What entry i's turn may do to the entries that look at it. */
  ghost predicate Settles(c: Cfg, s: State, s': State, i: nat)
    requires Shaped(c, s) && Shaped(c, s') && i < |c.src|
  {
    || s.st[i].Unseen? || s.st[i].Queued? || s.st[i].Deferred?
    || (s'.st[i] == s.st[i] && DstNode(c, s', i) == DstNode(c, s, i))
  }

  lemma OthersKeep(c: Cfg, s: State, s': State, i: nat, j: nat)
    requires Inv(c, s) && Shaped(c, s') && i < |c.src| && j < |c.src| && i != j
    requires OnlyEntry(c, s, s', i) && Settles(c, s, s', i)
    ensures EntryOk(c, s', j)
  {
    assert EntryOk(c, s, j);
    assert s'.src[j] == s.src[j] && s'.dst[j] == s.dst[j] && s'.st[j] == s.st[j];
    if j < s.walked && c.Grouped(j) {
      var h := s.primary[c.src[j].ino].i;
      assert EntryOk(c, s, h);
      assert s'.primary[c.src[j].ino] == s.primary[c.src[j].ino];
    }
  }

  /** Entry i's turn, from s to s'. */
  ghost predicate Turn(c: Cfg, s: State, s': State, i: nat)
    requires Shaped(c, s) && i < |c.src|
  {
    && Shaped(c, s') && OnlyEntry(c, s, s', i) && Settles(c, s, s', i) && s'.phase == s.phase
    && s'.failed >= s.failed && s'.aborted == s.aborted && s'.stopped == s.stopped
    && (s'.st[i].Dropped? && !s.st[i].Dropped? ==> s'.failed > 0 || s'.aborted)
    && (s'.walked > s.walked ==> s.phase.Walking?)
    && (s'.primary != s.primary && s'.primary[c.src[i].ino].adopted ==> s'.st[i].Finished?)
    && (s'.primary != s.primary ==> s'.walked == s.walked + 1)
    && (s'.st[i].Queued? || s'.st[i].Deferred? ==> s.phase.Walking?)
    && (s.st[i].Finished? ==> s'.st[i].Finished?)
  }

  lemma TurnKeepsBase(c: Cfg, s: State, s': State, i: nat)
    requires Base(c, s) && i < |c.src| && Turn(c, s, s', i)
    ensures Base(c, s')
  {
    forall ino | ino in s'.primary
      ensures var h := s'.primary[ino].i;
              && h < s'.walked && c.src[h] == File(ino)
              && (s'.primary[ino].adopted ==> s'.st[h].Finished?)
    {
    }
  }

  lemma TurnKeeps(c: Cfg, s: State, s': State, i: nat)
    requires Inv(c, s) && i < |c.src| && Turn(c, s, s', i) && EntryOk(c, s', i)
    ensures Inv(c, s')
  {
    TurnKeepsBase(c, s, s', i);
    forall j | 0 <= j < |c.src| ensures EntryOk(c, s', j) {
      if j != i { OthersKeep(c, s, s', i, j); }
    }
  }

  // ---- Each kind of turn ----

  lemma DirTurn(c: Cfg, s: State, e: Env)
    requires Inv(c, s) && Enabled(c, s, Visit(e)) && c.src[s.walked].Dir?
    ensures var s' := Apply(c, s, Visit(e)); Turn(c, s, s', s.walked) && EntryOk(c, s', s.walked)
  {
    assert EntryOk(c, s, s.walked);
  }

  lemma SymlinkTurn(c: Cfg, s: State, e: Env)
    requires Inv(c, s) && Enabled(c, s, Visit(e)) && c.src[s.walked].Symlink?
    ensures var s' := Apply(c, s, Visit(e)); Turn(c, s, s', s.walked) && EntryOk(c, s', s.walked)
  {
    var i := s.walked;
    assert EntryOk(c, s, i);
    assert DstNode(c, s, i) == DstNode(c, s.(walked := i + 1), i);
    if DstNode(c, s, i).Symlink? && DstNode(c, s, i).target == c.src[i].target {
      var s' := Apply(c, s, Visit(e));
      assert s'.src == s.src && s'.dst == s.dst && s'.st == s.st[i := Finished(Skipped)];
      assert Turn(c, s, s', i) && EntryOk(c, s', i);
    } else {
      SymlinkMade(c, s, e);
    }
  }

  lemma SymlinkMade(c: Cfg, s: State, e: Env)
    requires Base(c, s) && Enabled(c, s, Visit(e)) && c.src[s.walked].Symlink? && EntryOk(c, s, s.walked)
    requires s.walked !in c.alias && !(s.dst[s.walked].Symlink? && s.dst[s.walked].target == c.src[s.walked].target)
    ensures var s' := Apply(c, s, Visit(e)); Turn(c, s, s', s.walked) && EntryOk(c, s', s.walked)
  {
    var i, s' := s.walked, Apply(c, s, Visit(e));
    assert s'.src == s.src && s'.inodes == s.inodes && s'.primary == s.primary;
    if e.ok {
      assert s'.dst == s.dst[i := Symlink(e.newIno, c.src[i].target)] && s'.st == s.st[i := Finished(Symlinked)];
    } else {
      assert s'.st == s.st[i := Dropped];
    }
  }

  /** A file that is no link, or the earliest name of its inode. */
  lemma HeadTurn(c: Cfg, s: State, e: Env)
    requires Inv(c, s) && Enabled(c, s, Visit(e)) && c.src[s.walked].File?
    requires c.Grouped(s.walked) ==> c.src[s.walked].ino !in s.primary
    ensures var s' := Apply(c, s, Visit(e)); Turn(c, s, s', s.walked) && EntryOk(c, s', s.walked)
  {
    var i := s.walked;
    assert EntryOk(c, s, i);
    var s1, s' := s.(walked := i + 1), Apply(c, s, Visit(e));
    assert Base(c, s1) && Untouched(c, s1, i);
    if c.Grouped(i) && VerdictFor(c, s1, i, e.readable).UpToDate? {
      UpToDateHolds(c, s1, i, e.readable);
      AdoptTurn(c, s, e);
    } else {
      EnqueueTurn(c, s, e);
    }
  }

  /** Entry i was found up to date: at most its attributes changed. */
  ghost predicate Kept(c: Cfg, s: State, s': State, i: nat)
    requires Shaped(c, s) && i < |c.src| && c.src[i].File?
  {
    && Shaped(c, s') && s'.src == s.src && s'.dst == s.dst && s'.phase == s.phase
    && s'.failed == s.failed && s'.aborted == s.aborted && s'.stopped == s.stopped
    && SameFiles(c.checksum, s.inodes, s'.inodes)
    && (s'.st == s.st[i := Finished(Updated)] || s'.st == s.st[i := Finished(Skipped)])
    && Placed(c, s', i)
  }

  lemma UnchangedIsKept(c: Cfg, s: State, i: nat, v: Verdict, e: Env)
    requires Shaped(c, s) && i < |c.src| && c.src[i].File? && SyncOk(c, s, i, e) && Placed(c, s, i)
    ensures var s' := FinishUnchanged(c, s, i, v, e);
            Kept(c, s, s', i) && s'.primary == s.primary && s'.walked == s.walked
  {
  }

  lemma KeptTurn(c: Cfg, s: State, s': State, i: nat)
    requires Base(c, s) && i < |c.src| && c.src[i].File? && (s.st[i].Unseen? || s.st[i].Queued?) && Kept(c, s, s', i)
    requires if i < s.walked then s'.walked == s.walked && s'.primary == s.primary && !c.Grouped(i)
             else
               && s.phase.Walking? && i == s.walked && s'.walked == s.walked + 1 && c.Grouped(i)
               && c.src[i].ino !in s.primary && s'.primary == s.primary[c.src[i].ino := Primary(i, true)]
    ensures Turn(c, s, s', i) && EntryOk(c, s', i)
  {
  }

  lemma AdoptTurn(c: Cfg, s: State, e: Env)
    requires Base(c, s) && Enabled(c, s, Visit(e)) && c.Grouped(s.walked) && c.src[s.walked].ino !in s.primary
    requires s.st[s.walked].Unseen?
    requires var s1 := s.(walked := s.walked + 1);
             VerdictFor(c, s1, s.walked, e.readable).UpToDate? && Placed(c, s1, s.walked)
    ensures var s' := Apply(c, s, Visit(e)); Turn(c, s, s', s.walked) && EntryOk(c, s', s.walked)
  {
    var f := Adopted(c, s, e);
    KeptAsPrimary(c, s, s.(walked := s.walked + 1), f, Apply(c, s, Visit(e)), s.walked);
  }

  lemma Adopted(c: Cfg, s: State, e: Env) returns (f: State)
    requires Enabled(c, s, Visit(e)) && c.Grouped(s.walked) && c.src[s.walked].ino !in s.primary
    requires var s1 := s.(walked := s.walked + 1);
             VerdictFor(c, s1, s.walked, e.readable).UpToDate? && Placed(c, s1, s.walked)
    ensures Kept(c, s.(walked := s.walked + 1), f, s.walked) && f.primary == s.primary && f.walked == s.walked + 1
    ensures Apply(c, s, Visit(e)) == f.(primary := s.primary[c.src[s.walked].ino := Primary(s.walked, true)])
  {
    var i, s1 := s.walked, s.(walked := s.walked + 1);
    f := FinishUnchanged(c, s1, i, VerdictFor(c, s1, i, e.readable), e);
    UnchangedIsKept(c, s1, i, VerdictFor(c, s1, i, e.readable), e);
    VisitAdopts(c, s, e, f);
  }

  lemma VisitAdopts(c: Cfg, s: State, e: Env, f: State)
    requires Enabled(c, s, Visit(e)) && c.Grouped(s.walked) && c.src[s.walked].ino !in s.primary
    requires var i, s1 := s.walked, s.(walked := s.walked + 1);
             var v := VerdictFor(c, s1, i, e.readable);
             v.UpToDate? && f == FinishUnchanged(c, s1, i, v, e)
    ensures Apply(c, s, Visit(e)) == f.(primary := s.primary[c.src[s.walked].ino := Primary(s.walked, true)])
  {
  }

  lemma KeptAsPrimary(c: Cfg, s: State, s1: State, f: State, s': State, i: nat)
    requires Base(c, s) && s.phase.Walking? && i < |c.src| && c.src[i].File? && s.st[i].Unseen? && i == s.walked
    requires s1 == s.(walked := i + 1)
    requires Kept(c, s1, f, i) && f.primary == s.primary && f.walked == i + 1 && c.Grouped(i)
    requires c.src[i].ino !in s.primary && s' == f.(primary := s.primary[c.src[i].ino := Primary(i, true)])
    ensures Turn(c, s, s', i) && EntryOk(c, s', i)
  {
    assert Shaped(c, s');
    assert DstNode(c, s', i) == DstNode(c, f, i);
    KeptTurn(c, s, s', i);
  }

  lemma EnqueueTurn(c: Cfg, s: State, e: Env)
    requires Base(c, s) && Enabled(c, s, Visit(e)) && c.src[s.walked].File? && EntryOk(c, s, s.walked)
    requires c.Grouped(s.walked) ==>
               && c.src[s.walked].ino !in s.primary
               && !VerdictFor(c, s.(walked := s.walked + 1), s.walked, e.readable).UpToDate?
    ensures var s' := Apply(c, s, Visit(e)); Turn(c, s, s', s.walked) && EntryOk(c, s', s.walked)
  {
    var i := s.walked;
    var s' := Apply(c, s, Visit(e));
    assert s'.st == s.st[i := Queued(!c.Grouped(i))] && s'.src == s.src && s'.dst == s.dst;
    assert c.Grouped(i) ==> s'.primary == s.primary[c.src[i].ino := Primary(i, false)];
  }

  lemma MemberTurn(c: Cfg, s: State, e: Env)
    requires Inv(c, s) && Enabled(c, s, Visit(e)) && c.Grouped(s.walked) && c.src[s.walked].ino in s.primary
    ensures var s' := Apply(c, s, Visit(e)); Turn(c, s, s', s.walked) && EntryOk(c, s', s.walked)
  {
    var i := s.walked;
    assert EntryOk(c, s, i);
    var s' := Apply(c, s, Visit(e));
    assert s'.src == s.src && s'.dst == s.dst && s'.inodes == s.inodes && s'.primary == s.primary;
  }

  lemma JobTurn(c: Cfg, s: State, i: nat, e: Env)
    requires Inv(c, s) && Enabled(c, s, RunJob(i, e))
    ensures var s' := Apply(c, s, RunJob(i, e)); Turn(c, s, s', i) && EntryOk(c, s', i)
  {
    assert EntryOk(c, s, i);
    var s' := Apply(c, s, RunJob(i, e));
    if s.aborted {
      assert Turn(c, s, s', i) && EntryOk(c, s', i);
    } else if SkipsJob(c, s, i, e) {
      UpToDateHolds(c, s, i, e.readable);
      JobSkipTurn(c, s, i, e);
    } else if e.ok {
      JobCopyTurn(c, s, i, e);
    } else {
      assert Turn(c, s, s', i) && EntryOk(c, s', i);
    }
  }

  lemma JobSkipTurn(c: Cfg, s: State, i: nat, e: Env)
    requires Base(c, s) && Enabled(c, s, RunJob(i, e)) && EntryOk(c, s, i)
    requires !s.aborted && SkipsJob(c, s, i, e) && Placed(c, s, i)
    ensures var s' := Apply(c, s, RunJob(i, e)); Turn(c, s, s', i) && EntryOk(c, s', i)
  {
    var f := FinishUnchanged(c, s, i, VerdictFor(c, s, i, e.readable), e);
    UnchangedIsKept(c, s, i, VerdictFor(c, s, i, e.readable), e);
    var s' := Apply(c, s, RunJob(i, e));
    assert s' == f.(counts := s'.counts);
    KeptJob(c, s, f, i, s'.counts);
  }

  lemma KeptJob(c: Cfg, s: State, f: State, i: nat, counts: Counts)
    requires Base(c, s) && i < |c.src| && c.src[i].File? && s.st[i].Queued? && i < s.walked
    requires Kept(c, s, f, i) && f.primary == s.primary && f.walked == s.walked && !c.Grouped(i)
    ensures var s' := f.(counts := counts); Turn(c, s, s', i) && EntryOk(c, s', i)
  {
    var s' := f.(counts := counts);
    assert DstNode(c, s', i) == DstNode(c, f, i);
    KeptTurn(c, s, s', i);
  }

  lemma JobCopyTurn(c: Cfg, s: State, i: nat, e: Env)
    requires Base(c, s) && Enabled(c, s, RunJob(i, e)) && EntryOk(c, s, i)
    requires !s.aborted && !SkipsJob(c, s, i, e) && e.ok
    ensures var s' := Apply(c, s, RunJob(i, e)); Turn(c, s, s', i) && EntryOk(c, s', i)
  {
    var s' := Apply(c, s, RunJob(i, e));
    assert s'.st == s.st[i := Finished(Copied)] && s'.inodes == s.inodes[e.newIno := e.body] && s'.primary == s.primary;
    assert DstNode(c, s', i) == File(e.newIno);
  }

  lemma LinkTurn(c: Cfg, s: State, i: nat, e: Env)
    requires Inv(c, s) && Enabled(c, s, MakeLink(i, e))
    ensures var s' := Apply(c, s, MakeLink(i, e)); Turn(c, s, s', i) && EntryOk(c, s', i)
  {
    assert EntryOk(c, s, i);
    LinkMade(c, s, i, e);
  }

  lemma LinkMade(c: Cfg, s: State, i: nat, e: Env)
    requires Base(c, s) && i < |c.src| && EntryOk(c, s, i) && Enabled(c, s, MakeLink(i, e))
    ensures var s' := Apply(c, s, MakeLink(i, e)); Turn(c, s, s', i) && EntryOk(c, s', i)
  {
    if !s.aborted && e.ok {
      LinkDone(c, s, i, e);
      LinkedTurn(c, s, Apply(c, s, MakeLink(i, e)), i);
    } else {
      LinkNotMade(c, s, i, e);
    }
  }

  /** Entry i has become a link to what its primary's destination shows. */
  ghost predicate LinkedTo(c: Cfg, s: State, s': State, i: nat, h: nat)
    requires Shaped(c, s) && i < |c.src| && h < |c.src|
  {
    && Shaped(c, s') && s'.primary == s.primary && s'.inodes == s.inodes && s'.st == s.st[i := Finished(Linked)]
    && s'.phase == s.phase && s'.failed == s.failed && s'.aborted == s.aborted && s'.stopped == s.stopped
    && s'.walked == s.walked && s' == SetDst(c, s, i, DstNode(c, s, h)).(st := s'.st, counts := s'.counts)
  }

  lemma LinkDone(c: Cfg, s: State, i: nat, e: Env)
    requires Enabled(c, s, MakeLink(i, e)) && !s.aborted && e.ok && !c.dry
    ensures LinkedTo(c, s, Apply(c, s, MakeLink(i, e)), i, s.primary[c.src[i].ino].i)
  {
  }

  lemma LinkedTurn(c: Cfg, s: State, s': State, i: nat)
    requires Base(c, s) && i < |c.src| && EntryOk(c, s, i) && s.st[i].Deferred? && c.Grouped(i)
    requires c.src[i].ino in s.primary
    requires s.phase.Linking?
    requires LinkedTo(c, s, s', i, s.primary[c.src[i].ino].i)
    requires var n := DstNode(c, s, s.primary[c.src[i].ino].i); n.File? || n.Symlink?
    ensures Turn(c, s, s', i) && EntryOk(c, s', i)
  {
    var h := s.primary[c.src[i].ino].i;
    assert h != i;
    assert DstNode(c, s', i) == DstNode(c, s, h) == DstNode(c, s', h);
  }

  lemma LinkNotMade(c: Cfg, s: State, i: nat, e: Env)
    requires Base(c, s) && i < |c.src| && EntryOk(c, s, i) && Enabled(c, s, MakeLink(i, e)) && (s.aborted || !e.ok)
    ensures var s' := Apply(c, s, MakeLink(i, e)); Turn(c, s, s', i) && EntryOk(c, s', i)
  {
    var s' := Apply(c, s, MakeLink(i, e));
    assert s'.primary == s.primary && s'.inodes == s.inodes && s'.st == s.st[i := Dropped];
  }

  lemma RemoveTurn(c: Cfg, s: State, i: nat, e: Env)
    requires Inv(c, s) && Enabled(c, s, RemoveSource(i, e))
    ensures var s' := Apply(c, s, RemoveSource(i, e)); Turn(c, s, s', i) && EntryOk(c, s', i)
  {
    assert EntryOk(c, s, i);
  }

  lemma PhaseTurn(c: Cfg, s: State, t: Step)
    requires Inv(c, s) && Enabled(c, s, t) && (t.StopWalk? || t.EndWalk? || t.EndJobs? || t.EndLinks? || t.Abort?)
    ensures Inv(c, Apply(c, s, t))
  {
    var s' := Apply(c, s, t);
    assert Shaped(c, s') && s'.src == s.src && s'.dst == s.dst && s'.st == s.st && s'.inodes == s.inodes;
    assert s'.walked == s.walked && s'.primary == s.primary && s'.failed == s.failed;
    forall j | 0 <= j < |c.src| ensures EntryOk(c, s', j) {
      assert EntryOk(c, s, j);
      EntryKept(c, s, s', j);
    }
  }

  /** What is kept of an entry is about the trees and its status. */
  lemma EntryKept(c: Cfg, s: State, s': State, i: nat)
    requires Shaped(c, s) && Shaped(c, s') && i < |c.src| && EntryOk(c, s, i)
    requires s'.src == s.src && s'.dst == s.dst && s'.st == s.st && s'.inodes == s.inodes && s'.walked == s.walked
    requires s'.primary == s.primary
    ensures EntryOk(c, s', i)
  {
  }

  lemma VisitTurn(c: Cfg, s: State, e: Env)
    requires Inv(c, s) && Enabled(c, s, Visit(e))
    ensures var s' := Apply(c, s, Visit(e)); Turn(c, s, s', s.walked) && EntryOk(c, s', s.walked)
  {
    var i := s.walked;
    if c.src[i].Dir? {
      DirTurn(c, s, e);
    } else if c.src[i].Symlink? {
      SymlinkTurn(c, s, e);
    } else if c.Grouped(i) && c.src[i].ino in s.primary {
      MemberTurn(c, s, e);
    } else {
      HeadTurn(c, s, e);
    }
  }

  lemma StepKeeps(c: Cfg, s: State, t: Step)
    requires Inv(c, s) && Enabled(c, s, t)
    ensures Inv(c, Apply(c, s, t))
  {
    if t.Visit? {
      VisitTurn(c, s, t.e);
      TurnKeeps(c, s, Apply(c, s, t), s.walked);
    } else if t.RunJob? {
      JobTurn(c, s, t.i, t.e);
      TurnKeeps(c, s, Apply(c, s, t), t.i);
    } else if t.MakeLink? {
      LinkTurn(c, s, t.i, t.e);
      TurnKeeps(c, s, Apply(c, s, t), t.i);
    } else if t.RemoveSource? {
      RemoveTurn(c, s, t.i, t.e);
      TurnKeeps(c, s, Apply(c, s, t), t.i);
    } else {
      PhaseTurn(c, s, t);
    }
  }

  // ---- Every run ----

  lemma {:induction false} RunKeeps(c: Cfg, states: seq<State>, steps: seq<Step>, k: nat)
    requires Run(c, states, steps) && !c.dry && k <= |steps|
    ensures Inv(c, states[k])
  {
    if k > 0 {
      RunKeeps(c, states, steps, k - 1);
      StepKeeps(c, states[k - 1], steps[k - 1]);
    }
  }

  lemma ReachKeeps(c: Cfg, s: State)
    requires Reachable(c, s) && !c.dry
    ensures Inv(c, s)
  {
    var states, steps :| Run(c, states, steps) && states[|steps|] == s;
    RunKeeps(c, states, steps, |steps|);
  }

  // ---- No content is lost ----

  /** A source path of the same inode as entry i still names it. */
  ghost predicate Survives(c: Cfg, s: State, i: nat)
    requires i < |c.src| == |s.src|
  {
    exists j :: 0 <= j < |c.src| && c.src[j] == c.src[i] && s.src[j] == c.src[i]
  }

  /** The destination path of entry i holds the content of its source. */
  ghost predicate Holds(c: Cfg, s: State, i: nat)
    requires Shaped(c, s) && i < |c.src| && c.src[i].File?
  {
    var n := DstNode(c, s, i);
    n.File? && n.ino in s.inodes && s.inodes[n.ino].data == c.SrcBody(i).data
  }

  /** At every moment of every run, whatever fails, and however many sources have been removed: a file's content is
      at its own destination, or a source path of its inode is left, or another name's destination holds it.  The
      last is for a hard link whose destination is the source entry itself (RunLoss says exactly when). */
  lemma ContentRemains(c: Cfg, s: State, i: nat)
    requires Reachable(c, s) && !c.dry && Honest(c) && i < |c.src| && c.src[i].File?
    ensures Shaped(c, s)
    ensures || Holds(c, s, i) || Survives(c, s, i)
            || (i in c.alias && c.Grouped(i) && exists j :: 0 <= j < |c.src| && c.src[j] == c.src[i] && Holds(c, s, j))
  {
    ReachKeeps(c, s);
    assert EntryOk(c, s, i);
    if i < s.walked && c.Grouped(i) && s.primary[c.src[i].ino].i != i {
      var h := s.primary[c.src[i].ino].i;
      assert EntryOk(c, s, h);
      assert s.st[h].Finished? ==> Holds(c, s, h);
      assert s.st[h].Dropped? ==> s.src[h] == c.src[h];
    }
  }

  /** A symlink is at its destination, or still where it was. */
  lemma NoLinkIsLost(c: Cfg, s: State, i: nat)
    requires Reachable(c, s) && !c.dry && i < |c.src| && c.src[i].Symlink?
    ensures |s.src| == |s.dst| == |c.src|
    ensures s.src[i] == c.src[i] || (DstNode(c, s, i).Symlink? && DstNode(c, s, i).target == c.src[i].target)
  {
    ReachKeeps(c, s);
    assert EntryOk(c, s, i);
  }

  // ---- Hard links ----

  /** After a run without failure all names of one inode are names of one inode at the destination, whether the
      earliest was copied or adopted. */
  lemma HardlinksAreKept(c: Cfg, s: State, i: nat, j: nat)
    requires Reachable(c, s) && !c.dry && s.phase.Removing? && s.failed == 0 && !s.aborted
    requires i < s.walked && j < s.walked && c.Grouped(i) && c.Grouped(j) && c.src[i] == c.src[j]
    ensures |s.src| == |s.dst| == |c.src|
    ensures DstNode(c, s, i).File? && DstNode(c, s, i) == DstNode(c, s, j)
  {
    ReachKeeps(c, s);
    assert EntryOk(c, s, i) && EntryOk(c, s, j);
    assert EntryOk(c, s, s.primary[c.src[i].ino].i);
  }
}
