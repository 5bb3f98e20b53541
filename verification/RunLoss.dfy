/** Exactly when a run can lose a source file's own place: which trees and options let a failing link leave its
    content at neither its own destination nor any source path. */
module RunLoss {
  import opened Scan
  import opened RunCopy
  import opened RunSafety
  import RunCounts

  /** Neither its own destination nor a source path of its inode has the content of entry i. */
  ghost predicate Lost(c: Cfg, s: State, i: nat)
    requires i < |c.src| && c.src[i].File?
  {
    Shaped(c, s) && !Holds(c, s, i) && !Survives(c, s, i)
  }

  /** The first name of an inode can end at a file that is not its own source: by a copy, or by keeping another
      file.  Its own file is up to date, unless --checksum cannot read it; a directory is never replaced by a file. */
  predicate GetsAnother(c: Cfg, h: nat)
    requires h < |c.src| == |c.dst|
  {
    if h in c.alias then c.checksum else !c.dst[h].Dir? && (c.dst[h] != c.src[h] || c.checksum)
  }

  /** A later name of an inode whose destination is its source entry, where the first name can get another file and
      every other name can lose its source: to the removal of moved sources, or to a link at its own destination. */
  predicate CanLose(c: Cfg, i: nat)
    requires i < |c.src| == |c.dst|
  {
    && i in c.alias && c.Grouped(i) && RunCounts.First(c, i) != i && GetsAnother(c, RunCounts.First(c, i))
    && (c.move || forall j :: 0 <= j < |c.src| && c.src[j] == c.src[i] ==> j in c.alias)
  }

  // ---- What keeps the content ----

  /** A first name that can get no other file keeps its source. */
  ghost predicate Bound(c: Cfg, s: State, h: nat)
    requires Shaped(c, s) && h < |c.src|
  {
    && s.src[h] == c.src[h]
    && (s.st[h].Finished? ==> DstNode(c, s, h) == c.src[h])
    && (s.st[h].Queued? ==> h !in c.alias && c.dst[h].Dir?)
  }

  ghost predicate KeepInv(c: Cfg, s: State) {
    && Shaped(c, s)
    && (forall ino, k :: ino in s.primary && 0 <= k < s.primary[ino].i ==> c.src[k] != File(ino))
    && (!c.move ==> forall j :: 0 <= j < |c.src| && j !in c.alias ==> s.src[j] == c.src[j])
    && (c.sameFile ==> forall h :: 0 <= h < |c.src| && IsFirst(c, h) && !GetsAnother(c, h) ==> Bound(c, s, h))
  }

  predicate IsFirst(c: Cfg, h: nat)
    requires h < |c.src|
  {
    c.Grouped(h) && RunCounts.First(c, h) == h
  }

  /** Entry i is handled without a new directory entry. */
  ghost predicate Stays(s: State, s': State, i: nat) {
    s'.src == s.src && s'.dst == s.dst && i < |s'.st| == |s.st| && !s'.st[i].Dropped?
  }

  /** Only the removal of a moved source takes a source path that is no destination. */
  lemma SourceStays(c: Cfg, s: State, e: Env)
    requires Enabled(c, s, Visit(e)) && !c.src[s.walked].File? && s.walked !in c.alias
    ensures Apply(c, s, Visit(e)).src == s.src
  {
  }

  lemma VisitedFile(c: Cfg, s: State, e: Env)
    requires Shaped(c, s) && s.walked < |c.src| && c.src[s.walked].File?
    ensures Stays(s, VisitEntry(c, s, e), s.walked)
  {
  }

  lemma JobSourceStays(c: Cfg, s: State, i: nat, e: Env)
    requires Enabled(c, s, RunJob(i, e))
    ensures i !in c.alias || s.aborted || SkipsJob(c, s, i, e) || !e.ok ==> Apply(c, s, RunJob(i, e)).src == s.src
  {
  }

  lemma LinkSourceStays(c: Cfg, s: State, i: nat, e: Env)
    requires Enabled(c, s, MakeLink(i, e))
    ensures i !in c.alias ==> Apply(c, s, MakeLink(i, e)).src == s.src
  {
  }

  /** A file compared with itself is up to date, whatever its attributes have become. */
  lemma OwnFileIsUpToDate(c: Cfg, s: State, h: nat, readable: bool)
    requires Inv(c, s) && h < |c.src| && c.src[h].File? && DstNode(c, s, h) == c.src[h] && !c.checksum
    ensures VerdictFor(c, s, h, readable).UpToDate?
  {
    assert c.KnownNode(c.src[h]);
  }

  /** Where no name before the first entry of an inode is walked, that entry is its first. */
  lemma NewFirst(c: Cfg, s: State)
    requires Inv(c, s) && s.walked < |c.src| && c.Grouped(s.walked) && c.src[s.walked].ino !in s.primary
    ensures forall k :: 0 <= k < s.walked ==> c.src[k] != c.src[s.walked]
  {
    forall k | 0 <= k < s.walked ensures c.src[k] != c.src[s.walked] { assert EntryOk(c, s, k); }
  }

  /** Entry a's turn leaves the first name of another entry as it was. */
  lemma OthersBound(c: Cfg, s: State, s': State, a: nat, h: nat)
    requires Shaped(c, s) && a < |c.src| && h < |c.src| && a != h && Turn(c, s, s', a) && Bound(c, s, h)
    ensures Bound(c, s', h)
  {
  }

  lemma VisitBound(c: Cfg, s: State, e: Env)
    requires Inv(c, s) && KeepInv(c, s) && c.sameFile && Enabled(c, s, Visit(e))
    requires IsFirst(c, s.walked) && !GetsAnother(c, s.walked)
    ensures Shaped(c, Apply(c, s, Visit(e))) && Bound(c, Apply(c, s, Visit(e)), s.walked)
  {
    var h, s1 := s.walked, s.(walked := s.walked + 1);
    assert EntryOk(c, s, h);
    VisitTurn(c, s, e);
    VisitedFile(c, s, e);
    if c.src[h].ino !in s.primary && DstNode(c, s, h) == c.src[h] && !c.checksum {
      assert Inv(c, s) && DstNode(c, s1, h) == DstNode(c, s, h);
      OwnFileIsUpToDate(c, s, h, e.readable);
      assert VerdictFor(c, s1, h, e.readable) == VerdictFor(c, s, h, e.readable);
    }
  }

  lemma JobBound(c: Cfg, s: State, h: nat, e: Env)
    requires Inv(c, s) && KeepInv(c, s) && c.sameFile && Enabled(c, s, RunJob(h, e)) && IsFirst(c, h)
    requires !GetsAnother(c, h)
    ensures Shaped(c, Apply(c, s, RunJob(h, e))) && Bound(c, Apply(c, s, RunJob(h, e)), h)
  {
    assert EntryOk(c, s, h) && Bound(c, s, h);
    JobTurn(c, s, h, e);
    JobSourceStays(c, s, h, e);
  }

  lemma RemoveBound(c: Cfg, s: State, h: nat, e: Env)
    requires Inv(c, s) && KeepInv(c, s) && c.sameFile && Enabled(c, s, RemoveSource(h, e)) && IsFirst(c, h)
    requires !GetsAnother(c, h)
    ensures Shaped(c, Apply(c, s, RemoveSource(h, e))) && Bound(c, Apply(c, s, RemoveSource(h, e)), h)
  {
    assert Bound(c, s, h) && SameEntry(c, s, h);
  }

  lemma LinkIsNotFirst(c: Cfg, s: State, h: nat, e: Env)
    requires Inv(c, s) && KeepInv(c, s) && Enabled(c, s, MakeLink(h, e))
    ensures !IsFirst(c, h)
  {
    assert EntryOk(c, s, h);
    assert c.src[s.primary[c.src[h].ino].i] == c.src[h] && s.primary[c.src[h].ino].i != h;
  }

  lemma PrimariesStayFirst(c: Cfg, s: State, s': State, a: nat)
    requires Inv(c, s) && KeepInv(c, s) && a < |c.src| && Turn(c, s, s', a)
    requires s'.primary != s.primary ==>
             a == s.walked && c.Grouped(a) && forall k :: 0 <= k < a ==> c.src[k] != c.src[a]
    ensures forall ino, k :: ino in s'.primary && 0 <= k < s'.primary[ino].i ==> c.src[k] != File(ino)
  {
  }

  lemma VisitKeeps(c: Cfg, s: State, e: Env)
    requires Inv(c, s) && KeepInv(c, s) && Enabled(c, s, Visit(e))
    ensures KeepInv(c, Apply(c, s, Visit(e)))
  {
    var a, s' := s.walked, Apply(c, s, Visit(e));
    VisitTurn(c, s, e);
    if c.src[a].File? { VisitedFile(c, s, e); } else if a !in c.alias { SourceStays(c, s, e); }
    if s'.primary != s.primary {
      OnlyGroupedMakePrimaries(c, s, e);
      NewFirst(c, s);
    }
    PrimariesStayFirst(c, s, s', a);
    forall h | c.sameFile && 0 <= h < |c.src| && IsFirst(c, h) && !GetsAnother(c, h) ensures Bound(c, s', h) {
      if h == a { VisitBound(c, s, e); } else { OthersBound(c, s, s', a, h); }
    }
  }

  lemma OnlyGroupedMakePrimaries(c: Cfg, s: State, e: Env)
    requires Enabled(c, s, Visit(e)) && Apply(c, s, Visit(e)).primary != s.primary
    ensures c.Grouped(s.walked) && c.src[s.walked].ino !in s.primary
  {
  }

  lemma JobKeeps(c: Cfg, s: State, i: nat, e: Env)
    requires Inv(c, s) && KeepInv(c, s) && Enabled(c, s, RunJob(i, e))
    ensures KeepInv(c, Apply(c, s, RunJob(i, e)))
  {
    var s' := Apply(c, s, RunJob(i, e));
    JobTurn(c, s, i, e);
    JobSourceStays(c, s, i, e);
    PrimariesStayFirst(c, s, s', i);
    forall h | c.sameFile && 0 <= h < |c.src| && IsFirst(c, h) && !GetsAnother(c, h) ensures Bound(c, s', h) {
      if h == i { JobBound(c, s, i, e); } else { OthersBound(c, s, s', i, h); }
    }
  }

  lemma LinkKeeps(c: Cfg, s: State, i: nat, e: Env)
    requires Inv(c, s) && KeepInv(c, s) && Enabled(c, s, MakeLink(i, e))
    ensures KeepInv(c, Apply(c, s, MakeLink(i, e)))
  {
    var s' := Apply(c, s, MakeLink(i, e));
    LinkTurn(c, s, i, e);
    LinkSourceStays(c, s, i, e);
    PrimariesStayFirst(c, s, s', i);
    forall h | c.sameFile && 0 <= h < |c.src| && IsFirst(c, h) && !GetsAnother(c, h) ensures Bound(c, s', h) {
      if h == i { LinkIsNotFirst(c, s, i, e); } else { OthersBound(c, s, s', i, h); }
    }
  }

  lemma RemoveKeeps(c: Cfg, s: State, i: nat, e: Env)
    requires Inv(c, s) && KeepInv(c, s) && Enabled(c, s, RemoveSource(i, e))
    ensures KeepInv(c, Apply(c, s, RemoveSource(i, e)))
  {
    var s' := Apply(c, s, RemoveSource(i, e));
    RemoveTurn(c, s, i, e);
    forall h | c.sameFile && 0 <= h < |c.src| && IsFirst(c, h) && !GetsAnother(c, h) ensures Bound(c, s', h) {
      if h == i { RemoveBound(c, s, i, e); } else { OthersBound(c, s, s', i, h); }
    }
  }

  lemma StepKeepsOwn(c: Cfg, s: State, t: Step)
    requires Inv(c, s) && KeepInv(c, s) && Enabled(c, s, t)
    ensures KeepInv(c, Apply(c, s, t))
  {
    if t.Visit? {
      VisitKeeps(c, s, t.e);
    } else if t.RunJob? {
      JobKeeps(c, s, t.i, t.e);
    } else if t.MakeLink? {
      LinkKeeps(c, s, t.i, t.e);
    } else if t.RemoveSource? {
      RemoveKeeps(c, s, t.i, t.e);
    } else {
      PhaseKeepsOwn(c, s, t);
    }
  }

  lemma PhaseKeepsOwn(c: Cfg, s: State, t: Step)
    requires KeepInv(c, s) && Enabled(c, s, t) && (t.StopWalk? || t.EndWalk? || t.EndJobs? || t.EndLinks? || t.Abort?)
    ensures KeepInv(c, Apply(c, s, t))
  {
    var s' := Apply(c, s, t);
    assert Shaped(c, s');
    forall h | c.sameFile && 0 <= h < |c.src| && IsFirst(c, h) && !GetsAnother(c, h) ensures Bound(c, s', h) {
      assert Bound(c, s, h);
    }
  }

  lemma {:induction false} RunKeepsOwn(c: Cfg, states: seq<State>, steps: seq<Step>, k: nat)
    requires Run(c, states, steps) && !c.dry && k <= |steps|
    ensures KeepInv(c, states[k])
  {
    if k > 0 {
      RunKeepsOwn(c, states, steps, k - 1);
      RunKeeps(c, states, steps, k - 1);
      StepKeepsOwn(c, states[k - 1], steps[k - 1]);
    }
  }

  /** Whatever is lost is lost in the one way there is. */
  lemma LostCanLose(c: Cfg, s: State, i: nat)
    requires Reachable(c, s) && !c.dry && Honest(c) && i < |c.src| && c.src[i].File? && Lost(c, s, i)
    ensures CanLose(c, i)
  {
    ReachKeeps(c, s);
    var states, steps :| Run(c, states, steps) && states[|steps|] == s;
    RunKeepsOwn(c, states, steps, |steps|);
    LostFromHere(c, s, i);
  }

  lemma LostFromHere(c: Cfg, s: State, i: nat)
    requires Inv(c, s) && KeepInv(c, s) && !c.dry && Honest(c) && i < |c.src| && c.src[i].File? && Lost(c, s, i)
    ensures CanLose(c, i)
  {
    assert EntryOk(c, s, i);
    var h := s.primary[c.src[i].ino].i;
    assert EntryOk(c, s, h);
    assert s.st[i].Dropped? && i in c.alias && h != i;
    assert RunCounts.First(c, i) == h == RunCounts.First(c, h);
    assert s.src[h] != c.src[h];
    assert GetsAnother(c, h);
  }

  // ---- The run that loses ----

  lemma {:induction false} Unused(s: set<nat>) returns (n: nat)
    ensures forall x :: x in s ==> x < n
    decreases |s|
  {
    if s == {} {
      n := 0;
    } else {
      var x :| x in s;
      n := Unused(s - {x});
      assert forall y :: y in s ==> y == x || y in s - {x};
      n := if n <= x then x + 1 else n;
    }
  }

  /** Nothing can be read, and a sync leaves the attributes as they are. */
  lemma SyncEnv(c: Cfg, s: State, i: nat, ok: bool, removed: bool) returns (e: Env)
    requires Shaped(c, s) && i < |c.src|
    ensures SyncOk(c, s, i, e) && e.newIno !in s.inodes && !e.readable && e.ok == ok && e.removed == removed
  {
    var n := Unused(s.inodes.Keys);
    var d := DstNode(c, s, i);
    var b := if d.File? && d.ino in s.inodes then s.inodes[d.ino] else Body([], 0, 0, Unknown);
    e := Env(false, ok, removed, n, b);
  }

  lemma JobEnv(c: Cfg, s: State, i: nat, ok: bool) returns (e: Env)
    requires Shaped(c, s) && i < |c.src| && c.src[i].File? && (ok ==> !DstNode(c, s, i).Dir?)
    ensures JobOk(c, s, i, e) && !e.readable && e.ok == ok
  {
    e := SyncEnv(c, s, i, ok, false);
    if !SkipsJob(c, s, i, e) { e := e.(body := c.SrcBody(i)); }
  }

  /** On the way to losing entry i, whose inode's first name is h: nothing of the inode has failed but perhaps i
      itself, h has not ended at its own file, and other names keep their source until it is removed. */
  ghost predicate OnCourse(c: Cfg, s: State, i: nat, h: nat, lost: bool) {
    && Reachable(c, s) && Inv(c, s) && KeepInv(c, s) && !s.aborted && !s.stopped
    && i < |c.src| && h < |c.src| && CanLose(c, i) && h == RunCounts.First(c, i) && NamesOnCourse(c, s, i, h, lost)
  }

  ghost predicate NamesOnCourse(c: Cfg, s: State, i: nat, h: nat, lost: bool)
    requires Shaped(c, s) && i < |c.src| && h < |c.src|
  {
    && (forall j :: 0 <= j < |c.src| && c.src[j] == c.src[i] && j != i ==> !s.st[j].Dropped?)
    && (forall j :: 0 <= j < |c.src| && c.src[j] == c.src[i] && j !in c.alias ==>
          s.src[j] == c.src[j] || s.src[j].Missing?)
    && (s.st[h].Finished? ==> DstNode(c, s, h) != c.src[h])
    && if lost then s.st[i].Dropped? && s.src[i].Missing? else !s.st[i].Dropped? && s.src[i] == c.src[i]
  }

  /** What a step that is not about the inode, or is about it in the right way, has to do to stay on course. */
  lemma StayOnCourse(c: Cfg, s: State, t: Step, s': State, a: nat, i: nat, h: nat, lost: bool, lost': bool)
    requires OnCourse(c, s, i, h, lost) && Enabled(c, s, t) && s' == Apply(c, s, t)
    requires a < |c.src| && Turn(c, s, s', a) && (a != i ==> lost' == lost)
    requires c.src[a] == c.src[i] && a != i ==> !s'.st[a].Dropped?
    requires c.src[a] == c.src[i] && a !in c.alias ==> s'.src[a] == s.src[a] || s'.src[a].Missing?
    requires a == h && s'.st[h].Finished? ==> DstNode(c, s', h) != c.src[h]
    requires a == i ==>
             if lost' then s'.st[i].Dropped? && s'.src[i].Missing?
             else !s'.st[i].Dropped? && s'.src[i] == c.src[i]
    ensures OnCourse(c, s', i, h, lost')
  {
    ReachStep(c, s, t);
    ReachKeeps(c, s');
    StepKeepsOwn(c, s, t);
    NamesStay(c, s, s', a, i, h, lost, lost');
  }

  lemma NamesStay(c: Cfg, s: State, s': State, a: nat, i: nat, h: nat, lost: bool, lost': bool)
    requires Shaped(c, s) && i < |c.src| && h < |c.src| && a < |c.src| && NamesOnCourse(c, s, i, h, lost)
    requires Turn(c, s, s', a) && (a != i ==> lost' == lost)
    requires c.src[a] == c.src[i] && a != i ==> !s'.st[a].Dropped?
    requires c.src[a] == c.src[i] && a !in c.alias ==> s'.src[a] == s.src[a] || s'.src[a].Missing?
    requires a == h && s'.st[h].Finished? ==> DstNode(c, s', h) != c.src[h]
    requires a == i ==>
             if lost' then s'.st[i].Dropped? && s'.src[i].Missing?
             else !s'.st[i].Dropped? && s'.src[i] == c.src[i]
    ensures NamesOnCourse(c, s', i, h, lost')
  {
    assert forall j :: 0 <= j < |c.src| && j != a ==>
      s'.st[j] == s.st[j] && s'.src[j] == s.src[j] && s'.dst[j] == s.dst[j];
  }

  /** Between the phases. */
  lemma PassPhase(c: Cfg, s: State, t: Step, i: nat, h: nat, lost: bool)
    requires OnCourse(c, s, i, h, lost) && Enabled(c, s, t) && (t.EndWalk? || t.EndJobs? || t.EndLinks?)
    ensures OnCourse(c, Apply(c, s, t), i, h, lost)
  {
    var s' := Apply(c, s, t);
    assert s'.src == s.src && s'.dst == s.dst && s'.st == s.st;
    ReachStep(c, s, t);
    ReachKeeps(c, s');
    StepKeepsOwn(c, s, t);
  }

  /** The walk: directories are made, but nothing can be read, so nothing is kept that a checksum must confirm. */
  lemma {:induction false} WalkOn(c: Cfg, i: nat, h: nat, k: nat) returns (s: State)
    requires c.Valid() && !c.dry && i < |c.src| && CanLose(c, i) && h == RunCounts.First(c, i) && k <= |c.src|
    ensures OnCourse(c, s, i, h, false) && s.phase.Walking? && s.walked == k
  {
    if k == 0 {
      s := Start(c);
      var steps: seq<Step> := [];
      assert Run(c, [s], steps) && [s][|steps|] == s;
      ReachKeeps(c, s);
      RunKeepsOwn(c, [s], steps, 0);
    } else {
      s := WalkOn(c, i, h, k - 1);
      s := WalkNext(c, s, i, h);
    }
  }

  /** With nothing readable the first name is kept only where size and time agree, at a file that is not its own. */
  lemma FirstNotKept(c: Cfg, s: State, e: Env, i: nat, h: nat)
    requires OnCourse(c, s, i, h, false) && Enabled(c, s, Visit(e)) && s.walked == h && !e.readable
    ensures var s' := Apply(c, s, Visit(e)); |s'.st| == |s'.src| == |s'.dst| == |c.src|
    ensures var s' := Apply(c, s, Visit(e)); s'.st[h].Finished? ==> DstNode(c, s', h) != c.src[h]
  {
    VisitedFile(c, s, e);
    assert EntryOk(c, s, h);
    if c.src[h].ino !in s.primary && c.checksum {
      var s1 := s.(walked := h + 1);
      assert VerdictFor(c, s1, h, e.readable).NeedCopy?;
    }
  }

  lemma WalkNext(c: Cfg, s: State, i: nat, h: nat) returns (s': State)
    requires OnCourse(c, s, i, h, false) && s.phase.Walking? && s.walked < |c.src|
    ensures OnCourse(c, s', i, h, false) && s'.phase.Walking? && s'.walked == s.walked + 1
  {
    var e := SyncEnv(c, s, s.walked, c.src[s.walked].Dir?, false);
    assert Enabled(c, s, Visit(e));
    s' := Apply(c, s, Visit(e));
    VisitTurn(c, s, e);
    if s.walked == h { FirstNotKept(c, s, e, i, h); }
    VisitWalks(c, s, e);
    WalkTurn(c, s, e, s', i, h);
  }

  lemma VisitWalks(c: Cfg, s: State, e: Env)
    requires Enabled(c, s, Visit(e))
    ensures Apply(c, s, Visit(e)).walked == s.walked + 1
  {
  }

  lemma WalkTurn(c: Cfg, s: State, e: Env, s': State, i: nat, h: nat)
    requires OnCourse(c, s, i, h, false) && Enabled(c, s, Visit(e)) && s' == Apply(c, s, Visit(e))
    requires Turn(c, s, s', s.walked)
    requires s.walked == h && s'.st[h].Finished? ==> DstNode(c, s', h) != c.src[h]
    ensures OnCourse(c, s', i, h, false)
  {
    if c.src[s.walked].File? { VisitedFile(c, s, e); }
    StayOnCourse(c, s, Visit(e), s', s.walked, i, h, false, false);
  }

  // The jobs: the first name is copied, every other copy fails.

  lemma {:induction false} JobsOn(c: Cfg, i: nat, h: nat, k: nat) returns (s: State)
    requires c.Valid() && !c.dry && i < |c.src| && CanLose(c, i) && h == RunCounts.First(c, i) && k <= |c.src|
    ensures OnCourse(c, s, i, h, false) && s.phase.Working? && s.walked == |c.src|
    ensures forall j :: 0 <= j < k ==> !s.st[j].Queued?
  {
    if k == 0 {
      s := WalkOn(c, i, h, |c.src|);
      PassPhase(c, s, EndWalk, i, h, false);
      s := Apply(c, s, EndWalk);
    } else {
      s := JobsOn(c, i, h, k - 1);
      if s.st[k - 1].Queued? { s := JobNext(c, s, k - 1, i, h); }
    }
  }

  lemma JobNext(c: Cfg, s: State, k: nat, i: nat, h: nat) returns (s': State)
    requires OnCourse(c, s, i, h, false) && s.phase.Working? && k < |c.src| && s.st[k].Queued? && s.walked == |c.src|
    ensures OnCourse(c, s', i, h, false) && s'.phase.Working? && s'.walked == |c.src|
    ensures |s'.st| == |s.st| && !s'.st[k].Queued? && forall j :: 0 <= j < |s.st| && j != k ==> s'.st[j] == s.st[j]
  {
    assert EntryOk(c, s, k) && c.src[k].File?;
    var e := JobEnv(c, s, k, k == h);
    assert Enabled(c, s, RunJob(k, e));
    s' := Apply(c, s, RunJob(k, e));
    JobOnCourse(c, s, k, e, s', i, h);
  }

  lemma JobOnCourse(c: Cfg, s: State, k: nat, e: Env, s': State, i: nat, h: nat)
    requires OnCourse(c, s, i, h, false) && s.phase.Working? && k < |c.src| && s.st[k].Queued? && s.walked == |c.src|
    requires EntryOk(c, s, k) && Enabled(c, s, RunJob(k, e)) && e.ok == (k == h) && s' == Apply(c, s, RunJob(k, e))
    ensures OnCourse(c, s', i, h, false) && s'.phase.Working? && s'.walked == |c.src|
    ensures |s'.st| == |s.st| && !s'.st[k].Queued? && forall j :: 0 <= j < |s.st| && j != k ==> s'.st[j] == s.st[j]
  {
    LaterNameNotQueued(c, s, i, h);
    if c.src[k] == c.src[i] { OnlyFirstQueued(c, s, k, i, h); }
    JobTurn(c, s, k, e);
    FirstCopied(c, s, k, e, s', i, h);
    JobSourceStays(c, s, k, e);
    StayOnCourse(c, s, RunJob(k, e), s', k, i, h, false, false);
  }

  lemma LaterNameNotQueued(c: Cfg, s: State, i: nat, h: nat)
    requires OnCourse(c, s, i, h, false) && s.walked == |c.src|
    ensures !s.st[i].Queued?
  {
    if s.st[i].Queued? { OnlyFirstQueued(c, s, i, i, h); }
  }

  lemma OnlyFirstQueued(c: Cfg, s: State, k: nat, i: nat, h: nat)
    requires OnCourse(c, s, i, h, false) && k < |c.src| && s.st[k].Queued? && c.src[k] == c.src[i]
    ensures k == h
  {
    assert EntryOk(c, s, k);
    var p := s.primary[c.src[k].ino].i;
    assert p == k && forall j :: 0 <= j < k ==> c.src[j] != c.src[k];
  }

  /** A copied file is a new one. */
  lemma FirstCopied(c: Cfg, s: State, k: nat, e: Env, s': State, i: nat, h: nat)
    requires OnCourse(c, s, i, h, false) && k < |c.src| && Enabled(c, s, RunJob(k, e)) && e.ok == (k == h)
    requires s' == Apply(c, s, RunJob(k, e)) && EntryOk(c, s, k)
    ensures |s'.st| == |s'.src| == |s'.dst| == |c.src| && !s'.st[k].Queued?
    ensures k == h ==> s'.st[h].Finished? && DstNode(c, s', h) != c.src[h]
    ensures k != h ==> s'.src == s.src
  {
    RunCounts.StepIsJob(c, s, k, e);
    JobEnds(c, s, k, e);
    if k == h { CopyIsNew(c, s, k, e); }
  }

  lemma JobEnds(c: Cfg, s: State, k: nat, e: Env)
    requires Shaped(c, s) && k < |c.src| && c.src[k].File? && s.st[k].Queued?
    ensures var s' := CopyOne(c, s, k, e);
            |s'.st| == |s'.src| == |s'.dst| == |c.src| && !s'.st[k].Queued? && (!e.ok ==> s'.src == s.src)
  {
    if SkipsJob(c, s, k, e) {
      SkipEnds(c, s, k, VerdictFor(c, s, k, e.readable), e);
    } else {
      TransferEnds(c, s, k, e);
    }
  }

  lemma SkipEnds(c: Cfg, s: State, k: nat, v: Verdict, e: Env)
    requires Shaped(c, s) && k < |c.src|
    ensures FinishUnchanged(c, s, k, v, e).st[k].Finished?
  {
  }

  lemma TransferEnds(c: Cfg, s: State, k: nat, e: Env)
    requires Shaped(c, s) && k < |c.src| && c.src[k].File?
    ensures var s' := Transfer(c, s, k, e); !s'.st[k].Queued? && (!e.ok ==> s'.src == s.src)
  {
  }

  lemma CopyIsNew(c: Cfg, s: State, k: nat, e: Env)
    requires Shaped(c, s) && k < |c.src| && c.src[k].File? && s.st[k].Queued? && JobOk(c, s, k, e) && e.ok
    requires c.src[k].ino in s.inodes && !SkipsJob(c, s, k, e)
    ensures var s' := CopyOne(c, s, k, e); s'.st[k].Finished? && DstNode(c, s', k) != c.src[k]
  {
  }

  // The links: that of entry i fails with its old entry removed, its inode's other names are linked, the rest fail.

  lemma {:induction false} LinksOn(c: Cfg, i: nat, h: nat, k: nat) returns (s: State)
    requires c.Valid() && !c.dry && i < |c.src| && CanLose(c, i) && h == RunCounts.First(c, i) && k <= |c.src|
    ensures OnCourse(c, s, i, h, i < k) && s.phase.Linking? && s.walked == |c.src|
    ensures forall j :: 0 <= j < k ==> !s.st[j].Deferred?
  {
    if k == 0 {
      s := JobsOn(c, i, h, |c.src|);
      PassPhase(c, s, EndJobs, i, h, false);
      s := Apply(c, s, EndJobs);
    } else {
      s := LinksOn(c, i, h, k - 1);
      if k - 1 == i { LinkWaits(c, s, i, h); }
      if s.st[k - 1].Deferred? { s := LinkNext(c, s, k - 1, i, h, i < k - 1); }
    }
  }

  /** The first name is done. */
  lemma FirstDone(c: Cfg, s: State, i: nat, h: nat, lost: bool)
    requires OnCourse(c, s, i, h, lost) && !s.phase.Walking? && !s.phase.Working? && s.walked == |c.src|
    ensures c.src[i].ino in s.primary && s.primary[c.src[i].ino].i == h && s.st[h].Finished?
    ensures DstNode(c, s, h).File? && DstNode(c, s, h) != c.src[h]
  {
    assert EntryOk(c, s, i);
    var p := s.primary[c.src[i].ino].i;
    assert p == h;
    assert EntryOk(c, s, h);
  }

  lemma LinkWaits(c: Cfg, s: State, i: nat, h: nat)
    requires OnCourse(c, s, i, h, false) && s.phase.Linking? && s.walked == |c.src|
    ensures s.st[i].Deferred?
  {
    FirstDone(c, s, i, h, false);
    assert EntryOk(c, s, i);
  }

  lemma LinkNext(c: Cfg, s: State, k: nat, i: nat, h: nat, lost: bool) returns (s': State)
    requires OnCourse(c, s, i, h, lost) && s.phase.Linking? && s.walked == |c.src| && k < |c.src| && s.st[k].Deferred?
    requires k == i ==> !lost
    ensures OnCourse(c, s', i, h, lost || k == i) && s'.phase.Linking? && s'.walked == |c.src|
    ensures |s'.st| == |s.st| && !s'.st[k].Deferred? && forall j :: 0 <= j < |s.st| && j != k ==> s'.st[j] == s.st[j]
  {
    FirstDone(c, s, i, h, lost);
    assert EntryOk(c, s, k);
    var e := SyncEnv(c, s, k, c.src[k] == c.src[i] && k != i, k == i);
    assert Enabled(c, s, MakeLink(k, e));
    s' := Apply(c, s, MakeLink(k, e));
    LinkOnCourse(c, s, k, e, s', i, h, lost);
  }

  lemma LinkOnCourse(c: Cfg, s: State, k: nat, e: Env, s': State, i: nat, h: nat, lost: bool)
    requires OnCourse(c, s, i, h, lost) && s.phase.Linking? && s.walked == |c.src| && k < |c.src| && s.st[k].Deferred?
    requires k == i ==> !lost
    requires s.st[h].Finished?
    requires Enabled(c, s, MakeLink(k, e)) && e.ok == (c.src[k] == c.src[i] && k != i) && e.removed == (k == i)
    requires s' == Apply(c, s, MakeLink(k, e))
    ensures OnCourse(c, s', i, h, lost || k == i) && s'.phase.Linking? && s'.walked == |c.src|
    ensures |s'.st| == |s.st| && !s'.st[k].Deferred? && forall j :: 0 <= j < |s.st| && j != k ==> s'.st[j] == s.st[j]
  {
    LinkTurn(c, s, k, e);
    LinkSourceStays(c, s, k, e);
    LinkOutcome(c, s, k, e, s', i);
    StayOnCourse(c, s, MakeLink(k, e), s', k, i, h, lost, lost || k == i);
  }

  lemma LinkOutcome(c: Cfg, s: State, k: nat, e: Env, s': State, i: nat)
    requires Enabled(c, s, MakeLink(k, e)) && !s.aborted && !c.dry && s' == Apply(c, s, MakeLink(k, e)) && i < |c.src|
    requires e.ok == (c.src[k] == c.src[i] && k != i) && e.removed == (k == i) && i in c.alias
    ensures |s'.st| == |s'.src| == |c.src| && !s'.st[k].Deferred? && s'.walked == s.walked
    ensures c.src[k] == c.src[i] && k != i ==> !s'.st[k].Dropped?
    ensures k == i ==> s'.st[i].Dropped? && s'.src[i].Missing?
  {
  }

  // The removals: every other name that is no destination goes.

  lemma {:induction false} RemovesOn(c: Cfg, i: nat, h: nat, k: nat) returns (s: State)
    requires c.Valid() && !c.dry && i < |c.src| && CanLose(c, i) && h == RunCounts.First(c, i) && k <= |c.src|
    ensures OnCourse(c, s, i, h, true) && s.phase.Removing? && s.finished && s.walked == |c.src|
    ensures c.move ==> forall j :: 0 <= j < k && c.src[j] == c.src[i] && j !in c.alias ==> s.src[j].Missing?
  {
    if k == 0 {
      s := LinksOn(c, i, h, |c.src|);
      PassPhase(c, s, EndLinks(false), i, h, true);
      s := Apply(c, s, EndLinks(false));
    } else {
      s := RemovesOn(c, i, h, k - 1);
      var a := k - 1;
      if c.move && c.src[a] == c.src[i] && a !in c.alias && !s.src[a].Missing? { s := RemoveNext(c, s, a, i, h); }
    }
  }

  /** Every other name of the inode is done, at the first name's file. */
  lemma NamesDone(c: Cfg, s: State, k: nat, i: nat, h: nat)
    requires OnCourse(c, s, i, h, true) && s.phase.Removing? && s.walked == |c.src|
    requires k < |c.src| && c.src[k] == c.src[i] && k != i
    ensures Moved(s, k) && DstNode(c, s, k) == DstNode(c, s, h) && DstNode(c, s, h).File?
    ensures DstNode(c, s, h) != c.src[i]
  {
    FirstDone(c, s, i, h, true);
    assert EntryOk(c, s, k);
  }

  lemma RemoveNext(c: Cfg, s: State, k: nat, i: nat, h: nat) returns (s': State)
    requires OnCourse(c, s, i, h, true) && s.phase.Removing? && s.finished && s.walked == |c.src| && c.move
    requires k < |c.src| && c.src[k] == c.src[i] && k !in c.alias && !s.src[k].Missing?
    ensures OnCourse(c, s', i, h, true) && s'.phase.Removing? && s'.finished && s'.walked == |c.src|
    ensures s'.src == s.src[k := Missing]
  {
    NamesDone(c, s, k, i, h);
    var e := SyncEnv(c, s, k, true, false);
    assert Enabled(c, s, RemoveSource(k, e)) && !SameEntry(c, s, k);
    s' := Apply(c, s, RemoveSource(k, e));
    assert s' == s.(src := s.src[k := Missing]);
    RemoveTurn(c, s, k, e);
    StayOnCourse(c, s, RemoveSource(k, e), s', k, i, h, true, true);
  }

  lemma CanLoseIsLost(c: Cfg, i: nat) returns (s: State)
    requires c.Valid() && !c.dry && i < |c.src| && c.src[i].File? && CanLose(c, i)
    ensures Reachable(c, s) && Lost(c, s, i)
  {
    var h := RunCounts.First(c, i);
    s := RemovesOn(c, i, h, |c.src|);
    assert DstNode(c, s, i).Missing?;
    forall j | 0 <= j < |c.src| && c.src[j] == c.src[i] ensures s.src[j] != c.src[i] {
      if j != i { NamesDone(c, s, j, i, h); }
    }
  }

  // ---- Exactly when ----

  /** Some run, with whatever failures, leaves the content of entry i at neither its own destination nor a source
      path of its inode if and only if the trees and options let it. */
  lemma LostExactlyWhen(c: Cfg, i: nat)
    requires c.Valid() && !c.dry && Honest(c) && i < |c.src| && c.src[i].File?
    ensures (exists s :: Reachable(c, s) && Lost(c, s, i)) <==> CanLose(c, i)
  {
    if CanLose(c, i) { var s := CanLoseIsLost(c, i); }
    if s :| Reachable(c, s) && Lost(c, s, i) { LostCanLose(c, s, i); }
  }

  /** At every moment of every run, with --move, failures and aborts: where the trees and options do not let a name
      be lost, its content is at its own destination or a source path of its inode is left; and where they do, it
      is at least at another name's destination. */
  lemma NothingIsLost(c: Cfg, s: State, i: nat)
    requires Reachable(c, s) && !c.dry && Honest(c) && i < |c.src| && c.src[i].File?
    ensures Shaped(c, s)
    ensures || Holds(c, s, i) || Survives(c, s, i)
            || (CanLose(c, i) && exists j :: 0 <= j < |c.src| && c.src[j] == c.src[i] && Holds(c, s, j))
  {
    ContentRemains(c, s, i);
    if Lost(c, s, i) { LostCanLose(c, s, i); }
  }

  /** Two names of one inode; the destination of the second is its own source entry. */
  function TwoNames(b: Body): Cfg {
    Cfg([File(0), File(0)], [Missing, Missing], map[0 := b], {0}, {1}, true, false, true, false, false)
  }

  /** The smallest such trees, for any content. */
  lemma AliasedLinkCanLoseBoth(b: Body)
    ensures var c := TwoNames(b);
            c.Valid() && Honest(c) && CanLose(c, 1) && exists s :: Reachable(c, s) && Lost(c, s, 1)
  {
    var s := CanLoseIsLost(TwoNames(b), 1);
  }
}
