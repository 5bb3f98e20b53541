/** A second run over the same trees finds nothing to do. */
module RunAgain {
  import opened Scan
  import opened RunCopy
  import opened RunCounts

  /** A destination file with this body is up to date and has its source's attributes. */
  predicate NoDrift(c: Cfg, i: nat, b: Body)
    requires c.Valid() && i < |c.src| && c.src[i].File?
  {
    Compare(c.SrcBody(i), Regular(b), c.checksum, true) == UpToDate(false, false, false)
  }

  /** The trees share no file, so a run leaves the source as it is. */
  ghost predicate Apart(c: Cfg) {
    forall i, j :: 0 <= i < |c.src| && 0 <= j < |c.dst| && c.src[i].File? && c.dst[j].File? ==>
      c.src[i].ino != c.dst[j].ino
  }

  /** Setting attributes, at the end of a copy or on an up-to-date file, sets them all.  A visit that finds a file
      to copy sets none. */
  ghost predicate Exact(c: Cfg, s: State, t: Step)
    requires c.Valid()
  {
    match t
    case Visit(e) =>
      s.walked < |c.src| && Judged(c, s.walked) && FirstVerdict(c, s.walked).UpToDate? ==> NoDrift(c, s.walked, e.body)
    case RunJob(i, e) => i < |c.src| && c.src[i].File? ==> NoDrift(c, i, e.body)
    case _ => true
  }

  /** What a finished entry leaves at its destination. */
  ghost predicate Settled(c: Cfg, s: State, i: nat)
    requires Shaped(c, s) && i < |c.src|
  {
    match c.src[i]
    case Dir => s.dst[i] == c.dst[i]
    case Symlink(_, target) => s.dst[i].Symlink? && s.dst[i].target == target
    case File(_) =>
      if Judged(c, i) then
        && s.dst[i].File? && s.dst[i].ino in s.inodes && NoDrift(c, i, s.inodes[s.dst[i].ino])
        && (s.dst[i] == c.dst[i] || s.dst[i].ino !in c.inodes)
      else s.st[First(c, i)].Finished? && s.dst[i] == s.dst[First(c, i)]
  }

  ghost predicate AllSettled(c: Cfg, s: State) {
    && Shaped(c, s) && !c.dry && c.preserve && Apart(c)
    && (forall i :: 0 <= i < |c.src| && s.st[i].Finished? ==> Settled(c, s, i))
    && (forall i :: 0 <= i < |c.src| && c.src[i].File? ==>
          c.src[i].ino in s.inodes && s.inodes[c.src[i].ino] == c.inodes[c.src[i].ino])
  }

  /** Entries judged on their own account have files of their own. */
  ghost predicate Separate(c: Cfg, s: State)
    requires Shaped(c, s)
  {
    forall i, j :: 0 <= i < |c.src| && 0 <= j < |c.src| && i != j ==>
      Judged(c, i) && Judged(c, j) && s.st[i].Finished? && s.st[j].Finished? ==> s.dst[i] != s.dst[j]
  }

  /** Entry i keeps the file it found, or gets a new one. */
  ghost predicate OldOrNew(c: Cfg, s: State, s': State, i: nat)
    requires Shaped(c, s) && Shaped(c, s') && i < |c.src|
  {
    Judged(c, i) && s'.st[i].Finished? ==> s'.dst[i] == c.dst[i] || (s'.dst[i].File? && s'.dst[i].ino !in s.inodes)
  }

  lemma TurnSeparates(c: Cfg, s: State, s': State, i: nat)
    requires Inv(c, s) && AllSettled(c, s) && Separate(c, s) && i < |c.src| && Turn(c, s, s', i)
    requires OldOrNew(c, s, s', i)
    ensures Separate(c, s')
  {
    forall j | 0 <= j < |c.src| && j != i && Judged(c, i) && Judged(c, j) && s'.st[i].Finished? && s'.st[j].Finished?
      ensures s'.dst[i] != s'.dst[j]
    {
      assert Settled(c, s, j) && s'.dst[j] == s.dst[j] && c.KnownNode(c.dst[i]);
      if c.dst[i] == c.dst[j] && c.dst[i].File? { OneJudged(c, i, j); }
    }
  }

  lemma OthersStaySettled(c: Cfg, s: State, s': State, i: nat, j: nat)
    requires Inv(c, s) && AllSettled(c, s) && i < |c.src| && j < |c.src| && i != j && Turn(c, s, s', i)
    requires s.st[j].Finished?
    ensures Settled(c, s', j)
  {
    assert Settled(c, s, j);
    assert s'.dst[j] == s.dst[j] && s'.st[j] == s.st[j];
    if Judged(c, j) {
      assert c.KnownNode(c.dst[i]);
      if Judged(c, i) && c.dst[i] == s.dst[j] && s.dst[j] == c.dst[j] { OneJudged(c, i, j); }
    } else if c.src[j].File? {
      assert First(c, j) != i;
    }
  }

  lemma TurnSettles(c: Cfg, s: State, s': State, i: nat)
    requires Inv(c, s) && AllSettled(c, s) && i < |c.src| && Turn(c, s, s', i)
    requires (s'.st[i].Finished? ==> Settled(c, s', i))
    ensures AllSettled(c, s')
  {
    forall j | 0 <= j < |c.src| && s'.st[j].Finished? ensures Settled(c, s', j) {
      if j != i { OthersStaySettled(c, s, s', i, j); }
    }
    forall j | 0 <= j < |c.src| && c.src[j].File?
      ensures c.src[j].ino in s'.inodes && s'.inodes[c.src[j].ino] == c.inodes[c.src[j].ino]
    {
      assert c.dst[i].File? ==> c.src[j].ino != c.dst[i].ino;
    }
  }

  /** Where a kept file had drifted its attributes are now the source's. */
  lemma KeptSettles(c: Cfg, s: State, s': State, i: nat, e: Env)
    requires Shaped(c, s) && c.alias == {} && c.preserve && !c.dry && i < |c.src| && Judged(c, i) && AsBefore(c, s, i)
    requires NoDrift(c, i, e.body) && FirstVerdict(c, i).UpToDate?
    requires s'.dst == s.dst && |s'.st| == |s.st| && Shaped(c, s') && c.dst[i].File?
    requires s'.inodes == if FirstVerdict(c, i).Drift() then s.inodes[c.dst[i].ino := e.body] else s.inodes
    ensures Settled(c, s', i)
  {
    assert c.KnownNode(c.dst[i]);
  }

  lemma VisitJudgedSettles(c: Cfg, s: State, e: Env)
    requires Inv(c, s) && AllSettled(c, s) && Enabled(c, s, Visit(e)) && CleanStep(Visit(e)) && Exact(c, s, Visit(e))
    requires c.src[s.walked].File? && (c.Grouped(s.walked) ==> c.src[s.walked].ino !in s.primary)
    requires Turn(c, s, Apply(c, s, Visit(e)), s.walked)
    ensures var s' := Apply(c, s, Visit(e)); s'.st[s.walked].Finished? ==> Settled(c, s', s.walked)
  {
    var i, s1 := s.walked, s.(walked := s.walked + 1);
    assert FateOk(c, s, i) && Judged(c, i) && AsBefore(c, s1, i);
    VerdictIsFirst(c, s1, i);
    if c.Grouped(i) && FirstVerdict(c, i).UpToDate? { AdoptedSettles(c, s, e); }
  }

  lemma AdoptedSettles(c: Cfg, s: State, e: Env)
    requires Inv(c, s) && AllSettled(c, s) && Enabled(c, s, Visit(e)) && CleanStep(Visit(e)) && Exact(c, s, Visit(e))
    requires var i := s.walked;
             && c.src[i].File? && c.Grouped(i) && c.src[i].ino !in s.primary
             && Judged(c, i) && FirstVerdict(c, i).UpToDate? && AsBefore(c, s.(walked := i + 1), i)
             && VerdictFor(c, s.(walked := i + 1), i, e.readable) == FirstVerdict(c, i)
    requires Turn(c, s, Apply(c, s, Visit(e)), s.walked)
    ensures Settled(c, Apply(c, s, Visit(e)), s.walked)
  {
    assert c.dst[s.walked].File?;
    KeptSettles(c, s, Apply(c, s, Visit(e)), s.walked, e);
  }

  lemma VisitSettles(c: Cfg, s: State, e: Env)
    requires Inv(c, s) && AllSettled(c, s) && Enabled(c, s, Visit(e)) && CleanStep(Visit(e)) && Exact(c, s, Visit(e))
    requires Turn(c, s, Apply(c, s, Visit(e)), s.walked)
    ensures var s' := Apply(c, s, Visit(e)); s'.st[s.walked].Finished? ==> Settled(c, s', s.walked)
  {
    var i := s.walked;
    assert FateOk(c, s, i);
    if c.src[i].Dir? {
    } else if c.src[i].File? {
      if c.Grouped(i) && c.src[i].ino in s.primary { MemberSettles(c, s, e); } else { VisitJudgedSettles(c, s, e); }
    } else {
      LinkSettles(c, s, e);
    }
  }

  lemma LinkSettles(c: Cfg, s: State, e: Env)
    requires Inv(c, s) && AllSettled(c, s) && Enabled(c, s, Visit(e)) && CleanStep(Visit(e))
    requires c.src[s.walked].Symlink?
    ensures Settled(c, Apply(c, s, Visit(e)), s.walked)
  {
  }

  lemma MemberSettles(c: Cfg, s: State, e: Env)
    requires Inv(c, s) && AllSettled(c, s) && Enabled(c, s, Visit(e)) && c.Grouped(s.walked)
    requires c.src[s.walked].ino in s.primary
    ensures var s' := Apply(c, s, Visit(e)); s'.st[s.walked].Finished? ==> Settled(c, s', s.walked)
  {
    var i := s.walked;
    assert PrimaryOk(c, s, c.src[i].ino);
    assert First(c, i) == s.primary[c.src[i].ino].i;
  }

  lemma JobSettles(c: Cfg, s: State, i: nat, e: Env)
    requires Inv(c, s) && AllSettled(c, s) && !s.aborted && Enabled(c, s, RunJob(i, e))
    requires CleanStep(RunJob(i, e)) && Exact(c, s, RunJob(i, e))
    ensures Settled(c, Apply(c, s, RunJob(i, e)), i)
  {
    var s' := Apply(c, s, RunJob(i, e));
    assert FateOk(c, s, i);
    VerdictIsFirst(c, s, i);
    if SkipsJob(c, s, i, e) {
      assert c.dst[i].File?;
      KeptSettles(c, s, s', i, e);
    } else {
      assert s'.dst[i] == File(e.newIno) && s'.inodes[e.newIno] == e.body && e.newIno !in c.inodes;
    }
  }

  lemma MadeLinkSettles(c: Cfg, s: State, i: nat, e: Env)
    requires Inv(c, s) && AllSettled(c, s) && !s.aborted && Enabled(c, s, MakeLink(i, e)) && CleanStep(MakeLink(i, e))
    ensures Settled(c, Apply(c, s, MakeLink(i, e)), i)
  {
    var h := s.primary[c.src[i].ino].i;
    assert FateOk(c, s, i) && PrimaryOk(c, s, c.src[i].ino) && FateOk(c, s, h);
    assert First(c, i) == h && h != i;
  }

  lemma StepSettles(c: Cfg, s: State, t: Step)
    requires Inv(c, s) && AllSettled(c, s) && Separate(c, s) && !s.aborted && Enabled(c, s, t) && CleanStep(t)
    requires Exact(c, s, t)
    ensures AllSettled(c, Apply(c, s, t)) && Separate(c, Apply(c, s, t))
  {
    if t.Visit? {
      AfterVisit(c, s, t.e, Apply(c, s, t));
    } else if t.RunJob? {
      AfterJob(c, s, t.i, t.e, Apply(c, s, t));
    } else if t.MakeLink? {
      AfterLink(c, s, t.i, t.e, Apply(c, s, t));
    } else {
      PhaseSettles(c, s, t);
    }
  }

  lemma AfterVisit(c: Cfg, s: State, e: Env, s': State)
    requires Inv(c, s) && AllSettled(c, s) && Separate(c, s) && Enabled(c, s, Visit(e)) && CleanStep(Visit(e))
    requires Exact(c, s, Visit(e))
    requires s' == Apply(c, s, Visit(e))
    ensures AllSettled(c, s') && Separate(c, s')
  {
    VisitTurns(c, s, e);
    VisitSettles(c, s, e);
    VisitKeepsFile(c, s, e, s');
    BothSettle(c, s, s', s.walked);
  }

  lemma AfterJob(c: Cfg, s: State, i: nat, e: Env, s': State)
    requires Inv(c, s) && AllSettled(c, s) && Separate(c, s) && !s.aborted
    requires Enabled(c, s, RunJob(i, e)) && CleanStep(RunJob(i, e)) && Exact(c, s, RunJob(i, e))
    requires s' == Apply(c, s, RunJob(i, e))
    ensures AllSettled(c, s') && Separate(c, s')
  {
    JobTurns(c, s, i, e);
    JobSettles(c, s, i, e);
    JobIsNew(c, s, i, e, s');
    BothSettle(c, s, s', i);
  }

  lemma AfterLink(c: Cfg, s: State, i: nat, e: Env, s': State)
    requires Inv(c, s) && AllSettled(c, s) && Separate(c, s) && !s.aborted
    requires Enabled(c, s, MakeLink(i, e)) && CleanStep(MakeLink(i, e)) && s' == Apply(c, s, MakeLink(i, e))
    ensures AllSettled(c, s') && Separate(c, s')
  {
    assert FateOk(c, s, i);
    LinkTurns(c, s, i, e);
    MadeLinkSettles(c, s, i, e);
    BothSettle(c, s, s', i);
  }

  lemma BothSettle(c: Cfg, s: State, s': State, i: nat)
    requires Inv(c, s) && AllSettled(c, s) && Separate(c, s) && i < |c.src| && Turn(c, s, s', i)
    requires (s'.st[i].Finished? ==> Settled(c, s', i)) && OldOrNew(c, s, s', i)
    ensures AllSettled(c, s') && Separate(c, s')
  {
    TurnSettles(c, s, s', i);
    TurnSeparates(c, s, s', i);
  }

  lemma VisitKeepsFile(c: Cfg, s: State, e: Env, s': State)
    requires Inv(c, s) && Enabled(c, s, Visit(e)) && s' == Apply(c, s, Visit(e)) && Turn(c, s, s', s.walked)
    ensures OldOrNew(c, s, s', s.walked)
  {
    assert FateOk(c, s, s.walked);
  }

  lemma JobIsNew(c: Cfg, s: State, i: nat, e: Env, s': State)
    requires Inv(c, s) && !s.aborted && Enabled(c, s, RunJob(i, e)) && CleanStep(RunJob(i, e))
    requires s' == Apply(c, s, RunJob(i, e)) && Turn(c, s, s', i)
    ensures OldOrNew(c, s, s', i)
  {
    assert FateOk(c, s, i);
  }

  lemma PhaseSettles(c: Cfg, s: State, t: Step)
    requires AllSettled(c, s) && Separate(c, s) && Enabled(c, s, t) && (t.EndWalk? || t.EndJobs? || t.EndLinks?)
    ensures AllSettled(c, Apply(c, s, t)) && Separate(c, Apply(c, s, t))
  {
    var s' := Apply(c, s, t);
    forall j | 0 <= j < |c.src| && s'.st[j].Finished? ensures Settled(c, s', j) { assert Settled(c, s, j); }
  }

  ghost predicate ExactRun(c: Cfg, states: seq<State>, steps: seq<Step>) {
    CleanRun(c, states, steps) && forall k :: 0 <= k < |steps| ==> Exact(c, states[k], steps[k])
  }

  lemma {:induction false} RunSettles(c: Cfg, states: seq<State>, steps: seq<Step>, k: nat)
    requires ExactRun(c, states, steps) && Unaliased(c) && Apart(c) && !c.dry && c.preserve && k <= |steps|
    ensures AllSettled(c, states[k]) && Separate(c, states[k])
  {
    if k == 0 {
      forall i | 0 <= i < |c.src| && c.src[i].File? ensures c.src[i].ino in c.inodes { assert c.KnownNode(c.src[i]); }
    } else {
      RunSettles(c, states, steps, k - 1);
      CleanKeeps(c, states, steps, k - 1);
      StepSettles(c, states[k - 1], steps[k - 1]);
    }
  }

  /** The trees after a run, for the next one. */
  function After(c: Cfg, s: State): Cfg {
    c.(dst := s.dst, inodes := s.inodes)
  }

  /** The fate of every entry in a second run: listed or skipped; only where the destination tells no inodes are the
      later names of an inode linked again. */
  function FateAgain(c: Cfg, i: nat): How
    requires i < |c.src|
  {
    if c.src[i].Dir? then Listed else if c.src[i].File? && !Judged(c, i) && !c.sameFile then Linked else Skipped
  }

  lemma AfterIsValid(c: Cfg, s: State)
    requires Inv(c, s) && AllSettled(c, s) && forall i :: 0 <= i < |c.src| ==> s.st[i].Finished?
    ensures After(c, s).Valid()
  {
    forall i | 0 <= i < |c.src| ensures After(c, s).KnownNode(c.src[i]) && After(c, s).KnownNode(s.dst[i]) {
      assert Settled(c, s, i) && c.KnownNode(c.src[i]) && c.KnownNode(c.dst[i]);
      if c.src[i].File? && !Judged(c, i) { assert Settled(c, s, First(c, i)); }
    }
  }

  /** The entry on whose account entry i has its destination file. */
  function Head(c: Cfg, i: nat): nat
    requires i < |c.src|
  {
    if c.src[i].File? && !Judged(c, i) then First(c, i) else i
  }

  lemma SettledIsUnaliased(c: Cfg, s: State)
    requires Inv(c, s) && AllSettled(c, s) && Separate(c, s) && forall i :: 0 <= i < |c.src| ==> s.st[i].Finished?
    ensures After(c, s).Valid() && Unaliased(After(c, s))
  {
    AfterIsValid(c, s);
    forall i, j | 0 <= i < j < |c.src| && s.dst[i].File? && s.dst[i] == s.dst[j]
      ensures c.Grouped(i) && c.src[i] == c.src[j] {
      SharedOnlyInGroup(c, s, i, j);
    }
  }

  lemma SharedOnlyInGroup(c: Cfg, s: State, i: nat, j: nat)
    requires Inv(c, s) && AllSettled(c, s) && Separate(c, s) && (forall k :: 0 <= k < |c.src| ==> s.st[k].Finished?)
    requires i < j < |c.src| && s.dst[i].File? && s.dst[i] == s.dst[j]
    ensures c.Grouped(i) && c.src[i] == c.src[j]
  {
    var h, g := Head(c, i), Head(c, j);
    assert Settled(c, s, i) && Settled(c, s, j) && Settled(c, s, h) && Settled(c, s, g);
    assert c.KnownNode(c.dst[h]) && c.KnownNode(c.dst[g]);
    assert s.dst[h] == s.dst[g];
  }

  /** A run leaves what another can start from, with entries at one destination file only as names of one source. */
  lemma AfterIsUnaliased(c: Cfg, states: seq<State>, steps: seq<Step>)
    requires ExactRun(c, states, steps) && Unaliased(c) && Apart(c) && !c.dry && c.preserve
    requires states[|steps|].phase.Removing?
    ensures After(c, states[|steps|]).Valid() && Unaliased(After(c, states[|steps|]))
  {
    var s := states[|steps|];
    CleanKeeps(c, states, steps, |steps|);
    CleanRunEnds(c, states, steps);
    RunSettles(c, states, steps, |steps|);
    SettledIsUnaliased(c, s);
  }

  lemma FateIsAgain(c: Cfg, s: State, i: nat)
    requires Inv(c, s) && AllSettled(c, s) && (forall j :: 0 <= j < |c.src| ==> s.st[j].Finished?)
    requires After(c, s).Valid()
    requires i < |c.src|
    ensures Fate(After(c, s), i) == FateAgain(c, i)
  {
    var d := After(c, s);
    assert Settled(c, s, i);
    if c.src[i].File? {
      SameFirst(c, d, i, 0);
      var h := First(c, i);
      SameFirst(c, d, h, 0);
      assert Settled(c, s, h) && Judged(c, h) && c.SrcBody(h) == d.SrcBody(h);
      assert FirstVerdict(d, h) == UpToDate(false, false, false);
    }
  }

  /** Run again over the same source, a run that preserves attributes skips everything: nothing is copied, no
      symlink is made anew, no attribute is synced. */
  lemma SecondRunIsQuiet(c: Cfg, states: seq<State>, steps: seq<Step>, again: seq<State>, stepsAgain: seq<Step>)
    requires ExactRun(c, states, steps) && Unaliased(c) && Apart(c) && !c.dry && c.preserve
    requires states[|steps|].phase.Removing?
    requires CleanRun(After(c, states[|steps|]), again, stepsAgain) && again[|stepsAgain|].phase.Removing?
    ensures forall i :: 0 <= i < |c.src| ==>
            |again[|stepsAgain|].st| == |c.src| && again[|stepsAgain|].st[i] == Finished(FateAgain(c, i))
  {
    var s := states[|steps|];
    CleanKeeps(c, states, steps, |steps|);
    CleanRunEnds(c, states, steps);
    RunSettles(c, states, steps, |steps|);
    SettledIsUnaliased(c, s);
    CleanRunEnds(After(c, s), again, stepsAgain);
    forall i | 0 <= i < |c.src| ensures again[|stepsAgain|].st[i] == Finished(FateAgain(c, i)) {
      FateIsAgain(c, s, i);
    }
  }
}
