/** When a run can come to its end without a failure, so that what is said of such runs is said of something. */
module CleanRuns {
  import opened Scan
  import opened RunCopy
  import opened RunCounts
  import opened RunAgain
  import MirrorRun
  import RunLoss

  /** No file is to be copied to where a directory is. */
  ghost predicate Clear(c: Cfg)
    requires c.Valid()
  {
    forall i :: 0 <= i < |c.src| && Judged(c, i) && FirstVerdict(c, i).NeedCopy? ==> !c.dst[i].Dir?
  }

  ghost predicate Ends(c: Cfg, states: seq<State>, steps: seq<Step>) {
    CleanRun(c, states, steps) && states[|steps|].phase.Removing?
  }

  // ---- What a clean run has at the destinations of files ----

  /** A judged file that was dealt with is there, and no directory was there before it. */
  ghost predicate FileThere(c: Cfg, s: State, i: nat)
    requires Shaped(c, s) && i < |c.src|
  {
    Judged(c, i) && s.st[i].Finished? && !c.dry ==> s.dst[i].File? && !c.dst[i].Dir?
  }

  ghost predicate FilesThere(c: Cfg, s: State)
    requires Shaped(c, s)
  {
    forall i :: 0 <= i < |c.src| ==> FileThere(c, s, i)
  }

  lemma TurnHasFiles(c: Cfg, s: State, s': State, i: nat)
    requires Shaped(c, s) && FilesThere(c, s) && i < |c.src| && Turn(c, s, s', i) && FileThere(c, s', i)
    ensures FilesThere(c, s')
  {
    forall k | 0 <= k < |c.src| ensures FileThere(c, s', k) {
      assert FileThere(c, s, k);
      if k != i { assert s'.dst[k] == s.dst[k] && s'.st[k] == s.st[k]; }
    }
  }

  /** A file is finished at its visit only if it was up to date. */
  lemma VisitHasFile(c: Cfg, s: State, e: Env)
    requires Inv(c, s) && Enabled(c, s, Visit(e)) && CleanStep(Visit(e)) && !c.dry && Judged(c, s.walked)
    requires Turn(c, s, Apply(c, s, Visit(e)), s.walked)
    ensures FileThere(c, Apply(c, s, Visit(e)), s.walked)
  {
    var i, s1 := s.walked, s.(walked := s.walked + 1);
    assert FateOk(c, s, i) && AsBefore(c, s1, i);
    StepIsVisit(c, s, e);
    VisitIsEntry(c, s, e);
    MirrorRun.RegularStays(c, s1, i, e);
    VerdictIsFirst(c, s1, i);
    FinishedWasFile(c, s1, i, e);
  }

  lemma FinishedWasFile(c: Cfg, s: State, i: nat, e: Env)
    requires Shaped(c, s) && c.alias == {} && i < |c.src| && Judged(c, i) && !c.dry && s.st[i].Unseen?
    requires c.Grouped(i) ==> c.src[i].ino !in s.primary
    ensures HandleRegular(c, s, i, e).st[i].Finished? ==> s.dst[i].File?
  {
  }

  lemma JobHasFile(c: Cfg, s: State, i: nat, e: Env)
    requires Inv(c, s) && !s.aborted && Enabled(c, s, RunJob(i, e)) && CleanStep(RunJob(i, e))
    requires Turn(c, s, Apply(c, s, RunJob(i, e)), i)
    ensures FileThere(c, Apply(c, s, RunJob(i, e)), i)
  {
    assert FateOk(c, s, i);
    StepIsJob(c, s, i, e);
    CopyHasFile(c, s, i, e);
  }

  lemma CopyHasFile(c: Cfg, s: State, i: nat, e: Env)
    requires Shaped(c, s) && c.alias == {} && i < |c.src| && c.src[i].File? && s.st[i].Queued? && s.dst[i] == c.dst[i]
    requires e.ok && JobOk(c, s, i, e)
    ensures CopyOne(c, s, i, e).dst[i].File? && !c.dst[i].Dir?
  {
  }

  lemma StepHasFiles(c: Cfg, s: State, t: Step)
    requires Inv(c, s) && FilesThere(c, s) && !s.aborted && Enabled(c, s, t) && CleanStep(t)
    ensures Shaped(c, Apply(c, s, t)) && FilesThere(c, Apply(c, s, t))
  {
    match t
    case Visit(e) => VisitKeepsFiles(c, s, e);
    case RunJob(i, e) =>
      JobTurns(c, s, i, e);
      JobHasFile(c, s, i, e);
      TurnHasFiles(c, s, Apply(c, s, t), i);
    case MakeLink(i, e) =>
      assert FateOk(c, s, i);
      LinkTurns(c, s, i, e);
      TurnHasFiles(c, s, Apply(c, s, t), i);
    case EndWalk => PhaseHasFiles(c, s, Apply(c, s, t));
    case EndJobs => PhaseHasFiles(c, s, Apply(c, s, t));
    case EndLinks(_) => PhaseHasFiles(c, s, Apply(c, s, t));
    case _ =>
  }

  lemma VisitKeepsFiles(c: Cfg, s: State, e: Env)
    requires Inv(c, s) && FilesThere(c, s) && Enabled(c, s, Visit(e)) && CleanStep(Visit(e))
    ensures Shaped(c, Apply(c, s, Visit(e))) && FilesThere(c, Apply(c, s, Visit(e)))
  {
    VisitTurns(c, s, e);
    if Judged(c, s.walked) && !c.dry { VisitHasFile(c, s, e); }
    TurnHasFiles(c, s, Apply(c, s, Visit(e)), s.walked);
  }

  lemma PhaseHasFiles(c: Cfg, s: State, s': State)
    requires Shaped(c, s) && FilesThere(c, s) && s' == s.(phase := s'.phase, finished := s'.finished)
    ensures Shaped(c, s') && FilesThere(c, s')
  {
    forall k | 0 <= k < |c.src| ensures FileThere(c, s', k) { assert FileThere(c, s, k); }
  }

  lemma {:induction false} RunHasFiles(c: Cfg, states: seq<State>, steps: seq<Step>, k: nat)
    requires CleanRun(c, states, steps) && Unaliased(c) && k <= |steps|
    ensures Shaped(c, states[k]) && FilesThere(c, states[k])
  {
    CleanKeeps(c, states, steps, k);
    if k == 0 {
      assert forall i :: 0 <= i < |c.src| ==> Start(c).st[i].Unseen?;
    } else {
      RunHasFiles(c, states, steps, k - 1);
      CleanKeeps(c, states, steps, k - 1);
      StepHasFiles(c, states[k - 1], steps[k - 1]);
    }
  }

  // ---- A run, built ----

  /** s is where some run gets to in which nothing fails and attributes are set exactly. */
  ghost predicate Gets(c: Cfg, s: State) {
    exists states, steps :: ExactRun(c, states, steps) && states[|steps|] == s
  }

  lemma GetsKeeps(c: Cfg, s: State)
    requires Gets(c, s) && c.Valid() && Unaliased(c)
    ensures Inv(c, s) && !s.aborted && FilesThere(c, s) && MirrorRun.DryIdle(c, s)
  {
    var states, steps :| ExactRun(c, states, steps) && states[|steps|] == s;
    CleanKeeps(c, states, steps, |steps|);
    RunHasFiles(c, states, steps, |steps|);
    MirrorRun.RunStays(c, states, steps, |steps|);
  }

  lemma GetsOn(c: Cfg, s: State, t: Step)
    requires Gets(c, s) && Enabled(c, s, t) && CleanStep(t) && c.Valid() && Exact(c, s, t)
    ensures Gets(c, Apply(c, s, t))
  {
    var states, steps :| ExactRun(c, states, steps) && states[|steps|] == s;
    var states', steps' := states + [Apply(c, s, t)], steps + [t];
    forall k | 0 <= k < |steps'|
      ensures Enabled(c, states'[k], steps'[k]) && states'[k + 1] == Apply(c, states'[k], steps'[k])
      ensures CleanStep(steps'[k]) && Exact(c, states'[k], steps'[k])
    {
      if k < |steps| {
        assert states'[k] == states[k] && states'[k + 1] == states[k + 1] && steps'[k] == steps[k];
      }
    }
    assert ExactRun(c, states', steps') && states'[|steps'|] == Apply(c, s, t);
  }

  /** An up-to-date file with its source's attributes. */
  function Synced(src: Body, d: Body, checksum: bool): Body {
    Body(d.data, if checksum then src.mtime else d.mtime, src.mode, src.owner)
  }

  lemma SyncedIsQuiet(src: Body, d: Body, checksum: bool)
    requires Compare(src, Regular(d), checksum, true).UpToDate?
    ensures Compare(src, Regular(Synced(src, d, checksum)), checksum, true) == UpToDate(false, false, false)
  {
  }

  lemma VisitEnv(c: Cfg, s: State) returns (e: Env)
    requires Inv(c, s) && s.phase.Walking? && s.walked < |c.src|
    ensures SyncOk(c, s, s.walked, e) && e.newIno !in s.inodes && e.readable && e.ok && Exact(c, s, Visit(e))
  {
    var i := s.walked;
    assert FateOk(c, s, i);
    e := RunLoss.SyncEnv(c, s, i, true, false);
    e := e.(readable := true);
    if Judged(c, i) && FirstVerdict(c, i).UpToDate? {
      var d := c.inodes[c.dst[i].ino];
      assert AsBefore(c, s, i);
      SyncedIsQuiet(c.SrcBody(i), d, c.checksum);
      e := e.(body := Synced(c.SrcBody(i), d, c.checksum));
    }
  }

  lemma {:induction false} WalkTo(c: Cfg, k: nat) returns (s: State)
    requires c.Valid() && Unaliased(c) && k <= |c.src|
    ensures Gets(c, s) && s.phase.Walking? && s.walked == k
  {
    if k == 0 {
      s := Start(c);
      var steps: seq<Step> := [];
      assert ExactRun(c, [s], steps) && [s][|steps|] == s;
    } else {
      s := WalkTo(c, k - 1);
      GetsKeeps(c, s);
      var e := VisitEnv(c, s);
      GetsOn(c, s, Visit(e));
      VisitTurns(c, s, e);
      s := Apply(c, s, Visit(e));
    }
  }

  lemma JobEnv(c: Cfg, s: State, i: nat) returns (e: Env)
    requires Inv(c, s) && i < |c.src| && FateOk(c, s, i) && s.st[i].Queued? && Clear(c)
    ensures JobOk(c, s, i, e) && e.readable && e.ok && Exact(c, s, RunJob(i, e))
  {
    VerdictIsFirst(c, s, i);
    e := RunLoss.SyncEnv(c, s, i, true, false);
    e := e.(readable := true, body := c.SrcBody(i));
    if FirstVerdict(c, i).UpToDate? && s.st[i] == Queued(true) {
      var d := c.inodes[c.dst[i].ino];
      SyncedIsQuiet(c.SrcBody(i), d, c.checksum);
      e := e.(body := Synced(c.SrcBody(i), d, c.checksum));
    }
  }

  lemma {:induction false} JobsTo(c: Cfg, k: nat) returns (s: State)
    requires c.Valid() && Unaliased(c) && (c.dry || Clear(c)) && k <= |c.src|
    ensures Gets(c, s) && s.phase.Working? && |s.st| == |c.src| && forall j :: 0 <= j < k ==> !s.st[j].Queued?
  {
    if k == 0 {
      s := WalkTo(c, |c.src|);
      GetsKeeps(c, s);
      GetsOn(c, s, EndWalk);
      s := Apply(c, s, EndWalk);
    } else {
      s := JobsTo(c, k - 1);
      GetsKeeps(c, s);
      if s.st[k - 1].Queued? {
        assert FateOk(c, s, k - 1);
        var e := JobEnv(c, s, k - 1);
        s := JobOn(c, s, k - 1, e);
      }
    }
  }

  lemma JobOn(c: Cfg, s: State, i: nat, e: Env) returns (s': State)
    requires Gets(c, s) && c.Valid() && Unaliased(c) && s.phase.Working? && i < |c.src| && |s.st| == |c.src| == |s.src|
    requires |s.dst| == |c.src| && s.st[i].Queued? && c.src[i].File? && JobOk(c, s, i, e) && e.readable && e.ok
    requires Exact(c, s, RunJob(i, e))
    ensures Gets(c, s') && s'.phase.Working? && |s'.st| == |s.st| && !s'.st[i].Queued?
    ensures forall j :: 0 <= j < |s.st| && j != i ==> s'.st[j] == s.st[j]
  {
    GetsKeeps(c, s);
    GetsOn(c, s, RunJob(i, e));
    JobTurns(c, s, i, e);
    s' := Apply(c, s, RunJob(i, e));
  }

  lemma {:induction false} LinksTo(c: Cfg, k: nat) returns (s: State)
    requires c.Valid() && Unaliased(c) && (c.dry || Clear(c)) && k <= |c.src|
    ensures Gets(c, s) && s.phase.Linking? && |s.st| == |c.src| && forall j :: 0 <= j < k ==> !s.st[j].Deferred?
  {
    if k == 0 {
      s := JobsTo(c, |c.src|);
      GetsKeeps(c, s);
      GetsOn(c, s, EndJobs);
      s := Apply(c, s, EndJobs);
    } else {
      s := LinksTo(c, k - 1);
      if s.st[k - 1].Deferred? { s := LinkOn(c, s, k - 1); }
    }
  }

  /** The primary of a deferred link is done. */
  lemma PrimaryIsThere(c: Cfg, s: State, i: nat)
    requires Inv(c, s) && FilesThere(c, s) && s.phase.Linking? && i < |c.src| && s.st[i].Deferred?
    ensures c.Grouped(i) && c.src[i].ino in s.primary
    ensures c.dry || s.dst[s.primary[c.src[i].ino].i].File?
  {
    assert FateOk(c, s, i);
    var h := s.primary[c.src[i].ino].i;
    assert PrimaryOk(c, s, c.src[i].ino) && FateOk(c, s, h) && FileThere(c, s, h);
  }

  lemma LinkOn(c: Cfg, s: State, i: nat) returns (s': State)
    requires Gets(c, s) && c.Valid() && Unaliased(c) && s.phase.Linking? && i < |c.src| == |s.st| && s.st[i].Deferred?
    ensures Gets(c, s') && s'.phase.Linking? && |s'.st| == |s.st| && !s'.st[i].Deferred?
    ensures forall j :: 0 <= j < |s.st| && j != i ==> s'.st[j] == s.st[j]
  {
    GetsKeeps(c, s);
    PrimaryIsThere(c, s, i);
    var e := RunLoss.SyncEnv(c, s, i, true, false);
    GetsOn(c, s, MakeLink(i, e));
    LinkIsMade(c, s, i, e);
    s' := Apply(c, s, MakeLink(i, e));
  }

  lemma LinkIsMade(c: Cfg, s: State, i: nat, e: Env)
    requires Enabled(c, s, MakeLink(i, e)) && !s.aborted && e.ok
    ensures var s' := Apply(c, s, MakeLink(i, e)); s'.st == s.st[i := Finished(Linked)] && s'.phase == s.phase
  {
  }

  // ---- Main results ----

  /** With no directory in the way, whatever else the destination holds, there is a run that ends without a failure
      and sets attributes exactly. */
  lemma ExactRunExists(c: Cfg) returns (states: seq<State>, steps: seq<Step>)
    requires c.Valid() && Unaliased(c) && (c.dry || Clear(c))
    ensures ExactRun(c, states, steps) && Ends(c, states, steps)
  {
    var s := LinksTo(c, |c.src|);
    GetsKeeps(c, s);
    GetsOn(c, s, EndLinks(false));
    states, steps :| ExactRun(c, states, steps) && states[|steps|] == Apply(c, s, EndLinks(false));
  }

  /** Over unaliased trees some run ends without a failure if and only if it is a dry one or no file is to be copied
      to where a directory is. */
  lemma EndsExactlyWhen(c: Cfg)
    requires c.Valid() && Unaliased(c)
    ensures (exists states, steps :: Ends(c, states, steps)) <==> c.dry || Clear(c)
  {
    if c.dry || Clear(c) {
      var states, steps := ExactRunExists(c);
    }
    if states, steps :| Ends(c, states, steps) {
      CleanRunEnds(c, states, steps);
      RunHasFiles(c, states, steps, |steps|);
      forall i | !c.dry && 0 <= i < |c.src| && Judged(c, i) && FirstVerdict(c, i).NeedCopy? ensures !c.dst[i].Dir? {
        assert FileThere(c, states[|steps|], i);
      }
    }
  }

  /** And then it can be run again: the two runs of RunAgain.SecondRunIsQuiet are there for all trees with no
      directory in the way. */
  lemma TwoRunsExist(c: Cfg)
    returns (states: seq<State>, steps: seq<Step>, again: seq<State>, stepsAgain: seq<Step>)
    requires c.Valid() && Unaliased(c) && Apart(c) && !c.dry && c.preserve && Clear(c)
    ensures ExactRun(c, states, steps) && Ends(c, states, steps)
    ensures Ends(After(c, states[|steps|]), again, stepsAgain)
  {
    states, steps := ExactRunExists(c);
    AfterIsUnaliased(c, states, steps);
    AfterIsClear(c, states, steps);
    again, stepsAgain := ExactRunExists(After(c, states[|steps|]));
  }

  lemma AfterIsClear(c: Cfg, states: seq<State>, steps: seq<Step>)
    requires ExactRun(c, states, steps) && Ends(c, states, steps) && Unaliased(c) && Apart(c) && !c.dry && c.preserve
    requires After(c, states[|steps|]).Valid()
    ensures Clear(After(c, states[|steps|]))
  {
    var s := states[|steps|];
    CleanRunEnds(c, states, steps);
    RunHasFiles(c, states, steps, |steps|);
    forall i | 0 <= i < |c.src| && Judged(After(c, s), i) ensures !s.dst[i].Dir? {
      if c.Grouped(i) { SameFirst(c, After(c, s), i, 0); }
      assert FileThere(c, s, i);
    }
  }
}
