/** A run with --mirror: the pass deletes from the tree that the copying has left. */
module MirrorRun {
  import opened RunCopy
  import opened RunCounts
  import opened Mirror

  /** at is where each entry of the walk lies below the mirrored root; other are the destination paths of no entry,
      and passed the source paths that the walk passes over: special files and what --exclude names. */
  datatype Tree = Tree(at: seq<Path>, other: set<Path>, passed: set<Path>) {
    function Entries(): set<Path> {
      set i | 0 <= i < |at| :: at[i]
    }

    /** The paths that Lstat finds in the source. */
    function Src(): set<Path> {
      Entries() + passed
    }
  }

  /** Entry i is on the destination: a directory is from when the walk has made it. */
  predicate There(c: Cfg, s: State, i: nat)
    requires i < |s.dst| == |s.st|
  {
    !s.dst[i].Missing? || (!c.dry && s.st[i] == Finished(Listed))
  }

  /** The destination paths. */
  function Dest(t: Tree, c: Cfg, s: State): set<Path> {
    t.other + set i | 0 <= i < |t.at| && i < |s.dst| == |s.st| && There(c, s, i) :: t.at[i]
  }

  ghost predicate TreeOf(t: Tree, c: Cfg)
    requires c.Valid()
  {
    |t.at| == |c.src| && Closed(t.Entries()) && Closed(t.Src()) && Closed(Dest(t, c, Start(c)))
  }

  // ---- What copying leaves on the destination ----

  /** What was there is there, and so is what has been dealt with in a real run; a dry run changes nothing. */
  ghost predicate EntryStays(c: Cfg, s: State, i: nat)
    requires Shaped(c, s) && i < |c.src|
  {
    && (!c.dst[i].Missing? || (!c.dry && s.st[i].Finished?) ==> There(c, s, i))
    && (c.dry ==> s.dst[i] == c.dst[i])
  }

  ghost predicate Stays(c: Cfg, s: State)
    requires Shaped(c, s)
  {
    forall i :: 0 <= i < |c.src| ==> EntryStays(c, s, i)
  }

  lemma TurnStays(c: Cfg, s: State, s': State, i: nat)
    requires Shaped(c, s) && i < |c.src| && Turn(c, s, s', i) && Stays(c, s) && EntryStays(c, s', i)
    ensures Stays(c, s')
  {
    forall k | 0 <= k < |c.src| ensures EntryStays(c, s', k) {
      assert EntryStays(c, s, k);
      if k != i { assert s'.dst[k] == s.dst[k] && s'.st[k] == s.st[k]; }
    }
  }

  /** A regular file is finished at the walk only if it has its destination already, or in a dry run. */
  lemma RegularStays(c: Cfg, s: State, i: nat, e: Env)
    requires Shaped(c, s) && c.alias == {} && i < |c.src| && c.src[i].File? && !c.dry && !s.st[i].Finished?
    ensures HandleRegular(c, s, i, e).st[i].Finished? ==> !s.dst[i].Missing?
  {
    if c.Grouped(i) { MultiStays(c, s, i, e); }
  }

  lemma MultiStays(c: Cfg, s: State, i: nat, e: Env)
    requires Shaped(c, s) && c.alias == {} && i < |c.src| && c.src[i].File? && !c.dry && !s.st[i].Finished?
    ensures HandleMultiLink(c, s, i, e).st[i].Finished? ==> !s.dst[i].Missing?
  {
  }

  lemma SymlinkStays(c: Cfg, s: State, i: nat, target: nat, e: Env)
    requires Shaped(c, s) && c.alias == {} && i < |c.src| && e.ok
    ensures var n := RecreateSymlink(c, s, i, target, e).dst[i]; if c.dry then n == s.dst[i] else !n.Missing?
  {
  }

  lemma VisitStays(c: Cfg, s: State, e: Env)
    requires Shaped(c, s) && Stays(c, s) && c.alias == {}
    requires Enabled(c, s, Visit(e)) && CleanStep(Visit(e)) && s.st[s.walked].Unseen?
    requires Shaped(c, Apply(c, s, Visit(e)))
    ensures EntryStays(c, Apply(c, s, Visit(e)), s.walked)
  {
    var i, s1 := s.walked, s.(walked := s.walked + 1);
    assert EntryStays(c, s, i);
    match c.src[i]
    case Dir =>
    case Symlink(_, target) => SymlinkStays(c, s1, i, target, e);
    case File(_) => if !c.dry { RegularStays(c, s1, i, e); }
  }

  lemma JobStays(c: Cfg, s: State, i: nat, e: Env)
    requires Shaped(c, s) && Stays(c, s) && c.alias == {} && !c.dry
    requires Enabled(c, s, RunJob(i, e)) && CleanStep(RunJob(i, e)) && !s.aborted
    requires Shaped(c, Apply(c, s, RunJob(i, e)))
    ensures EntryStays(c, Apply(c, s, RunJob(i, e)), i)
  {
    assert EntryStays(c, s, i);
  }

  lemma LinkStays(c: Cfg, s: State, i: nat, e: Env)
    requires Shaped(c, s) && Stays(c, s) && c.alias == {}
    requires Enabled(c, s, MakeLink(i, e)) && CleanStep(MakeLink(i, e)) && !s.aborted
    requires Shaped(c, Apply(c, s, MakeLink(i, e)))
    ensures EntryStays(c, Apply(c, s, MakeLink(i, e)), i)
  {
    assert EntryStays(c, s, i);
  }

  /** A dry run queues nothing. */
  ghost predicate DryIdle(c: Cfg, s: State) {
    c.dry ==> forall i :: 0 <= i < |s.st| ==> !s.st[i].Queued?
  }

  lemma StepStays(c: Cfg, s: State, t: Step)
    requires Inv(c, s) && Stays(c, s) && !s.aborted && Enabled(c, s, t) && CleanStep(t) && DryIdle(c, s)
    ensures Shaped(c, Apply(c, s, t)) && Stays(c, Apply(c, s, t))
  {
    var s' := Apply(c, s, t);
    match t
    case Visit(e) =>
      assert FateOk(c, s, s.walked);
      VisitTurns(c, s, e);
      VisitStays(c, s, e);
      TurnStays(c, s, s', s.walked);
    case RunJob(i, e) =>
      JobTurns(c, s, i, e);
      JobStays(c, s, i, e);
      TurnStays(c, s, s', i);
    case MakeLink(i, e) =>
      LinkTurns(c, s, i, e);
      LinkStays(c, s, i, e);
      TurnStays(c, s, s', i);
    case EndWalk => PhaseStays(c, s, s');
    case EndJobs => PhaseStays(c, s, s');
    case EndLinks(_) => PhaseStays(c, s, s');
    case _ =>
  }

  lemma PhaseStays(c: Cfg, s: State, s': State)
    requires Shaped(c, s) && Stays(c, s) && s' == s.(phase := s'.phase, finished := s'.finished)
    ensures Shaped(c, s') && Stays(c, s')
  {
    forall k | 0 <= k < |c.src| ensures EntryStays(c, s', k) { assert EntryStays(c, s, k); }
  }

  lemma DryStaysIdle(c: Cfg, s: State, t: Step)
    requires Shaped(c, s) && !s.aborted && Enabled(c, s, t) && CleanStep(t) && DryIdle(c, s)
    ensures DryIdle(c, Apply(c, s, t))
  {
    if c.dry {
      match t
      case Visit(e) => DryVisitIdle(c, s, e);
      case MakeLink(i, e) => assert Apply(c, s, t).st == s.st[i := Finished(Linked)];
      case _ =>
    }
  }

  lemma DryVisitIdle(c: Cfg, s: State, e: Env)
    requires Enabled(c, s, Visit(e)) && c.dry && DryIdle(c, s)
    ensures DryIdle(c, Apply(c, s, Visit(e)))
  {
    var i, s1 := s.walked, s.(walked := s.walked + 1);
    if c.src[i].File? { DryFileIdle(c, s1, i, e); }
  }

  lemma DryFileIdle(c: Cfg, s: State, i: nat, e: Env)
    requires Shaped(c, s) && i < |c.src| && c.src[i].File? && c.dry && DryIdle(c, s)
    ensures DryIdle(c, HandleRegular(c, s, i, e))
  {
  }

  lemma {:induction false} RunStays(c: Cfg, states: seq<State>, steps: seq<Step>, k: nat)
    requires CleanRun(c, states, steps) && Unaliased(c) && k <= |steps|
    ensures Shaped(c, states[k]) && Stays(c, states[k]) && DryIdle(c, states[k])
  {
    if k == 0 {
      StartStays(c);
    } else {
      var s, t := states[k - 1], steps[k - 1];
      RunStays(c, states, steps, k - 1);
      CleanKeeps(c, states, steps, k - 1);
      StepStays(c, s, t);
      DryStaysIdle(c, s, t);
      assert states[k] == Apply(c, s, t);
    }
  }

  lemma StartStays(c: Cfg)
    requires c.Valid()
    ensures Shaped(c, Start(c)) && Stays(c, Start(c)) && DryIdle(c, Start(c))
  {
  }

  /** A clean real run leaves every entry of the walk on the destination, beside what no entry named; a dry run
      leaves the destination as it was. */
  lemma CopiedTree(t: Tree, c: Cfg, states: seq<State>, steps: seq<Step>)
    requires CleanRun(c, states, steps) && Unaliased(c) && TreeOf(t, c) && states[|steps|].phase.Removing?
    ensures Dest(t, c, states[|steps|]) == if c.dry then Dest(t, c, Start(c)) else t.other + t.Entries()
  {
    var s := states[|steps|];
    RunStays(c, states, steps, |steps|);
    CleanRunEnds(c, states, steps);
    forall i | 0 <= i < |c.src|
      ensures There(c, s, i) == (!c.dry || There(c, Start(c), i)) { assert EntryStays(c, s, i); }
  }

  // ---- What the pass deletes then ----

  /** Whatever copying has done so far, and however it fails, the pass would delete the same: entries of the walk have
      counterparts, and nothing else changes. */
  lemma RunDoomsTheSame(t: Tree, c: Cfg, s: State, d: Cfg, s': State, p: Path)
    ensures Doomed(Dest(t, c, s), t.Src(), p) == Doomed(Dest(t, d, s'), t.Src(), p)
  {
  }

  lemma {:induction false} Bounded(dest: set<Path>) returns (h: nat)
    ensures Within(dest, [], h)
  {
    h := 0;
    if dest != {} {
      var x :| x in dest;
      var k := Bounded(dest - {x});
      h := if |x| < k then k else |x|;
    }
  }

  /** The tree after copying is a tree. */
  lemma CopiedIsClosed(t: Tree, c: Cfg)
    requires c.Valid() && TreeOf(t, c)
    ensures Closed(t.other + t.Entries())
  {
    var was, now := Dest(t, c, Start(c)), t.other + t.Entries();
    forall x, k | x in now && 0 <= k <= |x| ensures x[..k] in now {
      if x in t.other { assert x in was && x[..k] in was; }
    }
  }

  /** --mirror after a dry run and after a real one over the same trees, each clean and in any interleaving.  The
      dry run says what the real one counts, and changes nothing.  The real one deletes no path that the source
      has, and unless a removal fails the destination ends with just the paths that the source has: those copied,
      and those it had before. */
  method MirrorBoth(
    t: Tree, ghost c: Cfg, ghost states: seq<State>, ghost steps: seq<Step>,
    ghost d: Cfg, ghost dryStates: seq<State>, ghost drySteps: seq<Step>,
    before: set<Path>, after: set<Path>, stuck: set<Path>
  ) returns (did: Pass, said: Pass)
    requires !c.dry && d == c.(dry := true) && c.Valid() && Unaliased(c) && TreeOf(t, c)
    requires CleanRun(c, states, steps) && states[|steps|].phase.Removing?
    requires CleanRun(d, dryStates, drySteps) && dryStates[|drySteps|].phase.Removing?
    requires before == Dest(t, d, dryStates[|drySteps|]) && after == Dest(t, c, states[|steps|])
    ensures states[|steps|].counts == dryStates[|drySteps|].counts
    ensures said.deleted == did.deleted + did.failed && said.failed == 0 && said.dest == Dest(t, c, Start(c))
    ensures forall x :: x in after && x != [] && x in t.Src() ==> x in did.dest
    ensures did.failed == 0 ==> forall x :: x != [] ==>
      (x in did.dest <==> x in t.Src() && (x in t.Entries() || x in Dest(t, c, Start(c))))
  {
    DryRunTells(c, states, steps, d, dryStates, drySteps);
    BothTrees(t, c, states, steps, d, dryStates, drySteps);
    ghost var h := Bounded(before + after);
    said := new Pass(t.Src(), before, stuck, true);
    said.MirrorDir([], h);
    did := new Pass(t.Src(), after, stuck, false);
    did.MirrorDir([], h);
    PassesAgree(before, after, t.Src(), stuck, said.Now(), did.Now());
  }

  lemma BothTrees(
    t: Tree, c: Cfg, states: seq<State>, steps: seq<Step>, d: Cfg, dryStates: seq<State>, drySteps: seq<Step>
  )
    requires !c.dry && d == c.(dry := true) && c.Valid() && Unaliased(c) && TreeOf(t, c)
    requires CleanRun(c, states, steps) && states[|steps|].phase.Removing?
    requires CleanRun(d, dryStates, drySteps) && dryStates[|drySteps|].phase.Removing?
    ensures var before, after := Dest(t, d, dryStates[|drySteps|]), Dest(t, c, states[|steps|]);
            && before == Dest(t, c, Start(c)) && after == before + t.Entries()
            && Closed(before) && Closed(after) && Doomed(before, t.Src(), []) == Doomed(after, t.Src(), [])
  {
    SameFates(c, d);
    assert Dest(t, d, Start(d)) == Dest(t, c, Start(c));
    CopiedTree(t, c, states, steps);
    CopiedTree(t, d, dryStates, drySteps);
    CopiedIsClosed(t, c);
    RunDoomsTheSame(t, c, states[|steps|], d, dryStates[|drySteps|], []);
  }

  lemma PassesAgree(before: set<Path>, after: set<Path>, src: set<Path>, stuck: set<Path>, said: Tally, did: Tally)
    requires Closed(after) && Closed(src) && Doomed(before, src, []) == Doomed(after, src, [])
    requires Did(true, stuck, Tally(before, 0, 0), said, Doomed(before, src, []))
    requires Did(false, stuck, Tally(after, 0, 0), did, Doomed(after, src, []))
    ensures said.deleted == did.deleted + did.failed && said.failed == 0 && said.dest == before
    ensures forall x :: x in after && x != [] && x in src ==> x in did.dest
    ensures did.failed == 0 ==> forall x :: x != [] ==> (x in did.dest <==> x in after && x in src)
  {
    var doomed := Doomed(after, src, []);
    assert doomed == (doomed - stuck) + (doomed * stuck);
    forall x | x in after && x != [] ensures x in Sweep(after, doomed) <==> x in src {
      MirrorLeavesCounterparts(after, src, x);
    }
    if did.failed == 0 { assert doomed - stuck == doomed; }
  }
}
