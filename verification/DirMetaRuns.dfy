/** What holds in every run of DirMeta: each directory is queued once and before the queue closes, runs end, and
    exactly which directories are always queued in time. */
module DirMetaRuns {
  import opened DirMeta

  lemma {:induction false} RunKeeps(states: seq<State>, steps: seq<Step>, k: nat)
    requires Run(states, steps) && k <= |steps|
    ensures Inv(states[k]) && (forall d :: d in states[k].pending ==> TimelyAt(states[k], d))
  {
    if k > 0 {
      RunKeeps(states, steps, k - 1);
      var s, t := states[k - 1], steps[k - 1];
      StepKeeps(s, t);
      forall d | d in Apply(s, t).pending ensures TimelyAt(Apply(s, t), d) {
        if d in s.pending { TimelyStep(s, t, d); } else { OpenView(s, d); }
      }
    }
  }

  lemma ReachKeeps(s: State)
    requires Reachable(s)
    ensures Inv(s) && (forall d :: d in s.pending ==> TimelyAt(s, d))
  {
    var states, steps :| Run(states, steps) && states[|steps|] == s;
    RunKeeps(states, steps, |steps|);
  }

  // ---- Exactly once, and before the queue closes ----

  /** No directory's metadata is queued twice, nor before its listing is finished. */
  lemma QueuedAtMostOnce(s: State, d: nat)
    requires Reachable(s)
    ensures Num(s.meta, d) <= 1
    ensures d in s.meta ==> d in s.closed
  {
    ReachKeeps(s);
    NumIn(s.meta, d);
    if d in s.meta { assert ViewOk(ViewOf(s, d)); }
  }

  /** When the metadata queue closes, every directory is in it once and has no work left. */
  lemma AllQueuedBeforeClose(s: State, d: nat)
    requires Reachable(s) && s.phase.Closed? && d in s.pending
    ensures Num(s.meta, d) == 1 && s.pending[d] == 0 && d in s.closed
  {
    ReachKeeps(s);
    assert ViewOk(ViewOf(s, d));
    forall a | 0 <= a < |s.pcs| ensures s.pcs[a].Free? || s.pcs[a].Exited? {
      if a > 0 { assert WorkerOk(s, s.pcs[a]); }
    }
    Unseen(s.pcs, d);
    assert WorkerOk(s, s.pcs[1]);
    assert s.jobs == [] && s.links == [] && s.stack == [];
  }

  // ---- Runs end ----

  /** The steps by which the walk finds more to do. */
  predicate Grows(t: Step) {
    t.OpenDir? || t.AddCopy? || t.AddLink?
  }

  function PcLeft(pc: Pc): nat {
    match pc
    case Exited => 0
    case Free => 1
    case Pushing(_) => 2
    case Casing(_) => 3
    case Zeroed(_) => 4
    case Loading(_) => 4
    case Working(_) => 5
    case Enqueue(_) => 7
  }

  function AgentsLeft(pcs: seq<Pc>): nat {
    if pcs == [] then 0 else PcLeft(pcs[0]) + AgentsLeft(pcs[1..])
  }

  function PhaseLeft(p: Phase): nat {
    match p
    case Walk => 3
    case Joining => 2
    case Linking => 1
    case Closed => 0
  }

  /** More than the steps still to come if the walk finds nothing more. */
  function Left(s: State): nat {
    5 * |s.jobs| + 5 * |s.links| + 4 * |s.stack| + PhaseLeft(s.phase) + AgentsLeft(s.pcs)
  }

  lemma {:induction false} LeftSet(pcs: seq<Pc>, a: nat, pc: Pc)
    requires a < |pcs|
    ensures AgentsLeft(pcs[a := pc]) == AgentsLeft(pcs) - PcLeft(pcs[a]) + PcLeft(pc)
  {
    if a == 0 {
      assert pcs[a := pc][1..] == pcs[1..];
    } else {
      LeftSet(pcs[1..], a - 1, pc);
      assert pcs[a := pc][1..] == pcs[1..][a - 1 := pc];
    }
  }

  lemma StepShrinks(s: State, t: Step)
    requires Enabled(s, t)
    ensures Left(Apply(s, t)) <= Left(s) + (if Grows(t) then 6 else -1)
  {
    if t.Take? || t.Exit? {
      TakerShrinks(s, t);
    } else if t.Drop? || t.ReadClosed? {
      CounterShrinks(s, t);
    } else if t.Swap? || t.PushMeta? {
      PusherShrinks(s, t);
    } else {
      MainShrinks(s, t);
    }
  }

  lemma TakerShrinks(s: State, t: Step)
    requires Enabled(s, t) && (t.Take? || t.Exit?)
    ensures Left(Apply(s, t)) < Left(s)
  {
    LeftSet(s.pcs, t.a, Apply(s, t).pcs[t.a]);
  }

  lemma CounterShrinks(s: State, t: Step)
    requires Enabled(s, t) && (t.Drop? || t.ReadClosed?)
    ensures Left(Apply(s, t)) < Left(s)
  {
    LeftSet(s.pcs, t.a, Apply(s, t).pcs[t.a]);
  }

  lemma PusherShrinks(s: State, t: Step)
    requires Enabled(s, t) && (t.Swap? || t.PushMeta?)
    ensures Left(Apply(s, t)) < Left(s)
  {
    LeftSet(s.pcs, t.a, Apply(s, t).pcs[t.a]);
  }

  /** The walk, the link pass and the end of the run. */
  lemma MainShrinks(s: State, t: Step)
    requires Enabled(s, t) && !t.Take? && !t.Exit? && !t.Drop? && !t.ReadClosed? && !t.Swap? && !t.PushMeta?
    ensures Left(Apply(s, t)) <= Left(s) + (if Grows(t) then 6 else -1)
  {
    if |s.pcs| > 0 {
      LeftSet(s.pcs, 0, Apply(s, t).pcs[0]);
      assert s.pcs[0 := s.pcs[0]] == s.pcs;
    }
  }

  function Grown(steps: seq<Step>): nat {
    if steps == [] then 0 else Grown(steps[..|steps| - 1]) + if Grows(steps[|steps| - 1]) then 1 else 0
  }

  /** A run is at most seven steps for each thing the walk found, and a constant more. */
  lemma {:induction false} RunsAreBounded(states: seq<State>, steps: seq<Step>, k: nat)
    requires Run(states, steps) && k <= |steps|
    ensures k + Left(states[k]) <= |states[0].pcs| + 3 + 7 * Grown(steps[..k])
  {
    if k == 0 {
      FreeLeft(states[0].pcs);
    } else {
      RunsAreBounded(states, steps, k - 1);
      StepShrinks(states[k - 1], steps[k - 1]);
      assert steps[..k][..k - 1] == steps[..k - 1];
    }
  }

  lemma {:induction false} FreeLeft(pcs: seq<Pc>)
    requires forall a :: 0 <= a < |pcs| ==> pcs[a].Free?
    ensures AgentsLeft(pcs) == |pcs|
  {
    if pcs != [] { FreeLeft(pcs[1..]); }
  }

  /** Until the metadata queue is closed some step is possible without the walk finding anything more. */
  lemma NeverStuck(s: State) returns (t: Step)
    requires Reachable(s) && !s.phase.Closed?
    ensures Enabled(s, t) && !Grows(t)
  {
    ReachKeeps(s);
    if a :| 0 <= a < |s.pcs| && !s.pcs[a].Free? && !s.pcs[a].Exited? {
      assert KnownPc(s, s.pcs[a]);
      assert a > 0 ==> WorkerOk(s, s.pcs[a]);
      t := match s.pcs[a]
        case Enqueue(_) => PushJob
        case Working(_) => Drop(a)
        case Zeroed(_) => ReadClosed(a)
        case Loading(_) => LoadPending
        case Casing(_) => Swap(a)
        case Pushing(_) => PushMeta(a);
    } else {
      t := QuietStep(s);
    }
  }

  lemma QuietStep(s: State) returns (t: Step)
    requires Inv(s) && !s.phase.Closed?
    requires forall a :: 0 <= a < |s.pcs| ==> s.pcs[a].Free? || s.pcs[a].Exited?
    ensures Enabled(s, t) && !Grows(t)
  {
    assert WorkerOk(s, s.pcs[1]);
    match s.phase
    case Walk => t := if s.stack == [] then EndWalk else CloseStore;
    case Linking => t := if s.links == [] then Finish else NextLink;
    case Joining =>
      if a :| 0 < a < |s.pcs| && s.pcs[a].Free? {
        t := if s.jobs == [] then Exit(a) else Take(a);
      } else {
        t := Join;
      }
  }

  // ---- In time ----

  /** A directory given at most one piece of work, or whose first piece is a deferred link. */
  predicate Safe(p: seq<Kind>) {
    |p| < 2 || p[0].Link?
  }

  ghost predicate TimelyAt(s: State, d: nat)
    requires d in s.pending
  {
    d in s.added && TimelyOk(ViewOf(s, d), s.added[d], s.phase, d in s.premature)
  }

  predicate TimelyOk(v: View, p: seq<Kind>, phase: Phase, premature: bool) {
    && (v.pending > 0 || v.at.zeroed > 0 ==> p != [])
    // A deferred link keeps the count up until the links are made.
    && (p != [] && p[0].Link? && (phase.Walk? || phase.Joining?) ==> v.links > 0)
    && (Safe(p) && (v.queued || v.at.zeroed + v.at.casing + v.at.pushing > 0) ==> v.pending == 0)
    && (premature ==> !Safe(p))
  }

  lemma TimelyStep(s: State, t: Step, d: nat)
    requires Inv(s) && Enabled(s, t) && d in s.pending && TimelyAt(s, d)
    ensures TimelyAt(Apply(s, t), d)
  {
    assert ViewOk(ViewOf(s, d));
    StepView(s, t, d);
    if t.Drop? || t.PushMeta? { Seen(s.pcs, t.a); }
    if t.LoadPending? { Seen(s.pcs, 0); }
    if t.AddCopy? || t.AddLink? {
      TimelyAdd(s, t, d);
    } else {
      TimelyRest(s, t, d);
    }
  }

  lemma TimelyAdd(s: State, t: Step, d: nat)
    requires Enabled(s, t) && (t.AddCopy? || t.AddLink?) && d in s.pending && TimelyAt(s, d)
    requires ViewOk(ViewOf(s, d)) && ViewOk(After(s, t, d)) && ViewOf(Apply(s, t), d) == After(s, t, d)
    ensures TimelyAt(Apply(s, t), d)
  {
    var p := s.added[d];
    if d == s.Top() {
      assert ViewOf(s, d).open;
      var kind := if t.AddCopy? then Copy else Link;
      assert Apply(s, t).added[d] == p + [kind];
      assert Safe(p + [kind]) ==> Safe(p);
    }
  }

  lemma TimelyRest(s: State, t: Step, d: nat)
    requires Enabled(s, t) && !t.AddCopy? && !t.AddLink? && d in s.pending && TimelyAt(s, d)
    requires ViewOk(ViewOf(s, d)) && ViewOk(After(s, t, d)) && ViewOf(Apply(s, t), d) == After(s, t, d)
    requires t.Drop? || t.PushMeta? ==> Num(s.pcs, s.pcs[t.a]) > 0
    ensures TimelyAt(Apply(s, t), d)
  {
    if t.Drop? || t.ReadClosed? {
      TimelyCount(s, t, d);
    } else if t.Swap? || t.PushMeta? || t.LoadPending? || t.CloseStore? {
      TimelyPush(s, t, d);
    } else {
      TimelyElse(s, t, d);
    }
  }

  /** A worker counts its piece off. */
  lemma TimelyCount(s: State, t: Step, d: nat)
    requires Enabled(s, t) && (t.Drop? || t.ReadClosed?) && d in s.pending && TimelyAt(s, d)
    requires ViewOk(ViewOf(s, d)) && ViewOk(After(s, t, d)) && ViewOf(Apply(s, t), d) == After(s, t, d)
    requires t.Drop? ==> Num(s.pcs, s.pcs[t.a]) > 0
    ensures TimelyAt(Apply(s, t), d)
  {
  }

  /** Somebody closes a directory, or is about to push one. */
  lemma TimelyPush(s: State, t: Step, d: nat)
    requires Enabled(s, t) && (t.Swap? || t.PushMeta? || t.LoadPending? || t.CloseStore?) && d in s.pending
    requires TimelyAt(s, d)
    requires ViewOk(ViewOf(s, d)) && ViewOk(After(s, t, d)) && ViewOf(Apply(s, t), d) == After(s, t, d)
    requires t.PushMeta? ==> Num(s.pcs, s.pcs[t.a]) > 0
    ensures TimelyAt(Apply(s, t), d)
  {
  }

  lemma TimelyElse(s: State, t: Step, d: nat)
    requires Enabled(s, t) && d in s.pending && TimelyAt(s, d)
    requires t.OpenDir? || t.PushJob? || t.EndWalk? || t.Take? || t.Exit? || t.Join? || t.NextLink? || t.Finish?
    requires ViewOk(ViewOf(s, d)) && ViewOk(After(s, t, d)) && ViewOf(Apply(s, t), d) == After(s, t, d)
    ensures TimelyAt(Apply(s, t), d)
  {
  }

  /** One copy was done and counted off while the walk is still inside the directory; k pieces came after it. */
  ghost predicate Stalled(s: State, p: seq<Kind>, k: nat) {
    && Reachable(s) && s.phase.Walk? && s.pcs == [Free, Zeroed(0)] && s.stack == [0]
    && s.pending == map[0 := k] && s.added == map[0 := p] && s.queued == {}
  }

  function Walking(pcs: seq<Pc>, jobs: seq<nat>, k: nat, p: seq<Kind>): State {
    State(map[0 := k], {}, {}, [], jobs, [], [0], Walk, pcs, map[0 := p], {})
  }

  lemma DirectoryOpened()
    ensures Reachable(Walking([Free, Free], [], 0, []))
  {
    var s := State(map[], {}, {}, [], [], [], [], Walk, [Free, Free], map[], {});
    var steps: seq<Step> := [];
    assert Run([s], steps) && [s][|steps|] == s;
    ReachStep(s, OpenDir(0));
    assert Apply(s, OpenDir(0)) == Walking([Free, Free], [], 0, []);
  }

  lemma OneCopyQueued()
    ensures Reachable(Walking([Free, Free], [0], 1, [Copy]))
  {
    DirectoryOpened();
    var listing := Walking([Free, Free], [], 0, []);
    ReachStep(listing, AddCopy);
    var counted := Walking([Enqueue(0), Free], [], 1, [Copy]);
    assert listing.Top() == 0 && listing.added[0] + [Copy] == [Copy];
    assert map[0 := 0][0 := 1] == map[0 := 1];
    assert Apply(listing, AddCopy) == counted;
    ReachStep(counted, PushJob);
    assert Apply(counted, PushJob) == Walking([Free, Free], [0], 1, [Copy]);
  }

  lemma OneCopyDone() returns (s: State)
    ensures Stalled(s, [Copy], 0)
  {
    OneCopyTaken();
    var taken := Walking([Free, Working(0)], [], 1, [Copy]);
    ReachStep(taken, Drop(1));
    s := Walking([Free, Zeroed(0)], [], 0, [Copy]);
    assert Apply(taken, Drop(1)) == s;
  }

  lemma OneCopyTaken()
    ensures Reachable(Walking([Free, Working(0)], [], 1, [Copy]))
  {
    OneCopyQueued();
    var queued := Walking([Free, Free], [0], 1, [Copy]);
    ReachStep(queued, Take(1));
    assert Apply(queued, Take(1)) == Walking([Free, Working(0)], [], 1, [Copy]);
  }

  lemma MoreWork(s: State, p: seq<Kind>, k: nat, kind: Kind) returns (s': State)
    requires Stalled(s, p, k)
    ensures Stalled(s', p + [kind], k + 1)
  {
    match kind
    case Link =>
      ReachStep(s, AddLink);
      s' := Apply(s, AddLink);
    case Copy =>
      ReachStep(s, AddCopy);
      s' := Apply(s, AddCopy);
      ReachStep(s', PushJob);
      s' := Apply(s', PushJob);
  }

  lemma {:induction false} RestOfTheWork(p: seq<Kind>) returns (s: State)
    requires p != [] && p[0].Copy?
    ensures Stalled(s, p, |p| - 1)
  {
    if |p| == 1 {
      s := OneCopyDone();
      assert p == [Copy];
    } else {
      s := RestOfTheWork(p[..|p| - 1]);
      s := MoreWork(s, p[..|p| - 1], |p| - 2, p[|p| - 1]);
      assert p[..|p| - 1] + [p[|p| - 1]] == p;
    }
  }

  /** The directory is closed with work pending: the walk lets go, the agent that saw zero does not. */
  ghost predicate Overtaken(s: State, p: seq<Kind>, k: nat, pc: Pc) {
    Reachable(s) && s.pcs == [Free, pc] && s.pending == map[0 := k] && s.added == map[0 := p] && 0 in s.closed
      && s.queued == {}
  }

  lemma ClosedEarly(s: State, p: seq<Kind>, k: nat) returns (s': State)
    requires Stalled(s, p, k) && k > 0
    ensures Overtaken(s', p, k, Zeroed(0))
  {
    ReachStep(s, CloseStore);
    s' := Apply(s, CloseStore);
    ReachStep(s', LoadPending);
    s' := Apply(s', LoadPending);
  }

  lemma PushedEarly(s: State, p: seq<Kind>, k: nat) returns (s': State)
    requires Overtaken(s, p, k, Zeroed(0)) && k > 0
    ensures Reachable(s') && 0 in s'.premature && s'.added == map[0 := p]
  {
    ReachStep(s, ReadClosed(1));
    s' := Apply(s, ReadClosed(1));
    assert Overtaken(s', p, k, Casing(0));
    ReachStep(s', Swap(1));
    s' := Apply(s', Swap(1));
    ReachStep(s', PushMeta(1));
    s' := Apply(s', PushMeta(1));
  }

  /** The metadata of a directory given work p waits for all of it in every interleaving, unless p has more than one
      piece and starts with a copy: then the copy can end, see the count at zero, and find the directory closed
      later. */
  lemma InTimeExactlyWhenSafe(p: seq<Kind>)
    ensures (forall s: State, d: nat :: Reachable(s) && d in s.added && s.added[d] == p ==> d !in s.premature) <==>
            !(|p| >= 2 && p[0].Copy?)
  {
    if |p| >= 2 && p[0].Copy? {
      var s := RestOfTheWork(p);
      s := ClosedEarly(s, p, |p| - 1);
      s := PushedEarly(s, p, |p| - 1);
      assert Reachable(s) && 0 in s.added && s.added[0] == p;
    } else {
      forall s: State, d: nat | Reachable(s) && d in s.added && s.added[d] == p ensures d !in s.premature {
        ReachKeeps(s);
        assert d in s.pending && TimelyAt(s, d);
      }
    }
  }
}
