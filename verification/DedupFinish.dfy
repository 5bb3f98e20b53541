/** When the extent pass succeeds: the final checks of copyDedup pass on a source that has not changed. */
module DedupFinish {
  import opened ByteFiles
  import opened Segments
  import opened ExtentIndex
  import opened DestRefs
  import opened DedupProtocol
  import opened DedupSafety
  import opened DedupClaims

  /** One extent of the map that other files share, and whose addresses hold its bytes as they are, has all of s
      where s says. */
  predicate LiesIn(exts: seq<Extent>, s: Segment) {
    exists i :: 0 <= i < |exts| && exts[i].shared && exts[i].usable
      && exts[i].logical <= s.off && s.off + s.length <= exts[i].logical + exts[i].length
      && s.phys - s.off == exts[i].physical - exts[i].logical
  }

  lemma {:induction false} LiesInExactly(exts: seq<Extent>, s: Segment)
    requires SortedDisjoint(exts) && 0 < s.length
    ensures Mapped(exts, s) <==> LiesIn(exts, s)
  {
    if i :| 0 <= i < |exts| && exts[i].logical <= s.off && s.off + s.length <= exts[i].logical + exts[i].length {
      MappedExactly(exts, s, i);
      forall j | 0 <= j < |exts| && j != i
        ensures !(exts[j].logical <= s.off && s.off + s.length <= exts[j].logical + exts[j].length)
      {
        assert if i < j then exts[i].logical + exts[i].length <= exts[j].logical
               else exts[j].logical + exts[j].length <= exts[i].logical;
      }
    } else {
      NotMapped(exts, s);
    }
  }

  lemma {:induction false} NotMapped(exts: seq<Extent>, s: Segment)
    requires forall i :: 0 <= i < |exts| ==>
      !(exts[i].logical <= s.off && s.off + s.length <= exts[i].logical + exts[i].length)
    ensures !Mapped(exts, s)
  {
    if exts != [] {
      forall i | 0 <= i < |exts[1..]|
        ensures !(exts[1..][i].logical <= s.off && s.off + s.length <= exts[1..][i].logical + exts[1..][i].length)
      {
        assert exts[1..][i] == exts[i + 1];
      }
      NotMapped(exts[1..], s);
    }
  }

  // ---- Whether the file takes part ----

  /** A plan that leaves out no backed byte, which is what planSegments makes, leads into the segment loop, and
      makes the file a clone source, exactly when some byte of the file lies in a shareable extent; any other file
      leaves dedup with nothing written. */
  lemma TakesPartExactlyWhen(states: seq<State>, steps: seq<Step>, k: nat)
    requires Run(states, steps) && k < |steps| && steps[k].Plan?
    requires var s := states[k]; var exts := s.Src(steps[k].w).exts;
             CoversBacked(exts, |exts|, s.workers[steps[k].w].size, steps[k].segs)
    ensures var s, s', w := states[k], states[k + 1], steps[k].w;
            var x, y := s.workers[w], s'.workers[w];
            && (if AnyBacked(s.Src(w).exts, x.size) then
                  y == x.(pc := Ready, segs := steps[k].segs)
                  && s'.refs == s.refs[x.ino := Ref(steps[k].dev, x.ino, true, None, false)]
                else y == x.(pc := Detached) && s'.refs == s.refs)
            && s'.files == s.files && s'.index == s.index && s'.inflight == s.inflight
  {
    var s, w := states[k], steps[k].w;
    SharesExactlyWhen(s.Src(w).exts, steps[k].segs, s.workers[w].size);
  }

  predicate AnyBacked(exts: seq<Extent>, size: int) {
    exists b, i :: 0 <= b < size && 0 <= i < |exts| && exts[i].Shareable() && exts[i].Covers(b)
  }

  lemma SharesExactlyWhen(exts: seq<Extent>, segs: seq<Segment>, size: int)
    requires Tiles(segs, size) && CoversBacked(exts, |exts|, size, segs)
    requires forall i :: 0 <= i < |segs| && segs[i].shared ==> PieceOf(exts, |exts|, segs[i])
    ensures AnyShared(segs) <==> AnyBacked(exts, size)
  {
    if i :| 0 <= i < |segs| && segs[i].shared {
      var e :| 0 <= e < |exts| && exts[e].Shareable()
               && exts[e].logical <= segs[i].off && segs[i].End() <= exts[e].logical + exts[e].length
               && segs[i].phys == exts[e].Address(segs[i].off);
      assert exts[e].Covers(segs[i].off) && segs[i].off < size;
    }
    forall b, i | 0 <= b < size && 0 <= i < |exts| && exts[i].Shareable() && exts[i].Covers(b)
      ensures AnyShared(segs)
    {
      assert Planned(segs, b, exts[i].Address(b));
    }
  }

  // ---- What the table answers ----

  /** Record i holds all of [phys, phys + length), and its file is not dead. */
  predicate Serves(recs: seq<Rec>, refs: map<nat, Ref>, phys: int, length: int, i: nat)
    requires i < |recs|
  {
    && recs[i].phys <= phys && phys + length <= recs[i].phys + recs[i].length
    && !(recs[i].ref in refs && refs[recs[i].ref].dead)
  }

  /** A worker on a shared segment clones from a live record that holds all of it; without such a record, or with
      eight others between, it waits for the worker whose claim holds the segment, and copies under a new claim
      when there is none. */
  lemma AnswersExactlyWhen(states: seq<State>, steps: seq<Step>, k: nat)
    requires Run(states, steps) && k < |steps| && steps[k].Acquire?
    ensures var s, s', w := states[k], states[k + 1], steps[k].w;
            var x, pc, recs := s.workers[w], s'.workers[w].pc, Records(s.index, s.Src(w).dev);
            var seg := x.Seg();
            && (pc.Cloning? ==>
                  exists i :: 0 <= i < |recs| && recs[i] == pc.rec && Serves(recs, s.refs, seg.phys, seg.length, i)
                    && pc.delta == seg.phys - recs[i].phys)
            && (!pc.Cloning? ==> forall i :: 0 <= i < |recs| && Serves(recs, s.refs, seg.phys, seg.length, i) ==>
                  i + 8 < |recs| && recs[i + 8].phys <= seg.phys)
    ensures var s, s', w := states[k], states[k + 1], steps[k].w;
            var x, pc := s.workers[w], s'.workers[w].pc;
            var seg, dev := x.Seg(), s.Src(w).dev;
            && (pc.Waiting? ==>
                  && pc.claim in s.inflight && pc.claim.dev == dev && pc.claim.phys <= seg.phys
                  && seg.phys + seg.length <= pc.claim.phys + pc.claim.length)
            && (!pc.Cloning? && !pc.Waiting? ==>
                  && pc == Copying(Some(Claim(s.next, dev, seg.phys, seg.length)))
                  && s'.inflight == s.inflight + [Claim(s.next, dev, seg.phys, seg.length)]
                  && forall c :: c in s.inflight && c.dev == dev && c.phys <= seg.phys ==>
                       c.phys + c.length < seg.phys + seg.length)
            && s'.index == s.index && s'.released == s.released && (!pc.Copying? ==> s'.inflight == s.inflight)
  {
    var s, w := states[k], steps[k].w;
    FoundServes(Records(s.index, s.Src(w).dev), s.refs, s.workers[w].Seg().phys, s.workers[w].Seg().length, s.Dead());
  }

  lemma FoundServes(recs: seq<Rec>, refs: map<nat, Ref>, phys: int, length: int, dead: set<nat>)
    requires Sorted(recs) && dead == set r | r in refs && refs[r].dead
    ensures var f := Find(recs, phys, length, dead);
            if f.Some? then exists i :: 0 <= i < |recs| && recs[i] == f.value && Serves(recs, refs, phys, length, i)
            else forall i :: 0 <= i < |recs| && Serves(recs, refs, phys, length, i) ==>
                   i + 8 < |recs| && recs[i + 8].phys <= phys
  {
    var f := Find(recs, phys, length, dead);
    if f.Some? {
      var i :| IsFound(recs, phys, length, dead, i) && f.value == recs[i];
      assert Serves(recs, refs, phys, length, i);
    } else {
      forall i | 0 <= i < |recs| && Serves(recs, refs, phys, length, i)
        ensures i + 8 < |recs| && recs[i + 8].phys <= phys
      {
        assert Usable(recs[i], phys, length, dead) && i < Rank(recs, phys);
      }
    }
  }

  /** A clone that its worker is about to make can succeed exactly when the record's file is on the same device and
      not dead, its handle is still open or its path still names it, and it is long enough; a file whose end was
      skipped as a hole is not, until it is truncated to its size. */
  lemma ClonesExactlyWhen(states: seq<State>, steps: seq<Step>, k: nat, w: nat)
    requires Run(states, steps) && k < |states| && w in states[k].workers && states[k].workers[w].pc.Cloning?
    ensures var s, x := states[k], states[k].workers[w];
            && x.ino in s.refs && x.pc.rec.ref in s.refs && x.pc.rec.ref in s.files && x.i < |x.segs|
            && var from := s.refs[x.pc.rec.ref];
               Enabled(s, CloneOk(w)) <==>
                 && from.dev == s.refs[x.ino].dev && !from.dead
                 && (from.open || (from.path.Some? && from.path.value in s.names
                       && s.names[from.path.value] == x.pc.rec.ref))
                 && x.pc.rec.off + x.pc.delta + x.Seg().length <= |s.files[x.pc.rec.ref]|
  {
    RunKeeps(states, steps, k);
    var s, x := states[k], states[k].workers[w];
    assert ActorOk(s, w);
    assert RecOk(s, s.srcs[x.file].dev, x.pc.rec) && RefOk(s, x.pc.rec.ref);
    SegmentsAscend(x.segs, x.size, x.i, x.i + 1);
  }

  // ---- Each check, at its step ----

  /** The last fstat passes if and only if length and time are those of the first; then the map is asked only if
      something was cloned. */
  lemma StatPassesExactlyWhen(states: seq<State>, steps: seq<Step>, k: nat)
    requires Run(states, steps) && k < |steps| && steps[k].Stat?
    ensures var x, y, src := states[k].workers[steps[k].w], states[k + 1].workers[steps[k].w],
            states[k].Src(steps[k].w);
            && x.pc.Statting? && y == x.(pc := y.pc)
            && (if |src.content| != x.size || src.mtime != x.stamp then y.pc.Failed?
                else if x.cloned == [] then y.pc.Verified? else y.pc.Mapping?)
  {
  }

  /** The last FIEMAP passes if and only if every cloned segment lies where the plan found it, in one shareable
      extent of the map of that moment. */
  lemma MapPassesExactlyWhen(states: seq<State>, steps: seq<Step>, k: nat)
    requires Run(states, steps) && k < |steps| && steps[k].MapCheck?
    requires SortedDisjoint(states[k].Src(steps[k].w).exts)
    ensures var x, y, src := states[k].workers[steps[k].w], states[k + 1].workers[steps[k].w],
            states[k].Src(steps[k].w);
            && x.pc.Mapping? && y == x.(pc := y.pc)
            && (if forall c :: c in x.cloned ==> LiesIn(src.exts, c) then y.pc.Verified? else y.pc.Failed?)
  {
    RunKeeps(states, steps, k);
    var x, src := states[k].workers[steps[k].w], states[k].Src(steps[k].w);
    assert ActorOk(states[k], steps[k].w);
    forall c | c in x.cloned ensures Mapped(src.exts, c) <==> LiesIn(src.exts, c) {
      ClonedHasBytes(x, c);
      LiesInExactly(src.exts, c);
    }
  }

  lemma ClonedHasBytes(x: Worker, c: Segment)
    requires Tiles(x.segs, x.size) && c in x.cloned && forall d :: d in x.cloned ==> d in x.segs[..Min(x.i, |x.segs|)]
    ensures c in x.segs && 0 < c.length
  {
    assert c in x.segs[..Min(x.i, |x.segs|)];
  }

  // ---- A source that stays as it is ----

  /** The step is none of w's that only a failure or the caller's cancel brings. */
  predicate Untroubled(t: Step, w: nat) {
    t != Cancel(w) && t != CopyFail(w) && t != Abandon(w) && t != Release(w)
  }

  /** From step j on w copies file f, which nothing changes, and nothing goes wrong for w. */
  ghost predicate Undisturbed(states: seq<State>, steps: seq<Step>, j: nat, k: nat, w: nat, f: nat)
    requires Run(states, steps)
  {
    && j < k <= |steps| && steps[j].Begin? && steps[j].w == w && steps[j].f == f
    && steps[j].size == |states[j].srcs[f].content| && SortedDisjoint(states[j].srcs[f].exts)
    && forall i :: j < i < k ==>
         && !(steps[i].Env? && steps[i].f == f) && Untroubled(steps[i], w) && !(steps[i].Begin? && steps[i].w == w)
  }

  /** A worker on its way: what it planned and cloned is in the map, size and time are right. */
  ghost predicate Good(x: Worker, src: SrcFile, f: nat) {
    && SortedDisjoint(src.exts)
    && !x.pc.Failed? && !x.pc.Releasing? && (!x.pc.Idle? ==> x.file == f)
    && (x.pc.Planning? || x.InLoop() || x.pc.Statting? || x.pc.Mapping? ==>
          x.size == |src.content| && x.stamp == src.mtime)
    && (x.InLoop() || x.pc.Statting? || x.pc.Mapping? ==>
          forall i :: 0 <= i < |x.segs| && x.segs[i].shared ==> PieceOf(src.exts, |src.exts|, x.segs[i]))
  }

  ghost predicate OnTrack(s: State, w: nat, f: nat) {
    w in s.workers && f in s.srcs && Good(s.workers[w], s.srcs[f], f)
  }

  lemma PieceLies(exts: seq<Extent>, s: Segment)
    requires PieceOf(exts, |exts|, s)
    ensures LiesIn(exts, s)
  {
    var i :| 0 <= i < |exts| && exts[i].Shareable()
             && exts[i].logical <= s.off && s.End() <= exts[i].logical + exts[i].length
             && s.phys == exts[i].Address(s.off);
    assert exts[i].shared && exts[i].usable;
  }

  lemma BeginIsOnTrack(s: State, w: nat, f: nat, ino: nat, size: nat)
    requires CanBegin(s, w, f, ino) && size == |s.srcs[f].content| && SortedDisjoint(s.srcs[f].exts)
    ensures OnTrack(DoBegin(s, w, f, ino, size), w, f)
  {
  }

  lemma SourceStays(s: State, t: Step, f: nat)
    requires Enabled(s, t) && f in s.srcs && !(t.Env? && t.f == f)
    ensures f in Apply(s, t).srcs && Apply(s, t).srcs[f] == s.srcs[f]
  {
    if InLoopStep(t) { LoopLeavesSources(s, t); } else { OuterLeavesSource(s, t, f); }
  }

  lemma LoopLeavesSources(s: State, t: Step)
    requires Enabled(s, t) && InLoopStep(t)
    ensures ApplyLoop(s, t).srcs == s.srcs
  {
    if t.Acquire? {
      AcquireLeavesSources(s, t.w);
    } else if t.CloneOk? || t.Record? {
      TableLeavesSources(s, t);
    } else if t.CopyChunk? || t.CopyEnd? || t.Recheck? {
      CopyLeavesSources(s, t);
    } else {
      PlaceLeavesSources(s, t);
    }
  }

  lemma AcquireLeavesSources(s: State, w: nat)
    requires CanAcquire(s, w)
    ensures DoAcquire(s, w).srcs == s.srcs
  {
  }

  lemma TableLeavesSources(s: State, t: Step)
    requires Enabled(s, t) && (t.CloneOk? || t.Record?)
    ensures ApplyLoop(s, t).srcs == s.srcs
  {
  }

  lemma CopyLeavesSources(s: State, t: Step)
    requires Enabled(s, t) && (t.CopyChunk? || t.CopyEnd? || t.Recheck?)
    ensures ApplyLoop(s, t).srcs == s.srcs
  {
  }

  lemma PlaceLeavesSources(s: State, t: Step)
    requires Enabled(s, t)
    requires t.StartPlain? || t.CloneFail? || t.WaitDone? || t.Cancel? || t.CopyFail? || t.Release?
    ensures ApplyLoop(s, t).srcs == s.srcs
  {
  }

  lemma OuterLeavesSource(s: State, t: Step, f: nat)
    requires Enabled(s, t) && !InLoopStep(t) && f in s.srcs && !(t.Env? && t.f == f)
    ensures f in ApplyOuter(s, t).srcs && ApplyOuter(s, t).srcs[f] == s.srcs[f]
  {
  }

  /** Where the steps of the segment loop lead a worker, given that none of them is a failure's. */
  lemma TableKeepsGood(s: State, t: Step, w: nat, src: SrcFile, f: nat)
    requires t.Acquire? || t.CloneOk? || t.Record?
    requires w in s.workers && Good(s.workers[w], src, f) && Enabled(s, t) && t.w == w
    ensures w in ApplyLoop(s, t).workers && Good(ApplyLoop(s, t).workers[w], src, f)
  {
    match t
    case Acquire(_) => AcquireKeepsGood(s, w, src, f);
    case CloneOk(_) =>
    case Record(_) =>
  }

  lemma AcquireKeepsGood(s: State, w: nat, src: SrcFile, f: nat)
    requires CanAcquire(s, w) && Good(s.workers[w], src, f)
    ensures Good(DoAcquire(s, w).workers[w], src, f)
  {
    assert DoAcquire(s, w).workers[w] == s.workers[w].(pc := Answered(Asked(s, w)));
  }

  lemma CopyKeepsGood(s: State, t: Step, w: nat, src: SrcFile, f: nat)
    requires t.CopyChunk? || t.CopyEnd? || t.Recheck?
    requires w in s.workers && Good(s.workers[w], src, f) && Enabled(s, t) && t.w == w
    ensures w in ApplyLoop(s, t).workers && Good(ApplyLoop(s, t).workers[w], src, f)
  {
    match t
    case CopyChunk(_, n, _) =>
      assert ApplyLoop(s, t).workers[w] == s.workers[w].(done := s.workers[w].done + n);
    case CopyEnd(_) => CopyEndKeepsGood(s, w, src, f);
    case Recheck(_, ok) => RecheckKeepsGood(s, w, ok, src, f);
  }

  lemma CopyEndKeepsGood(s: State, w: nat, src: SrcFile, f: nat)
    requires CanCopyEnd(s, w) && Good(s.workers[w], src, f)
    ensures Good(DoCopyEnd(s, w).workers[w], src, f)
  {
  }

  lemma RecheckKeepsGood(s: State, w: nat, ok: bool, src: SrcFile, f: nat)
    requires CanRecheck(s, w, ok) && Good(s.workers[w], src, f)
    ensures Good(DoRecheck(s, w, ok).workers[w], src, f)
  {
  }

  lemma PlaceKeepsGood(s: State, t: Step, w: nat, src: SrcFile, f: nat)
    requires t.StartPlain? || t.CloneFail? || t.WaitDone?
    requires w in s.workers && Good(s.workers[w], src, f) && Enabled(s, t) && t.w == w
    ensures w in ApplyLoop(s, t).workers && Good(ApplyLoop(s, t).workers[w], src, f)
  {
  }

  lemma StatKeepsTrack(s: State, w: nat, f: nat)
    requires OnTrack(s, w, f) && Enabled(s, Stat(w))
    ensures OnTrack(ApplyOuter(s, Stat(w)), w, f)
  {
  }

  lemma MapKeepsTrack(s: State, w: nat, f: nat)
    requires DataInv(s) && OnTrack(s, w, f) && Enabled(s, MapCheck(w))
    ensures OnTrack(ApplyOuter(s, MapCheck(w)), w, f)
  {
    var x, src := s.workers[w], s.srcs[f];
    assert ActorOk(s, w);
    forall c | c in x.cloned ensures Mapped(src.exts, c) {
      ClonedHasBytes(x, c);
      assert c in x.segs[..Min(x.i, |x.segs|)] && c.shared;
      var i :| 0 <= i < |x.segs| && x.segs[i] == c;
      PieceLies(src.exts, c);
      LiesInExactly(src.exts, c);
    }
  }

  lemma PlanKeepsGood(s: State, w: nat, segs: seq<Segment>, dev: nat, f: nat)
    requires OnTrack(s, w, f) && CanPlan(s, w, segs)
    ensures OnTrack(DoPlan(s, w, segs, dev), w, f)
  {
  }

  lemma RestKeepsTrack(s: State, t: Step, w: nat, f: nat)
    requires OnTrack(s, w, f) && Enabled(s, t)
    requires t == TruncateToSize(w) || (t.Publish? && t.w == w) || t == Commit(w) || t == Kill(w)
             || (t.Rewrite? && t.w == w) || t == Leave(w)
    ensures OnTrack(ApplyOuter(s, t), w, f)
  {
  }

  lemma OwnKeepsTrack(s: State, t: Step, w: nat, f: nat)
    requires DataInv(s) && OnTrack(s, w, f) && Enabled(s, t) && OwnStep(t, w) && Untroubled(t, w) && !t.Begin?
    ensures OnTrack(Apply(s, t), w, f)
  {
    SourceStays(s, t, f);
    if t.Acquire? || t.CloneOk? || t.Record? {
      TableKeepsGood(s, t, w, s.srcs[f], f);
    } else if t.CopyChunk? || t.CopyEnd? || t.Recheck? {
      CopyKeepsGood(s, t, w, s.srcs[f], f);
    } else if InLoopStep(t) {
      PlaceKeepsGood(s, t, w, s.srcs[f], f);
    } else if t.Stat? {
      StatKeepsTrack(s, w, f);
    } else if t.MapCheck? {
      MapKeepsTrack(s, w, f);
    } else if t.Plan? {
      PlanKeepsGood(s, w, t.segs, t.dev, f);
    } else {
      RestKeepsTrack(s, t, w, f);
    }
  }

  /** Whatever the others do, a worker whose source is not touched never fails: its last checks pass. */
  lemma {:induction false} UndisturbedIsOnTrack(states: seq<State>, steps: seq<Step>, j: nat, k: nat, w: nat, f: nat)
    requires Run(states, steps) && Undisturbed(states, steps, j, k, w, f)
    ensures OnTrack(states[k], w, f)
  {
    if k == j + 1 {
      BeginIsOnTrack(states[j], w, f, steps[j].ino, steps[j].size);
    } else {
      var s, t := states[k - 1], steps[k - 1];
      UndisturbedIsOnTrack(states, steps, j, k - 1, w, f);
      RunKeeps(states, steps, k - 1);
      StepKeepsTrack(s, t, w, f);
    }
  }

  lemma StepKeepsTrack(s: State, t: Step, w: nat, f: nat)
    requires DataInv(s) && OnTrack(s, w, f) && Enabled(s, t)
    requires !(t.Env? && t.f == f) && Untroubled(t, w) && !(t.Begin? && t.w == w)
    ensures OnTrack(Apply(s, t), w, f)
  {
    if OwnStep(t, w) {
      OwnKeepsTrack(s, t, w, f);
    } else {
      OthersDoNotMove(s, t, w);
      SourceStays(s, t, f);
    }
  }

  // ---- How far it is to the end ----

  /** How many of its own steps a planned copy is at most from its end, not counting those into and out of a wait. */
  function ToGo(x: Worker): int {
    match x.pc
    case Statting => 2
    case Mapping => 1
    case Ready => InSegments(x) + 6
    case Waiting(_) => InSegments(x) + 6
    case Cloning(_, _) => InSegments(x) + 5
    case Copying(_) => InSegments(x) + 4
    case Rechecking(_) => InSegments(x) + 3
    case Recording(_, _) => InSegments(x) + 2
    case _ => 0
  }

  function InSegments(x: Worker): int {
    8 * (|x.segs| - x.i) + (x.size - x.done)
  }

  /** Planned, and not yet verified. */
  predicate UnderWay(x: Worker) {
    x.InLoop() || x.pc.Statting? || x.pc.Mapping?
  }

  /** A step into a wait, or out of one. */
  ghost predicate Waits(s: State, t: Step) {
    t.WaitDone? || (t.Acquire? && Enabled(s, t) && Asked(s, t.w).Busy?)
  }

  lemma ToGoIsSome(disk: Disk, src: SrcFile, dst: seq<Byte>, x: Worker)
    requires WorkerOk(disk, src, dst, x) && UnderWay(x) && !x.pc.Releasing?
    ensures 0 < ToGo(x)
    ensures x.InLoop() ==> x.done <= x.size && x.i <= |x.segs|
  {
    if x.InLoop() && x.i < |x.segs| {
      SegmentsAscend(x.segs, x.size, x.i, x.i + 1);
    }
  }

  /** The step brings worker w nearer to the end of its copy, and the end is a verified copy. */
  ghost predicate Advances(x: Worker, y: Worker) {
    y.pc.Verified? || (UnderWay(y) && ToGo(y) < ToGo(x))
  }

  lemma AcquireAdvances(s: State, w: nat)
    requires CanAcquire(s, w)
    ensures var x, y := s.workers[w], DoAcquire(s, w).workers[w];
            UnderWay(y) && (if Asked(s, w).Busy? then ToGo(y) == ToGo(x) else ToGo(y) < ToGo(x))
  {
    assert DoAcquire(s, w).workers[w] == s.workers[w].(pc := Answered(Asked(s, w)));
  }

  lemma CloneAdvances(s: State, w: nat)
    requires CanClone(s, w) && s.workers[w].done <= s.workers[w].Seg().End()
    ensures Advances(s.workers[w], DoClone(s, w).workers[w])
  {
  }

  lemma RecordAdvances(s: State, w: nat)
    requires CanRecord(s, w) && s.workers[w].done <= s.workers[w].Seg().End()
    ensures Advances(s.workers[w], DoRecord(s, w).workers[w])
  {
  }

  lemma CopyAdvances(s: State, t: Step, w: nat)
    requires t.CopyChunk? || t.CopyEnd? || t.Recheck?
    requires Enabled(s, t) && t.w == w && s.workers[w].done <= s.workers[w].Seg().End()
    ensures Advances(s.workers[w], ApplyLoop(s, t).workers[w])
  {
  }

  lemma PlaceAdvances(s: State, t: Step, w: nat)
    requires t.StartPlain? || t.CloneFail?
    requires Enabled(s, t) && t.w == w && w in s.workers
    ensures Advances(s.workers[w], ApplyLoop(s, t).workers[w])
  {
  }

  lemma CheckAdvances(s: State, t: Step, w: nat, f: nat)
    requires t.TruncateToSize? || t.Stat? || t.MapCheck?
    requires Enabled(s, t) && t.w == w && OnTrack(Apply(s, t), w, f) && w in s.workers
    requires t.TruncateToSize? ==> s.workers[w].done == s.workers[w].size
    ensures Advances(s.workers[w], Apply(s, t).workers[w])
  {
  }

  lemma WorkerIsInSegment(disk: Disk, src: SrcFile, dst: seq<Byte>, x: Worker)
    requires WorkerOk(disk, src, dst, x)
    ensures x.InLoop() && x.i < |x.segs| ==> x.done <= x.Seg().End()
    ensures x.pc.Ready? && x.i == |x.segs| ==> x.done == x.size
  {
  }

  /** Each own step of an undisturbed worker, but into and out of a wait, brings it nearer to a verified copy. */
  lemma EachStepAdvances(states: seq<State>, steps: seq<Step>, j: nat, k: nat, w: nat, f: nat)
    requires Run(states, steps) && Undisturbed(states, steps, j, k + 1, w, f) && j < k < |steps|
    requires w in states[k].workers && UnderWay(states[k].workers[w]) && OwnStep(steps[k], w)
    ensures w in states[k + 1].workers
    ensures !Waits(states[k], steps[k]) ==> Advances(states[k].workers[w], states[k + 1].workers[w])
    ensures Waits(states[k], steps[k]) ==>
              UnderWay(states[k + 1].workers[w]) && ToGo(states[k + 1].workers[w]) == ToGo(states[k].workers[w])
  {
    var s, t := states[k], steps[k];
    assert Undisturbed(states, steps, j, k, w, f);
    UndisturbedIsOnTrack(states, steps, j, k, w, f);
    UndisturbedIsOnTrack(states, steps, j, k + 1, w, f);
    RunKeeps(states, steps, k);
    OwnAdvances(s, t, w, f);
  }

  /** What an own step does to the distance. */
  ghost predicate Progresses(s: State, t: Step, w: nat)
    requires Enabled(s, t) && w in s.workers && w in Apply(s, t).workers
  {
    var x, y := s.workers[w], Apply(s, t).workers[w];
    if Waits(s, t) then UnderWay(y) && ToGo(y) == ToGo(x) else Advances(x, y)
  }

  lemma OwnAdvances(s: State, t: Step, w: nat, f: nat)
    requires DataInv(s) && OnTrack(s, w, f) && Enabled(s, t) && OwnStep(t, w) && Untroubled(t, w) && !t.Begin?
    requires UnderWay(s.workers[w]) && OnTrack(Apply(s, t), w, f)
    ensures Progresses(s, t, w)
  {
    if t.WaitDone? {
      assert Waits(s, t);
    } else if InLoopStep(t) {
      LoopAdvances(s, t, w, f);
    } else {
      OuterAdvances(s, t, w, f);
    }
  }

  lemma OuterAdvances(s: State, t: Step, w: nat, f: nat)
    requires DataInv(s) && OnTrack(s, w, f) && Enabled(s, t) && OwnStep(t, w) && !t.Begin? && !InLoopStep(t)
    requires UnderWay(s.workers[w]) && OnTrack(Apply(s, t), w, f)
    ensures !Waits(s, t) && Advances(s.workers[w], Apply(s, t).workers[w])
  {
    assert ActorOk(s, w);
    WorkerIsInSegment(s.disk, s.srcs[f], s.files[s.workers[w].ino], s.workers[w]);
    CheckAdvances(s, t, w, f);
  }

  lemma LoopAdvances(s: State, t: Step, w: nat, f: nat)
    requires DataInv(s) && OnTrack(s, w, f) && Enabled(s, t) && OwnStep(t, w) && Untroubled(t, w)
    requires InLoopStep(t) && !t.WaitDone?
    ensures w in Apply(s, t).workers && Progresses(s, t, w)
  {
    assert ActorOk(s, w);
    WorkerIsInSegment(s.disk, s.srcs[f], s.files[s.workers[w].ino], s.workers[w]);
    if t.Acquire? {
      AcquireAdvances(s, w);
    } else if t.CloneOk? {
      CloneAdvances(s, w);
    } else if t.Record? {
      RecordAdvances(s, w);
    } else if t.StartPlain? || t.CloneFail? {
      PlaceAdvances(s, t, w);
    } else {
      CopyAdvances(s, t, w);
    }
  }

  // ---- The end is always within reach ----

  /** No other worker holds a claim. */
  ghost predicate OnlyHolder(s: State, w: nat) {
    forall v :: v in s.workers && v != w ==> s.workers[v].Held().None?
  }

  /** A step of w's own that no failure brings. */
  predicate Sound(t: Step, w: nat) {
    OwnStep(t, w) && Untroubled(t, w) && !t.Begin?
  }

  lemma CopyMoves(s: State, w: nat, f: nat) returns (t: Step)
    requires DataInv(s) && OnTrack(s, w, f) && s.workers[w].pc.Copying?
    ensures Sound(t, w) && !t.WaitDone? && !t.Acquire? && Enabled(s, t)
  {
    var x := s.workers[w];
    CopyingStands(s, w, f);
    if x.done == x.Seg().End() {
      t := CopyEnd(w);
    } else {
      t := ChunkMoves(s, w, f, x.Seg().End() - x.done);
    }
  }

  lemma ChunkMoves(s: State, w: nat, f: nat, n: nat) returns (t: Step)
    requires OnSegment(s, w) && s.workers[w].pc.Copying? && s.workers[w].file == f
    requires var x := s.workers[w];
             && 0 < n && x.done + n == x.Seg().End() <= |s.srcs[f].content|
             && forall b :: x.done <= b ==> At(s.files[x.ino], b) == 0
    ensures t.CopyChunk? && t.w == w && CanCopyChunk(s, w, n, t.g) && t.n == n
  {
    var x := s.workers[w];
    var c := s.srcs[f].content[x.done..x.done + n];
    var g := WriteAt(s.files[x.ino], x.done, c);
    WholeWriteSkipsZeros(s.files[x.ino], c, x.done, g);
    t := CopyChunk(w, n, g);
  }

  lemma CopyingStands(s: State, w: nat, f: nat)
    requires DataInv(s) && OnTrack(s, w, f) && s.workers[w].pc.Copying?
    ensures OnSegment(s, w)
    ensures var x := s.workers[w];
            && x.done <= x.Seg().End() <= x.size == |s.srcs[f].content|
            && forall b :: x.done <= b ==> At(s.files[x.ino], b) == 0
  {
    var x := s.workers[w];
    assert ActorOk(s, w);
    assert InSegment(x) && Progress(s.disk, s.srcs[f], s.files[x.ino], x);
    SegmentsAscend(x.segs, x.size, x.i, x.i + 1);
  }

  /** Onto zeros, writing everything is one way to skip the zero blocks. */
  lemma WholeWriteSkipsZeros(f: seq<Byte>, p: seq<Byte>, off: nat, g: seq<Byte>)
    requires g == WriteAt(f, off, p) && forall k :: off <= k ==> At(f, k) == 0
    ensures WroteNonZero(f, p, off, g)
  {
    forall k ensures At(g, k) == if off <= k < off + |p| && !InZeroBlock(p, k - off) then p[k - off] else At(f, k) {
      if off <= k < off + |p| && InZeroBlock(p, k - off) { ZeroBlockByte(p, k - off); }
    }
  }

  lemma ReadyMoves(s: State, w: nat, f: nat) returns (t: Step)
    requires DataInv(s) && OnTrack(s, w, f) && s.workers[w].pc.Ready?
    ensures Sound(t, w) && !t.WaitDone? && Enabled(s, t)
  {
    var x := s.workers[w];
    assert ActorOk(s, w);
    t := if x.i == |x.segs| then TruncateToSize(w) else if x.Seg().shared then Acquire(w) else StartPlain(w);
  }

  lemma CheckMoves(s: State, w: nat, f: nat) returns (t: Step)
    requires DataInv(s) && OnTrack(s, w, f)
    requires s.workers[w].pc.Cloning? || s.workers[w].pc.Rechecking? || s.workers[w].pc.Recording?
    ensures Sound(t, w) && !t.WaitDone? && !t.Acquire? && Enabled(s, t)
  {
    var x := s.workers[w];
    assert ActorOk(s, w);
    SegmentsAscend(x.segs, x.size, x.i, x.i + 1);
    t := if CanClone(s, w) then CloneOk(w) else if x.pc.Cloning? then CloneFail(w)
         else if x.pc.Rechecking? then Recheck(w, Mapped(s.Src(w).exts, x.Seg())) else Record(w);
  }

  /** A worker under way that waits for nobody can always take a step that no failure brings. */
  lemma CanMoveOn(s: State, w: nat, f: nat) returns (t: Step)
    requires DataInv(s) && OnTrack(s, w, f) && UnderWay(s.workers[w]) && !s.workers[w].pc.Waiting?
    ensures Sound(t, w) && !t.WaitDone? && Enabled(s, t)
  {
    var x := s.workers[w];
    assert ActorOk(s, w);
    if x.pc.Ready? {
      t := ReadyMoves(s, w, f);
    } else if x.pc.Copying? {
      t := CopyMoves(s, w, f);
    } else if x.InLoop() {
      t := CheckMoves(s, w, f);
    } else {
      t := if x.pc.Statting? then Stat(w) else MapCheck(w);
    }
  }

  /** With no claim of another, a worker waits for nothing. */
  lemma NeedsNoWait(s: State, w: nat)
    requires ClaimInv(s) && w in s.workers && OnlyHolder(s, w)
    ensures s.workers[w].pc.Waiting? && Runs(s, w) ==> Enabled(s, WaitDone(w))
    ensures CanAcquire(s, w) ==> !Asked(s, w).Busy?
  {
    assert forall c :: c in s.inflight ==> s.workers[w].Held() == Some(c);
  }

  function Left(x: Worker): int {
    2 * ToGo(x) + if x.pc.Waiting? then 1 else 0
  }

  lemma RunGrows(states: seq<State>, steps: seq<Step>, t: Step)
    requires Run(states, steps) && Enabled(states[|steps|], t)
    ensures Run(states + [Apply(states[|steps|], t)], steps + [t])
  {
  }

  lemma StaysUndisturbed(states: seq<State>, steps: seq<Step>, j: nat, w: nat, f: nat, t: Step)
    requires Run(states, steps) && Undisturbed(states, steps, j, |steps|, w, f)
    requires Enabled(states[|steps|], t) && Sound(t, w)
    ensures var ss := states + [Apply(states[|steps|], t)];
            Run(ss, steps + [t]) && Undisturbed(ss, steps + [t], j, |steps| + 1, w, f)
  {
    RunGrows(states, steps, t);
  }

  lemma OthersStillHoldNothing(s: State, t: Step, w: nat)
    requires Enabled(s, t) && Sound(t, w) && OnlyHolder(s, w)
    ensures OnlyHolder(Apply(s, t), w)
  {
    forall v | v in Apply(s, t).workers && v != w ensures Apply(s, t).workers[v].Held().None? {
      OwnStepsAddNobody(s, t, w);
      OthersDoNotMove(s, t, v);
    }
  }

  lemma OwnStepsAddNobody(s: State, t: Step, w: nat)
    requires Enabled(s, t) && Sound(t, w)
    ensures Apply(s, t).workers.Keys == s.workers.Keys
  {
    if InLoopStep(t) { LoopAddsNobody(s, t, w); } else { OuterAddsNobody(s, t, w); }
  }

  lemma LoopAddsNobody(s: State, t: Step, w: nat)
    requires Enabled(s, t) && Sound(t, w) && InLoopStep(t)
    ensures ApplyLoop(s, t).workers.Keys == s.workers.Keys
  {
    if t.CloneOk? || t.Record? {
      TableAddsNobody(s, t, w);
    } else if t.CopyChunk? || t.CopyEnd? || t.Recheck? {
      CopyAddsNobody(s, t, w);
    }
  }

  lemma TableAddsNobody(s: State, t: Step, w: nat)
    requires Enabled(s, t) && Sound(t, w) && (t.CloneOk? || t.Record?)
    ensures ApplyLoop(s, t).workers.Keys == s.workers.Keys
  {
  }

  lemma CopyAddsNobody(s: State, t: Step, w: nat)
    requires Enabled(s, t) && Sound(t, w) && (t.CopyChunk? || t.CopyEnd? || t.Recheck?)
    ensures ApplyLoop(s, t).workers.Keys == s.workers.Keys
  {
  }

  lemma OuterAddsNobody(s: State, t: Step, w: nat)
    requires Enabled(s, t) && Sound(t, w) && !InLoopStep(t)
    ensures ApplyOuter(s, t).workers.Keys == s.workers.Keys
  {
  }

  /** The run goes on from where it was, and only by steps of w. */
  ghost predicate GoesOn(states: seq<State>, steps: seq<Step>, ss: seq<State>, ts: seq<Step>, w: nat) {
    && Run(ss, ts) && |steps| <= |ts| && ts[..|steps|] == steps && |states| <= |ss| && ss[..|states|] == states
    && forall i :: |steps| <= i < |ts| ==> Sound(ts[i], w)
  }

  lemma GoesOnAfter(states: seq<State>, steps: seq<Step>, s: State, t: Step, ss: seq<State>, ts: seq<Step>, w: nat)
    requires Sound(t, w) && GoesOn(states + [s], steps + [t], ss, ts, w)
    ensures GoesOn(states, steps, ss, ts, w)
  {
    assert ts[..|steps|] == ts[..|steps| + 1][..|steps|];
    assert ss[..|states|] == ss[..|states| + 1][..|states|];
    forall i | |steps| <= i < |ts| ensures Sound(ts[i], w) {
      if i == |steps| { assert ts[i] == ts[..|steps| + 1][i]; }
    }
  }

  /** An undisturbed worker in the middle of its copy, with no claim of another. */
  ghost predicate Midway(states: seq<State>, steps: seq<Step>, j: nat, w: nat, f: nat) {
    && Run(states, steps) && Undisturbed(states, steps, j, |steps|, w, f)
    && w in states[|steps|].workers && UnderWay(states[|steps|].workers[w]) && OnlyHolder(states[|steps|], w)
  }

  /** From every moment of its copy an undisturbed worker reaches a verified copy by its own steps, whatever was
      recorded or lost before, as long as nobody else holds a claim. */
  lemma {:induction false} FinishesAlone(states: seq<State>, steps: seq<Step>, j: nat, w: nat, f: nat)
      returns (ss: seq<State>, ts: seq<Step>)
    requires Midway(states, steps, j, w, f)
    ensures GoesOn(states, steps, ss, ts, w)
    ensures w in ss[|ts|].workers && ss[|ts|].workers[w].pc.Verified?
    decreases Left(states[|steps|].workers[w])
  {
    LeftIsSome(states, steps, j, w, f);
    var t, s' := OneStep(states, steps, j, w, f);
    ss, ts := states + [s'], steps + [t];
    if s'.workers[w].pc.Verified? {
      assert GoesOn(ss, ts, ss, ts, w);
    } else {
      ss, ts := FinishesAlone(ss, ts, j, w, f);
    }
    GoesOnAfter(states, steps, s', t, ss, ts, w);
  }

  lemma LeftIsSome(states: seq<State>, steps: seq<Step>, j: nat, w: nat, f: nat)
    requires Midway(states, steps, j, w, f)
    ensures 0 <= Left(states[|steps|].workers[w])
  {
    var s := states[|steps|];
    UndisturbedIsOnTrack(states, steps, j, |steps|, w, f);
    RunKeeps(states, steps, |steps|);
    assert ActorOk(s, w);
    ToGoIsSome(s.disk, s.srcs[f], s.files[s.workers[w].ino], s.workers[w]);
  }

  lemma OneStep(states: seq<State>, steps: seq<Step>, j: nat, w: nat, f: nat) returns (t: Step, s': State)
    requires Midway(states, steps, j, w, f)
    ensures Sound(t, w) && Run(states + [s'], steps + [t]) && w in s'.workers
    ensures s'.workers[w].pc.Verified?
            || (Midway(states + [s'], steps + [t], j, w, f)
                && Left(s'.workers[w]) < Left(states[|steps|].workers[w]))
  {
    MidwayHolds(states, steps, j, w, f);
    t, s' := StepNearer(states[|steps|], w, f);
    StaysUndisturbed(states, steps, j, w, f, t);
    if !s'.workers[w].pc.Verified? {
      StaysMidway(states + [s'], steps + [t], j, w, f, s');
    }
  }

  lemma StaysMidway(ss: seq<State>, ts: seq<Step>, j: nat, w: nat, f: nat, s: State)
    requires Run(ss, ts) && Undisturbed(ss, ts, j, |ts|, w, f) && s == ss[|ts|]
    requires w in s.workers && UnderWay(s.workers[w]) && OnlyHolder(s, w)
    ensures Midway(ss, ts, j, w, f)
  {
  }

  lemma MidwayHolds(states: seq<State>, steps: seq<Step>, j: nat, w: nat, f: nat)
    requires Midway(states, steps, j, w, f)
    ensures DataInv(states[|steps|]) && ClaimInv(states[|steps|]) && OnTrack(states[|steps|], w, f)
  {
    UndisturbedIsOnTrack(states, steps, j, |steps|, w, f);
    RunKeeps(states, steps, |steps|);
    RunClaims(states, steps, |steps|);
  }

  lemma StepNearer(s: State, w: nat, f: nat) returns (t: Step, s': State)
    requires DataInv(s) && ClaimInv(s) && OnTrack(s, w, f) && UnderWay(s.workers[w]) && OnlyHolder(s, w)
    ensures Enabled(s, t) && Sound(t, w) && s' == Apply(s, t) && OnlyHolder(s', w) && w in s'.workers
    ensures s'.workers[w].pc.Verified? || (UnderWay(s'.workers[w]) && Left(s'.workers[w]) < Left(s.workers[w]))
  {
    t := SoundStep(s, w, f);
    s' := Apply(s, t);
    OthersStillHoldNothing(s, t, w);
    OwnKeepsTrack(s, t, w, f);
    ComesNearer(s, t, w, f);
  }

  lemma SoundStep(s: State, w: nat, f: nat) returns (t: Step)
    requires DataInv(s) && ClaimInv(s) && OnTrack(s, w, f) && UnderWay(s.workers[w]) && OnlyHolder(s, w)
    ensures Sound(t, w) && Enabled(s, t) && (Waits(s, t) ==> t.WaitDone?)
  {
    assert ActorOk(s, w);
    NeedsNoWait(s, w);
    if s.workers[w].pc.Waiting? {
      t := WaitDone(w);
    } else {
      t := CanMoveOn(s, w, f);
    }
  }

  lemma ComesNearer(s: State, t: Step, w: nat, f: nat)
    requires DataInv(s) && OnTrack(s, w, f) && UnderWay(s.workers[w]) && Enabled(s, t) && Sound(t, w)
    requires OnTrack(Apply(s, t), w, f) && (Waits(s, t) ==> t.WaitDone?)
    ensures var x, y := s.workers[w], Apply(s, t).workers[w];
            y.pc.Verified? || (UnderWay(y) && Left(y) < Left(x))
  {
    if t.WaitDone? {
      WaitEnds(s, w);
    } else {
      OwnAdvances(s, t, w, f);
      NoNewWait(s, t, w);
    }
  }

  lemma WaitEnds(s: State, w: nat)
    requires Enabled(s, WaitDone(w))
    ensures var x, y := s.workers[w], Apply(s, WaitDone(w)).workers[w]; UnderWay(y) && Left(y) < Left(x)
  {
  }

  lemma NoNewWait(s: State, t: Step, w: nat)
    requires w in s.workers && Enabled(s, t) && Sound(t, w) && !Waits(s, t)
    ensures w in Apply(s, t).workers && (Apply(s, t).workers[w].pc.Waiting? ==> s.workers[w].pc.Waiting?)
  {
    if t.Acquire? {
      assert DoAcquire(s, w).workers[w] == s.workers[w].(pc := Answered(Asked(s, w)));
    } else if InLoopStep(t) {
      LoopWaitsOnlyAtAcquire(s, t, w);
    } else {
      OuterNeverWaits(s, t, w);
    }
  }

  lemma LoopWaitsOnlyAtAcquire(s: State, t: Step, w: nat)
    requires w in s.workers && Enabled(s, t) && Sound(t, w) && InLoopStep(t) && !t.Acquire?
    ensures w in ApplyLoop(s, t).workers && !ApplyLoop(s, t).workers[w].pc.Waiting?
  {
  }

  lemma OuterNeverWaits(s: State, t: Step, w: nat)
    requires w in s.workers && Enabled(s, t) && Sound(t, w) && !InLoopStep(t)
    ensures w in ApplyOuter(s, t).workers
    ensures ApplyOuter(s, t).workers[w].pc.Waiting? ==> s.workers[w].pc.Waiting?
  {
  }
}
