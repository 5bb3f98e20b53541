/** The claim protocol: who waits for whom, when claims end, and how often bytes are moved. */
module DedupClaims {
  import opened ByteFiles
  import opened Segments
  import opened ExtentIndex
  import opened DestRefs
  import opened DedupProtocol
  import opened DedupSafety

  /** A held claim is in flight and is for the segment the worker is on. */
  ghost predicate ClaimFits(s: State, x: Worker, c: Claim) {
    && c in s.inflight
    && x.file in s.srcs && x.i < |x.segs| && x.Seg().shared
    && c.dev == s.srcs[x.file].dev && c.phys == x.Seg().phys && c.length == x.Seg().length
  }

  ghost predicate TableOk(inflight: seq<Claim>, next: nat, released: set<nat>) {
    && Distinct(inflight) && NoNestedClaims(inflight)
    && (forall c :: c in inflight ==> c.id < next && c.id !in released)
    && (forall id :: id in released ==> id < next)
    && (forall id: nat :: id < next ==> id in released || exists c :: c in inflight && c.id == id)
  }

  /** Every claim of the list is held by some worker. */
  ghost predicate AllHeld(cs: seq<Claim>, ws: map<nat, Worker>) {
    forall c :: c in cs ==> exists w :: w in ws && ws[w].Held() == Some(c)
  }

  /** Changing a worker that holds none of the claims keeps their holders. */
  lemma StillHeld(cs: seq<Claim>, ws: map<nat, Worker>, w: nat, y: Worker)
    requires AllHeld(cs, ws)
    requires w in ws ==> ws[w].Held() == y.Held() || ws[w].Held().None? || ws[w].Held().value !in cs
    ensures AllHeld(cs, ws[w := y])
  {
    var ws' := ws[w := y];
    forall c | c in cs ensures exists v :: v in ws' && ws'[v].Held() == Some(c) {
      var v :| v in ws && ws[v].Held() == Some(c);
      assert ws'[v].Held() == Some(c);
    }
  }

  ghost predicate ClaimInv(s: State) {
    && TableOk(s.inflight, s.next, s.released)
    && (forall w :: w in s.workers && s.workers[w].Held().Some? ==>
          ClaimFits(s, s.workers[w], s.workers[w].Held().value))
    && (forall v, w | v in s.workers && w in s.workers && v != w ::
          s.workers[v].Held().None? || s.workers[v].Held() != s.workers[w].Held())
    && AllHeld(s.inflight, s.workers)
    && (forall w :: w in s.workers && s.workers[w].pc.Waiting? ==>
          s.workers[w].pc.claim.id in s.released || s.workers[w].pc.claim in s.inflight)
  }

  /** The frame: nobody's claim, segment or wait changes. */
  lemma ClaimFrame(s: State, s': State, w: nat)
    requires ClaimInv(s)
    requires s'.inflight == s.inflight && s'.next == s.next && s'.released == s.released
    requires forall f :: f in s.srcs ==> f in s'.srcs && s'.srcs[f].dev == s.srcs[f].dev
    requires w in s'.workers && s'.workers == s.workers[w := s'.workers[w]]
    requires var y := s'.workers[w];
             && !y.pc.Waiting?
             && (if w in s.workers
                 then y.Held() == s.workers[w].Held()
                      && (y.Held().Some? ==>
                            y.file == s.workers[w].file && y.i == s.workers[w].i && y.segs == s.workers[w].segs)
                 else y.Held().None?)
    ensures ClaimInv(s')
  {
    StillHeld(s.inflight, s.workers, w, s'.workers[w]);
    forall v | v in s'.workers && s'.workers[v].Held().Some?
      ensures ClaimFits(s', s'.workers[v], s'.workers[v].Held().value)
    {
      assert ClaimFits(s, s.workers[v], s.workers[v].Held().value);
    }
  }

  lemma TakeClaim(inflight: seq<Claim>, next: nat, released: set<nat>, c: Claim)
    requires TableOk(inflight, next, released) && c.id == next
    requires forall x :: x in inflight ==> !x.Contains(c.dev, c.phys, c.length)
    ensures TableOk(inflight + [c], next + 1, released)
  {
    var t := inflight + [c];
    forall id: nat | id < next + 1 ensures id in released || exists x :: x in t && x.id == id {
      if id == next {
        assert t[|inflight|] == c;
      } else if id !in released {
        var x :| x in inflight && x.id == id;
        assert x in t;
      }
    }
    forall i, j | 0 <= i < j < |t| ensures t[i].id != t[j].id && !t[i].Contains(t[j].dev, t[j].phys, t[j].length) {
      assert t[i] in inflight;
    }
  }

  /** The claim that ends is removed once, and its id is closed once. */
  lemma EndClaim(inflight: seq<Claim>, next: nat, released: set<nat>, c: Claim)
    requires TableOk(inflight, next, released) && c in inflight
    ensures TableOk(Without(inflight, c), next, released + {c.id})
  {
    WithoutKeepsOrder(inflight, c);
    var t := Without(inflight, c);
    forall x | x in t ensures x.id != c.id {
      assert x in inflight && x != c;
    }
    forall id: nat | id < next ensures id in released + {c.id} || exists x :: x in t && x.id == id {
      if id !in released && id != c.id {
        var x :| x in inflight && x.id == id;
        assert x in t;
      }
    }
  }

  /** A worker starts to wait for a claim in flight. */
  lemma StartWait(s: State, s': State, w: nat)
    requires ClaimInv(s) && w in s.workers && s.workers[w].Held().None?
    requires s'.inflight == s.inflight && s'.next == s.next && s'.released == s.released && s'.srcs == s.srcs
    requires w in s'.workers && s'.workers == s.workers[w := s'.workers[w]]
    requires s'.workers[w].pc.Waiting? && s'.workers[w].pc.claim in s.inflight
    ensures ClaimInv(s')
  {
    StillHeld(s.inflight, s.workers, w, s'.workers[w]);
    forall v | v in s'.workers && s'.workers[v].Held().Some?
      ensures ClaimFits(s', s'.workers[v], s'.workers[v].Held().value)
    {
      assert ClaimFits(s, s.workers[v], s.workers[v].Held().value);
    }
  }

  /** A worker takes a new claim that no earlier one contains. */
  lemma StartClaim(s: State, s': State, w: nat, c: Claim)
    requires ClaimInv(s) && w in s.workers && s.workers[w].Held().None?
    requires s'.inflight == s.inflight + [c] && s'.next == s.next + 1 && s'.released == s.released
    requires s'.srcs == s.srcs
    requires w in s'.workers && s'.workers == s.workers[w := s'.workers[w]]
    requires s'.workers[w].Held() == Some(c) && c.id == s.next
    requires forall x :: x in s.inflight ==> !x.Contains(c.dev, c.phys, c.length)
    requires ClaimFits(s', s'.workers[w], c)
    ensures ClaimInv(s')
  {
    TakeClaim(s.inflight, s.next, s.released, c);
    StillHeld(s.inflight, s.workers, w, s'.workers[w]);
    assert AllHeld(s'.inflight, s'.workers) by {
      assert s'.workers[w].Held() == Some(c);
    }
    forall v | v in s'.workers && s'.workers[v].Held().Some?
      ensures ClaimFits(s', s'.workers[v], s'.workers[v].Held().value)
    {
      if v != w { OldFits(s, s', v, c); }
    }
  }

  lemma OldFits(s: State, s': State, v: nat, c: Claim)
    requires v in s.workers && s.workers[v].Held().Some? && ClaimFits(s, s.workers[v], s.workers[v].Held().value)
    requires s'.inflight == s.inflight + [c] && s'.srcs == s.srcs
    ensures ClaimFits(s', s.workers[v], s.workers[v].Held().value)
  {
  }

  lemma AcquireClaims(s: State, w: nat)
    requires ClaimInv(s) && CanAcquire(s, w)
    ensures ClaimInv(DoAcquire(s, w))
  {
    match Asked(s, w)
    case Hit(_, _) => HitClaims(s, w);
    case Busy(_) => BusyClaims(s, w);
    case Mine(c) => StartClaim(s, DoAcquire(s, w), w, c);
  }

  lemma HitClaims(s: State, w: nat)
    requires ClaimInv(s) && CanAcquire(s, w) && Asked(s, w).Hit?
    ensures ClaimInv(DoAcquire(s, w))
  {
    ClaimFrame(s, DoAcquire(s, w), w);
  }

  lemma BusyClaims(s: State, w: nat)
    requires ClaimInv(s) && CanAcquire(s, w) && Asked(s, w).Busy?
    ensures ClaimInv(DoAcquire(s, w))
  {
    StartWait(s, DoAcquire(s, w), w);
  }

  /** A worker lets its claim go, with or without a record. */
  lemma LetGo(s: State, s': State, w: nat, y: Worker)
    requires ClaimInv(s) && w in s.workers && s.workers[w].Held().Some?
    requires s'.srcs == s.srcs && s'.next == s.next
    requires var c := s.workers[w].Held().value;
             s'.inflight == Without(s.inflight, c) && s'.released == s.released + {c.id}
    requires s'.workers == s.workers[w := y] && y.Held().None? && !y.pc.Waiting?
    ensures ClaimInv(s')
  {
    var c := s.workers[w].Held().value;
    assert ClaimFits(s, s.workers[w], c);
    EndClaim(s.inflight, s.next, s.released, c);
    assert AllHeld(s'.inflight, s.workers);
    StillHeld(s'.inflight, s.workers, w, y);
    forall v | v in s'.workers && s'.workers[v].Held().Some?
      ensures ClaimFits(s', s'.workers[v], s'.workers[v].Held().value)
    {
      assert ClaimFits(s, s.workers[v], s.workers[v].Held().value);
      assert s.workers[v].Held() != s.workers[w].Held();
    }
  }

  lemma RecordClaims(s: State, w: nat)
    requires ClaimInv(s) && CanRecord(s, w)
    ensures ClaimInv(DoRecord(s, w))
  {
    if s.workers[w].pc.held.Some? {
      LetGo(s, DoRecord(s, w), w, s.workers[w].Next());
    } else {
      ClaimFrame(s, DoRecord(s, w), w);
    }
  }

  lemma CopyEndClaims(s: State, w: nat)
    requires ClaimInv(s) && CanCopyEnd(s, w)
    ensures ClaimInv(DoCopyEnd(s, w))
  {
    if s.workers[w].Held().Some? {
      assert ClaimFits(s, s.workers[w], s.workers[w].Held().value);
    }
    ClaimFrame(s, DoCopyEnd(s, w), w);
  }

  lemma MoveClaims(s: State, t: Step)
    requires ClaimInv(s) && Enabled(s, t)
    requires t.StartPlain? || t.CloneFail? || t.WaitDone? || t.Cancel? || t.CopyFail?
    ensures ClaimInv(ApplyLoop(s, t))
  {
    if t.CopyFail? {
      FailClaims(s, t.w);
    } else {
      ClaimFrame(s, ApplyLoop(s, t), t.w);
    }
  }

  lemma FailClaims(s: State, w: nat)
    requires ClaimInv(s) && Enabled(s, CopyFail(w))
    ensures ClaimInv(ApplyLoop(s, CopyFail(w)))
  {
    ClaimFrame(s, ApplyLoop(s, CopyFail(w)), w);
  }

  lemma CloneClaims(s: State, w: nat)
    requires ClaimInv(s) && CanClone(s, w)
    ensures ClaimInv(DoClone(s, w))
  {
    ClaimFrame(s, DoClone(s, w), w);
  }

  lemma ChunkClaims(s: State, w: nat, n: nat, g: seq<Byte>)
    requires ClaimInv(s) && CanCopyChunk(s, w, n, g)
    ensures ClaimInv(DoCopyChunk(s, w, n, g))
  {
    ClaimFrame(s, DoCopyChunk(s, w, n, g), w);
  }

  lemma RecheckClaims(s: State, w: nat, ok: bool)
    requires ClaimInv(s) && CanRecheck(s, w, ok)
    ensures ClaimInv(DoRecheck(s, w, ok))
  {
    ClaimFrame(s, DoRecheck(s, w, ok), w);
  }

  lemma ReleaseClaims(s: State, w: nat)
    requires ClaimInv(s) && Runs(s, w) && s.workers[w].pc.Releasing?
    ensures ClaimInv(DoRelease(s, w))
  {
    var s', y := DoRelease(s, w), s.workers[w].(pc := Failed);
    ReleaseLetsGo(s, s', w, y);
    LetGo(s, s', w, y);
  }

  lemma ReleaseLetsGo(s: State, s': State, w: nat, y: Worker)
    requires Runs(s, w) && s.workers[w].pc.Releasing? && s' == DoRelease(s, w) && y == s.workers[w].(pc := Failed)
    ensures s.workers[w].Held().Some? && y.Held().None? && !y.pc.Waiting?
    ensures var c := s.workers[w].Held().value;
            s'.inflight == Without(s.inflight, c) && s'.released == s.released + {c.id}
    ensures s'.srcs == s.srcs && s'.next == s.next && s'.workers == s.workers[w := y]
  {
  }

  lemma TableClaims(s: State, t: Step)
    requires ClaimInv(s) && Enabled(s, t)
    requires t.Acquire? || t.Record? || t.Release? || t.CopyEnd? || t.CloneOk? || t.CopyChunk? || t.Recheck?
    ensures ClaimInv(ApplyLoop(s, t))
  {
    match t
    case Acquire(w) => AcquireClaims(s, w);
    case Record(w) => RecordClaims(s, w);
    case Release(w) => ReleaseClaims(s, w);
    case CopyEnd(w) => CopyEndClaims(s, w);
    case CloneOk(w) => CloneClaims(s, w);
    case CopyChunk(w, n, g) => ChunkClaims(s, w, n, g);
    case Recheck(w, ok) => RecheckClaims(s, w, ok);
  }

  lemma SourceClaims(s: State, t: Step)
    requires ClaimInv(s) && Enabled(s, t) && (t.Env? || t.Rename?)
    ensures ClaimInv(ApplyOuter(s, t))
  {
    var s' := ApplyOuter(s, t);
    forall v | v in s'.workers && s'.workers[v].Held().Some?
      ensures ClaimFits(s', s'.workers[v], s'.workers[v].Held().value)
    {
      assert ClaimFits(s, s.workers[v], s.workers[v].Held().value);
    }
  }

  lemma BeginClaims(s: State, w: nat, f: nat, ino: nat, size: nat)
    requires ClaimInv(s) && CanBegin(s, w, f, ino)
    ensures ClaimInv(DoBegin(s, w, f, ino, size))
  {
    ClaimFrame(s, DoBegin(s, w, f, ino, size), w);
  }

  lemma PlanClaims(s: State, w: nat, segs: seq<Segment>, dev: nat)
    requires ClaimInv(s) && CanPlan(s, w, segs)
    ensures ClaimInv(DoPlan(s, w, segs, dev))
  {
    ClaimFrame(s, DoPlan(s, w, segs, dev), w);
  }

  lemma CheckClaims(s: State, t: Step)
    requires ClaimInv(s) && Enabled(s, t)
    requires t.TruncateToSize? || t.Stat? || t.MapCheck?
    ensures ClaimInv(ApplyOuter(s, t))
  {
    ClaimFrame(s, ApplyOuter(s, t), t.w);
  }

  lemma StartClaims(s: State, t: Step)
    requires ClaimInv(s) && Enabled(s, t) && (t.Begin? || t.Plan?)
    ensures ClaimInv(ApplyOuter(s, t))
  {
    match t
    case Begin(w, f, ino, size) => BeginClaims(s, w, f, ino, size);
    case Plan(w, segs, dev) => PlanClaims(s, w, segs, dev);
  }

  lemma LifeClaims(s: State, t: Step)
    requires ClaimInv(s) && Enabled(s, t)
    requires t.Publish? || t.Abandon? || t.Commit? || t.Kill? || t.Rewrite? || t.Leave?
    ensures ClaimInv(ApplyOuter(s, t))
  {
    if t.Publish? || t.Abandon? {
      PlaceClaims(s, t);
    } else if t.Commit? || t.Kill? {
      RefClaims(s, t);
    } else {
      DetachedClaims(s, t);
    }
  }

  lemma PlaceClaims(s: State, t: Step)
    requires ClaimInv(s) && Enabled(s, t) && (t.Publish? || t.Abandon?)
    ensures ClaimInv(ApplyOuter(s, t))
  {
    ClaimFrame(s, ApplyOuter(s, t), t.w);
  }

  lemma RefClaims(s: State, t: Step)
    requires ClaimInv(s) && Enabled(s, t) && (t.Commit? || t.Kill?)
    ensures ClaimInv(ApplyOuter(s, t))
  {
    ClaimFrame(s, ApplyOuter(s, t), t.w);
  }

  lemma DetachedClaims(s: State, t: Step)
    requires ClaimInv(s) && Enabled(s, t) && (t.Rewrite? || t.Leave?)
    ensures ClaimInv(ApplyOuter(s, t))
  {
    ClaimFrame(s, ApplyOuter(s, t), t.w);
  }

  lemma StepClaims(s: State, t: Step)
    requires ClaimInv(s) && Enabled(s, t)
    ensures ClaimInv(Apply(s, t))
  {
    if InLoopStep(t) { LoopClaims(s, t); } else { OuterClaims(s, t); }
  }

  lemma LoopClaims(s: State, t: Step)
    requires ClaimInv(s) && Enabled(s, t) && InLoopStep(t)
    ensures ClaimInv(ApplyLoop(s, t))
  {
    if t.StartPlain? || t.CloneFail? || t.WaitDone? || t.Cancel? || t.CopyFail? {
      MoveClaims(s, t);
    } else {
      TableClaims(s, t);
    }
  }

  lemma OuterClaims(s: State, t: Step)
    requires ClaimInv(s) && Enabled(s, t) && !InLoopStep(t)
    ensures ClaimInv(ApplyOuter(s, t))
  {
    if t.Env? || t.Rename? {
      SourceClaims(s, t);
    } else if t.Begin? || t.Plan? {
      StartClaims(s, t);
    } else if t.TruncateToSize? || t.Stat? || t.MapCheck? {
      CheckClaims(s, t);
    } else {
      LifeClaims(s, t);
    }
  }

  lemma {:induction false} RunClaims(states: seq<State>, steps: seq<Step>, k: nat)
    requires Run(states, steps) && k < |states|
    ensures ClaimInv(states[k])
  {
    if k > 0 {
      RunClaims(states, steps, k - 1);
      StepClaims(states[k - 1], steps[k - 1]);
    }
  }

  // ---- Main results on claims ----

  /** In every interleaving no claim in flight is contained in an earlier one, each has exactly one holder,
      and every claim ever made is either in flight or closed, never both. */
  lemma ClaimsAreOrderly(states: seq<State>, steps: seq<Step>, k: nat)
    requires Run(states, steps) && k < |states|
    ensures var s := states[k];
            && NoNestedClaims(s.inflight)
            && (forall c :: c in s.inflight ==>
                  exists w :: w in s.workers && s.workers[w].Held() == Some(c)
                    && forall v :: v in s.workers && s.workers[v].Held() == Some(c) ==> v == w)
            && (forall id: nat :: id < s.next ==>
                  (id in s.released <==> !exists c :: c in s.inflight && c.id == id))
  {
    RunClaims(states, steps, k);
    var s := states[k];
    forall c | c in s.inflight
      ensures exists w :: w in s.workers && s.workers[w].Held() == Some(c)
                && forall v :: v in s.workers && s.workers[v].Held() == Some(c) ==> v == w
    {
      var w :| w in s.workers && s.workers[w].Held() == Some(c);
    }
  }

  /** Ending a claim always finds it in flight and not yet closed, so no channel is closed twice. */
  lemma ClaimsEndOnce(states: seq<State>, steps: seq<Step>, k: nat)
    requires Run(states, steps) && k < |steps|
    requires steps[k].Release? || (steps[k].Record? && states[k].workers[steps[k].w].Held().Some?)
    ensures var s := states[k]; var c := s.workers[steps[k].w].Held().value;
            && c in s.inflight && c.id !in s.released
            && c !in states[k + 1].inflight && c.id in states[k + 1].released
  {
    RunClaims(states, steps, k);
    var s := states[k];
    var c := s.workers[steps[k].w].Held().value;
    assert ClaimFits(s, s.workers[steps[k].w], c);
  }

  /** Some chunk can be read and written: one byte, skipped if it is zero. */
  lemma OneByteChunk(f: seq<Byte>, b: Byte, off: nat) returns (g: seq<Byte>)
    ensures WroteNonZero(f, [b], off, g)
  {
    g := if b == 0 then f else WriteAt(f, off, [b]);
    assert [b][BlockLo(0)..Min(BlockLo(0) + SPARSE_BLOCK, 1)] == [b];
    assert InZeroBlock([b], 0) <==> b == 0 by {
      assert AllZero([b]) <==> [b][0] == 0;
    }
  }

  /** How many of its own steps a claim holder can still take before the claim ends. */
  function StepsLeft(x: Worker): int {
    match x.pc
    case Copying(_) => if x.i < |x.segs| then 3 + x.segs[x.i].End() - x.done else 3
    case Rechecking(_) => 2
    case Recording(_, _) => 1
    case Releasing(_) => 1
    case _ => 0
  }

  /** v holds the claim c, does not wait, and can take the step t; the step is a failure only if the
      source ended under the read. */
  ghost predicate Serves(s: State, c: Claim, v: nat, t: Step) {
    && v in s.workers && s.workers[v].Held() == Some(c) && !s.workers[v].pc.Waiting?
    && OwnStep(t, v) && Enabled(s, t)
    && (t.CopyFail? ==> |s.Src(v).content| <= s.workers[v].done)
  }

  /** A claim holder always has a step of its own. */
  lemma HolderMoves(s: State, v: nat) returns (t: Step)
    requires DataInv(s) && v in s.workers && s.workers[v].Held().Some?
    requires ClaimFits(s, s.workers[v], s.workers[v].Held().value)
    ensures Serves(s, s.workers[v].Held().value, v, t)
  {
    var x := s.workers[v];
    assert ActorOk(s, v);
    match x.pc
    case Copying(_) => t := CopierMoves(s, v);
    case Rechecking(_) => t := Recheck(v, false);
    case Recording(_, _) => t := Record(v);
    case Releasing(_) => t := Release(v);
  }

  lemma CopierMoves(s: State, v: nat) returns (t: Step)
    requires v in s.workers && ActorOk(s, v) && s.workers[v].Held().Some? && s.workers[v].pc.Copying?
    ensures Serves(s, s.workers[v].Held().value, v, t)
  {
    var x := s.workers[v];
    if x.done == x.Seg().End() {
      t := CopyEnd(v);
    } else if x.done < |s.Src(v).content| {
      var p := s.Src(v).content[x.done..x.done + 1];
      assert p == [s.Src(v).content[x.done]];
      var g := OneByteChunk(s.files[x.ino], s.Src(v).content[x.done], x.done);
      t := CopyChunk(v, 1, g);
    } else {
      t := CopyFail(v);
    }
  }

  /** A worker waits only for a claim that has ended, or for a holder that is not waiting and can move. */
  lemma WaitersAreServed(states: seq<State>, steps: seq<Step>, k: nat, w: nat)
    requires Run(states, steps) && k < |states| && w in states[k].workers && states[k].workers[w].pc.Waiting?
    ensures states[k].workers[w].Held().None?
    ensures Enabled(states[k], WaitDone(w)) || exists v, t :: Serves(states[k], states[k].workers[w].pc.claim, v, t)
  {
    RunClaims(states, steps, k);
    RunKeeps(states, steps, k);
    var s := states[k];
    var c := s.workers[w].pc.claim;
    assert ActorOk(s, w);
    if c.id !in s.released {
      var v :| v in s.workers && s.workers[v].Held() == Some(c);
      assert ClaimFits(s, s.workers[v], c);
      var t := HolderMoves(s, v);
      assert Serves(s, c, v, t);
    }
  }

  predicate OwnStep(t: Step, v: nat) {
    !t.Env? && !t.Rename? && t.w == v
  }

  /** The claim c of worker v ends between s and s', or its end comes nearer. */
  ghost predicate Nearer(s: State, s': State, v: nat, c: Claim)
    requires v in s.workers
  {
    && v in s'.workers
    && ((c !in s'.inflight && c.id in s'.released)
        || (s'.workers[v].Held() == Some(c) && StepsLeft(s'.workers[v]) < StepsLeft(s.workers[v])))
  }

  lemma ClaimEnds(s: State, v: nat)
    requires ClaimInv(s) && v in s.workers && s.workers[v].Held().Some?
    ensures var c := s.workers[v].Held().value; c in s.inflight && c.id !in s.released && c !in Without(s.inflight, c)
  {
    var c := s.workers[v].Held().value;
    assert ClaimFits(s, s.workers[v], c);
  }

  lemma CopyHolderStep(s: State, t: Step, v: nat)
    requires ClaimInv(s) && Enabled(s, t) && OwnStep(t, v) && v in s.workers && s.workers[v].Held().Some?
    requires t.CopyChunk? || t.CopyEnd? || t.CopyFail?
    requires s.workers[v].i < |s.workers[v].segs| && s.workers[v].done <= s.workers[v].Seg().End()
    ensures Nearer(s, ApplyLoop(s, t), v, s.workers[v].Held().value)
  {
    assert ClaimFits(s, s.workers[v], s.workers[v].Held().value);
  }

  lemma RecheckHolderStep(s: State, v: nat, ok: bool)
    requires CanRecheck(s, v, ok) && s.workers[v].Held().Some?
    ensures Nearer(s, DoRecheck(s, v, ok), v, s.workers[v].Held().value)
  {
  }

  lemma RecordHolderStep(s: State, v: nat)
    requires ClaimInv(s) && CanRecord(s, v) && s.workers[v].Held().Some?
    ensures Nearer(s, DoRecord(s, v), v, s.workers[v].Held().value)
  {
    ClaimEnds(s, v);
  }

  lemma ReleaseHolderStep(s: State, v: nat)
    requires ClaimInv(s) && Runs(s, v) && s.workers[v].pc.Releasing?
    ensures Nearer(s, DoRelease(s, v), v, s.workers[v].Held().value)
  {
    ClaimEnds(s, v);
  }

  lemma HoldersOnlyCopy(s: State, t: Step, v: nat)
    requires Enabled(s, t) && OwnStep(t, v) && v in s.workers && s.workers[v].Held().Some?
    ensures t.CopyChunk? || t.CopyEnd? || t.CopyFail? || t.Recheck? || t.Record? || t.Release?
  {
  }

  /** Every own step of a claim holder ends the claim or brings its end nearer. */
  lemma HolderStep(s: State, t: Step, v: nat)
    requires ClaimInv(s) && Enabled(s, t) && OwnStep(t, v)
    requires v in s.workers && s.workers[v].Held().Some?
    requires s.workers[v].pc.Copying? ==>
             s.workers[v].i < |s.workers[v].segs| && s.workers[v].done <= s.workers[v].Seg().End()
    ensures Nearer(s, Apply(s, t), v, s.workers[v].Held().value)
  {
    HoldersOnlyCopy(s, t, v);
    if t.CopyChunk? || t.CopyEnd? || t.CopyFail? {
      CopyHolderStep(s, t, v);
    } else {
      match t
      case Recheck(_, ok) => RecheckHolderStep(s, v, ok);
      case Record(_) => RecordHolderStep(s, v);
      case Release(_) => ReleaseHolderStep(s, v);
    }
  }

  /** A claim holder is moved by nobody else. */
  lemma OthersDoNotMove(s: State, t: Step, v: nat)
    requires Enabled(s, t) && !OwnStep(t, v) && v in s.workers
    ensures v in Apply(s, t).workers && Apply(s, t).workers[v] == s.workers[v]
  {
    if InLoopStep(t) {
      OthersDoNotMoveInLoop(s, t, v);
    } else {
      OthersDoNotMoveOutside(s, t, v);
    }
  }

  lemma OthersDoNotMoveInLoop(s: State, t: Step, v: nat)
    requires Enabled(s, t) && InLoopStep(t) && t.w != v && v in s.workers
    ensures v in ApplyLoop(s, t).workers && ApplyLoop(s, t).workers[v] == s.workers[v]
  {
    if t.Acquire? || t.Recheck? {
      OthersAtLookup(s, t, v);
    } else if t.CloneOk? || t.Record? {
      OthersAtTable(s, t, v);
    } else if t.CopyChunk? || t.CopyEnd? || t.CopyFail? || t.Release? {
      OthersAtCopy(s, t, v);
    } else {
      OthersAtPlace(s, t, v);
    }
  }

  lemma OthersAtLookup(s: State, t: Step, v: nat)
    requires Enabled(s, t) && (t.Acquire? || t.Recheck?) && t.w != v && v in s.workers
    ensures v in ApplyLoop(s, t).workers && ApplyLoop(s, t).workers[v] == s.workers[v]
  {
  }

  lemma OthersAtTable(s: State, t: Step, v: nat)
    requires Enabled(s, t) && (t.CloneOk? || t.Record?) && t.w != v && v in s.workers
    ensures v in ApplyLoop(s, t).workers && ApplyLoop(s, t).workers[v] == s.workers[v]
  {
  }

  lemma OthersAtCopy(s: State, t: Step, v: nat)
    requires Enabled(s, t) && (t.CopyChunk? || t.CopyEnd? || t.CopyFail? || t.Release?) && t.w != v && v in s.workers
    ensures v in ApplyLoop(s, t).workers && ApplyLoop(s, t).workers[v] == s.workers[v]
  {
  }

  lemma OthersAtPlace(s: State, t: Step, v: nat)
    requires Enabled(s, t) && (t.StartPlain? || t.CloneFail? || t.WaitDone? || t.Cancel?) && t.w != v
    requires v in s.workers
    ensures v in ApplyLoop(s, t).workers && ApplyLoop(s, t).workers[v] == s.workers[v]
  {
  }

  lemma OthersDoNotMoveOutside(s: State, t: Step, v: nat)
    requires Enabled(s, t) && !InLoopStep(t) && !OwnStep(t, v) && v in s.workers
    ensures v in ApplyOuter(s, t).workers && ApplyOuter(s, t).workers[v] == s.workers[v]
  {
  }

  /** In every interleaving a claim ends after at most StepsLeft steps of its holder, whatever the others do. */
  lemma HoldersFinish(states: seq<State>, steps: seq<Step>, k: nat, v: nat)
    requires Run(states, steps) && k < |steps| && v in states[k].workers && states[k].workers[v].Held().Some?
    ensures v in states[k + 1].workers
    ensures if OwnStep(steps[k], v) then Nearer(states[k], states[k + 1], v, states[k].workers[v].Held().value)
            else states[k + 1].workers[v] == states[k].workers[v]
  {
    RunClaims(states, steps, k);
    RunKeeps(states, steps, k);
    if OwnStep(steps[k], v) {
      assert ActorOk(states[k], v);
      HolderStep(states[k], steps[k], v);
    } else {
      OthersDoNotMove(states[k], steps[k], v);
    }
  }
}
