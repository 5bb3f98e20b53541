/** How often the bytes of a shared extent move: once, if nothing fails. */
module DedupTally {
  import opened ByteFiles
  import opened Segments
  import opened ExtentIndex
  import opened DestRefs
  import opened DedupProtocol
  import opened DedupSafety
  import opened DedupClaims

  /** A step of a run where nothing fails: no kill, and every clone and every recheck works. */
  predicate Smooth(t: Step) {
    !t.Kill? && !t.CloneFail? && !t.CopyFail? && (t.Recheck? ==> t.ok)
  }

  ghost predicate HasRecord(index: map<nat, seq<Rec>>, k: Key) {
    exists r :: r in Records(index, k.0) && r.phys == k.1 && r.length == k.2
  }

  ghost predicate Covered(index: map<nat, seq<Rec>>, k: Key) {
    exists r :: r in Records(index, k.0) && r.phys <= k.1 && r.Covers(k.1, k.2)
  }

  /** In a smooth run a copy of a shared segment is always under a claim and ends with a record, and a
      record that is being cloned is still indexed, itself or under its key. */
  ghost predicate SmoothWorker(s: State, x: Worker) {
    && !x.pc.Releasing?
    && (x.pc.Copying? && x.i < |x.segs| && x.Seg().shared ==> x.pc.held.Some?)
    && (x.pc.Rechecking? ==> x.pc.held.Some?)
    && (x.pc.Recording? ==> x.pc.held.Some? && x.pc.loc.Some?)
    && (x.pc.Cloning? && x.file in s.srcs ==> HasRecord(s.index, (s.srcs[x.file].dev, x.pc.rec.phys, x.pc.rec.length)))
  }

  ghost predicate TallyInv(s: State) {
    && (forall i :: i in s.refs ==> !s.refs[i].dead)
    && (forall w :: w in s.workers ==> SmoothWorker(s, s.workers[w]))
    && (forall k :: s.copies[k] <= 1)
    && (forall k :: s.copies[k] == 1 <==> HasRecord(s.index, k))
    && (forall c :: c in s.inflight ==> s.copies[(c.dev, c.phys, c.length)] == 0)
    && (forall k :: s.clones[k] > 0 ==> Covered(s.index, k))
  }

  /** The frame: the index and the copies stay, and one worker moves. */
  lemma TallyFrame(s: State, s': State, w: nat)
    requires TallyInv(s)
    requires s'.copies == s.copies && s'.clones == s.clones && s'.index == s.index && s'.inflight == s.inflight
    requires forall f :: f in s'.srcs ==> f in s.srcs && s'.srcs[f].dev == s.srcs[f].dev
    requires forall i :: i in s'.refs ==> !s'.refs[i].dead
    requires w in s'.workers && s'.workers == s.workers[w := s'.workers[w]] && SmoothWorker(s', s'.workers[w])
    ensures TallyInv(s')
  {
    forall v | v in s'.workers ensures SmoothWorker(s', s'.workers[v]) {
      if v != w { assert SmoothWorker(s, s.workers[v]); }
    }
  }

  /** A new claim is for an extent that nobody has recorded, hence nobody has copied. */
  lemma ClaimIsFresh(s: State, w: nat)
    requires TallyInv(s) && CanAcquire(s, w) && Asked(s, w).Mine?
    ensures s.copies[s.KeyOf(w)] == 0
  {
    var k := s.KeyOf(w);
    if s.copies[k] == 1 {
      assert HasRecord(s.index, k);
      var recs := Records(s.index, k.0);
      var i :| 0 <= i < |recs| && recs[i].phys == k.1 && recs[i].length == k.2;
      FindSeesItsOwnKey(recs, k.1, k.2, s.Dead(), i);
    }
  }

  lemma HitTally(s: State, s': State, w: nat)
    requires TallyInv(s) && CanAcquire(s, w) && Asked(s, w).Hit? && s' == DoAcquire(s, w)
    ensures TallyInv(s')
  {
    assert HasRecord(s'.index, (s.Src(w).dev, Asked(s, w).rec.phys, Asked(s, w).rec.length));
    TallyFrame(s, s', w);
  }

  lemma BusyTally(s: State, s': State, w: nat)
    requires TallyInv(s) && CanAcquire(s, w) && Asked(s, w).Busy? && s' == DoAcquire(s, w)
    ensures TallyInv(s')
  {
    TallyFrame(s, s', w);
  }

  lemma MineTally(s: State, s': State, w: nat)
    requires TallyInv(s) && CanAcquire(s, w) && Asked(s, w).Mine? && s' == DoAcquire(s, w)
    ensures TallyInv(s')
  {
    ClaimIsFresh(s, w);
    var mid := SetPc(s, w, s'.workers[w].pc);
    TallyFrame(s, mid, w);
    forall v | v in s'.workers ensures SmoothWorker(s', s'.workers[v]) {
      assert SmoothWorker(mid, mid.workers[v]);
    }
  }

  lemma AcquireTally(s: State, w: nat)
    requires TallyInv(s) && CanAcquire(s, w)
    ensures TallyInv(DoAcquire(s, w))
  {
    match Asked(s, w)
    case Hit(_, _) => HitTally(s, DoAcquire(s, w), w);
    case Busy(_) => BusyTally(s, DoAcquire(s, w), w);
    case Mine(_) => MineTally(s, DoAcquire(s, w), w);
  }

  /** A clone of a segment needs a record that covers it. */
  lemma CloneTally(s: State, w: nat)
    requires TallyInv(s) && DataInv(s) && CanClone(s, w)
    ensures TallyInv(DoClone(s, w))
  {
    var s' := DoClone(s, w);
    var key := s.KeyOf(w);
    CloneIsCovered(s, w);
    TallyFrame(s, s'.(clones := s.clones), w);
    forall v | v in s'.workers ensures SmoothWorker(s', s'.workers[v]) {
      assert SmoothWorker(s'.(clones := s.clones), s'.workers[v]);
    }
    forall k | s'.clones[k] > 0 ensures Covered(s'.index, k) {
      assert k == key || s.clones[k] > 0;
    }
  }

  lemma CloneIsCovered(s: State, w: nat)
    requires TallyInv(s) && DataInv(s) && CanClone(s, w)
    ensures Covered(s.index, s.KeyOf(w))
  {
    assert ActorOk(s, w) && SmoothWorker(s, s.workers[w]);
    var x := s.workers[w];
    var dev := s.srcs[x.file].dev;
    assert HasRecord(s.index, (dev, x.pc.rec.phys, x.pc.rec.length));
    var r :| r in Records(s.index, dev) && r.phys == x.pc.rec.phys && r.length == x.pc.rec.length;
    assert r.Covers(x.Seg().phys, x.Seg().length);
  }

  lemma RecordsGrow(index: map<nat, seq<Rec>>, dev: nat, r: Rec, k: Key)
    requires IndexOk(index)
    ensures HasRecord(AddRecord(index, dev, r), k) <==> HasRecord(index, k) || k == (dev, r.phys, r.length)
    ensures Covered(index, k) ==> Covered(AddRecord(index, dev, r), k)
  {
    var out := AddRecord(index, dev, r);
    assert r in Records(out, dev);
    if HasRecord(index, k) {
      var x :| x in Records(index, k.0) && x.phys == k.1 && x.length == k.2;
      assert x in Records(out, k.0) || (k.0 == dev && x.SameKey(r));
    }
    if HasRecord(out, k) && k != (dev, r.phys, r.length) {
      var x :| x in Records(out, k.0) && x.phys == k.1 && x.length == k.2;
      assert x in Records(index, k.0);
    }
    if Covered(index, k) {
      var x :| x in Records(index, k.0) && x.phys <= k.1 && x.Covers(k.1, k.2);
      assert x in Records(out, k.0) || (k.0 == dev && x.SameKey(r));
    }
  }

  /** The only claim for its extent ends, so the extent is copied for the first and last time. */
  lemma OneClaimPerExtent(cs: seq<Claim>, c: Claim, x: Claim)
    requires Distinct(cs) && NoNestedClaims(cs) && c in cs && x in cs && x != c
    ensures (x.dev, x.phys, x.length) != (c.dev, c.phys, c.length)
  {
    var i :| 0 <= i < |cs| && cs[i] == c;
    var j :| 0 <= j < |cs| && cs[j] == x;
    assert i < j ==> !c.Contains(x.dev, x.phys, x.length);
    assert j < i ==> !x.Contains(c.dev, c.phys, c.length);
  }

  /** The index grows by the extent's record and the tally by its copy. */
  lemma CountCopy(s: State, s': State, w: nat, key: Key, r: Rec)
    requires TallyInv(s) && IndexOk(s.index) && s.copies[key] == 0
    requires key == (key.0, r.phys, r.length)
    requires s'.copies == s.copies + multiset{key} && s'.clones == s.clones
    requires s'.srcs == s.srcs && s'.refs == s.refs && s'.index == AddRecord(s.index, key.0, r)
    requires forall d :: d in s'.inflight ==> d in s.inflight && (d.dev, d.phys, d.length) != key
    requires w in s'.workers && s'.workers == s.workers[w := s'.workers[w]] && s'.workers[w].pc.Ready?
    ensures TallyInv(s')
  {
    forall k
      ensures HasRecord(s'.index, k) <==> HasRecord(s.index, k) || k == key
      ensures Covered(s.index, k) ==> Covered(s'.index, k)
    {
      RecordsGrow(s.index, key.0, r, k);
    }
    forall v | v in s'.workers ensures SmoothWorker(s', s'.workers[v]) {
      if v != w { assert SmoothWorker(s, s.workers[v]); }
    }
  }

  lemma RecordTally(s: State, w: nat)
    requires TallyInv(s) && ClaimInv(s) && DataInv(s) && CanRecord(s, w)
    ensures TallyInv(DoRecord(s, w))
  {
    var s' := DoRecord(s, w);
    var x := s.workers[w];
    assert SmoothWorker(s, x) && ActorOk(s, w);
    var c, key := x.Held().value, s.KeyOf(w);
    assert ClaimFits(s, x, c);
    forall d | d in s'.inflight ensures d in s.inflight && (d.dev, d.phys, d.length) != key {
      assert d != c;
      OneClaimPerExtent(s.inflight, c, d);
    }
    CountCopy(s, s', w, key, x.pc.loc.value);
  }

  lemma LoopTally(s: State, t: Step)
    requires TallyInv(s) && ClaimInv(s) && DataInv(s) && Enabled(s, t) && Smooth(t)
    requires t.Acquire? || t.CloneOk? || t.Record?
    ensures TallyInv(ApplyLoop(s, t))
  {
    match t
    case Acquire(w) => AcquireTally(s, w);
    case CloneOk(w) => CloneTally(s, w);
    case Record(w) => RecordTally(s, w);
  }

  lemma CopyTally(s: State, t: Step)
    requires TallyInv(s) && Enabled(s, t) && Smooth(t) && InLoopStep(t)
    requires !t.Acquire? && !t.CloneOk? && !t.Record?
    ensures TallyInv(ApplyLoop(s, t))
  {
    assert SmoothWorker(s, s.workers[t.w]);
    if t.CopyChunk? || t.CopyEnd? || t.Recheck? { BytesTally(s, t); } else { PlaceTally(s, t); }
  }

  lemma BytesTally(s: State, t: Step)
    requires TallyInv(s) && Enabled(s, t) && Smooth(t) && InLoopStep(t) && SmoothWorker(s, s.workers[t.w])
    requires t.CopyChunk? || t.CopyEnd? || t.Recheck?
    ensures TallyInv(ApplyLoop(s, t))
  {
    TallyFrame(s, ApplyLoop(s, t), t.w);
  }

  lemma PlaceTally(s: State, t: Step)
    requires TallyInv(s) && Enabled(s, t) && Smooth(t) && InLoopStep(t) && SmoothWorker(s, s.workers[t.w])
    requires t.StartPlain? || t.CloneFail? || t.WaitDone? || t.Cancel? || t.CopyFail? || t.Release?
    ensures TallyInv(ApplyLoop(s, t))
  {
    TallyFrame(s, ApplyLoop(s, t), t.w);
  }

  lemma SourceTally(s: State, t: Step)
    requires TallyInv(s) && Enabled(s, t) && (t.Env? || t.Rename?)
    ensures TallyInv(ApplyOuter(s, t))
  {
    var s' := ApplyOuter(s, t);
    forall v | v in s'.workers ensures SmoothWorker(s', s'.workers[v]) {
      assert SmoothWorker(s, s.workers[v]);
    }
  }

  lemma BeginTally(s: State, w: nat, f: nat, ino: nat, size: nat)
    requires TallyInv(s) && CanBegin(s, w, f, ino)
    ensures TallyInv(DoBegin(s, w, f, ino, size))
  {
    TallyFrame(s, DoBegin(s, w, f, ino, size), w);
  }

  lemma PlanTally(s: State, w: nat, segs: seq<Segment>, dev: nat)
    requires TallyInv(s) && CanPlan(s, w, segs)
    ensures TallyInv(DoPlan(s, w, segs, dev))
  {
    if AnyShared(segs) {
      TallyFrame(s, DoPlan(s, w, segs, dev), w);
    } else {
      TallyFrame(s, SetPc(s, w, Detached), w);
    }
  }

  lemma StartTally(s: State, t: Step)
    requires TallyInv(s) && Enabled(s, t) && (t.Begin? || t.Plan?)
    ensures TallyInv(ApplyOuter(s, t))
  {
    match t
    case Begin(w, f, ino, size) => BeginTally(s, w, f, ino, size);
    case Plan(w, segs, dev) => PlanTally(s, w, segs, dev);
  }

  lemma CheckTally(s: State, t: Step)
    requires TallyInv(s) && Enabled(s, t) && (t.TruncateToSize? || t.Stat? || t.MapCheck?)
    ensures TallyInv(ApplyOuter(s, t))
  {
    TallyFrame(s, ApplyOuter(s, t), t.w);
  }

  lemma LifeTally(s: State, t: Step)
    requires TallyInv(s) && Enabled(s, t) && (t.Publish? || t.Abandon? || t.Commit? || t.Rewrite? || t.Leave?)
    ensures TallyInv(ApplyOuter(s, t))
  {
    TallyFrame(s, ApplyOuter(s, t), t.w);
  }

  lemma {:induction false} RunTally(states: seq<State>, steps: seq<Step>, k: nat)
    requires Run(states, steps) && k < |states|
    requires forall j :: 0 <= j < k ==> Smooth(steps[j])
    ensures TallyInv(states[k])
  {
    if k > 0 {
      var s, t := states[k - 1], steps[k - 1];
      RunTally(states, steps, k - 1);
      RunClaims(states, steps, k - 1);
      RunKeeps(states, steps, k - 1);
      if t.Acquire? || t.CloneOk? || t.Record? {
        LoopTally(s, t);
      } else if InLoopStep(t) {
        CopyTally(s, t);
      } else if t.Env? || t.Rename? {
        SourceTally(s, t);
      } else if t.Begin? || t.Plan? {
        StartTally(s, t);
      } else if t.TruncateToSize? || t.Stat? || t.MapCheck? {
        CheckTally(s, t);
      } else {
        LifeTally(s, t);
      }
    }
  }

  // ---- Main results ----

  /** By step t a worker gets past a shared segment that wants the extent. */
  ghost predicate Finishes(s: State, t: Step, key: Key) {
    && Enabled(s, t) && InLoopStep(t) && OnSegment(s, t.w) && s.workers[t.w].Seg().shared
    && ApplyLoop(s, t).workers[t.w].i == s.workers[t.w].i + 1
    && s.KeyOf(t.w) == key
  }

  /** How many shared segments that want the extent were finished in the first k steps. */
  ghost function Finished(states: seq<State>, steps: seq<Step>, k: nat, key: Key): nat
    requires k <= |steps| < |states|
  {
    if k == 0 then 0
    else Finished(states, steps, k - 1, key) + if Finishes(states[k - 1], steps[k - 1], key) then 1 else 0
  }

  lemma FinishingCounts(s: State, t: Step, key: Key)
    requires DataInv(s) && Enabled(s, t) && (t.CloneOk? || t.Record?)
    ensures Finishes(s, t, key) <==> s.KeyOf(t.w) == key
    ensures ApplyLoop(s, t).copies + ApplyLoop(s, t).clones == s.copies + s.clones + multiset{s.KeyOf(t.w)}
  {
    assert ActorOk(s, t.w);
  }

  lemma OthersDoNotCount(s: State, t: Step, key: Key)
    requires Enabled(s, t) && !t.CloneOk? && !t.Record?
    ensures Apply(s, t).copies == s.copies && Apply(s, t).clones == s.clones
    ensures !Finishes(s, t, key)
  {
    if InLoopStep(t) {
      LoopDoesNotCount(s, t);
    } else {
      OutsideDoesNotCount(s, t);
    }
  }

  lemma LoopDoesNotCount(s: State, t: Step)
    requires Enabled(s, t) && InLoopStep(t) && !t.CloneOk? && !t.Record?
    ensures ApplyLoop(s, t).copies == s.copies && ApplyLoop(s, t).clones == s.clones
    ensures OnSegment(s, t.w) && s.workers[t.w].Seg().shared ==> ApplyLoop(s, t).workers[t.w].i == s.workers[t.w].i
  {
    if t.Acquire? || t.Recheck? {
      LookupDoesNotCount(s, t);
    } else if t.CopyChunk? || t.CopyEnd? {
      CopyDoesNotCount(s, t);
    } else {
      PlaceDoesNotCount(s, t);
    }
  }

  lemma LookupDoesNotCount(s: State, t: Step)
    requires Enabled(s, t) && (t.Acquire? || t.Recheck?)
    ensures ApplyLoop(s, t).copies == s.copies && ApplyLoop(s, t).clones == s.clones
    ensures ApplyLoop(s, t).workers[t.w].i == s.workers[t.w].i
  {
  }

  lemma CopyDoesNotCount(s: State, t: Step)
    requires Enabled(s, t) && (t.CopyChunk? || t.CopyEnd?)
    ensures ApplyLoop(s, t).copies == s.copies && ApplyLoop(s, t).clones == s.clones
    ensures s.workers[t.w].Seg().shared ==> ApplyLoop(s, t).workers[t.w].i == s.workers[t.w].i
  {
  }

  lemma PlaceDoesNotCount(s: State, t: Step)
    requires Enabled(s, t)
    requires t.StartPlain? || t.CloneFail? || t.WaitDone? || t.Cancel? || t.CopyFail? || t.Release?
    ensures ApplyLoop(s, t).copies == s.copies && ApplyLoop(s, t).clones == s.clones
    ensures ApplyLoop(s, t).workers[t.w].i == s.workers[t.w].i
  {
  }

  lemma OutsideDoesNotCount(s: State, t: Step)
    requires Enabled(s, t) && !InLoopStep(t)
    ensures ApplyOuter(s, t).copies == s.copies && ApplyOuter(s, t).clones == s.clones
  {
  }

  lemma StepCounts(s: State, t: Step, key: Key)
    requires DataInv(s) && Enabled(s, t)
    ensures var s' := Apply(s, t);
            s'.copies[key] + s'.clones[key] == s.copies[key] + s.clones[key] + if Finishes(s, t, key) then 1 else 0
  {
    if t.CloneOk? || t.Record? {
      FinishingCounts(s, t, key);
      var s' := ApplyLoop(s, t);
      assert (s'.copies + s'.clones)[key] == (s.copies + s.clones + multiset{s.KeyOf(t.w)})[key];
    } else {
      OthersDoNotCount(s, t, key);
    }
  }

  /** The tally of an extent is the number of segments that wanted it and were finished. */
  lemma {:induction false} TallyIsFinished(states: seq<State>, steps: seq<Step>, k: nat, key: Key)
    requires Run(states, steps) && k <= |steps|
    ensures states[k].copies[key] + states[k].clones[key] == Finished(states, steps, k, key)
  {
    if k > 0 {
      TallyIsFinished(states, steps, k - 1, key);
      RunKeeps(states, steps, k - 1);
      StepCounts(states[k - 1], steps[k - 1], key);
    }
  }

  /** Every record that covers the extent is the extent's own. */
  ghost predicate NoLongerRecord(s: State, key: Key) {
    forall r :: r in Records(s.index, key.0) && r.phys <= key.1 && r.Covers(key.1, key.2)
      ==> r.phys == key.1 && r.length == key.2
  }

  /** In every interleaving without failures, an extent that n finished segments wanted was transferred
      at most once, and exactly once unless a longer record covers it.  All the others were clones. */
  lemma TransferredOnce(states: seq<State>, steps: seq<Step>, k: nat, key: Key)
    requires Run(states, steps) && k <= |steps|
    requires forall j :: 0 <= j < k ==> Smooth(steps[j])
    ensures var n := Finished(states, steps, k, key);
            && states[k].copies[key] <= 1
            && states[k].copies[key] + states[k].clones[key] == n
            && (0 < n && NoLongerRecord(states[k], key) ==>
                  states[k].copies[key] == 1 && states[k].clones[key] == n - 1)
  {
    RunTally(states, steps, k);
    TallyIsFinished(states, steps, k, key);
    var s := states[k];
    if 0 < s.clones[key] {
      assert Covered(s.index, key);
    }
  }
}
