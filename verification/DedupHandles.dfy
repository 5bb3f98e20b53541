/** The handles that the extent pass holds: a destination file stays open, for clones to read from, exactly as long as
    its own copy is under way. */
module DedupHandles {
  import opened ByteFiles
  import opened Segments
  import opened ExtentIndex
  import opened DestRefs
  import opened DedupProtocol
  import opened DedupSafety

  /** Worker w writes file ino, and has neither committed nor killed it. */
  predicate Holds(ws: map<nat, Worker>, w: nat, ino: nat) {
    w in ws && ws[w].Attached() && ws[w].ino == ino
  }

  /** Every open handle has its worker. */
  ghost predicate NoLeak(s: State) {
    forall r :: r in s.refs && s.refs[r].open ==> exists w :: Holds(s.workers, w, r)
  }

  /** The step of worker w opens no handle but its own, and lets its file go only with the handle closed. */
  ghost predicate Careful(s: State, s': State, w: nat) {
    && w in s'.workers && s'.workers == s.workers[w := s'.workers[w]]
    && (forall r :: r in s'.refs && s'.refs[r].open ==> (r in s.refs && s.refs[r].open) || Holds(s'.workers, w, r))
    && (forall r :: Holds(s.workers, w, r) ==> Holds(s'.workers, w, r) || (r in s'.refs ==> !s'.refs[r].open))
  }

  lemma CarefulKeeps(s: State, s': State, w: nat)
    requires NoLeak(s) && Careful(s, s', w)
    ensures NoLeak(s')
  {
    forall r | r in s'.refs && s'.refs[r].open ensures exists v :: Holds(s'.workers, v, r) {
      if !Holds(s'.workers, w, r) {
        var v :| Holds(s.workers, v, r);
        assert Holds(s'.workers, v, r);
      }
    }
  }

  lemma LookupIsCareful(s: State, t: Step)
    requires Enabled(s, t) && (t.Acquire? || t.Recheck? || t.CopyEnd?)
    ensures Careful(s, ApplyLoop(s, t), t.w)
  {
    match t
    case Acquire(w) => AcquireIsCareful(s, w);
    case Recheck(w, ok) => RecheckIsCareful(s, w, ok);
    case CopyEnd(w) => CopyEndIsCareful(s, w);
  }

  lemma AcquireIsCareful(s: State, w: nat)
    requires CanAcquire(s, w)
    ensures Careful(s, DoAcquire(s, w), w)
  {
    assert DoAcquire(s, w).workers[w] == s.workers[w].(pc := Answered(Asked(s, w)));
  }

  lemma RecheckIsCareful(s: State, w: nat, ok: bool)
    requires CanRecheck(s, w, ok)
    ensures Careful(s, DoRecheck(s, w, ok), w)
  {
  }

  lemma CopyEndIsCareful(s: State, w: nat)
    requires CanCopyEnd(s, w)
    ensures Careful(s, DoCopyEnd(s, w), w)
  {
  }

  lemma TableIsCareful(s: State, t: Step)
    requires Enabled(s, t) && (t.CloneOk? || t.Record?)
    ensures Careful(s, ApplyLoop(s, t), t.w)
  {
  }

  lemma CopyIsCareful(s: State, t: Step)
    requires Enabled(s, t) && (t.CopyChunk? || t.CopyFail? || t.Release?)
    ensures Careful(s, ApplyLoop(s, t), t.w)
  {
  }

  lemma MoveIsCareful(s: State, t: Step)
    requires Enabled(s, t) && (t.StartPlain? || t.CloneFail? || t.WaitDone? || t.Cancel?)
    ensures Careful(s, ApplyLoop(s, t), t.w)
  {
  }

  lemma LoopIsCareful(s: State, t: Step)
    requires Enabled(s, t) && InLoopStep(t)
    ensures Careful(s, ApplyLoop(s, t), t.w)
  {
    if t.Acquire? || t.Recheck? || t.CopyEnd? {
      LookupIsCareful(s, t);
    } else if t.CloneOk? || t.Record? {
      TableIsCareful(s, t);
    } else if t.CopyChunk? || t.CopyFail? || t.Release? {
      CopyIsCareful(s, t);
    } else {
      MoveIsCareful(s, t);
    }
  }

  lemma StartIsCareful(s: State, t: Step)
    requires Enabled(s, t) && (t.Begin? || t.Plan?)
    ensures Careful(s, ApplyOuter(s, t), t.w)
  {
  }

  lemma CheckIsCareful(s: State, t: Step)
    requires Enabled(s, t) && (t.TruncateToSize? || t.Stat? || t.MapCheck?)
    ensures Careful(s, ApplyOuter(s, t), t.w)
  {
  }

  lemma EndIsCareful(s: State, t: Step)
    requires Enabled(s, t) && (t.Publish? || t.Abandon? || t.Commit? || t.Kill?)
    ensures Careful(s, ApplyOuter(s, t), t.w)
  {
    if t.Commit? || t.Kill? { RefEndIsCareful(s, t); } else { PlaceIsCareful(s, t); }
  }

  lemma RefEndIsCareful(s: State, t: Step)
    requires Enabled(s, t) && (t.Commit? || t.Kill?)
    ensures Careful(s, ApplyOuter(s, t), t.w)
  {
  }

  lemma PlaceIsCareful(s: State, t: Step)
    requires Enabled(s, t) && (t.Publish? || t.Abandon?)
    ensures Careful(s, ApplyOuter(s, t), t.w)
  {
  }

  lemma DetachedIsCareful(s: State, t: Step)
    requires Enabled(s, t) && (t.Rewrite? || t.Leave?)
    ensures Careful(s, ApplyOuter(s, t), t.w)
  {
  }

  lemma OuterIsCareful(s: State, t: Step)
    requires Enabled(s, t) && !InLoopStep(t) && !t.Env? && !t.Rename?
    ensures Careful(s, ApplyOuter(s, t), t.w)
  {
    if t.Begin? || t.Plan? {
      StartIsCareful(s, t);
    } else if t.TruncateToSize? || t.Stat? || t.MapCheck? {
      CheckIsCareful(s, t);
    } else if t.Rewrite? || t.Leave? {
      DetachedIsCareful(s, t);
    } else {
      EndIsCareful(s, t);
    }
  }

  lemma StepKeepsNoLeak(s: State, t: Step)
    requires NoLeak(s) && Enabled(s, t)
    ensures NoLeak(Apply(s, t))
  {
    if InLoopStep(t) {
      LoopIsCareful(s, t);
      CarefulKeeps(s, Apply(s, t), t.w);
    } else if !t.Env? && !t.Rename? {
      OuterIsCareful(s, t);
      CarefulKeeps(s, Apply(s, t), t.w);
    }
  }

  lemma {:induction false} RunDoesNotLeak(states: seq<State>, steps: seq<Step>, k: nat)
    requires Run(states, steps) && k < |states|
    ensures NoLeak(states[k])
  {
    if k > 0 {
      RunDoesNotLeak(states, steps, k - 1);
      StepKeepsNoLeak(states[k - 1], steps[k - 1]);
    }
  }

  /** In every interleaving a clone source's handle is open exactly while its own copy is between its plan and its
      commit or its kill; so a committed or killed file holds no handle. */
  lemma OpenExactlyWhile(states: seq<State>, steps: seq<Step>, k: nat, r: nat)
    requires Run(states, steps) && k < |states| && r in states[k].refs
    ensures states[k].refs[r].open <==> exists w :: Holds(states[k].workers, w, r)
  {
    RunDoesNotLeak(states, steps, k);
    RunKeeps(states, steps, k);
    var s := states[k];
    if w :| Holds(s.workers, w, r) { assert ActorOk(s, w) && OwnsFile(s, s.workers[w]); }
  }

  /** A worker that has committed its file, or left it, can begin the next one. */
  lemma BeginsAgain(states: seq<State>, steps: seq<Step>, k: nat, f: nat, ino: nat, size: nat)
    requires Run(states, steps) && k < |steps| && (steps[k].Commit? || steps[k].Leave?)
    requires var s := states[k + 1]; f in s.srcs && ino !in s.files && ino !in s.refs
    ensures Enabled(states[k + 1], Begin(steps[k].w, f, ino, size))
  {
  }
}
