/** The shared table is the protocol's: on the object, copyShared's calls take the protocol's steps. */
module DedupTable {
  import opened Segments
  import opened ExtentIndex
  import opened DedupProtocol
  import opened DedupSafety
  import opened DedupClaims

  /** s is a state of some run. */
  ghost predicate Reached(s: State) {
    exists states, steps, k: nat :: Run(states, steps) && k < |states| && states[k] == s
  }

  /** The object holds what the protocol's state says of the index and the claims. */
  ghost predicate Holds(d: Dedup, s: State)
    reads d
  {
    d.Valid() && d.byDev == s.index && d.inflight == s.inflight && d.next == s.next && d.done == s.released
  }

  lemma ReachedKeeps(s: State)
    requires Reached(s)
    ensures DataInv(s) && ClaimInv(s)
  {
    var states, steps, k: nat :| Run(states, steps) && k < |states| && states[k] == s;
    RunKeeps(states, steps, k);
    RunClaims(states, steps, k);
  }

  /** The table of a run that begins. */
  method Create(ghost s: State) returns (d: Dedup)
    requires Init(s)
    ensures fresh(d) && Holds(d, s)
  {
    d := new Dedup();
  }

  /** copyShared asks for its segment: the answer and the table are the protocol's. */
  method Acquire(d: Dedup, ghost s: State, ghost w: nat, srcDev: nat, phys: int, length: int, dead: set<nat>)
    returns (a: Answer)
    requires Reached(s) && CanAcquire(s, w) && Holds(d, s) && dead == s.Dead()
    requires srcDev == s.Src(w).dev && phys == s.workers[w].Seg().phys && length == s.workers[w].Seg().length
    modifies d
    ensures a == Asked(s, w) && Holds(d, DoAcquire(s, w))
  {
    a := d.Acquire(srcDev, phys, length, dead);
  }

  /** The end of a copy that worked, and was made under a claim or not.  A claim that ends is in the table, in every
      run, so its channel is not closed twice. */
  method Record(d: Dedup, ghost s: State, ghost w: nat, srcDev: nat, held: Option<Claim>, loc: Option<Rec>)
    requires Reached(s) && CanRecord(s, w) && Holds(d, s)
    requires srcDev == s.Src(w).dev && s.workers[w].pc == Recording(held, loc)
    modifies d
    ensures Holds(d, DoRecord(s, w))
  {
    if held.Some? {
      HeldIsInFlight(s, w, held.value);
      d.Release(held.value, loc);
    } else if loc.Some? {
      d.Insert(srcDev, loc.value);
    }
  }

  /** The end of a copy that failed under a claim. */
  method GiveBack(d: Dedup, ghost s: State, ghost w: nat, c: Claim)
    requires Reached(s) && Runs(s, w) && s.workers[w].pc == Releasing(c) && Holds(d, s)
    modifies d
    ensures Holds(d, DoRelease(s, w))
  {
    HeldIsInFlight(s, w, c);
    d.Release(c, None);
  }

  lemma HeldIsInFlight(s: State, w: nat, c: Claim)
    requires Reached(s) && w in s.workers && s.workers[w].Held() == Some(c)
    ensures c in s.inflight && w in s.workers && s.workers[w].file in s.srcs && c.dev == s.srcs[s.workers[w].file].dev
  {
    ReachedKeeps(s);
    assert ClaimFits(s, s.workers[w], c);
  }

  predicate TableStep(t: Step) {
    t.Acquire? || t.Record? || t.Release?
  }

  /** And no other step touches the table. */
  lemma OthersLeaveTable(d: Dedup, s: State, t: Step)
    requires Enabled(s, t) && !TableStep(t) && Holds(d, s)
    ensures Holds(d, Apply(s, t))
  {
    if InLoopStep(t) { LoopLeavesTable(s, t); } else { OuterLeavesTable(s, t); }
  }

  ghost predicate SameTable(s: State, s': State) {
    s'.index == s.index && s'.inflight == s.inflight && s'.next == s.next && s'.released == s.released
  }

  lemma LoopLeavesTable(s: State, t: Step)
    requires Enabled(s, t) && InLoopStep(t) && !TableStep(t)
    ensures SameTable(s, ApplyLoop(s, t))
  {
  }

  lemma OuterLeavesTable(s: State, t: Step)
    requires Enabled(s, t) && !InLoopStep(t)
    ensures SameTable(s, ApplyOuter(s, t))
  {
  }
}
