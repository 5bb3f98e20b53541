/** Directory metadata and the work below it: internal/engine/dirmeta.go, with the phases of Run and the
    worker loop of internal/engine/engine.go.  Every atomic operation and every queue call is one step. */
module DirMeta {
  /** What the walk adds to a directory: a queued copy, or a hard link deferred to the end. */
  datatype Kind = Copy | Link

  /** Where an agent is.  Enqueue: counted, not yet in the job queue.  Zeroed: dropped the count to zero, has not
      read closed. Loading: has stored closed, has not read the count.  Pushing: won the swap of queued. */
  datatype Pc =
    | Free
    | Enqueue(d: nat)
    | Working(d: nat)
    | Zeroed(d: nat)
    | Loading(d: nat)
    | Casing(d: nat)
    | Pushing(d: nat)
    | Exited

  datatype Phase = Walk | Joining | Linking | Closed

  datatype State = State(
    pending: map<nat, int>,
    closed: set<nat>,
    queued: set<nat>,
    meta: seq<nat>,              // the metadata queue, with everything ever pushed
    jobs: seq<nat>,              // the copy queue: each job's directory
    links: seq<nat>,             // deferred hard links: each one's directory
    stack: seq<nat>,             // directories the walk is inside
    phase: Phase,
    pcs: seq<Pc>,                // agent 0 is the main goroutine, the others are copy workers
    added: map<nat, seq<Kind>>,  // the work each directory was given, in order
    premature: set<nat>          // directories pushed while work below them was pending
  ) {
    function Top(): nat
      requires stack != []
    {
      stack[|stack| - 1]
    }
  }

  /** How often x occurs in s. */
  function Num<T(==)>(s: seq<T>, x: T): nat {
    if s == [] then 0 else (if s[0] == x then 1 else 0) + Num(s[1..], x)
  }

  lemma {:induction false} NumSet<T>(s: seq<T>, i: nat, y: T, x: T)
    requires i < |s|
    ensures Num(s[i := y], x) == Num(s, x) + (if y == x then 1 else 0) - (if s[i] == x then 1 else 0)
  {
    if i == 0 {
      assert s[i := y][1..] == s[1..];
    } else {
      NumSet(s[1..], i - 1, y, x);
      assert s[i := y][1..] == s[1..][i - 1 := y];
    }
  }

  lemma {:induction false} NumAppend<T>(s: seq<T>, y: T, x: T)
    ensures Num(s + [y], x) == Num(s, x) + if y == x then 1 else 0
  {
    if s == [] {
      assert s + [y] == [y];
    } else {
      NumAppend(s[1..], y, x);
      assert (s + [y])[1..] == s[1..] + [y];
    }
  }

  lemma {:induction false} NumIn<T>(s: seq<T>, x: T)
    ensures Num(s, x) > 0 <==> x in s
  {
    if s != [] {
      NumIn(s[1..], x);
      assert s == [s[0]] + s[1..];
    }
  }

  // ---- Steps ----

  datatype Step =
    | OpenDir(d: nat)
    | AddCopy
    | PushJob
    | AddLink
    | CloseStore
    | LoadPending
    | EndWalk
    | Take(a: nat)
    | Exit(a: nat)
    | Join
    | NextLink
    | Finish
    | Drop(a: nat)
    | ReadClosed(a: nat)
    | Swap(a: nat)
    | PushMeta(a: nat)

  predicate MainFree(s: State, phase: Phase) {
    s.pcs != [] && s.pcs[0].Free? && s.phase == phase
  }

  /** The walk is inside a directory and about to act on its next entry. */
  predicate InDir(s: State) {
    MainFree(s, Walk) && s.stack != [] && s.Top() in s.pending && s.Top() in s.added
  }

  predicate Enabled(s: State, t: Step) {
    match t
    case OpenDir(d) => MainFree(s, Walk) && d !in s.pending
    case AddCopy => InDir(s)
    case PushJob => s.pcs != [] && s.pcs[0].Enqueue?
    case AddLink => InDir(s)
    case CloseStore => InDir(s)
    case LoadPending => s.pcs != [] && s.pcs[0].Loading? && s.pcs[0].d in s.pending
    case EndWalk => MainFree(s, Walk) && s.stack == []
    case Take(a) => a != 0 && a < |s.pcs| && s.pcs[a].Free? && s.jobs != []
    case Exit(a) => a != 0 && a < |s.pcs| && s.pcs[a].Free? && s.jobs == [] && !s.phase.Walk?
    case Join => MainFree(s, Joining) && forall a :: 0 < a < |s.pcs| ==> s.pcs[a].Exited?
    case NextLink => MainFree(s, Linking) && s.links != []
    case Finish => MainFree(s, Linking) && s.links == []
    case Drop(a) => a < |s.pcs| && s.pcs[a].Working? && s.pcs[a].d in s.pending
    case ReadClosed(a) => a < |s.pcs| && s.pcs[a].Zeroed?
    case Swap(a) => a < |s.pcs| && s.pcs[a].Casing?
    case PushMeta(a) => a < |s.pcs| && s.pcs[a].Pushing? && s.pcs[a].d in s.pending
  }

  function Go(s: State, a: nat, pc: Pc): State
    requires a < |s.pcs|
  {
    s.(pcs := s.pcs[a := pc])
  }

  function Apply(s: State, t: Step): State
    requires Enabled(s, t)
  {
    match t
    case OpenDir(d) => s.(pending := s.pending[d := 0], added := s.added[d := []], stack := s.stack + [d])
    case AddCopy =>
      var d := s.Top();
      Go(s, 0, Enqueue(d)).(pending := s.pending[d := s.pending[d] + 1], added := s.added[d := s.added[d] + [Copy]])
    case PushJob => Go(s, 0, Free).(jobs := s.jobs + [s.pcs[0].d])
    case AddLink =>
      var d := s.Top();
      s.(pending := s.pending[d := s.pending[d] + 1], added := s.added[d := s.added[d] + [Link]],
        links := s.links + [d])
    case CloseStore =>
      Go(s, 0, Loading(s.Top())).(closed := s.closed + {s.Top()}, stack := s.stack[..|s.stack| - 1])
    case LoadPending =>
      var d := s.pcs[0].d;
      Go(s, 0, if s.pending[d] == 0 then Casing(d) else Free)
    case EndWalk => s.(phase := Joining)
    case Take(a) => Go(s, a, Working(s.jobs[0])).(jobs := s.jobs[1..])
    case Exit(a) => Go(s, a, Exited)
    case Join => s.(phase := Linking)
    case NextLink => Go(s, 0, Working(s.links[0])).(links := s.links[1..])
    case Finish => s.(phase := Closed)
    case Drop(a) =>
      var d := s.pcs[a].d;
      Go(s, a, if s.pending[d] == 1 then Zeroed(d) else Free).(pending := s.pending[d := s.pending[d] - 1])
    case ReadClosed(a) => Go(s, a, if s.pcs[a].d in s.closed then Casing(s.pcs[a].d) else Free)
    case Swap(a) =>
      var d := s.pcs[a].d;
      Go(s, a, if d in s.queued then Free else Pushing(d)).(queued := s.queued + {d})
    case PushMeta(a) =>
      var d := s.pcs[a].d;
      Go(s, a, Free).(meta := s.meta + [d], premature := if s.pending[d] > 0 then s.premature + {d} else s.premature)
  }

  /** A run starts with nothing walked and at least one worker. */
  predicate Init(s: State) {
    && s == State(map[], {}, {}, [], [], [], [], Walk, s.pcs, map[], {})
    && 2 <= |s.pcs| && forall a :: 0 <= a < |s.pcs| ==> s.pcs[a].Free?
  }

  ghost predicate Run(states: seq<State>, steps: seq<Step>) {
    && |states| == |steps| + 1 && Init(states[0])
    && forall k :: 0 <= k < |steps| ==> Enabled(states[k], steps[k]) && states[k + 1] == Apply(states[k], steps[k])
  }

  ghost predicate Reachable(s: State) {
    exists states, steps :: Run(states, steps) && states[|steps|] == s
  }

  lemma ReachStep(s: State, t: Step)
    requires Reachable(s) && Enabled(s, t)
    ensures Reachable(Apply(s, t))
  {
    var states, steps :| Run(states, steps) && states[|steps|] == s;
    var s' := Apply(s, t);
    var states', steps' := states + [s'], steps + [t];
    assert forall k :: 0 <= k < |steps'| ==>
      Enabled(states'[k], steps'[k]) && states'[k + 1] == Apply(states'[k], steps'[k]);
    assert Run(states', steps') && states'[|steps'|] == s';
  }

  // ---- What every step keeps ----

  /** The agents looking at one directory, by place. */
  datatype Agents = Agents(enqueue: int, working: int, zeroed: int, loading: int, casing: int, pushing: int)

  /** All that matters about one directory: its count, where its work is, which agents look at it. */
  datatype View = View(pending: int, jobs: int, links: int, at: Agents, meta: int, queued: bool, closed: bool,
    open: bool)

  function AgentsOf(pcs: seq<Pc>, d: nat): Agents {
    Agents(Num(pcs, Enqueue(d)), Num(pcs, Working(d)), Num(pcs, Zeroed(d)), Num(pcs, Loading(d)), Num(pcs, Casing(d)),
           Num(pcs, Pushing(d)))
  }

  function ViewOf(s: State, d: nat): View
    requires d in s.pending
  {
    View(s.pending[d], Num(s.jobs, d), Num(s.links, d), AgentsOf(s.pcs, d), Num(s.meta, d), d in s.queued,
      d in s.closed,
         d in s.stack)
  }

  predicate ViewOk(v: View) {
    // The count is the work in the queue, deferred, on its way to the queue or in hand.
    && v.pending == v.jobs + v.links + v.at.enqueue + v.at.working
    // The metadata queue gets a directory once, from the agent that won the swap.
    && v.meta + v.at.pushing == (if v.queued then 1 else 0)
    && (v.closed <==> !v.open)
    && (v.queued || v.at.casing + v.at.loading > 0 ==> v.closed)
    && (v.at.enqueue > 0 ==> v.open)
    // A closed directory with no work left is queued, or someone will still look at it.
    && (v.closed && v.pending == 0 && !v.queued ==> v.at.zeroed + v.at.loading + v.at.casing > 0)
    && 0 <= v.at.zeroed && 0 <= v.at.loading && 0 <= v.at.casing && 0 <= v.meta
  }

  /** k more agents at pc, as directory d sees it. */
  function Bump(v: Agents, d: nat, pc: Pc, k: int): Agents {
    match pc
    case Enqueue(e) => if e == d then v.(enqueue := v.enqueue + k) else v
    case Working(e) => if e == d then v.(working := v.working + k) else v
    case Zeroed(e) => if e == d then v.(zeroed := v.zeroed + k) else v
    case Loading(e) => if e == d then v.(loading := v.loading + k) else v
    case Casing(e) => if e == d then v.(casing := v.casing + k) else v
    case Pushing(e) => if e == d then v.(pushing := v.pushing + k) else v
    case _ => v
  }

  function Moved(pcs: seq<Pc>, a: nat, pc: Pc, d: nat): Agents
    requires a < |pcs|
  {
    Bump(Bump(AgentsOf(pcs, d), d, pcs[a], -1), d, pc, 1)
  }

  lemma MovedAgents(pcs: seq<Pc>, a: nat, pc: Pc, d: nat)
    requires a < |pcs|
    ensures AgentsOf(pcs[a := pc], d) == Moved(pcs, a, pc, d)
  {
    NumSet(pcs, a, pc, Enqueue(d));
    NumSet(pcs, a, pc, Working(d));
    NumSet(pcs, a, pc, Zeroed(d));
    NumSet(pcs, a, pc, Loading(d));
    NumSet(pcs, a, pc, Casing(d));
    NumSet(pcs, a, pc, Pushing(d));
  }

  /** An agent looking at d is counted. */
  lemma Seen(pcs: seq<Pc>, a: nat)
    requires a < |pcs|
    ensures Num(pcs, pcs[a]) > 0
  {
    NumIn(pcs, pcs[a]);
  }

  lemma Unseen(pcs: seq<Pc>, d: nat)
    requires forall a :: 0 <= a < |pcs| && !pcs[a].Free? && !pcs[a].Exited? ==> pcs[a].d != d
    ensures AgentsOf(pcs, d) == Agents(0, 0, 0, 0, 0, 0)
  {
    NumIn(pcs, Enqueue(d));
    NumIn(pcs, Working(d));
    NumIn(pcs, Zeroed(d));
    NumIn(pcs, Loading(d));
    NumIn(pcs, Casing(d));
    NumIn(pcs, Pushing(d));
  }

  /** A worker leaves only when no job is left and none can come; the main goroutine waits for all of them. */
  ghost predicate PhaseOk(s: State) {
    && 2 <= |s.pcs| && !s.pcs[0].Exited?
    && (!s.phase.Walk? ==> s.stack == [] && !s.pcs[0].Enqueue? && !s.pcs[0].Loading?)
    && (s.phase.Walk? ==> !s.pcs[0].Working? && !s.pcs[0].Zeroed?)
    && (s.phase.Joining? || s.phase.Closed? ==> s.pcs[0].Free?)
    && (s.phase.Closed? ==> s.links == [])
    && forall a :: 0 < a < |s.pcs| ==> WorkerOk(s, s.pcs[a])
  }

  predicate WorkerOk(s: State, pc: Pc) {
    && !pc.Enqueue? && !pc.Loading?
    && (pc.Exited? ==> s.jobs == [] && !s.phase.Walk?)
    && (s.phase.Linking? || s.phase.Closed? ==> pc.Exited?)
  }

  predicate KnownPc(s: State, pc: Pc) {
    pc.Free? || pc.Exited? || pc.d in s.pending
  }

  /** No queue names a directory that does not exist, and the stack holds each once. */
  ghost predicate KnownOk(s: State) {
    && (forall d :: d in s.jobs || d in s.links || d in s.stack || d in s.meta ==> d in s.pending)
    && (forall d :: d in s.closed || d in s.queued || d in s.premature ==> d in s.pending)
    && (forall a :: 0 <= a < |s.pcs| ==> KnownPc(s, s.pcs[a]))
    && (forall i, j :: 0 <= i < j < |s.stack| ==> s.stack[i] != s.stack[j])
    && s.pending.Keys == s.added.Keys
  }

  ghost predicate DirsOk(s: State) {
    forall d :: d in s.pending ==> ViewOk(ViewOf(s, d))
  }

  ghost predicate Inv(s: State) {
    PhaseOk(s) && KnownOk(s) && DirsOk(s)
  }

  // ---- Step by step ----

  /** The view of directory e after a step. */
  function After(s: State, t: Step, e: nat): View
    requires Enabled(s, t) && e in s.pending
  {
    var v := ViewOf(s, e);
    match t
    case AddCopy => if e != s.Top() then v else v.(pending := v.pending + 1, at := v.at.(enqueue := v.at.enqueue + 1))
    case PushJob => if e != s.pcs[0].d then v else v.(jobs := v.jobs + 1, at := v.at.(enqueue := v.at.enqueue - 1))
    case AddLink => if e != s.Top() then v else v.(pending := v.pending + 1, links := v.links + 1)
    case CloseStore =>
      if e != s.Top() then v else v.(at := v.at.(loading := v.at.loading + 1), closed := true, open := false)
    case LoadPending =>
      if e != s.pcs[0].d then v
      else v.(at := v.at.(loading := v.at.loading - 1, casing := v.at.casing + if v.pending == 0 then 1 else 0))
    case Take(a) => if e != s.jobs[0] then v else v.(jobs := v.jobs - 1, at := v.at.(working := v.at.working + 1))
    case NextLink => if e != s.links[0] then v else v.(links := v.links - 1, at := v.at.(working := v.at.working + 1))
    case Drop(a) =>
      if e != s.pcs[a].d then v
      else if v.pending == 1 then v.(pending := 0, at := v.at.(working := v.at.working - 1, zeroed := v.at.zeroed + 1))
      else v.(pending := v.pending - 1, at := v.at.(working := v.at.working - 1))
    case ReadClosed(a) =>
      if e != s.pcs[a].d then v
      else v.(at := v.at.(zeroed := v.at.zeroed - 1, casing := v.at.casing + if v.closed then 1 else 0))
    case Swap(a) =>
      if e != s.pcs[a].d then v
      else v.(queued := true,
        at := v.at.(casing := v.at.casing - 1, pushing := v.at.pushing + if v.queued then 0 else 1))
    case PushMeta(a) => if e != s.pcs[a].d then v else v.(meta := v.meta + 1, at := v.at.(pushing := v.at.pushing - 1))
    case _ => v
  }

  lemma PhaseKeeps(s: State, t: Step)
    requires PhaseOk(s) && Enabled(s, t)
    ensures PhaseOk(Apply(s, t))
  {
    var s' := Apply(s, t);
    if t.Join? { assert WorkerOk(s, s.pcs[1]); }
    forall a | 0 < a < |s'.pcs| ensures WorkerOk(s', s'.pcs[a]) {
      assert WorkerOk(s, s.pcs[a]);
    }
  }

  lemma KnownKeeps(s: State, t: Step)
    requires KnownOk(s) && Enabled(s, t)
    ensures KnownOk(Apply(s, t))
  {
    var s' := Apply(s, t);
    forall a | 0 <= a < |s'.pcs| ensures KnownPc(s', s'.pcs[a]) {
      assert KnownPc(s, s.pcs[a]);
    }
  }

  lemma OpenView(s: State, d: nat)
    requires Inv(s) && Enabled(s, OpenDir(d))
    ensures ViewOf(Apply(s, OpenDir(d)), d) == View(0, 0, 0, Agents(0, 0, 0, 0, 0, 0), 0, false, false, true)
  {
    forall a | 0 <= a < |s.pcs| ensures KnownPc(s, s.pcs[a]) {}
    Unseen(s.pcs, d);
    NumIn(s.jobs, d);
    NumIn(s.links, d);
    NumIn(s.meta, d);
  }

  /** The steps of the walk that give a directory work, or hand work on. */
  lemma WalkView(s: State, t: Step, e: nat)
    requires Enabled(s, t) && e in s.pending && ViewOk(ViewOf(s, e)) && (t.AddCopy? || t.PushJob? || t.AddLink?)
    ensures ViewOf(Apply(s, t), e) == After(s, t, e) && ViewOk(After(s, t, e))
  {
    match t
    case AddCopy =>
      MovedAgents(s.pcs, 0, Enqueue(s.Top()), e);
    case PushJob =>
      MovedAgents(s.pcs, 0, Free, e);
      NumAppend(s.jobs, s.pcs[0].d, e);
    case AddLink =>
      NumAppend(s.links, s.Top(), e);
  }

  lemma CloseView(s: State, e: nat)
    requires Enabled(s, CloseStore) && e in s.pending && ViewOk(ViewOf(s, e))
    requires Num(s.pcs, Enqueue(s.Top())) == 0 && s.Top() !in s.stack[..|s.stack| - 1]
    ensures ViewOf(Apply(s, CloseStore), e) == After(s, CloseStore, e) && ViewOk(After(s, CloseStore, e))
  {
    MovedAgents(s.pcs, 0, Loading(s.Top()), e);
    assert s.stack == s.stack[..|s.stack| - 1] + [s.Top()];
  }

  /** With the main goroutine free, no job is on its way to the queue. */
  lemma NothingEnqueued(s: State, d: nat)
    requires PhaseOk(s) && s.pcs[0].Free?
    ensures Num(s.pcs, Enqueue(d)) == 0
  {
    forall a | 0 <= a < |s.pcs| ensures s.pcs[a] != Enqueue(d) {
      assert a > 0 ==> WorkerOk(s, s.pcs[a]);
    }
    NumIn(s.pcs, Enqueue(d));
  }

  /** A job or a link taken in hand. */
  lemma TakeView(s: State, t: Step, e: nat)
    requires Enabled(s, t) && e in s.pending && ViewOk(ViewOf(s, e)) && (t.Take? || t.NextLink?)
    ensures ViewOf(Apply(s, t), e) == After(s, t, e) && ViewOk(After(s, t, e))
  {
    match t
    case Take(a) =>
      MovedAgents(s.pcs, a, Working(s.jobs[0]), e);
    case NextLink =>
      MovedAgents(s.pcs, 0, Working(s.links[0]), e);
  }

  /** A piece of work done: the last one leaves its agent looking at the directory. */
  lemma DropView(s: State, a: nat, e: nat)
    requires Enabled(s, Drop(a)) && e in s.pending && ViewOk(ViewOf(s, e))
    ensures ViewOf(Apply(s, Drop(a)), e) == After(s, Drop(a), e) && ViewOk(After(s, Drop(a), e))
  {
    var d := s.pcs[a].d;
    MovedAgents(s.pcs, a, if s.pending[d] == 1 then Zeroed(d) else Free, e);
  }

  /** The walk closed the directory and reads the count. */
  lemma LoadView(s: State, e: nat)
    requires Enabled(s, LoadPending) && e in s.pending && ViewOk(ViewOf(s, e))
    ensures ViewOf(Apply(s, LoadPending), e) == After(s, LoadPending, e) && ViewOk(After(s, LoadPending, e))
  {
    var d := s.pcs[0].d;
    MovedAgents(s.pcs, 0, if s.pending[d] == 0 then Casing(d) else Free, e);
    Seen(s.pcs, 0);
  }

  /** A worker dropped the count to zero and reads closed. */
  lemma ReadView(s: State, a: nat, e: nat)
    requires Enabled(s, ReadClosed(a)) && e in s.pending && ViewOk(ViewOf(s, e))
    ensures ViewOf(Apply(s, ReadClosed(a)), e) == After(s, ReadClosed(a), e) && ViewOk(After(s, ReadClosed(a), e))
  {
    var d := s.pcs[a].d;
    MovedAgents(s.pcs, a, if d in s.closed then Casing(d) else Free, e);
    Seen(s.pcs, a);
  }

  /** The winner of the swap goes on to push. */
  lemma SwapView(s: State, a: nat, e: nat)
    requires Enabled(s, Swap(a)) && e in s.pending && ViewOk(ViewOf(s, e))
    ensures ViewOf(Apply(s, Swap(a)), e) == After(s, Swap(a), e) && ViewOk(After(s, Swap(a), e))
  {
    var d := s.pcs[a].d;
    MovedAgents(s.pcs, a, if d in s.queued then Free else Pushing(d), e);
    Seen(s.pcs, a);
  }

  lemma PushView(s: State, a: nat, e: nat)
    requires Enabled(s, PushMeta(a)) && e in s.pending && ViewOk(ViewOf(s, e))
    ensures ViewOf(Apply(s, PushMeta(a)), e) == After(s, PushMeta(a), e) && ViewOk(After(s, PushMeta(a), e))
  {
    var d := s.pcs[a].d;
    MovedAgents(s.pcs, a, Free, e);
    NumAppend(s.meta, d, e);
  }

  lemma StepView(s: State, t: Step, e: nat)
    requires Inv(s) && Enabled(s, t) && e in s.pending
    ensures ViewOf(Apply(s, t), e) == After(s, t, e) && ViewOk(After(s, t, e))
  {
    assert ViewOk(ViewOf(s, e));
    if t.AddCopy? || t.PushJob? || t.AddLink? {
      WalkView(s, t, e);
    } else if t.CloseStore? {
      NothingEnqueued(s, s.Top());
      CloseView(s, e);
    } else if t.Take? || t.NextLink? {
      TakeView(s, t, e);
    } else if t.Drop? {
      DropView(s, t.a, e);
    } else if t.LoadPending? {
      LoadView(s, e);
    } else if t.ReadClosed? {
      ReadView(s, t.a, e);
    } else if t.Swap? {
      SwapView(s, t.a, e);
    } else if t.PushMeta? {
      PushView(s, t.a, e);
    } else {
      PlainView(s, t, e);
    }
  }

  /** The steps that only move between phases. */
  lemma PlainView(s: State, t: Step, e: nat)
    requires Enabled(s, t) && e in s.pending && ViewOk(ViewOf(s, e))
    requires (t.OpenDir? || t.EndWalk? || t.Exit? || t.Join? || t.Finish?)
    ensures ViewOf(Apply(s, t), e) == After(s, t, e) && ViewOk(After(s, t, e))
  {
    if t.Exit? { MovedAgents(s.pcs, t.a, Exited, e); }
  }

  lemma StepKeeps(s: State, t: Step)
    requires Inv(s) && Enabled(s, t)
    ensures Inv(Apply(s, t))
  {
    PhaseKeeps(s, t);
    KnownKeeps(s, t);
    forall e | e in Apply(s, t).pending ensures ViewOk(ViewOf(Apply(s, t), e)) {
      if e in s.pending { StepView(s, t, e); } else { OpenView(s, e); }
    }
  }
}
