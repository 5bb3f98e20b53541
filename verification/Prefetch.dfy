/** The listing prefetcher of internal/engine/walk.go: a pool lists directories ahead of the walk.  Each mutex body
    is one step. */
module Prefetch {
  /** What ReadDir of a directory gave. */
  datatype Listing = Listing(dir: nat, entries: seq<nat>, failed: bool)

  /** The walk goroutine: between calls, waiting in take for the result of a directory, or done. */
  datatype Walker = Running | Waiting(dir: nat, res: nat) | Closing

  /** A worker at the top of its loop, asleep on the condition, listing a directory, or gone. */
  datatype Worker = Top | Asleep | Busy(dir: nat) | Gone

  datatype State = State(
    results: map<nat, nat>,        // scheduled directories and their result objects
    done: map<nat, Listing>,       // result objects whose channel is closed
    next: nat,
    stack: seq<nat>,               // directories to list, the next on top
    workers: seq<Worker>,
    walker: Walker,
    closed: bool,
    taken: seq<Listing>            // what take returned
  )

  datatype Step =
    | Schedule(dir: nat, wake: nat)
    | Take(dir: nat)
    | Receive
    | Cancel
    | Next(w: nat)
    | Finish(w: nat, l: Listing)
    | Close
    | Clear

  predicate Sleeps(s: State) {
    exists w :: 0 <= w < |s.workers| && s.workers[w].Asleep?
  }

  predicate Enabled(s: State, t: Step) {
    match t
    case Schedule(d, wake) =>
      s.walker.Running? && (!s.closed && d !in s.results && Sleeps(s) ==> wake < |s.workers| && s.workers[wake].Asleep?)
    case Take(d) => s.walker.Running?
    case Receive => s.walker.Waiting? && s.walker.res in s.done
    case Cancel => s.walker.Waiting?
    case Next(w) => w < |s.workers| && s.workers[w].Top?
    case Finish(w, l) => w < |s.workers| && s.workers[w].Busy? && l.dir == s.workers[w].dir
    case Close => s.walker.Running?
    case Clear => s.walker.Closing? && forall w :: 0 <= w < |s.workers| ==> s.workers[w].Gone?
  }

  function WakeAll(ws: seq<Worker>): seq<Worker> {
    seq(|ws|, w requires 0 <= w < |ws| => if ws[w].Asleep? then Top else ws[w])
  }

  function Apply(s: State, t: Step): State
    requires Enabled(s, t)
  {
    match t
    case Schedule(d, wake) =>
      if s.closed || d in s.results then s
      else s.(results := s.results[d := s.next], next := s.next + 1, stack := s.stack + [d],
              workers := if Sleeps(s) then s.workers[wake := Top] else s.workers)
    case Take(d) => if d in s.results then s.(walker := Waiting(d, s.results[d])) else s
    case Receive =>
      s.(walker := Running, results := s.results - {s.walker.dir}, taken := s.taken + [s.done[s.walker.res]])
    case Cancel => s.(walker := Running)
    case Next(w) =>
      if s.stack == [] then s.(workers := s.workers[w := if s.closed then Gone else Asleep])
      else s.(workers := s.workers[w := Busy(s.stack[|s.stack| - 1])], stack := s.stack[..|s.stack| - 1])
    case Finish(w, l) =>
      var d := s.workers[w].dir;
      s.(workers := s.workers[w := Top], done := if d in s.results then s.done[s.results[d] := l] else s.done)
    case Close => s.(closed := true, stack := [], walker := Closing, workers := WakeAll(s.workers))
    case Clear => s.(results := map[])
  }

  ghost predicate Run(states: seq<State>, steps: seq<Step>) {
    && |states| == |steps| + 1
    && states[0] == State(map[], map[], 0, [], states[0].workers, Running, false, [])
    && states[0].workers != [] && (forall w :: 0 <= w < |states[0].workers| ==> states[0].workers[w].Top?)
    && forall k :: 0 <= k < |steps| ==> Enabled(states[k], steps[k]) && states[k + 1] == Apply(states[k], steps[k])
  }

  // ---- What every step keeps ----

  ghost predicate BusyWith(ws: seq<Worker>, d: nat) {
    exists w :: 0 <= w < |ws| && ws[w] == Busy(d)
  }

  /** Every scheduled directory is on the stack or with a worker, once, until its result is there. */
  ghost predicate TasksOk(s: State) {
    && (forall i, j :: 0 <= i < j < |s.stack| ==> s.stack[i] != s.stack[j])
    && (forall v, w :: 0 <= v < w < |s.workers| && s.workers[v].Busy? ==> s.workers[v] != s.workers[w])
    && (forall d :: d in s.stack ==> !BusyWith(s.workers, d) && d in s.results && s.results[d] !in s.done)
    && (forall w :: 0 <= w < |s.workers| && s.workers[w].Busy? ==>
          if s.workers[w].dir in s.results then s.results[s.workers[w].dir] !in s.done else s.closed)
    && (forall d :: d in s.results && s.results[d] !in s.done && !s.closed ==> d in s.stack || BusyWith(s.workers, d))
  }

  ghost predicate ResultsOk(s: State) {
    && (forall d :: d in s.results ==> s.results[d] < s.next)
    && (forall d, e :: d in s.results && e in s.results && d != e ==> s.results[d] != s.results[e])
    && (forall r :: r in s.done ==> r < s.next)
    && (forall d :: d in s.results && s.results[d] in s.done ==> s.done[s.results[d]].dir == d)
    && (s.walker.Waiting? ==> s.walker.dir in s.results && s.results[s.walker.dir] == s.walker.res)
    && (s.closed <==> s.walker.Closing?)
  }

  function Tops(ws: seq<Worker>): nat {
    if ws == [] then 0 else Tops(ws[..|ws| - 1]) + if ws[|ws| - 1].Top? then 1 else 0
  }

  /** Nobody sleeps while there is more to list than workers about to look. */
  ghost predicate AwakeOk(s: State) {
    && s.workers != []
    && (!s.closed ==> forall w :: 0 <= w < |s.workers| ==> !s.workers[w].Gone?)
    && (Sleeps(s) ==> !s.closed && |s.stack| <= Tops(s.workers))
    && (s.closed ==> s.stack == [])
  }

  ghost predicate Inv(s: State) {
    TasksOk(s) && ResultsOk(s) && AwakeOk(s)
  }

  lemma {:induction false} TopsSet(ws: seq<Worker>, w: nat, x: Worker)
    requires w < |ws|
    ensures Tops(ws[w := x]) == Tops(ws) + (if x.Top? then 1 else 0) - (if ws[w].Top? then 1 else 0)
  {
    var n := |ws| - 1;
    if w == n {
      assert ws[w := x][..n] == ws[..n];
    } else {
      TopsSet(ws[..n], w, x);
      assert ws[w := x][..n] == ws[..n][w := x];
    }
  }

  lemma StepAwake(s: State, t: Step)
    requires Inv(s) && Enabled(s, t)
    ensures AwakeOk(Apply(s, t))
  {
    match t
    case Schedule(d, wake) => ScheduleAwake(s, d, wake);
    case Next(w) => NextAwake(s, w);
    case Finish(w, l) => FinishAwake(s, w, l);
    case _ => WalkAwake(s, t);
  }

  /** A sleeper is woken for the new task, if there is one. */
  lemma ScheduleAwake(s: State, d: nat, wake: nat)
    requires AwakeOk(s) && Enabled(s, Schedule(d, wake))
    ensures AwakeOk(Apply(s, Schedule(d, wake)))
  {
    if !s.closed && d !in s.results && Sleeps(s) { TopsSet(s.workers, wake, Top); }
  }

  lemma NextAwake(s: State, w: nat)
    requires AwakeOk(s) && Enabled(s, Next(w))
    ensures AwakeOk(Apply(s, Next(w)))
  {
    TopsSet(s.workers, w, Apply(s, Next(w)).workers[w]);
    if s.closed { assert s.stack == []; }
  }

  lemma FinishAwake(s: State, w: nat, l: Listing)
    requires AwakeOk(s) && Enabled(s, Finish(w, l))
    ensures AwakeOk(Apply(s, Finish(w, l)))
  {
    TopsSet(s.workers, w, Top);
  }

  lemma WalkAwake(s: State, t: Step)
    requires AwakeOk(s) && ResultsOk(s) && Enabled(s, t)
    requires (t.Take? || t.Receive? || t.Cancel? || t.Close? || t.Clear?)
    ensures AwakeOk(Apply(s, t))
  {
  }

  lemma StepResults(s: State, t: Step)
    requires Inv(s) && Enabled(s, t)
    ensures ResultsOk(Apply(s, t))
  {
  }

  /** A worker that is not listing anything leaves the scheduled work as it is. */
  lemma NotListing(ws: seq<Worker>, w: nat, x: Worker, d: nat)
    requires w < |ws| && !ws[w].Busy? && !x.Busy?
    ensures BusyWith(ws[w := x], d) == BusyWith(ws, d)
  {
    var ws' := ws[w := x];
    if v :| 0 <= v < |ws| && ws[v] == Busy(d) { assert ws'[v] == Busy(d); }
    if v :| 0 <= v < |ws'| && ws'[v] == Busy(d) { assert ws[v] == Busy(d); }
  }

  lemma ScheduleTasks(s: State, d: nat, wake: nat)
    requires TasksOk(s) && ResultsOk(s) && Enabled(s, Schedule(d, wake)) && !s.closed && d !in s.results
    ensures TasksOk(Apply(s, Schedule(d, wake)))
  {
    var s' := Apply(s, Schedule(d, wake));
    forall e ensures BusyWith(s'.workers, e) == BusyWith(s.workers, e) {
      if Sleeps(s) { NotListing(s.workers, wake, Top, e); }
    }
    assert !BusyWith(s.workers, d);
    assert d in s'.stack && forall e :: e in s.stack ==> e in s'.stack;
  }

  lemma NextTasks(s: State, w: nat)
    requires TasksOk(s) && Enabled(s, Next(w))
    ensures TasksOk(Apply(s, Next(w)))
  {
    var s' := Apply(s, Next(w));
    if s.stack == [] {
      forall e ensures BusyWith(s'.workers, e) == BusyWith(s.workers, e) { NotListing(s.workers, w, s'.workers[w], e); }
    } else {
      var d := s.stack[|s.stack| - 1];
      assert s'.workers == s.workers[w := Busy(d)];
      TakenTasks(s, s', w, d);
    }
  }

  lemma TopIsTaken(ws: seq<Worker>, w: nat, d: nat, e: nat)
    requires w < |ws| && ws[w].Top?
    ensures BusyWith(ws[w := Busy(d)], e) <==> BusyWith(ws, e) || e == d
  {
    var ws' := ws[w := Busy(d)];
    assert ws'[w] == Busy(d);
    if v :| 0 <= v < |ws| && ws[v] == Busy(e) { assert ws'[v] == Busy(e); }
    if v :| 0 <= v < |ws'| && ws'[v] == Busy(e) { assert v != w ==> ws[v] == Busy(e); }
  }

  lemma TakenTasks(s: State, s': State, w: nat, d: nat)
    requires TasksOk(s) && w < |s.workers| && s.workers[w].Top? && s.stack != [] && d == s.stack[|s.stack| - 1]
    requires s' == s.(workers := s.workers[w := Busy(d)], stack := s.stack[..|s.stack| - 1])
    ensures TasksOk(s')
  {
    forall e ensures BusyWith(s'.workers, e) <==> BusyWith(s.workers, e) || e == d {
      TopIsTaken(s.workers, w, d, e);
    }
    assert s.stack == s'.stack + [d] && d in s.stack && d !in s'.stack;
    forall v | 0 <= v < |s.workers| && v != w && s.workers[v].Busy? ensures s.workers[v] != Busy(d) {
      assert !BusyWith(s.workers, d);
    }
  }

  lemma FinishTasks(s: State, w: nat, l: Listing)
    requires TasksOk(s) && ResultsOk(s) && Enabled(s, Finish(w, l))
    ensures TasksOk(Apply(s, Finish(w, l)))
  {
    var s', d := Apply(s, Finish(w, l)), s.workers[w].dir;
    forall e | e != d ensures BusyWith(s'.workers, e) == BusyWith(s.workers, e) {
      if v :| 0 <= v < |s.workers| && s.workers[v] == Busy(e) { assert s'.workers[v] == Busy(e); }
    }
    assert BusyWith(s.workers, d);
  }

  lemma CloseTasks(s: State)
    requires TasksOk(s) && Enabled(s, Close)
    ensures TasksOk(Apply(s, Close))
  {
    var s' := Apply(s, Close);
    assert forall w :: 0 <= w < |s.workers| ==> (s'.workers[w].Busy? <==> s.workers[w].Busy?);
  }

  lemma WalkTasks(s: State, t: Step)
    requires Inv(s) && Enabled(s, t) && (t.Take? || t.Receive? || t.Cancel? || t.Clear?)
    ensures TasksOk(Apply(s, t))
  {
  }

  lemma StepKeeps(s: State, t: Step)
    requires Inv(s) && Enabled(s, t)
    ensures Inv(Apply(s, t))
  {
    StepAwake(s, t);
    StepResults(s, t);
    match t
    case Schedule(d, wake) => if !s.closed && d !in s.results { ScheduleTasks(s, d, wake); }
    case Next(w) => NextTasks(s, w);
    case Finish(w, l) => FinishTasks(s, w, l);
    case Close => CloseTasks(s);
    case _ => WalkTasks(s, t);
  }

  lemma {:induction false} RunKeeps(states: seq<State>, steps: seq<Step>, k: nat)
    requires Run(states, steps) && k <= |steps|
    ensures Inv(states[k])
  {
    if k > 0 {
      RunKeeps(states, steps, k - 1);
      StepKeeps(states[k - 1], steps[k - 1]);
    }
  }

  // ---- What the walk can rely on ----

  /** No result's channel is closed twice, which would be a panic. */
  lemma ClosedOnce(states: seq<State>, steps: seq<Step>, k: nat)
    requires Run(states, steps) && k < |steps| && steps[k].Finish?
    ensures var s := states[k]; var d := s.workers[steps[k].w].dir; d in s.results ==> s.results[d] !in s.done
  {
    RunKeeps(states, steps, k);
  }

  /** take returns a listing of the directory it was asked for. */
  lemma TakesItsOwn(states: seq<State>, steps: seq<Step>, k: nat)
    requires Run(states, steps) && k < |steps| && steps[k].Receive?
    ensures states[k].walker.Waiting?
    ensures states[k + 1].taken == states[k].taken + [states[k].done[states[k].walker.res]]
    ensures states[k].done[states[k].walker.res].dir == states[k].walker.dir
  {
    RunKeeps(states, steps, k);
  }

  /** d was scheduled before the close, and neither taken nor cleared since. */
  ghost predicate Promised(states: seq<State>, steps: seq<Step>, k: nat, d: nat)
    requires Run(states, steps) && k <= |steps|
  {
    exists j :: 0 <= j < k && Schedules(states, steps, j, d) && forall i :: j < i < k ==> !Forgets(states, steps, i, d)
  }

  ghost predicate Schedules(states: seq<State>, steps: seq<Step>, j: int, d: nat)
    requires Run(states, steps) && 0 <= j < |steps|
  {
    steps[j].Schedule? && steps[j].dir == d && !states[j].closed
  }

  ghost predicate Forgets(states: seq<State>, steps: seq<Step>, i: int, d: nat)
    requires Run(states, steps) && 0 <= i < |steps|
  {
    steps[i].Clear? || (steps[i].Receive? && states[i].walker.dir == d)
  }

  lemma {:induction false} PromisesAreKept(states: seq<State>, steps: seq<Step>, k: nat, d: nat)
    requires Run(states, steps) && k <= |steps|
    ensures d in states[k].results <==> Promised(states, steps, k, d)
  {
    if k > 0 {
      PromisesAreKept(states, steps, k - 1, d);
      assert Promised(states, steps, k, d) <==>
        Schedules(states, steps, k - 1, d) || (Promised(states, steps, k - 1, d) && !Forgets(states, steps, k - 1, d));
      PromiseStep(states[k - 1], steps[k - 1], d);
    }
  }

  lemma PromiseStep(s: State, t: Step, d: nat)
    requires Enabled(s, t)
    ensures d in Apply(s, t).results <==>
              || (t.Schedule? && t.dir == d && !s.closed)
              || (d in s.results && !t.Clear? && !(t.Receive? && s.walker.dir == d))
  {
  }

  /** take waits exactly for a directory that was scheduled and not yet taken; of any other it tells the walk at
      once to list it itself. */
  lemma WaitsExactlyWhenPromised(states: seq<State>, steps: seq<Step>, k: nat)
    requires Run(states, steps) && k < |steps| && steps[k].Take?
    ensures var s, s', d := states[k], states[k + 1], steps[k].dir;
            if Promised(states, steps, k, d) then
              s'.walker.Waiting? && s'.walker.dir == d && s' == s.(walker := s'.walker)
            else s' == s
  {
    PromisesAreKept(states, steps, k, steps[k].dir);
  }

  function Effort(x: Worker): nat {
    match x
    case Busy(_) => 2
    case Top => 1
    case _ => 0
  }

  function Efforts(ws: seq<Worker>): nat {
    if ws == [] then 0 else Efforts(ws[..|ws| - 1]) + Effort(ws[|ws| - 1])
  }

  /** More than the worker steps that are still to come while the walk waits. */
  function Work(s: State): nat {
    3 * |s.stack| + Efforts(s.workers)
  }

  lemma {:induction false} EffortsSet(ws: seq<Worker>, w: nat, x: Worker)
    requires w < |ws|
    ensures Efforts(ws[w := x]) == Efforts(ws) + Effort(x) - Effort(ws[w])
  {
    var n := |ws| - 1;
    if w == n {
      assert ws[w := x][..n] == ws[..n];
    } else {
      EffortsSet(ws[..n], w, x);
      assert ws[w := x][..n] == ws[..n][w := x];
    }
  }

  lemma {:induction false} SomeTop(ws: seq<Worker>) returns (w: nat)
    requires Tops(ws) > 0
    ensures w < |ws| && ws[w].Top?
  {
    w := |ws| - 1;
    if !ws[w].Top? { w := SomeTop(ws[..w]); }
  }

  /** While the walk waits in take some worker can move, and each worker's move leaves less work: the walk is
      served. */
  lemma WaiterIsServed(states: seq<State>, steps: seq<Step>, k: nat) returns (w: nat)
    requires Run(states, steps) && k <= |steps| && states[k].walker.Waiting?
    requires states[k].walker.res !in states[k].done
    ensures w < |states[k].workers|
    ensures var x := states[k].workers[w];
            Enabled(states[k], Next(w))
              || (x.Busy? && forall l: Listing :: l.dir == x.dir ==> Enabled(states[k], Finish(w, l)))
    ensures k < |steps| && (steps[k].Next? || steps[k].Finish?) ==> Work(states[k + 1]) < Work(states[k])
  {
    RunKeeps(states, steps, k);
    var s := states[k];
    var d := s.walker.dir;
    if v :| 0 <= v < |s.workers| && s.workers[v].Busy? {
      w := v;
    } else {
      assert !BusyWith(s.workers, d) && d in s.stack;
      if Sleeps(s) {
        w := SomeTop(s.workers);
      } else {
        w := 0;
      }
    }
    if k < |steps| && (steps[k].Next? || steps[k].Finish?) { MovesShrinkWork(s, steps[k]); }
  }

  /** A worker's move leaves less work. */
  lemma MovesShrinkWork(s: State, t: Step)
    requires Enabled(s, t) && (t.Next? || t.Finish?)
    ensures Work(Apply(s, t)) < Work(s)
  {
    EffortsSet(s.workers, t.w, Apply(s, t).workers[t.w]);
  }

  /** After close nothing is left to list, and nobody sleeps: a worker that has not left can move, and with every
      move there is less work, so all of them leave. */
  lemma CloseEnds(states: seq<State>, steps: seq<Step>, k: nat, w: nat)
    requires Run(states, steps) && k <= |steps| && states[k].closed && w < |states[k].workers|
    ensures states[k].stack == []
    ensures var x := states[k].workers[w];
            x.Gone? || Enabled(states[k], Next(w))
              || (x.Busy? && forall l: Listing :: l.dir == x.dir ==> Enabled(states[k], Finish(w, l)))
    ensures k < |steps| && (steps[k].Next? || steps[k].Finish?) ==> Work(states[k + 1]) < Work(states[k])
  {
    RunKeeps(states, steps, k);
    assert !Sleeps(states[k]);
    if k < |steps| && (steps[k].Next? || steps[k].Finish?) { MovesShrinkWork(states[k], steps[k]); }
  }

  /** The prefetcher object, one method per mutex body; s is the machine's state before the call. */
  class ListingPrefetcher {
    var results: map<nat, nat>
    var done: map<nat, Listing>
    var next: nat
    var stack: seq<nat>
    var closed: bool

    constructor ()
      ensures results == map[] && done == map[] && next == 0 && stack == [] && !closed
    {
      results, done, next, stack, closed := map[], map[], 0, [], false;
    }

    ghost predicate Shows(s: State)
      reads this
    {
      results == s.results && done == s.done && next == s.next && stack == s.stack && closed == s.closed
    }

    /** signal says that a sleeping worker is woken, if there is one. */
    method ScheduleDir(dir: nat, ghost s: State, ghost wake: nat) returns (signal: bool)
      requires Shows(s) && Enabled(s, Schedule(dir, wake))
      modifies this
      ensures Shows(Apply(s, Schedule(dir, wake)))
      ensures !signal ==> Apply(s, Schedule(dir, wake)) == s
    {
      if closed {
        return false;
      }
      if dir in results {
        return false;
      }
      results := results[dir := next];
      next := next + 1;
      stack := stack + [dir];
      signal := true;
    }

    /** The next directory to list, or the end, or another wait. */
    method NextTask(ghost s: State, ghost w: nat) returns (dir: nat, ok: bool, again: bool)
      requires Shows(s) && Enabled(s, Next(w))
      modifies `stack
      ensures Shows(Apply(s, Next(w)))
      ensures Apply(s, Next(w)).workers[w] == if ok then Busy(dir) else if again then Asleep else Gone
    {
      dir, ok, again := 0, false, false;
      if |stack| == 0 {
        again := !closed;
        return;
      }
      dir := stack[|stack| - 1];
      stack := stack[..|stack| - 1];
      ok := true;
    }

    method Deliver(l: Listing, ghost s: State, ghost w: nat)
      requires Shows(s) && Enabled(s, Finish(w, l))
      modifies `done
      ensures Shows(Apply(s, Finish(w, l)))
    {
      if l.dir in results {
        done := done[results[l.dir] := l];
      }
    }

    /** The second half of take, once the result's channel is closed. */
    method Consume(dir: nat, res: nat, ghost s: State) returns (l: Listing)
      requires Shows(s) && s.walker == Waiting(dir, res) && res in done
      modifies `results
      ensures Shows(Apply(s, Receive)) && Apply(s, Receive).taken == s.taken + [l]
    {
      l := done[res];
      results := results - {dir};
    }

    method CloseDown(ghost s: State)
      requires Shows(s) && Enabled(s, Close)
      modifies `closed, `stack
      ensures Shows(Apply(s, Close))
    {
      closed := true;
      stack := [];
    }
  }
}
