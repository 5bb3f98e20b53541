/** The resizable worker gate: internal/engine/gate.go.  Each mutex body is one step; a worker in
    cond.Wait is asleep until a signal wakes it, and then has to take the mutex again. */
module Gate {
  datatype Model = Model(limit: int, max: int, inUse: int, holding: set<nat>, sleeping: set<nat>, woken: set<nat>) {
    predicate Knows(w: nat) { w in holding || w in sleeping || w in woken }
  }

  function Apart(a: int, b: int): int { if a < b then b - a else a - b }

  /** r is the number of [1, max] that is nearest to n. */
  predicate Nearest(n: int, max: int, r: int) {
    1 <= r <= max && forall k :: 1 <= k <= max ==> Apart(n, r) <= Apart(n, k)
  }

  function Clamped(n: int, max: int): (r: int)
    ensures 1 <= max ==> Nearest(n, max, r)
  {
    if n < 1 then 1 else if n > max then max else n
  }

  /** One pass of acquire's loop, on arrival or after a wake-up. */
  function TryEnter(m: Model, w: nat): Model {
    if m.inUse >= m.limit then m.(sleeping := m.sleeping + {w}, woken := m.woken - {w})
    else m.(inUse := m.inUse + 1, holding := m.holding + {w}, woken := m.woken - {w})
  }

  /** x is the worker that Signal picks, if anyone sleeps. */
  function Leave(m: Model, w: nat, x: nat): Model {
    var d := m.(inUse := m.inUse - 1, holding := m.holding - {w});
    if m.sleeping == {} then d else d.(sleeping := m.sleeping - {x}, woken := m.woken + {x})
  }

  function Resize(m: Model, n: int): Model {
    m.(limit := Clamped(n, m.max), sleeping := {}, woken := m.woken + m.sleeping)
  }

  datatype Step = Arrive(w: nat) | Resume(w: nat) | Release(w: nat, x: nat) | SetLimit(n: int)

  predicate Enabled(m: Model, t: Step) {
    match t
    case Arrive(w) => !m.Knows(w)
    case Resume(w) => w in m.woken
    case Release(w, x) => w in m.holding && (m.sleeping != {} ==> x in m.sleeping)
    case SetLimit(_) => true
  }

  function Apply(m: Model, t: Step): Model {
    match t
    case Arrive(w) => TryEnter(m, w)
    case Resume(w) => TryEnter(m, w)
    case Release(w, x) => Leave(m, w, x)
    case SetLimit(n) => Resize(m, n)
  }

  predicate Inv(m: Model) {
    && 1 <= m.limit <= m.max
    && m.inUse == |m.holding| <= m.max
    && m.holding !! m.sleeping && m.holding !! m.woken && m.sleeping !! m.woken
    && (m.sleeping != {} ==> m.limit <= m.inUse + |m.woken|)
  }

  class Gate {
    var limit: int
    var max: int
    var inUse: int
    // Who is where: the waiting list of the condition variable, and the goroutines' places.
    ghost var holding: set<nat>
    ghost var sleeping: set<nat>
    ghost var woken: set<nat>

    ghost function Now(): Model
      reads this
    {
      Model(limit, max, inUse, holding, sleeping, woken)
    }

    constructor (max: int, initial: int)
      ensures Inv(Now())
      ensures Now() == Model(Clamped(initial, this.max), if max < 1 then 1 else max, 0, {}, {}, {})
    {
      var m, i := max, initial;
      if m < 1 { m := 1; }
      if i < 1 { i := 1; }
      if i > m { i := m; }
      limit, this.max, inUse := i, m, 0;
      holding, sleeping, woken := {}, {}, {};
    }

    /** acquire from the lock, or from a wake-up, to Wait or to the unlock. */
    method Enter(ghost w: nat) returns (entered: bool)
      requires Inv(Now()) && w !in holding && w !in sleeping
      modifies this
      ensures Now() == TryEnter(old(Now()), w) && Inv(Now())
      ensures entered <==> w in holding
      // Nobody gets in past the limit of the moment.
      ensures entered ==> inUse <= limit
    {
      EnterKeeps(Now(), w);
      if inUse >= limit {
        sleeping, woken := sleeping + {w}, woken - {w};
        return false;
      }
      inUse := inUse + 1;
      holding, woken := holding + {w}, woken - {w};
      return true;
    }

    method Release(ghost w: nat, ghost x: nat)
      requires Inv(Now()) && Enabled(Now(), Step.Release(w, x))
      modifies this
      ensures Now() == Leave(old(Now()), w, x) && Inv(Now())
    {
      LeaveKeeps(Now(), w, x);
      inUse := inUse - 1;
      holding := holding - {w};
      if sleeping != {} {
        sleeping, woken := sleeping - {x}, woken + {x};
      }
    }

    method SetLimit(n: int)
      requires Inv(Now())
      modifies this
      ensures Now() == Resize(old(Now()), n) && Inv(Now())
      ensures Nearest(n, max, limit) && sleeping == {} && inUse == old(inUse) && max == old(max)
    {
      var k := n;
      if k < 1 { k := 1; }
      if k > max { k := max; }
      limit := k;
      sleeping, woken := {}, woken + sleeping;
    }
  }

  lemma EnterKeeps(m: Model, w: nat)
    requires Inv(m) && w !in m.holding && w !in m.sleeping
    ensures Inv(TryEnter(m, w))
  {
    assert |m.holding + {w}| == |m.holding| + 1;
    if w in m.woken {
      assert |m.woken - {w}| == |m.woken| - 1;
    } else {
      assert m.woken - {w} == m.woken;
    }
  }

  /** A release gives up one slot and wakes one sleeper for it. */
  lemma LeaveKeeps(m: Model, w: nat, x: nat)
    requires Inv(m) && w in m.holding && (m.sleeping != {} ==> x in m.sleeping)
    ensures Inv(Leave(m, w, x))
  {
    assert |m.holding - {w}| == |m.holding| - 1;
    if m.sleeping != {} {
      assert |m.woken + {x}| == |m.woken| + 1;
    }
  }

  /** A run of the gate from a new one. */
  predicate Run(states: seq<Model>, steps: seq<Step>) {
    && |states| == |steps| + 1
    && 1 <= states[0].limit <= states[0].max && states[0].inUse == 0
    && states[0].holding == states[0].sleeping == states[0].woken == {}
    && forall k :: 0 <= k < |steps| ==> Enabled(states[k], steps[k]) && states[k + 1] == Apply(states[k], steps[k])
  }

  lemma {:induction false} RunKeeps(states: seq<Model>, steps: seq<Step>, k: nat)
    requires Run(states, steps) && k < |states|
    ensures Inv(states[k]) && states[k].max == states[0].max
  {
    if k > 0 {
      var m := states[k - 1];
      RunKeeps(states, steps, k - 1);
      match steps[k - 1]
      case Arrive(w) => EnterKeeps(m, w);
      case Resume(w) => EnterKeeps(m, w);
      case Release(w, x) => LeaveKeeps(m, w, x);
      case SetLimit(_) =>
    }
  }

  /** No wake-up is lost across any arrivals, releases and live limit changes: a worker sleeps only while the
      limit is used up by holders and by workers already woken for a slot.  Holders never exceed the ceiling. */
  lemma NoLostWakeup(states: seq<Model>, steps: seq<Step>, k: nat)
    requires Run(states, steps) && k < |states|
    ensures var m := states[k];
            && |m.holding| == m.inUse <= states[0].max
            && (m.sleeping != {} ==> m.limit <= |m.holding| + |m.woken|)
            && (m.holding == {} && m.woken == {} ==> m.sleeping == {})
  {
    RunKeeps(states, steps, k);
  }

  /** A pass lets its worker in exactly when there is room at that moment, and puts it to sleep otherwise; only a new
      setting moves the limit, and to the allowed number nearest to it. */
  lemma EntersExactlyWhen(states: seq<Model>, steps: seq<Step>, k: nat)
    requires Run(states, steps) && k < |steps|
    ensures var m, m' := states[k], states[k + 1];
            && (steps[k].Arrive? || steps[k].Resume? ==>
                  if |m.holding| < m.limit
                  then m'.holding == m.holding + {steps[k].w} && m'.sleeping == m.sleeping
                  else m'.holding == m.holding && m'.sleeping == m.sleeping + {steps[k].w})
            && (steps[k].Release? ==> m'.holding == m.holding - {steps[k].w} && |m'.sleeping| <= |m.sleeping|)
            && (if steps[k].SetLimit? then Nearest(steps[k].n, m'.max, m'.limit) else m'.limit == m.limit)
  {
    RunKeeps(states, steps, k);
  }

  /** Lowering the limit below the holders lets nobody in until enough of them have left. */
  lemma LowerLimitDrains(states: seq<Model>, steps: seq<Step>, k: nat)
    requires Run(states, steps) && k < |steps|
    ensures states[k + 1].holding <= states[k].holding || |states[k + 1].holding| <= states[k + 1].limit
  {
    RunKeeps(states, steps, k);
    RunKeeps(states, steps, k + 1);
  }
}
