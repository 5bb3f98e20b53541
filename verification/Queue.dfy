/** The unbounded job queue: internal/engine/queue.go.  push and close unlock before they signal, so the
    signal is a step of its own. */
module Queue {
  /** signals and broadcasts are unlocked pushes and closes whose wake-up has not happened yet.  pushed and
      popped are the items in the order of the calls. */
  datatype Model<T> = Model(items: seq<T>, closed: bool, sleeping: set<nat>, woken: set<nat>,
                            signals: nat, broadcasts: nat, pushed: seq<T>, popped: seq<T>)

  ghost function Push<T>(m: Model<T>, v: T): Model<T> {
    m.(items := m.items + [v], pushed := m.pushed + [v], signals := m.signals + 1)
  }

  ghost function Close<T>(m: Model<T>): Model<T> {
    m.(closed := true, broadcasts := m.broadcasts + 1)
  }

  /** What one pass of pop's loop does: sleep, give up, or take the first item. */
  ghost function TryPop<T>(m: Model<T>, w: nat): Model<T> {
    if m.items == [] && !m.closed then m.(sleeping := m.sleeping + {w}, woken := m.woken - {w})
    else if m.items == [] then m.(woken := m.woken - {w})
    else m.(items := m.items[1..], popped := m.popped + [m.items[0]], woken := m.woken - {w})
  }

  datatype Step<T> = DoPush(v: T) | DoClose | Signal(x: nat) | Broadcast | Arrive(w: nat) | Resume(w: nat)

  ghost predicate Enabled<T>(m: Model<T>, t: Step<T>) {
    match t
    case DoPush(_) => true
    case DoClose => true
    case Signal(x) => 0 < m.signals && (m.sleeping != {} ==> x in m.sleeping)
    case Broadcast => 0 < m.broadcasts
    case Arrive(w) => w !in m.sleeping && w !in m.woken
    case Resume(w) => w in m.woken
  }

  ghost function Apply<T>(m: Model<T>, t: Step<T>): Model<T>
    requires Enabled(m, t)
  {
    match t
    case DoPush(v) => Push(m, v)
    case DoClose => Close(m)
    case Signal(x) =>
      var d := m.(signals := m.signals - 1);
      if m.sleeping == {} then d else d.(sleeping := m.sleeping - {x}, woken := m.woken + {x})
    case Broadcast => m.(broadcasts := m.broadcasts - 1, sleeping := {}, woken := m.woken + m.sleeping)
    case Arrive(w) => TryPop(m, w)
    case Resume(w) => TryPop(m, w)
  }

  ghost predicate Inv<T>(m: Model<T>) {
    && m.sleeping !! m.woken
    && m.popped + m.items == m.pushed
    && (m.sleeping != {} ==> |m.items| <= |m.woken| + m.signals)
    && (m.sleeping != {} && m.closed ==> 0 < m.broadcasts)
  }

  /** The queue object, one method per mutex body. */
  class Queue<T> {
    var items: seq<T>
    var closed: bool

    constructor ()
      ensures items == [] && !closed
    {
      items, closed := [], false;
    }

    method Push(v: T)
      modifies this
      ensures items == old(items) + [v] && closed == old(closed)
    {
      items := items + [v];
    }

    method Close()
      modifies this
      ensures closed && items == old(items)
    {
      closed := true;
    }

    /** One pass of pop.  again means the caller goes to sleep; otherwise ok tells an item from the end. */
    method TryPop(zero: T) returns (v: T, ok: bool, again: bool)
      modifies this
      ensures again <==> old(items) == [] && !closed
      ensures ok <==> old(items) != []
      ensures ok ==> old(items) == [v] + items
      ensures !ok ==> items == old(items)
      ensures closed == old(closed)
    {
      if |items| == 0 && !closed {
        return zero, false, true;
      }
      if |items| == 0 {
        return zero, false, false;
      }
      v := items[0];
      items := items[1..];
      return v, true, false;
    }
  }

  lemma StepKeeps<T>(m: Model<T>, t: Step<T>)
    requires Inv(m) && Enabled(m, t)
    ensures Inv(Apply(m, t))
  {
    match t
    case DoPush(v) => assert m.popped + (m.items + [v]) == m.pushed + [v];
    case Signal(x) =>
      if m.sleeping != {} { assert |m.woken + {x}| == |m.woken| + 1; }
    case Arrive(w) => PopKeeps(m, w);
    case Resume(w) => PopKeeps(m, w);
    case _ =>
  }

  lemma PopKeeps<T>(m: Model<T>, w: nat)
    requires Inv(m) && w !in m.sleeping
    ensures Inv(TryPop(m, w))
  {
    if w in m.woken {
      assert |m.woken - {w}| == |m.woken| - 1;
    } else {
      assert m.woken - {w} == m.woken;
    }
    if m.items != [] {
      assert m.popped + [m.items[0]] + m.items[1..] == m.popped + m.items;
    }
  }

  ghost predicate Run<T>(states: seq<Model<T>>, steps: seq<Step<T>>) {
    && |states| == |steps| + 1
    && states[0] == Model([], false, {}, {}, 0, 0, [], [])
    && forall k :: 0 <= k < |steps| ==> Enabled(states[k], steps[k]) && states[k + 1] == Apply(states[k], steps[k])
  }

  lemma {:induction false} RunKeeps<T>(states: seq<Model<T>>, steps: seq<Step<T>>, k: nat)
    requires Run(states, steps) && k < |states|
    ensures Inv(states[k])
  {
    if k > 0 {
      RunKeeps(states, steps, k - 1);
      StepKeeps(states[k - 1], steps[k - 1]);
    }
  }

  /** In every interleaving the items come out once each and in the order they went in, and a popper that
      no wake-up is on its way to sleeps only beside an open, empty queue. */
  lemma FifoWithoutLostWakeups<T>(states: seq<Model<T>>, steps: seq<Step<T>>, k: nat)
    requires Run(states, steps) && k < |states|
    ensures var m := states[k];
            && m.pushed == m.popped + m.items
            && (m.sleeping != {} && m.woken == {} && m.signals == 0 && m.broadcasts == 0 ==> m.items == [] && !m.closed)
  {
    RunKeeps(states, steps, k);
  }

  /** A popper that is told the queue has ended was told so after close, and with every item handed out. */
  lemma EndMeansDrained<T>(states: seq<Model<T>>, steps: seq<Step<T>>, k: nat)
    requires Run(states, steps) && k < |steps| && (steps[k].Arrive? || steps[k].Resume?)
    requires states[k + 1].sleeping == states[k].sleeping && states[k + 1].popped == states[k].popped
    ensures states[k].closed && states[k].popped == states[k].pushed
  {
    RunKeeps(states, steps, k);
    var m, w := states[k], steps[k].w;
    var d := TryPop(m, w);
    assert |m.items| > 0 ==> |d.popped| == |m.popped| + 1;
    assert |m.items| == 0 && !m.closed ==> w in d.sleeping && w !in m.sleeping;
    assert |m.items| == 0 ==> m.popped + m.items == m.popped;
  }
}
