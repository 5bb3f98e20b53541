/** The SSH connection pool: internal/vfs/pool.go, with the acquire and release of internal/vfs/sftp.go.
    Each mutex body is one step; release and Close signal after they unlock, so the signal is its own step. */
module Pool {
  const MAX_CONNECTIONS: nat := 16

  /** conns[i] is the number of transfers on connection i.  handles maps each open remote file to its
      connection.  signals and broadcasts are wake-ups that are still to come. */
  datatype Model = Model(conns: seq<int>, canDial: bool, dialing: bool, frozen: bool, closed: bool,
                         sleeping: set<nat>, woken: set<nat>, signals: nat, broadcasts: nat, handles: map<nat, nat>)

  /** More connections can still come. */
  predicate CanGrow(m: Model) {
    m.canDial && !m.frozen && !m.closed && |m.conns| < MAX_CONNECTIONS
  }

  /** Connections a transfer may use: once there are several, the first is kept for metadata. */
  function FirstTransferConn(conns: seq<int>): nat {
    if |conns| > 1 then 1 else 0
  }

  /** The transfer connections that carry no transfer. */
  function FreeConns(conns: seq<int>): set<nat> {
    set i: nat | FirstTransferConn(conns) <= i < |conns| && conns[i] == 0
  }

  predicate IsFirstFree(conns: seq<int>, i: int) {
    && FirstTransferConn(conns) <= i < |conns| && conns[i] == 0
    && forall j :: FirstTransferConn(conns) <= j < i ==> conns[j] != 0
  }

  /** The first free transfer connection, or -1. */
  method FreeConn(conns: seq<int>) returns (i: int)
    ensures i == -1 <==> FreeConns(conns) == {}
    ensures i != -1 ==> IsFirstFree(conns, i)
  {
    var k := FirstTransferConn(conns);
    while k < |conns|
      invariant FirstTransferConn(conns) <= k && (k <= |conns| || conns == [])
      invariant forall j :: FirstTransferConn(conns) <= j < k && j < |conns| ==> conns[j] != 0
    {
      if conns[k] == 0 {
        assert k in FreeConns(conns);
        return k;
      }
      k := k + 1;
    }
    i := -1;
  }

  /** A connection with the least load; the scan starts at start and stops at an idle one. */
  method LeastLoaded(inflight: seq<int>, start: nat) returns (best: nat)
    requires start < |inflight| && forall i :: 0 <= i < |inflight| ==> 0 <= inflight[i]
    ensures best < |inflight| && forall i :: 0 <= i < |inflight| ==> inflight[best] <= inflight[i]
    // Ties go to the first one from start on, around the ring.
    ensures forall k :: 0 <= k < |inflight| && At(inflight, start, k) == inflight[best]
              ==> Turn(|inflight|, start, best) <= k
  {
    var n := |inflight|;
    best := start;
    var bestLoad := inflight[start];
    var i := 1;
    ghost var at := 0;
    while i < n && bestLoad > 0
      invariant 1 <= i <= n && 0 <= at < i
      invariant best == Around(n, start, at) && bestLoad == inflight[best]
      invariant forall k :: 0 <= k < i ==> bestLoad <= At(inflight, start, k)
      invariant forall k :: 0 <= k < at ==> bestLoad < At(inflight, start, k)
    {
      var c := Around(n, start, i);
      var load := inflight[c];
      if load < bestLoad {
        best, bestLoad := c, load;
        at := i;
      }
      i := i + 1;
    }
    forall j | 0 <= j < n ensures bestLoad <= inflight[j] {
      assert At(inflight, start, Turn(n, start, j)) == inflight[j];
    }
    assert Turn(n, start, best) == at;
  }

  /** The connection k places after start. */
  function Around(n: nat, start: nat, k: nat): (c: nat)
    requires start < n && k < n
    ensures c < n
  {
    if start + k < n then start + k else start + k - n
  }

  /** How many places after start connection c is. */
  function Turn(n: nat, start: nat, c: nat): (k: nat)
    requires start < n && c < n
    ensures k < n && Around(n, start, k) == c
  {
    if start <= c then c - start else c + n - start
  }

  function At(inflight: seq<int>, start: nat, k: nat): int
    requires start < |inflight| && k < |inflight|
  {
    inflight[Around(|inflight|, start, k)]
  }

  // ---- Steps ----

  function Give(m: Model, w: nat, c: nat): Model
    requires c < |m.conns|
  {
    m.(conns := m.conns[c := m.conns[c] + 1], handles := m.handles[w := c], woken := m.woken - {w})
  }

  /** One pass of acquire's loop for the transfer w: a free connection, a shared one when the pool cannot
      grow, or a dial and sleep. */
  datatype Pass = Free(c: nat) | Shared(c: nat) | Dial

  predicate PassOk(m: Model, p: Pass) {
    match p
    case Free(c) => IsFirstFree(m.conns, c)
    case Shared(c) => FreeConns(m.conns) == {} && !CanGrow(m) && c < |m.conns|
    case Dial => FreeConns(m.conns) == {} && CanGrow(m)
  }

  function TryAcquire(m: Model, w: nat, p: Pass): Model
    requires PassOk(m, p)
  {
    match p
    case Free(c) => Give(m, w, c)
    case Shared(c) => Give(m, w, c)
    case Dial => m.(dialing := true, sleeping := m.sleeping + {w}, woken := m.woken - {w})
  }

  /** The transfer's slot goes back; the signal follows after the unlock. */
  function GiveBack(m: Model, w: nat): Model
    requires w in m.handles && m.handles[w] < |m.conns|
  {
    var c := m.handles[w];
    m.(conns := if m.conns[c] > 0 then m.conns[c := m.conns[c] - 1] else m.conns,
       handles := map h | h in m.handles && h != w :: m.handles[h],
       signals := m.signals + 1)
  }

  /** The dial ends: a new connection, or no more dialing for good. */
  function DialEnds(m: Model, ok: bool): Model {
    var d := m.(dialing := false, sleeping := {}, woken := m.woken + m.sleeping);
    if ok then d.(conns := m.conns + [0]) else d.(frozen := true)
  }

  datatype Step =
    | Arrive(w: nat, p: Pass)
    | Resume(w: nat, p: Pass)
    | Release(w: nat)
    | Signal(x: nat)
    | DialDone(ok: bool)
    | Close
    | Broadcast

  predicate Enabled(m: Model, t: Step) {
    match t
    case Arrive(w, p) => w !in m.sleeping && w !in m.woken && w !in m.handles && PassOk(m, p)
    case Resume(w, p) => w in m.woken && PassOk(m, p)
    case Release(w) => w in m.handles && m.handles[w] < |m.conns|
    case Signal(x) => 0 < m.signals && (m.sleeping != {} ==> x in m.sleeping)
    case DialDone(_) => m.dialing
    case Close => true
    case Broadcast => 0 < m.broadcasts
  }

  function Apply(m: Model, t: Step): Model
    requires Enabled(m, t)
  {
    match t
    case Arrive(w, p) => TryAcquire(m, w, p)
    case Resume(w, p) => TryAcquire(m, w, p)
    case Release(w) => GiveBack(m, w)
    case Signal(x) =>
      var d := m.(signals := m.signals - 1);
      if m.sleeping == {} then d else d.(sleeping := m.sleeping - {x}, woken := m.woken + {x})
    case DialDone(ok) => DialEnds(m, ok)
    case Close => m.(closed := true, broadcasts := m.broadcasts + 1)
    case Broadcast => m.(broadcasts := m.broadcasts - 1, sleeping := {}, woken := m.woken + m.sleeping)
  }

  /** The open files on connection c. */
  function On(handles: map<nat, nat>, c: nat): set<nat> {
    set h | h in handles && handles[h] == c
  }

  predicate CountsOk(m: Model) {
    && (forall h :: h in m.handles ==> m.handles[h] < |m.conns|)
    && (forall c :: 0 <= c < |m.conns| ==> m.conns[c] == |On(m.handles, c)|)
  }

  predicate Inv(m: Model) {
    && 1 <= |m.conns| && |m.conns| + (if m.dialing then 1 else 0) <= MAX_CONNECTIONS
    && m.sleeping !! m.woken
    && (forall h :: h in m.handles ==> h !in m.sleeping && h !in m.woken)
    && CountsOk(m)
    && (m.sleeping != {} ==> m.dialing)
    && (m.sleeping != {} ==> |FreeConns(m.conns)| <= |m.woken| + m.signals)
    && (CanGrow(m) ==> forall c :: 0 <= c < |m.conns| ==> m.conns[c] <= 1)
  }

  lemma GiveCounts(m: Model, w: nat, c: nat)
    requires CountsOk(m) && c < |m.conns| && w !in m.handles
    ensures CountsOk(Give(m, w, c))
  {
    var h := m.handles[w := c];
    assert On(h, c) == On(m.handles, c) + {w};
    forall d: nat | d != c ensures On(h, d) == On(m.handles, d) {}
  }

  lemma TakeWoken(woken: set<nat>, w: nat)
    ensures |woken - {w}| == if w in woken then |woken| - 1 else |woken|
  {
    if w !in woken { assert woken - {w} == woken; }
  }

  lemma GiveFreeKeeps(m: Model, w: nat, c: nat)
    requires Inv(m) && IsFirstFree(m.conns, c) && w !in m.sleeping && w !in m.handles
    ensures Inv(Give(m, w, c))
  {
    TakeWoken(m.woken, w);
    GiveCounts(m, w, c);
    OneLessFree(m.conns, c);
    GiveKeepsFew(m, w, c);
  }

  lemma OneLessFree(conns: seq<int>, c: nat)
    requires IsFirstFree(conns, c)
    ensures |FreeConns(conns[c := conns[c] + 1])| == |FreeConns(conns)| - 1
  {
    assert c in FreeConns(conns) && FreeConns(conns[c := conns[c] + 1]) == FreeConns(conns) - {c};
  }

  /** While the pool can grow a connection carries one transfer at most. */
  lemma GiveKeepsFew(m: Model, w: nat, c: nat)
    requires CanGrow(m) ==> forall d :: 0 <= d < |m.conns| ==> m.conns[d] <= 1
    requires IsFirstFree(m.conns, c)
    ensures CanGrow(Give(m, w, c)) ==> forall d :: 0 <= d < |m.conns| ==> Give(m, w, c).conns[d] <= 1
  {
  }

  lemma GiveSharedKeeps(m: Model, w: nat, c: nat)
    requires Inv(m) && FreeConns(m.conns) == {} && !CanGrow(m) && c < |m.conns| && w !in m.sleeping && w !in m.handles
    ensures Inv(Give(m, w, c))
  {
    var d := Give(m, w, c);
    GiveCounts(m, w, c);
    forall i: nat | i in FreeConns(d.conns) ensures i in FreeConns(m.conns) {
      assert 0 <= m.conns[c] by { assert m.conns[c] == |On(m.handles, c)|; }
      assert m.conns[i] == 0;
    }
    assert FreeConns(d.conns) == {};
  }

  lemma TryAcquireKeeps(m: Model, w: nat, p: Pass)
    requires Inv(m) && PassOk(m, p) && w !in m.sleeping && w !in m.handles
    ensures Inv(TryAcquire(m, w, p))
  {
    match p
    case Free(c) => GiveFreeKeeps(m, w, c);
    case Shared(c) => GiveSharedKeeps(m, w, c);
    case Dial =>
  }

  lemma GiveBackKeeps(m: Model, w: nat)
    requires Inv(m) && w in m.handles
    ensures Inv(GiveBack(m, w))
    // The guard in release never matters: an open file has its transfer counted.
    ensures m.conns[m.handles[w]] > 0
  {
    var d := GiveBack(m, w);
    var c := m.handles[w];
    assert w in On(m.handles, c);
    assert On(d.handles, c) == On(m.handles, c) - {w};
    forall e: nat | e != c ensures On(d.handles, e) == On(m.handles, e) {}
    assert FreeConns(d.conns) <= FreeConns(m.conns) + {c};
    SubsetSize(FreeConns(d.conns), FreeConns(m.conns) + {c});
  }

  lemma SubsetSize(a: set<nat>, b: set<nat>)
    requires a <= b
    ensures |a| <= |b|
  {
    assert b == a + (b - a);
  }

  lemma StepKeeps(m: Model, t: Step)
    requires Inv(m) && Enabled(m, t)
    ensures Inv(Apply(m, t))
    ensures |m.conns| <= |Apply(m, t).conns| && (!CanGrow(m) ==> !CanGrow(Apply(m, t)))
  {
    match t
    case Arrive(w, p) => TryAcquireKeeps(m, w, p);
    case Resume(w, p) => TryAcquireKeeps(m, w, p);
    case Release(w) => GiveBackKeeps(m, w);
    case DialDone(ok) => DialKeeps(m, ok);
    case _ => WakeKeeps(m, t);
  }

  lemma WakeKeeps(m: Model, t: Step)
    requires Inv(m) && Enabled(m, t) && (t.Signal? || t.Close? || t.Broadcast?)
    ensures Inv(Apply(m, t))
  {
    assert CountsOk(Apply(m, t));
    if t.Signal? && m.sleeping != {} { assert |m.woken + {t.x}| == |m.woken| + 1; }
  }

  lemma DialKeeps(m: Model, ok: bool)
    requires Inv(m) && m.dialing
    ensures Inv(DialEnds(m, ok))
  {
    var d := DialEnds(m, ok);
    assert On(m.handles, |m.conns|) == {};
  }

  /** A run from a pool with its first connection. */
  predicate Run(states: seq<Model>, steps: seq<Step>) {
    && |states| == |steps| + 1
    && states[0] == Model([0], states[0].canDial, false, false, false, {}, {}, 0, 0, map[])
    && forall k :: 0 <= k < |steps| ==> Enabled(states[k], steps[k]) && states[k + 1] == Apply(states[k], steps[k])
  }

  lemma {:induction false} RunKeeps(states: seq<Model>, steps: seq<Step>, k: nat)
    requires Run(states, steps) && k < |states|
    ensures Inv(states[k])
  {
    if k > 0 {
      RunKeeps(states, steps, k - 1);
      StepKeeps(states[k - 1], steps[k - 1]);
    } else {
      assert forall c :: On(map[], c) == {};
    }
  }

  /** The transfers that the connections count in all. */
  function Carried(conns: seq<int>): int {
    if conns == [] then 0 else Carried(conns[..|conns| - 1]) + conns[|conns| - 1]
  }

  lemma {:induction false} CarriedAreOpen(conns: seq<int>, handles: map<nat, nat>)
    requires forall h :: h in handles ==> handles[h] < |conns|
    requires forall c :: 0 <= c < |conns| ==> conns[c] == |On(handles, c)|
    ensures Carried(conns) == |handles|
  {
    if conns == [] {
      assert handles == map[];
    } else {
      var n := |conns| - 1;
      var rest := map h | h in handles && handles[h] != n :: handles[h];
      forall c: nat | c < n ensures On(rest, c) == On(handles, c) {}
      CarriedAreOpen(conns[..n], rest);
      assert rest.Keys + On(handles, n) == handles.Keys && |handles| == |handles.Keys| && |rest| == |rest.Keys|;
    }
  }

  /** In every run: connections and the dial in flight stay within the cap, a sleeping transfer has a dial
      in flight to wake it, every connection counts exactly its open files, and no open file is uncounted. */
  lemma PoolIsSound(states: seq<Model>, steps: seq<Step>, k: nat)
    requires Run(states, steps) && k < |states|
    ensures var m := states[k];
            && |m.conns| + (if m.dialing then 1 else 0) <= MAX_CONNECTIONS
            && (m.sleeping != {} ==> m.dialing)
            && (forall c :: 0 <= c < |m.conns| ==> m.conns[c] == |On(m.handles, c)|)
            && (forall h :: h in m.handles ==> m.handles[h] < |m.conns|)
            && Carried(m.conns) == |m.handles|
  {
    RunKeeps(states, steps, k);
    CarriedAreOpen(states[k].conns, states[k].handles);
  }

  /** A transfer sleeps beside a free connection only while a wake-up for it is on its way. */
  lemma NoLostWakeup(states: seq<Model>, steps: seq<Step>, k: nat)
    requires Run(states, steps) && k < |states|
    requires states[k].sleeping != {} && states[k].woken == {} && states[k].signals == 0
    ensures FreeConns(states[k].conns) == {}
  {
    RunKeeps(states, steps, k);
  }

  /** Once the pool cannot grow, it never can again. */
  lemma {:induction false} StuckForGood(states: seq<Model>, steps: seq<Step>, k: nat, j: nat)
    requires Run(states, steps) && k <= j < |states| && !CanGrow(states[k])
    ensures !CanGrow(states[j])
  {
    if k < j {
      StuckForGood(states, steps, k, j - 1);
      RunKeeps(states, steps, j - 1);
      StepKeeps(states[j - 1], steps[j - 1]);
    }
  }

  /** A connection carries more than one transfer only when the pool can never grow again. */
  lemma SharingIsLastResort(states: seq<Model>, steps: seq<Step>, k: nat, c: nat, j: nat)
    requires Run(states, steps) && k <= j < |states| && c < |states[k].conns| && states[k].conns[c] > 1
    ensures !CanGrow(states[j])
  {
    RunKeeps(states, steps, k);
    StuckForGood(states, steps, k, j);
  }

  /** Once the pool is closed it is so for good, and nobody sleeps when the close has done its broadcast: a transfer
      that waits for a dial does not outlast the pool. */
  lemma {:induction false} CloseEndsWaits(states: seq<Model>, steps: seq<Step>, k: nat)
    requires Run(states, steps) && k < |states|
    ensures (exists i :: 0 <= i < k && steps[i] == Step.Close) <==> states[k].closed
    ensures states[k].closed ==> !CanGrow(states[k]) && (states[k].broadcasts == 0 ==> states[k].sleeping == {})
  {
    if k > 0 {
      CloseEndsWaits(states, steps, k - 1);
      StepCloses(states[k - 1], steps[k - 1]);
    }
  }

  lemma StepCloses(m: Model, t: Step)
    requires Enabled(m, t) && (m.closed ==> m.broadcasts == 0 ==> m.sleeping == {})
    ensures var m' := Apply(m, t);
            (m'.closed <==> m.closed || t == Step.Close) && (m'.closed ==> m'.broadcasts == 0 ==> m'.sleeping == {})
  {
  }

  // ---- Dials ----

  /** The end of a dial, in full: one more free connection, or no dial ever again; and everybody who sleeps is
      woken. */
  lemma DialOutcome(m: Model, ok: bool)
    ensures var d := DialEnds(m, ok);
            && !d.dialing && d.sleeping == {} && d.woken == m.woken + m.sleeping
            && d.conns == (if ok then m.conns + [0] else m.conns) && d.frozen == (m.frozen || !ok)
            && d.canDial == m.canDial && d.closed == m.closed && d.handles == m.handles
            && d.signals == m.signals && d.broadcasts == m.broadcasts
  {
  }

  /** How many of the first k steps are dials that ended so. */
  function Dials(steps: seq<Step>, ok: bool, k: nat): nat
    requires k <= |steps|
  {
    if k == 0 then 0 else Dials(steps, ok, k - 1) + if steps[k - 1] == DialDone(ok) then 1 else 0
  }

  /** A dial is in flight only if it was started when the pool could grow. */
  predicate DialOk(m: Model) {
    m.dialing ==> m.canDial && !m.frozen
  }

  lemma StepDials(m: Model, t: Step)
    requires Enabled(m, t) && DialOk(m)
    ensures var d := Apply(m, t);
            && DialOk(d) && d.canDial == m.canDial
            && |d.conns| == |m.conns| + (if t == DialDone(true) then 1 else 0)
            && d.frozen == (m.frozen || t == DialDone(false))
            && (t.DialDone? ==> !m.frozen && m.dialing && !d.dialing)
            && (d.dialing && !m.dialing ==> (t.Arrive? || t.Resume?) && t.p.Dial? && !m.frozen)
  {
  }

  /** In every run each dial that succeeded is a connection, and at most one fails: so there are at most 15 and one. */
  lemma {:induction false} DialsAreBounded(states: seq<Model>, steps: seq<Step>, k: nat)
    requires Run(states, steps) && k <= |steps|
    ensures DialOk(states[k])
    ensures |states[k].conns| == 1 + Dials(steps, true, k) && Dials(steps, true, k) <= 15
    ensures Dials(steps, false, k) == if states[k].frozen then 1 else 0
  {
    RunKeeps(states, steps, k);
    if k > 0 {
      DialsAreBounded(states, steps, k - 1);
      StepDials(states[k - 1], steps[k - 1]);
    }
  }

  /** No dial is in flight, nobody waits for one, and none will be made. */
  predicate DoneDialing(m: Model) {
    m.frozen && !CanGrow(m) && !m.dialing && m.sleeping == {}
  }

  lemma FrozenServes(m: Model, t: Step)
    requires Enabled(m, t) && DoneDialing(m)
    ensures DoneDialing(Apply(m, t)) && !t.DialDone?
    ensures t.Arrive? || t.Resume? ==>
              var d := Apply(m, t); !t.p.Dial? && t.w in d.handles && d.handles[t.w] == t.p.c
  {
  }

  lemma {:induction false} FrozenForGood(states: seq<Model>, steps: seq<Step>, j: nat, k: nat)
    requires Run(states, steps) && j < k <= |steps| && steps[j] == DialDone(false)
    ensures DoneDialing(states[k])
  {
    if j + 1 < k {
      FrozenForGood(states, steps, j, k - 1);
      FrozenServes(states[k - 1], steps[k - 1]);
    } else {
      DialOutcome(states[j], false);
    }
  }

  /** After a dial that failed nobody dials or waits for a dial again: in every later state the pool is frozen, with
      no dial in flight and nobody asleep, and every transfer that comes or is woken gets a connection. */
  lemma FailedDialIsTheLast(states: seq<Model>, steps: seq<Step>, j: nat, k: nat)
    requires Run(states, steps) && j < k <= |steps| && steps[j] == DialDone(false)
    ensures var m := states[k]; m.frozen && !CanGrow(m) && !m.dialing && m.sleeping == {}
    ensures k < |steps| ==> !steps[k].DialDone?
    ensures k < |steps| && (steps[k].Arrive? || steps[k].Resume?) ==>
              var t, d := steps[k], states[k + 1]; !t.p.Dial? && t.w in d.handles && d.handles[t.w] == t.p.c
  {
    FrozenForGood(states, steps, j, k);
    if k < |steps| { FrozenServes(states[k], steps[k]); }
  }

  /** What makes a transfer wait for a dial: every transfer connection is busy, the host was given by a dial that
      can be made again, none failed, the pool is open, and there are fewer than sixteen. */
  lemma DialsExactlyWhen(m: Model)
    requires 1 <= |m.conns|
    ensures PassOk(m, Dial) <==>
            && m.canDial && !m.frozen && !m.closed && |m.conns| < 16
            && m.conns[if |m.conns| == 1 then 0 else |m.conns| - 1] != 0
            && forall c :: 1 <= c < |m.conns| ==> m.conns[c] != 0
  {
    assert forall c: nat :: c in FreeConns(m.conns) <==>
      (if |m.conns| > 1 then 1 else 0) <= c < |m.conns| && m.conns[c] == 0;
  }

  /** A transfer that asks can always go on: it is given a connection, or waits for a dial that is then in flight. */
  lemma SomePass(m: Model) returns (p: Pass)
    requires 1 <= |m.conns|
    ensures PassOk(m, p)
    ensures p.Dial? ==> CanGrow(m) && FreeConns(m.conns) == {}
  {
    if FreeConns(m.conns) != {} {
      var i := LeastFree(m.conns, |m.conns|);
      p := Free(i);
    } else {
      p := if CanGrow(m) then Dial else Shared(0);
    }
  }

  lemma {:induction false} LeastFree(conns: seq<int>, n: nat) returns (i: nat)
    requires n <= |conns| && exists j :: FirstTransferConn(conns) <= j < n && conns[j] == 0
    ensures i < n && IsFirstFree(conns, i)
  {
    if j :| FirstTransferConn(conns) <= j < n - 1 && conns[j] == 0 {
      i := LeastFree(conns, n - 1);
    } else {
      i := n - 1;
    }
  }

  /** So nobody waits for ever: while a transfer sleeps a dial is in flight, no more than sixteen dials end, the end
      of each wakes every sleeper, and after the last every pass gives a connection. */
  lemma WaitsAreFinite(states: seq<Model>, steps: seq<Step>, k: nat)
    requires Run(states, steps) && k <= |steps|
    ensures states[k].sleeping != {} ==> states[k].dialing
    ensures Dials(steps, true, k) + Dials(steps, false, k) <= 16
    ensures k < |steps| && steps[k].DialDone? ==> forall w :: w in states[k].sleeping ==> w in states[k + 1].woken
    ensures Dials(steps, true, k) == 15 || Dials(steps, false, k) == 1 ==>
              !CanGrow(states[k]) && forall p :: PassOk(states[k], p) ==> !p.Dial?
  {
    RunKeeps(states, steps, k);
    DialsAreBounded(states, steps, k);
  }

  // ---- The first connection, and busy ones ----

  /** The pass puts its transfer on the first connection. */
  predicate GivesFirst(p: Pass) {
    !p.Dial? && p.c == 0
  }

  /** With several connections the first gets a transfer exactly by being shared, so never while the pool can grow. */
  lemma FirstIsGivenExactlyWhenShared(m: Model)
    requires 1 < |m.conns|
    ensures forall p :: PassOk(m, p) ==> (GivesFirst(p) <==> p == Shared(0))
    ensures (exists p :: PassOk(m, p) && GivesFirst(p)) <==> FreeConns(m.conns) == {} && !CanGrow(m)
  {
    if FreeConns(m.conns) == {} && !CanGrow(m) { assert PassOk(m, Shared(0)) && GivesFirst(Shared(0)); }
  }

  /** A busy connection is given exactly when none is free and the pool cannot grow: while it can, a transfer that
      finds every connection busy waits for a dial, whatever the requests outstanding. */
  lemma BusyIsGivenExactlyWhenStuck(m: Model)
    requires 0 < |m.conns| && forall c :: 0 <= c < |m.conns| ==> 0 <= m.conns[c]
    ensures (exists p :: PassOk(m, p) && !p.Dial? && m.conns[p.c] > 0) ==> FreeConns(m.conns) == {} && !CanGrow(m)
    ensures FreeConns(m.conns) == {} && !CanGrow(m) && (exists c :: 0 <= c < |m.conns| && m.conns[c] > 0) ==>
              exists p :: PassOk(m, p) && !p.Dial? && m.conns[p.c] > 0
    ensures FreeConns(m.conns) == {} && CanGrow(m) ==> forall p :: PassOk(m, p) <==> p == Dial
  {
    if c :| FreeConns(m.conns) == {} && !CanGrow(m) && 0 <= c < |m.conns| && m.conns[c] > 0 {
      assert PassOk(m, Shared(c));
    }
    assert forall c: nat :: IsFirstFree(m.conns, c) ==> c in FreeConns(m.conns);
  }

  /** Step j gives the first connection to w: as the only one, or because the pool can grow no more. */
  ghost predicate TakesFirst(states: seq<Model>, steps: seq<Step>, j: nat, w: nat)
    requires j < |steps| < |states|
  {
    && (steps[j].Arrive? || steps[j].Resume?) && steps[j].w == w
    && ((|states[j].conns| == 1 && steps[j].p == Free(0)) || (steps[j].p == Shared(0) && !CanGrow(states[j])))
  }

  /** w has kept the first connection since step j. */
  ghost predicate KeepsFirst(states: seq<Model>, j: nat, k: nat, w: nat)
    requires k < |states|
  {
    forall i :: j < i <= k ==> w in states[i].handles && states[i].handles[w] == 0
  }

  /** A transfer on the first connection was there before the step, or the step put it there. */
  lemma HandleComesFrom(m: Model, t: Step, w: nat)
    requires Inv(m) && Enabled(m, t) && w in Apply(m, t).handles && Apply(m, t).handles[w] == 0
    ensures if w in m.handles then m.handles[w] == 0
            else
              && (t.Arrive? || t.Resume?) && t.w == w
              && ((|m.conns| == 1 && t.p == Free(0)) || (t.p == Shared(0) && !CanGrow(m)))
  {
    if (t.Arrive? || t.Resume?) && !t.p.Dial? { assert Apply(m, t).handles == m.handles[t.w := t.p.c]; }
  }

  lemma {:induction false} FirstWasTaken(states: seq<Model>, steps: seq<Step>, k: nat, w: nat) returns (j: nat)
    requires Run(states, steps) && k < |states| && w in states[k].handles && states[k].handles[w] == 0
    ensures j < k && TakesFirst(states, steps, j, w) && KeepsFirst(states, j, k, w)
  {
    RunKeeps(states, steps, k - 1);
    HandleComesFrom(states[k - 1], steps[k - 1], w);
    if w in states[k - 1].handles {
      j := FirstWasTaken(states, steps, k - 1, w);
    } else {
      j := k - 1;
    }
  }

  /** In every run the first connection carries a transfer exactly when some transfer took it, when it was the only
      one or when the pool could grow no more, and has not let it go. */
  lemma FirstCarriesExactlyWhen(states: seq<Model>, steps: seq<Step>, k: nat)
    requires Run(states, steps) && k < |states|
    ensures states[k].conns != []
    ensures states[k].conns[0] > 0 <==>
            exists w, j :: 0 <= j < k && TakesFirst(states, steps, j, w) && KeepsFirst(states, j, k, w)
  {
    RunKeeps(states, steps, k);
    var m := states[k];
    assert m.conns[0] == |On(m.handles, 0)|;
    if m.conns[0] > 0 {
      var w :| w in On(m.handles, 0);
      var j := FirstWasTaken(states, steps, k, w);
    }
    if w, j :| 0 <= j < k && TakesFirst(states, steps, j, w) && KeepsFirst(states, j, k, w) {
      assert w in On(m.handles, 0);
    }
  }

  /** Such a state: the first transfer stays on the first connection while a second connection comes, and the pool
      can grow. */
  lemma FirstCarriesBesideOthers() returns (states: seq<Model>, steps: seq<Step>)
    ensures Run(states, steps) && |steps| == 3
    ensures var m := states[3]; 1 < |m.conns| && m.conns[0] > 0 && CanGrow(m)
  {
    var m0 := Model([0], true, false, false, false, {}, {}, 0, 0, map[]);
    var m1 := m0.(conns := [1], handles := map[0 := 0]);
    var m2 := m1.(dialing := true, sleeping := {1});
    var m3 := m2.(dialing := false, sleeping := {}, woken := {1}, conns := [1, 0]);
    assert 0 !in FreeConns(m1.conns);
    states, steps := [m0, m1, m2, m3], [Arrive(0, Free(0)), Arrive(1, Dial), DialDone(true)];
    assert Apply(m0, steps[0]) == m1 && Apply(m1, steps[1]) == m2 && Apply(m2, steps[2]) == m3;
  }

  /** The pool object, one method per mutex body.  w and the sets say who holds, sleeps or was woken. */
  class RemoteFS {
    var conns: seq<int>
    var canDial: bool
    var dialing: bool
    var frozen: bool
    var closed: bool
    ghost var sleeping: set<nat>
    ghost var woken: set<nat>
    ghost var signals: nat
    ghost var broadcasts: nat
    ghost var handles: map<nat, nat>

    ghost function Now(): Model
      reads this
    {
      Model(conns, canDial, dialing, frozen, closed, sleeping, woken, signals, broadcasts, handles)
    }

    constructor (canDial: bool)
      ensures Now() == Model([0], canDial, false, false, false, {}, {}, 0, 0, map[])
    {
      conns, this.canDial, dialing, frozen, closed := [0], canDial, false, false, false;
      sleeping, woken, signals, broadcasts, handles := {}, {}, 0, 0, map[];
    }

    /** acquire from the lock, or from a wake-up, to Wait or to its return.  inflight and start are what the
        scan of leastLoadedLocked reads. */
    method Acquire(ghost w: nat, inflight: seq<int>, start: nat) returns (c: int, ghost p: Pass)
      requires Inv(Now()) && w !in sleeping && w !in handles
      requires |inflight| == |conns| && start < |conns| && forall i :: 0 <= i < |inflight| ==> 0 <= inflight[i]
      modifies this
      ensures PassOk(old(Now()), p) && Now() == TryAcquire(old(Now()), w, p) && Inv(Now())
      ensures if p.Dial? then c == -1 else c == p.c
      ensures p.Shared? ==> forall i :: 0 <= i < |inflight| ==> inflight[c] <= inflight[i]
    {
      var free := FreeConn(conns);
      if free != -1 {
        p := Free(free);
        TryAcquireKeeps(Now(), w, p);
        Hold(w, free);
        return free, p;
      }
      if !(canDial && !frozen && !closed && |conns| < MAX_CONNECTIONS) {
        var least := LeastLoaded(inflight, start);
        p := Shared(least);
        TryAcquireKeeps(Now(), w, p);
        Hold(w, least);
        return least, p;
      }
      p := Pass.Dial;
      TryAcquireKeeps(Now(), w, p);
      if !dialing {
        dialing := true;
      }
      sleeping, woken := sleeping + {w}, woken - {w};
      return -1, p;
    }

    method Hold(ghost w: nat, c: nat)
      requires c < |conns|
      modifies this
      ensures Now() == Give(old(Now()), w, c)
    {
      conns := conns[c := conns[c] + 1];
      handles, woken := handles[w := c], woken - {w};
    }

    method Release(ghost w: nat, c: nat)
      requires Inv(Now()) && w in handles && handles[w] == c
      modifies this
      ensures Now() == GiveBack(old(Now()), w) && Inv(Now())
    {
      GiveBackKeeps(Now(), w);
      if conns[c] > 0 {
        conns := conns[c := conns[c] - 1];
      }
      handles := map h | h in handles && h != w :: handles[h];
      signals := signals + 1;
    }

    method DialDone(ok: bool)
      requires Inv(Now()) && dialing
      modifies this
      ensures Now() == DialEnds(old(Now()), ok) && Inv(Now())
    {
      DialKeeps(Now(), ok);
      dialing := false;
      if !ok {
        frozen := true;
      } else {
        conns := conns + [0];
      }
      sleeping, woken := {}, woken + sleeping;
    }
  }

  /** An open remote file: however often it is closed, its slot goes back once. */
  class RemoteFile {
    const c: nat
    ghost const w: nat
    var closed: bool

    constructor (c: nat, ghost w: nat)
      ensures !closed && this.c == c && this.w == w
    {
      this.c, this.w, closed := c, w, false;
    }

    method Close(fs: RemoteFS)
      requires Inv(fs.Now())
      requires !closed ==> w in fs.handles && fs.handles[w] == c
      modifies this, fs
      ensures closed
      ensures fs.Now() == if old(closed) then old(fs.Now()) else GiveBack(old(fs.Now()), w)
    {
      if !closed {
        closed := true;
        fs.Release(w, c);
      }
    }
  }
}
