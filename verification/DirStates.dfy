/** One directory's counter and flags, updated in place: the calls of internal/engine/dirmeta.go, each shown to take the
    steps of DirMeta when nothing runs between them. */
module DirStates {
  import opened DirMeta

  /** The agent goes on to queue its directory unless another does. */
  predicate Queues(s: State, pc: Pc) {
    match pc
    case Zeroed(d) => d in s.closed
    case Loading(d) => d in s.pending && s.pending[d] == 0
    case Casing(_) => true
    case _ => false
  }

  /** How many steps are at most left for an agent that looks at its directory. */
  function Left(pc: Pc): nat {
    match pc
    case Zeroed(_) => 3
    case Loading(_) => 3
    case Casing(_) => 2
    case Pushing(_) => 1
    case _ => 0
  }

  /** Agent a's steps on until it lets go of its directory. */
  function LetGo(s: State, a: nat): (s': State)
    requires a < |s.pcs| && (s.pcs[a].Loading? ==> a == 0)
    requires !s.pcs[a].Free? && !s.pcs[a].Exited? ==> s.pcs[a].d in s.pending
    ensures |s'.pcs| == |s.pcs| && s'.pending == s.pending && s'.closed == s.closed
    ensures Queues(s, s.pcs[a]) ==> s'.queued == s.queued + {s.pcs[a].d}
    ensures !Queues(s, s.pcs[a]) ==> s'.queued == s.queued
    ensures (Queues(s, s.pcs[a]) && s.pcs[a].d !in s.queued) || s.pcs[a].Pushing? ==> s'.meta == s.meta + [s.pcs[a].d]
    ensures !(Queues(s, s.pcs[a]) && s.pcs[a].d !in s.queued) && !s.pcs[a].Pushing? ==> s'.meta == s.meta
    decreases Left(s.pcs[a])
  {
    match s.pcs[a]
    case Zeroed(_) => LetGo(Apply(s, ReadClosed(a)), a)
    case Loading(_) => LetGo(Apply(s, LoadPending), a)
    case Casing(_) => LetGo(Apply(s, Swap(a)), a)
    case Pushing(_) => Apply(s, PushMeta(a))
    case _ => s
  }

  class DirState {
    var pending: int
    var closed: bool
    var queued: bool

    constructor (ghost s: State, ghost d: nat)
      requires Enabled(s, OpenDir(d)) && d !in s.closed && d !in s.queued
      ensures Shows(Apply(s, OpenDir(d)), d)
    {
      pending, closed, queued := 0, false, false;
    }

    /** The object holds what the machine says of directory d. */
    ghost predicate Shows(s: State, d: nat)
      reads this
    {
      d in s.pending && pending == s.pending[d] && (closed <==> d in s.closed) && (queued <==> d in s.queued)
    }

    method AddDirWork(ghost s: State)
      requires Enabled(s, AddCopy) && Shows(s, s.Top())
      modifies `pending
      ensures Shows(Apply(s, AddCopy), s.Top()) && Shows(Apply(s, AddLink), s.Top())
    {
      pending := pending + 1;
    }

    /** pushed says that this call put the directory in the metadata queue. */
    method CompleteDirWork(ghost s: State, ghost a: nat) returns (pushed: bool)
      requires a < |s.pcs| && s.pcs[a].Working? && Shows(s, s.pcs[a].d)
      modifies this
      ensures Shows(LetGo(Apply(s, Drop(a)), a), s.pcs[a].d)
      ensures LetGo(Apply(s, Drop(a)), a).meta == s.meta + if pushed then [s.pcs[a].d] else []
    {
      pushed := false;
      pending := pending - 1;
      if pending == 0 && closed {
        pushed := QueueDirMeta();
      }
    }

    method CloseDir(ghost s: State) returns (pushed: bool)
      requires Enabled(s, CloseStore) && Shows(s, s.Top())
      modifies this
      ensures Shows(LetGo(Apply(s, CloseStore), 0), s.Top())
      ensures LetGo(Apply(s, CloseStore), 0).meta == s.meta + if pushed then [s.Top()] else []
    {
      pushed := false;
      closed := true;
      if pending == 0 {
        pushed := QueueDirMeta();
      }
    }

    method QueueDirMeta() returns (pushed: bool)
      modifies `queued
      ensures queued && pushed == !old(queued)
    {
      pushed := !queued;
      queued := true;
    }
  }
}
