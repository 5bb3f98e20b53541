/** copyDedup and copyShared as a transition system: any number of workers share one index and one
    claim table, while the source files they read can move, grow, shrink and be rewritten under
    them.  Each mutex body, each chunk of a read and write, each FIEMAP and each fstat is one step. */
module DedupProtocol {
  import opened ByteFiles
  import opened Segments
  import opened ExtentIndex
  import opened DestRefs

  /** The bytes of every source device, by device and address. */
  type Disk = (nat, int) -> Byte

  /** A source file.  gone holds the (byte, address) pairs where a byte lay once and no longer does. */
  datatype SrcFile = SrcFile(dev: nat, content: seq<Byte>, mtime: int, exts: seq<Extent>, gone: iset<(int, int)>)

  /** Where a worker is in its CopyFile. */
  datatype Pc =
    | Idle
    | Planning
    | Ready
    | Cloning(rec: Rec, delta: int)
    | Waiting(claim: Claim)
    | Copying(held: Option<Claim>)
    | Rechecking(held: Option<Claim>)
    | Recording(held: Option<Claim>, loc: Option<Rec>)
    | Releasing(given: Claim)
    | Statting
    | Mapping
    | Verified
    | Published(path: nat)
    | Failed
    | Detached

  /** One CopyFile call.  stamp and snapshot are the source's mtime and content at the first fstat;
      done is how far the destination is final. */
  datatype Worker = Worker(pc: Pc, file: nat, ino: nat, size: nat, stamp: int, snapshot: seq<Byte>,
                           segs: seq<Segment>, i: nat, done: nat, cloned: seq<Segment>) {
    function Seg(): Segment
      requires i < |segs|
    {
      segs[i]
    }

    /** The claim this worker must still release. */
    function Held(): Option<Claim> {
      match pc
      case Copying(h) => h
      case Rechecking(h) => h
      case Recording(h, _) => h
      case Releasing(c) => Some(c)
      case _ => None
    }

    /** Between the plan and the end of the segment loop. */
    predicate InLoop() {
      pc.Ready? || pc.Cloning? || pc.Waiting? || pc.Copying? || pc.Rechecking? || pc.Recording? || pc.Releasing?
    }

    /** The worker's destination file is a live clone source of this worker. */
    predicate Attached() {
      InLoop() || pc.Statting? || pc.Mapping? || pc.Verified? || pc.Published? || pc.Failed?
    }

    function Next(): Worker
      requires i < |segs| && 0 <= segs[i].End()
    {
      this.(pc := Ready, i := i + 1, done := segs[i].End())
    }
  }

  /** An extent that several files can want. */
  type Key = (nat, int, int)

  datatype State = State(
    disk: Disk,
    srcs: map<nat, SrcFile>,
    files: map<nat, seq<Byte>>,     // destination inodes
    names: map<nat, nat>,           // destination paths
    refs: map<nat, Ref>,
    index: map<nat, seq<Rec>>,
    recorded: set<(nat, Rec)>,      // every record ever made, with its source device
    inflight: seq<Claim>,
    next: nat,
    released: set<nat>,             // claims whose channel is closed
    discarded: set<nat>,            // inodes that lost the bytes copyDedup wrote
    workers: map<nat, Worker>,
    copies: multiset<Key>,          // shared segments that were transferred
    clones: multiset<Key>           // shared segments that were cloned
  ) {
    function Dead(): set<nat> {
      set r | r in refs && refs[r].dead
    }

    function Src(w: nat): SrcFile
      requires w in workers && workers[w].file in srcs
    {
      srcs[workers[w].file]
    }

    function KeyOf(w: nat): Key
      requires w in workers && workers[w].file in srcs && workers[w].i < |workers[w].segs|
    {
      (Src(w).dev, workers[w].Seg().phys, workers[w].Seg().length)
    }
  }

  // ---- The source under a running copy ----

  /** A byte that lies at an address shows the device's byte, and a pair that left has not come back. */
  ghost predicate SrcOk(disk: Disk, f: SrcFile) {
    forall b, a :: Lies(f.exts, b, a) ==>
      (b, a) !in f.gone && (0 <= b < |f.content| ==> f.content[b] == disk(f.dev, a))
  }

  /** What can happen to a source file during a run: its bytes can move but do not return to an address
      they left, its extents can be shared and unshared at any time, and its mtime changes with its content. */
  ghost predicate SrcStep(disk: Disk, f: SrcFile, g: SrcFile) {
    && g.dev == f.dev
    && SrcOk(disk, g)
    && (forall p :: p in f.gone ==> p in g.gone)
    && (forall b, a :: Lies(f.exts, b, a) ==> Lies(g.exts, b, a) || (b, a) in g.gone)
    && f.mtime <= g.mtime
    && (g.content != f.content ==> f.mtime < g.mtime)
  }

  // ---- Steps ----

  datatype Step =
    | Env(f: nat, src: SrcFile)
    | Rename(names: map<nat, nat>)
    | Begin(w: nat, f: nat, ino: nat, size: nat)
    | Plan(w: nat, segs: seq<Segment>, dev: nat)
    | Acquire(w: nat)
    | StartPlain(w: nat)
    | CloneOk(w: nat)
    | CloneFail(w: nat)
    | WaitDone(w: nat)
    | Cancel(w: nat)
    | CopyChunk(w: nat, n: nat, g: seq<Byte>)
    | CopyEnd(w: nat)
    | CopyFail(w: nat)
    | Recheck(w: nat, ok: bool)
    | Record(w: nat)
    | Release(w: nat)
    | TruncateToSize(w: nat)
    | Stat(w: nat)
    | MapCheck(w: nat)
    | Publish(w: nat, path: nat)
    | Abandon(w: nat)
    | Commit(w: nat)
    | Kill(w: nat)
    | Rewrite(w: nat, g: seq<Byte>)
    | Leave(w: nat)

  /** Worker w is at a place that satisfies its caller's test, with its source and destination open. */
  ghost predicate Runs(s: State, w: nat) {
    w in s.workers && s.workers[w].file in s.srcs && s.workers[w].ino in s.files
  }

  /** Worker w is inside its segment list. */
  ghost predicate OnSegment(s: State, w: nat) {
    Runs(s, w) && s.workers[w].i < |s.workers[w].segs|
  }

  ghost function SetPc(s: State, w: nat, pc: Pc): State
    requires w in s.workers
  {
    s.(workers := s.workers[w := s.workers[w].(pc := pc)])
  }

  /** The first fstat, on a temp file with a fresh inode. */
  ghost predicate CanBegin(s: State, w: nat, f: nat, ino: nat) {
    (w in s.workers ==> s.workers[w].pc.Idle?) && f in s.srcs && ino !in s.files && ino !in s.refs
  }

  ghost function DoBegin(s: State, w: nat, f: nat, ino: nat, size: nat): State
    requires CanBegin(s, w, f, ino)
  {
    s.(files := s.files[ino := []],
       workers := s.workers[w := Worker(Planning, f, ino, size, s.srcs[f].mtime, s.srcs[f].content, [], 0, 0, [])])
  }

  /** FIEMAP and planSegments.  segs is any list that planSegments may return for the extents of now. */
  ghost predicate CanPlan(s: State, w: nat, segs: seq<Segment>) {
    && Runs(s, w) && s.workers[w].pc.Planning? && Tiles(segs, s.workers[w].size)
    && forall i :: 0 <= i < |segs| && segs[i].shared ==> PieceOf(s.Src(w).exts, |s.Src(w).exts|, segs[i])
  }

  predicate AnyShared(segs: seq<Segment>) {
    exists i :: 0 <= i < |segs| && segs[i].shared
  }

  /** A plan with a shared segment makes the file a clone source; any other leaves dedup. */
  ghost function DoPlan(s: State, w: nat, segs: seq<Segment>, dev: nat): State
    requires CanPlan(s, w, segs)
  {
    var x := s.workers[w];
    if AnyShared(segs) then
      s.(refs := s.refs[x.ino := Ref(dev, x.ino, true, None, false)],
         workers := s.workers[w := x.(pc := Ready, segs := segs)])
    else SetPc(s, w, Detached)
  }

  ghost predicate CanAcquire(s: State, w: nat) {
    OnSegment(s, w) && s.workers[w].pc.Ready? && IndexOk(s.index) && s.workers[w].Seg().shared
  }

  ghost function Asked(s: State, w: nat): Answer
    requires CanAcquire(s, w)
  {
    AcquireAnswer(s.index, s.inflight, s.next, s.Src(w).dev, s.workers[w].Seg().phys, s.workers[w].Seg().length,
      s.Dead())
  }

  /** Only worker w can have moved. */
  ghost predicate OthersStand(s: State, s': State, w: nat)
    requires w in s.workers
  {
    s'.workers.Keys == s.workers.Keys && forall v :: v in s.workers && v != w ==> s'.workers[v] == s.workers[v]
  }

  /** What a worker does with the answer: clone, wait or copy. */
  function Answered(a: Answer): Pc {
    match a
    case Hit(rec, delta) => Cloning(rec, delta)
    case Busy(c) => Waiting(c)
    case Mine(c) => Copying(Some(c))
  }

  /** acquire answers with a record, another worker's claim, or a new claim. */
  ghost function DoAcquire(s: State, w: nat): (s': State)
    requires CanAcquire(s, w)
    ensures OthersStand(s, s', w) && s'.workers[w].i == s.workers[w].i && s'.copies == s.copies
    ensures s'.clones == s.clones
  {
    var s', a := SetPc(s, w, Answered(Asked(s, w))), Asked(s, w);
    if a.Mine? then s'.(inflight := s.inflight + [a.claim], next := s.next + 1) else s'
  }

  ghost predicate CanStartPlain(s: State, w: nat) {
    OnSegment(s, w) && s.workers[w].pc.Ready? && !s.workers[w].Seg().shared
  }

  /** A range clone can succeed: the record's file is on this device and still leads to its inode, and
      the inode is long enough. */
  ghost predicate CanClone(s: State, w: nat) {
    && OnSegment(s, w) && s.workers[w].pc.Cloning?
    && var x := s.workers[w];
       && 0 <= x.Seg().off && 0 <= x.Seg().length
       && x.ino in s.refs && x.pc.rec.ref in s.refs
       && s.refs[x.pc.rec.ref].dev == s.refs[x.ino].dev
       && CloneSource(s.refs[x.pc.rec.ref], s.names).Some?
       && var from := CloneSource(s.refs[x.pc.rec.ref], s.names).value;
          && from in s.files && 0 <= x.pc.rec.off + x.pc.delta
          && x.pc.rec.off + x.pc.delta + x.Seg().length <= |s.files[from]|
  }

  /** The cloned range replaces the segment's bytes in one step. */
  ghost function DoClone(s: State, w: nat): State
    requires CanClone(s, w)
  {
    var x := s.workers[w];
    var from := s.files[CloneSource(s.refs[x.pc.rec.ref], s.names).value];
    var lo := x.pc.rec.off + x.pc.delta;
    s.(files := s.files[x.ino := WriteAt(s.files[x.ino], x.Seg().off, from[lo..lo + x.Seg().length])],
       workers := s.workers[w := x.Next().(cloned := x.cloned + [x.Seg()])],
       clones := s.clones + multiset{s.KeyOf(w)})
  }

  /** One ReadAt and its writeNonZero. */
  ghost predicate CanCopyChunk(s: State, w: nat, n: nat, g: seq<Byte>) {
    && OnSegment(s, w) && s.workers[w].pc.Copying?
    && var x := s.workers[w];
       && 0 < n && x.done + n <= x.Seg().End() && x.done + n <= |s.Src(w).content|
       && WroteNonZero(s.files[x.ino], s.Src(w).content[x.done..x.done + n], x.done, g)
  }

  ghost function DoCopyChunk(s: State, w: nat, n: nat, g: seq<Byte>): State
    requires CanCopyChunk(s, w, n, g)
  {
    var x := s.workers[w];
    s.(files := s.files[x.ino := g], workers := s.workers[w := x.(done := x.done + n)])
  }

  ghost predicate CanCopyEnd(s: State, w: nat) {
    OnSegment(s, w) && s.workers[w].pc.Copying? && s.workers[w].done == s.workers[w].Seg().End()
  }

  ghost function DoCopyEnd(s: State, w: nat): State
    requires CanCopyEnd(s, w)
  {
    var x := s.workers[w];
    if x.Seg().shared then SetPc(s, w, Rechecking(x.pc.held))
    else s.(workers := s.workers[w := x.Next()])
  }

  /** The second FIEMAP: does the source still map the segment where the plan found it?  The call
      itself can fail. */
  ghost predicate CanRecheck(s: State, w: nat, ok: bool) {
    && OnSegment(s, w) && s.workers[w].pc.Rechecking?
    && 0 <= s.workers[w].Seg().off && (ok ==> Mapped(s.Src(w).exts, s.workers[w].Seg()))
  }

  ghost function DoRecheck(s: State, w: nat, ok: bool): State
    requires CanRecheck(s, w, ok)
  {
    var x := s.workers[w];
    var loc := Rec(x.Seg().phys, x.Seg().length, x.Seg().off, x.ino);
    SetPc(s, w, Recording(x.pc.held, if ok then Some(loc) else None))
  }

  ghost predicate CanRecord(s: State, w: nat) {
    OnSegment(s, w) && s.workers[w].pc.Recording? && 0 <= s.workers[w].Seg().End() && IndexOk(s.index)
  }

  /** The record goes in and the claim goes out under one lock. */
  ghost function DoRecord(s: State, w: nat): State
    requires CanRecord(s, w)
  {
    var x := s.workers[w];
    var loc, held := x.pc.loc, x.pc.held;
    s.(index := if loc.Some? then AddRecord(s.index, s.Src(w).dev, loc.value) else s.index,
       recorded := if loc.Some? then s.recorded + {(s.Src(w).dev, loc.value)} else s.recorded,
       inflight := if held.Some? then Without(s.inflight, held.value) else s.inflight,
       released := if held.Some? then s.released + {held.value.id} else s.released,
       workers := s.workers[w := x.Next()],
       copies := s.copies + multiset{s.KeyOf(w)})
  }

  /** A failed copy gives its claim back with nothing recorded. */
  ghost function DoRelease(s: State, w: nat): State
    requires Runs(s, w) && s.workers[w].pc.Releasing?
  {
    var c := s.workers[w].pc.given;
    SetPc(s, w, Failed).(inflight := Without(s.inflight, c), released := s.released + {c.id})
  }

  ghost predicate CanTruncate(s: State, w: nat) {
    Runs(s, w) && s.workers[w].pc.Ready? && s.workers[w].i == |s.workers[w].segs|
  }

  ghost function DoTruncate(s: State, w: nat): State
    requires CanTruncate(s, w)
  {
    var x := s.workers[w];
    SetPc(s, w, Statting).(files := s.files[x.ino := Truncate(s.files[x.ino], x.size)])
  }

  /** The final fstat: where it leads. */
  ghost function AfterStat(s: State, w: nat): Pc
    requires Runs(s, w)
  {
    var x := s.workers[w];
    if |s.Src(w).content| != x.size || s.Src(w).mtime != x.stamp then Failed
    else if x.cloned == [] then Verified
    else Mapping
  }

  /** The final FIEMAP: every cloned segment must still be where the plan found it. */
  ghost function AfterMapCheck(s: State, w: nat): Pc
    requires Runs(s, w)
  {
    if forall c :: c in s.workers[w].cloned ==> Mapped(s.Src(w).exts, c) then Verified else Failed
  }

  ghost predicate HasRef(s: State, w: nat) {
    Runs(s, w) && s.workers[w].ino in s.refs
  }

  ghost function DoCommit(s: State, w: nat): State
    requires HasRef(s, w) && s.workers[w].pc.Published?
  {
    var x := s.workers[w];
    SetPc(s, w, Idle).(refs := s.refs[x.ino := s.refs[x.ino].(path := Some(x.pc.path), open := false)])
  }

  ghost function DoKill(s: State, w: nat): State
    requires HasRef(s, w)
  {
    var x := s.workers[w];
    SetPc(s, w, Detached).(refs := s.refs[x.ino := s.refs[x.ino].(dead := true, open := false)])
  }

  /** Truncate to nothing, the fallback's writes, or removal. */
  ghost function DoRewrite(s: State, w: nat, g: seq<Byte>): State
    requires Runs(s, w)
  {
    var x := s.workers[w];
    s.(files := s.files[x.ino := g], discarded := s.discarded + {x.ino})
  }

  ghost predicate Enabled(s: State, t: Step) {
    match t
    case Env(f, src) => f in s.srcs && SrcStep(s.disk, s.srcs[f], src)
    case Rename(_) => true
    case Begin(w, f, ino, _) => CanBegin(s, w, f, ino)
    case Plan(w, segs, _) => CanPlan(s, w, segs)
    case Acquire(w) => CanAcquire(s, w)
    case StartPlain(w) => CanStartPlain(s, w)
    case CloneOk(w) => CanClone(s, w)
    case CloneFail(w) => Runs(s, w) && s.workers[w].pc.Cloning?
    case WaitDone(w) => Runs(s, w) && s.workers[w].pc.Waiting? && s.workers[w].pc.claim.id in s.released
    case Cancel(w) => Runs(s, w) && (s.workers[w].pc.Ready? || s.workers[w].pc.Waiting?)
    case CopyChunk(w, n, g) => CanCopyChunk(s, w, n, g)
    case CopyEnd(w) => CanCopyEnd(s, w)
    case CopyFail(w) => Runs(s, w) && s.workers[w].pc.Copying?
    case Recheck(w, ok) => CanRecheck(s, w, ok)
    case Record(w) => CanRecord(s, w)
    case Release(w) => Runs(s, w) && s.workers[w].pc.Releasing?
    case TruncateToSize(w) => CanTruncate(s, w)
    case Stat(w) => Runs(s, w) && s.workers[w].pc.Statting?
    case MapCheck(w) => Runs(s, w) && s.workers[w].pc.Mapping?
    case Publish(w, _) => Runs(s, w) && s.workers[w].pc.Verified?
    case Abandon(w) => Runs(s, w) && s.workers[w].pc.Verified?
    case Commit(w) => HasRef(s, w) && s.workers[w].pc.Published?
    case Kill(w) => HasRef(s, w) && s.workers[w].pc.Failed?
    case Rewrite(w, _) => Runs(s, w) && s.workers[w].pc.Detached?
    case Leave(w) => Runs(s, w) && s.workers[w].pc.Detached?
  }

  /** The steps of the segment loop. */
  predicate InLoopStep(t: Step) {
    t.Acquire? || t.StartPlain? || t.CloneOk? || t.CloneFail? || t.WaitDone? || t.Cancel?
    || t.CopyChunk? || t.CopyEnd? || t.CopyFail? || t.Recheck? || t.Record? || t.Release?
  }

  ghost function ApplyLoop(s: State, t: Step): State
    requires Enabled(s, t) && InLoopStep(t)
  {
    match t
    case Acquire(w) => DoAcquire(s, w)
    case StartPlain(w) => SetPc(s, w, Copying(None))
    case CloneOk(w) => DoClone(s, w)
    case CloneFail(w) => SetPc(s, w, Copying(None))
    case WaitDone(w) => SetPc(s, w, Ready)
    case Cancel(w) => SetPc(s, w, Failed)
    case CopyChunk(w, n, g) => DoCopyChunk(s, w, n, g)
    case CopyEnd(w) => DoCopyEnd(s, w)
    case CopyFail(w) =>
      SetPc(s, w, if s.workers[w].pc.held.Some? then Releasing(s.workers[w].pc.held.value) else Failed)
    case Recheck(w, ok) => DoRecheck(s, w, ok)
    case Record(w) => DoRecord(s, w)
    case Release(w) => DoRelease(s, w)
  }

  ghost function ApplyOuter(s: State, t: Step): State
    requires Enabled(s, t) && !InLoopStep(t)
  {
    match t
    case Env(f, src) => s.(srcs := s.srcs[f := src])
    case Rename(names) => s.(names := names)
    case Begin(w, f, ino, size) => DoBegin(s, w, f, ino, size)
    case Plan(w, segs, dev) => DoPlan(s, w, segs, dev)
    case TruncateToSize(w) => DoTruncate(s, w)
    case Stat(w) => SetPc(s, w, AfterStat(s, w))
    case MapCheck(w) => SetPc(s, w, AfterMapCheck(s, w))
    case Publish(w, path) => SetPc(s, w, Published(path)).(names := s.names[path := s.workers[w].ino])
    case Abandon(w) => SetPc(s, w, Failed)
    case Commit(w) => DoCommit(s, w)
    case Kill(w) => DoKill(s, w)
    case Rewrite(w, g) => DoRewrite(s, w, g)
    case Leave(w) => SetPc(s, w, Idle)
  }

  ghost function Apply(s: State, t: Step): State
    requires Enabled(s, t)
  {
    if InLoopStep(t) then ApplyLoop(s, t) else ApplyOuter(s, t)
  }

  ghost predicate Init(s: State) {
    && (forall f :: f in s.srcs ==> SrcOk(s.disk, s.srcs[f]))
    && s.refs == map[] && s.index == map[] && s.recorded == {} && s.inflight == [] && s.next == 0
    && s.released == {} && s.discarded == {} && s.workers == map[]
    && s.copies == multiset{} && s.clones == multiset{}
  }

  /** A run: every state follows from the one before by a step of someone. */
  ghost predicate Run(states: seq<State>, steps: seq<Step>) {
    && |states| == |steps| + 1
    && Init(states[0])
    && forall k :: 0 <= k < |steps| ==> Enabled(states[k], steps[k]) && states[k + 1] == Apply(states[k], steps[k])
  }
}
