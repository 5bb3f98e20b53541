/** One run of the engine over the entries its walk meets: internal/engine/hardlink.go, the entry visitors of
    walk.go, copyOne and the phases of engine.go, and the removals of move.go. Entry i of the walk has a source
    path and a destination path of its own, called i on either side.  One step is one entry's turn: at the walk, at
    a worker, at the deferred links, at the removal of moved sources. */
module RunCopy {
  import opened Scan

  /** What a name leads to.  ino tells one inode from another, on either side. */
  datatype Node = Missing | File(ino: nat) | Symlink(ino: nat, target: nat) | Dir

  datatype Cfg = Cfg(
    src: seq<Node>,            // the source entries, in walk order
    dst: seq<Node>,            // the destination entries before the run
    inodes: map<nat, Body>,    // the files on either side before the run
    multi: set<nat>,           // source inodes with several links, unless --no-hardlinks or the source tells no inodes
    alias: set<nat>,           // entries whose destination path is their source entry itself
    sameFile: bool,            // the destination tells inodes, and both sides are local
    dry: bool,
    move: bool,
    preserve: bool,
    checksum: bool
  ) {
    ghost predicate Valid() {
      && |src| == |dst|
      && (forall i :: 0 <= i < |src| ==> KnownNode(src[i]) && KnownNode(dst[i]) && !src[i].Missing?)
      && (alias != {} ==> sameFile)
    }

    predicate KnownNode(n: Node) {
      n.File? ==> n.ino in inodes
    }

    /** Entry i is a name of a source inode with several links. */
    predicate Grouped(i: nat) {
      i < |src| && src[i].File? && src[i].ino in multi
    }

    function SrcBody(i: nat): Body
      requires Valid() && i < |src| && src[i].File?
    {
      inodes[src[i].ino]
    }
  }

  /** What became of an entry. */
  datatype How = Copied | Skipped | Updated | Linked | Symlinked | Listed

  datatype Status = Unseen | Queued(check: bool) | Deferred | Finished(how: How) | Dropped

  /** The earliest entry of a multiply-linked inode; adopted if its destination was up to date. */
  datatype Primary = Primary(i: nat, adopted: bool)

  datatype Counts = Counts(files: int, bytes: int, dirs: int, symlinks: int, linked: int, skipped: int, updated: int,
                           totalFiles: int, totalBytes: int)

  datatype Phase = Walking | Working | Linking | Removing

  datatype State = State(
    src: seq<Node>,
    dst: seq<Node>,
    inodes: map<nat, Body>,
    st: seq<Status>,
    walked: nat,
    primary: map<nat, Primary>,
    counts: Counts,
    failed: nat,
    aborted: bool,
    stopped: bool,               // the walk was interrupted
    finished: bool,              // at the end of the links the run was neither aborted nor interrupted
    phase: Phase
  )

  /** What the filesystem answers in one step: whether a checksum could be read, whether the work succeeds, whether
      a failing replacement has removed the old entry, the inode of a new entry, and the attributes the work
      leaves. */
  datatype Env = Env(readable: bool, ok: bool, removed: bool, newIno: nat, body: Body)

  // ---- The destination of an entry ----

  /** A destination that is the source entry shows what the source shows. */
  function DstNode(c: Cfg, s: State, i: nat): Node
    requires i < |s.src| == |s.dst|
  {
    if i in c.alias then s.src[i] else s.dst[i]
  }

  /** What the destination of entry i shows before the run. */
  function InitNode(c: Cfg, i: nat): Node
    requires i < |c.src| == |c.dst|
  {
    if i in c.alias then c.src[i] else c.dst[i]
  }

  function SetDst(c: Cfg, s: State, i: nat, n: Node): (s': State)
    requires i < |s.src| == |s.dst|
    ensures SameShape(s, s')
  {
    if i in c.alias then s.(src := s.src[i := n]) else s.(dst := s.dst[i := n])
  }

  function ThereIs(n: Node, inodes: map<nat, Body>): There {
    match n
    case Missing => Absent
    case File(ino) => if ino in inodes then Regular(inodes[ino]) else Absent
    case _ => OtherType
  }

  function VerdictFor(c: Cfg, s: State, i: nat, readable: bool): Verdict
    requires c.Valid() && i < |c.src| == |s.src| == |s.dst| && c.src[i].File?
  {
    Compare(c.SrcBody(i), ThereIs(DstNode(c, s, i), s.inodes), c.checksum, readable)
  }

  predicate SameDestFile(c: Cfg, s: State, i: nat, j: nat)
    requires i < |s.src| == |s.dst| && j < |s.src|
  {
    c.sameFile && DstNode(c, s, i).File? && DstNode(c, s, j) == DstNode(c, s, i)
  }

  // ---- What happens to one entry ----

  /** What work on one entry leaves alone of the run's bookkeeping. */
  predicate SameShape(s: State, s': State) {
    && |s'.src| == |s.src| && |s'.dst| == |s.dst| && |s'.st| == |s.st| && s'.walked == s.walked
    && s'.primary == s.primary && s'.aborted == s.aborted
  }

  function Finish(s: State, i: nat, how: How): State
    requires i < |s.st|
  {
    s.(st := s.st[i := Finished(how)])
  }

  /** The entry fails; removed says its old destination is gone. */
  function Fail(c: Cfg, s: State, i: nat, removed: bool): (s': State)
    requires i < |s.st| == |s.src| == |s.dst|
    ensures SameShape(s, s')
  {
    (if removed then SetDst(c, s, i, Missing) else s).(st := s.st[i := Dropped], failed := s.failed + 1)
  }

  function SkipEntry(s: State, i: nat): State
    requires i < |s.st|
  {
    Finish(s, i, Skipped).(counts := s.counts.(skipped := s.counts.skipped + 1))
  }

  /** A file at its visit is never given up, and a dry run never queues one. */
  predicate Seen(c: Cfg, st: Status) {
    !st.Dropped? && (c.dry ==> !st.Queued?)
  }

  predicate OneStatus(s: State, s': State, i: nat) {
    |s'.st| == |s.st| && forall k :: 0 <= k < |s.st| && k != i ==> s'.st[k] == s.st[k]
  }

  /** An up-to-date destination: drifted attributes are synced and counted, else it is a skip. */
  function FinishUnchanged(c: Cfg, s: State, i: nat, v: Verdict, e: Env): (s': State)
    requires i < |s.st| == |s.src| == |s.dst|
    ensures s'.src == s.src && s'.dst == s.dst && SameShape(s, s') && OneStatus(s, s', i) && Seen(c, s'.st[i])
  {
    if c.preserve && v.Drift() then
      var n := DstNode(c, s, i);
      Finish(s, i, Updated).(counts := s.counts.(updated := s.counts.updated + 1),
                             inodes := if c.dry || !n.File? then s.inodes else s.inodes[n.ino := e.body])
    else SkipEntry(s, i)
  }

  function Enqueue(c: Cfg, s: State, i: nat, check: bool): (s': State)
    requires c.Valid() && i < |s.st| && i < |c.src| && c.src[i].File?
    ensures s'.src == s.src && s'.dst == s.dst && SameShape(s, s') && OneStatus(s, s', i) && Seen(c, s'.st[i])
  {
    var size := |c.SrcBody(i).data|;
    var n := s.counts.(totalFiles := s.counts.totalFiles + 1, totalBytes := s.counts.totalBytes + size);
    if c.dry then Finish(s, i, Copied).(counts := n.(files := n.files + 1, bytes := n.bytes + size))
    else s.(st := s.st[i := Queued(check)], counts := n)
  }

  function RecreateSymlink(c: Cfg, s: State, i: nat, target: nat, e: Env): (s': State)
    requires i < |s.st| == |s.src| == |s.dst|
    ensures SameShape(s, s')
  {
    var cur := DstNode(c, s, i);
    if cur.Symlink? && cur.target == target then SkipEntry(s, i)
    else if c.dry then Finish(s, i, Symlinked).(counts := s.counts.(symlinks := s.counts.symlinks + 1))
    else if !e.ok then Fail(c, s, i, e.removed)
    else
      SetDst(c, Finish(s, i, Symlinked), i,
        Symlink(e.newIno, target)).(counts := s.counts.(symlinks := s.counts.symlinks + 1))
  }

  /** A name of a multiply-linked inode: the earliest becomes the primary, later ones wait to be linked to it. */
  function HandleMultiLink(c: Cfg, s: State, i: nat, e: Env): (s': State)
    requires c.Valid() && i < |c.src| == |s.src| == |s.dst| == |s.st| && c.src[i].File?
    requires forall k :: k in s.primary ==> s.primary[k].i < |s.src|
    ensures s'.src == s.src && s'.dst == s.dst && OneStatus(s, s', i) && Seen(c, s'.st[i]) && s'.walked == s.walked
  {
    var ino := c.src[i].ino;
    if ino in s.primary then
      var p := s.primary[ino];
      if p.adopted && SameDestFile(c, s, p.i, i) then SkipEntry(s, i) else s.(st := s.st[i := Deferred])
    else
      var v := VerdictFor(c, s, i, e.readable);
      if v.UpToDate? then FinishUnchanged(c, s, i, v, e).(primary := s.primary[ino := Primary(i, true)])
      else Enqueue(c, s, i, false).(primary := s.primary[ino := Primary(i, false)])
  }

  function HandleRegular(c: Cfg, s: State, i: nat, e: Env): (s': State)
    requires c.Valid() && i < |c.src| == |s.src| == |s.dst| == |s.st| && c.src[i].File?
    requires forall k :: k in s.primary ==> s.primary[k].i < |s.src|
    ensures s'.src == s.src && s'.dst == s.dst && OneStatus(s, s', i) && Seen(c, s'.st[i]) && s'.walked == s.walked
  {
    if c.Grouped(i) then HandleMultiLink(c, s, i, e)
    else if c.dry then
      var v := VerdictFor(c, s, i, e.readable);
      if v.UpToDate? then FinishUnchanged(c, s, i, v, e) else Enqueue(c, s, i, false)
    else Enqueue(c, s, i, true)
  }

  /** fsx.CopyFile: a new file is published at the destination, or the destination stays as it is. */
  function Transfer(c: Cfg, s: State, i: nat, e: Env): (s': State)
    requires c.Valid() && i < |c.src| == |s.src| == |s.dst| == |s.st| && c.src[i].File?
    ensures SameShape(s, s')
  {
    if !e.ok then Fail(c, s, i, false)
    else
      SetDst(c, Finish(s, i, Copied), i, File(e.newIno)).(
        inodes := s.inodes[e.newIno := e.body],
        counts := s.counts.(files := s.counts.files + 1, bytes := s.counts.bytes + |c.SrcBody(i).data|))
  }

  function CopyOne(c: Cfg, s: State, i: nat, e: Env): (s': State)
    requires c.Valid() && i < |c.src| == |s.src| == |s.dst| == |s.st| && c.src[i].File? && s.st[i].Queued?
    ensures SameShape(s, s')
  {
    if SkipsJob(c, s, i, e) then
      // These bytes will never move: the discovery accounting is undone.
      var kept, size := FinishUnchanged(c, s, i, VerdictFor(c, s, i, e.readable), e), |c.SrcBody(i).data|;
      kept.(counts := kept.counts.(totalFiles := kept.counts.totalFiles - 1,
        totalBytes := kept.counts.totalBytes - size))
    else Transfer(c, s, i, e)
  }

  // ---- Steps ----

  datatype Step =
    | Visit(e: Env)            // the walk handles its next entry
    | StopWalk                 // the walk ends early
    | EndWalk
    | RunJob(i: nat, e: Env)
    | EndJobs
    | MakeLink(i: nat, e: Env)
    | EndLinks(canceled: bool) // whether an interruption has come by now
    | RemoveSource(i: nat, e: Env)
    | Abort

  ghost predicate Shaped(c: Cfg, s: State) {
    && c.Valid() && |c.src| == |s.src| == |s.dst| == |s.st| && s.walked <= |s.src|
    && forall k :: k in s.primary ==> s.primary[k].i < |s.src|
  }

  /** A sync leaves the file's content alone, and its mtime unless --checksum found the content equal at another
      time. */
  predicate SyncOk(c: Cfg, s: State, i: nat, e: Env)
    requires i < |s.src| == |s.dst|
  {
    var n := DstNode(c, s, i);
    n.File? && n.ino in s.inodes ==>
      e.body.data == s.inodes[n.ino].data && (c.checksum || e.body.mtime == s.inodes[n.ino].mtime)
  }

  predicate SkipsJob(c: Cfg, s: State, i: nat, e: Env)
    requires c.Valid() && i < |c.src| == |s.src| == |s.dst| == |s.st| && c.src[i].File?
  {
    s.st[i] == Queued(true) && VerdictFor(c, s, i, e.readable).UpToDate?
  }

  /** A copy that succeeds holds the source's content (CopyData); a file is not renamed over a directory. */
  predicate JobOk(c: Cfg, s: State, i: nat, e: Env)
    requires c.Valid() && i < |c.src| == |s.src| == |s.dst| == |s.st| && c.src[i].File?
  {
    && e.newIno !in s.inodes
    && if SkipsJob(c, s, i, e) then SyncOk(c, s, i, e)
       else e.body.data == c.SrcBody(i).data && (e.ok ==> !DstNode(c, s, i).Dir?)
  }

  ghost predicate Enabled(c: Cfg, s: State, t: Step) {
    && Shaped(c, s)
    && match t
       case Visit(e) => s.phase.Walking? && !s.aborted && s.walked < |s.src| && SyncOk(c, s, s.walked, e)
         && e.newIno !in s.inodes
       case StopWalk => s.phase.Walking?
       case EndWalk => s.phase.Walking? && (s.walked == |s.src| || s.aborted)
       case RunJob(i, e) =>
         (s.phase.Walking? || s.phase.Working?) && i < |s.src| && s.st[i].Queued? && c.src[i].File? && JobOk(c, s, i, e)
       case EndJobs => s.phase.Working? && forall i :: 0 <= i < |s.st| ==> !s.st[i].Queued?
       case MakeLink(i, e) =>
         && s.phase.Linking? && i < |s.src| && s.st[i].Deferred? && c.Grouped(i) && c.src[i].ino in s.primary
         && (e.ok ==> var n := DstNode(c, s, s.primary[c.src[i].ino].i); n.File? || n.Symlink? || c.dry)
       case EndLinks(_) => s.phase.Linking? && forall i :: 0 <= i < |s.st| ==> !s.st[i].Deferred?
       case RemoveSource(i, e) =>
         s.phase.Removing? && c.move && !c.dry && s.finished && i < |s.src| && Moved(s, i)
           && !s.src[i].Missing?
       case Abort => !c.dry
  }

  /** moveSource or moveUnchanged recorded the entry. */
  predicate Moved(s: State, i: nat)
    requires i < |s.st|
  {
    s.st[i].Finished? && !s.st[i].how.Listed?
  }

  /** The destination is the source file itself. */
  predicate SameEntry(c: Cfg, s: State, i: nat)
    requires i < |s.src| == |s.dst|
  {
    var m, n := s.src[i], DstNode(c, s, i);
    c.sameFile && (m == n || (m.Symlink? && n.Symlink? && m.ino == n.ino))
  }

  function VisitEntry(c: Cfg, s: State, e: Env): (s': State)
    requires Shaped(c, s) && s.walked < |s.src|
    ensures s'.walked == s.walked + 1
  {
    HandleEntry(c, s.(walked := s.walked + 1), s.walked, e)
  }

  function HandleEntry(c: Cfg, s: State, i: nat, e: Env): (s': State)
    requires Shaped(c, s) && i < |c.src|
    ensures s'.walked == s.walked
  {
    match c.src[i]
    case Dir =>
      if e.ok || c.dry then Finish(s, i, Listed).(counts := s.counts.(dirs := s.counts.dirs + 1))
      else Fail(c, s, i, false)
    case Symlink(_, target) => RecreateSymlink(c, s, i, target, e)
    case File(_) => HandleRegular(c, s, i, e)
  }

  function LinkEntry(c: Cfg, s: State, i: nat, e: Env): (s': State)
    requires Shaped(c, s) && i < |s.src| && c.Grouped(i) && c.src[i].ino in s.primary
    ensures SameShape(s, s')
  {
    if s.aborted then s.(st := s.st[i := Dropped])
    else
      var linked := Finish(s, i, Linked).(counts := s.counts.(linked := s.counts.linked + 1));
      if c.dry then linked
      else if e.ok then SetDst(c, linked, i, DstNode(c, s, s.primary[c.src[i].ino].i))
      else Fail(c, s, i, e.removed)
  }

  /** removeSource: refused where the destination is the source itself. */
  function RemoveEntry(c: Cfg, s: State, i: nat, e: Env): State
    requires i < |s.src| == |s.dst|
  {
    if SameEntry(c, s, i) || !e.ok then s.(failed := s.failed + 1) else s.(src := s.src[i := Missing])
  }

  function Apply(c: Cfg, s: State, t: Step): State
    requires Enabled(c, s, t)
  {
    match t
    case Visit(e) => VisitEntry(c, s, e)
    case StopWalk => s.(phase := Working, stopped := true)
    case EndWalk => s.(phase := Working)
    case RunJob(i, e) => if s.aborted then s.(st := s.st[i := Dropped]) else CopyOne(c, s, i, e)
    case EndJobs => s.(phase := Linking)
    case MakeLink(i, e) => LinkEntry(c, s, i, e)
    case EndLinks(canceled) => s.(phase := Removing, finished := !s.aborted && !s.stopped && !canceled)
    case RemoveSource(i, e) => RemoveEntry(c, s, i, e)
    case Abort => s.(aborted := true)
  }

  function NoCounts(): Counts {
    Counts(0, 0, 0, 0, 0, 0, 0, 0, 0)
  }

  function Start(c: Cfg): State {
    State(c.src, c.dst, c.inodes, seq(|c.src|, _ => Unseen), 0, map[], NoCounts(), 0, false, false, false, Walking)
  }

  ghost predicate Run(c: Cfg, states: seq<State>, steps: seq<Step>) {
    && c.Valid() && |states| == |steps| + 1 && states[0] == Start(c)
    && forall k :: 0 <= k < |steps| ==>
      Enabled(c, states[k], steps[k]) && states[k + 1] == Apply(c, states[k], steps[k])
  }

  ghost predicate Reachable(c: Cfg, s: State) {
    exists states, steps :: Run(c, states, steps) && states[|steps|] == s
  }

  lemma ReachStep(c: Cfg, s: State, t: Step)
    requires Reachable(c, s) && Enabled(c, s, t)
    ensures Reachable(c, Apply(c, s, t))
  {
    var states, steps :| Run(c, states, steps) && states[|steps|] == s;
    var states', steps' := states + [Apply(c, s, t)], steps + [t];
    forall k | 0 <= k < |steps'|
      ensures Enabled(c, states'[k], steps'[k]) && states'[k + 1] == Apply(c, states'[k], steps'[k]) {
      if k < |steps| { assert states'[k] == states[k] && states'[k + 1] == states[k + 1] && steps'[k] == steps[k]; }
    }
    assert Run(c, states', steps') && states'[|steps'|] == Apply(c, s, t);
  }
}
