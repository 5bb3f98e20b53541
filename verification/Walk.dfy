/** The walk over a local tree with symlinks: visit, visitDir and visitSymlink of internal/engine/walk.go. */
module Walk {
  /** A path below the source root: at each level the place of the entry in its directory's listing. */
  type Path = seq<nat>

  /** An entry of a real directory tree.  A directory's id stands for its canonical path. */
  datatype Entry =
    | File
    | Special
    | Link(target: Target)
    | Dir(id: nat, entries: seq<Entry>)

  /** Where a symlink leads: nowhere, or somewhere that lies within the source root or not. */
  datatype Target = Dangling | To(within: bool, what: What)

  datatype What = AFile | AnyOther | ADir(id: nat)

  /** What the walk depends on besides the entry it starts at. */
  datatype World = World(
    dirs: map<nat, seq<Entry>>,     // the listing behind every canonical directory
    follow: bool,                   // neither --no-follow-symlinks nor --move
    otherDevice: set<nat>,          // with --one-file-system, the mount points
    excluded: Path -> bool,         // --exclude and --include
    failing: Path -> bool           // the directory cannot be made or read
  )

  datatype Outcome = Regular | Skipped | Recreated | Looped | Mount | Entered | Failed

  datatype Event = Event(path: Path, what: Outcome)

  /** Every link to a directory leads to one that is there. */
  ghost predicate Known(w: World, e: Entry)
    decreases e
  {
    match e
    case Link(To(_, ADir(id))) => id in w.dirs
    case Dir(_, es) => forall k :: 0 <= k < |es| ==> Known(w, es[k])
    case _ => true
  }

  ghost predicate AllKnown(w: World, es: seq<Entry>) {
    forall k :: 0 <= k < |es| ==> Known(w, es[k])
  }

  ghost predicate WorldOk(w: World) {
    forall id :: id in w.dirs ==> AllKnown(w, w.dirs[id])
  }

  // ---- The walk as a list of events ----

  /** A link the walk follows into a directory. */
  predicate IsDirLink(w: World, e: Entry) {
    e.Link? && w.follow && e.target.To? && e.target.within && e.target.what.ADir?
  }

  /** An entry that is not descended into. */
  function Plain(w: World, e: Entry): Outcome {
    match e
    case File => Regular
    case Special => Skipped
    case Dir(_, _) => Mount
    case Link(t) =>
      if !w.follow || t.Dangling? || !t.within then Recreated
      else match t.what
        case AFile => Regular
        case AnyOther => Skipped
        case ADir(_) => Looped
  }

  /** The events of visiting entry e at path p while the directories in stack are being visited through links. It
      ends because either the stack grows, within finitely many directories, or the entry is a part of the last
      one. */
  function Full(w: World, stack: set<nat>, p: Path, e: Entry): seq<Event>
    requires WorldOk(w) && Known(w, e)
    decreases w.dirs.Keys - stack, e, 1
  {
    if w.excluded(p) then []
    else if e.Dir? && e.id !in w.otherDevice then FullDir(w, stack, p, e.entries)
    else if IsDirLink(w, e) && e.target.what.id !in stack then
      FullDir(w, stack + {e.target.what.id}, p, w.dirs[e.target.what.id])
    else [Event(p, Plain(w, e))]
  }

  function FullDir(w: World, stack: set<nat>, p: Path, es: seq<Entry>): seq<Event>
    requires WorldOk(w) && AllKnown(w, es)
    decreases w.dirs.Keys - stack, es, |es| + 1
  {
    if w.failing(p) then [Event(p, Failed)] else [Event(p, Entered)] + FullFrom(w, stack, p, es, 0)
  }

  function FullFrom(w: World, stack: set<nat>, p: Path, es: seq<Entry>, k: nat): seq<Event>
    requires WorldOk(w) && k <= |es| && AllKnown(w, es)
    decreases w.dirs.Keys - stack, es, |es| - k
  {
    if k == |es| then [] else Full(w, stack, p + [k], es[k]) + FullFrom(w, stack, p, es, k + 1)
  }

  // ---- The walk, updating its stack ----

  class Walker {
    const w: World
    var onStack: set<nat>
    var log: seq<Event>
    var halted: bool        // the run was aborted or interrupted; it stays so

    constructor (w: World)
      ensures this.w == w && onStack == {} && log == [] && !halted
    {
      this.w := w;
      onStack, log, halted := {}, [], false;
    }

    /** The events of the whole walk were logged, or those before the halt. */
    twostate predicate Logged(events: seq<Event>)
      reads this
    {
      && onStack == old(onStack) && (old(halted) ==> halted)
      && old(log) <= log <= old(log) + events && (!halted ==> log == old(log) + events)
    }

    /** Another goroutine may have halted the run. */
    method CheckHalted() returns (h: bool)
      modifies `halted
      ensures h == halted && (old(halted) ==> halted)
    {
      if * {
        halted := true;
      }
      h := halted;
    }

    method Visit(p: Path, e: Entry)
      requires WorldOk(w) && Known(w, e)
      modifies this
      ensures Logged(Full(w, old(onStack), p, e))
      decreases w.dirs.Keys - onStack, e, 1
    {
      var h := CheckHalted();
      if h || w.excluded(p) {
        return;
      }
      if e.Link? {
        VisitSymlink(p, e);
      } else if e.Dir? {
        if e.id in w.otherDevice {
          log := log + [Event(p, Mount)];
          return;
        }
        VisitDir(p, e.entries);
      } else {
        log := log + [Event(p, Plain(w, e))];
      }
    }

    method VisitDir(p: Path, es: seq<Entry>)
      requires WorldOk(w) && AllKnown(w, es)
      modifies this
      ensures Logged(FullDir(w, old(onStack), p, es))
      decreases w.dirs.Keys - onStack, es, |es| + 1
    {
      var h := CheckHalted();
      if h {
        return;
      }
      if w.failing(p) {
        log := log + [Event(p, Failed)];
        return;
      }
      log := log + [Event(p, Entered)];
      ghost var all := FullDir(w, onStack, p, es);
      assert log + FullFrom(w, onStack, p, es, 0) == old(log) + all;
      var k := 0;
      while k < |es|
        invariant k <= |es| && onStack == old(onStack) && !halted
        invariant old(log) <= log && log + FullFrom(w, onStack, p, es, k) == old(log) + all
      {
        h := CheckHalted();
        if h {
          return;
        }
        label turn:
        Visit(p + [k], es[k]);
        ghost var part, rest := Full(w, onStack, p + [k], es[k]), FullFrom(w, onStack, p, es, k + 1);
        assert old@turn(log) + (part + rest) == (old@turn(log) + part) + rest;
        if halted {
          PrefixGrows(old@turn(log), log, part, rest);
          return;
        }
        k := k + 1;
      }
    }

    method VisitSymlink(p: Path, e: Entry)
      requires WorldOk(w) && Known(w, e) && e.Link? && !w.excluded(p)
      modifies this
      ensures Logged(Full(w, old(onStack), p, e))
      decreases w.dirs.Keys - onStack, e, 0
    {
      if !IsDirLink(w, e) {
        log := log + [Event(p, Plain(w, e))];
        return;
      }
      var id := e.target.what.id;
      if id in onStack {
        log := log + [Event(p, Looped)];
        return;
      }
      onStack := onStack + {id};
      VisitDir(p, w.dirs[id]);
      onStack := onStack - {id};
    }
  }

  lemma PrefixGrows(a: seq<Event>, b: seq<Event>, part: seq<Event>, rest: seq<Event>)
    requires b <= a + part
    ensures b <= a + (part + rest)
  {
    assert a + (part + rest) == (a + part) + rest;
  }
}
