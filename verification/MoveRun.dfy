/** A run with --move: what its last pass leaves of the source. */
module MoveRun {
  import opened RunCopy
  import opened RunCounts
  import opened MirrorRun
  import opened Mirror
  import opened Moves
  import opened MoveLists
  import MoveOrder
  import Walk

  /** The events of a walk that are entries of the run: all but what is skipped, looped or failed. */
  function Handled(log: seq<Walk.Event>): seq<Walk.Event> {
    if log == [] then []
    else
      var n := |log| - 1;
      Handled(log[..n]) + if IsFiled(log[n]) || log[n].what.Entered? then [log[n]] else []
  }

  /** The run is about the walk of root in w: its entries are those handled, and the source has the paths of root. */
  ghost predicate WalkOf(t: Tree, c: Cfg, w: Walk.World, root: Walk.Entry) {
    && Walk.WorldOk(w) && Walk.Known(w, root) && !w.follow && t.Src() == Paths(root, [])
    && var h := Handled(Walk.Full(w, {}, [], root));
       && |t.at| == |c.src| == |h|
       && forall i :: 0 <= i < |h| ==> t.at[i] == h[i].path && (c.src[i].Dir? <==> h[i].what.Entered?)
  }

  /** What the run recorded of files and links, in walk order: those of the first n entries that were moved. */
  function MovedFiles(t: Tree, s: State, n: nat): seq<Path>
    requires n <= |t.at|
  {
    if n == 0 then []
    else MovedFiles(t, s, n - 1) + if n <= |s.st| && Moved(s, n - 1) then [t.at[n - 1]] else []
  }

  // ---- The run's lists are the walk's ----

  lemma {:induction false} FiledAreHandled(log: seq<Walk.Event>)
    ensures Filed(Handled(log)) == Filed(log)
    ensures forall i :: 0 <= i < |Handled(log)| ==> IsFiled(Handled(log)[i]) || Handled(log)[i].what.Entered?
  {
    if log != [] {
      var n := |log| - 1;
      var more := if IsFiled(log[n]) || log[n].what.Entered? then [log[n]] else [];
      FiledAreHandled(log[..n]);
      FiledJoined(Handled(log[..n]), more);
      assert more != [] ==> more[..0] == [];
    }
  }

  lemma {:induction false} MovedAreFiled(t: Tree, s: State, h: seq<Walk.Event>, n: nat)
    requires n <= |h| == |t.at| == |s.st|
    requires forall i :: 0 <= i < |h| ==> t.at[i] == h[i].path && (Moved(s, i) <==> IsFiled(h[i]))
    ensures MovedFiles(t, s, n) == Filed(h[..n])
  {
    if n > 0 {
      MovedAreFiled(t, s, h, n - 1);
      assert h[..n][..n - 1] == h[..n - 1];
    }
  }

  lemma CleanRunMoves(t: Tree, c: Cfg, states: seq<State>, steps: seq<Step>, w: Walk.World, root: Walk.Entry)
    requires CleanRun(c, states, steps) && Unaliased(c) && states[|steps|].phase.Removing? && WalkOf(t, c, w, root)
    ensures MovedFiles(t, states[|steps|], |t.at|) == Filed(Walk.Full(w, {}, [], root))
  {
    CleanRunEnds(c, states, steps);
    ForetoldMoves(t, c, states[|steps|], w, root);
  }

  lemma ForetoldMoves(t: Tree, c: Cfg, s: State, w: Walk.World, root: Walk.Entry)
    requires c.Valid() && s.st == Foretold(c) && WalkOf(t, c, w, root)
    ensures MovedFiles(t, s, |t.at|) == Filed(Walk.Full(w, {}, [], root))
  {
    var log := Walk.Full(w, {}, [], root);
    var h := Handled(log);
    FiledAreHandled(log);
    AllButDirsMove(c, s);
    MovedAreFiled(t, s, h, |h|);
    assert h[..|h|] == h;
  }

  lemma AllButDirsMove(c: Cfg, s: State)
    requires c.Valid() && s.st == Foretold(c)
    ensures forall i :: 0 <= i < |c.src| ==> (Moved(s, i) <==> !c.src[i].Dir?)
  {
    forall i | 0 <= i < |c.src| ensures Moved(s, i) <==> !c.src[i].Dir? {
      assert s.st[i] == Finished(Fate(c, i));
    }
  }

  predicate Places(h: seq<Walk.Event>, x: Path) {
    exists i :: 0 <= i < |h| && h[i].path == x
  }

  lemma PlacesJoined(a: seq<Walk.Event>, b: seq<Walk.Event>, x: Path)
    ensures Places(a + b, x) <==> Places(a, x) || Places(b, x)
  {
    var h := a + b;
    if i :| 0 <= i < |a| && a[i].path == x { assert h[i].path == x; }
    if j :| 0 <= j < |b| && b[j].path == x { assert h[|a| + j].path == x; }
    if i :| 0 <= i < |h| && h[i].path == x { assert h[i] == if i < |a| then a[i] else b[i - |a|]; }
  }

  /** Every entry is a file or link recorded, or a directory entered. */
  lemma {:induction false} HandledAreListed(log: seq<Walk.Event>, x: Path)
    ensures Places(Handled(log), x) <==> x in Filed(log) || MoveOrder.Enters(log, x)
  {
    if log != [] {
      var n := |log| - 1;
      var last := log[n];
      HandledAreListed(log[..n], x);
      assert log == log[..n] + [last];
      MoveOrder.EntersJoined(log[..n], [last], x);
      OneListed(last, x);
      PlacesJoined(Handled(log[..n]), if IsFiled(last) || last.what.Entered? then [last] else [], x);
    }
  }

  lemma OneListed(ev: Walk.Event, x: Path)
    ensures MoveOrder.Enters([ev], x) <==> ev == Walk.Event(x, Walk.Entered)
    ensures Places(if IsFiled(ev) || ev.what.Entered? then [ev] else [], x) <==>
            (IsFiled(ev) && ev.path == x) || MoveOrder.Enters([ev], x)
  {
    assert [ev][0] == ev;
  }

  lemma AllListed(
    t: Tree, c: Cfg, w: Walk.World, root: Walk.Entry, files: seq<Path>, dirs: seq<Path>, keep: set<Path>, x: Path
  )
    requires WalkOf(t, c, w, root) && dirs == MoveOrder.Dirs(w, keep, {}, [], root)
    requires multiset(files) == multiset(Filed(Walk.Full(w, {}, [], root)))
    ensures x in All(files + dirs) <==> x in t.Entries() && (x in keep ==> x in All(files))
  {
    var log := Walk.Full(w, {}, [], root);
    MoveOrder.AllJoined(files, dirs, x);
    MoveOrder.DirsAreEntered(w, keep, {}, [], root, x);
    EntriesAreListed(t, c, w, root, x);
    AllAreIn(files);
    assert x in multiset(files) <==> x in multiset(Filed(log));
  }

  lemma EntriesAreListed(t: Tree, c: Cfg, w: Walk.World, root: Walk.Entry, x: Path)
    requires WalkOf(t, c, w, root)
    ensures x in t.Entries() <==>
            x in Filed(Walk.Full(w, {}, [], root)) || MoveOrder.Enters(Walk.Full(w, {}, [], root), x)
  {
    var h := Handled(Walk.Full(w, {}, [], root));
    HandledAreListed(Walk.Full(w, {}, [], root), x);
    assert x in t.Entries() <==> Places(h, x);
  }

  /** The pass after a clean run with --move, for any tree, with the files recorded in any order.  Unless it is
      interrupted, a source path is left if and only if it, or something below it, was passed over by the walk, is
      a directory to keep, is its own destination, or cannot be removed. */
  method RemoveMoved(
    t: Tree, ghost c: Cfg, ghost states: seq<State>, ghost steps: seq<Step>, ghost w: Walk.World,
      ghost root: Walk.Entry,
    files: seq<Path>, dirs: seq<Path>, ghost keep: set<Path>, same: set<Path>, stuck: set<Path>
  ) returns (r: Removal, halted: bool)
    requires CleanRun(c, states, steps) && Unaliased(c) && states[|steps|].phase.Removing? && WalkOf(t, c, w, root)
    requires multiset(files) == multiset(MovedFiles(t, states[|steps|], |t.at|))
    requires dirs == MoveOrder.Dirs(w, keep, {}, [], root)
    ensures fresh(r) && r.src <= t.Src()
    ensures !halted ==> forall x :: x in t.Src() ==> (x in r.src <==>
      exists y :: y in t.Src() && x <= y && Stays(t, files, keep, same, stuck, y))
  {
    CleanRunMoves(t, c, states, steps, w, root);
    WalkRecords(w, keep, root, files);
    r := new Removal(t.Src(), same, stuck);
    halted := r.RemoveMovedSources(files, dirs);
    HeldExactlyWhen(t, c, w, root, files, dirs, keep, same, stuck);
  }

  /** y stays for a reason of its own: the walk passed it over, it is a directory to keep, it is its own
      destination, or it cannot be removed. */
  predicate Stays(t: Tree, files: seq<Path>, keep: set<Path>, same: set<Path>, stuck: set<Path>, y: Path) {
    y !in t.Entries() || (y in keep && y !in All(files)) || y in same || y in stuck
  }

  lemma HeldExactlyWhen(
    t: Tree, c: Cfg, w: Walk.World, root: Walk.Entry, files: seq<Path>, dirs: seq<Path>,
    keep: set<Path>, same: set<Path>, stuck: set<Path>
  )
    requires WalkOf(t, c, w, root) && dirs == MoveOrder.Dirs(w, keep, {}, [], root)
    requires multiset(files) == multiset(Filed(Walk.Full(w, {}, [], root)))
    ensures forall y :: Held(All(files + dirs), same + stuck, y) <==> Stays(t, files, keep, same, stuck, y)
  {
    forall y ensures Held(All(files + dirs), same + stuck, y) <==> Stays(t, files, keep, same, stuck, y) {
      AllListed(t, c, w, root, files, dirs, keep, y);
    }
  }
}
