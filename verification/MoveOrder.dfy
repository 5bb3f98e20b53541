/** The directories that --move records as the walk leaves them: internal/engine/walk.go:168-205, move.go:81-88. */
module MoveOrder {
  import opened Walk
  import opened Moves

  /** What visiting entry e at path p records: each directory once all its entries are visited, but not those to
      keep. */
  function Dirs(w: World, keep: set<Path>, stack: set<nat>, p: Path, e: Entry): seq<Path>
    requires WorldOk(w) && Known(w, e)
    decreases w.dirs.Keys - stack, e, 1
  {
    if w.excluded(p) then []
    else if e.Dir? && e.id !in w.otherDevice then DirsOf(w, keep, stack, p, e.entries)
    else if IsDirLink(w, e) && e.target.what.id !in stack then
      DirsOf(w, keep, stack + {e.target.what.id}, p, w.dirs[e.target.what.id])
    else []
  }

  function DirsOf(w: World, keep: set<Path>, stack: set<nat>, p: Path, es: seq<Entry>): seq<Path>
    requires WorldOk(w) && AllKnown(w, es)
    decreases w.dirs.Keys - stack, es, |es| + 1
  {
    if w.failing(p) then [] else DirsFrom(w, keep, stack, p, es, 0) + if p in keep then [] else [p]
  }

  function DirsFrom(w: World, keep: set<Path>, stack: set<nat>, p: Path, es: seq<Entry>, k: nat): seq<Path>
    requires WorldOk(w) && k <= |es| && AllKnown(w, es)
    decreases w.dirs.Keys - stack, es, |es| - k
  {
    if k == |es| then [] else Dirs(w, keep, stack, p + [k], es[k]) + DirsFrom(w, keep, stack, p, es, k + 1)
  }

  // ---- Places ----

  predicate AllBelow(ps: seq<Path>, p: Path) {
    forall i :: 0 <= i < |ps| ==> Above(p, ps[i])
  }

  /** All lie below one of the later entries of p's listing. */
  predicate AllFrom(ps: seq<Path>, p: Path, k: nat) {
    forall i :: 0 <= i < |ps| ==> |ps[i]| > |p| && Above(p, ps[i]) && k <= ps[i][|p|]
  }

  lemma Deeper(ps: seq<Path>, p: Path, k: nat)
    requires AllBelow(ps, p + [k])
    ensures forall i :: 0 <= i < |ps| ==> |ps[i]| > |p| && Above(p, ps[i]) && ps[i][|p|] == k
  {
    forall i | 0 <= i < |ps| ensures |ps[i]| > |p| && Above(p, ps[i]) && ps[i][|p|] == k {
      var x := ps[i];
      assert Above(p + [k], x) && x[..|p| + 1] == p + [k];
      assert x[..|p|] == (p + [k])[..|p|] == p && x[|p|] == (p + [k])[|p|];
    }
  }

  /** Two lists without a path of the first above one of the second. */
  lemma BottomUpJoined(a: seq<Path>, b: seq<Path>)
    requires BottomUp(a) && BottomUp(b)
    requires forall i, j :: 0 <= i < |a| && 0 <= j < |b| ==> !Above(a[i], b[j])
    ensures BottomUp(a + b)
  {
    var ps := a + b;
    forall i, j | 0 <= i < j < |ps| ensures !Above(ps[i], ps[j]) {
      if j < |a| {
        assert !Above(a[i], a[j]);
      } else if i < |a| {
        assert !Above(a[i], b[j - |a|]);
      } else {
        assert !Above(b[i - |a|], b[j - |a|]);
      }
    }
  }

  /** Paths below different entries of a listing are not above each other. */
  lemma Elsewhere(x: Path, y: Path, n: nat)
    requires n < |x| && n < |y| && x[n] != y[n]
    ensures !Above(x, y)
  {
  }

  /** Every directory is recorded after all that lie below it, and once. */
  lemma {:induction false} DirsAreBottomUp(w: World, keep: set<Path>, stack: set<nat>, p: Path, e: Entry)
    requires WorldOk(w) && Known(w, e)
    ensures BottomUp(Dirs(w, keep, stack, p, e)) && AllBelow(Dirs(w, keep, stack, p, e), p)
    decreases w.dirs.Keys - stack, e, 1
  {
    if w.excluded(p) {
    } else if e.Dir? && e.id !in w.otherDevice {
      DirIsBottomUp(w, keep, stack, p, e.entries);
    } else if IsDirLink(w, e) && e.target.what.id !in stack {
      DirIsBottomUp(w, keep, stack + {e.target.what.id}, p, w.dirs[e.target.what.id]);
    }
  }

  lemma {:induction false} DirIsBottomUp(w: World, keep: set<Path>, stack: set<nat>, p: Path, es: seq<Entry>)
    requires WorldOk(w) && AllKnown(w, es)
    ensures BottomUp(DirsOf(w, keep, stack, p, es)) && AllBelow(DirsOf(w, keep, stack, p, es), p)
    decreases w.dirs.Keys - stack, es, |es| + 1
  {
    if !w.failing(p) {
      var inner := DirsFrom(w, keep, stack, p, es, 0);
      FromIsBottomUp(w, keep, stack, p, es, 0);
      forall i | 0 <= i < |inner| ensures !Above(inner[i], p) { assert |inner[i]| > |p|; }
      BottomUpJoined(inner, if p in keep then [] else [p]);
    }
  }

  lemma {:induction false} FromIsBottomUp(w: World, keep: set<Path>, stack: set<nat>, p: Path, es: seq<Entry>, k: nat)
    requires WorldOk(w) && k <= |es| && AllKnown(w, es)
    ensures BottomUp(DirsFrom(w, keep, stack, p, es, k)) && AllFrom(DirsFrom(w, keep, stack, p, es, k), p, k)
    decreases w.dirs.Keys - stack, es, |es| - k
  {
    if k < |es| {
      var a, b := Dirs(w, keep, stack, p + [k], es[k]), DirsFrom(w, keep, stack, p, es, k + 1);
      DirsAreBottomUp(w, keep, stack, p + [k], es[k]);
      FromIsBottomUp(w, keep, stack, p, es, k + 1);
      Deeper(a, p, k);
      forall i, j | 0 <= i < |a| && 0 <= j < |b| ensures !Above(a[i], b[j]) { Elsewhere(a[i], b[j], |p|); }
      BottomUpJoined(a, b);
    }
  }

  // ---- What is recorded ----

  predicate Enters(log: seq<Event>, x: Path) {
    exists i :: 0 <= i < |log| && log[i] == Event(x, Entered)
  }

  lemma EntersJoined(a: seq<Event>, b: seq<Event>, x: Path)
    ensures Enters(a + b, x) <==> Enters(a, x) || Enters(b, x)
  {
    var log := a + b;
    if i :| 0 <= i < |a| && a[i] == Event(x, Entered) { assert log[i] == a[i]; }
    if j :| 0 <= j < |b| && b[j] == Event(x, Entered) { assert log[|a| + j] == b[j]; }
    if i :| 0 <= i < |log| && log[i] == Event(x, Entered) { assert log[i] == if i < |a| then a[i] else b[i - |a|]; }
  }

  lemma AllJoined(a: seq<Path>, b: seq<Path>, x: Path)
    ensures x in All(a + b) <==> x in All(a) || x in All(b)
  {
    var ps := a + b;
    if i :| 0 <= i < |a| && a[i] == x { assert ps[i] == x; }
    if j :| 0 <= j < |b| && b[j] == x { assert ps[|a| + j] == x; }
  }

  /** The directories that the walk entered, but for those to keep. */
  lemma {:induction false} DirsAreEntered(w: World, keep: set<Path>, stack: set<nat>, p: Path, e: Entry, x: Path)
    requires WorldOk(w) && Known(w, e)
    ensures x in All(Dirs(w, keep, stack, p, e)) <==> Enters(Full(w, stack, p, e), x) && x !in keep
    decreases w.dirs.Keys - stack, e, 1
  {
    if w.excluded(p) {
    } else if e.Dir? && e.id !in w.otherDevice {
      DirIsEntered(w, keep, stack, p, e.entries, x);
    } else if IsDirLink(w, e) && e.target.what.id !in stack {
      DirIsEntered(w, keep, stack + {e.target.what.id}, p, w.dirs[e.target.what.id], x);
    }
  }

  lemma {:induction false} DirIsEntered(w: World, keep: set<Path>, stack: set<nat>, p: Path, es: seq<Entry>, x: Path)
    requires WorldOk(w) && AllKnown(w, es)
    ensures x in All(DirsOf(w, keep, stack, p, es)) <==> Enters(FullDir(w, stack, p, es), x) && x !in keep
    decreases w.dirs.Keys - stack, es, |es| + 1
  {
    if !w.failing(p) {
      FromIsEntered(w, keep, stack, p, es, 0, x);
      EntersJoined([Event(p, Entered)], FullFrom(w, stack, p, es, 0), x);
      AllJoined(DirsFrom(w, keep, stack, p, es, 0), if p in keep then [] else [p], x);
      assert [Event(p, Entered)][0] == Event(p, Entered) && [p][0] == p;
    }
  }

  lemma {:induction false} FromIsEntered(
    w: World, keep: set<Path>, stack: set<nat>, p: Path, es: seq<Entry>, k: nat, x: Path
  )
    requires WorldOk(w) && k <= |es| && AllKnown(w, es)
    ensures x in All(DirsFrom(w, keep, stack, p, es, k)) <==> Enters(FullFrom(w, stack, p, es, k), x) && x !in keep
    decreases w.dirs.Keys - stack, es, |es| - k
  {
    if k < |es| {
      DirsAreEntered(w, keep, stack, p + [k], es[k], x);
      FromIsEntered(w, keep, stack, p, es, k + 1, x);
      EntersJoined(Full(w, stack, p + [k], es[k]), FullFrom(w, stack, p, es, k + 1), x);
      AllJoined(Dirs(w, keep, stack, p + [k], es[k]), DirsFrom(w, keep, stack, p, es, k + 1), x);
    }
  }
}
