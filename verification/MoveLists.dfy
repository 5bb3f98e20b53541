/** The lists that a walk records for --move's last pass: each is fit for it.  With --move links are not followed. */
module MoveLists {
  import opened Walk
  import opened Mirror
  import opened Moves
  import opened MoveOrder

  /** The paths at and below entry e, which is at p. */
  function Paths(e: Entry, p: Path): set<Path>
    decreases e, 1
  {
    {p} + if e.Dir? then PathsFrom(e.entries, p, 0) else {}
  }

  function PathsFrom(es: seq<Entry>, p: Path, k: nat): set<Path>
    requires k <= |es|
    decreases es, |es| - k
  {
    if k == |es| then {} else Paths(es[k], p + [k]) + PathsFrom(es, p, k + 1)
  }

  /** Handled as a file or as a link: such an entry is recorded once it is at the destination. */
  predicate IsFiled(ev: Event) {
    ev.what.Regular? || ev.what.Recreated?
  }

  /** The files and links of a walk, in its order. */
  function Filed(log: seq<Event>): seq<Path> {
    if log == [] then []
    else
      var n := |log| - 1;
      Filed(log[..n]) + if IsFiled(log[n]) then [log[n].path] else []
  }

  lemma {:induction false} FiledJoined(a: seq<Event>, b: seq<Event>)
    ensures Filed(a + b) == Filed(a) + Filed(b)
  {
    if b == [] {
      assert a + b == a;
    } else {
      var n := |b| - 1;
      FiledJoined(a, b[..n]);
      assert (a + b)[..|a| + n] == a + b[..n] && (a + b)[|a| + n] == b[n];
    }
  }

  /** Recorded are the copied files and the recreated links, and nothing else. */
  lemma {:induction false} FiledExactly(log: seq<Event>, x: Path)
    ensures x in Filed(log) <==> Event(x, Regular) in log || Event(x, Recreated) in log
  {
    if log != [] {
      var n := |log| - 1;
      FiledExactly(log[..n], x);
      assert log == log[..n] + [log[n]];
    }
  }

  // ---- The tree ----

  /** All below p, and from its entry k on. */
  predicate SetFrom(s: set<Path>, p: Path, k: nat) {
    forall x :: x in s ==> |x| > |p| && Above(p, x) && k <= x[|p|]
  }

  lemma {:induction false} PathsAreBelow(e: Entry, p: Path)
    ensures forall x :: x in Paths(e, p) ==> Above(p, x)
    decreases e, 1
  {
    if e.Dir? { PathsAreFrom(e.entries, p, 0); }
  }

  lemma {:induction false} PathsAreFrom(es: seq<Entry>, p: Path, k: nat)
    requires k <= |es|
    ensures SetFrom(PathsFrom(es, p, k), p, k)
    decreases es, |es| - k
  {
    if k < |es| {
      PathsAreBelow(es[k], p + [k]);
      PathsAreFrom(es, p, k + 1);
      forall x | x in Paths(es[k], p + [k]) ensures |x| > |p| && Above(p, x) && k == x[|p|] { InEntry(p, k, x); }
    }
  }

  lemma InEntry(p: Path, k: nat, x: Path)
    requires Above(p + [k], x)
    ensures |x| > |p| && Above(p, x) && x[|p|] == k
  {
    assert x[..|p| + 1] == p + [k];
    assert x[..|p|] == (p + [k])[..|p|] == p && x[|p|] == (p + [k])[|p|];
  }

  /** Each path's ancestors down from p are there. */
  predicate ClosedFrom(s: set<Path>, n: nat) {
    forall x, k :: x in s && n <= k <= |x| ==> x[..k] in s
  }

  lemma {:induction false} PathsAreClosed(e: Entry, p: Path)
    ensures ClosedFrom(Paths(e, p), |p|)
    decreases e, 1
  {
    PathsAreBelow(e, p);
    if e.Dir? {
      ListingIsClosed(e.entries, p, 0);
      PathsAreFrom(e.entries, p, 0);
    }
    forall x, k | x in Paths(e, p) && |p| <= k <= |x| ensures x[..k] in Paths(e, p) {
      if k == |p| { assert x[..k] == p; }
    }
  }

  lemma {:induction false} ListingIsClosed(es: seq<Entry>, p: Path, k: nat)
    requires k <= |es|
    ensures ClosedFrom(PathsFrom(es, p, k), |p| + 1)
    decreases es, |es| - k
  {
    if k < |es| {
      PathsAreClosed(es[k], p + [k]);
      ListingIsClosed(es, p, k + 1);
    }
  }

  // ---- The recorded files ----

  /** Each is in the tree, with nothing below it. */
  predicate LeavesOf(fs: seq<Path>, tree: set<Path>) {
    && (forall i :: 0 <= i < |fs| ==> fs[i] in tree)
    && (forall i, y :: 0 <= i < |fs| && y in tree && Above(fs[i], y) ==> y == fs[i])
  }

  /** Files and directories of the tree, none of them both. */
  predicate Apart(fs: seq<Path>, ds: seq<Path>, tree: set<Path>) {
    && (forall j :: 0 <= j < |ds| ==> ds[j] in tree)
    && (forall i, j :: 0 <= i < |fs| && 0 <= j < |ds| ==> fs[i] != ds[j])
  }

  ghost predicate Fit(fs: seq<Path>, ds: seq<Path>, tree: set<Path>) {
    BottomUp(fs) && LeavesOf(fs, tree) && Apart(fs, ds, tree)
  }

  lemma {:induction false} FilesAreFit(w: World, keep: set<Path>, p: Path, e: Entry)
    requires WorldOk(w) && Known(w, e) && !w.follow
    ensures var fs := Filed(Full(w, {}, p, e)); Fit(fs, Dirs(w, keep, {}, p, e), Paths(e, p)) && AllBelow(fs, p)
    decreases e, 2
  {
    if w.excluded(p) {
    } else if e.Dir? && e.id !in w.otherDevice {
      DirIsFit(w, keep, p, e);
    } else {
      OneIsFit(w, p, e);
    }
  }

  lemma OneIsFit(w: World, p: Path, e: Entry)
    requires WorldOk(w) && Known(w, e) && !w.follow && (e.Dir? ==> e.id in w.otherDevice)
    ensures var fs := Filed([Event(p, Plain(w, e))]); Fit(fs, [], Paths(e, p)) && AllBelow(fs, p)
  {
    var log := [Event(p, Plain(w, e))];
    assert log[..0] == [];
    assert Filed(log) == if IsFiled(log[0]) then [p] else [];
  }

  lemma {:induction false} DirIsFit(w: World, keep: set<Path>, p: Path, e: Entry)
    requires WorldOk(w) && Known(w, e) && !w.follow && e.Dir?
    ensures var fs := Filed(FullDir(w, {}, p, e.entries));
            Fit(fs, DirsOf(w, keep, {}, p, e.entries), Paths(e, p)) && AllBelow(fs, p)
    decreases e, 1
  {
    var head := [Event(p, if w.failing(p) then Failed else Entered)];
    assert head[..0] == [] && Filed(head) == [];
    if !w.failing(p) {
      var log := FullFrom(w, {}, p, e.entries, 0);
      FromIsFit(w, keep, p, e.entries, 0);
      FiledJoined(head, log);
      assert Filed(head + log) == Filed(log);
      WithItself(Filed(log), DirsFrom(w, keep, {}, p, e.entries, 0), PathsFrom(e.entries, p, 0), p, keep);
    }
  }

  /** The directory itself is above its files and none of them. */
  lemma WithItself(fs: seq<Path>, ds: seq<Path>, tree: set<Path>, p: Path, keep: set<Path>)
    requires Fit(fs, ds, tree) && AllFrom(fs, p, 0)
    ensures Fit(fs, ds + if p in keep then [] else [p], {p} + tree) && AllBelow(fs, p)
  {
  }

  lemma {:induction false} FromIsFit(w: World, keep: set<Path>, p: Path, es: seq<Entry>, k: nat)
    requires WorldOk(w) && k <= |es| && AllKnown(w, es) && !w.follow
    ensures var fs := Filed(FullFrom(w, {}, p, es, k));
            Fit(fs, DirsFrom(w, keep, {}, p, es, k), PathsFrom(es, p, k)) && AllFrom(fs, p, k)
    decreases es, |es| - k
  {
    if k < |es| {
      FilesAreFit(w, keep, p + [k], es[k]);
      FromIsFit(w, keep, p, es, k + 1);
      FiledJoined(Full(w, {}, p + [k], es[k]), FullFrom(w, {}, p, es, k + 1));
      PathsAreBelow(es[k], p + [k]);
      PathsAreFrom(es, p, k + 1);
      TwoFit(Filed(Full(w, {}, p + [k], es[k])), Dirs(w, keep, {}, p + [k], es[k]), Paths(es[k], p + [k]),
             Filed(FullFrom(w, {}, p, es, k + 1)), DirsFrom(w, keep, {}, p, es, k + 1), PathsFrom(es, p, k + 1), p, k);
    }
  }

  /** What is recorded of one entry and what is recorded of the later ones. */
  lemma TwoFit(fa: seq<Path>, da: seq<Path>, ta: set<Path>, fb: seq<Path>, db: seq<Path>, tb: set<Path>, p: Path,
      k: nat)
    requires Fit(fa, da, ta) && AllBelow(fa, p + [k]) && (forall x :: x in ta ==> Above(p + [k], x))
    requires Fit(fb, db, tb) && AllFrom(fb, p, k + 1) && SetFrom(tb, p, k + 1)
    ensures Fit(fa + fb, da + db, ta + tb) && AllFrom(fa + fb, p, k)
  {
    Deeper(fa, p, k);
    forall x, y | x in ta && y in tb ensures !Above(x, y) && !Above(y, x) {
      InEntry(p, k, x);
      Elsewhere(x, y, |p|);
      Elsewhere(y, x, |p|);
    }
    forall i, j | 0 <= i < |fa| && 0 <= j < |fb| ensures !Above(fa[i], fb[j]) {}
    BottomUpJoined(fa, fb);
  }

  // ---- The lists ----

  lemma AllAreIn(ps: seq<Path>)
    ensures forall x :: x in All(ps) <==> x in multiset(ps)
  {
  }

  lemma {:induction false} OnceEach(ps: seq<Path>, x: Path)
    requires BottomUp(ps)
    ensures multiset(ps)[x] <= 1
  {
    if ps != [] {
      var n := |ps| - 1;
      var init := ps[..n];
      assert ps == init + [ps[n]];
      forall i, j | 0 <= i < j < |init| ensures !Above(init[i], init[j]) { assert !Above(ps[i], ps[j]); }
      OnceEach(init, x);
      if x == ps[n] {
        forall i | 0 <= i < n ensures init[i] != x { assert !Above(ps[i], ps[n]); }
        assert x !in init;
      }
    }
  }

  /** Leaves without repetition are bottom-up in any order. */
  lemma AnyOrder(fs: seq<Path>, files: seq<Path>, tree: set<Path>)
    requires BottomUp(fs) && LeavesOf(fs, tree) && multiset(files) == multiset(fs)
    ensures BottomUp(files) && LeavesOf(files, tree) && All(files) == All(fs)
  {
    AllAreIn(fs);
    AllAreIn(files);
    forall i | 0 <= i < |files| ensures exists j :: 0 <= j < |fs| && fs[j] == files[i] {
      assert files[i] in multiset(files);
    }
    forall i, j | 0 <= i < j < |files| ensures files[i] != files[j] {
      OnceEach(fs, files[i]);
      var a, b := files[..j], files[j..];
      assert files == a + b && a[i] == files[i] && b[0] == files[j];
      assert multiset(files)[files[i]] == multiset(a)[files[i]] + multiset(b)[files[i]];
      assert files[i] in multiset(a) && files[j] in multiset(b);
    }
  }

  /** Whatever tree is walked, and however the workers order the files: the lists are what the pass needs. */
  lemma WalkRecords(w: World, keep: set<Path>, e: Entry, files: seq<Path>)
    requires WorldOk(w) && Known(w, e) && !w.follow && multiset(files) == multiset(Filed(Full(w, {}, [], e)))
    ensures Closed(Paths(e, [])) && Recorded(Paths(e, []), files, Dirs(w, keep, {}, [], e))
  {
    var fs, ds, tree := Filed(Full(w, {}, [], e)), Dirs(w, keep, {}, [], e), Paths(e, []);
    PathsAreClosed(e, []);
    FilesAreFit(w, keep, [], e);
    DirsAreBottomUp(w, keep, {}, [], e);
    AnyOrder(fs, files, tree);
    forall i | 0 <= i < |files| ensures files[i] in tree && Leaf(tree, files[i]) {
      forall x | x in Children(tree, files[i]) ensures false { assert Above(files[i], x); }
    }
    forall i | 0 <= i < |ds| ensures ds[i] in tree && ds[i] !in All(files) {
      forall j | 0 <= j < |fs| ensures fs[j] != ds[i] {}
    }
  }
}
