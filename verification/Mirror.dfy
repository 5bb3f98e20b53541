/** The --mirror pass: internal/engine/mirror.go.  Paths are below a mirrored root, the same names on both sides. */
module Mirror {
  type Path = seq<nat>

  /** x is one of the paths in s, or lies below one. */
  predicate Under(x: Path, s: set<Path>) {
    exists k :: 0 <= k <= |x| && x[..k] in s
  }

  /** What is left when the paths in gone are removed with everything below them. */
  function Sweep(dest: set<Path>, gone: set<Path>): set<Path> {
    set x | x in dest && !Under(x, gone)
  }

  /** The entries of a directory. */
  function Children(dest: set<Path>, p: Path): set<Path> {
    set x | x in dest && |x| == |p| + 1 && p <= x
  }

  /** No counterpart in the source, though every directory above it, below p, has one: what the pass deletes. */
  predicate Extraneous(dest: set<Path>, src: set<Path>, p: Path, x: Path) {
    x in dest && p < x && x !in src && forall k :: |p| < k < |x| ==> x[..k] in src
  }

  function Doomed(dest: set<Path>, src: set<Path>, p: Path): set<Path> {
    set x | x in dest && Extraneous(dest, src, p, x)
  }

  /** A directory's entries are there only if the directory is. */
  predicate Closed(s: set<Path>) {
    forall x, k :: x in s && 0 <= k <= |x| ==> x[..k] in s
  }

  /** The tree below p is at most so high. */
  ghost predicate Within(dest: set<Path>, p: Path, height: nat) {
    forall x :: x in dest && p <= x ==> |x| <= |p| + height
  }

  /** The part of the doomed that lies at or below an entry in heads. */
  function Part(dest: set<Path>, src: set<Path>, p: Path, heads: set<Path>): set<Path> {
    set x | x in Doomed(dest, src, p) && |x| > |p| && x[..|p| + 1] in heads
  }

  datatype Tally = Tally(dest: set<Path>, deleted: nat, failed: nat)

  predicate Swept(dest: set<Path>, left: set<Path>, doomed: set<Path>, stuck: set<Path>) {
    Sweep(dest, doomed) <= left <= Sweep(dest, doomed - stuck) && (Closed(dest) ==> Closed(left))
  }

  /** Exactly the doomed are counted and, in a real run, gone; those that will not go are failures, and what lies at
      or below one of them may be gone or left. */
  predicate Did(dry: bool, stuck: set<Path>, t: Tally, t': Tally, doomed: set<Path>) {
    if dry then t' == t.(deleted := t.deleted + |doomed|)
    else
      && Swept(t.dest, t'.dest, doomed, stuck)
      && t'.deleted == t.deleted + |doomed - stuck| && t'.failed == t.failed + |doomed * stuck|
  }

  lemma DidNothing(dry: bool, stuck: set<Path>, t: Tally)
    ensures Did(dry, stuck, t, t, {})
  {
    SweepNothing(t.dest);
    var none: set<Path> := {};
    assert none - stuck == none && none * stuck == none;
  }

  lemma NothingDoneYet(dry: bool, stuck: set<Path>, t: Tally, src: set<Path>, p: Path)
    ensures Did(dry, stuck, t, t, Part(t.dest, src, p, {}))
  {
    DidNothing(dry, stuck, t);
    assert Part(t.dest, src, p, {}) == {};
  }

  lemma DidBoth(dry: bool, stuck: set<Path>, t: Tally, t': Tally, t'': Tally, a: set<Path>, b: set<Path>)
    requires Did(dry, stuck, t, t', a) && Did(dry, stuck, t', t'', b) && a !! b
    ensures Did(dry, stuck, t, t'', a + b)
  {
    assert (a + b) - stuck == (a - stuck) + (b - stuck) && (a + b) * stuck == (a * stuck) + (b * stuck);
    SweepTwice(t.dest, a, b);
    SweepTwice(t.dest, a - stuck, b - stuck);
  }

  class Pass {
    const src: set<Path>        // Lstat in the source finds it
    const stuck: set<Path>      // RemoveAll fails, and may have removed a part
    const dry: bool
    var dest: set<Path>
    var deleted: nat
    var failed: nat

    constructor (src: set<Path>, dest: set<Path>, stuck: set<Path>, dry: bool)
      ensures this.src == src && this.stuck == stuck && this.dry == dry && Now() == Tally(dest, 0, 0)
    {
      this.src, this.dest, this.stuck, this.dry := src, dest, stuck, dry;
      deleted, failed := 0, 0;
    }

    function Now(): Tally
      reads this
    {
      Tally(dest, deleted, failed)
    }

    method MirrorDir(p: Path, ghost height: nat)
      requires Closed(dest) && Within(dest, p, height)
      modifies this
      ensures Did(dry, stuck, old(Now()), Now(), Doomed(old(dest), src, p))
      decreases height
    {
      ghost var was, t := dest, Now();
      var todo := Children(dest, p);
      ghost var done: set<Path> := {};
      NothingDoneYet(dry, stuck, t, src, p);
      while todo != {}
        invariant todo !! done && todo + done == Children(was, p)
        invariant Did(dry, stuck, t, Now(), Part(was, src, p, done))
      {
        var c :| c in todo;
        todo := todo - {c};
        MirrorEntry(was, p, done, c, height, t);
        done := done + {c};
      }
      PartIsAll(was, src, p);
    }

    /** One entry of the listing of p, taken when the destination was as in was; the entries in done had their turn. */
    method MirrorEntry(ghost was: set<Path>, p: Path, ghost done: set<Path>, c: Path, ghost height: nat, ghost t: Tally)
      requires Closed(was) && t.dest == was && c in Children(was, p) && c !in done
      requires Within(was, p, height)
      requires Did(dry, stuck, t, Now(), Part(was, src, p, done))
      modifies this
      ensures Did(dry, stuck, t, Now(), Part(was, src, p, done + {c}))
      decreases height, 0
    {
      ghost var part := Part(was, src, p, done);
      PartGrows(was, src, p, done, c);
      SweepElsewhere(was, src, p, part, done, dest, c);
      ghost var t' := Now();
      if c !in src {
        Remove(c);
        DidBoth(dry, stuck, t, t', Now(), part, {c});
      } else {
        MirrorDir(c, height - 1);
        DidBoth(dry, stuck, t, t', Now(), part, Doomed(was, src, c));
      }
    }

    method Remove(c: Path)
      requires Closed(dest)
      modifies this
      ensures Did(dry, stuck, old(Now()), Now(), {c})
    {
      if dry {
        deleted := deleted + 1;
      } else if c in stuck {
        assert {c} - stuck == {} && {c} * stuck == {c};
        SweepNothing(dest);
        var left :| Sweep(dest, {c}) <= left <= dest && Closed(left);
        dest := left;
        failed := failed + 1;
      } else {
        assert {c} - stuck == {c} && {c} * stuck == {};
        SweepClosed(dest, {c});
        dest := Sweep(dest, {c});
        deleted := deleted + 1;
      }
    }
  }

  lemma SweepNothing(dest: set<Path>)
    ensures Sweep(dest, {}) == dest
  {
  }

  lemma SweepTwice(dest: set<Path>, a: set<Path>, b: set<Path>)
    ensures Sweep(Sweep(dest, a), b) == Sweep(dest, a + b)
  {
  }

  lemma Prefixes(x: Path, k: nat, j: nat)
    requires j <= k <= |x|
    ensures x[..k][..j] == x[..j]
  {
  }

  /** An entry without counterpart is doomed itself; below one with a counterpart the doomed are those of its own
      pass. */
  lemma DoomedAt(dest: set<Path>, src: set<Path>, p: Path, c: Path, x: Path)
    requires c in Children(dest, p)
    ensures x in Doomed(dest, src, p) && |x| > |p| && x[..|p| + 1] == c <==>
            x in (if c !in src then {c} else Doomed(dest, src, c))
  {
    if c !in src {
      if x == c { assert x[..|p| + 1] == c; }
    } else {
      if x in Doomed(dest, src, c) {
        assert x[..|c|] == c;
        assert p < x by { Prefixes(x, |c|, |p|); }
      }
      if x in Doomed(dest, src, p) && x[..|p| + 1] == c { assert c <= x && x != c; }
    }
  }

  /** One more entry: itself if it is extraneous, else what is doomed below it. */
  lemma PartGrows(dest: set<Path>, src: set<Path>, p: Path, done: set<Path>, c: Path)
    requires c in Children(dest, p) && c !in done
    ensures var more := if c !in src then {c} else Doomed(dest, src, c);
            Part(dest, src, p, done + {c}) == Part(dest, src, p, done) + more && Part(dest, src, p, done) !! more
  {
    forall x ensures x in Doomed(dest, src, p) && |x| > |p| && x[..|p| + 1] == c <==>
      x in (if c !in src then {c} else Doomed(dest, src, c)) {
      DoomedAt(dest, src, p, c, x);
    }
  }

  /** What went from under other entries is not missed under this one. */
  lemma SweepElsewhere(
    dest: set<Path>, src: set<Path>, p: Path, gone: set<Path>, done: set<Path>, now: set<Path>, c: Path
  )
    requires Closed(dest) && c in Children(dest, p) && c !in done
    requires gone == Part(dest, src, p, done) && Sweep(dest, gone) <= now <= dest
    ensures c in now && Doomed(now, src, c) == Doomed(dest, src, c)
  {
    forall x | x in dest && c <= x ensures x in Sweep(dest, gone) {
      assert x[..|c|] == c;
      if k :| 0 <= k <= |x| && x[..k] in gone { Prefixes(x, k, |p| + 1); }
    }
  }

  lemma SweepClosed(dest: set<Path>, gone: set<Path>)
    requires Closed(dest)
    ensures Closed(Sweep(dest, gone))
  {
    forall x, k | x in Sweep(dest, gone) && 0 <= k <= |x| ensures x[..k] in Sweep(dest, gone) {
      if j :| 0 <= j <= k && x[..k][..j] in gone { Prefixes(x, k, j); }
    }
  }

  lemma PartIsAll(dest: set<Path>, src: set<Path>, p: Path)
    requires Closed(dest)
    ensures Part(dest, src, p, Children(dest, p)) == Doomed(dest, src, p)
  {
    forall x | x in Doomed(dest, src, p) ensures x in Part(dest, src, p, Children(dest, p)) {
      var c := x[..|p| + 1];
      assert c in dest && p <= c;
    }
  }

  // ---- What the pass means ----

  /** After a real pass without failures the destination has below its root exactly the entries that had a
      counterpart: nothing extraneous is left, and nothing the source has is lost. */
  lemma MirrorLeavesCounterparts(dest: set<Path>, src: set<Path>, x: Path)
    requires Closed(dest) && Closed(src) && x in dest && x != []
    ensures x in Sweep(dest, Doomed(dest, src, [])) <==> x in src
  {
    if x in src {
      forall k | 0 <= k <= |x| ensures x[..k] !in Doomed(dest, src, []) { assert x[..k] in src; }
    } else {
      var k := FirstMissing(src, x);
      assert x[..k] in dest && [] < x[..k];
      forall j | 0 < j < k ensures x[..k][..j] in src { Prefixes(x, k, j); }
      assert x[..k] in Doomed(dest, src, []);
    }
  }

  lemma FirstMissing(src: set<Path>, x: Path) returns (k: nat)
    requires x !in src && x != []
    ensures 0 < k <= |x| && x[..k] !in src && forall j :: 0 < j < k ==> x[..j] in src
  {
    k := 1;
    assert x[..|x|] == x;
    while x[..k] in src
      invariant 0 < k <= |x| && forall j :: 0 < j < k ==> x[..j] in src
      decreases |x| - k
    {
      k := k + 1;
    }
  }

  /** Entries that have counterparts make no difference to what is deleted. */
  lemma CopyingDoomsNothing(dest: set<Path>, copied: set<Path>, src: set<Path>, p: Path)
    requires copied <= src
    ensures Doomed(dest + copied, src, p) == Doomed(dest, src, p)
  {
  }

  /** Two sources mirrored onto one destination, as two directories of the same name are: only what both have is
      left. */
  lemma SharedDestinationIntersects(dest: set<Path>, src1: set<Path>, src2: set<Path>, x: Path)
    requires Closed(dest) && Closed(src1) && Closed(src2) && x in dest && x != []
    ensures var once := Sweep(dest, Doomed(dest, src1, []));
            x in Sweep(once, Doomed(once, src2, [])) <==> x in src1 && x in src2
  {
    var once := Sweep(dest, Doomed(dest, src1, []));
    SweepClosed(dest, Doomed(dest, src1, []));
    MirrorLeavesCounterparts(dest, src1, x);
    if x in once { MirrorLeavesCounterparts(once, src2, x); }
  }
}
