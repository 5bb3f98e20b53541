/** --move's last pass: the removal of what was moved, internal/engine/move.go.  Paths are those below one source
    root. */
module Moves {
  import opened Mirror

  // ---- What is left ----

  /** y stays for a reason of its own: it was not moved, or it cannot go. */
  predicate Held(moved: set<Path>, stays: set<Path>, y: Path) {
    y !in moved || y in stays
  }

  /** The paths that stay for a reason of their own, and the directories above them. */
  function Rest(src: set<Path>, moved: set<Path>, stays: set<Path>): set<Path> {
    set x | x in src && exists y :: y in src && x <= y && Held(moved, stays, y)
  }

  /** Something below p is left. */
  predicate KeptBelow(rest: set<Path>, p: Path) {
    exists y :: y in rest && p < y
  }

  /** What a removal has to report: the source is the destination, or it did not go with nothing left below it. */
  predicate Reports(same: set<Path>, rest: set<Path>, p: Path) {
    p in same || (p in rest && !KeptBelow(rest, p))
  }

  predicate Above(x: Path, y: Path) {
    x <= y
  }

  /** Nothing comes before what lies below it, and nothing twice. */
  predicate BottomUp(ps: seq<Path>) {
    forall i, j {:trigger Above(ps[i], ps[j])} :: 0 <= i < j < |ps| ==> !Above(ps[i], ps[j])
  }

  function All(ps: seq<Path>): set<Path> {
    set i | 0 <= i < |ps| :: ps[i]
  }

  predicate Leaf(src: set<Path>, p: Path) {
    Children(src, p) == {}
  }

  /** A list whose removal can take all of it. */
  predicate Ordered(src: set<Path>, ps: seq<Path>) {
    Closed(src) && BottomUp(ps) && All(ps) <= src
  }

  predicate PartOf(part: seq<Path>, ps: seq<Path>, n: nat) {
    n + |part| <= |ps| && forall k :: 0 <= k < |part| ==> part[k] == ps[n + k]
  }

  /** Files have nothing below them, and walk order has a directory after its entries. */
  predicate Recorded(src: set<Path>, files: seq<Path>, dirs: seq<Path>) {
    && BottomUp(files) && BottomUp(dirs)
    && (forall i :: 0 <= i < |files| ==> files[i] in src && Leaf(src, files[i]))
    && (forall i :: 0 <= i < |dirs| ==> dirs[i] in src && dirs[i] !in All(files))
  }

  datatype Outcome = Outcome(src: set<Path>, removed: nat, failed: nat)

  /** One path's turn. */
  function Next(t: Outcome, p: Path, goes: bool, reports: bool): Outcome {
    Outcome(if goes then t.src - {p} else t.src, t.removed + (if goes then 1 else 0),
            t.failed + (if reports then 1 else 0))
  }

  /** When the first k of the moved have had their turn: each went unless it is among the rest. */
  function After(src: set<Path>, ps: seq<Path>, same: set<Path>, stuck: set<Path>, k: nat): Outcome
    requires k <= |ps|
  {
    if k == 0 then Outcome(src, 0, 0)
    else
      var p, rest := ps[k - 1], Rest(src, All(ps), same + stuck);
      Next(After(src, ps, same, stuck, k - 1), p, p !in rest, Reports(same, rest, p))
  }

  function Failing(ps: seq<Path>, same: set<Path>, rest: set<Path>): set<Path> {
    set p | p in All(ps) && Reports(same, rest, p)
  }

  class Removal {
    const same: set<Path>       // the destination is the source entry itself
    const stuck: set<Path>      // Remove fails
    var src: set<Path>
    var removed: nat
    var failed: nat

    constructor (src: set<Path>, same: set<Path>, stuck: set<Path>)
      ensures this.same == same && this.stuck == stuck && Now() == Outcome(src, 0, 0)
    {
      this.src, this.same, this.stuck, removed, failed := src, same, stuck, 0, 0;
    }

    function Now(): Outcome
      reads this
    {
      Outcome(src, removed, failed)
    }

    /** A directory goes only when it is empty. */
    method Remove(p: Path) returns (ok: bool)
      modifies `src
      ensures ok <==> p in old(src) && p !in stuck && Children(old(src), p) == {}
      ensures src == if ok then old(src) - {p} else old(src)
    {
      ok := p in src && p !in stuck && Children(src, p) == {};
      if ok { src := src - {p}; }
    }

    /** A directory that still has entries stays without a failure. */
    method RemoveSource(p: Path, dir: bool)
      modifies `src, `removed, `failed
      ensures var go := p !in same && p in old(src) && p !in stuck && Children(old(src), p) == {};
              var quiet := p !in same && dir && Children(old(src), p) != {};
              Now() == if go then Outcome(old(src) - {p}, old(removed) + 1, old(failed))
                       else if quiet then old(Now())
                       else old(Now()).(failed := old(failed) + 1)
    {
      if p in same {
        failed := failed + 1;
        return;
      }
      var ok := Remove(p);
      if ok {
        removed := removed + 1;
        return;
      }
      if dir && Children(src, p) != {} {
        return;
      }
      failed := failed + 1;
    }

    /** Files, then directories.  Unless it is interrupted, the pass leaves exactly the rest, and counts what went
        and what it has to report. */
    method RemoveMovedSources(files: seq<Path>, dirs: seq<Path>) returns (halted: bool)
      requires Closed(src) && Recorded(src, files, dirs) && removed == 0 && failed == 0
      modifies this
      ensures Rest(old(src), All(files + dirs), same + stuck) <= src <= old(src)
      ensures !halted ==>
        var rest := Rest(old(src), All(files + dirs), same + stuck);
        Now() == Outcome(rest, |old(src) - rest|, |Failing(files + dirs, same, rest)|)
    {
      ghost var was, ps := src, files + dirs;
      FilesFirst(was, files, dirs);
      ghost var n;
      halted, n := RemoveEach(files, false, was, ps, 0);
      if !halted {
        halted, n := RemoveEach(dirs, true, was, ps, n);
      }
      RestStays(was, ps, same, stuck, n, Now());
      if !halted {
        assert n == |ps|;
        AllTurns(was, ps, same, stuck);
      }
    }

    /** A part of the list, which starts at place n. */
    method RemoveEach(part: seq<Path>, dir: bool, ghost was: set<Path>, ghost ps: seq<Path>, ghost n: nat)
      returns (stopped: bool, ghost m: nat)
      requires Ordered(was, ps) && PartOf(part, ps, n) && (dir || forall i :: 0 <= i < |part| ==> Leaf(was, part[i]))
      requires Now() == After(was, ps, same, stuck, n)
      modifies this
      ensures m <= |ps| && Now() == After(was, ps, same, stuck, m)
      ensures !stopped ==> m == n + |part|
    {
      stopped, m := false, n;
      for k := 0 to |part|
        invariant m == n + k && !stopped
        invariant Now() == After(was, ps, same, stuck, m)
      {
        stopped := *;
        if stopped {
          return;
        }
        RemoveNext(part[k], dir, was, ps, m);
        m := m + 1;
      }
    }

    method RemoveNext(p: Path, dir: bool, ghost was: set<Path>, ghost ps: seq<Path>, ghost k: nat)
      requires Ordered(was, ps) && k < |ps| && p == ps[k] && (dir || Leaf(was, p))
      requires Now() == After(was, ps, same, stuck, k)
      modifies this
      ensures Now() == After(was, ps, same, stuck, k + 1)
    {
      Turn(was, ps, same, stuck, k, Now());
      assert !dir ==> Children(src, p) <= Children(was, p);
      RemoveSource(p, dir);
    }
  }

  lemma RestStays(src: set<Path>, ps: seq<Path>, same: set<Path>, stuck: set<Path>, n: nat, t: Outcome)
    requires n <= |ps| && BottomUp(ps) && t == After(src, ps, same, stuck, n)
    ensures Rest(src, All(ps), same + stuck) <= t.src <= src
  {
    AfterInAll(src, ps, same, stuck, n);
  }

  lemma ChildOnTheWay(src: set<Path>, p: Path, x: Path)
    requires Closed(src) && x in src && p != x
    ensures p <= x ==> x[..|p| + 1] in Children(src, p)
  {
    if p <= x { assert p <= x[..|p| + 1]; }
  }

  lemma FilesFirst(src: set<Path>, files: seq<Path>, dirs: seq<Path>)
    requires Closed(src) && Recorded(src, files, dirs)
    ensures Ordered(src, files + dirs) && PartOf(files, files + dirs, 0) && PartOf(dirs, files + dirs, |files|)
  {
    var ps := files + dirs;
    forall i, j | 0 <= i < j < |ps| ensures !Above(ps[i], ps[j]) {
      if j < |files| {
        assert !Above(files[i], files[j]);
      } else if i < |files| {
        assert files[i] in All(files);
        ChildOnTheWay(src, files[i], dirs[j - |files|]);
      } else {
        assert !Above(dirs[i - |files|], dirs[j - |files|]);
      }
    }
  }

  /** What path k finds when its turn comes: its directory is empty exactly if nothing below it stays. */
  lemma EmptyExactlyWhen(src: set<Path>, ps: seq<Path>, rest: set<Path>, k: nat, now: set<Path>, stays: set<Path>)
    requires Closed(src) && BottomUp(ps) && k < |ps| && ps[k] in src
    requires rest == Rest(src, All(ps), stays) && now == src - (All(ps[..k]) - rest)
    ensures ps[k] in now && (Children(now, ps[k]) == {} <==> !KeptBelow(rest, ps[k]))
  {
    var p := ps[k];
    NotYet(ps, k);
    forall c | c in Children(now, p) ensures c in rest {
      if c in All(ps) {
        HadItsTurn(ps, k, c);
      } else {
        assert Held(All(ps), stays, c);
      }
    }
    if y :| y in rest && p < y {
      BelowRest(src, All(ps), stays, y, |p| + 1);
      assert p <= y[..|p| + 1];
      assert y[..|p| + 1] in Children(now, p);
    }
    assert forall c :: c in Children(now, p) ==> p < c;
  }

  lemma HadItsTurn(ps: seq<Path>, k: nat, c: Path)
    requires BottomUp(ps) && k < |ps| && c in All(ps) && ps[k] < c
    ensures c in All(ps[..k])
  {
    var j :| 0 <= j < |ps| && ps[j] == c;
    assert Above(ps[k], ps[j]) && j != k;
    assert ps[..k][j] == c;
  }

  lemma NotYet(ps: seq<Path>, k: nat)
    requires BottomUp(ps) && k < |ps|
    ensures ps[k] !in All(ps[..k])
  {
    forall q | q in All(ps[..k]) ensures q != ps[k] {
      var j :| 0 <= j < k && ps[..k][j] == q;
      assert !Above(ps[j], ps[k]);
    }
  }

  /** A directory above something left is left. */
  lemma BelowRest(src: set<Path>, moved: set<Path>, stays: set<Path>, y: Path, n: nat)
    requires Closed(src) && y in Rest(src, moved, stays) && n <= |y|
    ensures y[..n] in Rest(src, moved, stays)
  {
    var z :| z in src && y <= z && Held(moved, stays, z);
    assert y[..n] == z[..n];
  }

  /** Path k goes exactly if it is not among the rest. */
  lemma Turn(src: set<Path>, ps: seq<Path>, same: set<Path>, stuck: set<Path>, k: nat, t: Outcome)
    requires Ordered(src, ps) && k < |ps|
    requires t == After(src, ps, same, stuck, k)
    ensures var p, rest := ps[k], Rest(src, All(ps), same + stuck);
            && p in t.src && t.src <= src
            && (p !in same && p !in stuck && Children(t.src, p) == {} <==> p !in rest)
            && (Reports(same, rest, p) <==> p in rest && (p in same || Children(t.src, p) == {}))
            && Next(t, p, p !in rest, Reports(same, rest, p)) == After(src, ps, same, stuck, k + 1)
  {
    var p, rest := ps[k], Rest(src, All(ps), same + stuck);
    assert p in All(ps);
    AfterInAll(src, ps, same, stuck, k);
    EmptyExactlyWhen(src, ps, rest, k, t.src, same + stuck);
    RestAt(src, All(ps), same + stuck, p);
  }

  /** What k turns come to: the paths that went are those not among the rest, and each is counted; so is each that
      reports. */
  predicate InAll(src: set<Path>, ps: seq<Path>, same: set<Path>, rest: set<Path>, k: nat, t: Outcome)
    requires k <= |ps|
  {
    && t.src == src - (All(ps[..k]) - rest)
    && t.removed == |All(ps[..k]) - rest|
    && t.failed == |Failing(ps[..k], same, rest)|
  }

  lemma {:induction false} AfterInAll(src: set<Path>, ps: seq<Path>, same: set<Path>, stuck: set<Path>, k: nat)
    requires BottomUp(ps) && k <= |ps|
    ensures InAll(src, ps, same, Rest(src, All(ps), same + stuck), k, After(src, ps, same, stuck, k))
  {
    var rest := Rest(src, All(ps), same + stuck);
    if k == 0 {
      NoneYet(src, ps, same, rest);
    } else {
      AfterInAll(src, ps, same, stuck, k - 1);
      NextInAll(src, ps, same, rest, k, After(src, ps, same, stuck, k - 1));
    }
  }

  lemma NoneYet(src: set<Path>, ps: seq<Path>, same: set<Path>, rest: set<Path>)
    ensures InAll(src, ps, same, rest, 0, Outcome(src, 0, 0))
  {
    assert All(ps[..0]) == {} && Failing(ps[..0], same, rest) == {};
  }

  lemma NextInAll(src: set<Path>, ps: seq<Path>, same: set<Path>, rest: set<Path>, k: nat, t: Outcome)
    requires BottomUp(ps) && 0 < k <= |ps| && InAll(src, ps, same, rest, k - 1, t)
    ensures InAll(src, ps, same, rest, k, Next(t, ps[k - 1], ps[k - 1] !in rest, Reports(same, rest, ps[k - 1])))
  {
    GoneGrow(ps, k, rest);
    FailingGrows(ps, k, same, rest);
  }

  lemma GoneGrow(ps: seq<Path>, k: nat, rest: set<Path>)
    requires BottomUp(ps) && 0 < k <= |ps|
    ensures All(ps[..k]) - rest == (All(ps[..k - 1]) - rest) + (if ps[k - 1] in rest then {} else {ps[k - 1]})
    ensures |All(ps[..k]) - rest| == |All(ps[..k - 1]) - rest| + (if ps[k - 1] in rest then 0 else 1)
  {
    OneMore(ps, k);
    assert All(ps[..k]) - rest == (All(ps[..k - 1]) - rest) + (if ps[k - 1] in rest then {} else {ps[k - 1]});
  }

  /** A path is left for its own reason or for what is left below it. */
  lemma RestAt(src: set<Path>, moved: set<Path>, stays: set<Path>, p: Path)
    requires Closed(src) && p in src
    ensures p in Rest(src, moved, stays) <==> Held(moved, stays, p) || KeptBelow(Rest(src, moved, stays), p)
  {
    var rest := Rest(src, moved, stays);
    if p in rest && !Held(moved, stays, p) {
      var y :| y in src && p <= y && Held(moved, stays, y);
      assert y[..|p|] == p && (|y| == |p| ==> y == p);
      assert y in rest && p < y;
    }
    if y :| y in rest && p < y {
      var z :| z in src && y <= z && Held(moved, stays, z);
      assert p <= z;
    }
  }

  lemma OneMore(ps: seq<Path>, k: nat)
    requires BottomUp(ps) && 0 < k <= |ps|
    ensures All(ps[..k]) == All(ps[..k - 1]) + {ps[k - 1]} && ps[k - 1] !in All(ps[..k - 1])
  {
    assert ps[..k] == ps[..k - 1] + [ps[k - 1]];
    forall p | p in All(ps[..k - 1]) ensures p in All(ps[..k]) {
      var j :| 0 <= j < k - 1 && ps[..k - 1][j] == p;
      assert ps[..k][j] == p;
    }
    assert ps[..k][k - 1] == ps[k - 1];
    NotYet(ps, k - 1);
  }

  lemma FailingGrows(ps: seq<Path>, k: nat, same: set<Path>, rest: set<Path>)
    requires BottomUp(ps) && 0 < k <= |ps|
    ensures Failing(ps[..k], same, rest) ==
            Failing(ps[..k - 1], same, rest) + (if Reports(same, rest, ps[k - 1]) then {ps[k - 1]} else {})
    ensures |Failing(ps[..k], same, rest)| ==
            |Failing(ps[..k - 1], same, rest)| + (if Reports(same, rest, ps[k - 1]) then 1 else 0)
  {
    OneMore(ps, k);
    assert Failing(ps[..k], same, rest) ==
           Failing(ps[..k - 1], same, rest) + (if Reports(same, rest, ps[k - 1]) then {ps[k - 1]} else {});
  }

  lemma AllTurns(src: set<Path>, ps: seq<Path>, same: set<Path>, stuck: set<Path>)
    requires Ordered(src, ps)
    ensures var rest := Rest(src, All(ps), same + stuck);
            After(src, ps, same, stuck, |ps|) == Outcome(rest, |src - rest|, |Failing(ps, same, rest)|)
  {
    var rest := Rest(src, All(ps), same + stuck);
    AfterInAll(src, ps, same, stuck, |ps|);
    assert ps[..|ps|] == ps;
    OthersStay(src, All(ps), same + stuck);
    assert src - (All(ps) - rest) == rest && All(ps) - rest == src - rest;
  }

  /** What was not moved is left. */
  lemma OthersStay(src: set<Path>, moved: set<Path>, stays: set<Path>)
    ensures forall x :: x in src && x !in moved ==> x in Rest(src, moved, stays)
  {
    forall x | x in src && x !in moved ensures x in Rest(src, moved, stays) {
      assert x <= x && Held(moved, stays, x);
    }
  }
}
