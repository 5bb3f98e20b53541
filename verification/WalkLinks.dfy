/** What the walk does with each kind of entry, and that it stays in the source tree:
    internal/engine/walk.go:137-301. */
module WalkLinks {
  import opened Walk

  // ---- Each kind of entry ----

  lemma FileOutcome(w: World, stack: set<nat>, p: Path)
    requires WorldOk(w) && !w.excluded(p)
    ensures Full(w, stack, p, File) == [Event(p, Regular)]
    ensures Full(w, stack, p, Special) == [Event(p, Skipped)]
  {
  }

  /** What --exclude names is passed over, whatever it is. */
  lemma ExcludedOutcome(w: World, stack: set<nat>, p: Path, e: Entry)
    requires WorldOk(w) && Known(w, e) && w.excluded(p)
    ensures Full(w, stack, p, e) == []
  {
  }

  /** A directory is entered unless it is another device's or cannot be made or read. */
  lemma DirOutcome(w: World, stack: set<nat>, p: Path, id: nat, es: seq<Entry>)
    requires WorldOk(w) && Known(w, Dir(id, es)) && !w.excluded(p)
    ensures var log := Full(w, stack, p, Dir(id, es));
            if id in w.otherDevice then log == [Event(p, Mount)]
            else if w.failing(p) then log == [Event(p, Failed)]
            else log != [] && log[0] == Event(p, Entered)
  {
  }

  /** A link is kept as a link where links are not followed, where it leads nowhere, and where it leads out of the
      source tree.  Inside the tree a file is copied through it, a directory entered unless the walk is in it
      already, and anything else skipped. */
  lemma LinkOutcome(w: World, stack: set<nat>, p: Path, t: Target)
    requires WorldOk(w) && Known(w, Link(t)) && !w.excluded(p)
    ensures var log := Full(w, stack, p, Link(t));
            if !w.follow || t == Dangling || !t.within then log == [Event(p, Recreated)]
            else if t.what == AFile then log == [Event(p, Regular)]
            else if t.what == AnyOther then log == [Event(p, Skipped)]
            else if t.what.id in stack then log == [Event(p, Looped)]
            else if w.failing(p) then log == [Event(p, Failed)]
            else log != [] && log[0] == Event(p, Entered)
  {
  }

  // ---- Containment ----

  datatype Spot = Nowhere | Here(e: Entry)

  /** Where rest leads from e in the file system, through any link to a directory there is. */
  function Leads(w: World, e: Entry, rest: Path): Spot
    requires WorldOk(w) && Known(w, e)
    decreases |rest|
  {
    if rest == [] then Here(e)
    else match e
         case Dir(_, es) => if rest[0] < |es| then Leads(w, es[rest[0]], rest[1..]) else Nowhere
         case Link(To(_, ADir(id))) =>
           if rest[0] < |w.dirs[id]| then Leads(w, w.dirs[id][rest[0]], rest[1..]) else Nowhere
         case _ => Nowhere
  }

  /** The walk may go on below e at path q: a directory of this device, or, where links are followed, a link to a
      directory of the source tree; not excluded, and it could be read. */
  predicate Passable(w: World, q: Path, e: Entry) {
    && !w.excluded(q) && !w.failing(q)
    && (if e.Dir? then e.id !in w.otherDevice else e.Link? && w.follow && LeadsInto(e.target))
  }

  predicate LeadsInto(t: Target) {
    t.To? && t.within && t.what.ADir?
  }

  /** Every place above rest, down from e at p, is one the walk may go through, and rest leads somewhere. */
  predicate AllPassable(w: World, p: Path, e: Entry, rest: Path)
    requires WorldOk(w) && Known(w, e)
  {
    && Leads(w, e, rest).Here?
    && forall k :: 0 <= k < |rest| ==>
      Leads(w, e, rest[..k]).Here? && Passable(w, p + rest[..k], Leads(w, e, rest[..k]).e)
  }

  /** es is the listing behind e. */
  predicate Lists(w: World, e: Entry, es: seq<Entry>) {
    match e
    case Dir(_, xs) => es == xs
    case Link(To(_, ADir(id))) => id in w.dirs && es == w.dirs[id]
    case _ => false
  }

  lemma StepIn(w: World, e: Entry, es: seq<Entry>, rest: Path)
    requires WorldOk(w) && Known(w, e) && AllKnown(w, es) && Lists(w, e, es) && rest != [] && rest[0] < |es|
    ensures Leads(w, e, rest) == Leads(w, es[rest[0]], rest[1..])
  {
  }

  lemma OneStepDown(w: World, p: Path, e: Entry, es: seq<Entry>, rest: Path)
    requires WorldOk(w) && Known(w, e) && AllKnown(w, es) && rest != [] && rest[0] < |es|
    requires Passable(w, p, e) && Lists(w, e, es)
    requires AllPassable(w, p + [rest[0]], es[rest[0]], rest[1..])
    ensures AllPassable(w, p, e, rest)
  {
    StepIn(w, e, es, rest);
    forall k | 0 <= k < |rest|
      ensures Leads(w, e, rest[..k]).Here? && Passable(w, p + rest[..k], Leads(w, e, rest[..k]).e)
    {
      if k == 0 {
        assert rest[..0] == [] && p + [] == p;
      } else {
        assert rest[..k][0] == rest[0] && rest[..k][1..] == rest[1..][..k - 1];
        StepIn(w, e, es, rest[..k]);
        assert p + [rest[0]] + rest[1..][..k - 1] == p + rest[..k];
      }
    }
  }

  lemma {:induction false} Contained(w: World, stack: set<nat>, p: Path, e: Entry, i: nat)
    requires WorldOk(w) && Known(w, e) && i < |Full(w, stack, p, e)|
    ensures var x := Full(w, stack, p, e)[i].path; p <= x && AllPassable(w, p, e, x[|p|..])
    decreases w.dirs.Keys - stack, e, 1
  {
    if w.excluded(p) {
    } else if e.Dir? && e.id !in w.otherDevice {
      DirContained(w, stack, p, e, e.entries, i);
    } else if IsDirLink(w, e) && e.target.what.id !in stack {
      DirContained(w, stack + {e.target.what.id}, p, e, w.dirs[e.target.what.id], i);
    }
  }

  lemma {:induction false} DirContained(w: World, stack: set<nat>, p: Path, e: Entry, es: seq<Entry>, i: nat)
    requires WorldOk(w) && Known(w, e) && AllKnown(w, es) && i < |FullDir(w, stack, p, es)|
    requires !w.failing(p) ==> Passable(w, p, e)
    requires Lists(w, e, es)
    ensures var x := FullDir(w, stack, p, es)[i].path; p <= x && AllPassable(w, p, e, x[|p|..])
    decreases w.dirs.Keys - stack, es, |es| + 1
  {
    if i == 0 {
      assert p[|p|..] == [];
    } else {
      FromContained(w, stack, p, e, es, 0, i - 1);
    }
  }

  lemma {:induction false} FromContained(
    w: World, stack: set<nat>, p: Path, e: Entry, es: seq<Entry>, k: nat, i: nat
  )
    requires WorldOk(w) && Known(w, e) && AllKnown(w, es) && k <= |es| && i < |FullFrom(w, stack, p, es, k)|
    requires Passable(w, p, e)
    requires Lists(w, e, es)
    ensures var x := FullFrom(w, stack, p, es, k)[i].path; p <= x && AllPassable(w, p, e, x[|p|..])
    decreases w.dirs.Keys - stack, es, |es| - k
  {
    var part := Full(w, stack, p + [k], es[k]);
    if i < |part| {
      Contained(w, stack, p + [k], es[k], i);
      var x := part[i].path;
      assert x[..|p| + 1] == p + [k] && x[..|p|] == (p + [k])[..|p|] == p;
      assert x[|p|..][0] == k && x[|p|..][1..] == x[|p| + 1..];
      OneStepDown(w, p, e, es, x[|p|..]);
    } else {
      FromContained(w, stack, p, e, es, k + 1, i - |part|);
    }
  }

  /** Nothing is met below what the walk must not go through: every entry on the way to a path met is a directory of
      this device or, where links are followed, a link to a directory within the source root; none is excluded.  So
      no content from outside the source root is met. */
  lemma StaysInside(w: World, e: Entry, i: nat, k: nat)
    requires WorldOk(w) && Known(w, e) && i < |Full(w, {}, [], e)| && k < |Full(w, {}, [], e)[i].path|
    ensures var q := Full(w, {}, [], e)[i].path[..k];
            && !w.excluded(q) && !w.failing(q) && Leads(w, e, q).Here?
            && var d := Leads(w, e, q).e;
               if d.Dir? then d.id !in w.otherDevice
               else d.Link? && w.follow && d.target.To? && d.target.within && d.target.what.ADir?
  {
    Contained(w, {}, [], e, i);
    var x := Full(w, {}, [], e)[i].path;
    assert x[0..] == x && [] + x[..k] == x[..k];
  }
}
