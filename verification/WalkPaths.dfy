/** Which paths the walk meets: said by following each path alone, with no stack and no order. */
module WalkPaths {
  import opened Walk

  datatype Found = Nowhere | At(chain: seq<nat>, e: Entry)

  /** The walk goes into entry e at path p, having come through the links to the directories in chain. */
  predicate Opens(w: World, chain: seq<nat>, e: Entry) {
    (e.Dir? && e.id !in w.otherDevice) || (IsDirLink(w, e) && e.target.what.id !in chain)
  }

  function Through(w: World, chain: seq<nat>, e: Entry): seq<nat> {
    if IsDirLink(w, e) then chain + [e.target.what.id] else chain
  }

  function Inside(w: World, e: Entry): (es: seq<Entry>)
    requires WorldOk(w) && Known(w, e) && (e.Dir? || IsDirLink(w, e))
    ensures AllKnown(w, es)
  {
    if e.Dir? then e.entries else w.dirs[e.target.what.id]
  }

  /** Where the components in rest lead from entry e at path p: through directories and links to directories, never
      twice into one directory through links. */
  function Follow(w: World, chain: seq<nat>, p: Path, e: Entry, rest: Path): Found
    requires WorldOk(w) && Known(w, e)
    decreases |rest|
  {
    if w.excluded(p) then Nowhere
    else if rest == [] then At(chain, e)
    else if !Opens(w, chain, e) || w.failing(p) || rest[0] >= |Inside(w, e)| then Nowhere
    else Follow(w, Through(w, chain, e), p + [rest[0]], Inside(w, e)[rest[0]], rest[1..])
  }

  /** What the walk does at the end of a path. */
  function OutcomeAt(w: World, p: Path, found: Found): Outcome
    requires found.At?
  {
    if !Opens(w, found.chain, found.e) then Plain(w, found.e) else if w.failing(p) then Failed else Entered
  }

  predicate Meets(w: World, chain: seq<nat>, p: Path, e: Entry, ev: Event)
    requires WorldOk(w) && Known(w, e)
  {
    p <= ev.path
    && (var found := Follow(w, chain, p, e, ev.path[|p|..]); found.At? && OutcomeAt(w, ev.path, found) == ev.what)
  }

  function Times(s: seq<Event>, x: Event): nat {
    if s == [] then 0 else (if s[0] == x then 1 else 0) + Times(s[1..], x)
  }

  lemma {:induction false} TimesCat(s: seq<Event>, t: seq<Event>, x: Event)
    ensures Times(s + t, x) == Times(s, x) + Times(t, x)
  {
    if s == [] {
      assert s + t == t;
    } else {
      TimesCat(s[1..], t, x);
      assert (s + t)[1..] == s[1..] + t;
    }
  }

  function StackOf(chain: seq<nat>): set<nat> {
    set x | x in chain
  }

  /** Each path below e is met once if it can be followed, with the outcome its end has, and not at all otherwise. */
  lemma {:induction false} FullMeets(w: World, chain: seq<nat>, p: Path, e: Entry, ev: Event)
    requires WorldOk(w) && Known(w, e)
    ensures Times(Full(w, StackOf(chain), p, e), ev) == if Meets(w, chain, p, e, ev) then 1 else 0
    decreases w.dirs.Keys - StackOf(chain), e, 1
  {
    if w.excluded(p) {
    } else if Opens(w, chain, e) {
      assert StackOf(Through(w, chain, e)) == StackOf(chain) + if IsDirLink(w, e) then {e.target.what.id} else {};
      DirMeets(w, chain, p, e, ev);
    } else {
      OneMeets(w, chain, p, e, ev);
    }
  }

  lemma OneMeets(w: World, chain: seq<nat>, p: Path, e: Entry, ev: Event)
    requires WorldOk(w) && Known(w, e) && !w.excluded(p) && !Opens(w, chain, e)
    ensures Times([Event(p, Plain(w, e))], ev) == if Meets(w, chain, p, e, ev) then 1 else 0
  {
    if p <= ev.path && ev.path[|p|..] == [] { assert ev.path == p; }
  }

  lemma {:induction false} DirMeets(w: World, chain: seq<nat>, p: Path, e: Entry, ev: Event)
    requires WorldOk(w) && Known(w, e) && !w.excluded(p) && Opens(w, chain, e)
    ensures Times(FullDir(w, StackOf(Through(w, chain, e)), p, Inside(w, e)), ev) ==
            if Meets(w, chain, p, e, ev) then 1 else 0
    decreases w.dirs.Keys - StackOf(chain), e, 0
  {
    var chain', es := Through(w, chain, e), Inside(w, e);
    if p <= ev.path && ev.path[|p|..] == [] { assert ev.path == p; }
    if !w.failing(p) {
      if !e.Dir? {
        var left := w.dirs.Keys - StackOf(chain);
        assert e.target.what.id in left && w.dirs.Keys - StackOf(chain') == left - {e.target.what.id};
      }
      FromMeets(w, chain', p, es, 0, ev);
      TimesCat([Event(p, Entered)], FullFrom(w, StackOf(chain'), p, es, 0), ev);
    }
  }

  predicate MeetsFrom(w: World, chain: seq<nat>, p: Path, es: seq<Entry>, k: nat, ev: Event)
    requires WorldOk(w) && AllKnown(w, es)
  {
    p < ev.path && k <= ev.path[|p|] < |es| && Meets(w, chain, p + [ev.path[|p|]], es[ev.path[|p|]], ev)
  }

  lemma {:induction false} FromMeets(w: World, chain: seq<nat>, p: Path, es: seq<Entry>, k: nat, ev: Event)
    requires WorldOk(w) && k <= |es| && AllKnown(w, es)
    ensures Times(FullFrom(w, StackOf(chain), p, es, k), ev) == if MeetsFrom(w, chain, p, es, k, ev) then 1 else 0
    decreases w.dirs.Keys - StackOf(chain), es, |es| - k
  {
    if k < |es| {
      FullMeets(w, chain, p + [k], es[k], ev);
      FromMeets(w, chain, p, es, k + 1, ev);
      TimesCat(Full(w, StackOf(chain), p + [k], es[k]), FullFrom(w, StackOf(chain), p, es, k + 1), ev);
    }
  }

  // ---- No directory twice along a chain of links ----

  predicate Distinct(s: seq<nat>) {
    forall i, j :: 0 <= i < j < |s| ==> s[i] != s[j]
  }

  lemma {:induction false} NeverTwice(w: World, chain: seq<nat>, p: Path, e: Entry, rest: Path)
    requires WorldOk(w) && Known(w, e) && Distinct(chain) && (forall d :: d in chain ==> d in w.dirs)
    ensures var found := Follow(w, chain, p, e, rest);
            found.At? ==>
              && Distinct(found.chain) && chain <= found.chain && (forall d :: d in found.chain ==> d in w.dirs)
              && |found.chain| <= |w.dirs|
    decreases |rest|
  {
    if Follow(w, chain, p, e, rest).At? {
      if rest == [] {
        FewDistinct(chain, w.dirs.Keys);
      } else {
        NeverTwice(w, Through(w, chain, e), p + [rest[0]], Inside(w, e)[rest[0]], rest[1..]);
      }
    }
  }

  lemma {:induction false} FewDistinct(s: seq<nat>, all: set<nat>)
    requires Distinct(s) && forall d :: d in s ==> d in all
    ensures |s| <= |all|
  {
    if s != [] { FewDistinct(s[1..], all - {s[0]}); }
  }
}
