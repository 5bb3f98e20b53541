/** The segment planner: internal/fsx/extents_linux.go. */
module Segments {
  import opened ByteFiles

  /** One FIEMAP extent.  usable means that no flag says the physical range does not hold the
      bytes as they are. */
  datatype Extent = Extent(logical: int, physical: int, length: int, shared: bool, usable: bool) {
    predicate Shareable() { shared && usable }

    predicate Covers(b: int) { logical <= b < logical + length }

    /** The address that backs byte b of the file. */
    function Address(b: int): int { physical + (b - logical) }
  }

  /** File range [off, off+length) of a plan.  A shared one lies at device address phys; any other has no meaning
      for phys. */
  datatype Segment = Segment(off: int, length: int, phys: int, shared: bool) {
    predicate Has(b: int) { off <= b < off + length }

    function End(): int { off + length }

    function Address(b: int): int { phys + (b - off) }
  }

  // ---- What a plan must be ----

  /** segs are contiguous positive-length pieces of [0, end). */
  predicate Tiles(segs: seq<Segment>, end: int) {
    && (forall i :: 0 <= i < |segs| ==> 0 <= segs[i].off && 0 < segs[i].length && segs[i].End() <= end)
    && (forall i :: 0 < i < |segs| ==> segs[i].off == segs[i - 1].End())
    && (if |segs| == 0 then end == 0 else segs[0].off == 0 && segs[|segs| - 1].End() == end)
  }

  /** Byte b is backed by address a through a shareable extent. */
  predicate Backed(exts: seq<Extent>, b: int, a: int) {
    exists i :: 0 <= i < |exts| && exts[i].Shareable() && exts[i].Covers(b) && exts[i].Address(b) == a
  }

  /** Byte b lies at address a, whether or not other files share the extent. */
  predicate Lies(exts: seq<Extent>, b: int, a: int) {
    exists i :: 0 <= i < |exts| && exts[i].usable && exts[i].Covers(b) && exts[i].Address(b) == a
  }

  /** Byte b lies in a shared segment that names address a for it. */
  predicate Planned(segs: seq<Segment>, b: int, a: int) {
    exists i :: 0 <= i < |segs| && segs[i].shared && segs[i].Has(b) && segs[i].Address(b) == a
  }

  /** Extents in logical order that do not overlap: what the kernel reports. */
  predicate SortedDisjoint(exts: seq<Extent>) {
    && (forall i :: 0 <= i < |exts| ==> 0 <= exts[i].length)
    && (forall i, j :: 0 <= i < j < |exts| ==> exts[i].logical + exts[i].length <= exts[j].logical)
  }

  /** The first extent that contains s decides: it must be shareable and agree on the address. */
  function Mapped(exts: seq<Extent>, s: Segment): (m: bool)
    ensures m ==> forall b :: s.Has(b) ==> Backed(exts, b, s.Address(b))
  {
    if exts == [] then false
    else
      var e := exts[0];
      if e.logical <= s.off && s.off + s.length <= e.logical + e.length then
        assert forall b :: s.Has(b) ==> exts[0].Covers(b);
        e.Shareable() && e.physical + (s.off - e.logical) == s.phys
      else
        var m := Mapped(exts[1..], s);
        assert forall b, a :: Backed(exts[1..], b, a) ==> Backed(exts, b, a) by {
          forall b, a | Backed(exts[1..], b, a) ensures Backed(exts, b, a) {
            var i :| 0 <= i < |exts[1..]| && exts[1..][i].Shareable() && exts[1..][i].Covers(b)
              && exts[1..][i].Address(b) == a;
            assert exts[i + 1].Shareable() && exts[i + 1].Covers(b) && exts[i + 1].Address(b) == a;
          }
        }
        m
  }

  /** When the extents are sorted and disjoint, Mapped is exactly "one extent backs every byte of s at
      the planned address". */
  lemma {:induction false} MappedExactly(exts: seq<Extent>, s: Segment, i: int)
    requires SortedDisjoint(exts) && 0 < s.length && 0 <= i < |exts|
    requires exts[i].logical <= s.off && s.End() <= exts[i].logical + exts[i].length
    ensures Mapped(exts, s) <==> exts[i].Shareable() && exts[i].Address(s.off) == s.phys
  {
    if i > 0 {
      assert exts[0].logical + exts[0].length <= exts[i].logical;
      forall a, b | 0 <= a < b < |exts[1..]|
        ensures exts[1..][a].logical + exts[1..][a].length <= exts[1..][b].logical
      {
        assert exts[1..][a] == exts[a + 1] && exts[1..][b] == exts[b + 1];
      }
      MappedExactly(exts[1..], s, i - 1);
    }
  }

  /** s is a part of one shareable extent among the first n, at that extent's addresses. */
  ghost predicate PieceOf(exts: seq<Extent>, n: int, s: Segment)
    requires n <= |exts|
  {
    exists i :: 0 <= i < n && exts[i].Shareable()
      && exts[i].logical <= s.off && s.End() <= exts[i].logical + exts[i].length
      && s.phys == exts[i].Address(s.off)
  }

  /** Every in-range byte of the first n extents that is backed is planned, and at its address. */
  ghost predicate CoversBacked(exts: seq<Extent>, n: int, size: int, segs: seq<Segment>)
    requires n <= |exts|
  {
    forall b, i :: 0 <= i < n && exts[i].Shareable() && exts[i].Covers(b) && 0 <= b < size
      ==> Planned(segs, b, exts[i].Address(b))
  }

  /** One more extent is handled: the segments grow by more, and every in-range byte of the extent
      (if it is shareable) is in a new segment at its address. */
  lemma CoverGrows(exts: seq<Extent>, n: int, size: int, segs: seq<Segment>, more: seq<Segment>)
    requires 0 <= n < |exts| && CoversBacked(exts, n, size, segs)
    requires exts[n].Shareable() ==>
      forall b :: exts[n].Covers(b) && 0 <= b < size ==> Planned(more, b, exts[n].Address(b))
    ensures CoversBacked(exts, n + 1, size, segs + more)
  {
    forall b, i | 0 <= i < n + 1 && exts[i].Shareable() && exts[i].Covers(b) && 0 <= b < size
      ensures Planned(segs + more, b, exts[i].Address(b))
    {
      PlannedInConcat(segs, more, b, exts[i].Address(b));
    }
  }

  lemma PlannedInConcat(segs: seq<Segment>, more: seq<Segment>, b: int, a: int)
    requires Planned(segs, b, a) || Planned(more, b, a)
    ensures Planned(segs + more, b, a)
  {
    var all := segs + more;
    if Planned(segs, b, a) {
      var i :| 0 <= i < |segs| && segs[i].shared && segs[i].Has(b) && segs[i].Address(b) == a;
      assert all[i] == segs[i];
    } else {
      var i :| 0 <= i < |more| && more[i].shared && more[i].Has(b) && more[i].Address(b) == a;
      assert all[|segs| + i] == more[i];
    }
  }

  /** more goes on from pos to pos': at most a copied gap and then a piece of e, with all of e that is left. */
  ghost predicate Continues(e: Extent, pos: int, size: int, more: seq<Segment>, pos': int) {
    && pos <= pos' <= size
    && |more| <= 2 && (more == [] <==> pos' == pos)
    && (more != [] ==> more[0].off == pos && more[|more| - 1].End() == pos' && more[|more| - 1].shared)
    && (forall i :: 0 <= i < |more| ==> 0 < more[i].length && (more[i].shared <==> i == |more| - 1))
    && (|more| == 2 ==> more[1].off == more[0].End())
    && (more != [] ==>
          && e.Shareable()
          && pos' <= e.logical + e.length
          && e.logical <= more[|more| - 1].off
          && more[|more| - 1].phys == e.Address(more[|more| - 1].off))
    && (e.Shareable() ==> forall b :: pos <= b < size && e.Covers(b) ==> Planned(more, b, e.Address(b)))
  }

  /** The segments that PlanSegments adds for one extent. */
  method PlanExtent(e: Extent, pos: int, size: int) returns (more: seq<Segment>, pos': int)
    requires 0 <= pos <= size
    ensures Continues(e, pos, size, more, pos')
  {
    var lo, hi := Max(e.logical, pos), Min(e.logical + e.length, size);
    if hi <= lo || !e.Shareable() {
      return [], pos;
    }
    more := [];
    if lo > pos {
      more := [Segment(pos, lo - pos, 0, false)];
    }
    more := more + [Segment(lo, hi - lo, e.physical + (lo - e.logical), true)];
    pos' := hi;
    ghost var s := more[|more| - 1];
    forall b | pos <= b < size && e.Covers(b) ensures Planned(more, b, e.Address(b)) {
      assert s.shared && s.Has(b) && s.Address(b) == e.Address(b);
    }
  }

  /** A shared segment is a piece of a shareable extent. */
  ghost predicate SharedArePieces(exts: seq<Extent>, segs: seq<Segment>) {
    forall i :: 0 <= i < |segs| && segs[i].shared ==> PieceOf(exts, |exts|, segs[i])
  }

  predicate SharedAreMapped(exts: seq<Extent>, segs: seq<Segment>) {
    forall i :: 0 <= i < |segs| && segs[i].shared ==> Mapped(exts, segs[i])
  }

  /** Exactly the backed bytes are planned as shared, each at the address that backs it. */
  ghost predicate PlansBacked(exts: seq<Extent>, size: int, segs: seq<Segment>) {
    forall b, a :: 0 <= b < size ==> (Planned(segs, b, a) <==> Backed(exts, b, a))
  }

  /** Kernel extent lists, from the loop's facts to the byte level: shared segments and shareable
      extents name the same bytes and the same addresses. */
  lemma PlanMatchesMap(exts: seq<Extent>, size: int, segs: seq<Segment>)
    requires SortedDisjoint(exts) && Tiles(segs, size) && SharedArePieces(exts, segs)
    requires CoversBacked(exts, |exts|, size, segs)
    ensures PlansBacked(exts, size, segs) && SharedAreMapped(exts, segs)
  {
    forall i | 0 <= i < |segs| && segs[i].shared ensures Mapped(exts, segs[i]) {
      var e :| 0 <= e < |exts| && exts[e].Shareable()
               && exts[e].logical <= segs[i].off && segs[i].End() <= exts[e].logical + exts[e].length
               && segs[i].phys == exts[e].Address(segs[i].off);
      MappedExactly(exts, segs[i], e);
    }
    forall b, a | 0 <= b < size ensures Planned(segs, b, a) <==> Backed(exts, b, a) {
      if Planned(segs, b, a) {
        var i :| 0 <= i < |segs| && segs[i].shared && segs[i].Has(b) && segs[i].Address(b) == a;
        assert Mapped(exts, segs[i]);
      }
    }
  }

  /** Plans the copy of a file.  For any extent list at all the segments tile the file, and for the lists a kernel
      reports they share exactly what is backed. */
  method PlanSegments(exts: seq<Extent>, size: int) returns (segs: seq<Segment>)
    requires 0 <= size
    ensures Tiles(segs, size) && SharedArePieces(exts, segs)
    ensures SortedDisjoint(exts) ==> PlansBacked(exts, size, segs) && SharedAreMapped(exts, segs)
  {
    segs := [];
    var pos := 0;
    for n := 0 to |exts|
      invariant PlannedTo(exts, n, size, segs, pos)
    {
      var more, pos' := PlanExtent(exts[n], pos, size);
      OneMore(exts, n, size, segs, pos, more, pos');
      segs := segs + more;
      pos := pos';
    }
    if pos < size {
      LastGap(exts, size, segs, pos);
      segs := segs + [Segment(pos, size - pos, 0, false)];
    }
    if SortedDisjoint(exts) {
      PlanMatchesMap(exts, size, segs);
    }
  }

  /** The plan up to pos, once n extents are handled. */
  ghost predicate PlannedTo(exts: seq<Extent>, n: int, size: int, segs: seq<Segment>, pos: int)
    requires 0 <= n <= |exts|
  {
    && 0 <= pos <= size && Tiles(segs, pos)
    && (forall i :: 0 <= i < |segs| && segs[i].shared ==> PieceOf(exts, n, segs[i]))
    && (SortedDisjoint(exts) ==> CoversBacked(exts, n, size, segs))
    && (SortedDisjoint(exts) && pos > 0 ==> forall i :: n <= i < |exts| ==> pos <= exts[i].logical)
  }

  lemma OneMore(exts: seq<Extent>, n: int, size: int, segs: seq<Segment>, pos: int, more: seq<Segment>, pos': int)
    requires 0 <= n < |exts| && PlannedTo(exts, n, size, segs, pos) && Continues(exts[n], pos, size, more, pos')
    ensures PlannedTo(exts, n + 1, size, segs + more, pos')
  {
    if SortedDisjoint(exts) {
      CoverGrows(exts, n, size, segs, more);
    }
    PiecesGrow(exts, n, segs, more);
    TilesGrow(segs, pos, more, pos');
  }

  lemma LastGap(exts: seq<Extent>, size: int, segs: seq<Segment>, pos: int)
    requires PlannedTo(exts, |exts|, size, segs, pos) && pos < size
    ensures PlannedTo(exts, |exts|, size, segs + [Segment(pos, size - pos, 0, false)], size)
  {
    var rest := [Segment(pos, size - pos, 0, false)];
    TilesGrow(segs, pos, rest, size);
    if SortedDisjoint(exts) {
      forall b, i | 0 <= i < |exts| && exts[i].Shareable() && exts[i].Covers(b) && 0 <= b < size
        ensures Planned(segs + rest, b, exts[i].Address(b))
      {
        PlannedInConcat(segs, rest, b, exts[i].Address(b));
      }
    }
  }

  lemma PiecesGrow(exts: seq<Extent>, n: int, segs: seq<Segment>, more: seq<Segment>)
    requires 0 <= n < |exts|
    requires forall i :: 0 <= i < |segs| && segs[i].shared ==> PieceOf(exts, n, segs[i])
    requires forall i :: 0 <= i < |more| && more[i].shared ==>
      exts[n].Shareable() && exts[n].logical <= more[i].off
      && more[i].End() <= exts[n].logical + exts[n].length && more[i].phys == exts[n].Address(more[i].off)
    ensures forall i :: 0 <= i < |segs + more| && (segs + more)[i].shared ==> PieceOf(exts, n + 1, (segs + more)[i])
  {
    var all := segs + more;
    forall i | 0 <= i < |all| && all[i].shared ensures PieceOf(exts, n + 1, all[i]) {
      if i < |segs| {
        assert PieceOf(exts, n, segs[i]);
      }
    }
  }

  lemma TilesGrow(segs: seq<Segment>, pos: int, more: seq<Segment>, pos': int)
    requires 0 <= pos <= pos' && Tiles(segs, pos)
    requires if more == [] then pos' == pos else more[0].off == pos && more[|more| - 1].End() == pos'
    requires forall i :: 0 <= i < |more| ==> pos <= more[i].off && 0 < more[i].length && more[i].End() <= pos'
    requires forall i :: 0 < i < |more| ==> more[i].off == more[i - 1].End()
    ensures Tiles(segs + more, pos')
  {
  }
}
