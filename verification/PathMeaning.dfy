/** What paths mean: where one arrives by following their components.  path.Clean and path.Join keep the place, and
    path.Clean gives the only clean path to it. */
module PathMeaning {
  import opened PosixPaths

  /** Where one stands, by the names from the root down, after one component; the root is its own parent. */
  function Move(at: seq<string>, c: string): seq<string> {
    if c == "" || c == "." then at else if c != ".." then at + [c] else if at == [] then [] else at[..|at| - 1]
  }

  function Go(at: seq<string>, cs: seq<string>): seq<string>
    decreases |cs|
  {
    if cs == [] then at else Go(Move(at, cs[0]), cs[1..])
  }

  /** An absolute path is followed from the root, a relative one from anywhere. */
  predicate From(rooted: bool, at: seq<string>) {
    rooted ==> at == []
  }

  lemma {:induction false} GoCat(at: seq<string>, xs: seq<string>, ys: seq<string>)
    ensures Go(at, xs + ys) == Go(Go(at, xs), ys)
    decreases |xs|
  {
    if xs == [] {
      assert xs + ys == ys;
    } else {
      GoCat(Move(at, xs[0]), xs[1..], ys);
      assert (xs + ys)[1..] == xs[1..] + ys;
    }
  }

  lemma GoOne(at: seq<string>, xs: seq<string>, c: string)
    ensures Go(at, xs + [c]) == Move(Go(at, xs), c)
  {
    GoCat(at, xs, [c]);
    assert [c][1..] == [];
  }

  lemma PushLeadsThere(rooted: bool, at: seq<string>, kept: seq<string>, c: string)
    requires From(rooted, at) && CleanParts(rooted, kept)
    ensures Go(at, Push(rooted, kept, c)) == Move(Go(at, kept), c)
  {
    GoOne(at, kept, c);
    if kept != [] {
      var n := |kept| - 1;
      assert kept == kept[..n] + [kept[n]];
      GoOne(at, kept[..n], kept[n]);
    }
  }

  lemma {:induction false} FoldLeadsThere(rooted: bool, at: seq<string>, kept: seq<string>, cs: seq<string>)
    requires From(rooted, at) && CleanParts(rooted, kept) && forall k :: 0 <= k < |cs| ==> '/' !in cs[k]
    ensures Go(at, Fold(rooted, kept, cs)) == Go(Go(at, kept), cs)
    decreases |cs|
  {
    if cs != [] {
      PushLeadsThere(rooted, at, kept, cs[0]);
      FoldKeepsClean(rooted, kept, [cs[0]]);
      assert Fold(rooted, kept, [cs[0]]) == Push(rooted, kept, cs[0]);
      FoldLeadsThere(rooted, at, Push(rooted, kept, cs[0]), cs[1..]);
    }
  }

  /** path.Clean keeps the place, wherever one starts. */
  lemma CleanLeadsThere(p: string, at: seq<string>)
    requires From(IsAbs(p), at)
    ensures Go(at, Split(Clean(p))) == Go(at, Split(p))
  {
    var rooted, parts := IsAbs(p), Fold(IsAbs(p), [], Split(p));
    SplitNoSlash(p);
    SplitNoSlash(Clean(p));
    FoldKeepsClean(rooted, [], Split(p));
    RenderedParts(rooted, parts);
    FoldLeadsThere(rooted, at, [], Split(p));
    FoldLeadsThere(rooted, at, [], Split(Clean(p)));
  }

  // ---- No other clean path leads there ----

  /** Parts that are ups ".."s and then names. */
  predicate UpsThenNames(parts: seq<string>, ups: nat) {
    && ups <= |parts|
    && (forall k :: 0 <= k < ups ==> parts[k] == "..")
    && (forall k :: ups <= k < |parts| ==> IsName(parts[k]))
  }

  lemma HasUps(parts: seq<string>) returns (ups: nat)
    requires CleanParts(false, parts)
    ensures UpsThenNames(parts, ups)
  {
    ups := 0;
    while ups < |parts| && parts[ups] == ".."
      invariant ups <= |parts| && forall j :: 0 <= j < ups ==> parts[j] == ".."
    {
      ups := ups + 1;
    }
    assert forall k :: ups <= k < |parts| && parts[k] == ".." ==> parts[ups] == "..";
  }

  lemma {:induction false} GoNames(at: seq<string>, names: seq<string>)
    requires forall k :: 0 <= k < |names| ==> IsName(names[k])
    ensures Go(at, names) == at + names
    decreases |names|
  {
    if names != [] {
      GoNames(at + [names[0]], names[1..]);
      assert at + [names[0]] + names[1..] == at + names;
    } else {
      assert at + names == at;
    }
  }

  lemma {:induction false} GoUps(at: seq<string>, parts: seq<string>, ups: nat)
    requires UpsThenNames(parts, ups) && ups <= |at|
    ensures Go(at, parts) == at[..|at| - ups] + parts[ups..]
    decreases ups
  {
    if ups == 0 {
      assert at[..|at|] == at && parts[0..] == parts;
      GoNames(at, parts);
    } else {
      var up := at[..|at| - 1];
      GoUps(up, parts[1..], ups - 1);
      assert up[..|up| - (ups - 1)] == at[..|at| - ups] && parts[1..][ups - 1..] == parts[ups..];
    }
  }

  function Long(n: nat): (s: string)
    ensures |s| == n && forall k :: 0 <= k < n ==> s[k] == 'x'
  {
    if n == 0 then "" else "x" + Long(n - 1)
  }

  /** A name that is none of the parts. */
  lemma {:induction false} NewName(parts: seq<string>) returns (u: string)
    ensures IsName(u) && u !in parts
    ensures forall k :: 0 <= k < |parts| ==> |parts[k]| < |u|
    decreases |parts|
  {
    if parts == [] {
      u := "x";
    } else {
      var v := NewName(parts[1..]);
      u := Long(|v| + |parts[0]| + 3);
      forall k | 0 <= k < |parts| ensures |parts[k]| < |u| {
        if k > 0 { assert parts[1..][k - 1] == parts[k]; }
      }
    }
  }

  /** Clean paths that lead to the same places have the same parts. */
  lemma SamePlaces(rooted: bool, a: seq<string>, b: seq<string>)
    requires CleanParts(rooted, a) && CleanParts(rooted, b)
    requires forall at :: From(rooted, at) ==> Go(at, a) == Go(at, b)
    ensures a == b
  {
    if rooted {
      GoNames([], a);
      GoNames([], b);
      assert Go([], a) == Go([], b) && [] + a == a && [] + b == b;
    } else {
      var m := HasUps(a);
      var n := HasUps(b);
      var u := NewName(a + b);
      var at := seq(|a| + |b|, _ => u);
      GoUps(at, a, m);
      GoUps(at, b, n);
      assert Go(at, a) == Go(at, b);
      assert u !in a && u !in b by {
        assert forall c :: c in a || c in b ==> c in a + b;
      }
      SameSplit(at, u, a, b, m, n);
    }
  }

  lemma SameSplit(at: seq<string>, u: string, a: seq<string>, b: seq<string>, m: nat, n: nat)
    requires UpsThenNames(a, m) && UpsThenNames(b, n) && |at| == |a| + |b|
    requires u !in a && u !in b && forall k :: 0 <= k < |at| ==> at[k] == u
    requires at[..|at| - m] + a[m..] == at[..|at| - n] + b[n..]
    ensures a == b
  {
    var x, y := at[..|at| - m] + a[m..], at[..|at| - n] + b[n..];
    if m < n {
      MoreUps(at, u, a, b, m, n);
    } else if n < m {
      MoreUps(at, u, b, a, n, m);
    } else {
      assert x[|at| - m..] == a[m..] && y[|at| - m..] == b[n..];
      assert a == a[..m] + a[m..] && b == b[..m] + b[m..];
      assert a[..m] == b[..m];
    }
  }

  lemma MoreUps(at: seq<string>, u: string, a: seq<string>, b: seq<string>, m: nat, n: nat)
    requires m < n <= |b| && m <= |a| && |at| == |a| + |b|
    requires u !in b && forall k :: 0 <= k < |at| ==> at[k] == u
    ensures at[..|at| - m] + a[m..] != at[..|at| - n] + b[n..]
  {
    var x, y := at[..|at| - m] + a[m..], at[..|at| - n] + b[n..];
    assert x[|at| - n] == u;
    if |y| > |at| - n { assert y[|at| - n] == b[n..][0] == b[n]; }
  }

  /** path.Clean(p) is the only clean path to the places that p leads to. */
  lemma OnlyCleanPath(p: string, parts: seq<string>)
    requires CleanParts(IsAbs(p), parts)
    requires forall at :: From(IsAbs(p), at) ==> Go(at, parts) == Go(at, Split(p))
    ensures Render(IsAbs(p), parts) == Clean(p)
  {
    var rooted, kept := IsAbs(p), Fold(IsAbs(p), [], Split(p));
    SplitNoSlash(p);
    FoldKeepsClean(rooted, [], Split(p));
    forall at | From(rooted, at) ensures Go(at, parts) == Go(at, kept) {
      FoldLeadsThere(rooted, at, [], Split(p));
    }
    SamePlaces(rooted, parts, kept);
  }

  // ---- path.Join ----

  /** Along one path after the other. */
  function Along(at: seq<string>, elems: seq<string>): seq<string>
    decreases |elems|
  {
    if elems == [] then at else Along(Go(at, Split(elems[0])), elems[1..])
  }

  /** The first path that is not empty. */
  function Leading(elems: seq<string>): string {
    if elems == [] then "" else if elems[0] != "" then elems[0] else Leading(elems[1..])
  }

  lemma {:induction false} SlashedAlong(at: seq<string>, elems: seq<string>)
    ensures Go(at, Split(Slashed(elems))) == Along(at, elems)
    decreases |elems|
  {
    if elems == [] {
      assert Split("") == [""] && [""][1..] == [];
    } else if |elems| == 1 {
      assert elems[1..] == [];
    } else {
      SplitCat(elems[0], Slashed(elems[1..]));
      GoCat(at, Split(elems[0]), Split(Slashed(elems[1..])));
      SlashedAlong(Go(at, Split(elems[0])), elems[1..]);
    }
  }

  lemma {:induction false} BufferAlong(at: seq<string>, elems: seq<string>)
    ensures Go(at, Split(Buffer(elems))) == Along(at, elems)
    ensures Buffer(elems) == "" <==> Leading(elems) == ""
    ensures IsAbs(Buffer(elems)) == IsAbs(Leading(elems))
  {
    if elems != [] && elems[0] == "" {
      assert Split("") == [""] && [""][1..] == [];
      BufferAlong(at, elems[1..]);
    } else {
      SlashedAlong(at, elems);
    }
  }

  /** path.Join leads along its arguments one after the other, from the root if the first that is not empty is
      absolute; it is empty exactly when all of them are. */
  lemma JoinLeadsAlong(elems: seq<string>, at: seq<string>)
    requires From(IsAbs(Leading(elems)), at)
    ensures Join(elems) == "" <==> Leading(elems) == ""
    ensures IsAbs(Join(elems)) == IsAbs(Leading(elems))
    ensures Go(at, Split(Join(elems))) == Along(at, elems)
  {
    BufferAlong(at, elems);
    CleanIsClean(Buffer(elems));
    CleanLeadsThere(Buffer(elems), at);
    var parts := Fold(IsAbs(Buffer(elems)), [], Split(Buffer(elems)));
    SplitNoSlash(Buffer(elems));
    FoldKeepsClean(IsAbs(Buffer(elems)), [], Split(Buffer(elems)));
    RenderedParts(IsAbs(Buffer(elems)), parts);
  }
}
