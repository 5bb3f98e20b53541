/** POSIX paths as the engine uses them: relPosix and splitParts of internal/vfs/sftp.go, withinRoot of
    internal/engine/walk.go, over path.Clean and path.Join of the Go library. */
module PosixPaths {
  datatype Result<T> = Ok(value: T) | Err

  predicate IsAbs(p: string) {
    p != "" && p[0] == '/'
  }

  // ---- Splitting and joining at slashes ----

  /** One more character in front of the first part. */
  function Cons(c: char, parts: seq<string>): (r: seq<string>)
    requires |parts| >= 1
    ensures |r| >= 1
  {
    if c == '/' then [""] + parts else [[c] + parts[0]] + parts[1..]
  }

  lemma ConsCat(c: char, p: seq<string>, q: seq<string>)
    requires |p| >= 1
    ensures Cons(c, p + q) == Cons(c, p) + q
  {
    assert (p + q)[1..] == p[1..] + q;
  }

  /** strings.Split at '/'. */
  function Split(s: string): (r: seq<string>)
    ensures |r| >= 1
  {
    if s == "" then [""] else Cons(s[0], Split(s[1..]))
  }

  /** The parts with a slash between each two. */
  function Slashed(parts: seq<string>): string {
    if parts == [] then "" else if |parts| == 1 then parts[0] else parts[0] + "/" + Slashed(parts[1..])
  }

  lemma {:induction false} SplitOne(n: string)
    requires '/' !in n
    ensures Split(n) == [n]
  {
    if n != "" {
      SplitOne(n[1..]);
      assert [n[0]] + n[1..] == n;
    }
  }

  lemma {:induction false} SplitNoSlash(s: string)
    ensures forall k :: 0 <= k < |Split(s)| ==> '/' !in Split(s)[k]
  {
    if s != "" { SplitNoSlash(s[1..]); }
  }

  lemma {:induction false} SplitCat(a: string, b: string)
    ensures Split(a + "/" + b) == Split(a) + Split(b)
  {
    var w := a + "/" + b;
    if a == "" {
      assert w[1..] == b;
    } else {
      SplitCat(a[1..], b);
      assert w[0] == a[0] && w[1..] == a[1..] + "/" + b;
      ConsCat(a[0], Split(a[1..]), Split(b));
    }
  }

  lemma {:induction false} SplitSlashed(parts: seq<string>)
    requires parts != [] && forall k :: 0 <= k < |parts| ==> '/' !in parts[k]
    ensures Split(Slashed(parts)) == parts
  {
    SplitOne(parts[0]);
    if |parts| > 1 {
      SplitSlashed(parts[1..]);
      SplitCat(parts[0], Slashed(parts[1..]));
    }
  }

  // ---- Clean paths ----

  predicate IsName(s: string) {
    s != "" && s != "." && s != ".." && '/' !in s
  }

  /** The parts of a clean path: names, after leading ".."s if the path is relative. */
  predicate CleanParts(rooted: bool, parts: seq<string>) {
    forall k :: 0 <= k < |parts| ==>
      IsName(parts[k]) || (parts[k] == ".." && !rooted && forall j :: 0 <= j < k ==> parts[j] == "..")
  }

  function Render(rooted: bool, parts: seq<string>): string {
    if rooted then "/" + Slashed(parts) else if parts == [] then "." else Slashed(parts)
  }

  /** One more component after the ones kept so far. */
  function Push(rooted: bool, kept: seq<string>, c: string): seq<string> {
    if c == "" || c == "." then kept
    else if c != ".." then kept + [c]
    else if kept != [] && kept[|kept| - 1] != ".." then kept[..|kept| - 1]
    else if rooted then kept
    else kept + [c]
  }

  function Fold(rooted: bool, kept: seq<string>, cs: seq<string>): seq<string>
    decreases |cs|
  {
    if cs == [] then kept else Fold(rooted, Push(rooted, kept, cs[0]), cs[1..])
  }

  /** path.Clean. */
  function Clean(p: string): string {
    Render(IsAbs(p), Fold(IsAbs(p), [], Split(p)))
  }

  function Buffer(elems: seq<string>): string {
    if elems != [] && elems[0] == "" then Buffer(elems[1..]) else Slashed(elems)
  }

  /** path.Join. */
  function Join(elems: seq<string>): string {
    var b := Buffer(elems);
    if b == "" then "" else Clean(b)
  }

  function SplitParts(p: string): seq<string> {
    var q := if IsAbs(p) then p[1..] else p;
    if q == "" || q == "." then [] else Split(q)
  }

  lemma {:induction false} FoldCat(rooted: bool, kept: seq<string>, xs: seq<string>, ys: seq<string>)
    ensures Fold(rooted, kept, xs + ys) == Fold(rooted, Fold(rooted, kept, xs), ys)
    decreases |xs|
  {
    if xs == [] {
      assert xs + ys == ys;
    } else {
      FoldCat(rooted, Push(rooted, kept, xs[0]), xs[1..], ys);
      assert (xs + ys)[1..] == xs[1..] + ys;
    }
  }

  lemma {:induction false} FoldKeepsClean(rooted: bool, kept: seq<string>, cs: seq<string>)
    requires CleanParts(rooted, kept) && forall k :: 0 <= k < |cs| ==> '/' !in cs[k]
    ensures CleanParts(rooted, Fold(rooted, kept, cs))
    decreases |cs|
  {
    if cs != [] {
      if kept != [] && kept[|kept| - 1] == ".." {
        assert forall j :: 0 <= j < |kept| ==> kept[j] == "..";
      }
      FoldKeepsClean(rooted, Push(rooted, kept, cs[0]), cs[1..]);
    }
  }

  /** Clean parts are kept as they are. */
  lemma {:induction false} FoldClean(rooted: bool, kept: seq<string>, parts: seq<string>)
    requires CleanParts(rooted, kept + parts)
    ensures Fold(rooted, kept, parts) == kept + parts
    decreases |parts|
  {
    if parts == [] {
      assert kept + parts == kept;
    } else {
      var both := kept + parts;
      assert both[|kept|] == parts[0];
      assert kept != [] ==> both[|kept| - 1] == kept[|kept| - 1];
      assert kept + [parts[0]] + parts[1..] == both;
      FoldClean(rooted, kept + [parts[0]], parts[1..]);
    }
  }

  /** A clean path names its parts, and no other clean path does. */
  lemma RenderedParts(rooted: bool, parts: seq<string>)
    requires CleanParts(rooted, parts)
    ensures var p := Render(rooted, parts);
            p != "" && IsAbs(p) == rooted && SplitParts(p) == parts && Fold(rooted, [], Split(p)) == parts
    ensures !rooted && parts != [] ==> Split(Render(rooted, parts)) == parts
  {
    if parts == [] {
      RenderedEmpty(rooted);
    } else {
      SplitSlashed(parts);
      SlashedStart(parts);
      FoldClean(rooted, [], parts);
      assert [] + parts == parts;
      if rooted { RootedParts(parts); }
    }
  }

  lemma RenderedEmpty(rooted: bool)
    ensures var p := Render(rooted, []);
            p != "" && IsAbs(p) == rooted && SplitParts(p) == [] && Fold(rooted, [], Split(p)) == []
  {
    if rooted {
      SplitCat("", "");
      assert "" + "/" + "" == "/" && "/"[1..] == "";
      FoldCat(true, [], [""], [""]);
    } else {
      SplitOne(".");
    }
  }

  lemma RootedParts(parts: seq<string>)
    requires parts != [] && Slashed(parts) != "" && Slashed(parts) != "." && Split(Slashed(parts)) == parts
    ensures SplitParts("/" + Slashed(parts)) == parts
    ensures Fold(true, [], Split("/" + Slashed(parts))) == Fold(true, [], parts)
  {
    var s := Slashed(parts);
    assert ("/" + s)[1..] == s && "" + "/" + s == "/" + s;
    SplitCat("", s);
    FoldCat(true, [], [""], parts);
    assert Fold(true, [], [""]) == [];
  }

  lemma SlashedStart(parts: seq<string>)
    requires parts != [] && (forall k :: 0 <= k < |parts| ==> '/' !in parts[k]) && parts[0] != "" && parts[0] != "."
    ensures var s := Slashed(parts); s != "" && s != "." && !IsAbs(s)
  {
    SplitSlashed(parts);
    SplitOne(".");
    assert Slashed(parts)[0] == parts[0][0];
  }

  /** path.Clean gives a clean path, and leaves a clean path alone. */
  lemma CleanIsClean(p: string)
    ensures CleanParts(IsAbs(p), SplitParts(Clean(p))) && Clean(p) == Render(IsAbs(p), SplitParts(Clean(p)))
    ensures IsAbs(Clean(p)) == IsAbs(p) && Clean(Clean(p)) == Clean(p)
  {
    var parts := Fold(IsAbs(p), [], Split(p));
    SplitNoSlash(p);
    FoldKeepsClean(IsAbs(p), [], Split(p));
    RenderedParts(IsAbs(p), parts);
  }

  // ---- relPosix ----

  function Dots(n: nat): (r: seq<string>)
    ensures |r| == n && forall k :: 0 <= k < n ==> r[k] == ".."
  {
    if n == 0 then [] else [".."] + Dots(n - 1)
  }

  /** How many leading parts two paths share. */
  function Common(b: seq<string>, t: seq<string>): (i: nat)
    ensures i <= |b| && i <= |t| && b[..i] == t[..i]
    ensures i < |b| && i < |t| ==> b[i] != t[i]
  {
    if b != [] && t != [] && b[0] == t[0] then
      var i := Common(b[1..], t[1..]);
      assert b[..i + 1] == [b[0]] + b[1..][..i] && t[..i + 1] == [t[0]] + t[1..][..i];
      i + 1
    else 0
  }

  /** What is left of two paths after the shared parts: up over the one, then down the other. */
  function Way(b: seq<string>, t: seq<string>): seq<string> {
    Dots(|b| - Common(b, t)) + t[Common(b, t)..]
  }

  function Rel(base: string, target: string): Result<string> {
    if base == target then Ok(".")
    else if IsAbs(base) != IsAbs(target) then Err
    else
      var out := Way(SplitParts(base), SplitParts(target));
      if out == [] then Ok(".") else Ok(Join(out))
  }

  method RelPosix(base: string, target: string) returns (r: Result<string>)
    ensures r == Rel(base, target)
  {
    if base == target {
      return Ok(".");
    }
    if IsAbs(base) != IsAbs(target) {
      return Err;
    }
    var baseParts, targetParts := SplitParts(base), SplitParts(target);
    var i := 0;
    while i < |baseParts| && i < |targetParts| && baseParts[i] == targetParts[i]
      invariant i <= |baseParts| && i <= |targetParts|
      invariant Common(baseParts, targetParts) == i + Common(baseParts[i..], targetParts[i..])
    {
      i := i + 1;
    }
    assert i == Common(baseParts, targetParts);
    var out := [];
    for k := 0 to |baseParts[i..]|
      invariant out == Dots(k)
    {
      DotsEnd(k);
      out := out + [".."];
    }
    out := out + targetParts[i..];
    assert |baseParts[i..]| == |baseParts| - i;
    assert out == Way(baseParts, targetParts);
    if |out| == 0 {
      return Ok(".");
    }
    return Ok(Join(out));
  }

  lemma DotsEnd(k: nat)
    ensures Dots(k) + [".."] == Dots(k + 1)
  {
  }

  /** The end of a clean path stays clean behind ".."s. */
  lemma DotsThenEnd(dots: seq<string>, rooted: bool, t: seq<string>, i: nat)
    requires (forall k :: 0 <= k < |dots| ==> dots[k] == "..") && CleanParts(rooted, t) && i <= |t|
    ensures CleanParts(false, dots + t[i..])
  {
    var out, n := dots + t[i..], |dots|;
    forall k | n <= k < |out|
      ensures IsName(out[k]) || (out[k] == ".." && forall j :: 0 <= j < k ==> out[j] == "..")
    {
      assert out[k] == t[k - n + i];
      if t[k - n + i] == ".." {
        forall j | n <= j < k ensures out[j] == ".." { assert out[j] == t[j - n + i]; }
      }
    }
  }

  lemma WayIsSome(b: seq<string>, t: seq<string>)
    requires b != t
    ensures Way(b, t) != []
  {
    var i := Common(b, t);
    assert i == |b| ==> b[..i] == b;
    assert i == |t| ==> t[..i] == t;
  }

  lemma RelParts(rooted: bool, b: seq<string>, t: seq<string>)
    requires CleanParts(rooted, b) && CleanParts(rooted, t) && b != t
    ensures Way(b, t) != [] && CleanParts(false, Way(b, t))
    ensures Rel(Render(rooted, b), Render(rooted, t)) == Ok(Slashed(Way(b, t)))
  {
    WayIsSome(b, t);
    DotsThenEnd(Dots(|b| - Common(b, t)), rooted, t, Common(b, t));
    JoinClean(Way(b, t));
    RenderedParts(rooted, b);
    RenderedParts(rooted, t);
  }

  lemma JoinClean(parts: seq<string>)
    requires parts != [] && CleanParts(false, parts)
    ensures Join(parts) == Slashed(parts) && Slashed(parts) != "" && Split(Slashed(parts)) == parts
  {
    RenderedParts(false, parts);
    SlashedStart(parts);
    assert parts[0] != "";
    assert Buffer(parts) == Slashed(parts) == Render(false, parts);
  }

  /** As many ".."s as names take the names away again. */
  lemma {:induction false} PopNames(rooted: bool, kept: seq<string>, names: seq<string>)
    requires forall k :: 0 <= k < |names| ==> IsName(names[k])
    ensures Fold(rooted, kept + names, Dots(|names|)) == kept
    decreases |names|
  {
    if names == [] {
      assert kept + names == kept;
    } else {
      var all, rest := kept + names, names[..|names| - 1];
      assert all[|all| - 1] == names[|names| - 1] && all[..|all| - 1] == kept + rest;
      assert Push(rooted, all, "..") == kept + rest;
      PopNames(rooted, kept, rest);
      assert Dots(|names|)[1..] == Dots(|rest|);
    }
  }

  /** Up over the names, then on. */
  lemma UpAndOn(rooted: bool, kept: seq<string>, names: seq<string>, onward: seq<string>)
    requires (forall k :: 0 <= k < |names| ==> IsName(names[k])) && CleanParts(rooted, kept + onward)
    ensures Fold(rooted, kept + names, Dots(|names|) + onward) == kept + onward
  {
    FoldCat(rooted, kept + names, Dots(|names|), onward);
    PopNames(rooted, kept, names);
    FoldClean(rooted, kept, onward);
  }

  lemma Assoc(a: seq<string>, b: seq<string>, c: seq<string>)
    ensures (a + b) + c == a + (b + c)
  {
  }

  lemma UpPastDots(dots: seq<string>, names: seq<string>, t: seq<string>, i: nat)
    requires (forall k :: 0 <= k < |dots| ==> dots[k] == "..") && (forall k :: 0 <= k < |names| ==> IsName(names[k]))
    requires CleanParts(false, t) && i <= |dots| && i <= |t|
    ensures |Fold(false, dots + names, Dots(|dots| + |names| - i) + t[i..])| == 2 * (|dots| - i) + |t|
  {
    var up, rest := Dots(|dots| - i), t[i..];
    DotsSplit(|names|, |dots| - i);
    Assoc(Dots(|names|), up, rest);
    Assoc(dots, up, rest);
    DotsThenEnd(dots + up, false, t, i);
    UpAndOn(false, dots, names, up + rest);
  }

  /** Where base's own parts begin with ".."s, going up adds as many more instead of undoing them. */
  lemma UpFromDots(b: seq<string>, t: seq<string>, i: nat, k: nat)
    requires CleanParts(false, b) && CleanParts(false, t) && i <= k < |b| && i <= |t| && b[k] == ".."
    ensures Fold(false, b, Dots(|b| - i) + t[i..]) != t
  {
    var dots, names := LastDots(b, k);
    UpMissesTarget(dots, names, t, i);
  }

  lemma UpMissesTarget(dots: seq<string>, names: seq<string>, t: seq<string>, i: nat)
    requires (forall k :: 0 <= k < |dots| ==> dots[k] == "..") && (forall k :: 0 <= k < |names| ==> IsName(names[k]))
    requires CleanParts(false, t) && i < |dots| && i <= |t|
    ensures Fold(false, dots + names, Dots(|dots + names| - i) + t[i..]) != t
  {
    UpPastDots(dots, names, t, i);
  }

  lemma DotsSplit(m: nat, n: nat)
    ensures Dots(m + n) == Dots(m) + Dots(n)
  {
  }

  /** Where base has only names of its own, going up undoes them. */
  lemma UpFromNames(rooted: bool, b: seq<string>, t: seq<string>, i: nat)
    requires CleanParts(rooted, b) && CleanParts(rooted, t) && i <= |b| && i <= |t| && b[..i] == t[..i]
    requires ".." !in b[i..]
    ensures Fold(rooted, b, Dots(|b| - i) + t[i..]) == t
  {
    var both, names, onward := b[..i], b[i..], t[i..];
    NamesAfter(rooted, b, i);
    HeadTail(b, i);
    HeadTail(t, i);
    UpAndOn(rooted, both, names, onward);
  }

  lemma HeadTail(b: seq<string>, i: nat)
    requires i <= |b|
    ensures b[..i] + b[i..] == b && |b[i..]| == |b| - i
  {
  }

  lemma NamesAfter(rooted: bool, b: seq<string>, i: nat)
    requires CleanParts(rooted, b) && i <= |b| && ".." !in b[i..]
    ensures forall k :: 0 <= k < |b[i..]| ==> IsName(b[i..][k])
  {
    forall k | 0 <= k < |b[i..]| ensures IsName(b[i..][k]) { assert b[i..][k] == b[i + k]; }
  }

  /** The leading ".."s and the names after them, given that part k is one of the former. */
  lemma LastDots(b: seq<string>, k: nat) returns (dots: seq<string>, names: seq<string>)
    requires CleanParts(false, b) && k < |b| && b[k] == ".."
    ensures b == dots + names && k < |dots|
    ensures (forall j :: 0 <= j < |dots| ==> dots[j] == "..") && (forall j :: 0 <= j < |names| ==> IsName(names[j]))
  {
    var m := k + 1;
    while m < |b| && b[m] == ".."
      invariant k < m <= |b| && forall j :: 0 <= j < m ==> b[j] == ".."
    {
      m := m + 1;
    }
    dots, names := b[..m], b[m..];
    assert forall j :: m <= j < |b| ==> IsName(b[j]);
  }

  /** The way from base, folded onto base's parts, is target exactly when base goes up no further than target. */
  lemma WayLeadsBack(rooted: bool, b: seq<string>, t: seq<string>)
    requires CleanParts(rooted, b) && CleanParts(rooted, t)
    ensures Fold(rooted, b, Way(b, t)) == t <==> ".." !in b[Common(b, t)..]
  {
    var c := Common(b, t);
    if ".." in b[c..] {
      var k := DotsIn(b, c);
      NoDotsInRooted(rooted, b);
      UpFromDots(b, t, c, k);
    } else {
      UpFromNames(rooted, b, t, c);
    }
  }

  lemma DotsIn(b: seq<string>, c: nat) returns (k: nat)
    requires c <= |b| && ".." in b[c..]
    ensures c <= k < |b| && b[k] == ".."
  {
    var j :| 0 <= j < |b[c..]| && b[c..][j] == "..";
    k := c + j;
  }

  lemma NoDotsInRooted(rooted: bool, b: seq<string>)
    requires CleanParts(rooted, b)
    ensures rooted ==> ".." !in b
  {
  }

  /** From base along relPosix(base, target) one arrives at target, for clean paths both absolute or both relative,
      unless base goes up, with a "..", where target does not: always so for absolute paths. */
  lemma RelLeadsBack(rooted: bool, b: seq<string>, t: seq<string>)
    requires CleanParts(rooted, b) && CleanParts(rooted, t)
    ensures var base, target := Render(rooted, b), Render(rooted, t);
            Rel(base, target).Ok? && (Join([base, Rel(base, target).value]) == target <==> ".." !in b[Common(b, t)..])
    ensures rooted ==> ".." !in b
  {
    NoDotsInRooted(rooted, b);
    if b == t {
      SplitOne(".");
      StepAlong(rooted, b, ".");
      assert Fold(rooted, b, ["."]) == b && b[Common(b, t)..] == [];
    } else {
      RelParts(rooted, b, t);
      JoinsAlongWay(rooted, b, t);
      WayLeadsBack(rooted, b, t);
      FoldKeepsClean(rooted, b, Way(b, t));
      SameRender(rooted, Fold(rooted, b, Way(b, t)), t);
    }
  }

  lemma JoinsAlongWay(rooted: bool, b: seq<string>, t: seq<string>)
    requires CleanParts(rooted, b) && CleanParts(rooted, t) && b != t
    ensures Join([Render(rooted, b), Slashed(Way(b, t))]) == Render(rooted, Fold(rooted, b, Way(b, t)))
  {
    JoinClean(Way(b, t));
    StepAlong(rooted, b, Slashed(Way(b, t)));
  }

  lemma SameRender(rooted: bool, p: seq<string>, q: seq<string>)
    requires CleanParts(rooted, p) && CleanParts(rooted, q)
    ensures Render(rooted, p) == Render(rooted, q) <==> p == q
  {
    RenderedParts(rooted, p);
    RenderedParts(rooted, q);
  }

  /** Joining a relative path to a clean one folds its components onto the parts. */
  lemma StepAlong(rooted: bool, b: seq<string>, rel: string)
    requires CleanParts(rooted, b) && rel != ""
    ensures Join([Render(rooted, b), rel]) == Render(rooted, Fold(rooted, b, Split(rel)))
  {
    var base := Render(rooted, b);
    RenderedParts(rooted, b);
    assert [base, rel][1..] == [rel] && Slashed([rel]) == rel;
    assert Buffer([base, rel]) == base + "/" + rel;
    SplitCat(base, rel);
    FoldCat(rooted, [], Split(base), Split(rel));
  }

  // ---- withinRoot ----

  predicate HasPrefix(s: string, prefix: string) {
    |prefix| <= |s| && s[..|prefix|] == prefix
  }

  /** withinRoot over a filesystem whose Rel cleans both paths first. */
  predicate WithinRoot(root: string, target: string) {
    var rel := Rel(Clean(root), Clean(target));
    rel.Ok? && (rel.value == "." || (rel.value != ".." && !HasPrefix(rel.value, "../")))
  }

  lemma StartsUp(parts: seq<string>)
    requires parts != [] && CleanParts(false, parts)
    ensures var s := Slashed(parts); s != "." && (s == ".." || HasPrefix(s, "../") <==> parts[0] == "..")
  {
    var s := Slashed(parts);
    SplitSlashed(parts);
    SlashedStart(parts);
    SplitOne("..");
    if HasPrefix(s, "../") {
      assert s == ".." + "/" + s[3..];
      SplitCat("..", s[3..]);
    }
    if parts[0] == ".." && |parts| > 1 {
      assert s[..3] == "../";
    }
  }

  /** A path is within a root exactly when the root's components begin its own; only a relative root can be left by
      further ".."s.  A name that merely starts with two dots is a name like any other. */
  lemma WithinRootIsPrefix(root: string, target: string)
    ensures var r, t := SplitParts(Clean(root)), SplitParts(Clean(target));
            WithinRoot(root, target) <==> IsAbs(root) == IsAbs(target) && r <= t && (|r| < |t| ==> t[|r|] != "..")
    ensures IsAbs(target) ==> ".." !in SplitParts(Clean(target))
  {
    CleanIsClean(root);
    CleanIsClean(target);
    var r, t := SplitParts(Clean(root)), SplitParts(Clean(target));
    if IsAbs(root) == IsAbs(target) && r != t {
      RelParts(IsAbs(root), r, t);
      StartsUp(Way(r, t));
      PrefixIsCommon(r, t);
    }
  }

  lemma PrefixIsCommon(r: seq<string>, t: seq<string>)
    ensures r <= t <==> Common(r, t) == |r|
  {
    assert Common(r, t) < |r| && |r| <= |t| ==> r[Common(r, t)] != t[Common(r, t)];
  }
}
