/** The shared extent index and the claim table: internal/fsx/extents.go. */
module ExtentIndex {
  datatype Option<T> = None | Some(value: T)

  /** Source addresses [phys, phys+length) and where their bytes are on the destination: at off in file ref. */
  datatype Rec = Rec(phys: int, length: int, off: int, ref: nat) {
    predicate Covers(phys': int, length': int) {
      phys' + length' <= phys + length
    }

    predicate SameKey(r: Rec) { phys == r.phys && length == r.length }

    /** The order of the tree: by phys, then by length. */
    predicate Below(r: Rec) { phys < r.phys || (phys == r.phys && length < r.length) }
  }

  /** A source extent that one worker copies now. */
  datatype Claim = Claim(id: nat, dev: nat, phys: int, length: int) {
    predicate Contains(dev': nat, phys': int, length': int) {
      dev == dev' && phys <= phys' && phys' + length' <= phys + length
    }
  }

  /** What a lookup tells its caller. */
  datatype Answer = Hit(rec: Rec, delta: int) | Busy(claim: Claim) | Mine(claim: Claim)

  /** The backward scan looks at no more records than this. */
  const FIND_DEPTH: nat := 8

  predicate Sorted(recs: seq<Rec>) {
    forall i, j :: 0 <= i < j < |recs| ==> recs[i].Below(recs[j])
  }

  /** How many records of a sorted index start at or before phys. */
  function Rank(recs: seq<Rec>, phys: int): (n: nat)
    requires Sorted(recs)
    ensures n <= |recs|
    ensures forall i :: 0 <= i < |recs| ==> (i < n <==> recs[i].phys <= phys)
  {
    if recs == [] || recs[|recs| - 1].phys <= phys then
      assert forall i :: 0 <= i < |recs| ==> recs[i].phys <= phys by {
        forall i | 0 <= i < |recs| ensures recs[i].phys <= phys {
          if i < |recs| - 1 { assert recs[i].Below(recs[|recs| - 1]); }
        }
      }
      |recs|
    else Rank(recs[..|recs| - 1], phys)
  }

  /** A record the lookup may return: it covers the range and its file is not dead. */
  predicate Usable(r: Rec, phys: int, length: int, dead: set<nat>) {
    r.Covers(phys, length) && r.ref !in dead
  }

  /** i is what find returns: the nearest usable record at or before phys, if it is among the
      FIND_DEPTH nearest. */
  predicate IsFound(recs: seq<Rec>, phys: int, length: int, dead: set<nat>, i: int)
    requires Sorted(recs)
  {
    var n := Rank(recs, phys);
    && 0 <= i < n
    && n - i <= FIND_DEPTH
    && Usable(recs[i], phys, length, dead)
    && forall j :: i < j < n ==> !Usable(recs[j], phys, length, dead)
  }

  predicate NoneFound(recs: seq<Rec>, phys: int, length: int, dead: set<nat>)
    requires Sorted(recs)
  {
    var n := Rank(recs, phys);
    forall j :: n - FIND_DEPTH <= j < n && 0 <= j ==> !Usable(recs[j], phys, length, dead)
  }

  /** The scan as a function, for the protocol. */
  function Find(recs: seq<Rec>, phys: int, length: int, dead: set<nat>): (r: Option<Rec>)
    requires Sorted(recs)
    ensures r.Some? ==> exists i :: IsFound(recs, phys, length, dead, i) && r.value == recs[i]
    ensures r.None? ==> NoneFound(recs, phys, length, dead)
  {
    Scan(recs, phys, length, dead, Rank(recs, phys), 0)
  }

  function Scan(recs: seq<Rec>, phys: int, length: int, dead: set<nat>, k: nat, seen: nat): (r: Option<Rec>)
    requires Sorted(recs)
    requires k + seen == Rank(recs, phys) && seen <= FIND_DEPTH
    requires forall j :: k <= j < k + seen ==> !Usable(recs[j], phys, length, dead)
    ensures r.Some? ==> exists i :: IsFound(recs, phys, length, dead, i) && r.value == recs[i]
    ensures r.None? ==> NoneFound(recs, phys, length, dead)
    decreases k
  {
    if k == 0 || seen == FIND_DEPTH then None
    else if Usable(recs[k - 1], phys, length, dead) then
      assert IsFound(recs, phys, length, dead, k - 1);
      Some(recs[k - 1])
    else Scan(recs, phys, length, dead, k - 1, seen + 1)
  }

  /** The depth bound never hides an extent that was itself recorded: while no file is dead, a record
      that starts at phys and is long enough is found, or a nearer one that also covers the range. */
  lemma FindSeesItsOwnKey(recs: seq<Rec>, phys: int, length: int, dead: set<nat>, k: int)
    requires Sorted(recs) && 0 <= k < |recs|
    requires recs[k].phys == phys && length <= recs[k].length
    requires forall i :: 0 <= i < |recs| ==> recs[i].ref !in dead
    ensures Find(recs, phys, length, dead).Some?
  {
    var n := Rank(recs, phys);
    assert k < n;
    assert recs[n - 1].phys == phys && length <= recs[n - 1].length by {
      if k < n - 1 { assert recs[k].Below(recs[n - 1]); }
    }
    assert Usable(recs[n - 1], phys, length, dead);
    assert n - FIND_DEPTH <= n - 1 < n && 0 <= n - 1;
  }

  /** Exactly when the lookup finds nothing: every usable record at or before phys has FIND_DEPTH others, nearer to
      phys, that are too short or dead.  So a caller is told of a usable record if there is one among the
      FIND_DEPTH nearest. */
  lemma FindMissesExactlyWhen(recs: seq<Rec>, phys: int, length: int, dead: set<nat>)
    requires Sorted(recs)
    ensures Find(recs, phys, length, dead).None? <==>
            forall i :: 0 <= i < |recs| && recs[i].phys <= phys && Usable(recs[i], phys, length, dead) ==>
              i + FIND_DEPTH < |recs| && recs[i + FIND_DEPTH].phys <= phys
  {
    var n := Rank(recs, phys);
    if Find(recs, phys, length, dead).None? {
      forall i | 0 <= i < |recs| && recs[i].phys <= phys && Usable(recs[i], phys, length, dead)
        ensures i + FIND_DEPTH < |recs| && recs[i + FIND_DEPTH].phys <= phys
      {
        assert i < n && !(n - FIND_DEPTH <= i);
      }
    } else {
      var i :| IsFound(recs, phys, length, dead, i);
      assert recs[i].phys <= phys && Usable(recs[i], phys, length, dead) && n <= i + FIND_DEPTH;
      assert i + FIND_DEPTH < |recs| ==> phys < recs[i + FIND_DEPTH].phys;
    }
  }

  /** The depth bound can hide a covering record: eight short records between it and phys are enough,
      so "found" is not the same as "recorded".  A miss only costs a copy. */
  lemma FindCanMiss()
    ensures exists recs: seq<Rec> ::
      Sorted(recs) && (exists i :: 0 <= i < |recs| && recs[i].phys <= 9 && Usable(recs[i], 9, 1, {}))
      && Find(recs, 9, 1, {}).None?
  {
    var recs := [Rec(0, 100, 0, 0)] + seq(8, i => Rec(i + 1, 1, 0, 0));
    assert recs[0].phys <= 9 && Usable(recs[0], 9, 1, {});
    assert Sorted(recs);
    assert Rank(recs, 9) == 9 by {
      assert recs[8].phys <= 9;
    }
    assert forall j :: 1 <= j < 9 ==> recs[j] == Rec(j, 1, 0, 0) && !Usable(recs[j], 9, 1, {});
  }

  /** The tree's replace-or-insert on the sorted sequence. */
  function ReplaceOrInsert(recs: seq<Rec>, r: Rec): (out: seq<Rec>)
    requires Sorted(recs)
    ensures Sorted(out)
    ensures forall x :: x in out <==> x == r || (x in recs && !x.SameKey(r))
  {
    if recs == [] then [r]
    else
      var last := recs[|recs| - 1];
      var init := recs[..|recs| - 1];
      assert recs == init + [last];
      assert forall x :: x in recs <==> x in init || x == last;
      assert forall x :: x in init ==> x.Below(last);
      if last.Below(r) then recs + [r]
      else if last.SameKey(r) then init + [r]
      else
        var out := ReplaceOrInsert(init, r);
        assert Sorted(out + [last]);
        out + [last]
  }

  // ---- The claim table ----

  /** The earliest claim in flight that contains the range. */
  function FirstContaining(inflight: seq<Claim>, dev: nat, phys: int, length: int): (c: Option<Claim>)
    ensures c.Some? ==> c.value in inflight && c.value.Contains(dev, phys, length)
    ensures c.None? ==> forall x :: x in inflight ==> !x.Contains(dev, phys, length)
  {
    if inflight == [] then None
    else if inflight[0].Contains(dev, phys, length) then Some(inflight[0])
    else FirstContaining(inflight[1..], dev, phys, length)
  }

  /** The table without the claim c. */
  function Without(inflight: seq<Claim>, c: Claim): (out: seq<Claim>)
    ensures Distinct(inflight) ==> forall x :: x in out <==> x in inflight && x != c
    ensures Distinct(inflight) ==> Distinct(out)
    ensures forall x :: x in out ==> x in inflight
  {
    if inflight == [] then []
    else
      var rest := inflight[1..];
      assert forall x :: x in inflight <==> x == inflight[0] || x in rest;
      assert Distinct(inflight) ==> Distinct(rest) && forall x :: x in rest ==> x.id != inflight[0].id;
      if inflight[0] == c then rest
      else
        var out := Without(rest, c);
        assert Distinct(inflight) ==> forall j :: 0 <= j < |out| ==> out[j] in out && out[j].id != inflight[0].id;
        [inflight[0]] + out
  }

  predicate Distinct(inflight: seq<Claim>) {
    forall i, j :: 0 <= i < j < |inflight| ==> inflight[i].id != inflight[j].id
  }

  /** No claim in flight is contained in one that was taken before it. */
  predicate NoNestedClaims(inflight: seq<Claim>) {
    forall i, j :: 0 <= i < j < |inflight| ==>
      !inflight[i].Contains(inflight[j].dev, inflight[j].phys, inflight[j].length)
  }

  lemma {:induction false} WithoutKeepsOrder(inflight: seq<Claim>, c: Claim)
    requires NoNestedClaims(inflight)
    ensures NoNestedClaims(Without(inflight, c))
  {
    if inflight != [] {
      var rest := inflight[1..];
      assert NoNestedClaims(rest);
      if inflight[0] != c {
        WithoutKeepsOrder(rest, c);
        var out := Without(rest, c);
        forall j | 0 <= j < |out|
          ensures !inflight[0].Contains(out[j].dev, out[j].phys, out[j].length)
        {
          assert out[j] in rest;
        }
      }
    }
  }

  /** The records of one source device; none yet means no index yet. */
  function Records(byDev: map<nat, seq<Rec>>, dev: nat): seq<Rec> {
    if dev in byDev then byDev[dev] else []
  }

  predicate IndexOk(byDev: map<nat, seq<Rec>>) {
    forall d :: d in byDev ==> Sorted(byDev[d])
  }

  /** acquire as a function: what it answers.  id names the claim it would make. */
  function AcquireAnswer(byDev: map<nat, seq<Rec>>, inflight: seq<Claim>, id: nat,
                         dev: nat, phys: int, length: int, dead: set<nat>): (a: Answer)
    requires IndexOk(byDev)
    ensures a.Hit? ==> a.rec in Records(byDev, dev) && Usable(a.rec, phys, length, dead)
                       && a.rec.phys <= phys && a.delta == phys - a.rec.phys
    ensures a.Busy? ==> a.claim in inflight && a.claim.Contains(dev, phys, length)
    ensures a.Mine? ==> a.claim == Claim(id, dev, phys, length)
    ensures a.Mine? ==> forall x :: x in inflight ==> !x.Contains(dev, phys, length)
    ensures !a.Hit? ==> NoneFound(Records(byDev, dev), phys, length, dead)
  {
    var r := Find(Records(byDev, dev), phys, length, dead);
    if r.Some? then Hit(r.value, phys - r.value.phys)
    else
      var c := FirstContaining(inflight, dev, phys, length);
      if c.Some? then Busy(c.value) else Mine(Claim(id, dev, phys, length))
  }

  function AddRecord(byDev: map<nat, seq<Rec>>, dev: nat, r: Rec): (out: map<nat, seq<Rec>>)
    requires IndexOk(byDev)
    ensures IndexOk(out)
    ensures forall d, x ::
      x in Records(out, d) <==> (d == dev && x == r) || (x in Records(byDev, d) && !(d == dev && x.SameKey(r)))
  {
    var out := byDev[dev := ReplaceOrInsert(Records(byDev, dev), r)];
    assert Records(out, dev) == ReplaceOrInsert(Records(byDev, dev), r);
    assert forall d :: d != dev ==> Records(out, d) == Records(byDev, d);
    out
  }

  /** The shared table.  Every method body runs under the one mutex.  A claim's id stands for its
      identity, and done holds the claims whose channel is closed. */
  class Dedup {
    var byDev: map<nat, seq<Rec>>
    var inflight: seq<Claim>
    var canClone: map<nat, bool>
    var next: nat
    var done: set<nat>
    ghost var probes: multiset<nat>   // the devices that were probed, as often as they were

    ghost predicate Valid()
      reads this
    {
      && (forall d :: probes[d] == if d in canClone then 1 else 0)
      && IndexOk(byDev)
      && Distinct(inflight)
      && NoNestedClaims(inflight)
      && (forall c :: c in inflight ==> c.id < next && c.id !in done)
      && (forall i :: i in done ==> i < next)
    }

    constructor ()
      ensures Valid() && byDev == map[] && inflight == [] && canClone == map[] && next == 0 && done == {}
      ensures probes == multiset{}
    {
      probes := multiset{};
      byDev, inflight, canClone, next, done := map[], [], map[], 0, {};
    }

    /** The backward scan over one device's records. */
    method FindRecord(recs: seq<Rec>, phys: int, length: int, dead: set<nat>) returns (r: Option<Rec>, delta: int)
      requires Sorted(recs)
      ensures r == Find(recs, phys, length, dead)
      ensures r.Some? ==> delta == phys - r.value.phys
    {
      r, delta := None, 0;
      var top := StartsBy(recs, phys);
      var n, k := 0, top;
      while k > 0
        invariant 0 <= n < FIND_DEPTH && 0 <= k && n + k == top
        invariant forall j :: k <= j < top ==> !Usable(recs[j], phys, length, dead)
        invariant Find(recs, phys, length, dead) == Scan(recs, phys, length, dead, k, n)
      {
        if Usable(recs[k - 1], phys, length, dead) {
          return Some(recs[k - 1]), phys - recs[k - 1].phys;
        }
        n := n + 1;
        k := k - 1;
        if n >= FIND_DEPTH {
          return;
        }
      }
    }

    /** Where the scan begins. */
    static method StartsBy(recs: seq<Rec>, phys: int) returns (n: nat)
      requires Sorted(recs)
      ensures n == Rank(recs, phys)
    {
      n := |recs|;
      while n > 0 && recs[n - 1].phys > phys
        invariant Rank(recs, phys) <= n <= |recs|
      {
        n := n - 1;
      }
    }

    method Acquire(srcDev: nat, phys: int, length: int, dead: set<nat>) returns (a: Answer)
      requires Valid()
      modifies this`inflight, this`next
      ensures Valid()
      ensures a == AcquireAnswer(byDev, old(inflight), old(next), srcDev, phys, length, dead)
      ensures inflight == if a.Mine? then old(inflight) + [a.claim] else old(inflight)
      ensures a.Mine? ==> a.claim.id !in done && next == old(next) + 1
      ensures !a.Mine? ==> next == old(next)
    {
      if srcDev in byDev {
        var r, delta := FindRecord(byDev[srcDev], phys, length, dead);
        if r.Some? {
          return Hit(r.value, delta);
        }
      }
      var held := Holder(inflight, srcDev, phys, length);
      if held.Some? {
        return Busy(held.value);
      }
      var c := Claim(next, srcDev, phys, length);
      inflight := inflight + [c];
      next := next + 1;
      a := Mine(c);
    }

    /** The earliest claim that contains the range. */
    static method Holder(inflight: seq<Claim>, srcDev: nat, phys: int, length: int) returns (c: Option<Claim>)
      ensures c == FirstContaining(inflight, srcDev, phys, length)
    {
      for i := 0 to |inflight|
        invariant FirstContaining(inflight, srcDev, phys, length)
               == FirstContaining(inflight[i..], srcDev, phys, length)
      {
        assert inflight[i..][0] == inflight[i] && inflight[i..][1..] == inflight[i + 1..];
        if inflight[i].Contains(srcDev, phys, length) {
          return Some(inflight[i]);
        }
      }
      c := None;
    }

    /** The claim table with the first entry for c cut out. */
    static method Removed(inflight: seq<Claim>, c: Claim) returns (out: seq<Claim>)
      ensures out == Without(inflight, c)
    {
      for i := 0 to |inflight|
        invariant Without(inflight, c) == inflight[..i] + Without(inflight[i..], c)
      {
        assert inflight[i..] == [inflight[i]] + inflight[i + 1..];
        if inflight[i] == c {
          return inflight[..i] + inflight[i + 1..];
        }
      }
      out := inflight;
      assert inflight[..|inflight|] == inflight && inflight[|inflight|..] == [];
    }

    /** Records and ends a claim in one step.  Closing a closed channel panics, so the claim must be in flight. */
    method Release(c: Claim, loc: Option<Rec>)
      requires Valid() && c in inflight
      modifies this`byDev, this`inflight, this`done
      ensures Valid()
      ensures byDev == if loc.Some? then AddRecord(old(byDev), c.dev, loc.value) else old(byDev)
      ensures inflight == Without(old(inflight), c)
      ensures c !in inflight && done == old(done) + {c.id}
    {
      if loc.Some? {
        Insert(c.dev, loc.value);
      }
      WithoutKeepsOrder(inflight, c);
      inflight := Removed(inflight, c);
      done := done + {c.id};
    }

    method Insert(srcDev: nat, loc: Rec)
      requires Valid()
      modifies this`byDev
      ensures Valid()
      ensures byDev == AddRecord(old(byDev), srcDev, loc)
    {
      var recs := if srcDev in byDev then byDev[srcDev] else [];
      byDev := byDev[srcDev := ReplaceOrInsert(recs, loc)];
    }

    /** A clone tried on dev. */
    method Probe(dev: nat) returns (ok: bool)
      modifies this`probes
      ensures probes == old(probes) + multiset{dev}
    {
      ok := *;
      probes := probes + multiset{dev};
    }

    /** The answer for dev.  A device is probed for its first caller alone, and its answer stays. */
    method CloneProbe(dev: nat) returns (ok: bool)
      requires Valid()
      modifies this`canClone, this`probes
      ensures Valid() && canClone == old(canClone)[dev := ok]
      ensures if dev in old(canClone) then ok == old(canClone)[dev] && probes == old(probes)
              else probes == old(probes) + multiset{dev}
    {
      if dev in canClone {
        ok := canClone[dev];
      } else {
        ok := Probe(dev);
        canClone := canClone[dev := ok];
      }
    }
  }
}
