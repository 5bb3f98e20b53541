/** File contents as byte sequences.  Bytes past the end of a file read as zero, which is what
    makes a hole, a skipped block and a truncate-to-size agree. */
module ByteFiles {
  newtype Byte = x: int | 0 <= x < 256

  function Min(a: int, b: int): int { if a <= b then a else b }

  function Max(a: int, b: int): int { if a >= b then a else b }

  function Zeros(n: int): (z: seq<Byte>)
    ensures |z| == Max(n, 0)
    ensures forall k :: 0 <= k < |z| ==> z[k] == 0
  {
    seq(Max(n, 0), _ => 0)
  }

  /** The byte that a read at offset k sees. */
  function At(f: seq<Byte>, k: int): Byte {
    if 0 <= k < |f| then f[k] else 0
  }

  /** pwrite: the gap between the old end and off is filled with zeros. */
  function WriteAt(f: seq<Byte>, off: nat, p: seq<Byte>): (g: seq<Byte>)
    ensures |g| == if p == [] then |f| else Max(|f|, off + |p|)
    ensures forall k :: At(g, k) == if off <= k < off + |p| then p[k - off] else At(f, k)
  {
    if p == [] then f
    else
      var wide := f + Zeros(off + |p| - |f|);
      wide[..off] + p + wide[off + |p|..]
  }

  /** ftruncate: cuts the tail or extends with a hole. */
  function Truncate(f: seq<Byte>, n: nat): (g: seq<Byte>)
    ensures |g| == n
    ensures forall k :: At(g, k) == if k < n then At(f, k) else 0
  {
    if n <= |f| then f[..n] else f + Zeros(n - |f|)
  }

  /** Two files of one length that read the same everywhere are the same file. */
  lemma SameReads(f: seq<Byte>, g: seq<Byte>)
    requires |f| == |g|
    requires forall k :: 0 <= k < |f| ==> At(f, k) == At(g, k)
    ensures f == g
  {
    forall k | 0 <= k < |f| ensures f[k] == g[k] {
      assert At(f, k) == At(g, k);
    }
  }

  /** A write that touches at most [lo, hi), and cuts nothing off. */
  ghost predicate OnlyRange(f: seq<Byte>, g: seq<Byte>, lo: int, hi: int) {
    |f| <= |g| && forall k :: !(lo <= k < hi) ==> At(g, k) == At(f, k)
  }

  /** The first kept bytes of f have not all survived in g. */
  ghost predicate Discards(f: seq<Byte>, g: seq<Byte>, kept: nat) {
    |g| < Min(|f|, kept) || exists k :: 0 <= k < kept && At(g, k) != At(f, k)
  }

  // ---- Hole detection ----

  /** The unit of hole detection. */
  const SPARSE_BLOCK: nat := 4096

  /** The half-open range of the block of p that holds index k; the last block may be short. */
  function BlockLo(k: nat): (lo: nat)
    ensures lo <= k < lo + SPARSE_BLOCK
    ensures lo % SPARSE_BLOCK == 0
  {
    k - k % SPARSE_BLOCK
  }

  predicate AllZero(p: seq<Byte>) {
    forall j :: 0 <= j < |p| ==> p[j] == 0
  }

  /** Index k of p lies in a block that holds only zeros. */
  predicate InZeroBlock(p: seq<Byte>, k: nat)
    requires k < |p|
  {
    AllZero(p[BlockLo(k)..Min(BlockLo(k) + SPARSE_BLOCK, |p|)])
  }

  /** g is f after a write of p at off that skipped the all-zero blocks of p. */
  ghost predicate WroteNonZero(f: seq<Byte>, p: seq<Byte>, off: nat, g: seq<Byte>) {
    && |f| <= |g| <= Max(|f|, off + |p|)
    && forall k :: At(g, k) ==
        if off <= k < off + |p| && !InZeroBlock(p, k - off) then p[k - off] else At(f, k)
  }

  /** A byte in an all-zero block is zero. */
  lemma ZeroBlockByte(p: seq<Byte>, k: nat)
    requires k < |p| && InZeroBlock(p, k)
    ensures p[k] == 0
  {
    var q := p[BlockLo(k)..Min(BlockLo(k) + SPARSE_BLOCK, |p|)];
    assert q[k - BlockLo(k)] == p[k];
  }

  /** Onto a range that reads as zero, skipping the zero blocks loses nothing: the range then
      reads as p, and every other byte is as before. */
  lemma WroteNonZeroIsWrite(f: seq<Byte>, p: seq<Byte>, off: nat, g: seq<Byte>)
    requires WroteNonZero(f, p, off, g)
    requires forall k :: off <= k < off + |p| ==> At(f, k) == 0
    ensures forall k :: At(g, k) == if off <= k < off + |p| then p[k - off] else At(f, k)
  {
    forall k ensures At(g, k) == if off <= k < off + |p| then p[k - off] else At(f, k) {
      if off <= k < off + |p| && InZeroBlock(p, k - off) {
        ZeroBlockByte(p, k - off);
        assert At(f, k) == 0;
      }
    }
  }

  /** Less than a block away from k there is a byte that is not zero. */
  ghost predicate Near(src: seq<Byte>, k: int) {
    exists j :: 0 <= j < |src| && k - SPARSE_BLOCK < j < k + SPARSE_BLOCK && src[j] != 0
  }

  /** Of a buffer read at off, a byte outside the zero blocks has a non-zero byte of the file near it. */
  lemma NonZeroIsNear(src: seq<Byte>, p: seq<Byte>, off: nat, k: nat)
    requires off + |p| <= |src| && p == src[off..off + |p|] && k < |p| && !InZeroBlock(p, k)
    ensures Near(src, off + k)
  {
    var lo, hi := BlockLo(k), Min(BlockLo(k) + SPARSE_BLOCK, |p|);
    var q := p[lo..hi];
    var j :| 0 <= j < |q| && q[j] != 0;
    assert src[off + lo + j] == p[lo + j] == q[j];
  }
}
