/** Block geometry: how a file of `n` bytes is cut into blocks of `bs` bytes. `Pos` gives the
    byte position at which block `b` starts, capped at the end of the file, and `BlockOf`
    the block itself. Only this module reasons about products and quotients. */
module Geometry {
  import opened Wire

  function Blocks(n: int, bs: int): nat
    requires 0 <= n && 0 < bs
  {
    if n > 0 then (n - 1) / bs + 1 else 0
  }

  function Pos(n: nat, bs: int, b: nat): nat
    requires 0 < bs
  {
    if b == 0 then 0
    else
      var before := Pos(n, bs, b - 1);
      if before + bs < n then before + bs else n
  }

  function BlockOf(data: seq<byte>, bs: int, b: nat): seq<byte>
    requires 0 < bs
  {
    PosBounds(|data|, bs, b);
    data[Pos(|data|, bs, b)..Pos(|data|, bs, b + 1)]
  }

  lemma {:induction false} PosBounds(n: nat, bs: int, b: nat)
    requires 0 < bs
    ensures Pos(n, bs, b) <= Pos(n, bs, b + 1) <= n
    ensures Pos(n, bs, b + 1) - Pos(n, bs, b) <= bs
  {
    if b > 0 {
      PosBounds(n, bs, b - 1);
    }
  }

  lemma {:induction false} PosMonotone(n: nat, bs: int, a: nat, b: nat)
    requires 0 < bs && a <= b
    ensures Pos(n, bs, a) <= Pos(n, bs, b) <= n
    decreases b
  {
    PosBounds(n, bs, a);
    if a < b {
      PosMonotone(n, bs, a, b - 1);
      PosBounds(n, bs, b - 1);
    }
  }

  /** `Pos` is the product the code computes, capped at the file size. */
  lemma {:induction false} PosIsProduct(n: nat, bs: int, b: nat)
    requires 0 < bs
    ensures 0 <= b * bs
    ensures Pos(n, bs, b) == if b * bs < n then b * bs else n
  {
    if b > 0 {
      PosIsProduct(n, bs, b - 1);
      assert b * bs == (b - 1) * bs + bs;
    }
  }

  lemma QuotientBounds(n: int, bs: int, b: nat)
    requires 0 < n && 0 < bs
    ensures b <= (n - 1) / bs <==> b * bs < n
  {
    var q := (n - 1) / bs;
    assert n - 1 == q * bs + (n - 1) % bs;
    if b <= q {
      MulMonotone(b, q, bs);
    } else {
      MulMonotone(q + 1, b, bs);
      assert (q + 1) * bs == q * bs + bs;
    }
  }

  lemma {:induction false} MulMonotone(a: nat, b: nat, m: nat)
    requires a <= b
    ensures a * m <= b * m
  {
    assert b * m == a * m + (b - a) * m;
    MulNonNegative(b - a, m);
  }

  lemma QuotientUnique(d: nat, m: nat, q: nat, r: nat, bs: nat)
    requires d * bs + m == q * bs + r && m < bs && r < bs
    ensures d == q && m == r
  {
    if d < q {
      MulMonotone(d + 1, q, bs);
    } else if q < d {
      MulMonotone(q + 1, d, bs);
    }
  }

  lemma DivModUnique(n: nat, bs: int, q: nat, r: nat)
    requires 0 < bs && n == q * bs + r && r < bs
    ensures n / bs == q && n % bs == r
  {
    var d, m := n / bs, n % bs;
    assert n == d * bs + m;
    QuotientUnique(d, m, q, r, bs);
  }

  lemma MulNonNegative(a: nat, b: nat)
    ensures 0 <= a * b
  {}

  /** A block index is in range exactly when its start lies inside the file; the last block
      ends at the end of the file, and only the last block may be short. */
  lemma BlockRange(n: nat, bs: int, b: nat)
    requires 0 < bs
    ensures b < Blocks(n, bs) <==> Pos(n, bs, b) < n
    ensures b < Blocks(n, bs) ==> Pos(n, bs, b) == b * bs
    ensures b >= Blocks(n, bs) ==> Pos(n, bs, b) == n
    ensures b < Blocks(n, bs) ==> 0 < Pos(n, bs, b + 1) - Pos(n, bs, b) <= bs
    ensures b < Blocks(n, bs) ==>
      Pos(n, bs, b + 1) - Pos(n, bs, b) == if bs <= n - b * bs then bs else n - b * bs
  {
    PosIsProduct(n, bs, b);
    PosBounds(n, bs, b);
    if n > 0 {
      QuotientBounds(n, bs, b);
    }
  }

  lemma BlockCountBound(n: nat, bs: int)
    requires 0 < bs
    ensures Blocks(n, bs) <= n
    ensures Pos(n, bs, Blocks(n, bs)) == n
  {
    BlockRange(n, bs, Blocks(n, bs));
    if n > 0 {
      var q := (n - 1) / bs;
      assert n - 1 == q * bs + (n - 1) % bs;
      MulMonotone(1, bs, q);
    }
  }

  /** Blocks of a prefix-sharing file agree: the block depends only on the bytes it covers. */
  lemma BlockOfLength(data: seq<byte>, bs: int, b: nat)
    requires 0 < bs
    ensures |BlockOf(data, bs, b)| == Pos(|data|, bs, b + 1) - Pos(|data|, bs, b)
    ensures b < Blocks(|data|, bs) <==> BlockOf(data, bs, b) != []
    ensures b < Blocks(|data|, bs) ==> |BlockOf(data, bs, b)| <= bs
  {
    PosBounds(|data|, bs, b);
    BlockRange(|data|, bs, b);
  }

  /** The per-block lengths of a file sum to its size. */
  function LengthSum(n: nat, bs: int, count: nat): nat
    requires 0 < bs
  {
    if count == 0 then 0
    else
      PosBounds(n, bs, count - 1);
      LengthSum(n, bs, count - 1) + (Pos(n, bs, count) - Pos(n, bs, count - 1))
  }

  lemma {:induction false} LengthSumIsPos(n: nat, bs: int, count: nat)
    requires 0 < bs
    ensures LengthSum(n, bs, count) == Pos(n, bs, count)
  {
    if count > 0 {
      LengthSumIsPos(n, bs, count - 1);
    }
  }

  /** The bytes a count of leading blocks stands for, as both engines compute it. */
  function Committed(f: FileEntry, blocks: int): int {
    if blocks >= f.blocks then f.size else blocks * f.blockSize
  }

  /** The geometry a validated manifest guarantees for each entry. */
  predicate Shaped(f: FileEntry) {
    && 0 <= f.size && 0 < f.blockSize <= MAX_MANIFEST_BLOCK_BYTES
    && f.blocks == Blocks(f.size, f.blockSize)
  }

  lemma CommittedIsPos(f: FileEntry, b: nat)
    requires Shaped(f)
    ensures Committed(f, b) == Pos(f.size, f.blockSize, b)
  {
    BlockRange(f.size, f.blockSize, b);
  }

  /** The receiver's allocation for block `b`: the block size, capped by the ceiling and by
      what is left of the file. */
  function BlockLength(f: FileEntry, b: nat): int {
    var cap := if f.blockSize < MAX_MANIFEST_BLOCK_BYTES then f.blockSize else MAX_MANIFEST_BLOCK_BYTES;
    var rem := f.size - b * f.blockSize;
    if cap > rem then rem else cap
  }

  lemma BlockLengthIsPos(f: FileEntry, b: nat)
    requires Shaped(f) && b < f.blocks
    ensures BlockLength(f, b) == Pos(f.size, f.blockSize, b + 1) - Pos(f.size, f.blockSize, b) > 0
  {
    BlockRange(f.size, f.blockSize, b);
  }
}
