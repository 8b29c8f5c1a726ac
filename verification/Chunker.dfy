/** Re-chunking an arbitrary byte stream into block-aligned frame pieces, and the simple cut of
    the whole file it refines. */
module Chunker {
  import opened Wire
  import opened Geometry

  datatype Piece = Piece(blockIdx: nat, frameOff: nat, payload: seq<byte>, last: bool)

  function Flatten(chunks: seq<seq<byte>>): seq<byte> {
    if chunks == [] then [] else Flatten(chunks[..|chunks| - 1]) + chunks[|chunks| - 1]
  }

  /** The length of a full frame at `pos`: never past the end of the block. */
  function Target(bs: int, fs: int, pos: nat): (t: nat)
    requires 0 < bs && 0 < fs
    ensures 0 < t <= bs && t <= fs
  {
    var rem := bs - pos % bs;
    if fs < rem then fs else rem
  }

  /** A piece starting at file position `pos`. */
  function PieceAt(pos: nat, bs: int, payload: seq<byte>): Piece
    requires 0 < bs
  {
    Piece(pos / bs, pos % bs, payload, pos % bs + |payload| == bs)
  }

  function FullPiece(data: seq<byte>, bs: int, fs: int, pos: nat): Piece
    requires 0 < bs && 0 < fs && pos + Target(bs, fs, pos) <= |data|
  {
    PieceAt(pos, bs, data[pos..pos + Target(bs, fs, pos)])
  }

  /** Cutting `data` from `pos` on: full frames, then what is left of the stream as a last,
      shorter one. */
  function Cut(data: seq<byte>, bs: int, fs: int, pos: nat): (ps: seq<Piece>)
    requires 0 < bs && 0 < fs && pos <= |data|
    decreases |data| - pos
  {
    if pos == |data| then []
    else if pos + Target(bs, fs, pos) <= |data| then
      [FullPiece(data, bs, fs, pos)] + Cut(data, bs, fs, pos + Target(bs, fs, pos))
    else [PieceAt(pos, bs, data[pos..]).(last := true)]
  }

  /** The full frames that can be cut before more data arrives, and where they end. */
  function FullPieces(data: seq<byte>, bs: int, fs: int, pos: nat): (seq<Piece>, nat)
    requires 0 < bs && 0 < fs && pos <= |data|
    decreases |data| - pos
  {
    if pos + Target(bs, fs, pos) <= |data| then
      var (rest, end) := FullPieces(data, bs, fs, pos + Target(bs, fs, pos));
      ([FullPiece(data, bs, fs, pos)] + rest, end)
    else ([], pos)
  }

  /** Full frames do not change when more data arrives behind them. */
  lemma {:induction false} FullPiecesExtend(data: seq<byte>, more: seq<byte>, bs: int, fs: int, pos: nat)
    requires 0 < bs && 0 < fs && pos <= |data|
    ensures var (a, end) := FullPieces(data, bs, fs, pos);
            && pos <= end <= |data|
            && FullPieces(data + more, bs, fs, pos).0 == a + FullPieces(data + more, bs, fs, end).0
            && FullPieces(data + more, bs, fs, pos).1 == FullPieces(data + more, bs, fs, end).1
            && end + Target(bs, fs, end) > |data|
    decreases |data| - pos
  {
    hide Target, PieceAt;
    var t := Target(bs, fs, pos);
    if pos + t <= |data| {
      FullPiecesExtend(data, more, bs, fs, pos + t);
      assert (data + more)[pos..pos + t] == data[pos..pos + t];
    }
  }

  /** The whole cut is the full frames followed by the remainder, if any. */
  lemma {:induction false} CutSplits(data: seq<byte>, bs: int, fs: int, pos: nat)
    requires 0 < bs && 0 < fs && pos <= |data|
    ensures var (a, end) := FullPieces(data, bs, fs, pos);
            && pos <= end <= |data|
            && Cut(data, bs, fs, pos)
               == a + (if end == |data| then [] else [PieceAt(end, bs, data[end..]).(last := true)])
    decreases |data| - pos
  {
    var t := Target(bs, fs, pos);
    if pos + t <= |data| { CutSplits(data, bs, fs, pos + t); }
  }

  /** What a chunk completes is cut at once. */
  method EmitFull(buf: seq<byte>, at: nat, bs: int, fs: int, ghost data: seq<byte>)
    returns (out: seq<Piece>, start: nat, pos: nat)
    requires 0 < bs && 0 < fs && at <= |data| && buf == data[at..]
    ensures out == FullPieces(data, bs, fs, at).0 && pos == FullPieces(data, bs, fs, at).1
    ensures start <= |buf| && pos <= |data| && buf[start..] == data[pos..]
  {
    hide Target, FullPieces, PieceAt;
    out, start, pos := [], 0, at;
    while |buf| - start >= Target(bs, fs, pos)
      invariant start <= |buf| && pos == at + start <= |data|
      invariant FullPieces(data, bs, fs, at).0 == out + FullPieces(data, bs, fs, pos).0
      invariant FullPieces(data, bs, fs, at).1 == FullPieces(data, bs, fs, pos).1
      decreases |buf| - start
    {
      var t := Target(bs, fs, pos);
      NextFull(data, bs, fs, pos);
      assert buf[start..start + t] == data[pos..pos + t];
      out := out + [PieceAt(pos, bs, buf[start..start + t])];
      start := start + t;
      pos := pos + t;
    }
    NoFull(data, bs, fs, pos);
  }

  lemma NextFull(data: seq<byte>, bs: int, fs: int, pos: nat)
    requires 0 < bs && 0 < fs && pos + Target(bs, fs, pos) <= |data|
    ensures var t := Target(bs, fs, pos);
            && FullPieces(data, bs, fs, pos).0
               == [PieceAt(pos, bs, data[pos..pos + t])] + FullPieces(data, bs, fs, pos + t).0
            && FullPieces(data, bs, fs, pos).1 == FullPieces(data, bs, fs, pos + t).1
  {}

  lemma NoFull(data: seq<byte>, bs: int, fs: int, pos: nat)
    requires 0 < bs && 0 < fs && pos <= |data| < pos + Target(bs, fs, pos)
    ensures FullPieces(data, bs, fs, pos) == ([], pos)
  {}

  /** The end of the stream flushes what is left, which is less than a full frame. */
  method Flush(buf: seq<byte>, at: nat, bs: int, fs: int, ghost data: seq<byte>) returns (out: seq<Piece>)
    requires 0 < bs && 0 < fs && at <= |data| && buf == data[at..] && |buf| < Target(bs, fs, at)
    ensures out == if at == |data| then [] else [PieceAt(at, bs, data[at..]).(last := true)]
  {
    hide Target, PieceAt;
    var pos, start := at, 0;
    out := [];
    while |buf| - start > 0
      invariant 0 <= start <= |buf| && pos == at + start
      invariant (start == 0 && out == []) || (start == |buf| > 0 && out == [PieceAt(at, bs, data[at..]).(last := true)])
      decreases |buf| - start
    {
      var t := Target(bs, fs, pos);
      if |buf| - start < t { t := |buf| - start; }
      assert buf[start..start + t] == data[at..];
      var piece := PieceAt(pos, bs, buf[start..start + t]);
      start := start + t;
      pos := pos + t;
      if |buf| - start == 0 { piece := piece.(last := true); }
      out := out + [piece];
    }
  }

  /** The chunker: whatever the chunking, it emits the simple cut of the whole stream. */
  method ReChunk(chunks: seq<seq<byte>>, bs: int, fs: int) returns (out: seq<Piece>)
    requires 0 < bs && 0 < fs
    ensures out == Cut(Flatten(chunks), bs, fs, 0)
  {
    hide Target, Cut, FullPieces, PieceAt;
    var pos: nat, buf: seq<byte>, start: nat := 0, [], 0;
    out := [];
    ghost var data: seq<byte> := [];
    assert FullPieces([], bs, fs, 0) == ([], 0) by { NothingYet(bs, fs); }
    var i := 0;
    while i < |chunks|
      invariant 0 <= i <= |chunks| && data == Flatten(chunks[..i])
      invariant start <= |buf| && pos <= |data| && buf[start..] == data[pos..]
      invariant out == FullPieces(data, bs, fs, 0).0 && pos == FullPieces(data, bs, fs, 0).1
    {
      assert chunks[..i + 1][..i] == chunks[..i];
      FullPiecesExtend(data, chunks[i], bs, fs, 0);
      buf := buf[start..] + chunks[i];
      data := data + chunks[i];
      var more;
      more, start, pos := EmitFull(buf, pos, bs, fs, data);
      out := out + more;
      i := i + 1;
    }
    assert chunks[..i] == chunks;
    CutSplits(data, bs, fs, 0);
    FullPiecesExtend(data, [], bs, fs, 0);
    var tail := Flush(buf[start..], pos, bs, fs, data);
    out := out + tail;
  }

  lemma NothingYet(bs: int, fs: int)
    requires 0 < bs && 0 < fs
    ensures FullPieces([], bs, fs, 0) == ([], 0)
  {}

  // ---------------------------------------------------------------- what the pieces are

  function Payloads(ps: seq<Piece>): seq<byte> {
    if ps == [] then [] else ps[0].payload + Payloads(ps[1..])
  }

  /** The pieces put together are the file. */
  lemma {:induction false} PayloadsConcatenate(data: seq<byte>, bs: int, fs: int, pos: nat)
    requires 0 < bs && 0 < fs && pos <= |data|
    ensures Payloads(Cut(data, bs, fs, pos)) == data[pos..]
    decreases |data| - pos
  {
    hide Target;
    var t := Target(bs, fs, pos);
    if pos < |data| && pos + t <= |data| {
      PayloadsConcatenate(data, bs, fs, pos + t);
      var ps := Cut(data, bs, fs, pos);
      assert ps[1..] == Cut(data, bs, fs, pos + t);
      assert data[pos..] == data[pos..pos + t] + data[pos + t..];
    } else if pos < |data| {
      var ps := Cut(data, bs, fs, pos);
      assert ps[1..] == [];
    }
  }

  lemma TargetFits(bs: int, fs: int, pos: nat)
    requires 0 < bs && 0 < fs
    ensures pos % bs + Target(bs, fs, pos) <= bs
    ensures Target(bs, fs, pos) < fs ==> pos % bs + Target(bs, fs, pos) == bs
  {}

  lemma AdvanceInBlock(pos: nat, bs: int, t: nat)
    requires 0 < bs && pos % bs + t <= bs
    ensures pos % bs + t < bs ==> (pos + t) % bs == pos % bs + t
    ensures pos % bs + t == bs ==> (pos + t) % bs == 0
  {
    var q := pos / bs;
    assert pos == q * bs + pos % bs;
    if pos % bs + t < bs { DivModUnique(pos + t, bs, q, pos % bs + t); } else { DivModUnique(pos + t, bs, q + 1, 0); }
  }

  /** Piece `k` starts where the pieces before it end, in the block of that position, never
      reaches into the next block, and has at most a frame's length. */
  lemma {:induction false} PiecesAreAligned(data: seq<byte>, bs: int, fs: int, pos: nat, k: nat)
    requires 0 < bs && 0 < fs && pos <= |data| && k < |Cut(data, bs, fs, pos)|
    ensures var ps := Cut(data, bs, fs, pos);
            && ps[k].blockIdx * bs + ps[k].frameOff == pos + |Payloads(ps[..k])|
            && ps[k].frameOff < bs && 0 < |ps[k].payload| <= fs && ps[k].frameOff + |ps[k].payload| <= bs
    decreases k
  {
    var t := Target(bs, fs, pos);
    var ps := Cut(data, bs, fs, pos);
    assert pos / bs * bs + pos % bs == pos;
    if k == 0 {
      assert ps[..0] == [];
    } else {
      PiecesAreAligned(data, bs, fs, pos + t, k - 1);
      var rest := Cut(data, bs, fs, pos + t);
      assert ps[k] == rest[k - 1];
      assert ps[..k][0] == ps[0] && ps[..k][1..] == rest[..k - 1];
    }
  }

  // ---------------------------------------------------------------- whole blocks

  function BlockPieces(data: seq<byte>, bs: int, i: nat): seq<Piece>
    requires 0 < bs
    decreases Blocks(|data|, bs) - i
  {
    if i >= Blocks(|data|, bs) then [] else [Piece(i, 0, BlockOf(data, bs, i), true)] + BlockPieces(data, bs, i + 1)
  }

  /** With frames as long as blocks, as the sender calls it: one piece per block of the
      manifest, flagged last, holding exactly that block. */
  lemma {:induction false} WholeBlocks(data: seq<byte>, bs: int, i: nat)
    requires 0 < bs && i <= Blocks(|data|, bs)
    ensures Pos(|data|, bs, i) <= |data|
    ensures Cut(data, bs, bs, Pos(|data|, bs, i)) == BlockPieces(data, bs, i)
    decreases Blocks(|data|, bs) - i
  {
    hide Pos, Blocks, Target;
    var n := |data|;
    BlockCountBound(n, bs);
    PosMonotone(n, bs, i, Blocks(n, bs));
    if i < Blocks(n, bs) {
      BlockRange(n, bs, i);
      WholeBlocks(data, bs, i + 1);
      DivModUnique(Pos(n, bs, i), bs, i, 0);
      TargetFits(bs, bs, Pos(n, bs, i));
      var pos, next := Pos(n, bs, i), Pos(n, bs, i + 1);
      assert pos < next <= n && BlockOf(data, bs, i) == data[pos..next];
      if pos + bs <= n {
        assert next == pos + bs;
        assert FullPiece(data, bs, bs, pos) == Piece(i, 0, data[pos..next], true);
      } else {
        assert next == n && data[pos..] == data[pos..next];
      }
    }
  }

  // ---------------------------------------------------------------- the last-in-block flag

  lemma ModSum(o: nat, r: nat, fs: int)
    requires 0 < fs && o % fs == 0 && r <= fs
    ensures (o + r) % fs == (if r == fs then 0 else r)
  {
    var q := o / fs;
    assert o == q * fs;
    if r < fs { DivModUnique(o + r, fs, q, r); } else { DivModUnique(o + r, fs, q + 1, 0); }
  }

  /** The condition, at the last piece of the stream. */
  lemma LastPieceFlag(pos: nat, bs: int, fs: int, r: nat)
    requires 0 < bs && 0 < fs && pos % bs % fs == 0 && 0 < r <= Target(bs, fs, pos)
    ensures (r < Target(bs, fs, pos) || pos % bs + r == bs) <==> ((pos + r) % bs == 0 || (pos + r) % bs % fs != 0)
  {
    hide Target;
    TargetFits(bs, fs, pos);
    AdvanceInBlock(pos, bs, r);
    ModSum(pos % bs, r, fs);
  }

  lemma OffsetStaysAligned(pos: nat, bs: int, fs: int)
    requires 0 < bs && 0 < fs && pos % bs % fs == 0
    ensures (pos + Target(bs, fs, pos)) % bs % fs == 0
  {
    hide Target;
    var t := Target(bs, fs, pos);
    TargetFits(bs, fs, pos);
    AdvanceInBlock(pos, bs, t);
    ModSum(pos % bs, t, fs);
  }

  /** The final piece of a non-empty stream is flagged unless the stream ends on a frame
      boundary inside a block. */
  lemma {:induction false} FinalFlagExactly(data: seq<byte>, bs: int, fs: int, pos: nat)
    requires 0 < bs && 0 < fs && pos < |data| && pos % bs % fs == 0
    ensures var ps := Cut(data, bs, fs, pos);
            ps != [] && (ps[|ps| - 1].last <==> |data| % bs == 0 || |data| % bs % fs != 0)
    decreases |data| - pos
  {
    hide Target;
    var t := Target(bs, fs, pos);
    if pos + t < |data| {
      OffsetStaysAligned(pos, bs, fs);
      FinalFlagExactly(data, bs, fs, pos + t);
    } else {
      LastPieceFlag(pos, bs, fs, |data| - pos);
    }
  }

  /** It does happen: two bytes in frames of two, inside a block of four. */
  lemma FinalFlagMissing(a: byte, b: byte)
    ensures Cut([a, b], 4, 2, 0) == [Piece(0, 0, [a, b], false)]
  {
    assert Target(4, 2, 0) == 2;
    assert [a, b][0..2] == [a, b];
  }

  /** Every piece that fills its block is flagged, and no piece in the middle is. */
  lemma {:induction false} FlagMeansBlockEnd(data: seq<byte>, bs: int, fs: int, pos: nat, k: nat)
    requires 0 < bs && 0 < fs && pos <= |data| && k < |Cut(data, bs, fs, pos)|
    ensures var ps := Cut(data, bs, fs, pos);
            && (ps[k].frameOff + |ps[k].payload| == bs ==> ps[k].last)
            && (ps[k].last ==> ps[k].frameOff + |ps[k].payload| == bs || k == |ps| - 1)
    decreases k
  {
    var t := Target(bs, fs, pos);
    if k > 0 {
      FlagMeansBlockEnd(data, bs, fs, pos + t, k - 1);
      var ps, rest := Cut(data, bs, fs, pos), Cut(data, bs, fs, pos + t);
      assert ps[k] == rest[k - 1];
    }
  }
}
