/** Values shared by every part of the transfer protocol: bytes, ideal digests, manifests
    and the control messages that travel inside sealed frames. */
module Wire {

  type byte = x: int | 0 <= x < 256

  datatype Option<+T> = None | Some(value: T)

  const MAX_INT64: int := 0x7FFF_FFFF_FFFF_FFFF
  const MAX_FRAME_PAYLOAD: int := 0xFFFF
  const MAX_MANIFEST_BLOCK_BYTES: int := 16 * 1024 * 1024
  const DEFAULT_INFLIGHT_BLOCKS: int := 8

  /** A collision-free SHA-256: the digest of a byte string determines that byte string.
      A streaming digest is represented by the bytes fed to it so far. */
  datatype Sha = Sha(pre: seq<byte>)

  datatype FileEntry = FileEntry(
    idx: int,
    name: seq<byte>,
    size: int,
    lastModified: int,
    blockSize: int,
    blocks: int,
    digest: Sha)

  datatype Manifest = Manifest(transferId: seq<byte>, files: seq<FileEntry>, totalSize: int)

  /** The canonical fingerprint of a manifest: a digest over an injective encoding. */
  datatype Fingerprint = Fingerprint(manifest: Manifest)

  /** The digest announced by Complete: the file's own digest for a single file, and a
      digest over the ordered list of digests otherwise. */
  datatype SetDigest = Single(digest: Sha) | Listed(digests: seq<Sha>)

  function CompletionDigest(files: seq<FileEntry>): SetDigest {
    if |files| == 1 then Single(files[0].digest)
    else Listed(seq(|files|, i requires 0 <= i < |files| => files[i].digest))
  }

  /** The announced digest stands for every file: two lists have the same one exactly when they
      agree in length and file by file. */
  lemma CompletionDigestExactly(a: seq<FileEntry>, b: seq<FileEntry>)
    ensures CompletionDigest(a) == CompletionDigest(b)
            <==> |a| == |b| && forall i :: 0 <= i < |a| ==> a[i].digest == b[i].digest
  {
    if CompletionDigest(a) == CompletionDigest(b) && CompletionDigest(a).Listed? {
      forall i | 0 <= i < |a| ensures |a| == |b| && a[i].digest == b[i].digest {
        assert CompletionDigest(a).digests[i] == CompletionDigest(b).digests[i];
      }
    }
  }

  datatype ResumeFileState = ResumeFileState(idx: int, haveBlocks: int)

  /** `fingerprint` is None for a peer that predates the fingerprint binding. */
  datatype ResumeState = ResumeState(
    transferId: seq<byte>,
    fingerprint: Option<Fingerprint>,
    files: seq<ResumeFileState>)

  datatype Reason =
    Integrity | DigestMismatch | SinkError | Canceled | Quota | RetryExhausted | Other

  datatype ControlOp = Pause | Resume | Cancel

  datatype Msg =
    | ManifestMsg(manifest: Manifest)
    | BlockData(fileIdx: nat, blockIdx: nat, frameOff: nat, payload: seq<byte>)
    | BlockHash(hashFile: int, hashBlock: int, sha: Sha)
    | Ack(ackFile: int, ackBlock: int)
    | Nack(nackFile: int, nackBlock: int)
    | ControlMsg(op: ControlOp)
    | Complete(digest: SetDigest)
    | Done
    | Fail(reason: Reason)
    | ResumeMsg(state: ResumeState)

  /** What a transport hands to an engine: a frame the peer really sealed, identified by its
      authenticated counter, or bytes that do not authenticate. */
  datatype Frame = Sealed(counter: nat, msg: Msg) | Forged(claimed: nat)

  /** How an engine stands: still going, settled without an error, or settled with one. */
  datatype Outcome = Running | Succeeded | Failed(reason: Reason)

  /** The counter the next frame will be sealed under, and the counters of the frames sealed so
      far, in order. */
  datatype Sealer = Sealer(next: nat, used: seq<nat>)

  /** One engine's view of the sealed channel: the lowest counter it still accepts, the
      counters it has accepted so far, the messages it has sealed, and the counters it sealed
      them under. */
  datatype Link = Link(recvCounter: nat, accepted: seq<nat>, sent: seq<Msg>, sealer: Sealer)

  const FreshLink: Link := Link(0, [], [], Sealer(0, []))

  /** Seals one message under the current counter and advances the counter, whether or not the
      frame can then be sent. */
  function SealNext(l: Link, m: Msg): Link {
    l.(sent := l.sent + [m], sealer := Sealer(l.sealer.next + 1, l.sealer.used + [l.sealer.next]))
  }

  /** The frame the `i`-th sealed message travels in. */
  function FrameOf(l: Link, i: nat): Frame
    requires i < |l.sent|
  {
    Sealed(if i < |l.sealer.used| then l.sealer.used[i] else 0, l.sent[i])
  }

  /** Message `i` was sealed under counter `i`, and the next counter is unused. */
  predicate Numbered(l: Link) {
    && |l.sealer.used| == |l.sent| == l.sealer.next
    && (forall i :: 0 <= i < |l.sealer.used| ==> l.sealer.used[i] == i)
  }

  /** Between deliveries a link only seals more messages: what a counter was used for stays. */
  predicate SealsMore(a: Link, b: Link) {
    && b.recvCounter == a.recvCounter && b.accepted == a.accepted
    && a.sent <= b.sent && a.sealer.used <= b.sealer.used
    && (Numbered(a) ==> Numbered(b))
  }

  /** The spelling of identifiers and digests: `n` lowercase hexadecimal characters. */
  predicate LowerHex(s: seq<byte>, n: nat) {
    |s| == n && forall i :: 0 <= i < |s| ==> 0x30 <= s[i] <= 0x39 || 0x61 <= s[i] <= 0x66
  }
}
