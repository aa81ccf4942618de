/**
 What a download is supposed to produce: drop the DC header, cut the rest into
 blocks, open each block, stop at the first one that does not open.
 Independent of how the network delivers the bytes.
 */
module DownloadSpec {
  import opened Prelude

  newtype Byte = b: int | 0 <= b < 256

  type Bytes = seq<Byte>

  const HEADER_LEN: nat := 32
  const MAGIC: Bytes := [36, 36, 100, 99, 102, 105, 108, 101, 36, 36]  // $$dcfile$$
  const PLAIN_BLOCK: nat := 3 * 1024 * 1024
  const SEAL_OVERHEAD: nat := 28

  /** The optional symmetric key, seen only through what it opens. */
  datatype Cipher = Plain | Keyed(decrypt: Bytes -> Option<Bytes>) {
    function BlockLen(): (n: nat)
      ensures n > HEADER_LEN
    {
      if Plain? then PLAIN_BLOCK else PLAIN_BLOCK + SEAL_OVERHEAD
    }

    function Open(block: Bytes): Option<Bytes> {
      if Plain? then Some(block) else decrypt(block)
    }
  }

  // ---------------------------------------------------------------- the specification

  predicate HasHeader(d: Bytes) {
    |d| >= HEADER_LEN && d[..|MAGIC|] == MAGIC
  }

  function Body(d: Bytes): Bytes {
    if HasHeader(d) then d[HEADER_LEN..] else d
  }

  /** The length of the next block: full, or the shorter tail. */
  function NextLen(c: Cipher, body: Bytes): nat {
    if |body| < c.BlockLen() then |body| else c.BlockLen()
  }

  /** The opened blocks up to the first that does not open. */
  function Pieces(c: Cipher, body: Bytes): seq<Bytes>
    decreases |body|
  {
    if body == [] then [] else
      var n := NextLen(c, body);
      match c.Open(body[..n])
      case None => []
      case Some(piece) => [piece] + Pieces(c, body[n..])
  }

  /** Does every block open, the tail included? */
  predicate Whole(c: Cipher, body: Bytes)
    decreases |body|
  {
    body == [] ||
    var n := NextLen(c, body);
    c.Open(body[..n]).Some? && Whole(c, body[n..])
  }

  /** Does every full block open, whatever the tail does? */
  predicate FullBlocksOpen(c: Cipher, body: Bytes)
    decreases |body|
  {
    |body| < c.BlockLen() ||
    (c.Open(body[..c.BlockLen()]).Some? && FullBlocksOpen(c, body[c.BlockLen()..]))
  }

  function Flatten(pieces: seq<Bytes>): Bytes {
    if pieces == [] then [] else pieces[0] + Flatten(pieces[1..])
  }

  /** The file a complete download of `d` leaves behind. */
  function Decode(c: Cipher, d: Bytes): Bytes {
    Flatten(Pieces(c, Body(d)))
  }

  // ---------------------------------------------------------------- block algebra

  /** `a` is a whole number of full blocks. */
  ghost predicate Aligned(c: Cipher, a: Bytes)
    decreases |a|
  {
    a == [] || (|a| >= c.BlockLen() && Aligned(c, a[c.BlockLen()..]))
  }

  lemma {:induction false} FlattenAppend(a: seq<Bytes>, b: seq<Bytes>)
    ensures Flatten(a + b) == Flatten(a) + Flatten(b)
    decreases |a|
  {
    if a == [] {
      assert a + b == b;
    } else {
      FlattenAppend(a[1..], b);
      assert (a + b)[1..] == a[1..] + b && (a + b)[0] == a[0];
      assert a[0] + (Flatten(a[1..]) + Flatten(b)) == (a[0] + Flatten(a[1..])) + Flatten(b);
    }
  }

  lemma SingleBlock(c: Cipher, block: Bytes)
    requires 0 < |block| <= c.BlockLen()
    ensures Pieces(c, block) == match c.Open(block) case None => [] case Some(piece) => [piece]
    ensures Whole(c, block) <==> c.Open(block).Some?
  {
    assert block[..|block|] == block;
    assert block[|block|..] == [];
    assert Pieces(c, []) == [] && Whole(c, []);
  }

  lemma AlignedAppend(c: Cipher, a: Bytes, block: Bytes)
    requires Aligned(c, a) && |block| == c.BlockLen()
    ensures Aligned(c, a + block)
    decreases |a|
  {
    var n := c.BlockLen();
    if a == [] {
      assert a + block == block && block[n..] == [];
    } else {
      AlignedAppend(c, a[n..], block);
      assert (a + block)[n..] == a[n..] + block;
    }
  }

  lemma {:induction false} SplitOpens(c: Cipher, a: Bytes, b: Bytes)
    requires Aligned(c, a)
    ensures Whole(c, a + b) <==> Whole(c, a) && Whole(c, b)
    ensures FullBlocksOpen(c, a + b) <==> Whole(c, a) && FullBlocksOpen(c, b)
    decreases |a|
  {
    if a == [] {
      assert a + b == b;
    } else {
      FirstBlock(c, a, b);
      SplitOpens(c, a[c.BlockLen()..], b);
    }
  }

  /** Decoding distributes over a split at a block boundary. */
  lemma {:induction false} SplitAligned(c: Cipher, a: Bytes, b: Bytes)
    requires Aligned(c, a)
    ensures Pieces(c, a + b) == if Whole(c, a) then Pieces(c, a) + Pieces(c, b) else Pieces(c, a)
    ensures Whole(c, a + b) <==> Whole(c, a) && Whole(c, b)
    ensures FullBlocksOpen(c, a + b) <==> Whole(c, a) && FullBlocksOpen(c, b)
    decreases |a|
  {
    SplitOpens(c, a, b);
    if a == [] {
      assert a + b == b;
    } else {
      var n := c.BlockLen();
      FirstBlock(c, a, b);
      SplitAligned(c, a[n..], b);
      if Whole(c, a) {
        assert Pieces(c, a + b) == [c.Open(a[..n]).value] + (Pieces(c, a[n..]) + Pieces(c, b));
      }
    }
  }

  /** The first full block of `a` is the first of `a + b`. */
  lemma FirstBlock(c: Cipher, a: Bytes, b: Bytes)
    requires |a| >= c.BlockLen()
    ensures var n := c.BlockLen();
            && (a + b)[n..] == a[n..] + b && (a + b)[..n] == a[..n]
            && NextLen(c, a) == n && NextLen(c, a + b) == n
  {
  }

  // ---------------------------------------------------------------- reference form

  /** Closed form: the k-th piece is what the k-th block opens to.  Without a key blocks are
      3 MiB long and open to themselves; with one they are 28 bytes longer. */
  lemma PieceAt(c: Cipher, body: Bytes, k: nat)
    requires k < |Pieces(c, body)|
    ensures var len := if c.Plain? then 3145728 else 3145756;
            var from := k * len;
            && from < |body|
            && var block := body[from..if from + len < |body| then from + len else |body|];
               match c
               case Plain => Pieces(c, body)[k] == block
               case Keyed(decrypt) => decrypt(block) == Some(Pieces(c, body)[k])
  {
    PieceFrom(c, body, k);
  }

  lemma {:induction false} PieceFrom(c: Cipher, body: Bytes, k: nat)
    requires k < |Pieces(c, body)|
    ensures k * c.BlockLen() < |body|
    ensures var from := k * c.BlockLen();
            var to := if from + c.BlockLen() < |body| then from + c.BlockLen() else |body|;
            c.Open(body[from..to]) == Some(Pieces(c, body)[k])
    decreases k
  {
    var n := c.BlockLen();
    if k > 0 {
      var rest := body[NextLen(c, body)..];
      assert NextLen(c, body) == n by {
        assert rest != [];
      }
      PieceFrom(c, rest, k - 1);
      assert k * n == (k - 1) * n + n;
      var from := (k - 1) * n;
      var to := if from + n < |rest| then from + n else |rest|;
      SliceShift(body, n, from, to);
    } else {
      assert body[0..NextLen(c, body)] == body[..NextLen(c, body)];
    }
  }

  lemma SliceShift(s: Bytes, n: nat, from: nat, to: nat)
    requires n <= |s| && from <= to <= |s| - n
    ensures s[n..][from..to] == s[from + n..to + n]
  {
  }

  /** If every full block opens, the k-th does. */
  lemma {:induction false} BlockOpens(c: Cipher, body: Bytes, k: nat)
    requires FullBlocksOpen(c, body) && k * c.BlockLen() + c.BlockLen() <= |body|
    ensures c.Open(body[k * c.BlockLen()..][..c.BlockLen()]).Some?
    decreases k
  {
    var n := c.BlockLen();
    if k > 0 {
      assert k * n == (k - 1) * n + n;
      BlockOpens(c, body[n..], k - 1);
      assert body[n..][(k - 1) * n..] == body[k * n..];
    } else {
      assert body[0..] == body;
    }
  }

  /** If not, some full block does not. */
  lemma {:induction false} SealedBlock(c: Cipher, body: Bytes) returns (k: nat)
    requires !FullBlocksOpen(c, body)
    ensures k * c.BlockLen() + c.BlockLen() <= |body| && c.Open(body[k * c.BlockLen()..][..c.BlockLen()]).None?
    decreases |body|
  {
    var n := c.BlockLen();
    if c.Open(body[..n]).None? {
      k := 0;
      assert body[0..] == body;
    } else {
      var i := SealedBlock(c, body[n..]);
      k := i + 1;
      assert k * n == i * n + n;
      assert body[n..][i * n..] == body[k * n..];
    }
  }

  /** The k-th full block with a key. */
  function SealedAt(body: Bytes, k: nat): Bytes
    requires k * 3145756 + 3145756 <= |body|
  {
    body[k * 3145756..][..3145756]
  }

  /** That every full block opens means this with a key, and nothing without. */
  lemma FullBlocksMeans(c: Cipher, body: Bytes)
    ensures c.Plain? ==> FullBlocksOpen(c, body)
    ensures c.Keyed? ==>
              (FullBlocksOpen(c, body) <==>
                 forall k: nat :: k * 3145756 + 3145756 <= |body| ==> c.decrypt(SealedAt(body, k)).Some?)
  {
    if FullBlocksOpen(c, body) {
      forall k: nat | c.Keyed? && k * 3145756 + 3145756 <= |body| ensures c.decrypt(SealedAt(body, k)).Some? {
        BlockOpens(c, body, k);
      }
    } else {
      var k := SealedBlock(c, body);
      assert c.Keyed?;
      assert c.decrypt(SealedAt(body, k)).None?;
    }
  }

  lemma {:induction false} PieceCount(c: Cipher, body: Bytes)
    ensures Whole(c, body) ==> |body| <= |Pieces(c, body)| * c.BlockLen() < |body| + c.BlockLen()
    ensures Whole(c, body) ==> FullBlocksOpen(c, body)
    decreases |body|
  {
    var n := c.BlockLen();
    if body != [] && Whole(c, body) {
      var rest := body[NextLen(c, body)..];
      PieceCount(c, rest);
      assert |Pieces(c, body)| == 1 + |Pieces(c, rest)|;
      assert (1 + |Pieces(c, rest)|) * n == n + |Pieces(c, rest)| * n;
    }
  }

  /** Without a key the download is the delivered bytes exactly, unless they look like
      a DC file: then, and only then, the first 32 bytes are gone. */
  lemma PlainDownloadIsVerbatim(d: Bytes)
    ensures Decode(Plain, d) ==
              if |d| >= 32 && d[..10] == [36, 36, 100, 99, 102, 105, 108, 101, 36, 36] then d[32..] else d
    ensures Whole(Plain, Body(d))
  {
    PlainBlocks(Body(d));
  }

  lemma {:induction false} PlainBlocks(body: Bytes)
    ensures Flatten(Pieces(Plain, body)) == body && Whole(Plain, body)
    decreases |body|
  {
    if body != [] {
      var n := NextLen(Plain, body);
      PlainBlocks(body[n..]);
      assert body == body[..n] + body[n..];
      assert Pieces(Plain, body)[1..] == Pieces(Plain, body[n..]);
    }
  }

  // ---------------------------------------------------------------- round trip

  /** What the DC network stores for a plaintext: successive blocks, each sealed.
      `sealEmpty` says whether an empty remainder is sealed as well. */
  function Upload(seal: Bytes -> Bytes, p: Bytes, sealEmpty: bool): Bytes
    decreases |p|
  {
    if |p| < PLAIN_BLOCK then
      if p == [] && !sealEmpty then [] else seal(p)
    else
      seal(p[..PLAIN_BLOCK]) + Upload(seal, p[PLAIN_BLOCK..], sealEmpty)
  }

  ghost predicate SealedBy(decrypt: Bytes -> Option<Bytes>, seal: Bytes -> Bytes) {
    forall x :: decrypt(seal(x)) == Some(x) && |seal(x)| == |x| + SEAL_OVERHEAD
  }

  lemma {:induction false} UploadOpens(decrypt: Bytes -> Option<Bytes>, seal: Bytes -> Bytes, p: Bytes, sealEmpty: bool)
    requires SealedBy(decrypt, seal)
    ensures var body := Upload(seal, p, sealEmpty);
            Flatten(Pieces(Keyed(decrypt), body)) == p && Whole(Keyed(decrypt), body)
    decreases |p|
  {
    var c := Keyed(decrypt);
    var body := Upload(seal, p, sealEmpty);
    if |p| < PLAIN_BLOCK {
      if body == seal(p) {
        assert |seal(p)| == |p| + SEAL_OVERHEAD;
        SingleBlock(c, seal(p));
        assert Flatten([p]) == p + Flatten([]);
      }
    } else {
      var block := seal(p[..PLAIN_BLOCK]);
      var rest := Upload(seal, p[PLAIN_BLOCK..], sealEmpty);
      assert |block| == c.BlockLen();
      UploadOpens(decrypt, seal, p[PLAIN_BLOCK..], sealEmpty);
      assert body[..|block|] == block && body[|block|..] == rest;
      assert Pieces(c, body) == [p[..PLAIN_BLOCK]] + Pieces(c, rest);
      assert p == p[..PLAIN_BLOCK] + p[PLAIN_BLOCK..];
    }
  }

  /** For every plaintext, the empty one and exact multiples of the block size
      included, downloading header plus sealed blocks gives the plaintext back. */
  lemma RoundTrip(decrypt: Bytes -> Option<Bytes>, seal: Bytes -> Bytes, header: Bytes, p: Bytes, sealEmpty: bool)
    requires forall x :: decrypt(seal(x)) == Some(x) && |seal(x)| == |x| + 28
    requires |header| == 32 && header[..10] == [36, 36, 100, 99, 102, 105, 108, 101, 36, 36]
    ensures var d := header + Upload(seal, p, sealEmpty);
            Decode(Keyed(decrypt), d) == p && Whole(Keyed(decrypt), Body(d))
  {
    var d := header + Upload(seal, p, sealEmpty);
    assert d[..|MAGIC|] == header[..|MAGIC|];
    assert d[HEADER_LEN..] == Upload(seal, p, sealEmpty);
    UploadOpens(decrypt, seal, p, sealEmpty);
  }
}
