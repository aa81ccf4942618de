/**
 The reading half of downloadFile: an arbitrarily fragmented source, and the loop
 that collects the header, re-blocks the rest, opens the blocks and writes them out.
 */
module DownloadProducer {
  import opened Prelude
  import opened DownloadSpec

  // ---------------------------------------------------------------- the source

  datatype Status = Ok | Eof | Broken

  /** What one Read would like to return: some bytes, possibly none, together with a
      status.  A smaller buffer takes a part and leaves the rest for the next Read. */
  datatype Fragment = Fragment(data: Bytes, status: Status)

  /** After its fragments a source repeats `end` for ever. */
  datatype Source = Source(fragments: seq<Fragment>, end: Status)

  datatype Reading = Reading(data: Bytes, status: Status, rest: Source)

  function ReadFrom(src: Source, cap: nat): Reading {
    if src.fragments == [] then Reading([], src.end, src) else
      var head := src.fragments[0];
      if |head.data| > cap then
        Reading(head.data[..cap], Ok, src.(fragments := [head.(data := head.data[cap..])] + src.fragments[1..]))
      else
        Reading(head.data, head.status, src.(fragments := src.fragments[1..]))
  }

  /** A Read that brings no byte and an error is the last one a reader looks at. */
  predicate Final(f: Fragment) {
    f.data == [] && f.status != Ok
  }

  /** The bytes a reader that stops at the first final Read gets to see. */
  function Deliverable(src: Source): Bytes
    decreases |src.fragments|
  {
    if src.fragments == [] || Final(src.fragments[0]) then [] else
      src.fragments[0].data + Deliverable(src.(fragments := src.fragments[1..]))
  }

  /** How it ends for that reader. */
  function Ending(src: Source): Status
    decreases |src.fragments|
  {
    if src.fragments == [] then src.end
    else if Final(src.fragments[0]) then src.fragments[0].status
    else Ending(src.(fragments := src.fragments[1..]))
  }

  function Size(src: Source): nat
    decreases |src.fragments|
  {
    if src.fragments == [] then 0
    else |src.fragments[0].data| + 1 + Size(src.(fragments := src.fragments[1..]))
  }

  /** No Read loses, repeats or reorders a byte. */
  lemma ReadDelivers(src: Source, cap: nat)
    requires cap > 0 && src.end != Ok
    ensures var r := ReadFrom(src, cap);
            && |r.data| <= cap && r.rest.end != Ok
            && (r.data != [] || r.status == Ok ==>
                  && Deliverable(src) == r.data + Deliverable(r.rest)
                  && Ending(src) == Ending(r.rest)
                  && Size(r.rest) < Size(src))
            && (r.data == [] && r.status != Ok ==> Deliverable(src) == [] && Ending(src) == r.status)
  {
    if src.fragments != [] {
      var head := src.fragments[0];
      var tail := src.(fragments := src.fragments[1..]);
      if |head.data| > cap {
        var cut := head.(data := head.data[cap..]);
        var rest := ReadFrom(src, cap).rest;
        assert rest.fragments[0] == cut && rest.(fragments := rest.fragments[1..]) == tail;
        assert head.data == head.data[..cap] + cut.data;
      }
    }
  }

  /** The same, seen from a reader that has already received `d`. */
  lemma ReadAdvances(d: Bytes, src: Source, cap: nat)
    requires cap > 0 && src.end != Ok
    ensures var r := ReadFrom(src, cap);
            && |r.data| <= cap && r.rest.end != Ok
            && (r.data != [] || r.status == Ok ==>
                  && d + Deliverable(src) == (d + r.data) + Deliverable(r.rest)
                  && (r.data == [] ==> d + Deliverable(src) == d + Deliverable(r.rest))
                  && Ending(src) == Ending(r.rest)
                  && Size(r.rest) < Size(src))
            && (r.data == [] && r.status != Ok ==> d + Deliverable(src) == d && Ending(src) == r.status)
  {
    ReadDelivers(src, cap);
    var r := ReadFrom(src, cap);
    assert d + (r.data + Deliverable(r.rest)) == (d + r.data) + Deliverable(r.rest);
    assert d + [] == d;
  }

  class Reader {
    var src: Source

    constructor (src: Source)
      ensures this.src == src
    {
      this.src := src;
    }

    method Read(cap: nat) returns (data: Bytes, status: Status)
      modifies this
      ensures var r := ReadFrom(old(src), cap); data == r.data && status == r.status && src == r.rest
    {
      var r := ReadFrom(src, cap);
      data, status, src := r.data, r.status, r.rest;
    }
  }

  // ---------------------------------------------------------------- the producer

  /**
   Where the producer stands at a loop head after the delivered bytes `d`.  Before the
   header is dealt with it has written nothing and holds all of `d`, fewer than 32
   bytes.  Afterwards `sealed` has been cut into full blocks, all opened and written,
   and `wait`, less than a block, has not.
   */
  ghost predicate Holding(c: Cipher, headDone: bool, d: Bytes, sealed: Bytes, wait: Bytes, written: seq<Bytes>) {
    if headDone then
      && |d| >= HEADER_LEN
      && Aligned(c, sealed) && Whole(c, sealed) && written == Pieces(c, sealed)
      && Body(d) == sealed + wait
      && |wait| < c.BlockLen()
    else
      |d| < HEADER_LEN && wait == d && sealed == [] && written == []
  }

  lemma BodyGrows(d: Bytes, more: Bytes)
    requires |d| >= HEADER_LEN
    ensures Body(d + more) == Body(d) + more
  {
    assert (d + more)[..|MAGIC|] == d[..|MAGIC|];
    if HasHeader(d) {
      assert (d + more)[HEADER_LEN..] == d[HEADER_LEN..] + more;
    }
  }

  /** The read that completes the header. */
  lemma HeaderComplete(c: Cipher, d: Bytes)
    requires |d| == HEADER_LEN
    ensures Holding(c, true, d, [], if d[..|MAGIC|] == MAGIC then d[HEADER_LEN..] else d, [])
  {
    assert Body(d) == [] + Body(d);
  }

  /** A later read that does not fill a block. */
  lemma StillWaiting(c: Cipher, d: Bytes, sealed: Bytes, wait: Bytes, written: seq<Bytes>, data: Bytes)
    requires Holding(c, true, d, sealed, wait, written) && |wait| + |data| < c.BlockLen()
    ensures Holding(c, true, d + data, sealed, wait + data, written)
  {
    BodyGrows(d, data);
    assert sealed + wait + data == sealed + (wait + data);
  }

  /** A later read that fills a block which opens. */
  lemma BlockOpened(c: Cipher, d: Bytes, sealed: Bytes, wait: Bytes, written: seq<Bytes>, data: Bytes)
    requires Holding(c, true, d, sealed, wait, written)
    requires c.BlockLen() <= |wait + data| < 2 * c.BlockLen()
    requires c.Open((wait + data)[..c.BlockLen()]).Some?
    ensures var block, rest := (wait + data)[..c.BlockLen()], (wait + data)[c.BlockLen()..];
            Holding(c, true, d + data, sealed + block, rest, written + [c.Open(block).value])
  {
    var block, rest := (wait + data)[..c.BlockLen()], (wait + data)[c.BlockLen()..];
    BodyGrows(d, data);
    assert sealed + wait + data == sealed + block + rest;
    AlignedAppend(c, sealed, block);
    SplitAligned(c, sealed, block);
    SingleBlock(c, block);
  }

  /** A later read that fills a block which does not open: the result is settled,
      whatever is still to come. */
  lemma BlockRefused(c: Cipher, d: Bytes, sealed: Bytes, wait: Bytes, written: seq<Bytes>, data: Bytes, more: Bytes)
    requires Holding(c, true, d, sealed, wait, written)
    requires c.BlockLen() <= |wait + data|
    requires c.Open((wait + data)[..c.BlockLen()]).None?
    ensures var body := Body(d + data + more);
            Pieces(c, body) == written && !FullBlocksOpen(c, body) && !Whole(c, body)
  {
    var block, rest := (wait + data)[..c.BlockLen()], (wait + data)[c.BlockLen()..];
    BodyGrows(d, data + more);
    assert d + data + more == d + (data + more);
    assert sealed + wait + (data + more) == sealed + (block + (rest + more));
    SplitAligned(c, sealed, block + (rest + more));
    assert (block + (rest + more))[..c.BlockLen()] == block;
  }

  /** What opening the tail contributes. */
  function TailPieces(c: Cipher, wait: Bytes): seq<Bytes> {
    if wait == [] then [] else
      match c.Open(wait) case None => [] case Some(piece) => [piece]
  }

  /** At the end of the stream, in either phase, only the tail is left to open. */
  lemma StreamEnded(c: Cipher, headDone: bool, d: Bytes, sealed: Bytes, wait: Bytes, written: seq<Bytes>)
    requires Holding(c, headDone, d, sealed, wait, written)
    ensures Pieces(c, Body(d)) == written + TailPieces(c, wait)
    ensures FullBlocksOpen(c, Body(d))
    ensures Whole(c, Body(d)) <==> wait == [] || c.Open(wait).Some?
  {
    if headDone {
      SplitAligned(c, sealed, wait);
    } else {
      assert d == [] + wait;
    }
    if wait != [] {
      SingleBlock(c, wait);
    }
  }

  /**
   The producer goroutine of downloadFile, uninterrupted: `written` lists its writes to
   the pipe and `complete` is the flag it leaves.  However the source fragments its
   bytes, the writes are the pieces of the specification, and the flag says that the
   stream ended properly with every full block opened, whatever became of the tail.
   */
  method Produce(reader: Reader, c: Cipher) returns (written: seq<Bytes>, complete: bool)
    requires reader.src.end != Ok
    modifies reader
    ensures var d := Deliverable(old(reader.src));
            && written == Pieces(c, Body(d))
            && (complete <==> Ending(old(reader.src)) == Eof && FullBlocksOpen(c, Body(d)))
  {
    ghost var total, end := Deliverable(reader.src), Ending(reader.src);
    ghost var d: Bytes, sealed: Bytes := [], [];
    written, complete := [], false;
    var waitBuffer: Bytes := [];
    var headLen := HEADER_LEN;
    var headDealFlag := false;
    while true
      invariant reader.src.end != Ok && !complete
      invariant total == d + Deliverable(reader.src) && end == Ending(reader.src)
      invariant Holding(c, headDealFlag, d, sealed, waitBuffer, written)
      invariant !headDealFlag ==> headLen == HEADER_LEN - |waitBuffer|
      decreases Size(reader.src)
    {
      if !headDealFlag {
        ReadAdvances(d, reader.src, headLen);
        var data, status := reader.Read(headLen);
        if data != [] {
          waitBuffer := waitBuffer + data;
          d := d + data;
          if |waitBuffer| < HEADER_LEN {
            headLen := HEADER_LEN - |waitBuffer|;
          } else {
            HeaderComplete(c, d);
            headDealFlag := true;
            if waitBuffer[..|MAGIC|] == MAGIC {
              waitBuffer := waitBuffer[HEADER_LEN..];
            }
          }
        } else if status != Ok {
          complete := status == Eof;
          written := Drain(c, headDealFlag, d, sealed, waitBuffer, written);
          return;
        }
        continue;
      }
      ReadAdvances(d, reader.src, c.BlockLen());
      var data, status := reader.Read(c.BlockLen());
      if data != [] {
        if |waitBuffer + data| < c.BlockLen() {
          StillWaiting(c, d, sealed, waitBuffer, written, data);
          waitBuffer := waitBuffer + data;
          d := d + data;
          continue;
        }
        var block := (waitBuffer + data)[..c.BlockLen()];
        var content := c.Open(block);
        if content.None? {
          BlockRefused(c, d, sealed, waitBuffer, written, data, Deliverable(reader.src));
          return;
        }
        BlockOpened(c, d, sealed, waitBuffer, written, data);
        waitBuffer := (waitBuffer + data)[c.BlockLen()..];
        d, sealed := d + data, sealed + block;
        written := written + [content.value];
      } else if status != Ok {
        complete := status == Eof;
        written := Drain(c, headDealFlag, d, sealed, waitBuffer, written);
        return;
      }
    }
  }

  /** The tail handling that both phases of the producer repeat. */
  method Drain(c: Cipher, ghost headDone: bool, ghost d: Bytes, ghost sealed: Bytes, wait: Bytes, written: seq<Bytes>)
    returns (all: seq<Bytes>)
    requires Holding(c, headDone, d, sealed, wait, written)
    ensures all == Pieces(c, Body(d)) && FullBlocksOpen(c, Body(d))
  {
    StreamEnded(c, headDone, d, sealed, wait, written);
    all := written;
    if |wait| > 0 {
      var content := c.Open(wait);
      if content.Some? {
        all := all + [content.value];
      }
    }
  }
}
