/** What the interleaved download guarantees, over every run. */
module DownloadTheorems {
  import opened Prelude
  import opened DownloadSpec
  import opened DownloadProducer
  import opened DownloadPipeline

  // ---------------------------------------------------------------- safety

  lemma {:induction false} RunKeepsInv(c: Cipher, src: Source, from: State, events: seq<Event>, s: State)
    requires Inv(c, src, from) && Reaches(c, from, events, s)
    ensures Inv(c, src, s)
    decreases |events|
  {
    if events != [] {
      StepKeepsInv(c, src, from, events[0]);
      RunKeepsInv(c, src, Apply(c, from, events[0]), events[1..], s);
    }
  }

  lemma ReachableInv(c: Cipher, src: Source, s: State)
    requires src.end != Ok && Reachable(c, src, s)
    ensures Inv(c, src, s)
  {
    var events :| Reaches(c, Init(src), events, s);
    RunKeepsInv(c, src, Init(src), events, s);
  }

  /** The bytes of the current pipe write that the consumer has not taken yet. */
  function InPipe(s: State): Bytes {
    if s.producer.Writing? then s.producer.rest else []
  }

  /**
   Pipeline safety, in every interleaving of producer, consumer, cancellation and local
   file failure: the bytes delivered are a prefix of what the source has; the file is a
   prefix of the decoding of what was delivered and, which says more at the end of a
   block, of what the source has to deliver in all; and as long as the local file works,
   file, writer buffer and pipe together still are such prefixes, so nothing is lost,
   doubled or reordered on the way.
   */
  lemma PipelineSafety(c: Cipher, src: Source, s: State)
    requires src.end != Ok && Reachable(c, src, s)
    ensures s.delivered <= Deliverable(src)
    ensures s.file <= Decode(c, s.delivered) && s.file <= Decode(c, Deliverable(src))
    ensures !s.failed ==> && s.file + s.buffer + InPipe(s) <= Decode(c, s.delivered)
                          && s.file + s.buffer + InPipe(s) <= Decode(c, Deliverable(src))
    ensures !s.failed && (s.producer != Gone || !s.cancelled) ==> s.file + s.buffer + InPipe(s) == Flatten(s.written)
  {
    ReachableInv(c, src, s);
    OnItsWay(c, src, s);
    FlattenPrefix(s.written, Pieces(c, Body(s.delivered)));
    FlattenPrefix(s.written, Pieces(c, Body(Deliverable(src))));
  }

  /** File, buffer and pipe hold what has been written, in order. */
  lemma OnItsWay(c: Cipher, src: Source, s: State)
    requires Inv(c, src, s)
    ensures s.taken + InPipe(s) <= Flatten(s.written)
    ensures !s.failed && (s.producer != Gone || !s.cancelled) ==> s.taken + InPipe(s) == Flatten(s.written)
    ensures if s.failed then s.file <= s.taken else s.file + s.buffer == s.taken
  {
    assert s.taken + [] == s.taken;
  }

  // ---------------------------------------------------------------- completeness

  predicate Ended(s: State) {
    s.producer == Gone && s.consumer == Left && s.result.Some?
  }

  /**
   Fault-free completeness.  With no cancellation and no local file error the call
   returns nil exactly when the source ended with EOF and every full block opened, and
   in any case the flushed file is the decoding of everything the source delivered.
   */
  lemma FaultFreeDownload(c: Cipher, src: Source, s: State)
    requires src.end != Ok && Reachable(c, src, s) && s.result.Some?
    requires !s.cancelled && !s.failed
    ensures s.result.value <==> Ending(src) == Eof && FullBlocksOpen(c, Body(Deliverable(src)))
    ensures s.file == Decode(c, Deliverable(src)) && s.created
  {
    ReachableInv(c, src, s);
    assert s.file + [] == s.file;
  }

  /**
   When is a nil result the whole file?  Exactly when the tail opens as well: the flag
   is raised before the tail is, so a tail that does not open is dropped silently.
   */
  lemma NilMeansWholeIffTailOpens(c: Cipher, src: Source, s: State)
    requires src.end != Ok && Reachable(c, src, s)
    requires !s.cancelled && !s.failed && s.result == Some(true)
    ensures Whole(c, Body(Deliverable(src))) <==> TailOpens(c, Body(Deliverable(src)))
  {
    FaultFreeDownload(c, src, s);
    WholeIffTailOpens(c, Body(Deliverable(src)));
  }

  /** The tail of a body: what is left after the last full block. */
  function TailOf(c: Cipher, body: Bytes): (tail: Bytes)
    ensures |tail| < c.BlockLen()
    decreases |body|
  {
    if |body| < c.BlockLen() then body else TailOf(c, body[c.BlockLen()..])
  }

  predicate TailOpens(c: Cipher, body: Bytes) {
    TailOf(c, body) == [] || c.Open(TailOf(c, body)).Some?
  }

  lemma {:induction false} WholeIffTailOpens(c: Cipher, body: Bytes)
    requires FullBlocksOpen(c, body)
    ensures Whole(c, body) <==> TailOpens(c, body)
    decreases |body|
  {
    if |body| < c.BlockLen() {
      if body != [] {
        SingleBlock(c, body);
      }
    } else {
      WholeIffTailOpens(c, body[c.BlockLen()..]);
    }
  }

  /** A DC file comes back as the plaintext it was made from, whatever the length, the
      fragmentation and the schedule. */
  lemma DownloadReturnsPlaintext(decrypt: Bytes -> Option<Bytes>, seal: Bytes -> Bytes, header: Bytes, p: Bytes,
                                 sealEmpty: bool, src: Source, s: State)
    requires forall x :: decrypt(seal(x)) == Some(x) && |seal(x)| == |x| + 28
    requires |header| == 32 && header[..10] == [36, 36, 100, 99, 102, 105, 108, 101, 36, 36]
    requires src.end != Ok && Deliverable(src) == header + Upload(seal, p, sealEmpty) && Ending(src) == Eof
    requires Reachable(Keyed(decrypt), src, s) && s.result.Some? && !s.cancelled && !s.failed
    ensures s.result == Some(true) && s.file == p
  {
    RoundTrip(decrypt, seal, header, p, sealEmpty);
    PieceCount(Keyed(decrypt), Body(Deliverable(src)));
    FaultFreeDownload(Keyed(decrypt), src, s);
  }

  // ---------------------------------------------------------------- cancellation

  lemma CancelledStep(c: Cipher, s: State, e: Event)
    requires s.cancelled && Enabled(c, s, e)
    ensures var s' := Apply(c, s, e);
            && s'.cancelled && s'.src == s.src && s'.delivered == s.delivered
            && (s.consumer != Draining ==> s'.consumer != Draining && s'.taken == s.taken)
  {
    if e == Produce && s.producer.Tail? {
      assert Apply(c, s, e) == OpenTail(c, s, s.producer.wait);
    }
  }

  /** Once the context is cancelled not one more byte is read from the network, and once
      the consumer is back at its loop head it takes nothing more from the pipe. */
  lemma {:induction false} CancelEndsReading(c: Cipher, from: State, events: seq<Event>, s: State)
    requires from.cancelled && Reaches(c, from, events, s)
    ensures s.src == from.src && s.delivered == from.delivered
    ensures from.consumer != Draining ==> s.taken == from.taken
    decreases |events|
  {
    if events != [] {
      CancelledStep(c, from, events[0]);
      CancelEndsReading(c, Apply(c, from, events[0]), events[1..], s);
    }
  }

  // ---------------------------------------------------------------- termination

  /** Whatever has not ended can move without waiting for a cancellation. */
  lemma NoDeadlock(c: Cipher, src: Source, s: State)
    requires src.end != Ok && Reachable(c, src, s) && !Ended(s)
    ensures exists e :: e != Cancel && Enabled(c, s, e)
  {
    ReachableInv(c, src, s);
    if s.producer.Looping? || s.producer.Tail? {
      assert Enabled(c, s, Produce);
    } else if s.consumer != Left {
      assert Enabled(c, s, Consume(|s.file|, true));
    } else if s.producer.Writing? {
      assert Enabled(c, s, Produce);
    } else {
      assert Enabled(c, s, Return);
    }
  }

  function Phase(p: Producer): nat {
    match p
    case Looping(_, _) => 3
    case Writing(_, _, last) => if last then 1 else 4
    case Tail(_, _) => 2
    case Gone => 0
  }

  function Pending(p: Producer): nat {
    if p.Writing? then |p.rest| else 0
  }

  function Stage(k: Consumer): nat {
    match k
    case Opening => 5
    case Checking => 4
    case Draining => 3
    case Flushing => 2
    case Signalled => 1
    case Left => 0
  }

  function Flags(s: State): nat {
    (if s.cancelled then 0 else 1) + (if s.result.Some? then 0 else 1)
  }

  /** Every action uses something up: source, phase, pending bytes, stage or a flag. */
  ghost predicate Smaller(s': State, s: State) {
    || Size(s'.src) < Size(s.src)
    || (Size(s'.src) == Size(s.src) &&
        (|| Phase(s'.producer) < Phase(s.producer)
         || (Phase(s'.producer) == Phase(s.producer) &&
             (|| Pending(s'.producer) < Pending(s.producer)
              || (Pending(s'.producer) == Pending(s.producer) &&
                  (|| Stage(s'.consumer) < Stage(s.consumer)
                   || (Stage(s'.consumer) == Stage(s.consumer) && Flags(s') < Flags(s))))))))
  }

  lemma StepUsesUp(c: Cipher, s: State, e: Event)
    requires s.src.end != Ok && Enabled(c, s, e)
    ensures Smaller(Apply(c, s, e), s) && Apply(c, s, e).src.end != Ok
  {
    match e
    case Cancel => assert Apply(c, s, e) == s.(cancelled := true);
    case Return => assert Apply(c, s, e) == s.(result := Some(s.complete));
    case Consume(split, ok) => ConsumeUsesUp(c, s, split, ok);
    case Produce => ProduceUsesUp(c, s);
  }

  lemma ProduceUsesUp(c: Cipher, s: State)
    requires s.src.end != Ok && Enabled(c, s, Produce)
    ensures Smaller(Apply(c, s, Produce), s) && Apply(c, s, Produce).src.end != Ok
  {
    if s.producer.Looping? && !s.cancelled {
      ReadUsesUp(c, s);
    } else if s.producer.Tail? {
      TailUsesUp(c, s, s.producer.wait);
    } else {
      assert Apply(c, s, Produce) == s.(producer := Gone);
    }
  }

  lemma TailUsesUp(c: Cipher, s: State, wait: Bytes)
    requires s.producer.Tail?
    ensures var s' := OpenTail(c, s, wait); Smaller(s', s) && s'.src == s.src
  {
  }

  lemma ConsumeUsesUp(c: Cipher, s: State, split: nat, ok: bool)
    requires Enabled(c, s, Consume(split, ok))
    ensures Smaller(Apply(c, s, Consume(split, ok)), s) && Apply(c, s, Consume(split, ok)).src == s.src
  {
    if s.consumer == Draining && s.producer.Writing? {
      PortionSplits(s.taken, s.producer.rest);
    }
  }

  lemma ReadUsesUp(c: Cipher, s: State)
    requires s.src.end != Ok && s.producer.Looping? && Enabled(c, s, Produce)
    ensures var s' := OneRead(c, s, s.producer.headDone, s.producer.wait);
            Smaller(s', s) && s'.src.end != Ok
  {
    ReadAdvances(s.delivered, s.src, ReadCap(c, s));
    SizeLeast(s.src);
    var r := ReadFrom(s.src, ReadCap(c, s));
    var s' := OneRead(c, s, s.producer.headDone, s.producer.wait);
    if r.data == [] && r.status != Ok {
      assert s'.src == Source([], r.status);
      assert Size(s'.src) == 0 <= Size(s.src) && Phase(s'.producer) == 2 < Phase(s.producer) == 3;
    } else {
      assert s'.src == r.rest && Size(s'.src) < Size(s.src);
    }
  }

  lemma SizeLeast(src: Source)
    ensures Size(Source([], src.end)) == 0 <= Size(src)
  {
  }

  /** No schedule runs for ever: any endless list of states and events breaks off, at a
      place this lemma finds. */
  lemma {:induction false} EveryRunEnds(c: Cipher, states: nat -> State, events: nat -> Event, from: nat) returns (k: nat)
    requires states(from).src.end != Ok
    ensures k >= from && !(Enabled(c, states(k), events(k)) && states(k + 1) == Apply(c, states(k), events(k)))
    decreases Size(states(from).src), Phase(states(from).producer), Pending(states(from).producer),
              Stage(states(from).consumer), Flags(states(from))
  {
    k := from;
    if Enabled(c, states(k), events(k)) && states(k + 1) == Apply(c, states(k), events(k)) {
      StepUsesUp(c, states(k), events(k));
      k := EveryRunEnds(c, states, events, k + 1);
    }
  }
}
