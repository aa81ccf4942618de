/**
 What a nil result of downloadFile is worth.  A cancellation, an error of the local file
 or a tail that does not open can each leave an incomplete file behind although nil is
 returned; for each of them, and for every source and cipher, exactly which downloads can
 end that way.
 */
module DownloadNil {
  import opened Prelude
  import opened DownloadSpec
  import opened DownloadProducer
  import opened DownloadPipeline
  import opened DownloadTheorems

  // ---------------------------------------------------------------- full blocks and tail

  /** The body of everything the source delivers. */
  function WholeBody(src: Source): Bytes {
    Body(Deliverable(src))
  }

  /** What the full blocks of a body open to, and what its tail does. */
  function FullContent(c: Cipher, body: Bytes): Bytes {
    Flatten(Pieces(c, body[..|body| - TailLen(c, body)]))
  }

  function TailContent(c: Cipher, body: Bytes): Bytes {
    Flatten(Pieces(c, TailOf(c, body)))
  }

  function TailLen(c: Cipher, body: Bytes): (n: nat)
    ensures n <= |body|
    decreases |body|
  {
    if |body| < c.BlockLen() then |body| else TailLen(c, body[c.BlockLen()..])
  }

  /** Any cut into full blocks and less than a block is the cut into blocks and tail. */
  lemma {:induction false} CutIsUnique(c: Cipher, blocks: Bytes, tail: Bytes)
    requires Aligned(c, blocks) && |tail| < c.BlockLen()
    ensures TailOf(c, blocks + tail) == tail && TailLen(c, blocks + tail) == |tail|
    decreases |blocks|
  {
    if blocks == [] {
      assert blocks + tail == tail;
    } else {
      CutIsUnique(c, blocks[c.BlockLen()..], tail);
      assert (blocks + tail)[c.BlockLen()..] == blocks[c.BlockLen()..] + tail;
    }
  }

  lemma CutDecodes(c: Cipher, blocks: Bytes, tail: Bytes)
    requires Aligned(c, blocks) && Whole(c, blocks) && |tail| < c.BlockLen()
    ensures var body := blocks + tail;
            && TailOf(c, body) == tail && FullBlocksOpen(c, body)
            && FullContent(c, body) == Flatten(Pieces(c, blocks))
            && Flatten(Pieces(c, body)) == FullContent(c, body) + TailContent(c, body)
  {
    CutIsUnique(c, blocks, tail);
    assert (blocks + tail)[..|blocks|] == blocks;
    SplitAligned(c, blocks, tail);
    FlattenAppend(Pieces(c, blocks), Pieces(c, tail));
  }

  // ---------------------------------------------------------------- the flag

  /** `sealed` are all full blocks the source delivers. */
  ghost predicate AllSealed(c: Cipher, src: Source, s: State) {
    && Aligned(c, s.sealed) && Whole(c, s.sealed)
    && s.sealed <= WholeBody(src) && |WholeBody(src)| < |s.sealed| + c.BlockLen()
  }

  /** Once the flag is up every full block has gone through the pipe, whoever has been
      cancelled and whatever became of the file; and no block goes through a pipe whose
      reader has no file. */
  ghost predicate FlagInv(c: Cipher, src: Source, s: State) {
    && (s.result == Some(true) ==> s.complete)
    && (s.complete ==> Ending(src) == Eof && AllSealed(c, src, s) && Flatten(Pieces(c, s.sealed)) <= s.taken)
    && (!s.created && (s.complete || s.producer.Looping? || s.producer.Tail?) ==> s.sealed == [])
  }

  /** What one read does to the flag and to the blocks sealed so far. */
  lemma ReadEffect(c: Cipher, s: State)
    requires s.producer.Looping? && Enabled(c, s, Produce)
    ensures var s', r := OneRead(c, s, s.producer.headDone, s.producer.wait), ReadFrom(s.src, ReadCap(c, s));
            && s'.complete == (if r.data == [] && r.status != Ok then r.status == Eof else s.complete)
            && (s'.producer.Looping? || s'.producer.Tail? ==> s'.sealed == s.sealed)
            && (r.data == [] ==> s'.sealed == s.sealed)
  {
  }

  lemma EndIsSealed(c: Cipher, src: Source, s: State)
    requires ProducerInv(c, src, s) && s.producer.Looping? && Enabled(c, s, Produce)
    requires var r := ReadFrom(s.src, ReadCap(c, s)); r.data == [] && r.status == Eof
    ensures Ending(src) == Eof && AllSealed(c, src, s) && Flatten(Pieces(c, s.sealed)) == s.taken
  {
    ReadAdvances(s.delivered, s.src, ReadCap(c, s));
    assert Deliverable(src) == s.delivered;
    if !s.producer.headDone {
      assert Pieces(c, s.sealed) == [] && Whole(c, s.sealed);
    }
  }

  lemma ReadKeepsFlag(c: Cipher, src: Source, s: State)
    requires ProducerInv(c, src, s) && FlagInv(c, src, s) && s.producer.Looping? && Enabled(c, s, Produce)
    ensures FlagInv(c, src, OneRead(c, s, s.producer.headDone, s.producer.wait))
  {
    var r, s' := ReadFrom(s.src, ReadCap(c, s)), OneRead(c, s, s.producer.headDone, s.producer.wait);
    ReadEffect(c, s);
    assert SameConsumerSide(s, s') && !s.complete;
    if r.data == [] && r.status == Eof {
      EndIsSealed(c, src, s);
    }
  }

  lemma OtherMovesKeepFlag(c: Cipher, src: Source, s: State)
    requires FlagInv(c, src, s) && !s.producer.Looping? && Enabled(c, s, Produce)
    ensures FlagInv(c, src, Apply(c, s, Produce))
  {
    var s' := Apply(c, s, Produce);
    assert SameConsumerSide(s, s') && s'.complete == s.complete && s'.sealed == s.sealed;
    assert !s'.producer.Looping? && !s'.producer.Tail?;
  }

  lemma TakeKeepsFlag(c: Cipher, src: Source, s: State, split: nat, ok: bool)
    requires Inv(c, src, s) && FlagInv(c, src, s) && s.producer.Writing? && s.consumer == Draining
    requires Enabled(c, s, Consume(split, ok))
    ensures FlagInv(c, src, Apply(c, s, Consume(split, ok)))
  {
    var s' := Apply(c, s, Consume(split, ok));
    assert s.created && s'.created && s'.complete == s.complete && s'.sealed == s.sealed && s'.result == s.result;
    assert s'.taken == s.taken + Portion(s.producer.rest);
  }

  lemma StepKeepsFlag(c: Cipher, src: Source, s: State, e: Event)
    requires Inv(c, src, s) && FlagInv(c, src, s) && Enabled(c, s, e)
    ensures FlagInv(c, src, Apply(c, s, e))
  {
    match e
    case Cancel => assert Apply(c, s, e) == s.(cancelled := true);
    case Return => assert Apply(c, s, e) == s.(result := Some(s.complete));
    case Consume(split, ok) =>
      if s.consumer == Draining && s.producer.Writing? {
        TakeKeepsFlag(c, src, s, split, ok);
      }
    case Produce =>
      if !s.producer.Looping? {
        OtherMovesKeepFlag(c, src, s);
      } else if !s.cancelled {
        ReadKeepsFlag(c, src, s);
      } else {
        assert Apply(c, s, e) == s.(producer := Gone);
      }
  }

  lemma {:induction false} RunKeepsFlag(c: Cipher, src: Source, from: State, events: seq<Event>, s: State)
    requires Inv(c, src, from) && FlagInv(c, src, from) && Reaches(c, from, events, s)
    ensures Inv(c, src, s) && FlagInv(c, src, s)
    decreases |events|
  {
    if events != [] {
      StepKeepsInv(c, src, from, events[0]);
      StepKeepsFlag(c, src, from, events[0]);
      RunKeepsFlag(c, src, Apply(c, from, events[0]), events[1..], s);
    }
  }

  lemma ReachableFlag(c: Cipher, src: Source, s: State)
    requires src.end != Ok && Reachable(c, src, s)
    ensures Inv(c, src, s) && FlagInv(c, src, s)
  {
    var events :| Reaches(c, Init(src), events, s);
    RunKeepsFlag(c, src, Init(src), events, s);
  }

  /** Nil always means that the stream ended properly with all its full blocks opened. */
  lemma NilMeansBlocksOpened(c: Cipher, src: Source, s: State)
    requires src.end != Ok && Reachable(c, src, s) && s.result == Some(true)
    ensures Ending(src) == Eof && FullBlocksOpen(c, WholeBody(src))
    ensures !s.created ==> |WholeBody(src)| < c.BlockLen()
  {
    ReachableFlag(c, src, s);
    SealedDecodes(c, src, s);
  }

  lemma SealedDecodes(c: Cipher, src: Source, s: State)
    requires AllSealed(c, src, s)
    ensures var body := WholeBody(src);
            && FullBlocksOpen(c, body) && FullContent(c, body) == Flatten(Pieces(c, s.sealed))
            && Decode(c, Deliverable(src)) == FullContent(c, body) + TailContent(c, body)
  {
    var body := WholeBody(src);
    assert body == s.sealed + body[|s.sealed|..];
    CutDecodes(c, s.sealed, body[|s.sealed|..]);
  }

  /** Unless the local file failed, cancelled or not, it has all that the full blocks open
      to: at most the tail is missing. */
  lemma NilMissesAtMostTheTail(c: Cipher, src: Source, s: State)
    requires src.end != Ok && Reachable(c, src, s) && s.result == Some(true) && !s.failed
    ensures FullContent(c, WholeBody(src)) <= s.file <= Decode(c, Deliverable(src))
    ensures Decode(c, Deliverable(src)) == FullContent(c, WholeBody(src)) + TailContent(c, WholeBody(src))
  {
    ReachableFlag(c, src, s);
    PipelineSafety(c, src, s);
    SealedDecodes(c, src, s);
    assert s.file + [] == s.file;
  }

  // ---------------------------------------------------------------- building runs

  ghost predicate Leads(c: Cipher, s: State, s': State) {
    exists events :: Reaches(c, s, events, s')
  }

  lemma Stay(c: Cipher, s: State)
    ensures Leads(c, s, s)
  {
    assert Reaches(c, s, [], s);
  }

  lemma Then(c: Cipher, s: State, e: Event, s': State)
    requires Enabled(c, s, e) && Leads(c, Apply(c, s, e), s')
    ensures Leads(c, s, s')
  {
    var events :| Reaches(c, Apply(c, s, e), events, s');
    assert ([e] + events)[1..] == events;
    assert Reaches(c, s, [e] + events, s');
  }

  lemma Step(c: Cipher, s: State, e: Event)
    requires Enabled(c, s, e)
    ensures Leads(c, s, Apply(c, s, e))
  {
    Stay(c, Apply(c, s, e));
    Then(c, s, e, Apply(c, s, e));
  }

  lemma {:induction false} Join(c: Cipher, s0: State, first: seq<Event>, s1: State, s2: State)
    requires Reaches(c, s0, first, s1) && Leads(c, s1, s2)
    ensures Leads(c, s0, s2)
    decreases |first|
  {
    if first != [] {
      Join(c, Apply(c, s0, first[0]), first[1..], s1, s2);
      Then(c, s0, first[0], s2);
    }
  }

  lemma Both(c: Cipher, s0: State, s1: State, s2: State)
    requires Leads(c, s0, s1) && Leads(c, s1, s2)
    ensures Leads(c, s0, s2)
  {
    var first :| Reaches(c, s0, first, s1);
    Join(c, s0, first, s1, s2);
  }

  // ---------------------------------------------------------------- a body below one block

  /** Nothing but header and tail: no read fills a block. */
  lemma SmallRead(c: Cipher, src: Source, s: State)
    requires Inv(c, src, s) && s.producer.Looping? && s.producer.headDone && |WholeBody(src)| < c.BlockLen()
    ensures |s.producer.wait + ReadFrom(s.src, c.BlockLen()).data| < c.BlockLen()
  {
    ReadAdvances(s.delivered, s.src, c.BlockLen());
    var r := ReadFrom(s.src, c.BlockLen());
    BodyGrows(s.delivered, Deliverable(s.src));
    if r.data != [] || r.status == Ok {
      ReadDelivers(s.src, c.BlockLen());
    }
  }

  lemma ShortReadStays(c: Cipher, s: State)
    requires s.producer.Looping? && Enabled(c, s, Produce)
    requires s.producer.headDone ==> |s.producer.wait + ReadFrom(s.src, c.BlockLen()).data| < c.BlockLen()
    ensures var s' := OneRead(c, s, s.producer.headDone, s.producer.wait);
            SameConsumerSide(s, s') && (s'.producer.Looping? || s'.producer.Tail?)
  {
  }

  lemma ReadOn(c: Cipher, src: Source, s: State)
    requires Inv(c, src, s) && s.producer.Looping? && !s.cancelled && |WholeBody(src)| < c.BlockLen()
    ensures var s' := Apply(c, s, Produce);
            Inv(c, src, s') && SameConsumerSide(s, s') && (s'.producer.Looping? || s'.producer.Tail?)
  {
    if s.producer.headDone {
      SmallRead(c, src, s);
    }
    ShortReadStays(c, s);
    assert Apply(c, s, Produce) == OneRead(c, s, s.producer.headDone, s.producer.wait);
    StepKeepsInv(c, src, s, Produce);
  }

  /** The producer alone brings such a stream to its end. */
  lemma {:induction false} ReadToTheEnd(c: Cipher, src: Source, s: State) returns (s': State)
    requires Inv(c, src, s) && s.producer.Looping? && !s.cancelled && |WholeBody(src)| < c.BlockLen()
    ensures Leads(c, s, s') && Inv(c, src, s') && s'.producer.Tail? && SameConsumerSide(s, s')
    decreases Size(s.src), Phase(s.producer), Pending(s.producer), Stage(s.consumer), Flags(s)
  {
    var s1 := Apply(c, s, Produce);
    ReadOn(c, src, s);
    StepUsesUp(c, s, Produce);
    if s1.producer.Tail? {
      s' := s1;
      Step(c, s, Produce);
    } else {
      s' := ReadToTheEnd(c, src, s1);
      Then(c, s, Produce, s');
    }
  }

  /**
   A file that could not be created is reported as a success by some run exactly if the
   stream ends properly and its body is shorter than a block.
   */
  lemma NilWithoutFileIff(c: Cipher, src: Source)
    requires src.end != Ok
    ensures (exists s :: Reachable(c, src, s) && s.result == Some(true) && !s.created)
       <==> Ending(src) == Eof && |WholeBody(src)| < c.BlockLen()
  {
    if s :| Reachable(c, src, s) && s.result == Some(true) && !s.created {
      NilMeansBlocksOpened(c, src, s);
    }
    if Ending(src) == Eof && |WholeBody(src)| < c.BlockLen() {
      InitInv(c, src);
      var s1 := ReadToTheEnd(c, src, Init(src));
      var s2 := s1.(failed := true, consumer := Signalled);
      Step(c, s1, Consume(0, false));
      Step(c, s2, Return);
      Both(c, s1, s2, s2.(result := Some(true)));
      Both(c, Init(src), s1, s2.(result := Some(true)));
      assert Reachable(c, src, s2.(result := Some(true)));
    }
  }

  lemma InitInv(c: Cipher, src: Source)
    requires src.end != Ok
    ensures Inv(c, src, Init(src))
  {
    assert [] + Deliverable(src) == Deliverable(src);
  }

  // ---------------------------------------------------------------- undisturbed runs

  /** The buffered writer holds the last byte back. */
  ghost predicate Lagging(s: State) {
    |s.buffer| == if s.taken == [] then 0 else 1
  }

  function LagSplit(s: State, more: nat): nat {
    var total := |s.file| + |s.buffer| + more;
    if total == 0 then 0 else total - 1
  }

  ghost predicate Undisturbed(s: State) {
    !s.cancelled && !s.failed && s.result == None && Lagging(s)
  }

  /** Full blocks are still on their way. */
  ghost predicate Flowing(c: Cipher, src: Source, s: State) {
    Inv(c, src, s) && FullBlocksOpen(c, WholeBody(src)) && FlowRest(s)
  }

  ghost predicate FlowRest(s: State) {
    && Undisturbed(s)
    && (s.producer.Looping? || s.producer.Tail? || (s.producer.Writing? && !s.producer.last))
    && s.consumer in {Opening, Checking, Draining} && (s.consumer == Draining ==> s.producer.Writing?)
  }

  /** All have arrived: the producer is about to open the tail. */
  ghost predicate AtTail(c: Cipher, src: Source, s: State) {
    Flowing(c, src, s) && s.producer.Tail? && s.consumer == Checking
  }

  function FlowMove(s: State): Event
  {
    if s.consumer == Opening || (s.consumer == Checking && s.producer.Writing?) then Consume(0, true)
    else if s.producer.Writing? then Consume(LagSplit(s, |Portion(s.producer.rest)|), true)
    else Produce
  }

  lemma TakeLags(s: State)
    requires ConsumerInv(s) && !s.failed && Lagging(s) && s.producer.Writing? && s.consumer == Draining
    ensures var split := LagSplit(s, |Portion(s.producer.rest)|);
            && |s.file| <= split <= |s.file| + |s.buffer| + |Portion(s.producer.rest)|
            && Lagging(Take(s, s.producer.rest, s.producer.wait, s.producer.last, split, true))
  {
    assert |s.file| + |s.buffer| == |s.taken|;
  }

  /** With all full blocks opening no read ends the producer. */
  lemma ReadFlows(c: Cipher, src: Source, s: State)
    requires Flowing(c, src, s) && s.producer.Looping?
    ensures var s' := OneRead(c, s, s.producer.headDone, s.producer.wait);
            s'.producer.Looping? || s'.producer.Tail? || (s'.producer.Writing? && !s'.producer.last)
  {
    var wait, r := s.producer.wait, ReadFrom(s.src, ReadCap(c, s));
    if s.producer.headDone && |wait + r.data| >= c.BlockLen() {
      ReadAdvances(s.delivered, s.src, c.BlockLen());
      if c.Open((wait + r.data)[..c.BlockLen()]).None? {
        BlockRefused(c, s.delivered, s.sealed, wait, s.written, r.data, Deliverable(r.rest));
      }
    }
  }

  lemma FlowMoves(c: Cipher, src: Source, s: State)
    requires Flowing(c, src, s) && !AtTail(c, src, s)
    ensures Enabled(c, s, FlowMove(s)) && FlowRest(Apply(c, s, FlowMove(s)))
  {
    if s.consumer == Draining {
      TakeLags(s);
    } else if FlowMove(s) == Produce {
      ReadFlows(c, src, s);
      assert SameConsumerSide(s, Apply(c, s, Produce));
    }
  }

  lemma FlowStep(c: Cipher, src: Source, s: State)
    requires Flowing(c, src, s) && !AtTail(c, src, s)
    ensures Enabled(c, s, FlowMove(s)) && Flowing(c, src, Apply(c, s, FlowMove(s)))
  {
    FlowMoves(c, src, s);
    StepKeepsInv(c, src, s, FlowMove(s));
  }

  lemma {:induction false} AllBlocksArrive(c: Cipher, src: Source, s: State) returns (s': State)
    requires Flowing(c, src, s)
    ensures Leads(c, s, s') && AtTail(c, src, s')
    decreases Size(s.src), Phase(s.producer), Pending(s.producer), Stage(s.consumer), Flags(s)
  {
    if AtTail(c, src, s) {
      s' := s;
      Stay(c, s);
    } else {
      FlowStep(c, src, s);
      StepUsesUp(c, s, FlowMove(s));
      s' := AllBlocksArrive(c, src, Apply(c, s, FlowMove(s)));
      Then(c, s, FlowMove(s), s');
    }
  }

  /** The tail is on its way, or there is none to wait for. */
  ghost predicate Ebbing(c: Cipher, src: Source, s: State) {
    Inv(c, src, s) && EbbRest(s)
  }

  ghost predicate EbbRest(s: State) {
    && Undisturbed(s)
    && (s.producer.Tail? || s.producer.Gone? || (s.producer.Writing? && s.producer.last))
    && s.consumer in {Checking, Draining, Flushing} && (s.consumer != Checking ==> !s.producer.Tail?)
  }

  function EbbMove(s: State): Event {
    if s.producer.Tail? then Produce
    else if s.consumer == Draining && s.producer.Writing? then Consume(LagSplit(s, |Portion(s.producer.rest)|), true)
    else Consume(0, true)
  }

  lemma EbbMoves(c: Cipher, s: State)
    requires ConsumerInv(s) && EbbRest(s) && s.consumer != Flushing
    ensures Enabled(c, s, EbbMove(s)) && EbbRest(Apply(c, s, EbbMove(s)))
  {
    if s.consumer == Draining && s.producer.Writing? {
      TakeLags(s);
    } else if s.producer.Tail? {
      assert SameConsumerSide(s, Apply(c, s, Produce));
    }
  }

  lemma EbbStep(c: Cipher, src: Source, s: State)
    requires Ebbing(c, src, s) && s.consumer != Flushing
    ensures Enabled(c, s, EbbMove(s)) && Ebbing(c, src, Apply(c, s, EbbMove(s)))
  {
    EbbMoves(c, s);
    StepKeepsInv(c, src, s, EbbMove(s));
  }

  lemma {:induction false} TailArrives(c: Cipher, src: Source, s: State) returns (s': State)
    requires Ebbing(c, src, s)
    ensures Leads(c, s, s') && Ebbing(c, src, s') && s'.consumer == Flushing
    decreases Size(s.src), Phase(s.producer), Pending(s.producer), Stage(s.consumer), Flags(s)
  {
    if s.consumer == Flushing {
      s' := s;
      Stay(c, s);
    } else {
      EbbStep(c, src, s);
      StepUsesUp(c, s, EbbMove(s));
      s' := TailArrives(c, src, Apply(c, s, EbbMove(s)));
      Then(c, s, EbbMove(s), s');
    }
  }

  lemma ToTail(c: Cipher, src: Source) returns (s: State)
    requires src.end != Ok && FullBlocksOpen(c, WholeBody(src))
    ensures Leads(c, Init(src), s) && AtTail(c, src, s)
  {
    InitInv(c, src);
    s := AllBlocksArrive(c, src, Init(src));
  }

  /** An undisturbed download up to the final flush. */
  lemma ToFlush(c: Cipher, src: Source) returns (s: State)
    requires src.end != Ok && FullBlocksOpen(c, WholeBody(src)) && Ending(src) == Eof
    ensures Leads(c, Init(src), s) && s.consumer == Flushing && Inv(c, src, s) && Undisturbed(s) && s.created && s.complete
    ensures s.file + s.buffer == Decode(c, Deliverable(src))
  {
    var s1 := ToTail(c, src);
    s := TailArrives(c, src, s1);
    Both(c, Init(src), s1, s);
  }

  // ---------------------------------------------------------------- cancellation

  /**
   Some run returns nil with a file that did not fail and yet is incomplete, exactly if
   the stream ends properly, all full blocks open, and the tail opens to something.  Only
   a cancellation can do this, and only the tail is lost.
   */
  lemma NilIncompleteIff(c: Cipher, src: Source)
    requires src.end != Ok
    ensures (exists s :: IncompleteNil(c, src, s) && !s.failed)
       <==> Ending(src) == Eof && FullBlocksOpen(c, WholeBody(src)) && TailContent(c, WholeBody(src)) != []
    ensures forall s :: IncompleteNil(c, src, s) && !s.failed ==> s.cancelled
  {
    forall s | IncompleteNil(c, src, s) && !s.failed
      ensures s.cancelled && Ending(src) == Eof && FullBlocksOpen(c, WholeBody(src)) && TailContent(c, WholeBody(src)) != []
    {
      NilMeansBlocksOpened(c, src, s);
      NilMissesAtMostTheTail(c, src, s);
      if !s.cancelled { FaultFreeDownload(c, src, s); }
    }
    if Ending(src) == Eof && FullBlocksOpen(c, WholeBody(src)) && TailContent(c, WholeBody(src)) != [] {
      var s := CancelBeforeTail(c, src);
      assert IncompleteNil(c, src, s);
    }
  }

  /** Nil was returned and the file is not what it should be. */
  ghost predicate IncompleteNil(c: Cipher, src: Source, s: State) {
    Reachable(c, src, s) && s.result == Some(true) && s.file != Decode(c, Deliverable(src))
  }

  lemma CancelBeforeTail(c: Cipher, src: Source) returns (s: State)
    requires src.end != Ok && Ending(src) == Eof && FullBlocksOpen(c, WholeBody(src))
    ensures Reachable(c, src, s) && s.result == Some(true) && !s.failed
    ensures s.file == FullContent(c, WholeBody(src))
    ensures Decode(c, Deliverable(src)) == s.file + TailContent(c, WholeBody(src))
  {
    var s0 := ToTail(c, src);
    var s1 := s0.(cancelled := true);
    var s2 := s1.(consumer := Flushing);
    var s3 := s2.(file := s0.taken, buffer := [], consumer := Signalled);
    s := s3.(result := Some(true));
    Step(c, s0, Cancel);
    Step(c, s1, Consume(0, true));
    Step(c, s2, Consume(|s0.taken|, true));
    Step(c, s3, Return);
    Both(c, s2, s3, s);
    Both(c, s1, s2, s);
    Both(c, s0, s1, s);
    Both(c, Init(src), s0, s);
    TailTaken(c, src, s0);
  }

  lemma TailTaken(c: Cipher, src: Source, s: State)
    requires AtTail(c, src, s)
    ensures s.taken == FullContent(c, WholeBody(src))
    ensures Decode(c, Deliverable(src)) == s.taken + TailContent(c, WholeBody(src))
  {
    assert Deliverable(src) == s.delivered;
    assert WholeBody(src) == s.sealed + s.producer.wait;
    CutDecodes(c, s.sealed, s.producer.wait);
  }

  // ---------------------------------------------------------------- the local file

  /** The last byte is lost in the flush nobody checks: possible for every download that
      ends properly with all full blocks opened and has a byte to lose. */
  lemma NilAfterFileErrorIff(c: Cipher, src: Source)
    requires src.end != Ok
    ensures (exists s :: IncompleteNil(c, src, s) && s.failed && !s.cancelled)
       <==> Ending(src) == Eof && FullBlocksOpen(c, WholeBody(src)) && Decode(c, Deliverable(src)) != []
  {
    if s :| IncompleteNil(c, src, s) && s.failed && !s.cancelled {
      NilMeansBlocksOpened(c, src, s);
      PipelineSafety(c, src, s);
    }
    if Ending(src) == Eof && FullBlocksOpen(c, WholeBody(src)) && Decode(c, Deliverable(src)) != [] {
      var s0 := ToFlush(c, src);
      var s1 := Apply(c, s0, Consume(|s0.file|, false));
      var s2 := s1.(result := Some(true));
      Step(c, s0, Consume(|s0.file|, false));
      Step(c, s1, Return);
      Both(c, s0, s1, s2);
      Both(c, Init(src), s0, s2);
      assert s2.file == s0.file && |s0.buffer| == 1;
      assert IncompleteNil(c, src, s2);
    }
  }

  // ---------------------------------------------------------------- the tail

  /** Without any fault nil is returned for a stream some part of which did not open,
      exactly if that part is the tail. */
  lemma NilWithTailLostIff(c: Cipher, src: Source)
    requires src.end != Ok
    ensures (exists s :: && Reachable(c, src, s) && !s.cancelled && !s.failed && s.result == Some(true)
                         && !Whole(c, WholeBody(src)))
       <==> Ending(src) == Eof && FullBlocksOpen(c, WholeBody(src)) && !TailOpens(c, WholeBody(src))
  {
    if s :| Reachable(c, src, s) && !s.cancelled && !s.failed && s.result == Some(true) && !Whole(c, WholeBody(src)) {
      NilMeansBlocksOpened(c, src, s);
      NilMeansWholeIffTailOpens(c, src, s);
    }
    if Ending(src) == Eof && FullBlocksOpen(c, WholeBody(src)) && !TailOpens(c, WholeBody(src)) {
      WholeIffTailOpens(c, WholeBody(src));
      var s := FaultFreeRun(c, src);
    }
  }

  /** Every download whose full blocks open can run to a nil result without a fault. */
  lemma FaultFreeRun(c: Cipher, src: Source) returns (s: State)
    requires src.end != Ok && Ending(src) == Eof && FullBlocksOpen(c, WholeBody(src))
    ensures Reachable(c, src, s) && !s.cancelled && !s.failed && s.result == Some(true)
    ensures s.file == Decode(c, Deliverable(src))
  {
    var s0 := ToFlush(c, src);
    var e := Consume(|s0.file|, true);
    var s1 := Apply(c, s0, e);
    s := s1.(result := Some(true));
    Step(c, s0, e);
    Step(c, s1, Return);
    Both(c, s0, s1, s);
    Both(c, Init(src), s0, s);
  }
}
