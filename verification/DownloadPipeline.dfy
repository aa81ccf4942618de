/**
 downloadFile as it really runs: a producer and a consumer goroutine joined by a
 synchronous pipe, a context that may be cancelled at any moment, a local file that may
 fail, and a caller that waits for the consumer only and then reads the shared
 completion flag.  One event is one atomic action of one of them.
 */
module DownloadPipeline {
  import opened Prelude
  import opened DownloadSpec
  import opened DownloadProducer

  const PIPE_READ: nat := 3 * 1024 * 1024

  datatype Producer =
    | Looping(headDone: bool, wait: Bytes)             // at the loop head
    | Writing(rest: Bytes, wait: Bytes, last: bool)    // inside a pipe write
    | Tail(headDone: bool, wait: Bytes)                // flag decided, tail not opened yet
    | Gone                                             // pipe closed for writing

  datatype Consumer =
    | Opening      // about to create the file
    | Checking     // at the loop head
    | Draining     // inside a pipe read
    | Flushing     // leaving: flush, then signal the caller
    | Signalled    // the caller may go on; pipe not yet closed for reading
    | Left

  datatype State = State(
    src: Source, producer: Producer, consumer: Consumer,
    cancelled: bool, complete: bool,
    created: bool, failed: bool, file: Bytes, buffer: Bytes,
    result: Option<bool>,
    // history
    delivered: Bytes, sealed: Bytes, written: seq<Bytes>, taken: Bytes)

  datatype Event =
    | Cancel
    | Produce
    | Consume(split: nat, ok: bool)  // how far the file grows, and whether the file call succeeds
    | Return

  function Init(src: Source): State {
    State(src, Looping(false, []), Opening, false, false, false, false, [], [], None, [], [], [], [])
  }

  // ---------------------------------------------------------------- steps

  predicate Enabled(c: Cipher, s: State, e: Event) {
    match e
    case Cancel => !s.cancelled
    case Produce =>
      (match s.producer
       case Looping(headDone, wait) => !headDone ==> |wait| < HEADER_LEN
       case Writing(_, _, _) => s.consumer == Left
       case Tail(_, _) => true
       case Gone => false)
    case Consume(split, ok) =>
      (match s.consumer
       case Opening => true
       case Checking => true
       case Draining =>
         (match s.producer
          case Writing(rest, _, _) => |s.file| <= split <= |s.file| + |s.buffer| + |Portion(rest)|
          case Gone => true
          case _ => false)
       case Flushing => |s.file| <= split <= |s.file| + |s.buffer|
       case Signalled => true
       case Left => false)
    case Return => s.consumer in {Signalled, Left} && s.result == None
  }

  /** What one pipe read takes of a pending write. */
  function Portion(rest: Bytes): Bytes {
    if |rest| <= PIPE_READ then rest else rest[..PIPE_READ]
  }

  function Apply(c: Cipher, s: State, e: Event): State
    requires Enabled(c, s, e)
  {
    match e
    case Cancel => s.(cancelled := true)
    case Produce =>
      (match s.producer
       case Looping(headDone, wait) => if s.cancelled then s.(producer := Gone) else OneRead(c, s, headDone, wait)
       case Writing(_, _, _) => s.(producer := Gone)
       case Tail(_, wait) => OpenTail(c, s, wait))
    case Consume(split, ok) =>
      (match s.consumer
       case Opening =>
         if ok then s.(created := true, consumer := Checking) else s.(failed := true, consumer := Signalled)
       case Checking => s.(consumer := if s.cancelled then Flushing else Draining)
       case Draining =>
         (match s.producer
          case Writing(rest, wait, last) => Take(s, rest, wait, last, split, ok)
          case Gone => s.(consumer := Flushing))
       case Flushing =>
         if s.failed then s.(consumer := Signalled) else
           var all := s.file + s.buffer;
           if ok then s.(file := all, buffer := [], consumer := Signalled)
           else s.(file := all[..split], buffer := all[split..], failed := true, consumer := Signalled)
       case Signalled => s.(consumer := Left))
    case Return => s.(result := Some(s.complete))
  }

  /** The producer leaves the consumer, the file and the caller alone. */
  ghost predicate SameConsumerSide(s: State, s': State) {
    && s'.consumer == s.consumer && s'.cancelled == s.cancelled && s'.created == s.created && s'.failed == s.failed
    && s'.file == s.file && s'.buffer == s.buffer && s'.result == s.result && s'.taken == s.taken
  }

  /** One iteration of the producer loop that finds the context alive. */
  function OneRead(c: Cipher, s: State, headDone: bool, wait: Bytes): (s': State)
    requires !headDone ==> |wait| < HEADER_LEN
    ensures SameConsumerSide(s, s')
    ensures var r := ReadFrom(s.src, if headDone then c.BlockLen() else HEADER_LEN - |wait|);
            if r.data == [] && r.status != Ok then s'.src == Source([], r.status) && s'.producer.Tail?
            else s'.src == r.rest
  {
    var r := ReadFrom(s.src, if headDone then c.BlockLen() else HEADER_LEN - |wait|);
    var all := wait + r.data;
    if r.data == [] then
      if r.status == Ok then s.(src := r.rest)
      else s.(src := Source([], r.status), complete := r.status == Eof, producer := Tail(headDone, wait))
    else
      var s := s.(src := r.rest, delivered := s.delivered + r.data);
      if !headDone then
        if |all| < HEADER_LEN then s.(producer := Looping(false, all))
        else s.(producer := Looping(true, if all[..|MAGIC|] == MAGIC then all[HEADER_LEN..] else all))
      else if |all| < c.BlockLen() then s.(producer := Looping(true, all))
      else
        var block, rest := all[..c.BlockLen()], all[c.BlockLen()..];
        match c.Open(block)
        case None => s.(producer := Gone)
        case Some(piece) =>
          s.(producer := Writing(piece, rest, false), sealed := s.sealed + block, written := s.written + [piece])
  }

  function OpenTail(c: Cipher, s: State, wait: Bytes): (s': State)
    ensures SameConsumerSide(s, s')
  {
    if wait == [] then s.(producer := Gone) else
      match c.Open(wait)
      case None => s.(producer := Gone)
      case Some(piece) => s.(producer := Writing(piece, [], true), written := s.written + [piece])
  }

  /** The consumer takes a portion of the pending write and hands it to the buffered
      writer, which may move any amount on to the file. */
  function Take(s: State, rest: Bytes, wait: Bytes, last: bool, split: nat, ok: bool): State
    requires |s.file| <= split <= |s.file| + |s.buffer| + |Portion(rest)|
  {
    var data := Portion(rest);
    var left := rest[|data|..];
    var producer := if left != [] then Writing(left, wait, last) else if last then Gone else Looping(true, wait);
    var all := s.file + s.buffer + data;
    var s := s.(producer := producer, taken := s.taken + data);
    if data == [] then s.(consumer := Checking)
    else if ok then s.(file := all[..split], buffer := all[split..], consumer := Checking)
    else s.(file := all[..split], buffer := all[split..], failed := true, consumer := Flushing)
  }

  /** `s` is reached from `from` by performing the events in order. */
  ghost predicate Reaches(c: Cipher, from: State, events: seq<Event>, s: State)
    decreases |events|
  {
    if events == [] then s == from else
      Enabled(c, from, events[0]) && Reaches(c, Apply(c, from, events[0]), events[1..], s)
  }

  ghost predicate Reachable(c: Cipher, src: Source, s: State) {
    exists events :: Reaches(c, Init(src), events, s)
  }

  // ---------------------------------------------------------------- the invariant

  ghost predicate ProducerInv(c: Cipher, src: Source, s: State) {
    && s.src.end != Ok
    && Deliverable(src) == s.delivered + Deliverable(s.src)
    && Ending(src) == Ending(s.src)
    && s.written <= Pieces(c, Body(s.delivered))
    && s.written <= Pieces(c, Body(Deliverable(src)))
    && match s.producer
       case Looping(headDone, wait) =>
         && Holding(c, headDone, s.delivered, s.sealed, wait, s.written)
         && s.taken == Flatten(s.written) && !s.complete
       case Writing(rest, wait, last) =>
         && s.taken + rest == Flatten(s.written)
         && if last then Settled(c, src, s) else
              !s.complete && Holding(c, true, s.delivered, s.sealed, wait, s.written)
       case Tail(headDone, wait) =>
         && Holding(c, headDone, s.delivered, s.sealed, wait, s.written)
         && s.taken == Flatten(s.written)
         && Deliverable(s.src) == [] && (s.complete <==> Ending(src) == Eof)
       case Gone =>
         && s.taken <= Flatten(s.written)
         && (s.cancelled || s.failed || (Settled(c, src, s) && s.taken == Flatten(s.written)))
  }

  /** The writes are the whole result and the flag says what it should. */
  ghost predicate Settled(c: Cipher, src: Source, s: State) {
    && s.written == Pieces(c, Body(Deliverable(src)))
    && (s.complete <==> Ending(src) == Eof && FullBlocksOpen(c, Body(Deliverable(src))))
  }

  ghost predicate ConsumerInv(s: State) {
    && (if s.failed then s.file <= s.taken else s.file + s.buffer == s.taken)
    && (s.consumer == Opening ==> !s.failed && s.taken == [] && s.file == [])
    && (s.consumer in {Checking, Draining} ==> !s.failed)
    && (s.consumer !in {Opening, Checking, Draining} ==> s.cancelled || s.failed || s.producer == Gone)
    && (s.consumer in {Signalled, Left} && !s.failed ==> s.buffer == [])
    && (!s.failed && s.consumer != Opening ==> s.created)
    && (s.result.Some? ==> s.consumer in {Signalled, Left})
    && (s.result.Some? && !s.cancelled && !s.failed ==> s.result.value == s.complete)
  }

  ghost predicate Inv(c: Cipher, src: Source, s: State) {
    ProducerInv(c, src, s) && ConsumerInv(s)
  }

  lemma FlattenPrefix(a: seq<Bytes>, b: seq<Bytes>)
    requires a <= b
    ensures Flatten(a) <= Flatten(b)
  {
    assert b == a + b[|a|..];
    FlattenAppend(a, b[|a|..]);
  }

  lemma FlattenSnoc(a: seq<Bytes>, piece: Bytes)
    ensures Flatten(a + [piece]) == Flatten(a) + piece
  {
    FlattenAppend(a, [piece]);
    assert Flatten([piece]) == piece + Flatten([]);
  }

  /** Opened blocks stay opened whatever follows them. */
  lemma SealedIsPrefix(c: Cipher, sealed: Bytes, rest: Bytes)
    requires Aligned(c, sealed) && Whole(c, sealed)
    ensures Pieces(c, sealed) <= Pieces(c, sealed + rest)
  {
    SplitAligned(c, sealed, rest);
  }

  /** What is written stays right whatever is still to come. */
  lemma HoldingPrefix(c: Cipher, d: Bytes, sealed: Bytes, wait: Bytes, written: seq<Bytes>, more: Bytes)
    requires Holding(c, true, d, sealed, wait, written)
    ensures written <= Pieces(c, Body(d)) && written <= Pieces(c, Body(d + more))
  {
    SealedIsPrefix(c, sealed, wait);
    SealedIsPrefix(c, sealed, wait + more);
    BodyGrows(d, more);
    assert sealed + wait + more == sealed + (wait + more);
  }

  lemma IdleReadKeepsInv(c: Cipher, src: Source, s: State)
    requires ProducerInv(c, src, s) && s.producer.Looping? && Enabled(c, s, Produce)
    requires ReadFrom(s.src, ReadCap(c, s)).data == []
    ensures ProducerInv(c, src, OneRead(c, s, s.producer.headDone, s.producer.wait))
  {
    ReadAdvances(s.delivered, s.src, ReadCap(c, s));
  }

  function ReadCap(c: Cipher, s: State): (cap: nat)
    requires s.producer.Looping? && Enabled(c, s, Produce)
    ensures cap > 0
  {
    if s.producer.headDone then c.BlockLen() else HEADER_LEN - |s.producer.wait|
  }

  lemma HeadReadKeepsInv(c: Cipher, src: Source, s: State)
    requires ProducerInv(c, src, s) && s.producer.Looping? && !s.producer.headDone
    requires ReadFrom(s.src, ReadCap(c, s)).data != []
    ensures ProducerInv(c, src, OneRead(c, s, false, s.producer.wait))
  {
    ReadAdvances(s.delivered, s.src, ReadCap(c, s));
    var d := s.delivered + ReadFrom(s.src, ReadCap(c, s)).data;
    if |d| == HEADER_LEN {
      HeaderComplete(c, d);
    }
  }

  lemma MainReadKeepsInv(c: Cipher, src: Source, s: State)
    requires ProducerInv(c, src, s) && s.producer.Looping? && s.producer.headDone
    requires ReadFrom(s.src, c.BlockLen()).data != []
    ensures ProducerInv(c, src, OneRead(c, s, true, s.producer.wait))
  {
    var wait, r := s.producer.wait, ReadFrom(s.src, c.BlockLen());
    ReadAdvances(s.delivered, s.src, c.BlockLen());
    if |wait + r.data| < c.BlockLen() {
      StillWaiting(c, s.delivered, s.sealed, wait, s.written, r.data);
      HoldingPrefix(c, s.delivered + r.data, s.sealed, wait + r.data, s.written, Deliverable(r.rest));
    } else {
      FullReadKeepsInv(c, src, s, wait, r);
    }
  }

  lemma FullReadKeepsInv(c: Cipher, src: Source, s: State, wait: Bytes, r: Reading)
    requires ProducerInv(c, src, s) && s.producer == Looping(true, wait)
    requires r == ReadFrom(s.src, c.BlockLen()) && r.data != [] && |wait + r.data| >= c.BlockLen()
    ensures ProducerInv(c, src, OneRead(c, s, true, wait))
  {
    ReadAdvances(s.delivered, s.src, c.BlockLen());
    var all, d := wait + r.data, s.delivered + r.data;
    var block, rest := all[..c.BlockLen()], all[c.BlockLen()..];
    if c.Open(block).Some? {
      BlockOpened(c, s.delivered, s.sealed, wait, s.written, r.data);
      HoldingPrefix(c, d, s.sealed + block, rest, s.written + [c.Open(block).value], Deliverable(r.rest));
      FlattenSnoc(s.written, c.Open(block).value);
    } else {
      BlockRefused(c, s.delivered, s.sealed, wait, s.written, r.data, Deliverable(r.rest));
      BlockRefused(c, s.delivered, s.sealed, wait, s.written, r.data, []);
      assert d + [] == d;
    }
  }

  lemma TailKeepsInv(c: Cipher, src: Source, s: State)
    requires ProducerInv(c, src, s) && s.producer.Tail?
    ensures ProducerInv(c, src, OpenTail(c, s, s.producer.wait))
  {
    var headDone, wait := s.producer.headDone, s.producer.wait;
    StreamEnded(c, headDone, s.delivered, s.sealed, wait, s.written);
    assert Deliverable(src) == s.delivered;
    if TailPieces(c, wait) == [] {
      TailAbsent(c, src, s, wait);
    } else {
      TailWritten(c, src, s, wait, c.Open(wait).value);
    }
  }

  lemma TailAbsent(c: Cipher, src: Source, s: State, wait: Bytes)
    requires ProducerInv(c, src, s) && s.producer.Tail? && TailPieces(c, wait) == []
    requires Pieces(c, Body(s.delivered)) == s.written + []
    requires FullBlocksOpen(c, Body(s.delivered)) && Deliverable(src) == s.delivered
    ensures ProducerInv(c, src, OpenTail(c, s, wait))
  {
    assert s.written + [] == s.written;
    assert OpenTail(c, s, wait) == s.(producer := Gone);
  }

  lemma TailWritten(c: Cipher, src: Source, s: State, wait: Bytes, piece: Bytes)
    requires ProducerInv(c, src, s) && s.producer.Tail? && wait != [] && c.Open(wait) == Some(piece)
    requires Pieces(c, Body(s.delivered)) == s.written + [piece]
    requires FullBlocksOpen(c, Body(s.delivered)) && Deliverable(src) == s.delivered
    ensures ProducerInv(c, src, OpenTail(c, s, wait))
  {
    FlattenSnoc(s.written, piece);
    assert OpenTail(c, s, wait) == s.(producer := Writing(piece, [], true), written := s.written + [piece]);
  }

  lemma PortionSplits(taken: Bytes, rest: Bytes)
    ensures var data := Portion(rest);
            && (taken + data) + rest[|data|..] == taken + rest
            && (rest[|data|..] == [] ==> taken + data == taken + rest)
            && (data == [] ==> rest == [] && taken + data == taken)
  {
  }

  /** Consumer actions that take nothing from the pipe leave the producer's side alone. */
  ghost predicate SameProducerSide(s: State, s': State) {
    && s'.src == s.src && s'.producer == s.producer && s'.complete == s.complete && s'.cancelled == s.cancelled
    && s'.delivered == s.delivered && s'.sealed == s.sealed && s'.written == s.written && s'.taken == s.taken
    && (s.failed ==> s'.failed)
  }

  lemma AloneKeepsProducer(c: Cipher, src: Source, s: State, s': State)
    requires ProducerInv(c, src, s) && SameProducerSide(s, s')
    ensures ProducerInv(c, src, s')
  {
  }

  /** The producer's side of a pipe read. */
  function Taken(s: State, rest: Bytes, wait: Bytes, last: bool): State {
    var data := Portion(rest);
    var left := rest[|data|..];
    s.(producer := if left != [] then Writing(left, wait, last) else if last then Gone else Looping(true, wait),
       taken := s.taken + data)
  }

  lemma TakenKeepsProducer(c: Cipher, src: Source, s: State)
    requires ProducerInv(c, src, s) && s.producer.Writing?
    ensures ProducerInv(c, src, Taken(s, s.producer.rest, s.producer.wait, s.producer.last))
  {
    PortionSplits(s.taken, s.producer.rest);
  }

  lemma TakeKeepsProducer(c: Cipher, src: Source, s: State, split: nat, ok: bool)
    requires ProducerInv(c, src, s) && s.producer.Writing?
    requires |s.file| <= split <= |s.file| + |s.buffer| + |Portion(s.producer.rest)|
    ensures ProducerInv(c, src, Take(s, s.producer.rest, s.producer.wait, s.producer.last, split, ok))
  {
    TakenKeepsProducer(c, src, s);
    AloneKeepsProducer(c, src, Taken(s, s.producer.rest, s.producer.wait, s.producer.last),
                       Take(s, s.producer.rest, s.producer.wait, s.producer.last, split, ok));
  }

  lemma TakeKeepsConsumer(s: State, split: nat, ok: bool)
    requires ConsumerInv(s) && s.consumer == Draining && s.producer.Writing?
    requires |s.file| <= split <= |s.file| + |s.buffer| + |Portion(s.producer.rest)|
    ensures ConsumerInv(Take(s, s.producer.rest, s.producer.wait, s.producer.last, split, ok))
  {
    var data := Portion(s.producer.rest);
    var all := s.file + s.buffer + data;
    assert all == s.taken + data;
    assert all[..split] + all[split..] == all;
    if data == [] {
      assert s.taken + data == s.taken;
    }
  }

  lemma AloneKeepsConsumer(c: Cipher, s: State, split: nat, ok: bool)
    requires ConsumerInv(s) && Enabled(c, s, Consume(split, ok)) && !(s.consumer == Draining && s.producer.Writing?)
    ensures ConsumerInv(Apply(c, s, Consume(split, ok))) && SameProducerSide(s, Apply(c, s, Consume(split, ok)))
  {
    var all := s.file + s.buffer;
    assert s.consumer == Flushing ==> all[..split] <= all && all + [] == all;
  }

  lemma ConsumeKeepsInv(c: Cipher, src: Source, s: State, split: nat, ok: bool)
    requires Inv(c, src, s) && Enabled(c, s, Consume(split, ok))
    ensures Inv(c, src, Apply(c, s, Consume(split, ok)))
  {
    if s.consumer == Draining && s.producer.Writing? {
      TakeKeepsProducer(c, src, s, split, ok);
      TakeKeepsConsumer(s, split, ok);
    } else {
      AloneKeepsConsumer(c, s, split, ok);
      AloneKeepsProducer(c, src, s, Apply(c, s, Consume(split, ok)));
    }
  }

  lemma ProduceKeepsInv(c: Cipher, src: Source, s: State)
    requires ProducerInv(c, src, s) && ConsumerInv(s) && Enabled(c, s, Produce)
    ensures ProducerInv(c, src, Apply(c, s, Produce))
  {
    match s.producer
    case Looping(headDone, wait) =>
      if s.cancelled {
        assert Apply(c, s, Produce) == s.(producer := Gone);
      } else if ReadFrom(s.src, ReadCap(c, s)).data == [] {
        IdleReadKeepsInv(c, src, s);
      } else if headDone {
        MainReadKeepsInv(c, src, s);
      } else {
        HeadReadKeepsInv(c, src, s);
      }
    case Tail(_, _) => TailKeepsInv(c, src, s);
    case Writing(_, _, _) =>
      assert Apply(c, s, Produce) == s.(producer := Gone);
  }

  lemma ProduceKeepsConsumer(c: Cipher, s: State)
    requires ConsumerInv(s) && Enabled(c, s, Produce)
    ensures ConsumerInv(Apply(c, s, Produce))
  {
    assert s.producer != Gone;
    var s' := Apply(c, s, Produce);
    SideFramesInv(s, s');
  }

  lemma SideFramesInv(s: State, s': State)
    requires ConsumerInv(s) && SameConsumerSide(s, s') && s.producer != Gone
    ensures ConsumerInv(s')
  {
  }

  lemma StepKeepsInv(c: Cipher, src: Source, s: State, e: Event)
    requires Inv(c, src, s) && Enabled(c, s, e)
    ensures Inv(c, src, Apply(c, s, e))
  {
    match e
    case Cancel => assert Apply(c, s, e) == s.(cancelled := true);
    case Return => assert Apply(c, s, e) == s.(result := Some(s.complete));
    case Consume(split, ok) => ConsumeKeepsInv(c, src, s, split, ok);
    case Produce =>
      ProduceKeepsInv(c, src, s);
      ProduceKeepsConsumer(c, s);
  }
}
