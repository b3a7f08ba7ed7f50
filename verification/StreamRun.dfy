/**
 A reliable stream over any number of paths: frames and acknowledgements may be lost,
 repeated, reordered and cut differently on every retransmission. The two ends take the
 steps that `SendStream` and `RecvStream` are proved to take on sets of offsets.
 */
module StreamRun {
  import opened Outcomes
  import opened OffsetSets
  import opened StreamChunks
  import opened OffsetRanges
  import RecvStream
  import SendStream

  /**
   `data` is all that was written, and `home` tells of every byte where the write that brought
   it began; `cached` is what the sender retains. `frames`, `acks` and `credits` are all that was
   ever put on the paths; nothing says whether or how often it arrives.
   */
  datatype System = System(
    limits: Limits,
    data: Bytes, home: seq<nat>, cached: set<nat>, maxOffset: nat,
    frames: set<Chunk>, acks: set<seq<Range>>, credits: set<nat>,
    received: set<nat>, pieces: set<nat>, delivered: Bytes, published: nat)

  function Opened(limits: Limits, credit: nat): System {
    System(limits, [], [], {}, credit, {}, {}, {}, {}, {}, [], credit)
  }

  datatype Step =
    | Write(payload: Bytes) | Retransmit(chunk: Chunk) | Arrive(chunk: Chunk)
    | Acknowledge(ranges: seq<Range>) | AckArrives(ranges: seq<Range>) | Publish(max: nat) | CreditArrives(max: nat)

  /** Only what was received is acknowledged. */
  predicate Truthful(ranges: seq<Range>, received: set<nat>) {
    forall i | 0 <= i < |ranges| :: Interval(ranges[i].start, ranges[i].end) <= received
  }

  predicate Takes(s: System, c: Chunk) {
    |s.delivered| <= |s.data| && Accepts(s.limits, s.published, s.received, s.pieces, |s.delivered|, c, |s.data|)
  }

  function Arrived(s: System, c: Chunk): System
    requires |s.delivered| <= |s.data|
  {
    var received := s.received + Span(c);
    var next := Frontier(received, |s.delivered|, |s.data|);
    s.(received := received, pieces := PiecesAfter(s.received, s.pieces, |s.delivered|, c, |s.data|), delivered := s.delivered + s.data[|s.delivered|..next])
  }

  function Apply(s: System, step: Step): Option<System> {
    match step
    case Write(payload) =>
      if payload == [] || |s.data| + |payload| > s.maxOffset then None
      else
        var c := Chunk(|s.data|, payload);
        Some(s.(data := s.data + payload, home := HomesWith(s.home, payload), cached := s.cached + Span(c), frames := s.frames + {c}))
    case Retransmit(c) =>
      if |c.payload| > 0 && Slice(c, s.data) && Span(c) <= s.cached && OneWrite(c, s.home) then Some(s.(frames := s.frames + {c})) else None
    case Arrive(c) => if c in s.frames && Takes(s, c) then Some(Arrived(s, c)) else None
    case Acknowledge(ranges) => if Truthful(ranges, s.received) then Some(s.(acks := s.acks + {ranges})) else None
    case AckArrives(ranges) => if ranges in s.acks then Some(s.(cached := SendStream.Unacked(s.cached, ranges))) else None
    case Publish(max) => Some(s.(published := if max > s.published then max else s.published, credits := s.credits + {max}))
    case CreditArrives(max) => if max in s.credits then Some(s.(maxOffset := if max > s.maxOffset then max else s.maxOffset)) else None
  }

  function Run(s: System, steps: seq<Step>): Option<System>
    decreases |steps|
  {
    if steps == [] then Some(s)
    else match Apply(s, steps[0])
      case Some(t) => Run(t, steps[1..])
      case None => None
  }

  /** No byte is lost: what was written has been received or is still retained. */
  predicate Retained(s: System) {
    forall o | 0 <= o < |s.data| :: o in s.received || o in s.cached
  }

  predicate Bounded(s: System) {
    && (forall o | o in s.received :: o < |s.data|)
    && (forall o | o in s.cached :: o < |s.data|)
    && (forall c | c in s.frames :: |c.payload| > 0 && Slice(c, s.data))
    && (forall a | a in s.acks :: Truthful(a, s.received))
    && |s.data| <= s.maxOffset <= s.published
    && (forall m | m in s.credits :: m <= s.published)
  }

  /** What was delivered is the written prefix up to the first byte not received. */
  predicate InOrder(s: System) {
    && s.delivered <= s.data
    && (forall o | 0 <= o < |s.delivered| :: o in s.received)
    && (|s.delivered| < |s.data| ==> |s.delivered| !in s.received)
  }

  predicate Writes(home: seq<nat>) {
    && (forall o | 0 <= o < |home| :: home[o] <= o)
    && (forall o, p | 0 <= o < |home| && home[o] <= p <= o :: home[p] == home[o])
  }

  /** Writes are runs of bytes, and no frame crosses from one to the next. */
  predicate Homed(home: seq<nat>, frames: set<Chunk>) {
    && Writes(home)
    && (forall c | c in frames :: OneWrite(c, home))
  }

  /** The receiver holds no more islands, buffered bytes and buffered pieces than it may. */
  predicate Limited(l: Limits, received: set<nat>, pieces: set<nat>, next: nat) {
    && |Ends(received)| <= l.maxRanges
    && |received| <= next + l.maxReorderBytes
    && |pieces| <= l.maxReorderChunks
    && pieces <= received
  }

  predicate Reliable(s: System) {
    && Retained(s) && Bounded(s) && InOrder(s)
    && |s.home| == |s.data| && Homed(s.home, s.frames)
    && Limited(s.limits, s.received, s.pieces, |s.delivered|)
  }

  // ----- every step keeps the stream reliable -----

  lemma {:induction false} WriteHomed(home: seq<nat>, frames: set<Chunk>, payload: Bytes)
    requires Homed(home, frames)
    ensures Homed(HomesWith(home, payload), frames + {Chunk(|home|, payload)})
  {
    var more := HomesWith(home, payload);
    forall c | c in frames ensures OneWrite(c, more) {
      assert OneWrite(c, home);
    }
  }

  lemma {:induction false} TakenDirectly(l: Limits, received: set<nat>, pieces: set<nat>, next: nat, c: Chunk, bound: nat)
    requires Limited(l, received, pieces, next) && next <= bound && Direct(received, next, c) && End(c) <= bound
    ensures |received + Span(c)| <= Frontier(received + Span(c), next, bound) + l.maxReorderBytes
    ensures |PiecesAfter(received, pieces, next, c, bound)| <= l.maxReorderChunks
  {
    var f := Frontier(received + Span(c), next, bound);
    assert f < End(c) ==> f in Span(c);
    IntervalSize(c.offset, End(c));
    UnionSize(received, Span(c));
    forall o | o in PiecesAfter(received, pieces, next, c, bound) ensures o in pieces {
      assert o in FreshStarts(received, c) ==> o == c.offset || o - 1 in Span(c);
    }
    SubsetSize(PiecesAfter(received, pieces, next, c, bound), pieces);
  }

  lemma {:induction false} TakenCovered(received: set<nat>, pieces: set<nat>, next: nat, c: Chunk, bound: nat)
    requires next <= bound && Span(c) <= received
    ensures received + Span(c) == received && |PiecesAfter(received, pieces, next, c, bound)| <= |pieces|
  {
    assert received + Span(c) == received;
    SubsetSize(PiecesAfter(received, pieces, next, c, bound), pieces);
  }

  lemma {:induction false} TakingStaysLimited(l: Limits, published: nat, received: set<nat>, pieces: set<nat>, next: nat, c: Chunk, bound: nat)
    requires next <= bound && Limited(l, received, pieces, next) && Accepts(l, published, received, pieces, next, c, bound) && End(c) <= bound
    ensures Limited(l, received + Span(c), PiecesAfter(received, pieces, next, c, bound), Frontier(received + Span(c), next, bound))
  {
    if Span(c) <= received {
      TakenCovered(received, pieces, next, c, bound);
    } else if Direct(received, next, c) {
      TakenDirectly(l, received, pieces, next, c, bound);
    }
  }

  lemma {:induction false} ArriveReliable(s: System, c: Chunk)
    requires Reliable(s) && c in s.frames && Takes(s, c)
    ensures Reliable(Arrived(s, c)) && s.delivered <= Arrived(s, c).delivered
  {
    TakingStaysLimited(s.limits, s.published, s.received, s.pieces, |s.delivered|, c, |s.data|);
    var t := Arrived(s, c);
    var next := Frontier(t.received, |s.delivered|, |s.data|);
    assert Slice(c, s.data);
    assert t.delivered == s.data[..next];
  }

  lemma {:induction false} WriteReliable(s: System, payload: Bytes, t: System)
    requires Reliable(s) && Apply(s, Write(payload)) == Some(t)
    ensures Reliable(t) && s.data <= t.data && s.delivered == t.delivered
  {
    WriteHomed(s.home, s.frames, payload);
    assert forall c | c in s.frames :: Slice(c, s.data) && Slice(c, t.data);
  }

  lemma {:induction false} AckReliable(s: System, ranges: seq<Range>)
    requires Retained(s) && Truthful(ranges, s.received)
    ensures Retained(s.(cached := SendStream.Unacked(s.cached, ranges)))
  {
    forall o | 0 <= o < |s.data| && In(ranges, o) ensures o in s.received {
      var i :| 0 <= i < |ranges| && Within(ranges[i], o);
      assert o in Interval(ranges[i].start, ranges[i].end);
    }
  }

  lemma {:induction false} StepReliable(s: System, step: Step, t: System)
    requires Reliable(s) && Apply(s, step) == Some(t)
    ensures Reliable(t) && t.limits == s.limits && s.data <= t.data && s.delivered <= t.delivered
  {
    if step.Write? {
      WriteReliable(s, step.payload, t);
    } else if step.AckArrives? {
      AckReliable(s, step.ranges);
    } else if step.Arrive? {
      ArriveReliable(s, step.chunk);
    }
  }

  /** Over every run: delivery is in order without gap or repetition, nothing is lost, and no limit or credit is exceeded. */
  lemma {:induction false} RunReliable(s: System, steps: seq<Step>, t: System)
    requires Reliable(s) && Run(s, steps) == Some(t)
    ensures Reliable(t) && t.limits == s.limits && s.data <= t.data && s.delivered <= t.delivered
    decreases |steps|
  {
    if steps != [] {
      var u := Apply(s, steps[0]).value;
      StepReliable(s, steps[0], u);
      RunReliable(u, steps[1..], t);
    }
  }

  lemma {:induction false} EveryRunIsReliable(limits: Limits, credit: nat, steps: seq<Step>, t: System)
    requires Run(Opened(limits, credit), steps) == Some(t)
    ensures Reliable(t) && t.limits == limits
    ensures t.delivered <= t.data
    ensures forall o | 0 <= o < |t.data| :: o in t.received || o in t.cached
    ensures forall c | c in t.frames :: End(c) <= t.published
    ensures |Ends(t.received)| <= limits.maxRanges && |t.received| - |t.delivered| <= limits.maxReorderBytes && |t.pieces| <= limits.maxReorderChunks
    ensures t.cached == {} ==> t.delivered == t.data
  {
    assert Ends({}) == {};
    RunReliable(Opened(limits, credit), steps, t);
    assert forall c | c in t.frames :: Slice(c, t.data);
    if t.cached == {} {
      assert |t.delivered| < |t.data| ==> |t.delivered| in t.received;
    }
  }

  lemma {:induction false} RunAppend(s: System, a: seq<Step>, t: System, b: seq<Step>)
    requires Run(s, a) == Some(t)
    ensures Run(s, a + b) == Run(t, b)
    decreases |a|
  {
    if a == [] {
      assert a + b == b;
    } else {
      assert (a + b)[1..] == a[1..] + b;
      RunAppend(Apply(s, a[0]).value, a[1..], t, b);
    }
  }

  // ----- the receiver of `RecvStream` takes the step `Arrive` -----

  /** A receiver's state stands for the abstract one. */
  ghost predicate Receiving(r: RecvStream.ReliableRecvStream, s: System)
    reads r
  {
    && r.Valid(s.data) && r.limits == s.limits && r.publishedMax == s.published
    && r.nextOffset == |s.delivered| && r.received == s.received && r.pieces == s.pieces
  }

  /** A frame that arrives is taken exactly when the step is possible, and then has its effect. */
  method ReceiveRefinesArrive(r: RecvStream.ReliableRecvStream, c: Chunk, ghost s: System) returns (out: Result<seq<Bytes>, RecvStream.ReceiveError>)
    requires c in s.frames && Slice(c, s.data) && |s.delivered| <= |s.data| && Receiving(r, s)
    modifies r
    ensures out.Ok? <==> Apply(s, Arrive(c)).Some?
    ensures out.Ok? ==> Receiving(r, Apply(s, Arrive(c)).value) && Apply(s, Arrive(c)).value.delivered == s.delivered + Joined(out.value)
    ensures out.Err? ==> Receiving(r, s)
  {
    out := r.ReceiveData(c.offset, c.payload, s.data);
    assert Chunk(c.offset, c.payload) == c;
  }

  // ----- the sender of `SendStream` takes the steps `Write`, `AckArrives` and `Retransmit` -----

  /** A sender's state stands for the abstract one. */
  ghost predicate Sending(w: SendStream.ReliableSendStream, s: System)
    reads w
  {
    w.Valid(s.data) && w.maxOffset == s.maxOffset && w.cached == s.cached && w.home == s.home
  }

  /** Sending is the step `Write`. */
  method SendRefinesWrite(w: SendStream.ReliableSendStream, payload: Bytes, ghost s: System) returns (out: Result<Chunk, SendStream.SendError>)
    requires |s.home| == |s.data| && Sending(w, s)
    modifies w
    ensures out.Ok? ==> Apply(s, Write(payload)).Some? && Sending(w, Apply(s, Write(payload)).value) && out.value in Apply(s, Write(payload)).value.frames
    ensures out.Err? ==> Sending(w, s)
  {
    out := w.SendData(payload, s.data);
  }

  /** Applying an acknowledgement is the step `AckArrives`. */
  method ApplyAckRefinesAckArrives(w: SendStream.ReliableSendStream, ranges: seq<Range>, ghost s: System) returns (out: Result<nat, SendStream.SendError>)
    requires Sending(w, s) && ranges in s.acks
    modifies w
    ensures Sending(w, if out.Ok? then Apply(s, AckArrives(ranges)).value else s)
  {
    out := w.ApplyAck(ranges, s.data);
  }

  /** Every frame offered for retransmission is a possible step `Retransmit`. */
  method RetransmissionRefinesRetransmit(w: SendStream.ReliableSendStream, range: Range, limit: nat, ghost s: System) returns (frame: Option<Chunk>)
    requires |s.home| == |s.data| && Sending(w, s)
    ensures frame.Some? ==> Apply(s, Retransmit(frame.value)).Some? && Span(frame.value) <= Interval(range.start, range.end)
    ensures frame.None? <==> limit == 0 || Interval(range.start, range.end) !! s.cached
  {
    frame := w.FirstRetransmission(range, limit, s.data);
    if frame.Some? {
      forall o | o in Span(frame.value) ensures o in s.cached && Within(range, o) {
        assert Spans(frame.value, o);
      }
    }
    forall o: nat ensures o in Interval(range.start, range.end) <==> Within(range, o) {
    }
  }
}
