/** The receiving end of a reliable stream (`ReliableRecvStream` in `src/mux/stream.rs`). */
module RecvStream {
  import opened Outcomes
  import opened OffsetRanges
  import opened OffsetSets
  import opened ReceivePreviews
  import opened StreamChunks

  const MAX_U64: nat := 0xFFFF_FFFF_FFFF_FFFF

  datatype ReceiveError = EmptyPayload | PayloadTooLarge | OffsetOverflow | FlowControlViolation | TooManyRanges | ReorderBufferFull | TooManyChunks

  /** Buffered chunks are genuine, in order and strictly beyond the delivery frontier. */
  predicate Buffers(next: nat, buffered: seq<Chunk>, source: Bytes) {
    && Ordered(buffered) && Genuine(buffered, source) && next <= |source|
    && (forall i | 0 <= i < |buffered| :: next < buffered[i].offset)
  }

  /** What was received is the delivered prefix, what is buffered, and what is still to be filed. */
  ghost predicate Accounted(ranges: seq<Range>, next: nat, buffered: seq<Chunk>, filing: seq<Range>) {
    && (forall o: int :: In(ranges, o) <==> 0 <= o < next || Held(buffered, o) || In(filing, o))
    && (forall o: int | In(filing, o) :: next <= o && !Held(buffered, o))
  }

  // ----- delivering what has become contiguous -----

  /** Draining `buffered` from the frontier `next` has come to `after`, leaving `rest`. */
  ghost predicate Drained(next: nat, buffered: seq<Chunk>, after: nat, rest: seq<Chunk>) {
    && next <= after
    && |rest| <= |buffered| && rest == buffered[|buffered| - |rest|..]
    && (forall i | 0 <= i < |rest| :: after <= rest[i].offset)
    && (forall i | 0 <= i < |buffered| - |rest| :: buffered[i].offset < after)
    && (forall o: int :: Held(buffered, o) <==> next <= o < after || Held(rest, o))
    && Total(buffered) == Total(rest) + (after - next)
  }

  lemma {:induction false} DrainOne(next: nat, buffered: seq<Chunk>, after: nat, rest: seq<Chunk>)
    requires Drained(next, buffered, after, rest) && Ordered(buffered) && rest != [] && rest[0].offset == after
    ensures Drained(next, buffered, End(rest[0]), rest[1..])
  {
    forall o: int ensures Held(buffered, o) <==> next <= o < End(rest[0]) || Held(rest[1..], o) {
      HeldTail(rest, o);
    }
    assert forall i | 0 <= i < |rest| - 1 :: rest[1..][i] == buffered[|buffered| - |rest| + 1 + i];
  }

  lemma {:induction false} DrainedStarts(next: nat, buffered: seq<Chunk>, after: nat, rest: seq<Chunk>, pieces: set<nat>)
    requires Drained(next, buffered, after, rest) && Starting(buffered, pieces)
    ensures Starting(rest, Beyond(pieces, after))
  {
    var k := |buffered| - |rest|;
    forall o: nat ensures StartsAt(rest, o) <==> StartsAt(buffered, o) && o >= after {
      if i :| 0 <= i < |rest| && rest[i].offset == o {
        assert buffered[k + i] == rest[i];
      }
      if i :| 0 <= i < |buffered| && buffered[i].offset == o {
        assert o >= after ==> rest[i - k] == buffered[i];
      }
    }
  }

  /** Removes buffered chunks as long as the first one starts at the frontier. */
  method Drain(next: nat, buffered: seq<Chunk>, ghost source: Bytes) returns (after: nat, rest: seq<Chunk>, parts: seq<Bytes>)
    requires Ordered(buffered) && Genuine(buffered, source) && next <= |source|
    requires forall i | 0 <= i < |buffered| :: next <= buffered[i].offset
    ensures Drained(next, buffered, after, rest) && (rest != [] ==> rest[0].offset != after)
    ensures after <= |source| && Joined(parts) == source[next..after]
  {
    after, rest, parts := next, buffered, [];
    while rest != [] && rest[0].offset == after
      invariant Drained(next, buffered, after, rest)
      invariant after <= |source| && Joined(parts) == source[next..after]
      decreases |rest|
    {
      var c := rest[0];
      DrainOne(next, buffered, after, rest);
      assert c == buffered[|buffered| - |rest|] && Slice(c, source);
      JoinedSingle(c.payload);
      JoinedOn(parts, [c.payload], source, next, after, End(c));
      parts := parts + [c.payload];
      after := End(c);
      rest := rest[1..];
    }
  }

  // ----- filing the missing parts of a frame -----

  lemma {:induction false} TailApart(s: seq<Range>, o: int)
    requires Canonical(s) && s != [] && In(s[1..], o)
    ensures s[0].end < o && Canonical(s[1..])
  {
    var i :| 0 <= i < |s[1..]| && Within(s[1..][i], o);
    assert s[0].end < s[i + 1].start;
  }

  /** The part at the frontier is delivered, and then whatever it makes contiguous. */
  lemma {:induction false} DeliverStep(ranges: seq<Range>, next: nat, buffered: seq<Chunk>, filing: seq<Range>, after: nat, rest: seq<Chunk>)
    requires Accounted(ranges, next, buffered, filing) && Canonical(filing) && filing != [] && filing[0].start == next
    requires Drained(filing[0].end, buffered, after, rest)
    ensures Accounted(ranges, after, rest, filing[1..])
  {
    forall o: int
      ensures In(ranges, o) <==> 0 <= o < after || Held(rest, o) || In(filing[1..], o)
      ensures In(filing[1..], o) ==> after <= o && !Held(rest, o)
    {
      InTail(filing, o);
      if In(filing[1..], o) {
        TailApart(filing, o);
      }
    }
  }

  lemma {:induction false} BufferedBeyond(next: nat, buffered: seq<Chunk>, filing: seq<Range>, ranges: seq<Range>)
    requires Accounted(ranges, next, buffered, filing) && Canonical(filing) && filing != [] && filing[0].start == next && Ordered(buffered)
    requires forall i | 0 <= i < |buffered| :: next < buffered[i].offset
    ensures forall i | 0 <= i < |buffered| :: filing[0].end <= buffered[i].offset
  {
    forall i | 0 <= i < |buffered| ensures filing[0].end <= buffered[i].offset {
      var o := buffered[i].offset;
      assert Spans(buffered[i], o);
      InTail(filing, o);
    }
  }

  /** Any other part is buffered. */
  lemma {:induction false} BufferStep(ranges: seq<Range>, next: nat, buffered: seq<Chunk>, filing: seq<Range>, c: Chunk)
    requires Accounted(ranges, next, buffered, filing) && Canonical(filing) && filing != [] && Ordered(buffered)
    requires c.offset == filing[0].start && End(c) == filing[0].end
    ensures Accounted(ranges, next, AddChunk(buffered, c), filing[1..])
    ensures Apart(buffered, c)
  {
    forall o: int
      ensures In(ranges, o) <==> 0 <= o < next || Held(AddChunk(buffered, c), o) || In(filing[1..], o)
      ensures In(filing[1..], o) ==> next <= o && !Held(AddChunk(buffered, c), o)
    {
      InTail(filing, o);
      AddChunkHeld(buffered, c, o);
      if In(filing[1..], o) {
        TailApart(filing, o);
      }
    }
    forall i | 0 <= i < |buffered| ensures End(buffered[i]) <= c.offset || End(c) <= buffered[i].offset {
      var o := if buffered[i].offset >= c.offset then buffered[i].offset else c.offset;
      InTail(filing, o);
      assert Spans(buffered[i], o) ==> Held(buffered, o);
    }
  }

  lemma {:induction false} AddChunkStartsAt(cs: seq<Chunk>, c: Chunk, o: nat)
    ensures StartsAt(AddChunk(cs, c), o) <==> StartsAt(cs, o) || o == c.offset
  {
    var k, r := Position(cs, c.offset), AddChunk(cs, c);
    assert r[k] == c;
    if StartsAt(cs, o) {
      var i :| 0 <= i < |cs| && cs[i].offset == o;
      assert r[if i < k then i else i + 1] == cs[i];
    }
    if StartsAt(r, o) {
      var i :| 0 <= i < |r| && r[i].offset == o;
      assert i < k ==> r[i] == cs[i];
      assert i > k ==> r[i] == cs[i - 1];
    }
  }

  lemma {:induction false} AddChunkStarts(cs: seq<Chunk>, c: Chunk, pieces: set<nat>)
    requires Starting(cs, pieces)
    ensures Starting(AddChunk(cs, c), pieces + {c.offset})
  {
    forall o: nat ensures o in pieces + {c.offset} <==> StartsAt(AddChunk(cs, c), o) {
      AddChunkStartsAt(cs, c, o);
    }
  }

  /** The pieces left of `pieces` and those added since, once delivery has come to `after`. */
  ghost predicate Filed(pieces: set<nat>, added: set<nat>, after: nat, rest: seq<Chunk>) {
    Starting(rest, Beyond(pieces + added, after))
  }

  lemma {:induction false} FiledDeliver(buffered: seq<Chunk>, pieces: set<nat>, c: Chunk, after: nat, rest: seq<Chunk>)
    requires Drained(End(c), buffered, after, rest) && |c.payload| > 0 && Starting(buffered, pieces)
    ensures Filed(pieces, {c.offset}, after, rest)
  {
    DrainedStarts(End(c), buffered, after, rest, pieces);
    assert Beyond(pieces + {c.offset}, after) == Beyond(pieces, after);
  }

  lemma {:induction false} NothingBelow(next: nat, cs: seq<Chunk>, pieces: set<nat>)
    requires Starting(cs, pieces) && forall i | 0 <= i < |cs| :: next < cs[i].offset
    ensures Filed(pieces, {}, next, cs)
  {
    forall o | o in pieces ensures o >= next {
      assert StartsAt(cs, o);
    }
    assert Beyond(pieces + {}, next) == pieces;
  }

  lemma {:induction false} FiledBuffer(next: nat, buffered: seq<Chunk>, pieces: set<nat>, c: Chunk)
    requires Starting(buffered, pieces) && forall i | 0 <= i < |AddChunk(buffered, c)| :: next < AddChunk(buffered, c)[i].offset
    ensures Filed(pieces, {c.offset}, next, AddChunk(buffered, c))
  {
    AddChunkStarts(buffered, c, pieces);
    NothingBelow(next, AddChunk(buffered, c), pieces + {c.offset});
    assert pieces + {c.offset} + {} == pieces + {c.offset};
  }

  lemma {:induction false} FiledOn(pieces: set<nat>, added: set<nat>, after: nat, o: nat, further: nat, left: seq<Chunk>)
    requires Filed(Beyond(pieces + added, after), {o}, further, left) && after <= further
    ensures Filed(pieces, added + {o}, further, left)
  {
    assert Beyond(Beyond(pieces + added, after) + {o}, further) == Beyond(pieces + (added + {o}), further);
  }

  /** Files one missing part: deliver it at the frontier, buffer it beyond. */
  method FileOne(next: nat, buffered: seq<Chunk>, c: Chunk, ghost filing: seq<Range>, ghost ranges: seq<Range>, ghost pieces: set<nat>, ghost source: Bytes)
    returns (after: nat, rest: seq<Chunk>, parts: seq<Bytes>)
    requires Starting(buffered, pieces) && Buffers(next, buffered, source) && Accounted(ranges, next, buffered, filing) && Canonical(filing) && filing != []
    requires Slice(c, source) && c.offset == filing[0].start && End(c) == filing[0].end
    ensures Buffers(after, rest, source) && Accounted(ranges, after, rest, filing[1..])
    ensures next <= after && Joined(parts) == source[next..after]
    ensures Total(rest) == Total(buffered) + |c.payload| - (after - next)
    ensures Filed(pieces, {c.offset}, after, rest)
  {
    if c.offset == next {
      BufferedBeyond(next, buffered, filing, ranges);
      var more;
      after, rest, more := Drain(End(c), buffered, source);
      DeliverOne(next, buffered, c, filing, ranges, pieces, after, rest, more, source);
      parts := [c.payload] + more;
    } else {
      BufferOne(next, buffered, c, filing, ranges, pieces, source);
      after, rest, parts := next, AddChunk(buffered, c), [];
    }
  }

  lemma {:induction false} DrainedBuffers(next: nat, buffered: seq<Chunk>, from: nat, after: nat, rest: seq<Chunk>, source: Bytes)
    requires Buffers(next, buffered, source) && Drained(from, buffered, after, rest) && (rest != [] ==> rest[0].offset != after) && after <= |source|
    ensures Buffers(after, rest, source)
  {
    var k := |buffered| - |rest|;
    assert forall i | 0 <= i < |rest| :: rest[i] == buffered[k + i];
    assert forall i | 0 < i < |rest| :: End(rest[0]) <= rest[i].offset;
  }

  lemma {:induction false} DeliverOne(
    next: nat, buffered: seq<Chunk>, c: Chunk, filing: seq<Range>, ranges: seq<Range>, pieces: set<nat>, after: nat, rest: seq<Chunk>, more: seq<Bytes>, source: Bytes)
    requires Starting(buffered, pieces) && Buffers(next, buffered, source) && Accounted(ranges, next, buffered, filing) && Canonical(filing) && filing != []
    requires Slice(c, source) && c.offset == filing[0].start == next && End(c) == filing[0].end
    requires Drained(End(c), buffered, after, rest) && (rest != [] ==> rest[0].offset != after)
    requires after <= |source| && Joined(more) == source[End(c)..after]
    ensures Buffers(after, rest, source) && Accounted(ranges, after, rest, filing[1..])
    ensures Total(rest) == Total(buffered) + |c.payload| - (after - next)
    ensures Joined([c.payload] + more) == source[next..after]
    ensures Filed(pieces, {c.offset}, after, rest)
  {
    DeliverStep(ranges, next, buffered, filing, after, rest);
    FiledDeliver(buffered, pieces, c, after, rest);
    DrainedBuffers(next, buffered, End(c), after, rest, source);
    JoinedSingle(c.payload);
    JoinedOn([c.payload], more, source, next, End(c), after);
  }

  lemma {:induction false} BufferOne(next: nat, buffered: seq<Chunk>, c: Chunk, filing: seq<Range>, ranges: seq<Range>, pieces: set<nat>, source: Bytes)
    requires Starting(buffered, pieces) && Buffers(next, buffered, source) && Accounted(ranges, next, buffered, filing) && Canonical(filing) && filing != []
    requires Slice(c, source) && c.offset == filing[0].start != next && End(c) == filing[0].end
    ensures Buffers(next, AddChunk(buffered, c), source) && Accounted(ranges, next, AddChunk(buffered, c), filing[1..])
    ensures Total(AddChunk(buffered, c)) == Total(buffered) + |c.payload|
    ensures Filed(pieces, {c.offset}, next, AddChunk(buffered, c))
  {
    BufferStep(ranges, next, buffered, filing, c);
    AddChunkOrdered(buffered, c);
    AddChunkGenuine(buffered, c, source);
    AddChunkTotal(buffered, c);
    BeyondFrontier(ranges, next, buffered, filing, c);
    FiledBuffer(next, buffered, pieces, c);
  }

  lemma {:induction false} SuffixStep(s: seq<Range>, k: nat)
    requires k < |s|
    ensures s[k..] != [] && s[k..][0] == s[k] && s[k..][1..] == s[k + 1..]
    ensures Lengths(s[k..]) == s[k].end - s[k].start + Lengths(s[k + 1..])
    ensures Canonical(s) ==> Canonical(s[k..])
  {
  }

  lemma {:induction false} OneMoreStart(s: seq<Range>, k: nat, starts: set<nat>)
    requires k < |s| && RangesStarting(s, k, starts)
    ensures RangesStarting(s, k + 1, starts + {s[k].start})
  {
  }

  lemma {:induction false} SameStarts(s: seq<Range>, a: set<nat>, b: set<nat>)
    requires RangesStarting(s, |s|, a) && RangesStarting(s, |s|, b)
    ensures a == b
  {
    forall o: nat ensures o in a <==> o in b {
    }
  }

  /** Files the missing part `k` of a frame. */
  method FilePart(
    next: nat, buffered: seq<Chunk>, missing: seq<Range>, k: nat, offset: nat, payload: Bytes, ghost ranges: seq<Range>, ghost pieces: set<nat>, ghost source: Bytes)
    returns (after: nat, rest: seq<Chunk>, parts: seq<Bytes>)
    requires k < |missing| && Canonical(missing) && offset <= missing[k].start && missing[k].end <= offset + |payload|
    requires Starting(buffered, pieces) && Buffers(next, buffered, source) && Accounted(ranges, next, buffered, missing[k..])
    requires offset + |payload| <= |source| && payload == source[offset..offset + |payload|]
    ensures Buffers(after, rest, source) && Accounted(ranges, after, rest, missing[k + 1..])
    ensures next <= after && Joined(parts) == source[next..after]
    ensures Total(rest) + Lengths(missing[k + 1..]) == Total(buffered) + Lengths(missing[k..]) - (after - next)
    ensures Filed(pieces, {missing[k].start}, after, rest)
  {
    var r := missing[k];
    var c := Chunk(r.start, payload[r.start - offset..r.end - offset]);
    SubSlice(source, offset, |payload|, r.start, r.end);
    SuffixStep(missing, k);
    after, rest, parts := FileOne(next, buffered, c, missing[k..], ranges, pieces, source);
  }

  /** Files every missing part of a frame, in order. */
  method File(
    next: nat, buffered: seq<Chunk>, missing: seq<Range>, offset: nat, payload: Bytes,
    ghost ranges: seq<Range>, ghost pieces: set<nat>, ghost newStarts: set<nat>, ghost source: Bytes)
    returns (after: nat, rest: seq<Chunk>, parts: seq<Bytes>, reorder: int)
    requires Starting(buffered, pieces) && RangesStarting(missing, |missing|, newStarts)
    requires Buffers(next, buffered, source) && Accounted(ranges, next, buffered, missing) && Canonical(missing)
    requires offset + |payload| <= |source| && payload == source[offset..offset + |payload|]
    requires forall i | 0 <= i < |missing| :: offset <= missing[i].start && missing[i].end <= offset + |payload|
    ensures Buffers(after, rest, source) && Accounted(ranges, after, rest, [])
    ensures next <= after && Joined(parts) == source[next..after]
    ensures reorder == Total(rest) == Total(buffered) + Lengths(missing) - (after - next)
    ensures Filed(pieces, newStarts, after, rest)
  {
    after, rest, parts := next, buffered, [];
    reorder := Total(buffered) + Lengths(missing);
    ghost var added: set<nat> := {};
    NothingBelow(next, buffered, pieces);
    var k := 0;
    assert missing[0..] == missing;
    while k < |missing|
      invariant 0 <= k <= |missing|
      invariant Buffers(after, rest, source) && Accounted(ranges, after, rest, missing[k..])
      invariant next <= after && Joined(parts) == source[next..after]
      invariant Filed(pieces, added, after, rest) && RangesStarting(missing, k, added)
      invariant reorder == Total(rest) + Lengths(missing[k..]) == Total(buffered) + Lengths(missing) - (after - next)
    {
      var further, left, more := FilePart(after, rest, missing, k, offset, payload, ranges, Beyond(pieces + added, after), source);
      JoinedOn(parts, more, source, next, after, further);
      FiledOn(pieces, added, after, missing[k].start, further, left);
      OneMoreStart(missing, k, added);
      added := added + {missing[k].start};
      parts := parts + more;
      reorder := reorder - (further - after);
      after, rest := further, left;
      k := k + 1;
    }
    SameStarts(missing, added, newStarts);
  }

  lemma {:induction false} BeyondFrontier(ranges: seq<Range>, next: nat, buffered: seq<Chunk>, filing: seq<Range>, c: Chunk)
    requires Accounted(ranges, next, buffered, filing) && filing != [] && filing[0].start < filing[0].end && c.offset == filing[0].start != next
    requires forall i | 0 <= i < |buffered| :: next < buffered[i].offset
    ensures forall i | 0 <= i < |AddChunk(buffered, c)| :: next < AddChunk(buffered, c)[i].offset
  {
    assert Within(filing[0], c.offset) && In(filing, c.offset);
  }

  lemma {:induction false} JoinedSingle(part: Bytes)
    ensures Joined([part]) == part
  {
    assert [part][..0] == [];
    assert Joined([part]) == Joined([]) + part;
  }

  lemma {:induction false} JoinedOn(parts: seq<Bytes>, more: seq<Bytes>, source: Bytes, next: nat, after: nat, further: nat)
    requires next <= after <= further <= |source|
    requires Joined(parts) == source[next..after] && Joined(more) == source[after..further]
    ensures Joined(parts + more) == source[next..further]
  {
    JoinedAppend(parts, more);
    SliceJoin(source, next, after, further);
  }

  lemma {:induction false} JoinedAppend(a: seq<Bytes>, b: seq<Bytes>)
    ensures Joined(a + b) == Joined(a) + Joined(b)
  {
    if b == [] {
      assert a + b == a;
    } else {
      var n := |b| - 1;
      JoinedAppend(a, b[..n]);
      assert (a + b)[..|a + b| - 1] == a + b[..n];
    }
  }

  // ----- the stream -----

  class ReliableRecvStream {
    const limits: Limits
    var nextOffset: nat
    var publishedMax: nat
    var reorderBytes: nat
    var ranges: seq<Range>
    var buffered: seq<Chunk>
    ghost var received: set<nat>
    ghost var pieces: set<nat>

    /** Every received byte is delivered or buffered, and delivery has gone as far as it can. */
    ghost predicate Valid(source: Bytes)
      reads this
    {
      && Canonical(ranges) && Buffers(nextOffset, buffered, source) && Accounted(ranges, nextOffset, buffered, [])
      && Covering(ranges, received) && Starting(buffered, pieces)
      && reorderBytes == Total(buffered)
      && publishedMax <= MAX_U64
    }

    constructor (l: Limits, initialMax: nat, ghost source: Bytes)
      requires initialMax <= MAX_U64
      ensures Valid(source) && nextOffset == 0 && publishedMax == initialMax && limits == l
      ensures received == {} && pieces == {}
    {
      limits := l;
      nextOffset, publishedMax, reorderBytes := 0, initialMax, 0;
      ranges, buffered := [], [];
      received, pieces := {}, {};
    }

    /** Commits credit; it never shrinks. */
    method CommitMaxData(max: nat, ghost source: Bytes)
      requires Valid(source) && max <= MAX_U64
      modifies this`publishedMax
      ensures Valid(source) && publishedMax == Larger(old(publishedMax), max)
    {
      publishedMax := Larger(publishedMax, max);
    }

    /**
     Takes one frame, in any order and any number of times. `source` is the stream as the
     sender wrote it. A frame is accepted exactly when `Accepts` holds. Exactly its bytes are
     then added to what was received, and delivery continues the stream without gap or
     repetition up to the first byte still missing.
     */
    method ReceiveData(offset: nat, payload: Bytes, ghost source: Bytes) returns (r: Result<seq<Bytes>, ReceiveError>)
      requires Valid(source) && offset + |payload| <= |source| && payload == source[offset..offset + |payload|]
      modifies this
      ensures Valid(source) && publishedMax == old(publishedMax)
      ensures r.Ok? <==> Accepts(limits, publishedMax, old(received), old(pieces), old(nextOffset), Chunk(offset, payload), |source|)
      ensures r.Ok? ==> Took(old(received), old(pieces), old(nextOffset), Chunk(offset, payload), |source|, received, pieces, nextOffset)
      ensures r.Ok? ==> old(nextOffset) <= nextOffset && Joined(r.value) == source[old(nextOffset)..nextOffset]
      ensures r.Err? ==> nextOffset == old(nextOffset) && ranges == old(ranges) && buffered == old(buffered)
      ensures r.Err? ==> received == old(received) && pieces == old(pieces)
      ensures r == Err(EmptyPayload) <==> payload == []
      ensures r == Err(PayloadTooLarge) <==> |payload| > limits.maxPayload && payload != []
      ensures r == Err(TooManyRanges) ==> |Ends(old(received) + Span(Chunk(offset, payload)))| > limits.maxRanges
      ensures r == Err(ReorderBufferFull) ==> |old(received) + Span(Chunk(offset, payload))| > old(nextOffset) + limits.maxReorderBytes
    {
      if payload == [] {
        return Err(EmptyPayload);
      }
      if |payload| > limits.maxPayload {
        return Err(PayloadTooLarge);
      }
      var end := offset + |payload|;
      if end > MAX_U64 {
        return Err(OffsetOverflow);
      }
      if end > publishedMax {
        return Err(FlowControlViolation);
      }
      ghost var c := Chunk(offset, payload);
      var refused, merged, after, rest, parts, reorder := Admit(limits, ranges, nextOffset, buffered, reorderBytes, offset, payload, received, pieces, source);
      if refused.Some? {
        return Err(refused.value);
      }
      Commit(merged, after, rest, reorder, received + Span(c), PiecesAfter(received, pieces, nextOffset, c, |source|), source);
      r := Ok(parts);
    }

    /** Replaces everything that depends on what was received. */
    method Commit(merged: seq<Range>, after: nat, rest: seq<Chunk>, reorder: nat, ghost offsets: set<nat>, ghost starts: set<nat>, ghost source: Bytes)
      requires Canonical(merged) && Buffers(after, rest, source) && Accounted(merged, after, rest, [])
      requires Covering(merged, offsets) && Starting(rest, starts)
      requires reorder == Total(rest) && publishedMax <= MAX_U64
      modifies this
      ensures Valid(source) && publishedMax == old(publishedMax)
      ensures ranges == merged && nextOffset == after && buffered == rest && received == offsets && pieces == starts
    {
      ranges, nextOffset, buffered, reorderBytes := merged, after, rest, reorder;
      received, pieces := offsets, starts;
    }
  }

  /** A single range, from start to end. */
  predicate Whole(s: seq<Range>, start: nat, end: nat) {
    |s| == 1 && s[0].start == start && s[0].end == end
  }

  /** The parts of a frame that are missing, and the ranges once they are there. */
  method Spread(ranges: seq<Range>, offset: nat, payload: Bytes, ghost next: nat, ghost buffered: seq<Chunk>, ghost received: set<nat>)
    returns (missing: seq<Range>, merged: seq<Range>)
    requires Covering(ranges, received) && Canonical(ranges) && Accounted(ranges, next, buffered, []) && payload != []
    ensures Canonical(missing) && Canonical(merged) && Accounted(merged, next, buffered, missing)
    ensures Covering(merged, received + Span(Chunk(offset, payload))) && Covering(missing, Span(Chunk(offset, payload)) - received)
    ensures forall i | 0 <= i < |missing| :: offset <= missing[i].start && missing[i].end <= offset + |payload|
    ensures RangesStarting(missing, |missing|, FreshStarts(received, Chunk(offset, payload)))
  {
    var end := offset + |payload|;
    ghost var c := Chunk(offset, payload);
    missing := Uncovered(ranges, offset, end);
    merged := Insert(ranges, offset, end);
    FrameAccounted(ranges, merged, next, buffered, missing, offset, end);
    FrameCovers(ranges, merged, missing, received, c);
    MissingStarts(received, c, missing);
  }

  lemma {:induction false} LaidOut(merged: seq<Range>, next: nat, buffered: seq<Chunk>, missing: seq<Range>, all: set<nat>)
    requires Covering(merged, all) && Accounted(merged, next, buffered, missing) && Ordered(buffered) && Canonical(missing)
    requires forall j | 0 <= j < |buffered| :: next < buffered[j].offset
    ensures Laid(next, buffered, missing, all)
  {
    forall i | 0 <= i < |missing| ensures next <= missing[i].start {
      assert Within(missing[i], missing[i].start) && In(missing, missing[i].start);
    }
    forall i, j | 0 <= i < |missing| && 0 <= j < |buffered| ensures End(buffered[j]) <= missing[i].start || missing[i].end <= buffered[j].offset {
      var o := Larger(missing[i].start, buffered[j].offset);
      assert Within(missing[i], o) ==> In(missing, o);
      assert Spans(buffered[j], o) ==> Held(buffered, o);
    }
  }

  /** Whether a frame leaves too many ranges: by a quick upper bound, or by an exact preview. */
  method TooManyIslands(limit: nat, ranges: seq<Range>, offset: nat, payload: Bytes, ghost received: set<nat>) returns (exceeded: bool)
    requires Canonical(ranges) && Covering(ranges, received) && payload != []
    ensures exceeded <==> |Ends(received + Span(Chunk(offset, payload)))| > limit
  {
    RangesAreIslands(ranges, received);
    EndsGrowByOne(received, offset, offset + |payload|);
    if |ranges| + 1 <= limit {
      return false;
    }
    var islands := RangeCountAfterInsert(ranges, offset, offset + |payload|, received);
    exceeded := islands > limit;
  }

  /** Whether a frame leaves too many buffered chunks, in the same way. */
  method TooManyPieces(
    limit: nat, next: nat, buffered: seq<Chunk>, missing: seq<Range>, ghost c: Chunk, ghost received: set<nat>, ghost pieces: set<nat>, ghost bound: nat)
    returns (exceeded: bool)
    requires Laid(next, buffered, missing, received + Span(c)) && Starting(buffered, pieces) && RangesStarting(missing, |missing|, FreshStarts(received, c))
    requires next <= bound && forall o | o in received + Span(c) :: o < bound
    ensures exceeded <==> |PiecesAfter(received, pieces, next, c, bound)| > limit
  {
    if |buffered| + |missing| <= limit {
      QuickBound(next, buffered, missing, received, pieces, c, bound);
      return false;
    }
    var chunks := ChunkCountAfterReceive(next, buffered, missing, received + Span(c), pieces, FreshStarts(received, c), bound);
    exceeded := chunks > limit;
  }

  lemma {:induction false} QuickBound(next: nat, buffered: seq<Chunk>, missing: seq<Range>, received: set<nat>, pieces: set<nat>, c: Chunk, bound: nat)
    requires Laid(next, buffered, missing, received + Span(c)) && Starting(buffered, pieces) && RangesStarting(missing, |missing|, FreshStarts(received, c))
    requires next <= bound
    ensures |PiecesAfter(received, pieces, next, c, bound)| <= |buffered| + |missing|
  {
    AllStarts(next, buffered, missing, received + Span(c), pieces, FreshStarts(received, c));
    SubsetSize(PiecesAfter(received, pieces, next, c, bound), Beyond(pieces + FreshStarts(received, c), next));
  }

  lemma {:induction false} AllBelow(ranges: seq<Range>, next: nat, buffered: seq<Chunk>, received: set<nat>, c: Chunk, source: Bytes)
    requires Covering(ranges, received) && Accounted(ranges, next, buffered, []) && Buffers(next, buffered, source) && End(c) <= |source|
    ensures forall o | o in received + Span(c) :: o < |source|
  {
    forall o | o in received ensures o < |source| {
      assert !In([], o);
      if o >= next {
        var i :| 0 <= i < |buffered| && Spans(buffered[i], o);
        assert Slice(buffered[i], source);
      }
    }
  }

  /**
   Holds a frame that is not covered against the limits, by quick upper bounds first and exact
   previews where these do not suffice. A frame new throughout at the frontier bypasses the
   limits of the buffer.
   */
  method Weigh(
    l: Limits, ranges: seq<Range>, next: nat, buffered: seq<Chunk>, reorderBytes: nat, offset: nat, payload: Bytes, missing: seq<Range>,
    ghost merged: seq<Range>, ghost received: set<nat>, ghost pieces: set<nat>, ghost source: Bytes)
    returns (refused: Option<ReceiveError>)
    requires Covering(ranges, received) && Starting(buffered, pieces) && reorderBytes == Total(buffered)
    requires Canonical(ranges) && Buffers(next, buffered, source) && Accounted(ranges, next, buffered, []) && payload != []
    requires offset + |payload| <= |source|
    requires Canonical(missing) && Accounted(merged, next, buffered, missing)
    requires Covering(merged, received + Span(Chunk(offset, payload))) && Covering(missing, Span(Chunk(offset, payload)) - received)
    requires RangesStarting(missing, |missing|, FreshStarts(received, Chunk(offset, payload)))
    ensures refused.None? <==> Fits(l, received, pieces, next, Chunk(offset, payload), |source|)
    ensures Blames(refused, l, received, next, Chunk(offset, payload))
  {
    ghost var c := Chunk(offset, payload);
    var islands := TooManyIslands(l.maxRanges, ranges, offset, payload, received);
    if islands {
      return Some(TooManyRanges);
    }
    WholeIsDirect(received, next, missing, c);
    if offset == next && Whole(missing, offset, offset + |payload|) {
      return None;
    }
    MissingBytes(ranges, next, buffered, missing, received, c, source);
    if reorderBytes + Lengths(missing) > l.maxReorderBytes {
      return Some(ReorderBufferFull);
    }
    LaidOut(merged, next, buffered, missing, received + Span(c));
    AllBelow(ranges, next, buffered, received, c, source);
    var chunks := TooManyPieces(l.maxReorderChunks, next, buffered, missing, c, received, pieces, |source|);
    refused := if chunks then Some(TooManyChunks) else None;
  }

  /** A refusal names a limit that the frame exceeds. */
  predicate Blames(refused: Option<ReceiveError>, l: Limits, received: set<nat>, next: nat, c: Chunk) {
    && (refused == Some(TooManyRanges) ==> |Ends(received + Span(c))| > l.maxRanges)
    && (refused == Some(ReorderBufferFull) ==> |received + Span(c)| > next + l.maxReorderBytes)
    && (refused.Some? ==> refused.value in {TooManyRanges, ReorderBufferFull, TooManyChunks})
  }

  /** A frame already covered is taken as it is; any other is weighed and filed. */
  method Admit(
    l: Limits, ranges: seq<Range>, next: nat, buffered: seq<Chunk>, reorderBytes: nat, offset: nat, payload: Bytes,
    ghost received: set<nat>, ghost pieces: set<nat>, ghost source: Bytes)
    returns (refused: Option<ReceiveError>, merged: seq<Range>, after: nat, rest: seq<Chunk>, parts: seq<Bytes>, reorder: nat)
    requires Covering(ranges, received) && Starting(buffered, pieces) && reorderBytes == Total(buffered)
    requires Canonical(ranges) && Buffers(next, buffered, source) && Accounted(ranges, next, buffered, []) && payload != []
    requires offset + |payload| <= |source| && payload == source[offset..offset + |payload|]
    ensures Canonical(merged) && Buffers(after, rest, source) && Accounted(merged, after, rest, [])
    ensures next <= after && Joined(parts) == source[next..after]
    ensures reorder == Total(rest)
    ensures refused.None? <==> Span(Chunk(offset, payload)) <= received || Fits(l, received, pieces, next, Chunk(offset, payload), |source|)
    ensures Blames(refused, l, received, next, Chunk(offset, payload))
    ensures refused.None? ==> Left(received, pieces, next, Chunk(offset, payload), |source|, merged, after, rest)
  {
    ghost var c := Chunk(offset, payload);
    var covered := OffsetRanges.Covers(ranges, offset, offset + |payload|);
    if covered {
      CoveredTakesNothing(ranges, next, buffered, received, pieces, c, source);
      return None, ranges, next, buffered, [], reorderBytes;
    }
    NotCovered(ranges, received, c);
    var missing;
    missing, merged := Spread(ranges, offset, payload, next, buffered, received);
    refused := Weigh(l, ranges, next, buffered, reorderBytes, offset, payload, missing, merged, received, pieces, source);
    if refused.Some? {
      return refused, ranges, next, buffered, [], reorderBytes;
    }
    after, rest, parts, reorder := File(next, buffered, missing, offset, payload, merged, pieces, FreshStarts(received, c), source);
    PlacedMeans(merged, next, received, pieces, c, after, rest, source);
  }

  /** The ranges, frontier and buffer a frame leaves, against what it does to the sets of offsets. */
  ghost predicate Left(received: set<nat>, pieces: set<nat>, next: nat, c: Chunk, bound: nat, merged: seq<Range>, after: nat, rest: seq<Chunk>) {
    && next <= bound
    && Covering(merged, received + Span(c))
    && Starting(rest, PiecesAfter(received, pieces, next, c, bound))
    && after == Frontier(received + Span(c), next, bound)
  }

  lemma {:induction false} PlacedMeans(
    merged: seq<Range>, next: nat, received: set<nat>, pieces: set<nat>, c: Chunk, after: nat, rest: seq<Chunk>, source: Bytes)
    requires Covering(merged, received + Span(c)) && next <= after
    requires Buffers(after, rest, source) && Accounted(merged, after, rest, []) && Filed(pieces, FreshStarts(received, c), after, rest)
    ensures Left(received, pieces, next, c, |source|, merged, after, rest)
  {
    FrontierOf(merged, received + Span(c), next, after, rest, source);
  }

  /** What a receiver has become by taking a frame, on sets of offsets. */
  predicate Took(received: set<nat>, pieces: set<nat>, next: nat, c: Chunk, bound: nat, received': set<nat>, pieces': set<nat>, next': nat) {
    && next <= bound
    && received' == received + Span(c)
    && pieces' == PiecesAfter(received, pieces, next, c, bound)
    && next' == Frontier(received', next, bound)
  }

  lemma {:induction false} FrameAccounted(ranges: seq<Range>, merged: seq<Range>, next: nat, buffered: seq<Chunk>, missing: seq<Range>, start: nat, end: nat)
    requires Accounted(ranges, next, buffered, []) && Canonical(missing)
    requires forall o :: In(merged, o) <==> In(ranges, o) || start <= o < end
    requires forall o :: In(missing, o) <==> start <= o < end && !In(ranges, o)
    ensures Accounted(merged, next, buffered, missing)
    ensures forall i | 0 <= i < |missing| :: start <= missing[i].start && missing[i].end <= end
  {
    forall i | 0 <= i < |missing| ensures start <= missing[i].start && missing[i].end <= end {
      assert Within(missing[i], missing[i].start) && Within(missing[i], missing[i].end - 1);
      assert In(missing, missing[i].start) && In(missing, missing[i].end - 1);
    }
    assert forall o: int :: !In([], o);
  }

  // ----- the receiver as sets of offsets -----

  lemma {:induction false} FrameCovers(ranges: seq<Range>, merged: seq<Range>, missing: seq<Range>, received: set<nat>, c: Chunk)
    requires Covering(ranges, received)
    requires forall o :: In(merged, o) <==> In(ranges, o) || c.offset <= o < End(c)
    requires forall o :: In(missing, o) <==> c.offset <= o < End(c) && !In(ranges, o)
    ensures Covering(merged, received + Span(c)) && Covering(missing, Span(c) - received)
  {
  }

  lemma {:induction false} NotCovered(ranges: seq<Range>, received: set<nat>, c: Chunk)
    requires Covering(ranges, received) && !(forall o | c.offset <= o < End(c) :: In(ranges, o))
    ensures !(Span(c) <= received)
  {
    var o: nat :| c.offset <= o < End(c) && !In(ranges, o);
    assert o in Span(c);
  }

  lemma {:induction false} FrontierOf(ranges: seq<Range>, received: set<nat>, from: nat, next: nat, buffered: seq<Chunk>, source: Bytes)
    requires Covering(ranges, received) && Accounted(ranges, next, buffered, []) && Buffers(next, buffered, source) && from <= next
    ensures Frontier(received, from, |source|) == next
  {
    assert !In([], next);
    FrontierIs(received, from, |source|, next);
  }

  lemma {:induction false} CoveredTakesNothing(ranges: seq<Range>, next: nat, buffered: seq<Chunk>, received: set<nat>, pieces: set<nat>, c: Chunk, source: Bytes)
    requires Covering(ranges, received) && Starting(buffered, pieces)
    requires Accounted(ranges, next, buffered, []) && Buffers(next, buffered, source)
    requires forall o | c.offset <= o < End(c) :: In(ranges, o)
    ensures Span(c) <= received
    ensures Left(received, pieces, next, c, |source|, ranges, next, buffered)
  {
    FrontierOf(ranges, received, next, next, buffered, source);
    assert received + Span(c) == received;
    assert FreshStarts(received, c) == {};
    forall o | o in pieces ensures o >= next {
      assert StartsAt(buffered, o);
    }
    assert Beyond(pieces + {}, next) == pieces;
  }

  lemma {:induction false} WholeIsDirect(received: set<nat>, next: nat, missing: seq<Range>, c: Chunk)
    requires Canonical(missing) && |c.payload| > 0 && Covering(missing, Span(c) - received)
    ensures c.offset == next && Whole(missing, c.offset, End(c)) <==> Direct(received, next, c)
  {
    if Whole(missing, c.offset, End(c)) {
      forall o | o in Span(c) ensures o !in received {
        assert Within(missing[0], o);
      }
    }
    if Span(c) !! received {
      forall o: nat ensures In(missing, o) <==> c.offset <= o < End(c) {
        assert o in Span(c) <==> c.offset <= o < End(c);
      }
      WholeSpan(missing, c.offset, End(c));
    }
  }

  lemma {:induction false} WholeSpan(s: seq<Range>, start: nat, end: nat)
    requires Canonical(s) && start < end
    requires forall o: nat :: In(s, o) <==> start <= o < end
    ensures Whole(s, start, end)
  {
    assert In(s, start);
    var i :| 0 <= i < |s| && Within(s[i], start);
    assert i + 1 < |s| ==> s[i].end < s[i + 1].start;
    assert i > 0 ==> s[0].end < s[i].start;
    forall j | 0 <= j < |s| ensures start <= s[j].start && s[j].end <= end {
      assert Within(s[j], s[j].start) && In(s, s[j].start);
      assert Within(s[j], s[j].end - 1) && In(s, s[j].end - 1);
    }
    assert s[i].end < end ==> In(s, s[i].end);
  }

  lemma {:induction false} BufferedBytes(ranges: seq<Range>, received: set<nat>, next: nat, buffered: seq<Chunk>, source: Bytes)
    requires Covering(ranges, received) && Accounted(ranges, next, buffered, []) && Buffers(next, buffered, source)
    ensures |received| == next + Total(buffered)
  {
    var held := Beyond(received, next);
    assert forall o: int :: !In([], o);
    forall o: nat ensures o in held <==> Held(buffered, o) {
    }
    HeldSize(buffered, held);
    IntervalAddsSize(held, 0, next);
    assert received == held + Interval(0, next);
  }

  lemma {:induction false} MissingBytes(ranges: seq<Range>, next: nat, buffered: seq<Chunk>, missing: seq<Range>, received: set<nat>, c: Chunk, source: Bytes)
    requires Covering(ranges, received) && Accounted(ranges, next, buffered, []) && Buffers(next, buffered, source)
    requires Canonical(missing) && Covering(missing, Span(c) - received)
    ensures |received + Span(c)| == next + Total(buffered) + Lengths(missing)
  {
    BufferedBytes(ranges, received, next, buffered, source);
    RangesSize(missing, Span(c) - received);
    UnionSize(received, Span(c));
  }
}
