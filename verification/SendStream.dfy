/** The sending end of a reliable stream (`ReliableSendStream` in `src/mux/stream.rs`). */
module SendStream {
  import opened Outcomes
  import opened OffsetRanges
  import opened OffsetSets
  import opened StreamChunks

  const MAX_U64: nat := 0xFFFF_FFFF_FFFF_FFFF

  datatype SendLimits = SendLimits(maxPayload: nat, maxRepairBytes: nat, maxCacheChunks: nat)

  datatype SendError =
    | EmptyPayload | PayloadTooLarge | OffsetOverflow | FlowControlBlocked | CacheFull | TooManyChunks
    | InvalidAckRange | AckBeyondAssigned

  // ----- taking an acknowledged range out of the cache -----

  /** What is left of a chunk below and above a range. */
  function Remains(c: Chunk, r: Range): seq<Chunk> {
    var from := Larger(c.offset, r.start);
    var to := Smaller(End(c), r.end);
    if from >= to then [c]
    else
      var left := if c.offset < from then [Chunk(c.offset, c.payload[..from - c.offset])] else [];
      var right := if to < End(c) then [Chunk(to, c.payload[to - c.offset..])] else [];
      left + right
  }

  /** How many bytes of a chunk a range covers. */
  function Overlap(c: Chunk, r: Range): nat {
    var from := Larger(c.offset, r.start);
    var to := Smaller(End(c), r.end);
    if from >= to then 0 else to - from
  }

  lemma {:induction false} RemainsTotal(c: Chunk, r: Range)
    ensures Total(Remains(c, r)) + Overlap(c, r) == |c.payload|
  {
    var parts := Remains(c, r);
    if |parts| == 2 {
      assert parts[1..] == [parts[1]] && parts[1..][1..] == [];
    } else if |parts| == 1 {
      assert parts[1..] == [];
    }
  }

  lemma {:induction false} RemainsGenuine(c: Chunk, r: Range, data: Bytes)
    requires Slice(c, data)
    ensures Genuine(Remains(c, r), data)
  {
    var from, to := Larger(c.offset, r.start), Smaller(End(c), r.end);
    if from < to {
      SubSlice(data, c.offset, |c.payload|, c.offset, from);
      SubSlice(data, c.offset, |c.payload|, to, End(c));
    }
  }

  lemma {:induction false} RemainsMean(c: Chunk, r: Range)
    requires |c.payload| > 0
    ensures Ordered(Remains(c, r))
    ensures forall o: int :: Held(Remains(c, r), o) <==> Spans(c, o) && !Within(r, o)
    ensures forall i | 0 <= i < |Remains(c, r)| :: c.offset <= Remains(c, r)[i].offset && End(Remains(c, r)[i]) <= End(c)
  {
    var from, to := Larger(c.offset, r.start), Smaller(End(c), r.end);
    var parts := Remains(c, r);
    forall o: int ensures Held(parts, o) <==> Spans(c, o) && !Within(r, o) {
      if Spans(c, o) && !Within(r, o) {
        if from >= to || o < from {
          assert Spans(parts[0], o);
        } else {
          assert Spans(parts[|parts| - 1], o);
        }
      }
    }
  }

  lemma {:induction false} HeldAppend(a: seq<Chunk>, b: seq<Chunk>, o: int)
    ensures Held(a + b, o) <==> Held(a, o) || Held(b, o)
  {
    if Held(a, o) {
      var i :| 0 <= i < |a| && Spans(a[i], o);
      assert (a + b)[i] == a[i];
    }
    if Held(b, o) {
      var i :| 0 <= i < |b| && Spans(b[i], o);
      assert (a + b)[|a| + i] == b[i];
    }
  }

  /** The cache kept so far is in order, below `bound`, and holds what it should of the chunks seen. */
  ghost predicate Kept(kept: seq<Chunk>, seen: seq<Chunk>, r: Range, data: Bytes) {
    && Ordered(kept) && Genuine(kept, data)
    && (forall i | 0 <= i < |kept| :: seen != [] && End(kept[i]) <= End(seen[|seen| - 1]))
    && (forall o: int :: Held(kept, o) <==> Held(seen, o) && !Within(r, o))
  }

  lemma {:induction false} KeepOne(kept: seq<Chunk>, seen: seq<Chunk>, c: Chunk, r: Range, data: Bytes)
    requires Kept(kept, seen, r, data) && Ordered(seen + [c]) && Slice(c, data)
    ensures Kept(kept + Remains(c, r), seen + [c], r, data)
  {
    var parts, all := Remains(c, r), kept + Remains(c, r);
    assert (seen + [c])[|seen|] == c;
    RemainsMean(c, r);
    RemainsGenuine(c, r, data);
    forall o: int ensures Held(all, o) <==> Held(seen + [c], o) && !Within(r, o) {
      HeldAppend(kept, parts, o);
      HeldAppend(seen, [c], o);
      assert Held([c], o) <==> Spans([c][0], o);
    }
    assert seen != [] ==> End((seen + [c])[|seen| - 1]) <= c.offset;
    forall i, j | 0 <= i < j < |all| ensures End(all[i]) <= all[j].offset {
      assert i < |kept| ==> all[i] == kept[i];
      assert j >= |kept| ==> all[j] == parts[j - |kept|];
    }
    forall i | 0 <= i < |all| ensures End(all[i]) <= End(c) {
      assert i < |kept| ==> all[i] == kept[i];
      assert i >= |kept| ==> all[i] == parts[i - |kept|];
    }
  }

  // ----- where the kept chunks start and what they were cut from -----

  /** A chunk starts at an offset that is kept: where one started before, or behind an acknowledged byte. */
  predicate StartsLeft(o: nat, started: bool, acked: seq<Range>) {
    !In(acked, o) && (started || In(acked, o - 1))
  }

  /** `kept` starts exactly where subtracting `acked` from `cache` leaves a chunk. */
  ghost predicate KeptStarts(kept: seq<Chunk>, cache: seq<Chunk>, acked: seq<Range>) {
    forall o: nat :: StartsAt(kept, o) <==> Held(cache, o) && StartsLeft(o, StartsAt(cache, o), acked)
  }

  /** Every part lies within one of the chunks. */
  ghost predicate Cut(parts: seq<Chunk>, cs: seq<Chunk>) {
    forall i | 0 <= i < |parts| :: Inside(parts[i], cs)
  }

  ghost predicate Inside(part: Chunk, cs: seq<Chunk>) {
    exists j | 0 <= j < |cs| :: cs[j].offset <= part.offset && End(part) <= End(cs[j])
  }

  lemma {:induction false} InsideCut(part: Chunk, cs: seq<Chunk>, whole: seq<Chunk>)
    requires Inside(part, cs) && Cut(cs, whole)
    ensures Inside(part, whole)
  {
    var j :| 0 <= j < |cs| && cs[j].offset <= part.offset && End(part) <= End(cs[j]);
    assert Inside(cs[j], whole);
  }

  lemma {:induction false} CutOn(parts: seq<Chunk>, cs: seq<Chunk>, whole: seq<Chunk>)
    requires Cut(parts, cs) && Cut(cs, whole)
    ensures Cut(parts, whole)
  {
    forall i | 0 <= i < |parts| ensures Inside(parts[i], whole) {
      InsideCut(parts[i], cs, whole);
    }
  }

  lemma {:induction false} CutOne(kept: seq<Chunk>, seen: seq<Chunk>, c: Chunk, r: Range)
    requires Cut(kept, seen)
    ensures Cut(kept + Remains(c, r), seen + [c])
  {
    var all, more := kept + Remains(c, r), seen + [c];
    forall i | 0 <= i < |all| ensures Inside(all[i], more) {
      if i < |kept| {
        assert Inside(kept[i], seen);
        var j :| 0 <= j < |seen| && seen[j].offset <= kept[i].offset && End(kept[i]) <= End(seen[j]);
        assert more[j] == seen[j];
      } else {
        assert all[i] == Remains(c, r)[i - |kept|];
        assert more[|seen|] == c;
      }
    }
  }

  lemma {:induction false} RemainsStarts(c: Chunk, r: Range, o: nat)
    requires |c.payload| > 0
    ensures StartsAt(Remains(c, r), o) <==> Spans(c, o) && !Within(r, o) && (o == c.offset || Within(r, o - 1))
  {
    var from, to := Larger(c.offset, r.start), Smaller(End(c), r.end);
    var parts := Remains(c, r);
    if Spans(c, o) && !Within(r, o) && (o == c.offset || Within(r, o - 1)) {
      if o == c.offset {
        assert parts[0].offset == o;
      } else {
        assert parts[|parts| - 1].offset == o;
      }
    }
  }

  lemma {:induction false} StartsAppend(a: seq<Chunk>, b: seq<Chunk>, o: nat)
    ensures StartsAt(a + b, o) <==> StartsAt(a, o) || StartsAt(b, o)
  {
    if i :| 0 <= i < |a| && a[i].offset == o {
      assert (a + b)[i] == a[i];
    }
    if i :| 0 <= i < |b| && b[i].offset == o {
      assert (a + b)[|a| + i] == b[i];
    }
  }

  lemma {:induction false} KeptStartsOne(kept: seq<Chunk>, seen: seq<Chunk>, c: Chunk, r: Range)
    requires KeptStarts(kept, seen, [r]) && Ordered(seen + [c])
    ensures KeptStarts(kept + Remains(c, r), seen + [c], [r])
  {
    assert (seen + [c])[|seen|] == c;
    forall o: nat ensures StartsAt(kept + Remains(c, r), o) <==> Held(seen + [c], o) && StartsLeft(o, StartsAt(seen + [c], o), [r]) {
      StartsAppend(kept, Remains(c, r), o);
      StartsAppend(seen, [c], o);
      HeldAppend(seen, [c], o);
      RemainsStarts(c, r, o);
      OnlyRange(r, o);
      OnlyRange(r, o - 1);
      assert Held([c], o) <==> Spans([c][0], o);
      assert StartsAt([c], o) <==> [c][0].offset == o;
      ApartFromLast(seen, c, o);
    }
  }

  lemma {:induction false} OnlyRange(r: Range, o: int)
    ensures In([r], o) <==> Within(r, o)
  {
    assert [r][0] == r;
  }

  lemma {:induction false} ApartFromLast(seen: seq<Chunk>, c: Chunk, o: nat)
    requires Ordered(seen + [c])
    ensures Held(seen, o) || StartsAt(seen, o) ==> !Spans(c, o)
  {
    assert (seen + [c])[|seen|] == c;
    forall i | 0 <= i < |seen| ensures End(seen[i]) <= c.offset {
      assert (seen + [c])[i] == seen[i];
    }
    if i :| 0 <= i < |seen| && seen[i].offset == o {
      assert (seen + [c])[i] == seen[i];
    }
  }

  /** Subtracting one more range from what is left of the cache. */
  lemma {:induction false} KeptStartsOn(cache: seq<Chunk>, kept: seq<Chunk>, acked: seq<Range>, r: Range, left: seq<Chunk>)
    requires KeptStarts(kept, cache, acked) && KeptStarts(left, kept, [r])
    requires forall o: int :: Held(kept, o) <==> Held(cache, o) && !In(acked, o)
    ensures KeptStarts(left, cache, acked + [r])
  {
    AppendMeans(acked, r);
    forall o: nat ensures StartsAt(left, o) <==> Held(cache, o) && StartsLeft(o, StartsAt(cache, o), acked + [r]) {
      OnlyRange(r, o);
      OnlyRange(r, o - 1);
    }
  }

  lemma {:induction false} KeepNext(kept: seq<Chunk>, cache: seq<Chunk>, k: nat, r: Range, data: Bytes)
    requires k < |cache| && Ordered(cache) && Genuine(cache, data)
    requires Kept(kept, cache[..k], r, data) && KeptStarts(kept, cache[..k], [r]) && Cut(kept, cache[..k])
    ensures Kept(kept + Remains(cache[k], r), cache[..k + 1], r, data)
    ensures KeptStarts(kept + Remains(cache[k], r), cache[..k + 1], [r]) && Cut(kept + Remains(cache[k], r), cache[..k + 1])
    ensures Total(kept + Remains(cache[k], r)) + Overlap(cache[k], r) - Total(kept) == Total(cache[..k + 1]) - Total(cache[..k])
  {
    var c := cache[k];
    assert cache[..k + 1] == cache[..k] + [c];
    KeepOne(kept, cache[..k], c, r, data);
    KeptStartsOne(kept, cache[..k], c, r);
    CutOne(kept, cache[..k], c, r);
    TotalOneMore(cache[..k], kept, c, r);
  }

  /** Walks the cache and keeps what the range does not cover, splitting chunks at its edges. */
  method Subtract(cache: seq<Chunk>, r: Range, ghost data: Bytes) returns (kept: seq<Chunk>, released: nat)
    requires Ordered(cache) && Genuine(cache, data)
    ensures Ordered(kept) && Genuine(kept, data)
    ensures forall o: int :: Held(kept, o) <==> Held(cache, o) && !Within(r, o)
    ensures KeptStarts(kept, cache, [r]) && Cut(kept, cache)
    ensures Total(kept) + released == Total(cache)
  {
    kept, released := [], 0;
    for k := 0 to |cache|
      invariant Kept(kept, cache[..k], r, data)
      invariant KeptStarts(kept, cache[..k], [r]) && Cut(kept, cache[..k])
      invariant Total(kept) + released == Total(cache[..k])
    {
      var c := cache[k];
      KeepNext(kept, cache, k, r, data);
      kept := kept + Remains(c, r);
      released := released + Overlap(c, r);
    }
    assert cache[..|cache|] == cache;
  }

  lemma {:induction false} TotalOneMore(seen: seq<Chunk>, kept: seq<Chunk>, c: Chunk, r: Range)
    ensures Total(kept + Remains(c, r)) + Overlap(c, r) - Total(kept) == Total(seen + [c]) - Total(seen)
  {
    RemainsTotal(c, r);
    TotalAppend(kept, Remains(c, r));
    TotalAppend(seen, [c]);
    assert Total([c]) == |c.payload| + Total([c][1..]);
  }

  /** Whether a payload fits the peer's credit, the offset space and the cache limits. */
  predicate Admits(payload: Bytes, next: nat, cachedBytes: nat, chunks: nat, max: nat, limits: SendLimits) {
    && 0 < |payload| <= limits.maxPayload
    && next + |payload| <= MAX_U64 && next + |payload| <= max
    && cachedBytes + |payload| <= limits.maxRepairBytes
    && chunks + 1 <= limits.maxCacheChunks
  }

  class ReliableSendStream {
    const limits: SendLimits
    var nextOffset: nat
    var maxOffset: nat
    var reinjectionBytes: nat
    var cache: seq<Chunk>
    ghost var cached: set<nat>
    ghost var pieces: set<nat>
    ghost var home: seq<nat>

    /** The cache holds genuine, disjoint pieces of what was sent, and its size is known exactly. */
    ghost predicate Valid(data: Bytes)
      reads this
    {
      && |data| == nextOffset && nextOffset <= MAX_U64
      && Ordered(cache) && Genuine(cache, data)
      && reinjectionBytes == Total(cache) && |cache| <= limits.maxCacheChunks
      && Holding(cache, cached) && Starting(cache, pieces)
      && |home| == |data| && ChunksHomed(cache, home)
    }

    constructor (l: SendLimits, initialMax: nat)
      ensures Valid([]) && nextOffset == 0 && maxOffset == initialMax && limits == l
      ensures cached == {} && pieces == {} && home == []
    {
      limits := l;
      nextOffset, maxOffset, reinjectionBytes := 0, initialMax, 0;
      cache := [];
      cached, pieces, home := {}, {}, [];
    }

    method UpdateMaxOffset(max: nat, ghost data: Bytes)
      requires Valid(data)
      modifies this`maxOffset
      ensures Valid(data) && maxOffset == Larger(old(maxOffset), max)
    {
      maxOffset := Larger(maxOffset, max);
    }

    /** Assigns the next offsets to a payload and keeps it for reinjection. */
    method SendData(payload: Bytes, ghost data: Bytes) returns (r: Result<Chunk, SendError>)
      requires Valid(data)
      modifies this`nextOffset, this`reinjectionBytes, this`cache, this`cached, this`pieces, this`home
      ensures r.Ok? <==> Admits(payload, old(nextOffset), old(reinjectionBytes), old(|cache|), maxOffset, limits)
      ensures r.Ok? ==> r.value == Chunk(old(nextOffset), payload) && Valid(data + payload) && Slice(r.value, data + payload)
      ensures r.Ok? ==> cache == old(cache) + [r.value] && cached == old(cached) + Span(r.value) && pieces == old(pieces) + {old(nextOffset)}
      ensures r.Ok? ==> home == HomesWith(old(home), payload)
      ensures r.Err? ==> Valid(data) && nextOffset == old(nextOffset) && cache == old(cache) && cached == old(cached) && pieces == old(pieces) && home == old(home)
    {
      if payload == [] {
        return Err(EmptyPayload);
      }
      if |payload| > limits.maxPayload {
        return Err(PayloadTooLarge);
      }
      var end := nextOffset + |payload|;
      if end > MAX_U64 {
        return Err(OffsetOverflow);
      }
      if end > maxOffset {
        return Err(FlowControlBlocked);
      }
      if reinjectionBytes + |payload| > limits.maxRepairBytes {
        return Err(CacheFull);
      }
      if |cache| + 1 > limits.maxCacheChunks {
        return Err(TooManyChunks);
      }
      Retain(Chunk(nextOffset, payload), data);
      r := Ok(Chunk(end - |payload|, payload));
    }

    method Retain(frame: Chunk, ghost data: Bytes)
      requires Valid(data) && frame.offset == nextOffset && |frame.payload| > 0
      requires End(frame) <= MAX_U64 && |cache| + 1 <= limits.maxCacheChunks
      modifies this`nextOffset, this`reinjectionBytes, this`cache, this`cached, this`pieces, this`home
      ensures home == HomesWith(old(home), frame.payload)
      ensures Valid(data + frame.payload) && Slice(frame, data + frame.payload) && nextOffset == End(frame)
      ensures cache == old(cache) + [frame] && cached == old(cached) + Span(frame) && pieces == old(pieces) + {frame.offset}
    {
      SentKeeps(cache, frame, data);
      SentSets(cache, frame, cached, pieces);
      AppendHomed(cache, home, frame.payload);
      home := HomesWith(home, frame.payload);
      cached, pieces := cached + Span(frame), pieces + {frame.offset};
      cache := cache + [frame];
      nextOffset := End(frame);
      reinjectionBytes := reinjectionBytes + |frame.payload|;
    }

    /**
     Releases exactly the acknowledged bytes; anything else stays available for reinjection. It is
     refused exactly for an empty range, one beyond what was assigned, or too many pieces left.
     */
    method ApplyAck(ranges: seq<Range>, ghost data: Bytes) returns (r: Result<nat, SendError>)
      requires Valid(data)
      modifies this`reinjectionBytes, this`cache, this`cached, this`pieces
      ensures Valid(data)
      ensures r.Ok? <==> Assigned(ranges, nextOffset) && |PiecesLeft(old(cached), old(pieces), ranges)| <= limits.maxCacheChunks
      ensures r.Ok? ==> cached == Unacked(old(cached), ranges) && pieces == PiecesLeft(old(cached), old(pieces), ranges)
      ensures r.Ok? ==> r.value + reinjectionBytes == old(reinjectionBytes)
      ensures r.Err? ==> cache == old(cache) && cached == old(cached) && pieces == old(pieces)
      ensures r == Err(TooManyChunks) ==> Assigned(ranges, nextOffset)
    {
      for k := 0 to |ranges|
        invariant Assigned(ranges[..k], nextOffset)
      {
        if ranges[k].start >= ranges[k].end {
          return Err(InvalidAckRange);
        }
        if ranges[k].end > nextOffset {
          return Err(AckBeyondAssigned);
        }
      }
      assert ranges[..|ranges|] == ranges;
      var kept, released := SubtractAll(cache, ranges, data);
      LeftMeans(cache, ranges, kept, cached, pieces);
      CutHomed(kept, cache, home);
      if |kept| > limits.maxCacheChunks {
        return Err(TooManyChunks);
      }
      Release(kept, released, Unacked(cached, ranges), PiecesLeft(cached, pieces, ranges), data);
      r := Ok(released);
    }

    method Release(kept: seq<Chunk>, released: nat, ghost offsets: set<nat>, ghost starts: set<nat>, ghost data: Bytes)
      requires |data| == nextOffset <= MAX_U64 && Ordered(kept) && Genuine(kept, data) && |kept| <= limits.maxCacheChunks
      requires Holding(kept, offsets) && Starting(kept, starts) && ChunksHomed(kept, home) && |home| == |data|
      requires reinjectionBytes == Total(kept) + released
      modifies this`reinjectionBytes, this`cache, this`cached, this`pieces
      ensures Valid(data) && cache == kept && cached == offsets && pieces == starts && reinjectionBytes == old(reinjectionBytes) - released
    {
      cache := kept;
      reinjectionBytes := reinjectionBytes - released;
      cached, pieces := offsets, starts;
    }

    /** The first retained piece inside a range, at most `limit` bytes long and from one cached chunk. */
    method FirstRetransmission(range: Range, limit: nat, ghost data: Bytes) returns (frame: Option<Chunk>)
      requires Valid(data)
      ensures frame.None? <==> limit == 0 || forall o | Within(range, o) :: !Held(cache, o)
      ensures frame.Some? ==> Slice(frame.value, data) && 0 < |frame.value.payload| <= limit && OneWrite(frame.value, home)
      ensures frame.Some? ==> Full(frame.value, cache, range, limit)
      ensures frame.Some? ==> forall o: int | Spans(frame.value, o) :: Held(cache, o) && Within(range, o)
      ensures frame.Some? ==> forall o: int | range.start <= o < frame.value.offset :: !Held(cache, o)
    {
      frame := FirstPiece(cache, range, limit, data);
      if frame.Some? {
        InsideHomed(frame.value, cache, home);
      }
    }
  }

  lemma {:induction false} InsideHomed(part: Chunk, cache: seq<Chunk>, home: seq<nat>)
    requires ChunksHomed(cache, home) && Inside(part, cache) && |part.payload| > 0
    ensures OneWrite(part, home)
  {
    var j :| 0 <= j < |cache| && cache[j].offset <= part.offset && End(part) <= End(cache[j]);
    assert OneWrite(cache[j], home);
  }

  lemma {:induction false} CutHomed(parts: seq<Chunk>, cache: seq<Chunk>, home: seq<nat>)
    requires ChunksHomed(cache, home) && Cut(parts, cache) && Ordered(parts)
    ensures ChunksHomed(parts, home)
  {
    forall i | 0 <= i < |parts| ensures OneWrite(parts[i], home) {
      InsideHomed(parts[i], cache, home);
    }
  }

  lemma {:induction false} AppendHomed(cache: seq<Chunk>, home: seq<nat>, payload: Bytes)
    requires ChunksHomed(cache, home)
    ensures ChunksHomed(cache + [Chunk(|home|, payload)], HomesWith(home, payload))
  {
    var more := HomesWith(home, payload);
    forall i | 0 <= i < |cache| ensures OneWrite(cache[i], more) {
      assert OneWrite(cache[i], home);
    }
  }

  /** A frame is cut short only by the byte limit, the range or the end of its chunk. */
  predicate Full(frame: Chunk, cache: seq<Chunk>, range: Range, limit: nat) {
    |frame.payload| == limit || End(frame) == range.end || exists j | 0 <= j < |cache| :: End(cache[j]) == End(frame)
  }

  method FirstPiece(cache: seq<Chunk>, range: Range, limit: nat, ghost data: Bytes) returns (frame: Option<Chunk>)
    requires Ordered(cache) && Genuine(cache, data)
    ensures frame.None? <==> limit == 0 || forall o | Within(range, o) :: !Held(cache, o)
    ensures frame.Some? ==> Slice(frame.value, data) && 0 < |frame.value.payload| <= limit && Inside(frame.value, cache)
    ensures frame.Some? ==> Full(frame.value, cache, range, limit)
    ensures frame.Some? ==> forall o: int | Spans(frame.value, o) :: Held(cache, o) && Within(range, o)
    ensures frame.Some? ==> forall o: int | range.start <= o < frame.value.offset :: !Held(cache, o)
  {
    if limit == 0 {
      return None;
    }
    var k := 0;
    while k < |cache| && End(cache[k]) <= range.start
      invariant 0 <= k <= |cache|
      invariant forall i | 0 <= i < k :: End(cache[i]) <= range.start
    {
      k := k + 1;
    }
    if k == |cache| || cache[k].offset >= range.end || range.start >= range.end {
      NothingBetween(cache, k, range.start, range.end);
      return None;
    }
    var c := cache[k];
    var from := Larger(range.start, c.offset);
    var to := Smaller(Smaller(range.end, from + limit), End(c));
    PieceMeans(cache, k, range, limit, from, to, data);
    frame := Some(Chunk(from, c.payload[from - c.offset..to - c.offset]));
  }

  lemma {:induction false} PieceMeans(cache: seq<Chunk>, k: nat, range: Range, limit: nat, from: nat, to: nat, data: Bytes)
    requires k < |cache| && Ordered(cache) && Genuine(cache, data) && limit > 0
    requires range.start < End(cache[k]) && cache[k].offset < range.end && range.start < range.end
    requires forall i | 0 <= i < k :: End(cache[i]) <= range.start
    requires from == Larger(range.start, cache[k].offset) && to == Smaller(Smaller(range.end, from + limit), End(cache[k]))
    ensures cache[k].offset <= from < to <= End(cache[k]) && to <= range.end
    ensures Slice(Chunk(from, cache[k].payload[from - cache[k].offset..to - cache[k].offset]), data)
    ensures Held(cache, from) && forall o: int | from <= o < to :: Held(cache, o) && Within(range, o)
    ensures forall o: int | range.start <= o < from :: !Held(cache, o)
  {
    var c := cache[k];
    SubSlice(data, c.offset, |c.payload|, from, to);
    assert Spans(c, from) && Within(range, from);
    NothingBetween(cache, k, range.start, from);
    forall o: int | from <= o < to ensures Held(cache, o) {
      assert Spans(c, o);
    }
  }

  /** Ranges that are not empty and acknowledge nothing beyond what was assigned. */
  predicate Assigned(ranges: seq<Range>, end: nat) {
    forall i | 0 <= i < |ranges| :: ranges[i].start < ranges[i].end <= end
  }

  ghost predicate Holding(cs: seq<Chunk>, offsets: set<nat>) {
    forall o: nat :: o in offsets <==> Held(cs, o)
  }

  function Unacked(cached: set<nat>, acked: seq<Range>): set<nat> {
    set o | o in cached && !In(acked, o)
  }

  /** Where the retained pieces start once the acknowledged ranges are cut out. */
  function PiecesLeft(cached: set<nat>, pieces: set<nat>, acked: seq<Range>): set<nat> {
    set o | o in cached && StartsLeft(o, o in pieces, acked)
  }

  method SubtractAll(cache: seq<Chunk>, ranges: seq<Range>, ghost data: Bytes) returns (kept: seq<Chunk>, released: nat)
    requires Ordered(cache) && Genuine(cache, data)
    ensures Ordered(kept) && Genuine(kept, data) && Total(kept) + released == Total(cache)
    ensures forall o: int :: Held(kept, o) <==> Held(cache, o) && !In(ranges, o)
    ensures KeptStarts(kept, cache, ranges) && Cut(kept, cache)
  {
    kept, released := cache, 0;
    for k := 0 to |ranges|
      invariant Ordered(kept) && Genuine(kept, data) && Total(kept) + released == Total(cache)
      invariant forall o: int :: Held(kept, o) <==> Held(cache, o) && !In(ranges[..k], o)
      invariant KeptStarts(kept, cache, ranges[..k]) && Cut(kept, cache)
    {
      var left, freed := Subtract(kept, ranges[k], data);
      SubtractOn(cache, kept, ranges, k, left);
      kept := left;
      released := released + freed;
    }
    assert ranges[..|ranges|] == ranges;
  }

  lemma {:induction false} SubtractOn(cache: seq<Chunk>, kept: seq<Chunk>, ranges: seq<Range>, k: nat, left: seq<Chunk>)
    requires k < |ranges|
    requires forall o: int :: Held(kept, o) <==> Held(cache, o) && !In(ranges[..k], o)
    requires forall o: int :: Held(left, o) <==> Held(kept, o) && !Within(ranges[k], o)
    requires KeptStarts(kept, cache, ranges[..k]) && KeptStarts(left, kept, [ranges[k]])
    requires Cut(kept, cache) && Cut(left, kept)
    ensures forall o: int :: Held(left, o) <==> Held(cache, o) && !In(ranges[..k + 1], o)
    ensures KeptStarts(left, cache, ranges[..k + 1]) && Cut(left, cache)
  {
    assert ranges[..k + 1] == ranges[..k] + [ranges[k]];
    AppendMeans(ranges[..k], ranges[k]);
    KeptStartsOn(cache, kept, ranges[..k], ranges[k], left);
    CutOn(left, kept, cache);
  }

  lemma {:induction false} LeftMeans(cache: seq<Chunk>, ranges: seq<Range>, kept: seq<Chunk>, cached: set<nat>, pieces: set<nat>)
    requires Holding(cache, cached) && Starting(cache, pieces) && Ordered(kept) && KeptStarts(kept, cache, ranges)
    requires forall o: int :: Held(kept, o) <==> Held(cache, o) && !In(ranges, o)
    ensures Holding(kept, Unacked(cached, ranges)) && Starting(kept, PiecesLeft(cached, pieces, ranges))
    ensures |kept| == |PiecesLeft(cached, pieces, ranges)|
  {
    StartsSize(kept, PiecesLeft(cached, pieces, ranges));
  }

  lemma {:induction false} SentSets(cache: seq<Chunk>, frame: Chunk, cached: set<nat>, pieces: set<nat>)
    requires Holding(cache, cached) && Starting(cache, pieces)
    ensures Holding(cache + [frame], cached + Span(frame)) && Starting(cache + [frame], pieces + {frame.offset})
  {
    forall o: nat
      ensures Held(cache + [frame], o) <==> Held(cache, o) || Spans(frame, o)
      ensures StartsAt(cache + [frame], o) <==> StartsAt(cache, o) || o == frame.offset
    {
      HeldAppend(cache, [frame], o);
      StartsAppend(cache, [frame], o);
      assert Held([frame], o) <==> Spans([frame][0], o);
      assert StartsAt([frame], o) <==> [frame][0].offset == o;
    }
  }

  lemma {:induction false} SentKeeps(cache: seq<Chunk>, frame: Chunk, data: Bytes)
    requires Ordered(cache) && Genuine(cache, data) && frame.offset == |data| && |frame.payload| > 0
    ensures Ordered(cache + [frame]) && Genuine(cache + [frame], data + frame.payload)
    ensures Total(cache + [frame]) == Total(cache) + |frame.payload|
    ensures forall o: int :: Held(cache + [frame], o) <==> Held(cache, o) || Spans(frame, o)
  {
    TotalAppend(cache, [frame]);
    assert Total([frame]) == |frame.payload| + Total([frame][1..]);
    forall o: int ensures Held(cache + [frame], o) <==> Held(cache, o) || Spans(frame, o) {
      HeldAppend(cache, [frame], o);
      assert Held([frame], o) <==> Spans([frame][0], o);
    }
    SentGenuine(cache, frame, data);
    forall i | 0 <= i < |cache| ensures End(cache[i]) <= frame.offset {
      assert Slice(cache[i], data);
    }
  }

  lemma {:induction false} SentGenuine(cache: seq<Chunk>, frame: Chunk, data: Bytes)
    requires Genuine(cache, data) && frame.offset == |data|
    ensures Genuine(cache + [frame], data + frame.payload)
  {
    var more := data + frame.payload;
    forall i | 0 <= i < |cache| ensures Slice(cache[i], more) {
      assert Slice(cache[i], data);
      assert more[cache[i].offset..End(cache[i])] == data[cache[i].offset..End(cache[i])];
    }
    assert Slice(frame, more);
  }

  lemma {:induction false} NothingBetween(cache: seq<Chunk>, k: nat, from: nat, to: nat)
    requires Ordered(cache) && k <= |cache| && (forall i | 0 <= i < k :: End(cache[i]) <= from)
    requires from >= to || k == |cache| || to <= cache[k].offset
    ensures forall o: int | from <= o < to :: !Held(cache, o)
  {
    forall o: int | from <= o < to ensures !Held(cache, o) {
      assert forall i | k < i < |cache| :: End(cache[k]) <= cache[i].offset;
    }
  }
}
