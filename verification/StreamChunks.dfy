/** Byte chunks at stream offsets, as both ends of a reliable stream hold them (`src/mux/stream.rs`). */
module StreamChunks {
  type Bytes = seq<bv8>

  datatype Chunk = Chunk(offset: nat, payload: Bytes)

  function End(c: Chunk): nat {
    c.offset + |c.payload|
  }

  predicate Spans(c: Chunk, o: int) {
    c.offset <= o < End(c)
  }

  predicate Held(cs: seq<Chunk>, o: int) {
    exists i | 0 <= i < |cs| :: Spans(cs[i], o)
  }

  /** Non-empty chunks in order that do not overlap. */
  predicate Ordered(cs: seq<Chunk>) {
    && (forall i | 0 <= i < |cs| :: |cs[i].payload| > 0)
    && (forall i, j | 0 <= i < j < |cs| :: End(cs[i]) <= cs[j].offset)
  }

  /** A chunk holds what the stream has at its offset. */
  predicate Slice(c: Chunk, source: Bytes) {
    End(c) <= |source| && c.payload == source[c.offset..End(c)]
  }

  predicate Genuine(cs: seq<Chunk>, source: Bytes) {
    forall i | 0 <= i < |cs| :: Slice(cs[i], source)
  }

  /** All bytes of a chunk come from one write; `home` tells of every byte where its write began. */
  predicate OneWrite(c: Chunk, home: seq<nat>) {
    End(c) <= |home| && forall o | c.offset <= o < End(c) :: home[o] == home[c.offset]
  }

  predicate ChunksHomed(cs: seq<Chunk>, home: seq<nat>) {
    forall i | 0 <= i < |cs| :: OneWrite(cs[i], home)
  }

  /** The homes of a stream with one more write. */
  function HomesWith(home: seq<nat>, payload: Bytes): seq<nat> {
    home + seq(|payload|, _ => |home|)
  }

  lemma {:induction false} SubSlice(source: Bytes, offset: nat, n: nat, from: nat, to: nat)
    requires offset <= from <= to <= offset + n <= |source|
    ensures source[offset..offset + n][from - offset..to - offset] == source[from..to]
  {
    var part := source[offset..offset + n][from - offset..to - offset];
    assert forall i | 0 <= i < to - from :: part[i] == source[from + i];
  }

  lemma {:induction false} SliceJoin(source: Bytes, a: nat, b: nat, c: nat)
    requires a <= b <= c <= |source|
    ensures source[a..b] + source[b..c] == source[a..c]
  {
  }

  function Total(cs: seq<Chunk>): nat {
    if cs == [] then 0 else |cs[0].payload| + Total(cs[1..])
  }

  function Joined(parts: seq<Bytes>): Bytes {
    if parts == [] then [] else Joined(parts[..|parts| - 1]) + parts[|parts| - 1]
  }

  lemma {:induction false} HeldTail(cs: seq<Chunk>, o: int)
    requires cs != []
    ensures Held(cs, o) <==> Spans(cs[0], o) || Held(cs[1..], o)
  {
    if Held(cs[1..], o) {
      var i :| 0 <= i < |cs[1..]| && Spans(cs[1..][i], o);
      assert cs[i + 1] == cs[1..][i];
    }
    if Held(cs, o) && !Spans(cs[0], o) {
      var i :| 0 <= i < |cs| && Spans(cs[i], o);
      assert cs[1..][i - 1] == cs[i];
    }
  }

  lemma {:induction false} TotalAppend(a: seq<Chunk>, b: seq<Chunk>)
    ensures Total(a + b) == Total(a) + Total(b)
  {
    if a == [] {
      assert a + b == b;
    } else {
      TotalAppend(a[1..], b);
      assert (a + b)[1..] == a[1..] + b;
    }
  }

  /** How many chunks start before an offset. */
  function Position(cs: seq<Chunk>, offset: nat): (k: nat)
    ensures k <= |cs|
    ensures forall i | 0 <= i < k :: cs[i].offset < offset
    ensures k < |cs| ==> offset <= cs[k].offset
  {
    if cs == [] || offset <= cs[0].offset then 0 else 1 + Position(cs[1..], offset)
  }

  /** Inserts a chunk in offset order. */
  function AddChunk(cs: seq<Chunk>, c: Chunk): seq<Chunk> {
    var k := Position(cs, c.offset);
    cs[..k] + [c] + cs[k..]
  }

  lemma {:induction false} AddChunkTotal(cs: seq<Chunk>, c: Chunk)
    ensures Total(AddChunk(cs, c)) == Total(cs) + |c.payload|
  {
    var k := Position(cs, c.offset);
    TotalAppend(cs[..k] + [c], cs[k..]);
    TotalAppend(cs[..k], [c]);
    TotalAppend(cs[..k], cs[k..]);
    assert cs[..k] + cs[k..] == cs;
    assert Total([c]) == |c.payload| + Total([c][1..]);
  }

  lemma {:induction false} AddChunkHeld(cs: seq<Chunk>, c: Chunk, o: int)
    ensures Held(AddChunk(cs, c), o) <==> Held(cs, o) || Spans(c, o)
  {
    var k, r := Position(cs, c.offset), AddChunk(cs, c);
    if Held(cs, o) {
      var i :| 0 <= i < |cs| && Spans(cs[i], o);
      assert r[if i < k then i else i + 1] == cs[i];
    }
    assert r[k] == c;
    if Held(r, o) {
      var i :| 0 <= i < |r| && Spans(r[i], o);
      assert i < k ==> r[i] == cs[i];
      assert i > k ==> r[i] == cs[i - 1];
    }
  }

  predicate Apart(cs: seq<Chunk>, c: Chunk) {
    forall i | 0 <= i < |cs| :: End(cs[i]) <= c.offset || End(c) <= cs[i].offset
  }

  lemma {:induction false} AddChunkOrdered(cs: seq<Chunk>, c: Chunk)
    requires Ordered(cs) && Apart(cs, c) && |c.payload| > 0
    ensures Ordered(AddChunk(cs, c))
  {
    var k, r := Position(cs, c.offset), AddChunk(cs, c);
    forall i, j | 0 <= i < j < |r| ensures End(r[i]) <= r[j].offset {
      assert i < k ==> r[i] == cs[i];
      assert i > k ==> r[i] == cs[i - 1];
      assert j < k ==> r[j] == cs[j];
      assert j > k ==> r[j] == cs[j - 1];
      assert j > k ==> End(c) <= cs[j - 1].offset;
    }
  }

  lemma {:induction false} AddChunkGenuine(cs: seq<Chunk>, c: Chunk, source: Bytes)
    requires Genuine(cs, source) && Slice(c, source)
    ensures Genuine(AddChunk(cs, c), source)
  {
  }
}

