/** Byte counts collected per delivery interval. */
module IntervalBytes {

  function At(m: map<nat, nat>, k: nat): nat {
    if k in m then m[k] else 0
  }

  /** The bytes of the first `n` intervals. */
  function SumUpTo(m: map<nat, nat>, n: nat): nat {
    if n == 0 then 0 else SumUpTo(m, n - 1) + At(m, n - 1)
  }

  ghost predicate Within(m: map<nat, nat>, n: nat) {
    forall k :: k in m ==> k < n
  }

  lemma {:induction false} SumBeyond(m: map<nat, nat>, n: nat, p: nat)
    requires Within(m, n) && n <= p
    ensures SumUpTo(m, p) == SumUpTo(m, n)
  {
    if n < p {
      SumBeyond(m, n, p - 1);
    }
  }

  lemma {:induction false} SumAfterAdd(m: map<nat, nat>, k: nat, delta: nat, n: nat)
    ensures SumUpTo(m[k := At(m, k) + delta], n) == SumUpTo(m, n) + if k < n then delta else 0
  {
    if n > 0 {
      SumAfterAdd(m, k, delta, n - 1);
    }
  }
}

/** When bytes were delivered, and the widest pauses between deliveries. */
module Deliveries {
  import opened Outcomes

  /** A delivery, with the failover time known at that moment; negative when there is none. */
  datatype Delivery = Delivery(at: real, failover: real)

  /** A pause counts towards recovery when it touches the time after the failover. */
  predicate AfterFailover(from: Delivery, till: Delivery) {
    till.failover >= 0.0 && (till.at >= till.failover || from.at >= till.failover)
  }

  function Larger(a: real, b: real): real {
    if a >= b then a else b
  }

  /** The widest pause between neighbours, of all or only of those after a failover; zero when there is none. */
  function Widest(s: seq<Delivery>, recovery: bool): real {
    if |s| < 2 then 0.0
    else
      var from, till := s[|s| - 2], s[|s| - 1];
      if recovery && !AfterFailover(from, till) then Widest(s[..|s| - 1], recovery)
      else Larger(Widest(s[..|s| - 1], recovery), till.at - from.at)
  }

  /** First and last delivery, and the two widest pauses. */
  datatype Pace = Pace(first: Option<real>, last: Option<real>, maxGap: real, recoveryGap: real)

  predicate Measures(p: Pace, s: seq<Delivery>) {
    && p.first == (if s == [] then None else Some(s[0].at))
    && p.last == (if s == [] then None else Some(s[|s| - 1].at))
    && p.maxGap == Widest(s, false) && p.recoveryGap == Widest(s, true)
  }

  function NextPace(p: Pace, now: real, failover: real): Pace {
    var gap := if p.last.Some? then now - p.last.value else 0.0;
    Pace(
      if p.first.None? then Some(now) else p.first, Some(now),
      if p.last.Some? then Larger(p.maxGap, gap) else p.maxGap,
      if p.last.Some? && failover >= 0.0 && (now >= failover || p.last.value >= failover) then Larger(p.recoveryGap, gap) else p.recoveryGap)
  }

  lemma {:induction false} Paced(p: Pace, s: seq<Delivery>, now: real, failover: real)
    requires Measures(p, s)
    ensures Measures(NextPace(p, now, failover), s + [Delivery(now, failover)])
  {
    var t := s + [Delivery(now, failover)];
    assert t[..|t| - 1] == s;
  }

  predicate Pause(s: seq<Delivery>, recovery: bool, i: nat) {
    i + 1 < |s| && (recovery ==> AfterFailover(s[i], s[i + 1]))
  }

  /** It is an upper bound of the pauses that count, and one of them unless none is positive. */
  lemma {:induction false} WidestMeans(s: seq<Delivery>, recovery: bool)
    ensures Widest(s, recovery) >= 0.0
    ensures forall i: nat | Pause(s, recovery, i) :: s[i + 1].at - s[i].at <= Widest(s, recovery)
    ensures Widest(s, recovery) == 0.0 || exists i: nat :: Pause(s, recovery, i) && s[i + 1].at - s[i].at == Widest(s, recovery)
  {
    if |s| >= 2 {
      var before, n := s[..|s| - 1], |s| - 2;
      WidestMeans(before, recovery);
      forall i: nat | Pause(s, recovery, i) ensures s[i + 1].at - s[i].at <= Widest(s, recovery) {
        assert i < n ==> Pause(before, recovery, i);
      }
      if Widest(s, recovery) == Widest(before, recovery) && Widest(s, recovery) != 0.0 {
        var i: nat :| Pause(before, recovery, i) && before[i + 1].at - before[i].at == Widest(before, recovery);
        assert Pause(s, recovery, i);
      } else if Widest(s, recovery) != 0.0 {
        assert Pause(s, recovery, n);
      }
    }
  }
}

/**
 One upload stream of `lab/bulk_upload_probe.py`: what consuming a chunk of the
 acknowledgement stream does to its accounting.
 */
module UploadStream {
  import opened Outcomes
  import opened AckWire
  import opened IntervalBytes
  import opened Deliveries

  /** How a line is read; the protocol uses `AckWire.Parse`. */
  type Reader = string -> Result<Ack, AckError>

  datatype Stream = Stream(accepted: nat, confirmed: nat, observed: bool, final: Option<nat>, buffer: string)

  const FRESH := Stream(0, 0, false, None, "")

  /** `record_delivery_progress`, as far as the stream's own fields go. */
  function RecordDelivery(st: Stream, total: nat): Result<Stream, AckError> {
    if total < st.confirmed then Err(Decreased)
    else if total > st.accepted then Err(NotAcceptedLocally)
    else Ok(st.(confirmed := total, observed := st.observed || total > st.confirmed))
  }

  function ConsumeLine(read: Reader, st: Stream, line: string): (r: Result<Stream, AckError>)
    ensures r.Ok? ==> r.value.buffer == st.buffer
  {
    if st.final.Some? then Err(AfterTerminal)
    else match read(line)
      case Err(e) => Err(e)
      case Ok(a) =>
        match RecordDelivery(st, a.total)
        case Err(e) => Err(e)
        case Ok(s) => Ok(if a.kind == Terminal then s.(final := Some(a.total)) else s)
  }

  /** Every complete line of the buffer in turn, then the check on what is left. */
  function Absorb(read: Reader, st: Stream): Result<Stream, AckError>
    decreases |st.buffer|
  {
    var i := Newline(st.buffer);
    if i == |st.buffer| then
      if |st.buffer| > MAX_ACK_LINE_BYTES then Err(LineTooLong) else Ok(st)
    else match ConsumeLine(read, st.(buffer := st.buffer[i + 1..]), st.buffer[..i])
      case Err(e) => Err(e)
      case Ok(s) => Absorb(read, s)
  }

  /** `consume_acknowledgements` on one received chunk. */
  function Consume(read: Reader, st: Stream, data: string): Result<Stream, AckError> {
    Absorb(read, st.(buffer := st.buffer + data))
  }

  /** The same accounting line by line, with the text split beforehand. */
  function ConsumeLines(read: Reader, st: Stream, lines: seq<string>): Result<Stream, AckError>
    decreases |lines|
  {
    if lines == [] then Ok(st)
    else match ConsumeLine(read, st, lines[0])
      case Err(e) => Err(e)
      case Ok(s) => ConsumeLines(read, s, lines[1..])
  }

  function Finish(r: Result<Stream, AckError>, rest: string): Result<Stream, AckError> {
    match r
    case Err(e) => Err(e)
    case Ok(s) => if |rest| > MAX_ACK_LINE_BYTES then Err(LineTooLong) else Ok(s.(buffer := rest))
  }

  function WithBuffer(r: Result<Stream, AckError>, buffer: string): Result<Stream, AckError> {
    match r
    case Err(e) => Err(e)
    case Ok(s) => Ok(s.(buffer := buffer))
  }

  lemma {:induction false} ConsumeLinesAnyBuffer(read: Reader, st: Stream, lines: seq<string>, buffer: string)
    ensures ConsumeLines(read, st.(buffer := buffer), lines) == WithBuffer(ConsumeLines(read, st, lines), buffer)
    decreases |lines|
  {
    if lines != [] {
      var first := ConsumeLine(read, st, lines[0]);
      assert ConsumeLine(read, st.(buffer := buffer), lines[0]) == WithBuffer(first, buffer);
      if first.Ok? {
        ConsumeLinesAnyBuffer(read, first.value, lines[1..], buffer);
      }
    }
  }

  lemma {:induction false} ConsumeLinesAppend(read: Reader, st: Stream, a: seq<string>, b: seq<string>)
    ensures ConsumeLines(read, st, a + b)
      == match ConsumeLines(read, st, a) case Err(e) => Err(e) case Ok(s) => ConsumeLines(read, s, b)
    decreases |a|
  {
    if a == [] {
      assert a + b == b;
    } else {
      assert (a + b)[0] == a[0] && (a + b)[1..] == a[1..] + b;
      var first := ConsumeLine(read, st, a[0]);
      if first.Ok? {
        ConsumeLinesAppend(read, first.value, a[1..], b);
      }
    }
  }

  /** Absorbing a buffer is consuming its complete lines and keeping the remainder. */
  lemma {:induction false} AbsorbByLines(read: Reader, st: Stream)
    ensures Absorb(read, st) == Finish(ConsumeLines(read, st, Lines(st.buffer)), Rest(st.buffer))
    decreases |st.buffer|
  {
    var i := Newline(st.buffer);
    if i < |st.buffer| {
      var line, tail := st.buffer[..i], st.buffer[i + 1..];
      var first := ConsumeLine(read, st, line);
      assert ConsumeLine(read, st.(buffer := tail), line) == WithBuffer(first, tail);
      assert Lines(st.buffer)[1..] == Lines(tail);
      if first.Ok? {
        AbsorbByLines(read, first.value.(buffer := tail));
        ConsumeLinesAnyBuffer(read, first.value, Lines(tail), tail);
      }
    }
  }

  lemma {:induction false} ConsumeByLines(read: Reader, st: Stream, data: string)
    ensures var text := st.buffer + data;
      Consume(read, st, data) == Finish(ConsumeLines(read, st, Lines(text)), Rest(text))
  {
    var text := st.buffer + data;
    AbsorbByLines(read, st.(buffer := text));
    ConsumeLinesAnyBuffer(read, st, Lines(text), text);
  }

  /**
   The accounting does not depend on where the byte stream was cut: after a chunk that
   was accepted, consuming the next one equals consuming both at once.
   */
  lemma {:induction false} ChunkingIrrelevant(read: Reader, st: Stream, a: string, b: string)
    requires Consume(read, st, a).Ok?
    ensures Consume(read, Consume(read, st, a).value, b) == Consume(read, st, a + b)
  {
    var text := st.buffer + a;
    var rest := Rest(text);
    var before, after := Lines(text), Lines(rest + b);
    ConsumeByLines(read, st, a);
    var mid := ConsumeLines(read, st, before).value;
    ConsumeAllLines(read, st, a, b);
    assert Consume(read, st, a + b) == Finish(ConsumeLines(read, st, before + after), Rest(rest + b));
    ConsumeLinesAppend(read, st, before, after);
    ConsumeLinesAnyBuffer(read, mid, after, rest);
    ConsumeByLines(read, mid.(buffer := rest), b);
  }

  lemma {:induction false} TextJoined(x: string, a: string, b: string)
    ensures x + (a + b) == x + a + b
  {
  }

  lemma {:induction false} ConsumeText(read: Reader, st: Stream, data: string, text: string)
    requires text == st.buffer + data
    ensures Consume(read, st, data) == Finish(ConsumeLines(read, st, Lines(text)), Rest(text))
  {
    ConsumeByLines(read, st, data);
  }

  lemma {:induction false} ConsumeAllLines(read: Reader, st: Stream, a: string, b: string)
    ensures var rest := Rest(st.buffer + a);
      Consume(read, st, a + b) == Finish(ConsumeLines(read, st, Lines(st.buffer + a) + Lines(rest + b)), Rest(rest + b))
  {
    var text := st.buffer + a;
    TextJoined(st.buffer, a, b);
    ConsumeText(read, st, a + b, text + b);
    LinesSplit(text, b);
  }

  // ----- where consumption stops -----

  /** The stream when the loop over its lines ends, by an error or for want of a newline. */
  function Stopped(read: Reader, st: Stream): Stream
    decreases |st.buffer|
  {
    var i := Newline(st.buffer);
    if i == |st.buffer| then st
    else
      var cut := st.(buffer := st.buffer[i + 1..]);
      match ConsumeLine(read, cut, st.buffer[..i])
      case Err(e) => cut
      case Ok(s) => Stopped(read, s)
  }

  /** How many lines are consumed before one is refused. */
  function Survived(read: Reader, st: Stream, lines: seq<string>): (k: nat)
    ensures k <= |lines|
    decreases |lines|
  {
    if lines == [] || ConsumeLine(read, st, lines[0]).Err? then 0
    else 1 + Survived(read, ConsumeLine(read, st, lines[0]).value, lines[1..])
  }

  lemma {:induction false} SurvivedMeans(read: Reader, st: Stream, lines: seq<string>)
    ensures var k := Survived(read, st, lines); var r := ConsumeLines(read, st, lines[..k]);
      r.Ok? && (k < |lines| ==> ConsumeLine(read, r.value, lines[k]).Err?)
    decreases |lines|
  {
    if lines != [] && ConsumeLine(read, st, lines[0]).Ok? {
      var s := ConsumeLine(read, st, lines[0]).value;
      SurvivedMeans(read, s, lines[1..]);
      OneLineMore(read, st, lines, Survived(read, s, lines[1..]));
    }
  }

  lemma {:induction false} OneLineMore(read: Reader, st: Stream, lines: seq<string>, k: nat)
    requires k < |lines| && ConsumeLine(read, st, lines[0]).Ok?
    ensures ConsumeLines(read, st, lines[..k + 1]) == ConsumeLines(read, ConsumeLine(read, st, lines[0]).value, lines[1..][..k])
  {
    assert lines[..k + 1][1..] == lines[1..][..k];
  }

  lemma {:induction false} SurvivedAnyBuffer(read: Reader, st: Stream, lines: seq<string>, buffer: string)
    ensures Survived(read, st.(buffer := buffer), lines) == Survived(read, st, lines)
    decreases |lines|
  {
    if lines != [] {
      var first := ConsumeLine(read, st, lines[0]);
      assert ConsumeLine(read, st.(buffer := buffer), lines[0]) == WithBuffer(first, buffer);
      if first.Ok? {
        SurvivedAnyBuffer(read, first.value, lines[1..], buffer);
      }
    }
  }

  /** The first line of a buffer with a newline, and where the loop goes from there. */
  lemma {:induction false} StoppedFirst(read: Reader, st: Stream)
    requires Newline(st.buffer) < |st.buffer|
    ensures var i := Newline(st.buffer); var tail := st.buffer[i + 1..]; var first := ConsumeLine(read, st, st.buffer[..i]);
      && Lines(st.buffer) == [st.buffer[..i]] + Lines(tail)
      && (first.Ok? ==> Stopped(read, st) == Stopped(read, first.value.(buffer := tail)))
      && (first.Err? ==> Stopped(read, st) == st.(buffer := tail))
  {
    var i := Newline(st.buffer);
    var line, tail := st.buffer[..i], st.buffer[i + 1..];
    assert ConsumeLine(read, st.(buffer := tail), line) == WithBuffer(ConsumeLine(read, st, line), tail);
  }

  /** What `stop` counts is what the lines before the first refused one count. */
  predicate StopsAfter(read: Reader, st: Stream, lines: seq<string>, stop: Stream) {
    Ok(stop.(buffer := "")) == WithBuffer(ConsumeLines(read, st, lines[..Survived(read, st, lines)]), "")
  }

  lemma {:induction false} StopsAtOnce(read: Reader, st: Stream, lines: seq<string>, buffer: string)
    requires lines == [] || ConsumeLine(read, st, lines[0]).Err?
    ensures StopsAfter(read, st, lines, st.(buffer := buffer))
  {
    assert lines[..0] == [];
  }

  lemma {:induction false} StopsLater(read: Reader, st: Stream, lines: seq<string>, tail: string, stop: Stream)
    requires lines != [] && ConsumeLine(read, st, lines[0]).Ok?
    requires StopsAfter(read, ConsumeLine(read, st, lines[0]).value.(buffer := tail), lines[1..], stop)
    ensures StopsAfter(read, st, lines, stop)
  {
    var s := ConsumeLine(read, st, lines[0]).value;
    var k := Survived(read, s, lines[1..]);
    SurvivedAnyBuffer(read, s, lines[1..], tail);
    OneLineMore(read, st, lines, k);
    ConsumeLinesAnyBuffer(read, s, lines[1..][..k], tail);
  }

  /** It stops with exactly the lines counted that come before the first refused one. */
  lemma {:induction false} StoppedMeans(read: Reader, st: Stream)
    ensures StopsAfter(read, st, Lines(st.buffer), Stopped(read, st))
    decreases |st.buffer|
  {
    var i, lines := Newline(st.buffer), Lines(st.buffer);
    if i == |st.buffer| {
      StopsAtOnce(read, st, lines, st.buffer);
    } else {
      var tail, first := st.buffer[i + 1..], ConsumeLine(read, st, st.buffer[..i]);
      StoppedFirst(read, st);
      assert lines[0] == st.buffer[..i] && lines[1..] == Lines(tail);
      if first.Ok? {
        StoppedMeans(read, first.value.(buffer := tail));
        StopsLater(read, st, lines, tail, Stopped(read, st));
      } else {
        StopsAtOnce(read, st, lines, tail);
      }
    }
  }

  /** The totals all streams of one run share. */
  class Totals {
    const intervalSeconds: real
    var bytes: nat
    var intervalBytes: map<nat, nat>
    var streamsWithDelivery: nat
    var failoverAfter: real
    var pace: Pace
    ghost var horizon: nat
    ghost var deliveries: seq<Delivery>

    /** Every confirmed byte is in exactly one interval, and the times and gaps are those of all deliveries. */
    ghost predicate Balanced()
      reads this
    {
      && intervalSeconds > 0.0
      && Within(intervalBytes, horizon) && SumUpTo(intervalBytes, horizon) == bytes
      && Measures(pace, deliveries)
    }

    constructor (interval: real, failover: real)
      requires interval > 0.0
      ensures bytes == 0 && streamsWithDelivery == 0 && deliveries == [] && failoverAfter == failover && Balanced()
    {
      intervalSeconds := interval;
      bytes := 0;
      intervalBytes := map[];
      streamsWithDelivery := 0;
      failoverAfter := failover;
      pace := Pace(None, None, 0.0, 0.0);
      horizon := 0;
      deliveries := [];
    }

    method Add(now: real, delta: nat)
      requires Balanced() && now >= 0.0
      modifies this
      ensures Balanced()
      ensures bytes == old(bytes) + delta && streamsWithDelivery == old(streamsWithDelivery) && failoverAfter == old(failoverAfter)
      ensures deliveries == old(deliveries) + [Delivery(now, failoverAfter)]
      ensures intervalBytes == old(intervalBytes)[IntervalOf(now, intervalSeconds) := At(old(intervalBytes), IntervalOf(now, intervalSeconds)) + delta]
    {
      var interval := IntervalOf(now, intervalSeconds);
      ghost var wider := if interval < horizon then horizon else interval + 1;
      SumBeyond(intervalBytes, horizon, wider);
      SumAfterAdd(intervalBytes, interval, delta, wider);
      Paced(pace, deliveries, now, failoverAfter);
      pace := NextPace(pace, now, failoverAfter);
      bytes := bytes + delta;
      intervalBytes := intervalBytes[interval := At(intervalBytes, interval) + delta];
      horizon := wider;
      deliveries := deliveries + [Delivery(now, failoverAfter)];
    }
  }

  function IntervalOf(now: real, interval: real): nat
    requires now >= 0.0 && interval > 0.0
  {
    assert now / interval >= 0.0;
    (now / interval).Floor
  }

  lemma {:induction false} Scaled(k: real, q: real, unit: real, product: real)
    requires k <= q < k + 1.0 && unit > 0.0 && product == q * unit
    ensures k * unit <= product < k * unit + unit
  {
    var low, high := q - k, k + 1.0 - q;
    assert low * unit >= 0.0 && high * unit > 0.0;
    assert (k + low) * unit == k * unit + low * unit;
    assert (q + high) * unit == product + high * unit;
    assert q + high == k + 1.0;
    assert (k + 1.0) * unit == k * unit + unit;
  }

  /** The interval a moment falls into. */
  lemma {:induction false} IntervalMeans(now: real, interval: real)
    requires now >= 0.0 && interval > 0.0
    ensures var k := IntervalOf(now, interval) as real; k * interval <= now < k * interval + interval
  {
    var q := now / interval;
    var k := q.Floor as real;
    assert q * interval == now;
    Scaled(k, q, interval, now);
  }

  /** The mutable per-stream state, with the shared totals it reports to. */
  class StreamState {
    var accepted: nat
    var confirmed: nat
    var observed: bool
    var final: Option<nat>
    var buffer: string

    function View(): Stream
      reads this
    {
      Stream(accepted, confirmed, observed, final, buffer)
    }

    constructor ()
      ensures View() == FRESH
    {
      accepted, confirmed, observed, final, buffer := 0, 0, false, None, "";
    }

    /** One accepted total moves the same number of bytes into the run's totals. */
    method RecordDeliveryProgress(totals: Totals, now: real, total: nat) returns (error: Option<AckError>)
      requires totals.Balanced() && now >= 0.0
      modifies this`confirmed, this`observed, totals
      ensures match RecordDelivery(old(View()), total)
        case Ok(s) => error == None && View() == s
        case Err(e) => error == Some(e) && View() == old(View())
      ensures totals.Balanced() && totals.failoverAfter == old(totals.failoverAfter)
      ensures totals.bytes - old(totals.bytes) == confirmed - old(confirmed)
      ensures totals.deliveries == old(totals.deliveries) + if confirmed > old(confirmed) then [Delivery(now, totals.failoverAfter)] else []
      ensures totals.streamsWithDelivery - old(totals.streamsWithDelivery) == (if observed && !old(observed) then 1 else 0)
    {
      if total < confirmed {
        return Some(Decreased);
      }
      if total > accepted {
        return Some(NotAcceptedLocally);
      }
      error := None;
      var delta := total - confirmed;
      confirmed := total;
      if delta <= 0 {
        return;
      }
      if !observed {
        observed := true;
        totals.streamsWithDelivery := totals.streamsWithDelivery + 1;
      }
      totals.Add(now, delta);
    }

    /** One complete line, already cut from the buffer. */
    method ConsumeOneLine(read: Reader, line: string, totals: Totals, now: real) returns (error: Option<AckError>)
      requires totals.Balanced() && now >= 0.0
      modifies this`confirmed, this`observed, this`final, totals
      ensures match ConsumeLine(read, old(View()), line)
        case Ok(s) => error == None && View() == s
        case Err(e) => error == Some(e) && View() == old(View())
      ensures totals.Balanced()
      ensures totals.bytes - old(totals.bytes) == confirmed - old(confirmed)
      ensures totals.streamsWithDelivery - old(totals.streamsWithDelivery) == (if observed && !old(observed) then 1 else 0)
    {
      if final.Some? {
        return Some(AfterTerminal);
      }
      var parsed := read(line);
      if parsed.Err? {
        return Some(parsed.error);
      }
      error := RecordDeliveryProgress(totals, now, parsed.value.total);
      if error.None? && parsed.value.kind == Terminal {
        final := Some(parsed.value.total);
      }
    }

    /** Cuts the first complete line from the buffer and consumes it. */
    method ConsumeFirstLine(read: Reader, totals: Totals, now: real) returns (error: Option<AckError>)
      requires totals.Balanced() && now >= 0.0 && Newline(buffer) < |buffer|
      modifies this, totals
      ensures error.None? ==> Absorb(read, View()) == Absorb(read, old(View())) && Stopped(read, View()) == Stopped(read, old(View()))
      ensures error.None? ==> |buffer| < old(|buffer|)
      ensures old(observed) ==> observed
      ensures error.Some? ==> Absorb(read, old(View())) == Err(error.value) && View() == Stopped(read, old(View()))
      ensures totals.Balanced()
      ensures totals.bytes - old(totals.bytes) == confirmed - old(confirmed)
      ensures totals.streamsWithDelivery - old(totals.streamsWithDelivery) == (if observed && !old(observed) then 1 else 0)
    {
      var newline := Newline(buffer);
      var line := buffer[..newline];
      buffer := buffer[newline + 1..];
      error := ConsumeOneLine(read, line, totals, now);
    }

    /** The loop over complete lines; `clock` gives the time of each one. */
    method ConsumeAcknowledgements(read: Reader, data: string, totals: Totals, clock: nat -> real) returns (error: Option<AckError>)
      requires totals.Balanced() && forall i :: clock(i) >= 0.0
      modifies this, totals
      ensures match Consume(read, old(View()), data)
        case Ok(s) => error == None && View() == s
        case Err(e) => error == Some(e)
      ensures View() == Stopped(read, old(View()).(buffer := old(buffer) + data))
      ensures totals.Balanced()
      ensures totals.bytes - old(totals.bytes) == confirmed - old(confirmed)
      ensures totals.streamsWithDelivery - old(totals.streamsWithDelivery) == (if observed && !old(observed) then 1 else 0)
    {
      ghost var outcome, end := Consume(read, View(), data), Stopped(read, View().(buffer := buffer + data));
      ghost var bytes0, streams0, confirmed0, observed0 := totals.bytes, totals.streamsWithDelivery, confirmed, observed;
      buffer := buffer + data;
      var lines := 0;
      while Newline(buffer) < |buffer|
        invariant Absorb(read, View()) == outcome && Stopped(read, View()) == end
        invariant totals.Balanced()
        invariant totals.bytes - bytes0 == confirmed - confirmed0
        invariant observed0 ==> observed
        invariant totals.streamsWithDelivery - streams0 == (if observed && !observed0 then 1 else 0)
        decreases |buffer|
      {
        error := ConsumeFirstLine(read, totals, clock(lines));
        if error.Some? {
          return;
        }
        lines := lines + 1;
      }
      error := if |buffer| > MAX_ACK_LINE_BYTES then Some(LineTooLong) else None;
    }
  }
}
