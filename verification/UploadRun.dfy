/**
 The probe and one sink handler as one system: two byte streams between them, any
 chunking, any interleaving, and sends that may fail part-way. A failed send on the
 return stream closes it: no later byte of the handler reaches the probe.
 */
module UploadRun {
  import opened Outcomes
  import opened Decimal
  import opened AckWire
  import opened UploadStream

  /** How acknowledgements are written and read; the protocol uses `Printed` and `Parse`. */
  datatype Codec = Codec(write: Ack -> string, read: Reader)

  const ASCII := Codec(Printed, Parse)

  const ACK_BYTES: nat := 64 * 1024 * 1024
  const RECEIVE_BYTES: nat := 4096
  const SINK_RECEIVE_BYTES: nat := 1024 * 1024

  datatype Failure = Protocol(error: AckError) | Partial | ClosedEarly | TimedOut | Broken

  datatype Phase = Loading | Waiting | Finished(complete: bool) | Failed(failure: Failure)

  datatype Handler = Receiving | Deciding | Ended(natural: bool) | Closed

  datatype System = System(
    // the probe's stream
    stream: Stream, phase: Phase,
    // towards the sink: bytes accepted by the socket but not yet received, and the end of stream
    inflight: nat, shut: bool,
    // the sink handler
    total: nat, lastAck: nat, progressAvailable: bool, handler: Handler,
    // towards the probe: bytes not yet received
    wire: string, returnOpen: bool,
    // the configured most bytes of one send
    chunk: nat)

  function Start(chunk: nat): System {
    System(FRESH, Loading, 0, false, 0, 0, true, Receiving, "", true, chunk)
  }

  datatype Step =
    | ProbeSends(size: nat)
    | ProbeStopsLoading(shutdownWorks: bool)
    | ProbeReceives(size: nat)
    | ProbeSeesEnd
    | ProbeTimesOut
    | ProbeBreaks
    | ProbeConcludes
    | SinkReceives(size: nat)
    | SinkDecides(elapsed: bool, delivered: nat)
    | SinkSeesEnd(quiescing: bool)
    | SinkBreaks
    | SinkConcludes(delivered: nat)

  /** `sendall` of one line: all of it, or some prefix and a broken return stream. */
  function Send(s: System, line: string, delivered: nat): System {
    if !s.returnOpen then s
    else if delivered >= |line| then s.(wire := s.wire + line)
    else s.(wire := s.wire + line[..delivered], returnOpen := false)
  }

  /** One step, when it is enabled; `limit` bounds the bytes one stream may carry. */
  function Apply(codec: Codec, limit: nat, s: System, step: Step): Option<System> {
    match step
    case ProbeSends(size) =>
      if s.phase == Loading && 0 < size <= s.chunk && s.stream.accepted + size < limit then
        Some(s.(stream := s.stream.(accepted := s.stream.accepted + size), inflight := s.inflight + size))
      else None
    case ProbeStopsLoading(works) =>
      if s.phase == Loading then Some(s.(phase := Waiting, shut := works)) else None
    case ProbeReceives(size) =>
      if (s.phase == Loading || (s.phase == Waiting && s.stream.final.None?))
         && 0 < size <= RECEIVE_BYTES && size <= |s.wire| then
        match Consume(codec.read, s.stream, s.wire[..size])
        case Ok(stream) => Some(s.(stream := stream, wire := s.wire[size..]))
        case Err(e) => Some(s.(phase := Failed(Protocol(e)), wire := s.wire[size..]))
      else None
    case ProbeSeesEnd =>
      if s.phase == Waiting && s.stream.final.None? && s.wire == "" && !s.returnOpen then
        Some(s.(phase := Failed(if s.stream.buffer != "" then Partial else ClosedEarly)))
      else None
    case ProbeTimesOut =>
      if s.phase == Waiting && s.stream.final.None? then Some(s.(phase := Failed(TimedOut))) else None
    case ProbeBreaks =>
      if s.phase == Loading || s.phase == Waiting then Some(s.(phase := Failed(Broken))) else None
    case ProbeConcludes =>
      if s.phase == Waiting && s.stream.final.Some? then
        Some(s.(phase := if s.stream.buffer != "" then Failed(Partial)
                         else Finished(s.stream.final == Some(s.stream.accepted))))
      else None
    case SinkReceives(size) =>
      if s.handler == Receiving && 0 < size <= s.inflight && size <= SINK_RECEIVE_BYTES then
        Some(s.(total := s.total + size, inflight := s.inflight - size, handler := Deciding))
      else None
    case SinkDecides(elapsed, delivered) =>
      if s.handler != Deciding then None
      else if s.lastAck == 0 || s.total - s.lastAck >= ACK_BYTES || elapsed then
        var t := if s.progressAvailable then Send(s, codec.write(Ack(Progress, s.total)) + "\n", delivered) else s;
        Some(t.(progressAvailable := s.progressAvailable && t.returnOpen, lastAck := s.total, handler := Receiving))
      else Some(s.(handler := Receiving))
    case SinkSeesEnd(quiescing) =>
      if s.handler == Receiving && s.inflight == 0 && s.shut then Some(s.(handler := Ended(!quiescing))) else None
    case SinkBreaks =>
      if s.handler == Receiving then Some(s.(handler := Ended(false))) else None
    case SinkConcludes(delivered) =>
      if !s.handler.Ended? then None
      else
        var t := if s.handler.natural then Send(s, codec.write(Ack(Terminal, s.total)) + "\n", delivered) else s;
        Some(t.(handler := Closed, returnOpen := false))
  }

  /** The state after a whole run, when every step of it was enabled. */
  function Run(codec: Codec, limit: nat, s: System, steps: seq<Step>): Option<System>
    decreases |steps|
  {
    if steps == [] then Some(s)
    else match Apply(codec, limit, s, steps[0])
      case None => None
      case Some(t) => Run(codec, limit, t, steps[1..])
  }

  // ----- what every run keeps -----

  /** The codec loses nothing, and no acknowledgement below the limit is too long to buffer. */
  ghost predicate Faithful(codec: Codec, limit: nat) {
    forall a: Ack :: codec.read(codec.write(a)) == Ok(a) && '\n' !in codec.write(a) &&
      (a.total < limit ==> |codec.write(a)| <= MAX_ACK_LINE_BYTES)
  }

  /** Pending lines are acknowledgements with rising totals in `low..=high`, a terminal one last. */
  ghost predicate Orderly(read: Reader, lines: seq<string>, low: nat, high: nat) {
    lines == [] ||
    (read(lines[0]).Ok? &&
     |lines[0]| <= MAX_ACK_LINE_BYTES &&
     var a := read(lines[0]).value;
     low <= a.total <= high &&
     (a.kind == Terminal ==> |lines| == 1 && a.total == high) &&
     Orderly(read, lines[1..], a.total, high))
  }

  ghost predicate HasTerminal(read: Reader, lines: seq<string>) {
    exists i :: 0 <= i < |lines| && read(lines[i]).Ok? && read(lines[i]).value.kind == Terminal
  }

  ghost predicate Delivered(s: System) {
    s.handler == Closed && s.inflight == 0 && s.shut
  }

  /** What is buffered or on the wire: whole acknowledgements, then at most part of one. */
  ghost predicate Pending(read: Reader, text: string, low: nat, high: nat) {
    && Orderly(read, Lines(text), low, high)
    && |Rest(text)| <= MAX_ACK_LINE_BYTES
    && (HasTerminal(read, Lines(text)) ==> Rest(text) == "")
  }

  ghost predicate Inv(codec: Codec, limit: nat, s: System) {
    var text := s.stream.buffer + s.wire;
    && s.stream.accepted == s.inflight + s.total
    && (s.stream.accepted < limit || s.stream.accepted == 0)
    && s.stream.confirmed <= s.total
    && s.lastAck <= s.total
    && Pending(codec.read, text, s.stream.confirmed, s.total)
    && (HasTerminal(codec.read, Lines(text)) ==> Delivered(s))
    && (s.returnOpen ==> Rest(text) == "")
    && (s.stream.final.Some? ==> text == "" && Delivered(s) && s.stream.final.value == s.total)
    && (s.handler == Closed ==> !s.returnOpen)
    && (s.handler == Ended(true) ==> s.inflight == 0 && s.shut)
    && (s.shut ==> s.phase != Loading)
    && !(s.phase.Failed? && s.phase.failure.Protocol?)
    && (s.phase.Finished? ==> s.phase.complete)
  }

  lemma {:induction false} OrderlyRaise(read: Reader, lines: seq<string>, low: nat, high: nat, higher: nat)
    requires Orderly(read, lines, low, high) && high <= higher && !HasTerminal(read, lines)
    ensures Orderly(read, lines, low, higher)
    decreases |lines|
  {
    if lines != [] {
      assert read(lines[0]).value.kind == Progress;
      forall i | 0 <= i < |lines[1..]| ensures !(read(lines[1..][i]).Ok? && read(lines[1..][i]).value.kind == Terminal) {
        assert lines[1..][i] == lines[i + 1];
      }
      OrderlyRaise(read, lines[1..], read(lines[0]).value.total, high, higher);
    }
  }

  lemma {:induction false} OrderlyAppend(read: Reader, lines: seq<string>, low: nat, high: nat, line: string)
    requires Orderly(read, lines, low, high) && low <= high && !HasTerminal(read, lines)
    requires read(line).Ok? && read(line).value.total == high && |line| <= MAX_ACK_LINE_BYTES
    ensures Orderly(read, lines + [line], low, high)
    decreases |lines|
  {
    if lines == [] {
      assert lines + [line] == [line];
      assert [line][1..] == [];
    } else {
      assert read(lines[0]).value.kind == Progress;
      assert (lines + [line])[0] == lines[0] && (lines + [line])[1..] == lines[1..] + [line];
      forall i | 0 <= i < |lines[1..]| ensures !(read(lines[1..][i]).Ok? && read(lines[1..][i]).value.kind == Terminal) {
        assert lines[1..][i] == lines[i + 1];
      }
      OrderlyAppend(read, lines[1..], read(lines[0]).value.total, high, line);
    }
  }

  lemma {:induction false} OrderlyShort(read: Reader, lines: seq<string>, low: nat, high: nat, i: nat)
    requires Orderly(read, lines, low, high) && i < |lines|
    ensures |lines[i]| <= MAX_ACK_LINE_BYTES
    decreases |lines|
  {
    if i > 0 {
      OrderlyShort(read, lines[1..], read(lines[0]).value.total, high, i - 1);
    }
  }

  /** Orderly lines are consumed without error, and what follows them is orderly still. */
  lemma {:induction false} OrderlyConsumed(read: Reader, st: Stream, now: seq<string>, later: seq<string>, high: nat)
    returns (t: Stream)
    requires Orderly(read, now + later, st.confirmed, high)
    requires st.final.None? && st.confirmed <= high <= st.accepted
    ensures ConsumeLines(read, st, now) == Ok(t)
    ensures t.accepted == st.accepted && t.confirmed <= high
    ensures Orderly(read, later, t.confirmed, high)
    ensures t.final.Some? ==> later == [] && t.final.value == high && HasTerminal(read, now + later)
    decreases |now|
  {
    if now == [] {
      t := st;
      assert now + later == later;
    } else {
      var line := now[0];
      assert (now + later)[0] == line && (now + later)[1..] == now[1..] + later;
      var a := read(line).value;
      var next := ConsumeLine(read, st, line).value;
      if a.kind == Terminal {
        assert now[1..] == [] && later == [];
        t := next;
      } else {
        t := OrderlyConsumed(read, next, now[1..], later, high);
        if t.final.Some? {
          var i :| 0 <= i < |now[1..] + later| && read((now[1..] + later)[i]).Ok? && read((now[1..] + later)[i]).value.kind == Terminal;
          assert (now + later)[i + 1] == (now[1..] + later)[i];
        }
      }
    }
  }

  lemma {:induction false} ReceivePreserves(codec: Codec, limit: nat, s: System, size: nat)
    requires Inv(codec, limit, s) && s.stream.final.None?
    requires s.phase == Loading || s.phase == Waiting
    requires size <= |s.wire|
    ensures Consume(codec.read, s.stream, s.wire[..size]).Ok?
    ensures Inv(codec, limit, s.(stream := Consume(codec.read, s.stream, s.wire[..size]).value, wire := s.wire[size..]))
  {
    var a, b := s.stream.buffer + s.wire[..size], s.wire[size..];
    var text := s.stream.buffer + s.wire;
    assert text == a + b;
    LinesSplit(a, b);
    ConsumeByLines(codec.read, s.stream, s.wire[..size]);
    var t := OrderlyConsumed(codec.read, s.stream, Lines(a), Lines(Rest(a) + b), s.total);
    forall i | 0 <= i < |Lines(a + b)| ensures |Lines(a + b)[i]| <= MAX_ACK_LINE_BYTES {
      OrderlyShort(codec.read, Lines(text), s.stream.confirmed, s.total, i);
    }
    RestOfPrefix(a, b, MAX_ACK_LINE_BYTES);
    var after := s.(stream := t.(buffer := Rest(a)), wire := b);
    var left := Lines(Rest(a) + b);
    if HasTerminal(codec.read, left) {
      var i :| 0 <= i < |left| && codec.read(left[i]).Ok? && codec.read(left[i]).value.kind == Terminal;
      assert Lines(text)[|Lines(a)| + i] == left[i];
      assert HasTerminal(codec.read, Lines(text));
    }
    if t.final.Some? {
      assert Newline(Rest(a) + b) == |Rest(a) + b|;
      assert Rest(a) + b == "";
    }
  }

  lemma {:induction false} LineAppended(read: Reader, text: string, low: nat, high: nat, line: string)
    requires Pending(read, text, low, high) && low <= high
    requires Rest(text) == "" && !HasTerminal(read, Lines(text))
    requires read(line).Ok? && read(line).value.total == high
    requires '\n' !in line && |line| <= MAX_ACK_LINE_BYTES
    ensures Pending(read, text + (line + "\n"), low, high)
    ensures Rest(text + (line + "\n")) == ""
    ensures HasTerminal(read, Lines(text + (line + "\n"))) ==> read(line).value.kind == Terminal
  {
    var sent := line + "\n";
    LinesSplit(text, sent);
    assert "" + sent == sent;
    LinesOfOne(line);
    OrderlyAppend(read, Lines(text), low, high, line);
    assert forall i :: 0 <= i < |Lines(text)| ==> (Lines(text) + [line])[i] == Lines(text)[i];
  }

  lemma {:induction false} PartAppended(text: string, part: string)
    requires Rest(text) == "" && '\n' !in part
    ensures Lines(text + part) == Lines(text) && Rest(text + part) == part
  {
    LinesSplit(text, part);
    assert "" + part == part;
    LinesOfOne(part);
  }

  lemma {:induction false} WholeSent(codec: Codec, limit: nat, s: System, kind: Kind)
    requires Faithful(codec, limit) && Inv(codec, limit, s) && limit > 0 && s.returnOpen
    requires s.handler == Deciding || s.handler == Ended(true)
    ensures var text := s.stream.buffer + (s.wire + (codec.write(Ack(kind, s.total)) + "\n"));
      && Pending(codec.read, text, s.stream.confirmed, s.total) && Rest(text) == ""
      && (HasTerminal(codec.read, Lines(text)) ==> kind == Terminal)
  {
    var line := codec.write(Ack(kind, s.total));
    var text := s.stream.buffer + s.wire;
    assert codec.read(line) == Ok(Ack(kind, s.total));
    assert s.stream.buffer + (s.wire + (line + "\n")) == text + (line + "\n");
    LineAppended(codec.read, text, s.stream.confirmed, s.total, line);
  }

  lemma {:induction false} PartSent(codec: Codec, limit: nat, s: System, kind: Kind, delivered: nat)
    requires Faithful(codec, limit) && Inv(codec, limit, s) && limit > 0 && s.returnOpen
    requires (s.handler == Deciding || s.handler == Ended(true)) && delivered <= |codec.write(Ack(kind, s.total))|
    ensures var text := s.stream.buffer + (s.wire + (codec.write(Ack(kind, s.total)) + "\n")[..delivered]);
      Pending(codec.read, text, s.stream.confirmed, s.total) && !HasTerminal(codec.read, Lines(text))
  {
    var line := codec.write(Ack(kind, s.total));
    var text := s.stream.buffer + s.wire;
    assert codec.read(line) == Ok(Ack(kind, s.total));
    var part := (line + "\n")[..delivered];
    assert part == line[..delivered];
    assert s.stream.buffer + (s.wire + part) == text + part;
    PartAppended(text, part);
  }

  /** Sending the acknowledgement of the handler's total, whole, in part or not at all. */
  lemma {:induction false} SendPreserves(codec: Codec, limit: nat, s: System, kind: Kind, delivered: nat)
    requires Faithful(codec, limit) && Inv(codec, limit, s) && limit > 0
    requires s.handler == Deciding || s.handler == Ended(true)
    ensures var t := Send(s, codec.write(Ack(kind, s.total)) + "\n", delivered);
      var text := t.stream.buffer + t.wire;
      && Pending(codec.read, text, s.stream.confirmed, s.total)
      && (HasTerminal(codec.read, Lines(text)) ==> kind == Terminal)
      && (t.returnOpen ==> Rest(text) == "")
      && t == s.(wire := t.wire, returnOpen := t.returnOpen)
  {
    if s.returnOpen && delivered > |codec.write(Ack(kind, s.total))| {
      WholeSent(codec, limit, s, kind);
    } else if s.returnOpen {
      PartSent(codec, limit, s, kind, delivered);
    }
  }

  /** The handler goes back to receiving after a progress line, sent or not. */
  lemma {:induction false} ResumePreserves(codec: Codec, limit: nat, s: System, t: System)
    requires Inv(codec, limit, s) && s.handler == Deciding
    requires t == s.(wire := t.wire, returnOpen := t.returnOpen, progressAvailable := t.progressAvailable, lastAck := t.lastAck, handler := Receiving)
    requires t.lastAck <= s.total
    requires Pending(codec.read, t.stream.buffer + t.wire, s.stream.confirmed, s.total)
    requires !HasTerminal(codec.read, Lines(t.stream.buffer + t.wire)) && (t.returnOpen ==> Rest(t.stream.buffer + t.wire) == "")
    ensures Inv(codec, limit, t)
  {
  }

  lemma {:induction false} QuietPreserves(codec: Codec, limit: nat, s: System, t: System)
    requires Inv(codec, limit, s) && s.handler == Deciding
    requires t == s.(lastAck := t.lastAck, handler := Receiving) && t.lastAck <= s.total
    ensures Inv(codec, limit, t)
  {
  }

  lemma {:induction false} ProgressPreserves(codec: Codec, limit: nat, s: System, delivered: nat, u: System, t: System)
    requires Faithful(codec, limit) && limit > 0 && Inv(codec, limit, s) && s.handler == Deciding
    requires u == Send(s, codec.write(Ack(Progress, s.total)) + "\n", delivered)
    requires t == u.(progressAvailable := u.returnOpen, lastAck := s.total, handler := Receiving)
    ensures Inv(codec, limit, t)
  {
    SendPreserves(codec, limit, s, Progress, delivered);
    ResumePreserves(codec, limit, s, t);
  }

  lemma {:induction false} DecidePreserves(codec: Codec, limit: nat, s: System, elapsed: bool, delivered: nat)
    requires Faithful(codec, limit) && limit > 0 && Inv(codec, limit, s)
    requires s.handler == Deciding
    ensures Inv(codec, limit, Apply(codec, limit, s, SinkDecides(elapsed, delivered)).value)
  {
    var t := Apply(codec, limit, s, SinkDecides(elapsed, delivered)).value;
    if s.progressAvailable && (s.lastAck == 0 || s.total - s.lastAck >= ACK_BYTES || elapsed) {
      ProgressPreserves(codec, limit, s, delivered, Send(s, codec.write(Ack(Progress, s.total)) + "\n", delivered), t);
    } else {
      QuietPreserves(codec, limit, s, t);
    }
  }

  lemma {:induction false} ConcludePreserves(codec: Codec, limit: nat, s: System, delivered: nat)
    requires Faithful(codec, limit) && limit > 0 && Inv(codec, limit, s)
    requires s.handler.Ended?
    ensures Inv(codec, limit, Apply(codec, limit, s, SinkConcludes(delivered)).value)
  {
    if s.handler.natural {
      SendPreserves(codec, limit, s, Terminal, delivered);
    }
  }

  /** Steps that touch neither what is buffered nor what is on the wire. */
  lemma {:induction false} OtherStepPreserves(codec: Codec, limit: nat, s: System, step: Step, t: System)
    requires Inv(codec, limit, s) && limit > 0 && Apply(codec, limit, s, step) == Some(t)
    requires !step.ProbeReceives? && !step.SinkReceives? && !step.SinkDecides? && !step.SinkConcludes?
    ensures Inv(codec, limit, t)
  {
    assert t.stream.buffer + t.wire == s.stream.buffer + s.wire;
  }

  /** Every step keeps the invariant: no acknowledgement error can be provoked. */
  lemma {:induction false} StepPreserves(codec: Codec, limit: nat, s: System, step: Step)
    requires Faithful(codec, limit) && limit > 0 && Inv(codec, limit, s)
    requires Apply(codec, limit, s, step).Some?
    ensures Inv(codec, limit, Apply(codec, limit, s, step).value)
  {
    match step
    case ProbeReceives(size) =>
      ReceivePreserves(codec, limit, s, size);
    case SinkReceives(size) =>
      OrderlyRaise(codec.read, Lines(s.stream.buffer + s.wire), s.stream.confirmed, s.total, s.total + size);
    case SinkDecides(elapsed, delivered) =>
      DecidePreserves(codec, limit, s, elapsed, delivered);
    case SinkConcludes(delivered) =>
      ConcludePreserves(codec, limit, s, delivered);
    case _ =>
      OtherStepPreserves(codec, limit, s, step, Apply(codec, limit, s, step).value);
  }

  lemma {:induction false} RunPreserves(codec: Codec, limit: nat, s: System, steps: seq<Step>)
    requires Faithful(codec, limit) && limit > 0 && Inv(codec, limit, s)
    requires Run(codec, limit, s, steps).Some?
    ensures Inv(codec, limit, Run(codec, limit, s, steps).value)
    decreases |steps|
  {
    if steps != [] {
      StepPreserves(codec, limit, s, steps[0]);
      RunPreserves(codec, limit, Apply(codec, limit, s, steps[0]).value, steps[1..]);
    }
  }

  // ----- the protocol itself -----

  /** The largest limit under which no acknowledgement line outgrows the probe's buffer. */
  function LongestSafe(): nat {
    Pow10(124)
  }

  lemma {:induction false} AsciiFaithful(limit: nat)
    requires limit <= LongestSafe()
    ensures Faithful(ASCII, limit)
  {
    forall a: Ack
      ensures Parse(Printed(a)) == Ok(a) && '\n' !in Printed(a)
      ensures a.total < limit ==> |Printed(a)| <= MAX_ACK_LINE_BYTES
    {
      PrintedParses(a);
      DigitsLength(a.total, 124);
    }
  }

  /**
   In every run, whatever the chunking, timing and failures: the probe never sees a
   decreasing, unaccounted, late, malformed or overlong acknowledgement; a terminal
   total is every byte the probe's socket accepted, all of it before the shutdown; and
   a stream that ends normally is complete.
   */
  lemma {:induction false} EveryRunAccountsExactly(limit: nat, chunk: nat, steps: seq<Step>)
    requires 0 < limit <= LongestSafe()
    requires Run(ASCII, limit, Start(chunk), steps).Some?
    ensures var s := Run(ASCII, limit, Start(chunk), steps).value;
      && !(s.phase.Failed? && s.phase.failure.Protocol?)
      && s.stream.confirmed <= s.total <= s.stream.accepted
      && (s.stream.final.Some? ==> s.shut && s.stream.final.value == s.stream.accepted == s.total)
      && (s.phase.Finished? ==> s.phase.complete)
  {
    AsciiFaithful(limit);
    assert Start(chunk).stream.buffer + Start(chunk).wire == "";
    assert Lines("") == [] && Rest("") == "";
    RunPreserves(ASCII, limit, Start(chunk), steps);
  }

  /** A chunk without a newline, on an empty buffer, fails exactly when it is too long. */
  lemma {:induction false} ConsumeUnfinished(read: Reader, st: Stream, data: string)
    requires st.buffer == "" && '\n' !in data
    ensures Consume(read, st, data)
      == if |data| > MAX_ACK_LINE_BYTES then Err(LineTooLong) else Ok(st.(buffer := data))
  {
    assert "" + data == data;
    assert Newline(data) == |data|;
  }

  /** Everything sent so far was received, acknowledged and read. */
  function Caught(chunk: nat, n: nat): System {
    Start(chunk).(stream := Stream(n, n, n > 0, None, ""), total := n, lastAck := n)
  }

  /** One more byte is sent, received and acknowledged. */
  function Acknowledged(chunk: nat, n: nat): System {
    Caught(chunk, n).(stream := Caught(chunk, n).stream.(accepted := n + 1), total := n + 1, lastAck := n + 1, wire := Printed(Ack(Progress, n + 1)) + "\n")
  }

  function ByteSteps(n: nat): seq<Step> {
    [ProbeSends(1), SinkReceives(1), SinkDecides(true, |Printed(Ack(Progress, n + 1))| + 1)]
  }

  lemma {:induction false} ByteAcknowledged(limit: nat, chunk: nat, n: nat)
    requires chunk > 0 && n + 1 < limit
    ensures Run(ASCII, limit, Caught(chunk, n), ByteSteps(n)) == Some(Acknowledged(chunk, n))
  {
    var steps := ByteSteps(n);
    var line := Printed(Ack(Progress, n + 1)) + "\n";
    var sent := Caught(chunk, n).(stream := Caught(chunk, n).stream.(accepted := n + 1), inflight := 1);
    var received := sent.(total := n + 1, inflight := 0, handler := Deciding);
    assert Apply(ASCII, limit, Caught(chunk, n), steps[0]) == Some(sent);
    assert Apply(ASCII, limit, sent, steps[1]) == Some(received);
    assert "" + line == line;
    assert Apply(ASCII, limit, received, steps[2]) == Some(Acknowledged(chunk, n));
    assert steps[1..][1..] == [steps[2]] && [steps[2]][1..] == [];
    assert Run(ASCII, limit, received, [steps[2]]) == Some(Acknowledged(chunk, n));
    assert Run(ASCII, limit, sent, steps[1..]) == Some(Acknowledged(chunk, n));
  }

  lemma {:induction false} LineRead(st: Stream, total: nat)
    requires st.buffer == "" && st.final.None? && st.confirmed < total <= st.accepted
    ensures Consume(Parse, st, Printed(Ack(Progress, total)) + "\n") == Ok(st.(confirmed := total, observed := true))
  {
    var line := Printed(Ack(Progress, total));
    PrintedParses(Ack(Progress, total));
    ConsumeByLines(Parse, st, line + "\n");
    assert "" + (line + "\n") == line + "\n";
    LinesOfOne(line);
    assert [line][1..] == [];
  }

  lemma {:induction false} RunAppend(codec: Codec, limit: nat, s: System, a: seq<Step>, t: System, b: seq<Step>)
    requires Run(codec, limit, s, a) == Some(t)
    ensures Run(codec, limit, s, a + b) == Run(codec, limit, t, b)
    decreases |a|
  {
    if a == [] {
      assert a + b == b;
    } else {
      assert (a + b)[1..] == a[1..] + b;
      RunAppend(codec, limit, Apply(codec, limit, s, a[0]).value, a[1..], t, b);
    }
  }

  lemma {:induction false} RunOne(codec: Codec, limit: nat, s: System, step: Step)
    requires Apply(codec, limit, s, step).Some?
    ensures Run(codec, limit, s, [step]) == Apply(codec, limit, s, step)
  {
    assert [step][1..] == [];
  }

  lemma {:induction false} ByteRead(limit: nat, chunk: nat, n: nat)
    requires |Printed(Ack(Progress, n + 1))| + 1 <= RECEIVE_BYTES
    ensures Apply(ASCII, limit, Acknowledged(chunk, n), ProbeReceives(|Printed(Ack(Progress, n + 1))| + 1)) == Some(Caught(chunk, n + 1))
  {
    var s := Acknowledged(chunk, n);
    assert s.wire[..|s.wire|] == s.wire && s.wire[|s.wire|..] == "";
    LineRead(s.stream, n + 1);
  }

  lemma {:induction false} PrintedFits(n: nat, bound: nat)
    requires n < bound && bound == LongestSafe()
    ensures |Printed(Ack(Progress, n))| <= MAX_ACK_LINE_BYTES
  {
    AsciiFaithful(bound);
    assert |ASCII.write(Ack(Progress, n))| <= MAX_ACK_LINE_BYTES;
  }

  /** Byte by byte, any total whose acknowledgement still fits is reached. */
  lemma {:induction false} CatchUp(limit: nat, chunk: nat, n: nat) returns (steps: seq<Step>)
    requires chunk > 0 && n < limit && n < LongestSafe()
    ensures Run(ASCII, limit, Start(chunk), steps) == Some(Caught(chunk, n))
    decreases n
  {
    if n == 0 {
      steps := [];
    } else {
      var before := CatchUp(limit, chunk, n - 1);
      var size := |Printed(Ack(Progress, n))| + 1;
      PrintedFits(n, LongestSafe());
      ByteAcknowledged(limit, chunk, n - 1);
      ByteRead(limit, chunk, n - 1);
      RunOne(ASCII, limit, Acknowledged(chunk, n - 1), ProbeReceives(size));
      RunAppend(ASCII, limit, Start(chunk), before, Caught(chunk, n - 1), ByteSteps(n - 1));
      RunAppend(ASCII, limit, Start(chunk), before + ByteSteps(n - 1), Acknowledged(chunk, n - 1), [ProbeReceives(size)]);
      steps := before + ByteSteps(n - 1) + [ProbeReceives(size)];
    }
  }

  lemma {:induction false} OverlongRead(limit: nat, chunk: nat, n: nat)
    requires |Printed(Ack(Progress, n + 1))| > MAX_ACK_LINE_BYTES
    ensures Apply(ASCII, limit, Acknowledged(chunk, n), ProbeReceives(MAX_ACK_LINE_BYTES + 1)).Some?
    ensures Apply(ASCII, limit, Acknowledged(chunk, n), ProbeReceives(MAX_ACK_LINE_BYTES + 1)).value.phase == Failed(Protocol(LineTooLong))
  {
    var s := Acknowledged(chunk, n);
    var line := Printed(Ack(Progress, n + 1));
    var cut := s.wire[..MAX_ACK_LINE_BYTES + 1];
    assert cut == line[..MAX_ACK_LINE_BYTES + 1];
    PrintedParses(Ack(Progress, n + 1));
    ConsumeUnfinished(Parse, s.stream, cut);
  }

  lemma {:induction false} OverlongAt(limit: nat, chunk: nat, m: nat) returns (steps: seq<Step>)
    requires chunk > 0 && 0 < m < limit && m - 1 < LongestSafe() && |Printed(Ack(Progress, m))| > MAX_ACK_LINE_BYTES
    ensures Run(ASCII, limit, Start(chunk), steps).Some?
    ensures Run(ASCII, limit, Start(chunk), steps).value.phase == Failed(Protocol(LineTooLong))
  {
    var n: nat := m - 1;
    var last := ProbeReceives(MAX_ACK_LINE_BYTES + 1);
    var before := CatchUp(limit, chunk, n);
    ByteAcknowledged(limit, chunk, n);
    RunAppend(ASCII, limit, Start(chunk), before, Caught(chunk, n), ByteSteps(n));
    OverlongRead(limit, chunk, n);
    RunOne(ASCII, limit, Acknowledged(chunk, n), last);
    RunAppend(ASCII, limit, Start(chunk), before + ByteSteps(n), Acknowledged(chunk, n), [last]);
    steps := before + ByteSteps(n) + [last];
  }

  lemma {:induction false} BoundIsLong(bound: nat, digits: nat)
    requires bound == Pow10(digits) && digits == 124
    ensures bound > 0 && |Printed(Ack(Progress, bound))| > MAX_ACK_LINE_BYTES
  {
    PowerOfTenLine(digits, bound);
  }

  /** Past the bound a run, byte by byte, ends in the too-long error. */
  lemma {:induction false} OverlongLineReachable(limit: nat, chunk: nat, bound: nat) returns (steps: seq<Step>)
    requires chunk > 0 && limit > bound && bound == LongestSafe()
    ensures Run(ASCII, limit, Start(chunk), steps).Some?
    ensures Run(ASCII, limit, Start(chunk), steps).value.phase == Failed(Protocol(LineTooLong))
  {
    BoundIsLong(bound, 124);
    steps := OverlongAt(limit, chunk, bound);
  }

  lemma {:induction false} PowerOfTenLine(k: nat, n: nat)
    requires 3 <= k < 900 && n == Pow10(k)
    ensures var line := Printed(Ack(Progress, n)); '\n' !in line && |line| == k + 5 < n
  {
    DigitsLength(n, k);
    DigitsLength(n, k + 1);
    Pow10Monotone(3, k);
    assert Pow10(3) == 1000;
    PrintedParses(Ack(Progress, n));
  }

  lemma {:induction false} Pow10Monotone(a: nat, b: nat)
    requires a <= b
    ensures Pow10(a) <= Pow10(b)
  {
    if a < b {
      Pow10Monotone(a, b - 1);
    }
  }

  /** The bound is exact: acknowledgement errors are impossible if and only if totals stay below it. */
  lemma {:induction false} SafeExactlyBelow(limit: nat, chunk: nat)
    requires limit > 0 && chunk > 0
    ensures limit <= LongestSafe() <==>
      forall steps: seq<Step> :: Run(ASCII, limit, Start(chunk), steps).Some? ==>
        !(Run(ASCII, limit, Start(chunk), steps).value.phase.Failed?
          && Run(ASCII, limit, Start(chunk), steps).value.phase.failure.Protocol?)
  {
    if limit <= LongestSafe() {
      forall steps: seq<Step> | Run(ASCII, limit, Start(chunk), steps).Some?
        ensures !(Run(ASCII, limit, Start(chunk), steps).value.phase.Failed?
                  && Run(ASCII, limit, Start(chunk), steps).value.phase.failure.Protocol?)
      {
        EveryRunAccountsExactly(limit, chunk, steps);
      }
    } else {
      var steps := OverlongLineReachable(limit, chunk, LongestSafe());
    }
  }
}
