/** When an upload can still finish, and how closely its acknowledgements follow (`lab/bulk_upload_probe.py`, `lab/tcp_sink.py`). */
module UploadProgress {
  import opened Outcomes
  import opened AckWire
  import opened UploadStream
  import opened UploadRun

  function Text(s: System): string {
    s.stream.buffer + s.wire
  }

  ghost predicate TerminalPending(read: Reader, s: System) {
    HasTerminal(read, Lines(Text(s)))
  }

  /** The invariant of every run, and the probe's buffer holds no complete line between two receives. */
  ghost predicate Good(codec: Codec, limit: nat, s: System) {
    Inv(codec, limit, s) && '\n' !in s.stream.buffer
  }

  /** The sink may yet send its terminal line: the return stream is whole and the handler has not been cut off. */
  predicate SinkMayConclude(s: System) {
    s.returnOpen && (s.handler == Receiving || s.handler == Deciding || s.handler == Ended(true)) && (s.phase == Loading || s.shut)
  }

  /** The stream is finished, or the probe still listens and the terminal line is seen, under way, or can be sent. */
  ghost predicate Hopeful(read: Reader, s: System) {
    || s.phase == Finished(true)
    || ((s.phase == Loading || s.phase == Waiting) && (s.stream.final.Some? || TerminalPending(read, s) || SinkMayConclude(s)))
  }

  // ----- one receive of the probe -----

  /** Consuming a terminal line settles the final total. */
  lemma {:induction false} ConsumedTerminal(read: Reader, st: Stream, now: seq<string>, later: seq<string>, high: nat)
    requires Orderly(read, now + later, st.confirmed, high) && st.final.None? && st.confirmed <= high <= st.accepted
    requires HasTerminal(read, now)
    ensures ConsumeLines(read, st, now).Ok? && ConsumeLines(read, st, now).value.final.Some?
    decreases |now|
  {
    var line := now[0];
    assert (now + later)[0] == line && (now + later)[1..] == now[1..] + later;
    var a := read(line).value;
    var next := ConsumeLine(read, st, line).value;
    if a.kind == Terminal {
      assert now[1..] == [];
    } else {
      var i :| 0 <= i < |now| && read(now[i]).Ok? && read(now[i]).value.kind == Terminal;
      assert now[1..][i - 1] == now[i];
      ConsumedTerminal(read, next, now[1..], later, high);
    }
  }

  lemma {:induction false} ReceiveSplits(codec: Codec, s: System, size: nat)
    requires size <= |s.wire| && Consume(codec.read, s.stream, s.wire[..size]).Ok?
    ensures var a := s.stream.buffer + s.wire[..size]; var t := Consume(codec.read, s.stream, s.wire[..size]).value;
      && Lines(Text(s)) == Lines(a) + Lines(t.buffer + s.wire[size..]) && '\n' !in t.buffer
      && ConsumeLines(codec.read, s.stream, Lines(a)).Ok? && t == ConsumeLines(codec.read, s.stream, Lines(a)).value.(buffer := t.buffer)
  {
    var a, b := s.stream.buffer + s.wire[..size], s.wire[size..];
    assert Text(s) == a + b;
    LinesSplit(a, b);
    ConsumeByLines(codec.read, s.stream, s.wire[..size]);
  }

  lemma {:induction false} TerminalInHalf(read: Reader, now: seq<string>, later: seq<string>)
    ensures HasTerminal(read, now + later) <==> HasTerminal(read, now) || HasTerminal(read, later)
  {
    if HasTerminal(read, now + later) {
      var i :| 0 <= i < |now + later| && read((now + later)[i]).Ok? && read((now + later)[i]).value.kind == Terminal;
      if i < |now| {
        assert now[i] == (now + later)[i];
      } else {
        assert later[i - |now|] == (now + later)[i];
      }
    }
    if HasTerminal(read, now) {
      var i :| 0 <= i < |now| && read(now[i]).Ok? && read(now[i]).value.kind == Terminal;
      assert (now + later)[i] == now[i];
    }
    if HasTerminal(read, later) {
      var i :| 0 <= i < |later| && read(later[i]).Ok? && read(later[i]).value.kind == Terminal;
      assert (now + later)[|now| + i] == later[i];
    }
  }

  lemma {:induction false} FinalComesFromTerminal(read: Reader, st: Stream, now: seq<string>, later: seq<string>, high: nat)
    requires Orderly(read, now + later, st.confirmed, high) && st.final.None? && st.confirmed <= high <= st.accepted
    ensures ConsumeLines(read, st, now).Ok?
    ensures HasTerminal(read, now + later) <==> ConsumeLines(read, st, now).value.final.Some? || HasTerminal(read, later)
  {
    var u := OrderlyConsumed(read, st, now, later, high);
    TerminalInHalf(read, now, later);
    if HasTerminal(read, now) {
      ConsumedTerminal(read, st, now, later, high);
    }
  }

  /** A terminal line is read or stays under way, and none comes from nowhere. */
  lemma {:induction false} ReceiveKeepsTerminal(codec: Codec, limit: nat, s: System, size: nat, t: System)
    requires Inv(codec, limit, s) && s.stream.final.None? && (s.phase == Loading || s.phase == Waiting)
    requires size <= |s.wire| && Consume(codec.read, s.stream, s.wire[..size]).Ok?
    requires t == s.(stream := Consume(codec.read, s.stream, s.wire[..size]).value, wire := s.wire[size..])
    ensures TerminalPending(codec.read, s) <==> t.stream.final.Some? || TerminalPending(codec.read, t)
  {
    ReceiveSplits(codec, s, size);
    FinalComesFromTerminal(codec.read, s.stream, Lines(s.stream.buffer + s.wire[..size]), Lines(Text(t)), s.total);
  }

  // ----- a hopeful run can be brought to its end -----

  function Least(a: nat, b: nat): nat {
    if a <= b then a else b
  }

  /** What to let happen next. */
  ghost function NextStep(codec: Codec, s: System): Step {
    if s.phase == Loading then ProbeStopsLoading(true)
    else if s.stream.final.Some? then ProbeConcludes
    else if TerminalPending(codec.read, s) then ProbeReceives(Least(|s.wire|, RECEIVE_BYTES))
    else if s.handler == Deciding then SinkDecides(false, |codec.write(Ack(Progress, s.total))| + 1)
    else if s.handler == Ended(true) then SinkConcludes(|codec.write(Ack(Terminal, s.total))| + 1)
    else if s.inflight > 0 then SinkReceives(Least(s.inflight, SINK_RECEIVE_BYTES))
    else SinkSeesEnd(false)
  }

  function HandlerRank(h: Handler): nat {
    match h
    case Closed => 0
    case Ended(_) => 1
    case _ => 2
  }

  /** The next step is enabled, keeps hope, and brings the end nearer. */
  ghost predicate Nearer(codec: Codec, limit: nat, s: System, step: Step) {
    var r := Apply(codec, limit, s, step);
    && r.Some? && Good(codec, limit, r.value) && Hopeful(codec.read, r.value)
    && (r.value.phase.Finished? || (r.value.phase == Waiting &&
         (s.phase == Loading || HandlerRank(r.value.handler) < HandlerRank(s.handler)
          || (r.value.handler == s.handler && r.value.inflight == s.inflight && |r.value.wire| < |s.wire|)
          || (HandlerRank(r.value.handler) == HandlerRank(s.handler) == 2 &&
               (r.value.inflight < s.inflight || (r.value.inflight == s.inflight && s.handler == Deciding && r.value.handler == Receiving))))))
  }

  lemma {:induction false} ReceiveNearer(codec: Codec, limit: nat, s: System)
    requires Faithful(codec, limit) && limit > 0 && Good(codec, limit, s) && s.phase == Waiting && s.stream.final.None? && TerminalPending(codec.read, s)
    ensures Nearer(codec, limit, s, ProbeReceives(Least(|s.wire|, RECEIVE_BYTES)))
  {
    if s.wire == "" {
      assert Text(s) == s.stream.buffer;
      LinesOfOne(s.stream.buffer);
      assert false;
    }
    var size := Least(|s.wire|, RECEIVE_BYTES);
    ReceivePreserves(codec, limit, s, size);
    var t := Apply(codec, limit, s, ProbeReceives(size)).value;
    ReceiveKeepsTerminal(codec, limit, s, size, t);
    ReceiveSplits(codec, s, size);
  }

  lemma {:induction false} SentWhole(s: System, line: string)
    requires s.returnOpen
    ensures Send(s, line, |line|) == s.(wire := s.wire + line)
  {
  }

  lemma {:induction false} DecideNearer(codec: Codec, limit: nat, s: System)
    requires Faithful(codec, limit) && limit > 0 && Good(codec, limit, s) && s.phase == Waiting && s.handler == Deciding && SinkMayConclude(s)
    ensures Nearer(codec, limit, s, SinkDecides(false, |codec.write(Ack(Progress, s.total))| + 1))
  {
    var line := codec.write(Ack(Progress, s.total)) + "\n";
    SentWhole(s, line);
    DecidePreserves(codec, limit, s, false, |line|);
  }

  lemma {:induction false} LinePending(read: Reader, text: string, word: string)
    requires Rest(text) == "" && '\n' !in word && read(word).Ok? && read(word).value.kind == Terminal
    ensures HasTerminal(read, Lines(text + (word + "\n")))
  {
    LinesSplit(text, word + "\n");
    assert "" + (word + "\n") == word + "\n";
    LinesOfOne(word);
    assert Lines(text + (word + "\n"))[|Lines(text)|] == word;
  }

  /** The terminal line goes onto the wire behind everything pending. */
  lemma {:induction false} ConcludePends(codec: Codec, limit: nat, s: System, t: System)
    requires Faithful(codec, limit) && Inv(codec, limit, s) && s.handler == Ended(true) && s.returnOpen
    requires Apply(codec, limit, s, SinkConcludes(|codec.write(Ack(Terminal, s.total))| + 1)) == Some(t)
    ensures TerminalPending(codec.read, t) && t.handler == Closed && t.phase == s.phase && t.stream == s.stream
  {
    var word := codec.write(Ack(Terminal, s.total));
    SentWhole(s, word + "\n");
    assert Text(t) == Text(s) + (word + "\n");
    assert codec.read(word) == Ok(Ack(Terminal, s.total));
    LinePending(codec.read, Text(s), word);
  }

  lemma {:induction false} ConcludeNearer(codec: Codec, limit: nat, s: System)
    requires Faithful(codec, limit) && limit > 0 && Good(codec, limit, s) && s.phase == Waiting && s.handler == Ended(true) && SinkMayConclude(s)
    ensures Nearer(codec, limit, s, SinkConcludes(|codec.write(Ack(Terminal, s.total))| + 1))
  {
    var n := |codec.write(Ack(Terminal, s.total))| + 1;
    ConcludePreserves(codec, limit, s, n);
    ConcludePends(codec, limit, s, Apply(codec, limit, s, SinkConcludes(n)).value);
  }

  lemma {:induction false} SinkNearer(codec: Codec, limit: nat, s: System)
    requires Faithful(codec, limit) && limit > 0 && Good(codec, limit, s) && s.phase == Waiting && s.handler == Receiving && SinkMayConclude(s)
    ensures Nearer(codec, limit, s, if s.inflight > 0 then SinkReceives(Least(s.inflight, SINK_RECEIVE_BYTES)) else SinkSeesEnd(false))
  {
    if s.inflight > 0 {
      StepPreserves(codec, limit, s, SinkReceives(Least(s.inflight, SINK_RECEIVE_BYTES)));
    } else {
      StepPreserves(codec, limit, s, SinkSeesEnd(false));
    }
  }

  lemma {:induction false} StartNearer(codec: Codec, limit: nat, s: System)
    requires Faithful(codec, limit) && limit > 0 && Good(codec, limit, s) && s.phase == Loading && Hopeful(codec.read, s)
    ensures Nearer(codec, limit, s, ProbeStopsLoading(true))
  {
    StepPreserves(codec, limit, s, ProbeStopsLoading(true));
    var t := Apply(codec, limit, s, ProbeStopsLoading(true)).value;
    assert Text(t) == Text(s);
  }

  lemma {:induction false} NextIsNearer(codec: Codec, limit: nat, s: System)
    requires Faithful(codec, limit) && limit > 0 && Good(codec, limit, s) && Hopeful(codec.read, s) && !s.phase.Finished?
    ensures Nearer(codec, limit, s, NextStep(codec, s))
  {
    if s.phase == Loading {
      StartNearer(codec, limit, s);
    } else if s.stream.final.Some? {
      StepPreserves(codec, limit, s, ProbeConcludes);
    } else if TerminalPending(codec.read, s) {
      ReceiveNearer(codec, limit, s);
    } else if s.handler == Deciding {
      DecideNearer(codec, limit, s);
    } else if s.handler == Ended(true) {
      ConcludeNearer(codec, limit, s);
    } else {
      SinkNearer(codec, limit, s);
    }
  }

  /** Letting the next step happen again and again ends in a complete stream. */
  lemma {:induction false} Finishes(codec: Codec, limit: nat, s: System) returns (more: seq<Step>)
    requires Faithful(codec, limit) && limit > 0 && Good(codec, limit, s) && Hopeful(codec.read, s)
    ensures Run(codec, limit, s, more).Some? && Run(codec, limit, s, more).value.phase == Finished(true)
    decreases !s.phase.Finished?, s.phase == Loading, HandlerRank(s.handler), s.inflight, s.handler == Deciding, |s.wire|
  {
    if s.phase.Finished? {
      more := [];
    } else {
      NextIsNearer(codec, limit, s);
      var step := NextStep(codec, s);
      var t := Apply(codec, limit, s, step).value;
      var rest := Finishes(codec, limit, t);
      more := [step] + rest;
      assert more[1..] == rest;
    }
  }

  // ----- a hopeless one cannot -----

  lemma {:induction false} DecideShape(codec: Codec, limit: nat, s: System, step: Step, t: System)
    requires step.SinkDecides? && Apply(codec, limit, s, step) == Some(t)
    ensures s.handler == Deciding && t.handler == Receiving && t.phase == s.phase && t.stream == s.stream && t.shut == s.shut
    ensures || (t.wire == s.wire && t.returnOpen == s.returnOpen)
            || (var u := Send(s, codec.write(Ack(Progress, s.total)) + "\n", step.delivered); t.wire == u.wire && t.returnOpen == u.returnOpen)
  {
  }

  /** A progress line is not a terminal one. */
  lemma {:induction false} DecidePendsNothing(codec: Codec, limit: nat, s: System, step: Step, t: System)
    requires Faithful(codec, limit) && limit > 0 && Inv(codec, limit, s) && step.SinkDecides? && Apply(codec, limit, s, step) == Some(t)
    ensures TerminalPending(codec.read, t) ==> TerminalPending(codec.read, s)
    ensures t.returnOpen ==> s.returnOpen
  {
    DecideShape(codec, limit, s, step, t);
    if t.wire == s.wire {
      assert Text(t) == Text(s);
    } else {
      SendPreserves(codec, limit, s, Progress, step.delivered);
    }
  }

  lemma {:induction false} DecideLeavesHopeless(codec: Codec, limit: nat, s: System, step: Step, t: System)
    requires Faithful(codec, limit) && limit > 0 && Inv(codec, limit, s) && !Hopeful(codec.read, s)
    requires step.SinkDecides? && Apply(codec, limit, s, step) == Some(t)
    ensures !Hopeful(codec.read, t)
  {
    DecideShape(codec, limit, s, step, t);
    DecidePendsNothing(codec, limit, s, step, t);
  }

  lemma {:induction false} ConcludeLeavesHopeless(codec: Codec, limit: nat, s: System, step: Step, t: System)
    requires Inv(codec, limit, s) && !Hopeful(codec.read, s)
    requires step.SinkConcludes? && Apply(codec, limit, s, step) == Some(t)
    ensures !Hopeful(codec.read, t)
  {
    assert t.phase == s.phase && t.stream == s.stream && t.handler == Closed && !t.returnOpen;
    if s.phase == Loading || s.phase == Waiting {
      assert t.wire == s.wire && Text(t) == Text(s);
    }
  }

  lemma {:induction false} HopelessStep(codec: Codec, limit: nat, s: System, step: Step, t: System)
    requires Faithful(codec, limit) && limit > 0 && Inv(codec, limit, s) && !Hopeful(codec.read, s) && Apply(codec, limit, s, step) == Some(t)
    ensures !Hopeful(codec.read, t)
  {
    if step.SinkDecides? {
      DecideLeavesHopeless(codec, limit, s, step, t);
    } else if step.SinkConcludes? {
      ConcludeLeavesHopeless(codec, limit, s, step, t);
    } else if step.ProbeReceives? {
      ReceivePreserves(codec, limit, s, step.size);
      ReceiveKeepsTerminal(codec, limit, s, step.size, t);
    } else {
      assert Text(t) == Text(s);
    }
  }

  lemma {:induction false} HopelessRun(codec: Codec, limit: nat, s: System, more: seq<Step>)
    requires Faithful(codec, limit) && limit > 0 && Inv(codec, limit, s) && !Hopeful(codec.read, s) && Run(codec, limit, s, more).Some?
    ensures Run(codec, limit, s, more).value.phase != Finished(true)
    decreases |more|
  {
    if more != [] {
      var t := Apply(codec, limit, s, more[0]).value;
      HopelessStep(codec, limit, s, more[0], t);
      StepPreserves(codec, limit, s, more[0]);
      HopelessRun(codec, limit, t, more[1..]);
    }
  }

  // ----- every run -----

  lemma {:induction false} BufferUnbroken(codec: Codec, limit: nat, s: System, step: Step, t: System)
    requires '\n' !in s.stream.buffer && Apply(codec, limit, s, step) == Some(t)
    ensures '\n' !in t.stream.buffer
  {
    if step.ProbeReceives? {
      if Consume(codec.read, s.stream, s.wire[..step.size]).Ok? {
        ReceiveSplits(codec, s, step.size);
      }
    } else {
      assert t.stream.buffer == s.stream.buffer;
    }
  }

  lemma {:induction false} RunGood(codec: Codec, limit: nat, s: System, steps: seq<Step>)
    requires Faithful(codec, limit) && limit > 0 && Good(codec, limit, s) && Run(codec, limit, s, steps).Some?
    ensures Good(codec, limit, Run(codec, limit, s, steps).value)
    decreases |steps|
  {
    if steps != [] {
      var t := Apply(codec, limit, s, steps[0]).value;
      StepPreserves(codec, limit, s, steps[0]);
      BufferUnbroken(codec, limit, s, steps[0], t);
      RunGood(codec, limit, t, steps[1..]);
    }
  }

  ghost predicate Completes(limit: nat, s: System, more: seq<Step>) {
    Run(ASCII, limit, s, more).Some? && Run(ASCII, limit, s, more).value.phase.Finished?
  }

  /**
   From every reachable state: the stream can still finish, and then completely, exactly when it
   is finished or the probe still listens and its terminal line is seen, under way, or can be sent.
   */
  lemma {:induction false} CanFinishIff(limit: nat, chunk: nat, steps: seq<Step>, s: System)
    requires 0 < limit <= LongestSafe() && Run(ASCII, limit, Start(chunk), steps) == Some(s)
    ensures (exists more :: Completes(limit, s, more)) <==> Hopeful(Parse, s)
  {
    AsciiFaithful(limit);
    assert Text(Start(chunk)) == "" && Lines("") == [] && Rest("") == "";
    RunGood(ASCII, limit, Start(chunk), steps);
    if Hopeful(Parse, s) {
      var more := Finishes(ASCII, limit, s);
      assert Completes(limit, s, more);
    } else {
      forall more ensures !Completes(limit, s, more) {
        if Run(ASCII, limit, s, more).Some? {
          HopelessRun(ASCII, limit, s, more);
          RunPreserves(ASCII, limit, s, more);
        }
      }
    }
  }

  // ----- how closely acknowledgements follow -----

  /** The total of the last line, or what was known before any line. */
  function Told(read: Reader, lines: seq<string>, low: nat): nat {
    if lines == [] || read(lines[|lines| - 1]).Err? then low else read(lines[|lines| - 1]).value.total
  }

  lemma {:induction false} ToldConsumed(read: Reader, st: Stream, now: seq<string>, later: seq<string>, high: nat)
    requires Orderly(read, now + later, st.confirmed, high) && st.final.None? && st.confirmed <= high <= st.accepted
    requires !HasTerminal(read, now + later)
    ensures ConsumeLines(read, st, now).Ok?
    ensures Told(read, now + later, st.confirmed) == Told(read, later, ConsumeLines(read, st, now).value.confirmed)
    decreases |now|
  {
    if now == [] {
      assert now + later == later;
    } else {
      var all, next := now + later, ConsumeLine(read, st, now[0]).value;
      assert all[0] == now[0] && all[1..] == now[1..] + later;
      assert read(all[0]).value.kind == Progress;
      forall i | 0 <= i < |all[1..]| ensures !(read(all[1..][i]).Ok? && read(all[1..][i]).value.kind == Terminal) {
        assert all[1..][i] == all[i + 1];
      }
      ToldConsumed(read, next, now[1..], later, high);
      ToldTail(read, all, st.confirmed, high);
    }
  }

  lemma {:induction false} ToldTail(read: Reader, lines: seq<string>, low: nat, high: nat)
    requires lines != [] && Orderly(read, lines, low, high)
    ensures Told(read, lines, low) == Told(read, lines[1..], read(lines[0]).value.total)
  {
    if |lines| > 1 {
      assert lines[1..][|lines| - 2] == lines[|lines| - 1];
      OrderlyReads(read, lines, low, high, |lines| - 1);
    }
  }

  lemma {:induction false} OrderlyReads(read: Reader, lines: seq<string>, low: nat, high: nat, i: nat)
    requires Orderly(read, lines, low, high) && i < |lines|
    ensures read(lines[i]).Ok?
    decreases |lines|
  {
    if i > 0 {
      OrderlyReads(read, lines[1..], read(lines[0]).value.total, high, i - 1);
    }
  }

  /**
   Between two receives the handler is less than 64 MiB past its last acknowledgement, and until
   a send fails that acknowledgement is what the probe knows once it has read all that is pending.
   */
  ghost predicate KeepsUp(read: Reader, s: System) {
    && (s.handler == Receiving || s.handler.Ended? ==> s.total - s.lastAck < ACK_BYTES && (s.total > 0 ==> s.lastAck > 0))
    && (s.progressAvailable && s.handler != Closed ==> s.returnOpen && Told(read, Lines(Text(s)), s.stream.confirmed) == s.lastAck)
  }

  lemma {:induction false} ReceiveKeepsUp(codec: Codec, limit: nat, s: System, size: nat, t: System)
    requires Inv(codec, limit, s) && KeepsUp(codec.read, s) && Apply(codec, limit, s, ProbeReceives(size)) == Some(t)
    requires s.stream.final.None?
    ensures KeepsUp(codec.read, t)
  {
    ReceivePreserves(codec, limit, s, size);
    ReceiveSplits(codec, s, size);
    if s.handler != Closed {
      ToldConsumed(codec.read, s.stream, Lines(s.stream.buffer + s.wire[..size]), Lines(Text(t)), s.total);
    }
  }

  lemma {:induction false} LineTold(read: Reader, text: string, word: string, low: nat)
    requires Rest(text) == "" && '\n' !in word && read(word).Ok?
    ensures Told(read, Lines(text + (word + "\n")), low) == read(word).value.total
  {
    LinesSplit(text, word + "\n");
    assert "" + (word + "\n") == word + "\n";
    LinesOfOne(word);
  }

  lemma {:induction false} DecideKeepsUp(codec: Codec, limit: nat, s: System, elapsed: bool, delivered: nat, t: System)
    requires Faithful(codec, limit) && Inv(codec, limit, s) && KeepsUp(codec.read, s) && Apply(codec, limit, s, SinkDecides(elapsed, delivered)) == Some(t)
    ensures KeepsUp(codec.read, t)
  {
    var word := codec.write(Ack(Progress, s.total));
    if t.progressAvailable && t.wire != s.wire {
      assert Text(t) == Text(s) + (word + "\n");
      assert codec.read(word) == Ok(Ack(Progress, s.total));
      LineTold(codec.read, Text(s), word, s.stream.confirmed);
    } else {
      assert t.wire == s.wire ==> Text(t) == Text(s);
    }
  }

  lemma {:induction false} StepKeepsUp(codec: Codec, limit: nat, s: System, step: Step, t: System)
    requires Faithful(codec, limit) && Inv(codec, limit, s) && KeepsUp(codec.read, s) && Apply(codec, limit, s, step) == Some(t)
    ensures KeepsUp(codec.read, t)
  {
    if step.ProbeReceives? {
      if s.stream.final.None? {
        ReceiveKeepsUp(codec, limit, s, step.size, t);
      }
    } else if step.SinkDecides? {
      DecideKeepsUp(codec, limit, s, step.elapsed, step.delivered, t);
    } else if !step.SinkConcludes? {
      assert Text(t) == Text(s);
    }
  }

  lemma {:induction false} RunKeepsUp(codec: Codec, limit: nat, s: System, steps: seq<Step>)
    requires Faithful(codec, limit) && limit > 0 && Inv(codec, limit, s) && KeepsUp(codec.read, s) && Run(codec, limit, s, steps).Some?
    ensures KeepsUp(codec.read, Run(codec, limit, s, steps).value)
    decreases |steps|
  {
    if steps != [] {
      var t := Apply(codec, limit, s, steps[0]).value;
      StepPreserves(codec, limit, s, steps[0]);
      StepKeepsUp(codec, limit, s, steps[0], t);
      RunKeepsUp(codec, limit, t, steps[1..]);
    }
  }

  /** Over every run: acknowledgements keep up with what the sink receives. */
  lemma {:induction false} AcknowledgementsKeepUp(limit: nat, chunk: nat, steps: seq<Step>, s: System)
    requires 0 < limit <= LongestSafe() && Run(ASCII, limit, Start(chunk), steps) == Some(s)
    ensures KeepsUp(Parse, s)
  {
    AsciiFaithful(limit);
    assert Text(Start(chunk)) == "" && Lines("") == [] && Rest("") == "";
    RunKeepsUp(ASCII, limit, Start(chunk), steps);
  }
}
