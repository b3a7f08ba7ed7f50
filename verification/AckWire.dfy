/**
 The acknowledgement lines a TCP sink returns to the upload probe: how the sink prints
 them (`lab/tcp_sink.py`), how the probe splits and parses the byte stream, and how it
 accounts them (`lab/bulk_upload_probe.py`).
 */
module AckWire {
  import opened Outcomes
  import opened Decimal

  const MAX_ACK_LINE_BYTES: nat := 128

  datatype Kind = Progress | Terminal

  datatype Ack = Ack(kind: Kind, total: nat)

  datatype AckError =
    | NotAscii | MalformedLine | MalformedCount
    | Decreased | NotAcceptedLocally | AfterTerminal | LineTooLong

  // ----- printing -----

  function KindWord(kind: Kind): string {
    if kind == Progress then "ACK" else "OK"
  }

  /** An acknowledgement without its newline. */
  function Printed(a: Ack): string {
    KindWord(a.kind) + " " + Digits(a.total)
  }

  // ----- parsing one line -----

  /** The ASCII characters `str.split()` treats as blanks. */
  predicate IsBlank(c: char) {
    c == ' ' || '\t' <= c <= '\r' || '\U{1c}' <= c <= '\U{1f}'
  }

  function SkipBlanks(s: string): (r: string)
    ensures |r| <= |s|
    ensures r != "" ==> !IsBlank(r[0])
  {
    if s != "" && IsBlank(s[0]) then SkipBlanks(s[1..]) else s
  }

  function WordLength(s: string): (n: nat)
    ensures n <= |s|
    ensures s != "" && !IsBlank(s[0]) ==> n > 0
    ensures forall i :: 0 <= i < n ==> !IsBlank(s[i])
    ensures n < |s| ==> IsBlank(s[n])
  {
    if s == "" || IsBlank(s[0]) then 0 else 1 + WordLength(s[1..])
  }

  /** `text.split()` */
  function Words(s: string): seq<string>
    decreases |s|
  {
    var t := SkipBlanks(s);
    if t == "" then []
    else [t[..WordLength(t)]] + Words(t[WordLength(t)..])
  }

  predicate IsAscii(s: string) {
    forall i :: 0 <= i < |s| ==> s[i] < '\U{80}'
  }

  /** `parse_acknowledgement` */
  function Parse(line: string): Result<Ack, AckError> {
    if !IsAscii(line) then Err(NotAscii)
    else
      var words := Words(line);
      if |words| != 2 || words[0] !in {"ACK", "OK"} then Err(MalformedLine)
      else if words[1] == "" || !AllDigits(words[1]) then Err(MalformedCount)
      else Ok(Ack(if words[0] == "ACK" then Progress else Terminal, ParseNat(words[1])))
  }

  lemma {:induction false} WordThenBlank(word: string, rest: string)
    requires word != "" && forall i :: 0 <= i < |word| ==> !IsBlank(word[i])
    requires rest != "" ==> IsBlank(rest[0])
    ensures Words(word + rest) == [word] + Words(rest)
  {
    var s := word + rest;
    assert s[0] == word[0];
    assert SkipBlanks(s) == s;
    var n := WordLength(s);
    assert forall i :: 0 <= i < |word| ==> s[i] == word[i];
    assert rest != "" ==> s[|word|] == rest[0];
    assert s[..n] == word && s[n..] == rest;
  }

  predicate IsWord(s: string) {
    s != "" && forall i :: 0 <= i < |s| ==> !IsBlank(s[i])
  }

  lemma {:induction false} TwoWords(a: string, b: string)
    requires IsWord(a) && IsWord(b)
    ensures Words(a + " " + b) == [a, b]
  {
    assert a + " " + b == a + (" " + b);
    WordThenBlank(a, " " + b);
    assert (" " + b)[1..] == b;
    assert SkipBlanks(" " + b) == SkipBlanks(b) == b;
    assert b + "" == b;
    WordThenBlank(b, "");
  }

  lemma {:induction false} ParseOfTwoWords(line: string, kind: Kind, digits: string)
    requires IsAscii(line) && Words(line) == [KindWord(kind), digits]
    requires digits != "" && AllDigits(digits)
    ensures Parse(line) == Ok(Ack(kind, ParseNat(digits)))
  {
    assert KindWord(Progress)[0] != KindWord(Terminal)[0];
  }

  /** The probe reads back exactly what the sink printed. */
  lemma {:induction false} PrintedParses(a: Ack)
    ensures Parse(Printed(a)) == Ok(a)
    ensures '\n' !in Printed(a)
  {
    var word, digits := KindWord(a.kind), Digits(a.total);
    DigitsRoundTrip(a.total);
    assert IsWord(word) && IsWord(digits);
    TwoWords(word, digits);
    assert IsAscii(word) && '\n' !in word && IsAscii(digits) && '\n' !in digits;
    ParseOfTwoWords(Printed(a), a.kind, digits);
  }

  // ----- the language of acknowledgement lines -----

  predicate AllBlank(s: string) {
    forall i :: 0 <= i < |s| ==> IsBlank(s[i])
  }

  /** A line: the kind and the count as two words, with blanks between them and any blanks around them. */
  predicate Spells(before: string, kind: Kind, gap: string, digits: string, after: string, line: string) {
    && line == before + KindWord(kind) + gap + digits + after
    && AllBlank(before) && AllBlank(gap) && gap != "" && AllBlank(after) && digits != "" && AllDigits(digits)
  }

  lemma {:induction false} SkipBlanksMeans(s: string) returns (blanks: string)
    ensures AllBlank(blanks) && s == blanks + SkipBlanks(s)
  {
    if s != "" && IsBlank(s[0]) {
      var rest := SkipBlanksMeans(s[1..]);
      blanks := [s[0]] + rest;
    } else {
      blanks := "";
    }
  }

  lemma {:induction false} SkipBlanksOver(blanks: string, rest: string)
    requires AllBlank(blanks) && (rest != "" ==> !IsBlank(rest[0]))
    ensures SkipBlanks(blanks + rest) == rest
  {
    if blanks == "" {
      assert blanks + rest == rest;
    } else {
      assert (blanks + rest)[1..] == blanks[1..] + rest;
      SkipBlanksOver(blanks[1..], rest);
    }
  }

  /** Leading blanks make no difference to the words. */
  lemma {:induction false} WordsAfterBlanks(blanks: string, rest: string)
    requires AllBlank(blanks) && (rest != "" ==> !IsBlank(rest[0]))
    ensures Words(blanks + rest) == Words(rest)
  {
    SkipBlanksOver(blanks, rest);
    SkipBlanksOver("", rest);
    assert "" + rest == rest;
  }

  /** The first word of a text with words, what stands before it and what follows it. */
  lemma {:induction false} FirstWord(s: string) returns (blanks: string, rest: string)
    requires Words(s) != []
    ensures AllBlank(blanks) && s == blanks + Words(s)[0] + rest && Words(rest) == Words(s)[1..] && IsWord(Words(s)[0])
    ensures rest != "" ==> IsBlank(rest[0])
  {
    blanks := SkipBlanksMeans(s);
    var t := SkipBlanks(s);
    rest := t[WordLength(t)..];
    assert t == t[..WordLength(t)] + rest;
  }

  lemma {:induction false} NoWords(s: string)
    requires Words(s) == []
    ensures AllBlank(s)
  {
    var blanks := SkipBlanksMeans(s);
    assert s == blanks;
  }

  lemma {:induction false} WordsSpaced(before: string, a: string, gap: string, b: string, after: string)
    requires AllBlank(before) && AllBlank(gap) && gap != "" && AllBlank(after) && IsWord(a) && IsWord(b)
    ensures Words(before + (a + (gap + (b + after)))) == [a, b]
  {
    WordsAfterBlanks(before, a + (gap + (b + after)));
    WordThenBlank(a, gap + (b + after));
    WordsAfterBlanks(gap, b + after);
    WordThenBlank(b, after);
    WordsAfterBlanks(after, "");
    assert after + "" == after;
  }

  lemma {:induction false} SpellsTwoWords(before: string, kind: Kind, gap: string, digits: string, after: string, line: string)
    requires Spells(before, kind, gap, digits, after, line)
    ensures Words(line) == [KindWord(kind), digits]
  {
    var word := KindWord(kind);
    assert IsWord(word) && IsWord(digits);
    assert line == before + (word + (gap + (digits + after)));
    WordsSpaced(before, word, gap, digits, after);
  }

  lemma {:induction false} SpellsAscii(before: string, kind: Kind, gap: string, digits: string, after: string, line: string)
    requires Spells(before, kind, gap, digits, after, line)
    ensures IsAscii(line)
  {
    assert IsAscii(before) && IsAscii(KindWord(kind)) && IsAscii(gap) && IsAscii(digits) && IsAscii(after);
    assert IsAscii(before + KindWord(kind));
    assert IsAscii(before + KindWord(kind) + gap);
    assert IsAscii(before + KindWord(kind) + gap + digits);
  }

  lemma {:induction false} ParsedIsSpelled(line: string) returns (before: string, gap: string, digits: string, after: string)
    requires Parse(line).Ok?
    ensures Spells(before, Parse(line).value.kind, gap, digits, after, line) && ParseNat(digits) == Parse(line).value.total
  {
    var rest;
    digits := Words(line)[1];
    before, rest := FirstWord(line);
    gap, after := FirstWord(rest);
    NoWords(after);
    assert rest[0] == (gap + digits + after)[0];
    if gap == "" {
      assert false;
    }
    assert line == before + Words(line)[0] + (gap + digits + after);
    assert line == before + Words(line)[0] + gap + digits + after;
  }

  /** A line is read as an acknowledgement exactly when it spells that acknowledgement. */
  lemma {:induction false} ParsesIff(line: string, a: Ack)
    ensures Parse(line) == Ok(a) <==>
      exists before, gap, digits, after :: Spells(before, a.kind, gap, digits, after, line) && ParseNat(digits) == a.total
  {
    if Parse(line) == Ok(a) {
      var before, gap, digits, after := ParsedIsSpelled(line);
    } else if exists before, gap, digits, after :: Spells(before, a.kind, gap, digits, after, line) && ParseNat(digits) == a.total {
      var before, gap, digits, after :| Spells(before, a.kind, gap, digits, after, line) && ParseNat(digits) == a.total;
      SpellsTwoWords(before, a.kind, gap, digits, after, line);
      SpellsAscii(before, a.kind, gap, digits, after, line);
      ParseOfTwoWords(line, a.kind, digits);
    }
  }

  // ----- splitting the byte stream -----

  /** The position of the first newline, or the length when there is none. */
  function Newline(s: string): (i: nat)
    ensures i <= |s|
    ensures i < |s| ==> s[i] == '\n'
    ensures forall j :: 0 <= j < i ==> s[j] != '\n'
  {
    if s == "" || s[0] == '\n' then 0 else 1 + Newline(s[1..])
  }

  /** The complete lines of a text, and what follows its last newline. */
  function Lines(s: string): seq<string>
    decreases |s|
  {
    var i := Newline(s);
    if i == |s| then [] else [s[..i]] + Lines(s[i + 1..])
  }

  function Rest(s: string): (r: string)
    ensures '\n' !in r
    ensures |r| <= |s|
    decreases |s|
  {
    var i := Newline(s);
    if i == |s| then s else Rest(s[i + 1..])
  }

  lemma {:induction false} NewlineAt(a: string, b: string)
    requires '\n' !in a
    ensures Newline(a + "\n" + b) == |a|
    ensures Newline(a) == |a|
  {
    var s := a + "\n" + b;
    var i := Newline(s);
    assert s[|a|] == '\n';
    assert forall j :: 0 <= j < |a| ==> s[j] == a[j];
  }

  /** Text after a newline does not change the line before it. */
  lemma {:induction false} FirstLine(line: string, tail: string)
    requires '\n' !in line
    ensures Lines(line + "\n" + tail) == [line] + Lines(tail)
    ensures Rest(line + "\n" + tail) == Rest(tail)
  {
    var s := line + "\n" + tail;
    NewlineAt(line, tail);
    assert s[..|line|] == line && s[|line| + 1..] == tail;
  }

  /** Cutting a text anywhere loses no line: the pieces join at the unfinished remainder. */
  lemma {:induction false} LinesSplit(a: string, b: string)
    ensures Lines(a + b) == Lines(a) + Lines(Rest(a) + b)
    ensures Rest(a + b) == Rest(Rest(a) + b)
    decreases |a|
  {
    var i := Newline(a);
    if i < |a| {
      var line, tail := a[..i], a[i + 1..];
      assert a == line + "\n" + tail;
      assert a + b == line + "\n" + (tail + b);
      FirstLine(line, tail);
      FirstLine(line, tail + b);
      LinesSplit(tail, b);
    }
  }

  lemma {:induction false} LinesOfOne(line: string)
    requires '\n' !in line
    ensures Lines(line + "\n") == [line] && Rest(line + "\n") == ""
    ensures Lines(line) == [] && Rest(line) == line
  {
    NewlineAt(line, "");
    assert line + "\n" + "" == line + "\n";
    assert (line + "\n")[..|line|] == line && (line + "\n")[|line| + 1..] == "";
  }

  /** What a cut leaves unfinished is the start of a later line or of the remainder. */
  lemma {:induction false} RestOfPrefix(a: string, b: string, bound: nat)
    requires forall i :: 0 <= i < |Lines(a + b)| ==> |Lines(a + b)[i]| <= bound
    requires |Rest(a + b)| <= bound
    ensures |Rest(a)| <= bound
  {
    LinesSplit(a, b);
    var r := Rest(a);
    var i := Newline(r + b);
    assert forall j :: 0 <= j < |r| ==> (r + b)[j] == r[j];
    if i < |r + b| {
      var k := |Lines(a)|;
      assert Lines(a + b)[k] == Lines(r + b)[0] == (r + b)[..i];
    }
  }
}
