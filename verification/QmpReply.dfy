/**
  ReadStopQmpReply of napi_init.cpp: newline-framed QMP replies that arrive in arbitrary pieces.  The
  pieces are those received before the deadline or the end of the connection.
 */
module QmpReply {
  import opened Prelude

  const LIMIT := 16384

  // ---------- Compaction ----------

  // Inside a JSON string; the previous character was an unescaped backslash.
  datatype Lex = Lex(quoted: bool, escaped: bool)

  const OUTSIDE := Lex(false, false)

  predicate Blank(c: char) {
    c == ' ' || c == '\r' || c == '\t'
  }

  function Step(s: Lex, c: char): Lex {
    if s.quoted && c == '\\' && !s.escaped then Lex(true, true)
    else if c == '"' && !s.escaped then Lex(!s.quoted, false)
    else Lex(s.quoted, false)
  }

  // The line without whitespace outside strings, read from state `s`.
  function CompactFrom(s: Lex, line: string): string
    decreases |line|
  {
    if line == "" then ""
    else (if s.quoted || !Blank(line[0]) then [line[0]] else "") + CompactFrom(Step(s, line[0]), line[1..])
  }

  function Compact(line: string): string {
    CompactFrom(OUTSIDE, line)
  }

  // The first i characters have been dealt with.
  ghost predicate CompactedTo(compact: string, s: Lex, line: string, i: nat) {
    i <= |line| && compact + CompactFrom(s, line[i..]) == Compact(line)
  }

  lemma CompactedStart(line: string)
    ensures CompactedTo("", OUTSIDE, line, 0)
  {
    assert line[0..] == line && "" + Compact(line) == Compact(line);
  }

  lemma CompactedEnd(compact: string, s: Lex, line: string)
    requires CompactedTo(compact, s, line, |line|)
    ensures compact == Compact(line)
  {
    assert line[|line|..] == "" && compact + "" == compact;
  }

  lemma CompactedStep(compact: string, s: Lex, line: string, i: nat)
    requires i < |line| && CompactedTo(compact, s, line, i)
    ensures CompactedTo(compact + if s.quoted || !Blank(line[i]) then [line[i]] else "", Step(s, line[i]), line, i + 1)
  {
    assert line[i..][0] == line[i] && line[i..][1..] == line[i + 1..];
  }

  // The flags after one more character.
  method NextState(quoted: bool, escaped: bool, c: char) returns (q: bool, e: bool)
    ensures Lex(q, e) == Step(Lex(quoted, escaped), c)
  {
    q, e := quoted, escaped;
    if q && c == '\\' && !e {
      return q, true;
    }
    if c == '"' && !e {
      q := !q;
    }
    e := false;
  }

  /** The loop that builds `compact`. */
  method CompactLine(line: string) returns (compact: string)
    ensures compact == Compact(line)
  {
    compact := "";
    var quoted, escaped := false, false;
    ghost var state := OUTSIDE;
    var i := 0;
    CompactedStart(line);
    while i < |line|
      invariant state == Lex(quoted, escaped) && CompactedTo(compact, state, line, i)
    {
      var c := line[i];
      CompactedStep(compact, state, line, i);
      if quoted || (c != ' ' && c != '\r' && c != '\t') {
        compact := compact + [c];
      }
      quoted, escaped := NextState(quoted, escaped, c);
      state := Step(state, c);
      i := i + 1;
    }
    CompactedEnd(compact, state, line);
  }

  // Each character with the state it is read in.
  function Marked(s: Lex, line: string): seq<(char, Lex)>
    decreases |line|
  {
    if line == "" then [] else [(line[0], s)] + Marked(Step(s, line[0]), line[1..])
  }

  // The characters that compaction keeps.
  function KeptMarks(marks: seq<(char, Lex)>): seq<(char, Lex)> {
    if marks == [] then []
    else (if marks[0].1.quoted || !Blank(marks[0].0) then [marks[0]] else []) + KeptMarks(marks[1..])
  }

  /** Compaction drops blanks outside strings and nothing else, and every character that stays is read in
      the same state as before: no string boundary moves. */
  lemma {:induction false} CompactKeepsStates(s: Lex, line: string)
    requires s.escaped ==> s.quoted
    ensures Marked(s, CompactFrom(s, line)) == KeptMarks(Marked(s, line))
    decreases |line|
  {
    if line != "" {
      var c, t := line[0], CompactFrom(Step(s, line[0]), line[1..]);
      CompactKeepsStates(Step(s, c), line[1..]);
      assert Marked(s, line)[1..] == Marked(Step(s, c), line[1..]);
      if s.quoted || !Blank(c) {
        assert CompactFrom(s, line) == [c] + t && ([c] + t)[1..] == t;
      } else {
        assert Step(s, c) == s && CompactFrom(s, line) == t;
      }
    }
  }

  lemma {:induction false} CompactTwice(s: Lex, line: string)
    requires s.escaped ==> s.quoted
    ensures CompactFrom(s, CompactFrom(s, line)) == CompactFrom(s, line)
    decreases |line|
  {
    if line != "" {
      var c, t := line[0], CompactFrom(Step(s, line[0]), line[1..]);
      CompactTwice(Step(s, c), line[1..]);
      if s.quoted || !Blank(c) {
        assert CompactFrom(s, line) == [c] + t && ([c] + t)[1..] == t;
      } else {
        assert Step(s, c) == s && CompactFrom(s, line) == t;
      }
    }
  }

  /** Compaction is idempotent. */
  lemma CompactIdempotent(line: string)
    ensures Compact(Compact(line)) == Compact(line)
  {
    CompactTwice(OUTSIDE, line);
  }

  // ---------- Compaction and JSON text (RFC 8259, sections 2 and 7) ----------

  datatype StringChar = Raw(c: char) | Escape(c: char)

  datatype Segment = Between(text: string) | Quoted(chars: seq<StringChar>)

  // A character of a string: a backslash with the character it escapes, or any other but '"' and '\'.
  predicate CharOk(c: StringChar) {
    c.Raw? ==> c.c != '"' && c.c != '\\'
  }

  predicate SegmentOk(g: Segment) {
    match g
    case Between(text) => '"' !in text
    case Quoted(chars) => forall i | 0 <= i < |chars| :: CharOk(chars[i])
  }

  predicate JsonOk(gs: seq<Segment>) {
    forall i | 0 <= i < |gs| :: SegmentOk(gs[i])
  }

  function CharText(c: StringChar): string {
    match c case Raw(x) => [x] case Escape(x) => ['\\', x]
  }

  function CharsText(cs: seq<StringChar>): string {
    if cs == [] then "" else CharText(cs[0]) + CharsText(cs[1..])
  }

  function SegmentText(g: Segment): string {
    match g
    case Between(text) => text
    case Quoted(chars) => "\"" + CharsText(chars) + "\""
  }

  function Text(gs: seq<Segment>): string {
    if gs == [] then "" else SegmentText(gs[0]) + Text(gs[1..])
  }

  // Insignificant whitespace, less the newline, which ends a line.
  predicate JsonBlank(c: char) {
    c in {' ', '\t', '\r'}
  }

  function WithoutBlanks(s: string): string {
    if s == "" then "" else (if JsonBlank(s[0]) then "" else [s[0]]) + WithoutBlanks(s[1..])
  }

  function Stripped(g: Segment): Segment {
    match g case Between(text) => Between(WithoutBlanks(text)) case Quoted(_) => g
  }

  function StrippedAll(gs: seq<Segment>): seq<Segment> {
    if gs == [] then [] else [Stripped(gs[0])] + StrippedAll(gs[1..])
  }

  lemma {:induction false} CompactBetween(text: string, rest: string)
    requires '"' !in text
    ensures Compact(text + rest) == WithoutBlanks(text) + Compact(rest)
  {
    if text == "" {
      assert text + rest == rest;
    } else {
      CompactBetween(text[1..], rest);
      assert (text + rest)[1..] == text[1..] + rest;
      OutsideStep(text[0]);
    }
  }

  lemma OutsideStep(c: char)
    requires c != '"'
    ensures Step(OUTSIDE, c) == OUTSIDE && (Blank(c) <==> JsonBlank(c))
  {
  }

  lemma CompactChar(c: StringChar, tail: string)
    requires CharOk(c)
    ensures CompactFrom(Lex(true, false), CharText(c) + tail) == CharText(c) + CompactFrom(Lex(true, false), tail)
  {
    match c {
      case Raw(x) => assert ([x] + tail)[1..] == tail;
      case Escape(x) =>
        assert (['\\', x] + tail)[1..] == [x] + tail && ([x] + tail)[1..] == tail;
        assert CompactFrom(Lex(true, true), [x] + tail) == [x] + CompactFrom(Lex(true, false), tail);
    }
  }

  lemma Regroup(a: string, b: string, c: string, d: string)
    ensures (a + b) + c == a + (b + c) && (a + b) + d == a + (b + d)
  {
  }

  lemma {:induction false} CompactChars(cs: seq<StringChar>, rest: string)
    requires forall i :: 0 <= i < |cs| ==> CharOk(cs[i])
    ensures CompactFrom(Lex(true, false), CharsText(cs) + rest) == CharsText(cs) + CompactFrom(Lex(true, false), rest)
  {
    if cs == [] {
      assert CharsText(cs) + rest == rest;
    } else {
      var head, tail := CharText(cs[0]), CharsText(cs[1..]);
      CompactChars(cs[1..], rest);
      CompactChar(cs[0], tail + rest);
      Regroup(head, tail, rest, CompactFrom(Lex(true, false), rest));
    }
  }

  lemma CompactQuoted(chars: seq<StringChar>, rest: string)
    requires forall i :: 0 <= i < |chars| ==> CharOk(chars[i])
    ensures Compact(SegmentText(Quoted(chars)) + rest) == SegmentText(Quoted(chars)) + Compact(rest)
  {
    var q := CharsText(chars);
    QuoteStays(OUTSIDE, q + ("\"" + rest));
    QuoteStays(Lex(true, false), rest);
    CompactChars(chars, "\"" + rest);
    InQuotes(q, rest);
    InQuotes(q, Compact(rest));
  }

  lemma InQuotes(q: string, rest: string)
    ensures ("\"" + q + "\"") + rest == "\"" + (q + ("\"" + rest))
  {
  }

  // A quote that is not escaped opens or closes a string.
  lemma QuoteStays(s: Lex, rest: string)
    requires !s.escaped
    ensures CompactFrom(s, "\"" + rest) == "\"" + CompactFrom(Lex(!s.quoted, false), rest)
  {
    assert ("\"" + rest)[1..] == rest;
  }

  /** On JSON text, compaction strips the blanks between the strings and leaves every string as it is. */
  lemma CompactJson(gs: seq<Segment>)
    requires JsonOk(gs)
    ensures Compact(Text(gs)) == Text(StrippedAll(gs))
  {
    CompactText(gs, Closed);
    assert Text(gs) + "" == Text(gs) && Text(StrippedAll(gs)) + "" == Text(StrippedAll(gs));
  }

  // How a line ends: between strings, or inside one, perhaps just behind a backslash.
  datatype End = Closed | Open(chars: seq<StringChar>, dangling: bool)

  predicate EndOk(e: End) {
    e.Open? ==> forall i | 0 <= i < |e.chars| :: CharOk(e.chars[i])
  }

  function EndText(e: End): string {
    match e case Closed => "" case Open(chars, dangling) => "\"" + CharsText(chars) + if dangling then "\\" else ""
  }

  lemma CompactOpen(e: End)
    requires EndOk(e)
    ensures Compact(EndText(e)) == EndText(e)
  {
    if e.Open? {
      var last := if e.dangling then "\\" else "";
      assert EndText(e) == "\"" + (CharsText(e.chars) + last);
      QuoteStays(OUTSIDE, CharsText(e.chars) + last);
      CompactChars(e.chars, last);
      assert CompactFrom(Lex(true, false), last) == last;
    }
  }

  /** Of any line, JSON or not: blanks between strings go, and every other character stays. */
  lemma {:induction false} CompactText(gs: seq<Segment>, e: End)
    requires JsonOk(gs) && EndOk(e)
    ensures Compact(Text(gs) + EndText(e)) == Text(StrippedAll(gs)) + EndText(e)
  {
    if gs == [] {
      CompactOpen(e);
      assert Text(gs) + EndText(e) == EndText(e);
    } else {
      JsonTail(gs);
      CompactText(gs[1..], e);
      CompactSegment(gs[0], Text(gs[1..]) + EndText(e));
      TextSplits(gs, EndText(e));
      StrippedSplits(gs, EndText(e));
    }
  }

  lemma JsonTail(gs: seq<Segment>)
    requires JsonOk(gs) && gs != []
    ensures SegmentOk(gs[0]) && JsonOk(gs[1..])
  {
    assert SegmentOk(gs[0]);
    assert forall i :: 0 <= i < |gs[1..]| ==> gs[1..][i] == gs[i + 1];
  }

  lemma TextSplits(gs: seq<Segment>, tail: string)
    requires gs != []
    ensures Text(gs) + tail == SegmentText(gs[0]) + (Text(gs[1..]) + tail)
  {
  }

  lemma StrippedSplits(gs: seq<Segment>, tail: string)
    requires gs != []
    ensures Text(StrippedAll(gs)) + tail == SegmentText(Stripped(gs[0])) + (Text(StrippedAll(gs[1..])) + tail)
  {
    assert StrippedAll(gs)[1..] == StrippedAll(gs[1..]);
    TextSplits(StrippedAll(gs), tail);
  }

  lemma CompactSegment(g: Segment, rest: string)
    requires SegmentOk(g)
    ensures Compact(SegmentText(g) + rest) == SegmentText(Stripped(g)) + Compact(rest)
  {
    match g {
      case Between(text) => CompactBetween(text, rest);
      case Quoted(chars) => CompactQuoted(chars, rest);
    }
  }

  // The characters of a string up to its end, if it ends.
  lemma {:induction false} StringSplits(s: string)
    returns (chars: seq<StringChar>, closed: bool, dangling: bool, rest: string)
    ensures forall i :: 0 <= i < |chars| ==> CharOk(chars[i])
    ensures s == CharsText(chars) + if closed then ("\"" + rest) else if dangling then "\\" else ""
    ensures |rest| <= |s|
    decreases |s|
  {
    chars, closed, dangling, rest := [], false, false, "";
    if s == "" {
    } else if s[0] == '"' {
      closed, rest := true, s[1..];
    } else if s[0] == '\\' && |s| == 1 {
      dangling := true;
    } else {
      var c := if s[0] == '\\' then Escape(s[1]) else Raw(s[0]);
      var tail := if s[0] == '\\' then s[2..] else s[1..];
      chars, closed, dangling, rest := StringSplits(tail);
      assert s == CharText(c) + tail;
      assert ([c] + chars)[1..] == chars;
      chars := [c] + chars;
    }
  }

  lemma TwoMore(text: string, chars: seq<StringChar>, gs: seq<Segment>)
    requires '"' !in text && (forall i :: 0 <= i < |chars| ==> CharOk(chars[i])) && JsonOk(gs)
    ensures JsonOk([Between(text), Quoted(chars)] + gs)
    ensures Text([Between(text), Quoted(chars)] + gs) == text + ("\"" + CharsText(chars) + "\"") + Text(gs)
  {
    var all := [Between(text), Quoted(chars)] + gs;
    assert all[1..] == [Quoted(chars)] + gs && ([Quoted(chars)] + gs)[1..] == gs;
    assert forall i :: 0 <= i < |all| ==> all[i] == if i == 0 then Between(text) else if i == 1 then Quoted(chars)
           else gs[i - 2];
  }

  lemma Assemble(a: string, q: string, r: string, x: string, y: string)
    requires r == x + y
    ensures a + ("\"" + (q + ("\"" + r))) == (a + ("\"" + q + "\"") + x) + y
  {
  }

  lemma OneText(text: string)
    requires '"' !in text
    ensures JsonOk([Between(text)]) && Text([Between(text)]) == text
  {
    var gs := [Between(text)];
    assert gs[1..] == [] && Text([]) == "";
    assert text + "" == text;
  }

  lemma QuoteFound(line: string) returns (n: nat)
    requires '"' in line
    ensures n < |line| && line == line[..n] + ("\"" + line[n + 1..]) && '"' !in line[..n]
  {
    n := IndexOf(line, '"');
  }

  /** Every line has that form, so CompactText says what compaction makes of any line. */
  lemma {:induction false} EveryLineSplits(line: string) returns (gs: seq<Segment>, e: End)
    ensures JsonOk(gs) && EndOk(e) && Text(gs) + EndText(e) == line
    decreases |line|
  {
    if '"' !in line {
      OneText(line);
      gs, e := [Between(line)], Closed;
    } else {
      var n := QuoteFound(line);
      var chars, closed, dangling, rest := StringSplits(line[n + 1..]);
      if closed {
        gs, e := EveryLineSplits(rest);
        TwoMore(line[..n], chars, gs);
        Assemble(line[..n], CharsText(chars), rest, Text(gs), EndText(e));
        gs := [Between(line[..n]), Quoted(chars)] + gs;
      } else {
        OneText(line[..n]);
        gs, e := [Between(line[..n])], Open(chars, dangling);
      }
    }
  }

  // ---------- Framing ----------

  /** What one complete line decides. */
  function Verdict(id: string, greeting: bool, line: string): Option<bool> {
    var compact := Compact(line);
    if greeting then
      if Contains(compact, "\"QMP\":{") then Some(true) else None
    else if Contains(compact, "\"id\":\"" + id + "\"") then
      Some(Contains(compact, "\"return\":") && !Contains(compact, "\"error\":"))
    else None
  }

  datatype Scanned = Answer(ok: bool) | Rest(pending: string)

  // The lines of `s` in order, up to the first that decides; what is left is the incomplete line.
  function Scan(id: string, greeting: bool, s: string): Scanned
    decreases |s|
  {
    if '\n' !in s then Rest(s)
    else
      var n := IndexOf(s, '\n');
      match Verdict(id, greeting, s[..n])
      case Some(ok) => Answer(ok)
      case None => Scan(id, greeting, s[n + 1..])
  }

  /** The answer of the unsplit stream: that of the first complete line that decides. */
  predicate Decides(id: string, greeting: bool, stream: string) {
    Scan(id, greeting, stream) == Answer(true)
  }

  // What the loop returns when `pending` is left over and `chunks` are still to come.
  predicate Replies(id: string, greeting: bool, pending: string, chunks: seq<string>)
    decreases |chunks|
  {
    |pending| < LIMIT && chunks != [] &&
    match Scan(id, greeting, pending + chunks[0])
    case Answer(ok) => ok
    case Rest(p) => Replies(id, greeting, p, chunks[1..])
  }

  /** ReadStopQmpReply with its two loops. */
  method ReadStopQmpReply(chunks: seq<string>, id: string, greeting: bool) returns (ok: bool)
    ensures ok == Replies(id, greeting, "", chunks)
  {
    var pending := "";
    var next := 0;
    assert chunks[0..] == chunks;
    while |pending| < 16384
      invariant next <= |chunks|
      invariant Replies(id, greeting, pending, chunks[next..]) == Replies(id, greeting, "", chunks)
      decreases |chunks| - next
    {
      if next == |chunks| {
        return false;
      }
      assert chunks[next..][0] == chunks[next] && chunks[next..][1..] == chunks[next + 1..];
      pending := pending + chunks[next];
      next := next + 1;
      ghost var whole := Scan(id, greeting, pending);
      while '\n' in pending
        invariant Scan(id, greeting, pending) == whole
        decreases |pending|
      {
        var newline := IndexOf(pending, '\n');
        var line := pending[..newline];
        pending := pending[newline + 1..];
        var compact := CompactLine(line);
        if greeting && Contains(compact, "\"QMP\":{") {
          return true;
        }
        if !greeting && Contains(compact, "\"id\":\"" + id + "\"") {
          return Contains(compact, "\"return\":") && !Contains(compact, "\"error\":");
        }
      }
    }
    return false;
  }

  function Flatten(chunks: seq<string>): string {
    if chunks == [] then "" else chunks[0] + Flatten(chunks[1..])
  }

  lemma FirstNewline(s: string, t: string)
    requires '\n' in s
    ensures '\n' in s + t && IndexOf(s + t, '\n') == IndexOf(s, '\n')
  {
    var n := IndexOf(s, '\n');
    assert (s + t)[n] == '\n';
    var m := IndexOf(s + t, '\n');
    assert forall i :: 0 <= i < n ==> s[..n][i] == s[i] == (s + t)[i];
    assert forall i :: 0 <= i < m ==> (s + t)[..m][i] == (s + t)[i];
  }

  // Scanning can be interrupted anywhere and taken up again with what was left over.
  lemma {:induction false} ScanResumes(id: string, greeting: bool, s: string, t: string)
    ensures Scan(id, greeting, s + t) ==
      match Scan(id, greeting, s) case Answer(ok) => Answer(ok) case Rest(p) => Scan(id, greeting, p + t)
    decreases |s|
  {
    if '\n' in s {
      var n := IndexOf(s, '\n');
      var line, rest := s[..n], s[n + 1..];
      assert s == line + ['\n'] + rest && s + t == line + ['\n'] + (rest + t);
      LineIsScanned(id, greeting, line, rest);
      LineIsScanned(id, greeting, line, rest + t);
      ScanResumes(id, greeting, rest, t);
    }
  }

  lemma SameFront(s: string, t: string, n: nat)
    requires n < |s|
    ensures (s + t)[..n] == s[..n]
    ensures (s + t)[n + 1..] == s[n + 1..] + t
  {
  }

  /** However the stream is split, and even where lines are too long: a reply is never accepted that the
      unsplit stream does not contain as its first deciding line. */
  lemma {:induction false} RepliesAreDecided(id: string, greeting: bool, pending: string, chunks: seq<string>)
    requires Replies(id, greeting, pending, chunks)
    ensures Decides(id, greeting, pending + Flatten(chunks))
    decreases |chunks|
  {
    var t := Flatten(chunks[1..]);
    assert pending + Flatten(chunks) == (pending + chunks[0]) + t;
    ScanResumes(id, greeting, pending + chunks[0], t);
    match Scan(id, greeting, pending + chunks[0]) {
      case Answer(_) =>
      case Rest(p) => RepliesAreDecided(id, greeting, p, chunks[1..]);
    }
  }

  /** Every line up to the first that decides is under `bound` bytes. */
  predicate LinesUnder(id: string, greeting: bool, s: string, bound: nat)
    decreases |s|
  {
    if '\n' !in s then |s| < bound
    else
      var n := IndexOf(s, '\n');
      n < bound && (Verdict(id, greeting, s[..n]).Some? || LinesUnder(id, greeting, s[n + 1..], bound))
  }

  predicate ShortLines(id: string, greeting: bool, s: string) {
    LinesUnder(id, greeting, s, LIMIT)
  }

  lemma {:induction false} ShortResumes(id: string, greeting: bool, s: string, t: string)
    requires ShortLines(id, greeting, s + t)
    ensures Scan(id, greeting, s).Rest? ==>
      ShortLines(id, greeting, Scan(id, greeting, s).pending + t) && '\n' !in Scan(id, greeting, s).pending
    decreases |s|
  {
    if '\n' in s {
      FirstNewline(s, t);
      var n := IndexOf(s, '\n');
      SameFront(s, t, n);
      if Verdict(id, greeting, s[..n]).None? { ShortResumes(id, greeting, s[n + 1..], t); }
    }
  }

  lemma PendingIsShort(id: string, greeting: bool, p: string, t: string)
    requires '\n' !in p && ShortLines(id, greeting, p + t)
    ensures |p| < LIMIT
  {
    var s := p + t;
    if '\n' in s {
      var n := IndexOf(s, '\n');
      assert forall i :: 0 <= i < |p| ==> s[i] == p[i] && s[i] != '\n';
    }
  }

  lemma {:induction false} ShortLinesReply(id: string, greeting: bool, pending: string, chunks: seq<string>)
    requires '\n' !in pending && ShortLines(id, greeting, pending + Flatten(chunks))
    ensures Replies(id, greeting, pending, chunks) == Decides(id, greeting, pending + Flatten(chunks))
    decreases |chunks|
  {
    PendingIsShort(id, greeting, pending, Flatten(chunks));
    if chunks == [] {
      assert pending + Flatten(chunks) == pending;
    } else {
      var t := Flatten(chunks[1..]);
      assert pending + Flatten(chunks) == (pending + chunks[0]) + t;
      ScanResumes(id, greeting, pending + chunks[0], t);
      ShortResumes(id, greeting, pending + chunks[0], t);
      match Scan(id, greeting, pending + chunks[0]) {
        case Answer(_) =>
        case Rest(p) => ShortLinesReply(id, greeting, p, chunks[1..]);
      }
    }
  }

  // The stream one byte at a time.
  function Bytewise(s: string): (chunks: seq<string>)
    ensures |chunks| == |s| && forall i :: 0 <= i < |s| ==> chunks[i] == [s[i]]
  {
    seq(|s|, i requires 0 <= i < |s| => [s[i]])
  }

  lemma {:induction false} BytewiseFlattens(s: string)
    ensures Flatten(Bytewise(s)) == s
  {
    if s != "" {
      assert Bytewise(s)[1..] == Bytewise(s[1..]);
      BytewiseFlattens(s[1..]);
      assert s == [s[0]] + s[1..];
    }
  }

  // A line that is too long is given up when it comes byte by byte.
  lemma {:induction false} LongLineIsLost(id: string, greeting: bool, p: string, s: string)
    requires '\n' !in p && |p| <= LIMIT && !ShortLines(id, greeting, p + s)
    ensures !Replies(id, greeting, p, Bytewise(s))
    decreases |s|
  {
    if |p| < LIMIT && s != "" {
      var q := p + [s[0]];
      assert p + s == q + s[1..];
      assert Bytewise(s)[1..] == Bytewise(s[1..]);
      if s[0] != '\n' {
        LongLineIsLost(id, greeting, q, s[1..]);
      } else {
        LineIsMeasured(id, greeting, p, s[1..], LIMIT);
        assert p + s == p + ['\n'] + s[1..] && q == p + ['\n'] + "";
        LineIsScanned(id, greeting, p, "");
        if Verdict(id, greeting, p).None? {
          assert "" + s[1..] == s[1..];
          LongLineIsLost(id, greeting, "", s[1..]);
        }
      }
    }
  }

  lemma LineIsScanned(id: string, greeting: bool, p: string, t: string)
    requires '\n' !in p
    ensures Scan(id, greeting, p + ['\n'] + t) ==
            match Verdict(id, greeting, p) case Some(ok) => Answer(ok) case None => Scan(id, greeting, t)
  {
    var s := p + ['\n'] + t;
    NewlineEnds(p, t);
    assert s[..|p|] == p && s[|p| + 1..] == t;
  }

  lemma LineIsMeasured(id: string, greeting: bool, p: string, t: string, bound: nat)
    requires '\n' !in p
    ensures LinesUnder(id, greeting, p + ['\n'] + t, bound)
            <==> |p| < bound && (Verdict(id, greeting, p).Some? || LinesUnder(id, greeting, t, bound))
  {
    var s := p + ['\n'] + t;
    NewlineEnds(p, t);
    assert s[..|p|] == p && s[|p| + 1..] == t;
  }

  lemma NewlineEnds(p: string, t: string)
    requires '\n' !in p
    ensures '\n' in p + ['\n'] + t && IndexOf(p + ['\n'] + t, '\n') == |p|
  {
    var s := p + ['\n'] + t;
    assert s[|p|] == '\n';
    var n := IndexOf(s, '\n');
    assert forall i :: 0 <= i < |p| ==> s[i] == p[i];
    assert forall i :: 0 <= i < n ==> s[..n][i] == s[i];
  }

  // ---------- What is accepted, line by line ----------

  /** s[lo..hi] is a complete line: a newline follows, and it starts behind one or at the start. */
  ghost predicate Line(s: string, lo: nat, hi: nat) {
    lo <= hi < |s| && s[hi] == '\n' && (forall k :: lo <= k < hi ==> s[k] != '\n') && (lo == 0 || s[lo - 1] == '\n')
  }

  // The line, without blanks between strings, has the text somewhere.
  ghost predicate LineHas(s: string, lo: nat, hi: nat, text: string) {
    Line(s, lo, hi) && exists a, b :: Surrounded(Compact(s[lo..hi]), a, text, b)
  }

  // The first line with the command's id says that it was done.
  ghost predicate Confirmed(s: string, id: string, lo: nat, hi: nat) {
    && LineHas(s, lo, hi, "\"id\":\"" + id + "\"")
    && LineHas(s, lo, hi, "\"return\":") && !LineHas(s, lo, hi, "\"error\":")
    && forall l: nat, h: nat {:trigger Line(s, l, h)} :: Line(s, l, h) && h < hi ==>
        !LineHas(s, l, h, "\"id\":\"" + id + "\"")
  }

  ghost predicate VerdictAt(id: string, greeting: bool, s: string, lo: nat, hi: nat, v: Option<bool>) {
    Line(s, lo, hi) && Verdict(id, greeting, s[lo..hi]) == v
  }

  // No line from `lo` on that ends before `end` decides.
  ghost predicate NoneDecides(id: string, greeting: bool, s: string, lo: nat, end: nat) {
    forall l: nat, h: nat {:trigger Line(s, l, h)} :: lo <= l && Line(s, l, h) && h < end ==>
      VerdictAt(id, greeting, s, l, h, None)
  }

  // s[lo..hi] is the first line from `lo` on.
  ghost predicate NextLine(s: string, lo: nat, hi: nat) {
    && Line(s, lo, hi) && s[lo..] == s[lo..hi] + ['\n'] + s[hi + 1..] && '\n' !in s[lo..hi]
    && forall l: nat, h: nat {:trigger Line(s, l, h)} :: lo <= l && Line(s, l, h) ==> (l == lo && h == hi) || hi < l
  }

  lemma LineIsNext(s: string, lo: nat, hi: nat)
    requires Line(s, lo, hi)
    ensures NextLine(s, lo, hi)
  {
  }

  lemma {:induction false} FindLine(s: string, lo: nat, k: nat) returns (hi: nat)
    requires LineStarts(s, lo) && lo <= k <= |s| && (forall j :: lo <= j < k ==> s[j] != '\n') && '\n' in s[k..]
    ensures Line(s, lo, hi)
    decreases |s| - k
  {
    if s[k] == '\n' {
      hi := k;
    } else {
      assert s[k..] == [s[k]] + s[k + 1..];
      hi := FindLine(s, lo, k + 1);
    }
  }

  predicate LineStarts(s: string, lo: nat) {
    lo <= |s| && (lo == 0 || s[lo - 1] == '\n')
  }

  // What scanning from `lo` on does with the first line.
  ghost predicate Next(id: string, greeting: bool, s: string, lo: nat, hi: nat) {
    && NextLine(s, lo, hi)
    && Scan(id, greeting, s[lo..]) ==
         match Verdict(id, greeting, s[lo..hi]) case Some(ok) => Answer(ok) case None => Scan(id, greeting, s[hi + 1..])
  }

  lemma OneLine(id: string, greeting: bool, s: string, lo: nat) returns (hi: nat)
    requires LineStarts(s, lo) && '\n' in s[lo..]
    ensures Next(id, greeting, s, lo, hi)
  {
    hi := FindLine(s, lo, lo);
    LineIsNext(s, lo, hi);
    LineIsScanned(id, greeting, s[lo..hi], s[hi + 1..]);
  }

  lemma NoLine(id: string, greeting: bool, s: string, lo: nat)
    requires lo <= |s| && '\n' !in s[lo..]
    ensures Scan(id, greeting, s[lo..]).Rest? && NoneDecides(id, greeting, s, lo, |s|)
  {
    forall k | lo <= k < |s| ensures s[k] != '\n' { assert s[lo..][k - lo] == s[k]; }
  }

  lemma OneMoreUndecided(id: string, greeting: bool, s: string, lo: nat, hi: nat, end: nat)
    requires Next(id, greeting, s, lo, hi) && VerdictAt(id, greeting, s, lo, hi, None)
    requires NoneDecides(id, greeting, s, hi + 1, end)
    ensures NoneDecides(id, greeting, s, lo, end)
  {
  }

  // What scanning from `lo` finds: the first line that decides.
  ghost predicate Found(id: string, greeting: bool, s: string, lo: nat, r: Scanned, l: nat, h: nat) {
    match r
    case Answer(ok) => lo <= l && VerdictAt(id, greeting, s, l, h, Some(ok)) && NoneDecides(id, greeting, s, lo, h)
    case Rest(_) => NoneDecides(id, greeting, s, lo, |s|)
  }

  ghost predicate FoundFrom(id: string, greeting: bool, s: string, lo: nat, l: nat, h: nat) {
    lo <= |s| && Found(id, greeting, s, lo, Scan(id, greeting, s[lo..]), l, h)
  }

  lemma FoundFurther(id: string, greeting: bool, s: string, lo: nat, hi: nat, l: nat, h: nat)
    requires Next(id, greeting, s, lo, hi) && VerdictAt(id, greeting, s, lo, hi, None)
    requires FoundFrom(id, greeting, s, hi + 1, l, h)
    ensures FoundFrom(id, greeting, s, lo, l, h)
  {
    OneMoreUndecided(id, greeting, s, lo, hi, if Scan(id, greeting, s[hi + 1..]).Answer? then h else |s|);
  }

  lemma FoundHere(id: string, greeting: bool, s: string, lo: nat, hi: nat)
    requires Next(id, greeting, s, lo, hi) && !VerdictAt(id, greeting, s, lo, hi, None)
    ensures FoundFrom(id, greeting, s, lo, lo, hi)
  {
  }

  lemma {:induction false} ScanFinds(id: string, greeting: bool, s: string, lo: nat) returns (l: nat, h: nat)
    requires LineStarts(s, lo)
    ensures FoundFrom(id, greeting, s, lo, l, h)
    decreases |s| - lo
  {
    if '\n' !in s[lo..] {
      NoLine(id, greeting, s, lo);
      l, h := 0, 0;
    } else {
      var hi := OneLine(id, greeting, s, lo);
      if VerdictAt(id, greeting, s, lo, hi, None) {
        l, h := ScanFinds(id, greeting, s, hi + 1);
        FoundFurther(id, greeting, s, lo, hi, l, h);
      } else {
        FoundHere(id, greeting, s, lo, hi);
        l, h := lo, hi;
      }
    }
  }

  lemma SameLine(s: string, l: nat, lo: nat, hi: nat)
    requires Line(s, l, hi) && Line(s, lo, hi)
    ensures l == lo
  {
  }

  lemma LineHasIff(s: string, lo: nat, hi: nat, text: string)
    requires Line(s, lo, hi)
    ensures LineHas(s, lo, hi, text) <==> Contains(Compact(s[lo..hi]), text)
  {
    ContainsIff(Compact(s[lo..hi]), text);
  }

  lemma VerdictOfCommand(id: string, s: string, lo: nat, hi: nat)
    requires Line(s, lo, hi)
    ensures Verdict(id, false, s[lo..hi]).Some? <==> LineHas(s, lo, hi, "\"id\":\"" + id + "\"")
    ensures Verdict(id, false, s[lo..hi]) == Some(true) <==>
      LineHas(s, lo, hi, "\"id\":\"" + id + "\"") && LineHas(s, lo, hi, "\"return\":")
          && !LineHas(s, lo, hi, "\"error\":")
  {
    LineHasIff(s, lo, hi, "\"id\":\"" + id + "\"");
    LineHasIff(s, lo, hi, "\"return\":");
    LineHasIff(s, lo, hi, "\"error\":");
  }

  lemma VerdictOfGreeting(id: string, s: string, lo: nat, hi: nat)
    requires Line(s, lo, hi)
    ensures Verdict(id, true, s[lo..hi]) == if LineHas(s, lo, hi, "\"QMP\":{") then Some(true) else None
  {
    LineHasIff(s, lo, hi, "\"QMP\":{");
  }

  lemma DecidesCommand(id: string, s: string)
    ensures Decides(id, false, s) <==> exists lo, hi :: Confirmed(s, id, lo, hi)
  {
    assert s[0..] == s;
    var l, h := ScanFinds(id, false, s, 0);
    if Decides(id, false, s) {
      VerdictOfCommand(id, s, l, h);
      forall a: nat, b: nat | Line(s, a, b) && b < h ensures !LineHas(s, a, b, "\"id\":\"" + id + "\"") {
        VerdictOfCommand(id, s, a, b);
      }
      assert Confirmed(s, id, l, h);
    }
    if lo, hi :| Confirmed(s, id, lo, hi) {
      VerdictOfCommand(id, s, lo, hi);
      assert VerdictAt(id, false, s, lo, hi, Some(true));
      if Scan(id, false, s).Answer? {
        VerdictOfCommand(id, s, l, h);
        if h == hi { SameLine(s, l, lo, hi); }
      }
    }
  }

  lemma DecidesGreeting(id: string, s: string)
    ensures Decides(id, true, s) <==> exists lo, hi :: LineHas(s, lo, hi, "\"QMP\":{")
  {
    assert s[0..] == s;
    var l, h := ScanFinds(id, true, s, 0);
    if Scan(id, true, s).Answer? { VerdictOfGreeting(id, s, l, h); }
    if lo, hi :| LineHas(s, lo, hi, "\"QMP\":{") { VerdictOfGreeting(id, s, lo, hi); }
  }

  predicate EndsAt(s: string, lo: nat, k: nat) {
    lo <= k < lo + 16384 && (k == |s| || (k < |s| && s[k] == '\n'))
  }

  // The line that starts at `lo`, complete or not, is under 16384 bytes.
  ghost predicate ShortAt(s: string, lo: nat)
    requires lo <= |s|
  {
    exists k :: EndsAt(s, lo, k)
  }

  // Every line, and what comes behind the last, is under 16384 bytes.
  ghost predicate EveryLineShort(s: string) {
    forall lo: nat :: LineStarts(s, lo) ==> ShortAt(s, lo)
  }

  lemma ShortTail(s: string, lo: nat)
    requires lo <= |s| && ShortAt(s, lo) && '\n' !in s[lo..]
    ensures |s[lo..]| < LIMIT
  {
    forall j | lo <= j < |s| ensures s[j] != '\n' { assert s[lo..][j - lo] == s[j]; }
    var k: nat :| EndsAt(s, lo, k);
  }

  lemma ShortHead(s: string, lo: nat, hi: nat)
    requires Line(s, lo, hi) && ShortAt(s, lo)
    ensures hi - lo < LIMIT
  {
    var k: nat :| EndsAt(s, lo, k);
  }

  // The line from `lo` on is short, and so are those behind it up to the deciding one.
  ghost predicate ShortFrom(id: string, greeting: bool, s: string, lo: nat) {
    lo <= |s| && ShortLines(id, greeting, s[lo..])
  }

  lemma ShortLine(id: string, greeting: bool, s: string, lo: nat) returns (hi: nat)
    requires LineStarts(s, lo) && '\n' in s[lo..] && ShortAt(s, lo)
    ensures LineStarts(s, hi + 1) && hi >= lo
    ensures ShortFrom(id, greeting, s, hi + 1) ==> ShortFrom(id, greeting, s, lo)
  {
    hi := FindLine(s, lo, lo);
    LineIsNext(s, lo, hi);
    LineIsMeasured(id, greeting, s[lo..hi], s[hi + 1..], LIMIT);
    ShortHead(s, lo, hi);
  }

  lemma ShortEnd(id: string, greeting: bool, s: string, lo: nat)
    requires lo <= |s| && '\n' !in s[lo..] && ShortAt(s, lo)
    ensures ShortFrom(id, greeting, s, lo)
  {
    ShortTail(s, lo);
  }

  // One line more.
  lemma ShortStep(id: string, greeting: bool, s: string, lo: nat) returns (next: nat)
    requires EveryLineShort(s) && LineStarts(s, lo)
    ensures next > lo
    ensures ShortFrom(id, greeting, s, lo) || (LineStarts(s, next)
            && (ShortFrom(id, greeting, s, next) ==> ShortFrom(id, greeting, s, lo)))
  {
    assert ShortAt(s, lo);
    if '\n' in s[lo..] {
      var hi := ShortLine(id, greeting, s, lo);
      next := hi + 1;
    } else {
      ShortEnd(id, greeting, s, lo);
      next := lo + 1;
    }
  }

  lemma {:induction false} EveryLineShortIsShort(id: string, greeting: bool, s: string, lo: nat)
    requires EveryLineShort(s) && LineStarts(s, lo)
    ensures ShortFrom(id, greeting, s, lo)
    decreases |s| - lo
  {
    var next := ShortStep(id, greeting, s, lo);
    if LineStarts(s, next) { EveryLineShortIsShort(id, greeting, s, next); }
  }

  /** Of the reply to a command: however the stream is received, if its lines are short, it is accepted if and
      only if the first complete line with the command's id has a "return" and no "error". */
  lemma CommandAcceptedIff(id: string, chunks: seq<string>)
    requires EveryLineShort(Flatten(chunks))
    ensures Replies(id, false, "", chunks) <==> exists lo, hi :: Confirmed(Flatten(chunks), id, lo, hi)
  {
    var s := Flatten(chunks);
    assert "" + s == s && s[0..] == s;
    EveryLineShortIsShort(id, false, s, 0);
    ShortLinesReply(id, false, "", chunks);
    DecidesCommand(id, s);
  }

  /** Of the greeting: if and only if some complete line has "QMP" with an object. */
  lemma GreetingAcceptedIff(id: string, chunks: seq<string>)
    requires EveryLineShort(Flatten(chunks))
    ensures Replies(id, true, "", chunks) <==> exists lo, hi :: LineHas(Flatten(chunks), lo, hi, "\"QMP\":{")
  {
    var s := Flatten(chunks);
    assert "" + s == s && s[0..] == s;
    EveryLineShortIsShort(id, true, s, 0);
    ShortLinesReply(id, true, "", chunks);
    DecidesGreeting(id, s);
  }

  // ---------- What recv can deliver ----------

  const PIECE := 1024

  predicate Received(chunks: seq<string>) {
    forall i | 0 <= i < |chunks| :: 1 <= |chunks[i]| <= PIECE
  }

  ghost predicate AgreesWithUnsplit(id: string, greeting: bool, stream: string) {
    forall chunks :: Received(chunks) && Flatten(chunks) == stream ==>
      Replies(id, greeting, "", chunks) == Decides(id, greeting, stream)
  }

  /** Every way of receiving the stream gives the answer of the unsplit stream, if and only if that answer
      is no, or every line up to the deciding one is under 16384 bytes. */
  lemma AgreesWithUnsplitIff(id: string, greeting: bool, stream: string)
    ensures AgreesWithUnsplit(id, greeting, stream)
            <==> (Decides(id, greeting, stream) ==> ShortLines(id, greeting, stream))
  {
    assert "" + stream == stream;
    if Decides(id, greeting, stream) ==> ShortLines(id, greeting, stream) {
      forall chunks | Received(chunks) && Flatten(chunks) == stream
        ensures Replies(id, greeting, "", chunks) == Decides(id, greeting, stream)
      {
        if Decides(id, greeting, stream) {
          ShortLinesReply(id, greeting, "", chunks);
        } else if Replies(id, greeting, "", chunks) {
          RepliesAreDecided(id, greeting, "", chunks);
        }
      }
    } else {
      BytewiseFlattens(stream);
      LongLineIsLost(id, greeting, "", stream);
      assert Received(Bytewise(stream)) && Flatten(Bytewise(stream)) == stream;
    }
  }

  // The first length that no line in an accepted stream can have: a piece is read while fewer than
  // LIMIT bytes are pending, and its last byte is the newline.
  const TOO_LONG := LIMIT + PIECE - 1

  lemma {:induction false} LinesJoin(id: string, greeting: bool, s: string, t: string, bound: nat)
    requires |s| <= bound
    requires Scan(id, greeting, s).Rest? ==> LinesUnder(id, greeting, Scan(id, greeting, s).pending + t, bound)
    ensures LinesUnder(id, greeting, s + t, bound)
    decreases |s|
  {
    if '\n' in s {
      FirstNewline(s, t);
      var n := IndexOf(s, '\n');
      SameFront(s, t, n);
      if Verdict(id, greeting, s[..n]).None? { LinesJoin(id, greeting, s[n + 1..], t, bound); }
    }
  }

  /** However it is received, a stream with a line of 17407 bytes or more up to the deciding one is not accepted. */
  lemma {:induction false} AcceptedLinesFit(id: string, greeting: bool, pending: string, chunks: seq<string>)
    requires Received(chunks) && Replies(id, greeting, pending, chunks)
    ensures LinesUnder(id, greeting, pending + Flatten(chunks), TOO_LONG)
    decreases |chunks|
  {
    var s, t := pending + chunks[0], Flatten(chunks[1..]);
    assert pending + Flatten(chunks) == s + t;
    if Scan(id, greeting, s).Rest? { AcceptedLinesFit(id, greeting, Scan(id, greeting, s).pending, chunks[1..]); }
    LinesJoin(id, greeting, s, t, TOO_LONG);
  }

  // The split that gets as much as possible through: a line comes byte by byte for as long as it may, and
  // its end in one piece; from a line that cannot get through on, everything comes byte by byte.
  function BestSplit(s: string): seq<string>
    decreases |s|
  {
    if '\n' !in s || IndexOf(s, '\n') >= TOO_LONG then Bytewise(s)
    else
      var n := IndexOf(s, '\n');
      FrontSplit(s, n) + BestSplit(s[n + 1..])
  }

  // The first line and its newline.
  function FrontSplit(s: string, n: nat): seq<string>
    requires n < |s|
  {
    var k := if n < LIMIT then n else LIMIT - 1;
    Bytewise(s[..k]) + [s[k..n + 1]]
  }

  lemma {:induction false} FlattenAppend(a: seq<string>, b: seq<string>)
    ensures Flatten(a + b) == Flatten(a) + Flatten(b)
  {
    if a == [] {
      assert a + b == b;
    } else {
      assert (a + b)[1..] == a[1..] + b;
      FlattenAppend(a[1..], b);
    }
  }

  lemma ReceivedAppend(a: seq<string>, b: seq<string>)
    requires Received(a) && Received(b)
    ensures Received(a + b)
  {
  }

  lemma BytewiseReceived(s: string)
    ensures Received(Bytewise(s))
  {
  }

  lemma FrontFlattens(s: string, n: nat)
    requires n < |s|
    ensures Flatten(FrontSplit(s, n)) == s[..n + 1]
  {
    var k := if n < LIMIT then n else LIMIT - 1;
    var piece := [s[k..n + 1]];
    BytewiseFlattens(s[..k]);
    FlattenAppend(Bytewise(s[..k]), piece);
    assert piece[1..] == [];
    assert s[..k] + s[k..n + 1] == s[..n + 1];
  }

  lemma {:induction false} BestSplitFlattens(s: string)
    ensures Flatten(BestSplit(s)) == s
    decreases |s|
  {
    if '\n' !in s || IndexOf(s, '\n') >= TOO_LONG {
      BytewiseFlattens(s);
    } else {
      var n := IndexOf(s, '\n');
      FrontFlattens(s, n);
      BestSplitFlattens(s[n + 1..]);
      FlattenAppend(FrontSplit(s, n), BestSplit(s[n + 1..]));
      assert s == s[..n + 1] + s[n + 1..];
    }
  }

  lemma FrontReceived(s: string, n: nat)
    requires n < |s| && n < TOO_LONG
    ensures Received(FrontSplit(s, n))
  {
    var k := if n < LIMIT then n else LIMIT - 1;
    BytewiseReceived(s[..k]);
    ReceivedAppend(Bytewise(s[..k]), [s[k..n + 1]]);
  }

  lemma {:induction false} BestSplitReceived(s: string)
    ensures Received(BestSplit(s))
    decreases |s|
  {
    if '\n' !in s || IndexOf(s, '\n') >= TOO_LONG {
      BytewiseReceived(s);
    } else {
      var n := IndexOf(s, '\n');
      FrontReceived(s, n);
      BestSplitReceived(s[n + 1..]);
      ReceivedAppend(FrontSplit(s, n), BestSplit(s[n + 1..]));
    }
  }

  // Bytes that do not end a line are only collected.
  lemma {:induction false} BytesAreCollected(id: string, greeting: bool, p: string, q: string, rest: seq<string>)
    requires '\n' !in p && '\n' !in q && |p + q| < LIMIT
    ensures Replies(id, greeting, p, Bytewise(q) + rest) == Replies(id, greeting, p + q, rest)
    decreases |q|
  {
    if q == "" {
      assert Bytewise(q) + rest == rest && p + q == p;
    } else {
      var chunks := Bytewise(q) + rest;
      assert chunks[0] == [q[0]] && chunks[1..] == Bytewise(q[1..]) + rest;
      BytesAreCollected(id, greeting, p + [q[0]], q[1..], rest);
      assert (p + [q[0]]) + q[1..] == p + q;
    }
  }

  lemma FrontArrives(id: string, greeting: bool, s: string, n: nat, rest: seq<string>)
    requires '\n' in s && n == IndexOf(s, '\n')
    ensures Replies(id, greeting, "", FrontSplit(s, n) + rest) == Arrives(id, greeting, s[..n], rest)
  {
    var k := if n < LIMIT then n else LIMIT - 1;
    FrontPieces(s, n, k, rest);
    BytesAreCollected(id, greeting, "", s[..k], [s[k..n + 1]] + rest);
    EndArrives(id, greeting, s[..n], s[..k], s[k..n + 1], rest);
  }

  lemma FrontPieces(s: string, n: nat, k: nat, rest: seq<string>)
    requires '\n' in s && n == IndexOf(s, '\n') && k == if n < LIMIT then n else LIMIT - 1
    ensures FrontSplit(s, n) + rest == Bytewise(s[..k]) + ([s[k..n + 1]] + rest)
    ensures '\n' !in s[..k] && "" + s[..k] == s[..k] && s[..k] + s[k..n + 1] == s[..n] + ['\n']
  {
    assert forall i :: 0 <= i < k ==> s[..k][i] == s[..n][i];
  }

  predicate Arrives(id: string, greeting: bool, line: string, rest: seq<string>) {
    match Verdict(id, greeting, line)
    case Some(ok) => ok
    case None => Replies(id, greeting, "", rest)
  }

  lemma EndArrives(id: string, greeting: bool, line: string, p: string, piece: string, rest: seq<string>)
    requires '\n' !in line && |p| < LIMIT && p + piece == line + ['\n']
    ensures Replies(id, greeting, p, [piece] + rest) == Arrives(id, greeting, line, rest)
  {
    var chunks := [piece] + rest;
    assert chunks[0] == piece && chunks[1..] == rest;
    assert line + ['\n'] + "" == line + ['\n'];
    LineIsScanned(id, greeting, line, "");
  }

  /** A stream whose lines are under 17407 bytes up to the deciding one can be received with the answer it
      has unsplit. */
  lemma {:induction false} BestSplitDecides(id: string, greeting: bool, s: string)
    requires Decides(id, greeting, s) && LinesUnder(id, greeting, s, TOO_LONG)
    ensures Replies(id, greeting, "", BestSplit(s))
    decreases |s|
  {
    var n := IndexOf(s, '\n');
    FrontArrives(id, greeting, s, n, BestSplit(s[n + 1..]));
    if Verdict(id, greeting, s[..n]).None? { BestSplitDecides(id, greeting, s[n + 1..]); }
  }

  // Two ways of receiving the same stream that give different answers.
  ghost predicate Differ(id: string, greeting: bool, stream: string, a: seq<string>, b: seq<string>) {
    && Received(a) && Received(b) && Flatten(a) == stream && Flatten(b) == stream
    && Replies(id, greeting, "", a) && !Replies(id, greeting, "", b)
  }

  ghost predicate DependsOnSplit(id: string, greeting: bool, stream: string) {
    exists a, b :: Differ(id, greeting, stream, a, b)
  }

  /** The answer depends on how the stream is received if and only if the unsplit stream is accepted, some
      line up to the deciding one has 16384 bytes or more, and all of them have fewer than 17407. */
  lemma DependsOnSplitIff(id: string, greeting: bool, stream: string)
    ensures DependsOnSplit(id, greeting, stream)
            <==> Decides(id, greeting, stream) && !ShortLines(id, greeting, stream)
                 && LinesUnder(id, greeting, stream, TOO_LONG)
  {
    assert "" + stream == stream;
    if DependsOnSplit(id, greeting, stream) {
      var a, b :| Differ(id, greeting, stream, a, b);
      RepliesAreDecided(id, greeting, "", a);
      AcceptedLinesFit(id, greeting, "", a);
      if ShortLines(id, greeting, stream) { ShortLinesReply(id, greeting, "", b); }
    }
    if Decides(id, greeting, stream) && !ShortLines(id, greeting, stream)
        && LinesUnder(id, greeting, stream, TOO_LONG) {
      var a, b := BestSplit(stream), Bytewise(stream);
      BestSplitFlattens(stream);
      BestSplitReceived(stream);
      BestSplitDecides(id, greeting, stream);
      BytewiseFlattens(stream);
      BytewiseReceived(stream);
      LongLineIsLost(id, greeting, "", stream);
      assert Differ(id, greeting, stream, a, b);
    }
  }

  function Blanks(n: nat): (s: string)
    ensures |s| == n && '\n' !in s && '"' !in s
  {
    if n == 0 then "" else " " + Blanks(n - 1)
  }

  lemma {:induction false} BlanksVanish(n: nat)
    ensures WithoutBlanks(Blanks(n)) == ""
  {
    if n > 0 {
      assert (" " + Blanks(n - 1))[1..] == Blanks(n - 1);
      BlanksVanish(n - 1);
    }
  }

  const GREETING := "\"QMP\":{"

  lemma GreetingStays()
    ensures Compact(GREETING) == GREETING
  {
    KeyStays();
    CompactOne(Lex(true, false), 'Q', "MP\":{");
    CompactOne(OUTSIDE, '"', "QMP\":{");
  }

  lemma KeyStays()
    ensures CompactFrom(Lex(true, false), "MP\":{") == "MP\":{"
  {
    var inside := Lex(true, false);
    ColonStays();
    CompactOne(inside, '"', ":{");
    CompactOne(inside, 'P', "\":{");
    CompactOne(inside, 'M', "P\":{");
  }

  lemma ColonStays()
    ensures CompactFrom(OUTSIDE, ":{") == ":{"
  {
    CompactOne(OUTSIDE, '{', "");
    CompactOne(OUTSIDE, ':', "{");
  }

  // A character that is kept, in front of a text that is already compact.
  lemma CompactOne(s: Lex, c: char, t: string)
    requires (s.quoted || !Blank(c)) && CompactFrom(Step(s, c), t) == t
    ensures CompactFrom(s, [c] + t) == [c] + t
  {
    assert ([c] + t)[1..] == t;
  }

  lemma GreetingDecides(n: nat)
    ensures Verdict("", true, Blanks(n) + GREETING) == Some(true)
  {
    BlanksVanish(n);
    CompactBetween(Blanks(n), GREETING);
    GreetingStays();
    var compact := Compact(Blanks(n) + GREETING);
    assert "" + GREETING == GREETING;
    assert compact == GREETING && compact[0..|GREETING|] == GREETING;
    assert OccursAt(compact, GREETING, 0);
  }

  /** Such streams exist: a greeting behind blanks, in a line of 16384 to 17406 bytes, is found or lost
      depending on how it is received.  Shorter lines are always found, longer ones never. */
  lemma LongGreetingDepends(n: nat)
    ensures DependsOnSplit("", true, Blanks(n) + GREETING + ['\n']) <==> LIMIT <= n + |GREETING| < TOO_LONG
  {
    var line := Blanks(n) + GREETING;
    assert line + ['\n'] + "" == line + ['\n'];
    LineIsScanned("", true, line, "");
    LineIsMeasured("", true, line, "", LIMIT);
    LineIsMeasured("", true, line, "", TOO_LONG);
    GreetingDecides(n);
    DependsOnSplitIff("", true, line + ['\n']);
  }
}
