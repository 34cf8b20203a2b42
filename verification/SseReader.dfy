/**
 The incremental server-sent-events reader of the web client.

 The reader appends every decoded chunk to a buffer, splits the buffer on blank
 lines, keeps the unfinished tail and interprets each finished block. This module
 models that loop and relates it to three independent readings of the same text:
 splitting the whole stream once, reading it line by line, and the algorithm of
 sections 9.2.5 and 9.2.6 of the WHATWG HTML Standard.
 */
module SseReader {

  /** What the reader hands to `dispatch`: the event name and the joined data lines. */
  datatype Frame = Frame(name: string, data: string)

  /** The name and data lines gathered so far while interpreting a block. */
  datatype Draft = Draft(name: string, data: seq<string>)

  /** What one line contributes. */
  datatype Field = EventField(value: string) | DataField(value: string) | NoField

  const INITIAL := Draft("message", [])

  // ---------------------------------------------------------------------------
  // JavaScript string operations
  // ---------------------------------------------------------------------------

  /** Puts text in front of the first part. */
  function Prefix(p: string, parts: seq<string>): (r: seq<string>)
    requires |parts| > 0
    ensures |r| == |parts|
  {
    [p + parts[0]] + parts[1..]
  }

  lemma PrefixTwice(p: string, q: string, parts: seq<string>)
    requires |parts| > 0
    ensures Prefix(p, Prefix(q, parts)) == Prefix(p + q, parts)
  {
    assert p + (q + parts[0]) == p + q + parts[0];
    assert Prefix(q, parts)[1..] == parts[1..];
  }

  /** `s.split('\n')`. */
  function Lines(s: string): (r: seq<string>)
    ensures |r| > 0
  {
    if s == "" then [""]
    else
      var rest := Lines(s[1..]);
      if s[0] == '\n' then [""] + rest else Prefix([s[0]], rest)
  }

  /** `s.split('\n\n')`: leftmost, non-overlapping occurrences. */
  function Blocks(s: string): (r: seq<string>)
    ensures |r| > 0
  {
    if s == "" then [""]
    else if |s| >= 2 && s[0] == '\n' && s[1] == '\n' then [""] + Blocks(s[2..])
    else
      Prefix([s[0]], Blocks(s[1..]))
  }

  /** `parts.join('\n')`. */
  function Join(parts: seq<string>): string {
    if |parts| == 0 then ""
    else if |parts| == 1 then parts[0]
    else parts[0] + "\n" + Join(parts[1..])
  }

  /** The characters `String.prototype.trim` removes (WhiteSpace and LineTerminator). */
  predicate IsSpace(c: char) {
    || c == '\t' || c == '\n' || c == '\U{0B}' || c == '\U{0C}' || c == '\r' || c == ' '
    || c == '\U{A0}' || c == '\U{1680}' || '\U{2000}' <= c <= '\U{200A}'
    || c == '\U{2028}' || c == '\U{2029}' || c == '\U{202F}' || c == '\U{205F}'
    || c == '\U{3000}' || c == '\U{FEFF}'
  }

  /** The same by code point, as the tables of ECMA-262 list them. */
  lemma SpaceExactly(c: char)
    ensures IsSpace(c) <==>
              || c as int in {9, 10, 11, 12, 13, 32, 160, 5760, 8232, 8233, 8239, 8287, 12288, 65279}
              || 8192 <= c as int <= 8202
  {
  }

  function TrimStart(s: string): string {
    if s != "" && IsSpace(s[0]) then TrimStart(s[1..]) else s
  }

  function TrimEnd(s: string): string {
    if s != "" && IsSpace(s[|s| - 1]) then TrimEnd(s[..|s| - 1]) else s
  }

  /** `s.trim()`. */
  function Trim(s: string): string {
    TrimEnd(TrimStart(s))
  }

  /** Trimming removes white space at both ends and nothing else, all of it. */
  lemma TrimExactly(s: string) returns (before: string, after: string)
    ensures s == before + Trim(s) + after
    ensures (forall i :: 0 <= i < |before| ==> IsSpace(before[i])) && (forall i :: 0 <= i < |after| ==> IsSpace(after[i]))
    ensures Trim(s) != "" ==> !IsSpace(Trim(s)[0]) && !IsSpace(Trim(s)[|Trim(s)| - 1])
  {
    before := TrimmedStart(s);
    after := TrimmedEnd(TrimStart(s));
  }

  lemma {:induction false} TrimmedStart(s: string) returns (before: string)
    ensures s == before + TrimStart(s) && forall i :: 0 <= i < |before| ==> IsSpace(before[i])
    ensures TrimStart(s) != "" ==> !IsSpace(TrimStart(s)[0])
  {
    before := "";
    if s != "" && IsSpace(s[0]) {
      before := TrimmedStart(s[1..]);
      assert s == [s[0]] + s[1..];
      before := [s[0]] + before;
    }
  }

  lemma {:induction false} TrimmedEnd(s: string) returns (after: string)
    ensures s == TrimEnd(s) + after && forall i :: 0 <= i < |after| ==> IsSpace(after[i])
    ensures TrimEnd(s) != "" ==> !IsSpace(TrimEnd(s)[|TrimEnd(s)| - 1]) && TrimEnd(s)[0] == s[0]
  {
    after := "";
    if s != "" && IsSpace(s[|s| - 1]) {
      after := TrimmedEnd(s[..|s| - 1]);
      assert s == s[..|s| - 1] + [s[|s| - 1]];
      after := after + [s[|s| - 1]];
    }
  }

  function LastBlock(blocks: seq<string>): string
    requires |blocks| > 0
  {
    blocks[|blocks| - 1]
  }

  function Finished(blocks: seq<string>): seq<string>
    requires |blocks| > 0
  {
    blocks[..|blocks| - 1]
  }

  // ---------------------------------------------------------------------------
  // Interpreting one line and one block
  // ---------------------------------------------------------------------------

  function ClientField(line: string): Field {
    if "event:" <= line then EventField(Trim(line[6..]))
    else if "data:" <= line then DataField(Trim(line[5..]))
    else NoField
  }

  function Apply(d: Draft, f: Field): Draft {
    match f
    case EventField(v) => d.(name := v)
    case DataField(v) => d.(data := d.data + [v])
    case NoField => d
  }

  function ApplyLines(d: Draft, lines: seq<string>): Draft
    decreases |lines|
  {
    if lines == [] then d else ApplyLines(Apply(d, ClientField(lines[0])), lines[1..])
  }

  /** A block is dispatched only when it carried at least one data line. */
  function Emit(d: Draft): seq<Frame> {
    if d.data == [] then [] else [Frame(d.name, Join(d.data))]
  }

  function FramesOf(blocks: seq<string>): seq<Frame> {
    if blocks == [] then []
    else Emit(ApplyLines(INITIAL, Lines(blocks[0]))) + FramesOf(blocks[1..])
  }

  /** The frames found by splitting the whole text once. */
  function WholeStream(s: string): seq<Frame> {
    FramesOf(Finished(Blocks(s)))
  }

  // ---------------------------------------------------------------------------
  // The reader itself
  // ---------------------------------------------------------------------------

  function Concat(chunks: seq<string>): string {
    if chunks == [] then "" else Concat(chunks[..|chunks| - 1]) + chunks[|chunks| - 1]
  }

  /** The two inner loops: interpret one finished block. */
  method ReadBlock(block: string) returns (frames: seq<Frame>)
    ensures frames == Emit(ApplyLines(INITIAL, Lines(block)))
  {
    var eventName := "message";
    var dataLines: seq<string> := [];
    var lines := Lines(block);
    var i := 0;
    while i < |lines|
      invariant 0 <= i <= |lines|
      invariant ApplyLines(Draft(eventName, dataLines), lines[i..]) == ApplyLines(INITIAL, lines)
    {
      var line := lines[i];
      assert lines[i..][1..] == lines[i + 1..];
      if "event:" <= line {
        eventName := Trim(line[6..]);
      } else if "data:" <= line {
        dataLines := dataLines + [Trim(line[5..])];
      }
      i := i + 1;
    }
    if |dataLines| > 0 {
      frames := [Frame(eventName, Join(dataLines))];
    } else {
      frames := [];
    }
  }

  /** The loop over the finished blocks of one buffer. */
  method ReadBlocks(blocks: seq<string>) returns (frames: seq<Frame>)
    ensures frames == FramesOf(blocks)
  {
    frames := [];
    var k := 0;
    while k < |blocks|
      invariant 0 <= k <= |blocks|
      invariant frames + FramesOf(blocks[k..]) == FramesOf(blocks)
    {
      var more := ReadBlock(blocks[k]);
      assert blocks[k..][1..] == blocks[k + 1..];
      frames := frames + more;
      k := k + 1;
    }
  }

  /**
   The reading loop. Whatever the chunk boundaries, it dispatches exactly the
   frames of the concatenated text, in order, and keeps exactly its unfinished tail.
   */
  method ReadStream(chunks: seq<string>) returns (dispatched: seq<Frame>, buffer: string)
    ensures dispatched == WholeStream(Concat(chunks))
    ensures buffer == LastBlock(Blocks(Concat(chunks)))
  {
    buffer, dispatched := "", [];
    var n := 0;
    while n < |chunks|
      invariant 0 <= n <= |chunks|
      invariant dispatched == WholeStream(Concat(chunks[..n]))
      invariant buffer == LastBlock(Blocks(Concat(chunks[..n])))
    {
      ghost var before := Concat(chunks[..n]);
      assert chunks[..n + 1][..n] == chunks[..n];
      Extend(before, chunks[n]);
      buffer := buffer + chunks[n];
      var blocks := Blocks(buffer);
      buffer := LastBlock(blocks);
      var frames := ReadBlocks(Finished(blocks));
      dispatched := dispatched + frames;
      n := n + 1;
    }
    assert chunks[..n] == chunks;
  }

  /** One more chunk adds the frames of the extended tail and leaves its own tail. */
  lemma Extend(before: string, chunk: string)
    ensures var blocks := Blocks(LastBlock(Blocks(before)) + chunk);
            && WholeStream(before + chunk) == WholeStream(before) + FramesOf(Finished(blocks))
            && LastBlock(Blocks(before + chunk)) == LastBlock(blocks)
  {
    var blocks := Blocks(LastBlock(Blocks(before)) + chunk);
    SplitAppend(before, chunk);
    assert Finished(Blocks(before + chunk)) == Finished(Blocks(before)) + Finished(blocks);
    FramesAppend(Finished(Blocks(before)), Finished(blocks));
  }

  lemma {:induction false} FramesAppend(a: seq<string>, b: seq<string>)
    ensures FramesOf(a + b) == FramesOf(a) + FramesOf(b)
  {
    if a == [] {
      assert a + b == b;
    } else {
      assert (a + b)[0] == a[0] && (a + b)[1..] == a[1..] + b;
      FramesAppend(a[1..], b);
      Regroup(Emit(ApplyLines(INITIAL, Lines(a[0]))), FramesOf(a[1..]), FramesOf(b));
    }
  }

  lemma Regroup(a: seq<Frame>, b: seq<Frame>, c: seq<Frame>)
    ensures a + (b + c) == (a + b) + c
  {
  }

  /** A text without a blank line is one block. */
  lemma {:induction false} OneBlock(a: string)
    requires |Blocks(a)| == 1
    ensures Blocks(a) == [a]
  {
    if a != "" {
      OneBlock(a[1..]);
      assert [a[0]] + a[1..] == a;
    }
  }

  lemma PrefixAppend(p: string, a: seq<string>, b: seq<string>)
    requires |a| > 1 && |b| > 0
    ensures Prefix(p, Finished(a) + b) == Finished(Prefix(p, a)) + b
    ensures LastBlock(Prefix(p, a)) == LastBlock(a)
  {
    assert (Finished(a) + b)[1..] == Finished(a)[1..] + b;
    assert Prefix(p, a)[0] == p + a[0];
  }

  /** Splitting commutes with appending: only the unfinished tail is affected. */
  lemma {:induction false} SplitAppend(a: string, b: string)
    ensures Blocks(a + b) == Finished(Blocks(a)) + Blocks(LastBlock(Blocks(a)) + b)
  {
    if |Blocks(a)| == 1 {
      OneBlock(a);
    } else if a[0] == '\n' && |a| > 1 && a[1] == '\n' {
      assert (a + b)[2..] == a[2..] + b;
      SplitAppend(a[2..], b);
    } else {
      assert (a + b)[1..] == a[1..] + b;
      SplitAppend(a[1..], b);
      PrefixAppend([a[0]], Blocks(a[1..]), Blocks(LastBlock(Blocks(a[1..])) + b));
    }
  }

  // ---------------------------------------------------------------------------
  // Reading line by line
  // ---------------------------------------------------------------------------

  /** The newline-terminated lines of a text. */
  function CompleteLines(s: string): seq<string> {
    Finished(Lines(s))
  }

  /** Read line by line: a blank line ends the current event. */
  function ByLine(lines: seq<string>, d: Draft): seq<Frame>
    decreases |lines|
  {
    if lines == [] then []
    else if lines[0] == "" then Emit(d) + ByLine(lines[1..], INITIAL)
    else ByLine(lines[1..], Apply(d, ClientField(lines[0])))
  }

  /** The frames of a text that continues a block, just after one of its newlines. */
  ghost function Continuing(d: Draft, t: string): seq<Frame> {
    var blocks := Blocks("\n" + t);
    if |blocks| == 1 then []
    else Emit(ApplyLines(d, Lines(blocks[0]))) + FramesOf(Finished(blocks[1..]))
  }

  lemma LinesOfNewline(t: string)
    ensures Lines("\n" + t) == [""] + Lines(t)
  {
    assert ("\n" + t)[1..] == t;
  }

  lemma {:induction false} LinesOfLine(line: string, t: string)
    requires '\n' !in line
    ensures Lines(line + "\n" + t) == [line] + Lines(t)
  {
    if line == "" {
      assert line + "\n" + t == "\n" + t;
      LinesOfNewline(t);
    } else {
      assert (line + "\n" + t)[1..] == line[1..] + "\n" + t;
      LinesOfLine(line[1..], t);
      assert [line[0]] + line[1..] == line;
    }
  }

  lemma {:induction false} LinesOfUnbroken(t: string)
    requires '\n' !in t
    ensures Lines(t) == [t]
  {
    if t != "" {
      LinesOfUnbroken(t[1..]);
      assert [t[0]] + t[1..] == t;
    }
  }

  lemma {:induction false} BlocksOfUnbroken(t: string)
    requires '\n' !in t
    ensures Blocks(t) == [t]
    ensures Blocks("\n" + t) == ["\n" + t]
  {
    assert ("\n" + t)[1..] == t;
    if t != "" {
      BlocksOfUnbroken(t[1..]);
      assert [t[0]] + t[1..] == t;
    }
  }

  /** A newline-free, non-empty line is glued to the block that follows it. */
  lemma {:induction false} BlocksOfLine(line: string, t: string)
    requires line != "" && '\n' !in line
    ensures Blocks(line + "\n" + t) == Prefix(line, Blocks("\n" + t))
  {
    var s := line + "\n" + t;
    if |line| == 1 {
      assert s[1..] == "\n" + t && line == [s[0]];
    } else {
      assert s[1..] == line[1..] + "\n" + t;
      BlocksOfLine(line[1..], t);
      PrefixTwice([line[0]], line[1..], Blocks("\n" + t));
      assert [line[0]] + line[1..] == line;
    }
  }

  lemma BlocksOfBrokenLine(line: string, t: string)
    requires line != "" && '\n' !in line
    ensures Blocks("\n" + line + "\n" + t) == Prefix("\n" + line, Blocks("\n" + t))
  {
    var s := line + "\n" + t;
    assert "\n" + s == "\n" + line + "\n" + t;
    assert ("\n" + s)[1..] == s;
    BlocksOfLine(line, t);
    PrefixTwice("\n", line, Blocks("\n" + t));
  }

  /** A newline at the start of a block changes nothing. */
  lemma LeadingNewline(x: string)
    ensures WholeStream("\n" + x) == WholeStream(x)
    decreases |x|
  {
    assert ("\n" + x)[1..] == x;
    if x != "" && x[0] == '\n' {
      assert ("\n" + x)[2..] == x[1..];
      assert x == "\n" + x[1..];
      LeadingNewline(x[1..]);
      assert Lines("") == [""];
      assert Finished([""] + Blocks(x[1..])) == [""] + Finished(Blocks(x[1..]));
      assert ApplyLines(INITIAL, [""]) == INITIAL;
    } else {
      var b := Blocks(x);
      assert Blocks("\n" + x) == ["\n" + b[0]] + b[1..];
      if |b| > 1 {
        LinesOfNewline(b[0]);
        assert ([""] + Lines(b[0]))[1..] == Lines(b[0]);
        assert Finished(Blocks("\n" + x)) == ["\n" + b[0]] + Finished(b)[1..];
      }
    }
  }

  lemma WholeIsContinuing(x: string)
    ensures WholeStream("\n" + x) == Continuing(INITIAL, x)
  {
    var blocks := Blocks("\n" + x);
    if |blocks| > 1 {
      assert Finished(blocks)[0] == blocks[0];
      assert Finished(blocks)[1..] == Finished(blocks[1..]);
    }
  }

  function FirstNewline(t: string): (i: nat)
    requires '\n' in t
    ensures i < |t| && t[i] == '\n' && '\n' !in t[..i]
  {
    if t[0] == '\n' then 0 else 1 + FirstNewline(t[1..])
  }

  lemma {:induction false} ContinuingByLine(d: Draft, t: string)
    ensures Continuing(d, t) == ByLine(CompleteLines(t), d)
    decreases |t|
  {
    if '\n' !in t {
      BlocksOfUnbroken(t);
      LinesOfUnbroken(t);
    } else if t[0] == '\n' {
      var x := t[1..];
      assert t == "\n" + x;
      BlankLine(d, x);
      LinesOfNewline(x);
      assert CompleteLines(t) == [""] + CompleteLines(x);
      ContinuingByLine(INITIAL, x);
      WholeIsContinuing(x);
      LeadingNewline(x);
    } else {
      var i := FirstNewline(t);
      var line, rest := t[..i], t[i + 1..];
      assert t == line + "\n" + rest;
      LinesOfLine(line, rest);
      assert CompleteLines(t) == [line] + CompleteLines(rest);
      NextLine(d, line, rest);
      ContinuingByLine(Apply(d, ClientField(line)), rest);
    }
  }

  lemma BlankLine(d: Draft, x: string)
    ensures Continuing(d, "\n" + x) == Emit(d) + WholeStream(x)
  {
    assert ("\n" + ("\n" + x))[2..] == x;
    assert Lines("") == [""];
    assert ApplyLines(d, [""]) == d;
  }

  lemma NextLine(d: Draft, line: string, rest: string)
    requires line != "" && '\n' !in line
    ensures Continuing(d, line + "\n" + rest) == Continuing(Apply(d, ClientField(line)), rest)
  {
    BlocksOfBrokenLine(line, rest);
    assert "\n" + (line + "\n" + rest) == "\n" + line + "\n" + rest;
    FirstBlock(rest);
    NextInBlock(d, line, Blocks("\n" + rest)[0]);
  }

  /** The text after a newline starts a block that is empty or begins with it. */
  lemma FirstBlock(rest: string)
    ensures var b := Blocks("\n" + rest)[0]; b == "" || b == "\n" + b[1..]
  {
    if !(rest != "" && rest[0] == '\n') {
      assert ("\n" + rest)[1..] == rest;
    }
  }

  lemma NextInBlock(d: Draft, line: string, b: string)
    requires '\n' !in line && (b == "" || b == "\n" + b[1..])
    ensures ApplyLines(d, Lines("\n" + line + b)) == ApplyLines(Apply(d, ClientField(line)), Lines(b))
  {
    var d' := Apply(d, ClientField(line));
    if b == "" {
      assert "\n" + line + b == "\n" + line;
      LinesOfNewline(line);
      LinesOfUnbroken(line);
      TwoLines(d, line, []);
      assert [""] + ([line] + []) == ["", line];
      assert ApplyLines(d', [""]) == d';
    } else {
      var y := b[1..];
      LinesOfNewline(y);
      assert "\n" + line + b == "\n" + (line + "\n" + y);
      LinesOfNewline(line + "\n" + y);
      LinesOfLine(line, y);
      TwoLines(d, line, Lines(y));
      assert ([""] + Lines(y))[1..] == Lines(y);
    }
  }

  lemma TwoLines(d: Draft, line: string, more: seq<string>)
    ensures ApplyLines(d, [""] + ([line] + more)) == ApplyLines(Apply(d, ClientField(line)), more)
  {
    assert ([""] + ([line] + more))[1..] == [line] + more;
    assert ([line] + more)[1..] == more;
  }

  /**
   Block splitting and line-by-line reading agree on every text, including runs of
   more than two newlines, leading newlines and unfinished tails.
   */
  lemma BlocksAgreeWithLines(s: string)
    ensures WholeStream(s) == ByLine(CompleteLines(s), INITIAL)
  {
    LeadingNewline(s);
    WholeIsContinuing(s);
    ContinuingByLine(INITIAL, s);
  }

  // ---------------------------------------------------------------------------
  // The standard's algorithm
  // ---------------------------------------------------------------------------

  function DropOneSpace(v: string): string {
    if " " <= v then v[1..] else v
  }

  /** Index of the first colon, or the length of the line. */
  function Colon(line: string): (i: nat)
    ensures i <= |line|
    ensures ':' !in line[..i]
    ensures i < |line| ==> line[i] == ':'
  {
    if line == "" || line[0] == ':' then 0 else 1 + Colon(line[1..])
  }

  /** The lines of section 9.2.5: each ends at a CRLF pair, a lone LF or a lone CR. The last
      part is what follows the last line end. */
  function StandardSplit(s: string): (r: seq<string>)
    ensures |r| > 0
  {
    if s == "" then [""]
    else if |s| >= 2 && s[0] == '\r' && s[1] == '\n' then [""] + StandardSplit(s[2..])
    else if s[0] == '\n' || s[0] == '\r' then [""] + StandardSplit(s[1..])
    else Prefix([s[0]], StandardSplit(s[1..]))
  }

  function StandardLines(s: string): seq<string> {
    Finished(StandardSplit(s))
  }

  /** Field processing of section 9.2.6 for the two fields this client reads. */
  function StandardField(line: string): Field {
    var i := Colon(line);
    var field := line[..i];
    var value := if i < |line| then DropOneSpace(line[i + 1..]) else "";
    if field == "event" then EventField(value)
    else if field == "data" then DataField(value)
    else NoField
  }

  /** The standard's event-type buffer starts empty; an empty one means "message". */
  function StandardEmit(d: Draft): seq<Frame> {
    if d.data == [] then []
    else [Frame(if d.name == "" then "message" else d.name, Join(d.data))]
  }

  /** Interpreting the lines, section 9.2.6. */
  function Standard(lines: seq<string>, d: Draft): seq<Frame>
    decreases |lines|
  {
    if lines == [] then []
    else if lines[0] == "" then StandardEmit(d) + Standard(lines[1..], Draft("", []))
    else Standard(lines[1..], Apply(d, StandardField(lines[0])))
  }

  /** What the standard's algorithm dispatches for a whole stream. */
  function StandardStream(s: string): seq<Frame> {
    Standard(StandardLines(s), Draft("", []))
  }

  /** The lines on which the client's shortcuts are harmless. */
  predicate Plain(line: string) {
    && line != "event" && line != "data"
    && ("event:" <= line ==> Trim(line[6..]) == DropOneSpace(line[6..]) != "")
    && ("data:" <= line ==> Trim(line[5..]) == DropOneSpace(line[5..]))
  }

  /** No white space at either end. */
  predicate Neat(u: string) {
    u != "" ==> !IsSpace(u[0]) && !IsSpace(u[|u| - 1])
  }

  lemma NeatIsTrimmed(u: string)
    requires Neat(u)
    ensures Trim(u) == u && Trim(" " + u) == u
  {
    assert (" " + u)[1..] == u;
    assert TrimStart(" " + u) == TrimStart(u) == u;
  }

  lemma NeatExactly(v: string)
    ensures Trim(v) == DropOneSpace(v) <==> exists u :: Neat(u) && (v == u || v == " " + u)
  {
    if Trim(v) == DropOneSpace(v) {
      var before, after := TrimExactly(v);
      assert Neat(Trim(v)) && (v == Trim(v) || v == " " + Trim(v));
    }
    if u :| Neat(u) && (v == u || v == " " + u) {
      NeatIsTrimmed(u);
    }
  }

  /** In words: a data line is plain if and only if its value has no white space at either end,
      except for one space after the colon; an event line, if also the name is not empty. */
  lemma PlainInWords(v: string)
    ensures Plain("data:" + v) <==> exists u :: Neat(u) && (v == u || v == " " + u)
    ensures Plain("event:" + v) <==> exists u :: Neat(u) && u != "" && (v == u || v == " " + u)
  {
    var data, event := "data:" + v, "event:" + v;
    assert data[5..] == v && event[6..] == v && data[0] == 'd' && event[0] == 'e';
    assert |data| > 4 && |event| > 5;
    NeatExactly(v);
    forall u | Neat(u) && (v == u || v == " " + u) ensures Trim(v) == u {
      NeatIsTrimmed(u);
    }
  }

  lemma {:induction false} ColonAt(line: string, i: nat)
    requires i < |line| && line[i] == ':' && ':' !in line[..i]
    ensures Colon(line) == i
  {
    if i > 0 {
      assert line[..i][0] == line[0];
      assert line[1..][..i - 1] == line[..i][1..];
      ColonAt(line[1..], i - 1);
    }
  }

  lemma FieldName(line: string, name: string)
    requires ':' !in name
    ensures name + ":" <= line <==> Colon(line) < |line| && line[..Colon(line)] == name
  {
    if name + ":" <= line {
      StartsWithName(line, name);
    }
    var i := Colon(line);
    if i < |line| && line[..i] == name {
      assert line[..i + 1] == name + ":";
    }
  }

  lemma StartsWithName(line: string, name: string)
    requires ':' !in name && name + ":" <= line
    ensures Colon(line) == |name| < |line| && line[..|name|] == name
  {
    assert line[..|name|] == (name + ":")[..|name|] == name;
    assert line[|name|] == (name + ":")[|name|];
    ColonAt(line, |name|);
  }

  /** One line at a time: the client reads a line as the standard does, and never
      stores an empty event name, exactly when the line is plain. */
  lemma PlainIsExact(line: string)
    ensures Plain(line) <==>
            ClientField(line) == StandardField(line) && ClientField(line) != EventField("")
  {
    FieldName(line, "event");
    FieldName(line, "data");
    assert "event" + ":" == "event:" && "data" + ":" == "data:";
    var i := Colon(line);
    if i == |line| {
      assert line[..i] == line;
    }
    assert "event:" <= line ==> !("data:" <= line);
  }

  lemma {:induction false} StandardFrom(lines: seq<string>, client: Draft, standard: Draft)
    requires forall k :: 0 <= k < |lines| ==> Plain(lines[k])
    requires client.data == standard.data && client.name != ""
    requires standard.name == client.name || (standard.name == "" && client.name == "message")
    ensures ByLine(lines, client) == Standard(lines, standard)
    decreases |lines|
  {
    if lines != [] {
      PlainIsExact(lines[0]);
      assert forall k :: 0 <= k < |lines[1..]| ==> lines[1..][k] == lines[k + 1];
      if lines[0] == "" {
        StandardFrom(lines[1..], INITIAL, Draft("", []));
      } else {
        var f := ClientField(lines[0]);
        StandardFrom(lines[1..], Apply(client, f), Apply(standard, f));
      }
    }
  }

  /** A line without the carriage return of a CRLF end. */
  function DropCr(line: string): string {
    if line != "" && line[|line| - 1] == '\r' then line[..|line| - 1] else line
  }

  function DropAll(lines: seq<string>): (r: seq<string>)
    ensures |r| == |lines| && forall k :: 0 <= k < |r| ==> r[k] == DropCr(lines[k])
  {
    if lines == [] then [] else [DropCr(lines[0])] + DropAll(lines[1..])
  }

  /** An LF-ended line, perhaps ended by CRLF, that is plain, has no other carriage return,
      and is not a blank line ended by CRLF. */
  predicate Tame(line: string) {
    Plain(DropCr(line)) && '\r' !in DropCr(line) && line != "\r"
  }

  /** In words, for a line with no carriage return of its own. */
  lemma TameInWords(line: string)
    requires '\r' !in line
    ensures Tame(line) <==> Plain(line)
    ensures Tame(line + "\r") <==> Plain(line) && line != ""
  {
    assert (line + "\r")[..|line|] == line;
    assert |line + "\r"| == 1 <==> line == "";
  }

  predicate TameText(s: string) {
    && (forall k :: 0 <= k < |CompleteLines(s)| ==> Tame(CompleteLines(s)[k]))
    && '\r' !in LastBlock(Lines(s))
  }

  lemma OnlyCr(line: string)
    requires line != "" && line[0] == '\r' && '\r' !in DropCr(line)
    ensures line == "\r"
  {
  }

  lemma {:induction false} StandardOfLine(line: string, t: string)
    requires '\n' !in line && '\r' !in DropCr(line)
    ensures StandardSplit(line + "\n" + t) == [DropCr(line)] + StandardSplit(t)
  {
    var s := line + "\n" + t;
    if line == "" {
      assert s[1..] == t;
    } else if line[0] == '\r' {
      OnlyCr(line);
      assert s[2..] == t;
    } else {
      var rest := line[1..];
      assert s[1..] == rest + "\n" + t;
      assert DropCr(line) == [line[0]] + DropCr(rest);
      StandardOfLine(rest, t);
    }
  }

  lemma {:induction false} StandardOfUnbroken(t: string)
    requires '\n' !in t && '\r' !in t
    ensures StandardSplit(t) == [t]
  {
    if t != "" {
      StandardOfUnbroken(t[1..]);
      assert [t[0]] + t[1..] == t;
    }
  }

  lemma {:induction false} StandardLinesOfTame(s: string)
    requires TameText(s)
    ensures StandardLines(s) == DropAll(CompleteLines(s))
    decreases |s|
  {
    if '\n' !in s {
      LinesOfUnbroken(s);
      StandardOfUnbroken(s);
    } else {
      var i := FirstNewline(s);
      var line, rest := s[..i], s[i + 1..];
      assert s == line + "\n" + rest;
      LinesOfLine(line, rest);
      assert CompleteLines(s) == [line] + CompleteLines(rest);
      assert Tame(CompleteLines(s)[0]);
      assert forall k :: 0 <= k < |CompleteLines(rest)| ==> CompleteLines(rest)[k] == CompleteLines(s)[k + 1];
      StandardOfLine(line, rest);
      StandardLinesOfTame(rest);
      assert StandardLines(s) == [DropCr(line)] + StandardLines(rest);
    }
  }

  lemma TrimStartCr(v: string)
    ensures TrimStart(v + "\r") == (if TrimStart(v) == "" then "" else TrimStart(v) + "\r")
  {
    if v == "" {
      assert (v + "\r")[1..] == "";
    } else if IsSpace(v[0]) {
      assert (v + "\r")[1..] == v[1..] + "\r";
      TrimStartCr(v[1..]);
    }
  }

  lemma TrimCr(v: string)
    ensures Trim(v + "\r") == Trim(v)
  {
    TrimStartCr(v);
    var t := TrimStart(v);
    if t != "" {
      assert (t + "\r")[..|t|] == t;
    }
  }

  /** The client does not see the carriage return of a CRLF end. */
  lemma CrIsTrimmed(line: string)
    requires '\r' !in DropCr(line)
    ensures ClientField(line) == ClientField(DropCr(line))
  {
    var m := DropCr(line);
    if m != line {
      assert line == m + "\r";
      StartsSame(m, "event:");
      StartsSame(m, "data:");
      if "event:" <= m {
        assert line[6..] == m[6..] + "\r";
        TrimCr(m[6..]);
      }
      if "data:" <= m {
        assert line[5..] == m[5..] + "\r";
        TrimCr(m[5..]);
      }
    }
  }

  lemma StartsSame(m: string, prefix: string)
    requires prefix != "" && '\r' !in prefix
    ensures prefix <= m + "\r" <==> prefix <= m
  {
    var l := m + "\r";
    assert |prefix| == |l| ==> prefix[|m|] != l[|m|];
    if |prefix| <= |m| {
      assert l[..|prefix|] == m[..|prefix|];
    }
  }

  lemma {:induction false} ByLineDropsCr(lines: seq<string>, d: Draft)
    requires forall k :: 0 <= k < |lines| ==> Tame(lines[k])
    ensures ByLine(lines, d) == ByLine(DropAll(lines), d)
    decreases |lines|
  {
    if lines != [] {
      var rest := lines[1..];
      assert DropAll(lines)[1..] == DropAll(rest);
      assert forall k :: 0 <= k < |rest| ==> rest[k] == lines[k + 1];
      CrIsTrimmed(lines[0]);
      if lines[0] == "" {
        ByLineDropsCr(rest, INITIAL);
      } else {
        assert DropCr(lines[0]) != "";
        ByLineDropsCr(rest, Apply(d, ClientField(lines[0])));
      }
    }
  }

  /**
   On every stream of tame lines, cut into chunks in any way, the reader dispatches exactly
   the events the standard's algorithm dispatches, with the standard's own line ends.
   */
  lemma AgreesWithStandard(chunks: seq<string>)
    requires TameText(Concat(chunks))
    ensures WholeStream(Concat(chunks)) == StandardStream(Concat(chunks))
  {
    var s := Concat(chunks);
    BlocksAgreeWithLines(s);
    StandardLinesOfTame(s);
    ByLineDropsCr(CompleteLines(s), INITIAL);
    StandardFrom(DropAll(CompleteLines(s)), INITIAL, Draft("", []));
  }

  /** Three lines and a blank one. */
  function Text(first: string, line: string, last: string): string {
    first + "\n" + (line + "\n" + (last + "\n" + ("" + "\n" + "")))
  }

  lemma TextLines(first: string, line: string, last: string)
    requires '\n' !in first && '\n' !in line && '\n' !in last
    ensures CompleteLines(Text(first, line, last)) == [first, line, last, ""]
  {
    var end := "" + "\n" + "";
    LinesOfLine("", "");
    LinesOfLine(last, end);
    LinesOfLine(line, last + "\n" + end);
    LinesOfLine(first, line + "\n" + (last + "\n" + end));
  }

  lemma TextStandardLines(first: string, line: string, last: string)
    requires '\n' !in first && '\n' !in line && '\n' !in last
    requires '\r' !in first && '\r' !in line && '\r' !in last
    ensures StandardLines(Text(first, line, last)) == [first, line, last, ""]
  {
    var end := "" + "\n" + "";
    StandardOfLine("", "");
    StandardOfLine(last, end);
    StandardOfLine(line, last + "\n" + end);
    StandardOfLine(first, line + "\n" + (last + "\n" + end));
  }

  /** Both readings of a printed field, for values without surrounding space. */
  lemma PrintedStandard(v: string)
    requires Clean(v) && v != ""
    ensures StandardField("data: " + v) == DataField(v) == ClientField("data: " + v)
    ensures StandardField("event: " + v) == EventField(v) == ClientField("event: " + v)
  {
    PrintedFields(v);
    var data, event := "data: " + v, "event: " + v;
    assert "data" + ":" <= data && "event" + ":" <= event by {
      assert data[..5] == "data:" && event[..6] == "event:";
    }
    StartsWithName(data, "data");
    StartsWithName(event, "event");
    assert data[5..] == event[6..] == " " + v;
    assert (" " + v)[1..] == v;
  }

  lemma UnspacedIsClean(v: string)
    requires v != "" && '\n' !in v && !IsSpace(v[0]) && !IsSpace(v[|v| - 1])
    ensures Clean(v)
  {
  }

  /** What a line does to the event around it, for the client and for the standard. */
  lemma ClientAround(first: string, line: string, last: string, a: string, x: string)
    requires first != "" && last != "" && ClientField(first) == EventField(a) && ClientField(last) == DataField(x)
    ensures ByLine([first, line, last, ""], INITIAL)
            == Emit(Apply(if line == "" then INITIAL else Apply(Draft(a, []), ClientField(line)), DataField(x)))
  {
    var l4, l3, l2, l1 := [""], [last, ""], [line, last, ""], [first, line, last, ""];
    assert l1[1..] == l2 && l2[1..] == l3 && l3[1..] == l4 && l4[1..] == [];
    var d := if line == "" then INITIAL else Apply(Draft(a, []), ClientField(line));
    assert ByLine(l4, Apply(d, DataField(x))) == Emit(Apply(d, DataField(x)));
    assert ByLine(l3, d) == ByLine(l4, Apply(d, DataField(x)));
    assert ByLine(l2, Draft(a, [])) == ByLine(l3, d);
  }

  lemma StandardAround(first: string, line: string, last: string, a: string, x: string)
    requires first != "" && last != "" && StandardField(first) == EventField(a) && StandardField(last) == DataField(x)
    ensures Standard([first, line, last, ""], Draft("", []))
            == StandardEmit(Apply(if line == "" then Draft("", []) else Apply(Draft(a, []), StandardField(line)), DataField(x)))
  {
    var l4, l3, l2, l1 := [""], [last, ""], [line, last, ""], [first, line, last, ""];
    assert l1[1..] == l2 && l2[1..] == l3 && l3[1..] == l4 && l4[1..] == [];
    var d := if line == "" then Draft("", []) else Apply(Draft(a, []), StandardField(line));
    assert Standard(l4, Apply(d, DataField(x))) == StandardEmit(Apply(d, DataField(x)));
    assert Standard(l3, d) == Standard(l4, Apply(d, DataField(x)));
    assert Standard(l2, Draft(a, [])) == Standard(l3, d);
  }

  /** The fields differ only in these ways. */
  lemma FieldPairs(line: string)
    ensures var c, f := ClientField(line), StandardField(line);
            && (c.EventField? ==> f.EventField? && (c != f ==> f.value != ""))
            && (c.DataField? ==> f.DataField?)
            && (c.NoField? && f.EventField? ==> f.value == "")
            && (c.NoField? && f.DataField? ==> f.value == "")
  {
    FieldName(line, "event");
    FieldName(line, "data");
    assert "event" + ":" == "event:" && "data" + ":" == "data:";
    if "event:" <= line {
      var w := line[6..];
      if DropOneSpace(w) == "" {
        assert w == "" || w == " ";
        assert " "[1..] == "" && TrimStart("") == "" && TrimStart(" ") == "";
        assert Trim(w) == "";
      }
    }
    if Colon(line) == |line| {
      assert line[..Colon(line)] == line;
    }
  }

  lemma JoinTwo(v: string, x: string)
    ensures Join([v, x]) == v + ("\n" + x) && Join([x]) == x
  {
    assert [v, x][1..] == [x];
    assert v + "\n" + x == v + ("\n" + x);
  }

  lemma SameFirst(u: string, v: string, x: string)
    ensures u + x == v + x <==> u == v
  {
    if u + x == v + x {
      assert u == (u + x)[..|u|] && v == (v + x)[..|v|];
    }
  }

  /** Around a line, the two readings agree exactly when its fields do. */
  lemma SameEvent(c: Field, f: Field, a: string, x: string)
    requires a != "" && a != "message"
    requires c.EventField? ==> f.EventField? && (c != f ==> f.value != "")
    requires c.DataField? ==> f.DataField?
    requires (c.NoField? && f.EventField? ==> f.value == "") && (c.NoField? && f.DataField? ==> f.value == "")
    ensures Emit(Apply(Apply(Draft(a, []), c), DataField(x)))
         == StandardEmit(Apply(Apply(Draft(a, []), f), DataField(x)))
        <==> c == f && c != EventField("")
  {
    assert [] + [x] == [x];
    if f.DataField? {
      var v := if c.DataField? then c.value else "";
      JoinTwo(v, x);
      JoinTwo(f.value, x);
      assert ([] + [v]) + [x] == [v, x] && ([] + [f.value]) + [x] == [f.value, x];
      SameFirst(v, f.value, "\n" + x);
    }
  }

  /** A named event with one data line, and some line between the two. */
  ghost predicate Framed(first: string, line: string, last: string, a: string, x: string) {
    && '\n' !in first && '\n' !in line && '\n' !in last && '\r' !in first && '\r' !in line && '\r' !in last
    && first != "" && last != "" && a != "" && a != "message"
    && ClientField(first) == EventField(a) == StandardField(first)
    && ClientField(last) == DataField(x) == StandardField(last)
  }

  lemma ReadFramed(first: string, line: string, last: string, a: string, x: string)
    requires Framed(first, line, last, a, x)
    ensures WholeStream(Text(first, line, last))
            == Emit(Apply(if line == "" then INITIAL else Apply(Draft(a, []), ClientField(line)), DataField(x)))
    ensures StandardStream(Text(first, line, last))
            == StandardEmit(Apply(if line == "" then Draft("", []) else Apply(Draft(a, []), StandardField(line)), DataField(x)))
  {
    TextLines(first, line, last);
    TextStandardLines(first, line, last);
    BlocksAgreeWithLines(Text(first, line, last));
    ClientAround(first, line, last, a, x);
    StandardAround(first, line, last, a, x);
  }

  /** Being plain is exact on streams too: a line without line ends, standing between the name
      and the data of an event, is read as the standard reads it if and only if it is plain. */
  lemma PlainExactlyWhen(first: string, line: string, last: string, a: string, x: string)
    requires Framed(first, line, last, a, x)
    ensures Plain(line) <==> WholeStream(Text(first, line, last)) == StandardStream(Text(first, line, last))
  {
    ReadFramed(first, line, last, a, x);
    if line != "" {
      PlainIsExact(line);
      FieldPairs(line);
      SameEvent(ClientField(line), StandardField(line), a, x);
    }
  }

  /** In particular inside every printed event: whatever line stands between its name and its
      data, the stream is read as the standard reads it if and only if that line is plain. */
  lemma PlainInPrintedEvents(first: string, line: string, last: string, a: string, x: string)
    requires Clean(a) && a != "" && a != "message" && Clean(x) && x != ""
    requires '\r' !in a && '\r' !in x && '\n' !in line && '\r' !in line
    requires first == "event: " + a && last == "data: " + x
    ensures Plain(line) <==> WholeStream(Text(first, line, last)) == StandardStream(Text(first, line, last))
  {
    NamedLine(first, a);
    DataLine(last, x);
    PlainExactlyWhen(first, line, last, a, x);
  }

  lemma NamedLine(first: string, a: string)
    requires Clean(a) && a != "" && '\r' !in a && first == "event: " + a
    ensures '\n' !in first && '\r' !in first && first != ""
    ensures ClientField(first) == EventField(a) == StandardField(first)
  {
    PrintedStandard(a);
    UnbrokenName(first, a);
  }

  lemma UnbrokenName(first: string, a: string)
    requires '\n' !in a && '\r' !in a && first == "event: " + a
    ensures '\n' !in first && '\r' !in first
  {
    forall i | 0 <= i < |first| ensures first[i] != '\n' && first[i] != '\r' {
      assert first[i] == if i < 7 then "event: "[i] else a[i - 7];
    }
  }

  lemma UnbrokenData(last: string, x: string)
    requires '\n' !in x && '\r' !in x && last == "data: " + x
    ensures '\n' !in last && '\r' !in last
  {
    forall i | 0 <= i < |last| ensures last[i] != '\n' && last[i] != '\r' {
      assert last[i] == if i < 6 then "data: "[i] else x[i - 6];
    }
  }

  lemma DataLine(last: string, x: string)
    requires Clean(x) && x != "" && '\r' !in x && last == "data: " + x
    ensures '\n' !in last && '\r' !in last && last != ""
    ensures ClientField(last) == DataField(x) == StandardField(last)
  {
    PrintedStandard(x);
    UnbrokenData(last, x);
  }

  /** A stream framed with CRLF, which the standard allows, is never dispatched at all. */
  lemma {:induction false} CarriageReturnsStall(s: string)
    requires forall k :: 0 <= k < |s| && s[k] == '\n' ==> k > 0 && s[k - 1] == '\r'
    ensures WholeStream(s) == []
    ensures Blocks(s) == [s]
  {
    if s != "" {
      CarriageTail(s[1..]);
      assert [s[0]] + s[1..] == s;
    }
  }

  lemma {:induction false} CarriageTail(s: string)
    requires forall k :: 0 < k < |s| && s[k] == '\n' ==> s[k - 1] == '\r'
    ensures Blocks(s) == [s]
  {
    if s != "" {
      assert |s| >= 2 && s[1] == '\n' ==> s[0] == '\r';
      CarriageTail(s[1..]);
      assert [s[0]] + s[1..] == s;
    }
  }

  /** A text with every line ended by CRLF instead of LF. */
  function ToCrlf(s: string): string {
    if s == "" then "" else (if s[0] == '\n' then "\r\n" else [s[0]]) + ToCrlf(s[1..])
  }

  lemma {:induction false} CrlfIsLf(s: string)
    requires '\r' !in s
    ensures StandardSplit(ToCrlf(s)) == StandardSplit(s)
    ensures forall k :: 0 <= k < |ToCrlf(s)| && ToCrlf(s)[k] == '\n' ==> k > 0 && ToCrlf(s)[k - 1] == '\r'
  {
    if s != "" {
      var rest := ToCrlf(s[1..]);
      CrlfIsLf(s[1..]);
      if s[0] == '\n' {
        var t := "\r\n" + rest;
        assert t[2..] == rest;
        assert forall k :: 2 <= k < |t| ==> t[k] == rest[k - 2];
      } else {
        var t := [s[0]] + rest;
        assert t[1..] == rest;
        assert forall k :: 1 <= k < |t| ==> t[k] == rest[k - 1];
      }
    }
  }

  /** The standard reads such a text as it reads the LF one; the client agrees with it there
      exactly when nothing is dispatched at all. */
  lemma CrlfAgreesExactlyWhenSilent(s: string)
    requires '\r' !in s
    ensures StandardStream(ToCrlf(s)) == StandardStream(s)
    ensures WholeStream(ToCrlf(s)) == StandardStream(ToCrlf(s)) <==> StandardStream(s) == []
  {
    CrlfIsLf(s);
    CarriageReturnsStall(ToCrlf(s));
  }

  lemma {:induction false} StandardOfCr(line: string, t: string)
    requires '\n' !in line && '\r' !in line && (t == "" || t[0] != '\n')
    ensures StandardSplit(line + "\r" + t) == [line] + StandardSplit(t)
  {
    var s := line + "\r" + t;
    if line == "" {
      assert s[1..] == t;
    } else {
      assert s[1..] == line[1..] + "\r" + t;
      StandardOfCr(line[1..], t);
      assert [line[0]] + line[1..] == line;
    }
  }

  /** A data line with a carriage return inside, and a blank line. */
  function InnerCr(a: string, b: string): string {
    "data: " + a + "\r" + (b + "\n" + ("" + "\n" + ""))
  }

  predicate Word(s: string) {
    s != "" && '\n' !in s && '\r' !in s && ':' !in s && !IsSpace(s[0]) && !IsSpace(s[|s| - 1])
  }

  /** A carriage return inside a line ends it for the standard but not for the client: for
      any two words that are no field names, the client dispatches both, the standard one. */
  lemma InnerCarriageReturnDiffers(a: string, b: string)
    requires Word(a) && Word(b) && b != "data" && b != "event"
    ensures WholeStream(InnerCr(a, b)) == [Frame("message", a + "\r" + b)]
    ensures StandardStream(InnerCr(a, b)) == [Frame("message", a)]
  {
    InnerClient(a, b);
    InnerStandard(a, b);
  }

  lemma InnerClient(a: string, b: string)
    requires Word(a) && Word(b)
    ensures WholeStream(InnerCr(a, b)) == [Frame("message", a + "\r" + b)]
  {
    var s, v, end := InnerCr(a, b), a + "\r" + b, "" + "\n" + "";
    var line := "data: " + v;
    assert s == line + "\n" + end;
    OneLineText(line);
    BlocksAgreeWithLines(s);
    assert v[|v| - 1] == b[|b| - 1];
    UnspacedIsClean(v);
    PrintedFields(v);
    OneEvent(line, v);
  }

  lemma OneLineText(line: string)
    requires '\n' !in line
    ensures CompleteLines(line + "\n" + ("" + "\n" + "")) == [line, ""]
  {
    LinesOfLine("", "");
    LinesOfLine(line, "" + "\n" + "");
  }

  lemma OneEvent(line: string, v: string)
    requires line != "" && ClientField(line) == DataField(v)
    ensures ByLine([line, ""], INITIAL) == [Frame("message", v)]
  {
    assert [line, ""][1..] == [""] && [""][1..] == [];
    var d := Apply(INITIAL, DataField(v));
    assert d == Draft("message", [v]);
    assert ByLine([""], d) == Emit(d);
  }

  lemma InnerStandard(a: string, b: string)
    requires Word(a) && Word(b) && b != "data" && b != "event"
    ensures StandardStream(InnerCr(a, b)) == [Frame("message", a)]
  {
    var end := "" + "\n" + "";
    var line := "data: " + a;
    StandardOfLine("", "");
    StandardOfLine(b, end);
    StandardOfCr(line, b + "\n" + end);
    assert StandardLines(InnerCr(a, b)) == [line, b, ""];
    UnspacedIsClean(a);
    PrintedStandard(a);
    assert Colon(b) == |b| && b[..|b|] == b;
    OneStandardEvent(line, a, b);
  }

  lemma OneStandardEvent(line: string, v: string, b: string)
    requires line != "" && StandardField(line) == DataField(v) && b != "" && StandardField(b) == NoField
    ensures Standard([line, b, ""], Draft("", [])) == [Frame("message", v)]
  {
    assert [line, b, ""][1..] == [b, ""] && [b, ""][1..] == [""] && [""][1..] == [];
    var d := Apply(Draft("", []), DataField(v));
    assert d == Draft("", [v]);
    assert Standard([""], d) == StandardEmit(d);
    assert Standard([b, ""], d) == Standard([""], d);
  }

  // ---------------------------------------------------------------------------
  // Round trip with the server's frames
  // ---------------------------------------------------------------------------

  /** An event as the server prints it. */
  datatype Event = Event(name: string, lines: seq<string>)

  predicate Clean(s: string) {
    '\n' !in s && Trim(s) == s
  }

  predicate Printable(e: Event) {
    && Clean(e.name) && |e.lines| > 0
    && forall k :: 0 <= k < |e.lines| ==> Clean(e.lines[k])
  }

  function PrintData(lines: seq<string>): string {
    if lines == [] then "" else "data: " + lines[0] + "\n" + PrintData(lines[1..])
  }

  /** `event: <name>`, one `data:` line per line of data, and a blank line. */
  function Print(events: seq<Event>): string {
    if events == [] then ""
    else "event: " + events[0].name + "\n" + (PrintData(events[0].lines) + ("\n" + Print(events[1..])))
  }

  function Expected(events: seq<Event>): seq<Frame> {
    if events == [] then []
    else [Frame(events[0].name, Join(events[0].lines))] + Expected(events[1..])
  }

  lemma TrimAfterSpace(v: string)
    ensures Trim(" " + v) == Trim(v)
  {
    assert (" " + v)[1..] == v;
  }

  lemma ReadOneField(d: Draft, line: string, more: string)
    requires '\n' !in line && line != ""
    ensures ByLine(CompleteLines(line + "\n" + more), d)
         == ByLine(CompleteLines(more), Apply(d, ClientField(line)))
  {
    LinesOfLine(line, more);
    assert CompleteLines(line + "\n" + more) == [line] + CompleteLines(more);
  }

  lemma PrintedFields(v: string)
    requires Clean(v)
    ensures ClientField("data: " + v) == DataField(v)
    ensures ClientField("event: " + v) == EventField(v)
  {
    var data, event := "data: " + v, "event: " + v;
    assert data[..5] == "data:" && data[0] == 'd' && "event:"[0] == 'e';
    assert event[..6] == "event:";
    assert data[5..] == event[6..] == " " + v;
    TrimAfterSpace(v);
  }

  lemma PrintOneLine(lines: seq<string>, rest: string)
    requires lines != []
    ensures PrintData(lines) + rest == "data: " + lines[0] + "\n" + (PrintData(lines[1..]) + rest)
  {
  }

  lemma ReadOneLine(d: Draft, v: string, more: string)
    requires Clean(v)
    ensures ByLine(CompleteLines("data: " + v + "\n" + more), d)
         == ByLine(CompleteLines(more), d.(data := d.data + [v]))
  {
    ReadOneField(d, "data: " + v, more);
    PrintedFields(v);
  }

  lemma {:induction false} ReadData(d: Draft, lines: seq<string>, rest: string)
    requires forall k :: 0 <= k < |lines| ==> Clean(lines[k])
    ensures ByLine(CompleteLines(PrintData(lines) + rest), d)
         == ByLine(CompleteLines(rest), d.(data := d.data + lines))
    decreases |lines|
  {
    if lines == [] {
      assert PrintData(lines) + rest == rest;
      assert d.data + lines == d.data;
    } else {
      PrintOneLine(lines, rest);
      ReadOneLine(d, lines[0], PrintData(lines[1..]) + rest);
      ReadData(d.(data := d.data + [lines[0]]), lines[1..], rest);
      GatheredData(d, lines);
    }
  }

  lemma GatheredData(d: Draft, lines: seq<string>)
    requires lines != []
    ensures var d' := d.(data := d.data + [lines[0]]); d'.(data := d'.data + lines[1..]) == d.(data := d.data + lines)
  {
    assert d.data + [lines[0]] + lines[1..] == d.data + lines;
  }

  /** Printing events and reading them back, in any chunking, returns them. */
  lemma {:induction false} RoundTrip(events: seq<Event>)
    requires forall k :: 0 <= k < |events| ==> Printable(events[k])
    ensures WholeStream(Print(events)) == Expected(events)
  {
    BlocksAgreeWithLines(Print(events));
    RoundTripByLine(events);
  }

  lemma {:induction false} RoundTripByLine(events: seq<Event>)
    requires forall k :: 0 <= k < |events| ==> Printable(events[k])
    ensures ByLine(CompleteLines(Print(events)), INITIAL) == Expected(events)
  {
    if events != [] {
      ReadEvent(events[0], Print(events[1..]));
      RoundTripByLine(events[1..]);
    }
  }

  lemma ReadEvent(e: Event, rest: string)
    requires Printable(e)
    ensures ByLine(CompleteLines("event: " + e.name + "\n" + (PrintData(e.lines) + ("\n" + rest))), INITIAL)
         == [Frame(e.name, Join(e.lines))] + ByLine(CompleteLines(rest), INITIAL)
  {
    var tail := "\n" + rest;
    ReadOneField(INITIAL, "event: " + e.name, PrintData(e.lines) + tail);
    PrintedFields(e.name);
    ReadData(Draft(e.name, []), e.lines, tail);
    assert [] + e.lines == e.lines;
    LinesOfNewline(rest);
    assert CompleteLines(tail) == [""] + CompleteLines(rest);
  }

  /** The joined data determines the data lines, so a round trip loses nothing. */
  lemma {:induction false} JoinLosesNothing(lines: seq<string>)
    requires |lines| > 0
    requires forall k :: 0 <= k < |lines| ==> '\n' !in lines[k]
    ensures Lines(Join(lines)) == lines
  {
    if |lines| == 1 {
      LinesOfUnbroken(lines[0]);
    } else {
      JoinLosesNothing(lines[1..]);
      LinesOfLine(lines[0], Join(lines[1..]));
    }
  }

  /** The reader itself, fed the server's output in any chunks. */
  method ReadPrinted(events: seq<Event>, chunks: seq<string>) returns (frames: seq<Frame>)
    requires forall k :: 0 <= k < |events| ==> Printable(events[k])
    requires Concat(chunks) == Print(events)
    ensures frames == Expected(events)
  {
    var buffer;
    frames, buffer := ReadStream(chunks);
    RoundTrip(events);
  }
}
