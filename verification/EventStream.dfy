/** Server-Sent Events between the controller and the command line: `readSSE`
    on one side, the API server's `sseWriter` on the other. */
module EventStream {
  import opened Seqs
  import opened Text

  datatype Frame = Frame(event: string, data: string)

  /** How the stream stopped: at its end, or because reading failed. */
  datatype End = EndOfFile | ReadError

  // ----- What one line does -----

  /** The frame being gathered. */
  datatype Pending = Pending(event: string, data: string)

  const NOTHING := Pending("", "")

  function Flush(p: Pending): seq<Frame> {
    if p.event != "" || p.data != "" then [Frame(p.event, p.data)] else []
  }

  /** `strings.TrimRight(line, "\r\n")`. */
  function TrimEnd(line: string): (t: string)
    ensures t <= line
    ensures t != "" ==> t[|t| - 1] != '\r' && t[|t| - 1] != '\n'
  {
    if line != "" && (line[|line| - 1] == '\r' || line[|line| - 1] == '\n')
    then TrimEnd(line[..|line| - 1]) else line
  }

  function Append(data: string, more: string): string {
    if data == "" then more else data + "\n" + more
  }

  /** The fields of a line that is not blank. */
  function Field(p: Pending, line: string): Pending {
    if HasPrefix(line, ":") then p
    else if HasPrefix(line, "event:") then p.(event := TrimSpace(TrimPrefix(line, "event:")))
    else if HasPrefix(line, "data:") then
      p.(data := Append(p.data, TrimPrefix(TrimPrefix(line, "data:"), " ")))
    else p
  }

  /** A blank line completes the frame. */
  function After(p: Pending, line: string): Pending {
    if line == "" then NOTHING else Field(p, line)
  }

  function Emitted(p: Pending, line: string): seq<Frame> {
    if line == "" then Flush(p) else []
  }

  /** How far one read goes: up to and including the next newline, or to the end. */
  function ReadLine(s: string): (n: nat)
    requires s != ""
    ensures 0 < n <= |s|
  {
    var n := Until(s, '\n');
    if n < |s| then n + 1 else n
  }

  /** The lines of a stream, without their line endings. */
  function Lines(s: string): seq<string>
    decreases |s|
  {
    if s == "" then []
    else [TrimEnd(s[..ReadLine(s)])] + Lines(s[ReadLine(s)..])
  }

  /** The frames some lines complete, continuing from `p`. */
  function FramesOf(p: Pending, lines: seq<string>, end: End): seq<Frame>
    decreases |lines|
  {
    if lines == [] then if end == EndOfFile then Flush(p) else []
    else Emitted(p, lines[0]) + FramesOf(After(p, lines[0]), lines[1..], end)
  }

  function Frames(s: string, end: End): seq<Frame> { FramesOf(NOTHING, Lines(s), end) }

  // ----- The reader -----

  datatype Outcome = Finished | Refused | Broken

  /** The callback's verdict on the latest frame, which may depend on all it was given before. */
  type Callback = seq<Frame> -> bool

  predicate AcceptsAll(accept: Callback, frames: seq<Frame>) {
    forall k :: 0 < k <= |frames| ==> accept(frames[..k])
  }

  /** Everything was delivered, or everything up to the first frame the callback refused. */
  ghost predicate DeliveredUntilRefused(
    frames: seq<Frame>, delivered: seq<Frame>, outcome: Outcome, accept: Callback, end: End)
  {
    if outcome == Refused then
      && delivered != [] && delivered <= frames
      && AcceptsAll(accept, delivered[..|delivered| - 1]) && !accept(delivered)
    else
      && delivered == frames && AcceptsAll(accept, frames)
      && outcome == if end == EndOfFile then Finished else Broken
  }

  lemma AcceptsOneMore(accept: Callback, frames: seq<Frame>, frame: Frame)
    requires AcceptsAll(accept, frames) && accept(frames + [frame])
    ensures AcceptsAll(accept, frames + [frame])
  {
    var more := frames + [frame];
    assert more[..|more|] == more;
    assert forall k :: 0 < k <= |frames| ==> more[..k] == frames[..k];
  }

  /** Hand the pending frame, if there is one, to the callback. */
  method Deliver(p: Pending, delivered: seq<Frame>, accept: Callback) returns (now: seq<Frame>, ok: bool)
    requires AcceptsAll(accept, delivered)
    ensures now == delivered + Flush(p)
    ensures ok ==> AcceptsAll(accept, now)
    ensures !ok ==> now != [] && now[..|now| - 1] == delivered && !accept(now)
  {
    now, ok := delivered, true;
    if p.event != "" || p.data != "" {
      now := delivered + [Frame(p.event, p.data)];
      ok := accept(now);
      if ok {
        AcceptsOneMore(accept, delivered, Frame(p.event, p.data));
      }
    }
  }

  /** The switch on one line that was read. */
  method TakeLine(p: Pending, line: string, delivered: seq<Frame>, accept: Callback)
    returns (next: Pending, now: seq<Frame>, ok: bool)
    requires AcceptsAll(accept, delivered)
    ensures now == delivered + Emitted(p, line)
    ensures ok ==> next == After(p, line) && AcceptsAll(accept, now)
    ensures !ok ==> now != [] && now[..|now| - 1] == delivered && !accept(now)
  {
    next, now, ok := p, delivered, true;
    if line == "" {
      now, ok := Deliver(p, delivered, accept);
      next := NOTHING;
    } else if HasPrefix(line, ":") {
      // a comment, which is how the server keeps the connection warm
    } else if HasPrefix(line, "event:") {
      next := p.(event := TrimSpace(TrimPrefix(line, "event:")));
    } else if HasPrefix(line, "data:") {
      next := p.(data := Append(p.data, TrimPrefix(TrimPrefix(line, "data:"), " ")));
    }
  }

  /** One read: the line it finds, and what that leaves of the stream. */
  lemma ReadAt(s: string, at: nat, n: nat)
    requires at < |s| && n == ReadLine(s[at..])
    ensures at + n <= |s|
    ensures Lines(s[at..]) == [TrimEnd(s[at..at + n])] + Lines(s[at + n..])
  {
    var here := s[at..];
    assert here[..n] == s[at..at + n] && here[n..] == s[at + n..];
  }

  lemma TakeFirst(p: Pending, line: string, rest: seq<string>, end: End, delivered: seq<Frame>)
    ensures delivered + FramesOf(p, [line] + rest, end)
         == (delivered + Emitted(p, line)) + FramesOf(After(p, line), rest, end)
  {
    assert ([line] + rest)[1..] == rest;
  }

  /** `ReadString` and the trimming of what it read. */
  method NextLine(s: string, at: nat) returns (line: string, n: nat)
    requires at < |s|
    ensures 0 < n && at + n <= |s| && Lines(s[at..]) == [line] + Lines(s[at + n..])
  {
    n := ReadLine(s[at..]);
    line := TrimEnd(s[at..at + n]);
    ReadAt(s, at, n);
  }

  /** What the rest of a stream still gives. */
  function Left(s: string, at: nat, p: Pending, end: End): seq<Frame>
    requires at <= |s|
  {
    FramesOf(p, Lines(s[at..]), end)
  }

  lemma AllLeft(s: string, end: End)
    ensures Frames(s, end) == [] + Left(s, 0, NOTHING, end)
  {
    WholeSlice(s);
  }

  lemma NoneLeft(s: string, p: Pending, end: End)
    ensures Left(s, |s|, p, end) == FramesOf(p, [], end)
  {
    NothingLeft(s);
  }

  lemma LessLeft(s: string, at: nat, line: string, n: nat, p: Pending, delivered: seq<Frame>, end: End)
    requires at + n <= |s| && Lines(s[at..]) == [line] + Lines(s[at + n..])
    ensures delivered + Left(s, at, p, end) == (delivered + Emitted(p, line)) + Left(s, at + n, After(p, line), end)
  {
    TakeFirst(p, line, Lines(s[at + n..]), end, delivered);
  }

  /** The same as a function of the place and what is pending there. */
  type Reading = (nat, Pending) -> seq<Frame>

  function ReadingOf(s: string, end: End): Reading {
    (i: nat, q: Pending) => if i <= |s| then Left(s, i, q, end) else []
  }

  ghost predicate IsReading(left: Reading, s: string, end: End) {
    forall i: nat, q: Pending {:trigger Left(s, i, q, end)} :: i <= |s| ==> left(i, q) == Left(s, i, q, end)
  }

  /** One line is read and taken, or the callback refuses what it completes. */
  method ReadOne(
    s: string, at: nat, p: Pending, delivered: seq<Frame>, accept: Callback, ghost end: End, ghost left: Reading)
    returns (next: Pending, now: seq<Frame>, n: nat, ok: bool)
    requires at < |s| && AcceptsAll(accept, delivered) && IsReading(left, s, end)
    ensures 0 < n && at + n <= |s|
    ensures ok ==> now + left(at + n, next) == delivered + left(at, p) && AcceptsAll(accept, now)
    ensures !ok ==> DeliveredUntilRefused(delivered + left(at, p), now, Refused, accept, end)
  {
    var line;
    line, n := NextLine(s, at);
    LessLeft(s, at, line, n, p, delivered, end);
    next, now, ok := TakeLine(p, line, delivered, accept);
    if !ok {
      ghost var rest := Left(s, at + n, After(p, line), end);
      RefusedOnTheWay(delivered + Left(s, at, p, end), delivered, now, rest, accept, end);
    }
  }

  /** The loop over lines: all of them taken, or the callback's refusal on the way. */
  method ReadLines(s: string, accept: Callback, ghost end: End, ghost left: Reading)
    returns (p: Pending, delivered: seq<Frame>, ok: bool)
    requires IsReading(left, s, end)
    ensures ok ==> delivered + left(|s|, p) == [] + left(0, NOTHING) && AcceptsAll(accept, delivered)
    ensures !ok ==> DeliveredUntilRefused([] + left(0, NOTHING), delivered, Refused, accept, end)
  {
    p, delivered, ok := NOTHING, [], true;
    var at := 0;
    while at < |s|
      invariant at <= |s| && ok
      invariant delivered + left(at, p) == [] + left(0, NOTHING)
      invariant AcceptsAll(accept, delivered)
      decreases |s| - at
    {
      var n;
      p, delivered, n, ok := ReadOne(s, at, p, delivered, accept, end, left);
      if !ok {
        return;
      }
      at := at + n;
    }
  }

  lemma RefusedOnTheWay(
    frames: seq<Frame>, before: seq<Frame>, delivered: seq<Frame>, rest: seq<Frame>, accept: Callback, end: End)
    requires frames == delivered + rest && AcceptsAll(accept, before)
    requires delivered != [] && delivered[..|delivered| - 1] == before && !accept(delivered)
    ensures DeliveredUntilRefused(frames, delivered, Refused, accept, end)
  {
  }

  method ReadSSE(s: string, end: End, accept: Callback) returns (delivered: seq<Frame>, outcome: Outcome)
    ensures DeliveredUntilRefused(Frames(s, end), delivered, outcome, accept, end)
  {
    var p, ok;
    p, delivered, ok := ReadLines(s, accept, end, ReadingOf(s, end));
    AllLeft(s, end);
    NoneLeft(s, p, end);
    if !ok {
      return delivered, Refused;
    }
    if end == ReadError {
      return delivered, Broken;
    }
    delivered, ok := Deliver(p, delivered, accept);
    outcome := if ok then Finished else Refused;
  }

  // ----- Streams cut at line ends -----

  predicate WholeLines(s: string) { s == "" || s[|s| - 1] == '\n' }

  lemma LineThen(line: string, rest: string)
    requires Without(line, '\n')
    ensures Lines(line + "\n" + rest) == [TrimEnd(line)] + Lines(rest)
  {
    var s := line + "\n" + rest;
    UntilSep(line, '\n', rest);
    var read := line + "\n";
    assert s[..|line| + 1] == read && s[|line| + 1..] == rest;
    assert read[..|read| - 1] == line;
  }

  lemma {:induction false} LinesAppend(before: string, rest: string)
    requires WholeLines(before)
    ensures Lines(before + rest) == Lines(before) + Lines(rest)
    decreases |before|
  {
    if before == "" {
      assert before + rest == rest;
    } else {
      var n := Until(before, '\n');
      assert n < |before|;
      var line, tail := before[..n], before[n + 1..];
      CutOut(before, n);
      ConcatAssociates(line + "\n", tail, rest);
      assert tail != "" ==> tail[|tail| - 1] == before[|before| - 1];
      LinesAppend(tail, rest);
      LineAppend(line, tail, rest);
    }
  }

  lemma LineAppend(line: string, tail: string, rest: string)
    requires Without(line, '\n') && Lines(tail + rest) == Lines(tail) + Lines(rest)
    ensures Lines(line + "\n" + (tail + rest)) == Lines(line + "\n" + tail) + Lines(rest)
  {
    LineThen(line, tail);
    LineThen(line, tail + rest);
    ConcatAssociates([TrimEnd(line)], Lines(tail), Lines(rest));
  }

  function AfterLines(p: Pending, lines: seq<string>): Pending
    decreases |lines|
  {
    if lines == [] then p else AfterLines(After(p, lines[0]), lines[1..])
  }

  function EmittedBy(p: Pending, lines: seq<string>): seq<Frame>
    decreases |lines|
  {
    if lines == [] then [] else Emitted(p, lines[0]) + EmittedBy(After(p, lines[0]), lines[1..])
  }

  /** Reading is compositional. */
  lemma {:induction false} FramesAppend(p: Pending, lines: seq<string>, rest: seq<string>, end: End)
    ensures FramesOf(p, lines + rest, end) == EmittedBy(p, lines) + FramesOf(AfterLines(p, lines), rest, end)
    decreases |lines|
  {
    if lines == [] {
      assert lines + rest == rest;
    } else {
      assert (lines + rest)[1..] == lines[1..] + rest;
      FramesAppend(After(p, lines[0]), lines[1..], rest, end);
    }
  }

  // ----- Lines that change nothing -----

  /** A comment, or a field this reader does not know. */
  predicate Inert(line: string) {
    line != "" && !HasPrefix(line, "event:") && !HasPrefix(line, "data:")
  }

  lemma InertAmong(p: Pending, lines: seq<string>, line: string, rest: seq<string>, end: End)
    requires Inert(line)
    ensures FramesOf(p, lines + ([line] + rest), end) == FramesOf(p, lines + rest, end)
  {
    FramesAppend(p, lines, [line] + rest, end);
    FramesAppend(p, lines, rest, end);
    TakeFirst(AfterLines(p, lines), line, rest, end, EmittedBy(p, lines));
  }

  lemma InertLineChangesNothing(before: string, line: string, rest: string, end: End)
    requires WholeLines(before) && Without(line, '\n') && Inert(TrimEnd(line))
    ensures Frames(before + line + "\n" + rest, end) == Frames(before + rest, end)
  {
    ConcatAssociates(before, line, "\n");
    ConcatAssociates(before, line + "\n", rest);
    LinesInserted(before, line, rest);
    LinesAppend(before, rest);
    InertAmong(NOTHING, Lines(before), TrimEnd(line), Lines(rest), end);
  }

  lemma LinesInserted(before: string, line: string, rest: string)
    requires WholeLines(before) && Without(line, '\n')
    ensures Lines(before + (line + "\n" + rest)) == Lines(before) + ([TrimEnd(line)] + Lines(rest))
  {
    LinesAppend(before, line + "\n" + rest);
    LineThen(line, rest);
  }

  lemma SameAmong(p: Pending, lines: seq<string>, a: string, b: string, rest: seq<string>, end: End)
    requires forall q :: After(q, a) == After(q, b) && Emitted(q, a) == Emitted(q, b)
    ensures FramesOf(p, lines + ([a] + rest), end) == FramesOf(p, lines + ([b] + rest), end)
  {
    FramesAppend(p, lines, [a] + rest, end);
    FramesAppend(p, lines, [b] + rest, end);
    TakeFirst(AfterLines(p, lines), a, rest, end, EmittedBy(p, lines));
    TakeFirst(AfterLines(p, lines), b, rest, end, EmittedBy(p, lines));
  }

  lemma TrimEndReturn(line: string)
    ensures TrimEnd(line + "\r") == TrimEnd(line)
  {
    SnocInit(line, '\r');
  }

  /** Lines may end in a return and a newline as well. */
  lemma ReturnsBeforeNewlines(before: string, line: string, rest: string, end: End)
    requires WholeLines(before) && Without(line, '\n')
    ensures Frames(before + ((line + "\r") + "\n" + rest), end) == Frames(before + (line + "\n" + rest), end)
  {
    WithoutConcat(line, "\r", '\n');
    LinesInserted(before, line + "\r", rest);
    LinesInserted(before, line, rest);
    TrimEndReturn(line);
  }

  /** The space after the colon of a data line is left out or not. */
  lemma SpaceAfterColon(before: string, text: string, rest: string, end: End)
    requires WholeLines(before) && CleanLine(text) && (text == "" || text[0] != ' ')
    ensures Frames(before + ("data:" + text + "\n" + rest), end)
         == Frames(before + ("data: " + text + "\n" + rest), end)
  {
    var a, b := "data:" + text, "data: " + text;
    DataLineTrims(text);
    LinesInserted(before, a, rest);
    LinesInserted(before, b, rest);
    forall q ensures After(q, TrimEnd(a)) == After(q, TrimEnd(b)) && Emitted(q, TrimEnd(a)) == Emitted(q, TrimEnd(b)) {
      SameData(q, text);
    }
    SameAmong(NOTHING, Lines(before), TrimEnd(a), TrimEnd(b), Lines(rest), end);
  }

  lemma DataLineTrims(text: string)
    requires CleanLine(text)
    ensures TrimEnd("data:" + text) == "data:" + text
    ensures TrimEnd("data: " + text) == "data: " + text
    ensures Without("data:" + text, '\n') && Without("data: " + text, '\n')
  {
    WithoutConcat("data:", text, '\n');
    WithoutConcat("data: ", text, '\n');
    var a, b := "data:" + text, "data: " + text;
    assert text != "" ==> a[|a| - 1] == text[|text| - 1] && b[|b| - 1] == text[|text| - 1];
    assert text == "" ==> a[|a| - 1] == ':' && b[|b| - 1] == ' ';
  }

  lemma SameData(p: Pending, text: string)
    requires text == "" || text[0] != ' '
    ensures After(p, "data:" + text) == After(p, "data: " + text) && Emitted(p, "data:" + text) == []
    ensures Emitted(p, "data: " + text) == []
  {
    DataField(p, text);
    var line := "data:" + text;
    assert line[0] == 'd' && "data:" <= line && line[5..] == text;
    assert !HasPrefix(text, " ");
  }

  lemma {:induction false} FinalBlankLine(p: Pending, lines: seq<string>)
    ensures FramesOf(p, lines + [""], EndOfFile) == FramesOf(p, lines, EndOfFile)
    decreases |lines|
  {
    if lines != [] {
      assert (lines + [""])[1..] == lines[1..] + [""];
      FinalBlankLine(After(p, lines[0]), lines[1..]);
    }
  }

  lemma LastOfTail(s: string, n: nat)
    requires 0 < n <= |s| && !WholeLines(s) && s[n - 1] == '\n'
    ensures !WholeLines(s[n..])
  {
  }

  lemma LoneLine(line: string)
    requires line != "" && Without(line, '\n')
    ensures Lines(line) == [TrimEnd(line)]
  {
    assert ReadLine(line) == |line|;
    WholeSlice(line);
    NothingLeft(line);
  }

  lemma LoneLineEnds(line: string)
    requires line != "" && Without(line, '\n')
    ensures Lines(line + "\n") == Lines(line)
  {
    LineThen(line, "");
    ConcatNothing(line + "\n");
    LoneLine(line);
    ConcatNothing([TrimEnd(line)]);
  }

  lemma LineBefore(line: string, tail: string)
    requires Without(line, '\n') && Lines(tail + "\n") == Lines(tail)
    ensures Lines(line + "\n" + tail + "\n") == Lines(line + "\n" + tail)
  {
    ConcatAssociates(line + "\n", tail, "\n");
    LineThen(line, tail);
    LineThen(line, tail + "\n");
  }

  lemma {:induction false} LastLineEnds(s: string)
    requires !WholeLines(s)
    ensures Lines(s + "\n") == Lines(s)
    decreases |s|
  {
    var n := Until(s, '\n');
    if n == |s| {
      LoneLineEnds(s);
    } else {
      LastOfTail(s, n + 1);
      LastLineEnds(s[n + 1..]);
      CutOut(s, n);
      LineBefore(s[..n], s[n + 1..]);
    }
  }

  /** A stream that lost its last newline, or the blank line after its last frame, holds the same frames. */
  lemma FinalNewlineChangesNothing(s: string)
    ensures Frames(s + "\n", EndOfFile) == Frames(s, EndOfFile)
  {
    if WholeLines(s) {
      LinesAppend(s, "\n");
      LineThen("", "");
      assert "" + "\n" + "" == "\n";
      assert Lines("\n") == [""] + Lines("") == [""];
      FinalBlankLine(NOTHING, Lines(s));
    } else {
      LastLineEnds(s);
    }
  }

  // ----- Which frames can be read at all -----

  /** No line of the data ends in a carriage return. */
  predicate NoLineEndsInReturn(data: string) {
    forall i :: 0 <= i < |data| && data[i] == '\r' ==> i + 1 < |data| && data[i + 1] != '\n'
  }

  predicate CleanEvent(event: string) { Trimmed(event) && Without(event, '\n') }

  predicate CleanData(data: string) {
    data == "" || (data[0] != '\n' && NoLineEndsInReturn(data))
  }

  predicate Clean(f: Frame) { CleanEvent(f.event) && CleanData(f.data) && (f.event != "" || f.data != "") }

  /** What TrimEnd leaves of a read. */
  predicate CleanLine(line: string) {
    Without(line, '\n') && (line != "" ==> line[|line| - 1] != '\r')
  }

  lemma {:induction false} LinesAreClean(s: string)
    ensures forall i :: 0 <= i < |Lines(s)| ==> CleanLine(Lines(s)[i])
    decreases |s|
  {
    if s != "" {
      var n := ReadLine(s);
      LinesAreClean(s[n..]);
      var t := TrimEnd(s[..n]);
      assert forall i :: 0 <= i < n - 1 ==> s[i] != '\n';
      assert forall i :: 0 <= i < |t| ==> t[i] == s[i];
    }
  }

  lemma CleanAfterData(data: string, more: string)
    requires CleanData(data) && CleanLine(more)
    ensures CleanData(Append(data, more))
  {
    if data != "" {
      var all := data + "\n" + more;
      assert forall i :: 0 <= i < |data| ==> all[i] == data[i];
      assert forall i :: 0 <= i < |more| ==> all[|data| + 1 + i] == more[i];
      forall i | 0 <= i < |all| && all[i] == '\r' ensures i + 1 < |all| && all[i + 1] != '\n' {
        if i < |data| {
          assert all[i + 1] == data[i + 1];
        } else {
          assert more[i - |data| - 1] == '\r';
          assert all[i + 1] == more[i - |data|];
        }
      }
    }
  }

  lemma CleanAfter(p: Pending, line: string)
    requires CleanEvent(p.event) && CleanData(p.data) && CleanLine(line)
    ensures CleanEvent(After(p, line).event) && CleanData(After(p, line).data)
  {
    if HasPrefix(line, "event:") {
      CleanTail(line, "event:");
      TrimSpaceTrims(TrimPrefix(line, "event:"));
    } else if HasPrefix(line, "data:") {
      CleanTail(line, "data:");
      CleanTail(TrimPrefix(line, "data:"), " ");
      CleanAfterData(p.data, TrimPrefix(TrimPrefix(line, "data:"), " "));
    }
  }

  lemma CleanTail(line: string, prefix: string)
    requires CleanLine(line)
    ensures CleanLine(TrimPrefix(line, prefix))
  {
    var tail := TrimPrefix(line, prefix);
    assert forall i :: 0 <= i < |tail| ==> tail[i] == line[|line| - |tail| + i];
  }

  lemma {:induction false} FramesAreClean(p: Pending, lines: seq<string>, end: End)
    requires CleanEvent(p.event) && CleanData(p.data)
    requires forall i :: 0 <= i < |lines| ==> CleanLine(lines[i])
    ensures forall i :: 0 <= i < |FramesOf(p, lines, end)| ==> Clean(FramesOf(p, lines, end)[i])
    decreases |lines|
  {
    if lines != [] {
      CleanAfter(p, lines[0]);
      FramesAreClean(After(p, lines[0]), lines[1..], end);
    }
  }

  /** Whatever the stream, every frame read from it is clean. */
  lemma OnlyCleanFrames(s: string, end: End)
    ensures forall i :: 0 <= i < |Frames(s, end)| ==> Clean(Frames(s, end)[i])
  {
    LinesAreClean(s);
    FramesAreClean(NOTHING, Lines(s), end);
  }

  // ----- The server's side -----

  datatype Message =
    | Event(kind: string, id: string, data: string)
    | Comment(text: string)
    | Retry(milliseconds: string)

  /** An event without a payload carries an empty object. */
  function Payload(data: string): string { if data == "" then "{}" else data }

  function DataLines(parts: seq<string>): string {
    if parts == [] then ""
    else "data: " + TrimReturn(parts[0]) + "\n" + DataLines(parts[1..])
  }

  /** `strings.TrimSuffix(line, "\r")`. */
  function TrimReturn(line: string): string {
    if line != "" && line[|line| - 1] == '\r' then line[..|line| - 1] else line
  }

  /** What the server writes for one message. */
  function Wire(m: Message): string {
    match m
    case Event(kind, id, data) =>
      IdLine(id) + KindLine(kind) + DataLines(Split(Payload(data), '\n')) + "\n"
    case Comment(text) => ": " + text + "\n\n"
    case Retry(milliseconds) => "retry: " + milliseconds + "\n\n"
  }

  function WireAll(ms: seq<Message>): string {
    if ms == [] then "" else Wire(ms[0]) + WireAll(ms[1..])
  }

  /** What the server meant to send. */
  function Meant(m: Message): seq<Frame> {
    if m.Event? then [Frame(m.kind, Payload(m.data))] else []
  }

  function Sent(ms: seq<Message>): seq<Frame> {
    if ms == [] then [] else Meant(ms[0]) + Sent(ms[1..])
  }

  /** Identifiers, comments and delays are single lines. */
  predicate OneLiner(m: Message) {
    match m
    case Event(_, id, _) => Without(id, '\n')
    case Comment(text) => Without(text, '\n')
    case Retry(milliseconds) => Without(milliseconds, '\n')
  }

  predicate OneLiners(ms: seq<Message>) { forall i :: 0 <= i < |ms| ==> OneLiner(ms[i]) }

  predicate Faithful(m: Message) {
    m.Event? ==> Clean(Frame(m.kind, Payload(m.data)))
  }

  lemma {:induction false} PartsAreClean(data: string)
    requires NoLineEndsInReturn(data)
    ensures forall i :: 0 <= i < |Split(data, '\n')| ==> CleanLine(Split(data, '\n')[i])
    decreases |data|
  {
    var n := Until(data, '\n');
    if n < |data| {
      var rest := data[n + 1..];
      assert forall i :: 0 <= i < |rest| ==> rest[i] == data[n + 1 + i];
      PartsAreClean(rest);
    }
  }

  function DataFields(parts: seq<string>): seq<string> {
    if parts == [] then [] else ["data: " + parts[0]] + DataFields(parts[1..])
  }

  lemma {:induction false} DataLinesRead(parts: seq<string>, rest: string)
    requires forall i :: 0 <= i < |parts| ==> CleanLine(parts[i])
    ensures Lines(DataLines(parts) + rest) == DataFields(parts) + Lines(rest)
    decreases |parts|
  {
    if parts == [] {
      assert DataLines(parts) + rest == rest;
    } else {
      var line, more := "data: " + parts[0], parts[1..];
      DataLinesRead(more, rest);
      DataLineRead(parts[0], DataLines(more) + rest);
      ConcatAssociates(line + "\n", DataLines(more), rest);
      ConcatAssociates([line], DataFields(more), Lines(rest));
    }
  }

  lemma DataLineRead(part: string, tail: string)
    requires CleanLine(part)
    ensures TrimReturn(part) == part
    ensures Lines("data: " + part + "\n" + tail) == ["data: " + part] + Lines(tail)
  {
    var line := "data: " + part;
    assert part != "" ==> line[|line| - 1] == part[|part| - 1];
    assert TrimEnd(line) == line;
    LineThen(line, tail);
  }

  function AppendAll(data: string, parts: seq<string>): string
    decreases |parts|
  {
    if parts == [] then data else AppendAll(Append(data, parts[0]), parts[1..])
  }

  lemma {:induction false} AppendAllJoins(data: string, parts: seq<string>)
    requires parts != [] && (data == "" ==> parts[0] != "")
    ensures AppendAll(data, parts) == (if data == "" then "" else data + "\n") + JoinWith(parts, '\n')
    decreases |parts|
  {
    var next := Append(data, parts[0]);
    if |parts| > 1 {
      AppendAllJoins(next, parts[1..]);
    } else {
      assert AppendAll(next, parts[1..]) == next;
    }
  }

  lemma DataField(p: Pending, part: string)
    ensures After(p, "data: " + part) == p.(data := Append(p.data, part))
    ensures Emitted(p, "data: " + part) == []
  {
    var line := "data: " + part;
    assert line[0] == 'd';
    assert "data:" <= line;
    assert line[5..] == " " + part;
    assert (" " + part)[1..] == part;
  }

  lemma {:induction false} DataFieldsTaken(p: Pending, parts: seq<string>, rest: seq<string>, end: End)
    ensures FramesOf(p, DataFields(parts) + rest, end)
         == FramesOf(p.(data := AppendAll(p.data, parts)), rest, end)
    decreases |parts|
  {
    if parts == [] {
      assert DataFields(parts) + rest == rest;
    } else {
      var more := DataFields(parts[1..]) + rest;
      assert DataFields(parts) + rest == ["data: " + parts[0]] + more;
      TakeFirst(p, "data: " + parts[0], more, end, []);
      DataField(p, parts[0]);
      DataFieldsTaken(p.(data := Append(p.data, parts[0])), parts[1..], rest, end);
    }
  }

  lemma EventField(p: Pending, kind: string)
    requires CleanEvent(kind) && kind != ""
    ensures TrimEnd("event: " + kind) == "event: " + kind
    ensures After(p, "event: " + kind) == p.(event := kind)
    ensures Emitted(p, "event: " + kind) == []
  {
    var line := "event: " + kind;
    assert line[|line| - 1] == kind[|kind| - 1];
    assert line[0] == 'e';
    assert "event:" <= line;
    assert line[6..] == " " + kind;
    assert (" " + kind)[1..] == kind;
    TrimSpaceTrims(kind);
  }

  lemma BlankThen(rest: string)
    ensures Lines("\n" + rest) == [""] + Lines(rest)
  {
    LineThen("", rest);
    assert "" + "\n" + rest == "\n" + rest;
  }

  lemma PayloadRead(data: string, rest: string)
    requires NoLineEndsInReturn(data)
    ensures Lines(DataLines(Split(data, '\n')) + "\n" + rest) == DataFields(Split(data, '\n')) + ([""] + Lines(rest))
  {
    var parts := Split(data, '\n');
    PartsAreClean(data);
    DataLinesRead(parts, "\n" + rest);
    ConcatAssociates(DataLines(parts), "\n", rest);
    BlankThen(rest);
  }

  lemma PayloadGathered(data: string)
    requires data != "" && CleanData(data)
    ensures AppendAll("", Split(data, '\n')) == data
  {
    var parts := Split(data, '\n');
    assert parts[0] != "";
    AppendAllJoins("", parts);
    JoinOfSplit(data, '\n');
  }

  /** The lines of a payload and the blank line after them complete the frame. */
  lemma PayloadTaken(p: Pending, parts: seq<string>, got: string, rest: seq<string>, end: End)
    requires p.data == "" && got != "" && AppendAll("", parts) == got
    ensures FramesOf(p, DataFields(parts) + ([""] + rest), end)
         == [Frame(p.event, got)] + FramesOf(NOTHING, rest, end)
  {
    DataFieldsTaken(p, parts, [""] + rest, end);
    TakeFirst(p.(data := got), "", rest, end, []);
  }

  function KindLine(kind: string): string { if kind != "" then "event: " + kind + "\n" else "" }

  function IdLine(id: string): string { if id != "" then "id: " + id + "\n" else "" }

  lemma KindTaken(kind: string, rest: string, end: End)
    requires CleanEvent(kind)
    ensures FramesOf(NOTHING, Lines(KindLine(kind) + rest), end) == FramesOf(Pending(kind, ""), Lines(rest), end)
  {
    if kind == "" {
      assert "" + rest == rest;
    } else {
      var line := "event: " + kind;
      assert Without(line, '\n');
      LineThen(line, rest);
      EventField(NOTHING, kind);
      TakeFirst(NOTHING, line, Lines(rest), end, []);
    }
  }

  lemma InertLineTaken(line: string, rest: string, end: End)
    requires Without(line, '\n') && Inert(TrimEnd(line))
    ensures FramesOf(NOTHING, Lines(line + "\n" + rest), end) == FramesOf(NOTHING, Lines(rest), end)
  {
    LineThen(line, rest);
    TakeFirst(NOTHING, TrimEnd(line), Lines(rest), end, []);
  }

  /** The head of a line survives trimming its end. */
  lemma {:induction false} TrimEndKeeps(head: string, tail: string)
    requires head != "" && head[|head| - 1] != '\r' && head[|head| - 1] != '\n'
    ensures head <= TrimEnd(head + tail)
    decreases |tail|
  {
    var line := head + tail;
    if tail == "" {
      assert line == head;
    } else {
      assert line[..|line| - 1] == head + tail[..|tail| - 1];
      TrimEndKeeps(head, tail[..|tail| - 1]);
    }
  }

  lemma IdTaken(id: string, rest: string, end: End)
    requires Without(id, '\n')
    ensures FramesOf(NOTHING, Lines(IdLine(id) + rest), end) == FramesOf(NOTHING, Lines(rest), end)
  {
    if id == "" {
      assert "" + rest == rest;
    } else {
      InertHead("id: ", id);
      InertLineTaken("id: " + id, rest, end);
    }
  }

  lemma InertHead(head: string, text: string)
    requires head == ": " || head == "id: " || head == "retry: "
    ensures Inert(TrimEnd(head + text))
  {
    TrimEndKeeps(head[..|head| - 1], " " + text);
    LastOff(head);
    ConcatAssociates(head[..|head| - 1], " ", text);
    var line := TrimEnd(head + text);
    assert line[0] == head[0];
    assert line != "" && line[0] != 'e' && line[0] != 'd';
  }

  lemma HeadTaken(id: string, kind: string, body: string, end: End)
    requires Without(id, '\n') && CleanEvent(kind)
    ensures FramesOf(NOTHING, Lines(IdLine(id) + (KindLine(kind) + body)), end)
         == FramesOf(Pending(kind, ""), Lines(body), end)
  {
    IdTaken(id, KindLine(kind) + body, end);
    KindTaken(kind, body, end);
  }

  lemma PayloadDelivered(p: Pending, data: string, got: string, rest: string, end: End)
    requires p.data == "" && NoLineEndsInReturn(data)
    requires got != "" && AppendAll("", Split(data, '\n')) == got
    ensures FramesOf(p, Lines(DataLines(Split(data, '\n')) + "\n" + rest), end)
         == [Frame(p.event, got)] + FramesOf(NOTHING, Lines(rest), end)
  {
    PayloadRead(data, rest);
    PayloadTaken(p, Split(data, '\n'), got, Lines(rest), end);
  }

  lemma Regroup(id: string, kind: string, data: string, rest: string)
    ensures id + kind + data + "\n" + rest == id + (kind + (data + "\n" + rest))
  {
  }

  /** An event arrives with whatever data its lines gather to. */
  lemma EventDelivered(m: Message, got: string, rest: string, end: End)
    requires m.Event? && Without(m.id, '\n') && CleanEvent(m.kind) && NoLineEndsInReturn(Payload(m.data))
    requires got != "" && AppendAll("", Split(Payload(m.data), '\n')) == got
    ensures FramesOf(NOTHING, Lines(Wire(m) + rest), end)
         == [Frame(m.kind, got)] + FramesOf(NOTHING, Lines(rest), end)
  {
    var data := Payload(m.data);
    var body := DataLines(Split(data, '\n')) + "\n" + rest;
    Regroup(IdLine(m.id), KindLine(m.kind), DataLines(Split(data, '\n')), rest);
    HeadTaken(m.id, m.kind, body, end);
    PayloadDelivered(Pending(m.kind, ""), data, got, rest, end);
  }

  lemma QuietDelivered(head: string, text: string, rest: string, end: End)
    requires Without(text, '\n') && (head == ": " || head == "retry: ")
    ensures FramesOf(NOTHING, Lines(head + text + "\n\n" + rest), end) == FramesOf(NOTHING, Lines(rest), end)
  {
    var line := head + text;
    InertHead(head, text);
    WithoutConcat(head, text, '\n');
    InertLineTaken(line, "\n" + rest, end);
    TwoNewlines(line, rest);
    BlankThen(rest);
    TakeFirst(NOTHING, "", Lines(rest), end, []);
  }

  lemma TwoNewlines(line: string, rest: string)
    ensures line + "\n\n" + rest == line + "\n" + ("\n" + rest)
  {
  }

  lemma EventArrives(m: Message, rest: string, end: End)
    requires m.Event? && OneLiner(m) && Faithful(m)
    ensures FramesOf(NOTHING, Lines(Wire(m) + rest), end) == Meant(m) + FramesOf(NOTHING, Lines(rest), end)
  {
    PayloadGathered(Payload(m.data));
    EventDelivered(m, Payload(m.data), rest, end);
  }

  lemma QuietArrives(m: Message, rest: string, end: End)
    requires !m.Event? && OneLiner(m)
    ensures FramesOf(NOTHING, Lines(Wire(m) + rest), end) == FramesOf(NOTHING, Lines(rest), end)
  {
    if m.Comment? {
      QuietDelivered(": ", m.text, rest, end);
    } else {
      QuietDelivered("retry: ", m.milliseconds, rest, end);
    }
  }

  lemma OneDelivered(m: Message, rest: string, end: End)
    requires OneLiner(m) && Faithful(m)
    ensures FramesOf(NOTHING, Lines(Wire(m) + rest), end) == Meant(m) + FramesOf(NOTHING, Lines(rest), end)
  {
    match m {
      case Event(_, _, _) => EventArrives(m, rest, end);
      case Comment(_) => QuietArrives(m, rest, end);
      case Retry(_) => QuietArrives(m, rest, end);
    }
  }

  lemma {:induction false} FaithfulDelivered(ms: seq<Message>, end: End)
    requires OneLiners(ms) && forall i :: 0 <= i < |ms| ==> Faithful(ms[i])
    ensures Frames(WireAll(ms), end) == Sent(ms)
    decreases |ms|
  {
    if ms != [] {
      FaithfulDelivered(ms[1..], end);
      OneDelivered(ms[0], WireAll(ms[1..]), end);
    }
  }

  lemma {:induction false} SentEvent(ms: seq<Message>, i: nat)
    requires i < |ms| && ms[i].Event?
    ensures Frame(ms[i].kind, Payload(ms[i].data)) in Sent(ms)
    decreases |ms|
  {
    if i > 0 {
      SentEvent(ms[1..], i - 1);
    }
  }

  /** The command line is given exactly what the server meant to send if and only if every
      event's kind and payload are clean; heartbeats and retry hints among them never matter, nor does
      whether the stream ended after them or broke. */
  lemma DeliveredAsSent(ms: seq<Message>, end: End)
    requires OneLiners(ms)
    ensures Frames(WireAll(ms), end) == Sent(ms) <==> forall i :: 0 <= i < |ms| ==> Faithful(ms[i])
  {
    if forall i :: 0 <= i < |ms| ==> Faithful(ms[i]) {
      FaithfulDelivered(ms, end);
    } else {
      var i :| 0 <= i < |ms| && !Faithful(ms[i]);
      SentEvent(ms, i);
      OnlyCleanFrames(WireAll(ms), end);
    }
  }

  // ----- Streams that break -----

  /** No line is blank: each begins with something other than a line ending. */
  predicate EveryLineBegins(s: string) {
    forall i :: 0 <= i < |s| && (s[i] == '\n' || s[i] == '\r') ==> i > 0 && s[i - 1] != '\n'
  }

  lemma {:induction false} LinesAreNotBlank(s: string)
    requires EveryLineBegins(s)
    ensures forall i :: 0 <= i < |Lines(s)| ==> Lines(s)[i] != ""
    decreases |s|
  {
    if s != "" {
      var n := ReadLine(s);
      assert n < |s| ==> s[n - 1] == '\n';
      RestBegins(s, n);
      LinesAreNotBlank(s[n..]);
      TrimEndKeeps([s[0]], s[1..n]);
      assert [s[0]] + s[1..n] == s[..n];
    }
  }

  lemma RestBegins(s: string, n: nat)
    requires EveryLineBegins(s) && n <= |s| && (0 < n < |s| ==> s[n - 1] == '\n')
    ensures EveryLineBegins(s[n..])
  {
    var rest := s[n..];
    assert forall i :: 0 <= i < |rest| ==> rest[i] == s[n + i];
    assert rest != "" ==> rest[0] == s[n];
  }

  lemma {:induction false} NoBlankNoFrame(p: Pending, lines: seq<string>)
    requires forall i :: 0 <= i < |lines| ==> lines[i] != ""
    ensures FramesOf(p, lines, ReadError) == []
    decreases |lines|
  {
    if lines != [] {
      NoBlankNoFrame(After(p, lines[0]), lines[1..]);
    }
  }

  /** A stream that breaks before any blank line gives no frame: what was half read is dropped. */
  lemma NothingHalfRead(s: string)
    requires EveryLineBegins(s)
    ensures Frames(s, ReadError) == []
  {
    LinesAreNotBlank(s);
    NoBlankNoFrame(NOTHING, Lines(s));
  }

  lemma LineBegins(line: string)
    requires line != "" && line[0] != '\r' && Without(line, '\n')
    ensures EveryLineBegins(line + "\n")
  {
    var s := line + "\n";
    assert forall i :: 0 <= i < |line| ==> s[i] == line[i];
  }

  lemma BothBegin(a: string, b: string)
    requires EveryLineBegins(a) && EveryLineBegins(b)
    ensures EveryLineBegins(a + b)
  {
    var s := a + b;
    assert forall i :: 0 <= i < |a| ==> s[i] == a[i];
    assert forall i :: 0 <= i < |b| ==> s[|a| + i] == b[i];
    forall i | 0 <= i < |s| && (s[i] == '\n' || s[i] == '\r') ensures i > 0 && s[i - 1] != '\n' {
      if i >= |a| {
        assert s[i] == b[i - |a|] && s[i - 1] == b[i - |a| - 1];
      }
    }
  }

  lemma {:induction false} DataLinesBegin(parts: seq<string>)
    requires forall i :: 0 <= i < |parts| ==> Without(parts[i], '\n')
    ensures EveryLineBegins(DataLines(parts))
    decreases |parts|
  {
    if parts != [] {
      DataLinesBegin(parts[1..]);
      WithoutConcat("data: ", TrimReturn(parts[0]), '\n');
      LineBegins("data: " + TrimReturn(parts[0]));
      BothBegin("data: " + TrimReturn(parts[0]) + "\n", DataLines(parts[1..]));
    }
  }

  /** All the server writes for a message but the newline that completes it. */
  function Body(m: Message): string {
    match m
    case Event(kind, id, data) => IdLine(id) + KindLine(kind) + DataLines(Split(Payload(data), '\n'))
    case Comment(text) => ": " + text + "\n"
    case Retry(milliseconds) => "retry: " + milliseconds + "\n"
  }

  lemma NamedLineBegins(name: string, text: string)
    requires name != "" && name[0] != '\r' && Without(name, '\n') && Without(text, '\n')
    ensures EveryLineBegins(name + text + "\n")
  {
    WithoutConcat(name, text, '\n');
    LineBegins(name + text);
  }

  lemma BodyBegins(m: Message)
    requires OneLiner(m) && (m.Event? ==> Without(m.kind, '\n'))
    ensures EveryLineBegins(Body(m)) && Wire(m) == Body(m) + "\n"
  {
    match m {
      case Event(kind, id, data) =>
        NamedLineBegins("id: ", id);
        NamedLineBegins("event: ", kind);
        DataLinesBegin(Split(Payload(data), '\n'));
        BothBegin(IdLine(id), KindLine(kind));
        BothBegin(IdLine(id) + KindLine(kind), DataLines(Split(Payload(data), '\n')));
      case Comment(text) => NamedLineBegins(": ", text);
      case Retry(milliseconds) => NamedLineBegins("retry: ", milliseconds);
    }
  }

  /** A message that is cut short, however late, gives no frame. */
  lemma HalfAMessage(m: Message, n: nat)
    requires OneLiner(m) && (m.Event? ==> Without(m.kind, '\n')) && n < |Wire(m)|
    ensures Frames(Wire(m)[..n], ReadError) == []
  {
    BodyBegins(m);
    assert Wire(m)[..n] == Body(m)[..n];
    FirstBegin(Body(m), n);
    NothingHalfRead(Body(m)[..n]);
  }

  lemma FirstBegin(s: string, n: nat)
    requires EveryLineBegins(s) && n <= |s|
    ensures EveryLineBegins(s[..n])
  {
    assert forall i :: 0 <= i < n ==> s[..n][i] == s[i];
  }

  predicate AllFaithful(ms: seq<Message>) { forall i :: 0 <= i < |ms| ==> Faithful(ms[i]) }

  lemma RestIsFaithful(ms: seq<Message>)
    requires ms != [] && OneLiners(ms) && AllFaithful(ms)
    ensures OneLiners(ms[1..]) && AllFaithful(ms[1..]) && |WireAll(ms)| == |Wire(ms[0])| + |WireAll(ms[1..])|
    ensures OneLiner(ms[0]) && Faithful(ms[0])
  {
  }

  /** The first k messages are whole within the first n characters, and no more of them. */
  predicate WholeWithin(ms: seq<Message>, n: nat, k: nat) {
    k <= |ms| && |WireAll(ms[..k])| <= n && (k < |ms| ==> n < |WireAll(ms[..k + 1])|)
  }

  /** Cut after n characters, exactly the first k messages arrive, and they are the whole ones. */
  predicate Arrive(ms: seq<Message>, n: nat, k: nat) {
    WholeWithin(ms, n, k) && n <= |WireAll(ms)| && Frames(WireAll(ms)[..n], ReadError) == Sent(ms[..k])
  }

  /** When the connection breaks, wherever that is, exactly the messages that were written whole arrive. */
  lemma {:induction false} BrokenAnywhere(ms: seq<Message>, n: nat) returns (k: nat)
    requires OneLiners(ms) && AllFaithful(ms) && n <= |WireAll(ms)|
    ensures Arrive(ms, n, k)
    decreases |ms|
  {
    var m := Peeled(ms, n);
    if m < 0 {
      k := 0;
    } else {
      k := BrokenAnywhere(ms[1..], m);
      k := k + 1;
    }
  }

  /** The first message is cut, or the rest is looked at by itself. */
  lemma Peeled(ms: seq<Message>, n: nat) returns (m: int)
    requires OneLiners(ms) && AllFaithful(ms) && n <= |WireAll(ms)|
    ensures m < 0 ==> Arrive(ms, n, 0)
    ensures m >= 0 ==> ms != [] && OneLiners(ms[1..]) && AllFaithful(ms[1..]) && m <= |WireAll(ms[1..])|
    ensures m >= 0 ==> forall j: nat :: Arrive(ms[1..], m, j) ==> Arrive(ms, n, j + 1)
  {
    if ms == [] {
      NothingSent(ms, n);
      return -1;
    }
    RestIsFaithful(ms);
    m := n - |Wire(ms[0])|;
    if m < 0 {
      BrokenAtOnce(ms, n);
    } else {
      forall j: nat | Arrive(ms[1..], m, j) ensures Arrive(ms, n, j + 1) {
        BrokenLater(ms, n, j);
      }
    }
  }

  lemma NothingSent(ms: seq<Message>, n: nat)
    requires ms == [] && n == 0
    ensures WholeWithin(ms, n, 0) && Frames(WireAll(ms)[..n], ReadError) == Sent(ms[..0])
  {
    assert WireAll(ms)[..n] == "" && ms[..0] == [];
  }

  lemma BrokenAtOnce(ms: seq<Message>, n: nat)
    requires ms != [] && OneLiner(ms[0]) && Faithful(ms[0]) && n < |Wire(ms[0])|
    ensures WholeWithin(ms, n, 0) && Frames(WireAll(ms)[..n], ReadError) == Sent(ms[..0])
  {
    HalfAMessage(ms[0], n);
    TakeOfFirst(Wire(ms[0]), WireAll(ms[1..]), n);
    OneWire(ms);
  }

  lemma BrokenLater(ms: seq<Message>, n: nat, j: nat)
    requires ms != [] && OneLiner(ms[0]) && Faithful(ms[0]) && |Wire(ms[0])| <= n <= |WireAll(ms)|
    requires n - |Wire(ms[0])| <= |WireAll(ms[1..])| && WholeWithin(ms[1..], n - |Wire(ms[0])|, j)
    requires Frames(WireAll(ms[1..])[..n - |Wire(ms[0])|], ReadError) == Sent(ms[1..][..j])
    ensures WholeWithin(ms, n, j + 1) && Frames(WireAll(ms)[..n], ReadError) == Sent(ms[..j + 1])
  {
    var rest := ms[1..];
    OneDelivered(ms[0], WireAll(rest)[..n - |Wire(ms[0])|], ReadError);
    TakeOfBoth(Wire(ms[0]), WireAll(rest), n);
    OneMoreMessage(ms, j);
    if j < |rest| {
      OneMoreMessage(ms, j + 1);
    }
  }

  lemma OneWire(ms: seq<Message>)
    requires ms != []
    ensures WireAll(ms[..0]) == "" && Sent(ms[..0]) == [] && WireAll(ms[..1]) == Wire(ms[0])
  {
    assert ms[..1][1..] == [];
    ConcatNothing(Wire(ms[0]));
  }

  lemma TakeOfFirst(a: string, b: string, n: nat)
    requires n <= |a|
    ensures (a + b)[..n] == a[..n]
  {
  }

  lemma TakeOfBoth(a: string, b: string, n: nat)
    requires |a| <= n <= |a| + |b|
    ensures (a + b)[..n] == a + b[..n - |a|]
  {
  }

  lemma OneMoreMessage(ms: seq<Message>, j: nat)
    requires j < |ms|
    ensures WireAll(ms[..j + 1]) == Wire(ms[0]) + WireAll(ms[1..][..j])
    ensures Sent(ms[..j + 1]) == Meant(ms[0]) + Sent(ms[1..][..j])
  {
    assert ms[..j + 1][1..] == ms[1..][..j];
  }

  // ----- Whether what a broken stream gave would have come anyway -----

  /** How far the whole lines of a stream go. */
  function WholeUpTo(t: string): (n: nat)
    ensures n <= |t| && WholeLines(t[..n]) && Without(t[n..], '\n')
  {
    if t == "" || t[|t| - 1] == '\n' then |t|
    else
      var n := WholeUpTo(t[..|t| - 1]);
      assert t[..|t| - 1][..n] == t[..n];
      assert forall i :: n <= i < |t| - 1 ==> t[..|t| - 1][n..][i - n] == t[i];
      n
  }

  function Whole(t: string): string { t[..WholeUpTo(t)] }

  function Begun(t: string): string { t[WholeUpTo(t)..] }

  /** It broke inside a line, of which only carriage returns had come. */
  predicate BareReturn(t: string) { Begun(t) != "" && TrimEnd(Begun(t)) == "" }

  /** Something is pending after its whole lines: it would be delivered if the stream ended there. */
  predicate HasPending(t: string) { Frames(Whole(t), EndOfFile) != Frames(Whole(t), ReadError) }

  lemma PendingIsFlushed(t: string)
    ensures var p := AfterLines(NOTHING, Lines(Whole(t))); HasPending(t) <==> Flush(p) != []
    ensures Frames(Whole(t), ReadError) == EmittedBy(NOTHING, Lines(Whole(t)))
  {
    var lines := Lines(Whole(t));
    ConcatNothing(lines);
    FramesAppend(NOTHING, lines, [], EndOfFile);
    FramesAppend(NOTHING, lines, [], ReadError);
    ConcatNothing(EmittedBy(NOTHING, lines));
  }

  lemma FramesFromWhole(t: string, rest: string, end: End)
    ensures Frames(t + rest, end) == EmittedBy(NOTHING, Lines(Whole(t)))
      + FramesOf(AfterLines(NOTHING, Lines(Whole(t))), Lines(Begun(t) + rest), end)
  {
    Cut(t, WholeUpTo(t));
    ConcatAssociates(Whole(t), Begun(t), rest);
    LinesAppend(Whole(t), Begun(t) + rest);
    FramesAppend(NOTHING, Lines(Whole(t)), Lines(Begun(t) + rest), end);
  }

  lemma BrokenGives(t: string)
    ensures Frames(t, ReadError) == Frames(Whole(t), ReadError)
      + if BareReturn(t) then Flush(AfterLines(NOTHING, Lines(Whole(t)))) else []
  {
    PendingIsFlushed(t);
    FramesFromWhole(t, "", ReadError);
    ConcatNothing(t);
    ConcatNothing(Begun(t));
    if Begun(t) != "" {
      LoneLine(Begun(t));
      OneLineMore(AfterLines(NOTHING, Lines(Whole(t))), TrimEnd(Begun(t)));
    }
  }

  lemma OneLineMore(p: Pending, line: string)
    ensures FramesOf(p, [line], ReadError) == Emitted(p, line)
  {
    TakeFirst(p, line, [], ReadError, []);
    ConcatNothing([line]);
  }

  /** A line that goes on after all, and then more data. */
  function Otherwise(more: string): string { "b" + "\n" + ("data: " + more + "\n" + "\n") }

  lemma OtherwiseLines(begun: string, more: string)
    requires Without(begun, '\n') && CleanLine(more)
    ensures Lines(begun + Otherwise(more)) == [begun + "b"] + (["data: " + more] + [""])
  {
    var line, rest := begun + "b", "data: " + more + "\n" + "\n";
    WithoutConcat(begun, "b", '\n');
    ConcatAssociates(begun, "b", "\n");
    ConcatAssociates(begun, "b" + "\n", rest);
    LineThen(line, rest);
    assert line[|line| - 1] == 'b';
    DataLineRead(more, "\n");
    LoneNewline();
  }

  lemma LoneNewline()
    ensures Lines("\n") == [""]
  {
    BlankThen("");
    ConcatNothing("\n");
  }

  lemma StartsWithReturn(begun: string)
    requires begun != "" && Without(begun, '\n') && TrimEnd(begun) == ""
    ensures begun[0] == '\r'
  {
    FirstOff(begun);
    if begun[0] != '\r' {
      TrimEndKeeps([begun[0]], begun[1..]);
    }
  }

  /** Where it began with returns, that line says nothing. */
  lemma GoesOnAfterAll(p: Pending, begun: string, more: string, end: End)
    requires begun != "" && begun[0] == '\r' && Without(begun, '\n') && CleanLine(more)
    ensures FramesOf(p, Lines(begun + Otherwise(more)), end) == Flush(p.(data := Append(p.data, more)))
  {
    var line, q := begun + "b", p.(data := Append(p.data, more));
    OtherwiseLines(begun, more);
    assert line[0] == '\r';
    assert Inert(line) && After(p, line) == p;
    TakeFirst(p, line, ["data: " + more] + [""], end, []);
    DataField(p, more);
    TakeFirst(p, "data: " + more, [""], end, []);
    OneBlankMore(q, end);
  }

  lemma OneBlankMore(p: Pending, end: End)
    ensures FramesOf(p, [""], end) == Flush(p)
  {
    TakeFirst(p, "", [], end, []);
    ConcatNothing([""]);
  }

  lemma LastDiffers(a: seq<Frame>, x: Frame, y: Frame)
    requires x != y
    ensures !(a + [x] <= a + [y])
  {
    assert (a + [x])[|a|] == x && (a + [y])[|a|] == y;
  }

  /** What a broken stream gave is what it would have given first however it had gone on, unless it broke
      after the carriage returns a line began with, while a frame was pending. */
  lemma BrokenExactlyWhen(t: string)
    ensures (forall rest, end :: Frames(t, ReadError) <= Frames(t + rest, end)) <==> !(BareReturn(t) && HasPending(t))
  {
    var emitted, p := EmittedBy(NOTHING, Lines(Whole(t))), AfterLines(NOTHING, Lines(Whole(t)));
    PendingIsFlushed(t);
    BrokenGives(t);
    if BareReturn(t) && HasPending(t) {
      StartsWithReturn(Begun(t));
      FramesFromWhole(t, Otherwise("c"), EndOfFile);
      GoesOnAfterAll(p, Begun(t), "c", EndOfFile);
      LastDiffers(emitted, Frame(p.event, p.data), Frame(p.event, Append(p.data, "c")));
      assert !(Frames(t, ReadError) <= Frames(t + Otherwise("c"), EndOfFile));
    } else {
      forall rest, end ensures Frames(t, ReadError) <= Frames(t + rest, end) {
        FramesFromWhole(t, rest, end);
        ConcatNothing(emitted);
      }
    }
  }

  /** There the data gathered so far is delivered as a frame of its own, though the event had more. */
  lemma BareReturnEndsTheFrame(data: string, more: string)
    requires data != "" && CleanLine(data) && CleanLine(more)
    ensures Frames("data: " + data + "\n" + "\r", ReadError) == [Frame("", data)]
    ensures Frames("data: " + data + "\n" + ("\r" + Otherwise(more)), EndOfFile) == [Frame("", data + "\n" + more)]
  {
    DataField(NOTHING, data);
    DataLineRead(data, "\r");
    LoneLine("\r");
    TakeFirst(NOTHING, "data: " + data, [""], ReadError, []);
    OneBlankMore(Pending("", data), ReadError);
    DataLineRead(data, "\r" + Otherwise(more));
    TakeFirst(NOTHING, "data: " + data, Lines("\r" + Otherwise(more)), EndOfFile, []);
    GoesOnAfterAll(Pending("", data), "\r", more, EndOfFile);
  }

  /** The leading newline really is lost: any clean payload put after one arrives without it. */
  lemma LeadingEmptyLineIsLost(kind: string, data: string)
    requires CleanEvent(kind) && data != "" && CleanData(data)
    ensures Frames(Wire(Event(kind, "", "\n" + data)), EndOfFile) == [Frame(kind, data)]
  {
    var sent := "\n" + data;
    assert forall i :: 0 <= i < |data| ==> sent[i + 1] == data[i];
    SplitAtSep("", '\n', data);
    assert "" + ['\n'] + data == sent;
    assert ([""] + Split(data, '\n'))[1..] == Split(data, '\n');
    PayloadGathered(data);
    EventDelivered(Event(kind, "", sent), data, "", EndOfFile);
    assert Wire(Event(kind, "", sent)) + "" == Wire(Event(kind, "", sent));
  }
}
