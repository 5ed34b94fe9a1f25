/** `wrapText`: the doctor's advice broken at spaces to fit the terminal.

    The greedy loop keeps the words, and no other way of breaking the text into
    lines that fit uses fewer lines. */
module LineWrap {
  import opened Seqs
  import opened Text

  /** The words of a list of lines, in order. */
  function WordsOf(lines: seq<string>): seq<string> {
    if lines == [] then [] else Fields(lines[0]) + WordsOf(lines[1..])
  }

  /** A line fits when it is within the width, or when it holds a single word (or none). */
  predicate Fits(line: string, width: int) {
    ByteLen(line) <= width || |Fields(line)| <= 1
  }

  /** The words of a text, in their order, in lines that fit. */
  predicate IsWrapping(lines: seq<string>, words: seq<string>, width: int) {
    WordsOf(lines) == words && forall i :: 0 <= i < |lines| ==> Fits(lines[i], width)
  }

  // ----- Filling lines, whatever fits on one -----

  /** Whether the words from i up to j can share a line. */
  type Fitting = (nat, nat) -> bool

  /** A word alone always can, and so can any run of words that could with more. */
  ghost predicate Shrinks(n: nat, fit: Fitting) {
    && (forall i: nat, j: nat :: i <= j <= n && j <= i + 1 ==> fit(i, j))
    && (forall i: nat, j: nat, k: nat, l: nat :: i <= j <= k <= l <= n && fit(i, l) ==> fit(j, k))
  }

  /** How far a line that begins at i and has come to k goes. */
  function Reach(n: nat, i: nat, k: nat, fit: Fitting): (t: nat)
    requires k <= n
    ensures k <= t <= n && (t == k || fit(i, t)) && (t < n ==> !fit(i, t + 1))
    decreases n - k
  {
    if k < n && fit(i, k + 1) then Reach(n, i, k + 1, fit) else k
  }

  /** The lines a greedy wrap needs from word i on. */
  function Count(n: nat, i: nat, fit: Fitting): nat
    requires i <= n
    decreases n - i
  {
    if i == n then 0 else 1 + Count(n, Reach(n, i, i + 1, fit), fit)
  }

  lemma ReachesTheMost(n: nat, i: nat, j: nat, fit: Fitting)
    requires i < n && i <= j <= n && Shrinks(n, fit) && fit(i, j)
    ensures j <= Reach(n, i, i + 1, fit)
  {
  }

  /** A later start never needs more lines. */
  lemma {:induction false} LaterStart(n: nat, i: nat, j: nat, fit: Fitting)
    requires i <= j <= n && Shrinks(n, fit)
    ensures Count(n, j, fit) <= Count(n, i, fit)
    decreases n - i
  {
    if i < j < n {
      var t := Reach(n, i, i + 1, fit);
      if j < t {
        ReachesTheMost(n, j, t, fit);
        LaterStart(n, t, Reach(n, j, j + 1, fit), fit);
      } else {
        LaterStart(n, t, j, fit);
      }
    }
  }

  /** Words that fit on a first line leave no less to do than the greedy first line. */
  lemma FirstLineBeats(n: nat, i: nat, k: nat, fit: Fitting)
    requires i < n && i <= k <= n && Shrinks(n, fit) && fit(i, k)
    ensures Count(n, i, fit) <= 1 + Count(n, k, fit)
  {
    ReachesTheMost(n, i, k, fit);
    LaterStart(n, k, Reach(n, i, i + 1, fit), fit);
  }

  /** A line that cannot go on is the greedy one. */
  lemma FirstLineEnds(n: nat, i: nat, k: nat, fit: Fitting)
    requires i < k <= n && Shrinks(n, fit) && fit(i, k) && (k < n ==> !fit(i, k + 1))
    ensures Count(n, i, fit) == 1 + Count(n, k, fit)
  {
    ReachesTheMost(n, i, k, fit);
  }

  // ----- Words that fit -----

  lemma {:induction false} JoinAppend(ws: seq<string>, w: string)
    requires ws != []
    ensures Join(ws + [w]) == Join(ws) + " " + w
    decreases |ws|
  {
    if |ws| == 1 {
      assert (ws + [w])[1..] == [w];
    } else {
      assert (ws + [w])[1..] == ws[1..] + [w];
      JoinAppend(ws[1..], w);
    }
  }

  /** More words make a longer line, whichever end they are added to. */
  lemma {:induction false} JoinMonotone(ws: seq<string>, i: nat, j: nat)
    requires i <= j <= |ws|
    ensures ByteLen(Join(ws[i..j])) <= ByteLen(Join(ws))
    decreases |ws|
  {
    if j < |ws| {
      var shorter := ws[..|ws| - 1];
      JoinMonotone(shorter, i, j);
      assert shorter[i..j] == ws[i..j];
      LastOff(ws);
      if shorter != [] {
        JoinAppend(shorter, ws[|ws| - 1]);
        ByteLenConcat(Join(shorter) + " ", ws[|ws| - 1]);
        ByteLenConcat(Join(shorter), " ");
      }
    } else if i > 0 {
      JoinMonotone(ws[1..], i - 1, j - 1);
      assert ws[1..][i - 1..j - 1] == ws[i..j];
      if |ws| > 1 {
        ByteLenConcat(ws[0] + " ", Join(ws[1..]));
      }
    } else {
      WholeSlice(ws);
    }
  }

  /** The words from i up to j, on one line, are within the width, or are one word or none. */
  predicate GoTogether(words: seq<string>, i: nat, j: nat, width: int) {
    i <= j <= |words| && (j <= i + 1 || ByteLen(Join(words[i..j])) <= width)
  }

  function FitOf(words: seq<string>, width: int): Fitting { (i: nat, j: nat) => GoTogether(words, i, j, width) }

  lemma FewerGoTogether(words: seq<string>, i: nat, j: nat, k: nat, l: nat, width: int)
    requires i <= j <= k <= l <= |words| && GoTogether(words, i, l, width)
    ensures GoTogether(words, j, k, width)
  {
    if k > j + 1 {
      JoinMonotone(words[i..l], j - i, k - i);
      SliceSlice(words, i, l, j - i, k - i);
    }
  }

  lemma WordsShrink(words: seq<string>, width: int)
    ensures Shrinks(|words|, FitOf(words, width))
  {
    var fit := FitOf(words, width);
    forall i: nat, j: nat, k: nat, l: nat | i <= j <= k <= l <= |words| && fit(i, l) ensures fit(j, k) {
      FewerGoTogether(words, i, j, k, l, width);
    }
  }

  lemma LineFits(line: string, words: seq<string>, i: nat, width: int)
    requires i + |Fields(line)| <= |words| && words[i..i + |Fields(line)|] == Fields(line) && Fits(line, width)
    ensures GoTogether(words, i, i + |Fields(line)|, width)
  {
    var ws := Fields(line);
    if |ws| > 1 {
      JoinOfFieldsIsShortest(line);
    }
  }

  /** No wrapping of the same words beats the greedy one. */
  lemma {:induction false} GreedyIsOptimal(lines: seq<string>, words: seq<string>, i: nat, width: int)
    requires i <= |words| && IsWrapping(lines, words[i..], width) && Shrinks(|words|, FitOf(words, width))
    ensures Count(|words|, i, FitOf(words, width)) <= |lines|
    decreases |lines|
  {
    if lines != [] && i < |words| {
      var first, rest := Fields(lines[0]), WordsOf(lines[1..]);
      var k := i + |first|;
      ConcatParts(first, rest);
      DropTake(words, i, |first|);
      DropDrop(words, i, |first|);
      LineFits(lines[0], words, i, width);
      GreedyIsOptimal(lines[1..], words, k, width);
      FirstLineBeats(|words|, i, k, FitOf(words, width));
    }
  }

  // ----- The loop -----

  lemma {:induction false} WordsOfAppend(lines: seq<string>, line: string)
    ensures WordsOf(lines + [line]) == WordsOf(lines) + Fields(line)
    decreases |lines|
  {
    if lines != [] {
      assert (lines + [line])[1..] == lines[1..] + [line];
      WordsOfAppend(lines[1..], line);
    }
  }

  /** A finished line: one or more whole words with single spaces between them. */
  predicate Tidy(line: string) {
    Fields(line) != [] && line == Join(Fields(line))
  }

  /** Finished lines, which wrap the words before `start`. */
  ghost predicate Finished(words: seq<string>, lines: seq<string>, start: nat, width: int)
    requires start <= |words|
  {
    IsWrapping(lines, words[..start], width) && forall k :: 0 <= k < |lines| ==> Tidy(lines[k])
  }

  /** `lines` lines are as few as can be for the words before `start`, and the words from there to i
      can share the next one. */
  ghost predicate Filling(words: seq<string>, lines: nat, start: nat, i: nat, fit: Fitting) {
    && start <= i <= |words| && (i > 0 ==> start < i) && fit(start, i)
    && Count(|words|, 0, fit) == lines + Count(|words|, start, fit)
  }

  /** What the loop keeps: finished lines, as few as can be, and `cur` from the words since. */
  ghost predicate Wrapping(words: seq<string>, lines: seq<string>, start: nat, i: nat, cur: string, width: int) {
    && AllWords(words) && Filling(words, |lines|, start, i, FitOf(words, width)) && Finished(words, lines, start, width)
    && cur == Join(words[start..i]) && (cur == "" <==> i == 0)
  }

  function Extended(cur: string, word: string): string { if cur == "" then word else cur + " " + word }

  lemma NothingWrapped(words: seq<string>, width: int)
    requires AllWords(words)
    ensures Wrapping(words, [], 0, 0, "", width)
  {
  }

  lemma ExtendLine(words: seq<string>, lines: seq<string>, start: nat, i: nat, cur: string, width: int)
    requires i < |words| && Wrapping(words, lines, start, i, cur, width)
    requires cur == "" || ByteLen(cur) + 1 + ByteLen(words[i]) <= width
    ensures Wrapping(words, lines, start, i + 1, Extended(cur, words[i]), width)
  {
    OneMoreWord(words, start, i, width);
  }

  lemma BreakLine(words: seq<string>, lines: seq<string>, start: nat, i: nat, cur: string, width: int)
    requires i < |words| && Wrapping(words, lines, start, i, cur, width)
    requires cur != "" && ByteLen(cur) + 1 + ByteLen(words[i]) > width
    ensures Wrapping(words, lines + [cur], i, i + 1, words[i], width)
  {
    OneMoreWord(words, start, i, width);
    WordsShrink(words, width);
    FirstLineEnds(|words|, start, i, FitOf(words, width));
    FinishLine(words, lines, start, i, width);
    OneWord(words, i);
  }

  /** Once the words are used up, the lines and the unfinished one are the wrap. */
  lemma Wrapped(words: seq<string>, lines: seq<string>, start: nat, cur: string, width: int)
    requires Wrapping(words, lines, start, |words|, cur, width)
    ensures var all := if cur == "" then lines else lines + [cur]; IsBest(all, words, width)
  {
    WordsShrink(words, width);
    NoFewerLines(words, width);
    WholeSlice(words);
    if cur != "" {
      FirstLineEnds(|words|, start, |words|, FitOf(words, width));
      FinishLine(words, lines, start, |words|, width);
    }
  }

  /** Tidy lines that wrap the words, and no others that do are fewer. */
  ghost predicate IsBest(lines: seq<string>, words: seq<string>, width: int) {
    && IsWrapping(lines, words, width) && (forall i :: 0 <= i < |lines| ==> Tidy(lines[i]))
    && forall other :: IsWrapping(other, words, width) ==> |lines| <= |other|
  }

  /** Where the loop stands: finished lines, the current one, and the word it began with. */
  datatype State = State(lines: seq<string>, cur: string, start: nat)

  /** One word: it begins a new line, or goes on the current one. */
  function Taken(st: State, word: string, i: nat, width: int): State {
    if st.cur != "" && ByteLen(st.cur) + 1 + ByteLen(word) > width then State(st.lines + [st.cur], word, i)
    else State(st.lines, Extended(st.cur, word), st.start)
  }

  function TakenAll(words: seq<string>, i: nat, width: int): State
    requires i <= |words|
  {
    if i == 0 then State([], "", 0) else Taken(TakenAll(words, i - 1, width), words[i - 1], i - 1, width)
  }

  lemma {:induction false} TakenAllWraps(words: seq<string>, i: nat, width: int)
    requires i <= |words| && AllWords(words)
    ensures var st := TakenAll(words, i, width); Wrapping(words, st.lines, st.start, i, st.cur, width)
    decreases i
  {
    if i == 0 {
      NothingWrapped(words, width);
    } else {
      TakenAllWraps(words, i - 1, width);
      TakenWraps(TakenAll(words, i - 1, width), words, i - 1, width);
    }
  }

  lemma TakenWraps(st: State, words: seq<string>, i: nat, width: int)
    requires i < |words| && Wrapping(words, st.lines, st.start, i, st.cur, width)
    ensures var next := Taken(st, words[i], i, width); Wrapping(words, next.lines, next.start, i + 1, next.cur, width)
  {
    if st.cur != "" && ByteLen(st.cur) + 1 + ByteLen(words[i]) > width {
      BreakLine(words, st.lines, st.start, i, st.cur, width);
    } else {
      ExtendLine(words, st.lines, st.start, i, st.cur, width);
    }
  }

  /** `wrapText`. */
  method WrapText(s: string, width: int) returns (lines: seq<string>)
    ensures IsBest(lines, Fields(s), width)
  {
    var words, cur := Fields(s), "";
    lines := [];
    ghost var start := 0;
    for i := 0 to |words|
      invariant State(lines, cur, start) == TakenAll(words, i, width)
    {
      var word := words[i];
      if cur != "" && ByteLen(cur) + 1 + ByteLen(word) > width {
        lines := lines + [cur];
        cur := word;
        start := i;
        continue;
      }
      ConcatNothing(word);
      if cur != "" {
        cur := cur + " ";
      }
      cur := cur + word;
    }
    TakenAllWraps(words, |words|, width);
    Wrapped(words, lines, start, cur, width);
    if cur != "" {
      lines := lines + [cur];
    }
  }

  lemma NoFewerLines(words: seq<string>, width: int)
    requires Shrinks(|words|, FitOf(words, width))
    ensures forall other :: IsWrapping(other, words, width) ==> Count(|words|, 0, FitOf(words, width)) <= |other|
  {
    WholeSlice(words);
    forall other | IsWrapping(other, words, width) ensures Count(|words|, 0, FitOf(words, width)) <= |other| {
      GreedyIsOptimal(other, words, 0, width);
    }
  }

  lemma OneWord(words: seq<string>, i: nat)
    requires i < |words|
    ensures Join(words[i..i + 1]) == words[i]
  {
    assert words[i..i + 1] == [words[i]];
  }

  /** What the width test says about the current line and the next word. */
  lemma OneMoreWord(words: seq<string>, start: nat, i: nat, width: int)
    requires start <= i < |words| && (i > 0 ==> start < i) && AllWords(words)
    ensures start == i ==> Join(words[start..i + 1]) == words[i]
    ensures start < i ==> Join(words[start..i + 1]) == Join(words[start..i]) + " " + words[i]
    ensures start < i ==> (GoTogether(words, start, i + 1, width)
                           <==> ByteLen(Join(words[start..i])) + 1 + ByteLen(words[i]) <= width)
    ensures words[i] != "" && Join(words[start..i + 1]) != ""
  {
    assert IsWord(words[i]);
    if start == i {
      OneWord(words, i);
    } else {
      SliceSnoc(words, start, i);
      JoinAppend(words[start..i], words[i]);
      ByteLenSpaced(Join(words[start..i]), words[i]);
    }
  }

  /** Closing the current line, because the next word does not fit or there is none. */
  lemma FinishLine(words: seq<string>, lines: seq<string>, start: nat, i: nat, width: int)
    requires AllWords(words) && start < i <= |words| && Finished(words, lines, start, width)
    requires FitOf(words, width)(start, i)
    ensures Finished(words, lines + [Join(words[start..i])], i, width)
  {
    var cur := Join(words[start..i]);
    FieldsOfJoin(words[start..i]);
    WordsOfAppend(lines, cur);
    TakeTake(words, i, start);
    Cut(words[..i], start);
    DropOfTake(words, start, i);
  }
}
