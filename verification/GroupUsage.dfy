/** The help of a grouped command and the reference generated from it: `printGroupUsage`
    writes it, the `subcommandLine` expression and `subcommandsOf` read it back. */
module GroupUsage {
  import opened Seqs
  import opened Text
  import opened Wrappers

  datatype Sub = Sub(name: string, args: string, brief: string)

  // ----- The printer -----

  /** The width of the name column. */
  const BRIEF_COLUMN: nat := 34

  /** What the `%-34s` verb adds to so many characters; it does not count bytes. */
  function Padding(n: nat): string {
    if n < BRIEF_COLUMN then Spaces(BRIEF_COLUMN - n) else ""
  }

  function NameAndArgs(s: Sub): string { if s.args != "" then s.name + " " + s.args else s.name }

  /** The spaces between the arguments and the brief: one more in a full column, the padding, and one. */
  function Gap(line: string): string {
    var extra := if ByteLen(line) >= BRIEF_COLUMN then " " else "";
    extra + Padding(|line| + |extra|) + " "
  }

  function SubLine(s: Sub): string { "  " + NameAndArgs(s) + Gap(NameAndArgs(s)) + s.brief }

  function SubLines(subs: seq<Sub>): seq<string> {
    if subs == [] then [] else [SubLine(subs[0])] + SubLines(subs[1..])
  }

  function HeadLines(parent: string, summary: string): seq<string> {
    [summary, "", "Usage:", "  zoomies " + parent + " <subcommand> [flags]", "", "Subcommands:"]
  }

  function TailLines(parent: string): seq<string> {
    ["", "Run \"zoomies " + parent + " <subcommand> --help\" for the flags each one takes."]
  }

  function Usage(parent: string, summary: string, subs: seq<Sub>): string {
    Unlines(HeadLines(parent, summary) + SubLines(subs) + TailLines(parent))
  }

  // ----- The expression: two spaces, a word, words, two or more spaces, the brief -----

  /** The class \s. */
  predicate Blank(c: char) { c == '\t' || c == '\n' || c == '\U{000C}' || c == '\r' || c == ' ' }

  predicate NoBlank(s: string) { forall i :: 0 <= i < |s| ==> !Blank(s[i]) }

  predicate AllBlank(s: string) { forall i :: 0 <= i < |s| ==> Blank(s[i]) }

  /** A space and a word, any number of times. */
  predicate SpacedWords(s: string)
    decreases |s|
  {
    s == "" || exists n {:trigger s[n..]} :: 1 < n <= |s| && s[0] == ' ' && NoBlank(s[1..n]) && SpacedWords(s[n..])
  }

  datatype Match = Match(name: string, args: string, gap: string, brief: string)

  predicate Matches(line: string, m: Match) {
    && line == "  " + (m.name + (m.args + (m.gap + m.brief)))
    && m.name != "" && NoBlank(m.name)
    && SpacedWords(m.args)
    && |m.gap| >= 2 && AllBlank(m.gap)
    && m.brief != "" && Without(m.brief, '\n')
  }

  function WordRun(s: string): (n: nat)
    ensures n <= |s| && (forall i :: 0 <= i < n ==> !Blank(s[i])) && (n < |s| ==> Blank(s[n]))
  {
    if s == "" || Blank(s[0]) then 0 else 1 + WordRun(s[1..])
  }

  function BlankRun(s: string): (n: nat)
    ensures n <= |s| && (forall i :: 0 <= i < n ==> Blank(s[i])) && (n < |s| ==> !Blank(s[n]))
  {
    if s == "" || !Blank(s[0]) then 0 else 1 + BlankRun(s[1..])
  }

  /** How far spaced words reach. */
  function ArgsRun(s: string): (n: nat)
    ensures n <= |s| && SpacedWords(s[..n])
    ensures n < |s| && s[n] == ' ' ==> n + 1 == |s| || Blank(s[n + 1])
    ensures n < |s| ==> n == 0 || Blank(s[n])
    decreases |s|
  {
    if |s| < 2 || s[0] != ' ' || Blank(s[1]) then 0
    else
      var w := 1 + WordRun(s[1..]);
      var n := w + ArgsRun(s[w..]);
      assert s[..n][w..] == s[w..][..n - w];
      assert s[..n][1..w] == s[1..][..w - 1];
      n
  }

  /** How much of the rest the gap takes: every blank, but never the last character. */
  function GapRun(s: string): (g: nat)
    ensures g <= |s| && AllBlank(s[..g])
    ensures s != "" ==> g < |s| && (g + 1 == |s| || !Blank(s[g]))
  {
    var run := BlankRun(s);
    if run == |s| && run > 0 then run - 1 else run
  }

  /** The submatches when the name takes n characters and the arguments the next k. */
  function MatchAt(s: string, n: nat, k: nat): Option<Match>
    requires n + k <= |s|
  {
    var afterName := s[n..];
    var rest := afterName[k..];
    var g := GapRun(rest);
    if n == 0 || g < 2 || !Without(rest[g..], '\n') then None
    else Some(Match(s[..n], afterName[..k], rest[..g], rest[g..]))
  }

  /** The submatches, as the expression prefers them. */
  function FindMatch(line: string): Option<Match> {
    if !HasPrefix(line, "  ") then None
    else
      var s := line[2..];
      MatchAt(s, WordRun(s), ArgsRun(s[WordRun(s)..]))
  }

  lemma MatchAtIsWhole(s: string, n: nat, k: nat)
    requires n + k <= |s| && MatchAt(s, n, k).Some?
    ensures var m := MatchAt(s, n, k).value; s == m.name + (m.args + (m.gap + m.brief))
    ensures var m := MatchAt(s, n, k).value;
      m.name == s[..n] && m.args == s[n..][..k] && AllBlank(m.gap) && m.brief != ""
  {
    Cut(s, n);
    Cut(s[n..], k);
    Cut(s[n..][k..], GapRun(s[n..][k..]));
  }

  lemma FoundMatches(line: string)
    ensures FindMatch(line).Some? ==> Matches(line, FindMatch(line).value)
  {
    if FindMatch(line).Some? {
      var s := line[2..];
      Cut(line, 2);
      assert line[..2] == "  ";
      MatchAtIsWhole(s, WordRun(s), ArgsRun(s[WordRun(s)..]));
    }
  }

  lemma WordRunIs(w: string, rest: string)
    requires NoBlank(w) && (rest != "" ==> Blank(rest[0]))
    ensures WordRun(w + rest) == |w|
  {
    var s := w + rest;
    assert forall i :: 0 <= i < |w| ==> s[i] == w[i];
    assert rest != "" ==> s[|w|] == rest[0];
  }

  lemma {:induction false} ArgsRunIs(args: string, rest: string)
    requires SpacedWords(args) && |rest| >= 2 && Blank(rest[0]) && Blank(rest[1])
    ensures ArgsRun(args + rest) == |args|
    decreases |args|
  {
    if args == "" {
      ConcatNothing(rest);
    } else {
      var n :| 1 < n <= |args| && args[0] == ' ' && NoBlank(args[1..n]) && SpacedWords(args[n..]);
      var tail := args[n..];
      ArgsRunIs(tail, rest);
      SpacedWordsStart(tail);
      ArgsRunStep(args[1..n], tail + rest);
      Cut(args, n);
      FirstOff(args[..n]);
      assert args[..n][1..] == args[1..n];
      ConcatAssociates(args[..n], tail, rest);
    }
  }

  lemma ArgsRunStep(w: string, rest: string)
    requires w != "" && NoBlank(w) && rest != "" && Blank(rest[0])
    ensures ArgsRun((" " + w) + rest) == 1 + |w| + ArgsRun(rest)
  {
    var s := (" " + w) + rest;
    ConcatAssociates(" ", w, rest);
    ConsTail(' ', w + rest);
    assert s[1] == w[0];
    WordRunIs(w, rest);
    ConcatParts(" " + w, rest);
  }

  lemma SpacedWordsStart(args: string)
    requires SpacedWords(args)
    ensures args != "" ==> args[0] == ' '
  {
  }

  /** A line has one name and one list of arguments; only the gap is a matter of preference. */
  lemma FindMatchPrefers(line: string, m: Match)
    requires Matches(line, m)
    ensures FindMatch(line).Some?
    ensures var f := FindMatch(line).value;
      f.name == m.name && f.args == m.args && |m.gap| <= |f.gap| && f.gap + f.brief == m.gap + m.brief
  {
    var after := m.gap + m.brief;
    var s := m.name + (m.args + after);
    ConcatParts("  ", s);
    assert after[0] == m.gap[0] && after[1] == m.gap[1];
    SpacedWordsStart(m.args);
    WordRunIs(m.name, m.args + after);
    ArgsRunIs(m.args, after);
    ConcatParts(m.name, m.args + after);
    MatchAtPieces(m);
  }

  lemma MatchAtPieces(m: Match)
    requires m.name != "" && |m.gap| >= 2 && AllBlank(m.gap) && m.brief != "" && Without(m.brief, '\n')
    ensures var found := MatchAt(m.name + (m.args + (m.gap + m.brief)), |m.name|, |m.args|);
      && found.Some? && found.value.name == m.name && found.value.args == m.args
      && |m.gap| <= |found.value.gap| && found.value.gap + found.value.brief == m.gap + m.brief
  {
    var after := m.gap + m.brief;
    var afterName := m.args + after;
    var s := m.name + afterName;
    ConcatParts(m.name, afterName);
    ConcatParts(m.args, after);
    GapTakes(m.gap, m.brief);
  }

  lemma GapTakes(gap: string, brief: string)
    requires AllBlank(gap) && brief != "" && Without(brief, '\n')
    ensures var all := gap + brief; var g := GapRun(all);
      |gap| <= g && all[..g] + all[g..] == all && Without(all[g..], '\n')
  {
    var all := gap + brief;
    var g := GapRun(all);
    assert forall i :: 0 <= i < |gap| ==> all[i] == gap[i];
    assert |gap| <= BlankRun(all);
    assert all[g..] == brief[g - |gap|..];
  }

  // ----- One line there and back -----

  /** What the reference generator makes of a line. */
  function ParseLine(line: string): Option<Sub> {
    match FindMatch(line)
    case None => None
    case Some(m) => Some(Sub(m.name, TrimSpace(m.args), m.brief))
  }

  /** A blank is a single space between words. */
  predicate SingleSpaced(s: string) {
    forall i :: 0 <= i < |s| && Blank(s[i]) ==> s[i] == ' ' && (i + 1 < |s| ==> !Blank(s[i + 1]))
  }

  predicate WellFormed(s: Sub) {
    && s.name != "" && NoBlank(s.name)
    && Trimmed(s.args) && SingleSpaced(s.args)
    && s.brief != "" && Without(s.brief, '\n') && (|s.brief| == 1 || !Blank(s.brief[0]))
  }

  /** However long the line, at least two spaces come before the brief. */
  lemma GapIsWide(line: string)
    ensures |Gap(line)| >= 2 && forall i :: 0 <= i < |Gap(line)| ==> Gap(line)[i] == ' '
  {
    ByteLenAtLeast(line);
    var extra := if ByteLen(line) >= BRIEF_COLUMN then " " else "";
    var n := |line| + |extra|;
    if n < BRIEF_COLUMN {
      SpacesAreSpaces(BRIEF_COLUMN - n);
    }
  }

  /** Briefs stand in one column, unless what comes before takes its whole width. */
  lemma BriefsAlign(s: Sub)
    requires ByteLen(NameAndArgs(s)) < BRIEF_COLUMN
    ensures |SubLine(s)| == 2 + 34 + 1 + |s.brief| && SubLine(s)[2 + 34 + 1..] == s.brief
  {
    var line := NameAndArgs(s);
    ByteLenAtLeast(line);
    SpacesAreSpaces(BRIEF_COLUMN - |line|);
    ConcatParts("  " + line + Gap(line), s.brief);
  }

  lemma {:induction false} ArgsAreSpacedWords(args: string)
    requires args != "" && !Blank(args[0]) && !Blank(args[|args| - 1]) && SingleSpaced(args)
    ensures SpacedWords(" " + args)
    decreases |args|
  {
    var s := " " + args;
    var n := WordRun(args);
    assert s[1..n + 1] == args[..n];
    if n == |args| {
      assert s[n + 1..] == "";
    } else {
      var rest := args[n + 1..];
      assert args[n] == ' ' && n + 1 < |args|;
      assert forall i :: 0 <= i < |rest| ==> rest[i] == args[n + 1 + i];
      ArgsAreSpacedWords(rest);
      assert s[n + 1..] == " " + rest;
    }
  }

  lemma WellFormedReadsBack(s: Sub)
    requires WellFormed(s)
    ensures ParseLine(SubLine(s)) == Some(s)
  {
    var m := OwnMatch(s);
    OwnMatchMatches(s);
    FindMatchPrefers(SubLine(s), m);
    FoundMatches(SubLine(s));
    var f := FindMatch(SubLine(s)).value;
    SameSplit(f.gap, f.brief, m.gap, s.brief);
    SpacedArgsTrim(s.args);
  }

  /** How a subcommand's own line is meant to match. */
  function OwnMatch(s: Sub): Match {
    Match(s.name, if s.args == "" then "" else " " + s.args, Gap(NameAndArgs(s)), s.brief)
  }

  lemma OwnMatchMatches(s: Sub)
    requires WellFormed(s)
    ensures Matches(SubLine(s), OwnMatch(s))
  {
    var m := OwnMatch(s);
    GapIsWide(NameAndArgs(s));
    assert SubLine(s) == "  " + (s.name + (m.args + (m.gap + s.brief)));
    if s.args != "" {
      ArgsAreSpacedWords(s.args);
    }
  }

  lemma SpacedArgsTrim(args: string)
    requires Trimmed(args)
    ensures TrimSpace(args) == args && TrimSpace(" " + args) == args
  {
    TrimSpaceTrims(args);
    ConsTail(' ', args);
  }

  lemma SameSplit(gap: string, brief: string, gap': string, brief': string)
    requires gap + brief == gap' + brief' && |gap'| <= |gap| && AllBlank(gap) && brief != ""
    requires |brief'| == 1 || !Blank(brief'[0])
    ensures gap == gap' && brief == brief'
  {
    var all := gap + brief;
    assert all[|gap'|] == brief'[0] && forall i :: 0 <= i < |gap| ==> all[i] == gap[i];
    assert gap == all[..|gap|] && gap' == all[..|gap'|];
    assert brief == all[|gap|..] && brief' == all[|gap'|..];
  }

  lemma {:induction false} SpacedWordsSingleSpaced(args: string)
    requires SpacedWords(args)
    ensures SingleSpaced(args)
    decreases |args|
  {
    if args != "" {
      var n :| 1 < n <= |args| && args[0] == ' ' && NoBlank(args[1..n]) && SpacedWords(args[n..]);
      SpacedWordsSingleSpaced(args[n..]);
      assert forall i :: n <= i < |args| ==> args[i] == args[n..][i - n];
      assert forall i :: 1 <= i < n ==> args[i] == args[1..n][i - 1];
    }
  }

  lemma {:induction false} TrimKeepsSingleSpaced(s: string)
    requires SingleSpaced(s)
    ensures SingleSpaced(TrimSpace(s))
    decreases |s|
  {
    if s != "" && IsSpace(s[0]) {
      TrimKeepsSingleSpaced(s[1..]);
    } else if s != "" && IsSpace(s[|s| - 1]) {
      TrimKeepsSingleSpaced(s[..|s| - 1]);
    }
  }

  /** Whatever the line, what is read from it is well formed. */
  lemma OnlyWellFormed(line: string)
    ensures ParseLine(line).Some? ==> WellFormed(ParseLine(line).value)
  {
    FoundMatches(line);
    if FindMatch(line).Some? {
      var m := FindMatch(line).value;
      SpacedWordsSingleSpaced(m.args);
      TrimKeepsSingleSpaced(m.args);
      TrimSpaceTrims(m.args);
    }
  }

  // ----- The whole help -----

  /** The subcommands some lines of help list, given whether the block has begun. */
  function SubsIn(lines: seq<string>, inside: bool): seq<Sub>
    decreases |lines|
  {
    if lines == [] then []
    else if lines[0] == "Subcommands:" then SubsIn(lines[1..], true)
    else if inside && HasPrefix(lines[0], "  ") then
      (match ParseLine(lines[0]) case None => [] case Some(s) => [s]) + SubsIn(lines[1..], true)
    else SubsIn(lines[1..], false)
  }

  method SubcommandsOf(help: string) returns (subs: seq<Sub>)
    ensures subs == SubsIn(Split(help, '\n'), false)
  {
    var lines := Split(help, '\n');
    subs := [];
    var inside := false;
    ghost var todo := SubsIn(lines, false);
    assert lines[0..] == lines;
    for i := 0 to |lines|
      invariant todo == SubsIn(lines[i..], inside)
      invariant SubsIn(lines, false) == subs + todo
    {
      var line := lines[i];
      assert lines[i..][1..] == lines[i + 1..];
      if line == "Subcommands:" {
        inside := true;
      } else if inside && HasPrefix(line, "  ") {
        var m := ParseLine(line);
        if m.Some? {
          ConcatAssociates(subs, [m.value], SubsIn(lines[i + 1..], true));
          subs := subs + [m.value];
        }
      } else if inside {
        inside := false;
      }
      todo := SubsIn(lines[i + 1..], inside);
    }
  }

  method PrintGroupUsage(parent: string, summary: string, subs: seq<Sub>) returns (out: string)
    ensures out == Usage(parent, summary, subs)
  {
    out := summary + "\n" + "" + "\n" + "Usage:" + "\n";
    out := out + ("  zoomies " + parent + " <subcommand> [flags]" + "\n" + "" + "\n" + "Subcommands:" + "\n");
    HeadText(parent, summary);
    for i := 0 to |subs|
      invariant out == Unlines(HeadLines(parent, summary) + SubLines(subs[..i]))
    {
      var s := subs[i];
      var line := s.name;
      if s.args != "" {
        line := line + " " + s.args;
      }
      if ByteLen(line) >= BRIEF_COLUMN {
        line := line + " ";
      }
      LineText(s, line);
      PrintedSub(parent, summary, subs, i);
      out := out + ("  " + (line + Padding(|line|)) + " " + s.brief + "\n");
    }
    assert subs[..|subs|] == subs;
    UnlinesAppend(HeadLines(parent, summary) + SubLines(subs), TailLines(parent));
    TailText(parent);
    out := out + ("\nRun \"zoomies " + parent + " <subcommand> --help\" for the flags each one takes.\n");
  }

  lemma HeadText(parent: string, summary: string)
    ensures Unlines(HeadLines(parent, summary) + [])
         == (summary + "\n" + "" + "\n" + "Usage:" + "\n")
            + ("  zoomies " + parent + " <subcommand> [flags]" + "\n" + "" + "\n" + "Subcommands:" + "\n")
  {
    var usage := "  zoomies " + parent + " <subcommand> [flags]";
    ThreeLines(summary, "", "Usage:");
    ThreeLines(usage, "", "Subcommands:");
    UnlinesAppend([summary, "", "Usage:"], [usage, "", "Subcommands:"]);
    assert HeadLines(parent, summary) + [] == [summary, "", "Usage:"] + [usage, "", "Subcommands:"];
  }

  lemma ThreeLines(a: string, b: string, c: string)
    ensures Unlines([a, b, c]) == a + "\n" + b + "\n" + c + "\n"
  {
    assert [a, b, c][1..] == [b, c] && [b, c][1..] == [c] && [c][1..] == [];
    assert Unlines([c]) == c + "\n";
    assert Unlines([b, c]) == b + "\n" + (c + "\n");
  }

  lemma TailText(parent: string)
    ensures Unlines(TailLines(parent))
         == "\nRun \"zoomies " + parent + " <subcommand> --help\" for the flags each one takes.\n"
  {
    var l := TailLines(parent);
    assert l[1..][1..] == [];
    assert Unlines(l[1..]) == l[1] + "\n";
  }

  lemma LineText(s: Sub, line: string)
    requires line == if ByteLen(NameAndArgs(s)) >= BRIEF_COLUMN then NameAndArgs(s) + " " else NameAndArgs(s)
    ensures "  " + (line + Padding(|line|)) + " " + s.brief + "\n" == SubLine(s) + "\n"
  {
    var whole := NameAndArgs(s);
    var extra := if ByteLen(whole) >= BRIEF_COLUMN then " " else "";
    ConcatNothing(whole);
    Parts("  ", whole, extra, Padding(|line|), s.brief);
  }

  lemma Parts(indent: string, whole: string, extra: string, padding: string, brief: string)
    ensures indent + ((whole + extra) + padding) + " " + brief == indent + whole + (extra + padding + " ") + brief
  {
  }

  lemma {:induction false} SubLinesAppend(subs: seq<Sub>, s: Sub)
    ensures SubLines(subs + [s]) == SubLines(subs) + [SubLine(s)]
    decreases |subs|
  {
    if subs != [] {
      assert (subs + [s])[1..] == subs[1..] + [s];
      SubLinesAppend(subs[1..], s);
    }
  }

  lemma PrintedSub(parent: string, summary: string, subs: seq<Sub>, i: nat)
    requires i < |subs|
    ensures Unlines(HeadLines(parent, summary) + SubLines(subs[..i + 1]))
         == Unlines(HeadLines(parent, summary) + SubLines(subs[..i])) + (SubLine(subs[i]) + "\n")
  {
    assert subs[..i + 1] == subs[..i] + [subs[i]];
    SubLinesAppend(subs[..i], subs[i]);
    ConcatAssociates(HeadLines(parent, summary), SubLines(subs[..i]), [SubLine(subs[i])]);
    UnlinesAppend(HeadLines(parent, summary) + SubLines(subs[..i]), [SubLine(subs[i])]);
    assert Unlines([SubLine(subs[i])]) == SubLine(subs[i]) + "\n" + Unlines([]);
  }

  // ----- The whole help there and back -----

  /** `strings.TrimRight(text, "\n")`. */
  function TrimNewlines(text: string): string {
    if text != "" && text[|text| - 1] == '\n' then TrimNewlines(text[..|text| - 1]) else text
  }

  /** `helpOf`: what a help request printed, ending in one newline. */
  function HelpOf(printed: string): string { TrimNewlines(printed) + "\n" }

  lemma HelpOfUsage(parent: string, summary: string, subs: seq<Sub>)
    ensures HelpOf(Usage(parent, summary, subs)) == Usage(parent, summary, subs)
  {
    var text := Usage(parent, summary, subs);
    UnlinesAppend(HeadLines(parent, summary) + SubLines(subs), TailLines(parent));
    TailText(parent);
    var head := text[..|text| - 1];
    assert text == head + "\n" && head[|head| - 1] == '.';
    assert TrimNewlines(head) == head;
  }

  lemma {:induction false} OnlyWellFormedIn(lines: seq<string>, inside: bool)
    ensures forall i :: 0 <= i < |SubsIn(lines, inside)| ==> WellFormed(SubsIn(lines, inside)[i])
    decreases |lines|
  {
    if lines != [] {
      OnlyWellFormedIn(lines[1..], true);
      OnlyWellFormedIn(lines[1..], false);
      OnlyWellFormed(lines[0]);
    }
  }

  lemma WellFormedLine(s: Sub)
    requires WellFormed(s)
    ensures HasPrefix(SubLine(s), "  ") && SubLine(s) != "Subcommands:" && Without(SubLine(s), '\n')
  {
    var line := SubLine(s);
    assert line[0] == ' ' && line[1] == ' ';
    GapIsWide(NameAndArgs(s));
  }

  /** Inside the block, one line per subcommand, then the line that ends it. */
  lemma {:induction false} BlockReadsBack(subs: seq<Sub>, tail: seq<string>)
    requires forall i :: 0 <= i < |subs| ==> WellFormed(subs[i])
    ensures SubsIn(SubLines(subs) + tail, true) == subs + SubsIn(tail, true)
    decreases |subs|
  {
    if subs == [] {
      assert SubLines(subs) + tail == tail;
    } else {
      var first, rest := subs[0], subs[1..];
      BlockReadsBack(rest, tail);
      InsideLine(first, SubLines(rest) + tail);
      ConcatAssociates([SubLine(first)], SubLines(rest), tail);
      ConcatAssociates([first], rest, SubsIn(tail, true));
      assert [first] + rest == subs;
    }
  }

  lemma InsideLine(s: Sub, rest: seq<string>)
    requires WellFormed(s)
    ensures SubsIn([SubLine(s)] + rest, true) == [s] + SubsIn(rest, true)
  {
    assert ([SubLine(s)] + rest)[1..] == rest;
    WellFormedLine(s);
    WellFormedReadsBack(s);
  }

  lemma {:induction false} SubLinesAreLines(subs: seq<Sub>)
    requires forall i :: 0 <= i < |subs| ==> WellFormed(subs[i])
    ensures AreLines(SubLines(subs))
    decreases |subs|
  {
    if subs != [] {
      WellFormedLine(subs[0]);
      SubLinesAreLines(subs[1..]);
    }
  }

  /** Skipping a line outside the block. */
  lemma OutsideLine(line: string, rest: seq<string>, inside: bool)
    requires line != "Subcommands:" && (inside ==> !HasPrefix(line, "  "))
    ensures SubsIn([line] + rest, inside) == SubsIn(rest, false)
  {
    assert ([line] + rest)[1..] == rest;
  }

  lemma HeadSkipped(parent: string, summary: string, rest: seq<string>)
    ensures SubsIn(HeadLines(parent, summary) + rest, false) == SubsIn(rest, true)
  {
    var usage := "  zoomies " + parent + " <subcommand> [flags]";
    assert usage[0] == ' ';
    var l5 := ["Subcommands:"] + rest;
    assert l5[1..] == rest;
    OutsideLine("", l5, false);
    var l4 := [""] + l5;
    OutsideLine(usage, l4, false);
    var l3 := [usage] + l4;
    OutsideLine("Usage:", l3, false);
    var l2 := ["Usage:"] + l3;
    OutsideLine("", l2, false);
    OutsideLine("", l2, true);
    var l1 := [""] + l2;
    assert ([summary] + l1)[1..] == l1;
    assert HeadLines(parent, summary) + rest == [summary] + l1;
  }

  lemma TailSkipped(parent: string)
    ensures SubsIn(TailLines(parent) + [""], true) == []
  {
    var run := TailLines(parent)[1];
    assert run[0] == 'R';
    OutsideLine("", [], false);
    OutsideLine(run, [""], false);
    OutsideLine("", [run] + [""], true);
    assert [""] + [] == [""];
    assert TailLines(parent) + [""] == [""] + ([run] + [""]);
  }

  lemma TailIsLines(parent: string)
    requires Without(parent, '\n')
    ensures AreLines(TailLines(parent))
  {
    var a, b, c := "Run \"zoomies ", " <subcommand> --help\"", " for the flags each one takes.";
    assert Without(a, '\n') && Without(b, '\n') && Without(c, '\n');
    WithoutConcat(a, parent, '\n');
    WithoutConcat(b, c, '\n');
    WithoutConcat(a + parent, b + c, '\n');
    assert TailLines(parent)[1] == (a + parent) + (b + c);
  }

  lemma WellFormedUsageReadsBack(parent: string, summary: string, subs: seq<Sub>)
    requires Without(parent, '\n') && Without(summary, '\n')
    requires forall i :: 0 <= i < |subs| ==> WellFormed(subs[i])
    ensures SubsIn(Split(Usage(parent, summary, subs), '\n'), false) == subs
  {
    var tail := TailLines(parent) + [""];
    UsageLines(parent, summary, subs);
    HeadSkipped(parent, summary, SubLines(subs) + tail);
    BlockReadsBack(subs, tail);
    TailSkipped(parent);
  }

  lemma UsageLines(parent: string, summary: string, subs: seq<Sub>)
    requires Without(parent, '\n') && Without(summary, '\n')
    requires forall i :: 0 <= i < |subs| ==> WellFormed(subs[i])
    ensures Split(Usage(parent, summary, subs), '\n')
         == HeadLines(parent, summary) + (SubLines(subs) + (TailLines(parent) + [""]))
  {
    SubLinesAreLines(subs);
    HeadIsLines(parent, summary);
    TailIsLines(parent);
    SplitOfThree(HeadLines(parent, summary), SubLines(subs), TailLines(parent));
  }

  lemma SplitOfThree(a: seq<string>, b: seq<string>, c: seq<string>)
    requires AreLines(a) && AreLines(b) && AreLines(c)
    ensures Split(Unlines(a + b + c), '\n') == a + (b + (c + [""]))
  {
    SplitOfUnlines(a + b + c);
    ConcatAssociates(a + b, c, [""]);
    ConcatAssociates(a, b, c + [""]);
  }

  lemma HeadIsLines(parent: string, summary: string)
    requires Without(parent, '\n') && Without(summary, '\n')
    ensures AreLines(HeadLines(parent, summary))
  {
    var a, b := "  zoomies ", " <subcommand> [flags]";
    assert Without(a, '\n') && Without(b, '\n');
    WithoutConcat(a, parent, '\n');
    WithoutConcat(a + parent, b, '\n');
  }

  /** The reference lists every subcommand of a group, with its name, arguments and brief, in
      order, if and only if each of them is well formed -- however long its line is. */
  lemma UsageReadsBack(parent: string, summary: string, subs: seq<Sub>)
    requires Without(parent, '\n') && Without(summary, '\n')
    ensures SubsIn(Split(HelpOf(Usage(parent, summary, subs)), '\n'), false) == subs
       <==> forall i :: 0 <= i < |subs| ==> WellFormed(subs[i])
  {
    HelpOfUsage(parent, summary, subs);
    OnlyWellFormedIn(Split(Usage(parent, summary, subs), '\n'), false);
    if forall i :: 0 <= i < |subs| ==> WellFormed(subs[i]) {
      WellFormedUsageReadsBack(parent, summary, subs);
    }
  }
}
