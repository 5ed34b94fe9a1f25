/** The parts of Go's string library the command line leans on.

    A string is a sequence of characters; Go's `len`, which counts UTF-8 bytes,
    is ByteLen. */
module Text {
  import opened Seqs

  // ----- Bytes -----

  /** Bytes of one character in UTF-8: the table in section 3 of RFC 3629. */
  function RuneLen(c: char): nat {
    var n := c as int;
    if n < 0x80 then 1 else if n < 0x800 then 2 else if n < 0x10000 then 3 else 4
  }

  function ByteLen(s: string): nat {
    if s == [] then 0 else ByteLen(s[..|s| - 1]) + RuneLen(s[|s| - 1])
  }

  lemma {:induction false} ByteLenConcat(s: string, t: string)
    ensures ByteLen(s + t) == ByteLen(s) + ByteLen(t)
    decreases |t|
  {
    if t == [] {
      ConcatNothing(s);
    } else {
      var init := t[..|t| - 1];
      ByteLenConcat(s, init);
      LastOff(t);
      ConcatAssociates(s, init, [t[|t| - 1]]);
      SnocInit(s + init, t[|t| - 1]);
    }
  }

  lemma {:induction false} ByteLenAtLeast(s: string)
    ensures |s| <= ByteLen(s)
  {
    if s != [] {
      ByteLenAtLeast(s[..|s| - 1]);
    }
  }

  // ----- Spaces -----

  /** `unicode.IsSpace`. */
  predicate IsSpace(c: char) {
    var n := c as int;
    || 0x09 <= n <= 0x0D || n == 0x20 || n == 0x85 || n == 0xA0 || n == 0x1680
    || 0x2000 <= n <= 0x200A || n == 0x2028 || n == 0x2029 || n == 0x202F || n == 0x205F || n == 0x3000
  }

  /** `strings.TrimSpace`. */
  function TrimSpace(s: string): (t: string) {
    if s == [] then s
    else if IsSpace(s[0]) then TrimSpace(s[1..])
    else if IsSpace(s[|s| - 1]) then TrimSpace(s[..|s| - 1])
    else s
  }

  predicate Trimmed(s: string) {
    s == [] || (!IsSpace(s[0]) && !IsSpace(s[|s| - 1]))
  }

  /** What trimming leaves is trimmed and a part of the text, and it leaves trimmed text alone. */
  lemma {:induction false} TrimSpaceTrims(s: string)
    ensures Trimmed(TrimSpace(s))
    ensures Trimmed(s) <==> TrimSpace(s) == s
    ensures |TrimSpace(s)| <= |s|
    ensures forall c :: Without(s, c) ==> Without(TrimSpace(s), c)
    decreases |s|
  {
    if s == [] {
    } else if IsSpace(s[0]) {
      TrimSpaceTrims(s[1..]);
    } else if IsSpace(s[|s| - 1]) {
      TrimSpaceTrims(s[..|s| - 1]);
    }
  }

  // ----- Words -----

  predicate IsWord(w: string) {
    w != [] && forall i :: 0 <= i < |w| ==> !IsSpace(w[i])
  }

  predicate AllWords(ws: seq<string>) {
    forall i :: 0 <= i < |ws| ==> IsWord(ws[i])
  }

  /** How many characters come before the first space. */
  function WordEnd(s: string): (n: nat)
    ensures n <= |s|
    ensures forall i :: 0 <= i < n ==> !IsSpace(s[i])
    ensures n < |s| ==> IsSpace(s[n])
  {
    if s == [] || IsSpace(s[0]) then 0 else 1 + WordEnd(s[1..])
  }

  /** `strings.Fields`. */
  function Fields(s: string): (ws: seq<string>)
    ensures AllWords(ws)
    decreases |s|
  {
    if s == [] then []
    else if IsSpace(s[0]) then Fields(s[1..])
    else [s[..WordEnd(s)]] + Fields(s[WordEnd(s)..])
  }

  /** `strings.Join(ws, " ")`. */
  function Join(ws: seq<string>): string {
    if ws == [] then [] else if |ws| == 1 then ws[0] else ws[0] + " " + Join(ws[1..])
  }

  lemma FieldsOfWordThen(w: string, rest: string)
    requires IsWord(w)
    requires rest != [] ==> IsSpace(rest[0])
    ensures Fields(w + rest) == [w] + Fields(rest)
  {
    var s := w + rest;
    assert s[0] == w[0];
    var n := WordEnd(s);
    assert forall i :: 0 <= i < |w| ==> s[i] == w[i];
    assert rest != [] ==> s[|w|] == rest[0];
    assert n == |w|;
    assert s[..n] == w && s[n..] == rest;
  }

  lemma FieldsOfWordAndSpace(w: string, tail: string)
    requires IsWord(w)
    ensures Fields(w + " " + tail) == [w] + Fields(tail)
  {
    var rest := " " + tail;
    assert rest[1..] == tail;
    FieldsOfWordThen(w, rest);
    assert w + " " + tail == w + rest;
  }

  lemma {:induction false} FieldsOfJoin(ws: seq<string>)
    requires AllWords(ws)
    ensures Fields(Join(ws)) == ws
  {
    if ws == [] {
    } else if |ws| == 1 {
      FieldsOfWordThen(ws[0], "");
      assert ws[0] + "" == ws[0];
    } else {
      FieldsOfJoin(ws[1..]);
      FieldsOfWordAndSpace(ws[0], Join(ws[1..]));
    }
  }

  lemma ByteLenCons(c: char, s: string)
    ensures ByteLen([c] + s) == RuneLen(c) + ByteLen(s)
  {
    ByteLenConcat([c], s);
  }

  lemma ByteLenSpaced(w: string, t: string)
    ensures ByteLen(w + " " + t) == ByteLen(w) + 1 + ByteLen(t)
  {
    ByteLenConcat(w + " ", t);
    ByteLenConcat(w, " ");
  }

  /** Single spaces are the least that keeps words apart. */
  lemma {:induction false} JoinOfFieldsIsShortest(s: string)
    ensures ByteLen(Join(Fields(s))) <= ByteLen(s)
    decreases |s|
  {
    if s != [] {
      var n := WordEnd(s);
      var rest := s[n..];
      if n > 0 {
        if rest != [] {
          JoinOfFieldsIsShortest(rest[1..]);
          FirstOff(rest);
          ByteLenCons(rest[0], rest[1..]);
        }
        Cut(s, n);
        ByteLenConcat(s[..n], rest);
        JoinOfFirst(s[..n], Fields(rest));
      } else {
        JoinOfFieldsIsShortest(s[1..]);
        FirstOff(s);
        ByteLenCons(s[0], s[1..]);
      }
    }
  }

  lemma JoinOfFirst(w: string, ws: seq<string>)
    ensures ByteLen(Join([w] + ws)) == ByteLen(w) + if ws == [] then 0 else 1 + ByteLen(Join(ws))
  {
    ConsTail(w, ws);
    if ws != [] {
      ByteLenSpaced(w, Join(ws));
    }
  }

  // ----- Splitting at a separator -----

  predicate Without(s: string, sep: char) { forall i :: 0 <= i < |s| ==> s[i] != sep }

  lemma WithoutConcat(a: string, b: string, sep: char)
    ensures Without(a + b, sep) <==> Without(a, sep) && Without(b, sep)
  {
    var s := a + b;
    assert forall i :: 0 <= i < |a| ==> s[i] == a[i];
    assert forall i :: 0 <= i < |b| ==> s[|a| + i] == b[i];
  }

  /** How many characters come before the first separator. */
  function Until(s: string, sep: char): (n: nat)
    ensures n <= |s| && Without(s[..n], sep)
    ensures forall i :: 0 <= i < n ==> s[i] != sep
    ensures n < |s| ==> s[n] == sep
  {
    if s == [] || s[0] == sep then 0 else 1 + Until(s[1..], sep)
  }

  /** `strings.Split(s, sep)` for a one-character separator. */
  function Split(s: string, sep: char): (parts: seq<string>)
    ensures parts != []
    ensures forall i :: 0 <= i < |parts| ==> Without(parts[i], sep)
    decreases |s|
  {
    var n := Until(s, sep);
    if n == |s| then [s] else [s[..n]] + Split(s[n + 1..], sep)
  }

  /** `strings.Join(parts, sep)` for a one-character separator. */
  function JoinWith(parts: seq<string>, sep: char): string {
    if parts == [] then [] else if |parts| == 1 then parts[0]
    else parts[0] + [sep] + JoinWith(parts[1..], sep)
  }

  lemma JoinWithCons(first: string, rest: seq<string>, sep: char)
    requires rest != []
    ensures JoinWith([first] + rest, sep) == first + [sep] + JoinWith(rest, sep)
  {
    assert ([first] + rest)[1..] == rest;
  }

  lemma {:induction false} JoinOfSplit(s: string, sep: char)
    ensures JoinWith(Split(s, sep), sep) == s
    decreases |s|
  {
    var n := Until(s, sep);
    if n < |s| {
      var rest := s[n + 1..];
      JoinOfSplit(rest, sep);
      JoinWithCons(s[..n], Split(rest, sep), sep);
      CutOut(s, n);
    }
  }

  lemma UntilSep(w: string, sep: char, rest: string)
    requires Without(w, sep)
    ensures Until(w + [sep] + rest, sep) == |w|
    ensures Until(w, sep) == |w|
  {
    var s := w + [sep] + rest;
    assert forall i :: 0 <= i < |w| ==> s[i] == w[i];
    assert s[|w|] == sep;
  }

  lemma SplitAtSep(w: string, sep: char, rest: string)
    requires Without(w, sep)
    ensures Split(w + [sep] + rest, sep) == [w] + Split(rest, sep)
  {
    UntilSep(w, sep, rest);
    var s := w + [sep] + rest;
    assert s[..|w|] == w && s[|w| + 1..] == rest;
  }

  lemma {:induction false} SplitOfJoin(parts: seq<string>, sep: char)
    requires parts != [] && forall i :: 0 <= i < |parts| ==> Without(parts[i], sep)
    ensures Split(JoinWith(parts, sep), sep) == parts
    decreases |parts|
  {
    if |parts| == 1 {
      UntilSep(parts[0], sep, "");
    } else {
      SplitOfJoin(parts[1..], sep);
      SplitAtSep(parts[0], sep, JoinWith(parts[1..], sep));
    }
  }

  // ----- Prefixes -----

  predicate HasPrefix(s: string, prefix: string) { prefix <= s }

  function TrimPrefix(s: string, prefix: string): string {
    if prefix <= s then s[|prefix|..] else s
  }

  // ----- Lines and spaces -----

  function Unlines(lines: seq<string>): string {
    if lines == [] then "" else lines[0] + "\n" + Unlines(lines[1..])
  }

  predicate AreLines(lines: seq<string>) { forall i :: 0 <= i < |lines| ==> Without(lines[i], '\n') }

  lemma {:induction false} UnlinesAppend(a: seq<string>, b: seq<string>)
    ensures Unlines(a + b) == Unlines(a) + Unlines(b)
    decreases |a|
  {
    if a == [] {
      ConcatNothing(b);
    } else {
      FirstOff(a);
      ConcatAssociates([a[0]], a[1..], b);
      ConsTail(a[0], a[1..] + b);
      UnlinesAppend(a[1..], b);
      ConcatAssociates(a[0] + "\n", Unlines(a[1..]), Unlines(b));
    }
  }

  lemma {:induction false} SplitOfUnlines(lines: seq<string>)
    requires AreLines(lines)
    ensures Split(Unlines(lines), '\n') == lines + [""]
    decreases |lines|
  {
    if lines != [] {
      var first, rest := lines[0], lines[1..];
      SplitOfUnlines(rest);
      SplitAtSep(first, '\n', Unlines(rest));
      ConcatAssociates([first], rest, [""]);
      FirstOff(lines);
    }
  }

  function Spaces(n: nat): string { if n == 0 then "" else " " + Spaces(n - 1) }

  lemma {:induction false} SpacesAreSpaces(n: nat)
    ensures |Spaces(n)| == n && forall i :: 0 <= i < n ==> Spaces(n)[i] == ' '
  {
    if n > 0 {
      SpacesAreSpaces(n - 1);
    }
  }
}
