/** The edit distance behind "Did you mean ...?" and the suggestion built on it.

    The two-row loop of `editDistance` is proved to return the least number of
    single-byte insertions, deletions and substitutions, at any positions
    and in any order, that turn one word into the other. */
module EditDistance {
  import opened Seqs

  /** A word as Go indexes it: by its bytes. */
  type Word = seq<bv8>

  // ----- What the number means: scripts of edits anywhere in the word -----

  datatype Edit =
    | Insert(at: nat, c: bv8)
    | Delete(at: nat)
    | Substitute(at: nat, c: bv8)

  predicate Applicable(s: Word, e: Edit) {
    if e.Insert? then e.at <= |s| else e.at < |s|
  }

  function Apply(s: Word, e: Edit): Word
    requires Applicable(s, e)
  {
    match e
    case Insert(at, c) => s[..at] + [c] + s[at..]
    case Delete(at) => s[..at] + s[at + 1..]
    case Substitute(at, c) => s[..at] + [c] + s[at + 1..]
  }

  /** `script` turns `a` into `b`, one edit after the other. */
  predicate Turns(a: Word, script: seq<Edit>, b: Word)
    decreases |script|
  {
    if script == [] then a == b
    else Applicable(a, script[0]) && Turns(Apply(a, script[0]), script[1..], b)
  }

  /** The specification of an edit distance. */
  ghost predicate IsLeastEdits(a: Word, b: Word, d: nat) {
    && (exists script :: Turns(a, script, b) && |script| == d)
    && (forall script :: Turns(a, script, b) ==> d <= |script|)
  }

  // ----- The recurrence the table follows -----

  function Min(x: nat, y: nat): nat { if x <= y then x else y }

  function Cost(x: bv8, y: bv8): nat { if x == y then 0 else 1 }

  function Lev(a: Word, b: Word): nat
    decreases |a| + |b|
  {
    if |a| == 0 then |b|
    else if |b| == 0 then |a|
    else
      var a' := a[..|a| - 1];
      var b' := b[..|b| - 1];
      Min(Min(Lev(a', b) + 1, Lev(a, b') + 1), Lev(a', b') + Cost(a[|a| - 1], b[|b| - 1]))
  }

  lemma {:induction false} LevSymmetric(a: Word, b: Word)
    ensures Lev(a, b) == Lev(b, a)
    decreases |a| + |b|
  {
    if a != [] && b != [] {
      LevSymmetric(a[..|a| - 1], b);
      LevSymmetric(a, b[..|b| - 1]);
      LevSymmetric(a[..|a| - 1], b[..|b| - 1]);
    }
  }

  /** Dropping the last byte of either word moves the distance by at most one. */
  lemma {:induction false} LevDropLast(a: Word, b: Word)
    requires a != []
    ensures Lev(a, b) <= Lev(a[..|a| - 1], b) + 1
    ensures Lev(a[..|a| - 1], b) <= Lev(a, b) + 1
    decreases |a| + |b|
  {
    if b != [] {
      var a', b' := a[..|a| - 1], b[..|b| - 1];
      LevDropLast(a, b');
      LevSymmetric(a', b);
      LevSymmetric(a', b');
      LevDropLast(b, a');
    }
  }

  lemma {:induction false} LevZero(a: Word, b: Word)
    ensures Lev(a, b) == 0 <==> a == b
    decreases |a| + |b|
  {
    if a != [] && b != [] {
      LevZero(a[..|a| - 1], b[..|b| - 1]);
      LastOff(a);
      LastOff(b);
    }
  }

  lemma {:induction false} LevTriangle(a: Word, b: Word, c: Word)
    ensures Lev(a, c) <= Lev(a, b) + Lev(b, c)
    decreases |a| + |b| + |c|
  {
    if a == [] {
      LevLength(b, c);
    } else if c == [] {
      LevLength(a, b);
    } else if b == [] {
      LevLength(a, c);
    } else {
      var a', b', c' := a[..|a| - 1], b[..|b| - 1], c[..|c| - 1];
      LevTriangle(a', b, c);
      LevTriangle(a, b', c);
      LevTriangle(a, b, c');
      LevTriangle(a', b', c);
      LevTriangle(a, b', c');
      LevTriangle(a', b', c');
      LevDropLast(a, c);
      LevSymmetric(a, c);
      LevSymmetric(a, c');
      LevDropLast(c, a);
    }
  }

  /** The lengths differ by at most the distance, which is never more than both together. */
  lemma {:induction false} LevLength(a: Word, b: Word)
    ensures Lev(a, b) <= |a| + |b|
    ensures |a| <= |b| + Lev(a, b)
    ensures |b| <= |a| + Lev(a, b)
    decreases |a| + |b|
  {
    if a != [] && b != [] {
      LevLength(a[..|a| - 1], b);
      LevLength(a, b[..|b| - 1]);
      LevLength(a[..|a| - 1], b[..|b| - 1]);
    }
  }

  // ----- No script is shorter than the recurrence says -----

  /** A tail both words share costs nothing. */
  lemma {:induction false} LevCommonTail(x: Word, y: Word, tail: Word)
    ensures Lev(x + tail, y + tail) <= Lev(x, y)
    decreases |tail|
  {
    if tail == [] {
      assert x + tail == x && y + tail == y;
    } else {
      var n := |tail| - 1;
      LevCommonTail(x, y, tail[..n]);
      assert (x + tail)[..|x + tail| - 1] == x + tail[..n];
      assert (y + tail)[..|y + tail| - 1] == y + tail[..n];
    }
  }

  lemma LastOneAway(head: Word, c: bv8, d: bv8)
    ensures Lev(head, head + [c]) <= 1
    ensures Lev(head + [d], head) <= 1
    ensures Lev(head + [d], head + [c]) <= 1
  {
    LevZero(head, head);
    assert (head + [c])[..|head|] == head;
    assert (head + [d])[..|head|] == head;
  }

  lemma OneEditIsOneAway(s: Word, e: Edit)
    requires Applicable(s, e)
    ensures Lev(s, Apply(s, e)) <= 1
  {
    var head := s[..e.at];
    if e.Insert? {
      LastOneAway(head, e.c, e.c);
      LevCommonTail(head, head + [e.c], s[e.at..]);
      assert s == head + s[e.at..];
    } else {
      var d, tail := s[e.at], s[e.at + 1..];
      assert s == head + [d] + tail;
      if e.Delete? {
        LastOneAway(head, d, d);
        LevCommonTail(head + [d], head, tail);
      } else {
        LastOneAway(head, e.c, d);
        LevCommonTail(head + [d], head + [e.c], tail);
      }
    }
  }

  lemma {:induction false} NoShorterScript(a: Word, script: seq<Edit>, b: Word)
    requires Turns(a, script, b)
    ensures Lev(a, b) <= |script|
    decreases |script|
  {
    if script == [] {
      LevZero(a, b);
    } else {
      var next := Apply(a, script[0]);
      NoShorterScript(next, script[1..], b);
      OneEditIsOneAway(a, script[0]);
      LevTriangle(a, next, b);
    }
  }

  // ----- Some script is that short -----

  /** A script that works on a word works on the head of a longer one. */
  lemma {:induction false} TurnsHead(a: Word, script: seq<Edit>, b: Word, tail: Word)
    requires Turns(a, script, b)
    ensures Turns(a + tail, script, b + tail)
    decreases |script|
  {
    if script != [] {
      ApplyHead(a, script[0], tail);
      TurnsHead(Apply(a, script[0]), script[1..], b, tail);
    }
  }

  lemma ApplyHead(a: Word, e: Edit, tail: Word)
    requires Applicable(a, e)
    ensures Apply(a + tail, e) == Apply(a, e) + tail
  {
    var next := if e.Insert? then e.at else e.at + 1;
    TailOf(a, tail, e.at);
    TailOf(a, tail, next);
    match e {
      case Delete(_) => ConcatAssociates(a[..e.at], a[next..], tail);
      case Insert(_, c) => ConcatAssociates(a[..e.at] + [c], a[next..], tail);
      case Substitute(_, c) => ConcatAssociates(a[..e.at] + [c], a[next..], tail);
    }
  }

  lemma TailOf(a: Word, tail: Word, n: nat)
    requires n <= |a|
    ensures (a + tail)[..n] == a[..n] && (a + tail)[n..] == a[n..] + tail
  {
  }

  lemma {:induction false} TurnsThen(a: Word, first: seq<Edit>, b: Word, e: Edit)
    requires Turns(a, first, b) && Applicable(b, e)
    ensures Turns(a, first + [e], Apply(b, e))
    decreases |first|
  {
    if first != [] {
      assert (first + [e])[1..] == first[1..] + [e];
      TurnsThen(Apply(a, first[0]), first[1..], b, e);
    }
  }

  lemma {:induction false} ShortestScript(a: Word, b: Word) returns (script: seq<Edit>)
    ensures Turns(a, script, b)
    ensures |script| == Lev(a, b)
    decreases |a| + |b|, 1
  {
    if a == [] && b == [] {
      script := [];
    } else if a != [] && Lev(a, b) == Lev(a[..|a| - 1], b) + 1 {
      var rest := ShortestScript(a[..|a| - 1], b);
      script := DeleteLastFirst(a, rest, b);
    } else if b != [] && Lev(a, b) == Lev(a, b[..|b| - 1]) + 1 {
      var first := ShortestScript(a, b[..|b| - 1]);
      script := InsertLastAfter(a, first, b);
    } else {
      script := ShortestByLast(a, b);
    }
  }

  lemma DeleteLastFirst(a: Word, rest: seq<Edit>, b: Word) returns (script: seq<Edit>)
    requires a != [] && Turns(a[..|a| - 1], rest, b)
    ensures Turns(a, script, b) && |script| == |rest| + 1
  {
    var e := Delete(|a| - 1);
    assert Apply(a, e) == a[..|a| - 1];
    script := [e] + rest;
    assert script[1..] == rest;
  }

  lemma InsertLastAfter(a: Word, first: seq<Edit>, b: Word) returns (script: seq<Edit>)
    requires b != [] && Turns(a, first, b[..|b| - 1])
    ensures Turns(a, script, b) && |script| == |first| + 1
  {
    var m := |b| - 1;
    var e := Insert(m, b[m]);
    assert Apply(b[..m], e) == b;
    TurnsThen(a, first, b[..m], e);
    script := first + [e];
  }

  lemma {:induction false} ShortestByLast(a: Word, b: Word) returns (script: seq<Edit>)
    requires a != [] && b != []
    requires Lev(a, b) == Lev(a[..|a| - 1], b[..|b| - 1]) + Cost(a[|a| - 1], b[|b| - 1])
    ensures Turns(a, script, b)
    ensures |script| == Lev(a, b)
    decreases |a| + |b|, 0
  {
    var n, m := |a| - 1, |b| - 1;
    var first := ShortestScript(a[..n], b[..m]);
    script := SubstituteLastAfter(a, first, b);
  }

  lemma SubstituteLastAfter(a: Word, first: seq<Edit>, b: Word) returns (script: seq<Edit>)
    requires a != [] && b != [] && Turns(a[..|a| - 1], first, b[..|b| - 1])
    ensures Turns(a, script, b) && |script| == |first| + Cost(a[|a| - 1], b[|b| - 1])
  {
    var x, y, head := a[|a| - 1], b[|b| - 1], b[..|b| - 1];
    LastOff(a);
    LastOff(b);
    TurnsHead(a[..|a| - 1], first, head, [x]);
    if x == y {
      script := first;
    } else {
      var e := Substitute(|head|, y);
      TurnsThen(a, first, head + [x], e);
      assert Apply(head + [x], e) == head + [y];
      script := first + [e];
    }
  }

  /** The recurrence is the least number of edits, and nothing else is. */
  lemma LevIsLeastEdits(a: Word, b: Word, d: nat)
    ensures IsLeastEdits(a, b, d) <==> d == Lev(a, b)
  {
    var script := ShortestScript(a, b);
    forall other | Turns(a, other, b) ensures Lev(a, b) <= |other| {
      NoShorterScript(a, other, b);
    }
  }

  /** Fewest edits is a metric on words. */
  lemma LeastEditsIsAMetric(a: Word, b: Word, c: Word, ab: nat, bc: nat, ac: nat)
    requires IsLeastEdits(a, b, ab) && IsLeastEdits(b, c, bc) && IsLeastEdits(a, c, ac)
    ensures ab == 0 <==> a == b
    ensures IsLeastEdits(b, a, ab)
    ensures ac <= ab + bc
  {
    LevIsLeastEdits(a, b, ab);
    LevIsLeastEdits(b, c, bc);
    LevIsLeastEdits(a, c, ac);
    LevZero(a, b);
    LevSymmetric(a, b);
    LevIsLeastEdits(b, a, ab);
    LevTriangle(a, b, c);
  }

  // ----- The two-row loop -----

  /** The table: the recurrence on prefixes, by their lengths. */
  function Entry(a: Word, b: Word, i: nat, j: nat): nat
    requires i <= |a| && j <= |b|
    decreases i + j
  {
    if i == 0 then j
    else if j == 0 then i
    else Min(Min(Entry(a, b, i - 1, j) + 1, Entry(a, b, i, j - 1) + 1),
             Entry(a, b, i - 1, j - 1) + Cost(a[i - 1], b[j - 1]))
  }

  lemma {:induction false} EntryIsLev(a: Word, b: Word, i: nat, j: nat)
    requires i <= |a| && j <= |b|
    ensures Entry(a, b, i, j) == Lev(a[..i], b[..j])
    decreases i + j
  {
    if i > 0 && j > 0 {
      EntryIsLev(a, b, i - 1, j);
      EntryIsLev(a, b, i, j - 1);
      EntryIsLev(a, b, i - 1, j - 1);
      TakeTake(a, i, i - 1);
      TakeTake(b, j, j - 1);
    }
  }

  /** The first n cells of `row` are the table's row i. */
  ghost predicate RowOf(row: array<nat>, a: Word, b: Word, i: nat, n: nat)
    requires i <= |a| && n <= row.Length && n <= |b| + 1
    reads row
  {
    forall j {:trigger row[j]} :: 0 <= j < n ==> row[j] == Entry(a, b, i, j)
  }

  /** The inner loop: a row of the table from the one before it. */
  method FillRow(a: Word, b: Word, i: nat, prev: array<nat>, cur: array<nat>)
    requires 0 < i <= |a| && prev != cur && prev.Length == cur.Length == |b| + 1
    requires RowOf(prev, a, b, i - 1, |b| + 1)
    modifies cur
    ensures RowOf(cur, a, b, i, |b| + 1)
  {
    cur[0] := i;
    for j := 1 to |b| + 1
      invariant RowOf(cur, a, b, i, j)
    {
      var cost := if a[i - 1] == b[j - 1] then 0 else 1;
      cur[j] := Min(Min(prev[j] + 1, cur[j - 1] + 1), prev[j - 1] + cost);
    }
  }

  method Distance(a: Word, b: Word) returns (d: nat)
    ensures IsLeastEdits(a, b, d)
    ensures d == Lev(a, b)
  {
    var prev := new nat[|b| + 1];
    var cur := new nat[|b| + 1];
    for j := 0 to prev.Length
      invariant RowOf(prev, a, b, 0, j)
    {
      prev[j] := j;
    }
    for i := 1 to |a| + 1
      invariant RowOf(prev, a, b, i - 1, |b| + 1)
    {
      FillRow(a, b, i, prev, cur);
      forall j | 0 <= j < prev.Length {
        prev[j] := cur[j];
      }
    }
    d := prev[|b|];
    LastEntryIsLeast(a, b);
  }

  lemma LastEntryIsLeast(a: Word, b: Word)
    ensures Entry(a, b, |a|, |b|) == Lev(a, b) && IsLeastEdits(a, b, Lev(a, b))
  {
    EntryIsLev(a, b, |a|, |b|);
    WholeSlice(a);
    WholeSlice(b);
    LevIsLeastEdits(a, b, Lev(a, b));
  }

  // ----- The suggestion -----

  /** More than two edits away is no suggestion. */
  const TOO_FAR: nat := 3

  /** The distance to each name. */
  ghost function Scores(word: Word, names: seq<Word>): (scores: seq<nat>)
    ensures |scores| == |names|
  {
    if names == [] then [] else Scores(word, names[..|names| - 1]) + [Lev(word, names[|names| - 1])]
  }

  /** The first of the smallest scores, and near enough to suggest. */
  ghost predicate FirstNearest(scores: seq<nat>, i: nat) {
    && i < |scores| && scores[i] < TOO_FAR
    && (forall j :: 0 <= j < |scores| ==> scores[i] <= scores[j])
    && (forall j :: 0 <= j < i ==> scores[i] < scores[j])
  }

  ghost predicate AllTooFar(scores: seq<nat>) {
    forall j :: 0 <= j < |scores| ==> TOO_FAR <= scores[j]
  }

  /** `lower` stands for `strings.ToLower`. */
  method Nearest(typo: Word, names: seq<Word>, lower: Word -> Word) returns (best: Word)
    ensures var scores := Scores(lower(typo), names);
      if AllTooFar(scores) then best == []
      else exists i: nat :: FirstNearest(scores, i) && best == names[i]
  {
    var word := lower(typo);
    best := [];
    var bestScore := TOO_FAR;
    ghost var scores: seq<nat>, at := [], 0;
    for i := 0 to |names|
      invariant scores == Scores(word, names[..i]) && |scores| == i
      invariant bestScore <= TOO_FAR
      invariant forall j :: 0 <= j < i ==> bestScore <= scores[j]
      invariant bestScore == TOO_FAR ==> best == []
      invariant bestScore < TOO_FAR ==>
        && at < i && best == names[at] && scores[at] == bestScore
        && forall j :: 0 <= j < at ==> bestScore < scores[j]
    {
      var d := Distance(word, names[i]);
      OneMoreScore(word, names, i);
      scores := scores + [d];
      if d < bestScore {
        best, bestScore, at := names[i], d, i;
      }
    }
    WholeSlice(names);
    if bestScore < TOO_FAR {
      assert FirstNearest(scores, at);
    }
  }

  lemma OneMoreScore(word: Word, names: seq<Word>, i: nat)
    requires i < |names|
    ensures Scores(word, names[..i + 1]) == Scores(word, names[..i]) + [Lev(word, names[i])]
  {
    TakeTake(names, i + 1, i);
  }
}
