/** Aligned columns whose cells may carry colour: `printer.table`, `displayWidth`, `paint`. */
module Table {
  import opened Seqs
  import opened Text

  const ESC: char := '\U{1B}'

  // ----- What a terminal shows -----

  /** Whether a text that begins inside an escape, or does not, ends inside one. */
  function EndsInside(s: string, inside: bool): bool {
    if s == "" then inside
    else EndsInside(s[1..], if inside then s[0] != 'm' else s[0] == ESC)
  }

  /** The characters outside colour escapes. */
  function Visible(s: string, inside: bool): string {
    if s == "" then ""
    else if inside then Visible(s[1..], s[0] != 'm')
    else if s[0] == ESC then Visible(s[1..], true)
    else [s[0]] + Visible(s[1..], false)
  }

  lemma {:induction false} VisibleConcat(a: string, b: string, inside: bool)
    ensures Visible(a + b, inside) == Visible(a, inside) + Visible(b, EndsInside(a, inside))
    ensures EndsInside(a + b, inside) == EndsInside(b, EndsInside(a, inside))
    decreases |a|
  {
    if a == "" {
      ConcatNothing(b);
    } else {
      var next := if inside then a[0] != 'm' else a[0] == ESC;
      FirstOff(a);
      ConcatAssociates([a[0]], a[1..], b);
      ConsTail(a[0], a[1..] + b);
      VisibleConcat(a[1..], b, next);
      ConcatAssociates([a[0]], Visible(a[1..], false), Visible(b, EndsInside(a[1..], false)));
    }
  }

  lemma {:induction false} PlainIsVisible(s: string)
    requires Without(s, ESC)
    ensures Visible(s, false) == s && !EndsInside(s, false)
    decreases |s|
  {
    if s != "" {
      PlainIsVisible(s[1..]);
      FirstOff(s);
    }
  }

  /** The columns a text takes; a text that is all escapes counts every character of it. */
  function DisplayWidth(s: string): nat {
    if Visible(s, false) == "" then |s| else |Visible(s, false)|
  }

  method MeasureWidth(s: string) returns (n: nat)
    ensures n == DisplayWidth(s)
  {
    n := 0;
    var inside := false;
    WholeSlice(s);
    for i := 0 to |s|
      invariant |Visible(s, false)| == n + |Visible(s[i..], inside)|
    {
      DropDrop(s, i, 1);
      if inside {
        if s[i] == 'm' {
          inside := false;
        }
      } else if s[i] == ESC {
        inside := true;
      } else {
        n := n + 1;
      }
    }
    if n == 0 {
      n := |s|;
    }
  }

  // ----- Paint -----

  function Colourise(code: string, s: string): string { [ESC] + "[" + code + "m" + s + [ESC] + "[0m" }

  function Paint(colour: bool, code: string, s: string): string {
    if !colour || s == "" then s else Colourise(code, s)
  }

  lemma {:induction false} InsideCode(code: string)
    requires Without(code, 'm')
    ensures Visible(code, true) == "" && EndsInside(code, true)
    decreases |code|
  {
    if code != "" {
      InsideCode(code[1..]);
    }
  }

  /** An escape shows nothing and is over at its end. */
  lemma EscapeShowsNothing(code: string)
    requires Without(code, 'm')
    ensures var e := [ESC] + "[" + code + "m"; Visible(e, false) == "" && !EndsInside(e, false)
  {
    var body := "[" + code;
    WithoutConcat("[", code, 'm');
    InsideCode(body);
    VisibleConcat(body, "m", true);
    ConsTail(ESC, body + "m");
    assert [ESC] + "[" + code + "m" == [ESC] + (body + "m");
    assert Visible("m", true) == "" && !EndsInside("m", true);
  }

  /** Paint changes how a text looks, never what it shows. */
  lemma PaintShowsTheText(colour: bool, code: string, s: string)
    requires Without(code, 'm') && Without(s, ESC)
    ensures Visible(Paint(colour, code, s), false) == s && !EndsInside(Paint(colour, code, s), false)
    ensures DisplayWidth(Paint(colour, code, s)) == |s|
  {
    PlainIsVisible(s);
    if colour && s != "" {
      ColouriseShowsTheText(code, s);
    }
  }

  /** A text is painted exactly where there is colour and something to paint. */
  lemma PaintedExactlyWhen(colour: bool, code: string, s: string)
    requires Without(s, ESC)
    ensures Without(Paint(colour, code, s), ESC) <==> !colour || s == ""
    ensures colour && s != "" ==> [ESC] + "[" + code + "m" <= Paint(colour, code, s)
  {
    if colour && s != "" {
      assert Paint(colour, code, s)[0] == ESC;
    }
  }

  lemma ColouriseShowsTheText(code: string, s: string)
    requires Without(code, 'm') && Without(s, ESC)
    ensures Visible(Colourise(code, s), false) == s && !EndsInside(Colourise(code, s), false)
  {
    var open, close := [ESC] + "[" + code + "m", [ESC] + "[" + "0" + "m";
    EscapeShowsNothing(code);
    EscapeShowsNothing("0");
    PlainIsVisible(s);
    VisibleConcat(open, s, false);
    VisibleConcat(open + s, close, false);
    ConcatNothing(s);
    assert Colourise(code, s) == (open + s) + close;
  }

  // ----- Rows -----

  /** A cell as it is written, and how wide it is taken to be. */
  datatype Cell = Cell(raw: string, width: nat)

  /** What a terminal shows of it. */
  function Shown(c: Cell): string { Visible(c.raw, false) }

  /** It does not end inside an escape. */
  predicate Closed(c: Cell) { !EndsInside(c.raw, false) }

  predicate AllClosed(cells: seq<Cell>) { forall i :: 0 <= i < |cells| ==> Closed(cells[i]) }

  predicate Fit(cells: seq<Cell>, widths: seq<nat>) {
    |cells| <= |widths| && forall i :: 0 <= i < |cells| ==> cells[i].width <= widths[i]
  }

  function Pad(c: Cell, width: nat): string
    requires c.width <= width
  {
    Spaces(width - c.width + 2)
  }

  /** A row: every cell but the last is padded to its column and two more. */
  function Row(cells: seq<Cell>, widths: seq<nat>): string
    requires Fit(cells, widths)
    decreases |cells|
  {
    if cells == [] then ""
    else if |cells| == 1 then cells[0].raw
    else cells[0].raw + Pad(cells[0], widths[0]) + Row(cells[1..], widths[1..])
  }

  /** The same row without any colour. */
  function Plain(cells: seq<Cell>): seq<Cell> {
    if cells == [] then [] else [Cell(Shown(cells[0]), cells[0].width)] + Plain(cells[1..])
  }

  /** Where column i begins. */
  function Column(widths: seq<nat>, i: nat): nat
    requires i <= |widths|
  {
    if i == 0 then 0 else widths[0] + 2 + Column(widths[1..], i - 1)
  }

  /** How far the cells before cell i show more than they are taken to be wide. */
  function Drift(cells: seq<Cell>, i: nat): int
    requires i <= |cells|
  {
    if i == 0 then 0 else |Shown(cells[0])| - cells[0].width + Drift(cells[1..], i - 1)
  }

  lemma PaddedShows(c: Cell, width: nat, rest: string)
    requires Closed(c) && c.width <= width
    ensures Visible(c.raw + Pad(c, width) + rest, false) == Shown(c) + Pad(c, width) + Visible(rest, false)
    ensures EndsInside(c.raw + Pad(c, width) + rest, false) == EndsInside(rest, false)
    ensures |Shown(c) + Pad(c, width)| == width + 2 + |Shown(c)| - c.width
  {
    var pad := Pad(c, width);
    SpacesAreSpaces(width - c.width + 2);
    PlainIsVisible(pad);
    VisibleConcat(c.raw, pad, false);
    VisibleConcat(c.raw + pad, rest, false);
  }

  /** A row shows the same text whether or not its cells are painted. */
  lemma {:induction false} RowShowsPlain(cells: seq<Cell>, widths: seq<nat>)
    requires AllClosed(cells) && Fit(cells, widths)
    ensures Fit(Plain(cells), widths) && Visible(Row(cells, widths), false) == Row(Plain(cells), widths)
    decreases |cells|
  {
    if cells != [] {
      RowShowsPlain(cells[1..], widths[1..]);
      var first, rest := Cell(Shown(cells[0]), cells[0].width), Plain(cells[1..]);
      ConsTail(first, rest);
      PlainLength(cells[1..]);
      if |cells| > 1 {
        PaddedShows(cells[0], widths[0], Row(cells[1..], widths[1..]));
      }
    }
  }

  lemma {:induction false} PlainLength(cells: seq<Cell>)
    ensures |Plain(cells)| == |cells|
    ensures forall i :: 0 <= i < |cells| ==> Plain(cells)[i] == Cell(Shown(cells[i]), cells[i].width)
    decreases |cells|
  {
    if cells != [] {
      PlainLength(cells[1..]);
    }
  }

  /** Every cell is seen whole, as far from its column as the cells before it drift. */
  lemma {:induction false} CellAtColumn(cells: seq<Cell>, widths: seq<nat>, i: nat)
    requires AllClosed(cells) && Fit(cells, widths) && i < |cells|
    ensures var shown := Visible(Row(cells, widths), false); var at := Column(widths, i) + Drift(cells, i);
      0 <= at && at + |Shown(cells[i])| <= |shown| && shown[at..at + |Shown(cells[i])|] == Shown(cells[i])
    decreases |cells|
  {
    var c := cells[0];
    if |cells| == 1 {
      WholeSlice(Shown(c));
    } else {
      var rest := Row(cells[1..], widths[1..]);
      PaddedShows(c, widths[0], rest);
      var padded, shown := Shown(c) + Pad(c, widths[0]), Visible(rest, false);
      if i == 0 {
        ConcatAssociates(Shown(c), Pad(c, widths[0]), shown);
        ConcatParts(Shown(c), Pad(c, widths[0]) + shown);
      } else {
        CellAtColumn(cells[1..], widths[1..], i - 1);
        SliceOfSecond(padded, shown, Column(widths[1..], i - 1) + Drift(cells[1..], i - 1), |Shown(cells[i])|);
      }
    }
  }

  lemma SliceOfSecond(a: string, b: string, at: nat, n: nat)
    requires at + n <= |b|
    ensures (a + b)[|a| + at..|a| + at + n] == b[at..at + n]
  {
  }

  // ----- Where a cell stands, whatever the cells are -----

  /** What is written before cell i. */
  function Before(cells: seq<Cell>, widths: seq<nat>, i: nat): string
    requires Fit(cells, widths) && i < |cells|
  {
    if i == 0 then "" else cells[0].raw + Pad(cells[0], widths[0]) + Before(cells[1..], widths[1..], i - 1)
  }

  lemma {:induction false} BeforeAndRest(cells: seq<Cell>, widths: seq<nat>, i: nat)
    requires Fit(cells, widths) && i < |cells|
    ensures Fit(cells[i..], widths[i..])
    ensures Before(cells, widths, i) + Row(cells[i..], widths[i..]) == Row(cells, widths)
    decreases i
  {
    if i == 0 {
      WholeSlice(cells);
      WholeSlice(widths);
    } else {
      BeforeAndRest(cells[1..], widths[1..], i - 1);
      DropDrop(cells, 1, i - 1);
      DropDrop(widths, 1, i - 1);
      var rest := Row(cells[i..], widths[i..]);
      ConcatAssociates(cells[0].raw + Pad(cells[0], widths[0]), Before(cells[1..], widths[1..], i - 1), rest);
    }
  }

  /** The cell is written outside any escape, with as much showing before it as its column says. */
  predicate Stands(cells: seq<Cell>, widths: seq<nat>, i: nat)
    requires Fit(cells, widths) && i < |cells|
  {
    var before := Before(cells, widths, i);
    !EndsInside(before, false) && |Visible(before, false)| == Column(widths, i)
  }

  /** And so it is seen there, from its first character to its last. */
  lemma StandingIsSeen(cells: seq<Cell>, widths: seq<nat>, i: nat)
    requires Fit(cells, widths) && i < |cells| && Stands(cells, widths, i)
    ensures var shown, at := Visible(Row(cells, widths), false), Column(widths, i);
      at + |Shown(cells[i])| <= |shown| && shown[at..at + |Shown(cells[i])|] == Shown(cells[i])
  {
    var before, rest := Before(cells, widths, i), Row(cells[i..], widths[i..]);
    BeforeAndRest(cells, widths, i);
    VisibleConcat(before, rest, false);
    FirstIsSeen(cells[i..], widths[i..]);
    SliceOfSecond(Visible(before, false), Visible(rest, false), 0, |Shown(cells[i])|);
  }

  lemma FirstIsSeen(cells: seq<Cell>, widths: seq<nat>)
    requires Fit(cells, widths) && cells != []
    ensures Shown(cells[0]) <= Visible(Row(cells, widths), false)
  {
    if |cells| > 1 {
      var pad, rest := Pad(cells[0], widths[0]), Row(cells[1..], widths[1..]);
      ConcatAssociates(cells[0].raw, pad, rest);
      VisibleConcat(cells[0].raw, pad + rest, false);
    }
  }

  /** A cell measured as it is written. */
  predicate Measured(c: Cell) { c.width == DisplayWidth(c.raw) }

  /** A cell that keeps the ones after it in their columns: it does not end inside an escape, and is not
      nothing but escapes, which would be taken to be as wide as it is long. */
  predicate Steady(c: Cell) { Closed(c) && (c.raw == "" || Shown(c) != "") }

  /** Beginning inside an escape shows no more. */
  lemma {:induction false} InsideShowsLess(s: string)
    ensures |Visible(s, true)| <= |Visible(s, false)| <= |s|
    decreases |s|
  {
    if s != "" {
      InsideShowsLess(s[1..]);
    }
  }

  lemma {:induction false} SpacesInsideShowNothing(n: nat)
    ensures Visible(Spaces(n), true) == ""
  {
    if n > 0 {
      ConsTail(' ', Spaces(n - 1));
      SpacesInsideShowNothing(n - 1);
    }
  }

  /** A measured cell and its padding take its column and two more: exactly when it is steady. */
  lemma PaddedTakes(c: Cell, width: nat, inside: bool)
    requires Measured(c) && c.width <= width
    ensures |Visible(c.raw + Pad(c, width), inside)| <= width + 2
    ensures !inside ==> (|Visible(c.raw + Pad(c, width), false)| == width + 2 <==> Steady(c))
    ensures !inside && Steady(c) ==> !EndsInside(c.raw + Pad(c, width), false)
  {
    var pad := Pad(c, width);
    VisibleConcat(c.raw, pad, inside);
    InsideShowsLess(c.raw);
    SpacesAreSpaces(width - c.width + 2);
    PlainIsVisible(pad);
    SpacesInsideShowNothing(width - c.width + 2);
  }

  lemma {:induction false} NeverTooMuch(cells: seq<Cell>, widths: seq<nat>, i: nat, inside: bool)
    requires Fit(cells, widths) && i < |cells| && forall k :: 0 <= k < i ==> Measured(cells[k])
    ensures |Visible(Before(cells, widths, i), inside)| <= Column(widths, i)
    decreases i
  {
    if i > 0 {
      var padded, rest := cells[0].raw + Pad(cells[0], widths[0]), Before(cells[1..], widths[1..], i - 1);
      VisibleConcat(padded, rest, inside);
      PaddedTakes(cells[0], widths[0], inside);
      NeverTooMuch(cells[1..], widths[1..], i - 1, EndsInside(padded, inside));
    }
  }

  /** Cells measured as they are written stand at their columns exactly when every one before is steady. */
  lemma {:induction false} StandsExactlyWhen(cells: seq<Cell>, widths: seq<nat>, i: nat)
    requires Fit(cells, widths) && i < |cells| && forall k :: 0 <= k < i ==> Measured(cells[k])
    ensures Stands(cells, widths, i) <==> forall k :: 0 <= k < i ==> Steady(cells[k])
    decreases i
  {
    if i > 0 {
      var padded, rest := cells[0].raw + Pad(cells[0], widths[0]), Before(cells[1..], widths[1..], i - 1);
      VisibleConcat(padded, rest, false);
      PaddedTakes(cells[0], widths[0], false);
      assert forall k :: 0 <= k < i - 1 ==> cells[1..][k] == cells[k + 1];
      if Steady(cells[0]) {
        StandsExactlyWhen(cells[1..], widths[1..], i - 1);
        AllFromFirst(cells, i);
      } else {
        NeverTooMuch(cells[1..], widths[1..], i - 1, EndsInside(padded, false));
      }
    }
  }

  lemma AllFromFirst(cells: seq<Cell>, i: nat)
    requires 0 < i <= |cells| && Steady(cells[0])
    ensures (forall k :: 0 <= k < i ==> Steady(cells[k])) <==> forall k :: 0 <= k < i - 1 ==> Steady(cells[1..][k])
  {
    if forall k :: 0 <= k < i - 1 ==> Steady(cells[1..][k]) {
      forall k | 0 <= k < i ensures Steady(cells[k]) {
        assert k > 0 ==> cells[k] == cells[1..][k - 1];
      }
    }
  }

  // ----- Trailing spaces -----

  /** `strings.TrimRight(s, " ")`. */
  function TrimSpacesRight(s: string): (t: string)
    ensures t <= s
  {
    if s != "" && s[|s| - 1] == ' ' then TrimSpacesRight(s[..|s| - 1]) else s
  }

  lemma {:induction false} TrimmedOff(s: string)
    ensures var t := TrimSpacesRight(s); s == t + Spaces(|s| - |t|)
    decreases |s|
  {
    if s != "" && s[|s| - 1] == ' ' {
      var init := s[..|s| - 1];
      TrimmedOff(init);
      LastOff(s);
      var t := TrimSpacesRight(s);
      ConcatAssociates(t, Spaces(|init| - |t|), " ");
      SpaceAfterSpaces(|init| - |t|);
    } else {
      ConcatNothing(s);
    }
  }

  lemma {:induction false} SpaceAfterSpaces(n: nat)
    ensures Spaces(n) + " " == Spaces(n + 1)
  {
    if n == 0 {
      ConcatNothing(" ");
    } else {
      SpaceAfterSpaces(n - 1);
      ConcatAssociates(" ", Spaces(n - 1), " ");
    }
  }

  lemma {:induction false} SpacesInsideStayInside(n: nat)
    ensures EndsInside(Spaces(n), true)
  {
    if n > 0 {
      ConsTail(' ', Spaces(n - 1));
      SpacesInsideStayInside(n - 1);
    }
  }

  /** Trimming a line takes nothing that shows but spaces, from its end. */
  lemma TrimmedShows(s: string)
    ensures exists n: nat :: Visible(s, false) == Visible(TrimSpacesRight(s), false) + Spaces(n)
  {
    var t := TrimSpacesRight(s);
    var n := |s| - |t|;
    TrimmedOff(s);
    VisibleConcat(t, Spaces(n), false);
    if EndsInside(t, false) {
      SpacesInsideShowNothing(n);
      assert Visible(s, false) == Visible(t, false) + Spaces(0);
    } else {
      SpacesAreSpaces(n);
      PlainIsVisible(Spaces(n));
    }
  }

  lemma TrimmedKeeps(s: string, k: nat)
    requires k < |Visible(s, false)| && Visible(s, false)[k] != ' '
    ensures var t := Visible(TrimSpacesRight(s), false); k < |t| && t[k] == Visible(s, false)[k]
  {
    TrimmedShows(s);
    var t := Visible(TrimSpacesRight(s), false);
    var n: nat :| Visible(s, false) == t + Spaces(n);
    SpacesAreSpaces(n);
  }

  /** On a printed line every character of a standing cell that is not a space is in its place. */
  lemma StandingIsPrinted(cells: seq<Cell>, widths: seq<nat>, i: nat, k: nat)
    requires Fit(cells, widths) && i < |cells| && Stands(cells, widths, i)
    requires k < |Shown(cells[i])| && Shown(cells[i])[k] != ' '
    ensures var shown, at := Visible(TrimSpacesRight(Row(cells, widths)), false), Column(widths, i) + k;
      at < |shown| && shown[at] == Shown(cells[i])[k]
  {
    var all, at := Visible(Row(cells, widths), false), Column(widths, i);
    StandingIsSeen(cells, widths, i);
    assert all[at..at + |Shown(cells[i])|][k] == all[at + k];
    TrimmedKeeps(Row(cells, widths), at + k);
  }

  /** On a printed line every character of a cell that is not a space stands where it would on the
      row with its trailing spaces. */
  lemma LineKeepsColumns(cells: seq<Cell>, widths: seq<nat>, i: nat, k: nat)
    requires AllClosed(cells) && Fit(cells, widths) && i < |cells| && k < |Shown(cells[i])| && Shown(cells[i])[k] != ' '
    ensures var shown := Visible(TrimSpacesRight(Row(cells, widths)), false);
      var at := Column(widths, i) + Drift(cells, i) + k;
      0 <= at < |shown| && shown[at] == Shown(cells[i])[k]
  {
    var row := Row(cells, widths);
    var all := Visible(row, false);
    var at := Column(widths, i) + Drift(cells, i);
    CellAtColumn(cells, widths, i);
    assert all[at..at + |Shown(cells[i])|][k] == all[at + k];
    TrimmedKeeps(row, at + k);
  }

  // ----- The table -----

  function Widest(a: nat, b: nat): nat { if a >= b then a else b }

  /** The column widths once they cover one more row. */
  function Covering(widths: seq<nat>, cells: seq<string>): seq<nat>
    requires |cells| <= |widths|
  {
    seq(|widths|, i requires 0 <= i < |widths| =>
      if i < |cells| then Widest(widths[i], DisplayWidth(cells[i])) else widths[i])
  }

  /** The least widths that every row fits in. */
  function WidthsOf(columns: nat, rows: seq<seq<string>>): (widths: seq<nat>)
    requires forall i :: 0 <= i < |rows| ==> |rows[i]| <= columns
    ensures |widths| == columns
  {
    if rows == [] then seq(columns, _ => 0)
    else Covering(WidthsOf(columns, rows[..|rows| - 1]), rows[|rows| - 1])
  }

  predicate Wide(row: seq<string>, widths: seq<nat>) {
    |row| <= |widths| && forall i :: 0 <= i < |row| ==> DisplayWidth(row[i]) <= widths[i]
  }

  lemma {:induction false} RowsFit(columns: nat, rows: seq<seq<string>>)
    requires forall i :: 0 <= i < |rows| ==> |rows[i]| <= columns
    ensures forall i :: 0 <= i < |rows| ==> Wide(rows[i], WidthsOf(columns, rows))
    decreases |rows|
  {
    if rows != [] {
      var init, last := rows[..|rows| - 1], rows[|rows| - 1];
      RowsFit(columns, init);
      assert forall i :: 0 <= i < |init| ==> rows[i] == init[i];
    }
  }

  /** No narrower column would do: each is as wide as one of its cells. */
  lemma {:induction false} WidthsAreTight(columns: nat, rows: seq<seq<string>>, k: nat)
    requires k < columns && forall i :: 0 <= i < |rows| ==> |rows[i]| <= columns
    ensures WidthsOf(columns, rows)[k] == 0
         || exists i :: 0 <= i < |rows| && k < |rows[i]| && DisplayWidth(rows[i][k]) == WidthsOf(columns, rows)[k]
    decreases |rows|
  {
    if rows != [] {
      var init, last := rows[..|rows| - 1], rows[|rows| - 1];
      WidthsAreTight(columns, init, k);
      if k < |last| && DisplayWidth(last[k]) == WidthsOf(columns, rows)[k] {
        assert rows[|rows| - 1] == last;
      } else if WidthsOf(columns, init)[k] != 0 {
        var i :| 0 <= i < |init| && k < |init[i]| && DisplayWidth(init[i][k]) == WidthsOf(columns, init)[k];
        assert rows[i] == init[i];
      }
    }
  }

  method MeasureColumns(rows: seq<seq<string>>) returns (widths: seq<nat>)
    ensures forall i :: 0 <= i < |rows| ==> |rows[i]| <= |widths|
    ensures widths == [] || exists i :: 0 <= i < |rows| && |rows[i]| == |widths|
    ensures widths == WidthsOf(|widths|, rows)
  {
    var columns: nat := 0;
    for i := 0 to |rows|
      invariant forall k :: 0 <= k < i ==> |rows[k]| <= columns
      invariant columns == 0 || exists k :: 0 <= k < i && |rows[k]| == columns
    {
      columns := Widest(columns, |rows[i]|);
    }
    widths := seq(columns, _ => 0);
    for i := 0 to |rows|
      invariant widths == WidthsOf(columns, rows[..i])
    {
      TakeTake(rows, i + 1, i);
      widths := CoverRow(widths, rows[i]);
    }
    WholeSlice(rows);
  }

  method CoverRow(widths: seq<nat>, cells: seq<string>) returns (wider: seq<nat>)
    requires |cells| <= |widths|
    ensures wider == Covering(widths, cells)
  {
    wider := widths;
    for i := 0 to |cells|
      invariant |wider| == |widths|
      invariant forall k :: 0 <= k < i ==> wider[k] == Widest(widths[k], DisplayWidth(cells[k]))
      invariant forall k :: i <= k < |widths| ==> wider[k] == widths[k]
    {
      var n := MeasureWidth(cells[i]);
      wider := wider[i := Widest(wider[i], n)];
    }
  }

  /** The cells of a row: measured as they were given, written in a style. */
  function Styled(given: seq<string>, style: string -> string): seq<Cell> {
    seq(|given|, i requires 0 <= i < |given| => Cell(style(given[i]), DisplayWidth(given[i])))
  }

  /** The `write` closure. */
  method WriteRow(given: seq<string>, style: string -> string, widths: seq<nat>) returns (line: string)
    requires Wide(given, widths)
    ensures Printed(line, given, style, widths)
  {
    ghost var cells := Styled(given, style);
    var b := "";
    WholeSlice(cells);
    WholeSlice(widths);
    var i := 0;
    while i < |given|
      invariant 0 <= i <= |given|
      invariant b + Row(cells[i..], widths[i..]) == Row(cells, widths)
    {
      DropDrop(cells, i, 1);
      DropDrop(widths, i, 1);
      var text := style(given[i]);
      if i == |given| - 1 {
        b := b + text;
        i := i + 1;
        ConcatNothing(b);
        break;
      }
      ConcatAssociates(b, text + Pad(cells[i], widths[i]), Row(cells[i + 1..], widths[i + 1..]));
      ConcatAssociates(b, text, Pad(cells[i], widths[i]));
      var n := MeasureWidth(given[i]);
      b := b + text;
      b := b + Spaces(widths[i] - n + 2);
      i := i + 1;
    }
    ConcatNothing(b);
    line := TrimSpacesRight(b);
  }

  /** A header is shown in capitals, dimmed where there is colour; `upper` stands for `strings.ToUpper`. */
  function HeaderStyle(colour: bool, upper: string -> string): string -> string {
    h => if colour then Colourise("2", upper(h)) else upper(h)
  }

  function AsIs(): string -> string { s => s }

  /** Headers without escapes whose capitals are as long stand at their columns too. */
  lemma {:induction false} HeadersDoNotDrift(headers: seq<string>, colour: bool, upper: string -> string, i: nat)
    requires i <= |headers|
    requires forall k :: 0 <= k < |headers| ==>
      Without(headers[k], ESC) && Without(upper(headers[k]), ESC) && |upper(headers[k])| == |headers[k]|
    ensures AllClosed(Styled(headers, HeaderStyle(colour, upper)))
    ensures Drift(Styled(headers, HeaderStyle(colour, upper)), i) == 0
    ensures forall k :: 0 <= k < |headers| ==>
      Shown(Styled(headers, HeaderStyle(colour, upper))[k]) == upper(headers[k])
  {
    var cells := Styled(headers, HeaderStyle(colour, upper));
    forall k | 0 <= k < |headers|
      ensures Closed(cells[k]) && Shown(cells[k]) == upper(headers[k]) && |Shown(cells[k])| == cells[k].width
    {
      PlainIsVisible(headers[k]);
      PlainIsVisible(upper(headers[k]));
      ColouriseShowsTheText("2", upper(headers[k]));
    }
    NoDrift(cells, i);
  }

  lemma {:induction false} NoDrift(cells: seq<Cell>, i: nat)
    requires i <= |cells| && forall k :: 0 <= k < |cells| ==> |Shown(cells[k])| == cells[k].width
    ensures Drift(cells, i) == 0
    decreases i
  {
    if i > 0 {
      NoDrift(cells[1..], i - 1);
    }
  }

  lemma RowFits(row: seq<string>, widths: seq<nat>)
    requires Wide(row, widths)
    ensures Fit(Styled(row, AsIs()), widths)
    ensures forall k :: 0 <= k < |row| ==> Styled(row, AsIs())[k] == Cell(row[k], DisplayWidth(row[k]))
  {
  }

  /** A cell of a row stands at its column exactly when no cell before it ends inside an escape or is
      nothing but escapes. */
  lemma RowStandsExactlyWhen(row: seq<string>, widths: seq<nat>, i: nat)
    requires i < |row| && Wide(row, widths)
    ensures Fit(Styled(row, AsIs()), widths)
    ensures Stands(Styled(row, AsIs()), widths, i) <==>
      forall k :: 0 <= k < i ==> !EndsInside(row[k], false) && (row[k] == "" || Visible(row[k], false) != "")
  {
    var cells := Styled(row, AsIs());
    RowFits(row, widths);
    assert forall k :: 0 <= k < i ==> Measured(cells[k]);
    StandsExactlyWhen(cells, widths, i);
    assert forall k :: 0 <= k < i ==>
      (Steady(cells[k]) <==> !EndsInside(row[k], false) && (row[k] == "" || Visible(row[k], false) != ""));
  }

  /** A cell of nothing but escapes moves the cells after it; a colour around no text is one. */
  lemma PaintedNothingMoves(text: string, widths: seq<nat>)
    requires Wide([Colourise("2", ""), text], widths)
    ensures Fit(Styled([Colourise("2", ""), text], AsIs()), widths)
    ensures !Stands(Styled([Colourise("2", ""), text], AsIs()), widths, 1)
  {
    var row := [Colourise("2", ""), text];
    ColouriseShowsTheText("2", "");
    assert row[0] == Colourise("2", "") && row[0] != "";
    RowStandsExactlyWhen(row, widths, 1);
  }

  /** A cell that ends inside an escape takes the next one with it. */
  lemma OpenEscapeMoves(text: string, widths: seq<nat>)
    requires Wide(["a" + [ESC], text], widths)
    ensures Fit(Styled(["a" + [ESC], text], AsIs()), widths)
    ensures !Stands(Styled(["a" + [ESC], text], AsIs()), widths, 1)
  {
    var row := ["a" + [ESC], text];
    VisibleConcat("a", [ESC], false);
    assert row[0] == "a" + [ESC] && EndsInside([ESC], false);
    RowStandsExactlyWhen(row, widths, 1);
  }

  /** A line is these cells, in this style, in these columns. */
  predicate Printed(line: string, given: seq<string>, style: string -> string, widths: seq<nat>) {
    Fit(Styled(given, style), widths) && line == TrimSpacesRight(Row(Styled(given, style), widths))
  }

  lemma {:induction false} RowWithoutEscapes(cells: seq<Cell>, widths: seq<nat>)
    requires Fit(cells, widths) && forall k :: 0 <= k < |cells| ==> Without(cells[k].raw, ESC)
    ensures Without(Row(cells, widths), ESC)
    decreases |cells|
  {
    if |cells| > 1 {
      RowWithoutEscapes(cells[1..], widths[1..]);
      SpacesAreSpaces(widths[0] - cells[0].width + 2);
      WithoutConcat(cells[0].raw, Pad(cells[0], widths[0]), ESC);
      WithoutConcat(cells[0].raw + Pad(cells[0], widths[0]), Row(cells[1..], widths[1..]), ESC);
    }
  }

  /** Where there is no colour, a table adds no escape: a line has one only if a cell has. */
  lemma NoColourNoEscape(line: string, given: seq<string>, style: string -> string, widths: seq<nat>)
    requires Printed(line, given, style, widths)
    requires forall k :: 0 <= k < |given| ==> Without(style(given[k]), ESC)
    ensures Without(line, ESC)
  {
    var cells := Styled(given, style);
    RowWithoutEscapes(cells, widths);
    assert line <= Row(cells, widths);
  }

  /** A line of headers has escapes exactly where there is colour. */
  lemma HeadersPaintedExactlyWhen(
    line: string, headers: seq<string>, colour: bool, upper: string -> string, widths: seq<nat>)
    requires headers != [] && Printed(line, headers, HeaderStyle(colour, upper), widths)
    requires forall k :: 0 <= k < |headers| ==> Without(upper(headers[k]), ESC)
    ensures Without(line, ESC) <==> !colour
  {
    if colour {
      var cells := Styled(headers, HeaderStyle(colour, upper));
      var row := Row(cells, widths);
      assert cells[0].raw[0] == ESC && row[0] == ESC;
      FirstStays(row);
    } else {
      NoColourNoEscape(line, headers, HeaderStyle(colour, upper), widths);
    }
  }

  lemma {:induction false} FirstStays(s: string)
    requires s != "" && s[0] != ' '
    ensures TrimSpacesRight(s) != "" && TrimSpacesRight(s)[0] == s[0]
    decreases |s|
  {
    if s[|s| - 1] == ' ' {
      FirstStays(s[..|s| - 1]);
    }
  }

  method WriteRows(rows: seq<seq<string>>, widths: seq<nat>) returns (lines: seq<string>)
    requires forall i :: 0 <= i < |rows| ==> Wide(rows[i], widths)
    ensures |lines| == |rows| && forall i :: 0 <= i < |rows| ==> Printed(lines[i], rows[i], AsIs(), widths)
  {
    lines := [];
    for i := 0 to |rows|
      invariant |lines| == i && forall k :: 0 <= k < i ==> Printed(lines[k], rows[k], AsIs(), widths)
    {
      var line := WriteRow(rows[i], AsIs(), widths);
      lines := lines + [line];
    }
  }

  /** The whole table: the least widths that the headers and every row fit in, and each printed in them. */
  method PrintTable(headers: seq<string>, rows: seq<seq<string>>, colour: bool, upper: string -> string)
    returns (widths: seq<nat>, head: string, lines: seq<string>)
    ensures forall i :: 0 <= i <= |rows| ==> |([headers] + rows)[i]| <= |widths|
    ensures widths == [] || exists i :: 0 <= i <= |rows| && |([headers] + rows)[i]| == |widths|
    ensures widths == WidthsOf(|widths|, [headers] + rows)
    ensures |headers| > 0 ==> Printed(head, headers, HeaderStyle(colour, upper), widths)
    ensures |lines| == |rows| && forall i :: 0 <= i < |rows| ==> Printed(lines[i], rows[i], AsIs(), widths)
  {
    var all := [headers] + rows;
    widths := MeasureColumns(all);
    RowsFit(|widths|, all);
    assert Wide(all[0], widths) && all[0] == headers;
    forall i | 0 <= i < |rows| ensures Wide(rows[i], widths) {
      assert all[i + 1] == rows[i];
    }
    head := "";
    if |headers| > 0 {
      head := WriteRow(headers, HeaderStyle(colour, upper), widths);
    }
    lines := WriteRows(rows, widths);
  }
}
