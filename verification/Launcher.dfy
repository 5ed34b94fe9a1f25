/** The full-screen launcher: its keyboard state machine, the pane a command runs in,
    and what can happen over a whole session. */
module Launcher {
  import opened Seqs
  import opened Wrappers

  type Args = seq<string>

  /** An entry of a list. No arguments open the catalogue, "@fleet" opens the fleet view. */
  datatype Item = Item(title: string, args: Option<Args>, confirm: bool)

  /** The lists the launcher is built with, and whether a command matches a search. */
  datatype Lists = Lists(home: seq<Item>, fleet: seq<Item>, commands: seq<Item>, matches: (string, Item) -> bool)

  predicate OpensFleet(item: Item) { item.args.Some? && |item.args.value| > 0 && item.args.value[0] == "@fleet" }

  predicate OpensCatalogue(item: Item) { item.args.None? }

  /** An entry that runs a command and asks nothing first. */
  predicate Harmless(item: Item) { item.args.Some? && !OpensFleet(item) && !item.confirm }

  /** Only the home list opens views or asks for confirmation. */
  predicate WellFormed(l: Lists) {
    && (forall i :: 0 <= i < |l.fleet| ==> Harmless(l.fleet[i]))
    && (forall i :: 0 <= i < |l.commands| ==> Harmless(l.commands[i]))
  }

  // ----- The pane -----

  datatype Pane = Pane(offset: int, follow: bool)

  datatype Key =
    | CtrlC | Esc | Enter | Backspace | Up | Down | Tab | ShiftTab | Home | End | PgUp | PgDown | Space
    | Letter(c: char) | OtherKey

  function Max(a: int, b: int): int { if a >= b then a else b }

  function Min(a: int, b: int): int { if a <= b then a else b }

  predicate IsLetter(k: Key, c: char) { k.Letter? && k.c == c }

  /** The rows left for output once the header and the footer are drawn. */
  function PaneRows(height: int): int { Max(height - 5, 1) }

  /** The rows a key scrolls by. */
  function KeptRows(height: int): int { PaneRows(Max(height, 12)) }

  /** The rows that are drawn. Below twelve rows of window the two differ. */
  function DrawnRows(height: int): int { PaneRows(if height <= 0 then 24 else height) }

  /** The first line of the last full pane. */
  function LastTop(total: nat, rows: int): int { Max(total - rows, 0) }

  /** What a key asks of the view. */
  datatype Move = LineUp | LineDown | PageUp | PageDown | Top | Bottom | Stay

  function MoveOf(key: Key): Move {
    if key.Up? || IsLetter(key, 'k') then LineUp
    else if key.Down? || IsLetter(key, 'j') then LineDown
    else if key.PgUp? || IsLetter(key, 'b') then PageUp
    else if key.PgDown? || key.Space? || IsLetter(key, 'f') then PageDown
    else if key.Home? || IsLetter(key, 'g') then Top
    else if key.End? || IsLetter(key, 'G') then Bottom
    else Stay
  }

  /** Where the key starts from: following, from the end. */
  function At(p: Pane, total: nat, rows: int): int { if p.follow then LastTop(total, rows) else p.offset }

  function Scrolled(p: Pane, key: Key, total: nat, rows: int): Pane {
    var last := LastTop(total, rows);
    var at := At(p, total, rows);
    match MoveOf(key)
    case LineUp => Pane(Max(at - 1, 0), false)
    case LineDown => Pane(Min(at + 1, last), at + 1 >= last)
    case PageUp => Pane(Max(at - rows, 0), false)
    case PageDown => Pane(Min(at + rows, last), at + rows >= last)
    case Top => Pane(0, false)
    case Bottom => Pane(last, true)
    case Stay => Pane(at, p.follow)
  }

  /** The first visible line. */
  function ViewOffset(p: Pane, total: nat, rows: int): int {
    if p.follow then LastTop(total, rows) else Min(p.offset, LastTop(total, rows))
  }

  /** The slice `runView` cuts is legal, and shows a full pane whenever there is enough output. */
  lemma ViewIsLegal(p: Pane, total: nat, height: int)
    requires p.offset >= 0
    ensures var rows := DrawnRows(height); var from := ViewOffset(p, total, rows); var to := Min(from + rows, total);
      0 <= from <= to <= total && to - from == Min(rows, total)
  {
  }

  /** Where the view should start, in lines as they are drawn. */
  function Wanted(move: Move, seen: int, total: nat, drawn: int): int {
    match move
    case LineUp => Max(seen - 1, 0)
    case LineDown => Min(seen + 1, LastTop(total, drawn))
    case PageUp => Max(seen - drawn, 0)
    case PageDown => Min(seen + drawn, LastTop(total, drawn))
    case Top => 0
    case Bottom => LastTop(total, drawn)
    case Stay => seen
  }

  /** When a step of `n` kept lines back is a step of `k` drawn ones: the kept place is as far from
      its goal as the seen one, or both reach the top. */
  predicate BackInStep(at: int, seen: int, last: int, n: int, k: int) {
    if seen <= k then last == 0 || at <= n else at - n == seen - k
  }

  /** When a step of `n` kept lines on is a step of `k` drawn ones; `end` is the kept last pane. */
  predicate OnInStep(at: int, seen: int, end: int, last: int, n: int, k: int) {
    if seen + k >= last then at + n >= Min(end, last) else at + n < end && at + n == seen + k
  }

  /** Whether a move does to the view what it says, from the pane and the two row counts. */
  predicate InStep(p: Pane, move: Move, total: nat, kept: int, drawn: int) {
    var at, seen := At(p, total, kept), ViewOffset(p, total, drawn);
    var end, last := LastTop(total, kept), LastTop(total, drawn);
    match move
    case LineUp => BackInStep(at, seen, last, 1, 1)
    case LineDown => OnInStep(at, seen, end, last, 1, 1)
    case PageUp => BackInStep(at, seen, last, kept, drawn)
    case PageDown => OnInStep(at, seen, end, last, kept, drawn)
    case _ => true
  }

  /** A key moves the view as it says exactly when the kept place and the seen one are in step. */
  lemma ScrollMovesTheView(p: Pane, key: Key, total: nat, kept: int, drawn: int)
    requires p.offset >= 0 && kept >= 1 && drawn >= 1
    ensures var seen := ViewOffset(p, total, drawn);
      ViewOffset(Scrolled(p, key, total, kept), total, drawn) == Wanted(MoveOf(key), seen, total, drawn)
      <==> InStep(p, MoveOf(key), total, kept, drawn)
  {
    var at, seen := At(p, total, kept), ViewOffset(p, total, drawn);
    match MoveOf(key) {
      case LineUp => BackMoves(at, seen, LastTop(total, drawn), 1, 1);
      case LineDown => OnMoves(at, seen, LastTop(total, kept), LastTop(total, drawn), 1, 1);
      case PageUp => BackMoves(at, seen, LastTop(total, drawn), kept, drawn);
      case PageDown => OnMoves(at, seen, LastTop(total, kept), LastTop(total, drawn), kept, drawn);
      case _ =>
    }
  }

  lemma BackMoves(at: int, seen: int, last: int, n: int, k: int)
    requires at >= 0 && 0 <= seen <= last && n >= 1 && k >= 1
    ensures Min(Max(at - n, 0), last) == Max(seen - k, 0) <==> BackInStep(at, seen, last, n, k)
  {
  }

  lemma OnMoves(at: int, seen: int, end: int, last: int, n: int, k: int)
    requires at >= 0 && 0 <= seen <= last && n >= 1 && k >= 1
    ensures (if at + n >= end then last else Min(at + n, last)) == Min(seen + k, last)
       <==> OnInStep(at, seen, end, last, n, k)
  {
  }

  /** Going down to the end stays at the end as output comes; going up stays at the lines one went to. */
  lemma FollowsFromTheEnd(p: Pane, key: Key, total: nat, more: nat, rows: int)
    requires p.offset >= 0 && rows >= 1 && total <= more && !MoveOf(key).Stay?
    ensures var q, at, last := Scrolled(p, key, total, rows), At(p, total, rows), LastTop(total, rows);
      match MoveOf(key)
      case Bottom => ViewOffset(q, more, rows) == LastTop(more, rows)
      case LineDown => ViewOffset(q, more, rows) == if at + 1 >= last then LastTop(more, rows) else at + 1
      case PageDown => ViewOffset(q, more, rows) == if at + rows >= last then LastTop(more, rows) else at + rows
      case _ => q.offset <= last ==> ViewOffset(q, more, rows) == ViewOffset(q, total, rows) == q.offset
  {
  }

  // ----- The model and its messages -----

  datatype Run = Run(id: nat, args: Args, cancelling: bool, done: bool, code: int, pane: Pane)

  datatype Model = Model(
    width: int, height: int, cursor: int, frame: int, motion: bool,
    catalogue: bool, fleet: bool, searching: bool, confirming: bool, query: string,
    choice: Option<Args>, run: Option<Run>)

  datatype Msg =
    | Resize(width: int, height: int)
    | Tick
    | Refresh
    | RunDone(id: nat, code: int)
    | Press(key: Key, text: string)

  datatype Effect = Nothing | Quit | Start(args: Args) | Cancel

  /** The commands a search leaves. */
  function Matching(l: Lists, query: string, n: nat): (items: seq<Item>)
    requires n <= |l.commands|
    ensures WellFormed(l) ==> forall i :: 0 <= i < |items| ==> Harmless(items[i])
  {
    if n == 0 then []
    else
      var item := l.commands[n - 1];
      Matching(l, query, n - 1) + if query == "" || l.matches(query, item) then [item] else []
  }

  function Items(l: Lists, m: Model): seq<Item> {
    if m.fleet then l.fleet
    else if !m.catalogue then l.home
    else Matching(l, m.query, |l.commands|)
  }

  predicate TooSmall(m: Model) { 0 < m.width < 32 || 0 < m.height < 12 }

  /** Only the guided installer needs the real terminal. */
  predicate NeedsTerminal(args: Args) { |args| > 0 && args[0] == "init" && "--help" !in args }

  datatype Next = Next(m: Model, effect: Effect)

  /** `choose`: run in the pane, or quit with the choice recorded. `newId` names the new run. */
  function Choose(m: Model, args: Args, newId: nat): Next {
    if NeedsTerminal(args) then Next(m.(choice := Some(args)), Quit)
    else Next(m.(run := Some(Run(newId, args, false, false, 0, Pane(0, true)))), Start(args))
  }

  /** The number of output lines is asked for when a key scrolls the pane. */
  function UpdateRun(m: Model, msg: Msg, total: nat): Next
    requires m.run.Some?
  {
    var r := m.run.value;
    match msg
    case Resize(w, h) => Next(m.(width := w, height := h), Nothing)
    case Tick => Next(m, Nothing)
    case Refresh => Next(m, Nothing)
    case RunDone(id, code) =>
      if id == r.id then Next(m.(run := Some(r.(done := true, code := code))), Nothing) else Next(m, Nothing)
    case Press(key, _) =>
      if key.CtrlC? && !r.done && !r.cancelling then Next(m.(run := Some(r.(cancelling := true))), Cancel)
      else if key.CtrlC? then Next(m.(choice := None), Quit)
      else if r.done && IsLetter(key, 'q') then Next(m.(choice := None), Quit)
      else if r.done && (key.Enter? || key.Esc?) then Next(m.(run := None), Nothing)
      else Next(m.(run := Some(r.(pane := Scrolled(r.pane, key, total, KeptRows(m.height))))), Nothing)
  }

  /** The pane as a window draws it. */
  function View(m: Model, total: nat): int
    requires m.run.Some?
  {
    ViewOffset(m.run.value.pane, total, DrawnRows(m.height))
  }

  /** In a window of twelve rows or more the ends and the ways down always move the view as they say.
      The ways up do so exactly when the kept offset is not past the last full pane; a page also when
      it reaches the top. */
  predicate KeptInView(p: Pane, move: Move, total: nat, rows: int) {
    move.LineUp? || move.PageUp? ==>
      p.follow || p.offset <= LastTop(total, rows) || LastTop(total, rows) == 0 || (move.PageUp? && p.offset <= rows)
  }

  /** A scrolling key does nothing but scroll. */
  lemma ScrollKeyScrolls(m: Model, key: Key, total: nat)
    requires m.run.Some? && !MoveOf(key).Stay?
    ensures var r := m.run.value;
      UpdateRun(m, Press(key, ""), total).m
      == m.(run := Some(r.(pane := Scrolled(r.pane, key, total, KeptRows(m.height)))))
  {
  }

  lemma InStepWhenLarge(p: Pane, move: Move, total: nat, rows: int)
    requires p.offset >= 0 && rows >= 1
    ensures InStep(p, move, total, rows, rows) <==> KeptInView(p, move, total, rows)
  {
  }

  /** What a key does to the lines seen: as it says, exactly when kept and seen place are in step;
      and what that comes to in a window of the size the launcher asks for. */
  lemma KeysMoveTheView(m: Model, key: Key, total: nat)
    requires m.run.Some? && m.run.value.pane.offset >= 0 && !MoveOf(key).Stay?
    ensures var next := UpdateRun(m, Press(key, ""), total).m; var p := m.run.value.pane;
      && next.run.Some? && next.height == m.height
      && (View(next, total) == Wanted(MoveOf(key), View(m, total), total, DrawnRows(m.height))
          <==> InStep(p, MoveOf(key), total, KeptRows(m.height), DrawnRows(m.height)))
      && (m.height >= 12 ==>
            (InStep(p, MoveOf(key), total, KeptRows(m.height), DrawnRows(m.height))
             <==> KeptInView(p, MoveOf(key), total, DrawnRows(m.height))))
  {
    ScrollKeyScrolls(m, key, total);
    ScrollMovesTheView(m.run.value.pane, key, total, KeptRows(m.height), DrawnRows(m.height));
    InStepWhenLarge(m.run.value.pane, MoveOf(key), total, DrawnRows(m.height));
  }

  /** In a window of eight rows with a hundred lines of output, Up from the end jumps five lines, and
      Down from there jumps back. */
  lemma KeysJumpInAShortWindow(m: Model)
    requires m.run.Some? && m.height == 8 && m.run.value.pane.follow
    ensures var up := UpdateRun(m, Press(Up, ""), 100).m; var down := UpdateRun(up, Press(Down, ""), 100).m;
      up.run.Some? && down.run.Some? && View(m, 100) == 97 && View(up, 100) == 92 && View(down, 100) == 97
  {
    ScrollKeyScrolls(m, Up, 100);
    ScrollKeyScrolls(UpdateRun(m, Press(Up, ""), 100).m, Down, 100);
  }

  /** Up, then a window that grows from 24 rows to 60: the next Up moves nothing. */
  lemma UpIsLostWhenTheWindowGrows(m: Model)
    requires m.run.Some? && m.height == 24 && m.run.value.pane.follow
    ensures var grown := UpdateRun(UpdateRun(m, Press(Up, ""), 100).m, Resize(m.width, 60), 100).m;
      grown.run.Some? && View(grown, 100) == 45 && View(UpdateRun(grown, Press(Up, ""), 100).m, 100) == 45
  {
    ScrollKeyScrolls(m, Up, 100);
    var up := UpdateRun(m, Press(Up, ""), 100).m;
    ScrollKeyScrolls(up.(height := 60), Up, 100);
  }

  /** The command in the pane: one object, which the model holds and messages change in place. */
  class HomeRun {
    const id: nat
    const args: Args
    var cancelling: bool
    var done: bool
    var code: int
    var offset: int
    var follow: bool

    function Value(): Run
      reads this
    {
      Run(id, args, cancelling, done, code, Pane(offset, follow))
    }

    constructor (id: nat, args: Args)
      ensures Value() == Run(id, args, false, false, 0, Pane(0, true))
    {
      this.id, this.args, cancelling, done, code, offset, follow := id, args, false, false, 0, 0, true;
    }

    /** In whatever number of rows the pane is drawn, the view moves as the key says exactly when the
        kept place and the seen one were in step; and nothing but the pane changes. */
    method Scroll(key: Key, total: nat, rows: int)
      requires offset >= 0 && rows >= 1
      modifies `offset, `follow
      ensures offset >= 0 && Pane(offset, follow) == Scrolled(old(Pane(offset, follow)), key, total, rows)
      ensures forall drawn :: drawn >= 1 ==>
        var was := old(Pane(offset, follow));
        var seen := ViewOffset(was, total, drawn);
        ViewOffset(Pane(offset, follow), total, drawn) == Wanted(MoveOf(key), seen, total, drawn)
        <==> InStep(was, MoveOf(key), total, rows, drawn)
    {
      ghost var was := Pane(offset, follow);
      var last := Max(total - rows, 0);
      if follow {
        offset := last;
      }
      if key.Up? || IsLetter(key, 'k') {
        offset, follow := Max(offset - 1, 0), false;
      } else if key.Down? || IsLetter(key, 'j') {
        offset := Min(offset + 1, last);
        follow := offset == last;
      } else if key.PgUp? || IsLetter(key, 'b') {
        offset, follow := Max(offset - rows, 0), false;
      } else if key.PgDown? || key.Space? || IsLetter(key, 'f') {
        offset := Min(offset + rows, last);
        follow := offset == last;
      } else if key.Home? || IsLetter(key, 'g') {
        offset, follow := 0, false;
      } else if key.End? || IsLetter(key, 'G') {
        offset, follow := last, true;
      }
      forall drawn | drawn >= 1
        ensures ViewOffset(Scrolled(was, key, total, rows), total, drawn)
             == Wanted(MoveOf(key), ViewOffset(was, total, drawn), total, drawn)
           <==> InStep(was, MoveOf(key), total, rows, drawn)
      {
        ScrollMovesTheView(was, key, total, rows, drawn);
      }
    }

    /** A key. */
    method Press(m: Model, key: Key, ghost text: string, total: nat) returns (next: Next)
      requires m.run == Some(Value()) && offset >= 0
      modifies this
      ensures next == UpdateRun(m, Msg.Press(key, text), total)
      ensures next.m.run.Some? ==> next.m.run == Some(Value())
    {
      if key.CtrlC? && !done && !cancelling {
        cancelling := true;
        return Next(m.(run := Some(Value())), Cancel);
      }
      if key.CtrlC? || (done && IsLetter(key, 'q')) {
        return Next(m.(choice := None), Quit);
      }
      if done && (key.Enter? || key.Esc?) {
        return Next(m.(run := None), Nothing);
      }
      Scroll(key, total, KeptRows(m.height));
      next := Next(m.(run := Some(Value())), Nothing);
    }

    /** `updateRun`: changing the shared object in place comes to updating the model's value. */
    method Update(m: Model, msg: Msg, total: nat) returns (next: Next)
      requires m.run == Some(Value()) && offset >= 0
      modifies this
      ensures next == UpdateRun(m, msg, total)
      ensures next.m.run.Some? ==> next.m.run == Some(Value())
    {
      next := Next(m, Nothing);
      match msg {
        case Resize(w, h) => next := Next(m.(width := w, height := h), Nothing);
        case Tick =>
        case Refresh =>
        case RunDone(id, code) =>
          if id == this.id {
            done, this.code := true, code;
            next := Next(m.(run := Some(Value())), Nothing);
          }
        case Press(key, text) => next := Press(m, key, text, total);
      }
    }
  }

  function WhileConfirming(l: Lists, m: Model, key: Key, newId: nat): Next
    requires 0 <= m.cursor < |Items(l, m)| && Items(l, m)[m.cursor].args.Some?
  {
    if IsLetter(key, 'y') || IsLetter(key, 'Y') then
      Choose(m.(confirming := false), Items(l, m)[m.cursor].args.value, newId)
    else if IsLetter(key, 'n') || IsLetter(key, 'N') || key.Esc? || IsLetter(key, 'q') || key.Enter? then
      Next(m.(confirming := false), Nothing)
    else Next(m, Nothing)
  }

  function WhileSearching(m: Model, key: Key, text: string): Model {
    var n :=
      if key.Esc? then m.(searching := false, query := "")
      else if key.Enter? || key.Down? then m.(searching := false)
      else if key.Backspace? then m.(query := if m.query == "" then "" else m.query[..|m.query| - 1])
      else m.(query := m.query + text);
    n.(cursor := 0)
  }

  function Page(m: Model): int { Max(m.height - 10, 1) }

  /** Where a key moves the cursor in a list whose last index is `end`. */
  function Moved(m: Model, key: Key, end: int): Option<int> {
    if key.Up? || IsLetter(key, 'k') || key.ShiftTab? then Some(Max(0, m.cursor - 1))
    else if key.Down? || IsLetter(key, 'j') || key.Tab? then Some(Min(end, m.cursor + 1))
    else if key.Home? || IsLetter(key, 'g') then Some(0)
    else if key.End? || IsLetter(key, 'G') then Some(end)
    else if key.PgDown? then Some(Min(end, m.cursor + Page(m)))
    else if key.PgUp? then Some(Max(0, m.cursor - Page(m)))
    else None
  }

  /** Enter on an entry. */
  function Open(m: Model, item: Item, newId: nat): Next {
    if OpensFleet(item) then Next(m.(fleet := true, cursor := 0), Nothing)
    else if OpensCatalogue(item) then Next(m.(catalogue := true, cursor := 0), Nothing)
    else if item.confirm then Next(m.(confirming := true), Nothing)
    else Choose(m, item.args.value, newId)
  }

  function Browse(l: Lists, m: Model, key: Key, newId: nat): Next
    requires |Items(l, m)| > 0 ==> 0 <= m.cursor < |Items(l, m)|
  {
    var items := Items(l, m);
    var moved := Moved(m, key, Max(|items| - 1, 0));
    if IsLetter(key, 'q') then Next(m.(choice := None), Quit)
    else if key.Esc? then
      if m.catalogue || m.fleet then Next(m.(catalogue := false, fleet := false, query := "", cursor := 0), Nothing)
      else Next(m, Quit)
    else if IsLetter(key, '/') then Next(m.(catalogue := true, searching := true, fleet := false, cursor := 0), Nothing)
    else if moved.Some? then Next(m.(cursor := moved.value), Nothing)
    else if key.Enter? && |items| > 0 then Open(m, items[m.cursor], newId)
    else Next(m, Nothing)
  }

  // ----- What every message keeps -----

  predicate CursorInList(l: Lists, m: Model) {
    if |Items(l, m)| == 0 then m.cursor == 0 else 0 <= m.cursor < |Items(l, m)|
  }

  /** The entry under the cursor asks for confirmation. */
  predicate AtConfirm(l: Lists, m: Model) {
    && 0 <= m.cursor < |Items(l, m)|
    && Items(l, m)[m.cursor].confirm && Items(l, m)[m.cursor].args.Some?
  }

  predicate Valid(l: Lists, m: Model) {
    && CursorInList(l, m)
    && !(m.catalogue && m.fleet)
    && (m.searching ==> m.catalogue) && (!m.catalogue ==> m.query == "")
    && (m.confirming ==> AtConfirm(l, m) && m.run.None?)
    && (m.run.Some? ==> m.run.value.pane.offset >= 0)
  }

  function Update(l: Lists, m: Model, msg: Msg, total: nat, newId: nat): Next
    requires Valid(l, m)
  {
    if m.run.Some? then UpdateRun(m, msg, total)
    else
      match msg
      case Resize(w, h) => Next(m.(width := w, height := h), Nothing)
      case Tick => Next(if m.motion && !m.confirming then m.(frame := m.frame + 1) else m, Nothing)
      case Refresh => Next(m, Nothing)
      case RunDone(_, _) => Next(m, Nothing)
      case Press(key, text) =>
        if key.CtrlC? then Next(m.(choice := None), Quit)
        else if TooSmall(m) then Next(m, if IsLetter(key, 'q') || key.Esc? then Quit else Nothing)
        else if m.confirming then WhileConfirming(l, m, key, newId)
        else if m.searching then Next(WhileSearching(m, key, text), Nothing)
        else Browse(l, m, key, newId)
  }

  lemma RunKeepsValid(l: Lists, m: Model, msg: Msg, total: nat)
    requires Valid(l, m) && m.run.Some?
    ensures Valid(l, UpdateRun(m, msg, total).m)
  {
    if msg.Press? {
      ScrolledWithin(m.run.value.pane, msg.key, total, KeptRows(m.height));
    }
    assert Items(l, UpdateRun(m, msg, total).m) == Items(l, m);
  }

  lemma ScrolledWithin(p: Pane, key: Key, total: nat, rows: int)
    requires p.offset >= 0 && rows >= 1
    ensures Scrolled(p, key, total, rows).offset >= 0
  {
  }

  lemma ConfirmKeepsValid(l: Lists, m: Model, key: Key, newId: nat)
    requires Valid(l, m) && m.confirming
    ensures Valid(l, WhileConfirming(l, m, key, newId).m)
  {
    var n := WhileConfirming(l, m, key, newId).m;
    assert Items(l, n) == Items(l, m);
  }

  lemma MovedInList(m: Model, key: Key, end: int)
    requires 0 <= m.cursor <= end
    ensures Moved(m, key, end).Some? ==> 0 <= Moved(m, key, end).value <= end
  {
  }

  lemma OpenKeepsValid(l: Lists, m: Model, newId: nat)
    requires WellFormed(l) && Valid(l, m) && m.run.None? && !m.confirming && !m.searching && |Items(l, m)| > 0
    ensures Valid(l, Open(m, Items(l, m)[m.cursor], newId).m)
  {
    var item := Items(l, m)[m.cursor];
    var n := Open(m, item, newId).m;
    if OpensFleet(item) || OpensCatalogue(item) {
      assert !m.fleet && !m.catalogue;
    } else {
      assert Items(l, n) == Items(l, m);
    }
  }

  /** What a key can make of the model while the list is browsed. */
  lemma BrowseCases(l: Lists, m: Model, key: Key, newId: nat)
    requires |Items(l, m)| > 0 ==> 0 <= m.cursor < |Items(l, m)|
    ensures var n := Browse(l, m, key, newId).m; var moved := Moved(m, key, Max(|Items(l, m)| - 1, 0));
      || n == m.(choice := n.choice)
      || n == m.(catalogue := false, fleet := false, query := "", cursor := 0)
      || n == m.(catalogue := true, searching := true, fleet := false, cursor := 0)
      || (moved.Some? && n == m.(cursor := moved.value))
      || (|Items(l, m)| > 0 && n == Open(m, Items(l, m)[m.cursor], newId).m)
  {
  }

  lemma BrowseKeepsValid(l: Lists, m: Model, key: Key, newId: nat)
    requires WellFormed(l) && Valid(l, m) && m.run.None? && !m.confirming && !m.searching
    ensures Valid(l, Browse(l, m, key, newId).m)
  {
    var n := Browse(l, m, key, newId).m;
    var end := Max(|Items(l, m)| - 1, 0);
    BrowseCases(l, m, key, newId);
    HomeIsValid(l, m);
    SearchIsValid(l, m);
    if n == m.(choice := n.choice) {
      SameListValid(l, m, n);
    } else if Moved(m, key, end).Some? && n == m.(cursor := Moved(m, key, end).value) {
      MovedInList(m, key, end);
      MoveKeepsValid(l, m, n.cursor);
    } else if |Items(l, m)| > 0 {
      OpenKeepsValid(l, m, newId);
    }
  }

  lemma MoveKeepsValid(l: Lists, m: Model, c: int)
    requires Valid(l, m) && m.run.None? && !m.confirming && 0 <= c <= Max(|Items(l, m)| - 1, 0)
    ensures Valid(l, m.(cursor := c))
  {
    assert Items(l, m.(cursor := c)) == Items(l, m);
  }

  lemma HomeIsValid(l: Lists, m: Model)
    requires Valid(l, m) && m.run.None? && !m.confirming && !m.searching
    ensures Valid(l, m.(catalogue := false, fleet := false, query := "", cursor := 0))
  {
  }

  lemma SearchIsValid(l: Lists, m: Model)
    requires Valid(l, m) && m.run.None? && !m.confirming
    ensures Valid(l, m.(catalogue := true, searching := true, fleet := false, cursor := 0))
  {
  }

  lemma SameListValid(l: Lists, m: Model, n: Model)
    requires Valid(l, m) && n == m.(choice := n.choice)
    ensures Valid(l, n)
  {
    assert Items(l, n) == Items(l, m);
  }

  lemma UpdateKeepsValid(l: Lists, m: Model, msg: Msg, total: nat, newId: nat)
    requires WellFormed(l) && Valid(l, m)
    ensures Valid(l, Update(l, m, msg, total, newId).m)
  {
    if m.run.Some? {
      RunKeepsValid(l, m, msg, total);
    } else if msg.Press? && !msg.key.CtrlC? && !TooSmall(m) {
      if m.confirming {
        ConfirmKeepsValid(l, m, msg.key, newId);
      } else if !m.searching {
        BrowseKeepsValid(l, m, msg.key, newId);
      }
    } else {
      assert Items(l, Update(l, m, msg, total, newId).m) == Items(l, m);
    }
  }

  // ----- What the keys do to the list -----

  /** The list takes keys. */
  predicate Browsing(l: Lists, m: Model) {
    Valid(l, m) && m.run.None? && !m.confirming && !m.searching && !TooSmall(m)
  }

  predicate IsUp(key: Key) { key in {Up, Letter('k'), ShiftTab} }

  predicate IsDown(key: Key) { key in {Down, Letter('j'), Tab} }

  /** The last entry of the list that shows; the first when there is none. */
  function LastEntry(l: Lists, m: Model): int { if Items(l, m) == [] then 0 else |Items(l, m)| - 1 }

  /** The model a key leaves. */
  function Pressed(l: Lists, m: Model, key: Key): Model
    requires Valid(l, m)
  {
    Update(l, m, Press(key, ""), 0, 0).m
  }

  /** One entry up, one down, to the first, to the last; at the ends the cursor stays. Nothing else changes,
      whatever the key's text and however much output there is. */
  lemma CursorMoves(l: Lists, m: Model, key: Key, text: string, total: nat, newId: nat)
    requires Browsing(l, m)
    ensures var n, last := Update(l, m, Press(key, text), total, newId), LastEntry(l, m);
      && (IsUp(key) ==> n == Next(m.(cursor := if m.cursor == 0 then 0 else m.cursor - 1), Nothing))
      && (IsDown(key) ==> n == Next(m.(cursor := if m.cursor == last then last else m.cursor + 1), Nothing))
      && (key in {Home, Letter('g')} ==> n == Next(m.(cursor := 0), Nothing))
      && (key in {End, Letter('G')} ==> n == Next(m.(cursor := last), Nothing))
  {
  }

  /** What a key does, as a function. */
  function Pressing(l: Lists, key: Key): Model -> Model { m => if Valid(l, m) then Pressed(l, m, key) else m }

  function Repeated(press: Model -> Model, m: Model, n: nat): Model {
    if n == 0 then m else press(Repeated(press, m, n - 1))
  }

  lemma StillBrowsing(l: Lists, m: Model, c: int)
    requires Browsing(l, m) && 0 <= c <= LastEntry(l, m)
    ensures Browsing(l, m.(cursor := c)) && LastEntry(l, m.(cursor := c)) == LastEntry(l, m)
  {
    MoveKeepsValid(l, m, c);
  }

  lemma {:induction false} StepsDown(press: Model -> Model, m: Model, end: int, n: nat)
    requires 0 <= m.cursor <= end
    requires forall c :: 0 <= c <= end ==> press(m.(cursor := c)) == m.(cursor := Min(end, c + 1))
    ensures Repeated(press, m, n) == m.(cursor := Min(end, m.cursor + n))
  {
    if n > 0 {
      StepsDown(press, m, end, n - 1);
    }
  }

  lemma {:induction false} StepsUp(press: Model -> Model, m: Model, end: int, n: nat)
    requires 0 <= m.cursor <= end
    requires forall c :: 0 <= c <= end ==> press(m.(cursor := c)) == m.(cursor := Max(0, c - 1))
    ensures Repeated(press, m, n) == m.(cursor := Max(0, m.cursor - n))
  {
    if n > 0 {
      StepsUp(press, m, end, n - 1);
    }
  }

  lemma OneStep(l: Lists, m: Model, c: int)
    requires Browsing(l, m) && 0 <= c <= LastEntry(l, m)
    ensures Pressing(l, Down)(m.(cursor := c)) == m.(cursor := Min(LastEntry(l, m), c + 1))
    ensures Pressing(l, Up)(m.(cursor := c)) == m.(cursor := Max(0, c - 1))
  {
    StillBrowsing(l, m, c);
    CursorMoves(l, m.(cursor := c), Down, "", 0, 0);
    CursorMoves(l, m.(cursor := c), Up, "", 0, 0);
  }

  lemma PageMoves(l: Lists, m: Model)
    requires Browsing(l, m)
    ensures Pressed(l, m, PgDown) == m.(cursor := Min(LastEntry(l, m), m.cursor + Page(m)))
    ensures Pressed(l, m, PgUp) == m.(cursor := Max(0, m.cursor - Page(m)))
  {
  }

  /** A page is as many single steps as the window has rows for entries. */
  lemma PageIsSteps(l: Lists, m: Model)
    requires Browsing(l, m)
    ensures var rows := if m.height > 11 then m.height - 10 else 1;
      && Pressed(l, m, PgDown) == Repeated(Pressing(l, Down), m, rows)
      && Pressed(l, m, PgUp) == Repeated(Pressing(l, Up), m, rows)
  {
    var rows, last := if m.height > 11 then m.height - 10 else 1, LastEntry(l, m);
    var down, up := Pressing(l, Down), Pressing(l, Up);
    forall c | 0 <= c <= last
      ensures down(m.(cursor := c)) == m.(cursor := Min(last, c + 1))
      ensures up(m.(cursor := c)) == m.(cursor := Max(0, c - 1))
    {
      OneStep(l, m, c);
    }
    PageMoves(l, m);
    StepsDown(down, m, last, rows);
    StepsUp(up, m, last, rows);
  }

  /** Down then Up is where one was, and Up then Down, exactly away from the end they run into first. */
  lemma ThereAndBack(l: Lists, m: Model)
    requires WellFormed(l) && Browsing(l, m)
    ensures Valid(l, Pressed(l, m, Down)) && Valid(l, Pressed(l, m, Up))
    ensures Pressed(l, Pressed(l, m, Down), Up) == m <==> m.cursor < LastEntry(l, m) || m.cursor == 0
    ensures Pressed(l, Pressed(l, m, Up), Down) == m <==> m.cursor > 0 || LastEntry(l, m) == 0
  {
    UpdateKeepsValid(l, m, Press(Down, ""), 0, 0);
    UpdateKeepsValid(l, m, Press(Up, ""), 0, 0);
    CursorMoves(l, m, Down, "", 0, 0);
    CursorMoves(l, m, Up, "", 0, 0);
    var down, up := Pressed(l, m, Down), Pressed(l, m, Up);
    StillBrowsing(l, m, down.cursor);
    StillBrowsing(l, m, up.cursor);
    CursorMoves(l, down, Up, "", 0, 0);
    CursorMoves(l, up, Down, "", 0, 0);
  }

  /** What Enter shows: the fleet, every command, or the question; or it launches the entry. */
  lemma EnterOpens(l: Lists, m: Model, newId: nat)
    requires WellFormed(l) && Browsing(l, m) && Items(l, m) != []
    ensures var n, item := Update(l, m, Press(Enter, ""), 0, newId), Items(l, m)[m.cursor];
      && (OpensFleet(item) ==> Items(l, n.m) == l.fleet && n.m.cursor == 0 && n.effect == Nothing)
      && (OpensCatalogue(item) ==> Items(l, n.m) == l.commands && n.m.cursor == 0 && n.effect == Nothing)
      && (!OpensFleet(item) && !OpensCatalogue(item) && item.confirm ==> n == Next(m.(confirming := true), Nothing))
  {
    var item := Items(l, m)[m.cursor];
    if OpensFleet(item) || OpensCatalogue(item) {
      assert !m.fleet && !m.catalogue && m.query == "";
      EveryCommand(l, |l.commands|);
    }
  }

  lemma {:induction false} EveryCommand(l: Lists, n: nat)
    requires n <= |l.commands|
    ensures Matching(l, "", n) == l.commands[..n]
    ensures Matching(l, "", |l.commands|) == l.commands || n < |l.commands|
  {
    if n > 0 {
      EveryCommand(l, n - 1);
      LastOff(l.commands[..n]);
      TakeTake(l.commands, n, n - 1);
    }
    WholeSlice(l.commands);
  }

  predicate SaysYes(key: Key) { key in {Letter('y'), Letter('Y')} }

  predicate SaysNo(key: Key) { key in {Letter('n'), Letter('N'), Letter('q'), Esc, Enter} }

  /** The question: yes launches its entry, no and its like put it away, and nothing else does anything. */
  lemma QuestionAnswered(l: Lists, m: Model, key: Key, text: string, total: nat, newId: nat)
    requires Valid(l, m) && m.confirming && !TooSmall(m) && !key.CtrlC?
    ensures var n := Update(l, m, Press(key, text), total, newId);
      && (SaysNo(key) ==> n == Next(m.(confirming := false), Nothing))
      && (!SaysNo(key) && !SaysYes(key) ==> n == Next(m, Nothing))
      && (SaysYes(key) ==>
            && !n.m.confirming
            && (n.effect == Start(Items(l, m)[m.cursor].args.value) || n.m.choice == Items(l, m)[m.cursor].args))
  {
  }

  /** How a command in the pane is left: once it is done, Enter or Esc goes back to the list as it was and q
      leaves the launcher; until then the same keys leave neither. */
  lemma PaneIsLeft(l: Lists, m: Model, key: Key, text: string, total: nat, newId: nat)
    requires Valid(l, m) && m.run.Some? && key in {Enter, Esc, Letter('q')}
    ensures var n := Update(l, m, Press(key, text), total, newId);
      if !m.run.value.done then n.effect == Nothing && n.m.run.Some? && !n.m.run.value.done
      else if key == Letter('q') then n.effect == Quit && n.m.choice.None?
      else n == Next(m.(run := None), Nothing)
  {
  }

  // ----- Searching -----

  predicate Searching(l: Lists, m: Model) { Valid(l, m) && m.run.None? && m.searching && !m.confirming && !TooSmall(m) }

  /** Keys that add their text to the query. */
  predicate Types(key: Key) { key !in {CtrlC, Esc, Enter, Down, Backspace} }

  function Typed(l: Lists, m: Model, key: Key, text: string): Model
    requires Valid(l, m)
  {
    Update(l, m, Press(key, text), 0, 0).m
  }

  /** Text goes to the end of the query, and Backspace takes one character off it: so it undoes a key
      exactly when that added one character, or nothing to nothing. */
  lemma BackspaceUndoes(l: Lists, m: Model, key: Key, text: string)
    requires WellFormed(l) && Searching(l, m) && Types(key)
    ensures var n := Typed(l, m, key, text);
      && n == m.(query := m.query + text, cursor := 0) && Valid(l, n)
      && (Pressed(l, n, Backspace).query == m.query <==> |text| == 1 || (text == "" && m.query == ""))
  {
    UpdateKeepsValid(l, m, Press(key, text), 0, 0);
    var n := Typed(l, m, key, text);
    UndoneByOne(m.query, text);
    assert Pressed(l, n, Backspace).query == if n.query == "" then "" else n.query[..|n.query| - 1];
  }

  lemma UndoneByOne(query: string, text: string)
    ensures var all := query + text;
      (if all == "" then "" else all[..|all| - 1]) == query <==> |text| == 1 || (text == "" && query == "")
  {
    var all := query + text;
    if |text| == 1 {
      assert all[..|all| - 1] == query;
    }
  }

  /** Enter keeps the query and goes to the first match; Esc drops the query and shows every command. */
  lemma SearchEnds(l: Lists, m: Model)
    requires Searching(l, m)
    ensures var enter, esc := Pressed(l, m, Enter), Pressed(l, m, Esc);
      && !enter.searching && enter.query == m.query && enter.cursor == 0 && Items(l, enter) == Items(l, m)
      && !esc.searching && Items(l, esc) == l.commands && esc.cursor == 0
  {
    EveryCommand(l, |l.commands|);
  }

  /** A search shows exactly the commands that match, in the order of the table. */
  lemma {:induction false} SearchFinds(l: Lists, query: string, n: nat) returns (at: seq<nat>)
    requires n <= |l.commands|
    ensures |at| == |Matching(l, query, n)|
    ensures forall j :: 0 <= j < |at| ==> at[j] < n && Matching(l, query, n)[j] == l.commands[at[j]]
    ensures forall j, k :: 0 <= j < k < |at| ==> at[j] < at[k]
    ensures forall i :: 0 <= i < n ==> (i in at <==> query == "" || l.matches(query, l.commands[i]))
  {
    if n == 0 {
      at := [];
    } else {
      at := SearchFinds(l, query, n - 1);
      if query == "" || l.matches(query, l.commands[n - 1]) {
        at := at + [n - 1];
      }
    }
  }

  /** From anywhere in the lists, Esc leads home in at most two presses, and from there out. */
  lemma EscLeadsHome(l: Lists, m: Model)
    requires WellFormed(l) && (Browsing(l, m) || Searching(l, m))
    ensures var once := Pressed(l, m, Esc);
      && Valid(l, once)
      && var home := if m.searching then Pressed(l, once, Esc) else once;
        && Valid(l, home) && Items(l, home) == l.home && home.query == ""
        && (m.catalogue || m.fleet ==> home.cursor == 0)
        && Update(l, home, Press(Esc, ""), 0, 0).effect == Quit
  {
    UpdateKeepsValid(l, m, Press(Esc, ""), 0, 0);
    UpdateKeepsValid(l, Pressed(l, m, Esc), Press(Esc, ""), 0, 0);
  }

  /** `/` starts a search from any list. */
  lemma SlashSearches(l: Lists, m: Model)
    requires Browsing(l, m)
    ensures var n := Pressed(l, m, Letter('/'));
      n.searching && n.query == m.query && n.cursor == 0 && Items(l, n) == Matching(l, m.query, |l.commands|)
  {
  }

  /** A new window size is kept, and is all that a resize changes. */
  lemma ResizeChangesTheSize(l: Lists, m: Model, w: int, h: int, total: nat, newId: nat)
    requires Valid(l, m)
    ensures Update(l, m, Resize(w, h), total, newId) == Next(m.(width := w, height := h), Nothing)
  {
  }

  // ----- A whole session -----

  /** The launcher and the commands it started: in the pane, or on the real terminal. */
  datatype World = World(
    m: Model, alive: bool, terminal: Option<Args>, running: set<nat>, finished: map<nat, int>, nextId: nat)

  datatype Input =
    | Deliver(msg: Msg, total: nat)
    | Finish(id: nat, code: int)
    | Back(quit: bool)

  /** What can happen next. A command reports that it is done only after it is. */
  predicate Enabled(w: World, i: Input) {
    match i
    case Deliver(msg, _) =>
      && w.alive && w.terminal.None?
      && (msg.RunDone? ==> msg.id in w.finished && w.finished[msg.id] == msg.code)
    case Finish(id, _) => id in w.running
    case Back(_) => w.alive && w.terminal.Some?
  }

  function Deliver1(l: Lists, w: World, n: Next): World {
    match n.effect
    case Start(_) => w.(m := n.m, running := w.running + {w.nextId}, nextId := w.nextId + 1)
    case Quit => if n.m.choice.None? then w.(m := n.m, alive := false) else w.(m := n.m, terminal := n.m.choice)
    case _ => w.(m := n.m)
  }

  function Step(l: Lists, w: World, i: Input): World
    requires Valid(l, w.m)
  {
    match i
    case Deliver(msg, total) => Deliver1(l, w, Update(l, w.m, msg, total, w.nextId))
    case Finish(id, code) => w.(running := w.running - {id}, finished := w.finished[id := code])
    case Back(quit) => w.(m := w.m.(choice := None), terminal := None, alive := !quit)
  }

  /** The command an input starts, if it starts one. */
  function Started(l: Lists, w: World, i: Input): Option<Args>
    requires Valid(l, w.m)
  {
    if !i.Deliver? then None
    else
      var n := Update(l, w.m, i.msg, i.total, w.nextId);
      if n.effect.Start? then Some(n.effect.args) else if n.effect.Quit? then n.m.choice else None
  }

  /** What can be running: the command in the pane until it is done. */
  function MayRun(m: Model): set<nat> {
    if m.run.Some? && !m.run.value.done then {m.run.value.id} else {}
  }

  /** A command shown as done is done, with the code it shows. */
  predicate CodeFits(r: Run, finished: map<nat, int>) { r.done ==> r.id in finished && finished[r.id] == r.code }

  predicate Good(l: Lists, w: World) {
    && Valid(l, w.m)
    && w.running <= MayRun(w.m)
    && (forall id :: id in w.running ==> id !in w.finished && id < w.nextId)
    && (forall id :: id in w.finished ==> id < w.nextId)
    && (w.m.run.Some? ==> w.m.run.value.id < w.nextId && CodeFits(w.m.run.value, w.finished))
    && (w.terminal.Some? ==> w.m.run.None?)
    && (w.alive && w.terminal.None? ==> w.m.choice.None?)
  }

  lemma StepKeepsGood(l: Lists, w: World, i: Input)
    requires WellFormed(l) && Good(l, w) && Enabled(w, i)
    ensures Good(l, Step(l, w, i))
  {
    match i {
      case Deliver(msg, total) =>
        UpdateKeepsValid(l, w.m, msg, total, w.nextId);
        UpdateAndRuns(l, w.m, msg, total, w.nextId);
      case Finish(id, code) =>
      case Back(quit) => assert Items(l, Step(l, w, i).m) == Items(l, w.m);
    }
  }

  /** How an update bears on the running command and on the recorded choice. */
  ghost predicate RunsInOrder(m: Model, msg: Msg, n: Next, newId: nat) {
    && (n.effect.Start? ==> m.run.None? && n.m.run.Some? && n.m.run.value.id == newId && !n.m.run.value.done)
    && (!n.effect.Start? ==> n.m.run == m.run || m.run.Some?)
    && (m.run.Some? && n.m.run.Some? ==> n.m.run.value.id == m.run.value.id)
    && (m.run.Some? && n.m.run.None? ==> m.run.value.done)
    && (m.run.Some? && n.m.run.Some? && n.m.run.value.done ==>
          if msg.RunDone? && msg.id == m.run.value.id then n.m.run.value.code == msg.code
          else m.run.value.done && n.m.run.value.code == m.run.value.code)
    && (m.run.Some? && n.m.run.Some? && m.run.value.done ==> n.m.run.value.done)
    && (n.m.choice.Some? ==> n.effect.Quit? && n.m.run.None?)
  }

  lemma RunInOrder(m: Model, msg: Msg, total: nat, newId: nat)
    requires m.run.Some? && m.choice.None?
    ensures RunsInOrder(m, msg, UpdateRun(m, msg, total), newId)
  {
  }

  lemma UpdateAndRuns(l: Lists, m: Model, msg: Msg, total: nat, newId: nat)
    requires Valid(l, m) && m.choice.None?
    ensures RunsInOrder(m, msg, Update(l, m, msg, total, newId), newId)
  {
    if m.run.Some? {
      RunInOrder(m, msg, total, newId);
    }
  }

  /** A second command never starts while one is running, in the pane or on the terminal. */
  lemma OneAtATime(l: Lists, w: World, i: Input)
    requires Good(l, w) && Enabled(w, i) && Started(l, w, i).Some?
    ensures w.running == {} && w.terminal.None? && w.m.run.None?
  {
    UpdateAndRuns(l, w.m, i.msg, i.total, w.nextId);
  }

  // ----- Confirmation -----

  /** The same list is showing, with the cursor on the same entry. */
  predicate SameEntry(m: Model, n: Model) {
    m.cursor == n.cursor && m.fleet == n.fleet && m.catalogue == n.catalogue && m.query == n.query
  }

  predicate IsEnter(i: Input) { i.Deliver? && i.msg.Press? && i.msg.key.Enter? }

  predicate IsYes(i: Input) { i.Deliver? && i.msg.Press? && (IsLetter(i.msg.key, 'y') || IsLetter(i.msg.key, 'Y')) }

  /** A confirmation shows because it was showing for this entry, or because Enter was pressed on it. */
  lemma ConfirmingUpdate(l: Lists, m: Model, msg: Msg, total: nat, newId: nat)
    requires Valid(l, m) && Update(l, m, msg, total, newId).m.confirming
    ensures SameEntry(m, Update(l, m, msg, total, newId).m)
    ensures m.confirming || (msg.Press? && msg.key.Enter?)
  {
    if m.run.Some? {
      RunKeepsConfirming(m, msg, total);
    } else if msg.Press? && !msg.key.CtrlC? && !TooSmall(m) && !m.confirming && !m.searching {
      ConfirmingBrowse(l, m, msg.key, newId);
    }
  }

  lemma RunKeepsConfirming(m: Model, msg: Msg, total: nat)
    requires m.run.Some?
    ensures UpdateRun(m, msg, total).m.confirming == m.confirming
  {
  }

  lemma ConfirmingBrowse(l: Lists, m: Model, key: Key, newId: nat)
    requires |Items(l, m)| > 0 ==> 0 <= m.cursor < |Items(l, m)|
    requires !m.confirming && Browse(l, m, key, newId).m.confirming
    ensures SameEntry(m, Browse(l, m, key, newId).m) && key.Enter?
  {
  }

  /** An input that launches the entry under the cursor. */
  predicate Launches(l: Lists, m: Model, i: Input) {
    && m.run.None? && !TooSmall(m) && 0 <= m.cursor < |Items(l, m)|
    && var item := Items(l, m)[m.cursor];
       if m.confirming then IsYes(i)
       else IsEnter(i) && !m.searching && !item.confirm && !OpensFleet(item) && !OpensCatalogue(item)
  }

  /** A command starts on exactly those inputs, and it is the one under the cursor. */
  lemma StartedExactlyWhen(l: Lists, w: World, i: Input)
    requires Valid(l, w.m) && w.m.choice.None?
    ensures Started(l, w, i).Some? <==> Launches(l, w.m, i)
    ensures Launches(l, w.m, i) ==> Started(l, w, i) == Items(l, w.m)[w.m.cursor].args
  {
  }

  /** A command runs in the pane, unless it is the guided installer and not its help, which has to ask
      questions and gets the terminal. */
  lemma LaunchedWhere(l: Lists, w: World, i: Input)
    requires Valid(l, w.m) && w.m.choice.None? && Launches(l, w.m, i)
    ensures var args := Items(l, w.m)[w.m.cursor].args;
      && args.Some?
      && var asks := args.value != [] && args.value[0] == "init" && "--help" !in args.value;
        && Step(l, w, i).terminal == (if asks then args else w.terminal)
        && Step(l, w, i).running == w.running + (if asks then {} else {w.nextId})
  {
  }

  /** A launcher as it opens: empty, or with a command already running in its pane. */
  predicate Opens(l: Lists, w: World) {
    && w.alive && w.terminal.None? && w.finished == map[]
    && w.m.cursor == 0 && !w.m.catalogue && !w.m.fleet && !w.m.searching && !w.m.confirming && w.m.choice.None?
    && w.m.query == ""
    && match w.m.run
       case None => w.running == {}
       case Some(r) => r == Run(0, r.args, false, false, 0, Pane(0, true)) && w.running == {0} && w.nextId == 1
  }

  lemma OpensGood(l: Lists, w: World)
    requires Opens(l, w)
    ensures Good(l, w)
  {
  }

  /** One input; one that cannot happen is left out. */
  function Played(l: Lists, w: World, i: Input): World
    requires Good(l, w)
  {
    if Enabled(w, i) then Step(l, w, i) else w
  }

  /** ws are the worlds that the inputs lead through. */
  ghost predicate Plays(l: Lists, ws: seq<World>, ins: seq<Input>) {
    && |ws| == |ins| + 1 && Opens(l, ws[0]) && (forall k :: 0 <= k < |ws| ==> Good(l, ws[k]))
    && forall k :: 0 <= k < |ins| ==> ws[k + 1] == Played(l, ws[k], ins[k])
  }

  /** The worlds of a session. Whatever the inputs, every one of them is good. */
  ghost function Session(l: Lists, w0: World, ins: seq<Input>): (ws: seq<World>)
    requires WellFormed(l) && Opens(l, w0)
    ensures Plays(l, ws, ins) && ws[0] == w0
  {
    if ins == [] then OpensGood(l, w0); [w0]
    else
      var n := |ins| - 1;
      var ws := Session(l, w0, ins[..n]);
      OneMorePlayed(l, ws, ins[..n], ins[n]);
      LastOff(ins);
      ws + [Played(l, ws[n], ins[n])]
  }

  lemma OneMorePlayed(l: Lists, ws: seq<World>, ins: seq<Input>, i: Input)
    requires WellFormed(l) && Plays(l, ws, ins)
    ensures Plays(l, ws + [Played(l, ws[|ins|], i)], ins + [i])
  {
    var last := Played(l, ws[|ins|], i);
    assert Good(l, last) by {
      if Enabled(ws[|ins|], i) {
        StepKeepsGood(l, ws[|ins|], i);
      }
    }
    var all := ws + [last];
    assert forall k :: 0 <= k < |ws| ==> all[k] == ws[k];
    assert forall k :: 0 <= k < |ins| ==> (ins + [i])[k] == ins[k];
  }

  /** The confirmation showing at i was raised at j by Enter on this entry, and showed all the time since. */
  ghost predicate RaisedAt(ws: seq<World>, ins: seq<Input>, j: nat, i: nat) {
    && j < i < |ws| && j < |ins| && IsEnter(ins[j]) && !ws[j].m.confirming && SameEntry(ws[j].m, ws[i].m)
    && forall k :: j < k <= i ==> ws[k].m.confirming && SameEntry(ws[k].m, ws[i].m)
  }

  lemma ConfirmingStep(l: Lists, w: World, i: Input)
    requires Good(l, w) && Played(l, w, i).m.confirming
    ensures SameEntry(w.m, Played(l, w, i).m)
    ensures w.m.confirming || IsEnter(i)
  {
    if i.Deliver? && Enabled(w, i) {
      ConfirmingUpdate(l, w.m, i.msg, i.total, w.nextId);
    }
  }

  lemma {:induction false} ConfirmingSince(l: Lists, ws: seq<World>, ins: seq<Input>, i: nat) returns (j: nat)
    requires Plays(l, ws, ins) && i < |ws| && ws[i].m.confirming
    ensures RaisedAt(ws, ins, j, i)
    decreases i
  {
    j := i - 1;
    assert ws[j + 1] == Played(l, ws[j], ins[j]);
    ConfirmingStep(l, ws[j], ins[j]);
    if ws[j].m.confirming {
      j := ConfirmingSince(l, ws, ins, j);
    }
  }

  /** Over any session, an action marked for confirmation runs only on a yes to its own
      confirmation, which Enter on that very entry raised and which showed without a break;
      and nothing starts while another command is running. */
  lemma ConfirmedBeforeStarted(l: Lists, ws: seq<World>, ins: seq<Input>, i: nat)
    requires Plays(l, ws, ins) && i < |ins| && Enabled(ws[i], ins[i]) && Started(l, ws[i], ins[i]).Some?
    ensures ws[i].running == {} && ws[i].terminal.None? && !TooSmall(ws[i].m)
    ensures 0 <= ws[i].m.cursor < |Items(l, ws[i].m)|
    ensures var item := Items(l, ws[i].m)[ws[i].m.cursor];
      && item.args == Started(l, ws[i], ins[i])
      && (item.confirm ==> IsYes(ins[i]) && exists j: nat :: RaisedAt(ws, ins, j, i))
  {
    OneAtATime(l, ws[i], ins[i]);
    StartedExactlyWhen(l, ws[i], ins[i]);
    if ws[i].m.confirming {
      var j := ConfirmingSince(l, ws, ins, i);
    }
  }

  /** A command that ignores its context can still be left: the second ctrl+c quits. */
  lemma SecondInterruptQuits(l: Lists, w: World, total: nat)
    requires WellFormed(l) && Good(l, w) && w.alive && w.terminal.None? && w.m.run.Some?
    ensures var c := Deliver(Press(CtrlC, ""), total);
      var once := Step(l, w, c);
      !once.alive || (Good(l, once) && !Step(l, once, c).alive)
  {
    StepKeepsGood(l, w, Deliver(Press(CtrlC, ""), total));
  }

  // ----- The lists the launcher ships with -----

  const HOME_ITEMS: seq<Item> := [
    Item("Your fleet", Some(["@fleet"]), false),
    Item("Host health", Some(["doctor"]), false),
    Item("Preview an upgrade", Some(["upgrade", "--dry-run"]), false),
    Item("Upgrade this host", Some(["upgrade"]), true),
    Item("Set up this host", Some(["init"]), true),
    Item("Explore commands", None, false)
  ]

  const FLEET_ITEMS: seq<Item> := [
    Item("Overview", Some(["status"]), false),
    Item("Problems", Some(["problems", "list"]), false),
    Item("Runners", Some(["runners", "list"]), false),
    Item("Jobs", Some(["jobs", "list"]), false),
    Item("Pools", Some(["pools", "list"]), false),
    Item("Hosts", Some(["hosts", "list"]), false),
    Item("Recent events", Some(["events", "recent"]), false)
  ]

  /** The launcher's own lists, over any table of commands none of which is called "@fleet". */
  lemma ShippedListsWellFormed(names: seq<string>, matches: (string, Item) -> bool)
    requires "@fleet" !in names
    ensures WellFormed(Lists(HOME_ITEMS, FLEET_ITEMS,
      seq(|names|, i requires 0 <= i < |names| => Item(names[i], Some([names[i], "--help"]), false)), matches))
  {
    assert forall i :: 0 <= i < |FLEET_ITEMS| ==> Harmless(FLEET_ITEMS[i]);
  }
}
