/** The animated logo of the documentation site: which gesture comes next, and when. */
module Logo {
  import opened Seqs
  import opened Wrappers

  datatype Gesture = Hello | Curious | Zoom | Spin

  const GESTURES: seq<Gesture> := [Hello, Curious, Zoom, Spin]

  /** Each gesture once. */
  const ONE_EACH: multiset<Gesture> := multiset{Hello, Curious, Zoom, Spin}

  // ----- What a good sequence of gestures is -----

  /** The k-th four draws. */
  function Block(drawn: seq<Gesture>, k: nat): seq<Gesture>
    requires 4 * k + 4 <= |drawn|
  {
    drawn[4 * k..4 * k + 4]
  }

  ghost predicate Shuffled(drawn: seq<Gesture>) {
    && (forall k: nat :: 4 * k + 4 <= |drawn| ==> multiset(Block(drawn, k)) == ONE_EACH)
    && (forall i, j :: 0 <= i < j < |drawn| && j == i + 1 ==> drawn[i] != drawn[j])
  }

  /** Every gesture comes round within seven draws, wherever one starts counting. */
  lemma RecursWithinSeven(drawn: seq<Gesture>, i: nat, g: Gesture)
    requires Shuffled(drawn) && i + 7 <= |drawn|
    ensures g in drawn[i..i + 7]
  {
    var k := (i + 3) / 4;
    assert i <= 4 * k && 4 * k + 4 <= i + 7;
    var block := Block(drawn, k);
    assert multiset(block)[g] == 1;
    var j :| 0 <= j < |block| && block[j] == g;
    assert drawn[i..i + 7][4 * k + j - i] == g;
  }

  // ----- The bag -----

  function Swapped(s: seq<Gesture>, i: nat, j: nat): (t: seq<Gesture>)
    requires i < |s| && j < |s|
    ensures |t| == |s| && multiset(t) == multiset(s)
    ensures t[i] == s[j] && t[j] == s[i]
  {
    s[i := s[j]][j := s[i]]
  }

  /** No gesture twice. */
  predicate Distinct(s: seq<Gesture>) { forall i, j :: 0 <= i < j < |s| ==> s[i] != s[j] }

  lemma OneEachIsDistinct(s: seq<Gesture>)
    requires multiset(s) == ONE_EACH
    ensures |s| == 4 && Distinct(s)
  {
    assert |multiset(s)| == |s|;
    forall i, j | 0 <= i < j < |s| ensures s[i] != s[j] {
      if s[i] == s[j] {
        Twice(s, i, j);
      }
    }
  }

  lemma Twice(s: seq<Gesture>, i: nat, j: nat)
    requires i < j < |s| && s[i] == s[j]
    ensures multiset(s)[s[i]] >= 2
  {
    Cut(s, j);
    assert multiset(s) == multiset(s[..j]) + multiset(s[j..]);
    assert s[..j][i] == s[i] && s[j..][0] == s[i];
    assert s[i] in s[..j] && s[i] in s[j..];
  }

  /** Where the draws stand: whole blocks, then the draws that the bag will complete to another. */
  ghost predicate Fits(blocks: seq<Gesture>, current: seq<Gesture>, bag: seq<Gesture>) {
    && |blocks| % 4 == 0 && Shuffled(blocks + current)
    && if bag == [] then current == []
       else current != [] && |current| + |bag| == 4 && multiset(current + bag) == ONE_EACH
  }

  /** There is something to draw, and drawing it repeats nothing. */
  ghost predicate CanDraw(blocks: seq<Gesture>, current: seq<Gesture>, bag: seq<Gesture>, previous: Option<Gesture>) {
    && |blocks| % 4 == 0 && Shuffled(blocks + current)
    && bag != [] && |current| + |bag| == 4 && multiset(current + bag) == ONE_EACH
    && previous == LastOf(blocks + current)
    && (current == [] && previous.Some? ==> bag[3] != previous.value)
  }

  function LastOf(drawn: seq<Gesture>): Option<Gesture> {
    if drawn == [] then None else Some(drawn[|drawn| - 1])
  }

  ghost predicate BagFits(blocks: seq<Gesture>, current: seq<Gesture>, bag: seq<Gesture>, previous: Option<Gesture>) {
    Fits(blocks, current, bag) && previous == LastOf(blocks + current)
  }

  class Bag {
    var bag: seq<Gesture>
    var previous: Option<Gesture>
    ghost var blocks: seq<Gesture>
    ghost var current: seq<Gesture>

    /** Everything drawn so far. */
    ghost function Drawn(): seq<Gesture>
      reads this
    {
      blocks + current
    }

    ghost predicate Valid()
      reads this
    {
      BagFits(blocks, current, bag, previous)
    }

    constructor ()
      ensures Valid() && Drawn() == []
    {
      bag, previous, blocks, current := [], None, [], [];
    }

    method Fill()
      requires Valid()
      modifies `bag
      ensures CanDraw(blocks, current, bag, previous)
    {
      if bag == [] {
        bag := Refill(previous);
        ConcatNothing(bag);
      }
    }

    /** Whatever was drawn so far is shuffled. */
    lemma DrawsAreShuffled()
      requires Valid()
      ensures Shuffled(Drawn())
    {
    }

    /** The next gesture, whatever the random numbers are. */
    method NextGesture() returns (g: Gesture)
      requires Valid()
      modifies this
      ensures Valid() && Drawn() == old(Drawn()) + [g]
    {
      Fill();
      g := bag[|bag| - 1];
      blocks, current := Advance(blocks, current, bag, previous);
      bag := bag[..|bag| - 1];
      previous := Some(g);
    }
  }

  lemma Advance(blocks: seq<Gesture>, current: seq<Gesture>, bag: seq<Gesture>, previous: Option<Gesture>)
    returns (blocks': seq<Gesture>, current': seq<Gesture>)
    requires CanDraw(blocks, current, bag, previous)
    ensures BagFits(blocks', current', bag[..|bag| - 1], Some(bag[|bag| - 1]))
    ensures blocks' + current' == (blocks + current) + [bag[|bag| - 1]]
  {
    DrawShuffled(blocks, current, bag, previous);
    SnocInit(blocks + current, bag[|bag| - 1]);
    blocks', current' := OneMore(blocks, current, bag[|bag| - 1], bag[..|bag| - 1]);
  }

  lemma DrawShuffled(blocks: seq<Gesture>, current: seq<Gesture>, bag: seq<Gesture>, previous: Option<Gesture>)
    requires CanDraw(blocks, current, bag, previous)
    ensures Shuffled(blocks + current + [bag[|bag| - 1]])
    ensures multiset((current + [bag[|bag| - 1]]) + bag[..|bag| - 1]) == ONE_EACH
  {
    var g, rest := bag[|bag| - 1], bag[..|bag| - 1];
    NextDiffers(blocks, current, bag, previous);
    LastOff(bag);
    MovedOver(current, rest, g);
    if rest == [] {
      ConcatNothing(current + [g]);
    }
    MoreShuffled(blocks, current, g);
  }

  lemma OneMore(blocks: seq<Gesture>, current: seq<Gesture>, g: Gesture, rest: seq<Gesture>)
    returns (blocks': seq<Gesture>, current': seq<Gesture>)
    requires |blocks| % 4 == 0 && |current| + 1 + |rest| == 4 && Shuffled(blocks + current + [g])
    requires multiset((current + [g]) + rest) == ONE_EACH
    ensures Fits(blocks', current', rest) && blocks' + current' == blocks + current + [g]
  {
    ConcatAssociates(blocks, current, [g]);
    ConcatNothing(blocks + current + [g]);
    if rest == [] {
      blocks', current' := blocks + current + [g], [];
    } else {
      blocks', current' := blocks, current + [g];
    }
  }

  /** A shuffled bag whose first draw is not what was drawn last. */
  method Refill(previous: Option<Gesture>) returns (bag: seq<Gesture>)
    ensures |bag| == 4 && multiset(bag) == ONE_EACH
    ensures previous.Some? ==> bag[3] != previous.value
  {
    bag := GESTURES;
    var i := 3;
    while i > 0
      invariant 0 <= i <= 3 && |bag| == 4 && multiset(bag) == ONE_EACH
    {
      var j :| 0 <= j <= i;
      bag := Swapped(bag, i, j);
      i := i - 1;
    }
    OneEachIsDistinct(bag);
    // Do not repeat across the boundary of two shuffled bags either.
    if previous.Some? && bag[3] == previous.value {
      bag := Swapped(bag, 0, 3);
    }
  }

  /** A gesture still in the bag was not drawn in this block; a full bag was arranged not to repeat. */
  lemma NextDiffers(blocks: seq<Gesture>, current: seq<Gesture>, bag: seq<Gesture>, previous: Option<Gesture>)
    requires bag != [] && |current| + |bag| == 4 && multiset(current + bag) == ONE_EACH
    requires previous == LastOf(blocks + current)
    requires current == [] && previous.Some? ==> bag[3] != previous.value
    ensures previous.Some? ==> previous.value != bag[|bag| - 1]
  {
    if current != [] {
      OneEachIsDistinct(current + bag);
      assert (current + bag)[|current| - 1] == current[|current| - 1] && (current + bag)[3] == bag[|bag| - 1];
    }
  }

  /** A gesture drawn from the bag stays in its block. */
  lemma MovedOver(current: seq<Gesture>, rest: seq<Gesture>, g: Gesture)
    ensures multiset((current + [g]) + rest) == multiset(current + (rest + [g]))
  {
    assert multiset((current + [g]) + rest) == multiset(current) + multiset([g]) + multiset(rest);
    assert multiset(current + (rest + [g])) == multiset(current) + (multiset(rest) + multiset([g]));
  }

  lemma MoreShuffled(blocks: seq<Gesture>, current: seq<Gesture>, g: Gesture)
    requires |blocks| % 4 == 0 && |current| < 4 && Shuffled(blocks + current)
    requires |current| == 3 ==> multiset(current + [g]) == ONE_EACH
    requires blocks + current != [] ==> (blocks + current)[|blocks + current| - 1] != g
    ensures Shuffled(blocks + current + [g])
  {
    BlocksGrow(blocks, current, g);
    var drawn := blocks + current;
    assert forall i :: 0 <= i < |drawn| ==> (drawn + [g])[i] == drawn[i];
  }

  lemma BlocksGrow(blocks: seq<Gesture>, current: seq<Gesture>, g: Gesture)
    requires |blocks| % 4 == 0 && |current| < 4 && Shuffled(blocks + current)
    requires |current| == 3 ==> multiset(current + [g]) == ONE_EACH
    ensures var more := blocks + current + [g];
      forall k: nat :: 4 * k + 4 <= |more| ==> multiset(Block(more, k)) == ONE_EACH
  {
    var drawn := blocks + current;
    var more := drawn + [g];
    forall k: nat | 4 * k + 4 <= |more| ensures multiset(Block(more, k)) == ONE_EACH {
      if 4 * k + 4 <= |drawn| {
        assert Block(more, k) == Block(drawn, k);
      } else {
        assert 4 * k == |blocks|;
        assert Block(more, k) == current + [g];
      }
    }
  }

  // ----- What a run of the page means, from its events alone -----

  /** What the page says when a handler runs. */
  datatype Page = Page(hidden: bool, reduced: bool)

  /** What can happen, when, and what the page says then. */
  datatype Event =
    | Visibility(now: real, page: Page)
    | Seen(now: real, page: Page, intersecting: bool)
    | Motion(now: real, page: Page)
    | Decoded(now: real, page: Page)
    /** The timeout fires, with the random number drawn and the gesture drawn, if one is. */
    | Fired(now: real, page: Page, random: real, next: Option<Gesture>)
    | Disposed(now: real, page: Page)

  const FIRST_WAIT := 500.0
  const PERFORMANCE := 6000.0

  type Trace = seq<Event>

  function Init(es: Trace): Trace
    requires es != []
  {
    es[..|es| - 1]
  }

  function Last(es: Trace): Event
    requires es != []
  {
    es[|es| - 1]
  }

  /** The time of the latest event. */
  function Time(start: real, es: Trace): real { if es == [] then start else Last(es).now }

  predicate Alive(es: Trace) { es == [] || (!Last(es).Disposed? && Alive(Init(es))) }

  /** The picture was decoded while the logo was there. */
  predicate Ready(es: Trace) {
    es != [] && (Ready(Init(es)) || (Last(es).Decoded? && Alive(es)))
  }

  /** In view; without an observer to say otherwise, always. */
  predicate InView(observed: bool, es: Trace) {
    if es == [] then !observed else if Last(es).Seen? then Last(es).intersecting else InView(observed, Init(es))
  }

  /** The animation runs. */
  predicate Runs(observed: bool, es: Trace) {
    && es != [] && Alive(es) && Ready(es) && InView(observed, es)
    && !Last(es).page.hidden && !Last(es).page.reduced
  }

  /** The event sends the logo back to its still mark. */
  predicate Resets(e: Event) { e.Motion? && e.page.reduced }

  /** A performance is on: timeouts begin and end one in turn. */
  predicate Active(es: Trace) {
    es != [] && if Last(es).Fired? then !Active(Init(es)) else !Resets(Last(es)) && Active(Init(es))
  }

  /** The gesture shown. */
  function Shown(es: Trace): Option<Gesture> {
    if es == [] then None
    else match Last(es)
      case Fired(_, _, _, next) => next
      case Disposed(_, _) => None
      case e => if Resets(e) then None else Shown(Init(es))
  }

  /** How long the phase in progress is to run. */
  function PhasePeriod(es: Trace): real {
    if es == [] then FIRST_WAIT
    else match Last(es)
      case Fired(_, _, random, _) => if Active(es) then PERFORMANCE else 2600.0 + random * 4000.0
      case e => if Resets(e) then FIRST_WAIT else PhasePeriod(Init(es))
  }

  /** How long it has run by `now`: the time since it began during which the animation ran. */
  function PhaseRan(observed: bool, es: Trace, now: real): real {
    if es == [] then 0.0
    else
      var before := if Last(es).Fired? || Resets(Last(es)) then 0.0 else PhaseRan(observed, Init(es), Last(es).now);
      before + if Runs(observed, es) then now - Last(es).now else 0.0
  }

  // ----- The code's own clock: when a timeout is due, when it was set, and what was left of it then -----

  datatype Clock = Clock(timer: Option<real>, started: real, remaining: real)

  function AtLeastZero(x: real): real { if x < 0.0 then 0.0 else x }

  /** Started or stopped, as the page allows. Stopping keeps what is left. */
  function Synced(c: Clock, running: bool, now: real): Clock {
    if !running && c.timer.Some? then Clock(None, c.started, AtLeastZero(c.remaining - (now - c.started)))
    else if running && c.timer.None? then Clock(Some(now + c.remaining), now, c.remaining)
    else c
  }

  /** What an event makes of the clock. */
  function Turned(c: Clock, e: Event, alive: bool, running: bool, active: bool): Clock {
    match e
    case Fired(now, _, random, _) =>
      Synced(Clock(None, c.started, if active then PERFORMANCE else 2600.0 + random * 4000.0), running, now)
    case Disposed(_, _) => c.(timer := None)
    case _ =>
      if !alive then c
      else if Resets(e) then Synced(c, running, e.now).(remaining := FIRST_WAIT)
      else Synced(c, running, e.now)
  }

  function ClockOf(observed: bool, es: Trace): Clock {
    if es == [] then Clock(None, 0.0, FIRST_WAIT)
    else Turned(ClockOf(observed, Init(es)), Last(es), Alive(es), Runs(observed, es), Active(es))
  }

  /** The pending timeout may fire. It never does so before it is due. */
  predicate Due(c: Clock, now: real) { c.timer.Some? && c.timer.value <= now }

  /** What can happen next: time does not go back, nothing but a late decoding reaches a logo that is gone,
      and a timeout fires only when it is due by the clock. */
  predicate Possible(observed: bool, start: real, es: Trace, e: Event) {
    && Time(start, es) <= e.now
    && if e.Fired? then Due(ClockOf(observed, es), e.now) && 0.0 <= e.random < 1.0 else Alive(es) || e.Decoded?
  }

  predicate Lawful(observed: bool, start: real, es: Trace) {
    es == [] ||
    var before, e := Init(es), Last(es);
    && Lawful(observed, start, before) && Possible(observed, start, before, e)
    && (e.Fired? ==> (e.next.Some? <==> !Active(before)))
  }

  lemma {:induction false} LawfulPrefix(observed: bool, start: real, es: Trace, k: nat)
    requires Lawful(observed, start, es) && k <= |es|
    ensures Lawful(observed, start, es[..k])
    decreases |es|
  {
    if k < |es| {
      LawfulPrefix(observed, start, Init(es), k);
      TakeTake(es, |es| - 1, k);
    } else {
      WholeSlice(es);
    }
  }

  // ----- What every run keeps -----

  /** In every run, a gesture shows exactly during a performance. */
  lemma {:induction false} ShownWhenActive(observed: bool, start: real, es: Trace)
    requires Lawful(observed, start, es) && Alive(es)
    ensures Shown(es).Some? <==> Active(es)
    decreases |es|
  {
    if es != [] {
      ShownWhenActive(observed, start, Init(es));
    }
  }

  /** In every run, a performance is given six seconds, and a pause half a second or between
      2.6 and 6.6 seconds. */
  lemma {:induction false} PhaseLengths(observed: bool, start: real, es: Trace)
    requires Lawful(observed, start, es)
    ensures if Active(es) then PhasePeriod(es) == PERFORMANCE
            else PhasePeriod(es) == FIRST_WAIT || 2600.0 <= PhasePeriod(es) < 6600.0
    decreases |es|
  {
    if es != [] {
      PhaseLengths(observed, start, Init(es));
    }
  }

  /** A clock at `now`, in a phase of so long a period that has run so far: `remaining` is what was
      left of the phase when the clock last started or stopped. */
  predicate ClockAt(c: Clock, period: real, ran: real, now: real) {
    match c.timer
    case Some(due) =>
      && c.started <= now && due == c.started + c.remaining
      && c.remaining == AtLeastZero(period - (ran - (now - c.started)))
    case None => c.remaining == AtLeastZero(period - ran)
  }

  /** Time passes, which counts while a timeout is pending. */
  lemma ClockGoesOn(c: Clock, period: real, ran: real, was: real, now: real)
    requires ClockAt(c, period, ran, was) && was <= now
    ensures ClockAt(c, period, ran + if c.timer.Some? then now - was else 0.0, now)
  {
  }

  /** Starting and stopping lose nothing of the phase. */
  lemma SyncKeeps(c: Clock, running: bool, period: real, ran: real, now: real)
    requires ClockAt(c, period, ran, now)
    ensures ClockAt(Synced(c, running, now), period, ran, now)
    ensures Synced(c, running, now).timer.Some? <==> running
  {
  }

  /** The time the phase had run by the latest event. */
  function RanBy(observed: bool, start: real, es: Trace): real { PhaseRan(observed, es, Time(start, es)) }

  /** How an event that begins no phase bears on the phase in progress. */
  lemma PhaseGoesOn(observed: bool, start: real, es: Trace)
    requires es != [] && !Last(es).Fired? && !Resets(Last(es))
    ensures PhasePeriod(es) == PhasePeriod(Init(es))
    ensures var before, now := Init(es), Last(es).now;
      RanBy(observed, start, es)
      == RanBy(observed, start, before) + if Runs(observed, before) then now - Time(start, before) else 0.0
  {
    var before, now := Init(es), Last(es).now;
    assert RanBy(observed, start, es) == PhaseRan(observed, before, now);
    MoreTime(observed, before, Time(start, before), now);
  }

  lemma MoreTime(observed: bool, es: Trace, was: real, now: real)
    ensures PhaseRan(observed, es, now)
         == PhaseRan(observed, es, was) + if Runs(observed, es) then now - was else 0.0
  {
  }

  /** In every run, a timeout is pending exactly while the animation runs, and the time left is what the
      phase has not run yet, however often it was paused. */
  lemma {:induction false} ClockKeepsThePhase(observed: bool, start: real, es: Trace)
    requires Lawful(observed, start, es)
    ensures ClockOf(observed, es).timer.Some? <==> Runs(observed, es)
    ensures Alive(es) ==>
      ClockAt(ClockOf(observed, es), PhasePeriod(es), RanBy(observed, start, es), Time(start, es))
    decreases |es|
  {
    if es != [] {
      var before, e := Init(es), Last(es);
      ClockKeepsThePhase(observed, start, before);
      if Alive(es) && !e.Fired? && !Resets(e) {
        PhaseGoesOn(observed, start, es);
        var c, was := ClockOf(observed, before), Time(start, before);
        var ran := RanBy(observed, start, before);
        ClockGoesOn(c, PhasePeriod(before), ran, was, e.now);
        SyncKeeps(c, Runs(observed, es), PhasePeriod(es), RanBy(observed, start, es), e.now);
      }
    }
  }

  /** In every run, a timeout is due exactly when the phase in progress has run its period: never sooner,
      and no later than need be. */
  lemma DueWhenRun(observed: bool, start: real, es: Trace, now: real)
    requires Lawful(observed, start, es) && Time(start, es) <= now
    ensures Due(ClockOf(observed, es), now) <==>
      Runs(observed, es) && PhasePeriod(es) <= PhaseRan(observed, es, now)
  {
    ClockKeepsThePhase(observed, start, es);
  }

  /** In every run, each phase that a timeout ended had run at least as long as it was given, however
      often it was paused; and a performance had run six seconds. */
  lemma EachPhaseRunsItsPeriod(observed: bool, start: real, es: Trace, j: nat)
    requires Lawful(observed, start, es) && j < |es| && es[j].Fired?
    ensures PhasePeriod(es[..j]) <= PhaseRan(observed, es[..j], es[j].now)
    ensures Active(es[..j]) ==> PERFORMANCE <= PhaseRan(observed, es[..j], es[j].now)
  {
    LawfulPrefix(observed, start, es, j + 1);
    TakeTake(es, j + 1, j);
    PhaseLengths(observed, start, es[..j]);
    DueWhenRun(observed, start, es[..j], es[j].now);
  }

  // ----- The pausable timer -----

  class Animation {
    const observed: bool
    var alive: bool
    var ready: bool
    var visible: bool
    /** When the pending timeout is due. */
    var timer: Option<real>
    var started: real
    var remaining: real
    var active: bool
    var gesture: Option<Gesture>
    /** When the logo was mounted, and every event since. */
    ghost const start: real
    ghost var trace: Trace

    /** The flags are what the events so far make them. */
    ghost predicate FlagsFit()
      reads this
    {
      && alive == Alive(trace) && ready == Ready(trace) && visible == InView(observed, trace)
      && active == Active(trace) && gesture == Shown(trace)
    }

    function Now(): Clock
      reads this
    {
      Clock(timer, started, remaining)
    }

    ghost predicate Valid()
      reads this
    {
      Lawful(observed, start, trace) && FlagsFit() && Now() == ClockOf(observed, trace)
    }

    constructor (observed: bool, ghost now: real)
      ensures Valid() && this.observed == observed && start == now && trace == []
    {
      this.observed := observed;
      alive, ready, visible, timer := true, false, !observed, None;
      started, remaining, active, gesture := 0.0, FIRST_WAIT, false, None;
      start, trace := now, [];
    }

    /** Start or stop the clock, as the page allows. Whatever phase it kept, it goes on keeping. */
    method Sync(now: real, page: Page)
      modifies `timer, `started, `remaining
      ensures var running := alive && ready && visible && !page.hidden && !page.reduced;
        Now() == Synced(old(Now()), running, now) && (timer.Some? <==> running)
      ensures forall period, ran :: ClockAt(old(Now()), period, ran, now) ==> ClockAt(Now(), period, ran, now)
    {
      var running := alive && ready && visible && !page.hidden && !page.reduced;
      if !running && timer.Some? {
        timer := None;
        var left := remaining - (now - started);
        remaining := if left < 0.0 then 0.0 else left;
      } else if running && timer.None? {
        started := now;
        timer := Some(now + remaining);
      }
    }

    /** The page was hidden or shown. */
    method VisibilityChange(now: real, page: Page)
      requires Valid() && alive && Time(start, trace) <= now
      modifies this
      ensures Valid() && trace == old(trace) + [Visibility(now, page)]
    {
      SnocInit(trace, Visibility(now, page));
      Sync(now, page);
      trace := trace + [Visibility(now, page)];
    }

    method Observed(intersecting: bool, now: real, page: Page)
      requires Valid() && alive && Time(start, trace) <= now
      modifies this
      ensures Valid() && trace == old(trace) + [Seen(now, page, intersecting)]
    {
      SnocInit(trace, Seen(now, page, intersecting));
      visible := intersecting;
      Sync(now, page);
      trace := trace + [Seen(now, page, intersecting)];
    }

    /** A preference for less motion returns to the static mark at once and starts over. */
    method MotionChange(now: real, page: Page)
      requires Valid() && alive && Time(start, trace) <= now
      modifies this
      ensures Valid() && trace == old(trace) + [Motion(now, page)]
    {
      SnocInit(trace, Motion(now, page));
      Sync(now, page);
      if page.reduced {
        gesture, active, remaining := None, false, FIRST_WAIT;
      }
      trace := trace + [Motion(now, page)];
    }

    /** The image was decoded; too late when the logo is gone. */
    method Enhanced(now: real, page: Page)
      requires Valid() && Time(start, trace) <= now
      modifies this
      ensures Valid() && trace == old(trace) + [Decoded(now, page)]
    {
      SnocInit(trace, Decoded(now, page));
      if alive {
        ready := true;
        Sync(now, page);
      }
      trace := trace + [Decoded(now, page)];
    }

    method Dispose(ghost now: real, ghost page: Page)
      requires Valid() && alive && Time(start, trace) <= now
      modifies this
      ensures Valid() && trace == old(trace) + [Disposed(now, page)]
    {
      SnocInit(trace, Disposed(now, page));
      alive, timer, gesture := false, None, None;
      trace := trace + [Disposed(now, page)];
    }

    /** The timeout fires: the gesture drawn next begins, or the current one ends, and the next
        period is set. */
    method Tick(now: real, page: Page, random: real, next: Option<Gesture>)
      requires Valid() && Time(start, trace) <= now && Due(Now(), now)
      requires 0.0 <= random < 1.0 && (next.Some? <==> !active)
      modifies this
      ensures Valid() && trace == old(trace) + [Fired(now, page, random, next)] && gesture == next
    {
      ghost var e := Fired(now, page, random, next);
      SnocInit(trace, e);
      ClockKeepsThePhase(observed, start, trace);
      timer := None;
      gesture := next;
      if active {
        remaining := 2600.0 + random * 4000.0;
      } else {
        remaining := PERFORMANCE;
      }
      active := !active;
      Sync(now, page);
      trace := trace + [e];
    }
  }

  method Draw(bag: Bag, one: bool) returns (next: Option<Gesture>)
    requires bag.Valid()
    modifies bag
    ensures bag.Valid() && (next.Some? <==> one)
    ensures bag.Drawn() == old(bag.Drawn()) + Listed(next)
  {
    next := None;
    if one {
      var g := bag.NextGesture();
      next := Some(g);
    }
    ConcatNothing(old(bag.Drawn()));
  }

  function Listed(g: Option<Gesture>): seq<Gesture> { if g.Some? then [g.value] else [] }

  /** A tick with the bag it draws from: every gesture shown is the bag's next one. */
  method TickFrom(bag: Bag, a: Animation, now: real, page: Page, random: real)
    requires bag.Valid() && a.Valid() && Time(a.start, a.trace) <= now
    requires Due(a.Now(), now) && 0.0 <= random < 1.0
    modifies bag, a
    ensures bag.Valid() && a.Valid()
    ensures a.trace == old(a.trace) + [Fired(now, page, random, a.gesture)]
    ensures bag.Drawn() == old(bag.Drawn()) + Listed(a.gesture)
  {
    var next := Draw(bag, !a.active);
    a.Tick(now, page, random, next);
  }

  // ----- Whole runs of the logo -----

  /** The gestures a run began, in order. */
  function Begun(es: Trace): seq<Gesture> {
    if es == [] then [] else Begun(Init(es)) + if Last(es).Fired? then Listed(Last(es).next) else []
  }

  /** An event other than the timeout reaches its handler. */
  method Happens(a: Animation, e: Event)
    requires a.Valid() && Time(a.start, a.trace) <= e.now && !e.Fired? && (a.alive || e.Decoded?)
    modifies a
    ensures a.Valid() && a.trace == old(a.trace) + [e] && Begun(a.trace) == Begun(old(a.trace))
  {
    SnocInit(a.trace, e);
    ConcatNothing(Begun(a.trace));
    match e {
      case Visibility(now, page) => a.VisibilityChange(now, page);
      case Seen(now, page, intersecting) => a.Observed(intersecting, now, page);
      case Motion(now, page) => a.MotionChange(now, page);
      case Decoded(now, page) => a.Enhanced(now, page);
      case Disposed(now, page) => a.Dispose(now, page);
    }
  }

  /** What happens of all that is put to a logo: whatever can. */
  function Happening(observed: bool, start: real, inputs: Trace): Trace {
    if inputs == [] then []
    else
      var before := Happening(observed, start, Init(inputs));
      if Possible(observed, start, before, Last(inputs)) then before + [Last(inputs)] else before
  }

  /** The same but for which gestures were drawn. */
  predicate SameEvent(a: Event, b: Event) {
    a == b || (a.Fired? && b.Fired? && a == b.(next := a.next))
  }

  predicate SameEvents(a: Trace, b: Trace) {
    |a| == |b| && forall i :: 0 <= i < |a| ==> SameEvent(a[i], b[i])
  }

  /** Which gestures were drawn has no bearing on when they are shown. */
  lemma {:induction false} DrawsDoNotMatter(observed: bool, a: Trace, b: Trace)
    requires SameEvents(a, b)
    ensures Alive(a) == Alive(b) && Ready(a) == Ready(b) && InView(observed, a) == InView(observed, b)
    ensures Active(a) == Active(b) && ClockOf(observed, a) == ClockOf(observed, b)
    decreases |a|
  {
    if a != [] {
      DrawsDoNotMatter(observed, Init(a), Init(b));
      assert SameEvent(Last(a), Last(b));
    }
  }

  lemma SamePossible(observed: bool, start: real, a: Trace, b: Trace, e: Event)
    requires SameEvents(a, b)
    ensures Possible(observed, start, a, e) == Possible(observed, start, b, e)
  {
    DrawsDoNotMatter(observed, a, b);
    assert a != [] ==> SameEvent(Last(a), Last(b));
  }

  /** All of a lawful run happens. */
  lemma {:induction false} LawfulHappens(observed: bool, start: real, es: Trace)
    requires Lawful(observed, start, es)
    ensures Happening(observed, start, es) == es
    decreases |es|
  {
    if es != [] {
      LawfulHappens(observed, start, Init(es));
      LastOff(es);
    }
  }

  /** Something is put to the logo, and happens if it can. */
  method Put(a: Animation, bag: Bag, e: Event, time: real) returns (happened: bool)
    requires a.Valid() && bag.Valid() && time == Time(a.start, a.trace) && bag.Drawn() == Begun(a.trace)
    modifies a, bag
    ensures a.Valid() && bag.Valid() && bag.Drawn() == Begun(a.trace)
    ensures happened <==> Possible(a.observed, a.start, old(a.trace), e)
    ensures if happened then SameEvents(a.trace, old(a.trace) + [e])
            else a.trace == old(a.trace)
  {
    happened := false;
    if time <= e.now {
      if e.Fired? {
        if Due(a.Now(), e.now) && 0.0 <= e.random < 1.0 {
          TickFrom(bag, a, e.now, e.page, e.random);
          SnocInit(old(a.trace), Last(a.trace));
          happened := true;
        }
      } else if a.alive || e.Decoded? {
        Happens(a, e);
        happened := true;
      }
    }
  }

  method PutAll(observed: bool, start: real, inputs: Trace) returns (a: Animation, bag: Bag)
    ensures a.Valid() && a.observed == observed && a.start == start && fresh(a) && fresh(bag)
    ensures SameEvents(a.trace, Happening(observed, start, inputs))
    ensures bag.Valid() && bag.Drawn() == Begun(a.trace)
  {
    a := new Animation(observed, start);
    bag := new Bag();
    var time := start;
    for i := 0 to |inputs|
      invariant fresh(a) && fresh(bag)
      invariant a.Valid() && bag.Valid() && a.observed == observed && a.start == start
      invariant time == Time(start, a.trace) && bag.Drawn() == Begun(a.trace)
      invariant SameEvents(a.trace, Happening(observed, start, inputs[..i]))
    {
      var e := inputs[i];
      SamePossible(observed, start, a.trace, Happening(observed, start, inputs[..i]), e);
      TakeTake(inputs, i + 1, i);
      var happened := Put(a, bag, e, time);
      if happened {
        time := e.now;
      }
    }
    WholeSlice(inputs);
  }

  /** Whatever is put to the logo, all happens that can, and nothing else. Every phase that the timeout
      ended had run its period, a timeout is pending exactly while the animation runs, a gesture shows
      exactly during a performance, and the gestures come shuffled. */
  method Run(observed: bool, start: real, inputs: Trace) returns (a: Animation, bag: Bag)
    ensures a.Valid() && a.observed == observed && a.start == start && fresh(a) && fresh(bag)
    ensures SameEvents(a.trace, Happening(observed, start, inputs))
    ensures forall j :: 0 <= j < |a.trace| && a.trace[j].Fired? ==>
      PhasePeriod(a.trace[..j]) <= PhaseRan(observed, a.trace[..j], a.trace[j].now)
    ensures a.timer.Some? <==> Runs(observed, a.trace)
    ensures a.alive ==> (a.gesture.Some? <==> a.active)
    ensures bag.Valid() && bag.Drawn() == Begun(a.trace) && Shuffled(Begun(a.trace))
  {
    a, bag := PutAll(observed, start, inputs);
    forall j | 0 <= j < |a.trace| && a.trace[j].Fired?
      ensures PhasePeriod(a.trace[..j]) <= PhaseRan(observed, a.trace[..j], a.trace[j].now)
    {
      EachPhaseRunsItsPeriod(observed, start, a.trace, j);
    }
    ClockKeepsThePhase(observed, start, a.trace);
    if a.alive {
      ShownWhenActive(observed, start, a.trace);
    }
    bag.DrawsAreShuffled();
  }

  /** Every lawful run is a run of the logo, and its events alone say what the logo then shows. */
  method Play(observed: bool, start: real, es: Trace) returns (a: Animation)
    requires Lawful(observed, start, es)
    ensures a.Valid() && a.trace == es
    ensures a.timer.Some? <==> Runs(observed, es)
    ensures a.gesture == Shown(es) && (Alive(es) ==> (a.gesture.Some? <==> Active(es)))
    ensures forall now :: Time(start, es) <= now ==>
      (Due(a.Now(), now) <==> Runs(observed, es) && PhasePeriod(es) <= PhaseRan(observed, es, now))
  {
    a := new Animation(observed, start);
    for i := 0 to |es|
      invariant fresh(a) && a.Valid() && a.observed == observed && a.start == start && a.trace == es[..i]
    {
      LawfulPrefix(observed, start, es, i + 1);
      TakeTake(es, i + 1, i);
      assert es[..i + 1] == es[..i] + [es[i]];
      if es[i].Fired? {
        a.Tick(es[i].now, es[i].page, es[i].random, es[i].next);
      } else {
        Happens(a, es[i]);
      }
    }
    WholeSlice(es);
    ClockKeepsThePhase(observed, start, es);
    if Alive(es) {
      ShownWhenActive(observed, start, es);
    }
    forall now | Time(start, es) <= now
      ensures Due(a.Now(), now) <==> Runs(observed, es) && PhasePeriod(es) <= PhaseRan(observed, es, now)
    {
      DueWhenRun(observed, start, es, now);
    }
  }
}
