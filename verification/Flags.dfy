/** Flags anywhere on the command line: `flagSet.permute` in front of Go's `flag` package.

    Go's parser stops at the first word that is not a flag. `permute` moves the
    flags forward, so that parsing its result means the same as reading the line
    from left to right with flags allowed anywhere. */
module Flags {
  import opened Seqs
  import opened Text
  import opened Wrappers

  /** Whether a flag is boolean or takes a value. */
  datatype Kind = Switch | Valued

  type Table = map<string, Kind>

  datatype Assignment = Assignment(name: string, value: string)

  datatype Error =
    | BadFlagSyntax(word: string)
    | NotDefined(name: string)
    | HelpAsked
    | NeedsArgument(name: string)
    | InvalidValue(assignment: Assignment)

  datatype Outcome =
    | Parsed(values: seq<Assignment>, rest: seq<string>)
    | Failed(values: seq<Assignment>, error: Error)

  /** Whether `Set` takes the latest value, which may depend on all it was given before. */
  type Accepts = seq<Assignment> -> bool

  // ----- One word, as Go's parser sees it -----

  datatype Word = Plain | Terminator | Malformed | Flag(name: string, value: Option<string>)

  predicate IsPlain(word: string) { |word| < 2 || word[0] != '-' }

  function Classify(word: string): Word {
    if IsPlain(word) then Plain
    else if word == "--" then Terminator
    else
      var name := if word[1] == '-' then word[2..] else word[1..];
      if name == "" || name[0] == '-' || name[0] == '=' then Malformed
      else
        var n := Until(name, '=');
        if n < |name| then Flag(name[..n], Some(name[n + 1..])) else Flag(name, None)
  }

  /** What one flag does: an assignment and the words it used up, or an error. */
  datatype Step = Took(assignment: Assignment, words: nat) | Wrong(error: Error)

  /** One round of the parser, on a list that begins with a flag. */
  function FlagStep(table: Table, args: seq<string>): (step: Step)
    requires args != [] && (Classify(args[0]).Flag? || Classify(args[0]).Malformed?)
    ensures step.Took? ==> 1 <= step.words <= |args|
  {
    match Classify(args[0])
    case Malformed => Wrong(BadFlagSyntax(args[0]))
    case Flag(name, value) =>
      if name !in table then Wrong(if name == "help" || name == "h" then HelpAsked else NotDefined(name))
      else if value.Some? then Took(Assignment(name, value.value), 1)
      else if table[name] == Switch then Took(Assignment(name, "true"), 1)
      else if |args| > 1 then Took(Assignment(name, args[1]), 2)
      else Wrong(NeedsArgument(name))
  }

  /** Go's parser: flags up to the first plain word or `--`. */
  function GoParse(table: Table, accepts: Accepts, done: seq<Assignment>, args: seq<string>): Outcome
    decreases |args|
  {
    if args == [] || Classify(args[0]).Plain? then Parsed(done, args)
    else if Classify(args[0]).Terminator? then Parsed(done, args[1..])
    else
      match FlagStep(table, args)
      case Wrong(error) => Failed(done, error)
      case Took(a, words) =>
        if accepts(done + [a]) then GoParse(table, accepts, done + [a], args[words..])
        else Failed(done, InvalidValue(a))
  }

  /** The meaning operators expect: left to right, with flags anywhere before `--`. */
  function ReadAnywhere(
    table: Table, accepts: Accepts, done: seq<Assignment>, plain: seq<string>, args: seq<string>): Outcome
    decreases |args|
  {
    if args == [] then Parsed(done, plain)
    else if Classify(args[0]).Terminator? then Parsed(done, plain + args[1..])
    else if Classify(args[0]).Plain? then ReadAnywhere(table, accepts, done, plain + [args[0]], args[1..])
    else
      match FlagStep(table, args)
      case Wrong(error) => Failed(done, error)
      case Took(a, words) =>
        if accepts(done + [a]) then ReadAnywhere(table, accepts, done + [a], plain, args[words..])
        else Failed(done, InvalidValue(a))
  }

  // ----- permute -----

  /** `strings.TrimLeft(word, "-")`. */
  function TrimDashes(word: string): string {
    if word != "" && word[0] == '-' then TrimDashes(word[1..]) else word
  }

  /** Whether permute lets a flag carry the word after it. */
  predicate TakesNext(table: Table, word: string) {
    var name := TrimDashes(word);
    Until(name, '=') == |name| && name in table && table[name] == Valued
  }

  datatype Groups = Groups(flags: seq<string>, plain: seq<string>)

  function Scan(table: Table, args: seq<string>): Groups
    decreases |args|
  {
    if args == [] then Groups([], [])
    else if args[0] == "--" then Groups([], args[1..])
    else if IsPlain(args[0]) then
      var g := Scan(table, args[1..]);
      Groups(g.flags, [args[0]] + g.plain)
    else
      var n := Carried(table, args);
      var g := Scan(table, args[n..]);
      Groups(args[..n] + g.flags, g.plain)
  }

  /** The plain words, behind the separator that keeps them plain. */
  function Behind(plain: seq<string>): seq<string> {
    if plain == [] then [] else ["--"] + plain
  }

  function Permuted(table: Table, args: seq<string>): seq<string> {
    var g := Scan(table, args);
    g.flags + Behind(g.plain)
  }

  /** How many words the one at the front brings with it. */
  function Carried(table: Table, args: seq<string>): nat
    requires args != []
  {
    if TakesNext(table, args[0]) && |args| > 1 then 2 else 1
  }

  /** The scan continues after the word at i, and after the one it carries. */
  lemma ScanFrom(table: Table, args: seq<string>, i: nat, flags: seq<string>, plain: seq<string>)
    requires i < |args|
    ensures var g := Scan(table, args[i..]);
      if args[i] == "--" then g == Groups([], args[i + 1..])
      else if IsPlain(args[i]) then
        var h := Scan(table, args[i + 1..]);
        flags + g.flags == flags + h.flags && plain + g.plain == (plain + [args[i]]) + h.plain
      else if TakesNext(table, args[i]) && i + 1 < |args| then
        var h := Scan(table, args[i + 2..]);
        flags + g.flags == (flags + [args[i]] + [args[i + 1]]) + h.flags && g.plain == h.plain
      else
        var h := Scan(table, args[i + 1..]);
        flags + g.flags == (flags + [args[i]]) + h.flags && g.plain == h.plain
  {
    var here := args[i..];
    assert here[1..] == args[i + 1..];
    if i + 1 < |args| {
      assert here[2..] == args[i + 2..] && here[..2] == [args[i], args[i + 1]];
    }
    assert here[..1] == [args[i]];
  }

  method Permute(table: Table, args: seq<string>) returns (out: seq<string>)
    ensures out == Permuted(table, args)
  {
    var flags: seq<string>, plain: seq<string> := [], [];
    var i := 0;
    ghost var all, todo := Scan(table, args), Scan(table, args);
    assert args[0..] == args;
    while i < |args|
      invariant 0 <= i <= |args|
      invariant todo == Scan(table, args[i..])
      invariant all.flags == flags + todo.flags
      invariant all.plain == plain + todo.plain
    {
      var arg := args[i];
      ScanFrom(table, args, i, flags, plain);
      if arg == "--" {
        plain := plain + args[i + 1..];
        todo := Groups([], []);
        break;
      }
      if IsPlain(arg) {
        plain := plain + [arg];
        i := i + 1;
      } else {
        flags := flags + [arg];
        i := i + 1;
        if TakesNext(table, arg) && i < |args| {
          flags := flags + [args[i]];
          i := i + 1;
        }
      }
      todo := Scan(table, args[i..]);
    }
    assert flags == all.flags && plain == all.plain;
    if plain == [] {
      return flags;
    }
    ConcatAssociates(flags, ["--"], plain);
    out := flags + ["--"] + plain;
  }

  // ----- Permuting keeps the meaning -----

  predicate AllPlain(words: seq<string>) { forall i :: 0 <= i < |words| ==> IsPlain(words[i]) }

  /** permute and the parser agree on which flags take the next word. */
  lemma TakesNextAgrees(table: Table, word: string)
    requires Classify(word).Flag?
    ensures TakesNext(table, word)
       <==> Classify(word).value.None? && Classify(word).name in table && table[Classify(word).name] == Valued
  {
    var name := if word[1] == '-' then word[2..] else word[1..];
    assert TrimDashes(name) == name;
    assert TrimDashes(word) == TrimDashes(word[1..]);
    if word[1] == '-' {
      assert word[1..][1..] == word[2..];
    }
  }

  /** The trailing value flag that has no word to take. */
  predicate Starved(r: Outcome) { r.Failed? && r.error.NeedsArgument? }

  /** What the parser makes of a starved flag when plain words follow: it swallows the separator. */
  function Swallowed(accepts: Accepts, r: Outcome, plain: seq<string>): Outcome
    requires Starved(r)
  {
    var a := Assignment(r.error.name, "--");
    if accepts(r.values + [a]) then Parsed(r.values + [a], plain) else Failed(r.values, InvalidValue(a))
  }

  /** A flag does the same at the front of the permuted list as where it stood. */
  lemma SameStep(table: Table, args: seq<string>, tail: seq<string>)
    requires args != [] && (Classify(args[0]).Flag? || Classify(args[0]).Malformed?)
    requires FlagStep(table, args).Wrong? ==> !FlagStep(table, args).error.NeedsArgument?
    ensures var n := Carried(table, args);
      && FlagStep(table, args[..n] + tail) == FlagStep(table, args)
      && (FlagStep(table, args).Took? ==> FlagStep(table, args).words == n)
  {
    if Classify(args[0]).Flag? {
      TakesNextAgrees(table, args[0]);
    }
  }

  lemma StarvedStep(table: Table, args: seq<string>)
    requires args != [] && (Classify(args[0]).Flag? || Classify(args[0]).Malformed?)
    requires FlagStep(table, args).Wrong? && FlagStep(table, args).error.NeedsArgument?
    ensures |args| == 1 && Scan(table, args) == Groups(args, [])
    ensures forall next :: FlagStep(table, args + [next]) == Took(Assignment(FlagStep(table, args).error.name, next), 2)
  {
    assert Scan(table, args[1..]) == Groups([], []);
    assert args[..1] == args;
    forall next ensures FlagStep(table, args + [next]) == Took(Assignment(FlagStep(table, args).error.name, next), 2) {
      assert (args + [next])[0] == args[0] && (args + [next])[1] == next;
    }
  }

  lemma SwallowsSeparator(table: Table, accepts: Accepts, done: seq<Assignment>, args: seq<string>, plain: seq<string>)
    requires |args| == 1 && (Classify(args[0]).Flag? || Classify(args[0]).Malformed?)
    requires plain != [] && IsPlain(plain[0])
    requires FlagStep(table, args).Wrong? && FlagStep(table, args).error.NeedsArgument?
    ensures GoParse(table, accepts, done, (args + ["--"]) + plain)
         == Swallowed(accepts, Failed(done, FlagStep(table, args).error), plain)
  {
    StarvedStep(table, args);
    var all := (args + ["--"]) + plain;
    assert all[0] == args[0] && all[1] == "--";
    assert FlagStep(table, all) == FlagStep(table, args + ["--"]);
    ConcatParts(args + ["--"], plain);
  }

  lemma StarvedAgrees(table: Table, accepts: Accepts, done: seq<Assignment>, plain: seq<string>, args: seq<string>)
    requires AllPlain(plain)
    requires args != [] && (Classify(args[0]).Flag? || Classify(args[0]).Malformed?)
    requires FlagStep(table, args).Wrong? && FlagStep(table, args).error.NeedsArgument?
    ensures var out := GoParse(table, accepts, done, args + Behind(plain));
      var r := ReadAnywhere(table, accepts, done, plain, args);
      Starved(r) && out == if plain == [] then r else Swallowed(accepts, r, plain)
  {
    StarvedStep(table, args);
    if plain == [] {
      ConcatNothing(args);
    } else {
      ConcatAssociates(args, ["--"], plain);
      ConcatParts(args + ["--"], plain);
      SwallowsSeparator(table, accepts, done, args, plain);
    }
  }

  lemma {:induction false} PermutedAgrees(
    table: Table, accepts: Accepts, done: seq<Assignment>, plain: seq<string>, args: seq<string>)
    requires AllPlain(plain)
    ensures var g := Scan(table, args);
      var out := GoParse(table, accepts, done, g.flags + Behind(plain + g.plain));
      var r := ReadAnywhere(table, accepts, done, plain, args);
      out == if Starved(r) && plain + g.plain != [] then Swallowed(accepts, r, plain + g.plain) else r
    decreases |args|
  {
    if args == [] {
      NoFlagsLeft(table, accepts, done, plain);
    } else if args[0] == "--" {
      NoFlagsLeft(table, accepts, done, plain + args[1..]);
    } else if IsPlain(args[0]) {
      var g := Scan(table, args[1..]);
      ConcatAssociates(plain, [args[0]], g.plain);
      PermutedAgrees(table, accepts, done, plain + [args[0]], args[1..]);
    } else {
      var step := FlagStep(table, args);
      if step.Wrong? && step.error.NeedsArgument? {
        StarvedStep(table, args);
        assert plain + [] == plain;
        StarvedAgrees(table, accepts, done, plain, args);
      } else {
        FlagAgrees(table, accepts, done, plain, args);
      }
    }
  }

  lemma NoFlagsLeft(table: Table, accepts: Accepts, done: seq<Assignment>, plain: seq<string>)
    ensures GoParse(table, accepts, done, [] + Behind(plain)) == Parsed(done, plain)
    ensures GoParse(table, accepts, done, [] + Behind(plain + [])) == Parsed(done, plain)
  {
    assert [] + Behind(plain) == Behind(plain) && plain + [] == plain;
  }

  lemma {:induction false} FlagAgrees(
    table: Table, accepts: Accepts, done: seq<Assignment>, plain: seq<string>, args: seq<string>)
    requires AllPlain(plain)
    requires args != [] && (Classify(args[0]).Flag? || Classify(args[0]).Malformed?)
    requires FlagStep(table, args).Wrong? ==> !FlagStep(table, args).error.NeedsArgument?
    ensures var g := Scan(table, args);
      var out := GoParse(table, accepts, done, g.flags + Behind(plain + g.plain));
      var r := ReadAnywhere(table, accepts, done, plain, args);
      out == if Starved(r) && plain + g.plain != [] then Swallowed(accepts, r, plain + g.plain) else r
    decreases |args|, 0
  {
    var n, step := Carried(table, args), FlagStep(table, args);
    var g := Scan(table, args[n..]);
    var behind := g.flags + Behind(plain + g.plain);
    ConcatAssociates(args[..n], g.flags, Behind(plain + g.plain));
    SameStep(table, args, behind);
    ConcatParts(args[..n], behind);
    if step.Took? && accepts(done + [step.assignment]) {
      PermutedAgrees(table, accepts, done + [step.assignment], plain, args[n..]);
    }
  }

  /** Parsing the permuted line is reading the line with flags anywhere, with the same
      assignments in the same order, the same positional words in their order and the same
      first error -- except exactly when the line ends in a flag that lacks its value and
      has a positional word: that flag is then given the separator as its value. */
  lemma PermuteKeepsMeaning(table: Table, accepts: Accepts, args: seq<string>)
    ensures var r := ReadAnywhere(table, accepts, [], [], args);
      var out := GoParse(table, accepts, [], Permuted(table, args));
      var plain := Scan(table, args).plain;
      && (out == r <==> !(Starved(r) && plain != []))
      && (Starved(r) && plain != [] ==> out == Swallowed(accepts, r, plain))
  {
    PermutedAgrees(table, accepts, [], [], args);
    var plain := Scan(table, args).plain;
    assert [] + plain == plain;
  }

  // ----- The condition, from the words -----

  /** The scan ends on a flag with no word left to carry. */
  predicate Dangling(table: Table, args: seq<string>)
    decreases |args|
  {
    if args == [] || args[0] == "--" then false
    else if IsPlain(args[0]) then Dangling(table, args[1..])
    else if TakesNext(table, args[0]) && |args| == 1 then true
    else Dangling(table, args[Carried(table, args)..])
  }

  /** Every flag that is read is one there is. */
  predicate WellSpelled(table: Table, args: seq<string>)
    decreases |args|
  {
    if args == [] || args[0] == "--" then true
    else if IsPlain(args[0]) then WellSpelled(table, args[1..])
    else Classify(args[0]).Flag? && Classify(args[0]).name in table && WellSpelled(table, args[Carried(table, args)..])
  }

  /** What the flags give, by the words alone, up to the first that is wrong. */
  function Spelled(table: Table, args: seq<string>): seq<Assignment>
    decreases |args|
  {
    if args == [] || args[0] == "--" then []
    else if IsPlain(args[0]) then Spelled(table, args[1..])
    else
      match FlagStep(table, args)
      case Wrong(_) => []
      case Took(a, words) => [a] + Spelled(table, args[words..])
  }

  /** `Set` takes the values one by one, after those it was given already. */
  predicate AllAccepted(accepts: Accepts, done: seq<Assignment>, values: seq<Assignment>) {
    forall n :: 0 < n <= |values| ==> accepts(done + values[..n])
  }

  lemma AcceptedFromFirst(accepts: Accepts, done: seq<Assignment>, a: Assignment, rest: seq<Assignment>)
    ensures AllAccepted(accepts, done, [a] + rest) <==>
      accepts(done + [a]) && AllAccepted(accepts, done + [a], rest)
  {
    var values := [a] + rest;
    assert values[..1] == [a];
    forall n: nat | n <= |rest| ensures done + values[..n + 1] == (done + [a]) + rest[..n] {
      FirstThenTake(a, rest, n);
      ConcatAssociates(done, [a], rest[..n]);
    }
    if accepts(done + [a]) && AllAccepted(accepts, done + [a], rest) {
      forall n | 0 < n <= |values| ensures accepts(done + values[..n]) {
        assert n > 1 ==> done + values[..(n - 1) + 1] == (done + [a]) + rest[..n - 1];
      }
    }
  }

  lemma FirstThenTake(a: Assignment, rest: seq<Assignment>, n: nat)
    requires n <= |rest|
    ensures ([a] + rest)[..n + 1] == [a] + rest[..n]
  {
  }

  /** The line is one whose last flag starves exactly when it ends in a flag that takes a value, every
      flag is one there is, and every value before it is accepted. */
  lemma {:induction false} StarvedIsDangling(
    table: Table, accepts: Accepts, done: seq<Assignment>, plain: seq<string>, args: seq<string>)
    ensures Starved(ReadAnywhere(table, accepts, done, plain, args)) <==>
      Dangling(table, args) && WellSpelled(table, args) && AllAccepted(accepts, done, Spelled(table, args))
    decreases |args|
  {
    if args != [] && args[0] != "--" {
      if IsPlain(args[0]) {
        StarvedIsDangling(table, accepts, done, plain + [args[0]], args[1..]);
      } else if Classify(args[0]).Flag? {
        TakesNextAgrees(table, args[0]);
        var step := FlagStep(table, args);
        if step.Took? {
          AcceptedFromFirst(accepts, done, step.assignment, Spelled(table, args[step.words..]));
          StarvedIsDangling(table, accepts, done + [step.assignment], plain, args[step.words..]);
        } else if |args| == 1 {
          assert WellSpelled(table, args[1..]);
        }
      }
    }
  }

  /** So permuting keeps the meaning of a line unless it has a positional word, all its flags are spelled
      well and their values accepted, and the last of them lacks its value. */
  lemma MeaningKeptByTheWords(table: Table, accepts: Accepts, args: seq<string>)
    ensures GoParse(table, accepts, [], Permuted(table, args)) == ReadAnywhere(table, accepts, [], [], args) <==>
      !(&& Dangling(table, args) && WellSpelled(table, args) && AllAccepted(accepts, [], Spelled(table, args))
        && Scan(table, args).plain != [])
  {
    PermuteKeepsMeaning(table, accepts, args);
    StarvedIsDangling(table, accepts, [], [], args);
  }

  // ----- Flags read as they are written -----

  /** The ways to write a flag: `--name=value`, `--name value`, and `--name` for a switch; with one dash or two. */
  datatype Spelling =
    | Joined(twice: bool, name: string, value: string)
    | Apart(twice: bool, name: string, value: string)
    | Bare(twice: bool, name: string)

  function Dashes(twice: bool): string { if twice then "--" else "-" }

  function Words(w: Spelling): seq<string> {
    match w
    case Joined(twice, name, value) => [Dashes(twice) + (name + "=" + value)]
    case Apart(twice, name, value) => [Dashes(twice) + name] + [value]
    case Bare(twice, name) => [Dashes(twice) + name]
  }

  /** What it says. */
  function Says(w: Spelling): Assignment { Assignment(w.name, if w.Bare? then "true" else w.value) }

  /** A flag there is, written in a way that goes with it. */
  predicate Writable(table: Table, w: Spelling) {
    && w.name != "" && w.name[0] != '-' && Without(w.name, '=') && w.name in table
    && (w.Apart? ==> table[w.name] == Valued) && (w.Bare? ==> table[w.name] == Switch)
  }

  function AllWritten(ws: seq<Spelling>): seq<string> { if ws == [] then [] else Words(ws[0]) + AllWritten(ws[1..]) }

  function AllSaid(ws: seq<Spelling>): seq<Assignment> { if ws == [] then [] else [Says(ws[0])] + AllSaid(ws[1..]) }

  lemma DashesTaken(twice: bool, rest: string)
    requires rest != "" && rest[0] != '-'
    ensures var word := Dashes(twice) + rest;
      && !IsPlain(word) && word != "--" && (if word[1] == '-' then word[2..] else word[1..]) == rest
  {
    var word := Dashes(twice) + rest;
    assert word[|Dashes(twice)|] == rest[0];
    ConcatParts(Dashes(twice), rest);
  }

  lemma NameTaken(twice: bool, name: string, value: string)
    requires name != "" && name[0] != '-' && Without(name, '=')
    ensures Classify(Dashes(twice) + name) == Flag(name, None)
    ensures Classify(Dashes(twice) + (name + "=" + value)) == Flag(name, Some(value))
  {
    var joined := name + "=" + value;
    UntilSep(name, '=', value);
    DashesTaken(twice, name);
    assert joined[0] == name[0];
    DashesTaken(twice, joined);
    ConcatParts(name + "=", value);
    ConcatAssociates(name, "=", value);
    ConcatParts(name, "=" + value);
  }

  /** Each is read as what it says, and uses up its own words. */
  lemma StepReads(table: Table, w: Spelling, rest: seq<string>)
    requires Writable(table, w)
    ensures var args := Words(w) + rest;
      && Classify(args[0]).Flag? && FlagStep(table, args) == Took(Says(w), |Words(w)|) && args[|Words(w)|..] == rest
  {
    NameTaken(w.twice, w.name, if w.Bare? then "" else w.value);
    ConcatParts(Words(w), rest);
    assert (Words(w) + rest)[0] == Words(w)[0];
    assert w.Apart? ==> (Words(w) + rest)[1] == w.value;
  }

  /** Any flags, written in any of these ways one after the other, are read as what they say, in their order. */
  lemma {:induction false} FlagsReadBack(
    table: Table, accepts: Accepts, done: seq<Assignment>, ws: seq<Spelling>, plain: seq<string>)
    requires forall i :: 0 <= i < |ws| ==> Writable(table, ws[i])
    requires AllAccepted(accepts, done, AllSaid(ws))
    ensures GoParse(table, accepts, done, AllWritten(ws) + Behind(plain)) == Parsed(done + AllSaid(ws), plain)
    decreases |ws|
  {
    if ws == [] {
      NoFlagsLeft(table, accepts, done, plain);
      ConcatNothing(done);
    } else {
      var rest := AllWritten(ws[1..]) + Behind(plain);
      ConcatAssociates(Words(ws[0]), AllWritten(ws[1..]), Behind(plain));
      StepReads(table, ws[0], rest);
      AcceptedFromFirst(accepts, done, Says(ws[0]), AllSaid(ws[1..]));
      FlagsReadBack(table, accepts, done + [Says(ws[0])], ws[1..], plain);
      ConcatAssociates(done, [Says(ws[0])], AllSaid(ws[1..]));
    }
  }

  /** `x --out`, where --out takes a value: read in place its value is missing; permuted, it is given
      the separator, and nothing is reported. Permuting again adds another separator. */
  lemma SeparatorTaken(accepts: Accepts)
    requires accepts([Assignment("out", "--")])
    ensures var table, args := map["out" := Valued], ["x", "--out"];
      && ReadAnywhere(table, accepts, [], [], args) == Failed([], NeedsArgument("out"))
      && Permuted(table, args) == ["--out", "--", "x"]
      && GoParse(table, accepts, [], Permuted(table, args)) == Parsed([Assignment("out", "--")], ["x"])
      && Permuted(table, Permuted(table, args)) != Permuted(table, args)
  {
    var table, args := map["out" := Valued], ["x", "--out"];
    var last := args[1..];
    assert last == ["--out"] && "--out"[2..] == "out";
    assert Until("out", '=') == 3 && Classify("--out") == Flag("out", None);
    TakesNextAgrees(table, "--out");
    assert last[..1] == last && last[1..] == [] && Scan(table, last) == Groups(last, []);
    assert Scan(table, args) == Groups(["--out"], ["x"]);
    assert ["--out"] + (["--"] + ["x"]) == ["--out", "--", "x"];
    assert FlagStep(table, last) == Wrong(NeedsArgument("out"));
    assert [] + ["x"] == ["x"];
    assert ReadAnywhere(table, accepts, [], ["x"], last) == Failed([], NeedsArgument("out"));
    PermuteKeepsMeaning(table, accepts, args);
    assert [] + [Assignment("out", "--")] == [Assignment("out", "--")];
    assert Dangling(table, last) && Dangling(table, args);
    PermuteIdempotent(table, args);
  }

  // ----- Permuting twice -----

  lemma {:induction false} ScanPlain(table: Table, plain: seq<string>)
    requires AllPlain(plain)
    ensures Scan(table, plain) == Groups([], plain)
    decreases |plain|
  {
    if plain != [] {
      ScanPlain(table, plain[1..]);
    }
  }

  lemma {:induction false} DanglingPlain(table: Table, args: seq<string>)
    requires Dangling(table, args)
    ensures AllPlain(Scan(table, args).plain)
    decreases |args|
  {
    if IsPlain(args[0]) {
      DanglingPlain(table, args[1..]);
    } else if |args| > 1 || !TakesNext(table, args[0]) {
      DanglingPlain(table, args[Carried(table, args)..]);
    } else {
      assert Scan(table, args[1..]).plain == [];
    }
  }

  /** Scanning the flags again, with the separator and any words behind them. */
  lemma {:induction false} ScanAgain(table: Table, args: seq<string>, plain: seq<string>)
    requires Dangling(table, args) ==> AllPlain(plain)
    ensures var flags := Scan(table, args).flags;
      Scan(table, flags + Behind(plain))
      == if Dangling(table, args) && plain != [] then Groups(flags + ["--"], plain) else Groups(flags, plain)
    decreases |args|
  {
    var g := Scan(table, args);
    if args == [] || args[0] == "--" {
      assert [] + Behind(plain) == Behind(plain);
    } else if IsPlain(args[0]) {
      ScanAgain(table, args[1..], plain);
    } else {
      var n := Carried(table, args);
      ScanAgain(table, args[n..], plain);
      ScanFlagAgain(table, args, plain);
    }
  }

  lemma ScanFlagAgain(table: Table, args: seq<string>, plain: seq<string>)
    requires args != [] && args[0] != "--" && !IsPlain(args[0])
    requires Dangling(table, args) ==> AllPlain(plain)
    requires var n := Carried(table, args);
      var flags := Scan(table, args[n..]).flags;
      Scan(table, flags + Behind(plain))
      == if Dangling(table, args[n..]) && plain != [] then Groups(flags + ["--"], plain) else Groups(flags, plain)
    ensures var flags := Scan(table, args).flags;
      Scan(table, flags + Behind(plain))
      == if Dangling(table, args) && plain != [] then Groups(flags + ["--"], plain) else Groups(flags, plain)
  {
    var n := Carried(table, args);
    var rest := Scan(table, args[n..]).flags;
    ConcatAssociates(args[..n], rest, Behind(plain));
    ConcatAssociates(args[..n], rest, ["--"]);
    if TakesNext(table, args[0]) && |args| == 1 {
      WholeSlice(args);
      ConcatNothing(args);
      ConcatAssociates(args, ["--"], plain);
      ConcatParts(args + ["--"], plain);
      if Dangling(table, args) && plain != [] {
        ScanPlain(table, plain);
        assert Carried(table, (args + ["--"]) + plain) == 2;
      }
    } else {
      ScanFlagged(table, args, rest + Behind(plain));
    }
  }

  /** A flag that has what it carries is scanned the same way whatever follows. */
  lemma ScanFlagged(table: Table, args: seq<string>, rest: seq<string>)
    requires args != [] && args[0] != "--" && !IsPlain(args[0])
    requires !(TakesNext(table, args[0]) && |args| == 1)
    ensures var n := Carried(table, args); var g := Scan(table, rest);
      Scan(table, args[..n] + rest) == Groups(args[..n] + g.flags, g.plain)
  {
    var n := Carried(table, args);
    ConcatParts(args[..n], rest);
  }

  /** permute is idempotent, except exactly when the line ends in a flag that lacks its value
      and has a positional word. */
  lemma PermuteIdempotent(table: Table, args: seq<string>)
    ensures Permuted(table, Permuted(table, args)) == Permuted(table, args)
       <==> !(Dangling(table, args) && Scan(table, args).plain != [])
  {
    var g := Scan(table, args);
    if Dangling(table, args) {
      DanglingPlain(table, args);
    }
    ScanAgain(table, args, g.plain);
  }

  // ----- parse -----

  /** `flagSet.parse`: permute, then the loop of Go's parser. */
  method Parse(table: Table, accepts: Accepts, args: seq<string>) returns (out: Outcome)
    ensures var r := ReadAnywhere(table, accepts, [], [], args);
      var plain := Scan(table, args).plain;
      out == if Starved(r) && plain != [] then Swallowed(accepts, r, plain) else r
  {
    var words := Permute(table, args);
    PermuteKeepsMeaning(table, accepts, args);
    var values: seq<Assignment>, rest := [], words;
    while true
      invariant GoParse(table, accepts, values, rest) == GoParse(table, accepts, [], words)
      decreases |rest|
    {
      if rest == [] || IsPlain(rest[0]) {
        return Parsed(values, rest);
      }
      if rest[0] == "--" {
        return Parsed(values, rest[1..]);
      }
      var step := FlagStep(table, rest);
      if step.Wrong? {
        return Failed(values, step.error);
      }
      if !accepts(values + [step.assignment]) {
        return Failed(values, InvalidValue(step.assignment));
      }
      values, rest := values + [step.assignment], rest[step.words..];
    }
  }
}
