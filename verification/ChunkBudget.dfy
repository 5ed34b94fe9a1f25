/** The size budget of a web build: `budgets.generateBundle` in the Vite configuration. */
module ChunkBudget {
  import opened Seqs
  import opened Text

  datatype Output =
    | Chunk(isEntry: bool, imports: seq<string>, css: seq<string>, code: string)
    | Asset(source: string)

  type Bundle = map<string, Output>

  predicate IsChunk(bundle: Bundle, file: string) { file in bundle && bundle[file].Chunk? }

  /** A stylesheet is an asset: its name is not a chunk's. */
  ghost predicate StylesheetsAreAssets(bundle: Bundle) {
    forall f, i :: IsChunk(bundle, f) && 0 <= i < |bundle[f].css| ==> !IsChunk(bundle, bundle[f].css[i])
  }

  // ----- The shell, by paths of static imports -----

  /** p leads from one chunk to another, each importing the next. */
  ghost predicate IsPath(bundle: Bundle, p: seq<string>, from: string, to: string)
    decreases |p|
  {
    && p != [] && p[0] == from && IsChunk(bundle, from)
    && if |p| == 1 then from == to else p[1] in bundle[from].imports && IsPath(bundle, p[1..], p[1], to)
  }

  ghost predicate Leads(bundle: Bundle, from: string, to: string) {
    exists p :: IsPath(bundle, p, from, to)
  }

  /** A chunk some entry leads to. */
  ghost predicate Reached(bundle: Bundle, file: string) {
    exists e :: IsChunk(bundle, e) && bundle[e].isEntry && Leads(bundle, e, file)
  }

  /** The first paint: the reached chunks and their stylesheets. */
  ghost predicate InShell(bundle: Bundle, file: string) {
    || Reached(bundle, file)
    || exists f :: Reached(bundle, f) && IsChunk(bundle, f) && file in bundle[f].css
  }

  lemma LeadsToItself(bundle: Bundle, file: string)
    requires IsChunk(bundle, file)
    ensures Leads(bundle, file, file)
  {
    assert IsPath(bundle, [file], file, file);
  }

  lemma {:induction false} PathEnds(bundle: Bundle, p: seq<string>, from: string, to: string)
    requires IsPath(bundle, p, from, to)
    ensures IsChunk(bundle, to)
    decreases |p|
  {
    if |p| > 1 {
      PathEnds(bundle, p[1..], p[1], to);
    }
  }

  lemma LeadsThrough(bundle: Bundle, from: string, next: string, to: string)
    requires IsChunk(bundle, from) && next in bundle[from].imports && Leads(bundle, next, to)
    ensures Leads(bundle, from, to)
  {
    var p :| IsPath(bundle, p, next, to);
    ConsTail(from, p);
    assert IsPath(bundle, [from] + p, from, to);
  }

  /** A set that holds `from` and every chunk its chunks import holds all that `from` leads to. */
  lemma {:induction false} ClosedHolds(bundle: Bundle, closed: set<string>, p: seq<string>, from: string, to: string)
    requires IsPath(bundle, p, from, to) && from in closed
    requires forall f :: f in closed && IsChunk(bundle, f) ==> Complete(bundle, closed, f)
    ensures to in closed
    decreases |p|
  {
    if |p| > 1 {
      assert Complete(bundle, closed, from);
      PathEnds(bundle, p[1..], p[1], to);
      ClosedHolds(bundle, closed, p[1..], p[1], to);
    }
  }

  /** The set holds the chunks and the stylesheets that f imports. */
  predicate Complete(bundle: Bundle, files: set<string>, f: string)
    requires IsChunk(bundle, f)
  {
    && (forall i :: 0 <= i < |bundle[f].imports| && IsChunk(bundle, bundle[f].imports[i]) ==>
          bundle[f].imports[i] in files)
    && (forall i :: 0 <= i < |bundle[f].css| ==> bundle[f].css[i] in files)
  }

  /** x is a chunk `from` leads to, or a stylesheet of one. */
  ghost predicate Owed(bundle: Bundle, from: string, x: string) {
    || Leads(bundle, from, x)
    || exists f :: IsChunk(bundle, f) && Leads(bundle, from, f) && x in bundle[f].css
  }

  lemma OwedThrough(bundle: Bundle, from: string, next: string, x: string)
    requires IsChunk(bundle, from) && next in bundle[from].imports && Owed(bundle, next, x)
    ensures Owed(bundle, from, x)
  {
    if Leads(bundle, next, x) {
      LeadsThrough(bundle, from, next, x);
    } else {
      var f :| IsChunk(bundle, f) && Leads(bundle, next, f) && x in bundle[f].css;
      LeadsThrough(bundle, from, next, f);
    }
  }

  // ----- The walk -----

  class Walker {
    const bundle: Bundle
    var shellFiles: set<string>

    constructor (bundle: Bundle)
      ensures this.bundle == bundle && shellFiles == {}
    {
      this.bundle, shellFiles := bundle, {};
    }

    /** Visit a chunk once: whatever is added is owed to it, and all it needs is added. */
    method Walk(file: string)
      requires StylesheetsAreAssets(bundle)
      modifies this
      ensures old(shellFiles) <= shellFiles
      ensures IsChunk(bundle, file) ==> file in shellFiles
      ensures forall x :: x in shellFiles - old(shellFiles) ==> Owed(bundle, file, x)
      ensures forall x :: x in shellFiles - old(shellFiles) && IsChunk(bundle, x) ==> Complete(bundle, shellFiles, x)
      decreases bundle.Keys - shellFiles, 0
    {
      if !IsChunk(bundle, file) || file in shellFiles {
        return;
      }
      ghost var before := shellFiles;
      var chunk := bundle[file];
      shellFiles := shellFiles + {file};
      LeadsToItself(bundle, file);
      for i := 0 to |chunk.css|
        invariant before + {file} <= shellFiles
        invariant forall x :: x in shellFiles - before ==> x == file || x in chunk.css
        invariant forall k :: 0 <= k < i ==> chunk.css[k] in shellFiles
      {
        shellFiles := shellFiles + {chunk.css[i]};
      }
      WalkImports(file, before);
    }

    /** The loop over the static imports of a chunk just added. */
    method WalkImports(file: string, ghost before: set<string>)
      requires StylesheetsAreAssets(bundle)
      requires IsChunk(bundle, file) && file in shellFiles && file !in before && before <= shellFiles
      requires forall x :: x in shellFiles - before ==> x == file || x in bundle[file].css
      requires forall k :: 0 <= k < |bundle[file].css| ==> bundle[file].css[k] in shellFiles
      modifies this
      ensures old(shellFiles) <= shellFiles
      ensures forall x :: x in shellFiles - before ==> Owed(bundle, file, x)
      ensures forall x :: x in shellFiles - before && IsChunk(bundle, x) ==> Complete(bundle, shellFiles, x)
      decreases bundle.Keys - shellFiles, 1
    {
      var imports := bundle[file].imports;
      LeadsToItself(bundle, file);
      for i := 0 to |imports|
        invariant old(shellFiles) <= shellFiles
        invariant forall x :: x in shellFiles - before ==> Owed(bundle, file, x)
        invariant forall x :: x in shellFiles - before && x != file && IsChunk(bundle, x) ==>
          Complete(bundle, shellFiles, x)
        invariant forall k :: 0 <= k < i && IsChunk(bundle, imports[k]) ==> imports[k] in shellFiles
      {
        ghost var was := shellFiles;
        Walk(imports[i]);
        forall x | x in shellFiles - was ensures Owed(bundle, file, x) {
          OwedThrough(bundle, file, imports[i], x);
        }
      }
    }
  }

  // ----- Allowances -----

  const ROUTE_BUDGET: nat := 80 * 1024
  const ROUTE_ALLOWANCES: map<string, nat> := map["xterm" := 96 * 1024]

  /** What follows the last separator; the whole text when there is none. */
  function AfterLast(s: string, sep: char): string {
    if s == "" then "" else if Without(s, sep) then s else AfterLast(s[1..], sep)
  }

  /** How many characters come before the last separator, or all of them. */
  function BeforeLast(s: string, sep: char): (n: nat)
    ensures n <= |s|
  {
    if s == "" || s[|s| - 1] == sep then (if s == "" then 0 else |s| - 1)
    else
      var n := BeforeLast(s[..|s| - 1], sep);
      if n == |s| - 1 then |s| else n
  }

  /** `chunkName`: the file's name without its directory, content hash and extension. */
  function ChunkName(file: string): string {
    var base := AfterLast(file, '/');
    var ext := BeforeLast(base, '.');
    if ext == |base| || (base[ext..] != ".js" && base[ext..] != ".css") then base
    else
      var hash := BeforeLast(base[..ext], '.');
      if hash + 1 >= ext then base else base[..hash]
  }

  /** What the table of allowances says of a file. */
  function Budget(file: string): nat {
    if ChunkName(file) in ROUTE_ALLOWANCES then ROUTE_ALLOWANCES[ChunkName(file)] else ROUTE_BUDGET
  }

  /** The names every JavaScript object has besides its own. */
  const INHERITED: set<string> := {
    "constructor", "hasOwnProperty", "isPrototypeOf", "propertyIsEnumerable", "toLocaleString", "toString", "valueOf",
    "__proto__", "__defineGetter__", "__defineSetter__", "__lookupGetter__", "__lookupSetter__"
  }

  /** The table is an object, so looking up a name it does not have can find an inherited function,
      and no size is greater than that. */
  predicate Unlimited(file: string) { ChunkName(file) !in ROUTE_ALLOWANCES && ChunkName(file) in INHERITED }

  /** The comparison the plugin makes. */
  predicate Exceeds(size: nat, file: string) { !Unlimited(file) && size > Budget(file) }

  lemma {:induction false} AfterLastIs(dir: string, sep: char, base: string)
    requires Without(base, sep)
    ensures AfterLast(dir + [sep] + base, sep) == base
    decreases |dir|
  {
    var s := dir + [sep] + base;
    assert s[|dir|] == sep;
    if dir == "" {
      ConsTail(sep, base);
      assert s == [sep] + base;
    } else {
      AfterLastIs(dir[1..], sep, base);
      assert s[1..] == dir[1..] + [sep] + base;
    }
  }

  lemma {:induction false} BeforeLastIs(head: string, sep: char, tail: string)
    requires Without(tail, sep)
    ensures BeforeLast(head + [sep] + tail, sep) == |head|
    decreases |tail|
  {
    var s := head + [sep] + tail;
    if tail == "" {
      ConcatNothing(head + [sep]);
    } else {
      var init := tail[..|tail| - 1];
      BeforeLastIs(head, sep, init);
      LastOff(tail);
      ConcatAssociates(head + [sep], init, [tail[|tail| - 1]]);
      SnocInit(head + [sep] + init, tail[|tail| - 1]);
    }
  }

  /** A hashed file is known by its name, wherever it is. */
  lemma ChunkNameOfHashed(dir: string, name: string, hash: string, ext: string)
    requires Without(name, '/') && Without(hash, '/') && Without(hash, '.') && hash != ""
    requires ext == "js" || ext == "css"
    ensures ChunkName(dir + "/" + (name + "." + hash + "." + ext)) == name
  {
    var stem := name + "." + hash;
    var base := stem + "." + ext;
    WithoutConcat(name, ".", '/');
    WithoutConcat(name + ".", hash, '/');
    WithoutConcat(stem, ".", '/');
    WithoutConcat(stem + ".", ext, '/');
    AfterLastIs(dir, '/', base);
    BeforeLastIs(stem, '.', ext);
    ConcatAssociates(stem, ".", ext);
    ConcatParts(stem, "." + ext);
    BeforeLastIs(name, '.', hash);
    TakeTake(base, |stem|, |name|);
    ConcatAssociates(name, ".", hash);
    ConcatParts(name, "." + hash);
  }

  // ----- The accounting -----

  datatype Row = Row(file: string, isShell: bool, size: nat)

  datatype Verdict = WithinBudget | ShellTooBig | RoutesTooBig

  function Source(o: Output): string { if o.Chunk? then o.code else o.source }

  /** The files that are measured, in the order they come. */
  function Measured(bundle: Bundle, order: seq<string>): seq<string>
    requires forall f :: f in order ==> f in bundle
  {
    if order == [] then []
    else
      var init, last := order[..|order| - 1], order[|order| - 1];
      Measured(bundle, init) + if Source(bundle[last]) == "" then [] else [last]
  }

  function Files(rows: seq<Row>): seq<string> {
    if rows == [] then [] else Files(rows[..|rows| - 1]) + [rows[|rows| - 1].file]
  }

  /** The bytes of the rows on one side of the shell. */
  function Bytes(rows: seq<Row>, isShell: bool): nat {
    if rows == [] then 0
    else
      var last := rows[|rows| - 1];
      Bytes(rows[..|rows| - 1], isShell) + if last.isShell == isShell then last.size else 0
  }

  function TooBig(rows: seq<Row>): seq<string> {
    if rows == [] then []
    else
      var last := rows[|rows| - 1];
      TooBig(rows[..|rows| - 1]) + if !last.isShell && Exceeds(last.size, last.file) then [last.file] else []
  }

  ghost predicate RightRow(bundle: Bundle, gzipped: string -> nat, r: Row) {
    && r.file in bundle && r.size == gzipped(Source(bundle[r.file]))
    && (r.isShell <==> InShell(bundle, r.file))
  }

  lemma WalkedIsShell(bundle: Bundle, files: set<string>)
    requires forall x :: x in files ==> InShell(bundle, x)
    requires forall x :: x in files && IsChunk(bundle, x) ==> Complete(bundle, files, x)
    requires forall e :: IsChunk(bundle, e) && bundle[e].isEntry ==> e in files
    ensures forall x :: x in files <==> InShell(bundle, x)
  {
    forall x | Reached(bundle, x) ensures x in files && IsChunk(bundle, x) {
      var e :| IsChunk(bundle, e) && bundle[e].isEntry && Leads(bundle, e, x);
      var p :| IsPath(bundle, p, e, x);
      PathEnds(bundle, p, e, x);
      ClosedHolds(bundle, files, p, e, x);
    }
    forall x | InShell(bundle, x) ensures x in files {
      if !Reached(bundle, x) {
        var f :| Reached(bundle, f) && IsChunk(bundle, f) && x in bundle[f].css;
        assert Complete(bundle, files, f);
      }
    }
  }

  lemma OwedToEntry(bundle: Bundle, e: string, x: string)
    requires IsChunk(bundle, e) && bundle[e].isEntry && Owed(bundle, e, x)
    ensures InShell(bundle, x)
  {
    if !Leads(bundle, e, x) {
      var f :| IsChunk(bundle, f) && Leads(bundle, e, f) && x in bundle[f].css;
      assert Reached(bundle, f);
    }
  }

  method ShellFiles(bundle: Bundle, order: seq<string>) returns (files: set<string>)
    requires StylesheetsAreAssets(bundle)
    requires forall f :: f in order <==> f in bundle
    ensures forall x :: x in files <==> InShell(bundle, x)
  {
    var walker := new Walker(bundle);
    for i := 0 to |order|
      invariant walker.bundle == bundle
      invariant forall x :: x in walker.shellFiles ==> InShell(bundle, x)
      invariant forall x :: x in walker.shellFiles && IsChunk(bundle, x) ==> Complete(bundle, walker.shellFiles, x)
      invariant forall k :: 0 <= k < i && IsChunk(bundle, order[k]) && bundle[order[k]].isEntry ==>
        order[k] in walker.shellFiles
    {
      var file := order[i];
      if IsChunk(bundle, file) && bundle[file].isEntry {
        ghost var was := walker.shellFiles;
        walker.Walk(file);
        forall x | x in walker.shellFiles - was ensures InShell(bundle, x) {
          OwedToEntry(bundle, file, x);
        }
      }
    }
    files := walker.shellFiles;
    WalkedIsShell(bundle, files);
  }

  /** Every measured file is in exactly one row, as shell or as route; the shell's bytes and the
      list of overweight routes follow from the rows, and the verdict from those. */
  method GenerateBundle(bundle: Bundle, order: seq<string>, gzipped: string -> nat, limit: nat)
    returns (rows: seq<Row>, shell: nat, overweight: seq<string>, verdict: Verdict)
    requires StylesheetsAreAssets(bundle)
    requires forall f :: f in order <==> f in bundle
    ensures Files(rows) == Measured(bundle, order)
    ensures forall i :: 0 <= i < |rows| ==> RightRow(bundle, gzipped, rows[i])
    ensures shell == Bytes(rows, true)
    ensures overweight == TooBig(rows)
    ensures verdict == if limit < Bytes(rows, true) then ShellTooBig
                       else if TooBig(rows) != [] then RoutesTooBig else WithinBudget
  {
    var files := ShellFiles(bundle, order);
    rows, shell, overweight := Account(bundle, order, gzipped, files);
    forall i | 0 <= i < |rows| ensures RightRow(bundle, gzipped, rows[i]) {
      assert ChargedRow(bundle, gzipped, files, rows[i]);
    }
    verdict := if shell > limit then ShellTooBig else if |overweight| > 0 then RoutesTooBig else WithinBudget;
  }

  predicate ChargedRow(bundle: Bundle, gzipped: string -> nat, files: set<string>, r: Row) {
    r.file in bundle && r.size == gzipped(Source(bundle[r.file])) && (r.isShell <==> r.file in files)
  }

  /** The loop over the bundle, once the shell's files are known. */
  method Account(bundle: Bundle, order: seq<string>, gzipped: string -> nat, files: set<string>)
    returns (rows: seq<Row>, shell: nat, overweight: seq<string>)
    requires forall f :: f in order ==> f in bundle
    ensures Files(rows) == Measured(bundle, order)
    ensures forall i :: 0 <= i < |rows| ==> ChargedRow(bundle, gzipped, files, rows[i])
    ensures shell == Bytes(rows, true) && overweight == TooBig(rows)
  {
    rows, shell, overweight := [], 0, [];
    for i := 0 to |order|
      invariant Files(rows) == Measured(bundle, order[..i])
      invariant forall k :: 0 <= k < |rows| ==> ChargedRow(bundle, gzipped, files, rows[k])
      invariant shell == Bytes(rows, true)
      invariant overweight == TooBig(rows)
    {
      var file := order[i];
      TakeTake(order, i + 1, i);
      var source := Source(bundle[file]);
      if source != "" {
        var row := Row(file, file in files, gzipped(source));
        SnocInit(rows, row);
        if row.isShell {
          shell := shell + row.size;
        } else if Exceeds(row.size, file) {
          overweight := overweight + [file];
        }
        rows := rows + [row];
      }
    }
    WholeSlice(order);
  }

  /** Listed once, a file is measured once: exactly those with something in them. */
  lemma {:induction false} MeasuredOnce(bundle: Bundle, order: seq<string>)
    requires forall f :: f in order ==> f in bundle
    requires forall i, j :: 0 <= i < j < |order| ==> order[i] != order[j]
    ensures forall f :: multiset(Measured(bundle, order))[f] == if f in order && Source(bundle[f]) != "" then 1 else 0
    decreases |order|
  {
    if order != [] {
      var init, last := order[..|order| - 1], order[|order| - 1];
      MeasuredOnce(bundle, init);
      LastOff(order);
      assert last !in init;
    }
  }

  /** What a file holds: a chunk its code, anything else its source. */
  predicate HoldsText(o: Output, text: string) { if o.Chunk? then o.code == text else o.source == text }

  /** Every file of the bundle that holds anything, stylesheets as well, is charged its gzipped size once, to
      the shell or to the routes; an empty one is not charged at all. */
  lemma EveryFileCharged(
    bundle: Bundle, gzipped: string -> nat, order: seq<string>, rows: seq<Row>, f: string, text: string)
    requires forall x :: x in order ==> x in bundle
    requires forall i, j :: 0 <= i < j < |order| ==> order[i] != order[j]
    requires Files(rows) == Measured(bundle, order)
    requires forall i :: 0 <= i < |rows| ==> RightRow(bundle, gzipped, rows[i])
    requires f in order && HoldsText(bundle[f], text)
    ensures multiset(Files(rows))[f] == if text == "" then 0 else 1
    ensures forall i :: 0 <= i < |rows| && rows[i].file == f ==>
      rows[i].size == gzipped(text) && (rows[i].isShell <==> InShell(bundle, f))
  {
    MeasuredOnce(bundle, order);
  }

  /** The gzipped bytes of some files. */
  function Weight(bundle: Bundle, gzipped: string -> nat, files: seq<string>): nat
    requires forall f :: f in files ==> f in bundle
  {
    if files == [] then 0
    else
      var init, last := files[..|files| - 1], files[|files| - 1];
      Weight(bundle, gzipped, init) + gzipped(Source(bundle[last]))
  }

  lemma {:induction false} RowsWeigh(bundle: Bundle, gzipped: string -> nat, rows: seq<Row>)
    requires forall i :: 0 <= i < |rows| ==> RightRow(bundle, gzipped, rows[i])
    ensures forall f :: f in Files(rows) ==> f in bundle
    ensures Bytes(rows, true) + Bytes(rows, false) == Weight(bundle, gzipped, Files(rows))
    decreases |rows|
  {
    if rows != [] {
      var init, last := rows[..|rows| - 1], rows[|rows| - 1];
      RowsWeigh(bundle, gzipped, init);
      SnocInit(Files(init), last.file);
    }
  }

  /** Nothing is lost between the two sides: the shell's bytes and the routes' are the bytes of all
      the files measured. */
  lemma BytesAddUp(bundle: Bundle, gzipped: string -> nat, order: seq<string>, rows: seq<Row>)
    requires forall f :: f in order ==> f in bundle
    requires Files(rows) == Measured(bundle, order)
    requires forall i :: 0 <= i < |rows| ==> RightRow(bundle, gzipped, rows[i])
    ensures forall f :: f in Measured(bundle, order) ==> f in bundle
    ensures Bytes(rows, true) + Bytes(rows, false) == Weight(bundle, gzipped, Measured(bundle, order))
  {
    RowsWeigh(bundle, gzipped, rows);
  }

  /** No route is reported exactly when each is within its budget or bears a name the lookup inherits. */
  lemma {:induction false} NoneTooBig(rows: seq<Row>)
    ensures TooBig(rows) == [] <==> forall i :: 0 <= i < |rows| && !rows[i].isShell ==>
      rows[i].size <= Budget(rows[i].file) || Unlimited(rows[i].file)
    decreases |rows|
  {
    if rows != [] {
      var init := rows[..|rows| - 1];
      NoneTooBig(init);
      assert forall i :: 0 <= i < |init| ==> init[i] == rows[i];
    }
  }

  /** The routes over budget. */
  function OverBudget(rows: seq<Row>): seq<string> {
    if rows == [] then []
    else
      var last := rows[|rows| - 1];
      OverBudget(rows[..|rows| - 1]) + if !last.isShell && last.size > Budget(last.file) then [last.file] else []
  }

  /** A route over budget that the plugin misses. */
  predicate Missed(r: Row) { !r.isShell && r.size > Budget(r.file) && Unlimited(r.file) }

  function Missing(rows: seq<Row>): nat {
    if rows == [] then 0 else Missing(rows[..|rows| - 1]) + if Missed(rows[|rows| - 1]) then 1 else 0
  }

  lemma {:induction false} SomeMissing(rows: seq<Row>)
    ensures Missing(rows) == 0 <==> forall i :: 0 <= i < |rows| ==> !Missed(rows[i])
    decreases |rows|
  {
    if rows != [] {
      var init := rows[..|rows| - 1];
      SomeMissing(init);
      assert forall i :: 0 <= i < |init| ==> init[i] == rows[i];
    }
  }

  lemma {:induction false} ReportedAndMissing(rows: seq<Row>)
    ensures |TooBig(rows)| + Missing(rows) == |OverBudget(rows)|
    ensures Missing(rows) == 0 ==> TooBig(rows) == OverBudget(rows)
    decreases |rows|
  {
    if rows != [] {
      ReportedAndMissing(rows[..|rows| - 1]);
    }
  }

  /** Exactly the routes over budget are reported if and only if none of them bears an inherited name. */
  lemma AllReportedExactlyWhen(rows: seq<Row>)
    ensures TooBig(rows) == OverBudget(rows) <==> forall i :: 0 <= i < |rows| ==> !Missed(rows[i])
  {
    ReportedAndMissing(rows);
    SomeMissing(rows);
  }

  /** A route chunk called `constructor` is never reported, whatever it weighs. */
  lemma ConstructorIsMissed(hash: string, size: nat)
    requires Without(hash, '/') && Without(hash, '.') && hash != "" && size > ROUTE_BUDGET
    ensures Missed(Row("assets" + "/" + ("constructor" + "." + hash + "." + "js"), false, size))
  {
    ChunkNameOfHashed("assets", "constructor", hash, "js");
  }
}
