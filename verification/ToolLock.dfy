/** The tool-cache lock: how its lines are written and read back, why a pinned Python archive
    keeps its digest over any number of regenerations, and how the newest Maven is chosen. */
module ToolLock {
  import opened Seqs
  import opened Text
  import opened Wrappers

  datatype Entry = Entry(tool: string, version: string, platform: string, arch: string, digest: string, url: string)

  type Digests = map<string, string>

  /** The longest line a bufio.Scanner returns, in bytes; it stops at a longer one. */
  const MAX_LINE: nat := 64 * 1024

  // ----- Writing -----

  function FieldsOf(e: Entry): seq<string> { [e.tool, e.version, e.platform, e.arch, e.digest, e.url] }

  function Render(e: Entry): string { Join(FieldsOf(e)) }

  function Rendered(es: seq<Entry>): seq<string> {
    if es == [] then [] else [Render(es[0])] + Rendered(es[1..])
  }

  /** The lock's text: a header of comments, then one line per archive. */
  function Lock(header: seq<string>, es: seq<Entry>): string { Unlines(header + Rendered(es)) }

  method WriteLock(header: seq<string>, es: seq<Entry>) returns (text: string)
    ensures text == Lock(header, es)
  {
    text := Unlines(header);
    ConcatNothing(header);
    for i := 0 to |es|
      invariant text == Unlines(header + Rendered(es[..i]))
    {
      OneMoreLine(header, es, i);
      text := text + (Render(es[i]) + "\n");
    }
    WholeSlice(es);
  }

  lemma {:induction false} RenderedAppend(es: seq<Entry>, e: Entry)
    ensures Rendered(es + [e]) == Rendered(es) + [Render(e)]
    decreases |es|
  {
    if es == [] {
      ConcatNothing([e]);
      ConsTail(e, []);
    } else {
      FirstOff(es);
      ConcatAssociates([es[0]], es[1..], [e]);
      ConsTail(es[0], es[1..] + [e]);
      RenderedAppend(es[1..], e);
      ConcatAssociates([Render(es[0])], Rendered(es[1..]), [Render(e)]);
    }
  }

  lemma OneMoreLine(header: seq<string>, es: seq<Entry>, i: nat)
    requires i < |es|
    ensures Unlines(header + Rendered(es[..i + 1])) == Unlines(header + Rendered(es[..i])) + (Render(es[i]) + "\n")
  {
    LastOff(es[..i + 1]);
    TakeTake(es, i + 1, i);
    RenderedAppend(es[..i], es[i]);
    ConcatAssociates(header, Rendered(es[..i]), [Render(es[i])]);
    UnlinesAppend(header + Rendered(es[..i]), [Render(es[i])]);
    ConsTail(Render(es[i]), []);
    ConcatNothing(Render(es[i]) + "\n");
  }

  // ----- Reading -----

  /** The lines a scanner returns: without their ends, and nothing past one that is too long. */
  function Scanned(lines: seq<string>): seq<string> {
    if lines == [] || ByteLen(lines[0]) >= MAX_LINE || (|lines| == 1 && lines[0] == "") then []
    else [DropReturn(lines[0])] + Scanned(lines[1..])
  }

  function DropReturn(line: string): string {
    if line != "" && line[|line| - 1] == '\r' then line[..|line| - 1] else line
  }

  /** What one line adds to the known digests. */
  function Learn(known: Digests, line: string): Digests {
    var f := Fields(line);
    if |f| == 6 && !HasPrefix(f[0], "#") && f[4] != "-" then known[f[5] := f[4]] else known
  }

  function LearnAll(known: Digests, lines: seq<string>): Digests
    decreases |lines|
  {
    if lines == [] then known else LearnAll(Learn(known, lines[0]), lines[1..])
  }

  /** The digests a lock holds, by URL. */
  function Known(text: string): Digests { LearnAll(map[], Scanned(Split(text, '\n'))) }

  method ReadLock(text: string) returns (known: Digests)
    ensures known == Known(text)
  {
    known := map[];
    var lines := Scanned(Split(text, '\n'));
    WholeSlice(lines);
    for i := 0 to |lines|
      invariant LearnAll(known, lines[i..]) == Known(text)
    {
      DropDrop(lines, i, 1);
      var fields := Fields(lines[i]);
      if |fields| == 6 && !HasPrefix(fields[0], "#") && fields[4] != "-" {
        known := known[fields[5] := fields[4]];
      }
    }
  }

  // ----- There and back -----

  /** Six words, the first not a comment's, on a line that is not too long. */
  predicate WellFormed(e: Entry) {
    AllWords(FieldsOf(e)) && !HasPrefix(e.tool, "#") && ByteLen(Render(e)) < MAX_LINE
  }

  predicate AllWellFormed(es: seq<Entry>) { forall i :: 0 <= i < |es| ==> WellFormed(es[i]) }

  /** A header line says nothing: it is blank or a comment. */
  predicate Comment(line: string) {
    && ByteLen(line) < MAX_LINE && Without(line, '\n')
    && (Fields(DropReturn(line)) == [] || HasPrefix(Fields(DropReturn(line))[0], "#"))
  }

  predicate Comments(header: seq<string>) { forall i :: 0 <= i < |header| ==> Comment(header[i]) }

  /** What the entries themselves say, the later ones last. */
  function Pinned(known: Digests, es: seq<Entry>): Digests
    decreases |es|
  {
    if es == [] then known
    else Pinned(if es[0].digest == "-" then known else known[es[0].url := es[0].digest], es[1..])
  }

  lemma {:induction false} JoinedIsOneLine(ws: seq<string>)
    requires ws != [] && AllWords(ws)
    ensures Without(Join(ws), '\n') && Join(ws) != "" && !IsSpace(Join(ws)[|Join(ws)| - 1])
    decreases |ws|
  {
    if |ws| > 1 {
      JoinedIsOneLine(ws[1..]);
      WithoutConcat(ws[0], " ", '\n');
      WithoutConcat(ws[0] + " ", Join(ws[1..]), '\n');
    }
  }

  lemma RenderedLine(e: Entry, known: Digests)
    requires WellFormed(e)
    ensures Without(Render(e), '\n') && Render(e) != "" && DropReturn(Render(e)) == Render(e)
    ensures Learn(known, Render(e)) == if e.digest == "-" then known else known[e.url := e.digest]
  {
    JoinedIsOneLine(FieldsOf(e));
    FieldsOfJoin(FieldsOf(e));
  }

  /** A line has its six columns in the order the header names them. */
  lemma LineColumns(e: Entry)
    requires WellFormed(e)
    ensures Fields(Render(e)) == [e.tool, e.version, e.platform, e.arch, e.digest, e.url]
  {
    FieldsOfJoin(FieldsOf(e));
  }

  lemma ScannedCons(line: string, rest: seq<string>)
    requires ByteLen(line) < MAX_LINE && rest != []
    ensures Scanned([line] + rest) == [DropReturn(line)] + Scanned(rest)
  {
    ConsTail(line, rest);
  }

  lemma {:induction false} EntriesRead(known: Digests, es: seq<Entry>)
    requires AllWellFormed(es)
    ensures LearnAll(known, Scanned(Rendered(es) + [""])) == Pinned(known, es)
    decreases |es|
  {
    if es == [] {
      ConcatNothing([""]);
    } else {
      var line, rest := Render(es[0]), Rendered(es[1..]) + [""];
      RenderedLine(es[0], known);
      ConcatAssociates([line], Rendered(es[1..]), [""]);
      ScannedCons(line, rest);
      ConsTail(line, Scanned(rest));
      EntriesRead(Learn(known, line), es[1..]);
    }
  }

  lemma {:induction false} HeaderSkipped(header: seq<string>, rest: seq<string>)
    requires Comments(header) && rest != []
    ensures LearnAll(map[], Scanned(header + rest)) == LearnAll(map[], Scanned(rest))
    decreases |header|
  {
    if header == [] {
      ConcatNothing(rest);
    } else {
      var more := header[1..] + rest;
      FirstOff(header);
      ConcatAssociates([header[0]], header[1..], rest);
      ScannedCons(header[0], more);
      ConsTail(DropReturn(header[0]), Scanned(more));
      assert Learn(map[], DropReturn(header[0])) == map[];
      HeaderSkipped(header[1..], rest);
    }
  }

  lemma {:induction false} RenderedAreLines(es: seq<Entry>)
    requires AllWellFormed(es)
    ensures forall i :: 0 <= i < |Rendered(es)| ==> Without(Rendered(es)[i], '\n')
    decreases |es|
  {
    if es != [] {
      RenderedLine(es[0], map[]);
      RenderedAreLines(es[1..]);
    }
  }

  /** Reading a written lock recovers what its entries say. */
  lemma LockReadsBack(header: seq<string>, es: seq<Entry>)
    requires Comments(header) && AllWellFormed(es)
    ensures Known(Lock(header, es)) == Pinned(map[], es)
  {
    RenderedAreLines(es);
    SplitOfUnlines(header + Rendered(es));
    ConcatAssociates(header, Rendered(es), [""]);
    HeaderSkipped(header, Rendered(es) + [""]);
    EntriesRead(map[], es);
  }

  lemma {:induction false} RenderedAt(es: seq<Entry>)
    ensures |Rendered(es)| == |es| && forall i :: 0 <= i < |es| ==> Rendered(es)[i] == Render(es[i])
    decreases |es|
  {
    if es != [] {
      RenderedAt(es[1..]);
    }
  }

  /** So has each line of a whole lock, after its header, one for each entry. */
  lemma LockColumns(header: seq<string>, es: seq<Entry>, i: nat)
    requires Comments(header) && AllWellFormed(es) && i < |es|
    ensures var lines := Split(Lock(header, es), '\n'); var e := es[i];
      && |lines| == |header| + |es| + 1
      && Fields(lines[|header| + i]) == [e.tool, e.version, e.platform, e.arch, e.digest, e.url]
  {
    RenderedAreLines(es);
    SplitOfUnlines(header + Rendered(es));
    RenderedAt(es);
    LineColumns(es[i]);
  }

  // ----- The manifest -----

  datatype Build = Build(os: string, version: string, arch: string, url: string)

  datatype Release = Release(version: string, stable: bool, files: seq<Build>)

  /** An architecture, as Docker and as the manifest call it. */
  datatype Arch = Arch(docker: string, python: string)

  const MINORS: seq<string> := ["3.10", "3.11", "3.12", "3.13", "3.14"]
  const ARCHES: seq<Arch> := [Arch("amd64", "x64"), Arch("arm64", "arm64")]

  /** An archive that was picked. */
  datatype Pick = Pick(version: string, platform: string, arch: string, url: string)

  /** The newest platform takes the archives of the one before it on one architecture. */
  function SourcePlatform(platform: string, arch: Arch): string {
    if platform == "26.04" && arch.docker == "amd64" then "24.04" else platform
  }

  predicate Suits(f: Build, platform: string, arch: Arch) {
    f.os == "linux" && f.version == SourcePlatform(platform, arch) && f.arch == arch.python
  }

  /** The last build that suits. */
  function UrlOf(files: seq<Build>, platform: string, arch: Arch): string {
    if files == [] then ""
    else
      var last := files[|files| - 1];
      if Suits(last, platform, arch) then last.url else UrlOf(files[..|files| - 1], platform, arch)
  }

  predicate OnLine(rel: Release, minor: string) { rel.stable && HasPrefix(rel.version, minor + ".") }

  /** The first stable release on a line; the manifest lists the newest first. */
  function FirstOnLine(manifest: seq<Release>, minor: string): Option<Release>
    decreases |manifest|
  {
    if manifest == [] then None
    else if OnLine(manifest[0], minor) then Some(manifest[0]) else FirstOnLine(manifest[1..], minor)
  }

  /** What a release gives for a platform and an architecture. */
  function PickFor(rel: Release, platform: string, arch: Arch): Pick {
    Pick(rel.version, platform, arch.docker, UrlOf(rel.files, platform, arch))
  }

  method FindBuild(files: seq<Build>, platform: string, arch: Arch) returns (url: string)
    ensures url == UrlOf(files, platform, arch)
  {
    url := "";
    for i := 0 to |files|
      invariant url == UrlOf(files[..i], platform, arch)
    {
      TakeTake(files, i + 1, i);
      if Suits(files[i], platform, arch) {
        url := files[i].url;
      }
    }
    WholeSlice(files);
  }

  predicate IsFor(f: Build, platform: string, arch: Arch) {
    f.os == "linux" && f.version == platform && f.arch == arch.python
  }

  predicate IsLastFor(files: seq<Build>, platform: string, arch: Arch, i: int) {
    && 0 <= i < |files| && IsFor(files[i], platform, arch)
    && forall j :: i < j < |files| ==> !IsFor(files[j], platform, arch)
  }

  /** What is found is the last build for Linux, the architecture and the platform; without one it is nothing. */
  lemma {:induction false} FoundSuits(files: seq<Build>, platform: string, arch: Arch) returns (i: int)
    requires platform != "26.04" || arch.docker != "amd64"
    ensures i >= 0 ==> IsLastFor(files, platform, arch, i) && UrlOf(files, platform, arch) == files[i].url
    ensures i < 0 ==> UrlOf(files, platform, arch) == ""
    ensures i < 0 ==> forall j :: 0 <= j < |files| ==> !IsFor(files[j], platform, arch)
    decreases |files|
  {
    if files == [] {
      i := -1;
    } else if IsFor(files[|files| - 1], platform, arch) {
      i := |files| - 1;
    } else {
      i := FoundSuits(files[..|files| - 1], platform, arch);
    }
  }

  /** On amd64, the newest platform gets just what the one before it gets, which older hosts can run. */
  lemma {:induction false} NewestRunsTheBaseline(files: seq<Build>, arch: Arch)
    requires arch.docker == "amd64"
    ensures UrlOf(files, "26.04", arch) == UrlOf(files, "24.04", arch)
    decreases |files|
  {
    if files != [] {
      NewestRunsTheBaseline(files[..|files| - 1], arch);
    }
  }

  predicate IsFirstOnLine(manifest: seq<Release>, minor: string, i: int) {
    && 0 <= i < |manifest| && OnLine(manifest[i], minor)
    && forall j :: 0 <= j < i ==> !OnLine(manifest[j], minor)
  }

  /** The release a line is given is the first in the manifest that is stable and on the line. */
  lemma {:induction false} FirstIsFirst(manifest: seq<Release>, minor: string)
    ensures match FirstOnLine(manifest, minor)
      case None => forall i :: 0 <= i < |manifest| ==> !OnLine(manifest[i], minor)
      case Some(rel) => exists i :: IsFirstOnLine(manifest, minor, i) && manifest[i] == rel
    decreases |manifest|
  {
    if manifest != [] && !OnLine(manifest[0], minor) {
      var rest := manifest[1..];
      FirstIsFirst(rest, minor);
      if FirstOnLine(rest, minor).Some? {
        var i :| IsFirstOnLine(rest, minor, i) && rest[i] == FirstOnLine(rest, minor).value;
        forall j | 0 <= j < i + 1 ensures !OnLine(manifest[j], minor) {
          assert j > 0 ==> manifest[j] == rest[j - 1];
        }
        assert IsFirstOnLine(manifest, minor, i + 1);
      }
    } else if manifest != [] {
      assert IsFirstOnLine(manifest, minor, 0);
    }
  }

  /** Every platform and architecture of a release has a build. */
  predicate AllBuilt(rel: Release, platforms: seq<string>, arches: seq<Arch>) {
    forall p, a :: p in platforms && a in arches ==> UrlOf(rel.files, p, a) != ""
  }

  /** The picks of a release: one for each platform and architecture, in their order. */
  function PicksOf(rel: Release, platforms: seq<string>, arches: seq<Arch>): seq<Pick> {
    if platforms == [] then []
    else PicksOf(rel, platforms[..|platforms| - 1], arches) + PicksOn(rel, platforms[|platforms| - 1], arches)
  }

  function PicksOn(rel: Release, platform: string, arches: seq<Arch>): seq<Pick> {
    if arches == [] then []
    else PicksOn(rel, platform, arches[..|arches| - 1]) + [PickFor(rel, platform, arches[|arches| - 1])]
  }

  method PickOn(rel: Release, platform: string, arches: seq<Arch>) returns (picks: Option<seq<Pick>>)
    ensures picks.Some? <==> AllBuilt(rel, [platform], arches)
    ensures picks.Some? ==> picks.value == PicksOn(rel, platform, arches)
  {
    var out: seq<Pick> := [];
    for i := 0 to |arches|
      invariant out == PicksOn(rel, platform, arches[..i])
      invariant forall k :: 0 <= k < i ==> UrlOf(rel.files, platform, arches[k]) != ""
    {
      TakeTake(arches, i + 1, i);
      var url := FindBuild(rel.files, platform, arches[i]);
      if url == "" {
        assert platform in [platform] && arches[i] in arches;
        return None;
      }
      out := out + [Pick(rel.version, platform, arches[i].docker, url)];
    }
    WholeSlice(arches);
    picks := Some(out);
  }

  method PickAll(rel: Release, platforms: seq<string>, arches: seq<Arch>) returns (picks: Option<seq<Pick>>)
    ensures picks.Some? <==> AllBuilt(rel, platforms, arches)
    ensures picks.Some? ==> picks.value == PicksOf(rel, platforms, arches)
  {
    var out: seq<Pick> := [];
    for i := 0 to |platforms|
      invariant out == PicksOf(rel, platforms[..i], arches)
      invariant forall k :: 0 <= k < i ==> AllBuilt(rel, [platforms[k]], arches)
    {
      TakeTake(platforms, i + 1, i);
      var more := PickOn(rel, platforms[i], arches);
      if more.None? {
        var p, a :| p in [platforms[i]] && a in arches && UrlOf(rel.files, p, a) == "";
        assert p in platforms;
        return None;
      }
      out := out + more.value;
    }
    forall p, a | p in platforms && a in arches ensures UrlOf(rel.files, p, a) != "" {
      var k :| 0 <= k < |platforms| && platforms[k] == p;
      assert AllBuilt(rel, [platforms[k]], arches) && p in [platforms[k]];
    }
    WholeSlice(platforms);
    picks := Some(out);
  }

  /** Every line has a stable release, with every build there has to be. */
  predicate Served(manifest: seq<Release>, minor: string, platforms: seq<string>, arches: seq<Arch>) {
    FirstOnLine(manifest, minor).Some? && AllBuilt(FirstOnLine(manifest, minor).value, platforms, arches)
  }

  function AllPicks(manifest: seq<Release>, minors: seq<string>, platforms: seq<string>, arches: seq<Arch>): seq<Pick> {
    if minors == [] then []
    else
      var rel := FirstOnLine(manifest, minors[|minors| - 1]);
      AllPicks(manifest, minors[..|minors| - 1], platforms, arches)
      + if rel.None? then [] else PicksOf(rel.value, platforms, arches)
  }

  method FindRelease(manifest: seq<Release>, minor: string) returns (rel: Option<Release>)
    ensures rel == FirstOnLine(manifest, minor)
  {
    WholeSlice(manifest);
    for i := 0 to |manifest|
      invariant FirstOnLine(manifest[i..], minor) == FirstOnLine(manifest, minor)
    {
      DropDrop(manifest, i, 1);
      if OnLine(manifest[i], minor) {
        return Some(manifest[i]);
      }
    }
    rel := None;
  }

  lemma AllPicksMore(manifest: seq<Release>, minors: seq<string>, i: nat, platforms: seq<string>, arches: seq<Arch>)
    requires i < |minors| && FirstOnLine(manifest, minors[i]).Some?
    ensures AllPicks(manifest, minors[..i + 1], platforms, arches)
         == AllPicks(manifest, minors[..i], platforms, arches)
            + PicksOf(FirstOnLine(manifest, minors[i]).value, platforms, arches)
  {
    TakeTake(minors, i + 1, i);
  }

  method PickLine(manifest: seq<Release>, minor: string, platforms: seq<string>, arches: seq<Arch>)
    returns (picks: Option<seq<Pick>>)
    ensures picks.Some? <==> Served(manifest, minor, platforms, arches)
    ensures picks.Some? ==> picks.value == PicksOf(FirstOnLine(manifest, minor).value, platforms, arches)
  {
    var rel := FindRelease(manifest, minor);
    if rel.None? {
      return None;
    }
    picks := PickAll(rel.value, platforms, arches);
  }

  /** The search of the manifest: it fails exactly when some line has no stable release or that release
      lacks a build, and otherwise picks an archive for every line, platform and architecture. */
  method Search(manifest: seq<Release>, minors: seq<string>, platforms: seq<string>, arches: seq<Arch>)
    returns (picks: Option<seq<Pick>>)
    ensures picks.Some? <==> forall m :: m in minors ==> Served(manifest, m, platforms, arches)
    ensures picks.Some? ==> picks.value == AllPicks(manifest, minors, platforms, arches)
  {
    var out: seq<Pick> := [];
    for i := 0 to |minors|
      invariant out == AllPicks(manifest, minors[..i], platforms, arches)
      invariant forall k :: 0 <= k < i ==> Served(manifest, minors[k], platforms, arches)
    {
      var more := PickLine(manifest, minors[i], platforms, arches);
      if more.None? {
        assert minors[i] in minors;
        return None;
      }
      AllPicksMore(manifest, minors, i, platforms, arches);
      out := out + more.value;
    }
    forall m | m in minors ensures Served(manifest, m, platforms, arches) {
      var k :| 0 <= k < |minors| && minors[k] == m;
    }
    WholeSlice(minors);
    picks := Some(out);
  }

  lemma {:induction false} PickedOn(rel: Release, platform: string, arches: seq<Arch>, p: Pick)
    ensures p in PicksOn(rel, platform, arches) <==> exists a :: a in arches && p == PickFor(rel, platform, a)
    decreases |arches|
  {
    if arches != [] {
      PickedOn(rel, platform, arches[..|arches| - 1], p);
      LastOff(arches);
    }
  }

  lemma {:induction false} PickedOf(rel: Release, platforms: seq<string>, arches: seq<Arch>, p: Pick)
    ensures p in PicksOf(rel, platforms, arches)
       <==> exists o, a :: o in platforms && a in arches && p == PickFor(rel, o, a)
    decreases |platforms|
  {
    if platforms != [] {
      PickedOf(rel, platforms[..|platforms| - 1], arches, p);
      PickedOn(rel, platforms[|platforms| - 1], arches, p);
      LastOff(platforms);
    }
  }

  /** The archive is what the newest stable release on a line gives for a platform and an architecture. */
  ghost predicate GivenBy(manifest: seq<Release>, minor: string, platforms: seq<string>, arches: seq<Arch>, p: Pick) {
    && FirstOnLine(manifest, minor).Some? && p.platform in platforms
    && var rel := FirstOnLine(manifest, minor).value;
      && p.version == rel.version
      && exists a :: a in arches && a.docker == p.arch && p.url == UrlOf(rel.files, p.platform, a)
  }

  lemma GivenByPick(manifest: seq<Release>, minor: string, platforms: seq<string>, arches: seq<Arch>, p: Pick)
    requires FirstOnLine(manifest, minor).Some?
    ensures GivenBy(manifest, minor, platforms, arches, p)
       <==> exists o, a :: o in platforms && a in arches && p == PickFor(FirstOnLine(manifest, minor).value, o, a)
  {
    var rel := FirstOnLine(manifest, minor).value;
    if GivenBy(manifest, minor, platforms, arches, p) {
      var a :| a in arches && a.docker == p.arch && p.url == UrlOf(rel.files, p.platform, a);
      assert p == PickFor(rel, p.platform, a);
    }
  }

  /** An archive is picked exactly when one of the lines gives it. */
  lemma {:induction false} PickedExactlyWhen(
    manifest: seq<Release>, minors: seq<string>, platforms: seq<string>, arches: seq<Arch>, p: Pick)
    ensures p in AllPicks(manifest, minors, platforms, arches)
       <==> exists m :: m in minors && GivenBy(manifest, m, platforms, arches, p)
    decreases |minors|
  {
    if minors != [] {
      var init, last := minors[..|minors| - 1], minors[|minors| - 1];
      PickedExactlyWhen(manifest, init, platforms, arches, p);
      LastOff(minors);
      if FirstOnLine(manifest, last).Some? {
        PickedOf(FirstOnLine(manifest, last).value, platforms, arches, p);
        GivenByPick(manifest, last, platforms, arches, p);
      }
      assert p in AllPicks(manifest, minors, platforms, arches)
        <==> p in AllPicks(manifest, init, platforms, arches) || GivenBy(manifest, last, platforms, arches, p);
    }
  }

  // ----- Regenerating -----

  /** A Python archive the manifest lists: the generator pins the ones already known as they are
      and hashes the others. Hashing the same URL twice can give two answers. */
  datatype Listed = Listed(version: string, platform: string, arch: string, url: string, hash: string)

  function Digest(l: Listed, known: Digests): string { if l.url in known then known[l.url] else l.hash }

  function PythonEntry(l: Listed, known: Digests): Entry {
    Entry("python", l.version, l.platform, l.arch, Digest(l, known), l.url)
  }

  function PythonEntries(listed: seq<Listed>, known: Digests): seq<Entry> {
    if listed == [] then [] else [PythonEntry(listed[0], known)] + PythonEntries(listed[1..], known)
  }

  function Listing(picks: seq<Pick>, hash: nat -> Option<string>): seq<Listed> {
    seq(|picks|, i requires 0 <= i < |picks| =>
      Listed(picks[i].version, picks[i].platform, picks[i].arch, picks[i].url, hash(i).Or("")))
  }

  /** Keep the digests that are known and hash the other archives, the i-th with the i-th answer. */
  method Pin(picks: seq<Pick>, known: Digests, hash: nat -> Option<string>) returns (out: Option<seq<Entry>>)
    ensures out.Some? <==> forall i :: 0 <= i < |picks| ==> picks[i].url in known || hash(i).Some?
    ensures out.Some? ==> out.value == PythonEntries(Listing(picks, hash), known)
  {
    var es: seq<Entry> := [];
    ghost var listed := Listing(picks, hash);
    WholeSlice(listed);
    for i := 0 to |picks|
      invariant es + PythonEntries(listed[i..], known) == PythonEntries(listed, known)
      invariant forall k :: 0 <= k < i ==> picks[k].url in known || hash(k).Some?
    {
      var p := picks[i];
      var digest := "";
      if p.url in known {
        digest := known[p.url];
      } else if hash(i).None? {
        return None;
      } else {
        digest := hash(i).value;
      }
      DropDrop(listed, i, 1);
      var e := Entry("python", p.version, p.platform, p.arch, digest, p.url);
      ConcatAssociates(es, [e], PythonEntries(listed[i + 1..], known));
      es := es + [e];
    }
    ConcatNothing(es);
    out := Some(es);
  }

  /** `python`: search the manifest, and pin what was picked. */
  method Python(manifest: seq<Release>, platforms: seq<string>, known: Digests, hash: nat -> Option<string>)
    returns (out: Option<seq<Entry>>)
    ensures var picks := AllPicks(manifest, MINORS, platforms, ARCHES);
      && (out.Some? <==>
            && (forall m :: m in MINORS ==> Served(manifest, m, platforms, ARCHES))
            && (forall i :: 0 <= i < |picks| ==> picks[i].url in known || hash(i).Some?))
      && (out.Some? ==> out.value == PythonEntries(Listing(picks, hash), known))
      && (out.Some? ==> |out.value| == |picks| && forall i :: 0 <= i < |picks| ==>
            PinsPick(out.value[i], picks[i], known, hash(i)))
  {
    var picks := Search(manifest, MINORS, platforms, ARCHES);
    if picks.None? {
      return None;
    }
    out := Pin(picks.value, known, hash);
    PythonEntriesAt(Listing(picks.value, hash), known);
  }

  /** An entry for an archive that was picked: its own words, and the digest it had or now gets. */
  predicate PinsPick(e: Entry, p: Pick, known: Digests, hash: Option<string>) {
    && e.tool == "python" && e.version == p.version && e.platform == p.platform && e.arch == p.arch && e.url == p.url
    && if p.url in known then e.digest == known[p.url] else hash == Some(e.digest)
  }

  /** One run of the generator: what the manifest lists and what the other publishers give. */
  datatype Generation = Generation(listed: seq<Listed>, others: seq<Entry>)

  function Entries(g: Generation, known: Digests): seq<Entry> { PythonEntries(g.listed, known) + g.others }

  function Regenerated(header: seq<string>, lock: string, g: Generation): string {
    Lock(header, Entries(g, Known(lock)))
  }

  function AllRegenerated(header: seq<string>, lock: string, gs: seq<Generation>): string
    decreases |gs|
  {
    if gs == [] then lock else AllRegenerated(header, Regenerated(header, lock, gs[0]), gs[1..])
  }

  /** The URL stays listed, and no other publisher uses it. */
  predicate StaysListed(url: string, g: Generation) {
    && (exists i :: 0 <= i < |g.listed| && g.listed[i].url == url)
    && (forall i :: 0 <= i < |g.others| ==> g.others[i].url != url)
  }

  /** Entries that give a URL one digest, or leave it alone, say just that of it. */
  lemma {:induction false} PinnedSays(known: Digests, es: seq<Entry>, url: string, digest: string)
    requires digest != "-" && forall i :: 0 <= i < |es| && es[i].url == url ==> es[i].digest == digest
    requires (url in known && known[url] == digest) || exists i :: 0 <= i < |es| && es[i].url == url
    ensures url in Pinned(known, es) && Pinned(known, es)[url] == digest
    decreases |es|
  {
    if es != [] {
      var next := if es[0].digest == "-" then known else known[es[0].url := es[0].digest];
      var rest := es[1..];
      assert forall i :: 0 <= i < |rest| ==> rest[i] == es[i + 1];
      if es[0].url != url && !(url in known && known[url] == digest) {
        var i :| 0 <= i < |es| && es[i].url == url;
        assert rest[i - 1].url == url;
      }
      PinnedSays(next, rest, url, digest);
    }
  }

  lemma {:induction false} PythonEntriesAt(listed: seq<Listed>, known: Digests)
    ensures |PythonEntries(listed, known)| == |listed|
    ensures forall i :: 0 <= i < |listed| ==> PythonEntries(listed, known)[i] == PythonEntry(listed[i], known)
    decreases |listed|
  {
    if listed != [] {
      PythonEntriesAt(listed[1..], known);
    }
  }

  /** No digest read from a lock is the placeholder. */
  lemma {:induction false} KnownAreDigests(known: Digests, lines: seq<string>)
    requires forall u :: u in known ==> known[u] != "-"
    ensures forall u :: u in LearnAll(known, lines) ==> LearnAll(known, lines)[u] != "-"
    decreases |lines|
  {
    if lines != [] {
      KnownAreDigests(Learn(known, lines[0]), lines[1..]);
    }
  }

  lemma DigestKept(header: seq<string>, lock: string, g: Generation, url: string)
    requires Comments(header) && AllWellFormed(Entries(g, Known(lock))) && StaysListed(url, g) && url in Known(lock)
    ensures var again := Known(Regenerated(header, lock, g)); url in again && again[url] == Known(lock)[url]
  {
    var known := Known(lock);
    var es := Entries(g, known);
    LockReadsBack(header, es);
    PythonEntriesAt(g.listed, known);
    KnownAreDigests(map[], Scanned(Split(lock, '\n')));
    var i :| 0 <= i < |g.listed| && g.listed[i].url == url;
    assert es[i].url == url;
    PinnedSays(map[], es, url, known[url]);
  }

  /** Every generation is well formed as it runs, and the URL stays listed all along. */
  predicate KeepsListing(header: seq<string>, lock: string, gs: seq<Generation>, url: string)
    decreases |gs|
  {
    gs == [] || (
      && AllWellFormed(Entries(gs[0], Known(lock))) && StaysListed(url, gs[0])
      && KeepsListing(header, Regenerated(header, lock, gs[0]), gs[1..], url))
  }

  /** Over any number of regenerations, a Python archive keeps the digest it was pinned with. */
  lemma {:induction false} DigestKeptForever(header: seq<string>, lock: string, gs: seq<Generation>, url: string)
    requires Comments(header) && url in Known(lock) && KeepsListing(header, lock, gs, url)
    ensures var again := Known(AllRegenerated(header, lock, gs)); url in again && again[url] == Known(lock)[url]
    decreases |gs|
  {
    if gs != [] {
      DigestKept(header, lock, gs[0], url);
      DigestKeptForever(header, Regenerated(header, lock, gs[0]), gs[1..], url);
    }
  }

  // ----- The newest Maven -----

  /** `atoi` stands for strconv.Atoi with its error ignored. */
  function Numbers(parts: seq<string>, atoi: string -> int): seq<int> {
    if parts == [] then [] else [atoi(parts[0])] + Numbers(parts[1..], atoi)
  }

  function Parts(v: string, atoi: string -> int): seq<int> { Numbers(Split(v, '.'), atoi) }

  /** The dictionary order, a shorter one first. */
  predicate Before(x: seq<int>, y: seq<int>) {
    y != [] && (x == [] || x[0] < y[0] || (x[0] == y[0] && Before(x[1..], y[1..])))
  }

  lemma {:induction false} NumbersAt(parts: seq<string>, atoi: string -> int)
    ensures |Numbers(parts, atoi)| == |parts|
    ensures forall i :: 0 <= i < |parts| ==> Numbers(parts, atoi)[i] == atoi(parts[i])
    decreases |parts|
  {
    if parts != [] {
      NumbersAt(parts[1..], atoi);
    }
  }

  lemma BeforeAt(x: seq<int>, y: seq<int>, i: nat)
    requires i < |x| && i < |y|
    ensures Before(x[i..], y[i..]) <==> x[i] < y[i] || (x[i] == y[i] && Before(x[i + 1..], y[i + 1..]))
  {
    DropDrop(x, i, 1);
    DropDrop(y, i, 1);
  }

  method VersionLess(a: string, b: string, atoi: string -> int) returns (less: bool)
    ensures less <==> Before(Parts(a, atoi), Parts(b, atoi))
  {
    var xs, ys := Split(a, '.'), Split(b, '.');
    ghost var nx, ny := Numbers(xs, atoi), Numbers(ys, atoi);
    NumbersAt(xs, atoi);
    NumbersAt(ys, atoi);
    WholeSlice(nx);
    WholeSlice(ny);
    var i := 0;
    while i < |xs| && i < |ys|
      invariant i <= |xs| && i <= |ys|
      invariant Before(nx, ny) <==> Before(nx[i..], ny[i..])
    {
      var x, y := atoi(xs[i]), atoi(ys[i]);
      BeforeAt(nx, ny, i);
      if x != y {
        return x < y;
      }
      i := i + 1;
    }
    less := |xs| < |ys|;
  }

  lemma {:induction false} BeforeIsStrict(x: seq<int>)
    ensures !Before(x, x)
  {
    if x != [] {
      BeforeIsStrict(x[1..]);
    }
  }

  lemma {:induction false} BeforeIsTransitive(x: seq<int>, y: seq<int>, z: seq<int>)
    requires Before(x, y) && Before(y, z)
    ensures Before(x, z)
    decreases |x|
  {
    if x != [] && x[0] == y[0] && y[0] == z[0] {
      BeforeIsTransitive(x[1..], y[1..], z[1..]);
    }
  }

  lemma {:induction false} BeforeIsTotal(x: seq<int>, y: seq<int>)
    ensures Before(x, y) || Before(y, x) || x == y
    decreases |x|
  {
    if x != [] && y != [] && x[0] == y[0] {
      BeforeIsTotal(x[1..], y[1..]);
      FirstOff(x);
      FirstOff(y);
    }
  }

  predicate NotBefore(a: string, b: string, atoi: string -> int) { !Before(Parts(a, atoi), Parts(b, atoi)) }

  /** Versions are strictly weakly ordered: not being less is transitive, and so is being tied. */
  lemma VersionsWeaklyOrdered(a: string, b: string, c: string, atoi: string -> int)
    ensures NotBefore(a, a, atoi)
    ensures NotBefore(a, b, atoi) && NotBefore(b, c, atoi) ==> NotBefore(a, c, atoi)
    ensures NotBefore(a, b, atoi) || NotBefore(b, a, atoi)
  {
    var x, y, z := Parts(a, atoi), Parts(b, atoi), Parts(c, atoi);
    BeforeIsStrict(x);
    BeforeIsTotal(x, y);
    BeforeIsTotal(y, z);
    if Before(x, z) && Before(y, x) {
      BeforeIsTransitive(y, x, z);
    }
    if Before(x, y) && Before(y, x) {
      BeforeIsTransitive(x, y, x);
    }
  }

  /** The selection loop of `maven`: the greatest stable version, or nothing when there is none. */
  method NewestStable(versions: seq<string>, stable: string -> bool, atoi: string -> int) returns (best: string)
    requires !stable("")
    ensures best == "" <==> forall i :: 0 <= i < |versions| ==> !stable(versions[i])
    ensures best != "" ==> best in versions && stable(best)
    ensures forall i :: 0 <= i < |versions| && stable(versions[i]) ==> NotBefore(best, versions[i], atoi)
  {
    best := "";
    for i := 0 to |versions|
      invariant best == "" <==> forall k :: 0 <= k < i ==> !stable(versions[k])
      invariant best != "" ==> best in versions && stable(best)
      invariant forall k :: 0 <= k < i && stable(versions[k]) ==> NotBefore(best, versions[k], atoi)
    {
      var v := versions[i];
      if stable(v) {
        var take := best == "";
        if best != "" {
          take := VersionLess(best, v, atoi);
        }
        if take {
          TakesOver(versions, i, best, v, stable, atoi);
          best := v;
        }
      }
    }
  }

  lemma TakesOver(versions: seq<string>, i: nat, best: string, v: string, stable: string -> bool, atoi: string -> int)
    requires i <= |versions| && (best != "" ==> !NotBefore(best, v, atoi))
    requires best == "" ==> forall k :: 0 <= k < i ==> !stable(versions[k])
    requires forall k :: 0 <= k < i && stable(versions[k]) ==> NotBefore(best, versions[k], atoi)
    ensures NotBefore(v, v, atoi)
    ensures forall k :: 0 <= k < i && stable(versions[k]) ==> NotBefore(v, versions[k], atoi)
  {
    VersionsWeaklyOrdered(v, best, v, atoi);
    forall k | 0 <= k < i && stable(versions[k]) ensures NotBefore(v, versions[k], atoi) {
      VersionsWeaklyOrdered(v, best, versions[k], atoi);
    }
  }
}
