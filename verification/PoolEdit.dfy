/** `zoomies pools edit` promises that what is not named is left alone. The API replaces each
    composite setting whole, so the command reads the pool and carries the rest of it forward.
    What an edit does to every setting, and exactly when the promise is kept. */
module PoolEdit {
  import RunnerImage
  import opened Text
  import opened Wrappers

  /** The parts of a runner's size. */
  datatype Part = Cpus | Memory | Disk | Pids | Share | CpuShare | MemoryShare | MinCpus | MinMemory

  const PARTS: seq<Part> := [Cpus, Memory, Disk, Share, CpuShare, MemoryShare, Pids, MinCpus, MinMemory]

  /** A size as it is sent and stored: an absent part is zero. */
  type Size = map<Part, real>

  datatype CpuBurst = CpuBurst(mode: string, max: real, sizeForCeiling: Option<bool>)

  datatype MemoryBurst = MemoryBurst(mode: string, max: int, spill: int)

  datatype Mount = Mount(enabled: bool, size: int, auto: bool)

  datatype Tmpfs = Tmpfs(work: Mount, tmp: Mount, daemon: Mount)

  datatype Cache = Cache(enabled: bool, scope: string, size: int, source: string, repository: string)

  datatype Platform = Platform(os: string, version: string, arch: string)

  /** A setting that is one value, as it is sent: given, or handed back to the fleet. */
  datatype Value = Given(text: string) | HandedBack

  type Plain = map<string, Value>

  /** The settings a pool can hand back to the fleet, by saying nothing for them. */
  const OVERRIDES: set<string> :=
    {"provision_timeout", "drain_timeout", "max_runner_lifetime", "scale_up_delay", "docker_wait"}

  // The two settings that hang together: the image has to hold a client for the daemon the mode gives.

  const IMAGE := "image"

  const DOCKER_MODE := "docker_mode"

  datatype Pool = Pool(
    size: Size, fromHost: bool, cpu: CpuBurst, memory: MemoryBurst, tmpfs: Tmpfs, cache: Cache, platform: Platform,
    plain: Plain)

  // The flags, as far as they were typed.

  datatype SizeFlags = SizeFlags(parts: map<Part, real>, fromHost: Option<bool>) {
    predicate ToHost() { fromHost == Some(true) }

    predicate Sent() { ToHost() || parts != map[] }

    /** The two ways of saying how big a runner is, together. */
    predicate Refused() {
      ToHost() && ((Cpus in parts && parts[Cpus] > 0.0) || (Memory in parts && parts[Memory] > 0.0))
    }

    /** Whether going to the host's size clears the part. */
    predicate Clears(p: Part) { ToHost() && (p == Cpus || p == Memory) }
  }

  datatype CpuFlags = CpuFlags(mode: Option<string>, max: Option<real>, sizeBuilds: Option<bool>) {
    predicate Sent() { mode.Some? || max.Some? || sizeBuilds.Some? }
  }

  datatype MemoryFlags = MemoryFlags(mode: Option<string>, max: Option<int>, spill: Option<int>) {
    predicate Sent() { mode.Some? || max.Some? || spill.Some? }
  }

  datatype MountFlags = MountFlags(on: Option<bool>, size: Option<int>) {
    predicate Typed() { on.Some? || size.Some? }
  }

  datatype TmpfsFlags = TmpfsFlags(work: MountFlags, tmp: MountFlags, daemon: MountFlags, auto: Option<bool>) {
    predicate Sent() { work.Typed() || tmp.Typed() || daemon.Typed() || auto.Some? }
  }

  datatype CacheFlags = CacheFlags(
    enabled: Option<bool>, scope: Option<string>, size: Option<int>, source: Option<string>, repository: Option<string>)
  {
    predicate Sent() { enabled.Some? || scope.Some? || size.Some? || source.Some? || repository.Some? }
  }

  datatype PlatformFlags = PlatformFlags(os: Option<string>, version: Option<string>, arch: Option<string>) {
    predicate Sent() { os.Some? || version.Some? || arch.Some? }
  }

  datatype Flags = Flags(
    size: SizeFlags, cpu: CpuFlags, memory: MemoryFlags, tmpfs: TmpfsFlags, cache: CacheFlags, platform: PlatformFlags,
    plain: map<string, string>)
  {
    /** Nothing at all was typed. */
    predicate Nothing() {
      && !size.Sent() && size.fromHost.None? && !cpu.Sent() && !memory.Sent() && !tmpfs.Sent() && !cache.Sent()
      && !platform.Sent() && plain == map[]
    }

    /** Refused before anything is sent. */
    predicate Refused() { size.Refused() || Nothing() }
  }

  /** How the API tidies words: trimmed, trimmed and lower-cased, as an operating system or an architecture
      it knows, and by setting. And which tags the build knows to be published for both runner images. */
  datatype Tidy = Tidy(
    trim: string -> string, lower: string -> string, os: string -> string, arch: string -> string,
    plain: (string, Value) -> Value, published: string -> bool)

  // ----- What an edit means, setting by setting -----

  function Get(size: Size, p: Part): real { if p in size then size[p] else 0.0 }

  function PartAfter(f: SizeFlags, before: Size, p: Part): real {
    var v := if p in f.parts then f.parts[p] else Get(before, p);
    if !f.Sent() then Get(before, p) else if f.Clears(p) || v <= 0.0 then 0.0 else v
  }

  function CpuAfter(f: CpuFlags, before: CpuBurst, tidy: Tidy): CpuBurst {
    if !f.Sent() then before
    else CpuBurst(tidy.lower(f.mode.Or(before.mode)), f.max.Or(before.max),
                  if f.sizeBuilds.Some? then f.sizeBuilds else before.sizeForCeiling)
  }

  predicate IsOff(mode: string) { mode == "" || mode == "off" }

  function MemoryAfter(f: MemoryFlags, before: MemoryBurst, tidy: Tidy): MemoryBurst {
    if !f.Sent() then before
    else
      var mode := f.mode.Or(before.mode);
      MemoryBurst(tidy.lower(mode), f.max.Or(before.max), f.spill.Or(if IsOff(mode) then 0 else before.spill))
  }

  function MountAfter(f: MountFlags, auto: Option<bool>, before: Mount): Mount {
    var size := f.size.Or(before.size);
    Mount(f.on.Or(before.enabled), if size > 0 then size else 0, f.on.Or(before.enabled) && auto.Or(before.auto))
  }

  function TmpfsAfter(f: TmpfsFlags, before: Tmpfs): Tmpfs {
    if !f.Sent() then before
    else Tmpfs(MountAfter(f.work, f.auto, before.work), MountAfter(f.tmp, f.auto, before.tmp),
               MountAfter(f.daemon, f.auto, before.daemon))
  }

  function CacheAfter(f: CacheFlags, before: Cache, tidy: Tidy): Cache {
    if !f.Sent() then before
    else Cache(f.enabled.Or(false), f.scope.Or("pool"), f.size.Or(0), tidy.trim(f.source.Or("")), f.repository.Or(""))
  }

  function PlatformAfter(f: PlatformFlags, before: Platform, tidy: Tidy): Platform {
    if !f.Sent() then before
    else Platform(tidy.os(f.os.Or("")), tidy.trim(f.version.Or("")), tidy.arch(f.arch.Or("")))
  }

  function SentValue(name: string, text: string): Value {
    if name in OVERRIDES && TrimSpace(text) == "" then HandedBack else Given(text)
  }

  /** As typed, or as it stands. */
  function Settled(f: map<string, string>, before: Plain, n: string, tidy: Tidy): Value
    requires n in f || n in before
  {
    if n in f then tidy.plain(n, SentValue(n, f[n])) else before[n]
  }

  predicate GivesDaemon(mode: Value) { mode == Given("dind") || mode == Given("host-socket") }

  /** Whether jobs get a Docker daemon once the edit is applied. */
  predicate DaemonAfter(f: map<string, string>, before: Plain, tidy: Tidy) {
    (DOCKER_MODE in f || DOCKER_MODE in before) && GivesDaemon(Settled(f, before, DOCKER_MODE, tidy))
  }

  /** The image that is run: the stock one is moved to its Docker variant where jobs get a daemon. */
  function ImageFor(image: Value, daemon: bool, tidy: Tidy): Value {
    if image.Given? then Given(RunnerImage.RunnerImageFor(image.text, daemon, tidy.published)) else image
  }

  /** Only what was typed changes, but for the image, which follows the Docker mode as well. */
  ghost predicate PlainEdited(f: map<string, string>, before: Plain, after: Plain, tidy: Tidy) {
    && after.Keys == before.Keys + f.Keys
    && (forall n :: n in after && n != IMAGE ==> after[n] == Settled(f, before, n, tidy))
    && (IMAGE in after ==>
      after[IMAGE] == ImageFor(Settled(f, before, IMAGE, tidy), DaemonAfter(f, before, tidy), tidy))
  }

  /** What an edit makes of a pool, setting by setting, when it was built on the pool as it was read and
      came to the pool as it was by then. */
  ghost predicate IsPatchedOn(f: Flags, read: Pool, now: Pool, after: Pool, tidy: Tidy) {
    && (forall p :: Get(after.size, p) == if f.size.Sent() then PartAfter(f.size, read.size, p) else Get(now.size, p))
    && after.fromHost == f.size.fromHost.Or(now.fromHost)
    && after.cpu == (if f.cpu.Sent() then CpuAfter(f.cpu, read.cpu, tidy) else now.cpu)
    && after.memory == (if f.memory.Sent() then MemoryAfter(f.memory, read.memory, tidy) else now.memory)
    && after.tmpfs == (if f.tmpfs.Sent() then TmpfsAfter(f.tmpfs, read.tmpfs) else now.tmpfs)
    && after.cache == CacheAfter(f.cache, now.cache, tidy)
    && after.platform == PlatformAfter(f.platform, now.platform, tidy)
    && PlainEdited(f.plain, now.plain, after.plain, tidy)
  }

  /** The pool an edit leaves that nobody else got in the way of. */
  ghost predicate IsEdited(f: Flags, before: Pool, after: Pool, tidy: Tidy) {
    IsPatchedOn(f, before, before, after, tidy)
  }

  // ----- The command: read if need be, build one request, let the API replace -----

  /** The request: an absent setting is left alone, a present one replaces. */
  datatype Body = Body(
    size: Option<Size>, fromHost: Option<bool>, cpu: Option<CpuBurst>, memory: Option<MemoryBurst>,
    tmpfs: Option<Tmpfs>, cache: Option<Cache>, platform: Option<Platform>, plain: Plain)
  {
    predicate Empty() {
      && size.None? && fromHost.None? && cpu.None? && memory.None? && tmpfs.None? && cache.None? && platform.None?
      && plain == map[]
    }
  }

  ghost predicate IsAbove(out: Size, p: Part, v: real) { Get(out, p) == if v > 0.0 then v else 0.0 }

  function Chosen(f: SizeFlags, current: Size, p: Part): real {
    if p in f.parts then f.parts[p] else Get(current, p)
  }

  /** `resources`: every part as typed or as it stands, written only when above zero. */
  method Resources(f: SizeFlags, current: Size) returns (out: Size)
    ensures forall p :: IsAbove(out, p, Chosen(f, current, p))
  {
    out := map[];
    for i := 0 to |PARTS|
      invariant forall p :: p in PARTS[..i] ==> IsAbove(out, p, Chosen(f, current, p))
      invariant forall p :: p in out ==> p in PARTS[..i]
    {
      var p := PARTS[i];
      var v := Get(current, p);
      if p in f.parts {
        v := f.parts[p];
      }
      if v > 0.0 {
        out := out[p := v];
      }
      assert PARTS[..i + 1] == PARTS[..i] + [p];
    }
    assert PARTS[..|PARTS|] == PARTS;
    forall p ensures IsAbove(out, p, Chosen(f, current, p)) {
      PartIsListed(p);
    }
  }

  lemma PartIsListed(p: Part)
    ensures p in PARTS
  {
    assert PARTS[0] == Cpus && PARTS[1] == Memory && PARTS[2] == Disk && PARTS[3] == Share && PARTS[4] == CpuShare;
    assert PARTS[5] == MemoryShare && PARTS[6] == Pids && PARTS[7] == MinCpus && PARTS[8] == MinMemory;
  }

  method SizeBody(f: SizeFlags, current: Size) returns (size: Option<Size>)
    ensures size.Some? <==> f.Sent()
    ensures size.Some? ==> forall p :: Get(size.value, p) == PartAfter(f, current, p)
  {
    size := None;
    if f.ToHost() {
      var out := Resources(f, current);
      forall p ensures Get(out - {Cpus, Memory}, p) == PartAfter(f, current, p) {
        assert IsAbove(out, p, Chosen(f, current, p));
      }
      size := Some(out - {Cpus, Memory});
    } else if f.parts != map[] {
      var out := Resources(f, current);
      forall p ensures Get(out, p) == PartAfter(f, current, p) {
        assert IsAbove(out, p, Chosen(f, current, p));
      }
      size := Some(out);
    }
  }

  method CpuBody(f: CpuFlags, current: CpuBurst, ghost tidy: Tidy) returns (burst: Option<CpuBurst>)
    ensures burst.Some? <==> f.Sent()
    ensures burst.Some? ==> burst.value.(mode := tidy.lower(burst.value.mode)) == CpuAfter(f, current, tidy)
  {
    if f.mode.None? && f.max.None? && f.sizeBuilds.None? { return None; }
    var mode, ceiling := current.mode, current.max;
    if f.mode.Some? { mode := f.mode.value; }
    if f.max.Some? { ceiling := f.max.value; }
    var out := CpuBurst(mode, ceiling, None);
    if f.sizeBuilds.Some? {
      out := out.(sizeForCeiling := f.sizeBuilds);
    } else if current.sizeForCeiling.Some? {
      out := out.(sizeForCeiling := current.sizeForCeiling);
    }
    burst := Some(out);
  }

  method MemoryBody(f: MemoryFlags, current: MemoryBurst, ghost tidy: Tidy) returns (burst: Option<MemoryBurst>)
    ensures burst.Some? <==> f.Sent()
    ensures burst.Some? ==> burst.value.(mode := tidy.lower(burst.value.mode)) == MemoryAfter(f, current, tidy)
  {
    if f.mode.None? && f.max.None? && f.spill.None? { return None; }
    var mode, ceiling, spill := current.mode, current.max, current.spill;
    if f.mode.Some? { mode := f.mode.value; }
    if f.max.Some? { ceiling := f.max.value; }
    if f.spill.Some? {
      spill := f.spill.value;
    } else if mode == "" || mode == "off" {
      spill := 0;
    }
    burst := Some(MemoryBurst(mode, ceiling, spill));
  }

  method MountBody(f: MountFlags, typedAuto: Option<bool>, current: Mount) returns (mount: Mount)
    ensures mount == MountAfter(f, typedAuto, current)
  {
    var enabled, mb, auto := current.enabled, current.size, current.auto;
    if typedAuto.Some? { auto := typedAuto.value; }
    if f.on.Some? { enabled := f.on.value; }
    if f.size.Some? { mb := f.size.value; }
    mount := Mount(enabled, 0, false);
    if mb > 0 { mount := mount.(size := mb); }
    if enabled && auto { mount := mount.(auto := true); }
  }

  method TmpfsBody(f: TmpfsFlags, current: Tmpfs) returns (tmpfs: Option<Tmpfs>)
    ensures tmpfs == if f.Sent() then Some(TmpfsAfter(f, current)) else None
  {
    if !f.Sent() { return None; }
    var work := MountBody(f.work, f.auto, current.work);
    var tmp := MountBody(f.tmp, f.auto, current.tmp);
    var daemon := MountBody(f.daemon, f.auto, current.daemon);
    tmpfs := Some(Tmpfs(work, tmp, daemon));
  }

  /** The single-valued settings of a pool, with the ones that were sent in their place. */
  function Merged(now: Plain, sent: Plain, tidy: Tidy): Plain {
    map n | n in now.Keys + sent.Keys :: if n in sent then tidy.plain(n, sent[n]) else now[n]
  }

  /** The last thing the API does with a patch: the image the pool's mode calls for. */
  function Equipped(plain: Plain, tidy: Tidy): Plain {
    if IMAGE !in plain then plain
    else plain[IMAGE := ImageFor(plain[IMAGE], DOCKER_MODE in plain && GivesDaemon(plain[DOCKER_MODE]), tidy)]
  }

  /** The API's side of a patch. */
  function Patched(pool: Pool, body: Body, tidy: Tidy): Pool {
    Pool(body.size.Or(pool.size), body.fromHost.Or(pool.fromHost),
         if body.cpu.None? then pool.cpu else body.cpu.value.(mode := tidy.lower(body.cpu.value.mode)),
         if body.memory.None? then pool.memory else body.memory.value.(mode := tidy.lower(body.memory.value.mode)),
         body.tmpfs.Or(pool.tmpfs),
         if body.cache.None? then pool.cache else body.cache.value.(source := tidy.trim(body.cache.value.source)),
         if body.platform.None? then pool.platform else
           var p := body.platform.value;
           Platform(tidy.os(p.os), tidy.trim(p.version), tidy.arch(p.arch)),
         Equipped(Merged(pool.plain, body.plain, tidy), tidy))
  }

  const NO_MOUNT := Mount(false, 0, false)

  /** What the command builds on when it has not read the pool. */
  const UNREAD := Pool(map[], false, CpuBurst("", 0.0, None), MemoryBurst("", 0, 0),
                       Tmpfs(NO_MOUNT, NO_MOUNT, NO_MOUNT), Cache(false, "", 0, "", ""), Platform("", "", ""), map[])

  /** The single-valued settings, as far as they were typed. */
  method PlainBody(typed: map<string, string>) returns (plain: Plain)
    ensures plain.Keys == typed.Keys && forall n :: n in typed ==> plain[n] == SentValue(n, typed[n])
  {
    plain := map[];
    var left := typed.Keys;
    while left != {}
      invariant left <= typed.Keys && plain.Keys == typed.Keys - left
      invariant forall n :: n in plain ==> plain[n] == SentValue(n, typed[n])
      decreases |left|
    {
      var n :| n in left;
      left := left - {n};
      if n in OVERRIDES && TrimSpace(typed[n]) == "" {
        plain := plain[n := HandedBack];
      } else {
        plain := plain[n := Given(typed[n])];
      }
    }
  }

  /** The request holds a setting just when it was typed. */
  predicate HoldsTyped(f: Flags, body: Body) {
    && body.fromHost == f.size.fromHost
    && (body.size.Some? <==> f.size.Sent()) && (body.cpu.Some? <==> f.cpu.Sent())
    && (body.memory.Some? <==> f.memory.Sent()) && (body.tmpfs.Some? <==> f.tmpfs.Sent())
    && (body.cache.Some? <==> f.cache.Sent()) && (body.platform.Some? <==> f.platform.Sent())
    && body.plain.Keys == f.plain.Keys
  }

  /** And it makes of any pool what the edit means. */
  ghost predicate IsBody(f: Flags, read: Pool, body: Body, tidy: Tidy) {
    HoldsTyped(f, body) && forall now :: IsPatchedOn(f, read, now, Patched(now, body, tidy), tidy)
  }

  /** Which means that what was typed arrives, in whatever pool it comes to. */
  lemma BodyArrives(f: Flags, read: Pool, body: Body, now: Pool, tidy: Tidy)
    requires IsBody(f, read, body, tidy)
    ensures Arrived(f, Patched(now, body, tidy), tidy)
  {
    TypedArrives(f, read, now, Patched(now, body, tidy), tidy);
  }

  lemma PlainPatched(f: map<string, string>, body: Plain, now: Plain, after: Plain, tidy: Tidy)
    requires body.Keys == f.Keys && forall n :: n in f ==> body[n] == SentValue(n, f[n])
    requires after == Equipped(Merged(now, body, tidy), tidy)
    ensures PlainEdited(f, now, after, tidy)
  {
  }

  /** The cache goes whole, with the flags' defaults for what was not typed. */
  method CacheBody(f: CacheFlags) returns (cache: Option<Cache>)
    ensures cache.Some? <==> f.Sent()
    ensures cache.Some? ==> forall before, tidy: Tidy ::
      cache.value.(source := tidy.trim(cache.value.source)) == CacheAfter(f, before, tidy)
  {
    cache := None;
    if f.Sent() {
      cache := Some(Cache(f.enabled.Or(false), f.scope.Or("pool"), f.size.Or(0), f.source.Or(""), f.repository.Or("")));
    }
  }

  method PlatformBody(f: PlatformFlags) returns (platform: Option<Platform>)
    ensures platform == if f.Sent() then Some(Platform(f.os.Or(""), f.version.Or(""), f.arch.Or(""))) else None
  {
    platform := None;
    if f.Sent() {
      platform := Some(Platform(f.os.Or(""), f.version.Or(""), f.arch.Or("")));
    }
  }

  /** `poolSpec.body` for an edit. */
  method BuildBody(f: Flags, read: Pool, ghost tidy: Tidy) returns (body: Body)
    ensures IsBody(f, read, body, tidy)
  {
    var cache := CacheBody(f.cache);
    var platform := PlatformBody(f.platform);
    var plain := PlainBody(f.plain);
    var size := SizeBody(f.size, read.size);
    var cpu := CpuBody(f.cpu, read.cpu, tidy);
    var memory := MemoryBody(f.memory, read.memory, tidy);
    var tmpfs := TmpfsBody(f.tmpfs, read.tmpfs);
    body := Body(size, f.size.fromHost, cpu, memory, tmpfs, cache, platform, plain);
    forall now ensures IsPatchedOn(f, read, now, Patched(now, body, tidy), tidy) {
      PlainPatched(f.plain, body.plain, now.plain, Patched(now, body, tidy).plain, tidy);
    }
  }

  /** `poolsEdit`: refused, or a request that makes every setting what the flags mean, of the pool as it
      was read and whatever the pool is by then. The pool is read only when the guard says so, so the
      guard covers every setting that is carried forward. */
  method Edit(f: Flags, pool: Pool, ghost tidy: Tidy) returns (body: Option<Body>)
    ensures body.None? <==> f.Refused()
    ensures body.Some? ==> forall now :: IsPatchedOn(f, pool, now, Patched(now, body.value, tidy), tidy)
    ensures body.Some? ==> forall now :: Arrived(f, Patched(now, body.value, tidy), tidy)
  {
    if f.size.Refused() { return None; }
    var read := UNREAD;
    if f.size.parts != map[] || f.size.fromHost.Some? || f.cpu.Sent() || f.memory.Sent() || f.tmpfs.Sent() {
      read := pool;
    }
    var b := BuildBody(f, read, tidy);
    if b.Empty() {
      assert f.plain.Keys == {} && f.plain == map[];
      return None;
    }
    assert f.Nothing() ==> b.plain.Keys == {} && b.plain == map[];
    forall now ensures IsPatchedOn(f, pool, now, Patched(now, b, tidy), tidy) {
      assert IsPatchedOn(f, read, now, Patched(now, b, tidy), tidy);
    }
    forall now ensures Arrived(f, Patched(now, b, tidy), tidy) {
      TypedArrives(f, pool, now, Patched(now, b, tidy), tidy);
    }
    body := Some(b);
  }

  // ----- What was typed arrives -----

  /** Each part as typed when above zero, unless the pool goes to the host's size and the part with it. */
  ghost predicate SizeArrived(f: SizeFlags, after: Pool) {
    && (forall p :: p in f.parts && !(f.fromHost == Some(true) && p in {Cpus, Memory}) ==>
          if f.parts[p] > 0.0 then Get(after.size, p) == f.parts[p] else Get(after.size, p) == 0.0)
    && (f.fromHost == Some(true) ==> Get(after.size, Cpus) == 0.0 && Get(after.size, Memory) == 0.0)
    && (f.fromHost.Some? ==> after.fromHost == f.fromHost.value)
  }

  predicate BurstsArrived(f: Flags, after: Pool, tidy: Tidy) {
    && (f.cpu.mode.Some? ==> after.cpu.mode == tidy.lower(f.cpu.mode.value))
    && (f.cpu.max.Some? ==> after.cpu.max == f.cpu.max.value)
    && (f.cpu.sizeBuilds.Some? ==> after.cpu.sizeForCeiling == f.cpu.sizeBuilds)
    && (f.memory.mode.Some? ==> after.memory.mode == tidy.lower(f.memory.mode.value))
    && (f.memory.max.Some? ==> after.memory.max == f.memory.max.value)
    && (f.memory.spill.Some? ==> after.memory.spill == f.memory.spill.value)
  }

  /** A folder's switch and size as typed; the mark goes to folders that are on. */
  predicate MountArrived(f: MountFlags, auto: Option<bool>, after: Mount) {
    && (f.on.Some? ==> after.enabled == f.on.value)
    && (f.size.Some? ==> if f.size.value > 0 then after.size == f.size.value else after.size == 0)
    && (auto.Some? ==> (after.auto <==> after.enabled && auto.value))
  }

  predicate TmpfsArrived(f: TmpfsFlags, after: Tmpfs) {
    && MountArrived(f.work, f.auto, after.work) && MountArrived(f.tmp, f.auto, after.tmp)
    && MountArrived(f.daemon, f.auto, after.daemon)
  }

  predicate CacheArrived(f: CacheFlags, after: Cache, tidy: Tidy) {
    && (f.enabled.Some? ==> after.enabled == f.enabled.value) && (f.scope.Some? ==> after.scope == f.scope.value)
    && (f.size.Some? ==> after.size == f.size.value)
    && (f.source.Some? ==> after.source == tidy.trim(f.source.value))
    && (f.repository.Some? ==> after.repository == f.repository.value)
  }

  predicate PlatformArrived(f: PlatformFlags, after: Platform, tidy: Tidy) {
    && (f.os.Some? ==> after.os == tidy.os(f.os.value))
    && (f.version.Some? ==> after.version == tidy.trim(f.version.value))
    && (f.arch.Some? ==> after.arch == tidy.arch(f.arch.value))
  }

  /** A single value as the API tidies it, a blank override as nothing at all; the image as the Docker mode
      calls for. */
  predicate PlainArrived(f: map<string, string>, after: Plain, tidy: Tidy) {
    && f.Keys <= after.Keys
    && (forall n :: n in f && n != IMAGE ==>
          if n in OVERRIDES && TrimSpace(f[n]) == "" then after[n] == tidy.plain(n, HandedBack)
          else after[n] == tidy.plain(n, Given(f[n])))
    && (IMAGE in f ==> ImageArrived(tidy.plain(IMAGE, Given(f[IMAGE])), after, tidy))
  }

  /** The stock image where jobs get a daemon arrives as its Docker variant, any other as itself. */
  predicate ImageArrived(typed: Value, after: Plain, tidy: Tidy)
    requires IMAGE in after
  {
    if typed.Given? && RunnerImage.StockImage(typed.text, tidy.published)
       && DOCKER_MODE in after && GivesDaemon(after[DOCKER_MODE])
    then after[IMAGE] == Given(RunnerImage.STOCK_DOCKER + typed.text[|RunnerImage.STOCK|..])
    else after[IMAGE] == typed
  }

  ghost predicate Arrived(f: Flags, after: Pool, tidy: Tidy) {
    && SizeArrived(f.size, after) && BurstsArrived(f, after, tidy) && TmpfsArrived(f.tmpfs, after.tmpfs)
    && CacheArrived(f.cache, after.cache, tidy) && PlatformArrived(f.platform, after.platform, tidy)
    && PlainArrived(f.plain, after.plain, tidy)
  }

  lemma PlainArrives(f: map<string, string>, now: Plain, after: Plain, tidy: Tidy)
    requires PlainEdited(f, now, after, tidy)
    ensures PlainArrived(f, after, tidy)
  {
    if IMAGE in f {
      var typed := tidy.plain(IMAGE, Given(f[IMAGE]));
      assert IMAGE !in OVERRIDES;
      assert after[IMAGE] == ImageFor(typed, DaemonAfter(f, now, tidy), tidy);
      if typed.Given? {
        RunnerImage.MovedExactlyWhen(typed.text, tidy.published);
      }
    }
  }

  lemma SizeArrives(f: SizeFlags, read: Size, after: Pool)
    requires f.Sent() ==> forall p :: Get(after.size, p) == PartAfter(f, read, p)
    requires f.fromHost.Some? ==> after.fromHost == f.fromHost.value
    ensures SizeArrived(f, after)
  {
    if f.Sent() {
      assert Get(after.size, Cpus) == PartAfter(f, read, Cpus) && Get(after.size, Memory) == PartAfter(f, read, Memory);
    }
  }

  /** Every flag that was typed has its value in the pool, but for what another flag's own rule clears. */
  lemma TypedArrives(f: Flags, read: Pool, now: Pool, after: Pool, tidy: Tidy)
    requires IsPatchedOn(f, read, now, after, tidy)
    ensures Arrived(f, after, tidy)
  {
    SizeArrives(f.size, read.size, after);
    PlainArrives(f.plain, now.plain, after.plain, tidy);
  }

  /** The two ways of giving a size are refused together exactly when going to the host's size would lose a
      figure that was typed. */
  lemma RefusedExactlyWhenLost(f: SizeFlags, before: Size)
    ensures f.Refused() <==>
      exists p :: p in f.parts && PartAfter(f, before, p) != if f.parts[p] > 0.0 then f.parts[p] else 0.0
  {
    if f.Refused() {
      if Cpus in f.parts && f.parts[Cpus] > 0.0 {
        assert PartAfter(f, before, Cpus) == 0.0;
      } else {
        assert Memory in f.parts && PartAfter(f, before, Memory) == 0.0;
      }
    }
  }

  // ----- Left alone -----

  /** Every part not typed is as it was. */
  ghost predicate SizeKept(f: SizeFlags, before: Size, after: Size) {
    forall p :: p !in f.parts ==> Get(after, p) == Get(before, p)
  }

  predicate CpuKept(f: CpuFlags, before: CpuBurst, after: CpuBurst) {
    && (f.mode.Some? || after.mode == before.mode) && (f.max.Some? || after.max == before.max)
    && (f.sizeBuilds.Some? || after.sizeForCeiling == before.sizeForCeiling)
  }

  predicate MemoryKept(f: MemoryFlags, before: MemoryBurst, after: MemoryBurst) {
    && (f.mode.Some? || after.mode == before.mode) && (f.max.Some? || after.max == before.max)
    && (f.spill.Some? || after.spill == before.spill)
  }

  predicate MountKept(f: MountFlags, auto: Option<bool>, before: Mount, after: Mount) {
    && (f.on.Some? || after.enabled == before.enabled) && (f.size.Some? || after.size == before.size)
    && (auto.Some? || after.auto == before.auto)
  }

  predicate TmpfsKept(f: TmpfsFlags, before: Tmpfs, after: Tmpfs) {
    && MountKept(f.work, f.auto, before.work, after.work) && MountKept(f.tmp, f.auto, before.tmp, after.tmp)
    && MountKept(f.daemon, f.auto, before.daemon, after.daemon)
  }

  predicate CacheKept(f: CacheFlags, before: Cache, after: Cache) {
    && (f.enabled.Some? || after.enabled == before.enabled) && (f.scope.Some? || after.scope == before.scope)
    && (f.size.Some? || after.size == before.size) && (f.source.Some? || after.source == before.source)
    && (f.repository.Some? || after.repository == before.repository)
  }

  predicate PlatformKept(f: PlatformFlags, before: Platform, after: Platform) {
    && (f.os.Some? || after.os == before.os) && (f.version.Some? || after.version == before.version)
    && (f.arch.Some? || after.arch == before.arch)
  }

  /** The promise: whatever was not typed is left alone. */
  ghost predicate LeftAlone(f: Flags, before: Pool, after: Pool) {
    && SizeKept(f.size, before.size, after.size) && (f.size.fromHost.Some? || after.fromHost == before.fromHost)
    && CpuKept(f.cpu, before.cpu, after.cpu) && MemoryKept(f.memory, before.memory, after.memory)
    && TmpfsKept(f.tmpfs, before.tmpfs, after.tmpfs)
    && CacheKept(f.cache, before.cache, after.cache) && PlatformKept(f.platform, before.platform, after.platform)
    && PlainKept(f.plain, before.plain, after.plain)
  }

  predicate PlainKept(f: map<string, string>, before: Plain, after: Plain) {
    && (forall n :: n in before && n !in f ==> n in after && after[n] == before[n])
    && (forall n :: n in after && n !in f ==> n in before)
  }

  /** What the API stores: nothing negative, and modes tidied. */
  ghost predicate Stored(pool: Pool, tidy: Tidy) {
    && (forall p :: Get(pool.size, p) >= 0.0)
    && tidy.lower(pool.cpu.mode) == pool.cpu.mode && tidy.lower(pool.memory.mode) == pool.memory.mode
    && pool.tmpfs.work.size >= 0 && pool.tmpfs.tmp.size >= 0 && pool.tmpfs.daemon.size >= 0
    && tidy.os("") == "" && tidy.trim("") == "" && tidy.arch("") == ""
  }

  // When it is kept. The first three are the command's own knock-ons; the cache and the platform
  // are not carried forward at all.

  predicate NothingCleared(f: SizeFlags, before: Size) {
    f.ToHost() ==> (Cpus in f.parts || Get(before, Cpus) == 0.0) && (Memory in f.parts || Get(before, Memory) == 0.0)
  }

  predicate NoSpillDropped(f: MemoryFlags, before: MemoryBurst) {
    f.Sent() && f.spill.None? && IsOff(f.mode.Or(before.mode)) ==> before.spill == 0
  }

  predicate NoMarkDropped(f: TmpfsFlags, m: MountFlags, before: Mount) {
    f.Sent() && f.auto.None? && !m.on.Or(before.enabled) ==> !before.auto
  }

  predicate CacheAtDefaults(f: CacheFlags, before: Cache) {
    f.Sent() ==>
      && (f.enabled.Some? || !before.enabled) && (f.scope.Some? || before.scope == "pool")
      && (f.size.Some? || before.size == 0) && (f.source.Some? || before.source == "")
      && (f.repository.Some? || before.repository == "")
  }

  /** The stock image is not untouched on a pool whose jobs get a daemon. */
  predicate NoImageMoved(f: map<string, string>, before: Plain, tidy: Tidy) {
    IMAGE !in f && IMAGE in before && before[IMAGE].Given? && DaemonAfter(f, before, tidy) ==>
      !RunnerImage.StockImage(before[IMAGE].text, tidy.published)
  }

  predicate PlatformAtDefaults(f: PlatformFlags, before: Platform) {
    f.Sent() ==>
      && (f.os.Some? || before.os == "") && (f.version.Some? || before.version == "")
      && (f.arch.Some? || before.arch == "")
  }

  lemma SizeKeptWhen(f: SizeFlags, before: Size, after: Size)
    requires forall p :: Get(before, p) >= 0.0
    requires forall p :: Get(after, p) == PartAfter(f, before, p)
    ensures SizeKept(f, before, after) <==> NothingCleared(f, before)
  {
    assert Get(after, Cpus) == PartAfter(f, before, Cpus);
    assert Get(after, Memory) == PartAfter(f, before, Memory);
  }

  lemma TmpfsKeptWhen(f: TmpfsFlags, before: Tmpfs)
    requires before.work.size >= 0 && before.tmp.size >= 0 && before.daemon.size >= 0
    ensures TmpfsKept(f, before, TmpfsAfter(f, before)) <==>
      && NoMarkDropped(f, f.work, before.work) && NoMarkDropped(f, f.tmp, before.tmp)
      && NoMarkDropped(f, f.daemon, before.daemon)
  {
  }

  lemma PlainKeptWhen(f: map<string, string>, before: Plain, after: Plain, tidy: Tidy)
    requires PlainEdited(f, before, after, tidy)
    ensures PlainKept(f, before, after) <==> NoImageMoved(f, before, tidy)
  {
    assert forall n :: n in before && n !in f && n != IMAGE ==> after[n] == before[n];
    if IMAGE !in f && IMAGE in before && before[IMAGE].Given? {
      assert IMAGE in after;
      RunnerImage.MovedExactlyWhen(before[IMAGE].text, tidy.published);
    }
  }

  /** An edit leaves alone what was not typed exactly when: going to the host's size clears no
      figure, switching the memory valve off drops no swap, an edit of the folders drops no mark
      of a folder that is off, an edit of the cache or the platform types every part that is not at its
      default, and the image is typed, or is not the stock one, or goes without a Docker daemon. */
  lemma LeftAloneExactlyWhen(f: Flags, before: Pool, after: Pool, tidy: Tidy)
    requires Stored(before, tidy) && IsEdited(f, before, after, tidy)
    ensures LeftAlone(f, before, after) <==>
      && NothingCleared(f.size, before.size) && NoSpillDropped(f.memory, before.memory)
      && NoMarkDropped(f.tmpfs, f.tmpfs.work, before.tmpfs.work)
      && NoMarkDropped(f.tmpfs, f.tmpfs.tmp, before.tmpfs.tmp)
      && NoMarkDropped(f.tmpfs, f.tmpfs.daemon, before.tmpfs.daemon)
      && CacheAtDefaults(f.cache, before.cache) && PlatformAtDefaults(f.platform, before.platform)
      && NoImageMoved(f.plain, before.plain, tidy)
  {
    PlainKeptWhen(f.plain, before.plain, after.plain, tidy);
    SizeKeptWhen(f.size, before.size, after.size);
    TmpfsKeptWhen(f.tmpfs, before.tmpfs);
    assert CpuKept(f.cpu, before.cpu, after.cpu);
    assert MemoryKept(f.memory, before.memory, after.memory) <==> NoSpillDropped(f.memory, before.memory);
    assert CacheKept(f.cache, before.cache, after.cache) <==> CacheAtDefaults(f.cache, before.cache);
    assert PlatformKept(f.platform, before.platform, after.platform)
      <==> PlatformAtDefaults(f.platform, before.platform);
  }

  /** The promise fails for `pools edit <id> --cache-size <n>`: on a pool whose cache is on, the
      cache is switched off. */
  lemma CacheSizeSwitchesTheCacheOff(n: int, before: Pool, after: Pool, tidy: Tidy)
    requires Stored(before, tidy) && before.cache.enabled
    requires IsEdited(OnlyCacheSize(n), before, after, tidy)
    ensures !after.cache.enabled && !LeftAlone(OnlyCacheSize(n), before, after)
  {
    LeftAloneExactlyWhen(OnlyCacheSize(n), before, after, tidy);
  }

  /** It fails for `pools edit <id> --docker-mode dind` too, and for `host-socket`: on a pool with the stock
      image, the image is replaced by its Docker variant. */
  lemma DockerModeMovesTheImage(mode: string, before: Pool, after: Pool, tidy: Tidy)
    requires mode == "dind" || mode == "host-socket"
    requires Stored(before, tidy) && IMAGE in before.plain && before.plain[IMAGE].Given?
    requires RunnerImage.StockImage(before.plain[IMAGE].text, tidy.published)
    requires tidy.plain(DOCKER_MODE, Given(mode)) == Given(mode)
    requires IsEdited(OnlyDockerMode(mode), before, after, tidy)
    ensures IMAGE in after.plain && !LeftAlone(OnlyDockerMode(mode), before, after)
    ensures var tag := before.plain[IMAGE].text[|RunnerImage.STOCK|..];
      after.plain[IMAGE] == Given(RunnerImage.STOCK_DOCKER + tag)
  {
    var f := OnlyDockerMode(mode);
    assert f.plain == map[DOCKER_MODE := mode] && IMAGE !in f.plain;
    assert DaemonAfter(f.plain, before.plain, tidy);
    RunnerImage.MovedExactlyWhen(before.plain[IMAGE].text, tidy.published);
    LeftAloneExactlyWhen(f, before, after, tidy);
  }

  function OnlyDockerMode(mode: string): Flags {
    OnlyCacheSize(0).(cache := NO_CACHE, plain := map[DOCKER_MODE := mode])
  }

  /** Whatever was typed, no edit leaves a pool with a daemon on the image that has no client for it. */
  lemma NeverWithoutAClient(f: Flags, before: Pool, after: Pool, tidy: Tidy)
    requires IsEdited(f, before, after, tidy) && IMAGE in after.plain && after.plain[IMAGE].Given?
    requires DOCKER_MODE in after.plain && GivesDaemon(after.plain[DOCKER_MODE])
    ensures !RunnerImage.StockImage(after.plain[IMAGE].text, tidy.published)
  {
    var image := Settled(f.plain, before.plain, IMAGE, tidy);
    RunnerImage.MovedOnce(image.text, tidy.published);
  }

  function OnlyCacheSize(n: int): Flags {
    var none := MountFlags(None, None);
    Flags(SizeFlags(map[], None), CpuFlags(None, None, None), MemoryFlags(None, None, None),
          TmpfsFlags(none, none, none, None), CacheFlags(None, None, Some(n), None, None),
          PlatformFlags(None, None, None),
          map[])
  }

  // ----- Two edits at once -----

  /** The same settings, size by size. */
  ghost predicate SamePool(a: Pool, b: Pool) {
    && (forall p :: Get(a.size, p) == Get(b.size, p)) && a.fromHost == b.fromHost
    && a.cpu == b.cpu && a.memory == b.memory
    && a.tmpfs == b.tmpfs && a.cache == b.cache && a.platform == b.platform && a.plain == b.plain
  }

  // What the second edit carries forward of each composite it sends, the first one left as it was.

  ghost predicate SizeUntouched(b: SizeFlags, before: Size, one: Size) {
    b.Sent() ==> forall p :: p !in b.parts && !b.Clears(p) ==> Get(one, p) == Get(before, p)
  }

  predicate CpuUntouched(b: CpuFlags, before: CpuBurst, one: CpuBurst) {
    b.Sent() ==>
      && (b.mode.Some? || one.mode == before.mode) && (b.max.Some? || one.max == before.max)
      && (b.sizeBuilds.Some? || one.sizeForCeiling == before.sizeForCeiling)
  }

  predicate MemoryUntouched(b: MemoryFlags, before: MemoryBurst, one: MemoryBurst) {
    b.Sent() ==>
      && (b.mode.Some? || one.mode == before.mode) && (b.max.Some? || one.max == before.max)
      && (b.spill.Some? || IsOff(b.mode.Or(before.mode)) || one.spill == before.spill)
  }

  predicate MountUntouched(b: MountFlags, auto: Option<bool>, before: Mount, one: Mount) {
    && (b.on.Some? || one.enabled == before.enabled) && (b.size.Some? || one.size == before.size)
    && (auto.Some? || !b.on.Or(before.enabled) || one.auto == before.auto)
  }

  predicate TmpfsUntouched(b: TmpfsFlags, before: Tmpfs, one: Tmpfs) {
    b.Sent() ==>
      && MountUntouched(b.work, b.auto, before.work, one.work) && MountUntouched(b.tmp, b.auto, before.tmp, one.tmp)
      && MountUntouched(b.daemon, b.auto, before.daemon, one.daemon)
  }

  lemma MemoryInTurn(b: MemoryFlags, before: MemoryBurst, one: MemoryBurst, tidy: Tidy)
    requires tidy.lower(before.mode) == before.mode && tidy.lower(one.mode) == one.mode
    ensures b.Sent() ==>
      (MemoryAfter(b, before, tidy) == MemoryAfter(b, one, tidy) <==> MemoryUntouched(b, before, one))
  {
  }

  lemma MountInTurn(b: MountFlags, auto: Option<bool>, before: Mount, one: Mount)
    requires before.size >= 0 && one.size >= 0
    ensures MountAfter(b, auto, before) == MountAfter(b, auto, one) <==> MountUntouched(b, auto, before, one)
  {
  }

  lemma SizeInTurn(b: SizeFlags, before: Size, one: Size)
    requires (forall p :: Get(before, p) >= 0.0) && (forall p :: Get(one, p) >= 0.0)
    ensures (b.Sent() ==> forall p :: PartAfter(b, before, p) == PartAfter(b, one, p))
       <==> SizeUntouched(b, before, one)
  {
    if b.Sent() {
      if forall p :: PartAfter(b, before, p) == PartAfter(b, one, p) {
        forall p | p !in b.parts && !b.Clears(p) ensures Get(one, p) == Get(before, p) {
          assert PartAfter(b, before, p) == PartAfter(b, one, p);
        }
      }
    }
  }

  /** Two edits that both read the pool before either is applied come to the same as one after the other
      exactly when the first left alone whatever the second carries forward. */
  lemma EditsInTurnExactlyWhen(b: Flags, pool: Pool, one: Pool, both: Pool, inTurn: Pool, tidy: Tidy)
    requires Stored(pool, tidy) && Stored(one, tidy)
    requires IsPatchedOn(b, pool, one, both, tidy) && IsPatchedOn(b, one, one, inTurn, tidy)
    ensures SamePool(both, inTurn) <==>
      && SizeUntouched(b.size, pool.size, one.size) && CpuUntouched(b.cpu, pool.cpu, one.cpu)
      && MemoryUntouched(b.memory, pool.memory, one.memory) && TmpfsUntouched(b.tmpfs, pool.tmpfs, one.tmpfs)
  {
    SizeInTurn(b.size, pool.size, one.size);
    MemoryInTurn(b.memory, pool.memory, one.memory, tidy);
    MountInTurn(b.tmpfs.work, b.tmpfs.auto, pool.tmpfs.work, one.tmpfs.work);
    MountInTurn(b.tmpfs.tmp, b.tmpfs.auto, pool.tmpfs.tmp, one.tmpfs.tmp);
    MountInTurn(b.tmpfs.daemon, b.tmpfs.auto, pool.tmpfs.daemon, one.tmpfs.daemon);
    SamePlain(b.plain, one.plain, both.plain, inTurn.plain, tidy);
    SameSizesInTurn(b, pool, one, both, inTurn, tidy);
  }

  lemma SamePlain(f: map<string, string>, before: Plain, a: Plain, b: Plain, tidy: Tidy)
    requires PlainEdited(f, before, a, tidy) && PlainEdited(f, before, b, tidy)
    ensures a == b
  {
    forall n | n in a ensures n in b && a[n] == b[n] {
      assert n in f || n in before;
    }
    assert a.Keys == b.Keys;
  }

  lemma SameSizesInTurn(b: Flags, pool: Pool, one: Pool, both: Pool, inTurn: Pool, tidy: Tidy)
    requires IsPatchedOn(b, pool, one, both, tidy) && IsPatchedOn(b, one, one, inTurn, tidy)
    ensures (forall p :: Get(both.size, p) == Get(inTurn.size, p))
       <==> (b.size.Sent() ==> forall p :: PartAfter(b.size, pool.size, p) == PartAfter(b.size, one.size, p))
  {
    if forall p :: Get(both.size, p) == Get(inTurn.size, p) {
      forall p | b.size.Sent() ensures PartAfter(b.size, pool.size, p) == PartAfter(b.size, one.size, p) {
        assert Get(both.size, p) == Get(inTurn.size, p);
      }
    }
  }

  /** No composite that is carried forward is in both edits. */
  predicate Disjoint(a: Flags, b: Flags) {
    && !(a.size.Sent() && b.size.Sent()) && !(a.cpu.Sent() && b.cpu.Sent())
    && !(a.memory.Sent() && b.memory.Sent()) && !(a.tmpfs.Sent() && b.tmpfs.Sent())
  }

  /** Edits of different composites never get in each other's way. */
  lemma DisjointEditsAreInTurn(a: Flags, b: Flags, pool: Pool, one: Pool, both: Pool, inTurn: Pool, tidy: Tidy)
    requires Stored(pool, tidy) && Stored(one, tidy) && Disjoint(a, b) && IsEdited(a, pool, one, tidy)
    requires IsPatchedOn(b, pool, one, both, tidy) && IsPatchedOn(b, one, one, inTurn, tidy)
    ensures SamePool(both, inTurn)
  {
    EditsInTurnExactlyWhen(b, pool, one, both, inTurn, tidy);
  }

  /** `--disk-gb 40` and `--pids-limit 99` at once, on a pool without either: the disk is lost. */
  lemma DiskLost(pool: Pool, one: Pool, both: Pool, tidy: Tidy)
    requires Get(pool.size, Disk) == 0.0
    requires IsEdited(OnlySize(Disk, 40.0), pool, one, tidy) && IsPatchedOn(OnlySize(Pids, 99.0), pool, one, both, tidy)
    ensures Get(one.size, Disk) == 40.0 && Get(both.size, Disk) == 0.0 && Get(both.size, Pids) == 99.0
  {
    assert Disk in OnlySize(Disk, 40.0).size.parts && Pids in OnlySize(Pids, 99.0).size.parts;
    assert Get(one.size, Disk) == PartAfter(OnlySize(Disk, 40.0).size, pool.size, Disk);
    assert Get(both.size, Disk) == PartAfter(OnlySize(Pids, 99.0).size, pool.size, Disk);
    assert Get(both.size, Pids) == PartAfter(OnlySize(Pids, 99.0).size, pool.size, Pids);
  }

  function OnlySize(p: Part, v: real): Flags {
    OnlyCacheSize(0).(size := SizeFlags(map[p := v], None), cache := NO_CACHE)
  }

  const NO_CACHE := CacheFlags(None, None, None, None, None)
}
