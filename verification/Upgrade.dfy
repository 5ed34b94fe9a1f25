/** `zoomies upgrade` across processes: the preview, the backup, the candidate's own check, the
    swap of the binary, the re-execution in the new release and the launcher that carries on.

    Each process is steered by its options and by three markers in its environment. The model
    follows every upgrade from the operator's request to its end, in whatever processes it runs,
    and lets any number of them interleave and be killed at any point. */
module Upgrade {
  import opened Seqs
  import opened Wrappers

  /** The flags of one request. */
  datatype Options = Options(check: bool, dryRun: bool, noDownload: bool, noBackup: bool, version: bool, badMode: bool)

  /** ZOOMIES_NO_SELF_UPDATE, ZOOMIES_UPGRADE_STARTED and ZOOMIES_RETURN_HOME. */
  datatype Env = Env(noSelfUpdate: bool, started: bool, returnHome: bool)

  /** What happens on the host, each event by the request it serves. */
  datatype Event =
    | Checked(request: nat, ok: bool)
    | Preflight(request: nat, ok: bool)
    | Backup(request: nat, ok: bool)
    | Swap(request: nat)
    | Exec(request: nat)
    | ExecFailed(request: nat)
    | Apply(request: nat, ok: bool)
    | RolledBack(request: nat)

  /** Everything but looking. */
  predicate Changes(e: Event) { !e.Checked? && !e.Preflight? }

  // ----- What one request may do, in what order -----

  datatype Stage = Fresh | Saved | Cleared | Swapped | Continued | Applied | Stopped

  /** The stage an event leads to, where the event is allowed at all. */
  function Next(s: Stage, e: Event): Option<Stage> {
    match e
    case Checked(_, _) => Some(s)
    case Preflight(_, ok) => Some(if s != Saved then s else if ok then Cleared else Stopped)
    case Backup(_, ok) => if s == Fresh then Some(if ok then Saved else Stopped) else None
    case Swap(_) => if s == Cleared then Some(Swapped) else None
    case Exec(_) => if s == Swapped then Some(Continued) else None
    case ExecFailed(_) => if s == Swapped then Some(Stopped) else None
    case Apply(_, _) => if s == Saved || s == Continued then Some(Applied) else None
    case RolledBack(_) => if s == Applied then Some(Stopped) else None
  }

  function RunFrom(s: Stage, events: seq<Event>): Option<Stage> {
    if events == [] then Some(s)
    else
      var before := RunFrom(s, events[..|events| - 1]);
      if before.None? then None else Next(before.value, events[|events| - 1])
  }

  /** Where a request begins: --no-backup waives the copy. */
  function Begin(opts: Options): Stage { if opts.noBackup then Saved else Fresh }

  /** Where a process takes it up: the marker says the request has come this far already. */
  function TakenUp(opts: Options, env: Env): Stage { if env.started then Continued else Begin(opts) }

  predicate Quiet(opts: Options) { opts.check || opts.dryRun }

  predicate OnlyLooks(opts: Options) { opts.check && !opts.dryRun }

  /** No newer binary is sought: nothing to be changed, nothing to be downloaded, or not for the first time. */
  predicate KeepsBinary(opts: Options, env: Env) {
    Quiet(opts) || opts.noDownload || opts.badMode || env.noSelfUpdate || env.started
  }

  predicate HasSwap(events: seq<Event>) { exists i :: 0 <= i < |events| && events[i].Swap? }

  datatype End = Finished | Execed

  /** What one process does for request n: the events it may write, and how it ends. */
  predicate Segment(n: nat, opts: Options, env: Env, events: seq<Event>, end: End) {
    && (forall i :: 0 <= i < |events| ==> events[i].request == n)
    && (OnlyLooks(opts) ==> forall i :: 0 <= i < |events| ==> events[i].Checked?)
    && (Quiet(opts) ==> end == Finished && forall i :: 0 <= i < |events| ==> !Changes(events[i]))
    && (KeepsBinary(opts, env) ==> !HasSwap(events))
    && RunFrom(TakenUp(opts, env), events).Some?
    && (end == Execed ==> !env.started && RunFrom(TakenUp(opts, env), events) == Some(Continued))
  }

  /** Flags that do not go together, and a mode there is not, are refused before anything happens. */
  predicate Refused(opts: Options) { (opts.noDownload && (opts.version || opts.dryRun)) || opts.badMode }

  /** Whether the deployment is looked at before a download is sought. */
  predicate PreviewsFirst(opts: Options, env: Env) {
    opts.dryRun || (!opts.check && !env.started && !opts.noDownload && !env.noSelfUpdate)
  }

  /** What the command's own answer is worth. A refusal did nothing; a preview comes first and a
      failed one is all there is; a success looked, or applied, or carried on in the new release. */
  predicate Reported(n: nat, opts: Options, env: Env, events: seq<Event>, end: End, ok: bool) {
    if Refused(opts) then !ok && events == []
    else
      && (PreviewsFirst(opts, env) ==> events != [] && events[0].Checked? && (!events[0].ok ==> !ok && |events| == 1))
      && (ok && Quiet(opts) ==> events != [] && events[|events| - 1] == Checked(n, true))
      && (ok && !Quiet(opts) && end == Finished ==> events != [] && events[|events| - 1] == Apply(n, true))
      && (end == Execed ==> ok && events != [] && events[|events| - 1] == Exec(n))
  }

  lemma RunSnoc(s: Stage, events: seq<Event>, e: Event)
    ensures RunFrom(s, events + [e])
         == if RunFrom(s, events).None? then None else Next(RunFrom(s, events).value, e)
  {
    SnocInit(events, e);
  }

  lemma SwapSnoc(events: seq<Event>, e: Event)
    ensures HasSwap(events + [e]) <==> HasSwap(events) || e.Swap?
  {
    var all := events + [e];
    assert all[|events|] == e;
    if HasSwap(events) {
      var i :| 0 <= i < |events| && events[i].Swap?;
      assert all[i].Swap?;
    }
  }

  // ----- The command -----

  datatype Fetch = FetchFailed | NothingNewer | Candidate

  /** What becomes of a candidate that is asked: it answers, or it does not start or finish. */
  datatype Answer = Accepts | Refuses | NoAnswer

  datatype Applying = NotReserved | ApplyFailed | ApplyRolledBack | ApplyDone

  /** How everything outside the command turns out. */
  datatype Outcomes = Outcomes(
    preview: bool, backup: bool, fetch: Fetch, candidate: Answer, install: bool, exec: bool, review: bool,
    apply: Applying)

  /** What asking a candidate leaves behind: its own check, if it came to one, and the verdict. */
  function Asked(n: nat, o: Outcomes): seq<Event> {
    if o.fetch != Candidate then [] else Looked(n, o.candidate) + [Preflight(n, o.candidate == Accepts)]
  }

  function Looked(n: nat, a: Answer): seq<Event> { if a == NoAnswer then [] else [Checked(n, a == Accepts)] }

  /** What applying leaves behind. */
  function Applies(n: nat, apply: Applying): seq<Event> {
    match apply
    case NotReserved => []
    case ApplyRolledBack => [Apply(n, false), RolledBack(n)]
    case _ => [Apply(n, apply == ApplyDone)]
  }

  /** The deployment is reported applied, failed or rolled back as it was; one not reserved leaves nothing. */
  lemma AppliedAsItWent(n: nat, apply: Applying)
    ensures Apply(n, true) in Applies(n, apply) <==> apply == ApplyDone
    ensures Apply(n, false) in Applies(n, apply) <==> apply == ApplyFailed || apply == ApplyRolledBack
    ensures RolledBack(n) in Applies(n, apply) <==> apply == ApplyRolledBack
  {
    if apply == ApplyRolledBack {
      assert Applies(n, apply)[0] == Apply(n, false) && Applies(n, apply)[1] == RolledBack(n);
    } else if apply != NotReserved {
      assert Applies(n, apply)[0] == Apply(n, apply == ApplyDone);
    }
  }

  // ----- How a run goes, from its flags, its markers and how everything outside turns out -----

  /** It was not refused, and its look at the deployment, where there is one first, found nothing wrong. */
  predicate Looks(opts: Options, env: Env, o: Outcomes) { !Refused(opts) && (PreviewsFirst(opts, env) ==> o.preview) }

  /** It comes to the backup. */
  predicate ComesToBackup(opts: Options, env: Env, o: Outcomes) { Looks(opts, env, o) && !Quiet(opts) && !env.started }

  /** And it has one, or was told to go without. */
  predicate Guards(opts: Options, env: Env, o: Outcomes) {
    ComesToBackup(opts, env, o) && (opts.noBackup || o.backup)
  }

  /** It looks for a newer release. */
  predicate Seeks(opts: Options, env: Env, o: Outcomes) {
    if opts.dryRun then Looks(opts, env, o) else Guards(opts, env, o) && !KeepsBinary(opts, env)
  }

  /** A newer release replaces the binary. */
  predicate Swaps(opts: Options, env: Env, o: Outcomes) {
    !opts.dryRun && Seeks(opts, env, o) && o.fetch == Candidate && o.candidate == Accepts && o.install
  }

  /** The request is carried on in the newer release. */
  predicate HandsOver(opts: Options, env: Env, o: Outcomes) { Swaps(opts, env, o) && o.exec }

  /** It comes to a look at the deployment that is its answer. */
  predicate Reviews(opts: Options, env: Env, o: Outcomes) {
    if opts.dryRun then
      Seeks(opts, env, o) && (o.fetch == NothingNewer || (o.fetch == Candidate && o.candidate == Accepts))
    else opts.check && !Refused(opts)
  }

  /** It comes to the deployment: in the newer release, or with the binary there is. */
  predicate Deploys(opts: Options, env: Env, o: Outcomes) {
    && !Refused(opts) && !Quiet(opts)
    && (env.started || (Guards(opts, env, o) && (KeepsBinary(opts, env) || o.fetch == NothingNewer)))
  }

  predicate Succeeds(opts: Options, env: Env, o: Outcomes) {
    || HandsOver(opts, env, o) || (Reviews(opts, env, o) && o.review)
    || (Deploys(opts, env, o) && o.apply == ApplyDone)
  }

  // What it then writes, part by part.

  function Previewed(n: nat, opts: Options, env: Env, o: Outcomes): seq<Event> {
    if !Refused(opts) && PreviewsFirst(opts, env) then [Checked(n, o.preview)] else []
  }

  function BackedUp(n: nat, opts: Options, env: Env, o: Outcomes): seq<Event> {
    if ComesToBackup(opts, env, o) && !opts.noBackup then [Backup(n, o.backup)] else []
  }

  function Sought(n: nat, opts: Options, env: Env, o: Outcomes): seq<Event> {
    (if Seeks(opts, env, o) then Asked(n, o) else [])
    + if Swaps(opts, env, o) then [Swap(n), if o.exec then Exec(n) else ExecFailed(n)] else []
  }

  function Deployed(n: nat, opts: Options, env: Env, o: Outcomes): seq<Event> {
    if Reviews(opts, env, o) then [Checked(n, o.review)]
    else if Deploys(opts, env, o) then Applies(n, o.apply)
    else []
  }

  lemma BackupAdds(before: seq<Event>, n: nat, opts: Options, env: Env, o: Outcomes)
    ensures before + BackedUp(n, opts, env, o)
         == if ComesToBackup(opts, env, o) && !opts.noBackup then before + [Backup(n, o.backup)] else before
  {
    ConcatNothing(before);
  }

  lemma NothingSought(before: seq<Event>, n: nat, opts: Options, env: Env, o: Outcomes)
    requires !Seeks(opts, env, o)
    ensures before + Sought(n, opts, env, o) == before
  {
    ConcatNothing(before);
  }

  /** The whole of it. */
  function Story(n: nat, opts: Options, env: Env, o: Outcomes): seq<Event> {
    Previewed(n, opts, env, o) + BackedUp(n, opts, env, o) + Sought(n, opts, env, o) + Deployed(n, opts, env, o)
  }

  datatype SelfUpdated = Failed | Unchanged | Replaced

  /** One process running the command for request n. */
  class Process {
    const n: nat
    const opts: Options
    const env: Env
    var events: seq<Event>
    /** The stage its events have led to. */
    ghost var stage: Stage

    ghost predicate Valid()
      reads this
    {
      && (forall i :: 0 <= i < |events| ==> events[i].request == n)
      && RunFrom(TakenUp(opts, env), events) == Some(stage)
      && (OnlyLooks(opts) ==> forall i :: 0 <= i < |events| ==> events[i].Checked?)
      && (Quiet(opts) ==> forall i :: 0 <= i < |events| ==> !Changes(events[i]))
      && (KeepsBinary(opts, env) ==> !HasSwap(events))
    }

    constructor (n: nat, opts: Options, env: Env)
      ensures Valid() && this.n == n && this.opts == opts && this.env == env
      ensures events == [] && stage == TakenUp(opts, env)
    {
      this.n, this.opts, this.env, events, stage := n, opts, env, [], TakenUp(opts, env);
    }

    method Record(e: Event)
      requires Valid() && e.request == n && Next(stage, e).Some?
      requires (OnlyLooks(opts) ==> e.Checked?) && (Quiet(opts) ==> !Changes(e))
      requires KeepsBinary(opts, env) ==> !e.Swap?
      modifies this
      ensures Valid() && events == old(events) + [e] && stage == Next(old(stage), e).value
    {
      RunSnoc(TakenUp(opts, env), events, e);
      SwapSnoc(events, e);
      events := events + [e];
      stage := Next(stage, e).value;
    }

    /** `installer.Upgrade`: look at the deployment, or bring it up to date. */
    method InstallerUpgrade(check: bool, looks: bool, apply: Applying) returns (ok: bool)
      requires Valid()
      requires !check ==> !Quiet(opts) && (stage == Saved || stage == Continued)
      modifies this
      ensures Valid() && (check ==> stage == old(stage))
      ensures check ==> ok == looks && events == old(events) + [Checked(n, looks)]
      ensures !check ==> (ok <==> apply == ApplyDone) && events == old(events) + Applies(n, apply)
    {
      if check {
        Record(Checked(n, looks));
        return looks;
      }
      if apply == NotReserved {
        ConcatNothing(events);
        return false;
      }
      Record(Apply(n, apply == ApplyDone));
      if apply == ApplyRolledBack {
        Record(RolledBack(n));
      }
      ok := apply == ApplyDone;
    }

    /** `candidatePreflight`: the downloaded release runs this same command, told only to check. */
    method CandidatePreflight(answer: Answer) returns (ok: bool)
      requires Valid() && !OnlyLooks(opts)
      modifies this
      ensures Valid() && stage == old(stage)
      ensures ok == (answer == Accepts) && events == old(events) + Looked(n, answer)
      decreases 2
    {
      if answer == NoAnswer {
        return false;
      }
      var candidate := new Process(n, Options(true, false, true, false, false, false), Env(true, true, env.returnHome));
      var looks := answer == Accepts;
      var o := Outcomes(looks, false, NothingNewer, NoAnswer, false, false, looks, NotReserved);
      var end;
      ok, end := candidate.RunUpgradeNamed(o);
      var written := candidate.events;
      assert written == [Checked(n, looks)];
      Record(written[0]);
    }

    /** `installer.SelfUpdate`: fetch, ask the candidate, and only then replace the binary. */
    method InstallerSelfUpdate(dryRun: bool, o: Outcomes) returns (r: SelfUpdated)
      requires Valid() && !OnlyLooks(opts)
      requires if dryRun then opts.dryRun else !KeepsBinary(opts, env) && stage == Saved
      modifies this
      ensures Valid()
      ensures r == Unchanged && !dryRun ==> stage == Saved
      ensures r == Replaced ==> !dryRun && stage == Swapped
      ensures r == Replaced <==> !dryRun && o.fetch == Candidate && o.candidate == Accepts && o.install
      ensures r == Unchanged <==> o.fetch == NothingNewer || (dryRun && o.fetch == Candidate && o.candidate == Accepts)
      ensures events == old(events) + Asked(n, o) + if r == Replaced then [Swap(n)] else []
      decreases 3
    {
      if o.fetch == FetchFailed {
        return Failed;
      }
      if o.fetch == NothingNewer {
        return Unchanged;
      }
      var ok := CandidatePreflight(o.candidate);
      Record(Preflight(n, ok));
      if !ok {
        return Failed;
      }
      if dryRun {
        return Unchanged;
      }
      if !o.install {
        return Failed;
      }
      Record(Swap(n));
      r := Replaced;
    }

    /** `selfUpdate`: bring the binary up to date and, if it changed, carry on inside the new one. */
    method SelfUpdate(dryRun: bool, o: Outcomes) returns (ok: bool, end: End)
      requires Valid() && !OnlyLooks(opts)
      requires if dryRun then opts.dryRun else !KeepsBinary(opts, env) && stage == Saved
      modifies this
      ensures Valid()
      ensures ok && end == Finished && !dryRun ==> stage == Saved
      ensures end == Execed ==> ok && !dryRun && stage == Continued
      ensures end == Execed <==> !dryRun && o.fetch == Candidate && o.candidate == Accepts && o.install && o.exec
      ensures !dryRun ==> (ok <==> end == Execed || o.fetch == NothingNewer)
      ensures dryRun ==> (ok <==> o.fetch == NothingNewer || (o.fetch == Candidate && o.candidate == Accepts))
      ensures var swapped := !dryRun && o.fetch == Candidate && o.candidate == Accepts && o.install;
        events == old(events)
          + (Asked(n, o) + if swapped then [Swap(n), if o.exec then Exec(n) else ExecFailed(n)] else [])
      decreases 4
    {
      end := Finished;
      var r := InstallerSelfUpdate(dryRun, o);
      ConcatNothing(Asked(n, o));
      ConcatNothing(old(events) + Asked(n, o));
      if r != Replaced {
        return r == Unchanged, Finished;
      }
      if !o.exec {
        Record(ExecFailed(n));
        return false, Finished;
      }
      Record(Exec(n));
      ok, end := true, Execed;
    }

    /** The run that only previews: look, fetch and ask the candidate, and look again. */
    method DryRun(o: Outcomes) returns (ok: bool)
      requires Valid() && events == [] && stage == TakenUp(opts, env) && opts.dryRun && !Refused(opts)
      modifies this
      ensures Valid() && Segment(n, opts, env, events, Finished)
      ensures (ok <==> Succeeds(opts, env, o)) && events == Story(n, opts, env, o)
      decreases 5
    {
      ok := InstallerUpgrade(true, o.preview, o.apply);
      if ok {
        var end;
        ok, end := SelfUpdate(true, o);
        if ok {
          ok := InstallerUpgrade(true, o.review, o.apply);
        }
      }
    }

    /** The look at the deployment before a newer binary is sought. */
    method Preview(o: Outcomes) returns (ok: bool)
      requires Valid() && events == [] && !Quiet(opts) && !env.started && !Refused(opts)
      modifies this
      ensures Valid() && (ok <==> Looks(opts, env, o)) && stage == old(stage) && events == Previewed(n, opts, env, o)
      decreases 3
    {
      ok := true;
      if !opts.noDownload && !env.noSelfUpdate {
        ok := InstallerUpgrade(true, o.preview, o.apply);
      }
    }

    /** And the backup. */
    method Secure(o: Outcomes) returns (ok: bool)
      requires Valid() && events == [] && stage == TakenUp(opts, env) && !Quiet(opts) && !env.started && !Refused(opts)
      modifies this
      ensures Valid() && (ok <==> Guards(opts, env, o)) && (ok ==> stage == Saved)
      ensures events == Previewed(n, opts, env, o) + BackedUp(n, opts, env, o)
      decreases 4
    {
      ok := Preview(o);
      BackupAdds(events, n, opts, env, o);
      if ok && !opts.noBackup {
        Record(Backup(n, o.backup));
        ok := o.backup;
      }
    }

    /** A newer binary, where one is to be sought. */
    method Seek(o: Outcomes) returns (ok: bool, end: End)
      requires Valid() && stage == Saved && Guards(opts, env, o)
      modifies this
      ensures Valid() && (ok && end == Finished ==> stage == Saved) && (end == Execed ==> stage == Continued)
      ensures (end == Execed <==> HandsOver(opts, env, o)) && (ok <==> end == Execed || Deploys(opts, env, o))
      ensures events == old(events) + Sought(n, opts, env, o)
      decreases 5
    {
      ok, end := true, Finished;
      if !opts.noDownload && !env.noSelfUpdate {
        ok, end := SelfUpdate(false, o);
      } else {
        NothingSought(events, n, opts, env, o);
      }
    }

    /** What comes before a fresh request is applied: the look, the backup, the newer binary. */
    method Prepare(o: Outcomes) returns (ok: bool, end: End)
      requires Valid() && events == [] && stage == TakenUp(opts, env) && !Quiet(opts) && !env.started && !Refused(opts)
      modifies this
      ensures Valid() && Segment(n, opts, env, events, end) && (ok && end == Finished ==> stage == Saved)
      ensures (end == Execed <==> HandsOver(opts, env, o)) && (ok <==> end == Execed || Deploys(opts, env, o))
      ensures events == Previewed(n, opts, env, o) + BackedUp(n, opts, env, o) + Sought(n, opts, env, o)
      decreases 6
    {
      end := Finished;
      ok := Secure(o);
      if ok {
        ok, end := Seek(o);
      } else {
        NothingSought(events, n, opts, env, o);
      }
    }

    /** The last part of every run that is not dry: the deployment. */
    method Deploy(o: Outcomes) returns (ok: bool)
      requires Valid() && !opts.dryRun && !Refused(opts) && (!opts.check ==> stage == Saved || stage == Continued)
      modifies this
      ensures Valid() && Segment(n, opts, env, events, Finished)
      ensures opts.check ==> ok == o.review && events == old(events) + [Checked(n, o.review)]
      ensures !opts.check ==> (ok <==> o.apply == ApplyDone) && events == old(events) + Applies(n, o.apply)
      decreases 0
    {
      ok := InstallerUpgrade(opts.check, o.review, o.apply);
    }

    /** `runUpgradeNamed`. */
    method RunUpgradeNamed(o: Outcomes) returns (ok: bool, end: End)
      requires Valid() && events == [] && stage == TakenUp(opts, env)
      modifies this
      ensures Valid() && Segment(n, opts, env, events, end) && Reported(n, opts, env, events, end, ok)
      ensures (end == Execed <==> HandsOver(opts, env, o)) && (ok <==> Succeeds(opts, env, o))
      ensures events == Story(n, opts, env, o)
      decreases if OnlyLooks(opts) then 1 else 7
    {
      ok, end := false, Finished;
      AnswersTruly(n, opts, env, o);
      if (opts.version && opts.noDownload) || (opts.dryRun && opts.noDownload) || opts.badMode {
        return;
      }
      if opts.dryRun {
        ok := DryRun(o);
        return;
      }
      if !opts.check && !env.started {
        ok, end := Prepare(o);
        if !ok || end == Execed {
          return;
        }
      }
      ok := Deploy(o);
    }
  }

  /** What the command's answer is worth: a refusal did nothing; a preview comes first and a failed one is
      all there is; a success looked, or applied, or carried on in the new release. */
  lemma AnswersTruly(n: nat, opts: Options, env: Env, o: Outcomes)
    ensures var end := if HandsOver(opts, env, o) then Execed else Finished;
      Reported(n, opts, env, Story(n, opts, env, o), end, Succeeds(opts, env, o))
  {
    var deployed := Deployed(n, opts, env, o);
    var before := Previewed(n, opts, env, o) + BackedUp(n, opts, env, o) + Sought(n, opts, env, o);
    assert deployed != [] ==> (before + deployed)[|before + deployed| - 1] == deployed[|deployed| - 1];
    ConcatNothing(before);
  }

  /** A request that is handed over comes to the deployment in the newer release, which does nothing else
      for it: no second backup, no second look for a release. */
  lemma HandedOverIsApplied(n: nat, opts: Options, env: Env, o: Outcomes, later: Outcomes)
    requires HandsOver(opts, env, o)
    ensures Story(n, opts, CONTINUED, later) == Applies(n, later.apply)
    ensures Succeeds(opts, CONTINUED, later) <==> later.apply == ApplyDone
  {
  }

  // ----- Many processes -----

  /** The command a process is running: the events it has still to write, and how it will end. */
  datatype Job = Job(n: nat, todo: seq<Event>, end: End, continuation: bool)

  /** A process: a plain command, or the launcher, which can be idle. */
  datatype Proc = Proc(home: bool, env: Env, job: Option<Job>)

  datatype World = World(procs: map<nat, Proc>, requests: seq<Options>, log: seq<Event>)

  const EMPTY := World(map[], [], [])

  datatype Step =
    /** An operator types the command in a shell without the continuation marker. */
    | Shell(pid: nat, opts: Options, noSelfUpdate: bool, todo: seq<Event>, end: End)
    | OpenHome(pid: nat, noSelfUpdate: bool)
    /** An operator picks the command in the launcher. */
    | Pick(pid: nat, opts: Options, todo: seq<Event>, end: End)
    | Write(pid: nat)
    | Exit(pid: nat)
    /** The new release replaces the process and takes the request up. */
    | Replace(pid: nat, homeAvailable: bool, todo: seq<Event>, end: End)
    | Kill(pid: nat)

  predicate Enabled(w: World, s: Step) {
    match s
    case Shell(pid, opts, b, todo, end) =>
      pid !in w.procs && Segment(|w.requests|, opts, Env(b, false, false), todo, end)
    case OpenHome(pid, _) => pid !in w.procs
    case Pick(pid, opts, todo, end) =>
      && pid in w.procs && w.procs[pid].home && w.procs[pid].job.None?
      && Segment(|w.requests|, opts, w.procs[pid].env, todo, end)
    case Write(pid) => pid in w.procs && w.procs[pid].job.Some? && w.procs[pid].job.value.todo != []
    case Exit(pid) =>
      && pid in w.procs && w.procs[pid].job.Some?
      && w.procs[pid].job.value.todo == [] && w.procs[pid].job.value.end == Finished
    case Replace(pid, _, todo, end) =>
      && pid in w.procs && w.procs[pid].job.Some?
      && w.procs[pid].job.value.todo == [] && w.procs[pid].job.value.end == Execed
      && w.procs[pid].job.value.n < |w.requests|
      && Segment(w.procs[pid].job.value.n, w.requests[w.procs[pid].job.value.n], CONTINUED, todo, end)
    case Kill(pid) => pid in w.procs
  }

  /** The environment the new release sees, once `dispatchWithHome` has read the third marker. */
  const CONTINUED := Env(true, true, false)

  /** What `clearUpgradeContinuation` leaves. */
  function Unmarked(env: Env): Env { env.(noSelfUpdate := false, started := false) }

  function Take(w: World, s: Step): World
    requires Enabled(w, s)
  {
    match s
    case Shell(pid, opts, b, todo, end) =>
      w.(procs := w.procs[pid := Proc(false, Env(b, false, false), Some(Job(|w.requests|, todo, end, false)))],
         requests := w.requests + [opts])
    case OpenHome(pid, b) => w.(procs := w.procs[pid := Proc(true, Env(b, false, false), None)])
    case Pick(pid, opts, todo, end) =>
      w.(procs := w.procs[pid := w.procs[pid].(job := Some(Job(|w.requests|, todo, end, false)))],
         requests := w.requests + [opts])
    case Write(pid) =>
      var job := w.procs[pid].job.value;
      w.(procs := w.procs[pid := w.procs[pid].(job := Some(job.(todo := job.todo[1..])))], log := w.log + [job.todo[0]])
    case Exit(pid) =>
      var p := w.procs[pid];
      if p.home then
        w.(procs := w.procs[pid := p.(job := None, env := if p.job.value.continuation then Unmarked(p.env) else p.env)])
      else w.(procs := w.procs - {pid})
    case Replace(pid, homeAvailable, todo, end) =>
      // The launcher hands the request back to a launcher, where there is a terminal for one.
      var home := w.procs[pid].home && homeAvailable;
      w.(procs := w.procs[pid := Proc(home, CONTINUED, Some(Job(w.procs[pid].job.value.n, todo, end, true)))])
    case Kill(pid) => w.(procs := w.procs - {pid})
  }

  // ----- What holds of every world -----

  /** The events of one request, in order. */
  function Of(log: seq<Event>, n: nat): seq<Event> {
    if log == [] then []
    else
      var last := log[|log| - 1];
      Of(log[..|log| - 1], n) + if last.request == n then [last] else []
  }

  lemma OfSnoc(log: seq<Event>, e: Event, n: nat)
    ensures Of(log + [e], n) == Of(log, n) + if e.request == n then [e] else []
  {
    SnocInit(log, e);
  }

  /** A job carries on where the log of its request stands. */
  ghost predicate JobFits(requests: seq<Options>, log: seq<Event>, p: Proc) {
    p.job.Some? ==>
      var job := p.job.value;
      && job.n < |requests|
      && (forall i :: 0 <= i < |job.todo| ==> job.todo[i].request == job.n)
      && RunFrom(Begin(requests[job.n]), Of(log, job.n) + job.todo).Some?
      && (job.end == Execed ==> RunFrom(Begin(requests[job.n]), Of(log, job.n) + job.todo) == Some(Continued))
      && (Quiet(requests[job.n]) ==> job.end == Finished && forall i :: 0 <= i < |job.todo| ==> !Changes(job.todo[i]))
  }

  /** A launcher that could pick another request has no marker left in its environment. */
  ghost predicate MarkersFit(p: Proc) {
    && (p.job.None? ==> p.home && !p.env.started)
    && (p.job.Some? && p.home && p.env.started ==> p.job.value.continuation)
    && (p.job.Some? && p.env.started ==> p.job.value.end == Finished)
  }

  /** What the log says of request n. */
  ghost predicate Orderly(opts: Options, events: seq<Event>) {
    && RunFrom(Begin(opts), events).Some?
    && (Quiet(opts) ==> forall i :: 0 <= i < |events| ==> !Changes(events[i]))
  }

  /** Every job carries on where the log of its request stands. */
  ghost predicate JobsFit(procs: map<nat, Proc>, requests: seq<Options>, log: seq<Event>) {
    forall pid :: pid in procs ==> JobFits(requests, log, procs[pid]) && MarkersFit(procs[pid])
  }

  /** No two processes serve one request. */
  ghost predicate JobsApart(procs: map<nat, Proc>) {
    forall p, q :: p in procs && q in procs && p != q && procs[p].job.Some? && procs[q].job.Some? ==>
      procs[p].job.value.n != procs[q].job.value.n
  }

  ghost predicate LogOrderly(requests: seq<Options>, log: seq<Event>) {
    forall n :: 0 <= n < |requests| ==> Orderly(requests[n], Of(log, n))
  }

  ghost predicate LogKnown(requests: seq<Options>, log: seq<Event>) {
    forall i :: 0 <= i < |log| ==> log[i].request < |requests|
  }

  ghost predicate Good(w: World) {
    && JobsFit(w.procs, w.requests, w.log) && JobsApart(w.procs)
    && LogOrderly(w.requests, w.log) && LogKnown(w.requests, w.log)
  }

  lemma {:induction false} RunConcat(s: Stage, a: seq<Event>, b: seq<Event>)
    ensures RunFrom(s, a + b) == if RunFrom(s, a).None? then None else RunFrom(RunFrom(s, a).value, b)
    decreases |b|
  {
    if b == [] {
      ConcatNothing(a);
    } else {
      var init, e := b[..|b| - 1], b[|b| - 1];
      RunConcat(s, a, init);
      LastOff(b);
      ConcatAssociates(a, init, [e]);
      RunSnoc(s, a + init, e);
    }
  }

  lemma {:induction false} OfNone(log: seq<Event>, n: nat)
    requires forall i :: 0 <= i < |log| ==> log[i].request != n
    ensures Of(log, n) == []
    decreases |log|
  {
    if log != [] {
      OfNone(log[..|log| - 1], n);
    }
  }

  /** A request that was not made before, in a process without the continuation marker. */
  lemma NewJobFits(w: World, opts: Options, env: Env, home: bool, todo: seq<Event>, end: End)
    requires Good(w) && !env.started && Segment(|w.requests|, opts, env, todo, end)
    ensures JobFits(w.requests + [opts], w.log, Proc(home, env, Some(Job(|w.requests|, todo, end, false))))
    ensures Of(w.log, |w.requests|) == []
  {
    OfNone(w.log, |w.requests|);
    ConcatNothing(todo);
    SnocInit(w.requests, opts);
  }

  lemma OldJobFits(w: World, opts: Options, p: Proc)
    requires JobFits(w.requests, w.log, p)
    ensures JobFits(w.requests + [opts], w.log, p)
  {
  }

  lemma StartKeepsGood(w: World, pid: nat, opts: Options, env: Env, home: bool, todo: seq<Event>, end: End)
    requires Good(w) && !env.started && Segment(|w.requests|, opts, env, todo, end)
    requires pid in w.procs ==> w.procs[pid].job.None?
    ensures Good(w.(procs := w.procs[pid := Proc(home, env, Some(Job(|w.requests|, todo, end, false)))],
                    requests := w.requests + [opts]))
  {
    NewJobFits(w, opts, env, home, todo, end);
    forall q | q in w.procs ensures JobFits(w.requests + [opts], w.log, w.procs[q]) {
      OldJobFits(w, opts, w.procs[q]);
    }
  }

  lemma WriteKeepsOthers(requests: seq<Options>, log: seq<Event>, e: Event, p: Proc)
    requires JobFits(requests, log, p) && (p.job.Some? ==> p.job.value.n != e.request)
    ensures JobFits(requests, log + [e], p)
  {
    if p.job.Some? {
      OfSnoc(log, e, p.job.value.n);
      ConcatNothing(Of(log, p.job.value.n));
    }
  }

  lemma OfWritten(log: seq<Event>, todo: seq<Event>, n: nat)
    requires todo != [] && todo[0].request == n
    ensures Of(log + [todo[0]], n) + todo[1..] == Of(log, n) + todo
  {
    OfSnoc(log, todo[0], n);
    FirstOff(todo);
    ConcatAssociates(Of(log, n), [todo[0]], todo[1..]);
  }

  lemma WrittenJobFits(requests: seq<Options>, log: seq<Event>, p: Proc)
    requires JobFits(requests, log, p) && p.job.Some? && p.job.value.todo != []
    ensures var job := p.job.value;
      && JobFits(requests, log + [job.todo[0]], p.(job := Some(job.(todo := job.todo[1..]))))
      && RunFrom(Begin(requests[job.n]), Of(log + [job.todo[0]], job.n)).Some?
  {
    var job := p.job.value;
    OfWritten(log, job.todo, job.n);
    RunConcat(Begin(requests[job.n]), Of(log + [job.todo[0]], job.n), job.todo[1..]);
  }

  lemma WriteKeepsOrder(requests: seq<Options>, log: seq<Event>, p: Proc, n: nat)
    requires JobFits(requests, log, p) && p.job.Some? && p.job.value.todo != []
    requires n < |requests| && Orderly(requests[n], Of(log, n))
    ensures Orderly(requests[n], Of(log + [p.job.value.todo[0]], n))
  {
    var job := p.job.value;
    if n == job.n {
      WrittenJobFits(requests, log, p);
      OfSnoc(log, job.todo[0], n);
      OrderlySnoc(requests[n], Of(log, n), job.todo[0]);
    } else {
      OfOther(log, job.todo[0], n);
    }
  }

  lemma OfOther(log: seq<Event>, e: Event, n: nat)
    requires e.request != n
    ensures Of(log + [e], n) == Of(log, n)
  {
    OfSnoc(log, e, n);
    ConcatNothing(Of(log, n));
  }

  lemma OrderlySnoc(opts: Options, events: seq<Event>, e: Event)
    requires Orderly(opts, events) && RunFrom(Begin(opts), events + [e]).Some? && (Quiet(opts) ==> !Changes(e))
    ensures Orderly(opts, events + [e])
  {
  }

  lemma WriteKeepsJobs(w: World, pid: nat)
    requires Good(w) && Enabled(w, Write(pid))
    ensures var w' := Take(w, Write(pid)); JobsFit(w'.procs, w'.requests, w'.log)
  {
    var w' := Take(w, Write(pid));
    var e := w.procs[pid].job.value.todo[0];
    assert JobFits(w.requests, w.log, w.procs[pid]);
    WrittenJobFits(w.requests, w.log, w.procs[pid]);
    forall q | q in w'.procs ensures JobFits(w'.requests, w'.log, w'.procs[q]) && MarkersFit(w'.procs[q]) {
      assert MarkersFit(w.procs[q]);
      if q != pid {
        WriteKeepsOthers(w.requests, w.log, e, w.procs[q]);
      }
    }
  }

  lemma WriteKeepsApart(w: World, pid: nat)
    requires JobsApart(w.procs) && Enabled(w, Write(pid))
    ensures JobsApart(Take(w, Write(pid)).procs)
  {
  }

  lemma WriteKeepsLog(w: World, pid: nat)
    requires Good(w) && Enabled(w, Write(pid))
    ensures var w' := Take(w, Write(pid)); LogOrderly(w'.requests, w'.log) && LogKnown(w'.requests, w'.log)
  {
    var w' := Take(w, Write(pid));
    assert JobFits(w.requests, w.log, w.procs[pid]);
    forall n | 0 <= n < |w'.requests| ensures Orderly(w'.requests[n], Of(w'.log, n)) {
      WriteKeepsOrder(w.requests, w.log, w.procs[pid], n);
    }
  }

  lemma WriteKeepsGood(w: World, pid: nat)
    requires Good(w) && Enabled(w, Write(pid))
    ensures Good(Take(w, Write(pid)))
  {
    WriteKeepsJobs(w, pid);
    WriteKeepsApart(w, pid);
    WriteKeepsLog(w, pid);
  }

  lemma ReplaceKeepsGood(w: World, s: Step)
    requires Good(w) && s.Replace? && Enabled(w, s)
    ensures Good(Take(w, s))
  {
    var w', n := Take(w, s), w.procs[s.pid].job.value.n;
    ConcatNothing(Of(w.log, n));
    RunConcat(Begin(w.requests[n]), Of(w.log, n), s.todo);
    assert JobFits(w'.requests, w'.log, w'.procs[s.pid]);
    forall q | q in w.procs && q != s.pid ensures JobFits(w'.requests, w'.log, w'.procs[q]) {
      assert JobFits(w.requests, w.log, w.procs[q]);
    }
  }

  lemma DropKeepsGood(w: World, w': World)
    requires Good(w) && w'.requests == w.requests && w'.log == w.log
    requires forall pid :: pid in w'.procs ==>
      if pid in w.procs then w'.procs[pid] == w.procs[pid] || (w'.procs[pid].job.None? && MarkersFit(w'.procs[pid]))
      else w'.procs[pid].job.None? && MarkersFit(w'.procs[pid])
    ensures Good(w')
  {
    forall pid | pid in w'.procs ensures JobFits(w'.requests, w'.log, w'.procs[pid]) {
      if pid in w.procs {
        assert JobFits(w.requests, w.log, w.procs[pid]);
      }
    }
  }

  lemma TakeKeepsGood(w: World, s: Step)
    requires Good(w) && Enabled(w, s)
    ensures Good(Take(w, s))
  {
    match s {
      case Shell(pid, opts, b, todo, end) => StartKeepsGood(w, pid, opts, Env(b, false, false), false, todo, end);
      case Pick(pid, opts, todo, end) =>
        StartKeepsGood(w, pid, opts, w.procs[pid].env, true, todo, end);
      case Write(pid) => WriteKeepsGood(w, pid);
      case Replace(_, _, _, _) => ReplaceKeepsGood(w, s);
      case OpenHome(_, _) => DropKeepsGood(w, Take(w, s));
      case Exit(_) => DropKeepsGood(w, Take(w, s));
      case Kill(_) => DropKeepsGood(w, Take(w, s));
    }
  }

  /** The world some steps lead to; a step that cannot be taken is left out. */
  function After(steps: seq<Step>): World {
    if steps == [] then EMPTY
    else
      var w, s := After(steps[..|steps| - 1]), steps[|steps| - 1];
      if Enabled(w, s) then Take(w, s) else w
  }

  lemma {:induction false} AfterIsGood(steps: seq<Step>)
    ensures Good(After(steps))
    decreases |steps|
  {
    if steps != [] {
      var w, s := After(steps[..|steps| - 1]), steps[|steps| - 1];
      AfterIsGood(steps[..|steps| - 1]);
      if Enabled(w, s) {
        TakeKeepsGood(w, s);
      }
    }
  }

  // ----- What that means for the host -----

  lemma {:induction false} OfConcat(a: seq<Event>, b: seq<Event>, n: nat)
    ensures Of(a + b, n) == Of(a, n) + Of(b, n)
    decreases |b|
  {
    if b == [] {
      ConcatNothing(a);
      ConcatNothing(Of(a, n));
    } else {
      var init, e := b[..|b| - 1], b[|b| - 1];
      OfConcat(a, init, n);
      LastOff(b);
      ConcatAssociates(a, init, [e]);
      OfSnoc(a + init, e, n);
      ConcatAssociates(Of(a, n), Of(init, n), if e.request == n then [e] else []);
    }
  }

  lemma {:induction false} OfComesFrom(log: seq<Event>, n: nat, k: nat) returns (j: nat)
    requires k < |Of(log, n)|
    ensures j < |log| && log[j] == Of(log, n)[k] && log[j].request == n
    decreases |log|
  {
    var init := log[..|log| - 1];
    if k < |Of(init, n)| {
      j := OfComesFrom(init, n, k);
    } else {
      j := |log| - 1;
    }
  }

  /** The stage of its request when an event was written. */
  lemma StageAt(opts: Options, log: seq<Event>, i: nat) returns (t: Stage)
    requires i < |log| && RunFrom(Begin(opts), Of(log, log[i].request)).Some?
    ensures RunFrom(Begin(opts), Of(log[..i], log[i].request)) == Some(t)
    ensures Next(t, log[i]).Some?
    ensures RunFrom(Begin(opts), Of(log[..i + 1], log[i].request)) == Next(t, log[i])
  {
    var n, s := log[i].request, Begin(opts);
    Cut(log, i + 1);
    OfConcat(log[..i + 1], log[i + 1..], n);
    RunConcat(s, Of(log[..i + 1], n), Of(log[i + 1..], n));
    LastOff(log[..i + 1]);
    TakeTake(log, i + 1, i);
    OfSnoc(log[..i], log[i], n);
    RunSnoc(s, Of(log[..i], n), log[i]);
    t := RunFrom(s, Of(log[..i], n)).value;
  }

  function Rank(s: Stage): nat {
    match s
    case Fresh => 0 case Saved => 1 case Cleared => 2 case Swapped => 3
    case Continued => 4 case Applied => 5 case Stopped => 6
  }

  lemma {:induction false} RankGrows(s: Stage, events: seq<Event>)
    requires RunFrom(s, events).Some?
    ensures Rank(s) <= Rank(RunFrom(s, events).value)
    decreases |events|
  {
    if events != [] {
      RankGrows(s, events[..|events| - 1]);
    }
  }

  /** Past the first stage, a request that did not waive it has a successful backup. */
  lemma {:induction false} HasBackup(events: seq<Event>) returns (k: nat)
    requires RunFrom(Fresh, events).Some? && RunFrom(Fresh, events).value !in {Fresh, Stopped}
    ensures k < |events| && events[k].Backup? && events[k].ok
    decreases |events|
  {
    var init := events[..|events| - 1];
    if RunFrom(Fresh, init).value == Fresh {
      k := |events| - 1;
    } else {
      k := HasBackup(init);
    }
  }

  /** Once cleared, a request has a passing pre-flight by the release about to be installed. */
  lemma {:induction false} HasPreflight(opts: Options, events: seq<Event>) returns (k: nat)
    requires RunFrom(Begin(opts), events) == Some(Cleared)
    ensures k < |events| && events[k] == Preflight(events[k].request, true)
    decreases |events|
  {
    var init := events[..|events| - 1];
    if RunFrom(Begin(opts), init) == Some(Cleared) {
      k := HasPreflight(opts, init);
    } else {
      k := |events| - 1;
    }
  }

  /** In every world, nothing of a request changes the host before its own backup succeeded, and
      its binary is swapped only after its candidate accepted the deployment. */
  lemma SavedBeforeChanged(steps: seq<Step>, i: nat)
    requires i < |After(steps).log|
    ensures var w := After(steps); var e := w.log[i];
      && e.request < |w.requests|
      && (Changes(e) && !e.Backup? && !w.requests[e.request].noBackup ==>
            exists j :: 0 <= j < i && w.log[j] == Backup(e.request, true))
      && (e.Swap? ==> exists j :: 0 <= j < i && w.log[j] == Preflight(e.request, true))
  {
    var w := After(steps);
    AfterIsGood(steps);
    var e := w.log[i];
    var opts := w.requests[e.request];
    assert Orderly(opts, Of(w.log, e.request));
    var t := StageAt(opts, w.log, i);
    if Changes(e) && !e.Backup? && !opts.noBackup {
      var j := OwnBackup(opts, w.log, i);
    }
    if e.Swap? {
      var k := HasPreflight(opts, Of(w.log[..i], e.request));
      var j := OfComesFrom(w.log[..i], e.request, k);
      assert w.log[j] == Preflight(e.request, true);
    }
  }

  predicate SameKind(e: Event, f: Event) {
    || (e.Backup? && f.Backup?) || (e.Swap? && f.Swap?) || (e.Exec? && f.Exec?)
    || (e.ExecFailed? && f.ExecFailed?) || (e.Apply? && f.Apply?) || (e.RolledBack? && f.RolledBack?)
  }

  lemma NotTwice(opts: Options, log: seq<Event>, i: nat, j: nat)
    requires i < j < |log| && log[i].request == log[j].request
    requires RunFrom(Begin(opts), Of(log, log[i].request)).Some?
    ensures !SameKind(log[i], log[j])
  {
    var n := log[i].request;
    var t := StageAt(opts, log, i);
    var u := StageAt(opts, log, j);
    StagesGrow(opts, log, i + 1, j, n);
    if SameKind(log[i], log[j]) {
      OncePerKind(t, log[i], u, log[j]);
    }
  }

  /** An event leads past every stage at which another of its kind is allowed. */
  lemma OncePerKind(t: Stage, e: Event, u: Stage, f: Event)
    requires SameKind(e, f) && Next(t, e).Some? && Next(u, f).Some?
    ensures Rank(u) < Rank(Next(t, e).value)
  {
  }

  lemma StagesGrow(opts: Options, log: seq<Event>, i: nat, j: nat, n: nat)
    requires i <= j <= |log|
    requires RunFrom(Begin(opts), Of(log[..i], n)).Some? && RunFrom(Begin(opts), Of(log[..j], n)).Some?
    ensures Rank(RunFrom(Begin(opts), Of(log[..i], n)).value) <= Rank(RunFrom(Begin(opts), Of(log[..j], n)).value)
  {
    var between := log[..j][i..];
    Cut(log[..j], i);
    TakeTake(log, j, i);
    OfConcat(log[..i], between, n);
    RunConcat(Begin(opts), Of(log[..i], n), Of(between, n));
    RankGrows(RunFrom(Begin(opts), Of(log[..i], n)).value, Of(between, n));
  }

  /** A request backs up, swaps, re-executes and applies at most once, however many processes serve it. */
  lemma NothingTwice(steps: seq<Step>, i: nat, j: nat)
    requires i < j < |After(steps).log| && After(steps).log[i].request == After(steps).log[j].request
    ensures !SameKind(After(steps).log[i], After(steps).log[j])
  {
    var w := After(steps);
    AfterIsGood(steps);
    assert Orderly(w.requests[w.log[i].request], Of(w.log, w.log[i].request));
    NotTwice(w.requests[w.log[i].request], w.log, i, j);
  }

  /** A dry run, a check and a candidate's own check never change the host. */
  lemma QuietChangesNothing(steps: seq<Step>, i: nat)
    requires i < |After(steps).log|
    ensures var w := After(steps); var e := w.log[i];
      e.request < |w.requests| && (Quiet(w.requests[e.request]) ==> !Changes(e))
  {
    var w := After(steps);
    AfterIsGood(steps);
    var e := w.log[i];
    assert Orderly(w.requests[e.request], Of(w.log, e.request));
    Cut(w.log, i + 1);
    LastOff(w.log[..i + 1]);
    TakeTake(w.log, i + 1, i);
    OfSnoc(w.log[..i], e, e.request);
    OfConcat(w.log[..i + 1], w.log[i + 1..], e.request);
    assert Of(w.log, e.request)[|Of(w.log[..i], e.request)|] == e;
  }

  // ----- Swaps and the backups before them -----

  /** The swap at i has its own backup, newer than every swap before it. */
  ghost predicate CoveredAt(log: seq<Event>, i: nat)
    requires i < |log|
  {
    exists j :: 0 <= j < i && log[j] == Backup(log[i].request, true) && NoSwapWithin(log, j + 1, i)
  }

  predicate NoSwapWithin(log: seq<Event>, from: int, to: int) {
    forall k :: from <= k < to && 0 <= k < |log| ==> !log[k].Swap?
  }

  /** The swap at i is of a request that takes a backup. */
  predicate NeedsCover(requests: seq<Options>, log: seq<Event>, i: nat)
    requires i < |log|
  {
    log[i].Swap? && log[i].request < |requests| && !requests[log[i].request].noBackup
  }

  /** Every swap is, unless its request goes without a backup. */
  ghost predicate Covered(requests: seq<Options>, log: seq<Event>) {
    forall i: nat :: i < |log| && NeedsCover(requests, log, i) ==> CoveredAt(log, i)
  }

  /** A process that has still to swap. */
  predicate WillSwap(p: Proc) { p.job.Some? && HasSwap(p.job.value.todo) }

  /** One that has still to swap and takes a backup first. */
  predicate Guarded(requests: seq<Options>, p: Proc) {
    WillSwap(p) && p.job.value.n < |requests| && !requests[p.job.value.n].noBackup
  }

  /** No swap since the backup of request n, if it was made. */
  ghost predicate BackupFresh(log: seq<Event>, n: nat) {
    forall j :: 0 <= j < |log| && log[j] == Backup(n, true) ==> NoSwapWithin(log, j + 1, |log|)
  }

  ghost predicate SafeFor(w: World, p: nat)
    requires p in w.procs && w.procs[p].job.Some?
  {
    && BackupFresh(w.log, w.procs[p].job.value.n)
    && forall q :: q in w.procs && q != p ==> !WillSwap(w.procs[q])
  }

  /** Whoever has still to swap under a backup finds that backup the newest, and is the only one that
      has still to swap. */
  ghost predicate Safe(w: World) {
    forall p :: p in w.procs && Guarded(w.requests, w.procs[p]) ==> SafeFor(w, p)
  }

  predicate Starts(s: Step) { s.Shell? || s.Pick? }

  /** A request that will swap is made only while nobody else has still to swap, unless both go
      without a backup. Checks, dry runs and upgrades that find nothing newer can be made any time. */
  predicate StartsApart(w: World, s: Step)
    requires Starts(s)
  {
    HasSwap(s.todo) ==> forall q :: q in w.procs && WillSwap(w.procs[q]) && w.procs[q].job.value.n < |w.requests| ==>
      s.opts.noBackup && w.requests[w.procs[q].job.value.n].noBackup
  }

  // Writing.

  lemma OwnBackup(opts: Options, log: seq<Event>, i: nat) returns (j: nat)
    requires i < |log| && RunFrom(Begin(opts), Of(log, log[i].request)).Some?
    requires Changes(log[i]) && !log[i].Backup? && !opts.noBackup
    ensures j < i && log[j] == Backup(log[i].request, true)
  {
    var t := StageAt(opts, log, i);
    var k := HasBackup(Of(log[..i], log[i].request));
    j := OfComesFrom(log[..i], log[i].request, k);
  }

  lemma NoSwapMore(log: seq<Event>, e: Event, from: int)
    requires NoSwapWithin(log, from, |log|) && !e.Swap?
    ensures NoSwapWithin(log + [e], from, |log| + 1)
  {
  }

  lemma CoveredMore(log: seq<Event>, e: Event, i: nat)
    requires i < |log| && CoveredAt(log, i)
    ensures CoveredAt(log + [e], i)
  {
    var j :| 0 <= j < i && log[j] == Backup(log[i].request, true) && NoSwapWithin(log, j + 1, i);
    assert (log + [e])[j] == log[j] && NoSwapWithin(log + [e], j + 1, i);
  }

  /** A swap just written, by a process that was safe. */
  lemma NewSwapCovered(opts: Options, log: seq<Event>, e: Event)
    requires e.Swap? && !opts.noBackup && BackupFresh(log, e.request)
    requires RunFrom(Begin(opts), Of(log + [e], e.request)).Some?
    ensures CoveredAt(log + [e], |log|)
  {
    var j := OwnBackup(opts, log + [e], |log|);
    assert log[j] == Backup(e.request, true);
    assert NoSwapWithin(log + [e], j + 1, |log|);
  }

  lemma FirstWillSwap(p: Proc)
    requires p.job.Some? && p.job.value.todo != [] && p.job.value.todo[0].Swap?
    ensures WillSwap(p)
  {
  }

  lemma WriteKeepsCovered(w: World, pid: nat)
    requires Good(w) && Safe(w) && Covered(w.requests, w.log) && Enabled(w, Write(pid))
    ensures var w' := Take(w, Write(pid)); Covered(w'.requests, w'.log)
  {
    var w', e := Take(w, Write(pid)), w.procs[pid].job.value.todo[0];
    WriteKeepsLog(w, pid);
    assert JobFits(w.requests, w.log, w.procs[pid]);
    forall i: nat | i < |w'.log| && NeedsCover(w'.requests, w'.log, i) ensures CoveredAt(w'.log, i) {
      if i < |w.log| {
        assert NeedsCover(w.requests, w.log, i);
        CoveredMore(w.log, e, i);
      } else {
        FirstWillSwap(w.procs[pid]);
        assert Guarded(w.requests, w.procs[pid]) && SafeFor(w, pid);
        assert Orderly(w.requests[e.request], Of(w.log + [e], e.request));
        NewSwapCovered(w.requests[e.request], w.log, e);
      }
    }
  }

  /** A request's whole log is what is written and what its process has still to write. */
  lemma WholeLog(w: World, pid: nat)
    requires Good(w) && pid in w.procs && w.procs[pid].job.Some?
    ensures var job := w.procs[pid].job.value;
      job.n < |w.requests| && RunFrom(Begin(w.requests[job.n]), Of(w.log + job.todo, job.n)).Some?
  {
    var job := w.procs[pid].job.value;
    assert JobFits(w.requests, w.log, w.procs[pid]);
    OfConcat(w.log, job.todo, job.n);
    OfAll(job.todo, job.n);
  }

  lemma {:induction false} OfAll(events: seq<Event>, n: nat)
    requires forall i :: 0 <= i < |events| ==> events[i].request == n
    ensures Of(events, n) == events
    decreases |events|
  {
    if events != [] {
      OfAll(events[..|events| - 1], n);
      LastOff(events);
    }
  }

  /** A request swaps once. */
  lemma SwapsOnce(w: World, pid: nat, i: nat, j: nat)
    requires Good(w) && pid in w.procs && w.procs[pid].job.Some? && i < j < |w.procs[pid].job.value.todo|
    requires w.procs[pid].job.value.todo[i].Swap?
    ensures !w.procs[pid].job.value.todo[j].Swap?
  {
    var job := w.procs[pid].job.value;
    assert JobFits(w.requests, w.log, w.procs[pid]);
    WholeLog(w, pid);
    var all := w.log + job.todo;
    assert all[|w.log| + i] == job.todo[i] && all[|w.log| + j] == job.todo[j];
    NotTwice(w.requests[job.n], all, |w.log| + i, |w.log| + j);
  }

  lemma WriteLeaves(w: World, pid: nat)
    requires Good(w) && Enabled(w, Write(pid))
    ensures var p, p' := w.procs[pid], Take(w, Write(pid)).procs[pid];
      && (WillSwap(p') ==> WillSwap(p) && !p.job.value.todo[0].Swap?)
      && p'.job.value.n == p.job.value.n
  {
    var p, p' := w.procs[pid], Take(w, Write(pid)).procs[pid];
    if WillSwap(p') {
      var i :| 0 <= i < |p'.job.value.todo| && p'.job.value.todo[i].Swap?;
      assert p.job.value.todo[i + 1].Swap?;
      if p.job.value.todo[0].Swap? {
        SwapsOnce(w, pid, 0, i + 1);
      }
    }
  }

  lemma FreshMore(log: seq<Event>, e: Event, n: nat)
    requires BackupFresh(log, n) && !e.Swap?
    ensures BackupFresh(log + [e], n)
  {
    forall j | 0 <= j < |log| + 1 && (log + [e])[j] == Backup(n, true)
      ensures NoSwapWithin(log + [e], j + 1, |log| + 1)
    {
      if j < |log| {
        assert log[j] == Backup(n, true);
        NoSwapMore(log, e, j + 1);
      }
    }
  }

  lemma WriteKeepsSafe(w: World, pid: nat)
    requires Good(w) && Safe(w) && Enabled(w, Write(pid))
    ensures Safe(Take(w, Write(pid)))
  {
    var w', e := Take(w, Write(pid)), w.procs[pid].job.value.todo[0];
    WriteLeaves(w, pid);
    if e.Swap? {
      FirstWillSwap(w.procs[pid]);
    }
    forall p | p in w'.procs && Guarded(w'.requests, w'.procs[p]) ensures SafeFor(w', p) {
      assert Guarded(w.requests, w.procs[p]) && SafeFor(w, p);
      if !e.Swap? {
        FreshMore(w.log, e, w.procs[p].job.value.n);
      }
    }
  }

  // Starting.

  lemma StartKeepsSafe(w: World, s: Step)
    requires Good(w) && Safe(w) && Covered(w.requests, w.log) && Starts(s) && Enabled(w, s) && StartsApart(w, s)
    ensures Safe(Take(w, s)) && Covered(Take(w, s).requests, Take(w, s).log)
  {
    var w' := Take(w, s);
    forall i: nat | i < |w'.log| && NeedsCover(w'.requests, w'.log, i) ensures CoveredAt(w'.log, i) {
      assert NeedsCover(w.requests, w.log, i);
    }
    forall p | p in w'.procs && Guarded(w'.requests, w'.procs[p]) ensures SafeFor(w', p) {
      if p != s.pid {
        assert JobFits(w.requests, w.log, w.procs[p]);
        assert Guarded(w.requests, w.procs[p]) && SafeFor(w, p);
      } else {
        forall q | q in w'.procs && q != p ensures !WillSwap(w'.procs[q]) {
          assert JobFits(w.requests, w.log, w.procs[q]);
        }
      }
    }
  }

  // Everything else.

  /** Once continued, a request has swapped. */
  lemma NoSwapOnceContinued(todo: seq<Event>)
    requires RunFrom(Continued, todo).Some?
    ensures !HasSwap(todo)
  {
    if HasSwap(todo) {
      var i :| 0 <= i < |todo| && todo[i].Swap?;
      RunsSoFar(Continued, todo, i);
      RankGrows(Continued, todo[..i]);
    }
  }

  lemma {:induction false} RunsSoFar(s: Stage, events: seq<Event>, i: nat)
    requires RunFrom(s, events).Some? && i < |events|
    ensures RunFrom(s, events[..i]).Some? && Next(RunFrom(s, events[..i]).value, events[i]).Some?
    decreases |events|
  {
    var init := events[..|events| - 1];
    if i < |init| {
      RunsSoFar(s, init, i);
      TakeTake(events, |init|, i);
    }
  }

  /** Processes that end, and jobs with no swap left, leave the others as safe. */
  lemma FewerSwapsSafe(w: World, w': World)
    requires Safe(w) && w'.requests == w.requests && w'.log == w.log
    requires forall pid :: pid in w'.procs && WillSwap(w'.procs[pid]) ==>
      pid in w.procs && w'.procs[pid] == w.procs[pid]
    ensures Safe(w')
  {
    forall p | p in w'.procs && Guarded(w'.requests, w'.procs[p]) ensures SafeFor(w', p) {
      assert SafeFor(w, p);
    }
  }

  lemma TakeKeepsSafe(w: World, s: Step)
    requires Good(w) && Safe(w) && Covered(w.requests, w.log) && Enabled(w, s) && (Starts(s) ==> StartsApart(w, s))
    ensures Safe(Take(w, s)) && Covered(Take(w, s).requests, Take(w, s).log)
  {
    if Starts(s) {
      StartKeepsSafe(w, s);
    } else if s.Write? {
      WriteKeepsSafe(w, s.pid);
      WriteKeepsCovered(w, s.pid);
    } else {
      if s.Replace? {
        NoSwapOnceContinued(s.todo);
      }
      FewerSwapsSafe(w, Take(w, s));
    }
  }

  // ----- From a world on -----

  /** Where some steps lead from w; a step that cannot be taken is left out. */
  function From(w: World, steps: seq<Step>): World {
    if steps == [] then w
    else
      var v, s := From(w, steps[..|steps| - 1]), steps[|steps| - 1];
      if Enabled(v, s) then Take(v, s) else v
  }

  predicate NoneStarts(steps: seq<Step>) { forall i :: 0 <= i < |steps| ==> !Starts(steps[i]) }

  lemma {:induction false} SafeOnwards(w: World, steps: seq<Step>)
    requires Good(w) && Safe(w) && Covered(w.requests, w.log) && NoneStarts(steps)
    ensures var v := From(w, steps); Good(v) && Safe(v) && Covered(v.requests, v.log)
    decreases |steps|
  {
    if steps != [] {
      var init, s := steps[..|steps| - 1], steps[|steps| - 1];
      SafeOnwards(w, init);
      if Enabled(From(w, init), s) {
        TakeKeepsGood(From(w, init), s);
        TakeKeepsSafe(From(w, init), s);
      }
    }
  }

  lemma {:induction false} FromConcat(w: World, a: seq<Step>, b: seq<Step>)
    ensures From(w, a + b) == From(From(w, a), b)
    decreases |b|
  {
    if b == [] {
      ConcatNothing(a);
    } else {
      var init, s := b[..|b| - 1], b[|b| - 1];
      LastOff(b);
      ConcatAssociates(a, init, [s]);
      SnocInit(a + init, s);
      FromConcat(w, a, init);
    }
  }

  lemma {:induction false} AfterIsFrom(steps: seq<Step>)
    ensures After(steps) == From(EMPTY, steps)
    decreases |steps|
  {
    if steps != [] {
      AfterIsFrom(steps[..|steps| - 1]);
    }
  }

  /** The world once process pid has written k more events. */
  function Ahead(w: World, pid: nat, k: nat): World
    requires pid in w.procs && w.procs[pid].job.Some? && k <= |w.procs[pid].job.value.todo|
  {
    var p := w.procs[pid];
    var job := p.job.value;
    w.(procs := w.procs[pid := p.(job := Some(job.(todo := job.todo[k..])))], log := w.log + job.todo[..k])
  }

  lemma AheadOneMore(w: World, pid: nat, k: nat)
    requires pid in w.procs && w.procs[pid].job.Some? && k < |w.procs[pid].job.value.todo|
    ensures Enabled(Ahead(w, pid, k), Write(pid)) && Take(Ahead(w, pid, k), Write(pid)) == Ahead(w, pid, k + 1)
  {
    var todo := w.procs[pid].job.value.todo;
    DropDrop(todo, k, 1);
    LastOff(todo[..k + 1]);
    TakeTake(todo, k + 1, k);
    ConcatAssociates(w.log, todo[..k], [todo[k]]);
    assert Take(Ahead(w, pid, k), Write(pid)).procs == Ahead(w, pid, k + 1).procs;
  }

  lemma FromOneMore(w: World, steps: seq<Step>, v: World, s: Step)
    requires From(w, steps) == v && Enabled(v, s)
    ensures From(w, steps + [s]) == Take(v, s)
  {
    SnocInit(steps, s);
  }

  lemma AheadNone(w: World, pid: nat)
    requires pid in w.procs && w.procs[pid].job.Some?
    ensures Ahead(w, pid, 0) == w
  {
    WholeSlice(w.procs[pid].job.value.todo);
    ConcatNothing(w.log);
    assert Ahead(w, pid, 0).procs == w.procs;
  }

  /** Steps that lead to v go on to the world where pid has written k more events. */
  lemma {:induction false} WriteOn(w: World, steps: seq<Step>, v: World, pid: nat, k: nat) returns (more: seq<Step>)
    requires NoneStarts(steps) && From(w, steps) == v
    requires pid in v.procs && v.procs[pid].job.Some? && k <= |v.procs[pid].job.value.todo|
    ensures NoneStarts(more) && From(w, more) == Ahead(v, pid, k)
    decreases k
  {
    if k == 0 {
      more := steps;
      AheadNone(v, pid);
    } else {
      var before := WriteOn(w, steps, v, pid, k - 1);
      more := before + [Write(pid)];
      WriteOnce(w, before, v, pid, k - 1);
    }
  }

  lemma WriteOnce(w: World, steps: seq<Step>, v: World, pid: nat, k: nat)
    requires pid in v.procs && v.procs[pid].job.Some? && k < |v.procs[pid].job.value.todo|
    requires NoneStarts(steps) && From(w, steps) == Ahead(v, pid, k)
    ensures NoneStarts(steps + [Write(pid)]) && From(w, steps + [Write(pid)]) == Ahead(v, pid, k + 1)
  {
    AheadOneMore(v, pid, k);
    FromOneMore(w, steps, Ahead(v, pid, k), Write(pid));
  }

  // ----- Worlds that are not safe -----

  /** An uncovered swap: each backup of its request is followed by another swap. */
  lemma Uncovered(requests: seq<Options>, log: seq<Event>, i: nat)
    requires i < |log| && NeedsCover(requests, log, i)
    requires forall j :: 0 <= j < i && log[j] == Backup(log[i].request, true) ==> !NoSwapWithin(log, j + 1, i)
    ensures !Covered(requests, log)
  {
  }

  /** The backup of p's request is already older than a swap: it is enough that p goes on. */
  lemma StaleBreaks(w: World, p: nat, m: nat) returns (steps: seq<Step>)
    requires Good(w) && p in w.procs && Guarded(w.requests, w.procs[p]) && !BackupFresh(w.log, w.procs[p].job.value.n)
    requires m < |w.procs[p].job.value.todo| && w.procs[p].job.value.todo[m].Swap?
    ensures NoneStarts(steps) && !Covered(From(w, steps).requests, From(w, steps).log)
  {
    var job := w.procs[p].job.value;
    steps := WriteOn(w, [], w, p, m + 1);
    assert JobFits(w.requests, w.log, w.procs[p]);
    WholeLog(w, p);
    StaleLog(w.requests[job.n], w.log, job.todo, job.n, m);
    Uncovered(w.requests, w.log + job.todo[..m + 1], |w.log| + m);
  }

  lemma StaleLog(opts: Options, log: seq<Event>, todo: seq<Event>, n: nat, m: nat)
    requires m < |todo| && todo[m].Swap? && forall i :: 0 <= i < |todo| ==> todo[i].request == n
    requires !BackupFresh(log, n) && RunFrom(Begin(opts), Of(log + todo, n)).Some?
    ensures var all := log + todo[..m + 1];
      forall j :: 0 <= j < |log| + m && all[j] == Backup(n, true) ==> !NoSwapWithin(all, j + 1, |log| + m)
  {
    var whole, all := log + todo, log + todo[..m + 1];
    var j :| 0 <= j < |log| && log[j] == Backup(n, true) && !NoSwapWithin(log, j + 1, |log|);
    var k :| j + 1 <= k < |log| && log[k].Swap?;
    assert all[k].Swap?;
    forall i | 0 <= i < |log| + m && all[i] == Backup(n, true) ensures !NoSwapWithin(all, i + 1, |log| + m) {
      assert whole[i] == all[i] && whole[j] == log[j];
      if i < j {
        NotTwice(opts, whole, i, j);
      } else if j < i {
        NotTwice(opts, whole, j, i);
      }
    }
  }

  /** The place after the last backup among the first m events. */
  function AfterBackups(todo: seq<Event>, m: nat): (b: nat)
    requires m <= |todo|
    ensures b <= m && forall i :: b <= i < m ==> !todo[i].Backup?
  {
    if m == 0 then 0 else if todo[m - 1].Backup? then m else AfterBackups(todo, m - 1)
  }

  lemma AheadLeaves(w: World, p: nat, k: nat, q: nat)
    requires p in w.procs && w.procs[p].job.Some? && k <= |w.procs[p].job.value.todo| && q in w.procs && q != p
    ensures var v := Ahead(w, p, k);
      && v.requests == w.requests && v.log == w.log + w.procs[p].job.value.todo[..k] && q in v.procs
      && v.procs[q] == w.procs[q] && p in v.procs && v.procs[p].job.Some?
      && v.procs[p].job.value.todo == w.procs[p].job.value.todo[k..]
  {
  }

  /** Process p writes up to its b-th event, q its first l, and p on to its m-th. */
  lemma TakeTurns(w: World, p: nat, b: nat, q: nat, l: nat, m: nat) returns (steps: seq<Step>)
    requires p in w.procs && q in w.procs && p != q && w.procs[p].job.Some? && w.procs[q].job.Some?
    requires b <= m <= |w.procs[p].job.value.todo| && l <= |w.procs[q].job.value.todo|
    ensures NoneStarts(steps) && From(w, steps).requests == w.requests
    ensures var mine, theirs := w.procs[p].job.value.todo, w.procs[q].job.value.todo;
      From(w, steps).log == w.log + mine[..b] + theirs[..l] + mine[b..m]
  {
    steps := WriteOn(w, [], w, p, b);
    var w1 := Ahead(w, p, b);
    AheadLeaves(w, p, b, q);
    steps := WriteOn(w, steps, w1, q, l);
    var w2 := Ahead(w1, q, l);
    AheadLeaves(w1, q, l, p);
    steps := WriteOn(w, steps, w2, p, m - b);
    AheadLeaves(w2, p, m - b, q);
    assert w2.procs[p].job.value.todo[..m - b] == w.procs[p].job.value.todo[b..m];
  }

  /** Two have still to swap: the guarded one backs up, the other swaps, and then it swaps. */
  lemma OverlapBreaks(w: World, p: nat, m: nat, q: nat, l: nat) returns (steps: seq<Step>)
    requires Good(w) && p in w.procs && q in w.procs && p != q
    requires Guarded(w.requests, w.procs[p]) && w.procs[q].job.Some?
    requires m < |w.procs[p].job.value.todo| && w.procs[p].job.value.todo[m].Swap?
    requires l < |w.procs[q].job.value.todo| && w.procs[q].job.value.todo[l].Swap?
    ensures NoneStarts(steps) && !Covered(From(w, steps).requests, From(w, steps).log)
  {
    var mine, theirs := w.procs[p].job.value, w.procs[q].job.value;
    var b := AfterBackups(mine.todo, m);
    assert JobFits(w.requests, w.log, w.procs[p]) && JobFits(w.requests, w.log, w.procs[q]);
    steps := TakeTurns(w, p, b, q, l + 1, m + 1);
    OverlapLog(w.log + mine.todo[..b], theirs.todo[..l + 1], mine.todo[b..m + 1], mine.n);
    var log := From(w, steps).log;
    Uncovered(w.requests, log, |log| - 1);
  }

  lemma OverlapLog(a: seq<Event>, theirs: seq<Event>, mine: seq<Event>, n: nat)
    requires theirs != [] && theirs[|theirs| - 1].Swap? && mine != [] && mine[|mine| - 1] == Swap(n)
    requires forall i :: 0 <= i < |theirs| ==> theirs[i].request != n
    requires forall i :: 0 <= i < |mine| ==> !mine[i].Backup?
    ensures var log := a + theirs + mine; var last := |log| - 1;
      && log[last] == Swap(n)
      && forall j :: 0 <= j < last && log[j] == Backup(n, true) ==> !NoSwapWithin(log, j + 1, last)
  {
    var log, k := a + theirs + mine, |a| + |theirs| - 1;
    assert log[k] == theirs[|theirs| - 1];
    forall j | k < j < |log| ensures !log[j].Backup? {
      assert log[j] == mine[j - k - 1];
    }
    forall j | 0 <= j < |log| - 1 && log[j] == Backup(n, true) ensures !NoSwapWithin(log, j + 1, |log| - 1) {
      assert j < k;
    }
  }

  lemma UnsafeBreaks(w: World) returns (steps: seq<Step>)
    requires Good(w) && !Safe(w)
    ensures NoneStarts(steps) && !Covered(From(w, steps).requests, From(w, steps).log)
  {
    var p :| p in w.procs && Guarded(w.requests, w.procs[p]) && !SafeFor(w, p);
    var m :| 0 <= m < |w.procs[p].job.value.todo| && w.procs[p].job.value.todo[m].Swap?;
    if BackupFresh(w.log, w.procs[p].job.value.n) {
      var q :| q in w.procs && q != p && WillSwap(w.procs[q]);
      var l :| 0 <= l < |w.procs[q].job.value.todo| && w.procs[q].job.value.todo[l].Swap?;
      steps := OverlapBreaks(w, p, m, q, l);
    } else {
      steps := StaleBreaks(w, p, m);
    }
  }

  /** Every swap stays covered however the processes that are running go on. */
  ghost predicate StaysCovered(w: World) {
    forall more :: NoneStarts(more) ==> Covered(From(w, more).requests, From(w, more).log)
  }

  /** From any world that can arise, all swaps stay covered however the processes that are running go on,
      if and only if all are so far, each process that has still to swap under a backup finds that backup
      newer than every swap, and no other process has still to swap. */
  lemma SwapsStayCoveredExactlyWhen(steps: seq<Step>)
    ensures var w := After(steps); StaysCovered(w) <==> Covered(w.requests, w.log) && Safe(w)
  {
    var w := After(steps);
    AfterIsGood(steps);
    if !Covered(w.requests, w.log) {
      assert NoneStarts([]) && From(w, []) == w;
    } else if Safe(w) {
      forall more | NoneStarts(more) ensures Covered(From(w, more).requests, From(w, more).log) {
        SafeOnwards(w, more);
      }
    } else {
      var more := UnsafeBreaks(w);
    }
  }

  // ----- The same, from what can be seen on the host -----

  /** A process that keeps the binary has no swap left, and one that took a request over is marked so. */
  predicate JobMeant(requests: seq<Options>, p: Proc) {
    p.job.Some? && p.job.value.n < |requests| ==>
      && (KeepsBinary(requests[p.job.value.n], p.env) ==> !WillSwap(p))
      && (p.job.value.continuation ==> p.env.started)
  }

  ghost predicate Meant(w: World) { forall p :: p in w.procs ==> JobMeant(w.requests, w.procs[p]) }

  lemma TakeKeepsMeant(w: World, s: Step)
    requires Good(w) && Meant(w) && Enabled(w, s)
    ensures Meant(Take(w, s))
  {
    var w' := Take(w, s);
    forall p | p in w'.procs ensures JobMeant(w'.requests, w'.procs[p]) {
      if p in w.procs {
        assert JobFits(w.requests, w.log, w.procs[p]) && JobMeant(w.requests, w.procs[p]);
      }
      if s.Write? && s.pid == p {
        WriteLeaves(w, p);
      }
    }
  }

  lemma {:induction false} AfterIsMeant(steps: seq<Step>)
    ensures Meant(After(steps))
    decreases |steps|
  {
    if steps != [] {
      var w, s := After(steps[..|steps| - 1]), steps[|steps| - 1];
      AfterIsMeant(steps[..|steps| - 1]);
      AfterIsGood(steps[..|steps| - 1]);
      if Enabled(w, s) {
        TakeKeepsMeant(w, s);
      }
    }
  }

  /** How far the log says request n has come. */
  function StageOf(w: World, n: nat): Option<Stage>
    requires n < |w.requests|
  {
    RunFrom(Begin(w.requests[n]), Of(w.log, n))
  }

  /** Before its swap. */
  predicate Early(t: Option<Stage>) { t == Some(Fresh) || t == Some(Saved) || t == Some(Cleared) }

  /** By its flags, its markers and the log, a running request may have still to swap. */
  predicate MaySwap(w: World, p: Proc) {
    p.job.Some? && p.job.value.n < |w.requests|
    && !KeepsBinary(w.requests[p.job.value.n], p.env) && Early(StageOf(w, p.job.value.n))
  }

  /** Whoever may have still to swap under a backup finds that backup the newest, and is the only one that
      may have still to swap. */
  ghost predicate LooksSafe(w: World) {
    forall p :: p in w.procs && MaySwap(w, w.procs[p]) && !w.requests[w.procs[p].job.value.n].noBackup ==>
      LooksSafeFor(w, p)
  }

  ghost predicate LooksSafeFor(w: World, p: nat)
    requires p in w.procs && w.procs[p].job.Some?
  {
    && BackupFresh(w.log, w.procs[p].job.value.n)
    && forall q :: q in w.procs && q != p ==> !MaySwap(w, w.procs[q])
  }

  /** The same process to look at: what it has still to write, and how it will end, is not to be seen. */
  predicate SameProc(p: Proc, q: Proc) {
    && p.home == q.home && p.env == q.env && (p.job.Some? <==> q.job.Some?)
    && (p.job.Some? ==> p.job.value.n == q.job.value.n && p.job.value.continuation == q.job.value.continuation)
  }

  ghost predicate LooksLike(v: World, w: World) {
    && v.requests == w.requests && v.log == w.log && v.procs.Keys == w.procs.Keys
    && forall p :: p in v.procs ==> SameProc(v.procs[p], w.procs[p])
  }

  lemma WillIsMay(w: World, p: nat)
    requires Good(w) && Meant(w) && p in w.procs && WillSwap(w.procs[p])
    ensures MaySwap(w, w.procs[p])
  {
    var job := w.procs[p].job.value;
    assert JobFits(w.requests, w.log, w.procs[p]);
    RunConcat(Begin(w.requests[job.n]), Of(w.log, job.n), job.todo);
    var i :| 0 <= i < |job.todo| && job.todo[i].Swap?;
    EarlierStage(StageOf(w, job.n).value, job.todo, i);
  }

  lemma EarlierStage(t: Stage, todo: seq<Event>, i: nat)
    requires RunFrom(t, todo).Some? && i < |todo| && todo[i].Swap?
    ensures Early(Some(t))
  {
    RunsSoFar(t, todo, i);
    RankGrows(t, todo[..i]);
  }

  lemma LooksSafeIsSafe(v: World)
    requires Good(v) && Meant(v) && LooksSafe(v)
    ensures Safe(v)
  {
    forall p | p in v.procs && Guarded(v.requests, v.procs[p]) ensures SafeFor(v, p) {
      WillIsMay(v, p);
      assert LooksSafeFor(v, p);
      forall q | q in v.procs && q != p ensures !WillSwap(v.procs[q]) {
        if WillSwap(v.procs[q]) {
          WillIsMay(v, q);
        }
      }
    }
  }

  lemma LooksAlike(v: World, w: World)
    requires LooksLike(v, w) && LooksSafe(w)
    ensures LooksSafe(v)
  {
    forall p | p in v.procs && MaySwap(v, v.procs[p]) && !v.requests[v.procs[p].job.value.n].noBackup
      ensures LooksSafeFor(v, p)
    {
      assert SameProc(v.procs[p], w.procs[p]) && MaySwap(w, w.procs[p]) && LooksSafeFor(w, p);
      forall q | q in v.procs && q != p ensures !MaySwap(v, v.procs[q]) {
        assert SameProc(v.procs[q], w.procs[q]) && !MaySwap(w, w.procs[q]);
      }
    }
  }

  /** What it may do yet to come to its swap. */
  function ToSwap(n: nat, t: Stage): seq<Event> {
    (if t == Fresh then [Backup(n, true)] else []) + (if t == Cleared then [] else [Preflight(n, true)]) + [Swap(n)]
  }

  lemma ToSwapRuns(n: nat, t: Stage)
    requires Early(Some(t))
    ensures RunFrom(t, ToSwap(n, t)) == Some(Swapped) && HasSwap(ToSwap(n, t))
    ensures forall i :: 0 <= i < |ToSwap(n, t)| ==> ToSwap(n, t)[i].request == n
  {
    var todo := ToSwap(n, t);
    assert todo[|todo| - 1].Swap?;
    RunSnoc(t, [], Backup(n, true));
    RunSnoc(t, [], Preflight(n, true));
    RunSnoc(t, [Backup(n, true)], Preflight(n, true));
    RunSnoc(t, todo[..|todo| - 1], Swap(n));
    assert [] + [Backup(n, true)] == [Backup(n, true)] && [] + [Preflight(n, true)] == [Preflight(n, true)];
    LastOff(todo);
  }

  // ----- Another past that looks the same -----

  /** The world in which process p has something else still to write, and then finishes. */
  function Else(w: World, p: nat, todo: seq<Event>): World
    requires p in w.procs && w.procs[p].job.Some?
  {
    var job := w.procs[p].job.value;
    w.(procs := w.procs[p := w.procs[p].(job := Some(Job(job.n, todo, Finished, job.continuation)))])
  }

  /** The first process of a request may go on like this. */
  predicate MayDo(w: World, p: nat, todo: seq<Event>) {
    && p in w.procs && w.procs[p].job.Some? && !w.procs[p].job.value.continuation
    && var n := w.procs[p].job.value.n;
      && n < |w.requests| && !KeepsBinary(w.requests[n], w.procs[p].env)
      && (forall i :: 0 <= i < |todo| ==> todo[i].request == n)
      && RunFrom(Begin(w.requests[n]), Of(w.log, n) + todo).Some?
  }

  /** What others do neither brings it about nor is changed by it. */
  lemma OthersLetIt(w: World, s: Step, p: nat, todo: seq<Event>)
    requires Good(w) && Enabled(w, s) && s.pid != p && MayDo(Take(w, s), p, todo)
    ensures MayDo(w, p, todo)
  {
    assert JobFits(w.requests, w.log, w.procs[p]);
    if s.Write? {
      assert JobFits(w.requests, w.log, w.procs[s.pid]);
      OfOther(w.log, w.procs[s.pid].job.value.todo[0], w.procs[p].job.value.n);
    }
  }

  lemma OthersDoTheSame(w: World, s: Step, p: nat, todo: seq<Event>)
    requires Enabled(w, s) && s.pid != p && p in w.procs && w.procs[p].job.Some?
    ensures p in Take(w, s).procs && Take(w, s).procs[p] == w.procs[p]
    ensures Enabled(Else(w, p, todo), s) && Take(Else(w, p, todo), s) == Else(Take(w, s), p, todo)
  {
    var v := Else(w, p, todo);
    assert s.pid in w.procs ==> v.procs[s.pid] == w.procs[s.pid];
    match s {
      case Exit(pid) =>
        SetThenDrop(w.procs, pid, p, v.procs[p]);
      case Kill(pid) =>
        SetThenDrop(w.procs, pid, p, v.procs[p]);
      case _ =>
    }
    if s.pid in Take(w, s).procs {
      SetBoth(w.procs, s.pid, Take(w, s).procs[s.pid], p, v.procs[p]);
    }
  }

  lemma SetThenDrop(procs: map<nat, Proc>, pid: nat, p: nat, q: Proc)
    requires pid != p
    ensures procs[p := q] - {pid} == (procs - {pid})[p := q]
  {
  }

  lemma SetBoth(procs: map<nat, Proc>, pid: nat, o: Proc, p: nat, q: Proc)
    requires pid != p
    ensures procs[p := q][pid := o] == procs[pid := o][p := q]
  {
  }

  /** An event that p wrote it writes first when it goes on otherwise. */
  lemma WroteIt(w: World, p: nat, todo: seq<Event>)
    requires Good(w) && Enabled(w, Write(p)) && MayDo(Take(w, Write(p)), p, todo)
    ensures MayDo(w, p, [w.procs[p].job.value.todo[0]] + todo)
  {
    var job := w.procs[p].job.value;
    assert JobFits(w.requests, w.log, w.procs[p]);
    ConsTail(job.todo[0], todo);
    OfWritten(w.log, [job.todo[0]] + todo, job.n);
  }

  lemma WroteTheSame(w: World, p: nat, todo: seq<Event>)
    requires Enabled(w, Write(p))
    ensures var all := [w.procs[p].job.value.todo[0]] + todo;
      && Enabled(Else(w, p, all), Write(p))
      && Take(Else(w, p, all), Write(p)) == Else(Take(w, Write(p)), p, todo)
  {
    var job, procs := w.procs[p].job.value, w.procs;
    ConsTail(job.todo[0], todo);
    SetAgain(procs, p, Else(w, p, [job.todo[0]] + todo).procs[p], Else(w, p, todo).procs[p]);
    SetAgain(procs, p, Take(w, Write(p)).procs[p], Else(w, p, todo).procs[p]);
  }

  lemma SetAgain(procs: map<nat, Proc>, p: nat, o: Proc, q: Proc)
    ensures procs[p := o][p := q] == procs[p := q]
  {
  }

  /** The step in which the request was made, made otherwise. */
  function StartedElse(s: Step, todo: seq<Event>): Step
    requires Starts(s)
  {
    if s.Shell? then Shell(s.pid, s.opts, s.noSelfUpdate, todo, Finished) else Pick(s.pid, s.opts, todo, Finished)
  }

  lemma StartsElse(w: World, s: Step, todo: seq<Event>)
    requires Good(w) && Starts(s) && Enabled(w, s) && MayDo(Take(w, s), s.pid, todo)
    ensures Enabled(w, StartedElse(s, todo)) && Take(w, StartedElse(s, todo)) == Else(Take(w, s), s.pid, todo)
  {
    var n := |w.requests|;
    OfNone(w.log, n);
    ConcatNothing(todo);
    SnocInit(w.requests, s.opts);
    assert Take(w, StartedElse(s, todo)).procs == Else(Take(w, s), s.pid, todo).procs;
  }

  /** A world in which p goes on otherwise can arise as well. */
  lemma {:induction false} CouldBeElse(steps: seq<Step>, p: nat, todo: seq<Event>) returns (other: seq<Step>)
    requires MayDo(After(steps), p, todo)
    ensures After(other) == Else(After(steps), p, todo)
    decreases |steps|
  {
    var init, s := steps[..|steps| - 1], steps[|steps| - 1];
    var w := After(init);
    AfterIsGood(init);
    if !Enabled(w, s) {
      other := CouldBeElse(init, p, todo);
    } else if s.pid != p {
      OthersLetIt(w, s, p, todo);
      OthersDoTheSame(w, s, p, todo);
      var before := CouldBeElse(init, p, todo);
      AfterOneMore(before, s);
      other := before + [s];
    } else if Starts(s) {
      StartsElse(w, s, todo);
      AfterOneMore(init, StartedElse(s, todo));
      other := init + [StartedElse(s, todo)];
    } else {
      assert s == Write(p);
      WroteIt(w, p, todo);
      WroteTheSame(w, p, todo);
      var before := CouldBeElse(init, p, [w.procs[p].job.value.todo[0]] + todo);
      AfterOneMore(before, s);
      other := before + [s];
    }
  }

  /** So any process that may have still to swap could be about to, for all that can be seen. */
  lemma CouldSwap(steps: seq<Step>, p: nat) returns (other: seq<Step>)
    requires p in After(steps).procs && MaySwap(After(steps), After(steps).procs[p])
    ensures LooksLike(After(other), After(steps)) && WillSwap(After(other).procs[p])
    ensures forall q :: q in After(steps).procs && q != p ==> After(other).procs[q] == After(steps).procs[q]
  {
    var w := After(steps);
    var n := w.procs[p].job.value.n;
    var t := StageOf(w, n).value;
    AfterIsMeant(steps);
    assert JobMeant(w.requests, w.procs[p]);
    ToSwapRuns(n, t);
    RunConcat(Begin(w.requests[n]), Of(w.log, n), ToSwap(n, t));
    other := CouldBeElse(steps, p, ToSwap(n, t));
  }

  lemma LooksLikeOn(u: World, v: World, w: World)
    requires LooksLike(u, v) && LooksLike(v, w)
    ensures LooksLike(u, w)
  {
    forall p | p in u.procs ensures SameProc(u.procs[p], w.procs[p]) {
      assert SameProc(u.procs[p], v.procs[p]) && SameProc(v.procs[p], w.procs[p]);
    }
  }

  lemma NotSafe(v: World, p: nat)
    requires p in v.procs && Guarded(v.requests, v.procs[p])
    requires !BackupFresh(v.log, v.procs[p].job.value.n)
          || exists q :: q in v.procs && q != p && WillSwap(v.procs[q])
    ensures !Safe(v)
  {
    assert !SafeFor(v, p);
  }

  /** If it does not look safe, something that looks the same breaks. */
  lemma LooksUnsafeBreaks(steps: seq<Step>) returns (other: seq<Step>)
    requires !LooksSafe(After(steps))
    ensures LooksLike(After(other), After(steps)) && !Safe(After(other))
  {
    var w := After(steps);
    var p :| p in w.procs && MaySwap(w, w.procs[p]) && !w.requests[w.procs[p].job.value.n].noBackup
      && !LooksSafeFor(w, p);
    other := CouldSwap(steps, p);
    if BackupFresh(w.log, w.procs[p].job.value.n) {
      var v := After(other);
      var q :| q in w.procs && q != p && MaySwap(w, w.procs[q]);
      assert MaySwap(v, v.procs[q]);
      other := CouldSwap(other, q);
      LooksLikeOn(After(other), v, w);
      assert After(other).procs[p] == v.procs[p];
    }
    NotSafe(After(other), p);
  }

  /** From any world that can arise: all swaps stay covered, however it came to look like this and whatever
      the running processes have still to do, if and only if all are so far and by the flags, the markers
      and the log each process that may yet swap under a backup finds it newer than every swap, and no
      other may yet swap. */
  lemma LooksSafeExactlyWhen(steps: seq<Step>)
    ensures var w := After(steps);
      (forall other :: LooksLike(After(other), w) ==> StaysCovered(After(other)))
      <==> Covered(w.requests, w.log) && LooksSafe(w)
  {
    var w := After(steps);
    if LooksSafe(w) {
      forall other | LooksLike(After(other), w) && Covered(w.requests, w.log) ensures StaysCovered(After(other)) {
        AfterIsGood(other);
        AfterIsMeant(other);
        LooksAlike(After(other), w);
        LooksSafeIsSafe(After(other));
        SwapsStayCoveredExactlyWhen(other);
      }
      assert LooksLike(w, w);
      SwapsStayCoveredExactlyWhen(steps);
    } else {
      var other := LooksUnsafeBreaks(steps);
      SwapsStayCoveredExactlyWhen(other);
    }
  }

  /** Requests that will swap are made apart. */
  ghost predicate SwapsApart(steps: seq<Step>) {
    forall k :: 0 <= k < |steps| && Starts(steps[k]) ==> StartsApart(After(steps[..k]), steps[k])
  }

  lemma {:induction false} AfterIsSafe(steps: seq<Step>)
    requires SwapsApart(steps)
    ensures Safe(After(steps)) && Covered(After(steps).requests, After(steps).log)
    decreases |steps|
  {
    if steps != [] {
      var k := |steps| - 1;
      forall i | 0 <= i < k && Starts(steps[..k][i]) ensures StartsApart(After(steps[..k][..i]), steps[..k][i]) {
        TakeTake(steps, k, i);
        assert Starts(steps[i]);
      }
      AfterIsSafe(steps[..k]);
      AfterIsGood(steps[..k]);
      if Enabled(After(steps[..k]), steps[k]) {
        TakeKeepsSafe(After(steps[..k]), steps[k]);
      }
    }
  }

  /** When requests that will swap are made apart, every swap has a backup of its own that is newer
      than every earlier swap. */
  lemma BackupNewerThanLastSwap(steps: seq<Step>, i: nat)
    requires SwapsApart(steps) && i < |After(steps).log| && After(steps).log[i].Swap?
    ensures var w := After(steps); var n := w.log[i].request;
      n < |w.requests| && (!w.requests[n].noBackup ==>
        exists j :: 0 <= j < i && w.log[j] == Backup(n, true) && forall k :: j < k < i ==> !w.log[k].Swap?)
  {
    var w := After(steps);
    AfterIsGood(steps);
    AfterIsSafe(steps);
    if !w.requests[w.log[i].request].noBackup {
      assert NeedsCover(w.requests, w.log, i);
      var j :| 0 <= j < i && w.log[j] == Backup(w.log[i].request, true) && NoSwapWithin(w.log, j + 1, i);
    }
  }

  // ----- Upgrades that overlap -----

  const PLAIN := Options(false, false, false, false, false, false)

  /** Everything one process does when all goes well up to the new release taking over. */
  function WholeRun(n: nat): seq<Event> {
    [Checked(n, true), Backup(n, true), Checked(n, true), Preflight(n, true), Swap(n), Exec(n)]
  }

  /** A request's stage after the first k events of such a run. */
  function StageAfter(k: nat): Stage {
    if k < 2 then Fresh else if k < 4 then Saved else if k == 4 then Cleared else if k == 5 then Swapped else Continued
  }

  lemma {:induction false} WholeRunStages(n: nat, k: nat)
    requires k <= 6
    ensures RunFrom(Fresh, WholeRun(n)[..k]) == Some(StageAfter(k))
    decreases k
  {
    if k > 0 {
      WholeRunStages(n, k - 1);
      LastOff(WholeRun(n)[..k]);
      TakeTake(WholeRun(n), k, k - 1);
      RunSnoc(Fresh, WholeRun(n)[..k - 1], WholeRun(n)[k - 1]);
    }
  }

  lemma WholeRunIsASegment(n: nat)
    ensures Segment(n, PLAIN, Env(false, false, false), WholeRun(n), Execed)
  {
    WholeRunStages(n, 6);
    WholeSlice(WholeRun(n));
  }

  /** It is what a plain `zoomies upgrade` does when all goes well. */
  lemma WholeRunHappens(n: nat, o: Outcomes)
    requires o.preview && o.backup && o.fetch == Candidate && o.candidate == Accepts && o.install && o.exec
    ensures var env := Env(false, false, false);
      Story(n, PLAIN, env, o) == WholeRun(n) && HandsOver(PLAIN, env, o) && Succeeds(PLAIN, env, o)
  {
    var env := Env(false, false, false);
    assert Previewed(n, PLAIN, env, o) + BackedUp(n, PLAIN, env, o) == [Checked(n, true), Backup(n, true)];
    assert Asked(n, o) == [Checked(n, true), Preflight(n, true)];
    assert Sought(n, PLAIN, env, o) == [Checked(n, true), Preflight(n, true), Swap(n), Exec(n)];
    ConcatNothing(WholeRun(n));
  }

  /** A process with such a run before it. */
  function Poised(n: nat): Proc { Proc(false, Env(false, false, false), Some(Job(n, WholeRun(n), Execed, false))) }

  /** Two of them at once, neither having begun. */
  lemma BothStart() returns (steps: seq<Step>)
    ensures After(steps)
         == World(map[0 := Poised(0), 1 := Poised(1)], [PLAIN, PLAIN], [])
  {
    WholeRunIsASegment(0);
    WholeRunIsASegment(1);
    var first := Shell(0, PLAIN, false, WholeRun(0), Execed);
    var second := Shell(1, PLAIN, false, WholeRun(1), Execed);
    AfterOneMore([], first);
    AfterOneMore([] + [first], second);
    WholeSlice(WholeRun(0));
    WholeSlice(WholeRun(1));
    steps := [] + [first] + [second];
  }

  lemma AfterOneMore(steps: seq<Step>, s: Step)
    requires Enabled(After(steps), s)
    ensures After(steps + [s]) == Take(After(steps), s)
  {
    SnocInit(steps, s);
  }

  /** Overlapping upgrades can leave a swap with no backup newer than the swap before it: two
      operators both back up before either of them swaps. */
  lemma OverlapBreaksIt() returns (steps: seq<Step>)
    ensures !Covered(After(steps).requests, After(steps).log)
  {
    var both := BothStart();
    var w := After(both);
    AfterIsGood(both);
    WholeSlice(WholeRun(0));
    assert WholeRun(0)[4].Swap? && WholeRun(1)[4].Swap?;
    var more := OverlapBreaks(w, 0, 4, 1, 4);
    steps := both + more;
    AfterIsFrom(both);
    AfterIsFrom(steps);
    FromConcat(EMPTY, both, more);
  }
}
