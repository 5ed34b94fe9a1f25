/** One database and the processes that want it: controllers, `config` commands, restores and
    transfers, around an exclusive lock; and the one-time import of a configuration file, whose two
    writes a crash can separate.

    Each command is written out with its deferred actions and its early exits, and shown to make only
    lawful use of lock and database. Then any number of such commands interleave, and each can crash
    at any point. */
module Database {
  import opened Seqs
  import opened Wrappers

  type Rows = map<string, string>

  /** A database: the stored settings, the note that the file was imported, and its history, kept for
      the proofs alone -- imports into it so far, and times the imported rows were lost before the
      note was made. A copy has the history of what it is a copy of. */
  datatype Db = Db(rows: Rows, mark: bool, imports: nat, lapses: nat)

  const NEW_DB := Db(map[], false, 0, 0)

  /** The configuration file a controller is started with. */
  datatype File = NoFile | Unreadable | Holds(rows: Rows)

  datatype Edit = Look | Put(rows: Rows) | Delete(key: string)

  datatype Kind = Controller(file: File) | Config(edit: Edit) | Restore | Export | Import

  /** What a command does to the lock and the database. `Saw` is a look for the note and the rows. */
  datatype Op =
    | TryLock(got: bool) | Unlock | Open | Close
    | Saw(mark: bool, rows: Rows) | PutRows(rows: Rows) | Mark
    | Change(edit: Edit) | Replace(copy: Db)

  datatype At = Outside | Holding | Opened | MustPut | MustMark | Running

  // ----- What a command may do -----

  /** What `seedSettingsFromFile` has to do. */
  function Decision(file: File, mark: bool, rows: Rows): At {
    if file == NoFile || mark then Running
    else if rows != map[] then MustMark
    else if file == Unreadable then Running
    else if file.rows == map[] then MustMark
    else MustPut
  }

  predicate HasOpen(at: At) { at != Outside && at != Holding }

  /** Where an operation leads, where it is allowed: the lock first and last, the database opened and
      replaced only under the lock and closed before it is let go, the import in its order. */
  function Next(k: Kind, at: At, op: Op): Option<At> {
    match op
    case TryLock(got) => if at == Outside then Some(if got then Holding else Outside) else None
    case Unlock => if at == Holding then Some(Outside) else None
    case Open => if at == Holding && !k.Restore? then Some(Opened) else None
    case Close => if HasOpen(at) then Some(Holding) else None
    case Saw(mark, rows) => if at == Opened && k.Controller? then Some(Decision(k.file, mark, rows)) else None
    case PutRows(rows) => if at == MustPut && k.Controller? && k.file == Holds(rows) then Some(MustMark) else None
    case Mark => if at == MustMark then Some(Running) else None
    case Change(e) => if (at == Running && k.Controller?) || (at == Opened && k == Config(e)) then Some(at) else None
    case Replace(_) => if at == Holding && (k.Controller? || k.Restore? || k.Import?) then Some(Holding) else None
  }

  function RunFrom(k: Kind, at: At, ops: seq<Op>): Option<At>
    decreases |ops|
  {
    if ops == [] then Some(at)
    else if Next(k, at, ops[0]).None? then None
    else RunFrom(k, Next(k, at, ops[0]).value, ops[1..])
  }

  /** A whole run of a command: everything it took, it let go. */
  predicate Lawful(k: Kind, ops: seq<Op>) { RunFrom(k, Outside, ops) == Some(Outside) }

  lemma {:induction false} RunSnoc(k: Kind, at: At, ops: seq<Op>, op: Op)
    requires RunFrom(k, at, ops).Some?
    ensures RunFrom(k, at, ops + [op]) == Next(k, RunFrom(k, at, ops).value, op)
    decreases |ops|
  {
    if ops == [] {
      assert [] + [op] == [op];
    } else {
      RunSnoc(k, Next(k, at, ops[0]).value, ops[1..], op);
      FirstOff(ops);
      ConcatAssociates([ops[0]], ops[1..], [op]);
      ConsTail(ops[0], ops[1..] + [op]);
    }
  }

  lemma RunCons(k: Kind, at: At, op: Op, rest: seq<Op>)
    ensures RunFrom(k, at, [op] + rest)
         == if Next(k, at, op).None? then None else RunFrom(k, Next(k, at, op).value, rest)
  {
    ConsTail(op, rest);
  }

  lemma Unlocks(k: Kind)
    ensures RunFrom(k, Holding, [Unlock]) == Some(Outside) && [Unlock] + [] == [Unlock]
  {
  }

  /** With the database open: close it, then let go of the lock. */
  lemma ClosesThenUnlocks(k: Kind, at: At)
    requires HasOpen(at)
    ensures RunFrom(k, at, [Close] + [Unlock]) == Some(Outside)
  {
    RunCons(k, at, Close, [Unlock]);
    Unlocks(k);
  }

  // ----- What that does to the database -----

  /** The file's rows were imported, the note was not made, and the rows are gone. */
  predicate Lapsed(db: Db) { db.imports > 0 && !db.mark && db.rows == map[] }

  function Edited(db: Db, e: Edit): Db {
    match e
    case Look => db
    case Put(rows) => db.(rows := db.rows + rows)
    case Delete(key) =>
      var after := db.(rows := db.rows - {key});
      if Lapsed(after) && !Lapsed(db) then after.(lapses := db.lapses + 1) else after
  }

  function Effect(db: Db, op: Op): Db {
    match op
    case PutRows(rows) => db.(rows := db.rows + rows, imports := db.imports + 1)
    case Mark => db.(mark := true)
    case Change(e) => Edited(db, e)
    case Replace(copy) => copy
    case _ => db
  }

  function Effects(db: Db, ops: seq<Op>): Db
    decreases |ops|
  {
    if ops == [] then db else Effects(Effect(db, ops[0]), ops[1..])
  }

  /** What an edit of the settings does, key by key. */
  lemma EditedRows(db: Db, e: Edit, k: string)
    ensures var after := Edited(db, e).rows;
      match e
      case Look => after == db.rows
      case Put(rows) =>
        && (k in after <==> k in rows || k in db.rows)
        && (k in rows ==> after[k] == rows[k]) && (k in db.rows && k !in rows ==> after[k] == db.rows[k])
      case Delete(key) => (k in after <==> k in db.rows && k != key) && (k in after ==> after[k] == db.rows[k])
    ensures Edited(db, e).mark == db.mark && Edited(db, e).imports == db.imports
  {
  }

  /** A database after some edits, in order. */
  function EditedAll(db: Db, edits: seq<Edit>): Db {
    if edits == [] then db else Edited(EditedAll(db, edits[..|edits| - 1]), edits[|edits| - 1])
  }

  lemma {:induction false} EffectsSnoc(db: Db, ops: seq<Op>, op: Op)
    ensures Effects(db, ops + [op]) == Effect(Effects(db, ops), op)
    decreases |ops|
  {
    if ops == [] {
      assert [] + [op] == [op];
    } else {
      EffectsSnoc(Effect(db, ops[0]), ops[1..], op);
      FirstOff(ops);
      ConcatAssociates([ops[0]], ops[1..], [op]);
      ConsTail(ops[0], ops[1..] + [op]);
    }
  }

  /** Nothing but closing and unlocking. */
  predicate LetsGo(ops: seq<Op>) { forall i :: 0 <= i < |ops| ==> ops[i].Close? || ops[i].Unlock? }

  // ----- The commands -----

  datatype Stat = Exists | Missing | StatFails

  /** How everything outside `transferConfig` turns out. */
  datatype Settings = Settings(loads: bool, free: bool, key: bool, stat: Stat, opens: bool, rebuilds: bool)

  /** Whether everything outside is as `transferConfig` needs it. */
  predicate Usable(o: Settings) {
    o.loads && o.free && o.key && o.stat != StatFails && (o.stat == Exists ==> o.opens && o.rebuilds)
  }

  /** What `transferConfig` does when it succeeds: it looks into a database that is there. */
  function LooksInside(o: Settings): seq<Op> {
    [TryLock(true)] + if o.stat == Exists then [Open] + [Close] else []
  }

  /** One run of a command: what it did, where it stands, and what it has deferred, the last first. */
  class Session {
    const kind: Kind
    var ops: seq<Op>
    var deferred: seq<Op>
    ghost var at: At
    /** The database as the command finds it, whatever that is, and as it is now. */
    ghost const start: Db
    ghost var db: Db

    ghost predicate Stands()
      reads this
    {
      RunFrom(kind, Outside, ops) == Some(at) && db == Effects(start, ops)
    }

    /** Running what is deferred lets go of everything, and does no more. */
    ghost predicate Valid()
      reads this
    {
      Stands() && RunFrom(kind, at, deferred) == Some(Outside) && LetsGo(deferred)
    }

    constructor (kind: Kind, ghost start: Db)
      ensures Valid() && this.kind == kind && ops == [] && deferred == [] && at == Outside
      ensures this.start == start && db == start
    {
      this.kind, ops, deferred, at, this.start, db := kind, [], [], Outside, start, start;
    }

    method Do(op: Op)
      requires Stands() && Next(kind, at, op).Some?
      modifies `ops, `at, `db
      ensures Stands() && at == Next(kind, old(at), op).value && ops == old(ops) + [op] && db == Effect(old(db), op)
    {
      RunSnoc(kind, Outside, ops, op);
      EffectsSnoc(start, ops, op);
      ops := ops + [op];
      at := Next(kind, at, op).value;
      db := Effect(db, op);
    }

    method Defer(op: Op)
      requires Stands() && RunFrom(kind, at, [op] + deferred) == Some(Outside) && LetsGo([op] + deferred)
      modifies `deferred
      ensures Valid() && deferred == [op] + old(deferred)
    {
      deferred := [op] + deferred;
    }

    /** What a return does. */
    method Return()
      requires Valid()
      modifies this
      ensures Valid() && at == Outside && deferred == [] && ops == old(ops) + old(deferred) && db == old(db)
    {
      ghost var before, all := ops, deferred;
      while deferred != []
        invariant Valid() && ops + deferred == before + all && db == old(db)
        decreases |deferred|
      {
        var op := deferred[0];
        FirstOff(deferred);
        ConcatAssociates(ops, [op], deferred[1..]);
        deferred := deferred[1..];
        Do(op);
      }
      ConcatNothing(ops);
    }

    /** `store.Lock`. */
    method Lock(free: bool)
      requires Valid() && at == Outside && deferred == []
      modifies `ops, `at, `db
      ensures Stands() && at == (if free then Holding else Outside)
      ensures db == old(db) && ops == old(ops) + [TryLock(free)]
    {
      Do(TryLock(free));
    }

    /** `transferConfig`: on success the lock is held and nothing else; on any error nothing is. Neither
        changes the database. */
    method TransferConfig(o: Settings) returns (ok: bool)
      requires Valid() && at == Outside && deferred == [] && (kind.Export? || kind.Import?)
      modifies `ops, `at, `db
      ensures Stands() && at == (if ok then Holding else Outside) && db == old(db)
      ensures ok <==> Usable(o)
      ensures ok ==> ops == old(ops) + LooksInside(o)
    {
      if !o.loads {
        return false;
      }
      Lock(o.free);
      if !o.free {
        return false;
      }
      if !o.key {
        Do(Unlock);
        return false;
      }
      match o.stat {
        case Exists =>
          if !o.opens {
            Do(Unlock);
            return false;
          }
          Do(Open);
          Do(Close);
          if !o.rebuilds {
            Do(Unlock);
            return false;
          }
        case Missing =>
        case StatFails =>
          Do(Unlock);
          return false;
      }
      ok := true;
    }

    /** `transferExport`. */
    method TransferExport(o: Settings, opens: bool, writes: bool) returns (ok: bool)
      requires Valid() && ops == [] && deferred == [] && kind.Export?
      modifies this
      ensures Lawful(kind, ops)
      ensures (ok <==> Usable(o) && opens && writes) && Effects(start, ops) == start
      ensures ok ==> ops == LooksInside(o) + [Open] + ([Close] + [Unlock])
    {
      ok := TransferConfig(o);
      if !ok {
        return;
      }
      Unlocks(kind);
      Defer(Unlock);
      if !opens {
        Return();
        return false;
      }
      Do(Open);
      ClosesThenUnlocks(kind, at);
      Defer(Close);
      ok := writes;
      Return();
    }

    /** `transferImport`; `copy` is what the archive holds, once it is read. */
    method TransferImport(o: Settings, copy: Option<Db>) returns (ok: bool)
      requires Valid() && ops == [] && deferred == [] && kind.Import?
      modifies this
      ensures Lawful(kind, ops)
      ensures ok <==> Usable(o) && copy.Some?
      ensures ok ==> ops == LooksInside(o) + [Replace(copy.value)] + [Unlock]
      ensures Effects(start, ops) == if ok then copy.value else start
    {
      ok := TransferConfig(o);
      if !ok {
        return;
      }
      Unlocks(kind);
      Defer(Unlock);
      ok := copy.Some?;
      if ok {
        Do(Replace(copy.value));
      }
      Return();
    }

    /** `runRestore`. */
    method RunRestore(free: bool, copy: Option<Db>) returns (ok: bool)
      requires Valid() && ops == [] && deferred == [] && kind.Restore?
      modifies this
      ensures Lawful(kind, ops)
      ensures ok <==> free && copy.Some?
      ensures ok ==> ops == [TryLock(true)] + [Replace(copy.value)] + [Unlock]
      ensures Effects(start, ops) == if ok then copy.value else start
    {
      Lock(free);
      if !free {
        return false;
      }
      Unlocks(kind);
      Defer(Unlock);
      ok := copy.Some?;
      if ok {
        Do(Replace(copy.value));
      }
      Return();
    }

    /** A `config` command: `openForSettings`, its edit if nothing is wrong with it, and the cleanup. */
    method RunConfig(free: bool, opens: bool, accepts: bool) returns (ok: bool)
      requires Valid() && ops == [] && deferred == [] && kind.Config?
      modifies this
      ensures Lawful(kind, ops)
      ensures ok <==> free && opens && accepts
      ensures ok ==> ops == [TryLock(true)] + [Open] + [Change(kind.edit)] + ([Close] + [Unlock])
      ensures Effects(start, ops) == if ok then Edited(start, kind.edit) else start
    {
      Lock(free);
      if !free {
        return false;
      }
      if !opens {
        Do(Unlock);
        return false;
      }
      Do(Open);
      ClosesThenUnlocks(kind, at);
      deferred := [Close] + [Unlock];
      ok := accepts;
      if ok {
        Do(Change(kind.edit));
        ClosesThenUnlocks(kind, at);
      }
      Return();
    }

    /** `seedSettingsFromFile` on a database, whose two writes may fail. It brings the file in only
        where there is neither a note nor a row, as a whole, and notes it only then; when it is done,
        no later start has anything to bring in, unless the file could not be read or there is none. */
    method Seed(db: Db, putFails: bool, markFails: bool) returns (ok: bool, ghost did: seq<Op>)
      requires Stands() && at == Opened && kind.Controller? && db == this.db
      modifies `ops, `at, `db
      ensures Stands() && ops == old(ops) + did && HasOpen(at) && (ok ==> at == Running)
      ensures ok <==> !(NeedsRows(kind.file, db) && putFails) && !(NeedsNote(kind.file, db) && markFails)
      ensures this.db == Effects(db, did) == Seeded(kind.file, db, putFails, markFails)
      ensures did != [] && did[0] == Saw(db.mark, db.rows)
      ensures var after := Effects(db, did);
        && (after.rows != db.rows || after.imports != db.imports ==>
              && db.rows == map[] && !db.mark && kind.file == Holds(after.rows) && after.imports == db.imports + 1)
        && (after.mark && !db.mark ==> ok && (after.rows != map[] || kind.file == Holds(map[])))
        && (db.mark ==> after == db)
        && (ok && kind.file.Holds? ==> after.mark)
    {
      did := [Saw(db.mark, db.rows)];
      Do(Saw(db.mark, db.rows));
      var file := kind.file;
      if file == NoFile || db.mark {
        return true, did;
      }
      if db.rows == map[] && file == Unreadable {
        return true, did;
      }
      if db.rows == map[] && file.rows != map[] {
        if putFails {
          return false, did;
        }
        Do(PutRows(file.rows));
        EffectsSnoc(db, did, PutRows(file.rows));
        assert db.rows + file.rows == file.rows;
        did := did + [PutRows(file.rows)];
        if markFails {
          return false, did;
        }
        Do(Mark);
        EffectsSnoc(db, did, Mark);
        did := did + [Mark];
        return true, did;
      }
      if markFails {
        return false, did;
      }
      Do(Mark);
      EffectsSnoc(db, did, Mark);
      did := did + [Mark];
      ok := true;
    }

    /** `runController` from the lock on: a staged restore, the database, the lease and the key, the
        import, and the edits of however long it runs. Any of these can be where it ends. */
    method RunController(o: Start) returns (ok: bool)
      requires Valid() && ops == [] && deferred == [] && kind.Controller?
      requires o.db == if o.staged.Some? then o.staged.value else start
      modifies this
      ensures Lawful(kind, ops)
      ensures ok <==> o.ComesUp() && SeedSucceeds(kind.file, o) && o.assembles
      ensures Effects(start, ops) ==
        if !o.free then start
        else if !o.ComesUp() then o.db
        else if !ok then Seeded(kind.file, o.db, o.putFails, o.markFails)
        else EditedAll(Seeded(kind.file, o.db, o.putFails, o.markFails), o.edits)
    {
      Lock(o.free);
      if !o.free {
        return false;
      }
      Unlocks(kind);
      Defer(Unlock);
      if o.staged.Some? {
        Do(Replace(o.staged.value));
        Unlocks(kind);
      }
      if o.stagedFails || !o.opens {
        Return();
        return false;
      }
      Do(Open);
      ClosesThenUnlocks(kind, at);
      Defer(Close);
      if !o.lease || !o.key {
        Return();
        return false;
      }
      ok := Serve(o);
      ClosesThenUnlocks(kind, at);
      Return();
    }

    /** The import, and if the settings then hold together, the edits in order. */
    method Serve(o: Start) returns (ok: bool)
      requires Stands() && at == Opened && kind.Controller? && db == o.db
      modifies `ops, `at, `db
      ensures Stands() && HasOpen(at) && (ok <==> SeedSucceeds(kind.file, o) && o.assembles)
      ensures var seeded := Seeded(kind.file, o.db, o.putFails, o.markFails);
        db == if ok then EditedAll(seeded, o.edits) else seeded
    {
      ghost var did;
      ok, did := Seed(o.db, o.putFails, o.markFails);
      ghost var seeded := db;
      if ok && o.assembles {
        for i := 0 to |o.edits|
          invariant Stands() && at == Running
          invariant db == EditedAll(seeded, o.edits[..i])
        {
          TakeTake(o.edits, i + 1, i);
          Do(Change(o.edits[i]));
        }
        WholeSlice(o.edits);
      } else {
        ok := false;
      }
    }
  }

  /** How a controller's start and run turn out; `db` is the database it finds once it is open. */
  datatype Start = Start(
    free: bool, staged: Option<Db>, stagedFails: bool, opens: bool, lease: bool, key: bool,
    db: Db, putFails: bool, markFails: bool, assembles: bool, edits: seq<Edit>)
  {
    /** The database is open, with its lease and its key. */
    predicate ComesUp() { free && !stagedFails && opens && lease && key }
  }

  /** The file brings in rows: it has some, and the database has neither rows nor the note. */
  predicate NeedsRows(file: File, db: Db) {
    file.Holds? && file.rows != map[] && !db.mark && db.rows == map[]
  }

  /** The note is to be made: there is a file, and it was read or the database has rows of its own. */
  predicate NeedsNote(file: File, db: Db) {
    file != NoFile && !db.mark && (file.Holds? || db.rows != map[])
  }

  /** What the import leaves, when its writes may fail. */
  function Seeded(file: File, db: Db, putFails: bool, markFails: bool): Db {
    var rows := NeedsRows(file, db) && !putFails;
    var note := NeedsNote(file, db) && !markFails && !(NeedsRows(file, db) && putFails);
    Db(if rows then file.rows else db.rows, db.mark || note, if rows then db.imports + 1 else db.imports, db.lapses)
  }

  predicate SeedSucceeds(file: File, o: Start) {
    !(NeedsRows(file, o.db) && o.putFails) && !(NeedsNote(file, o.db) && o.markFails)
  }

  // ----- Many processes -----

  /** A process: where it stands, and what it will do. */
  datatype Proc = Proc(kind: Kind, at: At, todo: seq<Op>)

  /** What happened to the database so far: imports, databases put in its place, and lapses. */
  datatype Count = Count(imports: nat, replaced: nat, lapses: nat)

  datatype World = World(procs: map<nat, Proc>, lock: Option<nat>, db: Db, count: Count)

  datatype Step =
    | Spawn(pid: nat, kind: Kind, todo: seq<Op>)
    | Do(pid: nat)
    | Exit(pid: nat)
    | Crash(pid: nat)

  /** Every import past the first made up for a lapse. Every database in a run is like this, and so is
      every copy of one, made when and wherever. */
  predicate ImportsFit(db: Db) { db.imports <= db.lapses + if Lapsed(db) then 0 else 1 }

  /** Whether an operation agrees with the lock and the database. */
  predicate Fits(w: World, op: Op) {
    match op
    case TryLock(got) => got <==> w.lock.None?
    case Saw(mark, rows) => mark == w.db.mark && rows == w.db.rows
    case Replace(copy) => ImportsFit(copy)
    case _ => true
  }

  predicate Enabled(w: World, s: Step) {
    match s
    case Spawn(pid, kind, todo) => pid !in w.procs && Lawful(kind, todo)
    case Do(pid) =>
      && pid in w.procs && w.procs[pid].todo != [] && Fits(w, w.procs[pid].todo[0])
      && Next(w.procs[pid].kind, w.procs[pid].at, w.procs[pid].todo[0]).Some?
    case Exit(pid) => pid in w.procs && w.procs[pid].todo == []
    case Crash(pid) => pid in w.procs
  }

  function Counted(c: Count, db: Db, op: Op): Count {
    match op
    case PutRows(_) => c.(imports := c.imports + 1)
    case Replace(_) => c.(replaced := c.replaced + 1)
    case Change(e) => if Edited(db, e).lapses > db.lapses then c.(lapses := c.lapses + 1) else c
    case _ => c
  }

  function LockAfter(lock: Option<nat>, pid: nat, op: Op): Option<nat> {
    if op == TryLock(true) then Some(pid) else if op == Unlock then None else lock
  }

  function Take(w: World, s: Step): World
    requires Enabled(w, s)
  {
    match s
    case Spawn(pid, kind, todo) => w.(procs := w.procs[pid := Proc(kind, Outside, todo)])
    case Do(pid) =>
      var p := w.procs[pid];
      var op := p.todo[0];
      World(w.procs[pid := Proc(p.kind, Next(p.kind, p.at, op).value, p.todo[1..])],
            LockAfter(w.lock, pid, op), Effect(w.db, op), Counted(w.count, w.db, op))
    case Exit(pid) => w.(procs := w.procs - {pid})
    // the lock of a process that is gone is free
    case Crash(pid) => w.(procs := w.procs - {pid}, lock := if w.lock == Some(pid) then None else w.lock)
  }

  const EMPTY := World(map[], None, NEW_DB, Count(0, 0, 0))

  /** The world some steps lead to; a step that cannot be taken is left out. */
  function After(steps: seq<Step>): World {
    if steps == [] then EMPTY
    else
      var w, s := After(steps[..|steps| - 1]), steps[|steps| - 1];
      if Enabled(w, s) then Take(w, s) else w
  }

  // ----- What holds of every world -----

  /** Being past the lock and holding it are the same, and one process at most does. */
  predicate LockFits(procs: map<nat, Proc>, lock: Option<nat>) {
    && (forall pid :: pid in procs ==> (procs[pid].at != Outside <==> lock == Some(pid)))
    && (lock.Some? ==> lock.value in procs)
  }

  /** A controller about to write the file's rows found neither rows nor the note, and they are still
      not there. */
  predicate SeedingFits(p: Proc, db: Db) {
    p.at == MustPut ==>
      p.kind.Controller? && p.kind.file.Holds? && p.kind.file.rows != map[] && !db.mark && db.rows == map[]
  }

  predicate ProcFits(p: Proc, db: Db) { RunFrom(p.kind, p.at, p.todo) == Some(Outside) && SeedingFits(p, db) }

  predicate ProcsFit(procs: map<nat, Proc>, db: Db) { forall pid :: pid in procs ==> ProcFits(procs[pid], db) }

  /** Over a run: an import was the first into its database, or made up for a lapse. */
  predicate CountFits(c: Count, db: Db) {
    c.imports <= c.replaced + c.lapses + if db.imports == 0 || Lapsed(db) then 0 else 1
  }

  predicate Good(w: World) {
    LockFits(w.procs, w.lock) && ProcsFit(w.procs, w.db) && ImportsFit(w.db) && CountFits(w.count, w.db)
  }

  lemma DoKeepsCounts(p: Proc, db: Db, c: Count)
    requires ProcFits(p, db) && p.todo != [] && Next(p.kind, p.at, p.todo[0]).Some?
    requires ImportsFit(db) && CountFits(c, db)
    requires p.todo[0].Replace? ==> ImportsFit(p.todo[0].copy)
    ensures ImportsFit(Effect(db, p.todo[0])) && CountFits(Counted(c, db, p.todo[0]), Effect(db, p.todo[0]))
  {
    if p.todo[0].PutRows? {
      assert db.rows + p.todo[0].rows == p.todo[0].rows;
    }
  }

  lemma DoKeepsProc(w: World, pid: nat)
    requires Good(w) && Enabled(w, Do(pid))
    ensures ProcFits(Take(w, Do(pid)).procs[pid], Take(w, Do(pid)).db)
  {
    assert ProcFits(w.procs[pid], w.db);
  }

  lemma DoKeepsLock(w: World, pid: nat)
    requires LockFits(w.procs, w.lock) && Enabled(w, Do(pid))
    ensures LockFits(Take(w, Do(pid)).procs, Take(w, Do(pid)).lock)
  {
  }

  lemma TakeKeepsGood(w: World, s: Step)
    requires Good(w) && Enabled(w, s)
    ensures Good(Take(w, s))
  {
    if s.Do? {
      var w' := Take(w, s);
      assert ProcFits(w.procs[s.pid], w.db);
      DoKeepsCounts(w.procs[s.pid], w.db, w.count);
      DoKeepsLock(w, s.pid);
      forall q | q in w'.procs ensures ProcFits(w'.procs[q], w'.db) {
        assert ProcFits(w.procs[q], w.db);
        if q == s.pid {
          DoKeepsProc(w, s.pid);
        }
      }
    }
  }

  lemma {:induction false} AfterIsGood(steps: seq<Step>)
    ensures Good(After(steps))
    decreases |steps|
  {
    if steps != [] {
      var init, s := steps[..|steps| - 1], steps[|steps| - 1];
      AfterIsGood(init);
      if Enabled(After(init), s) {
        TakeKeepsGood(After(init), s);
      }
    }
  }

  // ----- The lock -----

  predicate Writes(op: Op) {
    op.Replace? || op.PutRows? || op.Mark? || (op.Change? && !op.edit.Look?)
  }

  /** Nobody writes settings or replaces the file while another process has it open. */
  lemma WriterIsAlone(steps: seq<Step>, pid: nat)
    requires Enabled(After(steps), Do(pid)) && Writes(After(steps).procs[pid].todo[0])
    ensures var w := After(steps);
      w.lock == Some(pid) && forall q :: q in w.procs && q != pid ==> !HasOpen(w.procs[q].at)
  {
    AfterIsGood(steps);
  }

  /** Whoever has the database open holds the lock: while the lock is free, nobody has it open. */
  lemma OpenHoldsTheLock(steps: seq<Step>, pid: nat)
    requires pid in After(steps).procs && HasOpen(After(steps).procs[pid].at)
    ensures After(steps).lock == Some(pid)
  {
    AfterIsGood(steps);
  }

  /** No command is ever stuck but for the lock or what it will have seen, and one that has ended, or
      has yet to begin, holds nothing. */
  lemma NothingHeldAfterwards(steps: seq<Step>, pid: nat)
    requires pid in After(steps).procs
    ensures var p := After(steps).procs[pid];
      && (p.todo == [] ==> p.at == Outside && After(steps).lock != Some(pid))
      && (p.todo != [] ==> Next(p.kind, p.at, p.todo[0]).Some?)
  {
    AfterIsGood(steps);
    assert ProcFits(After(steps).procs[pid], After(steps).db);
  }

  // ----- The import -----

  /** Over any run, the file is imported at most once more than a database was put in place or its rows
      were lost unmarked; and into any one database, at most once more than its own rows were lost. */
  lemma OneImportPerLapse(steps: seq<Step>)
    ensures After(steps).count.imports <= After(steps).count.replaced + After(steps).count.lapses + 1
    ensures After(steps).db.imports <= After(steps).db.lapses + 1
  {
    AfterIsGood(steps);
  }

  /** A file is only ever imported into a database that never had it or has lapsed. */
  lemma SecondImportNeedsLapse(steps: seq<Step>, pid: nat)
    requires Enabled(After(steps), Do(pid)) && After(steps).procs[pid].todo[0].PutRows?
    ensures After(steps).db.imports == 0 || Lapsed(After(steps).db)
  {
    AfterIsGood(steps);
    assert ProcFits(After(steps).procs[pid], After(steps).db);
  }

  // ----- Runs of one process after another -----

  lemma AfterOneMore(steps: seq<Step>, s: Step)
    requires Enabled(After(steps), s)
    ensures After(steps + [s]) == Take(After(steps), s)
  {
    SnocInit(steps, s);
  }

  /** Everything is stopped. */
  predicate Quiet(w: World) { w.procs == map[] && w.lock == None }

  /** The world while process pid is the only one. */
  function Alone(pid: nat, p: Proc, db: Db, c: Count): World {
    World(map[pid := p], if p.at == Outside then None else Some(pid), db, c)
  }

  lemma SpawnAlone(steps: seq<Step>, pid: nat, kind: Kind, todo: seq<Op>) returns (more: seq<Step>)
    requires Quiet(After(steps)) && Lawful(kind, todo)
    ensures After(more) == Alone(pid, Proc(kind, Outside, todo), After(steps).db, After(steps).count)
  {
    AfterOneMore(steps, Spawn(pid, kind, todo));
    more := steps + [Spawn(pid, kind, todo)];
    assert map[][pid := Proc(kind, Outside, todo)] == map[pid := Proc(kind, Outside, todo)];
  }

  /** Whether the only process can go on with op. */
  predicate FitsAlone(db: Db, op: Op) {
    (op.TryLock? ==> op.got) && (op.Saw? ==> op == Saw(db.mark, db.rows)) && (op.Replace? ==> ImportsFit(op.copy))
  }

  /** One operation of the only process. */
  lemma DoAlone(steps: seq<Step>, pid: nat, k: Kind, at: At, op: Op, rest: seq<Op>, db: Db, c: Count)
    returns (more: seq<Step>)
    requires After(steps) == Alone(pid, Proc(k, at, [op] + rest), db, c) && Next(k, at, op).Some? && FitsAlone(db, op)
    ensures After(more) == Alone(pid, Proc(k, Next(k, at, op).value, rest), Effect(db, op), Counted(c, db, op))
  {
    ConsTail(op, rest);
    var p := Proc(k, at, [op] + rest);
    assert Alone(pid, p, db, c).procs[pid] == p && p.todo[0] == op && p.todo[1..] == rest;
    AfterOneMore(steps, Do(pid));
    more := steps + [Do(pid)];
    var q := Proc(k, Next(k, at, op).value, rest);
    assert Alone(pid, p, db, c).procs[pid := q] == map[pid := q];
  }

  lemma CrashAlone(steps: seq<Step>, pid: nat, p: Proc, db: Db, c: Count) returns (more: seq<Step>)
    requires After(steps) == Alone(pid, p, db, c)
    ensures After(more) == World(map[], None, db, c)
  {
    AfterOneMore(steps, Crash(pid));
    more := steps + [Crash(pid)];
    assert Alone(pid, p, db, c).procs - {pid} == map[];
  }

  lemma ExitAlone(steps: seq<Step>, pid: nat, k: Kind, db: Db, c: Count) returns (more: seq<Step>)
    requires After(steps) == Alone(pid, Proc(k, Outside, []), db, c)
    ensures After(more) == World(map[], None, db, c)
  {
    AfterOneMore(steps, Exit(pid));
    more := steps + [Exit(pid)];
    assert Alone(pid, Proc(k, Outside, []), db, c).procs - {pid} == map[];
  }

  /** A command that locks and opens, before whatever else it does. */
  lemma OpenedAlone(steps: seq<Step>, pid: nat, k: Kind, rest: seq<Op>) returns (more: seq<Step>)
    requires Quiet(After(steps)) && !k.Restore? && RunFrom(k, Opened, rest) == Some(Outside)
    ensures After(more) == Alone(pid, Proc(k, Opened, rest), After(steps).db, After(steps).count)
  {
    var db, c := After(steps).db, After(steps).count;
    RunCons(k, Holding, Open, rest);
    RunCons(k, Outside, TryLock(true), [Open] + rest);
    more := SpawnAlone(steps, pid, k, [TryLock(true)] + ([Open] + rest));
    more := DoAlone(more, pid, k, Outside, TryLock(true), [Open] + rest, db, c);
    more := DoAlone(more, pid, k, Holding, Open, rest, db, c);
  }

  /** What a start with such a file does once it has seen the database. */
  function SeedOps(file: Rows, db: Db, rest: seq<Op>): seq<Op> {
    if db.mark then rest else if db.rows == map[] then [PutRows(file)] + ([Mark] + rest) else [Mark] + rest
  }

  lemma SeedOpsLawful(file: Rows, db: Db)
    requires file != map[]
    ensures var k := Controller(Holds(file));
      RunFrom(k, Opened, [Saw(db.mark, db.rows)] + SeedOps(file, db, [Close] + [Unlock])) == Some(Outside)
  {
    var k, rest := Controller(Holds(file)), [Close] + [Unlock];
    ClosesThenUnlocks(k, Running);
    RunCons(k, MustMark, Mark, rest);
    RunCons(k, MustPut, PutRows(file), [Mark] + rest);
    RunCons(k, Opened, Saw(db.mark, db.rows), SeedOps(file, db, rest));
  }

  /** With everything stopped, a start with a file that holds something imports it exactly when there
      is neither the note nor any row -- so into a database that had it before, exactly when lapsed. */
  lemma NextStartImports(steps: seq<Step>, pid: nat, file: Rows) returns (more: seq<Step>)
    requires Quiet(After(steps)) && file != map[]
    ensures var db, c := After(steps).db, After(steps).count; var imported := !db.mark && db.rows == map[];
      After(more) == Alone(pid, Proc(Controller(Holds(file)), Running, [Close] + [Unlock]),
        Db(if imported then file else db.rows, true, db.imports + if imported then 1 else 0, db.lapses),
        c.(imports := c.imports + if imported then 1 else 0))
    ensures var db := After(steps).db;
      db.imports > 0 ==> (After(more).db.imports > db.imports <==> Lapsed(db))
  {
    var db, c, k, rest := After(steps).db, After(steps).count, Controller(Holds(file)), [Close] + [Unlock];
    SeedOpsLawful(file, db);
    more := OpenedAlone(steps, pid, k, [Saw(db.mark, db.rows)] + SeedOps(file, db, rest));
    more := DoAlone(more, pid, k, Opened, Saw(db.mark, db.rows), SeedOps(file, db, rest), db, c);
    if !db.mark {
      var put, counted := db, c;
      if db.rows == map[] {
        more := DoAlone(more, pid, k, MustPut, PutRows(file), [Mark] + rest, db, c);
        put, counted := Effect(db, PutRows(file)), Counted(c, db, PutRows(file));
        assert db.rows + file == file;
      }
      more := DoAlone(more, pid, k, MustMark, Mark, rest, put, counted);
    }
  }

  /** The first start, cut off between its two writes. */
  lemma CutOff(file: Rows) returns (steps: seq<Step>)
    requires file != map[]
    ensures After(steps) == World(map[], None, Db(file, false, 1, 0), Count(1, 0, 0))
  {
    var k, c, rest := Controller(Holds(file)), Count(0, 0, 0), [Mark] + ([Close] + [Unlock]);
    assert After([]) == EMPTY;
    SeedOpsLawful(file, NEW_DB);
    steps := OpenedAlone([], 0, k, [Saw(false, map[])] + ([PutRows(file)] + rest));
    steps := DoAlone(steps, 0, k, Opened, Saw(false, map[]), [PutRows(file)] + rest, NEW_DB, c);
    steps := DoAlone(steps, 0, k, MustPut, PutRows(file), rest, NEW_DB, c);
    assert map[] + file == file;
    steps := CrashAlone(steps, 0, Proc(k, MustMark, rest), Db(file, false, 1, 0), Count(1, 0, 0));
  }

  /** `config unset` of a row, from beginning to end. */
  lemma Unset(steps: seq<Step>, key: string) returns (more: seq<Step>)
    requires Quiet(After(steps))
    ensures var db, c := After(steps).db, After(steps).count; var op := Change(Delete(key));
      After(more) == World(map[], None, Effect(db, op), Counted(c, db, op))
  {
    var k, op, db, c := Config(Delete(key)), Change(Delete(key)), After(steps).db, After(steps).count;
    ClosesThenUnlocks(k, Opened);
    RunCons(k, Opened, op, [Close] + [Unlock]);
    more := OpenedAlone(steps, 1, k, [op] + ([Close] + [Unlock]));
    more := DoAlone(more, 1, k, Opened, op, [Close] + [Unlock], db, c);
    db, c := Effect(db, op), Counted(c, db, op);
    more := DoAlone(more, 1, k, Opened, Close, [Unlock], db, c);
    assert [Unlock] == [Unlock] + [];
    more := DoAlone(more, 1, k, Holding, Unlock, [], db, c);
    more := ExitAlone(more, 1, k, db, c);
  }

  /** The import really can happen twice, into one database: a crash between its two writes, a `config
      unset` of the one row it brought, and another start. */
  lemma ImportedTwice(key: string, value: string) returns (steps: seq<Step>)
    ensures After(steps).db.imports == 2 && After(steps).count == Count(2, 0, 1)
  {
    var file := map[key := value];
    assert key in file && file - {key} == map[];
    steps := CutOff(file);
    steps := Unset(steps, key);
    steps := NextStartImports(steps, 2, file);
  }

  // ----- Runs without that gap -----

  /** No row is removed between the two writes of an import, here or in the past of a copy put in place. */
  predicate Careful(w: World, s: Step)
    requires Enabled(w, s)
  {
    s.Do? ==>
      var op := w.procs[s.pid].todo[0];
      && (op.Change? && op.edit.Delete? ==> w.db.mark || w.db.imports == 0)
      && (op.Replace? ==> op.copy.lapses == 0 && !Lapsed(op.copy))
  }

  ghost predicate AllCareful(steps: seq<Step>) {
    forall k :: 0 <= k < |steps| && Enabled(After(steps[..k]), steps[k]) ==> Careful(After(steps[..k]), steps[k])
  }

  predicate NoGap(w: World) { w.count.lapses == 0 && w.db.lapses == 0 && !Lapsed(w.db) }

  lemma TakeKeepsNoGap(w: World, s: Step)
    requires Good(w) && NoGap(w) && Enabled(w, s) && Careful(w, s)
    ensures NoGap(Take(w, s))
  {
    if s.Do? {
      var p := w.procs[s.pid];
      assert ProcFits(p, w.db);
      if p.todo[0].PutRows? {
        assert w.db.rows + p.todo[0].rows == p.todo[0].rows;
      }
    }
  }

  lemma {:induction false} CarefulHasNoGap(steps: seq<Step>)
    requires AllCareful(steps)
    ensures NoGap(After(steps))
    decreases |steps|
  {
    if steps != [] {
      var n := |steps| - 1;
      forall k | 0 <= k < n && Enabled(After(steps[..n][..k]), steps[..n][k])
        ensures Careful(After(steps[..n][..k]), steps[..n][k])
      {
        TakeTake(steps, n, k);
        assert Enabled(After(steps[..k]), steps[k]);
      }
      CarefulHasNoGap(steps[..n]);
      AfterIsGood(steps[..n]);
      if Enabled(After(steps[..n]), steps[n]) {
        TakeKeepsNoGap(After(steps[..n]), steps[n]);
      }
    }
  }

  /** In such a run, whatever crashes, the file is imported at most once into any one database, counting
      what was imported before a copy of it was made, and so never after an operator cleared what it
      brought; and at most once more than databases were put in place. */
  lemma ImportedAtMostOnce(steps: seq<Step>)
    requires AllCareful(steps)
    ensures After(steps).db.imports <= 1
    ensures After(steps).count.imports <= After(steps).count.replaced + 1
  {
    CarefulHasNoGap(steps);
    OneImportPerLapse(steps);
  }
}
