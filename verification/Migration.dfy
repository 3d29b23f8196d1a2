/** The migration procedure itself, proved against the step machine. */
module Migration {
  import opened Common
  import opened Identity
  import opened MigrationMachine
  import opened StateFile
  import MigrationTheorems

  /** A run of the machine so far: disks and places in the procedure, each one
      step after the one before. */
  ghost predicate IsRun(p: Platform, place: Place, run: seq<(Disk, Pc)>) {
    run != [] &&
    var init, last := run[..|run| - 1], run[|run| - 1];
    if init == [] then last.1 == Begin
    else IsRun(p, place, init) && IsStep(p, place, init[|init| - 1], last)
  }

  ghost predicate IsStep(p: Platform, place: Place, a: (Disk, Pc), b: (Disk, Pc)) {
    exists env :: Next(p, place, a.0, a.1, env) == b
  }

  ghost function Last(run: seq<(Disk, Pc)>): (Disk, Pc)
    requires run != []
  {
    run[|run| - 1]
  }

  ghost function Extend(p: Platform, place: Place, run: seq<(Disk, Pc)>, env: Env): (longer: seq<(Disk, Pc)>)
    requires IsRun(p, place, run)
    ensures IsRun(p, place, longer)
    ensures Last(longer) == Next(p, place, Last(run).0, Last(run).1, env)
    ensures longer[0] == run[0]
    ensures Last(run).0 in Disks(run)
    ensures Disks(longer) == Disks(run) + {Last(longer).0}
  {
    var longer := run + [Next(p, place, Last(run).0, Last(run).1, env)];
    assert longer[..|longer| - 1] == run;
    longer
  }

  /** The disks seen along a run. */
  ghost function Disks(run: seq<(Disk, Pc)>): set<Disk> {
    if run == [] then {} else Disks(run[..|run| - 1]) + {Last(run).0}
  }

  /** Every instant of a run is an instant of an execution, after any history
      that led to the disk the run starts on. */
  lemma {:induction false} RunIsExecution(p: Platform, place: Place, genesis: Disk, actions: seq<Action>,
                                          run: seq<(Disk, Pc)>)
    returns (more: seq<Action>)
    requires IsRun(p, place, run)
    requires Execute(p, place, genesis, actions).disk == run[0].0
    ensures Execute(p, place, genesis, more) == Session(Last(run).0, run[0].0, Last(run).1)
  {
    var init := run[..|run| - 1];
    if init == [] {
      more := actions + [Restart];
      assert more[..|more| - 1] == actions;
    } else {
      var before := RunIsExecution(p, place, genesis, actions, init);
      var env :| Next(p, place, Last(init).0, Last(init).1, env) == Last(run);
      more := before + [Advance(env)];
      assert more[..|more| - 1] == before;
    }
  }

  /** Every disk along a run is safe, and the run is honest if it has ended. */
  lemma {:induction false} RunSafe(p: Platform, place: Place, run: seq<(Disk, Pc)>)
    requires IsRun(p, place, run)
    ensures forall disk :: disk in Disks(run) ==> Safe(p, place, run[0].0, disk)
    ensures Last(run).1.Done? ==>
              Honest(p, place, Session(Last(run).0, run[0].0, Last(run).1), Last(run).1.outcome)
  {
    hide Safe, Successor, Honest, Next, Act, DecodeIdentity, KeyFromIdentity;
    assert Execute(p, place, run[0].0, []).disk == run[0].0;
    var actions := RunIsExecution(p, place, run[0].0, [], run);
    MigrationTheorems.ExecuteKeepsInv(p, place, run[0].0, actions);
    if |run| > 1 {
      RunSafe(p, place, run[..|run| - 1]);
    }
  }

  // ------------------------------------------------------ what the outside does

  /** The steps of the procedure that depend on the outside world. */
  datatype Step =
    | ReadIdentity | ReadEnrollment | LookForBackup | WriteBackup | ReadBackup | ProtectKey
    | RereadIdentity | RereadEnrollment | WriteIdentity | ReadPublished
    | ReadBeforeRollback | WriteOriginal | ReadRestored

  /** How the calls made at one step turn out. */
  datatype Calls = Calls(read: ReadPlan, plan: WritePlan, protectResult: Option<Bytes>, unprotectFails: bool) {
    function Env(): Env {
      MigrationMachine.Env(read, plan.Fault(), protectResult, unprotectFails)
    }
  }

  /** Everything the outside world does during one run. */
  type Script = Step -> Calls

  function StepOf(pc: Pc): Step
    requires !pc.Done?
  {
    match pc
    case Begin => ReadIdentity
    case LoadEnrollment(_, _, _) => ReadEnrollment
    case FindBackup(_) => LookForBackup
    case CreateBackup(_) => WriteBackup
    case CheckBackup(_) => ReadBackup
    case Protect(_) => ProtectKey
    case RecheckIdentity(_, _) => RereadIdentity
    case RecheckEnrollment(_, _) => RereadEnrollment
    case Replace(_, _) => WriteIdentity
    case ReadBack(_, _) => ReadPublished
    case RollbackRead(_) => ReadBeforeRollback
    case RollbackWrite(_) => WriteOriginal
    case RollbackVerify(_) => ReadRestored
  }

  /** Where the machine ends when the outside world follows a script. */
  function Resume(p: Platform, place: Place, disk: Disk, pc: Pc, script: Script): (Disk, Outcome)
    decreases pc.Rank()
  {
    if pc.Done? then (disk, pc.outcome) else
    var env := script(StepOf(pc)).Env();
    NextDecreases(p, place, disk, pc, env);
    var (disk', pc') := Next(p, place, disk, pc, env);
    Resume(p, place, disk', pc', script)
  }

  ghost predicate FaultFree(script: Script) {
    forall step :: script(step).Env().FaultFree()
  }

  /** A fault-free script runs like a fault-free environment with the same ciphertext. */
  lemma {:induction false} ResumeIsFinish(p: Platform, place: Place, disk: Disk, pc: Pc, script: Script)
    requires FaultFree(script)
    ensures Resume(p, place, disk, pc, script)
         == MigrationTheorems.Finish(p, place, disk, pc, script(ProtectKey).Env())
    decreases pc.Rank()
  {
    if !pc.Done? {
      var env := script(StepOf(pc)).Env();
      SameWithoutFaults(p, place, disk, pc, env, script(ProtectKey).Env());
      NextDecreases(p, place, disk, pc, env);
      var (disk', pc') := Next(p, place, disk, pc, env);
      hide Next;
      ResumeIsFinish(p, place, disk', pc', script);
    }
  }

  lemma SameWithoutFaults(p: Platform, place: Place, disk: Disk, pc: Pc, a: Env, b: Env)
    requires a.FaultFree() && b.FaultFree() && (pc.Protect? ==> a == b)
    ensures Next(p, place, disk, pc, a) == Next(p, place, disk, pc, b)
  {
    hide DecodeIdentity, KeyFromIdentity, VerifyMigrated, EnrollmentBinds;
  }

  // ---------------------------------------------------------------- the procedure

  ghost predicate Usable(place: Place, dir: Directory, temps: seq<string>)
    reads dir
  {
    && dir.Valid()
    && !IsTemp(place.identity) && !IsTemp(place.enrollment) && !IsTemp(place.Backup())
    && (forall t :: t in temps ==> IsTemp(t) && t !in dir.files)
    && Distinct(temps)
  }

  /** What stays fixed while one run goes on: the files, the script, where in the
      directory's history the run began, and where the script leads. */
  datatype Setting = Setting(p: Platform, place: Place, script: Script, ghost since: nat, ghost goal: (Disk, Outcome))

  /** The run has reached `pc` on the present directory, every directory state since it
      began shows a disk of the run, and the script still leads to the same end. */
  ghost predicate Tracks(x: Setting, dir: Directory, run: seq<(Disk, Pc)>, pc: Pc)
    reads dir
  {
    && IsRun(x.p, x.place, run)
    && Last(run) == (dir.Contents(), pc)
    && x.since <= |dir.history|
    && (forall i :: x.since <= i < |dir.history| ==> Visible(dir.history[i]) in Disks(run))
    && Resume(x.p, x.place, dir.Contents(), pc, x.script) == x.goal
  }

  /** A step that writes nothing, as the script has it. */
  ghost method Follow(x: Setting, dir: Directory, run: seq<(Disk, Pc)>, pc: Pc) returns (longer: seq<(Disk, Pc)>)
    requires Tracks(x, dir, run, pc) && !pc.Done?
    requires Next(x.p, x.place, dir.Contents(), pc, x.script(StepOf(pc)).Env()).0 == dir.Contents()
    ensures Tracks(x, dir, longer, Next(x.p, x.place, dir.Contents(), pc, x.script(StepOf(pc)).Env()).1)
    ensures longer[0] == run[0]
  {
    hide IsRun, Disks, Visible, Next;
    longer := Extend(x.p, x.place, run, x.script(StepOf(pc)).Env());
  }

  lemma ResumeStep(p: Platform, place: Place, disk: Disk, pc: Pc, script: Script)
    requires !pc.Done?
    ensures
      var next := Next(p, place, disk, pc, script(StepOf(pc)).Env());
      Resume(p, place, disk, pc, script) == Resume(p, place, next.0, next.1, script)
  {
    hide Next;
  }

  lemma RestOfTemps(temps: seq<string>)
    requires temps != [] && Distinct(temps)
    ensures Distinct(temps[1..]) && forall t :: t in temps[1..] ==> t in temps && t != temps[0]
  {}

  /** A write of the procedure, at a step of the machine that writes the same. */
  method WriteStep(x: Setting, dir: Directory, path: string, data: Bytes, exclusive: bool,
                   temps: seq<string>, plan: WritePlan, ghost run: seq<(Disk, Pc)>, ghost pc: Pc)
    returns (ok: bool, ghost longer: seq<(Disk, Pc)>)
    requires Usable(x.place, dir, temps) && temps != []
    requires path == x.place.identity || path == x.place.Backup()
    requires Tracks(x, dir, run, pc) && !pc.Done? && plan == x.script(StepOf(pc)).plan
    requires Next(x.p, x.place, dir.Contents(), pc, x.script(StepOf(pc)).Env()).0
          == WriteFile(dir.Contents(), path, data, exclusive, plan.Fault()).0
    modifies dir
    ensures Usable(x.place, dir, temps[1..])
    ensures x.since <= |dir.history| && dir.history[..x.since] == old(dir.history[..x.since])
    ensures (dir.Contents(), ok) == WriteFile(old(dir.Contents()), path, data, exclusive, plan.Fault())
    ensures Tracks(x, dir, longer, Next(x.p, x.place, old(dir.Contents()), pc, x.script(StepOf(pc)).Env()).1)
    ensures longer[0] == run[0]
  {
    hide IsRun, Disks, Visible, Next, Resume, WriteFile, StepOf, Distinct, IsTemp;
    ResumeStep(x.p, x.place, dir.Contents(), pc, x.script);
    RestOfTemps(temps);
    longer := Extend(x.p, x.place, run, x.script(StepOf(pc)).Env());
    ok := dir.Write(path, data, exclusive, temps[0], plan);
  }

  method MigratePrivateKeyProtection(p: Platform, place: Place, dir: Directory, temps: seq<string>, script: Script)
    returns (outcome: Outcome, ghost run: seq<(Disk, Pc)>)
    requires Usable(place, dir, temps) && |temps| == 3
    modifies dir
    // The procedure is a run of the machine, ends where the script leads, and is honest.
    ensures IsRun(p, place, run) && run[0].0 == old(dir.Contents())
    ensures Last(run) == (dir.Contents(), Done(outcome))
    ensures (dir.Contents(), outcome) == Resume(p, place, old(dir.Contents()), Begin, script)
    ensures Honest(p, place, Session(dir.Contents(), old(dir.Contents()), Done(outcome)), outcome)
    // Without faults it succeeds exactly on a ready disk.
    ensures p.Lawful() && place.Valid() && FaultFree(script) ==>
              (outcome.Success() <==>
                 MigrationTheorems.Ready(p, place, old(dir.Contents()), script(ProtectKey).protectResult))
    // Cut off at any instant, it leaves a safe disk beside its temporary files.
    ensures |old(dir.history)| <= |dir.history| && dir.history[..|old(dir.history)|] == old(dir.history)
    ensures forall i :: |old(dir.history)| <= i < |dir.history| ==>
              Safe(p, place, old(dir.Contents()), Visible(dir.history[i]))
  {
    hide Next, Safe, Honest, Resume, MigrationTheorems.Ready, MigrationTheorems.Finish, FaultFree;
    ghost var disk := dir.Contents();
    var x := Setting(p, place, script, |dir.history|, Resume(p, place, disk, Begin, script));
    run := [(disk, Begin)];
    outcome, run := Migrate(x, dir, temps, run);
    ResumeDone(p, place, dir.Contents(), Done(outcome), script);
    RunSafe(p, place, run);
    if p.Lawful() && place.Valid() && FaultFree(script) {
      ResumeIsFinish(p, place, disk, Begin, script);
      assert script(ProtectKey).Env().FaultFree() by {
        FaultFreeAt(script, ProtectKey);
      }
      MigrationTheorems.FaultFreeRunSucceedsExactlyWhenReady(p, place, disk, script(ProtectKey).Env());
    }
  }

  lemma ResumeDone(p: Platform, place: Place, disk: Disk, pc: Pc, script: Script)
    requires pc.Done?
    ensures Resume(p, place, disk, pc, script) == (disk, pc.outcome)
  {}

  lemma FaultFreeAt(script: Script, step: Step)
    requires FaultFree(script)
    ensures script(step).Env().FaultFree()
  {}

  method Migrate(x: Setting, dir: Directory, temps: seq<string>, ghost start: seq<(Disk, Pc)>)
    returns (outcome: Outcome, ghost run: seq<(Disk, Pc)>)
    requires Usable(x.place, dir, temps) && |temps| == 3
    requires Tracks(x, dir, start, Begin)
    modifies dir
    ensures Tracks(x, dir, run, Done(outcome)) && run[0] == start[0]
    ensures x.since <= |dir.history| && dir.history[..x.since] == old(dir.history[..x.since])
  {
    hide IsRun, Disks, Visible, Resume, DecodeIdentity, KeyFromIdentity, VerifyMigrated, EnrollmentBinds;
    // Read and check the identity.
    var calls := x.script(ReadIdentity);
    var read := dir.ReadPath(x.place.identity, calls.read);
    run := Follow(x, dir, start, Begin);
    if !read.Data? {
      return IdentityUnreadable, run;
    }
    var original := read.data;
    var decoded := DecodeIdentity(x.p, original);
    if decoded.Err? {
      return IdentityRejected(decoded.error), run;
    }
    var cfg := decoded.value;
    var loaded := KeyFromIdentity(x.p, original, false, calls.unprotectFails);
    if loaded.Err? {
      return IdentityRejected(loaded.error), run;
    }
    var key := loaded.value;

    // The enrollment state, if any, must belong to the same key.
    read := dir.ReadPath(x.place.enrollment, x.script(ReadEnrollment).read);
    run := Follow(x, dir, run, LoadEnrollment(original, cfg, key));
    if read.Unreadable? {
      return EnrollmentUnreadable, run;
    }
    if read.Data? && !EnrollmentBinds(x.p, read.data, cfg) {
      return EnrollmentRejected, run;
    }
    var job := Job(original, cfg, key, if read.Data? then Some(read.data) else None);
    if cfg.protection == MACHINE_PROTECTION {
      return AlreadyMigrated, run;
    }
    outcome, run := MigrateJob(x, dir, temps, job, run);
  }

  method MigrateJob(x: Setting, dir: Directory, temps: seq<string>, job: Job, ghost start: seq<(Disk, Pc)>)
    returns (outcome: Outcome, ghost run: seq<(Disk, Pc)>)
    requires Usable(x.place, dir, temps) && |temps| == 3
    requires Tracks(x, dir, start, FindBackup(job))
    modifies dir
    ensures Tracks(x, dir, run, Done(outcome)) && run[0] == start[0]
    ensures x.since <= |dir.history| && dir.history[..x.since] == old(dir.history[..x.since])
  {
    hide IsRun, Disks, Visible, Resume, DecodeIdentity, KeyFromIdentity, VerifyMigrated, EnrollmentBinds;
    var rest := temps;
    // Create the backup exclusively, or reuse an identical one; then verify it.
    var read := dir.ReadPath(x.place.Backup(), x.script(LookForBackup).read);
    run := Follow(x, dir, start, FindBackup(job));
    if read.Missing? {
      var saved;
      saved, run := WriteStep(x, dir, x.place.Backup(), job.original, true, temps, x.script(WriteBackup).plan, run,
                              CreateBackup(job));
      rest := temps[1..];
      if !saved {
        return BackupNotCreated, run;
      }
    } else if read != Data(job.original) {
      return BackupConflict, run;
    }
    read := dir.ReadPath(x.place.Backup(), x.script(ReadBackup).read);
    run := Follow(x, dir, run, CheckBackup(job));
    if read != Data(job.original) {
      return BackupUnverified, run;
    }
    outcome, run := ProtectAndPublish(x, dir, rest, job, run);
  }

  method ProtectAndPublish(x: Setting, dir: Directory, temps: seq<string>, job: Job, ghost start: seq<(Disk, Pc)>)
    returns (outcome: Outcome, ghost run: seq<(Disk, Pc)>)
    requires Usable(x.place, dir, temps) && |temps| >= 2
    requires Tracks(x, dir, start, Protect(job))
    modifies dir
    ensures Tracks(x, dir, run, Done(outcome)) && run[0] == start[0]
    ensures x.since <= |dir.history| && dir.history[..x.since] == old(dir.history[..x.since])
  {
    hide IsRun, Disks, Visible, Resume, DecodeIdentity, KeyFromIdentity, VerifyMigrated, EnrollmentBinds;
    // Protect the key anew and verify the candidate in memory.
    var calls := x.script(ProtectKey);
    run := Follow(x, dir, start, Protect(job));
    if calls.protectResult.None? {
      return ProtectFailed, run;
    }
    if calls.protectResult.value == [] {
      return EmptyCiphertext, run;
    }
    var candidate := Candidate(x.p, job.original, calls.protectResult.value);
    if !VerifyMigrated(x.p, candidate, job.cfg, job.key, calls.unprotectFails) {
      return CandidateRejected, run;
    }
    outcome, run := PublishUnlessChanged(x, dir, temps, job, candidate, run);
  }

  /** Nothing may have changed before the replacement. */
  method PublishUnlessChanged(x: Setting, dir: Directory, temps: seq<string>, job: Job, candidate: Bytes,
                              ghost start: seq<(Disk, Pc)>)
    returns (outcome: Outcome, ghost run: seq<(Disk, Pc)>)
    requires Usable(x.place, dir, temps) && |temps| >= 2
    requires Tracks(x, dir, start, RecheckIdentity(job, candidate))
    modifies dir
    ensures Tracks(x, dir, run, Done(outcome)) && run[0] == start[0]
    ensures x.since <= |dir.history| && dir.history[..x.since] == old(dir.history[..x.since])
  {
    hide IsRun, Disks, Visible, Resume, DecodeIdentity, KeyFromIdentity, VerifyMigrated, EnrollmentBinds;
    var read := dir.ReadPath(x.place.identity, x.script(RereadIdentity).read);
    run := Follow(x, dir, start, RecheckIdentity(job, candidate));
    if read != Data(job.original) {
      return IdentityChanged, run;
    }
    read := dir.ReadPath(x.place.enrollment, x.script(RereadEnrollment).read);
    run := Follow(x, dir, run, RecheckEnrollment(job, candidate));
    if read != (if job.enrollment.None? then Missing else Data(job.enrollment.value)) {
      return EnrollmentChanged, run;
    }
    outcome, run := Publish(x, dir, temps, job, candidate, run);
  }

  method Publish(x: Setting, dir: Directory, temps: seq<string>, job: Job, candidate: Bytes,
                 ghost start: seq<(Disk, Pc)>)
    returns (outcome: Outcome, ghost run: seq<(Disk, Pc)>)
    requires Usable(x.place, dir, temps) && |temps| >= 2
    requires Tracks(x, dir, start, Replace(job, candidate))
    modifies dir
    ensures Tracks(x, dir, run, Done(outcome)) && run[0] == start[0]
    ensures x.since <= |dir.history| && dir.history[..x.since] == old(dir.history[..x.since])
  {
    hide IsRun, Disks, Visible, Resume, DecodeIdentity, KeyFromIdentity, VerifyMigrated, EnrollmentBinds;
    var published;
    published, run := WriteStep(x, dir, x.place.identity, candidate, false, temps, x.script(WriteIdentity).plan, start,
                                Replace(job, candidate));
    if published {
      var calls := x.script(ReadPublished);
      var read := dir.ReadPath(x.place.identity, calls.read);
      run := Follow(x, dir, run, ReadBack(job, candidate));
      if read == Data(candidate) && VerifyMigrated(x.p, candidate, job.cfg, job.key, calls.unprotectFails) {
        return Migrated, run;
      }
    }
    outcome, run := Rollback(x, dir, temps[1..], job, run);
  }

  method Rollback(x: Setting, dir: Directory, temps: seq<string>, job: Job, ghost start: seq<(Disk, Pc)>)
    returns (outcome: Outcome, ghost run: seq<(Disk, Pc)>)
    requires Usable(x.place, dir, temps) && |temps| >= 1
    requires Tracks(x, dir, start, RollbackRead(job))
    modifies dir
    ensures Tracks(x, dir, run, Done(outcome)) && run[0] == start[0]
    ensures x.since <= |dir.history| && dir.history[..x.since] == old(dir.history[..x.since])
  {
    hide IsRun, Disks, Visible, Resume, DecodeIdentity, KeyFromIdentity, VerifyMigrated, EnrollmentBinds;
    var read := dir.ReadPath(x.place.identity, x.script(ReadBeforeRollback).read);
    run := Follow(x, dir, start, RollbackRead(job));
    if read == Data(job.original) {
      return UnchangedVerified, run;
    }
    // The write may fail ambiguously: only the bytes read back decide.
    var ok;
    ok, run := WriteStep(x, dir, x.place.identity, job.original, false, temps, x.script(WriteOriginal).plan, run,
                         RollbackWrite(job));
    read := dir.ReadPath(x.place.identity, x.script(ReadRestored).read);
    run := Follow(x, dir, run, RollbackVerify(job));
    outcome := if read == Data(job.original) then RestoredVerified else RollbackUnverified;
  }
}
