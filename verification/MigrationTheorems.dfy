/** What the migration promises over every sequence of steps, faults, crashes
    and repeated runs. */
module MigrationTheorems {
  import opened Common
  import opened Identity
  import opened MigrationMachine

  lemma SafeAtStart(p: Platform, place: Place, genesis: Disk)
    ensures Inv(p, place, genesis, Session(genesis, genesis, Begin))
  {
    BackupDistinct(place);
  }

  lemma {:induction false} ExecuteKeepsInv(p: Platform, place: Place, genesis: Disk, actions: seq<Action>)
    ensures Inv(p, place, genesis, Execute(p, place, genesis, actions))
  {
    if actions == [] {
      SafeAtStart(p, place, genesis);
    } else {
      var init := actions[..|actions| - 1];
      ExecuteKeepsInv(p, place, genesis, init);
      ActKeepsInv(p, place, genesis, Execute(p, place, genesis, init), actions[|actions| - 1]);
    }
  }

  /** Crash safety. After any number of steps, under any faults and however many
      earlier runs failed or were cut off, the identity is the original bytes
      or a complete re-protected identity with the same key; in the second case
      the backup holds the original; a backup that existed is untouched, and no
      other file ever changes. */
  lemma CrashSafety(p: Platform, place: Place, genesis: Disk, actions: seq<Action>)
    requires place.identity in genesis
    ensures
      var disk := Execute(p, place, genesis, actions).disk;
      && place.identity in disk
      && (disk[place.identity] == genesis[place.identity]
          || (&& Successor(p, genesis[place.identity], disk[place.identity])
              && place.Backup() in disk && disk[place.Backup()] == genesis[place.identity]))
      && (place.Backup() in genesis ==>
            place.Backup() in disk && disk[place.Backup()] == genesis[place.Backup()])
      && (forall path :: path != place.identity && path != place.Backup() ==>
            (path in disk <==> path in genesis) && (path in disk ==> disk[path] == genesis[path]))
  {
    ExecuteKeepsInv(p, place, genesis, actions);
    var disk := Execute(p, place, genesis, actions).disk;
    var changed := {place.identity, place.Backup()};
    forall path | path != place.identity && path != place.Backup()
      ensures (path in disk <==> path in genesis) && (path in disk ==> disk[path] == genesis[path])
    {
      assert path in disk <==> path in disk - changed;
      assert path in genesis <==> path in genesis - changed;
      assert path in disk ==> disk[path] == (disk - changed)[path];
      assert path in genesis ==> genesis[path] == (genesis - changed)[path];
    }
  }

  /** Without an identity nothing is ever written. */
  lemma NoIdentityNoWrite(p: Platform, place: Place, genesis: Disk, actions: seq<Action>)
    requires place.identity !in genesis
    ensures Execute(p, place, genesis, actions).disk == genesis
  {
    ExecuteKeepsInv(p, place, genesis, actions);
    var disk := Execute(p, place, genesis, actions).disk;
    BackupDistinct(place);
    forall path ensures (path in disk <==> path in genesis) && (path in disk ==> disk[path] == genesis[path]) {
      var changed := {place.identity, place.Backup()};
      if path !in changed {
        assert path in disk <==> path in disk - changed;
        assert path in genesis <==> path in genesis - changed;
        assert path in disk ==> disk[path] == (disk - changed)[path];
        assert path in genesis ==> genesis[path] == (genesis - changed)[path];
      }
    }
  }

  /** No outcome claims more than the disk shows. Success means the identity is
      a re-protected form of the one the run found, with a backup of it; every
      error except an unverified rollback means the identity is what the run
      found; an unverified rollback still leaves the backup. */
  lemma HonestOutcome(p: Platform, place: Place, genesis: Disk, actions: seq<Action>)
    requires Execute(p, place, genesis, actions).pc.Done?
    ensures
      var s := Execute(p, place, genesis, actions);
      var identity, backup, o := place.identity, place.Backup(), s.pc.outcome;
      && (o.Migrated? ==>
            && identity in s.start && identity in s.disk && backup in s.disk
            && Successor(p, s.start[identity], s.disk[identity])
            && s.disk[backup] == s.start[identity])
      && (o.AlreadyMigrated? ==>
            && s.disk == s.start && identity in s.disk
            && KeyFromIdentity(p, s.disk[identity], true, false).Ok?)
      && (!o.Success() && !o.RollbackUnverified? ==>
            && (identity in s.disk <==> identity in s.start)
            && (identity in s.disk ==> s.disk[identity] == s.start[identity]))
      && (o.RollbackUnverified? ==>
            identity in s.start && backup in s.disk && s.disk[backup] == s.start[identity])
  {
    hide Safe, Successor, KeyFromIdentity, DecodeIdentity, Execute;
    ExecuteKeepsInv(p, place, genesis, actions);
  }

  // ------------------------------------------------------------- convergence

  /** The rest of a run in which every step meets the same environment. */
  function Finish(p: Platform, place: Place, disk: Disk, pc: Pc, env: Env): (Disk, Outcome)
    decreases pc.Rank()
  {
    if pc.Done? then (disk, pc.outcome) else
    NextDecreases(p, place, disk, pc, env);
    var (disk', pc') := Next(p, place, disk, pc, env);
    Finish(p, place, disk', pc', env)
  }

  /** What a fault-free run needs to find. */
  predicate Ready(p: Platform, place: Place, disk: Disk, protectResult: Option<Bytes>) {
    && place.identity in disk
    && |disk[place.identity]| <= MAX_STATE_SIZE
    && KeyFromIdentity(p, disk[place.identity], false, false).Ok?
    && (var cfg := DecodeIdentity(p, disk[place.identity]).value;
        && (place.enrollment in disk ==> EnrollmentBinds(p, disk[place.enrollment], cfg))
        && (cfg.protection != MACHINE_PROTECTION ==> BackupReady(p, place, disk, protectResult)))
  }

  predicate BackupReady(p: Platform, place: Place, disk: Disk, protectResult: Option<Bytes>)
    requires place.identity in disk
    requires KeyFromIdentity(p, disk[place.identity], false, false).Ok?
  {
    var original := disk[place.identity];
    && (place.Backup() in disk ==> disk[place.Backup()] == original)
    && protectResult.Some? && protectResult.value != []
    && p.decrypt(protectResult.value) == Some(KeyFromIdentity(p, original, false, false).value)
    && |Candidate(p, original, protectResult.value)| <= MAX_STATE_SIZE
  }

  /** From the backup search on, a fault-free run either migrates or stops with
      the identity as it was. */
  lemma FinishFromBackup(p: Platform, place: Place, disk: Disk, job: Job, env: Env)
    requires p.Lawful() && place.Valid() && env.FaultFree()
    requires place.identity in disk && disk[place.identity] == job.original
    requires |job.original| <= MAX_STATE_SIZE
    requires DecodeIdentity(p, job.original) == Ok(job.cfg)
    requires KeyFromIdentity(p, job.original, false, false) == Ok(job.key)
    requires ReadFile(disk, place.enrollment, CLEAN_READ)
          == if job.enrollment.None? then Missing else Data(job.enrollment.value)
    ensures
      var (end, outcome) := Finish(p, place, disk, FindBackup(job), env);
      if BackupReady(p, place, disk, env.protectResult)
      then && outcome == Migrated
           && end == disk[place.Backup() := job.original]
                         [place.identity := Candidate(p, job.original, env.protectResult.value)]
      else !outcome.Success() && place.identity in end && end[place.identity] == job.original
  {
    hide DecodeConfig, ValidateKey, VerifyMigrated, DecodeIdentity, KeyFromIdentity;
    BackupDistinct(place);
    if place.Backup() in disk && disk[place.Backup()] != job.original {
      assert Next(p, place, disk, FindBackup(job), env) == (disk, Done(BackupConflict));
    } else {
      var saved := disk[place.Backup() := job.original];
      if place.Backup() in disk {
        assert saved == disk;
        assert Next(p, place, disk, FindBackup(job), env) == (saved, CheckBackup(job));
      } else {
        assert Next(p, place, disk, FindBackup(job), env) == (disk, CreateBackup(job));
        assert Next(p, place, disk, CreateBackup(job), env) == (saved, CheckBackup(job));
        assert Finish(p, place, disk, CreateBackup(job), env) == Finish(p, place, saved, CheckBackup(job), env);
      }
      assert Finish(p, place, disk, FindBackup(job), env) == Finish(p, place, saved, CheckBackup(job), env);
      assert Next(p, place, saved, CheckBackup(job), env) == (saved, Protect(job));
      assert Finish(p, place, saved, CheckBackup(job), env) == Finish(p, place, saved, Protect(job), env);
      FinishFromProtect(p, place, saved, job, env);
    }
  }

  /** A verified candidate is published by a fault-free run. */
  lemma FinishVerified(p: Platform, place: Place, disk: Disk, job: Job, candidate: Bytes, env: Env)
    requires place.Valid() && env.FaultFree()
    requires ReadFile(disk, place.identity, CLEAN_READ) == Data(job.original)
    requires ReadFile(disk, place.enrollment, CLEAN_READ)
          == if job.enrollment.None? then Missing else Data(job.enrollment.value)
    requires VerifyMigrated(p, candidate, job.cfg, job.key, false)
    ensures Finish(p, place, disk, RecheckIdentity(job, candidate), env)
         == (disk[place.identity := candidate], Migrated)
  {
    var done := disk[place.identity := candidate];
    assert Finish(p, place, done, ReadBack(job, candidate), env) == (done, Migrated) by {
      assert ReadFile(done, place.identity, CLEAN_READ) == Data(candidate);
      assert Next(p, place, done, ReadBack(job, candidate), env) == (done, Done(Migrated));
    }
    assert Finish(p, place, disk, Replace(job, candidate), env) == (done, Migrated) by {
      assert Next(p, place, disk, Replace(job, candidate), env) == (done, ReadBack(job, candidate));
    }
    assert Finish(p, place, disk, RecheckEnrollment(job, candidate), env) == (done, Migrated) by {
      assert Next(p, place, disk, RecheckEnrollment(job, candidate), env) == (disk, Replace(job, candidate));
    }
    assert Next(p, place, disk, RecheckIdentity(job, candidate), env) == (disk, RecheckEnrollment(job, candidate));
  }

  lemma FinishFromProtect(p: Platform, place: Place, disk: Disk, job: Job, env: Env)
    requires p.Lawful() && place.Valid() && env.FaultFree()
    requires place.identity in disk && disk[place.identity] == job.original
    requires |job.original| <= MAX_STATE_SIZE
    requires DecodeIdentity(p, job.original) == Ok(job.cfg)
    requires KeyFromIdentity(p, job.original, false, false) == Ok(job.key)
    requires ReadFile(disk, place.enrollment, CLEAN_READ)
          == if job.enrollment.None? then Missing else Data(job.enrollment.value)
    ensures
      var (end, outcome) := Finish(p, place, disk, Protect(job), env);
      if env.protectResult.Some? && env.protectResult.value != []
         && p.decrypt(env.protectResult.value) == Some(job.key)
         && |Candidate(p, job.original, env.protectResult.value)| <= MAX_STATE_SIZE
      then outcome == Migrated && end == disk[place.identity := Candidate(p, job.original, env.protectResult.value)]
      else !outcome.Success() && place.identity in end && end[place.identity] == job.original
  {
    if env.protectResult.Some? && env.protectResult.value != [] {
      var candidate := Candidate(p, job.original, env.protectResult.value);
      CandidateVerifies(p, job.original, job.key, env.protectResult.value);
      if VerifyMigrated(p, candidate, job.cfg, job.key, false) {
        assert Next(p, place, disk, Protect(job), env) == (disk, RecheckIdentity(job, candidate));
        FinishVerified(p, place, disk, job, candidate, env);
      } else {
        assert Next(p, place, disk, Protect(job), env) == (disk, Done(CandidateRejected));
      }
    }
  }

  /** A fault-free run succeeds exactly on a ready disk; what it leaves is then
      the re-protected identity beside its backup, or the untouched disk of an
      identity that was re-protected before. A run that fails keeps the identity. */
  lemma FaultFreeRunSucceedsExactlyWhenReady(p: Platform, place: Place, disk: Disk, env: Env)
    requires p.Lawful() && place.Valid() && env.FaultFree()
    ensures
      var (end, outcome) := Finish(p, place, disk, Begin, env);
      && (outcome.Success() <==> Ready(p, place, disk, env.protectResult))
      && (outcome.Success() ==>
            var original := disk[place.identity];
            if DecodeIdentity(p, original).value.protection == MACHINE_PROTECTION
            then outcome == AlreadyMigrated && end == disk
            else && outcome == Migrated
                 && end == disk[place.Backup() := original]
                               [place.identity := Candidate(p, original, env.protectResult.value)])
      && (!outcome.Success() && place.identity in disk ==>
            place.identity in end && end[place.identity] == disk[place.identity])
  {
    var read := ReadFile(disk, place.identity, CLEAN_READ);
    if read.Data? && KeyFromIdentity(p, read.data, false, false).Ok? {
      var original := read.data;
      var cfg, key := DecodeIdentity(p, original).value, KeyFromIdentity(p, original, false, false).value;
      var loaded := LoadEnrollment(original, cfg, key);
      assert Next(p, place, disk, Begin, env) == (disk, loaded);
      assert Finish(p, place, disk, Begin, env) == Finish(p, place, disk, loaded, env);
      var state := ReadFile(disk, place.enrollment, CLEAN_READ);
      if state.Missing? || (state.Data? && EnrollmentBinds(p, state.data, cfg)) {
        var job := Job(original, cfg, key, if state.Missing? then None else Some(state.data));
        assert Next(p, place, disk, loaded, env) == (disk, AfterEnrollment(job));
        if cfg.protection != MACHINE_PROTECTION {
          FinishFromBackup(p, place, disk, job, env);
        }
      }
    }
  }

  lemma SuccessorReady(p: Platform, place: Place, genesis: Disk, disk: Disk, protectResult: Option<Bytes>)
    requires place.Valid()
    requires Safe(p, place, genesis, disk)
    requires Ready(p, place, genesis, protectResult)
    ensures Ready(p, place, disk, protectResult)
  {
    BackupDistinct(place);
    var changed := {place.identity, place.Backup()};
    var e := place.enrollment;
    assert e in disk <==> e in disk - changed;
    assert e in genesis <==> e in genesis - changed;
    assert e in disk ==> disk[e] == (disk - changed)[e];
    assert e in genesis ==> genesis[e] == (genesis - changed)[e];
    if disk[place.identity] != genesis[place.identity] {
      KeyOfMachineIdentity(p, disk[place.identity]);
      SameBinding(p, genesis, disk, place);
    }
  }

  lemma KeyOfMachineIdentity(p: Platform, data: Bytes)
    requires KeyFromIdentity(p, data, true, false).Ok?
    ensures KeyFromIdentity(p, data, false, false) == KeyFromIdentity(p, data, true, false)
  {}

  lemma SameBinding(p: Platform, genesis: Disk, disk: Disk, place: Place)
    requires place.identity in genesis && place.identity in disk
    requires Successor(p, genesis[place.identity], disk[place.identity])
    ensures forall state :: EnrollmentBinds(p, state, DecodeIdentity(p, genesis[place.identity]).value)
                       <==> EnrollmentBinds(p, state, DecodeIdentity(p, disk[place.identity]).value)
  {}

  /** Convergence. Whatever failed or was cut off before, on a disk that started
      out ready one fault-free run ends migrated, with the original key and
      agent; and every later fault-free run reports that and writes nothing. */
  lemma Convergence(p: Platform, place: Place, genesis: Disk, actions: seq<Action>, env: Env, later: Env)
    requires p.Lawful() && place.Valid()
    requires env.FaultFree() && later.FaultFree()
    requires Ready(p, place, genesis, env.protectResult)
    ensures
      var disk := Execute(p, place, genesis, actions).disk;
      var (end, outcome) := Finish(p, place, disk, Begin, env);
      && outcome.Success()
      && place.identity in end
      && DecodeIdentity(p, end[place.identity]).Ok?
      && (var was, now := DecodeIdentity(p, genesis[place.identity]).value,
                          DecodeIdentity(p, end[place.identity]).value;
          && now.protection == MACHINE_PROTECTION
          && now.agentId == was.agentId && now.publicKey == was.publicKey && now.algorithm == was.algorithm)
      && KeyFromIdentity(p, end[place.identity], true, false) ==
           KeyFromIdentity(p, genesis[place.identity], false, false)
      && Finish(p, place, end, Begin, later) == (end, AlreadyMigrated)
  {
    ExecuteKeepsInv(p, place, genesis, actions);
    var disk := Execute(p, place, genesis, actions).disk;
    SuccessorReady(p, place, genesis, disk, env.protectResult);
    FaultFreeRunSucceedsExactlyWhenReady(p, place, disk, env);
    var (end, outcome) := Finish(p, place, disk, Begin, env);
    EndIsMigrated(p, place, genesis, disk, end, env.protectResult);
    var again := Finish(p, place, end, Begin, later);
    FaultFreeRunSucceedsExactlyWhenReady(p, place, end, later);
  }

  /** The disk a successful run leaves holds the genesis key, machine protected,
      and is ready whatever a later call of `protect` would return. */
  lemma EndIsMigrated(p: Platform, place: Place, genesis: Disk, disk: Disk, end: Disk, protectResult: Option<Bytes>)
    requires p.Lawful() && place.Valid()
    requires Safe(p, place, genesis, disk)
    requires Ready(p, place, genesis, protectResult)
    requires Ready(p, place, disk, protectResult)
    requires end == if DecodeIdentity(p, disk[place.identity]).value.protection == MACHINE_PROTECTION then disk
                    else disk[place.Backup() := disk[place.identity]]
                             [place.identity := Candidate(p, disk[place.identity], protectResult.value)]
    ensures place.identity in end && DecodeIdentity(p, end[place.identity]).Ok?
    ensures DecodeIdentity(p, end[place.identity]).value
         == DecodeIdentity(p, genesis[place.identity]).value.(
              encryptedPrivateKey := DecodeIdentity(p, end[place.identity]).value.encryptedPrivateKey,
              protection := MACHINE_PROTECTION)
    ensures KeyFromIdentity(p, end[place.identity], true, false)
         == KeyFromIdentity(p, genesis[place.identity], false, false)
    ensures forall any :: Ready(p, place, end, any)
  {
    BackupDistinct(place);
    var found, was := disk[place.identity], genesis[place.identity];
    if DecodeIdentity(p, found).value.protection != MACHINE_PROTECTION {
      assert found == was;
      var key := KeyFromIdentity(p, was, false, false).value;
      CandidateVerifies(p, was, key, protectResult.value);
      ReprotectDecodes(p, was, protectResult.value);
      KeyOfMachineIdentity(p, end[place.identity]);
    } else if found == was {
      assert KeyFromIdentity(p, was, true, false) == KeyFromIdentity(p, was, false, false);
    } else {
      KeyOfMachineIdentity(p, found);
    }
  }
}
