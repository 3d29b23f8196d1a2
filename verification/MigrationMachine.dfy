/** The private-key migration as a machine whose every step is one file or
    cryptographic operation. A crash may happen between any two steps, and any
    number of runs may follow one another. */
module MigrationMachine {
  import opened Common
  import opened Identity

  const BACKUP_SUFFIX := ".dpapi-user-v1.bak"

  type Disk = map<string, Bytes>

  datatype Place = Place(identity: string, enrollment: string) {
    function Backup(): string { identity + BACKUP_SUFFIX }
    predicate Valid() { enrollment != identity && enrollment != Backup() }
  }

  datatype Read = Data(data: Bytes) | Missing | Unreadable

  /** How a write ends: done; failed with no effect; done but reported as failed. */
  datatype WriteFault = Commits | Fails | CommitsButFails

  /** How the calls of one read turn out. */
  datatype ReadPlan = ReadPlan(
    inspected: bool,   // the system says whether there is a file
    regular: bool,     // and that it is no directory, link or device
    guarded: bool,     // its access list passes
    delivered: bool)   // its bytes are read

  const CLEAN_READ := ReadPlan(true, true, true, true)

  /** What the outside world does during one step. */
  datatype Env = Env(
    read: ReadPlan,
    write: WriteFault,
    protectResult: Option<Bytes>,
    unprotectFails: bool)
  {
    predicate FaultFree() { read == CLEAN_READ && write == Commits && !unprotectFails }
  }

  datatype Job = Job(original: Bytes, cfg: AgentConfig, key: Bytes, enrollment: Option<Bytes>)

  datatype Outcome =
    | Migrated
    | AlreadyMigrated
    | IdentityUnreadable
    | IdentityRejected(error: IdentityError)
    | EnrollmentUnreadable
    | EnrollmentRejected
    | BackupNotCreated
    | BackupConflict
    | BackupUnverified
    | ProtectFailed
    | EmptyCiphertext
    | CandidateRejected
    | IdentityChanged
    | EnrollmentChanged
    | UnchangedVerified
    | RestoredVerified
    | RollbackUnverified
  {
    predicate Success() { Migrated? || AlreadyMigrated? }
  }

  datatype Pc =
    | Begin
    | LoadEnrollment(original: Bytes, cfg: AgentConfig, key: Bytes)
    | FindBackup(job: Job)
    | CreateBackup(job: Job)
    | CheckBackup(job: Job)
    | Protect(job: Job)
    | RecheckIdentity(job: Job, candidate: Bytes)
    | RecheckEnrollment(job: Job, candidate: Bytes)
    | Replace(job: Job, candidate: Bytes)
    | ReadBack(job: Job, candidate: Bytes)
    | RollbackRead(job: Job)
    | RollbackWrite(job: Job)
    | RollbackVerify(job: Job)
    | Done(outcome: Outcome)
  {
    /** Steps left at most. */
    function Rank(): nat {
      match this
      case Begin => 13
      case LoadEnrollment(_, _, _) => 12
      case FindBackup(_) => 11
      case CreateBackup(_) => 10
      case CheckBackup(_) => 9
      case Protect(_) => 8
      case RecheckIdentity(_, _) => 7
      case RecheckEnrollment(_, _) => 6
      case Replace(_, _) => 5
      case ReadBack(_, _) => 4
      case RollbackRead(_) => 3
      case RollbackWrite(_) => 2
      case RollbackVerify(_) => 1
      case Done(_) => 0
    }
  }

  /** A read is faithful or fails: only a regular file within the size bound and with a
      proper access list is read. */
  function ReadFile(disk: Disk, path: string, plan: ReadPlan): Read {
    if !plan.inspected then Unreadable
    else if path !in disk then Missing
    else if plan.regular && |disk[path]| <= MAX_STATE_SIZE && plan.guarded && plan.delivered then Data(disk[path])
    else Unreadable
  }

  /** A write takes effect completely or not at all, whatever it reports. */
  function WriteFile(disk: Disk, path: string, data: Bytes, exclusive: bool, fault: WriteFault): (Disk, bool) {
    if exclusive && path in disk then (disk, false)
    else match fault
      case Commits => (disk[path := data], true)
      case Fails => (disk, false)
      case CommitsButFails => (disk[path := data], false)
  }

  function Next(p: Platform, place: Place, disk: Disk, pc: Pc, env: Env): (Disk, Pc) {
    match pc
    case Begin =>
      (match ReadFile(disk, place.identity, env.read)
       case Data(original) =>
         (match DecodeIdentity(p, original)
          case Err(e) => (disk, Done(IdentityRejected(e)))
          case Ok(cfg) =>
            (match KeyFromIdentity(p, original, false, env.unprotectFails)
             case Err(e) => (disk, Done(IdentityRejected(e)))
             case Ok(key) => (disk, LoadEnrollment(original, cfg, key))))
       case _ => (disk, Done(IdentityUnreadable)))
    case LoadEnrollment(original, cfg, key) =>
      (match ReadFile(disk, place.enrollment, env.read)
       case Unreadable => (disk, Done(EnrollmentUnreadable))
       case Data(state) =>
         if !EnrollmentBinds(p, state, cfg) then (disk, Done(EnrollmentRejected))
         else (disk, AfterEnrollment(Job(original, cfg, key, Some(state))))
       case Missing => (disk, AfterEnrollment(Job(original, cfg, key, None))))
    case FindBackup(job) =>
      (match ReadFile(disk, place.Backup(), env.read)
       case Missing => (disk, CreateBackup(job))
       case Data(existing) => (disk, if existing == job.original then CheckBackup(job) else Done(BackupConflict))
       case Unreadable => (disk, Done(BackupConflict)))
    case CreateBackup(job) =>
      var (disk', ok) := WriteFile(disk, place.Backup(), job.original, true, env.write);
      (disk', if ok then CheckBackup(job) else Done(BackupNotCreated))
    case CheckBackup(job) =>
      (disk, if ReadFile(disk, place.Backup(), env.read) == Data(job.original) then Protect(job)
             else Done(BackupUnverified))
    case Protect(job) =>
      (match env.protectResult
       case None => (disk, Done(ProtectFailed))
       case Some(blob) =>
         if blob == [] then (disk, Done(EmptyCiphertext)) else
         var candidate := Candidate(p, job.original, blob);
         (disk, if VerifyMigrated(p, candidate, job.cfg, job.key, env.unprotectFails)
                then RecheckIdentity(job, candidate) else Done(CandidateRejected)))
    case RecheckIdentity(job, candidate) =>
      (disk, if ReadFile(disk, place.identity, env.read) == Data(job.original)
             then RecheckEnrollment(job, candidate) else Done(IdentityChanged))
    case RecheckEnrollment(job, candidate) =>
      var now := ReadFile(disk, place.enrollment, env.read);
      (disk, if now == (if job.enrollment.None? then Missing else Data(job.enrollment.value))
             then Replace(job, candidate) else Done(EnrollmentChanged))
    case Replace(job, candidate) =>
      var (disk', ok) := WriteFile(disk, place.identity, candidate, false, env.write);
      (disk', if ok then ReadBack(job, candidate) else RollbackRead(job))
    case ReadBack(job, candidate) =>
      (disk, if && ReadFile(disk, place.identity, env.read) == Data(candidate)
                && VerifyMigrated(p, candidate, job.cfg, job.key, env.unprotectFails)
             then Done(Migrated) else RollbackRead(job))
    case RollbackRead(job) =>
      (disk, if ReadFile(disk, place.identity, env.read) == Data(job.original)
             then Done(UnchangedVerified) else RollbackWrite(job))
    case RollbackWrite(job) =>
      (WriteFile(disk, place.identity, job.original, false, env.write).0, RollbackVerify(job))
    case RollbackVerify(job) =>
      (disk, if ReadFile(disk, place.identity, env.read) == Data(job.original)
             then Done(RestoredVerified) else Done(RollbackUnverified))
    case Done(_) => (disk, pc)
  }

  function AfterEnrollment(job: Job): Pc {
    if job.cfg.protection == MACHINE_PROTECTION then Done(AlreadyMigrated) else FindBackup(job)
  }

  function Candidate(p: Platform, original: Bytes, blob: Bytes): Bytes {
    match p.parse(original)
    case None => []
    case Some(d) => p.render(Reprotect(p, d, blob))
  }

  lemma NextDecreases(p: Platform, place: Place, disk: Disk, pc: Pc, env: Env)
    requires !pc.Done?
    ensures Next(p, place, disk, pc, env).1.Rank() < pc.Rank()
  {}

  // -------------------------------------------------------------- executions

  /** The disk, the disk this run started from, and where the run is. */
  datatype Session = Session(disk: Disk, start: Disk, pc: Pc)

  /** `Restart` is both a crash at this point and the next run after an ending. */
  datatype Action = Advance(env: Env) | Restart

  function Act(p: Platform, place: Place, s: Session, a: Action): Session {
    match a
    case Advance(env) => var (disk, pc) := Next(p, place, s.disk, s.pc, env); Session(disk, s.start, pc)
    case Restart => Session(s.disk, s.disk, Begin)
  }

  function Execute(p: Platform, place: Place, genesis: Disk, actions: seq<Action>): Session {
    if actions == [] then Session(genesis, genesis, Begin)
    else Act(p, place, Execute(p, place, genesis, actions[..|actions| - 1]), actions[|actions| - 1])
  }

  // -------------------------------------------------------------- invariants

  /** `data` is a complete re-protected form of `original`: machine protected,
      same identifier, algorithm, public key and private key, and no other
      field changed. */
  ghost predicate Successor(p: Platform, original: Bytes, data: Bytes) {
    && |data| <= MAX_STATE_SIZE
    && DecodeIdentity(p, original).Ok? && DecodeIdentity(p, data).Ok?
    && (var was, now := DecodeIdentity(p, original).value, DecodeIdentity(p, data).value;
        && was.protection != MACHINE_PROTECTION
        && now.protection == MACHINE_PROTECTION
        && now.agentId == was.agentId
        && now.algorithm == was.algorithm
        && now.publicKey == was.publicKey)
    && KeyFromIdentity(p, original, false, false).Ok?
    && KeyFromIdentity(p, data, true, false) == KeyFromIdentity(p, original, false, false)
    && (exists blob :: data == Candidate(p, original, blob))
  }

  /** What a disk reached from `genesis` may look like, at every instant. */
  ghost predicate Safe(p: Platform, place: Place, genesis: Disk, disk: Disk) {
    var identity, backup := place.identity, place.Backup();
    && disk - {identity, backup} == genesis - {identity, backup}
    && (identity in disk <==> identity in genesis)
    && (backup in genesis ==> backup in disk && disk[backup] == genesis[backup])
    && (backup in disk && backup !in genesis ==> identity in genesis && disk[backup] == genesis[identity])
    && (identity in disk && disk[identity] != genesis[identity] ==>
          && Successor(p, genesis[identity], disk[identity])
          && backup in disk && disk[backup] == genesis[identity])
  }

  /** What the machine knows about the identity once it has decided to migrate. */
  ghost predicate JobMatches(p: Platform, place: Place, s: Session, job: Job) {
    && place.identity in s.start && s.start[place.identity] == job.original
    && |job.original| <= MAX_STATE_SIZE
    && DecodeIdentity(p, job.original) == Ok(job.cfg)
    && KeyFromIdentity(p, job.original, false, false) == Ok(job.key)
    && job.cfg.protection != MACHINE_PROTECTION
  }

  ghost predicate BackedUp(place: Place, s: Session, job: Job) {
    place.Backup() in s.disk && s.disk[place.Backup()] == job.original
  }

  ghost predicate CandidateFor(p: Platform, job: Job, candidate: Bytes) {
    Successor(p, job.original, candidate)
  }

  /** The identity file is byte for byte what it was when the run began. */
  ghost predicate IdentityKept(place: Place, s: Session) {
    && (place.identity in s.disk <==> place.identity in s.start)
    && (place.identity in s.disk ==> s.disk[place.identity] == s.start[place.identity])
  }

  /** What an outcome promises about the disk. */
  ghost predicate Honest(p: Platform, place: Place, s: Session, outcome: Outcome) {
    var identity, backup := place.identity, place.Backup();
    match outcome
    case Migrated =>
      && identity in s.start && identity in s.disk && backup in s.disk
      && Successor(p, s.start[identity], s.disk[identity])
      && s.disk[backup] == s.start[identity]
    case AlreadyMigrated =>
      && s.disk == s.start
      && identity in s.disk && KeyFromIdentity(p, s.disk[identity], true, false).Ok?
    case RollbackUnverified =>
      && identity in s.start
      && backup in s.disk && s.disk[backup] == s.start[identity]
    case UnchangedVerified =>
      IdentityKept(place, s) && backup in s.disk && identity in s.start && s.disk[backup] == s.start[identity]
    case RestoredVerified =>
      IdentityKept(place, s) && backup in s.disk && identity in s.start && s.disk[backup] == s.start[identity]
    case _ => IdentityKept(place, s)
  }

  ghost predicate AtPc(p: Platform, place: Place, s: Session) {
    match s.pc
    case Begin => s.disk == s.start
    case LoadEnrollment(original, cfg, key) =>
      && s.disk == s.start
      && place.identity in s.disk && s.disk[place.identity] == original
      && |original| <= MAX_STATE_SIZE
      && DecodeIdentity(p, original) == Ok(cfg)
      && KeyFromIdentity(p, original, false, false) == Ok(key)
    case FindBackup(job) => JobMatches(p, place, s, job) && IdentityKept(place, s)
    case CreateBackup(job) => JobMatches(p, place, s, job) && IdentityKept(place, s)
    case CheckBackup(job) => JobMatches(p, place, s, job) && IdentityKept(place, s)
    case Protect(job) => JobMatches(p, place, s, job) && IdentityKept(place, s) && BackedUp(place, s, job)
    case RecheckIdentity(job, c) =>
      JobMatches(p, place, s, job) && IdentityKept(place, s) && BackedUp(place, s, job) && CandidateFor(p, job, c)
    case RecheckEnrollment(job, c) =>
      JobMatches(p, place, s, job) && IdentityKept(place, s) && BackedUp(place, s, job) && CandidateFor(p, job, c)
    case Replace(job, c) =>
      JobMatches(p, place, s, job) && IdentityKept(place, s) && BackedUp(place, s, job) && CandidateFor(p, job, c)
    case ReadBack(job, c) => JobMatches(p, place, s, job) && BackedUp(place, s, job) && CandidateFor(p, job, c)
    case RollbackRead(job) => JobMatches(p, place, s, job) && BackedUp(place, s, job)
    case RollbackWrite(job) => JobMatches(p, place, s, job) && BackedUp(place, s, job)
    case RollbackVerify(job) => JobMatches(p, place, s, job) && BackedUp(place, s, job)
    case Done(outcome) => Honest(p, place, s, outcome)
  }

  ghost predicate Inv(p: Platform, place: Place, genesis: Disk, s: Session) {
    Safe(p, place, genesis, s.disk) && Safe(p, place, genesis, s.start) && AtPc(p, place, s)
  }

  /** A run that decides to migrate is looking at the genesis identity: a
      re-protected one would have been reported as already migrated. */
  lemma MigratesOnlyGenesis(p: Platform, place: Place, genesis: Disk, s: Session, job: Job)
    requires Safe(p, place, genesis, s.start) && JobMatches(p, place, s, job)
    ensures place.identity in genesis && genesis[place.identity] == job.original
  {}

  lemma VerifiedIsSuccessor(p: Platform, job: Job, blob: Bytes, fails: bool)
    requires DecodeIdentity(p, job.original) == Ok(job.cfg)
    requires KeyFromIdentity(p, job.original, false, false) == Ok(job.key)
    requires job.cfg.protection != MACHINE_PROTECTION
    requires VerifyMigrated(p, Candidate(p, job.original, blob), job.cfg, job.key, fails)
    ensures Successor(p, job.original, Candidate(p, job.original, blob))
  {}

  lemma BackupDistinct(place: Place)
    ensures place.Backup() != place.identity
  {
    assert |place.Backup()| > |place.identity|;
  }

  /** A decryption call that succeeds has found the key. */
  lemma KeyDespiteFaults(p: Platform, data: Bytes, requireMachine: bool, fails: bool)
    requires KeyFromIdentity(p, data, requireMachine, fails).Ok?
    ensures KeyFromIdentity(p, data, requireMachine, false) == KeyFromIdentity(p, data, requireMachine, fails)
  {}

  lemma OpeningStepKeepsInv(p: Platform, place: Place, genesis: Disk, s: Session, env: Env)
    requires Inv(p, place, genesis, s)
    requires s.pc.Begin? || s.pc.LoadEnrollment?
    ensures Inv(p, place, genesis, Act(p, place, s, Advance(env)))
  {
    hide Safe, Successor, VerifyMigrated, EnrollmentBinds, DecodeConfig;
    if s.pc.Begin? {
      var read := ReadFile(s.disk, place.identity, env.read);
      if read.Data? && KeyFromIdentity(p, read.data, false, env.unprotectFails).Ok? {
        KeyDespiteFaults(p, read.data, false, env.unprotectFails);
      }
    }
  }

  lemma ProtectKeepsInv(p: Platform, place: Place, genesis: Disk, s: Session, env: Env)
    requires Inv(p, place, genesis, s)
    requires s.pc.Protect?
    ensures Inv(p, place, genesis, Act(p, place, s, Advance(env)))
  {
    hide Safe, DecodeConfig, ValidateKey;
    var job := s.pc.job;
    if Next(p, place, s.disk, s.pc, env).1.RecheckIdentity? {
      VerifiedIsSuccessor(p, job, env.protectResult.value, env.unprotectFails);
    }
  }

  /** The remaining steps only look at files. */
  lemma CheckingStepKeepsInv(p: Platform, place: Place, genesis: Disk, s: Session, env: Env)
    requires Inv(p, place, genesis, s)
    requires s.pc.FindBackup? || s.pc.CheckBackup? || s.pc.RecheckIdentity? || s.pc.RecheckEnrollment?
    ensures Inv(p, place, genesis, Act(p, place, s, Advance(env)))
  {
    hide Safe, Successor, VerifyMigrated, EnrollmentBinds, DecodeIdentity;
  }

  lemma ReadBackKeepsInv(p: Platform, place: Place, genesis: Disk, s: Session, env: Env)
    requires Inv(p, place, genesis, s)
    requires s.pc.ReadBack?
    ensures Inv(p, place, genesis, Act(p, place, s, Advance(env)))
  {
    hide Safe, Successor, VerifyMigrated, EnrollmentBinds, DecodeIdentity;
  }

  lemma RollbackReadKeepsInv(p: Platform, place: Place, genesis: Disk, s: Session, env: Env)
    requires Inv(p, place, genesis, s)
    requires s.pc.RollbackRead?
    ensures Inv(p, place, genesis, Act(p, place, s, Advance(env)))
  {
    hide Safe, Successor, VerifyMigrated, EnrollmentBinds, DecodeIdentity;
  }

  lemma RollbackVerifyKeepsInv(p: Platform, place: Place, genesis: Disk, s: Session, env: Env)
    requires Inv(p, place, genesis, s)
    requires s.pc.RollbackVerify?
    ensures Inv(p, place, genesis, Act(p, place, s, Advance(env)))
  {
    hide Safe, Successor, VerifyMigrated, EnrollmentBinds, DecodeIdentity;
  }

  lemma CreateBackupKeepsInv(p: Platform, place: Place, genesis: Disk, s: Session, env: Env)
    requires Inv(p, place, genesis, s)
    requires s.pc.CreateBackup?
    ensures Inv(p, place, genesis, Act(p, place, s, Advance(env)))
  {
    hide Successor, DecodeIdentity, KeyFromIdentity;
    BackupDistinct(place);
    MigratesOnlyGenesis(p, place, genesis, s, s.pc.job);
    var t := Act(p, place, s, Advance(env));
    assert t.disk - {place.identity, place.Backup()} == s.disk - {place.identity, place.Backup()};
  }

  /** The one step that replaces the identity. */
  lemma ReplaceKeepsInv(p: Platform, place: Place, genesis: Disk, s: Session, env: Env)
    requires Inv(p, place, genesis, s)
    requires s.pc.Replace?
    ensures Inv(p, place, genesis, Act(p, place, s, Advance(env)))
  {
    hide DecodeIdentity, KeyFromIdentity, VerifyMigrated;
    BackupDistinct(place);
    MigratesOnlyGenesis(p, place, genesis, s, s.pc.job);
    var t := Act(p, place, s, Advance(env));
    assert t.disk - {place.identity, place.Backup()} == s.disk - {place.identity, place.Backup()};
  }

  /** The one step that puts the original back. */
  lemma RollbackWriteKeepsInv(p: Platform, place: Place, genesis: Disk, s: Session, env: Env)
    requires Inv(p, place, genesis, s)
    requires s.pc.RollbackWrite?
    ensures Inv(p, place, genesis, Act(p, place, s, Advance(env)))
  {
    hide Successor, DecodeIdentity, KeyFromIdentity, VerifyMigrated;
    BackupDistinct(place);
    MigratesOnlyGenesis(p, place, genesis, s, s.pc.job);
    var t := Act(p, place, s, Advance(env));
    assert t.disk - {place.identity, place.Backup()} == s.disk - {place.identity, place.Backup()};
  }

  lemma ActKeepsInv(p: Platform, place: Place, genesis: Disk, s: Session, a: Action)
    requires Inv(p, place, genesis, s)
    ensures Inv(p, place, genesis, Act(p, place, s, a))
  {
    hide Safe, Successor, DecodeIdentity, KeyFromIdentity;
    if a.Advance? {
      match s.pc
      case Begin => OpeningStepKeepsInv(p, place, genesis, s, a.env);
      case LoadEnrollment(_, _, _) => OpeningStepKeepsInv(p, place, genesis, s, a.env);
      case CreateBackup(_) => CreateBackupKeepsInv(p, place, genesis, s, a.env);
      case Protect(_) => ProtectKeepsInv(p, place, genesis, s, a.env);
      case Replace(_, _) => ReplaceKeepsInv(p, place, genesis, s, a.env);
      case ReadBack(_, _) => ReadBackKeepsInv(p, place, genesis, s, a.env);
      case RollbackRead(_) => RollbackReadKeepsInv(p, place, genesis, s, a.env);
      case RollbackWrite(_) => RollbackWriteKeepsInv(p, place, genesis, s, a.env);
      case RollbackVerify(_) => RollbackVerifyKeepsInv(p, place, genesis, s, a.env);
      case Done(_) => assert Act(p, place, s, a) == s;
      case _ => CheckingStepKeepsInv(p, place, genesis, s, a.env);
    }
  }
}
