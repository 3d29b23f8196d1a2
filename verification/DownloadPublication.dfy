/** Running download jobs: temporary file, copy, size and hash check, atomic
    publication and cleanup, interleaved step by step over one file system. */
module DownloadPublication {
  import opened Common

  import W = WindowsPath

  /** Where a file is, up to letter case: its volume, its directory and its name, folded. */
  datatype Place = Place(volume: string, directory: seq<string>, name: string)

  type Files = map<Place, Bytes>

  /** A command on its way: where it publishes, and the temporary file picked for it. */
  datatype Job = Job(dest: Place, part: Place, size: nat, hash: Bytes)

  datatype Terminal = Completed | FailedResult

  datatype Phase =
    | Fresh       // checks that come before the temporary file
    | Receiving   // request sent, body being copied
    | Verifying   // size right, hash not yet computed
    | Verified    // hash right, not yet published
    | Discarding  // a failure after the copy: removePart, then the result
    | Cleaning    // result sent, deferred removePart still to come
    | Ended

  datatype Run = Run(
    job: Job,
    phase: Phase,
    received: nat,
    sent: seq<Terminal>,
    orphaned: bool,        // rejected after the temporary file had been created
    removed: bool)         // some removal of the temporary file succeeded

  datatype World = World(files: Files, runs: seq<Run>)

  datatype RenameFault = Commits | Fails | CommitsButFails

  datatype Move =
    | Reject                      // a check or the request fails, or the job is cancelled
    | Create
    | CreateRejected              // created, then refused by the security check
    | Receive(chunk: Bytes)
    | CopyFails
    | EndCopy
    | Hash(readFails: bool)
    | Publish(fault: RenameFault)
    | Remove(fails: bool)

  datatype Step = Step(r: nat, move: Move)

  predicate Enabled(w: World, s: Step) {
    s.r < |w.runs| &&
    var run := w.runs[s.r];
    match s.move
    case Reject => run.phase.Fresh? || run.phase.Receiving? || run.phase.Verified?
    case Create => run.phase.Fresh? && run.job.part !in w.files
    case CreateRejected => run.phase.Fresh? && run.job.part !in w.files
    case Receive(_) => run.phase.Receiving?
    case CopyFails => run.phase.Receiving?
    case EndCopy => run.phase.Receiving?
    case Hash(_) => run.phase.Verifying?
    case Publish(_) => run.phase.Verified?
    case Remove(_) => run.phase.Discarding? || run.phase.Cleaning?
  }

  function Content(files: Files, path: Place): Bytes {
    if path in files then files[path] else []
  }

  /** An atomic rename over an existing target; a missing source is an error. */
  function Rename(files: Files, source: Place, target: Place, fault: RenameFault): (Files, bool) {
    if source !in files || fault.Fails? then (files, false)
    else ((files - {source})[target := files[source]], fault.Commits?)
  }

  function Advance(sha: Bytes -> Bytes, files: Files, run: Run, move: Move): (Files, Run) {
    var job := run.job;
    match move
    case Reject =>
      (files, run.(phase := if run.phase.Fresh? then Ended else Cleaning, sent := run.sent + [FailedResult]))
    case Create => (files[job.part := []], run.(phase := Receiving))
    case CreateRejected =>
      (files[job.part := []], run.(phase := Ended, sent := run.sent + [FailedResult], orphaned := true))
    case Receive(chunk) =>
      (files[job.part := Content(files, job.part) + chunk], run.(received := run.received + |chunk|))
    case CopyFails => (files, run.(phase := Discarding))
    case EndCopy => (files, run.(phase := if run.received == job.size then Verifying else Discarding))
    case Hash(readFails) =>
      (files, run.(phase := if !readFails && job.part in files && sha(files[job.part]) == job.hash
                            then Verified else Discarding))
    case Publish(fault) =>
      var (files', ok) := Rename(files, job.part, job.dest, fault);
      (files', if ok then run.(phase := Cleaning, sent := run.sent + [Completed]) else run.(phase := Discarding))
    case Remove(fails) =>
      (if fails then files else files - {job.part},
       run.(phase := if run.phase.Discarding? then Cleaning else Ended,
            sent := if run.phase.Discarding? then run.sent + [FailedResult] else run.sent,
            removed := run.removed || !fails))
  }

  function Apply(sha: Bytes -> Bytes, w: World, s: Step): World
    requires Enabled(w, s)
  {
    var (files, run) := Advance(sha, w.files, w.runs[s.r], s.move);
    World(files, w.runs[s.r := run])
  }

  function Begin(files: Files, jobs: seq<Job>): World {
    World(files, seq(|jobs|, i requires 0 <= i < |jobs| => Run(jobs[i], Fresh, 0, [], false, false)))
  }

  function Execute(sha: Bytes -> Bytes, w: World, steps: seq<Step>): World {
    if steps == [] then w else
    var before := Execute(sha, w, steps[..|steps| - 1]);
    var s := steps[|steps| - 1];
    if Enabled(before, s) then Apply(sha, before, s) else before
  }

  // ---------------------------------------------------------------- properties

  predicate Matches(sha: Bytes -> Bytes, job: Job, data: Bytes) {
    |data| == job.size && sha(data) == job.hash
  }

  /** The names the operating system picked are fresh and all different. */
  ghost predicate FreshParts(files: Files, jobs: seq<Job>) {
    && (forall i :: 0 <= i < |jobs| ==> jobs[i].part !in files && jobs[i].part != jobs[i].dest)
    && (forall i, j :: 0 <= i < j < |jobs| ==> jobs[i].part != jobs[j].part)
  }

  /** No job is told to publish under the temporary name of another one. */
  ghost predicate NoCollision(jobs: seq<Job>) {
    forall i, j :: 0 <= i < |jobs| && 0 <= j < |jobs| ==> jobs[j].dest != jobs[i].part
  }

  ghost predicate IsDest(w: World, path: Place) {
    exists i :: 0 <= i < |w.runs| && w.runs[i].job.dest == path
  }

  predicate SameAt(before: Files, after: Files, path: Place) {
    (path in before <==> path in after) && (path in before ==> before[path] == after[path])
  }

  /** A destination changes only when its own job publishes, and then to bytes of
      the commanded size and hash. */
  ghost predicate DestSafe(sha: Bytes -> Bytes, before: World, s: Step, after: World, path: Place)
    requires Enabled(before, s)
  {
    SameAt(before.files, after.files, path) ||
    (&& s.move.Publish? && before.runs[s.r].job.dest == path
     && path in after.files && Matches(sha, before.runs[s.r].job, after.files[path]))
  }

  ghost predicate RunInv(sha: Bytes -> Bytes, files: Files, run: Run) {
    var part := run.job.part;
    && (run.phase.Fresh? ==> part !in files && run.received == 0)
    && (run.phase.Receiving? ==> part in files && |files[part]| == run.received)
    && (run.phase.Verifying? ==> part in files && |files[part]| == run.job.size)
    && (run.phase.Verified? ==> part in files && Matches(sha, run.job, files[part]))
    && (if run.phase.Cleaning? || run.phase.Ended? then |run.sent| == 1 else run.sent == [])
    && (run.removed ==> part !in files && (run.phase.Cleaning? || run.phase.Ended?))
    && (Completed in run.sent ==> part !in files)
    && (run.orphaned ==> run.phase.Ended? && part in files)
  }

  ghost predicate Inv(sha: Bytes -> Bytes, w: World) {
    && (forall i :: 0 <= i < |w.runs| ==> RunInv(sha, w.files, w.runs[i]))
    && (forall i, j :: 0 <= i < j < |w.runs| ==> w.runs[i].job.part != w.runs[j].job.part)
    && (forall i, j :: 0 <= i < |w.runs| && 0 <= j < |w.runs| ==> w.runs[j].job.dest != w.runs[i].job.part)
  }

  /** One step keeps its own run's invariant. */
  lemma AdvanceKeepsRun(sha: Bytes -> Bytes, w: World, s: Step)
    requires Enabled(w, s) && RunInv(sha, w.files, w.runs[s.r])
    requires w.runs[s.r].job.dest != w.runs[s.r].job.part
    ensures
      var (files, run) := Advance(sha, w.files, w.runs[s.r], s.move);
      RunInv(sha, files, run) && run.job == w.runs[s.r].job
  {}

  /** A step touches only its own temporary file and, publishing, its destination. */
  lemma AdvanceFrame(sha: Bytes -> Bytes, w: World, s: Step, path: Place)
    requires Enabled(w, s)
    requires path != w.runs[s.r].job.part
    requires path != w.runs[s.r].job.dest || !s.move.Publish?
    ensures SameAt(w.files, Advance(sha, w.files, w.runs[s.r], s.move).0, path)
  {}

  lemma ApplyKeepsInv(sha: Bytes -> Bytes, w: World, s: Step)
    requires Inv(sha, w) && Enabled(w, s)
    ensures Inv(sha, Apply(sha, w, s))
  {
    var t := Apply(sha, w, s);
    AdvanceKeepsRun(sha, w, s);
    forall i | 0 <= i < |t.runs| ensures RunInv(sha, t.files, t.runs[i]) {
      if i != s.r {
        AdvanceFrame(sha, w, s, w.runs[i].job.part);
      }
    }
  }

  lemma ApplyKeepsDestSafe(sha: Bytes -> Bytes, w: World, s: Step, path: Place)
    requires Inv(sha, w) && Enabled(w, s)
    requires forall i :: 0 <= i < |w.runs| ==> w.runs[i].job.part != path
    ensures DestSafe(sha, w, s, Apply(sha, w, s), path)
  {
    var run := w.runs[s.r];
    if s.move.Publish? && run.job.dest == path {
      assert RunInv(sha, w.files, run);
    } else {
      AdvanceFrame(sha, w, s, path);
    }
  }

  lemma BeginInv(sha: Bytes -> Bytes, files: Files, jobs: seq<Job>)
    requires FreshParts(files, jobs) && NoCollision(jobs)
    ensures Inv(sha, Begin(files, jobs))
  {}

  lemma {:induction false} ExecuteKeepsInv(sha: Bytes -> Bytes, w: World, steps: seq<Step>)
    requires Inv(sha, w)
    ensures Inv(sha, Execute(sha, w, steps))
    ensures SameJobs(w, Execute(sha, w, steps))
  {
    hide Inv, Advance;
    if steps != [] {
      var init := steps[..|steps| - 1];
      ExecuteKeepsInv(sha, w, init);
      var before, s := Execute(sha, w, init), steps[|steps| - 1];
      if Enabled(before, s) {
        ApplyKeepsInv(sha, before, s);
        AdvanceKeepsJob(sha, before.files, before.runs[s.r], s.move);
      }
    }
  }

  lemma AdvanceKeepsJob(sha: Bytes -> Bytes, files: Files, run: Run, move: Move)
    ensures Advance(sha, files, run, move).1.job == run.job
  {}

  ghost predicate SameJobs(a: World, b: World) {
    |a.runs| == |b.runs| && forall i :: 0 <= i < |a.runs| ==> a.runs[i].job == b.runs[i].job
  }

  // ------------------------------------------------------------------- theorems

  /** Publication is safe: whatever is interleaved and whatever fails, a file that
      is not a temporary one changes only when a job of that destination
      publishes, and then to bytes of the commanded size and hash. */
  lemma PublicationSafe(sha: Bytes -> Bytes, files: Files, jobs: seq<Job>, steps: seq<Step>, s: Step, path: Place)
    requires FreshParts(files, jobs) && NoCollision(jobs)
    requires Enabled(Execute(sha, Begin(files, jobs), steps), s)
    requires forall i :: 0 <= i < |jobs| ==> jobs[i].part != path
    ensures
      var before := Execute(sha, Begin(files, jobs), steps);
      DestSafe(sha, before, s, Apply(sha, before, s), path)
  {
    BeginInv(sha, files, jobs);
    ExecuteKeepsInv(sha, Begin(files, jobs), steps);
    ApplyKeepsDestSafe(sha, Execute(sha, Begin(files, jobs), steps), s, path);
  }

  /** A run has sent one result exactly when it is over or about to clean up. */
  predicate OneSent(run: Run) {
    |run.sent| == (if run.phase.Cleaning? || run.phase.Ended? then 1 else 0)
  }

  lemma AdvanceKeepsOneSent(sha: Bytes -> Bytes, w: World, s: Step)
    requires Enabled(w, s) && OneSent(w.runs[s.r])
    ensures OneSent(Advance(sha, w.files, w.runs[s.r], s.move).1)
  {}

  /** Every executed run sends exactly one result, whatever the jobs and their names are. */
  lemma {:induction false} OneResult(sha: Bytes -> Bytes, files: Files, jobs: seq<Job>, steps: seq<Step>, r: nat)
    requires r < |jobs|
    ensures
      var w := Execute(sha, Begin(files, jobs), steps);
      r < |w.runs| && w.runs[r].job == jobs[r] && OneSent(w.runs[r])
  {
    hide Advance, OneSent, Enabled;
    if steps == [] {
      StartsWithNoResult(files, jobs, r);
    } else {
      var init, s := steps[..|steps| - 1], steps[|steps| - 1];
      OneResult(sha, files, jobs, init, r);
      var before := Execute(sha, Begin(files, jobs), init);
      if Enabled(before, s) {
        StepInRange(before, s);
        AdvanceKeepsJob(sha, before.files, before.runs[s.r], s.move);
        if s.r == r {
          AdvanceKeepsOneSent(sha, before, s);
        }
      }
    }
  }

  lemma StepInRange(w: World, s: Step)
    requires Enabled(w, s)
    ensures s.r < |w.runs|
  {}

  lemma StartsWithNoResult(files: Files, jobs: seq<Job>, r: nat)
    requires r < |jobs|
    ensures Begin(files, jobs).runs[r].job == jobs[r] && OneSent(Begin(files, jobs).runs[r])
  {}

  /** And COMPLETED is sent in the step that publishes matching bytes. */
  lemma OneHonestResult(sha: Bytes -> Bytes, files: Files, jobs: seq<Job>, steps: seq<Step>, r: nat)
    requires r < |jobs|
    ensures
      var w := Execute(sha, Begin(files, jobs), steps);
      && r < |w.runs| && OneSent(w.runs[r])
      && (FreshParts(files, jobs) && NoCollision(jobs) ==>
            forall move :: Enabled(w, Step(r, move)) && Completed !in w.runs[r].sent ==>
              var t := Apply(sha, w, Step(r, move));
              Completed in t.runs[r].sent ==>
                jobs[r].dest in t.files && Matches(sha, jobs[r], t.files[jobs[r].dest]))
  {
    OneResult(sha, files, jobs, steps, r);
    if FreshParts(files, jobs) && NoCollision(jobs) {
      BeginInv(sha, files, jobs);
      ExecuteKeepsInv(sha, Begin(files, jobs), steps);
      var w := Execute(sha, Begin(files, jobs), steps);
      assert RunInv(sha, w.files, w.runs[r]);
      hide Execute, Inv;
    }
  }

  /** A temporary file outlives its run only if every removal failed, or if it
      was refused right after its creation: that path removes nothing, and the
      file always stays behind. */
  lemma LeftoverParts(sha: Bytes -> Bytes, files: Files, jobs: seq<Job>, steps: seq<Step>, r: nat)
    requires FreshParts(files, jobs) && NoCollision(jobs)
    requires r < |jobs|
    ensures
      var w := Execute(sha, Begin(files, jobs), steps);
      && r < |w.runs|
      && (w.runs[r].phase.Ended? && jobs[r].part in w.files ==> w.runs[r].orphaned || !w.runs[r].removed)
      && (w.runs[r].orphaned ==> w.runs[r].phase.Ended? && jobs[r].part in w.files)
      && (Completed in w.runs[r].sent || w.runs[r].removed ==> jobs[r].part !in w.files)
  {
    BeginInv(sha, files, jobs);
    ExecuteKeepsInv(sha, Begin(files, jobs), steps);
    var w := Execute(sha, Begin(files, jobs), steps);
    assert RunInv(sha, w.files, w.runs[r]);
  }

  predicate RemovalsSucceed(steps: seq<Step>, r: nat) {
    forall k :: 0 <= k < |steps| && steps[k].r == r && steps[k].move.Remove? ==> !steps[k].move.fails
  }

  /** When removals succeed, a temporary file survives its run if and only if it was
      refused right after its creation. */
  lemma {:induction false} SurvivesExactlyWhenRefused(sha: Bytes -> Bytes, files: Files, jobs: seq<Job>,
                                                      steps: seq<Step>, r: nat)
    requires FreshParts(files, jobs) && NoCollision(jobs)
    requires r < |jobs| && RemovalsSucceed(steps, r)
    ensures
      var w := Execute(sha, Begin(files, jobs), steps);
      r < |w.runs| && (w.runs[r].phase.Ended? ==> (jobs[r].part in w.files <==> w.runs[r].orphaned))
  {
    LeftoverParts(sha, files, jobs, steps, r);
    if steps != [] {
      var init, s := steps[..|steps| - 1], steps[|steps| - 1];
      SurvivesExactlyWhenRefused(sha, files, jobs, init, r);
      BeginInv(sha, files, jobs);
      ExecuteKeepsInv(sha, Begin(files, jobs), init);
      var before := Execute(sha, Begin(files, jobs), init);
      if Enabled(before, s) {
        assert s == steps[|steps| - 1];
        LastStepCleans(sha, before, s, r);
      }
    }
  }

  /** The failing input behind it: a single job whose temporary file is created and then
      refused. Its run is over and the file is still there. */
  lemma RefusedPartStays(sha: Bytes -> Bytes, files: Files, job: Job)
    requires job.part !in files
    ensures
      var w := Execute(sha, Begin(files, [job]), [Step(0, CreateRejected)]);
      |w.runs| == 1 && w.runs[0].phase.Ended? && w.runs[0].orphaned && job.part in w.files
  {
    var start := Begin(files, [job]);
    var steps := [Step(0, CreateRejected)];
    assert steps[..0] == [] && Execute(sha, start, []) == start;
    assert start.runs == [Run(job, Fresh, 0, [], false, false)];
  }

  lemma LastStepCleans(sha: Bytes -> Bytes, w: World, s: Step, r: nat)
    requires Inv(sha, w) && Enabled(w, s) && r < |w.runs|
    requires s.r == r && s.move.Remove? ==> !s.move.fails
    requires w.runs[r].phase.Ended? && w.runs[r].job.part in w.files ==> w.runs[r].orphaned
    ensures
      var t := Apply(sha, w, s);
      t.runs[r].phase.Ended? && t.runs[r].job.part in t.files ==> t.runs[r].orphaned
  {
    assert RunInv(sha, w.files, w.runs[r]);
    if s.r != r {
      AdvanceFrame(sha, w, s, w.runs[r].job.part);
    }
  }

  // ---------------------------------------------- when the promise really holds

  ghost predicate AlwaysSafe(sha: Bytes -> Bytes, files: Files, jobs: seq<Job>) {
    forall steps, s, path ::
      var w := Execute(sha, Begin(files, jobs), steps);
      Enabled(w, s) && IsDest(w, path) ==> DestSafe(sha, w, s, Apply(sha, w, s), path)
  }

  lemma {:induction false} ThenStep(sha: Bytes -> Bytes, w: World, steps: seq<Step>, s: Step)
    requires Enabled(Execute(sha, w, steps), s)
    ensures Execute(sha, w, steps + [s]) == Apply(sha, Execute(sha, w, steps), s)
  {
    assert (steps + [s])[..|steps + [s]| - 1] == steps;
  }

  /** One more step of run s.r, seen from outside: only that run and the files move. */
  lemma Extend(sha: Bytes -> Bytes, w0: World, steps: seq<Step>, s: Step) returns (w: World, longer: seq<Step>)
    requires Enabled(Execute(sha, w0, steps), s)
    ensures w == Execute(sha, w0, longer)
    ensures
      var before := Execute(sha, w0, steps);
      && |w.runs| == |before.runs|
      && (w.files, w.runs[s.r]) == Advance(sha, before.files, before.runs[s.r], s.move)
      && forall i :: 0 <= i < |w.runs| && i != s.r ==> w.runs[i] == before.runs[i]
  {
    hide Advance;
    ThenStep(sha, w0, steps, s);
    longer := steps + [s];
    w := Execute(sha, w0, longer);
  }

  /** When job j is to publish under the temporary name of job i, the cleanup of
      i can delete what j published. */
  lemma CollisionDeletes(sha: Bytes -> Bytes, files: Files, jobs: seq<Job>, i: nat, j: nat, data: Bytes)
    requires FreshParts(files, jobs)
    requires i < |jobs| && j < |jobs| && jobs[j].dest == jobs[i].part
    requires Matches(sha, jobs[j], data)
    ensures !AlwaysSafe(sha, files, jobs)
  {
    hide AlwaysSafe, DestSafe;
    var w0 := Begin(files, jobs);
    assert Execute(sha, w0, []) == w0;
    var w1, one := Extend(sha, w0, [], Step(i, Create));
    var w2, two := Extend(sha, w0, one, Step(i, Reject));
    var w, steps := PublishAlone(sha, w0, two, j, data);
    var s := Step(i, Remove(false));
    assert w.runs[i] == w2.runs[i];
    assert w.runs[j].job.dest == jobs[i].part;
    NotSafe(sha, files, jobs, steps, s, jobs[i].part);
  }

  lemma NotSafe(sha: Bytes -> Bytes, files: Files, jobs: seq<Job>, steps: seq<Step>, s: Step, path: Place)
    requires Enabled(Execute(sha, Begin(files, jobs), steps), s) && !s.move.Publish?
    requires
      var w := Execute(sha, Begin(files, jobs), steps);
      IsDest(w, path) && path in w.files && path !in Apply(sha, w, s).files
    ensures !AlwaysSafe(sha, files, jobs)
  {
    hide Execute, Apply;
    var w := Execute(sha, Begin(files, jobs), steps);
    assert !DestSafe(sha, w, s, Apply(sha, w, s), path);
  }

  /** Job j, fresh so far, receives its body and verifies it without interruption. */
  lemma VerifyAlone(sha: Bytes -> Bytes, w0: World, opening: seq<Step>, j: nat, data: Bytes)
    returns (w: World, steps: seq<Step>)
    requires
      var start := Execute(sha, w0, opening);
      && j < |start.runs| && start.runs[j].phase.Fresh? && start.runs[j].received == 0
      && start.runs[j].job.part !in start.files
      && Matches(sha, start.runs[j].job, data)
    ensures w == Execute(sha, w0, steps)
    ensures
      var start := Execute(sha, w0, opening);
      && |w.runs| == |start.runs|
      && (forall i :: 0 <= i < |w.runs| && i != j ==> w.runs[i] == start.runs[i])
      && w.runs[j].job == start.runs[j].job && w.runs[j].phase.Verified? && w.runs[j].sent == start.runs[j].sent
      && w.files == start.files[start.runs[j].job.part := data]
  {
    hide Execute;
    var start := Execute(sha, w0, opening);
    w, steps := Extend(sha, w0, opening, Step(j, Create));
    w, steps := Extend(sha, w0, steps, Step(j, Receive(data)));
    assert [] + data == data;
    assert w.files == start.files[start.runs[j].job.part := data];
    w, steps := Extend(sha, w0, steps, Step(j, EndCopy));
    w, steps := Extend(sha, w0, steps, Step(j, Hash(false)));
  }

  /** And runs on to its publication. */
  lemma PublishAlone(sha: Bytes -> Bytes, w0: World, opening: seq<Step>, j: nat, data: Bytes)
    returns (w: World, steps: seq<Step>)
    requires
      var start := Execute(sha, w0, opening);
      && j < |start.runs| && start.runs[j].phase.Fresh? && start.runs[j].received == 0
      && start.runs[j].job.part !in start.files
      && start.runs[j].job.part != start.runs[j].job.dest
      && Matches(sha, start.runs[j].job, data)
    ensures w == Execute(sha, w0, steps)
    ensures
      var start := Execute(sha, w0, opening);
      && |w.runs| == |start.runs|
      && (forall i :: 0 <= i < |w.runs| && i != j ==> w.runs[i] == start.runs[i])
      && w.runs[j].job == start.runs[j].job
      && w.files == start.files[start.runs[j].job.dest := data]
  {
    hide Execute;
    var start := Execute(sha, w0, opening);
    w, steps := VerifyAlone(sha, w0, opening, j, data);
    w, steps := Extend(sha, w0, steps, Step(j, Publish(Commits)));
    assert w.files == start.files[start.runs[j].job.dest := data];
  }

  lemma SafeWithoutCollision(sha: Bytes -> Bytes, files: Files, jobs: seq<Job>)
    requires FreshParts(files, jobs) && NoCollision(jobs)
    ensures AlwaysSafe(sha, files, jobs)
  {
    forall steps, s, path |
      Enabled(Execute(sha, Begin(files, jobs), steps), s) && IsDest(Execute(sha, Begin(files, jobs), steps), path)
      ensures DestSafe(sha, Execute(sha, Begin(files, jobs), steps), s,
                       Apply(sha, Execute(sha, Begin(files, jobs), steps), s), path)
    {
      BeginInv(sha, files, jobs);
      ExecuteKeepsInv(sha, Begin(files, jobs), steps);
      PublicationSafe(sha, files, jobs, steps, s, path);
    }
  }

  /** For temporary names already picked: destinations are safe over every interleaving if
      and only if no job publishes under the temporary name of another. */
  lemma SafeExactlyWithoutCollision(sha: Bytes -> Bytes, files: Files, jobs: seq<Job>)
    requires FreshParts(files, jobs)
    requires forall j :: 0 <= j < |jobs| ==> exists data :: Matches(sha, jobs[j], data)
    ensures AlwaysSafe(sha, files, jobs) <==> NoCollision(jobs)
  {
    if NoCollision(jobs) {
      SafeWithoutCollision(sha, files, jobs);
    } else {
      var i, j :| 0 <= i < |jobs| && 0 <= j < |jobs| && jobs[j].dest == jobs[i].part;
      var data :| Matches(sha, jobs[j], data);
      CollisionDeletes(sha, files, jobs, i, j, data);
    }
  }

  // ------------------------------------------------- when COMPLETED is honest

  /** A step that reports COMPLETED leaves bytes of the commanded hash at the destination. */
  ghost predicate HonestStep(sha: Bytes -> Bytes, w: World, s: Step)
    requires Enabled(w, s)
  {
    var job, t := w.runs[s.r].job, Apply(sha, w, s);
    Completed in t.runs[s.r].sent && Completed !in w.runs[s.r].sent ==>
      job.dest in t.files && sha(t.files[job.dest]) == job.hash
  }

  ghost predicate AlwaysHonest(sha: Bytes -> Bytes, files: Files, jobs: seq<Job>) {
    forall steps, s ::
      var w := Execute(sha, Begin(files, jobs), steps);
      Enabled(w, s) ==> HonestStep(sha, w, s)
  }

  /** A job told to publish under the temporary name of another brings the same bytes. */
  ghost predicate SameHash(jobs: seq<Job>) {
    forall i, j :: 0 <= i < |jobs| && 0 <= j < |jobs| && jobs[j].dest == jobs[i].part ==> jobs[j].hash == jobs[i].hash
  }

  predicate StillVerified(sha: Bytes -> Bytes, files: Files, run: Run) {
    run.phase.Verified? && run.job.part in files ==> sha(files[run.job.part]) == run.job.hash
  }

  /** Whoever meddles with a verified file, its hash stays as it is. */
  ghost predicate HashInv(sha: Bytes -> Bytes, w: World) {
    && (forall i :: 0 <= i < |w.runs| ==> StillVerified(sha, w.files, w.runs[i]))
    && (forall i, j :: 0 <= i < j < |w.runs| ==> w.runs[i].job.part != w.runs[j].job.part)
    && (forall i, j :: 0 <= i < |w.runs| && 0 <= j < |w.runs| && w.runs[j].job.dest == w.runs[i].job.part ==>
          w.runs[j].job.hash == w.runs[i].job.hash)
  }

  lemma AdvanceKeepsVerified(sha: Bytes -> Bytes, w: World, s: Step)
    requires Enabled(w, s) && !s.move.Publish?
    ensures
      var (files, run) := Advance(sha, w.files, w.runs[s.r], s.move);
      StillVerified(sha, files, run)
  {}

  lemma PublishKeepsHash(sha: Bytes -> Bytes, w: World, s: Step, i: nat)
    requires HashInv(sha, w) && Enabled(w, s) && s.move.Publish? && i < |w.runs|
    ensures StillVerified(sha, Apply(sha, w, s).files, Apply(sha, w, s).runs[i])
  {
    assert StillVerified(sha, w.files, w.runs[s.r]) && StillVerified(sha, w.files, w.runs[i]);
  }

  lemma ApplyKeepsHash(sha: Bytes -> Bytes, w: World, s: Step)
    requires HashInv(sha, w) && Enabled(w, s)
    ensures HashInv(sha, Apply(sha, w, s))
  {
    var t := Apply(sha, w, s);
    AdvanceKeepsJob(sha, w.files, w.runs[s.r], s.move);
    forall i | 0 <= i < |t.runs| ensures StillVerified(sha, t.files, t.runs[i]) {
      if s.move.Publish? {
        PublishKeepsHash(sha, w, s, i);
      } else if i == s.r {
        AdvanceKeepsVerified(sha, w, s);
      } else {
        assert StillVerified(sha, w.files, w.runs[i]);
        AdvanceFrame(sha, w, s, w.runs[i].job.part);
      }
    }
  }

  lemma {:induction false} ExecuteKeepsHash(sha: Bytes -> Bytes, files: Files, jobs: seq<Job>, steps: seq<Step>)
    requires FreshParts(files, jobs) && SameHash(jobs)
    ensures HashInv(sha, Execute(sha, Begin(files, jobs), steps))
  {
    if steps != [] {
      var init, s := steps[..|steps| - 1], steps[|steps| - 1];
      ExecuteKeepsHash(sha, files, jobs, init);
      var before := Execute(sha, Begin(files, jobs), init);
      hide HashInv, Apply;
      if Enabled(before, s) {
        ApplyKeepsHash(sha, before, s);
      }
    }
  }

  lemma CompletesWithHash(sha: Bytes -> Bytes, w: World, s: Step)
    requires HashInv(sha, w) && Enabled(w, s)
    ensures HonestStep(sha, w, s)
  {
    assert StillVerified(sha, w.files, w.runs[s.r]);
  }

  lemma HonestWithSameHash(sha: Bytes -> Bytes, files: Files, jobs: seq<Job>)
    requires FreshParts(files, jobs) && SameHash(jobs)
    ensures AlwaysHonest(sha, files, jobs)
  {
    forall steps, s | Enabled(Execute(sha, Begin(files, jobs), steps), s)
      ensures HonestStep(sha, Execute(sha, Begin(files, jobs), steps), s)
    {
      ExecuteKeepsHash(sha, files, jobs, steps);
      CompletesWithHash(sha, Execute(sha, Begin(files, jobs), steps), s);
    }
  }

  /** When job j publishes under the temporary name of job i between the check of i's hash
      and its rename, i reports COMPLETED for the bytes of j. */
  lemma CollisionMixesUp(sha: Bytes -> Bytes, files: Files, jobs: seq<Job>, i: nat, j: nat, mine: Bytes, other: Bytes)
    requires FreshParts(files, jobs)
    requires i < |jobs| && j < |jobs| && jobs[j].dest == jobs[i].part && jobs[j].hash != jobs[i].hash
    requires Matches(sha, jobs[i], mine) && Matches(sha, jobs[j], other)
    ensures !AlwaysHonest(sha, files, jobs)
  {
    hide AlwaysHonest, HonestStep;
    var w0 := Begin(files, jobs);
    assert Execute(sha, w0, []) == w0;
    var w1, one := VerifyAlone(sha, w0, [], i, mine);
    assert w1.runs[j] == w0.runs[j];
    var w, steps := PublishAlone(sha, w0, one, j, other);
    assert w.runs[i] == w1.runs[i] && w.files[jobs[i].part] == other;
    var s := Step(i, Publish(Commits));
    PublishesWrongly(sha, w, s);
    NotHonest(sha, files, jobs, steps, s);
  }

  lemma PublishesWrongly(sha: Bytes -> Bytes, w: World, s: Step)
    requires Enabled(w, s) && s.move == Publish(Commits) && w.runs[s.r].sent == []
    requires w.runs[s.r].job.part in w.files && sha(w.files[w.runs[s.r].job.part]) != w.runs[s.r].job.hash
    ensures !HonestStep(sha, w, s)
  {}

  lemma NotHonest(sha: Bytes -> Bytes, files: Files, jobs: seq<Job>, steps: seq<Step>, s: Step)
    requires Enabled(Execute(sha, Begin(files, jobs), steps), s)
    requires !HonestStep(sha, Execute(sha, Begin(files, jobs), steps), s)
    ensures !AlwaysHonest(sha, files, jobs)
  {}

  /** For temporary names already picked: every COMPLETED tells of bytes of the commanded
      hash if and only if a job that publishes under another's temporary name brings the
      bytes the other wants. */
  lemma HonestExactlyWithSameHash(sha: Bytes -> Bytes, files: Files, jobs: seq<Job>)
    requires FreshParts(files, jobs)
    requires forall j :: 0 <= j < |jobs| ==> exists data :: Matches(sha, jobs[j], data)
    ensures AlwaysHonest(sha, files, jobs) <==> SameHash(jobs)
  {
    if SameHash(jobs) {
      HonestWithSameHash(sha, files, jobs);
    } else {
      var i, j :| 0 <= i < |jobs| && 0 <= j < |jobs| && jobs[j].dest == jobs[i].part && jobs[j].hash != jobs[i].hash;
      var mine, other :| Matches(sha, jobs[i], mine) && Matches(sha, jobs[j], other);
      CollisionMixesUp(sha, files, jobs, i, j, mine, other);
    }
  }

  // --------------------------------------- what the commands alone can tell

  /** What the server commands, once the directory has been cleaned and admitted. */
  datatype Command = Command(directory: W.Path, filename: string, size: nat, hash: Bytes)

  function Decimal(n: nat): string {
    if n < 10 then [DIGITS[n]] else Decimal(n / 10) + [DIGITS[n % 10]]
  }

  const DIGITS := "0123456789"

  /** The system replaces the star of a temporary name's pattern by a random 32-bit number. */
  ghost predicate IsRandom(suffix: string) {
    exists n: nat :: n < 0x1_0000_0000 && suffix == Decimal(n)
  }

  function TempName(filename: string, suffix: string): string {
    "." + filename + "-" + suffix + ".part"
  }

  function PlaceOf(p: W.Platform, directory: W.Path, file: string): Place {
    Place(p.fold(directory.volume),
          seq(|directory.names|, i requires 0 <= i < |directory.names| => p.fold(directory.names[i])),
          p.fold(file))
  }

  function JobOf(p: W.Platform, c: Command, suffix: string): Job {
    Job(PlaceOf(p, c.directory, c.filename), PlaceOf(p, c.directory, TempName(c.filename, suffix)), c.size, c.hash)
  }

  /** Folding letter case keeps the length of a name. */
  ghost predicate FoldKeepsLength(p: W.Platform) {
    forall s :: |p.fold(s)| == |s|
  }

  /** Two directories that are the same up to letter case. */
  predicate SameDirectory(p: W.Platform, a: W.Path, b: W.Path) {
    && W.SameWord(p, a.volume, b.volume) && |a.names| == |b.names|
    && forall i :: 0 <= i < |a.names| ==> W.SameWord(p, a.names[i], b.names[i])
  }

  /** Command b publishes under a name of the form of a's temporary names: in the same
      directory and, up to letter case, a dot, a's file name, a hyphen, a number and
      ".part". Anyone who sees the two commands can tell. */
  predicate TempForm(p: W.Platform, a: Command, b: Command) {
    SameDirectory(p, a.directory, b.directory) &&
    exists n: nat | n < 0x1_0000_0000 :: W.SameWord(p, b.filename, TempName(a.filename, Decimal(n)))
  }

  ghost predicate NoTempForm(p: W.Platform, commands: seq<Command>) {
    forall a, b :: a in commands && b in commands ==> !TempForm(p, a, b)
  }

  /** Jobs of the given commands, each command any number of times. */
  ghost predicate Drawn(p: W.Platform, commands: seq<Command>, jobs: seq<Job>) {
    forall k :: 0 <= k < |jobs| ==> IsJobOf(p, commands, jobs[k])
  }

  ghost predicate IsJobOf(p: W.Platform, commands: seq<Command>, job: Job) {
    exists c, suffix :: c in commands && IsRandom(suffix) && job == JobOf(p, c, suffix)
  }

  /** Destinations are safe over every interleaving of any jobs of these commands, from
      any files and whatever fresh temporary names are picked. */
  ghost predicate SafeCommands(sha: Bytes -> Bytes, p: W.Platform, commands: seq<Command>) {
    forall files, jobs :: Drawn(p, commands, jobs) && FreshParts(files, jobs) ==> AlwaysSafe(sha, files, jobs)
  }

  lemma SamePlace(p: W.Platform, a: W.Path, b: W.Path, x: string, y: string)
    ensures PlaceOf(p, a, x) == PlaceOf(p, b, y) <==> SameDirectory(p, a, b) && W.SameWord(p, x, y)
  {
    var da, db := PlaceOf(p, a, x).directory, PlaceOf(p, b, y).directory;
    if da == db {
      forall i | 0 <= i < |a.names| ensures W.SameWord(p, a.names[i], b.names[i]) {
        assert da[i] == db[i];
      }
    }
  }

  /** Jobs that collide come from commands of which one has the form of the other's
      temporary names. */
  lemma CollisionHasForm(p: W.Platform, commands: seq<Command>, jobs: seq<Job>, i: nat, j: nat)
    returns (a: Command, b: Command)
    requires Drawn(p, commands, jobs) && i < |jobs| && j < |jobs| && jobs[j].dest == jobs[i].part
    ensures a in commands && b in commands && TempForm(p, a, b)
    ensures jobs[i].hash == a.hash && jobs[j].hash == b.hash
  {
    hide PlaceOf, SameDirectory, Decimal;
    assert IsJobOf(p, commands, jobs[i]) && IsJobOf(p, commands, jobs[j]);
    var suffix, other;
    a, suffix :| a in commands && IsRandom(suffix) && jobs[i] == JobOf(p, a, suffix);
    b, other :| b in commands && IsRandom(other) && jobs[j] == JobOf(p, b, other);
    SamePlace(p, b.directory, a.directory, b.filename, TempName(a.filename, suffix));
    SameDirectorySymmetric(p, a.directory, b.directory);
  }

  /** Jobs of commands without such names never collide. */
  lemma DrawnJobsDoNotCollide(p: W.Platform, commands: seq<Command>, jobs: seq<Job>)
    requires NoTempForm(p, commands) && Drawn(p, commands, jobs)
    ensures NoCollision(jobs)
  {
    hide TempForm, Drawn;
    forall i, j | 0 <= i < |jobs| && 0 <= j < |jobs| ensures jobs[j].dest != jobs[i].part {
      if jobs[j].dest == jobs[i].part {
        var a, b := CollisionHasForm(p, commands, jobs, i, j);
        assert false;
      }
    }
  }

  lemma SameDirectorySymmetric(p: W.Platform, a: W.Path, b: W.Path)
    ensures SameDirectory(p, a, b) == SameDirectory(p, b, a)
  {}

  lemma OwnSizeAndHash(p: W.Platform, c: Command, suffix: string)
    ensures JobOf(p, c, suffix).size == c.size && JobOf(p, c, suffix).hash == c.hash
  {}

  /** A temporary name is longer than the name it stands for. */
  lemma Longer(p: W.Platform, c: Command, suffix: string)
    requires FoldKeepsLength(p)
    ensures |JobOf(p, c, suffix).part.name| > |JobOf(p, c, suffix).dest.name|
    ensures JobOf(p, c, suffix).part == PlaceOf(p, c.directory, TempName(c.filename, suffix))
    ensures JobOf(p, c, suffix).dest == PlaceOf(p, c.directory, c.filename)
  {
    assert |TempName(c.filename, suffix)| > |c.filename|;
  }

  lemma FormIsHit(p: W.Platform, a: Command, b: Command, n: nat, suffix: string)
    requires SameDirectory(p, a.directory, b.directory) && W.SameWord(p, b.filename, TempName(a.filename, Decimal(n)))
    ensures JobOf(p, b, suffix).dest == JobOf(p, a, Decimal(n)).part
  {
    SamePlace(p, b.directory, a.directory, b.filename, TempName(a.filename, Decimal(n)));
    SameDirectorySymmetric(p, a.directory, b.directory);
    hide PlaceOf, Decimal, SameDirectory, TempName;
  }

  /** Such a name can be hit: two jobs of the commands, with fresh temporary names. */
  lemma TempFormJobs(p: W.Platform, commands: seq<Command>, a: Command, b: Command) returns (jobs: seq<Job>)
    requires FoldKeepsLength(p) && a in commands && b in commands && TempForm(p, a, b)
    ensures |jobs| == 2 && Drawn(p, commands, jobs) && FreshParts(map[], jobs)
    ensures jobs[1].dest == jobs[0].part
    ensures jobs[0].size == a.size && jobs[0].hash == a.hash
    ensures jobs[1].size == b.size && jobs[1].hash == b.hash
  {
    hide PlaceOf, Decimal, SameDirectory, JobOf, TempName, FoldKeepsLength;
    var n: nat :| n < 0x1_0000_0000 && W.SameWord(p, b.filename, TempName(a.filename, Decimal(n)));
    var first, second := JobOf(p, a, Decimal(n)), JobOf(p, b, Decimal(0));
    assert IsRandom(Decimal(n)) && IsRandom(Decimal(0));
    assert IsJobOf(p, commands, first) && IsJobOf(p, commands, second);
    FormIsHit(p, a, b, n, Decimal(0));
    Longer(p, a, Decimal(n));
    Longer(p, b, Decimal(0));
    OwnSizeAndHash(p, a, Decimal(n));
    OwnSizeAndHash(p, b, Decimal(0));
    jobs := [first, second];
  }

  /** Such jobs are not safe together. */
  lemma TempFormCollides(sha: Bytes -> Bytes, p: W.Platform, commands: seq<Command>, a: Command, b: Command,
                         data: Bytes)
    requires FoldKeepsLength(p) && a in commands && b in commands && TempForm(p, a, b)
    requires |data| == b.size && sha(data) == b.hash
    ensures !SafeCommands(sha, p, commands)
  {
    hide AlwaysSafe, TempForm;
    var jobs := TempFormJobs(p, commands, a, b);
    CollisionDeletes(sha, map[], jobs, 0, 1, data);
  }

  /** Exactly when, told from the commands alone: destinations are safe over every
      interleaving and every choice of temporary names if and only if no command's file
      has the form of a temporary name of another. */
  lemma SafeExactlyWithoutTempForm(sha: Bytes -> Bytes, p: W.Platform, commands: seq<Command>)
    requires FoldKeepsLength(p)
    requires forall c :: c in commands ==> exists data: Bytes :: |data| == c.size && sha(data) == c.hash
    ensures SafeCommands(sha, p, commands) <==> NoTempForm(p, commands)
  {
    hide AlwaysSafe, TempForm;
    if NoTempForm(p, commands) {
      forall files, jobs | Drawn(p, commands, jobs) && FreshParts(files, jobs) ensures AlwaysSafe(sha, files, jobs) {
        DrawnJobsDoNotCollide(p, commands, jobs);
        SafeWithoutCollision(sha, files, jobs);
      }
    } else {
      var a, b :| a in commands && b in commands && TempForm(p, a, b);
      var data: Bytes :| |data| == b.size && sha(data) == b.hash;
      TempFormCollides(sha, p, commands, a, b, data);
    }
  }

  /** A command with the form of another's temporary names wants the same bytes. */
  ghost predicate NoMixUp(p: W.Platform, commands: seq<Command>) {
    forall a, b :: a in commands && b in commands && TempForm(p, a, b) ==> a.hash == b.hash
  }

  /** Every COMPLETED is honest, over every interleaving of any jobs of these commands. */
  ghost predicate HonestCommands(sha: Bytes -> Bytes, p: W.Platform, commands: seq<Command>) {
    forall files, jobs :: Drawn(p, commands, jobs) && FreshParts(files, jobs) ==> AlwaysHonest(sha, files, jobs)
  }

  lemma DrawnJobsShareHash(p: W.Platform, commands: seq<Command>, jobs: seq<Job>)
    requires NoMixUp(p, commands) && Drawn(p, commands, jobs)
    ensures SameHash(jobs)
  {
    hide TempForm, Drawn;
    forall i, j | 0 <= i < |jobs| && 0 <= j < |jobs| && jobs[j].dest == jobs[i].part
      ensures jobs[j].hash == jobs[i].hash
    {
      var a, b := CollisionHasForm(p, commands, jobs, i, j);
    }
  }

  /** Exactly when COMPLETED is honest, told from the commands alone: if and only if a
      command whose file has the form of another's temporary names has the other's hash. */
  lemma HonestExactlyWithoutMixUp(sha: Bytes -> Bytes, p: W.Platform, commands: seq<Command>)
    requires FoldKeepsLength(p)
    requires forall c :: c in commands ==> exists data: Bytes :: |data| == c.size && sha(data) == c.hash
    ensures HonestCommands(sha, p, commands) <==> NoMixUp(p, commands)
  {
    hide AlwaysHonest, TempForm;
    if NoMixUp(p, commands) {
      forall files, jobs | Drawn(p, commands, jobs) && FreshParts(files, jobs) ensures AlwaysHonest(sha, files, jobs) {
        DrawnJobsShareHash(p, commands, jobs);
        HonestWithSameHash(sha, files, jobs);
      }
    } else {
      var a, b :| a in commands && b in commands && TempForm(p, a, b) && a.hash != b.hash;
      var mine: Bytes :| |mine| == a.size && sha(mine) == a.hash;
      var other: Bytes :| |other| == b.size && sha(other) == b.hash;
      var jobs := TempFormJobs(p, commands, a, b);
      CollisionMixesUp(sha, map[], jobs, 0, 1, mine, other);
    }
  }

  /** A pair of commands that fails although the texts of the names differ: Windows does
      not tell their letter case apart. */
  lemma CaseCollides(p: W.Platform, directory: W.Path, a: Command, b: Command)
    requires a.directory == b.directory && a.filename == "report.txt" && b.filename == ".REPORT.TXT-12.PART"
    requires W.SameWord(p, ".REPORT.TXT-12.PART", ".report.txt-12.part")
    ensures TempForm(p, a, b)
  {
    assert Decimal(12) == Decimal(1) + "2" == "12";
    assert TempName("report.txt", Decimal(12)) == ".report.txt-12.part";
  }

  // ------------------------------------------------------------- the procedure

  /** How the calls of one job turn out. */
  datatype Script = Script(
    admitted: bool,         // directory, space and destination checks
    creatable: bool,        // the temporary file can be created
    accepted: bool,         // and passes its security check
    responded: bool,        // the request gets an acceptable response
    copied: bool,           // the whole body is copied and flushed
    readable: bool,         // the file can be read back for its hash
    cancelled: bool,        // the job is cancelled or refused before publication
    rename: RenameFault,
    removableAtOnce: bool,
    removableAtEnd: bool)
  {
    predicate FaultFree() {
      && admitted && creatable && accepted && responded && copied && readable && !cancelled
      && rename.Commits? && removableAtOnce && removableAtEnd
    }
  }

  /** The run gets as far as its rename: nothing fails before, and the body is the one
      commanded. */
  predicate ReachesRename(sha: Bytes -> Bytes, job: Job, body: Bytes, script: Script) {
    script.copied && script.readable && !script.cancelled && Matches(sha, job, body)
  }

  lemma NeedsWholeCopy(sha: Bytes -> Bytes, job: Job, body: Bytes, script: Script)
    ensures ReachesRename(sha, job, body, script) ==> script.copied && |body| == job.size
  {}

  /** The body as it is stored. */
  function Joined(body: seq<Bytes>): Bytes {
    if body == [] then [] else Joined(body[..|body| - 1]) + body[|body| - 1]
  }

  class Store {
    var files: Files

    constructor (files: Files)
      ensures this.files == files
    {
      this.files := files;
    }

    ghost predicate At(sha: Bytes -> Bytes, start: Files, job: Job, steps: seq<Step>, run: Run)
      reads this
    {
      Execute(sha, Begin(start, [job]), steps) == World(files, [run])
    }

    /** Carries one step of the run out on the files. */
    method Do(sha: Bytes -> Bytes, ghost start: Files, job: Job, run: Run, move: Move, ghost steps: seq<Step>)
      returns (next: Run, ghost longer: seq<Step>)
      requires At(sha, start, job, steps, run) && Enabled(World(files, [run]), Step(0, move))
      modifies this
      ensures At(sha, start, job, longer, next)
      ensures (files, next) == Advance(sha, old(files), run, move)
    {
      ThenStep(sha, Begin(start, [job]), steps, Step(0, move));
      longer := steps + [Step(0, move)];
      var (changed, after) := Advance(sha, files, run, move);
      files, next := changed, after;
    }

    method VerifyAndPublish(sha: Bytes -> Bytes, ghost start: Files, job: Job, ghost data: Bytes, script: Script,
                            initial: Run, ghost before: seq<Step>)
      returns (run: Run, ghost steps: seq<Step>)
      requires At(sha, start, job, before, initial) && initial == Run(job, Verifying, |data|, [], false, false)
      requires files == start[job.part := data] && |data| == job.size && job.part != job.dest
      modifies this
      ensures At(sha, start, job, steps, run) && run.job == job
      ensures (run.phase.Cleaning? && |run.sent| == 1) || (run.phase.Discarding? && run.sent == [])
      ensures |run.sent| == 1 && run.sent[0].Completed? ==> job.dest in files && Matches(sha, job, files[job.dest])
      ensures SameAt(start, files, job.dest) || (job.dest in files && Matches(sha, job, files[job.dest]))
      ensures script.copied ==>
                (run.sent == [Completed] <==> ReachesRename(sha, job, data, script) && script.rename.Commits?)
      ensures script.copied ==>
                files == if ReachesRename(sha, job, data, script) && !script.rename.Fails?
                         then (start - {job.part})[job.dest := data] else start[job.part := data]
    {
      hide Execute;
      run, steps := Do(sha, start, job, initial, Hash(!script.readable), before);
      if run.phase.Verified? {
        run, steps := Do(sha, start, job, run, if script.cancelled then Reject else Publish(script.rename), steps);
        assert run.phase.Cleaning? ==>
                 run.sent == [if !script.cancelled && script.rename.Commits? then Completed else FailedResult];
      }
    }

    /** Appends the pieces of the body to the temporary file as they arrive. */
    method ReceiveBody(sha: Bytes -> Bytes, ghost start: Files, job: Job, body: seq<Bytes>,
                       initial: Run, ghost before: seq<Step>)
      returns (run: Run, ghost steps: seq<Step>)
      requires At(sha, start, job, before, initial) && initial == Run(job, Receiving, 0, [], false, false)
      requires files == start[job.part := []]
      modifies this
      ensures At(sha, start, job, steps, run)
      ensures run == Run(job, Receiving, |Joined(body)|, [], false, false)
      ensures files == start[job.part := Joined(body)]
    {
      hide Execute;
      run, steps := initial, before;
      for i := 0 to |body|
        invariant At(sha, start, job, steps, run)
        invariant run == Run(job, Receiving, |Joined(body[..i])|, [], false, false)
        invariant files == start[job.part := Joined(body[..i])]
      {
        assert body[..i + 1][..i] == body[..i];
        run, steps := Do(sha, start, job, run, Receive(body[i]), steps);
      }
      assert body[..|body|] == body;
    }

    /** After a failure: one attempt to remove the temporary file, then the result. */
    method Discard(sha: Bytes -> Bytes, ghost start: Files, job: Job, script: Script, initial: Run,
                   ghost before: seq<Step>)
      returns (run: Run, ghost steps: seq<Step>)
      requires At(sha, start, job, before, initial)
      requires initial.job == job && initial.phase.Discarding? && initial.sent == []
      modifies this
      ensures At(sha, start, job, steps, run)
      ensures run.phase.Cleaning? && run.job == job && run.sent == [FailedResult]
      ensures files == if script.removableAtOnce then old(files) - {job.part} else old(files)
    {
      hide Execute;
      run, steps := Do(sha, start, job, initial, Remove(!script.removableAtOnce), before);
    }

    method CopyAndPublish(sha: Bytes -> Bytes, ghost start: Files, job: Job, body: seq<Bytes>, script: Script,
                          initial: Run, ghost before: seq<Step>)
      returns (run: Run, ghost steps: seq<Step>)
      requires At(sha, start, job, before, initial) && initial == Run(job, Receiving, 0, [], false, false)
      requires files == start[job.part := []] && job.part != job.dest
      modifies this
      ensures At(sha, start, job, steps, run) && run.phase.Cleaning? && run.job == job && |run.sent| == 1
      ensures run.sent[0].Completed? ==> job.dest in files && Matches(sha, job, files[job.dest])
      ensures SameAt(start, files, job.dest) || (job.dest in files && Matches(sha, job, files[job.dest]))
      ensures run.sent[0].Completed? <==> ReachesRename(sha, job, Joined(body), script) && script.rename.Commits?
      ensures files - {job.part} ==
                if ReachesRename(sha, job, Joined(body), script) && !script.rename.Fails?
                then (start - {job.part})[job.dest := Joined(body)] else start - {job.part}
    {
      hide Execute, Joined, ReachesRename, Matches;
      NeedsWholeCopy(sha, job, Joined(body), script);
      run, steps := ReceiveBody(sha, start, job, body, initial, before);
      run, steps := Do(sha, start, job, run, if script.copied then EndCopy else CopyFails, steps);
      if run.phase.Verifying? {
        run, steps := VerifyAndPublish(sha, start, job, Joined(body), script, run, steps);
      }
      if run.phase.Discarding? {
        run, steps := Discard(sha, start, job, script, run, steps);
      }
    }

    /** What follows once the temporary file is there: the request, the copy and the
        publication, and at the very end the attempt to remove the temporary file. */
    method RunCreated(sha: Bytes -> Bytes, ghost start: Files, job: Job, body: seq<Bytes>, script: Script,
                      initial: Run, ghost before: seq<Step>)
      returns (run: Run, ghost steps: seq<Step>)
      requires At(sha, start, job, before, initial) && initial == Run(job, Receiving, 0, [], false, false)
      requires job.part !in start && files == start[job.part := []] && job.part != job.dest
      modifies this
      ensures At(sha, start, job, steps, run) && run.phase.Ended? && |run.sent| == 1
      ensures run.sent[0].Completed? ==> job.dest in files && Matches(sha, job, files[job.dest])
      ensures SameAt(start, files, job.dest) || (job.dest in files && Matches(sha, job, files[job.dest]))
      ensures run.sent[0].Completed? <==>
                script.responded && ReachesRename(sha, job, Joined(body), script) && script.rename.Commits?
      ensures files - {job.part} ==
                if script.responded && ReachesRename(sha, job, Joined(body), script) && !script.rename.Fails?
                then start[job.dest := Joined(body)] else start
      ensures script.removableAtEnd ==> job.part !in files
    {
      hide Execute, Joined, ReachesRename;
      run, steps := initial, before;
      if !script.responded {
        run, steps := Do(sha, start, job, run, Reject, steps);
      } else {
        run, steps := CopyAndPublish(sha, start, job, body, script, run, steps);
      }
      assert start - {job.part} == start;
      run, steps := Do(sha, start, job, run, Remove(!script.removableAtEnd), steps);
    }

    /** The body of run for one command: every path ends with one result and, unless
        the temporary file was never accepted, the attempt to remove it. */
    method RunJob(sha: Bytes -> Bytes, job: Job, body: seq<Bytes>, script: Script)
      returns (result: Terminal, run: Run, ghost steps: seq<Step>)
      requires job.part !in files && job.part != job.dest
      modifies this
      ensures At(sha, old(files), job, steps, run) && run.phase.Ended? && run.sent == [result]
      ensures result.Completed? ==> job.dest in files && Matches(sha, job, files[job.dest])
      ensures SameAt(old(files), files, job.dest) || (job.dest in files && Matches(sha, job, files[job.dest]))
      // It completes exactly when nothing it needs fails and the body is the commanded one.
      ensures result.Completed? <==>
                && script.admitted && script.creatable && script.accepted && script.responded
                && ReachesRename(sha, job, Joined(body), script) && script.rename.Commits?
      // The destination changes exactly when the rename takes effect, to the body, and no
      // file but the temporary one changes beside it.
      ensures files - {job.part} ==
                if && script.admitted && script.creatable && script.accepted && script.responded
                   && ReachesRename(sha, job, Joined(body), script) && !script.rename.Fails?
                then old(files)[job.dest := Joined(body)] else old(files)
      // If the last removal works, the temporary file stays exactly when it was refused.
      ensures script.removableAtEnd ==>
                (job.part in files <==> script.admitted && script.creatable && !script.accepted)
      // Without faults, then, it completes exactly on the commanded body.
      ensures script.FaultFree() ==> (result.Completed? <==> Matches(sha, job, Joined(body)))
      ensures script.FaultFree() ==>
                files == if result.Completed? then old(files)[job.dest := Joined(body)] else old(files)
    {
      ghost var start := files;
      run, steps := Run(job, Fresh, 0, [], false, false), [];
      assert At(sha, start, job, [], run) by {
        assert Begin(start, [job]).runs == [run];
      }
      hide Execute, Joined, ReachesRename;
      if !script.admitted || !script.creatable {
        run, steps := Do(sha, start, job, run, Reject, steps);
        return FailedResult, run, steps;
      }
      if !script.accepted {
        run, steps := Do(sha, start, job, run, CreateRejected, steps);
        return FailedResult, run, steps;
      }
      run, steps := Do(sha, start, job, run, Create, steps);
      run, steps := RunCreated(sha, start, job, body, script, run, steps);
      result := run.sent[0];
    }
  }
}
