/** The queue and the publication pipeline together: commands wait in the queue under their
    attempt keys, a worker that takes one runs one publication for it, and the result is
    remembered once it is complete. */
module DownloadService {
  import opened Common
  import Q = DownloadQueue
  import P = DownloadPublication
  import W = WindowsPath

  /** The hash function, how names compare, the attempt key of a command, and how its
      completion is reported. */
  datatype Setup = Setup(
    sha: Bytes -> Bytes,
    platform: W.Platform,
    key: P.Command -> Q.Key,
    report: P.Command -> string)

  datatype State = State(
    queue: Q.State,
    waiting: seq<P.Command>,      // the commands in the queue
    taken: map<nat, P.Command>,   // the command a worker has taken
    accepted: seq<P.Command>,     // every command ever put into the queue
    world: P.World,
    commands: seq<P.Command>,     // the command of every run
    doing: map<nat, nat>,         // which run a worker is busy with
    published: map<nat, Bytes>)   // what a run that completed left at its destination

  datatype Action =
    | Submit(command: P.Command)
    | Take(w: nat)
    | Queue(action: Q.Action)          // a section of the queue that concerns no command
    | Start(w: nat, suffix: string)    // a worker looks at cancellation and begins its run
    | Move(w: nat, move: P.Move)       // the next step of a worker's run
    | Remember(w: nat)                 // the result of a completed run is cached
    | GiveUp(w: nat)                   // a failed run returns
    | Finish(w: nat)

  predicate ConcernsNoCommand(a: Q.Action) {
    a.SubmitFinish? || a.SetStatus? || a.Exit? || a.CloseLocked?
  }

  /** A temporary name as the system picks it: of no file, and of no other run. */
  ghost predicate FreshName(world: P.World, part: P.Place) {
    part !in world.files && forall r :: 0 <= r < |world.runs| ==> world.runs[r].job.part != part
  }

  /** The run a worker is busy with has sent this result. */
  predicate HasSent(s: State, w: nat, result: P.Terminal) {
    && w in s.doing && s.doing[w] < |s.world.runs| && s.doing[w] < |s.commands|
    && result in s.world.runs[s.doing[w]].sent
  }

  ghost predicate Enabled(x: Setup, s: State, a: Action) {
    match a
    case Submit(_) => true
    case Take(w) => Q.Enabled(s.queue, Q.Take(w)) && s.waiting != []
    case Queue(q) => ConcernsNoCommand(q) && Q.Enabled(s.queue, q)
    case Start(w, suffix) =>
      && Q.Enabled(s.queue, Q.CheckCancelled(w)) && w in s.taken && P.IsRandom(suffix)
      && FreshName(s.world, P.JobOf(x.platform, s.taken[w], suffix).part)
    case Move(w, move) => w in s.doing && P.Enabled(s.world, P.Step(s.doing[w], move))
    case Remember(w) => Q.Enabled(s.queue, Q.Remember(w, "")) && HasSent(s, w, P.Completed)
    case GiveUp(w) => Q.Enabled(s.queue, Q.Fail(w)) && HasSent(s, w, P.FailedResult)
    case Finish(w) =>
      && Q.Enabled(s.queue, Q.Finish(w))
      && (w in s.doing ==> s.doing[w] < |s.world.runs| && s.world.runs[s.doing[w]].phase.Ended?)
  }

  function NewRun(job: P.Job): P.Run {
    P.Run(job, P.Fresh, 0, [], false, false)
  }

  function Submitted(x: Setup, s: State, c: P.Command): State {
    var (queue, reply) := Q.Submit(s.queue, x.key(c));
    if reply.Queued? then s.(queue := queue, waiting := s.waiting + [c], accepted := s.accepted + [c])
    else s.(queue := queue)
  }

  function Started(x: Setup, s: State, w: nat, suffix: string): State
    requires Q.Enabled(s.queue, Q.CheckCancelled(w)) && w in s.taken
  {
    var queue := Q.Apply(s.queue, Q.CheckCancelled(w));
    if s.queue.cancelled then s.(queue := queue)
    else
      var job := P.JobOf(x.platform, s.taken[w], suffix);
      s.(queue := queue,
         world := P.World(s.world.files, s.world.runs + [NewRun(job)]),
         commands := s.commands + [s.taken[w]],
         doing := s.doing[w := |s.world.runs|])
  }

  function Moved(x: Setup, s: State, r: nat, move: P.Move): State
    requires P.Enabled(s.world, P.Step(r, move))
  {
    var after := P.Apply(x.sha, s.world, P.Step(r, move));
    var completes := P.Completed !in s.world.runs[r].sent && P.Completed in after.runs[r].sent;
    s.(world := after,
       published := if completes then s.published[r := P.Content(after.files, after.runs[r].job.dest)] else s.published)
  }

  ghost function Apply(x: Setup, s: State, a: Action): State
    requires Enabled(x, s, a)
  {
    match a
    case Submit(c) => Submitted(x, s, c)
    case Take(w) =>
      s.(queue := Q.Apply(s.queue, Q.Take(w)), waiting := s.waiting[1..], taken := s.taken[w := s.waiting[0]])
    case Queue(q) => s.(queue := Q.Apply(s.queue, q))
    case Start(w, suffix) => Started(x, s, w, suffix)
    case Move(w, move) => Moved(x, s, s.doing[w], move)
    case Remember(w) => s.(queue := Q.Apply(s.queue, Q.Remember(w, x.report(s.commands[s.doing[w]]))))
    case GiveUp(w) => s.(queue := Q.Apply(s.queue, Q.Fail(w)))
    case Finish(w) => s.(queue := Q.Apply(s.queue, Q.Finish(w)), taken := s.taken - {w}, doing := s.doing - {w})
  }

  function Init(queueSize: nat, workers: nat, files: P.Files): State {
    State(Q.Init(queueSize, workers), [], map[], [], P.World(files, []), [], map[], map[])
  }

  ghost function Execute(x: Setup, start: State, actions: seq<Action>): State {
    if actions == [] then start else
    var s := Execute(x, start, actions[..|actions| - 1]);
    var a := actions[|actions| - 1];
    if Enabled(x, s, a) then Apply(x, s, a) else s
  }

  // ------------------------------------------------ invariant: who does what

  /** The queue holds the keys of the waiting commands, in their order. */
  ghost predicate Waits(x: Setup, jobs: seq<Q.Key>, waiting: seq<P.Command>) {
    |jobs| == |waiting| && forall i :: 0 <= i < |jobs| ==> jobs[i] == x.key(waiting[i])
  }

  /** A worker holds the key of the command it has taken. */
  ghost predicate Carries(x: Setup, workers: seq<Q.Worker>, taken: map<nat, P.Command>) {
    forall w :: 0 <= w < |workers| ==> CarriesAt(x, workers[w], taken, w)
  }

  predicate CarriesAt(x: Setup, worker: Q.Worker, taken: map<nat, P.Command>, w: nat) {
    worker.Taken? || worker.Running? || worker.Finishing? ==> w in taken && worker.key == x.key(taken[w])
  }

  /** Each busy worker has its own run, of the command it has taken. */
  ghost predicate Linked(s: State) {
    && |s.commands| == |s.world.runs|
    && (forall w :: w in s.doing ==> WorksOn(s, w))
    && (forall v, w :: v in s.doing && w in s.doing && s.doing[v] == s.doing[w] ==> v == w)
    && (forall w :: 0 <= w < |s.queue.workers| && s.queue.workers[w].Running? ==> w in s.doing)
  }

  predicate WorksOn(s: State, w: nat) {
    && w in s.doing && w < |s.queue.workers| && s.doing[w] < |s.commands|
    && (s.queue.workers[w].Running? || s.queue.workers[w].Finishing?)
    && w in s.taken && s.taken[w] == s.commands[s.doing[w]]
  }

  /** Every other run is over. */
  ghost predicate OthersEnded(s: State) {
    forall r :: 0 <= r < |s.world.runs| ==> s.world.runs[r].phase.Ended? || BusyWith(s, r)
  }

  ghost predicate BusyWith(s: State, r: nat) {
    exists w :: w in s.doing && s.doing[w] == r
  }

  ghost predicate Assigned(x: Setup, s: State) {
    && Q.Inv(s.queue)
    && Waits(x, s.queue.jobs, s.waiting) && Carries(x, s.queue.workers, s.taken)
    && Linked(s) && OthersEnded(s)
  }

  // --------------------------------------- what each section does to the queue

  lemma SubmitTouches(q: Q.State, key: Q.Key)
    ensures
      var (t, reply) := Q.Submit(q, key);
      && t.completed == q.completed && t.workers == q.workers
      && ((q.chanClosed ==> q.closed) ==> t.jobs == if reply.Queued? then q.jobs + [key] else q.jobs)
  {}

  lemma TakeTouches(q: Q.State, w: nat)
    requires Q.Enabled(q, Q.Take(w))
    ensures
      var t := Q.Apply(q, Q.Take(w));
      && q.workers[w].Idle? && q.jobs != [] && t.completed == q.completed
      && t.jobs == q.jobs[1..] && t.workers == q.workers[w := Q.Taken(q.jobs[0])]
  {}

  lemma QueueTouches(q: Q.State, a: Q.Action)
    requires ConcernsNoCommand(a) && Q.Enabled(q, a)
    ensures
      var t := Q.Apply(q, a);
      && t.completed == q.completed && t.jobs == q.jobs
      && (!a.Exit? ==> t.workers == q.workers)
      && (a.Exit? ==> a.w < |q.workers| && q.workers[a.w].Idle? && t.workers == q.workers[a.w := Q.Exited])
  {
    hide Q.Submit, Q.Record, Q.Cached;
    match a
    case Exit(_) =>
    case _ =>
  }

  lemma CheckTouches(q: Q.State, w: nat)
    requires Q.Enabled(q, Q.CheckCancelled(w))
    ensures
      var t := Q.Apply(q, Q.CheckCancelled(w));
      && t.completed == q.completed && t.jobs == q.jobs && q.workers[w].Taken?
      && t.workers == q.workers[w := if q.cancelled then Q.Finishing(q.workers[w].key) else Q.Running(q.workers[w].key)]
  {}

  lemma RememberTouches(q: Q.State, w: nat, result: string)
    requires Q.Enabled(q, Q.Remember(w, result))
    ensures
      var t := Q.Apply(q, Q.Remember(w, result));
      && q.workers[w].Running? && t.jobs == q.jobs && t.workers == q.workers[w := Q.Finishing(q.workers[w].key)]
      && forall key :: key in t.completed ==>
           if key == q.workers[w].key then t.completed[key] == result
           else key in q.completed && t.completed[key] == q.completed[key]
  {}

  lemma FailTouches(q: Q.State, w: nat)
    requires Q.Enabled(q, Q.Fail(w))
    ensures
      var t := Q.Apply(q, Q.Fail(w));
      && q.workers[w].Running? && t.workers == q.workers[w := Q.Finishing(q.workers[w].key)]
      && t.completed == q.completed && t.jobs == q.jobs
  {}

  lemma FinishTouches(q: Q.State, w: nat)
    requires Q.Enabled(q, Q.Finish(w))
    ensures
      var t := Q.Apply(q, Q.Finish(w));
      && q.workers[w].Finishing? && t.workers == q.workers[w := Q.Idle]
      && t.completed == q.completed && t.jobs == q.jobs
  {}

  // ------------------------------------------------- what keeps the assignment

  /** One worker changes, and carries what it says. */
  lemma CarriesOn(x: Setup, workers: seq<Q.Worker>, taken: map<nat, P.Command>,
                  w: nat, worker: Q.Worker, after: map<nat, P.Command>)
    requires Carries(x, workers, taken) && w < |workers| && CarriesAt(x, worker, after, w)
    requires forall v :: v != w && v in taken ==> v in after && after[v] == taken[v]
    ensures Carries(x, workers[w := worker], after)
  {
    var changed := workers[w := worker];
    forall v | 0 <= v < |changed| ensures CarriesAt(x, changed[v], after, v) {
      assert CarriesAt(x, workers[v], taken, v);
    }
  }

  /** Nobody's run changes hands when a worker without one does something else. */
  lemma StaysLinked(s: State, t: State, w: nat, worker: Q.Worker)
    requires Linked(s) && OthersEnded(s) && w < |s.queue.workers| && w !in s.doing && !worker.Running?
    requires t.queue.workers == s.queue.workers[w := worker]
    requires t.world == s.world && t.commands == s.commands && t.doing == s.doing
    requires forall v :: v != w && v in s.taken ==> v in t.taken && t.taken[v] == s.taken[v]
    ensures Linked(t) && OthersEnded(t)
  {
    forall v | v in t.doing ensures WorksOn(t, v) {
      assert WorksOn(s, v);
    }
    KeepBusy(s, t);
  }

  lemma IdleHasNoRun(s: State, w: nat)
    requires Linked(s) && w < |s.queue.workers|
    requires !s.queue.workers[w].Running? && !s.queue.workers[w].Finishing?
    ensures w !in s.doing
  {
    assert !WorksOn(s, w);
  }

  /** Runs that were someone's still are, when nobody lets go. */
  lemma KeepBusy(s: State, t: State)
    requires OthersEnded(s) && t.doing == s.doing && t.world == s.world
    ensures OthersEnded(t)
  {
    forall r | 0 <= r < |t.world.runs| ensures t.world.runs[r].phase.Ended? || BusyWith(t, r) {
      if !s.world.runs[r].phase.Ended? {
        var w :| w in s.doing && s.doing[w] == r;
        assert w in t.doing && t.doing[w] == r;
      }
    }
  }

  lemma SameLinks(s: State, t: State)
    requires Linked(s) && OthersEnded(s)
    requires t.queue.workers == s.queue.workers && t.taken == s.taken
    requires t.world == s.world && t.commands == s.commands && t.doing == s.doing
    ensures Linked(t) && OthersEnded(t)
  {
    forall v | v in t.doing ensures WorksOn(t, v) {
      assert WorksOn(s, v);
    }
    KeepBusy(s, t);
  }

  lemma StartedIsLinked(x: Setup, s: State, t: State, w: nat, suffix: string)
    requires Linked(s) && OthersEnded(s) && w !in s.doing && w < |s.queue.workers| && s.queue.workers[w].Taken?
    requires w in s.taken && t.taken == s.taken
    requires t.queue.workers == s.queue.workers[w := Q.Running(s.queue.workers[w].key)]
    requires t.world.runs == s.world.runs + [NewRun(P.JobOf(x.platform, s.taken[w], suffix))]
    requires t.commands == s.commands + [s.taken[w]] && t.doing == s.doing[w := |s.world.runs|]
    ensures Linked(t) && OthersEnded(t)
  {
    hide P.JobOf;
    forall v | v in t.doing ensures WorksOn(t, v) {
      if v != w {
        assert WorksOn(s, v);
      }
    }
    forall u, v | u in t.doing && v in t.doing && t.doing[u] == t.doing[v] ensures u == v {
      if u != w {
        assert WorksOn(s, u);
      }
      if v != w {
        assert WorksOn(s, v);
      }
    }
    forall r | 0 <= r < |t.world.runs| ensures t.world.runs[r].phase.Ended? || BusyWith(t, r) {
      if r == |s.world.runs| {
        assert w in t.doing && t.doing[w] == r;
      } else if !s.world.runs[r].phase.Ended? {
        var v :| v in s.doing && s.doing[v] == r;
        assert v in t.doing && t.doing[v] == r;
      }
    }
  }

  /** A step of a run: only that run changes, and it keeps its job. */
  lemma MoveTouches(x: Setup, s: State, r: nat, move: P.Move)
    requires P.Enabled(s.world, P.Step(r, move))
    ensures
      var t := Moved(x, s, r, move);
      && r < |s.world.runs| == |t.world.runs|
      && t.world.runs[r].job == s.world.runs[r].job
      && (P.Completed in s.world.runs[r].sent ==> P.Completed in t.world.runs[r].sent)
      && (forall k :: 0 <= k < |s.world.runs| && k != r ==> t.world.runs[k] == s.world.runs[k])
      && t.queue == s.queue && t.waiting == s.waiting && t.taken == s.taken && t.accepted == s.accepted
      && t.commands == s.commands && t.doing == s.doing
      && (forall k :: k != r && k in s.published ==> k in t.published && t.published[k] == s.published[k])
  {}

  lemma MovedIsLinked(s: State, t: State, w: nat)
    requires Linked(s) && OthersEnded(s) && w in s.doing && s.doing[w] < |s.world.runs|
    requires t.queue == s.queue && t.taken == s.taken && t.commands == s.commands && t.doing == s.doing
    requires |t.world.runs| == |s.world.runs|
    requires forall k :: 0 <= k < |s.world.runs| && k != s.doing[w] ==> t.world.runs[k] == s.world.runs[k]
    ensures Linked(t) && OthersEnded(t)
  {
    forall v | v in t.doing ensures WorksOn(t, v) {
      assert WorksOn(s, v);
    }
    forall k | 0 <= k < |t.world.runs| ensures t.world.runs[k].phase.Ended? || BusyWith(t, k) {
      if k == s.doing[w] {
        assert w in t.doing && t.doing[w] == k;
      } else if !s.world.runs[k].phase.Ended? {
        var v :| v in s.doing && s.doing[v] == k;
        assert v in t.doing && t.doing[v] == k;
      }
    }
  }

  /** A worker that goes from running to finishing stays with its run. */
  lemma StillLinked(s: State, t: State, w: nat)
    requires Linked(s) && OthersEnded(s) && w < |s.queue.workers| && s.queue.workers[w].Running?
    requires t.queue.workers == s.queue.workers[w := Q.Finishing(s.queue.workers[w].key)]
    requires t.taken == s.taken && t.world == s.world && t.commands == s.commands && t.doing == s.doing
    ensures Linked(t) && OthersEnded(t)
  {
    forall v | v in t.doing ensures WorksOn(t, v) {
      assert WorksOn(s, v);
    }
    KeepBusy(s, t);
  }

  /** A worker that is done lets its run go, which is over. */
  lemma LetGo(s: State, t: State, w: nat)
    requires Linked(s) && OthersEnded(s) && w < |s.queue.workers|
    requires t.queue.workers == s.queue.workers[w := Q.Idle]
    requires t.doing == s.doing - {w} && t.taken == s.taken - {w}
    requires t.world == s.world && t.commands == s.commands
    requires w in s.doing ==> s.doing[w] < |s.world.runs| && s.world.runs[s.doing[w]].phase.Ended?
    ensures Linked(t) && OthersEnded(t)
  {
    forall v | v in t.doing ensures WorksOn(t, v) {
      assert WorksOn(s, v);
    }
    forall r | 0 <= r < |t.world.runs| ensures t.world.runs[r].phase.Ended? || BusyWith(t, r) {
      if !s.world.runs[r].phase.Ended? {
        var v :| v in s.doing && s.doing[v] == r;
        assert v in t.doing && t.doing[v] == r;
      }
    }
  }

  lemma SubmitKeepsAssigned(x: Setup, s: State, c: P.Command)
    requires Assigned(x, s)
    ensures Assigned(x, Submitted(x, s, c))
  {
    Q.ApplyKeepsInv(s.queue, Q.SubmitLocked(x.key(c)));
    assert Q.Apply(s.queue, Q.SubmitLocked(x.key(c))) == Q.Submit(s.queue, x.key(c)).0;
    SubmitTouches(s.queue, x.key(c));
    hide Q.Inv, Q.Submit, Q.Apply, Linked, OthersEnded, Carries;
    SameLinks(s, Submitted(x, s, c));
  }

  lemma TakeKeepsAssigned(x: Setup, s: State, w: nat)
    requires Assigned(x, s) && Enabled(x, s, Take(w))
    ensures Assigned(x, Apply(x, s, Take(w)))
  {
    Q.ApplyKeepsInv(s.queue, Q.Take(w));
    TakeTouches(s.queue, w);
    var t := Apply(x, s, Take(w));
    hide Q.Inv, Q.Apply, Q.Enabled, Linked, OthersEnded, Carries;
    CarriesOn(x, s.queue.workers, s.taken, w, Q.Taken(s.queue.jobs[0]), t.taken);
    IdleHasNoRun(s, w);
    StaysLinked(s, t, w, Q.Taken(s.queue.jobs[0]));
  }

  lemma QueueKeepsAssigned(x: Setup, s: State, q: Q.Action)
    requires Assigned(x, s) && Enabled(x, s, Queue(q))
    ensures Assigned(x, Apply(x, s, Queue(q)))
  {
    Q.ApplyKeepsInv(s.queue, q);
    QueueTouches(s.queue, q);
    var t := Apply(x, s, Queue(q));
    hide Q.Inv, Q.Apply, Q.Enabled, Linked, OthersEnded, Carries, Waits;
    if q.Exit? {
      CarriesOn(x, s.queue.workers, s.taken, q.w, Q.Exited, t.taken);
      IdleHasNoRun(s, q.w);
      StaysLinked(s, t, q.w, Q.Exited);
    } else {
      SameLinks(s, t);
    }
  }

  lemma StartKeepsAssigned(x: Setup, s: State, w: nat, suffix: string)
    requires Assigned(x, s) && Enabled(x, s, Start(w, suffix))
    ensures Assigned(x, Apply(x, s, Start(w, suffix)))
  {
    Q.ApplyKeepsInv(s.queue, Q.CheckCancelled(w));
    CheckTouches(s.queue, w);
    var t := Started(x, s, w, suffix);
    assert CarriesAt(x, s.queue.workers[w], s.taken, w);
    hide Q.Inv, Q.Apply, Q.Enabled, Linked, OthersEnded, Carries, Waits, P.JobOf, FreshName;
    CarriesOn(x, s.queue.workers, s.taken, w, t.queue.workers[w], t.taken);
    IdleHasNoRun(s, w);
    if s.queue.cancelled {
      StaysLinked(s, t, w, t.queue.workers[w]);
    } else {
      StartedIsLinked(x, s, t, w, suffix);
    }
  }

  lemma MoveKeepsAssigned(x: Setup, s: State, w: nat, move: P.Move)
    requires Assigned(x, s) && Enabled(x, s, Move(w, move))
    ensures Assigned(x, Apply(x, s, Move(w, move)))
  {
    MoveTouches(x, s, s.doing[w], move);
    hide Q.Inv, Moved, Linked, OthersEnded, Carries, Waits;
    MovedIsLinked(s, Moved(x, s, s.doing[w], move), w);
  }

  /** The two ways a run returns look alike from here. */
  lemma ReturnKeepsAssigned(x: Setup, s: State, t: State, w: nat)
    requires Assigned(x, s) && w < |s.queue.workers| && s.queue.workers[w].Running? && Q.Inv(t.queue)
    requires t.queue.workers == s.queue.workers[w := Q.Finishing(s.queue.workers[w].key)]
    requires t.queue.jobs == s.queue.jobs && t.waiting == s.waiting
    requires t.taken == s.taken && t.world == s.world && t.commands == s.commands && t.doing == s.doing
    ensures Assigned(x, t)
  {
    assert CarriesAt(x, s.queue.workers[w], s.taken, w);
    hide Q.Inv, Linked, OthersEnded, Carries, Waits;
    CarriesOn(x, s.queue.workers, s.taken, w, t.queue.workers[w], t.taken);
    StillLinked(s, t, w);
  }

  lemma FinishKeepsAssigned(x: Setup, s: State, w: nat)
    requires Assigned(x, s) && Enabled(x, s, Finish(w))
    ensures Assigned(x, Apply(x, s, Finish(w)))
  {
    Q.ApplyKeepsInv(s.queue, Q.Finish(w));
    FinishTouches(s.queue, w);
    var t := Apply(x, s, Finish(w));
    hide Q.Inv, Q.Apply, Q.Enabled, Linked, OthersEnded, Carries, Waits;
    CarriesOn(x, s.queue.workers, s.taken, w, Q.Idle, t.taken);
    LetGo(s, t, w);
  }

  lemma ApplyKeepsAssigned(x: Setup, s: State, a: Action)
    requires Assigned(x, s) && Enabled(x, s, a)
    ensures Assigned(x, Apply(x, s, a))
  {
    match a
    case Submit(c) => SubmitKeepsAssigned(x, s, c);
    case Take(w) => TakeKeepsAssigned(x, s, w);
    case Queue(q) => QueueKeepsAssigned(x, s, q);
    case Start(w, suffix) => StartKeepsAssigned(x, s, w, suffix);
    case Move(w, move) => MoveKeepsAssigned(x, s, w, move);
    case Remember(w) =>
      var result := x.report(s.commands[s.doing[w]]);
      Q.ApplyKeepsInv(s.queue, Q.Remember(w, result));
      RememberTouches(s.queue, w, result);
      hide Assigned, Q.Inv, Q.Apply;
      ReturnKeepsAssigned(x, s, Apply(x, s, a), w);
    case GiveUp(w) =>
      Q.ApplyKeepsInv(s.queue, Q.Fail(w));
      FailTouches(s.queue, w);
      hide Assigned, Q.Inv, Q.Apply;
      ReturnKeepsAssigned(x, s, Apply(x, s, a), w);
    case Finish(w) => FinishKeepsAssigned(x, s, w);
  }

  lemma InitAssigned(x: Setup, queueSize: nat, workers: nat, files: P.Files)
    ensures Assigned(x, Init(queueSize, workers, files))
  {
    Q.InitInv(queueSize, workers);
    hide Q.Inv;
  }

  lemma {:induction false} ExecuteKeepsAssigned(x: Setup, queueSize: nat, workers: nat, files: P.Files,
                                                actions: seq<Action>)
    ensures Assigned(x, Execute(x, Init(queueSize, workers, files), actions))
  {
    hide Assigned, Apply, Enabled;
    if actions == [] {
      InitAssigned(x, queueSize, workers, files);
    } else {
      var init, a := actions[..|actions| - 1], actions[|actions| - 1];
      ExecuteKeepsAssigned(x, queueSize, workers, files, init);
      var s := Execute(x, Init(queueSize, workers, files), init);
      if Enabled(x, s, a) {
        ApplyKeepsAssigned(x, s, a);
      }
    }
  }

  /** Single flight down to the files: of two runs of one attempt one is over, in every
      interleaving and whatever the commands are. */
  lemma OneRunPerAttempt(x: Setup, queueSize: nat, workers: nat, files: P.Files, actions: seq<Action>,
                         i: nat, j: nat)
    ensures
      var s := Execute(x, Init(queueSize, workers, files), actions);
      && |s.commands| == |s.world.runs|
      && (i < j < |s.world.runs| && x.key(s.commands[i]) == x.key(s.commands[j]) ==>
            s.world.runs[i].phase.Ended? || s.world.runs[j].phase.Ended?)
  {
    ExecuteKeepsAssigned(x, queueSize, workers, files, actions);
    var s := Execute(x, Init(queueSize, workers, files), actions);
    hide Execute, Q.HoldInv, Q.CacheInv, Q.FreshInv, Q.ShutInv;
    if i < j < |s.world.runs| && x.key(s.commands[i]) == x.key(s.commands[j])
      && !s.world.runs[i].phase.Ended? && !s.world.runs[j].phase.Ended?
    {
      assert BusyWith(s, i) && BusyWith(s, j);
      var v :| v in s.doing && s.doing[v] == i;
      var w :| w in s.doing && s.doing[w] == j;
      assert WorksOn(s, v) && WorksOn(s, w);
      assert CarriesAt(x, s.queue.workers[v], s.taken, v) && CarriesAt(x, s.queue.workers[w], s.taken, w);
      Q.WorkerKeyExclusive(s.queue, v, x.key(s.commands[i]));
      assert false;
    }
  }

  // ---------------------------------------------- invariant: where commands go

  /** Every command in the service was accepted, and every run is of its command. */
  ghost predicate Traced(x: Setup, s: State) {
    && (forall i :: 0 <= i < |s.waiting| ==> s.waiting[i] in s.accepted)
    && (forall w :: w in s.taken ==> s.taken[w] in s.accepted)
    && |s.commands| == |s.world.runs|
    && (forall r :: 0 <= r < |s.commands| ==>
          s.commands[r] in s.accepted && Runs(x, s.world.runs[r].job, s.commands[r]))
  }

  ghost predicate Runs(x: Setup, job: P.Job, c: P.Command) {
    exists suffix :: P.IsRandom(suffix) && job == P.JobOf(x.platform, c, suffix)
  }

  lemma ApplyKeepsTraced(x: Setup, s: State, a: Action)
    requires Traced(x, s) && Enabled(x, s, a)
    ensures Traced(x, Apply(x, s, a)) && s.accepted <= Apply(x, s, a).accepted
  {
    hide Q.Apply, Q.Submit, Q.Enabled, P.JobOf, P.Apply, FreshName, Runs;
    match a
    case Start(w, suffix) =>
      assert Runs(x, P.JobOf(x.platform, s.taken[w], suffix), s.taken[w]) by {
        RunsIts(x, s.taken[w], suffix);
      }
    case Move(w, move) => MoveKeepsTraced(x, s, s.doing[w], move);
    case _ =>
  }

  lemma RunsIts(x: Setup, c: P.Command, suffix: string)
    requires P.IsRandom(suffix)
    ensures Runs(x, P.JobOf(x.platform, c, suffix), c)
  {}

  lemma MoveKeepsTraced(x: Setup, s: State, r: nat, move: P.Move)
    requires Traced(x, s) && P.Enabled(s.world, P.Step(r, move))
    ensures Traced(x, Moved(x, s, r, move)) && Moved(x, s, r, move).accepted == s.accepted
  {
    MoveTouches(x, s, r, move);
    var t := Moved(x, s, r, move);
    hide Moved, Runs;
    forall k | 0 <= k < |t.commands|
      ensures t.commands[k] in t.accepted && Runs(x, t.world.runs[k].job, t.commands[k])
    {
      assert t.world.runs[k].job == s.world.runs[k].job;
    }
  }

  function JobsOf(world: P.World): seq<P.Job> {
    seq(|world.runs|, r requires 0 <= r < |world.runs| => world.runs[r].job)
  }

  /** Commands without names of the form of temporary names give runs that do not collide. */
  lemma TracedDoNotCollide(x: Setup, s: State)
    requires Traced(x, s) && P.NoTempForm(x.platform, s.accepted)
    ensures P.NoCollision(JobsOf(s.world))
  {
    var jobs := JobsOf(s.world);
    hide P.JobOf, P.NoTempForm;
    forall k | 0 <= k < |jobs| ensures P.IsJobOf(x.platform, s.accepted, jobs[k]) {
      assert Runs(x, s.world.runs[k].job, s.commands[k]);
    }
    P.DrawnJobsDoNotCollide(x.platform, s.accepted, jobs);
  }

  // ---------------------------------------------- invariant: what is remembered

  /** A cached result is the report of a run of that key that completed. */
  ghost predicate Backed(x: Setup, s: State, key: Q.Key, result: string) {
    exists r :: 0 <= r < |s.world.runs| && CompletedRun(x, s, r, key, result)
  }

  predicate CompletedRun(x: Setup, s: State, r: nat, key: Q.Key, result: string)
    requires r < |s.world.runs|
  {
    && r < |s.commands| && x.key(s.commands[r]) == key
    && P.Completed in s.world.runs[r].sent && result == x.report(s.commands[r])
  }

  ghost predicate CacheBacked(x: Setup, s: State) {
    forall key :: key in s.queue.completed ==> Backed(x, s, key, s.queue.completed[key])
  }

  /** Cached results stay backed when completed runs and the cache stay. */
  lemma KeepBacked(x: Setup, s: State, t: State)
    requires CacheBacked(x, s) && t.queue.completed == s.queue.completed
    requires s.commands <= t.commands && |s.world.runs| <= |t.world.runs|
    requires forall r :: 0 <= r < |s.world.runs| && P.Completed in s.world.runs[r].sent ==>
               P.Completed in t.world.runs[r].sent
    ensures CacheBacked(x, t)
  {
    forall key | key in t.queue.completed ensures Backed(x, t, key, t.queue.completed[key]) {
      assert Backed(x, s, key, s.queue.completed[key]);
      var r :| 0 <= r < |s.world.runs| && CompletedRun(x, s, r, key, s.queue.completed[key]);
      assert CompletedRun(x, t, r, key, t.queue.completed[key]);
    }
  }

  /** Caching the report of a completed run keeps the cache backed. */
  lemma RememberedIsBacked(x: Setup, s: State, t: State, key: Q.Key, r: nat)
    requires CacheBacked(x, s) && t.world == s.world && t.commands == s.commands
    requires r < |s.world.runs| && r < |s.commands| && x.key(s.commands[r]) == key
    requires P.Completed in s.world.runs[r].sent
    requires forall k :: k in t.queue.completed ==>
               if k == key then t.queue.completed[k] == x.report(s.commands[r])
               else k in s.queue.completed && t.queue.completed[k] == s.queue.completed[k]
    ensures CacheBacked(x, t)
  {
    forall k | k in t.queue.completed ensures Backed(x, t, k, t.queue.completed[k]) {
      if k == key {
        assert CompletedRun(x, t, r, k, t.queue.completed[k]);
      } else {
        assert Backed(x, s, k, s.queue.completed[k]);
        var i :| 0 <= i < |s.world.runs| && CompletedRun(x, s, i, k, s.queue.completed[k]);
        assert CompletedRun(x, t, i, k, t.queue.completed[k]);
      }
    }
  }

  lemma StartKeepsBacked(x: Setup, s: State, w: nat, suffix: string)
    requires CacheBacked(x, s) && Enabled(x, s, Start(w, suffix))
    ensures CacheBacked(x, Started(x, s, w, suffix))
  {
    CheckTouches(s.queue, w);
    hide P.JobOf, Q.Apply, Q.Enabled, FreshName, CacheBacked;
    KeepBacked(x, s, Started(x, s, w, suffix));
  }

  lemma RememberKeepsBacked(x: Setup, s: State, w: nat)
    requires Assigned(x, s) && CacheBacked(x, s) && Enabled(x, s, Remember(w))
    ensures CacheBacked(x, Apply(x, s, Remember(w)))
  {
    var r := s.doing[w];
    RememberTouches(s.queue, w, x.report(s.commands[r]));
    assert WorksOn(s, w) && CarriesAt(x, s.queue.workers[w], s.taken, w);
    hide Q.Inv, Q.Apply, Q.Enabled, Linked, OthersEnded, Carries, Waits, CacheBacked;
    RememberedIsBacked(x, s, Apply(x, s, Remember(w)), s.queue.workers[w].key, r);
  }

  lemma OthersKeepCache(x: Setup, s: State, a: Action)
    requires Enabled(x, s, a) && !a.Start? && !a.Move? && !a.Remember?
    ensures
      var t := Apply(x, s, a);
      && t.queue.completed == s.queue.completed && t.world == s.world && t.commands == s.commands
      && t.published == s.published
  {
    match a
    case Submit(c) => SubmitTouches(s.queue, x.key(c));
    case Take(w) => TakeTouches(s.queue, w);
    case Queue(q) => QueueTouches(s.queue, q);
    case GiveUp(w) => FailTouches(s.queue, w);
    case Finish(w) => FinishTouches(s.queue, w);
  }

  lemma ApplyKeepsBacked(x: Setup, s: State, a: Action)
    requires Assigned(x, s) && CacheBacked(x, s) && Enabled(x, s, a)
    ensures CacheBacked(x, Apply(x, s, a))
  {
    hide Assigned, CacheBacked;
    match a
    case Start(w, suffix) => StartKeepsBacked(x, s, w, suffix);
    case Move(w, move) =>
      MoveTouches(x, s, s.doing[w], move);
      hide Moved, P.Enabled;
      KeepBacked(x, s, Apply(x, s, a));
    case Remember(w) => RememberKeepsBacked(x, s, w);
    case _ =>
      OthersKeepCache(x, s, a);
      hide Apply, Enabled;
      KeepBacked(x, s, Apply(x, s, a));
  }

  lemma InitBacked(x: Setup, queueSize: nat, workers: nat, files: P.Files)
    ensures CacheBacked(x, Init(queueSize, workers, files)) && Traced(x, Init(queueSize, workers, files))
  {}

  lemma {:induction false} ExecuteKeepsBacked(x: Setup, queueSize: nat, workers: nat, files: P.Files,
                                              actions: seq<Action>)
    ensures
      var s := Execute(x, Init(queueSize, workers, files), actions);
      CacheBacked(x, s) && Traced(x, s)
  {
    hide Assigned, Traced, CacheBacked, Apply, Enabled;
    if actions == [] {
      InitBacked(x, queueSize, workers, files);
    } else {
      var init, a := actions[..|actions| - 1], actions[|actions| - 1];
      ExecuteKeepsAssigned(x, queueSize, workers, files, init);
      ExecuteKeepsBacked(x, queueSize, workers, files, init);
      var s := Execute(x, Init(queueSize, workers, files), init);
      if Enabled(x, s, a) {
        ApplyKeepsTraced(x, s, a);
        ApplyKeepsBacked(x, s, a);
      }
    }
  }

  // -------------------------------------------- invariant: what was published

  /** What completed was published, with the commanded size and hash. */
  ghost predicate Honest(x: Setup, s: State) {
    forall r :: 0 <= r < |s.world.runs| && P.Completed in s.world.runs[r].sent ==>
      r in s.published && P.Matches(x.sha, s.world.runs[r].job, s.published[r])
  }

  ghost predicate Sound(x: Setup, s: State) {
    P.Inv(x.sha, s.world) && Honest(x, s)
  }

  /** A new run with a fresh name fits beside the others. */
  lemma BeginRun(x: Setup, world: P.World, job: P.Job)
    requires P.Inv(x.sha, world) && FreshName(world, job.part)
    requires P.NoCollision(JobsOf(P.World(world.files, world.runs + [NewRun(job)])))
    ensures P.Inv(x.sha, P.World(world.files, world.runs + [NewRun(job)]))
  {
    var after := P.World(world.files, world.runs + [NewRun(job)]);
    var jobs := JobsOf(after);
    hide P.RunInv;
    assert P.RunInv(x.sha, after.files, NewRun(job)) by {
      FreshRun(x, world, job);
    }
    forall i, j | 0 <= i < |after.runs| && 0 <= j < |after.runs|
      ensures after.runs[j].job.dest != after.runs[i].job.part
    {
      assert jobs[i] == after.runs[i].job && jobs[j] == after.runs[j].job;
    }
  }

  lemma FreshRun(x: Setup, world: P.World, job: P.Job)
    requires FreshName(world, job.part)
    ensures P.RunInv(x.sha, world.files, NewRun(job))
  {}

  lemma StartKeepsSound(x: Setup, s: State, w: nat, suffix: string)
    requires Sound(x, s) && Enabled(x, s, Start(w, suffix)) && |s.commands| == |s.world.runs|
    requires P.NoCollision(JobsOf(Started(x, s, w, suffix).world))
    ensures Sound(x, Started(x, s, w, suffix))
  {
    if !s.queue.cancelled {
      BeginRun(x, s.world, P.JobOf(x.platform, s.taken[w], suffix));
    }
    hide P.Inv, P.JobOf, P.NoCollision, P.Matches, Q.Apply, Q.Enabled, FreshName;
  }

  /** Completing is publishing the commanded bytes. */
  lemma MovePublishes(x: Setup, s: State, r: nat, move: P.Move)
    requires P.Inv(x.sha, s.world) && P.Enabled(s.world, P.Step(r, move))
    ensures
      var t := Moved(x, s, r, move);
      && P.Inv(x.sha, t.world)
      && (P.Completed in t.world.runs[r].sent && P.Completed !in s.world.runs[r].sent ==>
            r in t.published && P.Matches(x.sha, t.world.runs[r].job, t.published[r]))
      && (P.Completed in s.world.runs[r].sent ==> t.published == s.published)
  {
    P.ApplyKeepsInv(x.sha, s.world, P.Step(r, move));
    assert P.RunInv(x.sha, s.world.files, s.world.runs[r]);
  }

  lemma MoveKeepsSound(x: Setup, s: State, r: nat, move: P.Move)
    requires Sound(x, s) && P.Enabled(s.world, P.Step(r, move))
    ensures Sound(x, Moved(x, s, r, move))
  {
    MoveTouches(x, s, r, move);
    MovePublishes(x, s, r, move);
    hide Moved, P.Inv, P.Matches, P.Enabled;
  }

  lemma OthersKeepSound(x: Setup, s: State, a: Action)
    requires Sound(x, s) && Enabled(x, s, a) && !a.Start? && !a.Move?
    ensures Sound(x, Apply(x, s, a))
  {
    hide P.Inv, P.Matches, Q.Apply, Q.Submit, Q.Enabled, P.Enabled;
    assert Apply(x, s, a).world == s.world;
  }

  lemma ApplyKeepsSound(x: Setup, s: State, a: Action)
    requires Traced(x, s) && Sound(x, s) && Enabled(x, s, a)
    requires P.NoTempForm(x.platform, Apply(x, s, a).accepted)
    ensures Sound(x, Apply(x, s, a))
  {
    ApplyKeepsTraced(x, s, a);
    TracedDoNotCollide(x, Apply(x, s, a));
    assert |s.commands| == |s.world.runs|;
    hide Traced, Sound, P.NoCollision, P.NoTempForm, Q.Apply, Q.Submit, Q.Enabled, P.JobOf, FreshName;
    match a
    case Start(w, suffix) =>
      hide Started;
      StartKeepsSound(x, s, w, suffix);
    case Move(w, move) =>
      hide Moved;
      MoveKeepsSound(x, s, s.doing[w], move);
    case _ => OthersKeepSound(x, s, a);
  }

  lemma InitSound(x: Setup, queueSize: nat, workers: nat, files: P.Files)
    ensures Sound(x, Init(queueSize, workers, files))
  {}

  lemma AcceptedGrows(x: Setup, s: State, a: Action)
    requires Enabled(x, s, a)
    ensures s.accepted <= Apply(x, s, a).accepted
  {
    hide Q.Apply, Q.Submit, P.Apply, P.JobOf;
  }

  lemma FewerCommands(x: Setup, some: seq<P.Command>, more: seq<P.Command>)
    requires some <= more && P.NoTempForm(x.platform, more)
    ensures P.NoTempForm(x.platform, some)
  {
    assert forall c :: c in some ==> c in more;
  }

  lemma {:induction false} ExecuteKeepsSound(x: Setup, queueSize: nat, workers: nat, files: P.Files,
                                             actions: seq<Action>)
    requires P.NoTempForm(x.platform, Execute(x, Init(queueSize, workers, files), actions).accepted)
    ensures Sound(x, Execute(x, Init(queueSize, workers, files), actions))
  {
    hide Traced, Sound, CacheBacked, Apply, Enabled, P.NoTempForm;
    if actions == [] {
      InitSound(x, queueSize, workers, files);
    } else {
      var init, a := actions[..|actions| - 1], actions[|actions| - 1];
      var s := Execute(x, Init(queueSize, workers, files), init);
      ExecuteKeepsBacked(x, queueSize, workers, files, init);
      if Enabled(x, s, a) {
        AcceptedGrows(x, s, a);
        FewerCommands(x, s.accepted, Apply(x, s, a).accepted);
        ExecuteKeepsSound(x, queueSize, workers, files, init);
        ApplyKeepsSound(x, s, a);
      } else {
        ExecuteKeepsSound(x, queueSize, workers, files, init);
      }
    }
  }

  // -------------------------------------------------------------------- theorems

  /** A run of an accepted command of this attempt that has sent COMPLETED, with this report. */
  ghost predicate ReportedRun(x: Setup, s: State, r: nat, key: Q.Key, result: string) {
    && r < |s.world.runs| && r < |s.commands| && CompletedRun(x, s, r, key, result)
    && s.commands[r] in s.accepted
    && s.world.runs[r].job.dest == P.PlaceOf(x.platform, s.commands[r].directory, s.commands[r].filename)
  }

  /** What a run published, and where, is what a command asks for. */
  ghost predicate Fits(x: Setup, s: State, r: nat, c: P.Command)
    requires r < |s.world.runs|
  {
    && r in s.published && |s.published[r]| == c.size && x.sha(s.published[r]) == c.hash
    && s.world.runs[r].job.dest == P.PlaceOf(x.platform, c.directory, c.filename)
  }

  /** Two commands ask for the same bytes at the same place. */
  predicate Agree(x: Setup, c: P.Command, d: P.Command) {
    && c.size == d.size && c.hash == d.hash
    && P.PlaceOf(x.platform, c.directory, c.filename) == P.PlaceOf(x.platform, d.directory, d.filename)
  }

  lemma RunIsOfCommand(x: Setup, job: P.Job, c: P.Command)
    requires Runs(x, job, c)
    ensures job.size == c.size && job.hash == c.hash
    ensures job.dest == P.PlaceOf(x.platform, c.directory, c.filename)
  {}

  lemma CompletedRunFits(x: Setup, s: State, r: nat, c: P.Command)
    requires Traced(x, s) && Sound(x, s) && r < |s.world.runs| && P.Completed in s.world.runs[r].sent
    ensures Fits(x, s, r, s.commands[r]) && (Fits(x, s, r, c) <==> Agree(x, c, s.commands[r]))
  {
    hide P.Inv, P.PlaceOf;
    assert Runs(x, s.world.runs[r].job, s.commands[r]);
    hide Traced, Runs;
    RunIsOfCommand(x, s.world.runs[r].job, s.commands[r]);
  }

  /** A repeated answer is honest. In every interleaving it is the report of a completed run
      of an accepted command of the same attempt. When no accepted command has the form of
      another's temporary names, that run published, where its command said, bytes of the
      commanded size and hash; and this is what the asking command wants if and only if the
      two commands agree in size, hash and destination, which an attempt key does not ensure. */
  lemma RepeatedAnswersAreHonest(x: Setup, queueSize: nat, workers: nat, files: P.Files, actions: seq<Action>,
                                 c: P.Command)
    ensures
      var s := Execute(x, Init(queueSize, workers, files), actions);
      var reply := Q.Submit(s.queue, x.key(c)).1;
      reply.Repeated? ==>
        exists r: nat :: ReportedRun(x, s, r, x.key(c), reply.result)
          && (P.NoTempForm(x.platform, s.accepted) ==>
                Fits(x, s, r, s.commands[r]) && (Fits(x, s, r, c) <==> Agree(x, c, s.commands[r])))
  {
    ExecuteKeepsBacked(x, queueSize, workers, files, actions);
    var s := Execute(x, Init(queueSize, workers, files), actions);
    hide Execute, Sound, Fits, Agree, P.NoTempForm, P.PlaceOf;
    if Q.Submit(s.queue, x.key(c)).1.Repeated? {
      var result := s.queue.completed[x.key(c)];
      assert Backed(x, s, x.key(c), result);
      var r :| 0 <= r < |s.world.runs| && CompletedRun(x, s, r, x.key(c), result);
      assert Runs(x, s.world.runs[r].job, s.commands[r]);
      hide Runs;
      RunIsOfCommand(x, s.world.runs[r].job, s.commands[r]);
      assert ReportedRun(x, s, r, x.key(c), result);
      if P.NoTempForm(x.platform, s.accepted) {
        ExecuteKeepsSound(x, queueSize, workers, files, actions);
        CompletedRunFits(x, s, r, c);
      }
    }
  }
}
