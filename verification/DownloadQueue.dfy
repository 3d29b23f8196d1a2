/** The download manager as interleaved critical sections: submitters, a bounded
    queue, workers, the active table and the cache of completed attempts. */
module DownloadQueue {
  import opened Common

  const CACHE_SIZE := 128

  /** An attempt key: the job identifier and a hash of its URL. */
  type Key = string

  datatype Worker =
    | Idle
    | Taken(key: Key)       // received from the queue, cancellation not yet looked at
    | Running(key: Key)     // inside run
    | Finishing(key: Key)   // run is over or was skipped; finish comes next
    | Exited
  {
    predicate Holds(k: Key) {
      !Idle? && !Exited? && key == k
    }
  }

  datatype State = State(
    active: map<Key, string>,
    completed: map<Key, string>,
    completedOrder: seq<Key>,
    jobs: seq<Key>,
    queueSize: nat,
    closed: bool,          // Manager.closed, set under the lock
    chanClosed: bool,      // close(jobs) has run
    cancelled: bool,       // the manager's context
    panicked: bool,        // a send on, or a second close of, the closed channel
    workers: seq<Worker>,
    window: multiset<Key>, // submitters between the unlock of a full queue and finish
    history: seq<Key>)     // every completion so far, in order

  function Init(queueSize: nat, workers: nat): State {
    State(map[], map[], [], [], queueSize, false, false, false, false, seq(workers, _ => Idle), multiset{}, [])
  }

  datatype Reply = Dropped | Repeated(result: string) | Progressing(status: string) | Queued | Full

  datatype Action =
    | SubmitLocked(key: Key)
    | SubmitFinish(key: Key)
    | Take(w: nat)
    | CheckCancelled(w: nat)
    | SetStatus(w: nat, status: string)
    | Fail(w: nat)
    | Remember(w: nat, result: string)
    | Finish(w: nat)
    | Exit(w: nat)
    | CloseLocked

  // --------------------------------------------------------- critical sections

  function Submit(s: State, key: Key): (State, Reply) {
    if s.closed then (s, Dropped)
    else if key in s.completed then (s, Repeated(s.completed[key]))
    else if key in s.active then (s, Progressing(s.active[key]))
    else
      var t := s.(active := s.active[key := "QUEUED"]);
      if s.chanClosed then (t.(panicked := true), Queued)
      else if |s.jobs| < s.queueSize then (t.(jobs := s.jobs + [key]), Queued)
      else (t.(window := s.window + multiset{key}), Full)
  }

  function Forget(s: State, key: Key): State {
    s.(active := s.active - {key})
  }

  function Record(s: State, key: Key, result: string): State {
    var (order, cache) := Cached(s.completedOrder, s.completed, key, result);
    s.(completedOrder := order, completed := cache, history := s.history + [key])
  }

  function Cached(order: seq<Key>, cache: map<Key, string>, key: Key, result: string)
    : (seq<Key>, map<Key, string>)
  {
    var longer := if key in cache then order else order + [key];
    if |longer| > CACHE_SIZE then (longer[1..], cache[key := result] - {longer[0]})
    else (longer, cache[key := result])
  }

  function Shut(s: State): State {
    if s.closed then s
    else s.(closed := true, cancelled := true, chanClosed := true, panicked := s.panicked || s.chanClosed)
  }

  predicate Enabled(s: State, a: Action) {
    match a
    case SubmitLocked(_) => true
    case CloseLocked => true
    case SubmitFinish(key) => key in s.window
    case Take(w) => w < |s.workers| && s.workers[w].Idle? && s.jobs != []
    case CheckCancelled(w) => w < |s.workers| && s.workers[w].Taken?
    case SetStatus(w, _) => w < |s.workers| && s.workers[w].Running?
    case Fail(w) => w < |s.workers| && s.workers[w].Running?
    case Remember(w, _) => w < |s.workers| && s.workers[w].Running?
    case Finish(w) => w < |s.workers| && s.workers[w].Finishing?
    case Exit(w) => w < |s.workers| && s.workers[w].Idle? && s.jobs == [] && s.chanClosed
  }

  function Apply(s: State, a: Action): State
    requires Enabled(s, a)
  {
    match a
    case SubmitLocked(key) => Submit(s, key).0
    case SubmitFinish(key) => Forget(s, key).(window := s.window - multiset{key})
    case Take(w) => s.(jobs := s.jobs[1..], workers := s.workers[w := Taken(s.jobs[0])])
    case CheckCancelled(w) =>
      var key := s.workers[w].key;
      s.(workers := s.workers[w := if s.cancelled then Finishing(key) else Running(key)])
    case SetStatus(w, status) => s.(active := s.active[s.workers[w].key := status])
    case Fail(w) => s.(workers := s.workers[w := Finishing(s.workers[w].key)])
    case Remember(w, result) =>
      var key := s.workers[w].key;
      Record(s, key, result).(workers := s.workers[w := Finishing(key)])
    case Finish(w) => Forget(s, s.workers[w].key).(workers := s.workers[w := Idle])
    case Exit(w) => s.(workers := s.workers[w := Exited])
    case CloseLocked => Shut(s)
  }

  /** Any interleaving: actions that are not possible where they stand are skipped. */
  function Execute(start: State, actions: seq<Action>): State {
    if actions == [] then start else
    var s := Execute(start, actions[..|actions| - 1]);
    var a := actions[|actions| - 1];
    if Enabled(s, a) then Apply(s, a) else s
  }

  // ---------------------------------------------------------------- invariants

  /** How many workers hold a key. */
  function HeldCount(workers: seq<Worker>, key: Key): nat {
    if workers == [] then 0 else
    HeldCount(workers[..|workers| - 1], key) + if workers[|workers| - 1].Holds(key) then 1 else 0
  }

  /** How many parties will call finish for a key: queue entries, workers, and
      submitters that met a full queue. */
  function HolderCount(s: State, key: Key): nat {
    multiset(s.jobs)[key] + HeldCount(s.workers, key) + s.window[key]
  }

  /** The end of the completion history the cache remembers. */
  function Recent(history: seq<Key>): seq<Key> {
    if |history| <= CACHE_SIZE then history else history[|history| - CACHE_SIZE..]
  }

  ghost predicate SpacedOut(history: seq<Key>) {
    forall i, j :: 0 <= i < j < |history| && j - i <= CACHE_SIZE ==> history[i] != history[j]
  }

  /** Each active key has exactly one holder, and only active keys are held. */
  ghost predicate HoldInv(s: State) {
    forall key :: HolderCount(s, key) == if key in s.active then 1 else 0
  }

  /** The two structures of the cache agree and hold the recent completions. */
  ghost predicate CacheInv(s: State) {
    && s.completedOrder == Recent(s.history)
    && s.completed.Keys == Elements(s.completedOrder)
    && SpacedOut(s.history)
  }

  /** A key that is held and has not just completed is not in the cache. */
  ghost predicate FreshInv(s: State) {
    && (forall key :: key in s.jobs || key in s.window ==> key !in s.completed)
    && (forall w :: 0 <= w < |s.workers| && (s.workers[w].Taken? || s.workers[w].Running?) ==>
          s.workers[w].key !in s.completed)
  }

  ghost predicate ShutInv(s: State) {
    && !s.panicked && s.chanClosed == s.closed && s.cancelled == s.closed
    && (forall w :: 0 <= w < |s.workers| && s.workers[w].Exited? ==> s.closed && s.jobs == [])
    && |s.jobs| <= s.queueSize
  }

  ghost predicate Inv(s: State) {
    HoldInv(s) && CacheInv(s) && FreshInv(s) && ShutInv(s)
  }

  // --------------------------------------------------------- one holder per key

  lemma {:induction false} HeldUpdate(workers: seq<Worker>, w: nat, worker: Worker, key: Key)
    requires w < |workers|
    ensures HeldCount(workers, key) >= if workers[w].Holds(key) then 1 else 0
    ensures HeldCount(workers[w := worker], key)
         == HeldCount(workers, key) - (if workers[w].Holds(key) then 1 else 0) + (if worker.Holds(key) then 1 else 0)
  {
    hide Worker.Holds;
    var last := |workers| - 1;
    var rest, changed := workers[..last], workers[w := worker];
    if w == last {
      assert changed[..last] == rest;
    } else {
      HeldUpdate(rest, w, worker, key);
      assert changed[..last] == rest[w := worker];
    }
  }

  lemma {:induction false} IdleHoldNothing(workers: seq<Worker>, key: Key)
    requires forall w :: 0 <= w < |workers| ==> !workers[w].Holds(key)
    ensures HeldCount(workers, key) == 0
  {
    hide Worker.Holds;
    if workers != [] {
      IdleHoldNothing(workers[..|workers| - 1], key);
    }
  }

  lemma {:induction false} TwoWorkersHold(workers: seq<Worker>, w: nat, v: nat, key: Key)
    requires w < v < |workers| && workers[w].Holds(key) && workers[v].Holds(key)
    ensures HeldCount(workers, key) >= 2
  {
    hide Worker.Holds;
    var last := |workers| - 1;
    if v == last {
      HeldUpdate(workers[..last], w, Idle, key);
    } else {
      TwoWorkersHold(workers[..last], w, v, key);
    }
  }

  /** What a worker holds is active, and held by nobody else. */
  lemma WorkerKeyExclusive(s: State, w: nat, key: Key)
    requires HoldInv(s) && w < |s.workers| && s.workers[w].Holds(key)
    ensures key in s.active && key !in s.jobs && key !in s.window
    ensures forall v :: 0 <= v < |s.workers| && v != w ==> !s.workers[v].Holds(key)
  {
    hide HeldCount, Worker.Holds;
    HeldUpdate(s.workers, w, Idle, key);
    assert HolderCount(s, key) == 1;
    assert multiset(s.jobs)[key] == 0;
    forall v | 0 <= v < |s.workers| && v != w ensures !s.workers[v].Holds(key) {
      if s.workers[v].Holds(key) {
        TwoWorkersHold(s.workers, if w < v then w else v, if w < v then v else w, key);
      }
    }
  }

  lemma SubmitKeepsHoldInv(s: State, key: Key)
    requires HoldInv(s) && ShutInv(s)
    ensures HoldInv(Submit(s, key).0)
  {
    hide HeldCount;
    var t := Submit(s, key).0;
    forall k ensures HolderCount(t, k) == if k in t.active then 1 else 0 {
      assert HolderCount(s, k) == if k in s.active then 1 else 0;
    }
  }

  /** Finishing, by a worker or by a submitter that met a full queue, drops the
      key and its only holder together. */
  lemma FinishKeepsHoldInv(s: State, a: Action)
    requires HoldInv(s) && Enabled(s, a)
    requires a.Finish? || a.SubmitFinish?
    ensures HoldInv(Apply(s, a))
  {
    hide HeldCount;
    var t := Apply(s, a);
    var key := if a.Finish? then s.workers[a.w].key else a.key;
    forall k ensures HolderCount(t, k) == if k in t.active then 1 else 0 {
      assert HolderCount(s, k) == if k in s.active then 1 else 0;
      if a.Finish? {
        HeldUpdate(s.workers, a.w, Idle, k);
      }
    }
  }

  lemma TakeKeepsHoldInv(s: State, w: nat)
    requires HoldInv(s) && Enabled(s, Take(w))
    ensures HoldInv(Apply(s, Take(w)))
  {
    hide HeldCount;
    var t := Apply(s, Take(w));
    assert s.jobs == [s.jobs[0]] + t.jobs;
    forall k ensures HolderCount(t, k) == if k in t.active then 1 else 0 {
      assert HolderCount(s, k) == if k in s.active then 1 else 0;
      HeldUpdate(s.workers, w, t.workers[w], k);
    }
  }

  /** Steps that move a worker along without touching what it holds. */
  lemma AdvanceKeepsHoldInv(s: State, a: Action)
    requires HoldInv(s) && Enabled(s, a)
    requires a.CheckCancelled? || a.SetStatus? || a.Fail? || a.Remember? || a.Exit?
    ensures HoldInv(Apply(s, a))
  {
    hide HeldCount, Record;
    var t := Apply(s, a);
    if a.SetStatus? {
      WorkerKeyExclusive(s, a.w, s.workers[a.w].key);
    } else if a.Remember? {
      RecordTouchesCacheOnly(s, s.workers[a.w].key, a.result);
    }
    forall k ensures HolderCount(t, k) == if k in t.active then 1 else 0 {
      assert HolderCount(s, k) == if k in s.active then 1 else 0;
      HeldUpdate(s.workers, a.w, t.workers[a.w], k);
    }
  }

  lemma ApplyKeepsHoldInv(s: State, a: Action)
    requires HoldInv(s) && ShutInv(s) && Enabled(s, a)
    ensures HoldInv(Apply(s, a))
  {
    hide HolderCount, Record, Submit, Forget;
    match a
    case SubmitLocked(key) => SubmitKeepsHoldInv(s, key);
    case SubmitFinish(key) => FinishKeepsHoldInv(s, a);
    case Finish(w) => FinishKeepsHoldInv(s, a);
    case Take(w) => TakeKeepsHoldInv(s, w);
    case CloseLocked => CloseKeepsHoldInv(s);
    case _ => AdvanceKeepsHoldInv(s, a);
  }

  lemma CloseKeepsHoldInv(s: State)
    requires HoldInv(s)
    ensures HoldInv(Shut(s))
  {
    hide HeldCount;
    forall k ensures HolderCount(Shut(s), k) == HolderCount(s, k) {}
  }

  lemma RecordTouchesCacheOnly(s: State, key: Key, result: string)
    ensures
      var t := Record(s, key, result);
      && t.active == s.active && t.jobs == s.jobs && t.workers == s.workers && t.window == s.window
      && t.queueSize == s.queueSize && t.panicked == s.panicked
      && t.closed == s.closed && t.chanClosed == s.chanClosed && t.cancelled == s.cancelled
  {
    hide Cached;
  }

  // ------------------------------------------------------------------ the cache

  lemma RecentGrows(history: seq<Key>, key: Key)
    ensures
      var order := Recent(history) + [key];
      Recent(history + [key]) == if |order| > CACHE_SIZE then order[1..] else order
  {}

  lemma SpacedOutGrows(history: seq<Key>, key: Key)
    requires SpacedOut(history)
    requires key !in Recent(history)
    ensures SpacedOut(history + [key])
  {
    var longer := history + [key];
    forall i, j | 0 <= i < j < |longer| && j - i <= CACHE_SIZE ensures longer[i] != longer[j] {
      if j == |history| {
        var recent := Recent(history);
        assert history[i] == recent[|recent| - (|history| - i)];
      }
    }
  }

  lemma RecentDistinct(history: seq<Key>)
    requires SpacedOut(history)
    ensures Distinct(Recent(history))
  {
    var recent := Recent(history);
    var from := |history| - |recent|;
    forall i, j | 0 <= i < j < |recent| ensures recent[i] != recent[j] {
      assert history[from + i] != history[from + j];
    }
  }

  lemma ElementsGrow(s: seq<Key>, key: Key)
    ensures Elements(s + [key]) == Elements(s) + {key}
  {}

  lemma NotAnElement(s: seq<Key>, key: Key)
    ensures key in s <==> key in Elements(s)
  {}

  lemma ElementsDrop(s: seq<Key>)
    requires s != [] && Distinct(s)
    ensures Elements(s[1..]) == Elements(s) - {s[0]}
  {
    assert s == [s[0]] + s[1..];
  }

  /** Recording a key that is not cached slides the cache one completion on. */
  lemma RecordSlides(s: State, key: Key, result: string)
    requires CacheInv(s) && key !in s.completed
    ensures CacheInv(Record(s, key, result))
    ensures Record(s, key, result).completed.Keys <= s.completed.Keys + {key}
  {
    hide Recent, SpacedOut, Elements;
    var order := s.completedOrder + [key];
    NotAnElement(s.completedOrder, key);
    RecentGrows(s.history, key);
    SpacedOutGrows(s.history, key);
    ElementsGrow(s.completedOrder, key);
    if |order| > CACHE_SIZE {
      RecentDistinct(s.history);
      ElementsDrop(order);
    }
  }

  lemma ApplyKeepsCacheInv(s: State, a: Action)
    requires HoldInv(s) && CacheInv(s) && FreshInv(s) && Enabled(s, a)
    ensures CacheInv(Apply(s, a))
  {
    hide HolderCount, Recent, SpacedOut, Record;
    if a.Remember? {
      RecordSlides(s, s.workers[a.w].key, a.result);
    }
  }

  lemma RememberKeepsFreshInv(s: State, w: nat, result: string)
    requires HoldInv(s) && CacheInv(s) && FreshInv(s) && Enabled(s, Remember(w, result))
    ensures FreshInv(Apply(s, Remember(w, result)))
  {
    hide HoldInv, CacheInv, Record;
    var key := s.workers[w].key;
    WorkerKeyExclusive(s, w, key);
    RecordSlides(s, key, result);
    RecordTouchesCacheOnly(s, key, result);
  }

  lemma ApplyKeepsFreshInv(s: State, a: Action)
    requires HoldInv(s) && CacheInv(s) && FreshInv(s) && Enabled(s, a)
    ensures FreshInv(Apply(s, a))
  {
    hide HoldInv, CacheInv, Record;
    if a.Remember? {
      RememberKeepsFreshInv(s, a.w, a.result);
    }
  }

  lemma ApplyKeepsShutInv(s: State, a: Action)
    requires ShutInv(s) && Enabled(s, a)
    ensures ShutInv(Apply(s, a))
  {
    hide Record;
    if a.Remember? {
      RecordTouchesCacheOnly(s, s.workers[a.w].key, a.result);
    }
  }

  lemma InitInv(queueSize: nat, workers: nat)
    ensures Inv(Init(queueSize, workers))
  {
    var s := Init(queueSize, workers);
    forall key ensures HolderCount(s, key) == 0 {
      IdleHoldNothing(s.workers, key);
    }
  }

  lemma ApplyKeepsInv(s: State, a: Action)
    requires Inv(s) && Enabled(s, a)
    ensures Inv(Apply(s, a))
  {
    hide HoldInv, CacheInv, FreshInv, ShutInv, Enabled, Apply;
    ApplyKeepsHoldInv(s, a);
    ApplyKeepsCacheInv(s, a);
    ApplyKeepsFreshInv(s, a);
    ApplyKeepsShutInv(s, a);
  }

  lemma {:induction false} ExecuteKeepsInv(start: State, actions: seq<Action>)
    requires Inv(start)
    ensures Inv(Execute(start, actions))
  {
    hide Inv, Enabled, Apply;
    if actions != [] {
      var init := actions[..|actions| - 1];
      ExecuteKeepsInv(start, init);
      var s, a := Execute(start, init), actions[|actions| - 1];
      if Enabled(s, a) {
        ApplyKeepsInv(s, a);
      }
    }
  }

  // ------------------------------------------------------------------- theorems

  /** Single flight: over every interleaving each active key has exactly one
      holder, so no two workers ever run the same key. */
  lemma SingleFlight(queueSize: nat, workers: nat, actions: seq<Action>)
    ensures
      var s := Execute(Init(queueSize, workers), actions);
      && (forall key :: HolderCount(s, key) == if key in s.active then 1 else 0)
      && (forall v, w :: 0 <= v < w < |s.workers| && s.workers[v].Running? && s.workers[w].Running? ==>
            s.workers[v].key != s.workers[w].key)
  {
    hide CacheInv, FreshInv, ShutInv, HolderCount;
    InitInv(queueSize, workers);
    ExecuteKeepsInv(Init(queueSize, workers), actions);
    var s := Execute(Init(queueSize, workers), actions);
    forall v, w | 0 <= v < w < |s.workers| && s.workers[v].Running? && s.workers[w].Running?
      ensures s.workers[v].key != s.workers[w].key
    {
      WorkerKeyExclusive(s, v, s.workers[v].key);
    }
  }

  /** The cache: its order is duplicate-free, names exactly the cached keys, and
      never exceeds its bound. */
  lemma CacheAgrees(queueSize: nat, workers: nat, actions: seq<Action>)
    ensures
      var s := Execute(Init(queueSize, workers), actions);
      && Distinct(s.completedOrder)
      && s.completed.Keys == Elements(s.completedOrder)
      && |s.completed| == |s.completedOrder| <= CACHE_SIZE
  {
    InitInv(queueSize, workers);
    ExecuteKeepsInv(Init(queueSize, workers), actions);
    var s := Execute(Init(queueSize, workers), actions);
    RecentDistinct(s.history);
    DistinctCardinality(s.completedOrder);
  }

  /** The cache horizon: between two completions of one attempt key at least
      128 other keys complete. */
  lemma CacheHorizon(queueSize: nat, workers: nat, actions: seq<Action>, i: nat, j: nat)
    requires
      var history := Execute(Init(queueSize, workers), actions).history;
      i < j < |history| && history[i] == history[j]
    ensures
      var history := Execute(Init(queueSize, workers), actions).history;
      var between := Elements(history[i + 1..j]);
      |between - {history[j]}| >= CACHE_SIZE
  {
    InitInv(queueSize, workers);
    ExecuteKeepsInv(Init(queueSize, workers), actions);
    hide HoldInv, FreshInv, ShutInv, Execute;
    SpacedHorizon(Execute(Init(queueSize, workers), actions).history, i, j);
  }

  lemma SpacedHorizon(history: seq<Key>, i: nat, j: nat)
    requires SpacedOut(history) && i < j < |history| && history[i] == history[j]
    ensures |Elements(history[i + 1..j]) - {history[j]}| >= CACHE_SIZE
  {
    assert j - i > CACHE_SIZE;
    var last := history[j - CACHE_SIZE..j];
    assert Distinct(last) by {
      assert forall k :: 0 <= k < CACHE_SIZE ==> last[k] == history[j - CACHE_SIZE + k];
    }
    DistinctCardinality(last);
    var others := Elements(history[i + 1..j]) - {history[j]};
    forall key | key in Elements(last) ensures key in others {
      var k :| 0 <= k < |last| && last[k] == key;
      assert history[i + 1..j][j - CACHE_SIZE + k - (i + 1)] == key;
      assert history[j - CACHE_SIZE + k] != history[j];
    }
    SubsetCardinality(Elements(last), others);
  }

  ghost predicate AllExited(s: State) {
    s.closed && forall w :: 0 <= w < |s.workers| ==> s.workers[w].Exited?
  }

  /** The closed channel is never sent on or closed again, in any interleaving. */
  lemma NeverPanics(queueSize: nat, workers: nat, actions: seq<Action>)
    ensures !Execute(Init(queueSize, workers), actions).panicked
  {
    InitInv(queueSize, workers);
    ExecuteKeepsInv(Init(queueSize, workers), actions);
  }

  /** After Close has joined the workers: the queue is empty, nothing starts or
      completes in any continuation, and once the submitters that met a full
      queue have returned no key is active. */
  lemma {:induction false} NothingAfterClose(queueSize: nat, workers: nat, actions: seq<Action>, more: seq<Action>)
    requires workers > 0
    requires AllExited(Execute(Init(queueSize, workers), actions))
    ensures
      var s := Execute(Init(queueSize, workers), actions);
      var t := Execute(s, more);
      && AllExited(t) && |t.workers| == |s.workers| && t.jobs == [] && t.history == s.history
      && t.window <= s.window
      && (t.window == multiset{} ==> t.active == map[])
  {
    hide CacheInv, FreshInv, HoldInv, Apply, Enabled;
    InitInv(queueSize, workers);
    ExecuteKeepsInv(Init(queueSize, workers), actions);
    var s := Execute(Init(queueSize, workers), actions);
    WorkersStay(Init(queueSize, workers), actions);
    assert s.workers[0].Exited?;
    ExecuteKeepsInv(s, more);
    if more != [] {
      var init, last := more[..|more| - 1], more[|more| - 1];
      NothingAfterClose(queueSize, workers, actions, init);
      ExecuteKeepsInv(s, init);
      if Enabled(Execute(s, init), last) {
        StepAfterClose(Execute(s, init), last);
      }
    }
    var t := Execute(s, more);
    if t.window == multiset{} {
      NoHoldersNoActive(t);
    }
  }

  lemma StepAfterClose(s: State, a: Action)
    requires ShutInv(s) && AllExited(s) && s.workers != [] && s.jobs == [] && Enabled(s, a)
    ensures
      var t := Apply(s, a);
      AllExited(t) && |t.workers| == |s.workers| && t.jobs == [] && t.history == s.history && t.window <= s.window
  {
    hide Record;
    assert s.workers[0].Exited?;
  }

  lemma NoHoldersNoActive(s: State)
    requires HoldInv(s) && AllExited(s) && s.jobs == [] && s.window == multiset{}
    ensures s.active == map[]
  {
    forall key ensures key !in s.active {
      IdleHoldNothing(s.workers, key);
      assert HolderCount(s, key) == 0;
    }
  }

  lemma {:induction false} WorkersStay(start: State, actions: seq<Action>)
    ensures |Execute(start, actions).workers| == |start.workers|
  {
    hide Apply, Enabled;
    if actions != [] {
      var init, last := actions[..|actions| - 1], actions[|actions| - 1];
      WorkersStay(start, init);
      if Enabled(Execute(start, init), last) {
        ApplyKeepsWorkers(Execute(start, init), last);
      }
    }
  }

  lemma ApplyKeepsWorkers(s: State, a: Action)
    requires Enabled(s, a)
    ensures |Apply(s, a).workers| == |s.workers|
  {
    hide Record;
  }

  // ------------------------------------------------------- Close does not hang

  function Left(worker: Worker): nat {
    match worker
    case Idle => 1
    case Taken(_) => 4
    case Running(_) => 3
    case Finishing(_) => 2
    case Exited => 0
  }

  function LeftIn(workers: seq<Worker>): nat {
    if workers == [] then 0 else LeftIn(workers[..|workers| - 1]) + Left(workers[|workers| - 1])
  }

  /** Worker steps still to come once nothing is submitted any more. */
  function Work(s: State): nat {
    4 * |s.jobs| + LeftIn(s.workers)
  }

  lemma {:induction false} LeftUpdate(workers: seq<Worker>, w: nat, worker: Worker)
    requires w < |workers|
    ensures LeftIn(workers[w := worker]) == LeftIn(workers) - Left(workers[w]) + Left(worker)
  {
    hide Left;
    var last := |workers| - 1;
    if w == last {
      assert workers[w := worker][..last] == workers[..last];
    } else {
      LeftUpdate(workers[..last], w, worker);
      assert workers[w := worker][..last] == workers[..last][w := worker];
    }
  }

  predicate IsWork(a: Action) {
    a.Take? || a.CheckCancelled? || a.Fail? || a.Remember? || a.Finish? || a.Exit?
  }

  /** Waiting for the workers cannot hang: while one of them has not exited some
      worker step is possible, every such step uses up work, and no other step
      of a closed manager adds any. */
  lemma CloseMakesProgress(s: State)
    requires Inv(s) && s.closed
    ensures !AllExited(s) ==> exists a :: Enabled(s, a) && IsWork(a)
    ensures forall a :: Enabled(s, a) ==>
              if IsWork(a) then Work(Apply(s, a)) < Work(s) else Work(Apply(s, a)) == Work(s)
  {
    hide HoldInv, CacheInv, FreshInv;
    if !AllExited(s) {
      var w :| 0 <= w < |s.workers| && !s.workers[w].Exited?;
      var a := if s.workers[w].Idle? then (if s.jobs != [] then Take(w) else Exit(w))
               else if s.workers[w].Taken? then CheckCancelled(w)
               else if s.workers[w].Running? then Fail(w)
               else Finish(w);
      assert Enabled(s, a) && IsWork(a);
    }
    forall a | Enabled(s, a)
      ensures if IsWork(a) then Work(Apply(s, a)) < Work(s) else Work(Apply(s, a)) == Work(s)
    {
      WorkUsed(s, a);
    }
  }

  lemma WorkUsed(s: State, a: Action)
    requires s.closed && Enabled(s, a)
    ensures if IsWork(a) then Work(Apply(s, a)) < Work(s) else Work(Apply(s, a)) == Work(s)
  {
    hide Record, LeftIn;
    var t := Apply(s, a);
    if IsWork(a) {
      LeftUpdate(s.workers, a.w, t.workers[a.w]);
      if a.Remember? {
        RecordTouchesCacheOnly(s, s.workers[a.w].key, a.result);
      }
    }
  }
}
