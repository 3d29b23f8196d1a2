/** The service host's event loop, and the sequence of states it reports to the
    service control manager. */
module ServiceHost {
  import opened Common

  datatype ServiceState = StartPending | Running | StopPending

  datatype Status = Status(state: ServiceState, checkPoint: nat)

  datatype Command = Interrogate | Stop | Shutdown | Other

  datatype Event =
    | Ready
    | Request(command: Command)
    | RequestsClosed
    | StartupDeadline
    | Tick
    | RuntimeDone(failed: bool)
    | StopDeadline

  datatype Exit = Exit(serviceSpecific: bool, code: nat)

  datatype Host = Host(
    status: Status,
    stopping: bool,
    ready: bool,      // the ready channel is still being listened to
    requests: bool,   // the request channel is still being listened to
    startup: bool,    // the startup timer can still fire
    stopTimer: bool,  // the stop timer can still fire
    stops: nat,       // how often a stop was begun and the runtime cancelled
    exit: Option<Exit>)

  const FIRST := Status(StartPending, 1)
  const INIT := Host(FIRST, false, true, true, true, false, 0, None)

  /** Which cases of the select can fire. */
  predicate Enabled(h: Host, e: Event) {
    h.exit.None? &&
    match e
    case Ready => h.ready
    case Request(_) => h.requests
    case RequestsClosed => h.requests
    case StartupDeadline => h.startup
    case Tick => true
    case RuntimeDone(_) => true
    case StopDeadline => h.stopTimer
  }

  function StopBegun(h: Host): (Host, seq<Status>) {
    if h.stopping then (h, []) else
    var status := Status(StopPending, 1);
    (h.(status := status, stopping := true, stopTimer := true, stops := h.stops + 1), [status])
  }

  /** One turn of the loop, with the statuses it reports. */
  function Turn(h: Host, e: Event): (Host, seq<Status>)
    requires Enabled(h, e)
  {
    match e
    case Ready =>
      var g := h.(ready := false, startup := false);
      if h.stopping then (g, []) else (g.(status := Status(Running, 0)), [Status(Running, 0)])
    case Request(command) =>
      if command.Interrogate? then (h, [h.status])
      else if command.Stop? || command.Shutdown? then StopBegun(h)
      else (h, [])
    case RequestsClosed => var (g, out) := StopBegun(h); (g.(requests := false), out)
    case StartupDeadline => StopBegun(h.(startup := false))
    case Tick =>
      if h.status.state.Running? then (h, []) else
      var status := h.status.(checkPoint := h.status.checkPoint + 1);
      (h.(status := status), [status])
    case RuntimeDone(failed) => (h.(exit := Some(if failed then Exit(true, 1) else Exit(false, 0))), [])
    case StopDeadline => (h.(stopTimer := false, exit := Some(Exit(true, 2))), [])
  }

  /** Any ordering of events; those that cannot fire are passed over. */
  function Run(events: seq<Event>): (Host, seq<Status>) {
    if events == [] then (INIT, [FIRST]) else
    var (h, trace) := Run(events[..|events| - 1]);
    var e := events[|events| - 1];
    if !Enabled(h, e) then (h, trace) else
    var (g, out) := Turn(h, e);
    (g, trace + out)
  }

  /** Once the loop has returned, no event does anything. */
  lemma {:induction false} NothingAfterExit(events: seq<Event>, more: seq<Event>)
    requires Run(events).0.exit.Some?
    ensures Run(events + more) == Run(events)
  {
    if more == [] {
      assert events + more == events;
    } else {
      var init := more[..|more| - 1];
      NothingAfterExit(events, init);
      assert (events + more)[..|events + more| - 1] == events + init;
    }
  }

  /** The handler with the variables its loop updates. */
  class Handler {
    var status: Status
    var stopping: bool
    var ready: bool      // the ready channel, until it is set to nil
    var requests: bool   // the request channel, until it is set to nil
    var startup: bool    // the startup timer, until it fires or is stopped
    var stopTimer: bool  // the stop timer, once a stop has begun
    var reports: seq<Status>
    ghost var stops: nat

    ghost function Now(exit: Option<Exit>): Host
      reads this
    {
      Host(status, stopping, ready, requests, startup, stopTimer, stops, exit)
    }

    constructor ()
      ensures Now(None) == INIT && reports == [FIRST]
    {
      status, stopping, ready, requests, startup, stopTimer := Status(StartPending, 1), false, true, true, true, false;
      reports, stops := [Status(StartPending, 1)], 0;
    }

    method Report()
      modifies `reports
      ensures reports == old(reports) + [status]
    {
      reports := reports + [status];
    }

    method BeginStop()
      modifies this
      ensures Now(None) == StopBegun(old(Now(None))).0
      ensures reports == old(reports) + StopBegun(old(Now(None))).1
    {
      if stopping {
        return;
      }
      stopping := true;
      status := Status(StopPending, 1);
      Report();
      stops := stops + 1;
      stopTimer := true;
    }

    predicate CanFire(e: Event)
      reads this
      ensures CanFire(e) == Enabled(Now(None), e)
    {
      match e
      case Ready => ready
      case Request(_) => requests
      case RequestsClosed => requests
      case StartupDeadline => startup
      case Tick => true
      case RuntimeDone(_) => true
      case StopDeadline => stopTimer
    }

    /** One case of the select. */
    method Serve(e: Event) returns (exit: Option<Exit>)
      requires CanFire(e)
      modifies this
      ensures Now(exit) == Turn(old(Now(None)), e).0
      ensures reports == old(reports) + Turn(old(Now(None)), e).1
    {
      exit := None;
      match e {
        case Ready =>
          ready, startup := false, false;
          if !stopping {
            status := Status(Running, 0);
            Report();
          }
        case Request(command) =>
          if command.Interrogate? {
            Report();
          } else if command.Stop? || command.Shutdown? {
            BeginStop();
          }
        case RequestsClosed =>
          BeginStop();
          requests := false;
        case StartupDeadline =>
          startup := false;
          BeginStop();
        case Tick =>
          if status.state.StartPending? || status.state.StopPending? {
            status := status.(checkPoint := status.checkPoint + 1);
            Report();
          }
        case RuntimeDone(failed) =>
          exit := Some(if failed then Exit(true, 1) else Exit(false, 0));
        case StopDeadline =>
          stopTimer := false;
          exit := Some(Exit(true, 2));
      }
    }

    /** The loop, until a case returns or no further event comes. */
    method Execute(events: seq<Event>) returns (exit: Option<Exit>)
      requires Now(None) == INIT && reports == [FIRST]
      modifies this
      ensures (Now(exit), reports) == Run(events)
    {
      exit := None;
      assert events[..0] == [];
      for i := 0 to |events|
        invariant exit.None? && (Now(exit), reports) == Run(events[..i])
      {
        assert events[..i + 1][..i] == events[..i];
        if CanFire(events[i]) {
          exit := Serve(events[i]);
          if exit.Some? {
            NothingAfterExit(events[..i + 1], events[i + 1..]);
            assert events[..i + 1] + events[i + 1..] == events;
            return;
          }
        }
      }
      assert events[..|events|] == events;
    }
  }

  // ---------------------------------------------------------------- properties

  function Rank(state: ServiceState): nat {
    match state case StartPending => 0 case Running => 1 case StopPending => 2
  }

  /** One report may follow another. */
  predicate Follows(a: Status, b: Status) {
    Rank(a.state) < Rank(b.state) || (a.state == b.state && a.checkPoint <= b.checkPoint)
  }

  ghost predicate Orderly(trace: seq<Status>) {
    forall i, j :: 0 <= i < j < |trace| ==> Follows(trace[i], trace[j])
  }

  ghost predicate Inv(h: Host, trace: seq<Status>) {
    && trace != [] && trace[0] == FIRST && trace[|trace| - 1] == h.status
    && Orderly(trace)
    && (h.stopping <==> h.status.state.StopPending?)
    && (h.status.state.Running? ==> !h.ready)
    && h.stops == (if h.stopping then 1 else 0)
    && (h.stopTimer ==> h.stopping)
    && (!h.ready ==> !h.startup)
    && (h.exit.Some? && h.exit.value.code == 2 ==> h.stopping)
  }

  lemma OrderlyAppend(trace: seq<Status>, status: Status)
    requires trace != [] && Orderly(trace) && Follows(trace[|trace| - 1], status)
    ensures Orderly(trace + [status])
  {
    var longer := trace + [status];
    forall i, j | 0 <= i < j < |longer| ensures Follows(longer[i], longer[j]) {
      if j == |trace| && i < |trace| - 1 {
        assert Follows(trace[i], trace[|trace| - 1]);
      }
    }
  }

  lemma TurnKeepsInv(h: Host, trace: seq<Status>, e: Event)
    requires Inv(h, trace) && Enabled(h, e)
    ensures Inv(Turn(h, e).0, trace + Turn(h, e).1)
  {
    var (g, out) := Turn(h, e);
    if out == [] {
      assert trace + out == trace;
    } else {
      assert out == [g.status];
      OrderlyAppend(trace, g.status);
    }
  }

  lemma {:induction false} RunKeepsInv(events: seq<Event>)
    ensures Inv(Run(events).0, Run(events).1)
  {
    hide Inv;
    if events == [] {
      InitInv();
    } else {
      var init := events[..|events| - 1];
      RunKeepsInv(init);
      var (h, trace) := Run(init);
      if Enabled(h, events[|events| - 1]) {
        TurnKeepsInv(h, trace, events[|events| - 1]);
      }
    }
  }

  lemma InitInv()
    ensures Inv(INIT, [FIRST])
  {}

  // ------------------------------------------------------------------- theorems

  /** The first a reports are of a starting service, those up to b of a running one
      and the rest of a stopping one. */
  ghost predicate Phases(trace: seq<Status>, a: nat, b: nat) {
    && 1 <= a <= b <= |trace|
    && (forall i :: 0 <= i < a ==> trace[i].state == StartPending)
    && (forall i :: a <= i < b ==> trace[i].state == Running)
    && (forall i :: b <= i < |trace| ==> trace[i].state == StopPending)
  }

  /** What is reported, for every ordering of events: first starting, then perhaps
      running, then perhaps stopping, never back; within a phase the checkpoint
      never decreases; a stop is begun at most once. */
  lemma ReportsInOrder(events: seq<Event>)
    ensures exists a: nat, b: nat :: Phases(Run(events).1, a, b)
    ensures forall i, j :: 0 <= i < j < |Run(events).1| && Run(events).1[i].state == Run(events).1[j].state ==>
      Run(events).1[i].checkPoint <= Run(events).1[j].checkPoint
    ensures Run(events).0.stops <= 1
  {
    RunKeepsInv(events);
    hide Run, Turn, Enabled;
    var trace := Run(events).1;
    OrderlyHasPhases(trace);
    forall i, j | 0 <= i < j < |trace| && trace[i].state == trace[j].state
      ensures trace[i].checkPoint <= trace[j].checkPoint
    {
      assert Follows(trace[i], trace[j]);
    }
  }

  lemma OrderlyHasPhases(trace: seq<Status>)
    requires Orderly(trace) && trace != [] && trace[0] == FIRST
    ensures exists a: nat, b: nat :: Phases(trace, a, b)
  {
    var a := PhaseEnd(trace, 0);
    var b := PhaseEnd(trace, 1);
    hide Orderly;
    assert a > 0 && Rank(trace[a - 1].state) <= 0;
    assert Phases(trace, a, b);
  }

  /** Where the reports of rank at most r end. */
  lemma {:induction false} PhaseEnd(trace: seq<Status>, r: nat) returns (k: nat)
    requires Orderly(trace)
    ensures k <= |trace|
    ensures forall i :: 0 <= i < k ==> Rank(trace[i].state) <= r
    ensures forall i :: k <= i < |trace| ==> Rank(trace[i].state) > r
  {
    if trace == [] {
      return 0;
    }
    var init := trace[..|trace| - 1];
    k := PhaseEnd(init, r);
    if Rank(trace[|trace| - 1].state) <= r {
      forall i | 0 <= i < |trace| ensures Rank(trace[i].state) <= r {
        if i < |trace| - 1 {
          assert Follows(trace[i], trace[|trace| - 1]);
        }
      }
      k := |trace|;
    }
  }

  /** Running is never reported once a stop has begun. */
  lemma {:induction false} NoRunningAfterStop(events: seq<Event>, more: seq<Event>)
    requires Run(events).0.stopping
    ensures
      var before, after := Run(events).1, Run(events + more).1;
      && |before| <= |after| && after[..|before|] == before
      && forall i :: |before| <= i < |after| ==> after[i].state == StopPending
  {
    RunKeepsInv(events + more);
    RunGrows(events, more);
    var before, after := Run(events).1, Run(events + more).1;
    RunKeepsInv(events);
    forall i | |before| <= i < |after| ensures after[i].state == StopPending {
      assert after[|before| - 1] == before[|before| - 1];
      assert Follows(after[|before| - 1], after[i]);
    }
  }

  lemma {:induction false} RunGrows(events: seq<Event>, more: seq<Event>)
    ensures |Run(events).1| <= |Run(events + more).1|
    ensures Run(events + more).1[..|Run(events).1|] == Run(events).1
  {
    if more == [] {
      assert events + more == events;
    } else {
      var init := more[..|more| - 1];
      RunGrows(events, init);
      assert (events + more)[..|events + more| - 1] == events + init;
    }
  }

  /** The exit code: 2 only after a stop was reported and its time ran out, and
      otherwise 0 or 1 exactly as the runtime ended. */
  lemma {:induction false} ExitIsHonest(events: seq<Event>)
    ensures
      var (h, trace) := Run(events);
      h.exit.Some? ==>
        && (h.exit.value.code == 2 ==> trace != [] && trace[|trace| - 1].state == StopPending)
        && (h.exit.value.code in {0, 1} ==>
              exists k :: 0 <= k < |events| && events[k].RuntimeDone?
                && h.exit.value == (if events[k].failed then Exit(true, 1) else Exit(false, 0))
                && Run(events[..k]).0.exit.None?)
        && h.exit.value.code in {0, 1, 2}
  {
    RunKeepsInv(events);
    if events != [] {
      var n := |events| - 1;
      var init := events[..n];
      var (h, trace) := Run(init);
      if h.exit.Some? {
        ExitIsHonest(init);
        if h.exit.value.code in {0, 1} {
          var k :| 0 <= k < |init| && init[k].RuntimeDone?
            && h.exit.value == (if init[k].failed then Exit(true, 1) else Exit(false, 0))
            && Run(init[..k]).0.exit.None?;
          assert events[..k] == init[..k] && events[k] == init[k];
        }
      } else if events[n].RuntimeDone? {
        assert Run(events[..n]).0.exit.None?;
      }
    }
  }

  /** The startup deadline stops only a service that never became ready. */
  lemma DeadlineOnlyBeforeReady(events: seq<Event>)
    requires Enabled(Run(events).0, StartupDeadline)
    ensures Run(events).0.ready && forall s :: s in Run(events).1 ==> s.state != Running
  {
    RunKeepsInv(events);
    var (h, trace) := Run(events);
    forall i | 0 <= i < |trace| ensures trace[i].state != Running {
      if i < |trace| - 1 {
        assert Follows(trace[i], trace[|trace| - 1]);
      }
      NotRunningBeforeReady(events, i);
    }
  }

  lemma {:induction false} NotRunningBeforeReady(events: seq<Event>, i: nat)
    requires Run(events).0.ready && i < |Run(events).1|
    ensures Run(events).1[i].state != Running
  {
    if events != [] {
      var init := events[..|events| - 1];
      var (h, trace) := Run(init);
      RunKeepsInv(init);
      if i < |trace| {
        NotRunningBeforeReady(init, i);
      }
    }
  }
}
