/** The antivirus manager: one scan at a time, a stored cancel function that
    later scans overwrite, and a Close that cancels and joins. */
module Antivirus {
  import opened Common

  type Id = string

  datatype Status = Completed | Failed | Cancelled

  datatype Event = Running(id: Id) | Result(id: Id, status: Status)

  /** Where a scan's goroutine stands; the last three are its deferred calls. */
  datatype Phase =
    | Announcing
    | Scanning
    | Reporting(status: Status)
    | Releasing(status: Status)   // about to clear busy
    | Cancelling(status: Status)  // about to call cancel
    | Joining(status: Status)     // about to leave the wait group
    | Gone(status: Status)

  datatype Scan = Scan(id: Id, phase: Phase, cancelled: bool) {
    /** Between acceptance and the release of busy. */
    predicate InFlight() { phase.Announcing? || phase.Scanning? || phase.Reporting? || phase.Releasing? }

    function Events(): seq<Event> {
      match phase
      case Announcing => []
      case Scanning => [Running(id)]
      case Reporting(_) => [Running(id)]
      case _ => [Running(id), Result(id, phase.status)]
    }
  }

  datatype State = State(
    busy: bool,
    closed: bool,
    cancel: Option<nat>,  // whose context the stored cancel function cancels
    waiting: int,         // the wait group's counter
    scans: seq<Scan>,     // every scan ever started, in order
    trace: seq<Event>)    // every event that is not a rejection

  datatype Action =
    | Submit(id: Id)
    | EmitRunning(i: nat)
    | ScanReturns(i: nat, failed: bool)
    | EmitResult(i: nat)
    | Release(i: nat)
    | CancelSelf(i: nat)
    | Leave(i: nat)
    | ParentCancelled(i: nat)
    | CloseLocked

  datatype Reply = Ignored | Rejected | Started

  const INIT := State(false, false, None, 0, [], [])

  function SubmitLocked(s: State, id: Id): (State, Reply) {
    if s.closed then (s, Ignored)
    else if s.busy then (s, Rejected)
    else (s.(busy := true, cancel := Some(|s.scans|), waiting := s.waiting + 1,
             scans := s.scans + [Scan(id, Announcing, false)]), Started)
  }

  function CloseSection(s: State): State {
    if s.cancel.None? || s.cancel.value >= |s.scans| then s.(closed := true) else
    var i := s.cancel.value;
    s.(closed := true, scans := s.scans[i := s.scans[i].(cancelled := true)])
  }

  predicate Enabled(s: State, a: Action) {
    match a
    case Submit(_) => true
    case CloseLocked => true
    case EmitRunning(i) => i < |s.scans| && s.scans[i].phase.Announcing?
    case ScanReturns(i, _) => i < |s.scans| && s.scans[i].phase.Scanning?
    case EmitResult(i) => i < |s.scans| && s.scans[i].phase.Reporting?
    case Release(i) => i < |s.scans| && s.scans[i].phase.Releasing?
    case CancelSelf(i) => i < |s.scans| && s.scans[i].phase.Cancelling?
    case Leave(i) => i < |s.scans| && s.scans[i].phase.Joining?
    case ParentCancelled(i) => i < |s.scans|
  }

  function Move(s: State, i: nat, phase: Phase): State
    requires i < |s.scans|
  {
    s.(scans := s.scans[i := s.scans[i].(phase := phase)])
  }

  function Apply(s: State, a: Action): State
    requires Enabled(s, a)
  {
    match a
    case Submit(id) => SubmitLocked(s, id).0
    case CloseLocked => CloseSection(s)
    case EmitRunning(i) => Move(s, i, Scanning).(trace := s.trace + [Running(s.scans[i].id)])
    case ScanReturns(i, failed) =>
      Move(s, i, Reporting(if s.scans[i].cancelled then Cancelled else if failed then Failed else Completed))
    case EmitResult(i) =>
      Move(s, i, Releasing(s.scans[i].phase.status)).(
        trace := s.trace + [Result(s.scans[i].id, s.scans[i].phase.status)])
    case Release(i) => Move(s, i, Cancelling(s.scans[i].phase.status)).(busy := false)
    case CancelSelf(i) =>
      s.(scans := s.scans[i := s.scans[i].(phase := Joining(s.scans[i].phase.status), cancelled := true)])
    case Leave(i) => Move(s, i, Gone(s.scans[i].phase.status)).(waiting := s.waiting - 1)
    case ParentCancelled(i) => s.(scans := s.scans[i := s.scans[i].(cancelled := true)])
  }

  function Execute(start: State, actions: seq<Action>): State {
    if actions == [] then start else
    var s := Execute(start, actions[..|actions| - 1]);
    if Enabled(s, actions[|actions| - 1]) then Apply(s, actions[|actions| - 1]) else s
  }

  // ---------------------------------------------------------------- invariants

  function Trace(scans: seq<Scan>): seq<Event> {
    if scans == [] then [] else Trace(scans[..|scans| - 1]) + scans[|scans| - 1].Events()
  }

  function Present(scans: seq<Scan>): nat {
    if scans == [] then 0 else
    Present(scans[..|scans| - 1]) + if scans[|scans| - 1].phase.Gone? then 0 else 1
  }

  ghost predicate Inv(s: State) {
    // Only the latest scan can be in flight, and busy says whether it is.
    && (forall i :: 0 <= i < |s.scans| - 1 ==> !s.scans[i].InFlight())
    && (s.busy <==> s.scans != [] && s.scans[|s.scans| - 1].InFlight())
    // The stored cancel function is the latest scan's, however often it was overwritten.
    && s.cancel == (if s.scans == [] then None else Some(|s.scans| - 1))
    && (s.closed && s.scans != [] ==> s.scans[|s.scans| - 1].cancelled)
    && s.waiting == Present(s.scans)
    && s.trace == Trace(s.scans)
  }

  lemma {:induction false} PresentUpdate(scans: seq<Scan>, i: nat, scan: Scan)
    requires i < |scans|
    ensures Present(scans[i := scan])
         == Present(scans) - (if scans[i].phase.Gone? then 0 else 1) + (if scan.phase.Gone? then 0 else 1)
  {
    var last := |scans| - 1;
    if i == last {
      assert scans[i := scan][..last] == scans[..last];
    } else {
      PresentUpdate(scans[..last], i, scan);
      assert scans[i := scan][..last] == scans[..last][i := scan];
    }
  }

  /** Changing a scan without changing its events keeps the trace. */
  lemma {:induction false} TraceUpdate(scans: seq<Scan>, i: nat, scan: Scan)
    requires i < |scans|
    requires scan.Events() == scans[i].Events()
    ensures Trace(scans[i := scan]) == Trace(scans)
  {
    hide Scan.Events;
    var last := |scans| - 1;
    if i == last {
      assert scans[i := scan][..last] == scans[..last];
    } else {
      TraceUpdate(scans[..last], i, scan);
      assert scans[i := scan][..last] == scans[..last][i := scan];
    }
  }

  /** An event of the latest scan extends the trace. */
  lemma TraceExtend(scans: seq<Scan>, scan: Scan, e: Event)
    requires scans != [] && scan.Events() == scans[|scans| - 1].Events() + [e]
    ensures Trace(scans[|scans| - 1 := scan]) == Trace(scans) + [e]
  {
    hide Scan.Events;
    var last := |scans| - 1;
    assert scans[last := scan][..last] == scans[..last];
    assert Trace(scans[..last]) + (scans[last].Events() + [e]) == Trace(scans[..last]) + scans[last].Events() + [e];
  }

  lemma SubmitKeepsInv(s: State, id: Id)
    requires Inv(s)
    ensures Inv(SubmitLocked(s, id).0)
  {
    var t := SubmitLocked(s, id).0;
    if |t.scans| > |s.scans| {
      assert t.scans[..|t.scans| - 1] == s.scans;
      assert Trace(s.scans) + [] == Trace(s.scans);
    }
  }

  /** Steps that emit nothing. */
  lemma QuietStepKeepsInv(s: State, a: Action)
    requires Inv(s) && Enabled(s, a)
    requires a.ScanReturns? || a.Release? || a.CancelSelf? || a.Leave? || a.ParentCancelled?
    ensures Inv(Apply(s, a))
  {
    hide Trace, Present;
    var t := Apply(s, a);
    PresentUpdate(s.scans, a.i, t.scans[a.i]);
    TraceUpdate(s.scans, a.i, t.scans[a.i]);
  }

  lemma EmitKeepsInv(s: State, a: Action)
    requires Inv(s) && Enabled(s, a)
    requires a.EmitRunning? || a.EmitResult?
    ensures Inv(Apply(s, a))
  {
    hide Trace, Present;
    var t := Apply(s, a);
    assert a.i == |s.scans| - 1;
    PresentUpdate(s.scans, a.i, t.scans[a.i]);
    TraceExtend(s.scans, t.scans[a.i], t.trace[|t.trace| - 1]);
  }

  lemma CloseKeepsInv(s: State)
    requires Inv(s)
    ensures Inv(CloseSection(s))
  {
    hide Trace, Present;
    if s.scans != [] {
      var i := |s.scans| - 1;
      PresentUpdate(s.scans, i, s.scans[i].(cancelled := true));
      TraceUpdate(s.scans, i, s.scans[i].(cancelled := true));
    }
  }

  lemma ApplyKeepsInv(s: State, a: Action)
    requires Inv(s) && Enabled(s, a)
    ensures Inv(Apply(s, a))
  {
    hide Inv;
    match a
    case Submit(id) => SubmitKeepsInv(s, id);
    case CloseLocked => CloseKeepsInv(s);
    case EmitRunning(_) => EmitKeepsInv(s, a);
    case EmitResult(_) => EmitKeepsInv(s, a);
    case _ => QuietStepKeepsInv(s, a);
  }

  lemma {:induction false} ExecuteKeepsInv(start: State, actions: seq<Action>)
    requires Inv(start)
    ensures Inv(Execute(start, actions))
  {
    hide Inv, Enabled, Apply;
    if actions != [] {
      var init := actions[..|actions| - 1];
      ExecuteKeepsInv(start, init);
      if Enabled(Execute(start, init), actions[|actions| - 1]) {
        ApplyKeepsInv(Execute(start, init), actions[|actions| - 1]);
      }
    }
  }

  lemma InitInv()
    ensures Inv(INIT)
  {}

  // ------------------------------------------------------------------- theorems

  /** Over every interleaving at most one scan is in flight. */
  lemma OneScanAtATime(actions: seq<Action>)
    ensures
      var s := Execute(INIT, actions);
      forall i, j :: 0 <= i < |s.scans| && 0 <= j < |s.scans| && s.scans[i].InFlight() && s.scans[j].InFlight() ==>
        i == j
  {
    InitInv();
    ExecuteKeepsInv(INIT, actions);
  }

  /** A trace of complete pairs, each a start and the matching result. */
  ghost predicate Paired(trace: seq<Event>) {
    trace == [] ||
    (&& |trace| >= 2
     && trace[|trace| - 2].Running? && trace[|trace| - 1].Result?
     && trace[|trace| - 2].id == trace[|trace| - 1].id
     && Paired(trace[..|trace| - 2]))
  }

  lemma {:induction false} FinishedIsPaired(scans: seq<Scan>)
    requires forall i :: 0 <= i < |scans| ==> scans[i].phase.Releasing? || !scans[i].InFlight()
    ensures Paired(Trace(scans))
  {
    if scans != [] {
      var init, last := scans[..|scans| - 1], scans[|scans| - 1];
      FinishedIsPaired(init);
      assert last.Events() == [Running(last.id), Result(last.id, last.phase.status)];
      assert Trace(scans) == Trace(init) + last.Events();
      assert Trace(scans)[..|Trace(scans)| - 2] == Trace(init);
    }
  }

  lemma TraceShape(s: State)
    requires Inv(s) && s.scans != []
    ensures
      var init, last := s.scans[..|s.scans| - 1], s.scans[|s.scans| - 1];
      && Paired(Trace(init))
      && s.trace == Trace(init) + last.Events()
      && (!last.InFlight() || last.phase.Releasing? ==> Paired(s.trace))
  {
    hide Present, Paired, Scan.Events;
    var init, last := s.scans[..|s.scans| - 1], s.scans[|s.scans| - 1];
    FinishedIsPaired(init);
    if !last.InFlight() || last.phase.Releasing? {
      FinishedIsPaired(s.scans);
    }
  }

  /** The events that are not rejections are pairs of a start and its result, with
      at most one open start at the end. */
  lemma EventsComeInPairs(actions: seq<Action>)
    ensures
      var trace := Execute(INIT, actions).trace;
      Paired(trace) || (trace != [] && trace[|trace| - 1].Running? && Paired(trace[..|trace| - 1]))
  {
    hide Paired, Execute, Inv, Trace;
    InitInv();
    ExecuteKeepsInv(INIT, actions);
    var s := Execute(INIT, actions);
    if s.scans == [] {
      EmptyTrace(s);
    } else {
      TraceShape(s);
      var before, last := Trace(s.scans[..|s.scans| - 1]), s.scans[|s.scans| - 1];
      if last.phase.Announcing? {
        assert before + [] == before;
      } else if last.InFlight() && !last.phase.Releasing? {
        assert (before + [Running(last.id)])[..|before|] == before;
      }
    }
  }

  lemma EmptyTrace(s: State)
    requires Inv(s) && s.scans == []
    ensures Paired(s.trace)
  {}

  /** Once Close has run its locked section the scan in flight is cancelled, even
      though later scans kept overwriting the stored cancel function; if its
      scanner had not returned yet, its result will say so. */
  lemma CloseReachesTheScan(actions: seq<Action>, i: nat, failed: bool)
    requires
      var s := Execute(INIT, actions);
      s.closed && i < |s.scans| && s.scans[i].InFlight()
    ensures
      var s := Execute(INIT, actions);
      && s.scans[i].cancelled
      && (s.scans[i].phase.Scanning? ==>
            Apply(s, ScanReturns(i, failed)).scans[i].phase == Reporting(Cancelled))
  {
    InitInv();
    ExecuteKeepsInv(INIT, actions);
  }

  lemma {:induction false} NobodyPresent(scans: seq<Scan>)
    requires Present(scans) == 0
    ensures forall i :: 0 <= i < |scans| ==> scans[i].phase.Gone?
  {
    if scans != [] {
      NobodyPresent(scans[..|scans| - 1]);
      assert scans == scans[..|scans| - 1] + [scans[|scans| - 1]];
    }
  }

  /** What Close waits for: the closed manager's wait group is empty. */
  ghost predicate CloseReturns(s: State) {
    s.closed && s.waiting == 0
  }

  /** After Close has returned no scan runs, none ever starts, and no further
      event is sent, whatever is still submitted. */
  lemma {:induction false} NothingAfterClose(actions: seq<Action>, more: seq<Action>)
    requires CloseReturns(Execute(INIT, actions))
    ensures
      var s, t := Execute(INIT, actions), Execute(Execute(INIT, actions), more);
      && CloseReturns(t) && t.trace == s.trace && |t.scans| == |s.scans|
      && (forall i :: 0 <= i < |t.scans| ==> t.scans[i].phase.Gone?)
  {
    hide Inv;
    InitInv();
    ExecuteKeepsInv(INIT, actions);
    var s := Execute(INIT, actions);
    if more == [] {
      AllGone(s);
    } else {
      NothingAfterClose(actions, more[..|more| - 1]);
    }
  }

  lemma AllGone(s: State)
    requires Inv(s) && s.waiting == 0
    ensures forall i :: 0 <= i < |s.scans| ==> s.scans[i].phase.Gone?
  {
    NobodyPresent(s.scans);
  }

  // ---------------------------------------------------------------- the manager

  class Manager {
    var busy: bool
    var closed: bool
    var cancel: Option<nat>
    var waiting: int
    // The goroutines and their contexts.
    ghost var scans: seq<Scan>
    ghost var trace: seq<Event>

    ghost function Now(): State
      reads this
    {
      State(busy, closed, cancel, waiting, scans, trace)
    }

    constructor ()
      ensures Now() == INIT && Inv(Now())
    {
      busy, closed, cancel, waiting := false, false, None, 0;
      scans, trace := [], [];
    }

    /** The locked section of Submit; `next` names the context it creates. */
    method Submit(id: Id, next: nat) returns (reply: Reply)
      requires Inv(Now()) && next == |scans|
      modifies this
      ensures (Now(), reply) == SubmitLocked(old(Now()), id) && Inv(Now())
    {
      hide Inv;
      ApplyKeepsInv(Now(), Action.Submit(id));
      if closed {
        return Ignored;
      }
      if busy {
        return Rejected;
      }
      busy, cancel, waiting := true, Some(next), waiting + 1;
      scans := scans + [Scan(id, Announcing, false)];
      reply := Started;
    }

    /** The first deferred call of a scan. */
    method Finish(ghost i: nat)
      requires Inv(Now()) && Enabled(Now(), Action.Release(i))
      modifies this
      ensures Now() == Apply(old(Now()), Action.Release(i)) && Inv(Now())
    {
      hide Inv;
      ApplyKeepsInv(Now(), Action.Release(i));
      busy := false;
      scans := scans[i := scans[i].(phase := Cancelling(scans[i].phase.status))];
    }

    /** The locked section of Close. */
    method Close()
      requires Inv(Now())
      modifies this
      ensures Now() == CloseSection(old(Now())) && Inv(Now())
      ensures forall i :: 0 <= i < |scans| && scans[i].InFlight() ==> scans[i].cancelled
    {
      CloseKeepsInv(Now());
      closed := true;
      if cancel.Some? {
        Cancel(cancel.value);
      }
    }

    /** Calls a context's cancel function. */
    method Cancel(ghost i: nat)
      requires i < |scans|
      modifies `scans
      ensures scans == old(scans)[i := old(scans)[i].(cancelled := true)]
    {
      scans := scans[i := scans[i].(cancelled := true)];
    }
  }
}
