/** One connection's inventory pipeline: a bounded job queue, one collector, a
    bounded result queue, one writer, and the table of pending requests. */
module InstalledAppsWorker {
  import opened Common

  const QUEUE_SIZE := 4
  const RESULT_QUEUE_SIZE := 8

  type Id = string

  /** A reply on its way out: the result of an accepted job, or a busy notice. */
  datatype Reply = Final(id: Id) | Busy(id: Id)

  datatype Writer = Idle | Sending(reply: Reply) | Clearing(reply: Reply)

  datatype State = State(
    jobs: seq<Id>,
    results: seq<Reply>,
    collecting: Option<Id>,
    writer: Writer,
    pending: set<Id>,
    accepted: seq<Id>,   // every job taken into the queue, in order
    attempted: seq<Id>)  // every final reply whose send has returned, in order

  datatype Action =
    | Submit(id: Id)
    | TakeJob       // the collector receives
    | PutResult     // the collector sends its result
    | TakeResult    // the writer receives
    | SendReturns   // the send to the peer is over, whatever it returned
    | ClearPending  // the writer's locked delete

  const INIT := State([], [], None, Idle, {}, [], [])

  /** The locked section of submit. It is a total function: it never waits. */
  function SubmitLocked(s: State, id: Id): State {
    if id in s.pending then s
    else if |s.jobs| < QUEUE_SIZE
    then s.(jobs := s.jobs + [id], pending := s.pending + {id}, accepted := s.accepted + [id])
    else if |s.results| < RESULT_QUEUE_SIZE
    then s.(results := s.results + [Busy(id)])
    else s
  }

  predicate Enabled(s: State, a: Action) {
    match a
    case Submit(_) => true
    case TakeJob => s.collecting.None? && s.jobs != []
    case PutResult => s.collecting.Some? && |s.results| < RESULT_QUEUE_SIZE
    case TakeResult => s.writer.Idle? && s.results != []
    case SendReturns => s.writer.Sending?
    case ClearPending => s.writer.Clearing?
  }

  function Apply(s: State, a: Action): State
    requires Enabled(s, a)
  {
    match a
    case Submit(id) => SubmitLocked(s, id)
    case TakeJob => s.(jobs := s.jobs[1..], collecting := Some(s.jobs[0]))
    case PutResult => s.(results := s.results + [Final(s.collecting.value)], collecting := None)
    case TakeResult => s.(results := s.results[1..], writer := Sending(s.results[0]))
    case SendReturns =>
      s.(writer := Clearing(s.writer.reply),
         attempted := if s.writer.reply.Final? then s.attempted + [s.writer.reply.id] else s.attempted)
    case ClearPending => s.(writer := Idle, pending := s.pending - {s.writer.reply.id})
  }

  function Execute(actions: seq<Action>): State {
    if actions == [] then INIT else
    var s := Execute(actions[..|actions| - 1]);
    if Enabled(s, actions[|actions| - 1]) then Apply(s, actions[|actions| - 1]) else s
  }

  // ---------------------------------------------------------------- invariants

  function Finals(results: seq<Reply>): seq<Id> {
    if results == [] then [] else
    (if results[0].Final? then [results[0].id] else []) + Finals(results[1..])
  }

  function BeingSent(writer: Writer): seq<Id> {
    if writer.Sending? && writer.reply.Final? then [writer.reply.id] else []
  }

  function BeingCollected(collecting: Option<Id>): seq<Id> {
    if collecting.Some? then [collecting.value] else []
  }

  /** Accepted jobs whose final reply has not been attempted, oldest first. */
  function InFlight(s: State): seq<Id> {
    BeingSent(s.writer) + (Finals(s.results) + (BeingCollected(s.collecting) + s.jobs))
  }

  /** Every identifier somewhere in the pipeline, busy notices included. */
  ghost function Places(s: State): set<Id> {
    (if s.writer.Idle? then {} else {s.writer.reply.id})
    + (set r | r in s.results :: r.id)
    + Elements(BeingCollected(s.collecting)) + Elements(s.jobs)
  }

  ghost predicate Inv(s: State) {
    && |s.jobs| <= QUEUE_SIZE && |s.results| <= RESULT_QUEUE_SIZE
    && s.accepted == s.attempted + InFlight(s)
    && s.pending <= Places(s)
  }

  lemma {:induction false} FinalsAppend(results: seq<Reply>, r: Reply)
    ensures Finals(results + [r]) == Finals(results) + if r.Final? then [r.id] else []
  {
    if results != [] {
      assert (results + [r])[1..] == results[1..] + [r];
      FinalsAppend(results[1..], r);
    }
  }

  lemma Regroup(a: seq<Id>, b: seq<Id>, c: seq<Id>)
    ensures a + (b + c) == a + b + c
  {}

  /** What a step does to the line of requests in flight: a new one joins at the
      end, an answered one leaves at the front, and nobody else moves. */
  function Joined(s: State, a: Action): seq<Id>
    requires Enabled(s, a)
  {
    if a.Submit? && |Apply(s, a).jobs| > |s.jobs| then [a.id] else []
  }

  function Answered(s: State, a: Action): seq<Id>
    requires Enabled(s, a)
  {
    if a.SendReturns? then BeingSent(s.writer) else []
  }

  lemma SubmitMovesLine(s: State, id: Id)
    ensures InFlight(SubmitLocked(s, id)) == InFlight(s) + Joined(s, Submit(id))
  {
    var t := SubmitLocked(s, id);
    var c := BeingCollected(s.collecting);
    if |s.jobs| < |t.jobs| {
      Regroup(c, s.jobs, [id]);
      Regroup(Finals(s.results), c + s.jobs, [id]);
      Regroup(BeingSent(s.writer), Finals(s.results) + (c + s.jobs), [id]);
    } else {
      if |s.results| < |t.results| {
        FinalsAppend(s.results, Busy(id));
      }
      assert InFlight(s) + [] == InFlight(s);
    }
  }

  lemma CollectorMovesLine(s: State, a: Action)
    requires Enabled(s, a) && (a.TakeJob? || a.PutResult?)
    ensures InFlight(Apply(s, a)) == InFlight(s)
  {
    var t := Apply(s, a);
    if a.TakeJob? {
      assert s.jobs == [s.jobs[0]] + t.jobs;
      assert BeingCollected(t.collecting) + t.jobs == [] + s.jobs;
    } else {
      FinalsAppend(s.results, Final(s.collecting.value));
      Regroup(Finals(s.results), BeingCollected(s.collecting), s.jobs);
      assert [] + s.jobs == s.jobs;
    }
  }

  lemma WriterMovesLine(s: State, a: Action)
    requires Enabled(s, a) && (a.TakeResult? || a.SendReturns? || a.ClearPending?)
    ensures InFlight(s) == Answered(s, a) + InFlight(Apply(s, a))
  {
    var t := Apply(s, a);
    var rest := BeingCollected(s.collecting) + s.jobs;
    if a.TakeResult? {
      Regroup(BeingSent(t.writer), Finals(t.results), rest);
      assert Finals(s.results) == BeingSent(t.writer) + Finals(t.results);
    }
    assert [] + (Finals(t.results) + rest) == Finals(t.results) + rest;
    assert [] + InFlight(t) == InFlight(t);
  }

  lemma StepMovesLine(s: State, a: Action)
    requires Enabled(s, a)
    ensures InFlight(s) + Joined(s, a) == Answered(s, a) + InFlight(Apply(s, a))
  {
    hide InFlight, Finals;
    var t := Apply(s, a);
    match a
    case Submit(id) =>
      SubmitMovesLine(s, id);
      assert [] + InFlight(t) == InFlight(t);
    case TakeJob =>
      CollectorMovesLine(s, a);
      assert InFlight(s) + [] == [] + InFlight(t);
    case PutResult =>
      CollectorMovesLine(s, a);
      assert InFlight(s) + [] == [] + InFlight(t);
    case _ =>
      WriterMovesLine(s, a);
      assert InFlight(s) + [] == InFlight(s);
  }

  lemma ApplyKeepsOrder(s: State, a: Action)
    requires s.accepted == s.attempted + InFlight(s) && Enabled(s, a)
    ensures Apply(s, a).accepted == Apply(s, a).attempted + InFlight(Apply(s, a))
  {
    hide InFlight;
    var t := Apply(s, a);
    StepMovesLine(s, a);
    Regroup(s.attempted, InFlight(s), Joined(s, a));
    Regroup(s.attempted, Answered(s, a), InFlight(t));
    assert t.accepted == s.accepted + Joined(s, a);
    assert t.attempted == s.attempted + Answered(s, a);
  }

  lemma ApplyKeepsPending(s: State, a: Action)
    requires s.pending <= Places(s) && Enabled(s, a)
    ensures Apply(s, a).pending <= Places(Apply(s, a))
  {
    var t := Apply(s, a);
    forall id | id in t.pending ensures id in Places(t) {
      match a
      case TakeJob => assert s.jobs == [s.jobs[0]] + t.jobs;
      case PutResult =>
        assert Final(s.collecting.value) in t.results;
        assert forall r :: r in s.results ==> r in t.results;
      case TakeResult => assert s.results == [s.results[0]] + t.results;
      case Submit(new_) => assert forall r :: r in s.results ==> r in t.results;
      case _ =>
    }
  }

  lemma {:induction false} ExecuteKeepsInv(actions: seq<Action>)
    ensures Inv(Execute(actions))
  {
    hide InFlight, Places;
    if actions == [] {
      InitInv();
    } else {
      var init := actions[..|actions| - 1];
      ExecuteKeepsInv(init);
      var s, a := Execute(init), actions[|actions| - 1];
      if Enabled(s, a) {
        ApplyKeepsOrder(s, a);
        ApplyKeepsPending(s, a);
      }
    }
  }

  lemma InitInv()
    ensures Inv(INIT)
  {}

  // ------------------------------------------------------------------- theorems

  /** First in, first out, and exactly one final reply per accepted job: in every
      reachable state what was accepted is what was attempted, then what is in
      flight, stage by stage. */
  lemma FirstInFirstOut(actions: seq<Action>)
    ensures
      var s := Execute(actions);
      s.accepted == s.attempted + BeingSent(s.writer) + Finals(s.results) + BeingCollected(s.collecting) + s.jobs
  {
    ExecuteKeepsInv(actions);
    var s := Execute(actions);
    var a, b, c, d, e := s.attempted, BeingSent(s.writer), Finals(s.results), BeingCollected(s.collecting), s.jobs;
    hide Finals;
    Regroup(a, b, c + (d + e));
    Regroup(a + b, c, d + e);
    Regroup(a + b + c, d, e);
  }

  lemma {:induction false} ImageBound(results: seq<Reply>)
    ensures |set r | r in results :: r.id| <= |results|
  {
    if results == [] {
      assert (set r | r in results :: r.id) == {};
    } else {
      var rest := results[1..];
      ImageBound(rest);
      assert results == [results[0]] + rest;
      var image := set r | r in rest :: r.id;
      assert (set r | r in results :: r.id) == image + {results[0].id};
    }
  }

  lemma {:induction false} ElementsBound(ids: seq<Id>)
    ensures |Elements(ids)| <= |ids|
  {
    if ids == [] {
      assert Elements(ids) == {};
    } else {
      ElementsBound(ids[1..]);
      assert ids == [ids[0]] + ids[1..];
      assert Elements(ids) == Elements(ids[1..]) + {ids[0]};
    }
  }

  /** The duplicate table is bounded by the places of the pipeline. */
  lemma PendingBounded(actions: seq<Action>)
    ensures |Execute(actions).pending| <= QUEUE_SIZE + 1 + RESULT_QUEUE_SIZE + 1
  {
    ExecuteKeepsInv(actions);
    var s := Execute(actions);
    SubsetCardinality(s.pending, Places(s));
    ImageBound(s.results);
    ElementsBound(BeingCollected(s.collecting));
    ElementsBound(s.jobs);
  }

  // ------------------------------------- when duplicates really are suppressed

  function BeingCleared(writer: Writer): seq<Id> {
    if writer.Clearing? && writer.reply.Final? then [writer.reply.id] else []
  }

  /** Requests in flight, the one being cleared first. */
  function Open(s: State): seq<Id> {
    BeingCleared(s.writer) + InFlight(s)
  }

  /** The table names exactly the requests in flight, and none is in flight twice. */
  ghost predicate Exact(s: State) {
    Distinct(Open(s)) && s.pending == Elements(Open(s))
  }

  /** The writer is done with a busy notice for a request that has meanwhile been accepted. */
  predicate Forgets(s: State, a: Action) {
    a.ClearPending? && s.writer.Clearing? && s.writer.reply.Busy? && s.writer.reply.id in Open(s)
  }

  /** The open requests move like the line in flight, except that one leaves only when
      its entry is cleared. */
  lemma StepMovesOpen(s: State, a: Action)
    requires Enabled(s, a)
    ensures if a.ClearPending? && s.writer.reply.Final? then Open(s) == [s.writer.reply.id] + Open(Apply(s, a))
            else Open(Apply(s, a)) == Open(s) + Joined(s, a)
  {
    hide InFlight;
    var t := Apply(s, a);
    StepMovesLine(s, a);
    match a
    case Submit(id) =>
      Regroup(BeingCleared(s.writer), InFlight(s), Joined(s, a));
      assert [] + InFlight(t) == InFlight(t);
    case SendReturns =>
      assert InFlight(s) + [] == BeingSent(s.writer) + InFlight(t);
    case ClearPending =>
      assert InFlight(s) + [] == [] + InFlight(t);
    case _ =>
      Unmoved(InFlight(s), InFlight(t));
      assert Open(s) + [] == Open(s);
  }

  lemma Unmoved(a: seq<Id>, b: seq<Id>)
    requires a + [] == [] + b
    ensures a == b
  {
    assert a + [] == a && [] + b == b;
  }

  lemma Appended(s: seq<Id>, id: Id)
    requires Distinct(s)
    ensures Elements(s + [id]) == Elements(s) + {id}
    ensures id !in Elements(s) ==> Distinct(s + [id])
  {}

  lemma FrontLeft(s: seq<Id>, id: Id)
    requires Distinct([id] + s)
    ensures Elements(s) == Elements([id] + s) - {id}
    ensures Distinct(s)
  {
    var whole := [id] + s;
    assert whole[0] == id;
    forall i | 0 <= i < |s| ensures s[i] == whole[i + 1] && s[i] != id {}
    assert forall x :: x in whole <==> x == id || x in s;
    assert id !in s;
  }

  /** A step keeps the table exact exactly when it does not forget a request. */
  lemma ApplyKeepsExactly(s: State, a: Action)
    requires Exact(s) && Enabled(s, a)
    ensures Exact(Apply(s, a)) <==> !Forgets(s, a)
  {
    hide Open, Distinct, Elements;
    var t := Apply(s, a);
    StepMovesOpen(s, a);
    assert Open(s) + [] == Open(s);
    if a.ClearPending? && s.writer.reply.Final? {
      FrontLeft(Open(t), s.writer.reply.id);
    } else if a.ClearPending? {
      RemoveElement(Open(s), s.writer.reply.id);
    } else if Joined(s, a) != [] {
      Appended(Open(s), a.id);
    }
  }

  lemma RemoveElement(s: seq<Id>, id: Id)
    ensures Elements(s) - {id} == Elements(s) <==> id !in s
  {
    assert id in Elements(s) <==> id in s;
  }

  ghost predicate AlwaysExact(actions: seq<Action>) {
    forall k :: 0 <= k <= |actions| ==> Exact(Execute(actions[..k]))
  }

  ghost predicate NeverForgets(actions: seq<Action>) {
    forall k :: 0 <= k < |actions| ==> !Forgets(Execute(actions[..k]), actions[k])
  }

  /** Inside the writer: throughout a run the table names exactly the requests in flight
      if and only if no busy notice is cleared while its request is in flight. */
  lemma {:induction false} ExactUntilForgotten(actions: seq<Action>)
    ensures AlwaysExact(actions) <==> NeverForgets(actions)
  {
    hide Exact, Forgets, Execute;
    if actions == [] {
      InitExact();
      assert actions[..0] == [];
    } else {
      var n := |actions| - 1;
      var init, last := actions[..n], actions[n];
      ExactUntilForgotten(init);
      assert forall k :: 0 <= k <= n ==> init[..k] == actions[..k];
      LastStep(actions);
      assert actions[..n + 1] == actions;
      assert AlwaysExact(actions) <==> AlwaysExact(init) && Exact(Execute(actions));
      assert NeverForgets(actions) <==> NeverForgets(init) && !Forgets(Execute(init), last);
      assert init[..n] == init;
    }
  }

  lemma LastStep(actions: seq<Action>)
    requires actions != []
    ensures Exact(Execute(actions[..|actions| - 1])) ==>
      (Exact(Execute(actions)) <==> !Forgets(Execute(actions[..|actions| - 1]), actions[|actions| - 1]))
  {
    var s, a := Execute(actions[..|actions| - 1]), actions[|actions| - 1];
    if Exact(s) && Enabled(s, a) {
      ApplyKeepsExactly(s, a);
    }
  }

  lemma InitExact()
    ensures Exact(Execute([]))
  {}

  // -------------------------------------------- and what decides it at submit

  /** A busy notice for the request is on its way: queued, being sent or being cleared. */
  predicate NoticeOutstanding(s: State, id: Id) {
    Busy(id) in s.results || (!s.writer.Idle? && s.writer.reply == Busy(id))
  }

  /** A request is accepted again although its busy notice is still on its way. */
  predicate AcceptsTooEarly(s: State, a: Action) {
    a.Submit? && a.id !in s.pending && |s.jobs| < QUEUE_SIZE && NoticeOutstanding(s, a.id)
  }

  ghost predicate NeverTooEarly(actions: seq<Action>) {
    forall k :: 0 <= k < |actions| ==> !AcceptsTooEarly(Execute(actions[..k]), actions[k])
  }

  /** Exact, and no notice is on its way for a request in flight. */
  ghost predicate Clean(s: State) {
    Exact(s) && forall id :: NoticeOutstanding(s, id) ==> id !in Open(s)
  }

  /** Every reply sent or still to be sent, in the order of the sends. */
  function Line(s: State): seq<Reply> {
    OnWriter(s.writer) + (s.results + (AsFinals(BeingCollected(s.collecting)) + AsFinals(s.jobs)))
  }

  function OnWriter(writer: Writer): seq<Reply> {
    if writer.Idle? then [] else [writer.reply]
  }

  function AsFinals(ids: seq<Id>): seq<Reply> {
    seq(|ids|, i requires 0 <= i < |ids| => Final(ids[i]))
  }

  /** A busy notice is ahead of the reply to its own request. */
  ghost predicate Doomed(line: seq<Reply>) {
    exists i, j :: 0 <= i < j < |line| && line[i].Busy? && line[j] == Final(line[i].id)
  }

  lemma {:induction false} FinalsAre(results: seq<Reply>, id: Id)
    ensures id in Finals(results) <==> Final(id) in results
  {
    if results != [] {
      FinalsAre(results[1..], id);
      assert results == [results[0]] + results[1..];
    }
  }

  lemma AsFinalsAre(ids: seq<Id>, id: Id)
    ensures Final(id) in AsFinals(ids) <==> id in ids
    ensures Busy(id) !in AsFinals(ids)
  {
    if id in ids {
      var i :| 0 <= i < |ids| && ids[i] == id;
      assert AsFinals(ids)[i] == Final(id);
    }
  }

  /** Requests in flight are those whose final reply is in the line, and notices on their
      way are the busy replies in it. */
  lemma LineMeans(s: State, id: Id)
    ensures id in Open(s) <==> Final(id) in Line(s)
    ensures NoticeOutstanding(s, id) <==> Busy(id) in Line(s)
  {
    FinalsAre(s.results, id);
    AsFinalsAre(BeingCollected(s.collecting), id);
    AsFinalsAre(s.jobs, id);
    hide Finals, AsFinals;
  }

  /** The line after a submission: a reply to come at its end, or a notice behind the
      results. */
  function LineAfterSubmit(s: State, id: Id): seq<Reply> {
    if id in s.pending then Line(s)
    else if |s.jobs| < QUEUE_SIZE then Line(s) + [Final(id)]
    else if |s.results| < RESULT_QUEUE_SIZE then
      OnWriter(s.writer) + (s.results + [Busy(id)]) + (AsFinals(BeingCollected(s.collecting)) + AsFinals(s.jobs))
    else Line(s)
  }

  lemma SubmitMovesReplies(s: State, id: Id)
    ensures Line(SubmitLocked(s, id)) == LineAfterSubmit(s, id)
  {
    AsFinalsGrow(s.jobs, id);
    hide AsFinals;
  }

  lemma ClearMovesReplies(s: State)
    requires s.writer.Clearing?
    ensures Line(s) == [s.writer.reply] + Line(Apply(s, ClearPending))
  {
    hide AsFinals;
  }

  /** The other steps leave the line as it is. */
  lemma OthersKeepReplies(s: State, a: Action)
    requires Enabled(s, a) && !a.Submit? && !a.ClearPending?
    ensures Line(Apply(s, a)) == Line(s)
  {
    hide AsFinals;
    match a
    case TakeJob =>
      AsFinalsSplit(s.jobs);
      assert [] + AsFinals(s.jobs) == AsFinals(s.jobs);
    case PutResult => PutKeepsReplies(s);
    case TakeResult =>
      assert [] + (s.results + (AsFinals(BeingCollected(s.collecting)) + AsFinals(s.jobs))) ==
        [s.results[0]] + (s.results[1..] + (AsFinals(BeingCollected(s.collecting)) + AsFinals(s.jobs)));
    case SendReturns =>
  }

  lemma PutKeepsReplies(s: State)
    requires Enabled(s, PutResult)
    ensures Line(Apply(s, PutResult)) == Line(s)
  {
    var id := s.collecting.value;
    AsFinalsSplit([id]);
    assert AsFinals([id]) == [Final(id)];
    hide AsFinals;
    assert s.results + ([Final(id)] + AsFinals(s.jobs)) == s.results + [Final(id)] + ([] + AsFinals(s.jobs));
  }

  lemma AsFinalsGrow(ids: seq<Id>, id: Id)
    ensures AsFinals(ids + [id]) == AsFinals(ids) + [Final(id)]
  {}

  lemma AsFinalsSplit(ids: seq<Id>)
    requires ids != []
    ensures AsFinals(ids) == AsFinals([ids[0]]) + AsFinals(ids[1..])
    ensures AsFinals([]) == []
  {}

  lemma CleanStep(s: State, a: Action)
    requires Clean(s) && Enabled(s, a) && !AcceptsTooEarly(s, a)
    ensures Clean(Apply(s, a))
  {
    var t := Apply(s, a);
    ApplyKeepsExactly(s, a);
    StepMovesOpen(s, a);
    hide Open;
    forall id | NoticeOutstanding(t, id) ensures id !in Open(t) {
      NoticeMoves(s, a, id);
    }
  }

  /** A notice on its way was on its way before, or has just been queued for a request
      that was refused. */
  lemma NoticeMoves(s: State, a: Action, id: Id)
    requires Enabled(s, a) && NoticeOutstanding(Apply(s, a), id)
    ensures NoticeOutstanding(s, id) || (a == Submit(id) && id !in s.pending && Joined(s, a) == [])
    ensures Joined(s, a) != [] ==> a.Submit? && a.id !in s.pending && |s.jobs| < QUEUE_SIZE
  {}

  lemma DoomedExtended(line: seq<Reply>, more: seq<Reply>)
    requires Doomed(line)
    ensures Doomed(line + more)
  {
    var i, j :| 0 <= i < j < |line| && line[i].Busy? && line[j] == Final(line[i].id);
    assert (line + more)[i] == line[i] && (line + more)[j] == line[j];
  }

  lemma DoomedInserted(before: seq<Reply>, r: Reply, after: seq<Reply>)
    requires Doomed(before + after)
    ensures Doomed(before + [r] + after)
  {
    var line, longer := before + after, before + [r] + after;
    var i, j :| 0 <= i < j < |line| && line[i].Busy? && line[j] == Final(line[i].id);
    var i', j' := if i < |before| then i else i + 1, if j < |before| then j else j + 1;
    assert longer[i'] == line[i] && longer[j'] == line[j];
  }

  /** The notice stays ahead of the reply until it is cleared, and that forgets the request. */
  lemma DoomStays(s: State, a: Action)
    requires Enabled(s, a) && Doomed(Line(s)) && !Forgets(s, a)
    ensures Doomed(Line(Apply(s, a)))
  {
    hide Line, Doomed, Forgets;
    match a
    case Submit(id) => SubmitKeepsDoom(s, id);
    case ClearPending => ClearKeepsDoom(s);
    case _ => OthersKeepReplies(s, a);
  }

  lemma SubmitKeepsDoom(s: State, id: Id)
    requires Doomed(Line(s))
    ensures Doomed(Line(SubmitLocked(s, id)))
  {
    hide Line, Doomed, AsFinals;
    SubmitMovesReplies(s, id);
    DoomedExtended(Line(s), [Final(id)]);
    SubmitInserts(s, id);
  }

  lemma DoomShifted(r: Reply, rest: seq<Reply>)
    requires Doomed([r] + rest)
    ensures Doomed(rest) || (r.Busy? && Final(r.id) in rest)
  {
    var line := [r] + rest;
    var i, j :| 0 <= i < j < |line| && line[i].Busy? && line[j] == Final(line[i].id);
    assert line[j] == rest[j - 1];
    if i > 0 {
      assert line[i] == rest[i - 1];
    }
  }

  lemma ClearKeepsDoom(s: State)
    requires s.writer.Clearing? && Doomed(Line(s)) && !Forgets(s, ClearPending)
    ensures Doomed(Line(Apply(s, ClearPending)))
  {
    var r, rest := s.writer.reply, Line(Apply(s, ClearPending));
    ClearMovesReplies(s);
    LineMeans(s, r.id);
    hide Line, Open, Doomed;
    DoomShifted(r, rest);
    assert Final(r.id) in rest ==> Final(r.id) in [r] + rest;
  }

  lemma SubmitInserts(s: State, id: Id)
    requires Doomed(Line(s))
    ensures Doomed(OnWriter(s.writer) + (s.results + [Busy(id)])
                   + (AsFinals(BeingCollected(s.collecting)) + AsFinals(s.jobs)))
  {
    var before, after := OnWriter(s.writer) + s.results, AsFinals(BeingCollected(s.collecting)) + AsFinals(s.jobs);
    assert Line(s) == before + after;
    DoomedInserted(before, Busy(id), after);
    assert OnWriter(s.writer) + (s.results + [Busy(id)]) == before + [Busy(id)];
  }

  lemma TooEarlyDooms(s: State, a: Action)
    requires Enabled(s, a) && AcceptsTooEarly(s, a)
    ensures Doomed(Line(Apply(s, a)))
  {
    LineMeans(s, a.id);
    SubmitMovesReplies(s, a.id);
    var line := Line(s);
    hide Line, NoticeOutstanding, AsFinals;
    var i :| 0 <= i < |line| && line[i] == Busy(a.id);
    var longer := line + [Final(a.id)];
    assert longer[i] == Busy(a.id) && longer[|line|] == Final(a.id);
  }

  lemma {:induction false} NeverTooEarlyIsExact(actions: seq<Action>)
    requires NeverTooEarly(actions)
    ensures AlwaysExact(actions) && Clean(Execute(actions))
  {
    hide Exact, Open, NoticeOutstanding, AcceptsTooEarly, Apply;
    if actions == [] {
      InitClean();
      assert actions[..0] == [];
    } else {
      var n := |actions| - 1;
      var init, last := actions[..n], actions[n];
      assert forall k :: 0 <= k <= n ==> init[..k] == actions[..k];
      assert forall k :: 0 <= k < n ==> init[k] == actions[k];
      NeverTooEarlyIsExact(init);
      if Enabled(Execute(init), last) {
        CleanStep(Execute(init), last);
      }
      assert Clean(Execute(actions));
      assert actions[..n + 1] == actions;
    }
  }

  lemma InitClean()
    ensures Clean(Execute([]))
  {}

  lemma {:induction false} TooEarlyRunIsDoomed(actions: seq<Action>)
    requires AlwaysExact(actions) && !NeverTooEarly(actions)
    ensures Doomed(Line(Execute(actions)))
  {
    hide Exact, Line, Doomed, AcceptsTooEarly, Apply, Forgets;
    var n := |actions| - 1;
    var init, last := actions[..n], actions[n];
    assert forall k :: 0 <= k <= n ==> init[..k] == actions[..k];
    assert forall k :: 0 <= k < n ==> init[k] == actions[k];
    var s := Execute(init);
    if !NeverTooEarly(init) {
      TooEarlyRunIsDoomed(init);
      LastStep(actions);
      assert actions[..n] == init && actions[..n + 1] == actions;
      if Enabled(s, last) {
        DoomStays(s, last);
      }
    } else {
      assert AcceptsTooEarly(s, last);
      SubmitEnabled(s, last);
      TooEarlyDooms(s, last);
    }
  }

  lemma SubmitEnabled(s: State, a: Action)
    requires AcceptsTooEarly(s, a)
    ensures Enabled(s, a)
  {}

  /** When duplicates are suppressed, told at submit. As long as no request is accepted
      while its own busy notice is on its way, the table names exactly the requests in
      flight. Once one is, it has stopped doing so by the time the notices are gone. */
  lemma DuplicatesSuppressedExactly(actions: seq<Action>)
    ensures NeverTooEarly(actions) ==> AlwaysExact(actions)
    ensures (forall id :: !NoticeOutstanding(Execute(actions), id)) ==>
              (AlwaysExact(actions) <==> NeverTooEarly(actions))
  {
    hide AlwaysExact, NeverTooEarly, Execute, NoticeOutstanding, Line;
    if NeverTooEarly(actions) {
      NeverTooEarlyIsExact(actions);
    } else if AlwaysExact(actions) {
      TooEarlyRunIsDoomed(actions);
      var s := Execute(actions);
      var line := Line(s);
      var i, j :| 0 <= i < j < |line| && line[i].Busy? && line[j] == Final(line[i].id);
      LineMeans(s, line[i].id);
      assert Busy(line[i].id) in line;
    }
  }

  lemma Then(actions: seq<Action>, a: Action)
    requires Enabled(Execute(actions), a)
    ensures Execute(actions + [a]) == Apply(Execute(actions), a)
  {
    assert (actions + [a])[..|actions + [a]| - 1] == actions;
  }

  lemma Follow(actions: seq<Action>, a: Action) returns (s: State, longer: seq<Action>)
    requires Enabled(Execute(actions), a)
    ensures s == Execute(longer) == Apply(Execute(actions), a)
  {
    Then(actions, a);
    longer := actions + [a];
    s := Execute(longer);
  }

  /** Four requests have filled the queue. */
  lemma FullQueue() returns (actions: seq<Action>)
    ensures Execute(actions) ==
      State(["a", "b", "c", "d"], [], None, Idle, {"a", "b", "c", "d"}, ["a", "b", "c", "d"], [])
  {
    var s;
    actions := [];
    s, actions := Follow(actions, Submit("a"));
    s, actions := Follow(actions, Submit("b"));
    s, actions := Follow(actions, Submit("c"));
    s, actions := Follow(actions, Submit("d"));
    assert s.jobs == ["a", "b", "c", "d"] && s.pending == {"a", "b", "c", "d"};
  }

  /** With a busy notice the reverse inclusion fails: refused once for lack of
      room and accepted when sent again, a request loses its entry to its own
      stale notice, while its job is still queued. */
  lemma BusyNoticeForgetsLaterJob() returns (actions: seq<Action>)
    ensures "e" in Execute(actions).jobs && "e" !in Execute(actions).pending
  {
    actions := FullQueue();
    var s := Execute(actions);
    hide Execute;
    s, actions := Follow(actions, Submit("e"));
    assert s.results == [Busy("e")];
    s, actions := Follow(actions, TakeJob);
    assert s.jobs == ["b", "c", "d"];
    s, actions := Follow(actions, Submit("e"));
    assert s.jobs == ["b", "c", "d", "e"];
    s, actions := Follow(actions, TakeResult);
    s, actions := Follow(actions, SendReturns);
    s, actions := Follow(actions, ClearPending);
    assert s.jobs[3] == "e";
  }

  /** A peer that waits for its busy notice before it asks again is no safer: the entry is
      cleared after the send, and in between the request can be accepted. */
  lemma PatientPeerIsForgotten() returns (actions: seq<Action>)
    ensures "e" in Execute(actions).jobs && "e" !in Execute(actions).pending
  {
    actions := FullQueue();
    var s := Execute(actions);
    hide Execute;
    s, actions := Follow(actions, Submit("e"));
    s, actions := Follow(actions, TakeJob);
    s, actions := Follow(actions, TakeResult);
    s, actions := Follow(actions, SendReturns);
    assert s.writer == Clearing(Busy("e")) && s.jobs == ["b", "c", "d"];
    s, actions := Follow(actions, Submit("e"));
    s, actions := Follow(actions, ClearPending);
    assert s.jobs[3] == "e";
  }

  // ----------------------------------------------------------------- the worker

  class Worker {
    var jobs: seq<Id>
    var results: seq<Reply>
    var pending: set<Id>
    // The collector's and the writer's local variables, and the two logs.
    ghost var collecting: Option<Id>
    ghost var writer: Writer
    ghost var accepted: seq<Id>
    ghost var attempted: seq<Id>

    ghost function Now(): State
      reads this
    {
      State(jobs, results, collecting, writer, pending, accepted, attempted)
    }

    constructor ()
      ensures Now() == INIT && Inv(Now())
    {
      jobs, results, pending := [], [], {};
      collecting, writer, accepted, attempted := None, Idle, [], [];
      new;
      InitInv();
    }

    method Submit(id: Id)
      requires Inv(Now())
      modifies this
      ensures Now() == SubmitLocked(old(Now()), id) && Inv(Now())
    {
      hide Places, InFlight;
      ApplyKeepsOrder(Now(), Action.Submit(id));
      ApplyKeepsPending(Now(), Action.Submit(id));
      if id in pending {
        return;
      }
      if |jobs| < QUEUE_SIZE {
        jobs := jobs + [id];
        pending := pending + {id};
        accepted := accepted + [id];
      } else if |results| < RESULT_QUEUE_SIZE {
        results := results + [Busy(id)];
      }
    }

    /** One turn of the collector up to the point where it holds a result. */
    method Collect() returns (id: Id)
      requires Inv(Now()) && collecting.None? && jobs != []
      modifies this
      ensures id == old(jobs)[0] && Now() == Apply(old(Now()), TakeJob) && Inv(Now())
    {
      hide Places, InFlight;
      ApplyKeepsOrder(Now(), TakeJob);
      ApplyKeepsPending(Now(), TakeJob);
      id := jobs[0];
      jobs := jobs[1..];
      collecting := Some(id);
    }

    method Deliver(id: Id)
      requires Inv(Now()) && collecting == Some(id) && |results| < RESULT_QUEUE_SIZE
      modifies this
      ensures Now() == Apply(old(Now()), PutResult) && Inv(Now())
    {
      hide Places, InFlight;
      ApplyKeepsOrder(Now(), PutResult);
      ApplyKeepsPending(Now(), PutResult);
      results := results + [Final(id)];
      collecting := None;
    }

    /** The writer receives a reply and starts sending it. */
    method Receive() returns (reply: Reply)
      requires Inv(Now()) && writer.Idle? && results != []
      modifies this
      ensures reply == old(results)[0] && Now() == Apply(old(Now()), TakeResult) && Inv(Now())
    {
      hide Places, InFlight;
      ApplyKeepsOrder(Now(), TakeResult);
      ApplyKeepsPending(Now(), TakeResult);
      reply := results[0];
      results := results[1..];
      writer := Sending(reply);
    }

    /** The send is over, however it ended. */
    method Sent(reply: Reply)
      requires Inv(Now()) && writer == Sending(reply)
      modifies this
      ensures Now() == Apply(old(Now()), SendReturns) && Inv(Now())
    {
      hide Places, InFlight;
      ApplyKeepsOrder(Now(), SendReturns);
      ApplyKeepsPending(Now(), SendReturns);
      attempted := if reply.Final? then attempted + [reply.id] else attempted;
      writer := Clearing(reply);
    }

    method Clear(reply: Reply)
      requires Inv(Now()) && writer == Clearing(reply)
      modifies this
      ensures Now() == Apply(old(Now()), ClearPending) && Inv(Now())
    {
      hide Places, InFlight;
      ApplyKeepsOrder(Now(), ClearPending);
      ApplyKeepsPending(Now(), ClearPending);
      pending := pending - {reply.id};
      writer := Idle;
    }
  }
}
