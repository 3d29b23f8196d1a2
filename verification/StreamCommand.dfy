/** Starting and stopping a metrics stream: one sender keeps the latest command in a
    channel of capacity one, one consumer takes commands and publishes while the
    last one it took says start. */
module StreamCommand {
  import opened Common

  /** A command and its place in the order of the calls. */
  datatype Command = Command(number: nat, start: bool)

  datatype Sender =
    | Idle
    | Calling(command: Command)   // before the first select
    | Draining(command: Command)  // the channel was full
    | Sending(command: Command)   // at the last, unconditional send

  datatype Consumer =
    | Waiting              // in its select
    | Took(command: Command)
    | Starting             // publishing the first message of a stream
    | Gone

  datatype State = State(
    slot: Option<Command>,
    sender: Sender,
    consumer: Consumer,
    active: bool,
    ticking: bool,
    issued: seq<bool>,     // the command of every call so far
    taken: seq<nat>)       // the numbers of the commands received

  datatype Action =
    | Call(start: bool) | Try | Drain | Send
    | Take | Apply | Started(ok: bool) | Tick(ok: bool) | Cancel

  predicate Enabled(s: State, a: Action) {
    match a
    case Call(_) => s.sender.Idle?
    case Try => s.sender.Calling?
    case Drain => s.sender.Draining?
    case Send => s.sender.Sending? && s.slot.None?
    case Take => s.consumer.Waiting? && s.slot.Some?
    case Apply => s.consumer.Took?
    case Started(_) => s.consumer.Starting?
    case Tick(_) => s.consumer.Waiting? && s.ticking
    case Cancel => s.consumer.Waiting?
  }

  function Leave(s: State): State {
    s.(consumer := Gone, ticking := false)
  }

  function Next(s: State, a: Action): State
    requires Enabled(s, a)
  {
    match a
    case Call(start) =>
      s.(sender := Calling(Command(|s.issued|, start)), issued := s.issued + [start])
    case Try =>
      if s.slot.None? then s.(slot := Some(s.sender.command), sender := Idle)
      else s.(sender := Draining(s.sender.command))
    case Drain => s.(slot := None, sender := Sending(s.sender.command))
    case Send => s.(slot := Some(s.sender.command), sender := Idle)
    case Take =>
      s.(slot := None, consumer := Took(s.slot.value), taken := s.taken + [s.slot.value.number])
    case Apply =>
      var start := s.consumer.command.start;
      if start == s.active then s.(consumer := Waiting)
      else if !start then s.(active := false, ticking := false, consumer := Waiting)
      else s.(active := true, consumer := Starting)
    case Started(ok) => if ok then s.(ticking := true, consumer := Waiting) else Leave(s)
    case Tick(ok) => if ok then s else Leave(s)
    case Cancel => Leave(s)
  }

  /** The channel when a connection starts; a stream without a provider has no consumer. */
  function Init(live: bool): State {
    State(None, Idle, if live then Waiting else Gone, false, false, [], [])
  }

  /** Any interleaving; actions that cannot happen are passed over. */
  function Execute(s: State, actions: seq<Action>): State {
    if actions == [] then s else
    var t := Execute(s, actions[..|actions| - 1]);
    var a := actions[|actions| - 1];
    if Enabled(t, a) then Next(t, a) else t
  }

  // ------------------------------------------------------------------ invariant

  ghost predicate Increasing(numbers: seq<nat>) {
    forall i, j :: 0 <= i < j < |numbers| ==> numbers[i] < numbers[j]
  }

  ghost predicate Below(numbers: seq<nat>, bound: nat) {
    forall i :: 0 <= i < |numbers| ==> numbers[i] < bound
  }

  predicate Genuine(s: State, c: Command) {
    c.number < |s.issued| && s.issued[c.number] == c.start
  }

  predicate Latest(s: State, number: nat) {
    number + 1 == |s.issued|
  }

  ghost predicate ChannelInv(s: State) {
    && Increasing(s.taken)
    && Below(s.taken, |s.issued|)
    && (s.slot.Some? ==> Genuine(s, s.slot.value) && Below(s.taken, s.slot.value.number))
    && (s.sender.Sending? ==> s.slot.None?)
    && (!s.sender.Idle? ==>
          && Genuine(s, s.sender.command) && Latest(s, s.sender.command.number)
          && Below(s.taken, s.sender.command.number)
          && (s.slot.Some? ==> s.slot.value.number < s.sender.command.number))
    && (s.sender.Idle? && s.issued != [] ==>
          if s.slot.Some? then Latest(s, s.slot.value.number)
          else s.taken != [] && Latest(s, s.taken[|s.taken| - 1]))
  }

  /** What the consumer was last told, and whether it streams. */
  predicate ConsumerInv(s: State) {
    match s.consumer
    case Took(c) =>
      Genuine(s, c) && s.taken != [] && s.taken[|s.taken| - 1] == c.number && s.ticking == s.active
    case Waiting => Obeys(s) && s.ticking == s.active
    case Starting => Obeys(s) && s.active && !s.ticking
    case Gone => !s.ticking
  }

  /** The consumer's state is the last command it took, and off before the first. */
  predicate Obeys(s: State) {
    if s.taken == [] then !s.active
    else s.taken[|s.taken| - 1] < |s.issued| && s.active == s.issued[s.taken[|s.taken| - 1]]
  }

  ghost predicate Inv(s: State) {
    ChannelInv(s) && ConsumerInv(s)
  }

  lemma CallKeepsChannel(s: State, start: bool)
    requires ChannelInv(s) && Enabled(s, Call(start))
    ensures ChannelInv(Next(s, Call(start)))
  {}

  lemma SenderKeepsChannel(s: State, a: Action)
    requires ChannelInv(s) && Enabled(s, a) && (a.Try? || a.Drain? || a.Send?)
    ensures ChannelInv(Next(s, a))
  {
    hide Increasing, Below;
    assert Next(s, a).taken == s.taken;
  }

  lemma TakeKeepsChannel(s: State)
    requires ChannelInv(s) && Enabled(s, Take)
    ensures ChannelInv(Next(s, Take))
  {}

  lemma ConsumerKeepsChannel(s: State, a: Action)
    requires ChannelInv(s) && Enabled(s, a)
    requires a.Apply? || a.Started? || a.Tick? || a.Cancel?
    ensures ChannelInv(Next(s, a))
  {
    hide Increasing, Below;
    var t := Next(s, a);
    assert t.taken == s.taken && t.slot == s.slot && t.sender == s.sender && t.issued == s.issued;
  }

  lemma NextKeepsConsumer(s: State, a: Action)
    requires Inv(s) && Enabled(s, a)
    ensures ConsumerInv(Next(s, a))
  {
    hide Increasing, Latest;
  }

  lemma NextKeepsInv(s: State, a: Action)
    requires Inv(s) && Enabled(s, a)
    ensures Inv(Next(s, a))
  {
    hide ChannelInv, ConsumerInv, Next;
    NextKeepsConsumer(s, a);
    match a {
      case Call(start) => CallKeepsChannel(s, start);
      case Try => SenderKeepsChannel(s, a);
      case Drain => SenderKeepsChannel(s, a);
      case Send => SenderKeepsChannel(s, a);
      case Take => TakeKeepsChannel(s);
      case _ => ConsumerKeepsChannel(s, a);
    }
  }

  lemma {:induction false} ExecuteKeepsInv(s: State, actions: seq<Action>)
    requires Inv(s)
    ensures Inv(Execute(s, actions))
  {
    hide Inv, Next;
    if actions != [] {
      ExecuteKeepsInv(s, actions[..|actions| - 1]);
      var t := Execute(s, actions[..|actions| - 1]);
      if Enabled(t, actions[|actions| - 1]) {
        NextKeepsInv(t, actions[|actions| - 1]);
      }
    }
  }

  // ------------------------------------------------------------------- theorems

  /** With a single sender the last send of a call finds room in every interleaving,
      whether or not a consumer is there. */
  lemma {:induction false} FinalSendNeverBlocks(live: bool, actions: seq<Action>)
    ensures
      var s := Execute(Init(live), actions);
      s.sender.Sending? ==> Enabled(s, Send)
  {
    ExecuteKeepsInv(Init(live), actions);
  }

  function Remaining(sender: Sender): nat {
    match sender case Idle => 0 case Calling(_) => 3 case Draining(_) => 2 case Sending(_) => 1
  }

  /** The step the sender is about to take. */
  function Pending(sender: Sender): Action
    requires !sender.Idle?
  {
    match sender case Calling(_) => Try case Draining(_) => Drain case Sending(_) => Send
  }

  /** A call ends within three steps of its own: it can always take the next one, each
      brings the end nearer, and no step of the consumer takes it further away. */
  lemma {:induction false} CallsReturn(live: bool, actions: seq<Action>, a: Action)
    ensures
      var s := Execute(Init(live), actions);
      !s.sender.Idle? ==>
        && Enabled(s, Pending(s.sender))
        && Remaining(Next(s, Pending(s.sender)).sender) < Remaining(s.sender) <= 3
        && (Enabled(s, a) && a != Pending(s.sender) ==> Next(s, a).sender == s.sender)
  {
    ExecuteKeepsInv(Init(live), actions);
  }

  /** Between calls the last command is never lost: it is in the channel or was the last
      one taken, and then a consumer that is still there holds it or has obeyed it. */
  lemma LatestCommandWins(live: bool, actions: seq<Action>)
    ensures
      var s := Execute(Init(live), actions);
      s.sender.Idle? && s.issued != [] ==>
        var last := s.issued[|s.issued| - 1];
        && (s.slot.Some? ==> s.slot.value.start == last)
        && (s.slot.None? && s.consumer.Took? ==> s.consumer.command.start == last)
        && (s.slot.None? && (s.consumer.Waiting? || s.consumer.Starting?) ==> s.active == last)
  {
    ExecuteKeepsInv(Init(live), actions);
  }

  /** Commands arrive in the order they were given, none twice, and each with its own value. */
  lemma NothingStale(live: bool, actions: seq<Action>)
    ensures
      var s := Execute(Init(live), actions);
      && Increasing(s.taken) && Below(s.taken, |s.issued|)
      && (s.slot.Some? ==> Genuine(s, s.slot.value) && Below(s.taken, s.slot.value.number))
      && (s.consumer.Took? ==>
            && s.taken != [] && s.taken[|s.taken| - 1] == s.consumer.command.number
            && Genuine(s, s.consumer.command))
  {
    ExecuteKeepsInv(Init(live), actions);
  }

  /** A periodic message is only ever published while the last command taken said start. */
  lemma PublishesOnlyWhileStarted(live: bool, actions: seq<Action>, ok: bool)
    ensures
      var s := Execute(Init(live), actions);
      Enabled(s, Tick(ok)) ==>
        s.taken != [] && Genuine(s, Command(s.taken[|s.taken| - 1], true))
  {
    ExecuteKeepsInv(Init(live), actions);
  }

  /** What a consumer left alone does: finish the command in hand, then the one waiting. */
  function Settle(s: State): State {
    Step(Step(Step(Step(Step(s, Apply), Started(true)), Take), Apply), Started(true))
  }

  function Step(s: State, a: Action): State {
    if Enabled(s, a) then Next(s, a) else s
  }

  /** Once calls stop, a live consumer ends up doing what the last command says. */
  lemma Settles(live: bool, actions: seq<Action>)
    ensures
      var s := Execute(Init(live), actions);
      s.sender.Idle? && !s.consumer.Gone? && s.issued != [] ==>
        var t := Settle(s);
        && t.slot.None? && t.consumer.Waiting?
        && t.active == t.ticking == s.issued[|s.issued| - 1]
  {
    var s := Execute(Init(live), actions);
    ExecuteKeepsInv(Init(live), actions);
    hide Execute;
    if s.sender.Idle? && !s.consumer.Gone? && s.issued != [] {
      FinishesHand(s);
      var t := Step(Step(s, Apply), Started(true));
      hide ChannelInv, ConsumerInv, Next;
      StepKeepsInv(t, Take);
      TakesLast(t);
      FinishesHand(Step(t, Take));
      WaitingObeysLast(Settle(s));
    }
  }

  lemma FinishesHand(s: State)
    requires Inv(s) && !s.consumer.Gone?
    ensures
      var t := Step(Step(s, Apply), Started(true));
      && Inv(t) && t.consumer.Waiting? && t.slot == s.slot && t.issued == s.issued
      && t.sender == s.sender && t.taken == s.taken
  {
    StepKeepsInv(s, Apply);
    StepKeepsInv(Step(s, Apply), Started(true));
    hide ChannelInv, Obeys, Genuine;
  }

  lemma WaitingObeysLast(s: State)
    requires Inv(s) && s.consumer.Waiting? && s.taken != [] && Latest(s, s.taken[|s.taken| - 1])
    ensures s.active == s.ticking == s.issued[|s.issued| - 1]
  {}

  lemma TakesLast(s: State)
    requires Inv(s) && s.consumer.Waiting? && s.sender.Idle? && s.issued != []
    ensures
      var t := Step(s, Take);
      && !t.consumer.Gone? && t.slot.None? && t.sender.Idle? && t.issued == s.issued
      && t.taken != [] && Latest(t, t.taken[|t.taken| - 1])
  {
    hide Increasing, Below, ConsumerInv;
  }

  lemma StepKeepsInv(s: State, a: Action)
    requires Inv(s)
    ensures Inv(Step(s, a))
  {
    if Enabled(s, a) {
      NextKeepsInv(s, a);
    }
  }

  // ------------------------------------------------------- the code's own shape

  predicate IsConsumer(a: Action) {
    !a.Call? && !a.Try? && !a.Drain? && !a.Send?
  }

  predicate OnlyConsumer(actions: seq<Action>) {
    forall i :: 0 <= i < |actions| ==> IsConsumer(actions[i])
  }

  lemma {:induction false} ExecuteConcat(s: State, first: seq<Action>, second: seq<Action>)
    ensures Execute(s, first + second) == Execute(Execute(s, first), second)
  {
    if second == [] {
      assert first + second == first;
    } else {
      var init := second[..|second| - 1];
      ExecuteConcat(s, first, init);
      assert (first + second)[..|first + second| - 1] == first + init;
    }
  }

  lemma ExecuteNothing(s: State)
    ensures Execute(s, []) == s
  {}

  lemma ExecuteOne(s: State, a: Action)
    ensures Execute(s, [a]) == Step(s, a)
  {
    assert [a][..0] == [];
  }

  /** The actions of one call during which the consumer does `first` after the channel was
      found full and `second` after it was emptied. */
  function CallActions(full: bool, start: bool, first: seq<Action>, second: seq<Action>): seq<Action> {
    if full then [Call(start)] + [Try] + first + [Drain] + second + [Send] else [Call(start)] + [Try]
  }

  class Stream {
    var slot: Option<Command>
    var consumer: Consumer
    var active: bool
    var ticking: bool
    ghost var issued: seq<bool>
    ghost var taken: seq<nat>
    var calls: nat

    ghost function Now(sender: Sender): State
      reads this
    {
      State(slot, sender, consumer, active, ticking, issued, taken)
    }

    ghost predicate Valid()
      reads this
    {
      Inv(Now(Idle)) && calls == |issued|
    }

    constructor (live: bool)
      ensures Valid() && Now(Idle) == Init(live)
    {
      slot, consumer, active, ticking, calls := None, if live then Waiting else Gone, false, false, 0;
      issued, taken := [], [];
    }

    /** One step of the consumer's loop. */
    method Consume(a: Action, ghost sender: Sender)
      requires IsConsumer(a) && Enabled(Now(sender), a)
      modifies this
      ensures Now(sender) == Next(old(Now(sender)), a) && calls == old(calls) && issued == old(issued)
    {
      match a {
        case Take =>
          taken := taken + [slot.value.number];
          consumer := Took(slot.value);
          slot := None;
        case Apply =>
          var start := consumer.command.start;
          consumer := Waiting;
          if start != active {
            active := start;
            if start {
              consumer := Starting;
            } else {
              ticking := false;
            }
          }
        case Started(ok) =>
          ticking := ok;
          consumer := if ok then Waiting else Gone;
        case Tick(ok) =>
          if !ok {
            ticking, consumer := false, Gone;
          }
        case Cancel =>
          ticking, consumer := false, Gone;
      }
    }

    /** Whatever the consumer gets to do between two steps of the sender. */
    method Interfere(actions: seq<Action>, ghost sender: Sender)
      requires OnlyConsumer(actions)
      modifies this
      ensures Now(sender) == Execute(old(Now(sender)), actions) && calls == old(calls) && issued == old(issued)
    {
      assert actions[..0] == [];
      for i := 0 to |actions|
        invariant Now(sender) == Execute(old(Now(sender)), actions[..i]) && calls == old(calls) && issued == old(issued)
      {
        assert actions[..i + 1][..i] == actions[..i];
        assert IsConsumer(actions[i]);
        if CanConsume(actions[i]) {
          Consume(actions[i], sender);
        }
      }
      assert actions[..|actions|] == actions;
    }

    predicate CanConsume(a: Action)
      reads this
      requires IsConsumer(a)
      ensures forall sender :: CanConsume(a) == Enabled(Now(sender), a)
    {
      match a
      case Take => consumer.Waiting? && slot.Some?
      case Apply => consumer.Took?
      case Started(_) => consumer.Starting?
      case Tick(_) => consumer.Waiting? && ticking
      case Cancel => consumer.Waiting?
    }

    /** One call. The last send is reached only with the channel empty. */
    method SetStreamState(start: bool, first: seq<Action>, second: seq<Action>)
      requires Valid() && OnlyConsumer(first) && OnlyConsumer(second)
      modifies this
      ensures Valid()
      ensures Now(Idle) == Execute(old(Now(Idle)), CallActions(old(slot).Some?, start, first, second))
    {
      hide ChannelInv, ConsumerInv, Execute;
      var command := Command(calls, start);
      ghost var before := Now(Idle);
      issued, calls := issued + [start], calls + 1;
      ghost var trace := [Call(start)];
      ExecuteNothing(before);
      assert [] + [Call(start)] == trace;
      Stepped(before, [], Call(start), Now(Calling(command)));
      if slot.None? {
        slot := Some(command);
        Stepped(before, trace, Try, Now(Idle));
      } else {
        Stepped(before, trace, Try, Now(Draining(command)));
        trace := trace + [Try];
        Interfere(first, Draining(command));
        ExecuteConcat(before, trace, first);
        trace := trace + first;
        slot := None;
        Stepped(before, trace, Drain, Now(Sending(command)));
        trace := trace + [Drain];
        Interfere(second, Sending(command));
        ExecuteConcat(before, trace, second);
        trace := trace + second;
        Empty(before, trace);
        assert slot.None?;
        slot := Some(command);
        Stepped(before, trace, Send, Now(Idle));
      }
    }
  }

  /** After a trace and one more step. */
  lemma Stepped(s: State, trace: seq<Action>, a: Action, t: State)
    requires Inv(s)
    requires Enabled(Execute(s, trace), a) && t == Next(Execute(s, trace), a)
    ensures Execute(s, trace + [a]) == t && Inv(t)
  {
    ExecuteConcat(s, trace, [a]);
    ExecuteOne(Execute(s, trace), a);
    ExecuteKeepsInv(s, trace + [a]);
  }

  lemma Empty(s: State, trace: seq<Action>)
    requires Inv(s) && Execute(s, trace).sender.Sending?
    ensures Execute(s, trace).slot.None?
  {
    ExecuteKeepsInv(s, trace);
  }
}
