/** First-wins cancellation of one agent. The decision to cancel, the clearing of the
    inbox it implies, and every inbox verb are separate critical sections, so they
    interleave freely. */
module AgentCancel {
  import opened Inboxes
  import opened InboxRuns

  datatype Cause = User | Disposed | Other(text: string)

  datatype CancelOptions = CancelOptions(cause: Cause, keepInbox: bool)

  /** `clears` counts cancellations that are recorded but whose clear has not run yet;
      `cleared` remembers that one has run. */
  datatype Agent = Agent(
    cancellation: Option<CancelOptions>, disposed: bool, sys: System, clears: nat, cleared: bool)

  const NEW_AGENT := Agent(None, false, INITIAL, 0, false)

  predicate Open(a: Agent) {
    !a.disposed && a.cancellation.None?
  }

  /** The verbs that check the agent state before they touch the inbox. Commits,
      aborts, claims and takes go straight to the inbox. */
  predicate Guarded(st: Step) {
    st.Send? || st.OnePhase? || st.ReserveUpdate?
  }

  datatype Action =
    | Cancel(options: CancelOptions)
    | Dispose
    | RunClear
    | Verb(step: Step, running: bool)

  function CancelStep(a: Agent, options: CancelOptions): Agent {
    if !Open(a) then a
    else a.(cancellation := Some(options), clears := if options.keepInbox then a.clears else a.clears + 1)
  }

  function DisposeStep(a: Agent): Agent {
    if a.disposed then a
    else if a.cancellation.Some? then a.(disposed := true)
    else a.(disposed := true, cancellation := Some(CancelOptions(Disposed, false)), clears := a.clears + 1)
  }

  function ClearStep(a: Agent): Agent {
    if a.clears == 0 then a
    else a.(sys := Next(a.sys, Clear), clears := a.clears - 1, cleared := true)
  }

  /** A steer is refused up front while the driver is idle. */
  function VerbStep(a: Agent, st: Step, running: bool): Agent {
    if st == Clear || (Guarded(st) && !Open(a)) then a
    else match st
      case OnePhase(_, MoveToStep) => if running then a.(sys := Next(a.sys, st)) else a
      case ReserveUpdate(id, u, _) => a.(sys := Next(a.sys, ReserveUpdate(id, u, running)))
      case _ => a.(sys := Next(a.sys, st))
  }

  function AgentNext(a: Agent, action: Action): Agent {
    match action
    case Cancel(options) => CancelStep(a, options)
    case Dispose => DisposeStep(a)
    case RunClear => ClearStep(a)
    case Verb(st, running) => VerbStep(a, st, running)
  }

  function AgentRun(a: Agent, actions: seq<Action>): Agent
    decreases |actions|
  {
    if actions == [] then a else AgentRun(AgentNext(a, actions[0]), actions[1..])
  }

  predicate Empty(v: View) {
    v.turn == [] && v.step == []
  }

  ghost predicate CancelInv(a: Agent) {
    && (a.clears > 0 || a.cleared || a.disposed ==> a.cancellation.Some?)
    && (a.cleared ==> Empty(a.sys.v))
  }

  /** Only a send can make an empty inbox non-empty: no outstanding reservation,
      whatever it says, can put anything back. */
  lemma EmptyStays(s: System, st: Step)
    requires Empty(s.v) && !st.Send?
    ensures Empty(Next(s, st).v)
  {
    match st {
      case Commit(k) =>
        if k in s.tokens && s.tokens[k].UpdateToken? {
          var r := s.tokens[k].reservation;
          assert !ReservationHolds(s.v, r);
        }
      case OnePhase(id, u) => assert Addressed(s.v, id).None?;
      case _ =>
    }
  }

  lemma CancelInvStep(a: Agent, action: Action)
    requires CancelInv(a)
    ensures CancelInv(AgentNext(a, action))
    ensures a.cancellation.Some? ==> AgentNext(a, action).cancellation == a.cancellation
    ensures a.disposed ==> AgentNext(a, action).disposed
    ensures a.cleared ==> AgentNext(a, action).cleared
  {
    match action {
      case Verb(st, running) =>
        if a.cleared && !st.Send? {
          EmptyStays(a.sys, st);
          if st.ReserveUpdate? { EmptyStays(a.sys, ReserveUpdate(st.id, st.update, running)); }
        }
      case _ =>
    }
  }

  /** From any state on: the recorded cancellation is never replaced, and once the
      clear of a non-keeping cancellation or of a dispose has run, the inbox is empty
      in every later state, whatever reservations were taken before. */
  lemma {:induction false} FirstWins(a: Agent, actions: seq<Action>)
    requires CancelInv(a)
    ensures var z := AgentRun(a, actions);
            && CancelInv(z)
            && (a.cancellation.Some? ==> z.cancellation == a.cancellation)
            && (a.cleared ==> Empty(z.sys.v))
            && (a.clears > 0 && RunClear in actions ==> Empty(z.sys.v))
    decreases |actions|
  {
    hide AgentNext;
    if actions != [] {
      var b := AgentNext(a, actions[0]);
      CancelInvStep(a, actions[0]);
      ClearsOnlyRun(a, actions[0]);
      assert actions == [actions[0]] + actions[1..];
      FirstWins(b, actions[1..]);
    }
  }

  lemma ClearsOnlyRun(a: Agent, action: Action)
    ensures a.clears > 0 ==> if action == RunClear then AgentNext(a, action).cleared else AgentNext(a, action).clears > 0
  {
  }

  predicate Unguarded(action: Action) {
    action.Verb? && action.step != Clear && !Guarded(action.step)
  }

  /** The takes, claims, commits and aborts among the actions, in order. */
  function OwnVerbs(actions: seq<Action>): seq<Step> {
    if actions == [] then []
    else if Unguarded(actions[0]) then [actions[0].step] + OwnVerbs(actions[1..])
    else OwnVerbs(actions[1..])
  }

  lemma KeptStep(a: Agent, action: Action)
    requires a.cancellation.Some? && a.clears == 0 && !a.cleared
    ensures var b := AgentNext(a, action);
            && b.cancellation == a.cancellation && b.clears == 0 && !b.cleared
            && b.sys == if Unguarded(action) then Next(a.sys, action.step) else a.sys
  {
    hide Next;
  }

  /** A cancellation that keeps the inbox really keeps it: from then on the inbox changes by nothing but
      the takes, claims, commits and aborts that were called, in their order. */
  lemma {:induction false} KeepingCancelNeverClears(a: Agent, actions: seq<Action>)
    requires a.cancellation.Some? && a.clears == 0 && !a.cleared
    ensures var z := AgentRun(a, actions);
            z.clears == 0 && !z.cleared && z.cancellation == a.cancellation && z.sys == Run(a.sys, OwnVerbs(actions))
    decreases |actions|
  {
    hide Next, AgentNext;
    if actions != [] {
      KeptStep(a, actions[0]);
      KeepingCancelNeverClears(AgentNext(a, actions[0]), actions[1..]);
      if Unguarded(actions[0]) {
        assert OwnVerbs(actions)[1..] == OwnVerbs(actions[1..]);
      }
    }
  }

  /** While the agent is open every verb reaches its inbox: the inbox takes exactly that step. Only a
      steer needs a running driver; an agent that was cancelled or disposed refuses the guarded
      verbs and passes on the others. */
  lemma VerbReaches(a: Agent, st: Step, running: bool)
    requires st != Clear
    ensures var b := AgentNext(a, Verb(st, running));
            var reached := if st.ReserveUpdate? then ReserveUpdate(st.id, st.update, running) else st;
            && b == a.(sys := b.sys)
            && (if st.Send? || st.OnePhase? || st.ReserveUpdate? then
                  b.sys == if !a.disposed && a.cancellation.None? && !(st.OnePhase? && st.update.MoveToStep? && !running)
                           then Next(a.sys, reached) else a.sys
                else b.sys == Next(a.sys, st))
  {
    hide Next;
  }

  /** The first cancellation of an agent that is neither cancelled nor disposed is the one on record in
      every later state. Unless it keeps the inbox, the inbox is empty once its clear has run. */
  lemma CancelTakesEffect(a: Agent, options: CancelOptions, actions: seq<Action>)
    requires CancelInv(a) && !a.disposed && a.cancellation.None?
    ensures var z := AgentRun(AgentNext(a, Cancel(options)), actions);
            && z.cancellation == Some(options)
            && (!options.keepInbox && RunClear in actions ==> Empty(z.sys.v))
            && (options.keepInbox ==> !z.cleared && z.sys == Run(a.sys, OwnVerbs(actions)))
  {
    hide AgentRun, Run;
    var b := AgentNext(a, Cancel(options));
    CancelInvStep(a, Cancel(options));
    FirstWins(b, actions);
    if options.keepInbox {
      KeepingCancelNeverClears(b, actions);
    }
  }

  /** A dispose leaves the agent disposed for good. It keeps an earlier cancellation, and otherwise
      records its own and empties the inbox once its clear has run. */
  lemma {:induction false} DisposeTakesEffect(a: Agent, actions: seq<Action>)
    requires CancelInv(a) && !a.disposed
    ensures var z := AgentRun(AgentNext(a, Dispose), actions);
            && z.disposed
            && z.cancellation == (if a.cancellation.Some? then a.cancellation else Some(CancelOptions(Disposed, false)))
            && (a.cancellation.None? && RunClear in actions ==> Empty(z.sys.v))
  {
    hide AgentRun;
    CancelInvStep(a, Dispose);
    FirstWins(AgentNext(a, Dispose), actions);
    DisposedStays(AgentNext(a, Dispose), actions);
  }

  lemma {:induction false} DisposedStays(a: Agent, actions: seq<Action>)
    requires CancelInv(a) && a.disposed
    ensures AgentRun(a, actions).disposed
    decreases |actions|
  {
    hide AgentNext, CancelInv;
    if actions != [] {
      CancelInvStep(a, actions[0]);
      DisposedStays(AgentNext(a, actions[0]), actions[1..]);
    }
  }

  /** Once a cancellation is on record no run accepts another message. */
  lemma {:induction false} NothingAccepted(a: Agent, actions: seq<Action>)
    requires CancelInv(a) && a.cancellation.Some?
    ensures AgentRun(a, actions).sys.sent == a.sys.sent
    decreases |actions|
  {
    hide AgentNext, CancelInv;
    if actions != [] {
      CancelInvStep(a, actions[0]);
      RefusesSends(a, actions[0]);
      NothingAccepted(AgentNext(a, actions[0]), actions[1..]);
    }
  }

  lemma RefusesSends(a: Agent, action: Action)
    requires a.cancellation.Some?
    ensures AgentNext(a, action).sys.sent == a.sys.sent
  {
  }

  /** The critical sections of one agent, over its own inbox object. */
  class AgentInner {
    var cancellation: Option<CancelOptions>
    var disposed: bool
    const inbox: Inbox

    ghost predicate Valid()
      reads this, inbox
    {
      inbox.Valid() && (disposed ==> cancellation.Some?)
    }

    constructor (inbox: Inbox)
      requires inbox.Valid()
      ensures Valid() && this.inbox == inbox && cancellation == None && !disposed
    {
      this.inbox := inbox;
      cancellation := None;
      disposed := false;
    }

    /** Records first, then clears; answers whether this call won. */
    method CancelIncludingIdle(options: CancelOptions) returns (won: bool)
      requires Valid()
      modifies this, inbox
      ensures Valid() && disposed == old(disposed)
      ensures won == old(cancellation).None?
      ensures cancellation == if won then Some(options) else old(cancellation)
      ensures inbox.Contents() == if won && !options.keepInbox then ClearView(old(inbox.Contents())) else old(inbox.Contents())
    {
      if disposed || cancellation.Some? { return false; }
      cancellation := Some(options);
      if !options.keepInbox { inbox.Clear(); }
      won := true;
    }

    method Send(message: Message, target: Target, wakeup: bool) returns (r: Option<SendResult>)
      requires Valid()
      modifies inbox
      ensures Valid()
      ensures r.None? <==> cancellation.Some?
      ensures r.Some? ==> r.value == SendResultOf(old(inbox.Contents()), message)
      ensures inbox.Contents() == if r.None? then old(inbox.Contents()) else SendView(old(inbox.Contents()), message, target, wakeup)
    {
      if disposed || cancellation.Some? { return None; }
      var sent := inbox.Send(message, target, wakeup);
      r := Some(sent);
    }

    /** The state part of dispose: marks the agent, and clears unless a cancellation
        was recorded before. Repeating it after a failed cleanup changes nothing. */
    method MarkDisposed()
      requires Valid()
      modifies this, inbox
      ensures Valid() && disposed
      ensures cancellation == if old(cancellation).Some? then old(cancellation) else Some(CancelOptions(Disposed, false))
      ensures inbox.Contents() == if old(cancellation).None? then ClearView(old(inbox.Contents())) else old(inbox.Contents())
    {
      var clear := false;
      if !disposed {
        disposed := true;
        if cancellation.None? {
          cancellation := Some(CancelOptions(Disposed, false));
          clear := true;
        }
      }
      if clear { inbox.Clear(); }
    }
  }
}
