/** What the registry does get done: a setup nobody gave up becomes live, an abandoned one makes
    room again, an agent can be disposed of and its session started anew, and a shutdown ends. */
module RegistryProgress {
  import opened Registry

  lemma {:induction false} RunConcat(s: System, a: seq<Action>, b: seq<Action>)
    ensures Run(s, a + b) == Run(Run(s, a), b)
    decreases |a|
  {
    hide Next;
    if a == [] {
      assert a + b == b;
    } else {
      assert (a + b)[1..] == a[1..] + b;
      RunConcat(Next(s, a[0]), a[1..], b);
    }
  }

  lemma RunTwo(s: System, a: Action, b: Action)
    ensures Run(s, [a, b]) == Next(Next(s, a), b)
  {
    hide Next;
    RunOne(s, a);
    RunOne(Next(s, a), b);
    RunConcat(s, [a], [b]);
    assert [a] + [b] == [a, b];
  }

  lemma RunOne(s: System, a: Action)
    ensures Run(s, [a]) == Next(s, a)
  {
    hide Next;
    assert [a][1..] == [];
  }

  // ---------------------------------------------------------------------
  // Why a setup is abandoned
  // ---------------------------------------------------------------------

  predicate GivenUp(s: System, t: nat) {
    t in s.tasks && (s.tasks[t].phase.Abandoning? || s.tasks[t].phase == Offered(true))
  }

  /** Its setup was cancelled or its caller is gone. */
  predicate Unwanted(s: System, t: nat) {
    t in s.tasks && (s.tasks[t].cancelled || s.tasks[t].callerGone)
  }

  /** The caller tried to accept and was refused, because of a cancellation or a shutdown. */
  predicate RefusedBy(s: System, a: Action, t: nat) {
    && a == Accept(t)
    && t in s.tasks && s.tasks[t].phase == Offered(false)
    && (s.tasks[t].cancelled || s.core.disposal.Some?)
  }

  ghost predicate RefusedIn(s: System, actions: seq<Action>, t: nat)
    decreases |actions|
  {
    actions != [] && (RefusedBy(s, actions[0], t) || RefusedIn(Next(s, actions[0]), actions[1..], t))
  }

  lemma CauseStep(s: System, a: Action, t: nat)
    requires Inv(s)
    ensures GivenUp(Next(s, a), t) ==> GivenUp(s, t) || Unwanted(Next(s, a), t) || RefusedBy(s, a, t)
    ensures Unwanted(s, t) ==> Unwanted(Next(s, a), t)
    ensures t in s.tasks ==> t in Next(s, a).tasks && Next(s, a).tasks[t].session == s.tasks[t].session
  {
    hide Inv, TaskStep, AgentStep, DisposalStep;
    NamedEarlier(s, t);
    if t in s.tasks && s.tasks[t].phase.Offered? {
      NeverLost(s, t);
    }
    TaskCause(s, a, t);
    DisposalTasks(s, a, t);
    AgentTasks(s, a);
  }

  lemma NamedEarlier(s: System, t: nat)
    requires Inv(s)
    ensures t in s.tasks ==> t < s.nextName
  {
  }

  lemma TaskCause(s: System, a: Action, t: nat)
    requires t in s.tasks ==> t < s.nextName
    requires t in s.tasks && s.tasks[t].phase.Offered? ==>
               AcceptOf(s.core, s.tasks[t].session, t, s.tasks[t].cancelled) != ReservationLost
    ensures GivenUp(TaskStep(s, a), t) ==> GivenUp(s, t) || Unwanted(TaskStep(s, a), t) || RefusedBy(s, a, t)
    ensures Unwanted(s, t) ==> Unwanted(TaskStep(s, a), t)
    ensures t in s.tasks ==> t in TaskStep(s, a).tasks && TaskStep(s, a).tasks[t].session == s.tasks[t].session
  {
    hide ReserveCore, DropCore, CleanupCore, AcceptCore;
  }

  lemma DisposalTasks(s: System, a: Action, t: nat)
    ensures t in DisposalStep(s, a).tasks <==> t in s.tasks
    ensures t in s.tasks ==>
              && DisposalStep(s, a).tasks[t].phase == s.tasks[t].phase
              && DisposalStep(s, a).tasks[t].session == s.tasks[t].session
              && (s.tasks[t].cancelled ==> DisposalStep(s, a).tasks[t].cancelled)
              && DisposalStep(s, a).tasks[t].callerGone == s.tasks[t].callerGone
  {
  }

  lemma AgentTasks(s: System, a: Action)
    ensures AgentStep(s, a).tasks == s.tasks
  {
  }

  lemma {:induction false} CauseRun(s: System, actions: seq<Action>, t: nat)
    requires Inv(s)
    ensures GivenUp(Run(s, actions), t) ==> GivenUp(s, t) || Unwanted(Run(s, actions), t) || RefusedIn(s, actions, t)
    ensures Unwanted(s, t) ==> Unwanted(Run(s, actions), t)
    decreases |actions|
  {
    hide Inv, Next, GivenUp, Unwanted, RefusedBy;
    if actions != [] {
      CauseStep(s, actions[0], t);
      InvStep(s, actions[0]);
      CauseRun(Next(s, actions[0]), actions[1..], t);
    }
  }

  /** In every run a built driver is abandoned only if its setup was cancelled, its caller vanished,
      or its acceptance was refused because of a cancellation or a shutdown. */
  lemma AbandonedForCause(actions: seq<Action>, t: nat)
    requires t in Run(EMPTY, actions).tasks && Run(EMPTY, actions).tasks[t].phase.Abandoning?
    ensures Unwanted(Run(EMPTY, actions), t) || RefusedIn(EMPTY, actions, t)
  {
    hide Next, Run, RefusedIn;
    EmptyInv();
    CauseRun(EMPTY, actions, t);
  }

  // ---------------------------------------------------------------------
  // A stopped setup never becomes live
  // ---------------------------------------------------------------------

  /** No agent came out of task `t`. */
  predicate Unborn(s: System, t: nat) {
    forall a :: a in s.agents ==> s.agents[a].task != t
  }

  /** Cancels the setup, loses its caller, or begins a shutdown that finds it starting. */
  ghost predicate Stops(s: System, a: Action, t: nat) {
    && t in s.tasks
    && match a
       case CancelSetup(u) => u == t
       case CallerVanishes(u) => u == t
       case SnapshotSetups(d) =>
         && d in s.disposals && s.core.disposal == Some(d) && s.disposals[d].phase == Fresh
         && exists id :: id in s.core.starting && s.core.starting[id].task == t
       case _ => false
  }

  lemma StopsUnwanted(s: System, a: Action, t: nat)
    requires Stops(s, a, t)
    ensures Unwanted(Next(s, a), t)
    ensures Unborn(s, t) ==> Unborn(Next(s, a), t)
  {
    hide AgentStep;
    if a.SnapshotSetups? {
      assert t in SetupsOf(s.core.starting);
    }
  }

  lemma UnbornStep(s: System, a: Action, t: nat)
    requires Unwanted(s, t) && Unborn(s, t)
    ensures Unborn(Next(s, a), t)
  {
    UnbornTask(s, a, t);
    UnbornAgent(s, a, t);
    UnbornDisposal(s, a);
    hide TaskStep, AgentStep, DisposalStep, Unwanted;
  }

  lemma UnbornTask(s: System, a: Action, t: nat)
    requires Unwanted(s, t) && Unborn(s, t)
    ensures Unborn(TaskStep(s, a), t)
  {
    hide ReserveCore, DropCore, CleanupCore, AcceptCore;
  }

  lemma UnbornAgent(s: System, a: Action, t: nat)
    requires Unborn(s, t)
    ensures Unborn(AgentStep(s, a), t)
  {
    hide Returned, RemoveCore;
  }

  lemma UnbornDisposal(s: System, a: Action)
    ensures DisposalStep(s, a).agents == s.agents
  {
  }

  lemma {:induction false} UnbornRun(s: System, actions: seq<Action>, t: nat)
    requires Inv(s) && Unwanted(s, t) && Unborn(s, t)
    ensures Unborn(Run(s, actions), t)
    decreases |actions|
  {
    hide Inv, Next, Unwanted, Unborn;
    if actions != [] {
      CauseStep(s, actions[0], t);
      InvStep(s, actions[0]);
      UnbornStep(s, actions[0], t);
      UnbornRun(Next(s, actions[0]), actions[1..], t);
    }
  }

  /** From every state: once its setup was cancelled, its caller vanished, or a shutdown found it starting, a
      task that has no agent yet never gets one, whatever happens later. */
  lemma StoppedNeverLive(s: System, a: Action, t: nat, actions: seq<Action>)
    requires Inv(s) && Stops(s, a, t) && Unborn(s, t)
    ensures Unborn(Run(Next(s, a), actions), t)
  {
    hide Inv, Next, Run, Unborn, Stops;
    StopsUnwanted(s, a, t);
    InvStep(s, a);
    UnbornRun(Next(s, a), actions, t);
  }

  /** A driver that nobody wants is abandoned at the next step of its task: before the offer, when its
      caller is gone, or when its acceptance is refused. */
  lemma UnwantedIsAbandoned(s: System, t: nat)
    requires Unwanted(s, t)
    ensures var task := s.tasks[t];
            && (task.phase == Built ==> Next(s, OfferOrAbandon(t)) == SetPhase(s, t, Abandoning))
            && (task.phase.Offered? && task.callerGone ==> Next(s, ObserveRefusal(t)) == SetPhase(s, t, Abandoning))
            && (task.phase == Offered(false) && !task.callerGone ==>
                  Next(Next(s, Accept(t)), ObserveRefusal(t)) == SetPhase(s, t, Abandoning))
  {
    hide AgentStep, DisposalStep, ReserveCore, DropCore, CleanupCore, AcceptCore;
    if s.tasks[t].phase == Offered(false) && !s.tasks[t].callerGone {
      var refused := SetPhase(s, t, Offered(true));
      assert Next(s, Accept(t)) == refused;
      assert Next(refused, ObserveRefusal(t)) == SetPhase(refused, t, Abandoning);
      assert s.tasks[t := s.tasks[t].(phase := Offered(true))][t := s.tasks[t].(phase := Abandoning)] == s.tasks[t := s.tasks[t].(phase := Abandoning)];
    }
  }

  // ---------------------------------------------------------------------
  // A wanted setup becomes live
  // ---------------------------------------------------------------------

  /** Session `id` is live under agent `a`, with a generation newer than every one up to `last`. */
  predicate Started(s: System, id: SessionId, a: nat, last: nat) {
    && a in s.agents && s.agents[a].session == id && s.agents[a].generation > last
    && s.agents[a].gate == Open && s.agents[a].runtime && !s.agents[a].clean
    && IsLive(s, a, s.agents[a].generation)
    && id !in s.core.starting
  }

  /** From every state with a built driver whose caller is there, not cancelled and with no shutdown
      running: offering and accepting makes its session live, and its authority passes. */
  lemma OfferedBecomesLive(s: System, t: nat)
    requires Inv(s) && t in s.tasks && s.tasks[t].phase == Built
    requires !s.tasks[t].cancelled && !s.tasks[t].callerGone && s.core.disposal.None?
    ensures var s2 := Next(Next(s, OfferOrAbandon(t)), Accept(t));
            && Started(s2, s.tasks[t].session, s.nextName, s.core.nextGeneration)
            && s2.core.disposal.None? && s2.core.factory == s.core.factory
            && t in s2.tasks && s2.tasks[t].phase == Finishing(true) && s2.tasks[t].session == s.tasks[t].session
            && s2.agents[s.nextName].task == t
  {
    hide StartingInv, LiveInv, GenerationsInv, AgentsInv, NamesInv, SlotInv;
    InvStep(s, OfferOrAbandon(t));
    var s1 := Next(s, OfferOrAbandon(t));
    assert s1.tasks[t].phase == Offered(false);
    NeverLost(s1, t);
  }

  /** A session that can be reserved can be started. */
  lemma SetupSucceeds(s: System, id: SessionId)
    requires Inv(s) && ReserveOf(s.core, id) == Reserved
    ensures var t := s.nextName;
            var s' := Run(s, [Reserve(id), BuildSucceeds(t)] + ([OfferOrAbandon(t), Accept(t)] + [DropReservation(t)]));
            && Inv(s') && Started(s', id, t + 1, s.core.nextGeneration)
            && s'.agents[t + 1].task == t && t in s'.tasks && s'.tasks[t].phase == Done
            && s'.core.disposal.None? && s'.core.factory
  {
    hide Inv, Run, Next, Started;
    var t := s.nextName;
    RunConcat(s, [Reserve(id), BuildSucceeds(t)], [OfferOrAbandon(t), Accept(t)] + [DropReservation(t)]);
    RunTwo(s, Reserve(id), BuildSucceeds(t));
    var s1 := Next(s, Reserve(id));
    var s2 := Next(s1, BuildSucceeds(t));
    InvStep(s, Reserve(id));
    InvStep(s1, BuildSucceeds(t));
    Builds(s, id);
    RunConcat(s2, [OfferOrAbandon(t), Accept(t)], [DropReservation(t)]);
    RunTwo(s2, OfferOrAbandon(t), Accept(t));
    OfferedBecomesLive(s2, t);
    var s3 := Next(s2, OfferOrAbandon(t));
    var s4 := Next(s3, Accept(t));
    InvStep(s2, OfferOrAbandon(t));
    InvStep(s3, Accept(t));
    RunOne(s4, DropReservation(t));
    InvStep(s4, DropReservation(t));
    TaskFinishes(s4, t, id, t + 1, s.core.nextGeneration);
  }

  /** So every session can become live in some run of a new registry. */
  lemma LiveIsReachable(id: SessionId) returns (actions: seq<Action>, a: nat)
    ensures Started(Run(EMPTY, actions), id, a, 0)
  {
    hide Inv, Run, Next, Started, IsLive;
    EmptyInv();
    var s := Next(EMPTY, SetFactory(true));
    InvStep(EMPTY, SetFactory(true));
    assert s == EMPTY.(core := EMPTY.core.(factory := true)) by { FactorySet(); }
    var t := s.nextName;
    var setup := [Reserve(id), BuildSucceeds(t)] + ([OfferOrAbandon(t), Accept(t)] + [DropReservation(t)]);
    SetupSucceeds(s, id);
    actions, a := [SetFactory(true)] + setup, t + 1;
    RunOne(EMPTY, SetFactory(true));
    RunConcat(EMPTY, [SetFactory(true)], setup);
  }

  lemma FactorySet()
    ensures Next(EMPTY, SetFactory(true)) == EMPTY.(core := EMPTY.core.(factory := true))
  {
  }

  lemma Builds(s: System, id: SessionId)
    requires ReserveOf(s.core, id) == Reserved
    ensures var t := s.nextName;
            var s2 := Next(Next(s, Reserve(id)), BuildSucceeds(t));
            && t in s2.tasks && s2.tasks[t] == Task(id, Built, false, false) && s2.nextName == t + 1
            && s2.core.disposal.None? && s2.core.factory && s2.core.nextGeneration == s.core.nextGeneration
  {
    hide AgentStep, DisposalStep;
  }

  lemma TaskFinishes(s: System, t: nat, id: SessionId, a: nat, last: nat)
    requires t in s.tasks && s.tasks[t].phase == Finishing(true) && s.tasks[t].session == id
    requires Started(s, id, a, last)
    ensures var s' := Next(s, DropReservation(t));
            Started(s', id, a, last) && s'.agents == s.agents && t in s'.tasks && s'.tasks[t].phase == Done
            && s'.core.disposal == s.core.disposal && s'.core.factory == s.core.factory
  {
    hide AgentStep, DisposalStep;
  }

  // ---------------------------------------------------------------------
  // An abandoned one makes room
  // ---------------------------------------------------------------------

  /** A failed cleanup blocks the session and says so; a later clean one frees it. */
  lemma AbandonedMakesRoom(s: System, t: nat)
    requires Inv(s) && t in s.tasks && s.tasks[t].phase.Abandoning?
    requires s.core.disposal.None? && s.core.factory
    ensures var id := s.tasks[t].session;
            var failed := Next(s, AbandonedDispose(t, false));
            var cleaned := Next(Next(failed, AbandonedDispose(t, true)), DropReservation(t));
            && ReserveOf(failed.core, id) == CleanupFailed
            && ReserveOf(cleaned.core, id) == Reserved
            && t in cleaned.tasks && cleaned.tasks[t].phase == Done
  {
    OwnEntry(s, t);
    hide Inv;
    FailsCleanup(s, t);
    Cleans(Next(s, AbandonedDispose(t, false)), t);
  }

  lemma FailsCleanup(s: System, t: nat)
    requires t in s.tasks && s.tasks[t].phase.Abandoning? && s.core.disposal.None? && s.core.factory
    requires s.tasks[t].session in s.core.starting && s.core.starting[s.tasks[t].session].task == t && s.tasks[t].session !in s.core.live
    ensures var s', id := Next(s, AbandonedDispose(t, false)), s.tasks[t].session;
            && ReserveOf(s'.core, id) == CleanupFailed
            && s'.core.disposal.None? && s'.core.factory && s'.core.live == s.core.live
            && t in s'.tasks && s'.tasks[t] == s.tasks[t]
            && id in s'.core.starting && s'.core.starting[id].task == t
  {
    hide AgentStep, DisposalStep;
  }

  lemma Cleans(s: System, t: nat)
    requires t in s.tasks && s.tasks[t].phase.Abandoning? && s.core.disposal.None? && s.core.factory
    requires s.tasks[t].session in s.core.starting && s.core.starting[s.tasks[t].session].task == t && s.tasks[t].session !in s.core.live
    ensures var s' := Next(Next(s, AbandonedDispose(t, true)), DropReservation(t));
            ReserveOf(s'.core, s.tasks[t].session) == Reserved && t in s'.tasks && s'.tasks[t].phase == Done
  {
    hide AgentStep, DisposalStep;
    assert Next(s, AbandonedDispose(t, true)).core.starting[s.tasks[t].session].task == t;
  }

  lemma OwnEntry(s: System, t: nat)
    requires Inv(s) && t in s.tasks && Reserves(s.tasks[t].phase)
    ensures s.tasks[t].session in s.core.starting && s.core.starting[s.tasks[t].session].task == t
    ensures s.tasks[t].session !in s.core.live
  {
    hide LiveInv, GenerationsInv, AgentsInv, NamesInv, SlotInv;
  }

  /** A setup that fails before it built a driver makes room at once. */
  lemma FailedMakesRoom(s: System, t: nat)
    requires Inv(s) && t in s.tasks && s.tasks[t].phase == Building
    requires s.core.disposal.None? && s.core.factory
    ensures var s' := Next(Next(s, BuildFails(t)), DropReservation(t));
            ReserveOf(s'.core, s.tasks[t].session) == Reserved && t in s'.tasks && s'.tasks[t].phase == Done
  {
    OwnEntry(s, t);
    hide Inv, AgentStep, DisposalStep;
  }

  // ---------------------------------------------------------------------
  // A live agent can be disposed of
  // ---------------------------------------------------------------------

  /** Nobody is inside the agent's dispose gate and its setup has finished. */
  predicate Disposable(s: System, a: nat) {
    && a in s.agents && s.agents[a].gate == Open && !s.agents[a].clean && s.agents[a].runtime
    && s.agents[a].task in s.tasks && s.tasks[s.agents[a].task].phase == Done
  }

  function Gone(s: System, a: nat, shutdown: Option<nat>): System {
    Next(Next(Next(Next(Next(s, EnterGate(a, shutdown)), MarkAgent(a)), RuntimeDispose(a, true)), SetClean(a)), RemoveAgent(a))
  }

  /** A failed disposal shuts the authority out but keeps the entry and can be retried. */
  lemma DisposeRetries(s: System, a: nat)
    requires Inv(s) && Disposable(s, a)
    ensures var s' := Next(Next(Next(s, EnterGate(a, None)), MarkAgent(a)), RuntimeDispose(a, false));
            && Inv(s') && Disposable(s', a) && s'.core == s.core && !IsLive(s', a, s'.agents[a].generation)
  {
    hide Inv;
    InvStep(s, EnterGate(a, None));
    InvStep(Next(s, EnterGate(a, None)), MarkAgent(a));
    InvStep(Next(Next(s, EnterGate(a, None)), MarkAgent(a)), RuntimeDispose(a, false));
  }

  /** Disposing of an agent that is already clean succeeds at once and changes nothing. */
  lemma DisposeAgain(s: System, a: nat)
    requires a in s.agents && s.agents[a].gate == Open && s.agents[a].clean
    requires s.agents[a].task in s.tasks && s.tasks[s.agents[a].task].phase == Done
    ensures Next(Next(s, EnterGate(a, None)), MarkAgent(a)) == s
  {
    hide TaskStep, DisposalStep;
    var entered := s.agents[a].(gate := Held(None, Entered));
    assert Next(s, EnterGate(a, None)) == s.(agents := s.agents[a := entered]);
    assert s.agents[a := entered][a := s.agents[a]] == s.agents;
  }

  predicate MayEnter(s: System, a: nat, shutdown: Option<nat>) {
    shutdown.None? || (shutdown.value in s.disposals && s.disposals[shutdown.value].phase.DisposingAgents?
                       && a in s.disposals[shutdown.value].phase.remaining)
  }

  /** A clean disposal takes exactly this agent's session out, and the session can be started anew. */
  lemma DisposeSucceeds(s: System, a: nat, shutdown: Option<nat>)
    requires Inv(s) && Disposable(s, a) && MayEnter(s, a, shutdown)
    ensures var s' := Gone(s, a, shutdown);
            && Inv(s')
            && s'.core == s.core.(live := s.core.live - {s.agents[a].session})
            && s.agents[a].session in s.core.live && s.core.live[s.agents[a].session].agent == a
            && (forall b :: b in s.agents && b != a ==> b in s'.agents && s'.agents[b] == s.agents[b])
            && s'.tasks == s.tasks && s'.callers == s.callers
            && s'.disposals == Returned(s, Held(shutdown, Clean), a, true)
            && !IsLive(s', a, s.agents[a].generation)
            && (s.core.disposal.None? && s.core.factory ==> ReserveOf(s'.core, s.agents[a].session) == Reserved)
  {
    hide Inv, Returned, Next, IsLive;
    ThroughGate(s, a, shutdown);
    GateInvs(s, a, shutdown);
    EntryOfSession(s, a);
    var s4 := Next(Next(Next(Next(s, EnterGate(a, shutdown)), MarkAgent(a)), RuntimeDispose(a, true)), SetClean(a));
    LastStep(s, s4, a, shutdown);
    NotLiveWithout(Next(s4, RemoveAgent(a)), a, s.agents[a].generation, s.agents[a].session);
  }

  lemma NotLiveWithout(s: System, a: nat, g: nat, id: SessionId)
    requires a in s.agents && s.agents[a].session == id && id !in s.core.live
    ensures !IsLive(s, a, g)
  {
  }

  lemma ThroughGate(s: System, a: nat, shutdown: Option<nat>)
    requires Disposable(s, a) && MayEnter(s, a, shutdown)
    ensures Next(Next(Next(Next(s, EnterGate(a, shutdown)), MarkAgent(a)), RuntimeDispose(a, true)), SetClean(a))
         == s.(agents := s.agents[a := s.agents[a].(disposed := true, runtime := false, clean := true, gate := Held(shutdown, Clean))])
  {
    hide TaskStep, DisposalStep, Returned;
    var entered := s.agents[a].(gate := Held(shutdown, Entered));
    var s1 := s.(agents := s.agents[a := entered]);
    assert Next(s, EnterGate(a, shutdown)) == s1;
    var marked := entered.(disposed := true, gate := Held(shutdown, Marked));
    var s2 := s.(agents := s.agents[a := marked]);
    assert Next(s1, MarkAgent(a)) == s2;
    var gone := marked.(runtime := false, gate := Held(shutdown, RuntimeGone));
    var s3 := s.(agents := s.agents[a := gone]);
    assert Next(s2, RuntimeDispose(a, true)) == s3;
  }

  lemma GateInvs(s: System, a: nat, shutdown: Option<nat>)
    requires Inv(s)
    ensures Inv(Next(Next(Next(Next(s, EnterGate(a, shutdown)), MarkAgent(a)), RuntimeDispose(a, true)), SetClean(a)))
    ensures Inv(Gone(s, a, shutdown))
  {
    hide Inv, Next;
    var s1 := Next(s, EnterGate(a, shutdown));
    var s2 := Next(s1, MarkAgent(a));
    var s3 := Next(s2, RuntimeDispose(a, true));
    InvStep(s, EnterGate(a, shutdown));
    InvStep(s1, MarkAgent(a));
    InvStep(s2, RuntimeDispose(a, true));
    InvStep(s3, SetClean(a));
    InvStep(Next(s3, SetClean(a)), RemoveAgent(a));
  }

  lemma LastStep(s: System, s4: System, a: nat, shutdown: Option<nat>)
    requires a in s.agents && Inv(s4)
    requires s4 == s.(agents := s.agents[a := s.agents[a].(disposed := true, runtime := false, clean := true, gate := Held(shutdown, Clean))])
    ensures var s' := Next(s4, RemoveAgent(a));
            && s'.core == s.core.(live := s.core.live - {s.agents[a].session})
            && a in s'.agents && s'.agents[a].session == s.agents[a].session
            && (forall b :: b in s.agents && b != a ==> b in s'.agents && s'.agents[b] == s.agents[b])
            && s'.tasks == s.tasks && s'.callers == s.callers
            && s'.disposals == Returned(s, Held(shutdown, Clean), a, true)
  {
    RemoveInv(s4, a);
    ReturnedSame(s4, s, Held(shutdown, Clean), a);
    hide Inv, Returned, TaskStep, DisposalStep;
  }

  lemma ReturnedSame(s: System, s': System, gate: Gate, a: nat)
    requires s.disposals == s'.disposals
    ensures Returned(s, gate, a, true) == Returned(s', gate, a, true)
  {
  }

  lemma EntryOfSession(s: System, a: nat)
    requires Inv(s) && Disposable(s, a)
    ensures s.agents[a].session in s.core.live && s.core.live[s.agents[a].session].agent == a
    ensures s.core.live[s.agents[a].session].generation == s.agents[a].generation
    ensures s.agents[a].session !in s.core.starting
  {
    hide StartingInv, GenerationsInv, AgentsInv, NamesInv, SlotInv;
  }

  // ---------------------------------------------------------------------
  // A shutdown ends
  // ---------------------------------------------------------------------

  /** A shutdown is disposing of every live agent, and none of them is busy. */
  ghost predicate Draining(s: System, d: nat) {
    && d in s.disposals && s.core.disposal == Some(d)
    && s.disposals[d].phase.DisposingAgents? && !s.disposals[d].phase.failed && s.disposals[d].result.None?
    && forall a :: a in s.disposals[d].phase.remaining ==> Disposable(s, a)
  }

  lemma DrainOne(s: System, d: nat, a: nat)
    requires Inv(s) && Draining(s, d) && a in s.disposals[d].phase.remaining
    ensures var s' := Gone(s, a, Some(d));
            && Inv(s') && Draining(s', d)
            && s'.disposals[d].phase.remaining == s.disposals[d].phase.remaining - {a}
            && s'.callers == s.callers
  {
    hide Inv, Next, IsLive, Gone;
    DisposeSucceeds(s, a, Some(d));
    var s' := Gone(s, a, Some(d));
    forall b | b in s'.disposals[d].phase.remaining
      ensures Disposable(s', b)
    {
      assert Disposable(s, b) && b != a;
    }
  }

  function GoneSteps(a: nat, d: nat): seq<Action> {
    [EnterGate(a, Some(d)), MarkAgent(a)] + ([RuntimeDispose(a, true), SetClean(a)] + [RemoveAgent(a)])
  }

  lemma GoneRuns(s: System, a: nat, d: nat)
    ensures Run(s, GoneSteps(a, d)) == Gone(s, a, Some(d))
  {
    hide Next, Run;
    var s2 := Next(Next(s, EnterGate(a, Some(d))), MarkAgent(a));
    RunConcat(s, [EnterGate(a, Some(d)), MarkAgent(a)], [RuntimeDispose(a, true), SetClean(a)] + [RemoveAgent(a)]);
    RunTwo(s, EnterGate(a, Some(d)), MarkAgent(a));
    RunConcat(s2, [RuntimeDispose(a, true), SetClean(a)], [RemoveAgent(a)]);
    RunTwo(s2, RuntimeDispose(a, true), SetClean(a));
    RunOne(Next(Next(s2, RuntimeDispose(a, true)), SetClean(a)), RemoveAgent(a));
  }

  lemma {:induction false} DrainAll(s: System, d: nat) returns (actions: seq<Action>)
    requires Inv(s) && Draining(s, d)
    ensures var s' := Run(s, actions);
            Inv(s') && Draining(s', d) && s'.disposals[d].phase.remaining == {} && s'.callers == s.callers
    decreases s.disposals[d].phase.remaining
  {
    hide Inv, Next, Gone, GoneSteps;
    if a :| a in s.disposals[d].phase.remaining {
      hide Run;
      DrainOne(s, d, a);
      GoneRuns(s, a, d);
      var rest := DrainAll(Gone(s, a, Some(d)), d);
      actions := GoneSteps(a, d) + rest;
      RunConcat(s, GoneSteps(a, d), rest);
    } else {
      actions := [];
    }
  }

  /** With no setup under way and no live agent busy, a shutdown can run to its end: both maps are
      empty and its caller is answered Ok. */
  lemma ShutdownSucceeds(s: System, caller: nat) returns (actions: seq<Action>)
    requires Inv(s) && s.core.disposal.None? && caller !in s.callers && s.core.starting == map[]
    requires forall id :: id in s.core.live ==> Disposable(s, s.core.live[id].agent)
    ensures var s', d := Run(s, actions), s.nextName;
            && s'.core.starting == map[] && s'.core.live == map[] && s'.core.disposal.None?
            && caller in s'.callers && s'.callers[caller] == d
            && d in s'.disposals && s'.disposals[d].result == Some(true)
  {
    hide Inv, Next, Run, Draining;
    var d := s.nextName;
    var s4 := StartsDraining(s, caller);
    var drain := DrainAll(s4, d);
    var s5 := Run(s4, drain);
    Releases(s5, d);
    var first := [DisposeAll(caller), SnapshotSetups(d)] + [SetupsFinished(d), CollectAgents(d)];
    actions := first + (drain + [ReleaseSlot(d), PublishResult(d)]);
    RunConcat(s, first, drain + [ReleaseSlot(d), PublishResult(d)]);
    RunConcat(s, [DisposeAll(caller), SnapshotSetups(d)], [SetupsFinished(d), CollectAgents(d)]);
    RunTwo(s, DisposeAll(caller), SnapshotSetups(d));
    RunTwo(Next(Next(s, DisposeAll(caller)), SnapshotSetups(d)), SetupsFinished(d), CollectAgents(d));
    RunConcat(s4, drain, [ReleaseSlot(d), PublishResult(d)]);
    RunTwo(s5, ReleaseSlot(d), PublishResult(d));
  }

  lemma StartsDraining(s: System, caller: nat) returns (s4: System)
    requires Inv(s) && s.core.disposal.None? && caller !in s.callers && s.core.starting == map[]
    requires forall id :: id in s.core.live ==> Disposable(s, s.core.live[id].agent)
    ensures var d := s.nextName;
            && s4 == Next(Next(Next(Next(s, DisposeAll(caller)), SnapshotSetups(d)), SetupsFinished(d)), CollectAgents(d))
            && Inv(s4) && Draining(s4, d)
            && caller in s4.callers && s4.callers[caller] == d
  {
    hide Inv, Next;
    var d := s.nextName;
    var s1 := Next(s, DisposeAll(caller));
    var s2 := Next(s1, SnapshotSetups(d));
    var s3 := Next(s2, SetupsFinished(d));
    s4 := Next(s3, CollectAgents(d));
    InvStep(s, DisposeAll(caller));
    InvStep(s1, SnapshotSetups(d));
    InvStep(s2, SetupsFinished(d));
    InvStep(s3, CollectAgents(d));
    AcceptedTasks(s);
    Begins(s, caller);
    Snapshots(s, s1, d);
    Finishes(s, s2, d);
    Collects(s, s3, d);
    forall a | a in s4.disposals[d].phase.remaining
      ensures Disposable(s4, a)
    {
      assert Disposable(s, a);
    }
  }

  /** A shutdown that has changed nothing yet but its own phase. */
  predicate Underway(s: System, s': System, d: nat, phase: DisposalPhase) {
    && s'.core == s.core.(disposal := Some(d)) && s'.agents == s.agents && s'.tasks == s.tasks
    && d in s'.disposals && s'.disposals[d] == Disposal(phase, None)
  }

  lemma Begins(s: System, caller: nat)
    requires s.core.disposal.None? && caller !in s.callers
    ensures var s' := Next(s, DisposeAll(caller));
            Underway(s, s', s.nextName, Fresh) && caller in s'.callers && s'.callers[caller] == s.nextName
  {
    hide TaskStep, AgentStep;
  }

  function AcceptedBy(s: System): set<nat> {
    set id | id in s.core.live && s.core.live[id].agent in s.agents :: s.agents[s.core.live[id].agent].task
  }

  lemma Snapshots(s: System, s1: System, d: nat)
    requires s.core.starting == map[] && Underway(s, s1, d, Fresh)
    ensures var s' := Next(s1, SnapshotSetups(d));
            Underway(s, s', d, AwaitSetups(AcceptedBy(s))) && s'.callers == s1.callers
  {
    hide TaskStep, AgentStep;
    assert SetupsOf(map[]) == {};
    var s' := Next(s1, SnapshotSetups(d));
    assert s'.tasks == s1.tasks;
    assert s'.disposals[d].phase == AwaitSetups({} + AcceptedBy(s1));
    assert {} + AcceptedBy(s1) == AcceptedBy(s);
  }

  lemma Finishes(s: System, s2: System, d: nat)
    requires Underway(s, s2, d, AwaitSetups(AcceptedBy(s)))
    requires forall id :: id in s.core.live && s.core.live[id].agent in s.agents ==>
               var t := s.agents[s.core.live[id].agent].task; t in s.tasks && s.tasks[t].phase == Done
    ensures var s' := Next(s2, SetupsFinished(d)); Underway(s, s', d, Collecting) && s'.callers == s2.callers
  {
    hide TaskStep, AgentStep;
  }

  lemma Collects(s: System, s3: System, d: nat)
    requires Underway(s, s3, d, Collecting)
    ensures var s' := Next(s3, CollectAgents(d));
            && Underway(s, s', d, DisposingAgents(set id | id in s.core.live :: s.core.live[id].agent, false))
            && s'.callers == s3.callers
  {
    hide TaskStep, AgentStep;
  }

  /** The setups of live agents that nobody is disposing of have finished. */
  lemma AcceptedTasks(s: System)
    requires forall id :: id in s.core.live ==> Disposable(s, s.core.live[id].agent)
    ensures forall id :: id in s.core.live && s.core.live[id].agent in s.agents ==>
              var t := s.agents[s.core.live[id].agent].task; t in s.tasks && s.tasks[t].phase == Done
  {
  }

  lemma Releases(s: System, d: nat)
    requires Inv(s) && Draining(s, d) && s.disposals[d].phase.remaining == {}
    ensures var s' := Next(Next(s, ReleaseSlot(d)), PublishResult(d));
            && s'.core.starting == map[] && s'.core.live == map[] && s'.core.disposal.None?
            && s'.callers == s.callers
            && d in s'.disposals && s'.disposals[d].result == Some(true)
  {
    hide StartingInv, LiveInv, GenerationsInv, AgentsInv, NamesInv, TaskStep, AgentStep;
    assert s.core.live == map[];
  }
}
