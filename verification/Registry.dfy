/** The process-local agent registry: supervised setup tasks, callers that may vanish,
    accept-or-abandon hand-off, retryable disposal and registry-wide shutdown. Every
    critical section of the registry lock, and every await that can resolve, is one
    atomic step; the steps interleave in any order. */
module Registry {

  type SessionId = string

  datatype Option<+T> = None | Some(value: T)

  // ---------------------------------------------------------------------
  // The state behind the registry lock
  // ---------------------------------------------------------------------

  /** A setup in progress, identified by the task that owns its completion. */
  datatype Starting = Starting(task: nat, cleanupFailed: bool)

  datatype LiveAgent = LiveAgent(generation: nat, agent: nat)

  datatype Core = Core(
    nextGeneration: nat, factory: bool,
    starting: map<SessionId, Starting>, live: map<SessionId, LiveAgent>, disposal: Option<nat>)

  datatype ReserveAnswer = Reserved | Disposing | NoFactory | DuplicateLive | CleanupFailed

  function ReserveOf(c: Core, id: SessionId): ReserveAnswer {
    if c.disposal.Some? then Disposing
    else if !c.factory then NoFactory
    else if id in c.live then DuplicateLive
    else if id in c.starting then (if c.starting[id].cleanupFailed then CleanupFailed else DuplicateLive)
    else Reserved
  }

  function ReserveCore(c: Core, id: SessionId, task: nat): Core {
    if ReserveOf(c, id) == Reserved then c.(starting := c.starting[id := Starting(task, false)]) else c
  }

  /** Dropping a reservation removes its own entry only. */
  function DropCore(c: Core, id: SessionId, task: nat): Core {
    if id in c.starting && c.starting[id].task == task then c.(starting := c.starting - {id}) else c
  }

  datatype AcceptAnswer = Accepted | Cancelled | ReservationLost

  function AcceptOf(c: Core, id: SessionId, task: nat, cancelled: bool): AcceptAnswer {
    if cancelled || c.disposal.Some? then Cancelled
    else if id !in c.starting || c.starting[id].task != task then ReservationLost
    else if id in c.live then ReservationLost
    else Accepted
  }

  function AcceptCore(c: Core, id: SessionId, task: nat, cancelled: bool, agent: nat): Core {
    if AcceptOf(c, id, task, cancelled) != Accepted then c
    else c.(nextGeneration := c.nextGeneration + 1,
            live := c.live[id := LiveAgent(c.nextGeneration + 1, agent)],
            starting := c.starting - {id})
  }

  function RemoveCore(c: Core, id: SessionId, generation: nat): Core {
    if id in c.live && c.live[id].generation == generation then c.(live := c.live - {id}) else c
  }

  function CleanupCore(c: Core, id: SessionId, failed: bool): Core {
    if id in c.starting then c.(starting := c.starting[id := c.starting[id].(cleanupFailed := failed)]) else c
  }

  /** The registry object: its methods are the critical sections. */
  class AgentRegistry {
    var nextGeneration: nat
    var factory: bool
    var starting: map<SessionId, Starting>
    var live: map<SessionId, LiveAgent>
    var disposal: Option<nat>

    ghost function State(): Core
      reads this
    {
      Core(nextGeneration, factory, starting, live, disposal)
    }

    ghost predicate Valid()
      reads this
    {
      Consistent(State())
    }

    constructor ()
      ensures Valid() && State() == Core(0, false, map[], map[], None)
    {
      nextGeneration, factory, starting, live, disposal := 0, false, map[], map[], None;
    }

    /** After `Reserved` the session is starting for this task and is not live. */
    method Reserve(id: SessionId, task: nat) returns (r: ReserveAnswer)
      requires Valid()
      modifies this`starting
      ensures Valid()
      ensures r == ReserveOf(old(State()), id)
      ensures r == Disposing <==> disposal.Some?
      ensures r == NoFactory <==> disposal.None? && !factory
      ensures r == CleanupFailed <==>
                disposal.None? && factory && id !in live && id in old(starting) && old(starting)[id].cleanupFailed
      ensures r == Reserved <==> disposal.None? && factory && id !in live && id !in old(starting)
      ensures State() == ReserveCore(old(State()), id, task)
      ensures r == Reserved ==> id !in old(starting) && id !in live && id in starting && starting[id] == Starting(task, false)
      ensures r != Reserved ==> starting == old(starting)
      ensures forall other :: other != id ==> SameEntry(starting, old(starting), other)
    {
      if disposal.Some? { return Disposing; }
      if !factory { return NoFactory; }
      if id in live { return DuplicateLive; }
      if id in starting {
        return if starting[id].cleanupFailed then CleanupFailed else DuplicateLive;
      }
      starting := starting[id := Starting(task, false)];
      r := Reserved;
    }

    /** Gives up this task's own entry; a stale task changes nothing. */
    method DropReservation(id: SessionId, task: nat)
      requires Valid()
      modifies this`starting
      ensures Valid()
      ensures State() == DropCore(old(State()), id, task)
      ensures id in starting ==> starting[id].task != task
      ensures id in old(starting) && old(starting)[id].task != task ==> starting == old(starting)
      ensures id !in old(starting) ==> starting == old(starting)
      ensures forall other :: other != id ==> SameEntry(starting, old(starting), other)
    {
      if id in starting && starting[id].task == task { starting := starting - {id}; }
    }

    /** The new generation is larger than every live one, and the session is no longer starting. */
    method AcceptSetup(id: SessionId, task: nat, cancelled: bool, agent: nat) returns (r: AcceptAnswer, generation: nat)
      requires Valid()
      modifies this
      ensures Valid()
      ensures r == AcceptOf(old(State()), id, task, cancelled)
      ensures r == Cancelled <==> cancelled || old(disposal).Some?
      ensures r == Accepted <==>
                !cancelled && old(disposal).None? && id in old(starting) && old(starting)[id].task == task && id !in old(live)
      ensures State() == AcceptCore(old(State()), id, task, cancelled, agent)
      ensures r == Accepted ==>
                && generation > old(nextGeneration)
                && id !in starting
                && id in live && live[id] == LiveAgent(generation, agent)
                && forall other :: other in old(live) ==> old(live)[other].generation < generation
      ensures r != Accepted ==> State() == old(State())
      ensures forall other :: other != id ==> SameEntry(starting, old(starting), other) && SameEntry(live, old(live), other)
    {
      generation := 0;
      if cancelled || disposal.Some? { return Cancelled, 0; }
      if id !in starting || starting[id].task != task || id in live { return ReservationLost, 0; }
      nextGeneration := nextGeneration + 1;
      generation := nextGeneration;
      live := live[id := LiveAgent(generation, agent)];
      starting := starting - {id};
      r := Accepted;
    }

    /** Takes this generation's own entry out; a stale generation changes nothing. */
    method RemoveFromRegistry(id: SessionId, generation: nat)
      requires Valid()
      modifies this`live
      ensures Valid()
      ensures State() == RemoveCore(old(State()), id, generation)
      ensures id in live ==> live[id].generation != generation
      ensures id in old(live) && old(live)[id].generation != generation ==> live == old(live)
      ensures id !in old(live) ==> live == old(live)
      ensures forall other :: other != id ==> SameEntry(live, old(live), other)
    {
      if id in live && live[id].generation == generation { live := live - {id}; }
    }
  }

  /** No session is starting and live at once, and no live generation lies in the future. */
  predicate Consistent(c: Core) {
    && c.starting.Keys !! c.live.Keys
    && forall id :: id in c.live ==> c.live[id].generation <= c.nextGeneration
  }

  predicate SameEntry<T(==)>(after: map<SessionId, T>, before: map<SessionId, T>, id: SessionId) {
    (id in after <==> id in before) && (id in after ==> id in before && after[id] == before[id])
  }

  /** Dropping undoes a reservation of the same task and no other task's. */
  lemma DropUndoesReserve(c: Core, id: SessionId, task: nat, other: nat)
    requires ReserveOf(c, id) == Reserved
    ensures DropCore(ReserveCore(c, id, task), id, other) == if other == task then c else ReserveCore(c, id, task)
  {
    assert c.starting[id := Starting(task, false)] - {id} == c.starting;
  }

  /** Removing the accepted generation takes the session out altogether; removing any other one,
      older or newer, does nothing. */
  lemma RemoveUndoesAccept(c: Core, id: SessionId, task: nat, agent: nat, generation: nat)
    requires Consistent(c) && AcceptOf(c, id, task, false) == Accepted
    ensures var accepted := AcceptCore(c, id, task, false, agent);
            var removed := RemoveCore(accepted, id, generation);
            && Consistent(accepted) && Consistent(removed)
            && (removed == accepted <==> generation != c.nextGeneration + 1)
            && (generation == c.nextGeneration + 1 ==> removed.live == c.live && id !in removed.starting)
  {
    var live := c.live[id := LiveAgent(c.nextGeneration + 1, agent)];
    assert live - {id} == c.live;
  }

  // ---------------------------------------------------------------------
  // Everybody who acts on it
  // ---------------------------------------------------------------------

  datatype Phase =
    | Building                 // session, inbox and driver are being set up
    | Built                    // the driver exists, cancellation not yet checked
    | Offered(refused: bool)   // handed to the caller, acceptance awaited
    | Abandoning               // disposing the unaccepted driver, with retries
    | Finishing(accepted: bool)
    | Done                     // reservation dropped, completion finished

  datatype Task = Task(session: SessionId, phase: Phase, cancelled: bool, callerGone: bool)

  /** Who is inside an agent's dispose gate, and how far. */
  datatype Stage = Entered | Marked | RuntimeGone | Clean
  datatype Gate = Open | Held(shutdown: Option<nat>, stage: Stage)

  datatype Agent = Agent(session: SessionId, generation: nat, task: nat, disposed: bool,
                         runtime: bool, clean: bool, gate: Gate)

  datatype DisposalPhase =
    | Fresh
    | AwaitSetups(tasks: set<nat>)
    | Collecting
    | DisposingAgents(remaining: set<nat>, failed: bool)
    | Released(ok: bool)

  datatype Disposal = Disposal(phase: DisposalPhase, result: Option<bool>)

  datatype System = System(
    core: Core, tasks: map<nat, Task>, agents: map<nat, Agent>,
    disposals: map<nat, Disposal>, callers: map<nat, nat>, nextName: nat)

  const EMPTY := System(Core(0, false, map[], map[], None), map[], map[], map[], map[], 0)

  datatype Action =
    | SetFactory(present: bool)
    | Reserve(session: SessionId)
    | CancelSetup(task: nat)
    | CallerVanishes(task: nat)
    | BuildFails(task: nat)
    | BuildSucceeds(task: nat)
    | OfferOrAbandon(task: nat)
    | Accept(task: nat)
    | ObserveRefusal(task: nat)
    | AbandonedDispose(task: nat, ok: bool)
    | DropReservation(task: nat)
    | EnterGate(agent: nat, shutdown: Option<nat>)
    | MarkAgent(agent: nat)
    | RuntimeDispose(agent: nat, ok: bool)
    | SetClean(agent: nat)
    | RemoveAgent(agent: nat)
    | DropCall(agent: nat)
    | DisposeAll(caller: nat)
    | SnapshotSetups(disposal: nat)
    | SetupsFinished(disposal: nat)
    | CollectAgents(disposal: nat)
    | ReleaseSlot(disposal: nat)
    | AbortDisposal(disposal: nat)
    | PublishResult(disposal: nat)

  function SetPhase(s: System, t: nat, phase: Phase): System
    requires t in s.tasks
  {
    s.(tasks := s.tasks[t := s.tasks[t].(phase := phase)])
  }

  function TaskStep(s: System, a: Action): System {
    match a
    case Reserve(id) =>
      if ReserveOf(s.core, id) != Reserved then s
      else s.(core := ReserveCore(s.core, id, s.nextName),
              tasks := s.tasks[s.nextName := Task(id, Building, false, false)],
              nextName := s.nextName + 1)
    case CancelSetup(t) => if t in s.tasks then s.(tasks := s.tasks[t := s.tasks[t].(cancelled := true)]) else s
    case CallerVanishes(t) => if t in s.tasks then s.(tasks := s.tasks[t := s.tasks[t].(callerGone := true)]) else s
    case BuildFails(t) => if t in s.tasks && s.tasks[t].phase == Building then SetPhase(s, t, Finishing(false)) else s
    case BuildSucceeds(t) => if t in s.tasks && s.tasks[t].phase == Building then SetPhase(s, t, Built) else s
    case OfferOrAbandon(t) =>
      if t in s.tasks && s.tasks[t].phase == Built
      then SetPhase(s, t, if s.tasks[t].cancelled || s.tasks[t].callerGone then Abandoning else Offered(false))
      else s
    case Accept(t) =>
      if !(t in s.tasks && s.tasks[t].phase == Offered(false) && !s.tasks[t].callerGone) then s
      else
        var task := s.tasks[t];
        if AcceptOf(s.core, task.session, t, task.cancelled) != Accepted then SetPhase(s, t, Offered(true))
        else
          SetPhase(s, t, Finishing(true)).(
            core := AcceptCore(s.core, task.session, t, task.cancelled, s.nextName),
            agents := s.agents[s.nextName := Agent(task.session, s.core.nextGeneration + 1, t, false, true, false, Open)],
            nextName := s.nextName + 1)
    case ObserveRefusal(t) =>
      if t in s.tasks && s.tasks[t].phase.Offered? && (s.tasks[t].callerGone || s.tasks[t].phase.refused)
      then SetPhase(s, t, Abandoning) else s
    case AbandonedDispose(t, ok) =>
      if t in s.tasks && s.tasks[t].phase == Abandoning
      then SetPhase(s, t, if ok then Finishing(false) else Abandoning).(core := CleanupCore(s.core, s.tasks[t].session, !ok))
      else s
    case DropReservation(t) =>
      if t in s.tasks && s.tasks[t].phase.Finishing?
      then SetPhase(s, t, Done).(core := DropCore(s.core, s.tasks[t].session, t))
      else s
    case _ => s
  }

  function SetAgent(s: System, a: nat, agent: Agent): System {
    s.(agents := s.agents[a := agent])
  }

  /** A shutdown's call on one agent returned. */
  function Returned(s: System, gate: Gate, a: nat, ok: bool): map<nat, Disposal> {
    if gate.Held? && gate.shutdown.Some? && gate.shutdown.value in s.disposals
       && s.disposals[gate.shutdown.value].phase.DisposingAgents?
    then
      var d := gate.shutdown.value;
      var phase := s.disposals[d].phase;
      s.disposals[d := s.disposals[d].(phase := DisposingAgents(phase.remaining - {a}, phase.failed || !ok))]
    else s.disposals
  }

  function AgentStep(s: System, action: Action): System {
    match action
    case EnterGate(a, shutdown) =>
      if a in s.agents && s.agents[a].gate == Open
         && (shutdown.None? || (shutdown.value in s.disposals && s.disposals[shutdown.value].phase.DisposingAgents?
                                && a in s.disposals[shutdown.value].phase.remaining))
      then SetAgent(s, a, s.agents[a].(gate := Held(shutdown, Entered))) else s
    case MarkAgent(a) =>
      if !(a in s.agents && s.agents[a].gate.Held? && s.agents[a].gate.stage == Entered
           && s.agents[a].task in s.tasks && s.tasks[s.agents[a].task].phase == Done) then s
      else if s.agents[a].clean
      then SetAgent(s, a, s.agents[a].(gate := Open)).(disposals := Returned(s, s.agents[a].gate, a, true))
      else SetAgent(s, a, s.agents[a].(disposed := true, gate := s.agents[a].gate.(stage := Marked)))
    case RuntimeDispose(a, ok) =>
      if !(a in s.agents && s.agents[a].gate.Held? && s.agents[a].gate.stage == Marked) then s
      else if ok then SetAgent(s, a, s.agents[a].(runtime := false, gate := s.agents[a].gate.(stage := RuntimeGone)))
      else SetAgent(s, a, s.agents[a].(gate := Open)).(disposals := Returned(s, s.agents[a].gate, a, false))
    case SetClean(a) =>
      if a in s.agents && s.agents[a].gate.Held? && s.agents[a].gate.stage == RuntimeGone
      then SetAgent(s, a, s.agents[a].(clean := true, gate := s.agents[a].gate.(stage := Clean))) else s
    case RemoveAgent(a) =>
      if a in s.agents && s.agents[a].gate.Held? && s.agents[a].gate.stage == Clean
      then SetAgent(s, a, s.agents[a].(gate := Open)).(
             core := RemoveCore(s.core, s.agents[a].session, s.agents[a].generation),
             disposals := Returned(s, s.agents[a].gate, a, true))
      else s
    // a dispose future is dropped at one of its await points
    case DropCall(a) =>
      if a in s.agents && s.agents[a].gate.Held? && (s.agents[a].gate.stage == Entered || s.agents[a].gate.stage == Marked)
      then SetAgent(s, a, s.agents[a].(gate := Open)) else s
    case _ => s
  }

  function SetDisposal(s: System, d: nat, phase: DisposalPhase): System
    requires d in s.disposals
  {
    s.(disposals := s.disposals[d := s.disposals[d].(phase := phase)])
  }

  predicate InPhase(s: System, d: nat) {
    d in s.disposals && s.core.disposal == Some(d)
  }

  function SetupsOf(starting: map<SessionId, Starting>): set<nat> {
    set id | id in starting :: starting[id].task
  }

  function DisposalStep(s: System, action: Action): System {
    match action
    case DisposeAll(caller) =>
      if caller in s.callers then s
      else if s.core.disposal.Some? then s.(callers := s.callers[caller := s.core.disposal.value])
      else s.(core := s.core.(disposal := Some(s.nextName)),
              disposals := s.disposals[s.nextName := Disposal(Fresh, None)],
              callers := s.callers[caller := s.nextName],
              nextName := s.nextName + 1)
    case SnapshotSetups(d) =>
      if InPhase(s, d) && s.disposals[d].phase == Fresh
      then
        var setups := SetupsOf(s.core.starting);
        var accepted := set id | id in s.core.live && s.core.live[id].agent in s.agents :: s.agents[s.core.live[id].agent].task;
        SetDisposal(s, d, AwaitSetups(setups + accepted)).(
          tasks := map t | t in s.tasks :: s.tasks[t].(cancelled := s.tasks[t].cancelled || t in setups))
      else s
    case SetupsFinished(d) =>
      if InPhase(s, d) && s.disposals[d].phase.AwaitSetups?
         && forall t :: t in s.disposals[d].phase.tasks && t in s.tasks ==> s.tasks[t].phase == Done
      then SetDisposal(s, d, Collecting) else s
    case CollectAgents(d) =>
      if InPhase(s, d) && s.disposals[d].phase == Collecting
      then SetDisposal(s, d, DisposingAgents(set id | id in s.core.live :: s.core.live[id].agent, false)) else s
    case ReleaseSlot(d) =>
      if InPhase(s, d) && s.disposals[d].phase.DisposingAgents? && s.disposals[d].phase.remaining == {}
      then SetDisposal(s, d, Released(!s.disposals[d].phase.failed)).(core := s.core.(disposal := None)) else s
    // the disposal task ends without a result: its guard reports an error
    case AbortDisposal(d) =>
      if InPhase(s, d) && !s.disposals[d].phase.Released?
      then SetDisposal(s, d, Released(false)).(core := s.core.(disposal := None)) else s
    case PublishResult(d) =>
      if d in s.disposals && s.disposals[d].phase.Released? && s.disposals[d].result.None?
      then s.(disposals := s.disposals[d := s.disposals[d].(result := Some(s.disposals[d].phase.ok))]) else s
    case _ => s
  }

  function Next(s: System, a: Action): System {
    match a
    case SetFactory(present) => s.(core := s.core.(factory := present))
    case EnterGate(_, _) => AgentStep(s, a)
    case MarkAgent(_) => AgentStep(s, a)
    case RuntimeDispose(_, _) => AgentStep(s, a)
    case SetClean(_) => AgentStep(s, a)
    case RemoveAgent(_) => AgentStep(s, a)
    case DropCall(_) => AgentStep(s, a)
    case DisposeAll(_) => DisposalStep(s, a)
    case SnapshotSetups(_) => DisposalStep(s, a)
    case SetupsFinished(_) => DisposalStep(s, a)
    case CollectAgents(_) => DisposalStep(s, a)
    case ReleaseSlot(_) => DisposalStep(s, a)
    case AbortDisposal(_) => DisposalStep(s, a)
    case PublishResult(_) => DisposalStep(s, a)
    case _ => TaskStep(s, a)
  }

  // ---------------------------------------------------------------------
  // Ownership
  // ---------------------------------------------------------------------

  /** The phases in which a task's own `starting` entry is in place. */
  predicate Reserves(p: Phase) {
    !p.Done? && p != Finishing(true)
  }

  /** The phases in which a task owns a built driver. */
  predicate TaskHasRuntime(p: Phase) {
    p.Built? || p.Offered? || p.Abandoning?
  }

  /** An agent is attached from its acceptance until its entry is removed. */
  predicate Attached(a: Agent) {
    a.runtime || (a.gate.Held? && (a.gate.stage == RuntimeGone || a.gate.stage == Clean))
  }

  ghost predicate StartingInv(starting: map<SessionId, Starting>, tasks: map<nat, Task>) {
    && (forall id :: id in starting ==>
          starting[id].task in tasks && tasks[starting[id].task].session == id && Reserves(tasks[starting[id].task].phase))
    && (forall t :: t in tasks && Reserves(tasks[t].phase) ==>
          tasks[t].session in starting && starting[tasks[t].session].task == t)
  }

  ghost predicate LiveInv(live: map<SessionId, LiveAgent>, agents: map<nat, Agent>) {
    && (forall id :: id in live ==>
          live[id].agent in agents && agents[live[id].agent].session == id
          && agents[live[id].agent].generation == live[id].generation && Attached(agents[live[id].agent]))
    && (forall a :: a in agents && Attached(agents[a]) ==>
          agents[a].session in live && live[agents[a].session].agent == a)
  }

  ghost predicate GenerationsInv(agents: map<nat, Agent>, last: nat) {
    && (forall a :: a in agents ==> agents[a].generation <= last)
    && (forall a, b :: a in agents && b in agents && a != b ==> agents[a].generation != agents[b].generation)
  }

  /** What each stage of the gate implies about the agent inside it. */
  predicate AgentOk(a: Agent) {
    && (a.clean ==> !a.runtime)
    && (match a.gate
        case Open => a.runtime || a.clean
        case Held(_, Entered) => a.runtime || a.clean
        case Held(_, Marked) => a.runtime && a.disposed
        case Held(_, RuntimeGone) => !a.runtime && a.disposed
        case Held(_, Clean) => a.clean && a.disposed)
  }

  ghost predicate AgentsInv(agents: map<nat, Agent>) {
    forall a :: a in agents ==> AgentOk(agents[a])
  }

  ghost predicate NamesInv(s: System) {
    && (forall t :: t in s.tasks ==> t < s.nextName)
    && (forall a :: a in s.agents ==> a < s.nextName)
    && (forall d :: d in s.disposals ==> d < s.nextName)
  }

  ghost predicate SlotInv(s: System) {
    && (s.core.disposal.Some? ==> s.core.disposal.value in s.disposals)
    && (forall d :: d in s.disposals ==> (s.disposals[d].phase.Released? <==> s.core.disposal != Some(d)))
    && (forall d :: d in s.disposals && s.disposals[d].result.Some? ==>
          s.disposals[d].phase == Released(s.disposals[d].result.value))
    && (s.core.disposal.Some? ==>
          match s.disposals[s.core.disposal.value].phase
          case AwaitSetups(ts) => forall id :: id in s.core.starting ==> s.core.starting[id].task in ts
          case Collecting => s.core.starting == map[]
          case DisposingAgents(remaining, failed) =>
            s.core.starting == map[] && (!failed ==> forall id :: id in s.core.live ==> s.core.live[id].agent in remaining)
          case _ => true)
  }

  ghost predicate Inv(s: System) {
    && StartingInv(s.core.starting, s.tasks)
    && LiveInv(s.core.live, s.agents)
    && s.core.starting.Keys !! s.core.live.Keys
    && GenerationsInv(s.agents, s.core.nextGeneration)
    && AgentsInv(s.agents)
    && NamesInv(s)
    && SlotInv(s)
  }

  /** Moving a task between phases that hold the same entry. */
  lemma TaskUpdate(s: System, t: nat, task: Task)
    requires Inv(s) && t in s.tasks && task.session == s.tasks[t].session
    requires Reserves(task.phase) == Reserves(s.tasks[t].phase)
    ensures Inv(s.(tasks := s.tasks[t := task]))
  {
    hide LiveInv, GenerationsInv, AgentsInv;
  }

  lemma ReserveInv(s: System, id: SessionId)
    requires Inv(s)
    ensures Inv(TaskStep(s, Reserve(id)))
  {
    hide LiveInv, GenerationsInv, AgentsInv;
  }

  lemma DropInv(s: System, t: nat)
    requires Inv(s)
    ensures Inv(TaskStep(s, DropReservation(t)))
  {
    if t in s.tasks && s.tasks[t].phase.Finishing? {
      DropStarting(s.core.starting, s.tasks, t);
      hide StartingInv;
    }
    hide LiveInv, GenerationsInv, AgentsInv;
  }

  lemma DropStarting(starting: map<SessionId, Starting>, tasks: map<nat, Task>, t: nat)
    requires StartingInv(starting, tasks) && t in tasks
    ensures var id := tasks[t].session;
            StartingInv(if id in starting && starting[id].task == t then starting - {id} else starting,
                        tasks[t := tasks[t].(phase := Done)])
  {
  }

  lemma AbandonInv(s: System, t: nat, ok: bool)
    requires Inv(s)
    ensures Inv(TaskStep(s, AbandonedDispose(t, ok)))
  {
    hide LiveInv, GenerationsInv, AgentsInv;
  }

  lemma AcceptLive(live: map<SessionId, LiveAgent>, agents: map<nat, Agent>, id: SessionId, generation: nat, task: nat, name: nat)
    requires LiveInv(live, agents) && id !in live && name !in agents
    ensures LiveInv(live[id := LiveAgent(generation, name)],
                    agents[name := Agent(id, generation, task, false, true, false, Open)])
  {
  }

  lemma AcceptStarting(starting: map<SessionId, Starting>, tasks: map<nat, Task>, t: nat)
    requires StartingInv(starting, tasks) && t in tasks && Reserves(tasks[t].phase)
    ensures StartingInv(starting - {tasks[t].session}, tasks[t := tasks[t].(phase := Finishing(true))])
  {
  }

  lemma AcceptGenerations(agents: map<nat, Agent>, last: nat, name: nat, agent: Agent)
    requires GenerationsInv(agents, last) && AgentsInv(agents) && name !in agents
    requires agent.generation == last + 1 && AgentOk(agent)
    ensures GenerationsInv(agents[name := agent], last + 1) && AgentsInv(agents[name := agent])
  {
  }

  lemma AcceptedInv(s: System, t: nat)
    requires Inv(s) && t in s.tasks && s.tasks[t].phase == Offered(false) && !s.tasks[t].callerGone
    requires AcceptOf(s.core, s.tasks[t].session, t, s.tasks[t].cancelled) == Accepted
    ensures Inv(TaskStep(s, Accept(t)))
  {
    hide LiveInv, StartingInv, GenerationsInv, AgentsInv;
    var id := s.tasks[t].session;
    AcceptLive(s.core.live, s.agents, id, s.core.nextGeneration + 1, t, s.nextName);
    AcceptStarting(s.core.starting, s.tasks, t);
    AcceptGenerations(s.agents, s.core.nextGeneration, s.nextName,
                      Agent(id, s.core.nextGeneration + 1, t, false, true, false, Open));
  }

  /** A reservation still held by its own task is never found lost. */
  lemma NeverLost(s: System, t: nat)
    requires Inv(s) && t in s.tasks && s.tasks[t].phase.Offered?
    ensures AcceptOf(s.core, s.tasks[t].session, t, s.tasks[t].cancelled) != ReservationLost
  {
    hide LiveInv, GenerationsInv, AgentsInv, NamesInv, SlotInv;
  }

  lemma AcceptInv(s: System, t: nat)
    requires Inv(s)
    ensures Inv(TaskStep(s, Accept(t)))
  {
    hide Inv;
    if t in s.tasks && s.tasks[t].phase == Offered(false) && !s.tasks[t].callerGone {
      if AcceptOf(s.core, s.tasks[t].session, t, s.tasks[t].cancelled) == Accepted {
        AcceptedInv(s, t);
      } else {
        TaskUpdate(s, t, s.tasks[t].(phase := Offered(true)));
      }
    }
  }

  lemma TaskInv(s: System, a: Action)
    requires Inv(s)
    ensures Inv(TaskStep(s, a))
  {
    hide Inv;
    match a {
      case Reserve(id) => ReserveInv(s, id);
      case Accept(t) => AcceptInv(s, t);
      case AbandonedDispose(t, ok) => AbandonInv(s, t, ok);
      case DropReservation(t) => DropInv(s, t);
      case CancelSetup(t) => if t in s.tasks { TaskUpdate(s, t, s.tasks[t].(cancelled := true)); }
      case CallerVanishes(t) => if t in s.tasks { TaskUpdate(s, t, s.tasks[t].(callerGone := true)); }
      case BuildFails(t) =>
        if t in s.tasks && s.tasks[t].phase == Building { TaskUpdate(s, t, s.tasks[t].(phase := Finishing(false))); }
      case BuildSucceeds(t) =>
        if t in s.tasks && s.tasks[t].phase == Building { TaskUpdate(s, t, s.tasks[t].(phase := Built)); }
      case OfferOrAbandon(t) =>
        if t in s.tasks && s.tasks[t].phase == Built {
          TaskUpdate(s, t, s.tasks[t].(phase := if s.tasks[t].cancelled || s.tasks[t].callerGone then Abandoning else Offered(false)));
        }
      case ObserveRefusal(t) =>
        if t in s.tasks && s.tasks[t].phase.Offered? { TaskUpdate(s, t, s.tasks[t].(phase := Abandoning)); }
      case _ =>
    }
  }

  lemma LiveUpdate(live: map<SessionId, LiveAgent>, agents: map<nat, Agent>, a: nat, agent: Agent)
    requires LiveInv(live, agents) && a in agents
    requires agent.session == agents[a].session && agent.generation == agents[a].generation
    requires Attached(agent) == Attached(agents[a])
    ensures LiveInv(live, agents[a := agent])
  {
  }

  lemma GenerationsUpdate(agents: map<nat, Agent>, last: nat, a: nat, agent: Agent)
    requires GenerationsInv(agents, last) && AgentsInv(agents) && a in agents
    requires agent.generation == agents[a].generation && AgentOk(agent)
    ensures GenerationsInv(agents[a := agent], last) && AgentsInv(agents[a := agent])
  {
  }

  /** Moving an agent through its gate while it stays attached, or stays detached. */
  lemma AgentUpdate(s: System, a: nat, agent: Agent)
    requires Inv(s) && a in s.agents
    requires agent.session == s.agents[a].session && agent.generation == s.agents[a].generation
    requires Attached(agent) == Attached(s.agents[a]) && AgentOk(agent)
    ensures Inv(SetAgent(s, a, agent))
  {
    hide StartingInv, LiveInv, GenerationsInv, AgentsInv;
    LiveUpdate(s.core.live, s.agents, a, agent);
    GenerationsUpdate(s.agents, s.core.nextGeneration, a, agent);
  }

  /** The bookkeeping of a shutdown when one of its calls returns. */
  lemma ReturnedInv(s: System, gate: Gate, a: nat, ok: bool)
    requires Inv(s)
    requires ok ==> forall id :: id in s.core.live ==> s.core.live[id].agent != a
    ensures Inv(s.(disposals := Returned(s, gate, a, ok)))
  {
    hide StartingInv, LiveInv, GenerationsInv, AgentsInv;
  }

  /** A detached agent has no live entry. */
  lemma DetachedNotLive(s: System, a: nat)
    requires Inv(s) && a in s.agents && !Attached(s.agents[a])
    ensures forall id :: id in s.core.live ==> s.core.live[id].agent != a
  {
    hide StartingInv, GenerationsInv, AgentsInv, NamesInv, SlotInv;
  }

  lemma RemoveLive(live: map<SessionId, LiveAgent>, agents: map<nat, Agent>, a: nat, agent: Agent)
    requires LiveInv(live, agents) && a in agents && Attached(agents[a]) && !Attached(agent)
    requires agent.session == agents[a].session
    ensures LiveInv(live - {agents[a].session}, agents[a := agent])
  {
  }

  /** Removing an agent takes its own entry and no other. */
  lemma RemoveInv(s: System, a: nat)
    requires Inv(s) && a in s.agents && s.agents[a].gate.Held? && s.agents[a].gate.stage == Clean
    ensures var s' := s.(core := RemoveCore(s.core, s.agents[a].session, s.agents[a].generation),
                         agents := s.agents[a := s.agents[a].(gate := Open)]);
            && Inv(s') && !Attached(s'.agents[a])
            && s'.core.live == s.core.live - {s.agents[a].session}
            && s.agents[a].session in s.core.live && s.core.live[s.agents[a].session].agent == a
  {
    hide StartingInv, GenerationsInv;
    var agent := s.agents[a].(gate := Open);
    assert AgentOk(s.agents[a]);
    RemoveLive(s.core.live, s.agents, a, agent);
    GenerationsUpdate(s.agents, s.core.nextGeneration, a, agent);
  }

  lemma AgentStepInv(s: System, action: Action)
    requires Inv(s)
    ensures Inv(AgentStep(s, action))
  {
    hide Inv, Returned, LiveInv, StartingInv;
    match action {
      case EnterGate(a, shutdown) =>
        if a in s.agents && s.agents[a].gate == Open {
          GateFacts(s, a);
          AgentUpdate(s, a, s.agents[a].(gate := Held(shutdown, Entered)));
        }
      case MarkAgent(a) =>
        if a in s.agents && s.agents[a].gate.Held? && s.agents[a].gate.stage == Entered {
          GateFacts(s, a);
          if s.agents[a].clean {
            CallReturns(s, a, s.agents[a].(gate := Open), true);
          } else {
            AgentUpdate(s, a, s.agents[a].(disposed := true, gate := s.agents[a].gate.(stage := Marked)));
          }
        }
      case RuntimeDispose(a, ok) =>
        if a in s.agents && s.agents[a].gate.Held? && s.agents[a].gate.stage == Marked {
          GateFacts(s, a);
          if ok {
            AgentUpdate(s, a, s.agents[a].(runtime := false, gate := s.agents[a].gate.(stage := RuntimeGone)));
          } else {
            CallReturns(s, a, s.agents[a].(gate := Open), false);
          }
        }
      case SetClean(a) =>
        if a in s.agents && s.agents[a].gate.Held? && s.agents[a].gate.stage == RuntimeGone {
          GateFacts(s, a);
          AgentUpdate(s, a, s.agents[a].(clean := true, gate := s.agents[a].gate.(stage := Clean)));
        }
      case RemoveAgent(a) =>
        if a in s.agents && s.agents[a].gate.Held? && s.agents[a].gate.stage == Clean { RemoveStepInv(s, a); }
      case DropCall(a) =>
        if a in s.agents && s.agents[a].gate.Held? && (s.agents[a].gate.stage == Entered || s.agents[a].gate.stage == Marked) {
          GateFacts(s, a);
          AgentUpdate(s, a, s.agents[a].(gate := Open));
        }
      case _ =>
    }
  }

  lemma GateFacts(s: System, a: nat)
    requires Inv(s) && a in s.agents
    ensures AgentOk(s.agents[a])
  {
  }

  lemma CallReturns(s: System, a: nat, agent: Agent, ok: bool)
    requires Inv(s) && a in s.agents && agent == s.agents[a].(gate := Open) && AgentOk(agent)
    requires Attached(agent) == Attached(s.agents[a]) && (ok ==> !Attached(agent))
    ensures Inv(SetAgent(s, a, agent).(disposals := Returned(s, s.agents[a].gate, a, ok)))
  {
    hide Inv;
    AgentUpdate(s, a, agent);
    var s' := SetAgent(s, a, agent);
    if ok { DetachedNotLive(s', a); }
    ReturnedInv(s', s.agents[a].gate, a, ok);
  }

  lemma RemoveStepInv(s: System, a: nat)
    requires Inv(s) && a in s.agents && s.agents[a].gate.Held? && s.agents[a].gate.stage == Clean
    ensures Inv(AgentStep(s, RemoveAgent(a)))
  {
    hide Inv;
    RemoveInv(s, a);
    var s' := s.(core := RemoveCore(s.core, s.agents[a].session, s.agents[a].generation),
                 agents := s.agents[a := s.agents[a].(gate := Open)]);
    DetachedNotLive(s', a);
    ReturnedInv(s', s.agents[a].gate, a, true);
  }

  lemma SnapshotInv(s: System, d: nat)
    requires Inv(s)
    ensures Inv(DisposalStep(s, SnapshotSetups(d)))
  {
    hide LiveInv, GenerationsInv, AgentsInv;
  }

  lemma SetupsFinishedInv(s: System, d: nat)
    requires Inv(s)
    ensures Inv(DisposalStep(s, SetupsFinished(d)))
  {
    hide LiveInv, GenerationsInv, AgentsInv;
  }

  lemma DisposeAllInv(s: System, caller: nat)
    requires Inv(s)
    ensures Inv(DisposalStep(s, DisposeAll(caller)))
  {
    hide LiveInv, GenerationsInv, AgentsInv, StartingInv;
  }

  lemma CollectInv(s: System, d: nat)
    requires Inv(s)
    ensures Inv(DisposalStep(s, CollectAgents(d))) && Inv(DisposalStep(s, PublishResult(d)))
  {
    CollectsInv(s, d);
    PublishInv(s, d);
    hide Inv, DisposalStep;
  }

  lemma CollectsInv(s: System, d: nat)
    requires Inv(s)
    ensures Inv(DisposalStep(s, CollectAgents(d)))
  {
    hide LiveInv, GenerationsInv, AgentsInv, StartingInv;
  }

  lemma PublishInv(s: System, d: nat)
    requires Inv(s)
    ensures Inv(DisposalStep(s, PublishResult(d)))
  {
    hide LiveInv, GenerationsInv, AgentsInv, StartingInv;
  }

  lemma ReleaseInv(s: System, d: nat)
    requires Inv(s)
    ensures Inv(DisposalStep(s, ReleaseSlot(d))) && Inv(DisposalStep(s, AbortDisposal(d)))
  {
    hide LiveInv, GenerationsInv, AgentsInv, StartingInv;
  }

  lemma DisposalStepInv(s: System, a: Action)
    requires Inv(s)
    ensures Inv(DisposalStep(s, a))
  {
    hide Inv, InPhase;
    match a {
      case DisposeAll(caller) => DisposeAllInv(s, caller);
      case SnapshotSetups(d) => SnapshotInv(s, d);
      case SetupsFinished(d) => SetupsFinishedInv(s, d);
      case CollectAgents(d) => CollectInv(s, d);
      case PublishResult(d) => CollectInv(s, d);
      case ReleaseSlot(d) => ReleaseInv(s, d);
      case AbortDisposal(d) => ReleaseInv(s, d);
      case _ =>
    }
  }

  lemma InvStep(s: System, a: Action)
    requires Inv(s)
    ensures Inv(Next(s, a))
  {
    hide Inv, TaskStep, AgentStep, DisposalStep;
    TaskInv(s, a);
    AgentStepInv(s, a);
    DisposalStepInv(s, a);
    if a.SetFactory? { FactoryInv(s, a.present); }
  }

  lemma FactoryInv(s: System, present: bool)
    requires Inv(s)
    ensures Inv(s.(core := s.core.(factory := present)))
  {
  }

  function Run(s: System, actions: seq<Action>): System
    decreases |actions|
  {
    if actions == [] then s else Run(Next(s, actions[0]), actions[1..])
  }

  lemma {:induction false} InvRun(s: System, actions: seq<Action>)
    requires Inv(s)
    ensures Inv(Run(s, actions))
    decreases |actions|
  {
    hide Inv, Next;
    if actions != [] {
      InvStep(s, actions[0]);
      InvRun(Next(s, actions[0]), actions[1..]);
    }
  }

  lemma EmptyInv()
    ensures Inv(EMPTY)
  {
  }

  // ---------------------------------------------------------------------
  // What holds in every run
  // ---------------------------------------------------------------------

  datatype Owner = ByTask(task: nat) | ByAgent(agent: nat)

  /** Who holds a built driver of this session that has not been disposed of. */
  predicate OwnsRuntime(s: System, o: Owner, id: SessionId) {
    match o
    case ByTask(t) => t in s.tasks && s.tasks[t].session == id && TaskHasRuntime(s.tasks[t].phase)
    case ByAgent(a) => a in s.agents && s.agents[a].session == id && s.agents[a].runtime
  }

  /** In every interleaving, a session has at most one driver that is built and not yet
      disposed of, owned by the starting entry or by the live entry and never by both. */
  lemma OneRuntime(actions: seq<Action>, id: SessionId, o: Owner, o': Owner)
    ensures var s := Run(EMPTY, actions);
            OwnsRuntime(s, o, id) && OwnsRuntime(s, o', id) ==>
              && o == o'
              && (o.ByTask? ==> id in s.core.starting && s.core.starting[id].task == o.task && id !in s.core.live)
              && (o.ByAgent? ==> id in s.core.live && s.core.live[id].agent == o.agent && id !in s.core.starting)
  {
    hide Next, Run;
    EmptyInv();
    InvRun(EMPTY, actions);
    OwnersAgree(Run(EMPTY, actions), id, o, o');
  }

  lemma OwnersAgree(s: System, id: SessionId, o: Owner, o': Owner)
    requires Inv(s)
    ensures OwnsRuntime(s, o, id) && OwnsRuntime(s, o', id) ==>
              && o == o'
              && (o.ByTask? ==> id in s.core.starting && s.core.starting[id].task == o.task && id !in s.core.live)
              && (o.ByAgent? ==> id in s.core.live && s.core.live[id].agent == o.agent && id !in s.core.starting)
  {
    hide GenerationsInv, AgentsInv, NamesInv, SlotInv;
    OwnerEntry(s, id, o);
    OwnerEntry(s, id, o');
  }

  lemma OwnerEntry(s: System, id: SessionId, o: Owner)
    requires Inv(s)
    ensures OwnsRuntime(s, o, id) ==>
              && (o.ByTask? ==> id in s.core.starting && s.core.starting[id].task == o.task)
              && (o.ByAgent? ==> id in s.core.live && s.core.live[id].agent == o.agent)
  {
    hide GenerationsInv, AgentsInv, NamesInv, SlotInv;
  }

  /** The check an authority for agent `a` of generation `g` makes. */
  predicate IsLive(s: System, a: nat, g: nat) {
    && a in s.agents && s.agents[a].generation == g
    && s.agents[a].session in s.core.live && s.core.live[s.agents[a].session] == LiveAgent(g, a)
    && !s.agents[a].disposed
  }

  /** Two authorities of one session that both pass are the same agent and generation,
      and a newer live generation shuts every older authority out. */
  lemma OneLiveAuthority(actions: seq<Action>, a: nat, g: nat, b: nat, h: nat)
    ensures var s := Run(EMPTY, actions);
            IsLive(s, a, g) && b in s.agents && s.agents[b].generation == h && s.agents[b].session == s.agents[a].session ==>
              && (IsLive(s, b, h) ==> a == b && g == h)
              && (g != h ==> !IsLive(s, b, h))
              && (h == g ==> a == b)
  {
    hide Next, Run, StartingInv, NamesInv, SlotInv, AgentsInv;
    EmptyInv();
    InvRun(EMPTY, actions);
  }

  lemma TaskKeepsLive(s: System, action: Action, id: SessionId)
    requires id in s.core.live
    ensures id in TaskStep(s, action).core.live && TaskStep(s, action).core.live[id] == s.core.live[id]
  {
  }

  lemma AgentKeepsLive(s: System, action: Action)
    ensures !action.RemoveAgent? ==> AgentStep(s, action).core == s.core
    ensures DisposalStep(s, action).core.live == s.core.live
  {
  }

  /** A live entry changes only when its own agent removes it after a clean disposal:
      no stale generation, no setup and no shutdown takes it away. */
  lemma OnlyOwnRemoval(s: System, action: Action, id: SessionId)
    requires Inv(s) && id in s.core.live
    ensures (id in Next(s, action).core.live && Next(s, action).core.live[id] == s.core.live[id])
         || (action == RemoveAgent(s.core.live[id].agent) && action.agent in s.agents && s.agents[action.agent].clean)
  {
    hide Inv, TaskStep, DisposalStep, Returned;
    TaskKeepsLive(s, action, id);
    match action {
      case RemoveAgent(a) =>
        if a in s.agents && s.agents[a].gate.Held? && s.agents[a].gate.stage == Clean {
          RemoveInv(s, a);
          GateFacts(s, a);
        }
      case _ => AgentKeepsLive(s, action);
    }
  }

  /** While a shutdown is in progress nothing enters `starting` or `live`. */
  lemma NothingEnters(s: System, action: Action)
    requires s.core.disposal.Some?
    ensures Next(s, action).core.starting.Keys <= s.core.starting.Keys
    ensures Next(s, action).core.live.Keys <= s.core.live.Keys
    ensures forall id :: id in Next(s, action).core.live ==> Next(s, action).core.live[id] == s.core.live[id]
  {
    TaskEnters(s, action);
    AgentEnters(s, action);
    DisposalEnters(s, action);
    hide TaskStep, AgentStep, DisposalStep;
  }

  /** No entry of the second core is new, and the live ones are the same. */
  predicate NoneNew(c: Core, c': Core) {
    && c'.starting.Keys <= c.starting.Keys
    && c'.live.Keys <= c.live.Keys
    && forall id :: id in c'.live ==> c'.live[id] == c.live[id]
  }

  lemma TaskEnters(s: System, action: Action)
    requires s.core.disposal.Some?
    ensures NoneNew(s.core, TaskStep(s, action).core)
  {
  }

  lemma AgentEnters(s: System, action: Action)
    ensures NoneNew(s.core, AgentStep(s, action).core)
  {
    hide Returned;
  }

  lemma DisposalEnters(s: System, action: Action)
    ensures NoneNew(s.core, DisposalStep(s, action).core)
  {
    hide SetupsOf;
  }

  /** A shutdown that is about to finish with Ok has emptied both maps. */
  lemma ShutdownEmptiesRegistry(actions: seq<Action>, d: nat)
    ensures var s := Run(EMPTY, actions);
            var s' := Next(s, ReleaseSlot(d));
            d in s.disposals && !s.disposals[d].phase.Released? && s'.disposals[d].phase == Released(true)
            ==> s.core.starting == map[] && s.core.live == map[]
  {
    hide Run, StartingInv, LiveInv, NamesInv, AgentsInv, GenerationsInv;
    EmptyInv();
    InvRun(EMPTY, actions);
    var s := Run(EMPTY, actions);
    if InPhase(s, d) && s.disposals[d].phase.DisposingAgents? && !s.disposals[d].phase.failed && s.disposals[d].phase.remaining == {} {
      forall id | id in s.core.live ensures false {}
    }
  }

  /** Callers that arrive while a shutdown runs join it; its result is written once
      and never changes, so all of them are answered alike. */
  lemma SharedResult(s: System, action: Action, caller: nat)
    requires Inv(s)
    ensures caller in s.callers ==> caller in Next(s, action).callers && Next(s, action).callers[caller] == s.callers[caller]
    ensures caller !in s.callers && action == DisposeAll(caller) ==>
              caller in Next(s, action).callers
              && Some(Next(s, action).callers[caller]) == Next(s, action).core.disposal
              && (s.core.disposal.Some? ==> Next(s, action).core.disposal == s.core.disposal)
    ensures forall d :: d in s.disposals && s.disposals[d].result.Some? ==>
              d in Next(s, action).disposals && Next(s, action).disposals[d].result == s.disposals[d].result
  {
    hide Inv, TaskStep, AgentStep, DisposalStep;
    TaskKeepsDisposals(s, action);
    AgentKeepsResults(s, action);
    DisposalKeepsResults(s, action, caller);
  }

  lemma {:induction false} ResultRun(s: System, actions: seq<Action>, caller: nat, d: nat)
    requires Inv(s)
    ensures caller in s.callers ==> caller in Run(s, actions).callers && Run(s, actions).callers[caller] == s.callers[caller]
    ensures d in s.disposals && s.disposals[d].result.Some? ==>
              d in Run(s, actions).disposals && Run(s, actions).disposals[d].result == s.disposals[d].result
    decreases |actions|
  {
    hide Inv, Next;
    if actions != [] {
      InvStep(s, actions[0]);
      SharedResult(s, actions[0], caller);
      ResultRun(Next(s, actions[0]), actions[1..], caller, d);
    }
  }

  /** Two calls of dispose_all, the second while the first one's shutdown still runs: both wait
      for one shutdown, and whenever each of them reads its answer it reads the same one. */
  lemma ConcurrentCallersShare(s: System, first: nat, mid: seq<Action>, second: nat, early: seq<Action>, late: seq<Action>)
    requires Inv(s) && first !in s.callers
    requires var s1 := Next(s, DisposeAll(first));
             var s2 := Run(s1, mid);
             second !in s2.callers && s2.core.disposal == s1.core.disposal
    ensures var s2 := Run(Next(s, DisposeAll(first)), mid);
            var s3 := Run(Next(s2, DisposeAll(second)), early);
            var s4 := Run(s3, late);
            && first in s3.callers && second in s3.callers && s3.callers[first] == s3.callers[second]
            && second in s4.callers && s4.callers[second] == s3.callers[first]
            && var d := s3.callers[first];
               (d in s3.disposals && s3.disposals[d].result.Some? ==>
                  d in s4.disposals && s4.disposals[d].result == s3.disposals[d].result)
  {
    hide Inv, Next, Run;
    var s1 := Next(s, DisposeAll(first));
    var s2 := Run(s1, mid);
    var joined := Next(s2, DisposeAll(second));
    InvStep(s, DisposeAll(first));
    InvRun(s1, mid);
    InvStep(s2, DisposeAll(second));
    InvRun(joined, early);
    SharedResult(s, DisposeAll(first), first);
    ResultRun(s1, mid, first, 0);
    SharedResult(s2, DisposeAll(second), first);
    SharedResult(s2, DisposeAll(second), second);
    ResultRun(joined, early, first, 0);
    ResultRun(joined, early, second, 0);
    ResultRun(Run(joined, early), late, second, s1.callers[first]);
  }

  lemma TaskKeepsDisposals(s: System, action: Action)
    ensures TaskStep(s, action).disposals == s.disposals && TaskStep(s, action).callers == s.callers
    ensures TaskStep(s, action).core.disposal == s.core.disposal
  {
  }

  lemma AgentKeepsResults(s: System, action: Action)
    ensures AgentStep(s, action).callers == s.callers && AgentStep(s, action).core.disposal == s.core.disposal
    ensures forall d :: d in s.disposals ==>
              d in AgentStep(s, action).disposals && AgentStep(s, action).disposals[d].result == s.disposals[d].result
  {
  }

  lemma DisposalKeepsResults(s: System, action: Action, caller: nat)
    requires Inv(s)
    ensures caller in s.callers ==>
              caller in DisposalStep(s, action).callers && DisposalStep(s, action).callers[caller] == s.callers[caller]
    ensures caller !in s.callers && action == DisposeAll(caller) ==>
              caller in DisposalStep(s, action).callers
              && Some(DisposalStep(s, action).callers[caller]) == DisposalStep(s, action).core.disposal
              && (s.core.disposal.Some? ==> DisposalStep(s, action).core.disposal == s.core.disposal)
    ensures forall d :: d in s.disposals && s.disposals[d].result.Some? ==>
              d in DisposalStep(s, action).disposals && DisposalStep(s, action).disposals[d].result == s.disposals[d].result
  {
    hide StartingInv, LiveInv, AgentsInv, GenerationsInv, SlotInv;
  }
}
