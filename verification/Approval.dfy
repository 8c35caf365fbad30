/** The fail-closed approval coordinator: any number of approvals, policy changes and the
    turn driver share one log, one write gate and one state, and interleave in any
    order. The log of the model also records what is not durable (hooks, answers and
    the last check, cancellation, loss of authority), so that a run can be read back. */
module Approval {

  datatype Option<+T> = None | Some(value: T)

  datatype Policy = Ask | Never

  datatype Outcome = AllowedOnce | Rejected | Cancelled | Unavailable

  datatype Answer = Allow | Deny | Decline | Failure

  datatype Event =
    | TurnStart(turn: nat)
    | TurnEnd
    | PolicySet(policy: Policy)
    | Asked(id: nat, turn: nat, policy: Policy)
    | HookRan(id: nat, index: nat, denied: bool)
    | Answered(id: nat, index: nat, answer: Answer)
    | CancelSeen(id: nat)                 // the approval stopped asking because it was cancelled
    | Checked(id: nat, turn: nat)         // an allowance passed the final check
    | CheckSawCancel(id: nat)             // or was found cancelled by it
    | CheckFailed(id: nat, turn: nat)     // or found without authority or turn
    | Decided(id: nat, turn: nat, outcome: Outcome)
    | TokenCancelled(id: nat)
    | AuthorityLost

  // ---------------------------------------------------------------------
  // Folds over the log
  // ---------------------------------------------------------------------

  function ActiveTurn(log: seq<Event>): Option<nat> {
    if log == [] then None
    else match log[|log| - 1]
      case TurnStart(turn) => Some(turn)
      case TurnEnd => None
      case _ => ActiveTurn(log[..|log| - 1])
  }

  /** The policy a fresh service would restore from this log. */
  function LastPolicy(log: seq<Event>): Policy {
    if log == [] then Ask
    else match log[|log| - 1]
      case PolicySet(policy) => policy
      case _ => LastPolicy(log[..|log| - 1])
  }

  predicate Concerns(e: Event, id: nat) {
    match e
    case Asked(i, _, _) => i == id
    case HookRan(i, _, _) => i == id
    case Answered(i, _, _) => i == id
    case CancelSeen(i) => i == id
    case Checked(i, _) => i == id
    case CheckSawCancel(i) => i == id
    case CheckFailed(i, _) => i == id
    case Decided(i, _, _) => i == id
    case _ => false
  }

  /** The events of one approval, in order. */
  function Trace(log: seq<Event>, id: nat): seq<Event> {
    if log == [] then []
    else Trace(log[..|log| - 1], id) + if Concerns(log[|log| - 1], id) then [log[|log| - 1]] else []
  }

  method FindActiveTurn(log: seq<Event>) returns (active: Option<nat>)
    ensures active == ActiveTurn(log)
  {
    active := None;
    for i := 0 to |log|
      invariant active == ActiveTurn(log[..i])
    {
      assert log[..i + 1][..i] == log[..i];
      match log[i] {
        case TurnStart(turn) => active := Some(turn);
        case TurnEnd => active := None;
        case _ =>
      }
    }
    assert log[..|log|] == log;
  }

  /** The turn started at position `i`, and nothing started or ended since. */
  predicate ActiveSince(log: seq<Event>, turn: nat, i: nat) {
    && i < |log| && log[i] == TurnStart(turn)
    && forall j :: i < j < |log| ==> !log[j].TurnStart? && !log[j].TurnEnd?
  }

  lemma SinceAppend(log: seq<Event>, e: Event, turn: nat, i: nat)
    ensures ActiveSince(log + [e], turn, i) <==>
              if i == |log| then e == TurnStart(turn) else ActiveSince(log, turn, i) && !e.TurnStart? && !e.TurnEnd?
  {
    var longer := log + [e];
    assert longer[|log|] == e;
    assert forall j :: 0 <= j < |log| ==> longer[j] == log[j];
  }

  /** A turn is active exactly when it was started and nothing started or ended since. */
  lemma {:induction false} ActiveTurnMeans(log: seq<Event>, turn: nat)
    ensures ActiveTurn(log) == Some(turn) <==> exists i :: ActiveSince(log, turn, i)
  {
    if log != [] {
      var rest, e := log[..|log| - 1], log[|log| - 1];
      assert log == rest + [e];
      ActiveTurnMeans(rest, turn);
      hide ActiveSince;
      forall i: nat
        ensures ActiveSince(log, turn, i) <==>
                  if i == |rest| then e == TurnStart(turn) else ActiveSince(rest, turn, i) && !e.TurnStart? && !e.TurnEnd?
      {
        SinceAppend(rest, e, turn, i);
      }
      if i :| ActiveSince(rest, turn, i) {
        SinceWithin(rest, turn, i);
        assert ActiveSince(log, turn, i) <==> !e.TurnStart? && !e.TurnEnd?;
      }
      assert ActiveSince(log, turn, |rest|) <==> e == TurnStart(turn);
    }
  }

  lemma SinceWithin(log: seq<Event>, turn: nat, i: nat)
    requires ActiveSince(log, turn, i)
    ensures i < |log|
  {
  }

  /** The answer of a list of answerers: the first that does not decline decides. */
  function Waterfall(answers: seq<Answer>): Outcome {
    if answers == [] then Unavailable
    else match answers[0]
      case Allow => AllowedOnce
      case Deny => Rejected
      case Failure => Unavailable
      case Decline => Waterfall(answers[1..])
  }

  method AskInOrder(answers: seq<Answer>) returns (outcome: Outcome)
    ensures outcome == Waterfall(answers)
  {
    for i := 0 to |answers|
      invariant Waterfall(answers) == Waterfall(answers[i..])
    {
      assert answers[i..][1..] == answers[i + 1..];
      match answers[i] {
        case Allow => return AllowedOnce;
        case Deny => return Rejected;
        case Failure => return Unavailable;
        case Decline =>
      }
    }
    outcome := Unavailable;
  }

  /** Where the first answerer stands that does not decline, or the number of answers. */
  function Declining(answers: seq<Answer>): (k: nat)
    ensures k <= |answers| && (forall j :: 0 <= j < k ==> answers[j] == Decline)
    ensures k < |answers| ==> answers[k] != Decline
  {
    if answers == [] || answers[0] != Decline then 0 else 1 + Declining(answers[1..])
  }

  /** All four answers of the waterfall: the first answerer that does not decline allows, denies or
      fails; if all decline, or there is none, nobody is available. */
  lemma {:induction false} WaterfallMeans(answers: seq<Answer>)
    ensures var k := Declining(answers);
            && (Waterfall(answers) == AllowedOnce <==> k < |answers| && answers[k] == Allow)
            && (Waterfall(answers) == Rejected <==> k < |answers| && answers[k] == Deny)
            && (Waterfall(answers) == Unavailable <==> k == |answers| || answers[k] == Failure)
            && Waterfall(answers) != Cancelled
  {
    if answers != [] && answers[0] == Decline {
      WaterfallMeans(answers[1..]);
    }
  }

  lemma {:induction false} WaterfallAllows(answers: seq<Answer>)
    ensures Waterfall(answers) == AllowedOnce <==>
              exists k :: 0 <= k < |answers| && answers[k] == Allow && forall j :: 0 <= j < k ==> answers[j] == Decline
  {
    if answers != [] {
      var rest := answers[1..];
      WaterfallAllows(rest);
      if answers[0] == Decline {
        if Waterfall(rest) == AllowedOnce {
          var k :| 0 <= k < |rest| && rest[k] == Allow && forall j :: 0 <= j < k ==> rest[j] == Decline;
          assert answers[k + 1] == Allow;
          assert forall j :: 0 <= j < k + 1 ==> answers[j] == if j == 0 then answers[0] else rest[j - 1];
        }
        if k :| 0 <= k < |answers| && answers[k] == Allow && forall j :: 0 <= j < k ==> answers[j] == Decline {
          assert rest[k - 1] == Allow;
          assert forall j :: 0 <= j < k - 1 ==> rest[j] == answers[j + 1];
        }
      }
    }
  }

  // ---------------------------------------------------------------------
  // The service
  // ---------------------------------------------------------------------

  datatype Phase =
    | WantAsk                      // queued for the gate, before the asked event
    | Asking                       // inside the gate, policy and registrations captured
    | Recorded                     // the asked event is durable
    | Hooks(ran: nat)              // so many hooks ran and none denied
    | Answerers(declined: nat)     // so many answerers declined
    | WantDecide(outcome: Outcome)
    | Deciding(outcome: Outcome)   // inside the gate, after the final check
    | Returned(outcome: Outcome)
    | Dropped                      // the caller gave up at an await point

  datatype Task = Task(
    phase: Phase, turn: nat, generation: nat, policy: Policy, hooks: nat, answerers: nat,
    cancelled: bool, trace: seq<Event>)

  datatype Holder = Nobody | Approver(task: nat) | Setter(policy: Policy, appended: bool)

  datatype System = System(
    log: seq<Event>, policy: Policy, gate: Holder, live: bool,
    nextGeneration: nat, pending: set<nat>, tasks: map<nat, Task>, next: nat)

  datatype Action =
    | Begin(valid: bool, cancelled: bool)
    | CancelTask(task: nat)
    | DropTask(task: nat)
    | EnterAsk(task: nat, hooks: nat, answerers: nat)
    | AppendAsked(task: nat, ok: bool)
    | BeginHooks(task: nat)
    | RunHook(task: nat, denied: bool)
    | HooksDone(task: nat)
    | GetAnswer(task: nat, answer: Answer)
    | CancelWins(task: nat)
    | Exhausted(task: nat)
    | EnterDecide(task: nat)
    | AppendDecided(task: nat, ok: bool)
    | LoseAuthority
    | LogTurn(event: Event)
    | EnterSet(policy: Policy)
    | AppendPolicy(ok: bool)
    | StorePolicy
    | DropSetter

  function Put(s: System, k: nat, t: Task): System {
    s.(tasks := s.tasks[k := t])
  }

  /** Appends an event of task `k` to the log and to its own trace. */
  function Record(s: System, k: nat, t: Task, e: Event): System {
    Put(s.(log := s.log + [e]), k, t.(trace := t.trace + [e]))
  }

  function BeginStep(s: System, valid: bool, cancelled: bool): System {
    var active := ActiveTurn(s.log);
    var phase :=
      if !s.live || !valid then Returned(Unavailable)
      else if cancelled then Returned(Cancelled)
      else if active.None? then Returned(Unavailable)
      else WantAsk;
    Put(s, s.next, Task(phase, if active.Some? then active.value else 0, 0, Never, 0, 0, cancelled, [])).(
      next := s.next + 1, log := if cancelled then s.log + [TokenCancelled(s.next)] else s.log)
  }

  function AskStep(s: System, k: nat, t: Task, action: Action): System {
    match action
    case EnterAsk(_, hooks, answerers) =>
      if !(t.phase == WantAsk && s.gate == Nobody) then s
      else if t.cancelled then Put(s, k, t.(phase := Returned(Cancelled)))
      else if !s.live || ActiveTurn(s.log) != Some(t.turn) then Put(s, k, t.(phase := Returned(Rejected)))
      else Put(s, k, t.(phase := Asking, generation := s.nextGeneration + 1, policy := s.policy,
                        hooks := hooks, answerers := answerers)).(
             nextGeneration := s.nextGeneration + 1, gate := Approver(k))
    case AppendAsked(_, ok) =>
      if t.phase != Asking then s
      else if !ok then Put(s, k, t.(phase := Returned(Rejected))).(gate := Nobody)
      else Record(s, k, t.(phase := Recorded), Asked(k, t.turn, t.policy)).(
             pending := s.pending + {t.generation}, gate := Nobody)
    case BeginHooks(_) =>
      if t.phase != Recorded then s
      else if t.cancelled then Record(s, k, t.(phase := WantDecide(Cancelled)), CancelSeen(k))
      else Put(s, k, t.(phase := Hooks(0)))
    case RunHook(_, denied) =>
      if !(t.phase.Hooks? && t.phase.ran < t.hooks) then s
      else Record(s, k, t.(phase := if denied then WantDecide(Rejected) else Hooks(t.phase.ran + 1)),
                  HookRan(k, t.phase.ran, denied))
    case HooksDone(_) =>
      if !(t.phase.Hooks? && t.phase.ran == t.hooks) then s
      else Put(s, k, t.(phase := if t.policy == Never then WantDecide(Rejected) else Answerers(0)))
    case _ => s
  }

  function DecideStep(s: System, k: nat, t: Task, action: Action): System {
    match action
    case GetAnswer(_, answer) =>
      if !(t.phase.Answerers? && t.phase.declined < t.answerers) then s
      else Record(s, k, t.(phase := match answer
                             case Allow => WantDecide(AllowedOnce)
                             case Deny => WantDecide(Rejected)
                             case Failure => WantDecide(Unavailable)
                             case Decline => Answerers(t.phase.declined + 1)),
                  Answered(k, t.phase.declined, answer))
    case CancelWins(_) =>
      if t.phase.Answerers? && t.cancelled then Record(s, k, t.(phase := WantDecide(Cancelled)), CancelSeen(k)) else s
    case Exhausted(_) =>
      if t.phase.Answerers? && t.phase.declined == t.answerers then Put(s, k, t.(phase := WantDecide(Unavailable))) else s
    case EnterDecide(_) =>
      if !(t.phase.WantDecide? && s.gate == Nobody) then s
      else
        var matched := t.generation in s.pending;
        var outcome :=
          if !matched then Rejected
          else if t.phase.outcome == AllowedOnce && t.cancelled then Cancelled
          else if t.phase.outcome == AllowedOnce && (!s.live || ActiveTurn(s.log) != Some(t.turn)) then Rejected
          else t.phase.outcome;
        var entered := s.(pending := s.pending - {t.generation}, gate := Approver(k));
        var decided := t.(phase := Deciding(outcome));
        if !matched || t.phase.outcome != AllowedOnce then Put(entered, k, decided)
        else Record(entered, k, decided, match outcome
                                         case AllowedOnce => Checked(k, t.turn)
                                         case Cancelled => CheckSawCancel(k)
                                         case _ => CheckFailed(k, t.turn))
    case AppendDecided(_, ok) =>
      if !t.phase.Deciding? then s
      else if ok then Record(s, k, t.(phase := Returned(t.phase.outcome)), Decided(k, t.turn, t.phase.outcome)).(gate := Nobody)
      else Put(s, k, t.(phase := Returned(Rejected))).(gate := Nobody)
    case CancelTask(_) => Put(s.(log := s.log + [TokenCancelled(k)]), k, t.(cancelled := true))
    case DropTask(_) =>
      if t.phase.Returned? then s
      else Put(s, k, t.(phase := Dropped)).(gate := if s.gate == Approver(k) then Nobody else s.gate)
    case _ => s
  }

  function OtherStep(s: System, action: Action): System {
    match action
    case Begin(valid, cancelled) => BeginStep(s, valid, cancelled)
    case LoseAuthority => s.(live := false, log := s.log + [AuthorityLost])
    case LogTurn(e) => if e.TurnStart? || e.TurnEnd? then s.(log := s.log + [e]) else s
    case EnterSet(policy) => if s.gate == Nobody && s.live then s.(gate := Setter(policy, false)) else s
    case AppendPolicy(ok) =>
      if !(s.gate.Setter? && !s.gate.appended) then s
      else if ok then s.(log := s.log + [PolicySet(s.gate.policy)], gate := Setter(s.gate.policy, true))
      else s.(gate := Nobody)
    case StorePolicy => if s.gate.Setter? && s.gate.appended then s.(policy := s.gate.policy, gate := Nobody) else s
    case DropSetter => if s.gate.Setter? && !s.gate.appended then s.(gate := Nobody) else s
    case _ => s
  }

  function TaskOf(action: Action): Option<nat> {
    match action
    case Begin(_, _) => None
    case LoseAuthority => None
    case LogTurn(_) => None
    case EnterSet(_) => None
    case AppendPolicy(_) => None
    case StorePolicy => None
    case DropSetter => None
    case _ => Some(action.task)
  }

  function Next(s: System, action: Action): System {
    match TaskOf(action)
    case None => OtherStep(s, action)
    case Some(k) =>
      if k !in s.tasks then s
      else match action
        case EnterAsk(_, _, _) => AskStep(s, k, s.tasks[k], action)
        case AppendAsked(_, _) => AskStep(s, k, s.tasks[k], action)
        case BeginHooks(_) => AskStep(s, k, s.tasks[k], action)
        case RunHook(_, _) => AskStep(s, k, s.tasks[k], action)
        case HooksDone(_) => AskStep(s, k, s.tasks[k], action)
        case _ => DecideStep(s, k, s.tasks[k], action)
  }

  /** A service just built over a log that earlier services left behind. */
  ghost predicate Init(s: System) {
    && s.tasks == map[]
    && s.gate == Nobody
    && s.pending == {}
    && s.live
    && s.policy == LastPolicy(s.log)
    && (forall a :: 0 <= a < |s.log| ==> Honest(s.log, a))
    && (forall a :: 0 <= a < |s.log| ==> s.log[a] != AuthorityLost && !s.log[a].TokenCancelled?)
    && (forall id: nat :: s.next <= id ==> Trace(s.log, id) == [])
  }

  function Run(s: System, actions: seq<Action>): System
    decreases |actions|
  {
    if actions == [] then s else Run(Next(s, actions[0]), actions[1..])
  }

  // ---------------------------------------------------------------------
  // What one approval may leave in the log
  // ---------------------------------------------------------------------

  function PassedHooks(k: nat, n: nat): seq<Event> {
    seq(n, i requires 0 <= i < n => HookRan(k, i, false))
  }

  function Declines(k: nat, n: nat): seq<Event> {
    seq(n, i requires 0 <= i < n => Answered(k, i, Decline))
  }

  function AskedOf(k: nat, t: Task): Event {
    Asked(k, t.turn, t.policy)
  }

  /** The asked event, every captured hook without a denial, then `n` answerers that declined. */
  function Consulted(k: nat, t: Task, n: nat): seq<Event> {
    [AskedOf(k, t)] + PassedHooks(k, t.hooks) + Declines(k, n)
  }

  predicate Middle(e: Event) {
    !e.Asked? && !e.Decided?
  }

  /** One asked event at the head and no decision. */
  predicate Open(k: nat, t: Task) {
    && |t.trace| > 0
    && t.trace[0] == AskedOf(k, t)
    && forall i :: 1 <= i < |t.trace| ==> Middle(t.trace[i])
  }

  /** One asked event at the head and one decision at the end. */
  predicate Closed(k: nat, t: Task, outcome: Outcome) {
    && |t.trace| > 1
    && t.trace[0] == AskedOf(k, t)
    && t.trace[|t.trace| - 1] == Decided(k, t.turn, outcome)
    && forall i :: 1 <= i < |t.trace| - 1 ==> Middle(t.trace[i])
  }

  predicate AllowedBy(k: nat, t: Task, n: nat, tail: seq<Event>) {
    && n < t.answerers
    && t.policy == Ask
    && t.trace == Consulted(k, t, n) + [Answered(k, n, Allow)] + tail
  }

  ghost predicate Allowed(k: nat, t: Task, tail: seq<Event>) {
    exists n: nat :: AllowedBy(k, t, n, tail)
  }

  ghost predicate Shape(k: nat, t: Task) {
    match t.phase
    case WantAsk => t.trace == []
    case Asking => t.trace == []
    case Recorded => t.trace == [AskedOf(k, t)]
    case Hooks(n) => n <= t.hooks && t.trace == [AskedOf(k, t)] + PassedHooks(k, n)
    case Answerers(n) => n <= t.answerers && t.policy == Ask && t.trace == Consulted(k, t, n)
    case WantDecide(o) => Open(k, t) && (o == AllowedOnce ==> Allowed(k, t, []))
    case Deciding(o) => Open(k, t) && (o == AllowedOnce ==> Allowed(k, t, [Checked(k, t.turn)]))
    case Returned(o) =>
      if o == AllowedOnce then
        Closed(k, t, o) && Allowed(k, t, [Checked(k, t.turn), Decided(k, t.turn, AllowedOnce)])
      else t.trace == [] || Open(k, t) || Closed(k, t, o)
    case Dropped => t.trace == [] || Open(k, t)
  }

  // ---------------------------------------------------------------------
  // Invariants
  // ---------------------------------------------------------------------

  /** What an event says about the log before it. */
  predicate Honest(log: seq<Event>, a: nat)
    requires a < |log|
  {
    match log[a]
    case Asked(_, turn, policy) => policy == LastPolicy(log[..a])
    case Checked(id, turn) =>
      && ActiveTurn(log[..a]) == Some(turn)
      && AuthorityLost !in log[..a]
      && TokenCancelled(id) !in log[..a]
    case CancelSeen(id) => TokenCancelled(id) in log[..a]
    case CheckSawCancel(id) => TokenCancelled(id) in log[..a]
    case CheckFailed(id, turn) =>
      && TokenCancelled(id) !in log[..a]
      && (AuthorityLost in log[..a] || ActiveTurn(log[..a]) != Some(turn))
    case _ => true
  }

  predicate LogInv(log: seq<Event>) {
    forall a :: 0 <= a < |log| ==> Honest(log, a)
  }

  ghost predicate TraceInv(log: seq<Event>, tasks: map<nat, Task>, next: nat) {
    && (forall k :: k in tasks ==> k < next && Trace(log, k) == tasks[k].trace)
    && (forall k: nat :: next <= k ==> Trace(log, k) == [])
  }

  ghost predicate ShapeInv(tasks: map<nat, Task>) {
    forall k :: k in tasks ==> Shape(k, tasks[k])
  }

  predicate InGate(t: Task) {
    t.phase.Asking? || t.phase.Deciding?
  }

  /** The gate's holder is the one approval inside it; policy and log agree outside a change. */
  predicate GateInv(s: System) {
    && (forall k :: k in s.tasks && InGate(s.tasks[k]) ==> s.gate == Approver(k))
    && (s.gate.Approver? ==> s.gate.task in s.tasks && InGate(s.tasks[s.gate.task]))
    && (!(s.gate.Setter? && s.gate.appended) ==> s.policy == LastPolicy(s.log))
    && (s.gate.Setter? && s.gate.appended ==> s.gate.policy == LastPolicy(s.log))
    && (forall k :: k in s.tasks && s.tasks[k].phase.Asking? ==> s.tasks[k].policy == s.policy)
  }

  ghost predicate SignalInv(log: seq<Event>, live: bool, tasks: map<nat, Task>) {
    && (AuthorityLost in log <==> !live)
    && (forall k: nat :: TokenCancelled(k) in log <==> k in tasks && tasks[k].cancelled)
  }

  /** Recorded and not yet deciding: the approval holds its pending generation. */
  predicate Holds(t: Task) {
    t.phase.Recorded? || t.phase.Hooks? || t.phase.Answerers? || t.phase.WantDecide?
  }

  predicate GenerationInv(tasks: map<nat, Task>, pending: set<nat>, last: nat) {
    && (forall k :: k in tasks ==> tasks[k].generation <= last)
    && (forall k :: k in tasks && (Holds(tasks[k]) || InGate(tasks[k])) ==> 0 < tasks[k].generation)
    && (forall k :: k in tasks && Holds(tasks[k]) ==> tasks[k].generation in pending)
    && (forall j, k :: j in tasks && k in tasks && j != k && 0 < tasks[j].generation ==>
          tasks[j].generation != tasks[k].generation)
  }

  ghost predicate Inv(s: System) {
    && LogInv(s.log)
    && TraceInv(s.log, s.tasks, s.next)
    && ShapeInv(s.tasks)
    && GateInv(s)
    && SignalInv(s.log, s.live, s.tasks)
    && GenerationInv(s.tasks, s.pending, s.nextGeneration)
  }

  lemma TraceAppend(log: seq<Event>, e: Event, id: nat)
    ensures Trace(log + [e], id) == if Concerns(e, id) then Trace(log, id) + [e] else Trace(log, id)
  {
    assert (log + [e])[..|log|] == log;
  }

  lemma FoldAppend(log: seq<Event>, e: Event)
    ensures LastPolicy(log + [e]) == if e.PolicySet? then e.policy else LastPolicy(log)
    ensures ActiveTurn(log + [e]) ==
            if e.TurnStart? then Some(e.turn) else if e.TurnEnd? then None else ActiveTurn(log)
  {
    assert (log + [e])[..|log|] == log;
  }

  lemma HonestAppend(log: seq<Event>, e: Event)
    requires LogInv(log)
    requires Honest(log + [e], |log|)
    ensures LogInv(log + [e])
  {
    forall a | 0 <= a < |log + [e]|
      ensures Honest(log + [e], a)
    {
      if a < |log| {
        assert Honest(log, a);
        assert (log + [e])[..a] == log[..a];
        assert (log + [e])[a] == log[a];
      }
    }
  }

  // ---------------------------------------------------------------------
  // One step of one approval
  // ---------------------------------------------------------------------

  predicate Appended(log: seq<Event>, log': seq<Event>, t: Task, t': Task, k: nat, e: Event) {
    && log' == log + [e]
    && (Concerns(e, k) || e == TokenCancelled(k))
    && t'.trace == if Concerns(e, k) then t.trace + [e] else t.trace
  }

  /** Only task `k` changed, and its trace grew with the log. */
  ghost predicate Local(s: System, s': System, k: nat)
    requires k in s.tasks
  {
    && k in s'.tasks
    && s'.tasks == s.tasks[k := s'.tasks[k]]
    && s'.next == s.next
    && s'.live == s.live
    && ((s'.log == s.log && s'.tasks[k].trace == s.tasks[k].trace)
        || exists e :: Appended(s.log, s'.log, s.tasks[k], s'.tasks[k], k, e))
  }

  lemma AskLocal(s: System, k: nat, action: Action)
    requires k in s.tasks
    ensures Local(s, AskStep(s, k, s.tasks[k], action), k)
  {
    hide ActiveTurn, LastPolicy, Trace;
    var t := s.tasks[k];
    var s' := AskStep(s, k, t, action);
    if s' == s {
      assert s.tasks == s.tasks[k := t];
    } else if action.AppendAsked? && action.ok {
      assert Appended(s.log, s'.log, t, s'.tasks[k], k, AskedOf(k, t));
    } else if action.RunHook? {
      assert Appended(s.log, s'.log, t, s'.tasks[k], k, HookRan(k, t.phase.ran, action.denied));
    } else if action.BeginHooks? && t.cancelled {
      assert Appended(s.log, s'.log, t, s'.tasks[k], k, CancelSeen(k));
    }
  }

  lemma DecideLocal(s: System, k: nat, action: Action)
    requires k in s.tasks
    ensures Local(s, DecideStep(s, k, s.tasks[k], action), k)
  {
    hide ActiveTurn, LastPolicy, Trace;
    var t := s.tasks[k];
    var s' := DecideStep(s, k, t, action);
    if s' == s {
      assert s.tasks == s.tasks[k := t];
    } else if action.GetAnswer? {
      assert Appended(s.log, s'.log, t, s'.tasks[k], k, Answered(k, t.phase.declined, action.answer));
    } else if action.CancelWins? {
      assert Appended(s.log, s'.log, t, s'.tasks[k], k, CancelSeen(k));
    } else if action.EnterDecide? && s'.log != s.log {
      assert Appended(s.log, s'.log, t, s'.tasks[k], k, s'.log[|s.log|]);
    } else if action.AppendDecided? && action.ok {
      assert Appended(s.log, s'.log, t, s'.tasks[k], k, Decided(k, t.turn, t.phase.outcome));
    } else if action.CancelTask? {
      assert Appended(s.log, s'.log, t, s'.tasks[k], k, TokenCancelled(k));
    }
  }

  lemma LocalTraces(s: System, s': System, k: nat)
    requires k in s.tasks && Local(s, s', k)
    requires TraceInv(s.log, s.tasks, s.next)
    ensures TraceInv(s'.log, s'.tasks, s'.next)
  {
    hide Trace;
    if s'.log != s.log {
      var e :| Appended(s.log, s'.log, s.tasks[k], s'.tasks[k], k, e);
      forall j: nat
        ensures Trace(s'.log, j) == if Concerns(e, j) then Trace(s.log, j) + [e] else Trace(s.log, j)
      {
        TraceAppend(s.log, e, j);
      }
    }
  }

  // The shape of a trace through one action.

  lemma AskShape(s: System, k: nat, action: Action)
    requires k in s.tasks && Shape(k, s.tasks[k])
    ensures var s' := AskStep(s, k, s.tasks[k], action); k in s'.tasks && Shape(k, s'.tasks[k])
  {
    hide ActiveTurn, LastPolicy, Trace;
    var t := s.tasks[k];
    var t' := AskStep(s, k, t, action).tasks[k];
    if action.BeginHooks? && t.phase.Recorded? {
      assert PassedHooks(k, 0) == [];
      if t.cancelled {
        OpenAppend(k, t, t', CancelSeen(k));
      }
    } else if action.RunHook? {
      RunHookShape(s, k, action.denied);
    } else if action.HooksDone? && t.phase.Hooks? {
      assert [AskedOf(k, t)] + PassedHooks(k, t.phase.ran) + Declines(k, 0) == t.trace;
    }
  }

  lemma RunHookShape(s: System, k: nat, denied: bool)
    requires k in s.tasks && Shape(k, s.tasks[k])
    ensures var s' := AskStep(s, k, s.tasks[k], RunHook(k, denied)); k in s'.tasks && Shape(k, s'.tasks[k])
  {
    hide ActiveTurn, LastPolicy, Trace;
    var t := s.tasks[k];
    if t.phase.Hooks? {
      var n := t.phase.ran;
      assert PassedHooks(k, n) + [HookRan(k, n, false)] == PassedHooks(k, n + 1);
      assert t.trace + [HookRan(k, n, false)] == [AskedOf(k, t)] + PassedHooks(k, n + 1);
    }
  }

  lemma ConsultedOpen(k: nat, t: Task, n: nat)
    requires t.trace == Consulted(k, t, n)
    ensures Open(k, t)
  {
  }

  lemma AnswerShape(s: System, k: nat, answer: Answer)
    requires k in s.tasks && Shape(k, s.tasks[k])
    ensures var s' := DecideStep(s, k, s.tasks[k], GetAnswer(k, answer)); k in s'.tasks && Shape(k, s'.tasks[k])
  {
    hide ActiveTurn, LastPolicy, Trace, Consulted, Open;
    var t := s.tasks[k];
    var s' := DecideStep(s, k, t, GetAnswer(k, answer));
    if t.phase.Answerers? && t.phase.declined < t.answerers {
      var n, t' := t.phase.declined, s'.tasks[k];
      ConsultedOpen(k, t, n);
      OpenAppend(k, t, t', Answered(k, n, answer));
      ConsultedSame(k, t, t', n);
      if answer == Decline {
        ConsultedMore(k, t', n);
      } else if answer == Allow {
        assert t'.trace == Consulted(k, t', n) + [Answered(k, n, Allow)] + [];
        assert AllowedBy(k, t', n, []);
      }
    }
  }

  lemma ConsultedSame(k: nat, t: Task, t': Task, n: nat)
    requires t'.turn == t.turn && t'.policy == t.policy && t'.hooks == t.hooks
    ensures Consulted(k, t', n) == Consulted(k, t, n)
  {
  }

  lemma ConsultedMore(k: nat, t: Task, n: nat)
    ensures Consulted(k, t, n + 1) == Consulted(k, t, n) + [Answered(k, n, Decline)]
  {
    assert Declines(k, n + 1) == Declines(k, n) + [Answered(k, n, Decline)];
  }

  lemma OpenAppend(k: nat, t: Task, t': Task, e: Event)
    requires Open(k, t) && Middle(e)
    requires t'.trace == t.trace + [e] && t'.turn == t.turn && t'.policy == t.policy
    ensures Open(k, t')
  {
  }

  lemma AllowedAppend(k: nat, t: Task, t': Task, tail: seq<Event>, e: Event)
    requires Allowed(k, t, tail)
    requires t'.trace == t.trace + [e] && t'.turn == t.turn && t'.policy == t.policy
    requires t'.hooks == t.hooks && t'.answerers == t.answerers
    ensures Allowed(k, t', tail + [e])
  {
    hide Consulted;
    var n: nat :| AllowedBy(k, t, n, tail);
    ConsultedSame(k, t, t', n);
    assert t'.trace == Consulted(k, t', n) + [Answered(k, n, Allow)] + (tail + [e]);
    assert AllowedBy(k, t', n, tail + [e]);
  }

  /** Changing a task's phase or cancellation leaves what its trace shows. */
  lemma ShapesSame(k: nat, t: Task, t': Task)
    requires t' == t.(phase := t'.phase, cancelled := t'.cancelled)
    ensures Open(k, t') == Open(k, t)
    ensures forall o :: Closed(k, t', o) == Closed(k, t, o)
    ensures forall n: nat :: Consulted(k, t', n) == Consulted(k, t, n)
    ensures forall tail :: Allowed(k, t, tail) ==> Allowed(k, t', tail)
  {
    forall tail | Allowed(k, t, tail)
      ensures Allowed(k, t', tail)
    {
      var n: nat :| AllowedBy(k, t, n, tail);
      assert AllowedBy(k, t', n, tail);
    }
  }

  lemma EnterDecideShape(s: System, k: nat)
    requires k in s.tasks && Shape(k, s.tasks[k])
    ensures var s' := DecideStep(s, k, s.tasks[k], EnterDecide(k)); k in s'.tasks && Shape(k, s'.tasks[k])
  {
    hide ActiveTurn, LastPolicy, Trace, Consulted, Open, Allowed, Closed;
    var t := s.tasks[k];
    var t' := DecideStep(s, k, t, EnterDecide(k)).tasks[k];
    if t.phase.WantDecide? && s.gate == Nobody {
      if t'.phase == Deciding(AllowedOnce) {
        OpenAppend(k, t, t', Checked(k, t.turn));
        AllowedAppend(k, t, t', [], Checked(k, t.turn));
        assert [] + [Checked(k, t.turn)] == [Checked(k, t.turn)];
      } else if t'.trace != t.trace {
        OpenAppend(k, t, t', t'.trace[|t.trace|]);
      } else {
        ShapesSame(k, t, t');
      }
    }
  }

  lemma DecidedShape(s: System, k: nat, ok: bool)
    requires k in s.tasks && Shape(k, s.tasks[k])
    ensures var s' := DecideStep(s, k, s.tasks[k], AppendDecided(k, ok)); k in s'.tasks && Shape(k, s'.tasks[k])
  {
    hide ActiveTurn, LastPolicy, Trace, Consulted, Allowed;
    var t := s.tasks[k];
    var t' := DecideStep(s, k, t, AppendDecided(k, ok)).tasks[k];
    if t.phase.Deciding? {
      if ok {
        var e := Decided(k, t.turn, t.phase.outcome);
        assert Closed(k, t', t.phase.outcome);
        if t.phase.outcome == AllowedOnce {
          AllowedAppend(k, t, t', [Checked(k, t.turn)], e);
          assert [Checked(k, t.turn)] + [e] == [Checked(k, t.turn), e];
        }
      } else {
        ShapesSame(k, t, t');
      }
    }
  }

  lemma DropShape(k: nat, t: Task)
    requires Shape(k, t) && !t.phase.Returned?
    ensures t.trace == [] || Open(k, t)
  {
    if t.phase.Answerers? {
      ConsultedOpen(k, t, t.phase.declined);
    }
  }

  lemma PhaseShape(k: nat, t: Task, t': Task)
    requires Shape(k, t)
    requires t' == t.(cancelled := t'.cancelled)
    ensures Shape(k, t')
  {
    hide Consulted, Open, Closed, Allowed;
    ShapesSame(k, t, t');
  }

  lemma DecideShape(s: System, k: nat, action: Action)
    requires k in s.tasks && Shape(k, s.tasks[k])
    ensures var s' := DecideStep(s, k, s.tasks[k], action); k in s'.tasks && Shape(k, s'.tasks[k])
  {
    hide ActiveTurn, LastPolicy, Trace, Consulted, Open, Closed, Allowed;
    var t := s.tasks[k];
    var t' := DecideStep(s, k, t, action).tasks[k];
    match action
    case GetAnswer(_, answer) => AnswerShape(s, k, answer);
    case EnterDecide(_) => EnterDecideShape(s, k);
    case AppendDecided(_, ok) => DecidedShape(s, k, ok);
    case CancelTask(_) => PhaseShape(k, t, t');
    case DropTask(_) =>
      if !t.phase.Returned? {
        DropShape(k, t);
        ShapesSame(k, t, t');
      }
    case CancelWins(_) =>
      if t.phase.Answerers? && t.cancelled {
        ConsultedOpen(k, t, t.phase.declined);
        OpenAppend(k, t, t', CancelSeen(k));
      }
    case Exhausted(_) =>
      if t.phase.Answerers? {
        ConsultedOpen(k, t, t.phase.declined);
        ShapesSame(k, t, t');
      }
    case _ =>
  }

  // ---------------------------------------------------------------------
  // The other invariants, step by step
  // ---------------------------------------------------------------------

  lemma GateAsk(s: System, k: nat, action: Action)
    requires k in s.tasks && GateInv(s)
    ensures GateInv(AskStep(s, k, s.tasks[k], action))
  {
    hide LastPolicy, ActiveTurn, Trace;
    var t := s.tasks[k];
    if action.AppendAsked? {
      FoldAppend(s.log, AskedOf(k, t));
    } else if action.RunHook? && t.phase.Hooks? {
      FoldAppend(s.log, HookRan(k, t.phase.ran, action.denied));
    } else if action.BeginHooks? {
      FoldAppend(s.log, CancelSeen(k));
    }
  }

  lemma GateDecide(s: System, k: nat, action: Action)
    requires k in s.tasks && GateInv(s)
    ensures GateInv(DecideStep(s, k, s.tasks[k], action))
  {
    hide LastPolicy, ActiveTurn, Trace;
    var t := s.tasks[k];
    if action.GetAnswer? && t.phase.Answerers? {
      FoldAppend(s.log, Answered(k, t.phase.declined, action.answer));
    } else if action.CancelWins? {
      FoldAppend(s.log, CancelSeen(k));
    } else if action.EnterDecide? {
      GateEnters(s, k);
    } else if action.AppendDecided? && t.phase.Deciding? {
      FoldAppend(s.log, Decided(k, t.turn, t.phase.outcome));
    } else if action.CancelTask? {
      FoldAppend(s.log, TokenCancelled(k));
    }
  }

  lemma GateEnters(s: System, k: nat)
    requires k in s.tasks && GateInv(s)
    ensures GateInv(DecideStep(s, k, s.tasks[k], EnterDecide(k)))
  {
    hide LastPolicy, ActiveTurn, Trace;
    FoldAppend(s.log, Checked(k, s.tasks[k].turn));
    FoldAppend(s.log, CheckSawCancel(k));
    FoldAppend(s.log, CheckFailed(k, s.tasks[k].turn));
  }

  lemma LogAsk(s: System, k: nat, action: Action)
    requires k in s.tasks && LogInv(s.log) && GateInv(s) && SignalInv(s.log, s.live, s.tasks)
    ensures LogInv(AskStep(s, k, s.tasks[k], action).log)
  {
    hide LastPolicy, ActiveTurn, Trace, LogInv;
    var t := s.tasks[k];
    if action.AppendAsked? && t.phase.Asking? && action.ok {
      var e := AskedOf(k, t);
      assert (s.log + [e])[..|s.log|] == s.log;
      HonestAppend(s.log, e);
    } else if action.RunHook? && t.phase.Hooks? {
      HonestAppend(s.log, HookRan(k, t.phase.ran, action.denied));
    } else if action.BeginHooks? && t.cancelled {
      assert (s.log + [CancelSeen(k)])[..|s.log|] == s.log;
      HonestAppend(s.log, CancelSeen(k));
    }
  }

  lemma LogDecide(s: System, k: nat, action: Action)
    requires k in s.tasks && LogInv(s.log) && SignalInv(s.log, s.live, s.tasks)
    ensures LogInv(DecideStep(s, k, s.tasks[k], action).log)
  {
    hide LastPolicy, ActiveTurn, Trace, LogInv;
    var t := s.tasks[k];
    if action.GetAnswer? && t.phase.Answerers? {
      HonestAppend(s.log, Answered(k, t.phase.declined, action.answer));
    } else if action.CancelWins? && t.cancelled {
      assert (s.log + [CancelSeen(k)])[..|s.log|] == s.log;
      HonestAppend(s.log, CancelSeen(k));
    } else if action.EnterDecide? && DecideStep(s, k, t, action).log != s.log {
      var e := DecideStep(s, k, t, action).log[|s.log|];
      assert (s.log + [e])[..|s.log|] == s.log;
      HonestAppend(s.log, e);
    } else if action.AppendDecided? && t.phase.Deciding? {
      HonestAppend(s.log, Decided(k, t.turn, t.phase.outcome));
    } else if action.CancelTask? {
      HonestAppend(s.log, TokenCancelled(k));
    }
  }

  lemma SignalLocal(s: System, s': System, k: nat)
    requires k in s.tasks && Local(s, s', k)
    requires SignalInv(s.log, s.live, s.tasks)
    requires s.tasks[k].cancelled ==> s'.tasks[k].cancelled
    requires s'.log == s.log + [TokenCancelled(k)] || s'.tasks[k].cancelled == s.tasks[k].cancelled
    requires s'.log == s.log + [TokenCancelled(k)] ==> s'.tasks[k].cancelled
    ensures SignalInv(s'.log, s'.live, s'.tasks)
  {
    hide Trace;
    if s'.log != s.log {
      var e :| Appended(s.log, s'.log, s.tasks[k], s'.tasks[k], k, e);
      assert e != AuthorityLost;
      forall j: nat | TokenCancelled(j) in s'.log
        ensures j in s'.tasks && s'.tasks[j].cancelled
      {
        if TokenCancelled(j) !in s.log {
          assert e == TokenCancelled(j);
        }
      }
    }
  }

  lemma SignalAsk(s: System, k: nat, action: Action)
    requires k in s.tasks && SignalInv(s.log, s.live, s.tasks)
    ensures var s' := AskStep(s, k, s.tasks[k], action); SignalInv(s'.log, s'.live, s'.tasks)
  {
    hide LastPolicy, ActiveTurn, Trace, SignalInv, Local;
    AskLocal(s, k, action);
    var s' := AskStep(s, k, s.tasks[k], action);
    assert k in s'.tasks;
    assert s'.log == s.log || s'.log[|s.log|] != TokenCancelled(k);
    SignalLocal(s, s', k);
  }

  lemma SignalDecide(s: System, k: nat, action: Action)
    requires k in s.tasks && SignalInv(s.log, s.live, s.tasks)
    ensures var s' := DecideStep(s, k, s.tasks[k], action); SignalInv(s'.log, s'.live, s'.tasks)
  {
    hide LastPolicy, ActiveTurn, Trace, SignalInv, Local;
    DecideLocal(s, k, action);
    var s' := DecideStep(s, k, s.tasks[k], action);
    assert k in s'.tasks;
    assert s'.log == s.log || s'.log[|s.log|] != TokenCancelled(k) || s'.tasks[k].cancelled;
    SignalLocal(s, s', k);
  }

  /** A task keeps its generation, or takes the next one as it enters the gate. */
  lemma GenerationPut(tasks: map<nat, Task>, pending: set<nat>, last: nat, k: nat, t: Task, pending': set<nat>, last': nat)
    requires k in tasks && GenerationInv(tasks, pending, last)
    requires (t.generation == tasks[k].generation && last' == last) || t.generation == last' == last + 1
    requires Holds(t) || InGate(t) ==> 0 < t.generation
    requires Holds(t) ==> t.generation in pending'
    requires forall g :: g in pending && g != tasks[k].generation ==> g in pending'
    ensures GenerationInv(tasks[k := t], pending', last')
  {
    hide Holds, InGate;
    forall j | j in tasks && Holds(tasks[j]) && j != k
      ensures tasks[j].generation in pending'
    {
      assert tasks[j].generation != tasks[k].generation;
    }
  }

  lemma GenerationAsk(s: System, k: nat, action: Action)
    requires k in s.tasks && GenerationInv(s.tasks, s.pending, s.nextGeneration)
    ensures var s' := AskStep(s, k, s.tasks[k], action);
            GenerationInv(s'.tasks, s'.pending, s'.nextGeneration)
  {
    var s' := AskStep(s, k, s.tasks[k], action);
    AskLocal(s, k, action);
    assert 0 < s.tasks[k].generation || !(Holds(s.tasks[k]) || InGate(s.tasks[k]));
    assert Holds(s.tasks[k]) ==> s.tasks[k].generation in s.pending;
    hide GenerationInv, LastPolicy, ActiveTurn, Trace;
    GenerationPut(s.tasks, s.pending, s.nextGeneration, k, s'.tasks[k], s'.pending, s'.nextGeneration);
  }

  lemma GenerationDecide(s: System, k: nat, action: Action)
    requires k in s.tasks && GenerationInv(s.tasks, s.pending, s.nextGeneration)
    ensures var s' := DecideStep(s, k, s.tasks[k], action);
            GenerationInv(s'.tasks, s'.pending, s'.nextGeneration)
  {
    var s' := DecideStep(s, k, s.tasks[k], action);
    DecideLocal(s, k, action);
    assert 0 < s.tasks[k].generation || !(Holds(s.tasks[k]) || InGate(s.tasks[k]));
    assert Holds(s.tasks[k]) ==> s.tasks[k].generation in s.pending;
    hide GenerationInv, LastPolicy, ActiveTurn, Trace;
    GenerationPut(s.tasks, s.pending, s.nextGeneration, k, s'.tasks[k], s'.pending, s'.nextGeneration);
  }

  lemma AskKeeps(s: System, k: nat, action: Action)
    requires k in s.tasks && Inv(s)
    ensures Inv(AskStep(s, k, s.tasks[k], action))
  {
    hide LogInv, TraceInv, GateInv, SignalInv, GenerationInv, AskStep, Shape;
    AskLocal(s, k, action);
    LocalTraces(s, AskStep(s, k, s.tasks[k], action), k);
    AskShape(s, k, action);
    GateAsk(s, k, action);
    LogAsk(s, k, action);
    SignalAsk(s, k, action);
    GenerationAsk(s, k, action);
  }

  lemma DecideKeeps(s: System, k: nat, action: Action)
    requires k in s.tasks && Inv(s)
    ensures Inv(DecideStep(s, k, s.tasks[k], action))
  {
    hide LogInv, TraceInv, GateInv, SignalInv, GenerationInv, DecideStep, Shape;
    DecideLocal(s, k, action);
    LocalTraces(s, DecideStep(s, k, s.tasks[k], action), k);
    DecideShape(s, k, action);
    GateDecide(s, k, action);
    LogDecide(s, k, action);
    SignalDecide(s, k, action);
    GenerationDecide(s, k, action);
  }

  lemma BeginKeeps(s: System, valid: bool, cancelled: bool)
    requires Inv(s)
    ensures Inv(BeginStep(s, valid, cancelled))
  {
    hide LogInv, TraceInv, SignalInv, ShapeInv, LastPolicy, ActiveTurn;
    var s' := BeginStep(s, valid, cancelled);
    BeginTraces(s, valid, cancelled);
    FoldAppend(s.log, TokenCancelled(s.next));
    FreshTask(s);
    BeginSignals(s, s', valid, cancelled);
    BeginShapes(s, valid, cancelled);
  }

  lemma FreshTask(s: System)
    requires Inv(s)
    ensures s.next !in s.tasks && Trace(s.log, s.next) == []
  {
  }

  lemma BeginTraces(s: System, valid: bool, cancelled: bool)
    requires Inv(s)
    ensures var s' := BeginStep(s, valid, cancelled);
            LogInv(s'.log) && TraceInv(s'.log, s'.tasks, s'.next)
  {
    hide LogInv, Trace, LastPolicy, ActiveTurn, ShapeInv, GateInv, GenerationInv, SignalInv;
    var e := TokenCancelled(s.next);
    if cancelled {
      HonestAppend(s.log, e);
      forall j: nat
        ensures Trace(s.log + [e], j) == Trace(s.log, j)
      {
        TraceAppend(s.log, e, j);
      }
    }
  }

  lemma BeginShapes(s: System, valid: bool, cancelled: bool)
    requires ShapeInv(s.tasks)
    ensures ShapeInv(BeginStep(s, valid, cancelled).tasks)
  {
    hide ActiveTurn, Open, Closed, Allowed, Consulted;
  }

  lemma BeginSignals(s: System, s': System, valid: bool, cancelled: bool)
    requires SignalInv(s.log, s.live, s.tasks) && s.next !in s.tasks && s' == BeginStep(s, valid, cancelled)
    ensures SignalInv(s'.log, s'.live, s'.tasks)
  {
    hide ActiveTurn;
    forall k: nat
      ensures TokenCancelled(k) in s'.log <==> TokenCancelled(k) in s.log || (cancelled && k == s.next)
    {
      if cancelled {
        assert s'.log == s.log + [TokenCancelled(s.next)];
      }
    }
    assert AuthorityLost in s'.log <==> AuthorityLost in s.log;
  }

  /** Appending an event that belongs to no approval. */
  lemma PlainAppend(s: System, e: Event)
    requires Inv(s)
    requires e.TurnStart? || e.TurnEnd? || e.PolicySet? || e.AuthorityLost?
    ensures LogInv(s.log + [e])
    ensures TraceInv(s.log + [e], s.tasks, s.next)
    ensures SignalInv(s.log + [e], s.live && e != AuthorityLost, s.tasks)
  {
    hide LastPolicy, ActiveTurn, Trace, LogInv, Shape, GateInv, GenerationInv;
    HonestAppend(s.log, e);
    forall j: nat
      ensures Trace(s.log + [e], j) == Trace(s.log, j)
    {
      TraceAppend(s.log, e, j);
    }
  }

  lemma OtherKeeps(s: System, action: Action)
    requires Inv(s)
    ensures Inv(OtherStep(s, action))
  {
    hide LastPolicy, ActiveTurn, Trace, LogInv, TraceInv, SignalInv, GenerationInv, ShapeInv, BeginStep;
    match action
    case Begin(valid, cancelled) => BeginKeeps(s, valid, cancelled);
    case LoseAuthority =>
      PlainAppend(s, AuthorityLost);
      FoldAppend(s.log, AuthorityLost);
    case LogTurn(e) =>
      if e.TurnStart? || e.TurnEnd? {
        PlainAppend(s, e);
        FoldAppend(s.log, e);
      }
    case AppendPolicy(ok) =>
      if s.gate.Setter? {
        PlainAppend(s, PolicySet(s.gate.policy));
        FoldAppend(s.log, PolicySet(s.gate.policy));
      }
    case _ =>
  }

  lemma InvStep(s: System, action: Action)
    requires Inv(s)
    ensures Inv(Next(s, action))
  {
    hide Inv, AskStep, DecideStep, OtherStep;
    match TaskOf(action) {
      case None => OtherKeeps(s, action);
      case Some(k) =>
        if k in s.tasks {
          AskKeeps(s, k, action);
          DecideKeeps(s, k, action);
        }
    }
  }

  lemma {:induction false} InvRun(s: System, actions: seq<Action>)
    requires Inv(s)
    ensures Inv(Run(s, actions))
    decreases |actions|
  {
    hide Inv, Next;
    if actions != [] {
      InvStep(s, actions[0]);
      InvRun(Next(s, actions[0]), actions[1..]);
    }
  }

  lemma InitInv(s: System)
    requires Init(s)
    ensures Inv(s)
  {
    hide LastPolicy, ActiveTurn, Trace;
  }

  // ---------------------------------------------------------------------
  // From traces to positions in the log
  // ---------------------------------------------------------------------

  /** The event at `p` stands in the trace after as many events as precede it there. */
  lemma {:induction false} TraceRank(log: seq<Event>, id: nat, p: nat)
    requires p < |log| && Concerns(log[p], id)
    ensures |Trace(log[..p], id)| < |Trace(log, id)|
    ensures Trace(log, id)[|Trace(log[..p], id)|] == log[p]
  {
    var rest := log[..|log| - 1];
    if p < |rest| {
      TraceRank(rest, id, p);
      assert rest[..p] == log[..p];
    }
  }

  lemma TraceOrder(log: seq<Event>, id: nat, p: nat, q: nat)
    requires p < q < |log| && Concerns(log[p], id)
    ensures |Trace(log[..p], id)| < |Trace(log[..q], id)|
  {
    TraceRank(log[..q], id, p);
    assert log[..q][..p] == log[..p];
  }

  lemma {:induction false} TraceFinds(log: seq<Event>, id: nat, i: nat) returns (p: nat)
    requires i < |Trace(log, id)|
    ensures p < |log| && Concerns(log[p], id)
    ensures log[p] == Trace(log, id)[i] && |Trace(log[..p], id)| == i
  {
    var rest := log[..|log| - 1];
    if i < |Trace(rest, id)| {
      p := TraceFinds(rest, id, i);
      assert rest[..p] == log[..p];
    } else {
      p := |log| - 1;
    }
  }

  // ---------------------------------------------------------------------
  // Theorems
  // ---------------------------------------------------------------------

  /** Everything an allowed approval has behind it, read off the log alone. */
  ghost predicate Justified(log: seq<Event>, k: nat, t: Task, n: nat, a: nat, c: nat, d: nat) {
    && a < c < d < |log|
    && n < t.answerers
    && log[a] == Asked(k, t.turn, Ask)
    && LastPolicy(log[..a]) == Ask
    && log[c] == Checked(k, t.turn)
    && ActiveTurn(log[..c]) == Some(t.turn)
    && AuthorityLost !in log[..c]
    && TokenCancelled(k) !in log[..c]
    && log[d] == Decided(k, t.turn, AllowedOnce)
    && Trace(log, k) ==
       [Asked(k, t.turn, Ask)] + PassedHooks(k, t.hooks) + Declines(k, n)
       + [Answered(k, n, Allow)] + [Checked(k, t.turn), Decided(k, t.turn, AllowedOnce)]
  }

  lemma Justify(s: System, k: nat) returns (n: nat, a: nat, c: nat, d: nat)
    requires Inv(s)
    requires k in s.tasks && s.tasks[k].phase == Returned(AllowedOnce)
    ensures Justified(s.log, k, s.tasks[k], n, a, c, d)
  {
    hide LastPolicy, ActiveTurn, Trace, GateInv, SignalInv, GenerationInv, PassedHooks, Declines, Closed;
    var t := s.tasks[k];
    var tail := [Checked(k, t.turn), Decided(k, t.turn, AllowedOnce)];
    assert Shape(k, t);
    n :| AllowedBy(k, t, n, tail);
    var m := |t.trace|;
    assert t.trace[0] == AskedOf(k, t) && t.trace[m - 2] == tail[0] && t.trace[m - 1] == tail[1];
    a := TraceFinds(s.log, k, 0);
    c := TraceFinds(s.log, k, m - 2);
    d := TraceFinds(s.log, k, m - 1);
    if c <= a && a != c { TraceOrder(s.log, k, c, a); }
    if d <= c && c != d { TraceOrder(s.log, k, d, c); }
    assert Honest(s.log, a) && Honest(s.log, c);
  }

  /** Fail closed: whatever else runs, an approval allows once only if the asked event
      was logged first under the policy Ask, every captured hook passed, the first answerer
      that did not decline allowed, the later check saw it uncancelled, live and in the
      same turn, and its decision is in the log. */
  lemma FailClosed(s: System, actions: seq<Action>, k: nat) returns (n: nat, a: nat, c: nat, d: nat)
    requires Init(s)
    requires k in Run(s, actions).tasks && Run(s, actions).tasks[k].phase == Returned(AllowedOnce)
    ensures Justified(Run(s, actions).log, k, Run(s, actions).tasks[k], n, a, c, d)
  {
    hide Inv, Run, Justified, Init;
    InitInv(s);
    InvRun(s, actions);
    n, a, c, d := Justify(Run(s, actions), k);
  }

  lemma TraceEnds(s: System, k: nat)
    requires Inv(s) && k in s.tasks
    ensures Trace(s.log, k) == s.tasks[k].trace
    ensures forall i :: 0 <= i < |s.tasks[k].trace| ==>
              && (s.tasks[k].trace[i].Asked? <==> i == 0)
              && (s.tasks[k].trace[i].Decided? ==> i == |s.tasks[k].trace| - 1 && s.tasks[k].phase.Returned?)
  {
    hide LogInv, Trace, GateInv, SignalInv, GenerationInv, Consulted, Allowed;
    var t := s.tasks[k];
    assert Shape(k, t);
    if t.phase.Answerers? {
      ConsultedOpen(k, t, t.phase.declined);
    }
  }

  predicate IsAsked(e: Event, k: nat) {
    e.Asked? && e.id == k
  }

  predicate IsDecided(e: Event, k: nat) {
    e.Decided? && e.id == k
  }

  predicate AskedThenDecided(log: seq<Event>, k: nat) {
    && (forall p, q | 0 <= p < |log| && 0 <= q < |log| && IsAsked(log[p], k) && IsAsked(log[q], k) :: p == q)
    && (forall p, q | 0 <= p < |log| && 0 <= q < |log| && IsDecided(log[p], k) && IsDecided(log[q], k) :: p == q)
    && (forall q | 0 <= q < |log| && Concerns(log[q], k) && !log[q].Asked? ::
          exists p :: 0 <= p < q && IsAsked(log[p], k))
    && (forall p, q | 0 <= p < |log| && 0 <= q < |log| && IsDecided(log[p], k) && Concerns(log[q], k) :: q <= p)
  }

  /** In every run an approval id is asked at most once, before everything else it logs,
      and decided at most once, after everything else. */
  lemma AskedThenDecidedOnce(s: System, actions: seq<Action>, k: nat)
    requires Init(s) && s.next <= k
    ensures AskedThenDecided(Run(s, actions).log, k)
  {
    hide Run, Trace, Inv, Init;
    InitInv(s);
    InvRun(s, actions);
    KnownTrace(s, actions, k);
    if k in Run(s, actions).tasks {
      TraceBrackets(Run(s, actions), k);
    } else {
      forall p | 0 <= p < |Run(s, actions).log|
        ensures !Concerns(Run(s, actions).log[p], k)
      {
        if Concerns(Run(s, actions).log[p], k) {
          TraceRank(Run(s, actions).log, k, p);
        }
      }
    }
  }

  lemma TraceBrackets(s: System, k: nat)
    requires Inv(s) && k in s.tasks
    ensures AskedThenDecided(s.log, k)
  {
    hide Trace, Inv;
    var log, trace := s.log, s.tasks[k].trace;
    TraceEnds(s, k);
    forall p | 0 <= p < |log| && Concerns(log[p], k)
      ensures |Trace(log[..p], k)| < |trace| && trace[|Trace(log[..p], k)|] == log[p]
    {
      TraceRank(log, k, p);
    }
    forall p, q | 0 <= p < q < |log| && Concerns(log[p], k)
      ensures |Trace(log[..p], k)| < |Trace(log[..q], k)|
    {
      TraceOrder(log, k, p, q);
    }
    forall q | 0 <= q < |log| && Concerns(log[q], k) && !log[q].Asked?
      ensures exists p :: 0 <= p < q && IsAsked(log[p], k)
    {
      var p := TraceFinds(log, k, 0);
      assert IsAsked(log[p], k) && p != q;
    }
  }

  /** An id that left an event in the log belongs to a known approval. */
  lemma KnownTrace(s: System, actions: seq<Action>, k: nat)
    requires Init(s) && s.next <= k
    ensures k in Run(s, actions).tasks || Trace(Run(s, actions).log, k) == []
  {
    hide Next, Trace, Inv;
    InitInv(s);
    InvRun(s, actions);
    TasksFill(s, actions, k);
    TracesKnown(Run(s, actions), k);
  }

  lemma TracesKnown(s: System, k: nat)
    requires Inv(s)
    ensures k >= s.next ==> Trace(s.log, k) == []
  {
    hide LogInv, Trace, GateInv, SignalInv, GenerationInv, ShapeInv;
  }

  lemma {:induction false} TasksFill(s: System, actions: seq<Action>, k: nat)
    requires k < s.next ==> k in s.tasks
    ensures k < Run(s, actions).next ==> k in Run(s, actions).tasks
    decreases |actions|
  {
    if actions != [] {
      TasksFillStep(s, actions[0], k);
      hide Next;
      TasksFill(Next(s, actions[0]), actions[1..], k);
    }
  }

  lemma TasksFillStep(s: System, action: Action, k: nat)
    requires k < s.next ==> k in s.tasks
    ensures k < Next(s, action).next ==> k in Next(s, action).tasks
  {
    hide LastPolicy, ActiveTurn, Trace;
  }

  /** The pending generation an approval reserved when it was recorded is still there when
      it decides, so a decision is never lost to the mismatch branch. */
  lemma DecisionMatches(s: System, actions: seq<Action>, k: nat)
    requires Init(s)
    requires k in Run(s, actions).tasks && Run(s, actions).tasks[k].phase.WantDecide?
    ensures Run(s, actions).tasks[k].generation in Run(s, actions).pending
  {
    hide Run, Init;
    InitInv(s);
    InvRun(s, actions);
  }

  // ---------------------------------------------------------------------
  // Allowing is possible
  // ---------------------------------------------------------------------

  const START := System([], Ask, Nobody, true, 0, {}, map[], 0)

  /** One uncancelled approval without hooks and with one answerer, at a given phase. */
  predicate At(s: System, turn: nat, p: Phase) {
    && 0 in s.tasks
    && s.live
    && s.policy == Ask
    && ActiveTurn(s.log) == Some(turn)
    && s.gate == (if p.Asking? || p.Deciding? then Approver(0) else Nobody)
    && var t := s.tasks[0];
       && t.phase == p
       && t.turn == turn
       && !t.cancelled
       && (!p.WantAsk? ==> t.hooks == 0 && t.answerers == 1 && t.policy == Ask)
       && (Holds(t) ==> t.generation in s.pending)
  }

  lemma AskAdvances(s: System, turn: nat)
    ensures At(s, turn, WantAsk) ==> At(Next(s, EnterAsk(0, 0, 1)), turn, Asking)
    ensures At(s, turn, Asking) ==> At(Next(s, AppendAsked(0, true)), turn, Recorded)
    ensures At(s, turn, Recorded) ==> At(Next(s, BeginHooks(0)), turn, Hooks(0))
    ensures At(s, turn, Hooks(0)) ==> At(Next(s, HooksDone(0)), turn, Answerers(0))
  {
    FoldAppend(s.log, Asked(0, turn, Ask));
    hide ActiveTurn, LastPolicy;
  }

  lemma DecideAdvances(s: System, turn: nat)
    ensures At(s, turn, Answerers(0)) ==> At(Next(s, GetAnswer(0, Allow)), turn, WantDecide(AllowedOnce))
    ensures At(s, turn, WantDecide(AllowedOnce)) ==> At(Next(s, EnterDecide(0)), turn, Deciding(AllowedOnce))
  {
    FoldAppend(s.log, Answered(0, 0, Allow));
    FoldAppend(s.log, Checked(0, turn));
    hide ActiveTurn, LastPolicy;
  }

  lemma ReturnAdvances(s: System, turn: nat)
    ensures At(s, turn, Deciding(AllowedOnce)) ==> At(Next(s, AppendDecided(0, true)), turn, Returned(AllowedOnce))
  {
    FoldAppend(s.log, Decided(0, turn, AllowedOnce));
    hide ActiveTurn, LastPolicy;
  }

  lemma StartIsInit()
    ensures Init(START)
  {
  }

  lemma BeginAdvances(s: System, turn: nat)
    requires s == START.(log := [TurnStart(turn)])
    ensures Next(START, LogTurn(TurnStart(turn))) == s
    ensures At(Next(s, Begin(true, false)), turn, WantAsk)
  {
    FoldAppend([], TurnStart(turn));
    assert [] + [TurnStart(turn)] == [TurnStart(turn)];
    hide ActiveTurn, LastPolicy, Trace;
  }

  lemma OneMore(s: System, actions: seq<Action>, i: nat)
    requires i < |actions|
    ensures Run(s, actions[i..]) == Run(Next(s, actions[i]), actions[i + 1..])
  {
    hide Next;
    assert actions[i..][1..] == actions[i + 1..];
  }

  lemma Finished(s: System, actions: seq<Action>)
    requires actions == []
    ensures Run(s, actions) == s
  {
  }

  /** Fail closed is not fail always: a fresh service does allow. */
  lemma AllowedIsReachable(turn: nat) returns (actions: seq<Action>)
    ensures Init(START)
    ensures 0 in Run(START, actions).tasks && Run(START, actions).tasks[0].phase == Returned(AllowedOnce)
  {
    hide Next, Run, Init, ActiveTurn;
    actions := [LogTurn(TurnStart(turn)), Begin(true, false), EnterAsk(0, 0, 1), AppendAsked(0, true), BeginHooks(0),
                HooksDone(0), GetAnswer(0, Allow), EnterDecide(0), AppendDecided(0, true)];
    var s1 := START.(log := [TurnStart(turn)]);
    StartIsInit();
    BeginAdvances(s1, turn);
    var s2 := Next(s1, actions[1]);
    var s3 := Next(s2, actions[2]);
    var s4 := Next(s3, actions[3]);
    var s5 := Next(s4, actions[4]);
    var s6 := Next(s5, actions[5]);
    var s7 := Next(s6, actions[6]);
    var s8 := Next(s7, actions[7]);
    AskAdvances(s2, turn);
    AskAdvances(s3, turn);
    AskAdvances(s4, turn);
    AskAdvances(s5, turn);
    DecideAdvances(s6, turn);
    DecideAdvances(s7, turn);
    ReturnAdvances(s8, turn);
    OneMore(START, actions, 0);
    OneMore(s1, actions, 1);
    OneMore(s2, actions, 2);
    OneMore(s3, actions, 3);
    OneMore(s4, actions, 4);
    OneMore(s5, actions, 5);
    OneMore(s6, actions, 6);
    OneMore(s7, actions, 7);
    OneMore(s8, actions, 8);
    Finished(Next(s8, actions[8]), actions[9..]);
    assert actions[0..] == actions;
  }

  // ---------------------------------------------------------------------
  // Every outcome, read off the trace
  // ---------------------------------------------------------------------

  predicate CancelMark(e: Event) {
    e.CancelSeen? || e.CheckSawCancel?
  }

  predicate RefusalMark(e: Event) {
    e.CheckFailed? || (e.HookRan? && e.denied)
  }

  function AnswersIn(trace: seq<Event>): seq<Answer> {
    if trace == [] then []
    else if trace[|trace| - 1].Answered? then AnswersIn(trace[..|trace| - 1]) + [trace[|trace| - 1].answer]
    else AnswersIn(trace[..|trace| - 1])
  }

  predicate SawCancel(trace: seq<Event>) {
    exists i :: 0 <= i < |trace| && CancelMark(trace[i])
  }

  predicate SawRefusal(trace: seq<Event>) {
    exists i :: 0 <= i < |trace| && RefusalMark(trace[i])
  }

  /** What an approval under this policy is decided as, from what happened in it. */
  function OutcomeOf(policy: Policy, trace: seq<Event>): Outcome {
    if SawCancel(trace) then Cancelled
    else if SawRefusal(trace) || policy == Never then Rejected
    else Waterfall(AnswersIn(trace))
  }

  predicate AllDecline(answers: seq<Answer>) {
    forall i :: 0 <= i < |answers| ==> answers[i] == Decline
  }

  predicate Calm(trace: seq<Event>) {
    !SawCancel(trace) && !SawRefusal(trace)
  }

  predicate EndsDecided(trace: seq<Event>) {
    trace != [] && trace[|trace| - 1].Decided?
  }

  ghost predicate Means(t: Task) {
    match t.phase
    case WantAsk => t.trace == []
    case Asking => t.trace == []
    case Recorded => t.trace != [] && Calm(t.trace) && AnswersIn(t.trace) == [] && !EndsDecided(t.trace)
    case Hooks(_) => t.trace != [] && Calm(t.trace) && AnswersIn(t.trace) == [] && !EndsDecided(t.trace)
    case Answerers(n) =>
      && t.trace != [] && Calm(t.trace) && t.policy == Ask && !EndsDecided(t.trace)
      && |AnswersIn(t.trace)| == n && AllDecline(AnswersIn(t.trace))
    case WantDecide(o) => t.trace != [] && o == OutcomeOf(t.policy, t.trace) && !EndsDecided(t.trace)
    case Deciding(o) => t.trace != [] && o == OutcomeOf(t.policy, t.trace) && !EndsDecided(t.trace)
    case Returned(o) =>
      if t.trace == [] then o != AllowedOnce
      else if EndsDecided(t.trace) then
        o == OutcomeOf(t.policy, t.trace) && o == t.trace[|t.trace| - 1].outcome
      else o == Rejected
    case Dropped => !EndsDecided(t.trace)
  }

  lemma MarksAppend(trace: seq<Event>, e: Event)
    ensures SawCancel(trace + [e]) <==> SawCancel(trace) || CancelMark(e)
    ensures SawRefusal(trace + [e]) <==> SawRefusal(trace) || RefusalMark(e)
    ensures AnswersIn(trace + [e]) == if e.Answered? then AnswersIn(trace) + [e.answer] else AnswersIn(trace)
    ensures EndsDecided(trace + [e]) <==> e.Decided?
  {
    var longer := trace + [e];
    assert longer[..|trace|] == trace && longer[|trace|] == e;
    if i :| 0 <= i < |trace| && CancelMark(trace[i]) {
      assert CancelMark(longer[i]);
    }
    if i :| 0 <= i < |trace| && RefusalMark(trace[i]) {
      assert RefusalMark(longer[i]);
    }
  }

  lemma {:induction false} WaterfallAfterDeclines(answers: seq<Answer>, x: Answer)
    requires AllDecline(answers)
    ensures Waterfall(answers) == Unavailable && Waterfall(answers + [x]) == Waterfall([x])
  {
    if answers == [] {
      assert answers + [x] == [x];
    } else {
      assert (answers + [x])[1..] == answers[1..] + [x];
      WaterfallAfterDeclines(answers[1..], x);
    }
  }

  lemma MeansAsk(s: System, k: nat, action: Action)
    requires k in s.tasks && Means(s.tasks[k])
    ensures var s' := AskStep(s, k, s.tasks[k], action); k in s'.tasks && Means(s'.tasks[k])
  {
    hide ActiveTurn, LastPolicy, Trace, SawCancel, SawRefusal, AnswersIn, Waterfall;
    var t := s.tasks[k];
    match action
    case AppendAsked(_, ok) => MeansAppend(s, k, ok);
    case BeginHooks(_) => MarksAppend(t.trace, CancelSeen(k));
    case RunHook(_, denied) => MeansHook(s, k, denied);
    case _ =>
  }

  lemma MeansAppend(s: System, k: nat, ok: bool)
    requires k in s.tasks && Means(s.tasks[k])
    ensures var s' := AskStep(s, k, s.tasks[k], AppendAsked(k, ok)); k in s'.tasks && Means(s'.tasks[k])
  {
    hide ActiveTurn, LastPolicy, Trace, SawCancel, SawRefusal, AnswersIn, Waterfall;
    var t := s.tasks[k];
    MarksAppend([], AskedOf(k, t));
    assert [] + [AskedOf(k, t)] == [AskedOf(k, t)];
    NothingHappened();
  }

  lemma MeansHook(s: System, k: nat, denied: bool)
    requires k in s.tasks && Means(s.tasks[k])
    ensures var s' := AskStep(s, k, s.tasks[k], RunHook(k, denied)); k in s'.tasks && Means(s'.tasks[k])
  {
    hide ActiveTurn, LastPolicy, Trace, SawCancel, SawRefusal, AnswersIn, Waterfall;
    var t := s.tasks[k];
    if t.phase.Hooks? { MarksAppend(t.trace, HookRan(k, t.phase.ran, denied)); }
  }

  lemma NothingHappened()
    ensures Calm([]) && AnswersIn([]) == []
  {
  }

  lemma MeansAnswer(s: System, k: nat, answer: Answer)
    requires k in s.tasks && Means(s.tasks[k])
    ensures var s' := DecideStep(s, k, s.tasks[k], GetAnswer(k, answer)); k in s'.tasks && Means(s'.tasks[k])
  {
    hide ActiveTurn, LastPolicy, Trace, SawCancel, SawRefusal, AnswersIn;
    var t := s.tasks[k];
    if t.phase.Answerers? {
      MarksAppend(t.trace, Answered(k, t.phase.declined, answer));
      WaterfallAfterDeclines(AnswersIn(t.trace), answer);
      assert [answer][1..] == [];
    }
  }

  lemma MeansEnter(s: System, k: nat)
    requires k in s.tasks && Means(s.tasks[k])
    requires Holds(s.tasks[k]) ==> s.tasks[k].generation in s.pending
    ensures var s' := DecideStep(s, k, s.tasks[k], EnterDecide(k)); k in s'.tasks && Means(s'.tasks[k])
  {
    hide ActiveTurn, LastPolicy, Trace, SawCancel, SawRefusal, AnswersIn, Waterfall;
    var t := s.tasks[k];
    MarksAppend(t.trace, Checked(k, t.turn));
    MarksAppend(t.trace, CheckSawCancel(k));
    MarksAppend(t.trace, CheckFailed(k, t.turn));
  }

  lemma MeansDecide(s: System, k: nat, action: Action)
    requires k in s.tasks && Means(s.tasks[k])
    requires Holds(s.tasks[k]) ==> s.tasks[k].generation in s.pending
    ensures var s' := DecideStep(s, k, s.tasks[k], action); k in s'.tasks && Means(s'.tasks[k])
  {
    hide ActiveTurn, LastPolicy, Trace, SawCancel, SawRefusal, AnswersIn, Waterfall;
    var t := s.tasks[k];
    match action
    case GetAnswer(_, answer) => MeansAnswer(s, k, answer);
    case EnterDecide(_) => MeansEnter(s, k);
    case CancelWins(_) => MarksAppend(t.trace, CancelSeen(k));
    case AppendDecided(_, ok) => if t.phase.Deciding? { MarksAppend(t.trace, Decided(k, t.turn, t.phase.outcome)); }
    case Exhausted(_) => if t.phase.Answerers? { WaterfallAfterDeclines(AnswersIn(t.trace), Allow); }
    case _ =>
  }

  ghost predicate MeansInv(tasks: map<nat, Task>) {
    forall k :: k in tasks ==> Means(tasks[k])
  }

  lemma MeansStep(s: System, action: Action)
    requires Inv(s) && MeansInv(s.tasks)
    ensures MeansInv(Next(s, action).tasks)
  {
    hide LogInv, TraceInv, ShapeInv, GateInv, SignalInv, AskStep, DecideStep, Means;
    match TaskOf(action) {
      case None => MeansOther(s, action);
      case Some(k) =>
        if k in s.tasks {
          AskLocal(s, k, action);
          DecideLocal(s, k, action);
          MeansAsk(s, k, action);
          MeansDecide(s, k, action);
        }
    }
  }

  lemma MeansOther(s: System, action: Action)
    requires MeansInv(s.tasks)
    ensures MeansInv(OtherStep(s, action).tasks)
  {
    hide ActiveTurn, LastPolicy, Trace, SawCancel, SawRefusal, AnswersIn, Waterfall;
  }

  lemma {:induction false} MeansRun(s: System, actions: seq<Action>)
    requires Inv(s) && MeansInv(s.tasks)
    ensures Inv(Run(s, actions)) && MeansInv(Run(s, actions).tasks)
    decreases |actions|
  {
    hide Inv, MeansInv, Next;
    if actions != [] {
      InvStep(s, actions[0]);
      MeansStep(s, actions[0]);
      MeansRun(Next(s, actions[0]), actions[1..]);
    }
  }

  /** In every run, whatever is decided is what happened: Cancelled if and only if a cancellation was
      seen while asking or by the final check; else Rejected if a hook denied, the check found no
      authority or turn, or the policy is Never; else what the answers make of it. The caller is
      told what was logged, and Rejected when the decision could not be logged. */
  lemma DecidedMeans(s: System, actions: seq<Action>, k: nat)
    requires Init(s) && k in Run(s, actions).tasks
    ensures var t := Run(s, actions).tasks[k];
            && t.trace == Trace(Run(s, actions).log, k)
            && (EndsDecided(t.trace) ==>
                  t.trace[|t.trace| - 1] == Decided(k, t.turn, OutcomeOf(t.policy, t.trace))
                  && t.phase == Returned(OutcomeOf(t.policy, t.trace)))
            && (t.phase.Returned? && t.trace != [] && !EndsDecided(t.trace) ==> t.phase.outcome == Rejected)
            && (t.phase == Returned(AllowedOnce) ==> EndsDecided(t.trace))
  {
    hide Inv, Init, Run, OutcomeOf, Trace, Shape;
    InitInv(s);
    assert MeansInv(s.tasks) by { NoTasks(s); }
    MeansRun(s, actions);
    var s' := Run(s, actions);
    TraceEnds(s', k);
    if EndsDecided(s'.tasks[k].trace) {
      DecidedForm(s', k);
    }
    assert Means(s'.tasks[k]);
  }

  lemma NoTasks(s: System)
    requires Init(s)
    ensures MeansInv(s.tasks)
  {
    hide Trace, LastPolicy;
  }

  lemma DecidedForm(s: System, k: nat)
    requires Inv(s) && k in s.tasks && EndsDecided(s.tasks[k].trace)
    ensures var t := s.tasks[k];
            && t.phase.Returned?
            && t.trace[|t.trace| - 1] == Decided(k, t.turn, t.trace[|t.trace| - 1].outcome)
  {
    hide LogInv, TraceInv, GateInv, SignalInv, GenerationInv, Consulted, Allowed;
    var t := s.tasks[k];
    assert Shape(k, t);
    if t.phase.Answerers? {
      ConsultedOpen(k, t, t.phase.declined);
    }
  }

  // ---------------------------------------------------------------------
  // Answers given before anything is asked
  // ---------------------------------------------------------------------

  /** A request is refused as unavailable without authority, without form or without a turn, as
      cancelled if it is, and goes on otherwise. */
  lemma BeginAnswers(s: System, valid: bool, cancelled: bool)
    ensures var phase := BeginStep(s, valid, cancelled).tasks[s.next].phase;
            && (phase == Returned(Unavailable) <==> !s.live || !valid || (!cancelled && ActiveTurn(s.log).None?))
            && (phase == Returned(Cancelled) <==> s.live && valid && cancelled)
            && (phase == WantAsk <==> s.live && valid && !cancelled && ActiveTurn(s.log).Some?)
            && (phase == WantAsk ==> BeginStep(s, valid, cancelled).tasks[s.next].turn == ActiveTurn(s.log).value)
  {
  }

  /** Inside the gate it is cancelled, rejected because authority or turn is gone, or asked under the
      policy and the registrations of that moment. */
  lemma EnterAnswers(s: System, k: nat, hooks: nat, answerers: nat)
    requires k in s.tasks && s.tasks[k].phase == WantAsk && s.gate == Nobody
    ensures var t, s' := s.tasks[k], Next(s, EnterAsk(k, hooks, answerers));
            var same := s.live && ActiveTurn(s.log) == Some(t.turn);
            && (s'.tasks[k].phase == Returned(Cancelled) <==> t.cancelled)
            && (s'.tasks[k].phase == Returned(Rejected) <==> !t.cancelled && !same)
            && (s'.tasks[k].phase == Asking <==> !t.cancelled && same)
            && (s'.tasks[k].phase == Asking ==>
                  && s'.tasks[k].policy == s.policy && s'.tasks[k].hooks == hooks && s'.tasks[k].answerers == answerers
                  && s'.gate == Approver(k))
  {
    hide ActiveTurn;
  }
}
