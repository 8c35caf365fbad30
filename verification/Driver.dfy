/** The wake-coalescing driver of one agent: `wake`, `drive` and `when_idle` as atomic
    steps that interleave in any order. */
module Driver {

  /** What happened, in order. Wakes carry the revision they produced. A failed turn records its
      error as it ends; a failed claim records it in a later step. */
  datatype Event =
    | Wake(revision: nat)
    | ClaimBegun | ClaimEmpty | ClaimGot | ClaimFailed | ClaimErrorRecorded
    | TurnSucceeded | TurnFailed

  /** Where the worker is. Indices point at the claim attempt in the log. */
  datatype Pc =
    | AtWakeCheck                       // head of the waiting loop
    | Parked                            // awaiting the wake notification
    | AtStopCheck                       // cancelled or disposed?
    | WantExecution                     // queued for the session's execution lock
    | AtCancelCheck                     // head of the claiming loop, running
    | Claiming(begun: nat)
    | FoundNothing(begun: nat, empty: nat)
    | Settling(revision: nat)
    | ClearingRunning
    | NotifyingIdle
    | FailedClaim
    | RecordingFailure(revision: nat)
    | InTurn
    | Leaving                           // about to clear `running` for good
    | LeavingSettle
    | LeavingNotify
    | Gone

  /** A `when_idle` caller: its notification future is armed before it checks. */
  datatype Waiter = Armed(notified: bool) | Waiting(notified: bool) | Returned(ok: bool)

  datatype State = State(
    wakeRevision: nat, settledRevision: nat, failed: bool,   // under the state lock
    cancelled: bool, disposed: bool, running: bool,
    permit: bool, unnotified: nat,                            // wake notification
    pc: Pc, seen: nat,
    exitSettled: nat,                                         // the settled revision when the worker left its loop
    waiters: map<nat, Waiter>,
    log: seq<Event>)

  const START := State(0, 0, false, false, false, false, false, 0, AtWakeCheck, 0, 0, map[], [])

  datatype Claim = Got | Nothing | Failed

  datatype Action =
    | WakeBump            // the critical section of wake
    | WakeNotify          // its notify_one, after the lock is released
    | CancelToken
    | MarkDisposed
    | Advance             // the worker's next step, where it has only one
    | Interrupted         // a select resolves to the cancellation branch
    | ClaimReturns(outcome: Claim)
    | TurnReturns(ok: bool)
    | Arm(waiter: nat)
    | Check(waiter: nat)
    | Resume(waiter: nat)

  predicate Idle(s: State) {
    !s.running && s.wakeRevision == s.settledRevision
  }

  function NotifyWaiters(ws: map<nat, Waiter>): map<nat, Waiter> {
    map w | w in ws :: match ws[w]
      case Armed(_) => Armed(true)
      case Waiting(_) => Waiting(true)
      case Returned(ok) => Returned(ok)
  }

  /** The waiting loop, up to taking the execution lock. */
  function WorkWaiting(s: State): State {
    match s.pc
    case AtWakeCheck =>
      if s.cancelled then s.(pc := AtStopCheck)
      else if s.wakeRevision != s.seen then s.(seen := s.wakeRevision, pc := AtStopCheck)
      else s.(pc := Parked)
    case Parked => if s.permit then s.(permit := false, pc := AtWakeCheck) else s
    case AtStopCheck => if s.cancelled || s.disposed then s.(pc := Leaving, exitSettled := s.settledRevision) else s.(pc := WantExecution)
    case WantExecution => s.(running := true, pc := AtCancelCheck)
    case _ => s
  }

  /** The claiming loop, between its await points. */
  function WorkClaiming(s: State): State {
    match s.pc
    case AtCancelCheck =>
      if s.cancelled then s.(pc := AtWakeCheck)
      else s.(pc := Claiming(|s.log|), log := s.log + [ClaimBegun])
    case FoundNothing(_, _) =>
      if s.wakeRevision != s.seen then s.(seen := s.wakeRevision, pc := AtCancelCheck)
      else s.(pc := Settling(s.wakeRevision))
    case FailedClaim => s.(pc := RecordingFailure(s.wakeRevision))
    case _ => s
  }

  function WorkSettling(s: State): State {
    match s.pc
    case Settling(revision) => s.(settledRevision := revision, pc := ClearingRunning)
    case ClearingRunning => s.(running := false, pc := NotifyingIdle)
    case NotifyingIdle => s.(waiters := NotifyWaiters(s.waiters), pc := AtWakeCheck)
    // one critical section: the state lock is held across the store and the notification
    case RecordingFailure(revision) =>
      s.(failed := true, settledRevision := revision, running := false, log := s.log + [ClaimErrorRecorded],
         waiters := NotifyWaiters(s.waiters), pc := AtWakeCheck)
    case _ => s
  }

  function WorkLeaving(s: State): State {
    match s.pc
    case Leaving => s.(running := false, pc := LeavingSettle)
    case LeavingSettle => s.(settledRevision := s.wakeRevision, pc := LeavingNotify)
    case LeavingNotify => s.(waiters := NotifyWaiters(s.waiters), pc := Gone)
    case _ => s
  }

  function Work(s: State): State {
    match s.pc
    case AtWakeCheck => WorkWaiting(s)
    case Parked => WorkWaiting(s)
    case AtStopCheck => WorkWaiting(s)
    case WantExecution => WorkWaiting(s)
    case AtCancelCheck => WorkClaiming(s)
    case FoundNothing(_, _) => WorkClaiming(s)
    case FailedClaim => WorkClaiming(s)
    case Settling(_) => WorkSettling(s)
    case ClearingRunning => WorkSettling(s)
    case NotifyingIdle => WorkSettling(s)
    case RecordingFailure(_) => WorkSettling(s)
    case _ => WorkLeaving(s)
  }

  function ClaimStep(s: State, outcome: Claim): State {
    match s.pc
    case Claiming(begun) =>
      (match outcome
       case Got => s.(pc := InTurn, log := s.log + [ClaimGot])
       case Nothing => s.(pc := FoundNothing(begun, |s.log|), log := s.log + [ClaimEmpty])
       case Failed => s.(pc := FailedClaim, log := s.log + [ClaimFailed]))
    case _ => s
  }

  function CheckStep(s: State, w: nat): State {
    if w in s.waiters && s.waiters[w].Armed? then
      s.(waiters := s.waiters[w := if Idle(s) then Returned(!s.failed) else Waiting(s.waiters[w].notified)])
    else s
  }

  function Next(s: State, a: Action): State {
    match a
    case WakeBump =>
      if s.disposed || s.cancelled then s
      else s.(wakeRevision := s.wakeRevision + 1, failed := false, unnotified := s.unnotified + 1,
              log := s.log + [Wake(s.wakeRevision + 1)])
    case WakeNotify => if s.unnotified > 0 then s.(unnotified := s.unnotified - 1, permit := true) else s
    case CancelToken => s.(cancelled := true)
    case MarkDisposed => s.(disposed := true)
    case Advance => Work(s)
    case Interrupted =>
      if !s.cancelled then s
      else if s.pc.Parked? then s.(pc := AtStopCheck)
      else if s.pc.WantExecution? then s.(pc := Leaving, exitSettled := s.settledRevision)
      else s
    case ClaimReturns(outcome) => ClaimStep(s, outcome)
    case TurnReturns(ok) =>
      if !s.pc.InTurn? then s
      else if ok then s.(pc := AtCancelCheck, log := s.log + [TurnSucceeded])
      else s.(failed := true, pc := AtCancelCheck, log := s.log + [TurnFailed])
    case Arm(w) => if w in s.waiters then s else s.(waiters := s.waiters[w := Armed(false)])
    case Check(w) => CheckStep(s, w)
    case Resume(w) =>
      if w in s.waiters && s.waiters[w] == Waiting(true) then s.(waiters := s.waiters[w := Armed(false)]) else s
  }

  function Run(s: State, actions: seq<Action>): State
    decreases |actions|
  {
    if actions == [] then s else Run(Next(s, actions[0]), actions[1..])
  }

  // ---------------------------------------------------------------------
  // What an idle answer promises
  // ---------------------------------------------------------------------

  /** Some claim attempt began after position `i` and found nothing. */
  ghost predicate Covered(log: seq<Event>, i: nat) {
    exists j, k :: i < j < k < |log| && log[j] == ClaimBegun && log[k] == ClaimEmpty
                   && forall m :: j < m < k ==> log[m].Wake?
  }

  ghost predicate CoveredUpTo(log: seq<Event>, revision: nat) {
    forall i :: 0 <= i < |log| && log[i].Wake? && log[i].revision <= revision ==> Covered(log, i)
  }

  /** The attempt at `begun` started after every wake up to `seen`; it is still open. */
  ghost predicate OpenAttempt(log: seq<Event>, seen: nat, begun: nat) {
    && begun < |log| && log[begun] == ClaimBegun
    && (forall i :: 0 <= i < |log| && log[i].Wake? && log[i].revision <= seen ==> i < begun)
    && (forall m :: begun < m < |log| ==> log[m].Wake?)
  }

  /** The same attempt, which found nothing at position `empty`. */
  ghost predicate EmptyAttempt(log: seq<Event>, seen: nat, begun: nat, empty: nat) {
    && begun < empty < |log| && log[begun] == ClaimBegun && log[empty] == ClaimEmpty
    && (forall i :: 0 <= i < |log| && log[i].Wake? && log[i].revision <= seen ==> i < begun)
    && (forall m :: begun < m < empty ==> log[m].Wake?)
  }

  ghost predicate WakesUpTo(log: seq<Event>, revision: nat) {
    forall i :: 0 <= i < |log| && log[i].Wake? ==> log[i].revision <= revision
  }

  predicate Busy(pc: Pc) {
    pc.AtCancelCheck? || pc.Claiming? || pc.FoundNothing? || pc.Settling? || pc.ClearingRunning?
    || pc.FailedClaim? || pc.RecordingFailure? || pc.InTurn?
  }

  predicate Exiting(pc: Pc) {
    pc.Leaving? || pc.LeavingSettle? || pc.LeavingNotify? || pc.Gone?
  }

  ghost predicate PcInv(pc: Pc, log: seq<Event>, seen: nat, wakeRevision: nat) {
    match pc
    case Claiming(begun) => OpenAttempt(log, seen, begun)
    case FoundNothing(begun, empty) => EmptyAttempt(log, seen, begun, empty)
    case Settling(revision) => revision <= wakeRevision && CoveredUpTo(log, revision)
    case RecordingFailure(revision) => revision <= wakeRevision
    case _ => true
  }

  ghost predicate Inv(s: State) {
    && s.seen <= s.wakeRevision && s.settledRevision <= s.wakeRevision
    && WakesUpTo(s.log, s.wakeRevision)
    && (Busy(s.pc) ==> s.running)
    && (Exiting(s.pc) ==> s.cancelled || s.disposed)
    && PcInv(s.pc, s.log, s.seen, s.wakeRevision)
    && (CoveredUpTo(s.log, s.settledRevision) || s.failed || s.settledRevision < s.wakeRevision || Exiting(s.pc))
  }

  ghost predicate HasWake(log: seq<Event>) {
    exists i :: 0 <= i < |log| && log[i].Wake?
  }

  lemma HasWakeMore(log: seq<Event>, e: Event)
    ensures HasWake(log) || e.Wake? ==> HasWake(log + [e])
  {
    if i :| 0 <= i < |log| && log[i].Wake? {
      assert (log + [e])[i].Wake?;
    }
    assert (log + [e])[|log|] == e;
  }

  /** What a worker that settled everything before it left can answer for. */
  ghost predicate ExitInv(s: State) {
    && (s.wakeRevision > 0 ==> HasWake(s.log))
    && s.exitSettled <= s.wakeRevision
    && (Exiting(s.pc) && s.exitSettled == s.wakeRevision ==> s.failed || CoveredUpTo(s.log, s.wakeRevision))
  }

  ghost predicate Drained(log: seq<Event>) {
    forall i :: 0 <= i < |log| && log[i].Wake? ==> Covered(log, i)
  }

  lemma CoverageGrows(log: seq<Event>, e: Event, revision: nat)
    requires CoveredUpTo(log, revision) && (e.Wake? ==> e.revision > revision)
    ensures CoveredUpTo(log + [e], revision)
  {
    var log' := log + [e];
    forall i | 0 <= i < |log'| && log'[i].Wake? && log'[i].revision <= revision ensures Covered(log', i) {
      assert log'[i] == log[i];
      assert Covered(log, i);
      var j, k :| i < j < k < |log| && log[j] == ClaimBegun && log[k] == ClaimEmpty
                  && forall m :: j < m < k ==> log[m].Wake?;
      assert log'[j] == ClaimBegun && log'[k] == ClaimEmpty;
      assert forall m :: j < m < k ==> log'[m] == log[m];
    }
  }

  /** An empty attempt covers every wake the worker had seen when it began. */
  lemma EmptyAttemptCovers(log: seq<Event>, seen: nat, begun: nat, empty: nat)
    requires EmptyAttempt(log, seen, begun, empty)
    ensures CoveredUpTo(log, seen)
  {
    forall i | 0 <= i < |log| && log[i].Wake? && log[i].revision <= seen ensures Covered(log, i) {
      assert i < begun < empty;
    }
  }

  /** What appending one event does to every part of the invariant. */
  lemma LogGrows(s: State, e: Event)
    requires Inv(s) && (e.Wake? ==> e.revision == s.wakeRevision + 1)
    ensures WakesUpTo(s.log + [e], if e.Wake? then s.wakeRevision + 1 else s.wakeRevision)
    ensures CoveredUpTo(s.log, s.settledRevision) ==> CoveredUpTo(s.log + [e], s.settledRevision)
    ensures e.Wake? ==> PcInv(s.pc, s.log + [e], s.seen, s.wakeRevision + 1)
    ensures e == ClaimBegun ==> OpenAttempt(s.log + [e], s.seen, |s.log|)
    ensures e == ClaimEmpty && s.pc.Claiming? ==> EmptyAttempt(s.log + [e], s.seen, s.pc.begun, |s.log|)
  {
    if CoveredUpTo(s.log, s.settledRevision) { CoverageGrows(s.log, e, s.settledRevision); }
    if s.pc.Settling? { CoverageGrows(s.log, e, s.pc.revision); }
  }

  lemma WakeInv(s: State)
    requires Inv(s)
    ensures Inv(Next(s, WakeBump))
  {
    hide CoveredUpTo, OpenAttempt, EmptyAttempt, WakesUpTo, PcInv;
    LogGrows(s, Wake(s.wakeRevision + 1));
  }

  lemma WaitingInv(s: State)
    requires Inv(s)
    ensures Inv(WorkWaiting(s))
  {
    hide CoveredUpTo, NotifyWaiters, OpenAttempt, EmptyAttempt, WakesUpTo;
  }

  lemma ClaimingInv(s: State)
    requires Inv(s)
    ensures Inv(WorkClaiming(s))
  {
    hide CoveredUpTo, NotifyWaiters, OpenAttempt, EmptyAttempt, WakesUpTo;
    match s.pc {
      case AtCancelCheck => LogGrows(s, ClaimBegun);
      case FoundNothing(begun, empty) => EmptyAttemptCovers(s.log, s.seen, begun, empty);
      case _ =>
    }
  }

  lemma SettlingInv(s: State)
    requires Inv(s)
    ensures Inv(WorkSettling(s))
  {
    hide CoveredUpTo, NotifyWaiters, OpenAttempt, EmptyAttempt, WakesUpTo;
    LogGrows(s, ClaimErrorRecorded);
  }

  lemma TurnInv(s: State, ok: bool)
    requires Inv(s)
    ensures Inv(Next(s, TurnReturns(ok)))
  {
    hide CoveredUpTo, NotifyWaiters, OpenAttempt, EmptyAttempt, WakesUpTo, Work, ClaimStep, CheckStep;
    LogGrows(s, if ok then TurnSucceeded else TurnFailed);
  }

  lemma LeavingInv(s: State)
    requires Inv(s)
    ensures Inv(WorkLeaving(s))
  {
    hide CoveredUpTo, NotifyWaiters, OpenAttempt, EmptyAttempt, WakesUpTo;
  }

  lemma WorkInv(s: State)
    requires Inv(s)
    ensures Inv(Work(s))
  {
    hide WorkWaiting, WorkClaiming, WorkSettling, WorkLeaving, Inv;
    WaitingInv(s);
    ClaimingInv(s);
    SettlingInv(s);
    LeavingInv(s);
  }

  lemma ClaimInv(s: State, outcome: Claim)
    requires Inv(s)
    ensures Inv(ClaimStep(s, outcome))
  {
    hide CoveredUpTo, OpenAttempt, EmptyAttempt, WakesUpTo;
    LogGrows(s, match outcome case Got => ClaimGot case Nothing => ClaimEmpty case Failed => ClaimFailed);
  }

  lemma InvStep(s: State, a: Action)
    requires Inv(s)
    ensures Inv(Next(s, a))
  {
    hide CoveredUpTo, OpenAttempt, EmptyAttempt, WakesUpTo, Work, ClaimStep;
    match a {
      case WakeBump => WakeInv(s);
      case Advance => WorkInv(s);
      case ClaimReturns(outcome) => ClaimInv(s, outcome);
      case TurnReturns(ok) => TurnInv(s, ok);
      case _ =>
    }
  }

  lemma {:induction false} InvRun(s: State, actions: seq<Action>)
    requires Inv(s)
    ensures Inv(Run(s, actions))
    decreases |actions|
  {
    hide Inv, Next;
    if actions != [] {
      InvStep(s, actions[0]);
      InvRun(Next(s, actions[0]), actions[1..]);
    }
  }

  lemma ExitWaiting(s: State)
    requires Inv(s) && ExitInv(s)
    ensures ExitInv(WorkWaiting(s))
  {
    hide PcInv, WakesUpTo, CoveredUpTo, NotifyWaiters, Work, ClaimStep, CheckStep, HasWake;
  }

  lemma ExitInterrupted(s: State)
    requires Inv(s) && ExitInv(s)
    ensures ExitInv(Next(s, Interrupted))
  {
    hide PcInv, WakesUpTo, CoveredUpTo, NotifyWaiters, Work, ClaimStep, CheckStep, HasWake;
  }

  lemma ExitClaiming(s: State)
    requires ExitInv(s)
    ensures ExitInv(WorkClaiming(s))
  {
    hide CoveredUpTo, HasWake;
    HasWakeMore(s.log, ClaimBegun);
  }

  lemma ExitClaim(s: State, outcome: Claim)
    requires ExitInv(s)
    ensures ExitInv(ClaimStep(s, outcome))
  {
    hide CoveredUpTo, HasWake;
    HasWakeMore(s.log, match outcome case Got => ClaimGot case Nothing => ClaimEmpty case Failed => ClaimFailed);
  }

  lemma ExitSettling(s: State)
    requires ExitInv(s)
    ensures ExitInv(WorkSettling(s))
  {
    hide CoveredUpTo, NotifyWaiters, HasWake;
    HasWakeMore(s.log, ClaimErrorRecorded);
  }

  lemma ExitLeaving(s: State)
    requires ExitInv(s)
    ensures ExitInv(WorkLeaving(s))
  {
    hide CoveredUpTo, NotifyWaiters, HasWake;
  }

  lemma ExitStep(s: State, a: Action)
    requires Inv(s) && ExitInv(s)
    ensures ExitInv(Next(s, a))
  {
    hide PcInv, WakesUpTo, CoveredUpTo, WorkWaiting, WorkClaiming, WorkSettling, WorkLeaving, ClaimStep, HasWake;
    match a
    case Advance =>
      hide ExitInv, Inv;
      ExitWaiting(s);
      ExitClaiming(s);
      ExitSettling(s);
      ExitLeaving(s);
    case WakeBump => HasWakeMore(s.log, Wake(s.wakeRevision + 1));
    case TurnReturns(ok) => HasWakeMore(s.log, if ok then TurnSucceeded else TurnFailed);
    case ClaimReturns(outcome) => ExitClaim(s, outcome);
    case Interrupted => ExitInterrupted(s);
    case _ =>
  }

  lemma {:induction false} ExitRun(s: State, actions: seq<Action>)
    requires Inv(s) && ExitInv(s)
    ensures Inv(Run(s, actions)) && ExitInv(Run(s, actions))
    decreases |actions|
  {
    hide Inv, ExitInv, Next;
    if actions != [] {
      InvStep(s, actions[0]);
      ExitStep(s, actions[0]);
      ExitRun(Next(s, actions[0]), actions[1..]);
    }
  }

  /** In every interleaving: if a `when_idle` caller is about to be answered Ok while the
      worker is still in its loop, every wake so far was followed by a claim attempt that
      began after it and found nothing, and the worker is outside any turn or claim. A wake
      that lands between the empty claim and the settle is not lost, because then the check
      does not answer. */
  lemma IdleMeansDrained(actions: seq<Action>, w: nat)
    ensures var s := Run(START, actions);
            w in s.waiters && s.waiters[w].Armed? && Next(s, Check(w)).waiters[w] == Returned(true) && !Exiting(s.pc)
            ==> Drained(s.log) && !Busy(s.pc)
  {
    hide Next;
    StartInv();
    InvRun(START, actions);
    var s := Run(START, actions);
    if w in s.waiters && s.waiters[w].Armed? { CheckAnswers(s, w); }
  }

  /** An attempt that found nothing stands in the log after the last wake. */
  function Probed(log: seq<Event>): bool {
    if |log| < 2 || log[|log| - 1].Wake? then false
    else if log[|log| - 2] == ClaimBegun && log[|log| - 1] == ClaimEmpty then true
    else Probed(log[..|log| - 1])
  }

  /** A worker that has left its loop settles whatever is unsettled without looking, so then an Ok
      answer means drained if and only if nothing was unsettled when it left, or the last
      attempt before it left began after the last wake and found nothing. */
  lemma ExitMeansDrained(actions: seq<Action>, w: nat)
    ensures var s := Run(START, actions);
            w in s.waiters && s.waiters[w].Armed? && Next(s, Check(w)).waiters[w] == Returned(true) && Exiting(s.pc)
            ==> (Drained(s.log) <==> s.exitSettled == s.wakeRevision || Probed(s.log))
  {
    hide Next, Probed, Covered;
    StartInv();
    ExitRun(START, actions);
    var s := Run(START, actions);
    if w in s.waiters && s.waiters[w].Armed? && Exiting(s.pc) {
      CheckAnswers(s, w);
      if i :| 0 <= i < |s.log| && s.log[i].Wake? {
        DrainedProbed(s.log, i);
      }
    }
  }

  lemma {:induction false} DrainedProbed(log: seq<Event>, w: nat)
    requires w < |log| && log[w].Wake?
    ensures Drained(log) <==> Probed(log)
  {
    var n := |log| - 1;
    if log[n].Wake? {
      assert !Covered(log, n);
    } else {
      var rest := log[..n];
      assert rest[w] == log[w];
      DrainedProbed(rest, w);
      if log[n - 1] == ClaimBegun && log[n] == ClaimEmpty {
        forall i | 0 <= i < |log| && log[i].Wake?
          ensures Covered(log, i)
        {
          assert i < n - 1;
        }
      } else {
        if Drained(rest) {
          DrainedMore(rest, log[n]);
          assert rest + [log[n]] == log;
        }
        if Drained(log) {
          DrainedLess(log, w);
        }
      }
    }
  }

  lemma DrainedMore(log: seq<Event>, e: Event)
    requires Drained(log) && !e.Wake?
    ensures Drained(log + [e])
  {
    var log' := log + [e];
    forall i | 0 <= i < |log'| && log'[i].Wake?
      ensures Covered(log', i)
    {
      assert log'[i] == log[i];
      assert Covered(log, i);
      var j, k :| i < j < k < |log| && log[j] == ClaimBegun && log[k] == ClaimEmpty
                  && forall m :: j < m < k ==> log[m].Wake?;
      assert log'[j] == ClaimBegun && log'[k] == ClaimEmpty;
      assert forall m :: j < m < k ==> log'[m] == log[m];
    }
  }

  /** The last wake, found by looking forward from one. */
  lemma LastWake(log: seq<Event>, w: nat) returns (last: nat)
    requires w < |log| && log[w].Wake?
    ensures w <= last < |log| && log[last].Wake? && forall m :: last < m < |log| ==> !log[m].Wake?
    decreases |log| - w
  {
    if next :| w < next < |log| && log[next].Wake? {
      last := LastWake(log, next);
    } else {
      last := w;
    }
  }

  lemma DrainedLess(log: seq<Event>, w: nat)
    requires Drained(log) && w < |log| - 1 && log[w].Wake? && !log[|log| - 1].Wake?
    requires !(log[|log| - 2] == ClaimBegun && log[|log| - 1] == ClaimEmpty)
    ensures Drained(log[..|log| - 1])
  {
    var last := LastWake(log, w);
    assert Covered(log, last);
    var j, k :| last < j < k < |log| && log[j] == ClaimBegun && log[k] == ClaimEmpty
                && forall m :: j < m < k ==> log[m].Wake?;
    assert !log[j + 1].Wake?;
    assert k == j + 1;
    var rest := log[..|log| - 1];
    forall i | 0 <= i < |rest| && rest[i].Wake?
      ensures Covered(rest, i)
    {
      assert log[i].Wake?;
      assert i <= last;
      assert rest[j] == ClaimBegun && rest[k] == ClaimEmpty;
    }
  }

  lemma StartInv()
    ensures Inv(START)
  {
  }

  lemma CheckAnswers(s: State, w: nat)
    requires w in s.waiters && s.waiters[w].Armed?
    ensures w in Next(s, Check(w)).waiters
    ensures Next(s, Check(w)).waiters[w] == Returned(true) <==> Idle(s) && !s.failed
  {
  }

  /** A driver that is disposed directly records the disposal before it cancels its token. In
      between, the worker may already have left, and then a wake is answered Ok although no
      claim attempt was ever made. (An agent cancels the token first.) */
  lemma DisposedAnswersEarly()
    ensures var before := [WakeBump, MarkDisposed, Advance, Advance, Advance, Advance, Arm(0)];
            var s := Run(START, before);
            && !s.cancelled && s.disposed && s.log == [Wake(1)]
            && 0 in s.waiters && s.waiters[0].Armed?
            && Next(s, Check(0)).waiters[0] == Returned(true)
            && !Covered(s.log, 0)
  {
    hide Run;
    var s4 := Next(Next(Next(Next(START, WakeBump), MarkDisposed), Advance), Advance);
    assert s4 == START.(wakeRevision := 1, seen := 1, disposed := true, unnotified := 1, log := [Wake(1)], pc := Leaving);
    LeavesQuietly(s4);
    Unroll(Next(Next(Next(START, WakeBump), MarkDisposed), Advance), [Advance, Advance, Advance, Arm(0)]);
    Unroll(Next(Next(START, WakeBump), MarkDisposed), [Advance, Advance, Advance, Advance, Arm(0)]);
    Unroll(Next(START, WakeBump), [MarkDisposed, Advance, Advance, Advance, Advance, Arm(0)]);
    Unroll(START, [WakeBump, MarkDisposed, Advance, Advance, Advance, Advance, Arm(0)]);
  }

  lemma {:induction false} RunConcat(s: State, a: seq<Action>, b: seq<Action>)
    ensures Run(s, a + b) == Run(Run(s, a), b)
    decreases |a|
  {
    hide Next;
    if a == [] {
      assert a + b == b;
    } else {
      assert (a + b)[1..] == a[1..] + b;
      RunConcat(Next(s, a[0]), a[1..], b);
    }
  }

  lemma RunTwo(s: State, a: Action, b: Action)
    ensures Run(s, [a, b]) == Next(Next(s, a), b)
  {
    hide Next;
    assert [a, b][1..] == [b] && [b][1..] == [];
    Unroll(s, [a, b]);
    Unroll(Next(s, a), [b]);
  }

  lemma RunFour(s: State, a: Action, b: Action, c: Action, d: Action)
    ensures Run(s, [a, b, c, d]) == Next(Next(Next(Next(s, a), b), c), d)
  {
    hide Next, Run;
    assert [a, b] + [c, d] == [a, b, c, d];
    RunConcat(s, [a, b], [c, d]);
    RunTwo(s, a, b);
    RunTwo(Run(s, [a, b]), c, d);
  }

  /** The second half of the condition is needed: a wake that lands before the claim begins is looked
      at by that claim although the worker has not seen it, and a worker cancelled right after
      leaves it unsettled. */
  lemma UnsettledYetDrained() returns (actions: seq<Action>)
    ensures var s := Run(START, actions);
            && 0 in s.waiters && s.waiters[0].Armed? && Next(s, Check(0)).waiters[0] == Returned(true)
            && Exiting(s.pc) && s.exitSettled != s.wakeRevision && Probed(s.log) && Drained(s.log)
  {
    hide Run;
    var first, second := [WakeBump, Advance, Advance, Advance], [WakeBump, Advance, ClaimReturns(Nothing), Advance];
    var third, fourth := [CancelToken, Advance, Advance, Advance], [Advance, Advance, Arm(0)];
    actions := first + (second + (third + fourth));
    RunFour(START, WakeBump, Advance, Advance, Advance);
    RunConcat(START, first, second + (third + fourth));
    var s1 := START.(wakeRevision := 1, unnotified := 1, seen := 1, running := true, pc := AtCancelCheck, log := [Wake(1)]);
    assert Next(Next(Next(Next(START, WakeBump), Advance), Advance), Advance) == s1;
    var s2 := ProbeRuns(s1);
    RunConcat(s1, second, third + fourth);
    LeavingRuns(s2);
    RunConcat(s2, third, fourth);
    var log := [Wake(1), Wake(2), ClaimBegun, ClaimEmpty];
    assert log[2] == ClaimBegun && log[3] == ClaimEmpty;
    assert Probed(log);
    DrainedProbed(log, 0);
  }

  lemma ProbeRuns(s: State) returns (s2: State)
    requires s == START.(wakeRevision := 1, unnotified := 1, seen := 1, running := true, pc := AtCancelCheck, log := [Wake(1)])
    ensures s2 == START.(wakeRevision := 2, unnotified := 2, seen := 2, running := true, pc := AtCancelCheck,
                         log := [Wake(1), Wake(2), ClaimBegun, ClaimEmpty])
    ensures Run(s, [WakeBump, Advance, ClaimReturns(Nothing), Advance]) == s2
  {
    hide Run;
    RunFour(s, WakeBump, Advance, ClaimReturns(Nothing), Advance);
    var log := [Wake(1), Wake(2), ClaimBegun, ClaimEmpty];
    s2 := START.(wakeRevision := 2, unnotified := 2, seen := 2, running := true, pc := AtCancelCheck, log := log);
    assert [Wake(1)] + [Wake(2)] + [ClaimBegun] + [ClaimEmpty] == log;
    assert Next(Next(Next(Next(s, WakeBump), Advance), ClaimReturns(Nothing)), Advance) == s2;
  }

  lemma LeavingRuns(s: State)
    requires s.pc == AtCancelCheck && s.waiters == map[] && s.settledRevision == 0 && !s.failed
    ensures Run(s, [CancelToken, Advance, Advance, Advance]) == s.(cancelled := true, pc := Leaving, exitSettled := 0)
    ensures Run(Run(s, [CancelToken, Advance, Advance, Advance]), [Advance, Advance, Arm(0)]) ==
            s.(cancelled := true, exitSettled := 0, running := false, settledRevision := s.wakeRevision, pc := LeavingNotify,
               waiters := map[0 := Armed(false)])
  {
    hide Run;
    RunFour(s, CancelToken, Advance, Advance, Advance);
    LeavesQuietly(s.(cancelled := true, pc := Leaving, exitSettled := 0));
  }

  lemma LeavesQuietly(s: State)
    requires s.pc == Leaving && s.waiters == map[]
    ensures Run(s, [Advance, Advance, Arm(0)])
         == s.(running := false, settledRevision := s.wakeRevision, pc := LeavingNotify, waiters := map[0 := Armed(false)])
  {
    hide Run;
    var s1 := s.(running := false, pc := LeavingSettle);
    var s2 := s1.(settledRevision := s.wakeRevision, pc := LeavingNotify);
    assert Next(s, Advance) == s1 && Next(s1, Advance) == s2;
    Unroll(s, [Advance, Advance, Arm(0)]);
    Unroll(s1, [Advance, Arm(0)]);
    Unroll(s2, [Arm(0)]);
    assert [Advance, Advance, Arm(0)][1..] == [Advance, Arm(0)] && [Advance, Arm(0)][1..] == [Arm(0)];
    assert [Arm(0)][1..] == [];
    RunNothing(Next(s2, Arm(0)));
  }

  lemma RunNothing(s: State)
    ensures Run(s, []) == s
  {
  }

  lemma Unroll(s: State, actions: seq<Action>)
    requires actions != []
    ensures Run(s, actions) == Run(Next(s, actions[0]), actions[1..])
  {
  }

  // ---------------------------------------------------------------------
  // Nobody sleeps through a notification
  // ---------------------------------------------------------------------

  /** A parked worker with unseen wakes has a permit, or a waker still about to give
      one; a sleeping idle waiter whose answer is due has been notified, or the worker
      is about to notify it. */
  ghost predicate NobodyStranded(s: State) {
    && (s.pc.Parked? && s.wakeRevision != s.seen ==> s.permit || s.unnotified > 0)
    && (Idle(s) && !(s.pc.NotifyingIdle? || s.pc.LeavingSettle? || s.pc.LeavingNotify?) ==> NoneAsleep(s.waiters))
  }

  ghost predicate NoneAsleep(ws: map<nat, Waiter>) {
    forall w :: w in ws ==> ws[w] != Waiting(false)
  }

  lemma NotifyWakesAll(ws: map<nat, Waiter>)
    ensures NoneAsleep(NotifyWaiters(ws))
  {
  }

  lemma StrandedWork(s: State)
    requires Inv(s) && NobodyStranded(s)
    ensures NobodyStranded(WorkWaiting(s)) && NobodyStranded(WorkClaiming(s))
  {
    hide NoneAsleep, NotifyWaiters, PcInv, WakesUpTo, CoveredUpTo, WorkSettling, WorkLeaving;
  }

  lemma StrandedSettle(s: State)
    requires Inv(s) && NobodyStranded(s)
    ensures NobodyStranded(WorkSettling(s)) && NobodyStranded(WorkLeaving(s))
  {
    hide NoneAsleep, NotifyWaiters, PcInv, WakesUpTo, CoveredUpTo, WorkWaiting, WorkClaiming;
    NotifyWakesAll(s.waiters);
  }

  lemma StrandedStep(s: State, a: Action)
    requires Inv(s) && NobodyStranded(s)
    ensures NobodyStranded(Next(s, a))
  {
    hide WorkWaiting, WorkClaiming, WorkSettling, WorkLeaving, PcInv, WakesUpTo, CoveredUpTo;
    if a == Advance {
      StrandedWork(s);
      StrandedSettle(s);
    }
  }

  lemma {:induction false} StrandedRun(s: State, actions: seq<Action>)
    requires Inv(s) && NobodyStranded(s)
    ensures NobodyStranded(Run(s, actions))
    decreases |actions|
  {
    hide Inv, Next, NobodyStranded;
    if actions != [] {
      InvStep(s, actions[0]);
      StrandedStep(s, actions[0]);
      StrandedRun(Next(s, actions[0]), actions[1..]);
    }
  }

  /** In every state of every run. */
  lemma NoLostWake(actions: seq<Action>)
    ensures NobodyStranded(Run(START, actions))
  {
    StartInv();
    StrandedRun(START, actions);
  }

  // ---------------------------------------------------------------------
  // Ok or Err
  // ---------------------------------------------------------------------

  /** An error was recorded after the last wake. */
  function ErrorSince(log: seq<Event>): bool {
    if log == [] then false
    else match log[|log| - 1]
      case Wake(_) => false
      case TurnFailed => true
      case ClaimErrorRecorded => true
      case _ => ErrorSince(log[..|log| - 1])
  }

  lemma ErrorAppend(log: seq<Event>, e: Event)
    ensures ErrorSince(log + [e]) ==
            if e.Wake? then false else e.TurnFailed? || e.ClaimErrorRecorded? || ErrorSince(log)
  {
    assert (log + [e])[..|log|] == log;
  }

  lemma ErrorStep(s: State, a: Action)
    requires s.failed == ErrorSince(s.log)
    ensures Next(s, a).failed == ErrorSince(Next(s, a).log)
  {
    hide NotifyWaiters, ErrorSince, Work, ClaimStep, CheckStep;
    match a
    case WakeBump => ErrorAppend(s.log, Wake(s.wakeRevision + 1));
    case Advance => ErrorWork(s);
    case ClaimReturns(outcome) => ErrorClaim(s, outcome);
    case TurnReturns(ok) => ErrorAppend(s.log, if ok then TurnSucceeded else TurnFailed);
    case Check(w) => ErrorCheck(s, w);
    case _ =>
  }

  lemma ErrorWork(s: State)
    requires s.failed == ErrorSince(s.log)
    ensures Work(s).failed == ErrorSince(Work(s).log)
  {
    hide WorkWaiting, WorkClaiming, WorkSettling, WorkLeaving, ErrorSince;
    QuietWork(s);
    ErrorClaiming(s);
    ErrorSettling(s);
  }

  lemma QuietWork(s: State)
    ensures WorkWaiting(s).failed == s.failed && WorkWaiting(s).log == s.log
    ensures WorkLeaving(s).failed == s.failed && WorkLeaving(s).log == s.log
  {
    QuietWaiting(s);
    QuietLeaving(s);
    hide WorkWaiting, WorkLeaving;
  }

  lemma QuietWaiting(s: State)
    ensures WorkWaiting(s).failed == s.failed && WorkWaiting(s).log == s.log
  {
  }

  lemma QuietLeaving(s: State)
    ensures WorkLeaving(s).failed == s.failed && WorkLeaving(s).log == s.log
  {
    hide NotifyWaiters;
  }

  lemma ErrorClaiming(s: State)
    requires s.failed == ErrorSince(s.log)
    ensures WorkClaiming(s).failed == ErrorSince(WorkClaiming(s).log)
  {
    hide ErrorSince;
    ErrorAppend(s.log, ClaimBegun);
  }

  lemma ErrorSettling(s: State)
    requires s.failed == ErrorSince(s.log)
    ensures WorkSettling(s).failed == ErrorSince(WorkSettling(s).log)
  {
    hide ErrorSince, NotifyWaiters;
    ErrorAppend(s.log, ClaimErrorRecorded);
  }

  lemma ErrorClaim(s: State, outcome: Claim)
    requires s.failed == ErrorSince(s.log)
    ensures ClaimStep(s, outcome).failed == ErrorSince(ClaimStep(s, outcome).log)
  {
    hide ErrorSince;
    ErrorAppend(s.log, match outcome case Got => ClaimGot case Nothing => ClaimEmpty case Failed => ClaimFailed);
  }

  lemma ErrorCheck(s: State, w: nat)
    ensures CheckStep(s, w).failed == s.failed && CheckStep(s, w).log == s.log
  {
  }

  lemma {:induction false} ErrorRun(s: State, actions: seq<Action>)
    requires s.failed == ErrorSince(s.log)
    ensures Run(s, actions).failed == ErrorSince(Run(s, actions).log)
    decreases |actions|
  {
    hide Next;
    if actions != [] {
      ErrorStep(s, actions[0]);
      ErrorRun(Next(s, actions[0]), actions[1..]);
    }
  }

  /** In every run a `when_idle` caller that is answered is answered Err if and only if a turn failed or
      a failed claim was recorded after the last wake, and is answered if and only if the driver is idle. */
  lemma AnsweredErr(actions: seq<Action>, w: nat)
    ensures var s := Run(START, actions);
            w in s.waiters && s.waiters[w].Armed? ==>
              && w in Next(s, Check(w)).waiters
              && (Next(s, Check(w)).waiters[w].Returned? <==> Idle(s))
              && (Next(s, Check(w)).waiters[w] == Returned(false) <==> Idle(s) && ErrorSince(s.log))
              && (Next(s, Check(w)).waiters[w] == Returned(true) <==> Idle(s) && !ErrorSince(s.log))
  {
    hide Run, ErrorSince;
    assert ErrorSince([]) == false by { NoErrors(); }
    ErrorRun(START, actions);
  }

  lemma NoErrors()
    ensures !ErrorSince([])
  {
  }

  /** "Failed after the last wake" would be too much to ask: a wake may land between a claim's failure
      and its record, and the answer is then Err although the claim failed before that wake. */
  lemma LateRecord() returns (actions: seq<Action>)
    ensures var s := Run(START, actions);
            && s.log == [Wake(1), ClaimBegun, ClaimFailed, Wake(2), ClaimErrorRecorded]
            && ErrorSince(s.log)
  {
    hide Run;
    var first, second := [WakeBump, Advance, Advance, Advance], [Advance, ClaimReturns(Failed), Advance, WakeBump];
    actions := first + (second + [Advance]);
    RunFour(START, WakeBump, Advance, Advance, Advance);
    RunConcat(START, first, second + [Advance]);
    var s1 := START.(wakeRevision := 1, unnotified := 1, seen := 1, running := true, pc := AtCancelCheck, log := [Wake(1)]);
    assert Next(Next(Next(Next(START, WakeBump), Advance), Advance), Advance) == s1;
    var log := [Wake(1), ClaimBegun, ClaimFailed, Wake(2)];
    var s2 := s1.(wakeRevision := 2, unnotified := 2, pc := RecordingFailure(1), log := log);
    assert [Wake(1)] + [ClaimBegun] + [ClaimFailed] + [Wake(2)] == log;
    RunFour(s1, Advance, ClaimReturns(Failed), Advance, WakeBump);
    assert Next(Next(Next(Next(s1, Advance), ClaimReturns(Failed)), Advance), WakeBump) == s2;
    RunConcat(s1, second, [Advance]);
    assert [Advance][1..] == [];
    Unroll(s2, [Advance]);
    RunNothing(Next(s2, Advance));
    ErrorAppend(log, ClaimErrorRecorded);
  }

  // ---------------------------------------------------------------------
  // The worker gets there
  // ---------------------------------------------------------------------

  /** What an uncancelled worker has settled at each point of its loop. */
  ghost predicate LoopInv(s: State) {
    !s.cancelled ==>
      && (s.pc.AtWakeCheck? || s.pc.Parked? || s.pc.NotifyingIdle? || s.pc.AtStopCheck? || s.pc.WantExecution? ==> !s.running)
      && (s.pc.AtWakeCheck? || s.pc.Parked? || s.pc.NotifyingIdle? || s.pc.ClearingRunning? ==> s.seen <= s.settledRevision)
      && (s.pc.Settling? || s.pc.RecordingFailure? ==> s.seen <= s.pc.revision)
  }

  lemma LoopWork(s: State)
    requires Inv(s) && LoopInv(s)
    ensures LoopInv(WorkWaiting(s)) && LoopInv(WorkClaiming(s))
  {
    hide PcInv, WakesUpTo, CoveredUpTo, NotifyWaiters;
  }

  lemma LoopSettle(s: State)
    requires Inv(s) && LoopInv(s)
    ensures LoopInv(WorkSettling(s)) && LoopInv(WorkLeaving(s))
  {
    hide PcInv, WakesUpTo, CoveredUpTo, NotifyWaiters;
  }

  lemma LoopStep(s: State, a: Action)
    requires Inv(s) && LoopInv(s)
    ensures LoopInv(Next(s, a))
  {
    hide WorkWaiting, WorkClaiming, WorkSettling, WorkLeaving, PcInv, WakesUpTo, CoveredUpTo;
    if a == Advance {
      LoopWork(s);
      LoopSettle(s);
    }
  }

  ghost predicate Healthy(s: State) {
    Inv(s) && LoopInv(s) && NobodyStranded(s) && !s.cancelled && !s.disposed
  }

  lemma HealthyStep(s: State, a: Action)
    requires Healthy(s) && !a.CancelToken? && !a.MarkDisposed?
    ensures Healthy(Next(s, a))
  {
    InvStep(s, a);
    LoopStep(s, a);
    StrandedStep(s, a);
    hide Inv, LoopInv, NobodyStranded, NotifyWaiters;
  }

  lemma {:induction false} LoopRun(s: State, actions: seq<Action>)
    requires Inv(s) && LoopInv(s) && NobodyStranded(s)
    ensures Inv(Run(s, actions)) && LoopInv(Run(s, actions)) && NobodyStranded(Run(s, actions))
    decreases |actions|
  {
    hide Inv, LoopInv, NobodyStranded, Next;
    if actions != [] {
      InvStep(s, actions[0]);
      LoopStep(s, actions[0]);
      StrandedStep(s, actions[0]);
      LoopRun(Next(s, actions[0]), actions[1..]);
    }
  }

  /** Where the worker stands on its way to the next wait. */
  function Distance(pc: Pc): nat {
    match pc
    case InTurn => 9
    case AtStopCheck => 9
    case WantExecution => 8
    case AtCancelCheck => 7
    case Claiming(_) => 6
    case FoundNothing(_, _) => 5
    case FailedClaim => 5
    case Settling(_) => 4
    case RecordingFailure(_) => 4
    case ClearingRunning => 3
    case NotifyingIdle => 2
    case Parked => 1
    case _ => 0
  }

  function Unseen(s: State): nat {
    if s.wakeRevision != s.seen then 1 else 0
  }

  predicate AtRest(pc: Pc) {
    pc.AtWakeCheck? || pc.Parked?
  }

  /** The worker's next step, with claims that find nothing and turns that succeed. */
  function Onward(s: State): Action {
    match s.pc
    case Claiming(_) => ClaimReturns(Nothing)
    case InTurn => TurnReturns(true)
    case Parked => if s.permit then Advance else WakeNotify
    case _ => Advance
  }

  predicate Closer(s: State, s': State) {
    && s'.wakeRevision == s.wakeRevision && s'.unnotified <= s.unnotified
    && (Unseen(s') < Unseen(s)
        || (Unseen(s') == Unseen(s) && (Distance(s'.pc) < Distance(s.pc)
            || (s'.pc == s.pc && s.pc.Parked? && s'.unnotified < s.unnotified))))
  }

  lemma OnwardCloser(s: State)
    requires Healthy(s) && !(AtRest(s.pc) && s.wakeRevision == s.seen)
    ensures Closer(s, Next(s, Onward(s)))
  {
    hide Inv, LoopInv, NobodyStranded, WorkWaiting, WorkClaiming, WorkSettling, WorkLeaving;
    NotExiting(s);
    WaitingCloser(s);
    ClaimingCloser(s);
    SettlingCloser(s);
  }

  lemma NotExiting(s: State)
    requires Healthy(s)
    ensures !Exiting(s.pc)
    ensures s.pc.Parked? && s.wakeRevision != s.seen ==> s.permit || s.unnotified > 0
  {
    hide PcInv, WakesUpTo, CoveredUpTo, NoneAsleep;
  }

  lemma WaitingCloser(s: State)
    requires !s.cancelled && !s.disposed
    ensures s.pc.AtWakeCheck? && s.wakeRevision != s.seen ==> Closer(s, WorkWaiting(s))
    ensures (s.pc.Parked? && s.permit) || s.pc.AtStopCheck? || s.pc.WantExecution? ==> Closer(s, WorkWaiting(s))
  {
  }

  lemma ClaimingCloser(s: State)
    requires !s.cancelled
    ensures s.pc.AtCancelCheck? || s.pc.FoundNothing? || s.pc.FailedClaim? ==> Closer(s, WorkClaiming(s))
  {
  }

  lemma SettlingCloser(s: State)
    ensures s.pc.Settling? || s.pc.ClearingRunning? || s.pc.NotifyingIdle? || s.pc.RecordingFailure? ==> Closer(s, WorkSettling(s))
  {
  }

  /** From every state of a driver that is neither cancelled nor disposed, the steps of its worker
      alone lead back to idle: nothing waits for a wake that has already been given. */
  lemma {:induction false} Settles(s: State) returns (actions: seq<Action>)
    requires Healthy(s)
    ensures var s' := Run(s, actions);
            Healthy(s') && Idle(s') && s'.wakeRevision == s.wakeRevision && (!s'.failed ==> Drained(s'.log))
    decreases Unseen(s), Distance(s.pc), s.unnotified
  {
    if AtRest(s.pc) && s.wakeRevision == s.seen {
      actions := [];
    } else {
      hide Inv, LoopInv, NobodyStranded, Next, Drained, Idle;
      var s1 := Next(s, Onward(s));
      OnwardCloser(s);
      HealthyStep(s, Onward(s));
      var rest := Settles(s1);
      actions := [Onward(s)] + rest;
      assert actions[1..] == rest;
      Unroll(s, actions);
    }
  }

  /** In every run: an uncancelled, undisposed driver can always come to rest and answer. */
  lemma AlwaysSettles(before: seq<Action>) returns (after: seq<Action>)
    requires !Run(START, before).cancelled && !Run(START, before).disposed
    ensures Idle(Run(Run(START, before), after))
    ensures !Run(Run(START, before), after).failed ==> Drained(Run(Run(START, before), after).log)
  {
    hide Run, Inv, LoopInv, NobodyStranded, Next;
    assert Inv(START) && LoopInv(START) && NobodyStranded(START) by { StartsHealthy(); }
    LoopRun(START, before);
    after := Settles(Run(START, before));
  }

  lemma StartsHealthy()
    ensures Inv(START) && LoopInv(START) && NobodyStranded(START)
  {
  }

  // ---------------------------------------------------------------------
  // Callers return, and a cancelled worker leaves
  // ---------------------------------------------------------------------

  /** In every run: once the driver is idle and its notification went out, a caller of `when_idle` that
      has not returned yet needs only to look again, and returns. */
  lemma WaiterReturns(actions: seq<Action>, w: nat)
    requires var s := Run(START, actions);
             && w in s.waiters && Idle(s)
             && !(s.pc.NotifyingIdle? || s.pc.LeavingSettle? || s.pc.LeavingNotify?)
    ensures var s := Run(START, actions);
            s.waiters[w].Returned? || Run(s, [Resume(w), Check(w)]).waiters == s.waiters[w := Returned(!s.failed)]
  {
    hide Run, Inv;
    NoLostWake(actions);
    var s := Run(START, actions);
    RunTwo(s, Resume(w), Check(w));
    if !s.waiters[w].Returned? {
      assert s.waiters[w] != Waiting(false);
      assert s.waiters[w := Armed(false)][w := Returned(!s.failed)] == s.waiters[w := Returned(!s.failed)];
    }
  }

  /** A cancelled or disposed driver takes no further wake. */
  lemma {:induction false} RefusesWakes(s: State, actions: seq<Action>)
    requires s.cancelled || s.disposed
    ensures Run(s, actions).wakeRevision == s.wakeRevision && Run(s, actions).unnotified <= s.unnotified
    ensures Run(s, actions).cancelled || Run(s, actions).disposed
    decreases |actions|
  {
    if actions != [] {
      RefusesWake(s, actions[0]);
      hide Next;
      RefusesWakes(Next(s, actions[0]), actions[1..]);
    }
  }

  /** The flags and counters that only callers change. */
  predicate SameCallers(s: State, s': State) {
    && s'.wakeRevision == s.wakeRevision && s'.unnotified == s.unnotified
    && s'.cancelled == s.cancelled && s'.disposed == s.disposed
  }

  lemma WorkCallers(s: State)
    ensures SameCallers(s, Work(s))
  {
    WaitingCallers(s);
    ClaimingCallers(s);
    SettlingCallers(s);
    LeavingCallers(s);
    hide SameCallers, WorkWaiting, WorkClaiming, WorkSettling, WorkLeaving;
  }

  lemma WaitingCallers(s: State)
    ensures SameCallers(s, WorkWaiting(s))
  {
  }

  lemma ClaimingCallers(s: State)
    ensures SameCallers(s, WorkClaiming(s))
  {
  }

  lemma SettlingCallers(s: State)
    ensures SameCallers(s, WorkSettling(s))
  {
    hide NotifyWaiters;
  }

  lemma LeavingCallers(s: State)
    ensures SameCallers(s, WorkLeaving(s))
  {
    hide NotifyWaiters;
  }

  lemma RefusesWake(s: State, a: Action)
    requires s.cancelled || s.disposed
    ensures var s' := Next(s, a);
            s'.wakeRevision == s.wakeRevision && s'.unnotified <= s.unnotified && (s'.cancelled || s'.disposed)
  {
    hide Work, ClaimStep, CheckStep, NotifyWaiters;
    match a
    case Advance => WorkCallers(s);
    case ClaimReturns(outcome) => ClaimRefuses(s, outcome);
    case Check(w) => CheckRefuses(s, w);
    case _ =>
  }

  lemma ClaimRefuses(s: State, outcome: Claim)
    ensures SameCallers(s, ClaimStep(s, outcome))
  {
  }

  lemma CheckRefuses(s: State, w: nat)
    ensures SameCallers(s, CheckStep(s, w))
  {
  }

  ghost predicate LeftInv(s: State) {
    && (s.pc.LeavingSettle? || s.pc.LeavingNotify? || s.pc.Gone? ==> !s.running && (s.cancelled || s.disposed))
    && (s.pc.LeavingNotify? || s.pc.Gone? ==> s.settledRevision == s.wakeRevision)
    && (s.pc.Leaving? ==> s.cancelled || s.disposed)
  }

  lemma LeftStep(s: State, a: Action)
    requires LeftInv(s)
    ensures LeftInv(Next(s, a))
  {
    LeftWaiting(s);
    LeftClaiming(s);
    LeftSettling(s);
    LeftLeaving(s);
    hide NotifyWaiters, WorkWaiting, WorkClaiming, WorkSettling, WorkLeaving;
  }

  lemma LeftWaiting(s: State)
    requires LeftInv(s)
    ensures LeftInv(WorkWaiting(s))
  {
  }

  lemma LeftClaiming(s: State)
    requires LeftInv(s)
    ensures LeftInv(WorkClaiming(s))
  {
  }

  lemma LeftSettling(s: State)
    requires LeftInv(s)
    ensures LeftInv(WorkSettling(s))
  {
    hide NotifyWaiters;
  }

  lemma LeftLeaving(s: State)
    requires LeftInv(s)
    ensures LeftInv(WorkLeaving(s))
  {
    hide NotifyWaiters;
  }

  lemma {:induction false} LeftRun(s: State, actions: seq<Action>)
    requires LeftInv(s)
    ensures LeftInv(Run(s, actions))
    decreases |actions|
  {
    hide LeftInv, Next;
    if actions != [] {
      LeftStep(s, actions[0]);
      LeftRun(Next(s, actions[0]), actions[1..]);
    }
  }

  /** The next step of a cancelled worker on its way out. */
  function Outward(s: State): Action {
    match s.pc
    case Claiming(_) => ClaimReturns(Nothing)
    case InTurn => TurnReturns(true)
    case Parked => Interrupted
    case WantExecution => Interrupted
    case _ => Advance
  }

  function ToExit(pc: Pc): nat {
    match pc
    case InTurn => 12
    case Claiming(_) => 12
    case FoundNothing(_, _) => 11
    case FailedClaim => 11
    case Settling(_) => 10
    case RecordingFailure(_) => 10
    case ClearingRunning => 9
    case NotifyingIdle => 8
    case AtCancelCheck => 7
    case AtWakeCheck => 6
    case Parked => 6
    case AtStopCheck => 5
    case WantExecution => 5
    case Leaving => 4
    case LeavingSettle => 3
    case LeavingNotify => 2
    case Gone => 0
  }

  lemma OutwardCloser(s: State)
    requires s.cancelled && !s.pc.Gone?
    ensures Next(s, Outward(s)).cancelled && ToExit(Next(s, Outward(s)).pc) < ToExit(s.pc)
  {
    WorkCallers(s);
    OutwardWaits(s);
    OutwardSettles(s);
    OutwardLeaves(s);
    hide NotifyWaiters, WorkWaiting, WorkClaiming, WorkSettling, WorkLeaving;
  }

  lemma OutwardWaits(s: State)
    requires s.cancelled
    ensures s.pc.AtWakeCheck? || s.pc.AtStopCheck? ==> ToExit(WorkWaiting(s).pc) < ToExit(s.pc)
    ensures s.pc.AtCancelCheck? || s.pc.FoundNothing? || s.pc.FailedClaim? ==> ToExit(WorkClaiming(s).pc) < ToExit(s.pc)
  {
  }

  lemma OutwardSettles(s: State)
    ensures s.pc.Settling? || s.pc.ClearingRunning? || s.pc.NotifyingIdle? || s.pc.RecordingFailure? ==>
              ToExit(WorkSettling(s).pc) < ToExit(s.pc)
  {
    hide NotifyWaiters;
  }

  lemma OutwardLeaves(s: State)
    ensures s.pc.Leaving? || s.pc.LeavingSettle? || s.pc.LeavingNotify? ==> ToExit(WorkLeaving(s).pc) < ToExit(s.pc)
  {
    hide NotifyWaiters;
  }

  lemma {:induction false} Leaves(s: State) returns (actions: seq<Action>)
    requires LeftInv(s) && s.cancelled
    ensures Run(s, actions).pc.Gone? && LeftInv(Run(s, actions))
    decreases ToExit(s.pc)
  {
    hide LeftInv, Next;
    if s.pc.Gone? {
      actions := [];
    } else {
      OutwardCloser(s);
      LeftStep(s, Outward(s));
      var rest := Leaves(Next(s, Outward(s)));
      actions := [Outward(s)] + rest;
      assert actions[1..] == rest;
      Unroll(s, actions);
    }
  }

  /** In every run a cancelled worker can leave by its own steps. It is then idle for good, and every caller
      that waited has been notified. */
  lemma CancelledLeaves(before: seq<Action>) returns (after: seq<Action>)
    requires Run(START, before).cancelled
    ensures var s := Run(START, before + after);
            s.pc.Gone? && Idle(s) && NoneAsleep(s.waiters)
  {
    assert LeftInv(START);
    hide Run, Next, NoneAsleep;
    LeftRun(START, before);
    after := Leaves(Run(START, before));
    RunConcat(START, before, after);
    NoLostWake(before + after);
  }
}
