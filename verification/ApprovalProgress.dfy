/** What the approval coordinator does get done: signals stop what is undecided, a policy change takes
    effect, and every approval can be brought to an answer. */
module ApprovalProgress {
  import opened Approval

  // ---------------------------------------------------------------------
  // Cancellation and loss of authority
  // ---------------------------------------------------------------------

  /** Cancelled or without authority, and not allowed by a check before. */
  predicate Barred(s: System, k: nat) {
    && k in s.tasks && k < s.next
    && (s.tasks[k].cancelled || !s.live)
    && s.tasks[k].phase != Deciding(AllowedOnce) && s.tasks[k].phase != Returned(AllowedOnce)
  }

  lemma BarredAsk(s: System, j: nat, action: Action, k: nat)
    requires j in s.tasks && Barred(s, k)
    ensures Barred(AskStep(s, j, s.tasks[j], action), k)
  {
    hide ActiveTurn;
  }

  lemma BarredDecide(s: System, j: nat, action: Action, k: nat)
    requires j in s.tasks && Barred(s, k)
    ensures Barred(DecideStep(s, j, s.tasks[j], action), k)
  {
    hide ActiveTurn;
  }

  lemma BarredOther(s: System, action: Action, k: nat)
    requires Barred(s, k)
    ensures Barred(OtherStep(s, action), k)
  {
    hide ActiveTurn;
  }

  lemma BarredStep(s: System, action: Action, k: nat)
    requires Barred(s, k)
    ensures Barred(Next(s, action), k)
  {
    hide Barred, AskStep, DecideStep, OtherStep;
    match TaskOf(action) {
      case None => BarredOther(s, action, k);
      case Some(j) =>
        if j in s.tasks {
          BarredAsk(s, j, action, k);
          BarredDecide(s, j, action, k);
        }
    }
  }

  lemma {:induction false} BarredRun(s: System, actions: seq<Action>, k: nat)
    requires Barred(s, k)
    ensures Barred(Run(s, actions), k)
    decreases |actions|
  {
    hide Barred, Next;
    if actions != [] {
      BarredStep(s, actions[0], k);
      BarredRun(Next(s, actions[0]), actions[1..], k);
    }
  }

  /** Once an approval is cancelled, or authority is lost, before a check allowed it, no run allows it. */
  lemma SignalStops(s: System, signal: Action, k: nat, actions: seq<Action>)
    requires Inv(s) && k in s.tasks && (signal == CancelTask(k) || signal == LoseAuthority)
    requires s.tasks[k].phase != Deciding(AllowedOnce) && s.tasks[k].phase != Returned(AllowedOnce)
    ensures var z := Run(Next(s, signal), actions);
            k in z.tasks && z.tasks[k].phase != Deciding(AllowedOnce) && z.tasks[k].phase != Returned(AllowedOnce)
  {
    hide LogInv, ShapeInv, GateInv, SignalInv, GenerationInv, Run, Trace;
    assert Barred(Next(s, signal), k);
    BarredRun(Next(s, signal), actions, k);
  }

  // ---------------------------------------------------------------------
  // Changing the policy
  // ---------------------------------------------------------------------

  /** A change that is logged becomes the policy of the service and the one it would restore; one that
      cannot be logged leaves both as they were. The gate is free again either way. */
  lemma PolicyTakesEffect(s: System, policy: Policy)
    requires s.gate == Nobody && s.live
    ensures var z := Next(Next(Next(s, EnterSet(policy)), AppendPolicy(true)), StorePolicy);
            && z.policy == policy && LastPolicy(z.log) == policy && z.gate == Nobody
            && z == s.(policy := policy, log := s.log + [PolicySet(policy)])
    ensures Next(Next(s, EnterSet(policy)), AppendPolicy(false)) == s
  {
    FoldAppend(s.log, PolicySet(policy));
    hide LastPolicy;
  }

  // ---------------------------------------------------------------------
  // Every approval can be answered
  // ---------------------------------------------------------------------

  /** Steps left for an approval that nobody denies, with all its hooks and answerers. */
  function Left(t: Task): nat {
    var hooks := if t.phase.Hooks? && t.phase.ran <= t.hooks then t.hooks - t.phase.ran else t.hooks;
    var answerers := if t.phase.Answerers? && t.phase.declined <= t.answerers then t.answerers - t.phase.declined else t.answerers;
    match t.phase
    case WantAsk => 9
    case Asking => 7 + hooks + answerers
    case Recorded => 6 + hooks + answerers
    case Hooks(_) => 5 + hooks + answerers
    case Answerers(_) => 4 + answerers
    case WantDecide(_) => 2
    case Deciding(_) => 1
    case _ => 0
  }

  function Onward(k: nat, t: Task): Action {
    match t.phase
    case WantAsk => EnterAsk(k, 0, 0)
    case Asking => AppendAsked(k, true)
    case Recorded => BeginHooks(k)
    case Hooks(ran) => if ran < t.hooks then RunHook(k, false) else HooksDone(k)
    case Answerers(declined) => if declined < t.answerers then GetAnswer(k, Decline) else Exhausted(k)
    case WantDecide(_) => EnterDecide(k)
    case _ => AppendDecided(k, true)
  }

  predicate Final(t: Task) {
    t.phase.Returned? || t.phase.Dropped?
  }

  /** The gate is free for approval `k`, or it is inside. */
  predicate MayGoOn(s: System, k: nat) {
    && k in s.tasks
    && (s.gate == if InGate(s.tasks[k]) then Approver(k) else Nobody)
    && (s.tasks[k].phase.Hooks? ==> s.tasks[k].phase.ran <= s.tasks[k].hooks)
    && (s.tasks[k].phase.Answerers? ==> s.tasks[k].phase.declined <= s.tasks[k].answerers)
  }

  ghost predicate Nearer(s: System, s': System, k: nat)
    requires MayGoOn(s, k)
  {
    && MayGoOn(s', k) && Left(s'.tasks[k]) < Left(s.tasks[k])
    && !s'.tasks[k].phase.Dropped?
    && s'.tasks == s.tasks[k := s'.tasks[k]]
  }

  lemma OnwardLess(s: System, k: nat)
    requires MayGoOn(s, k) && !Final(s.tasks[k])
    ensures Nearer(s, Next(s, Onward(k, s.tasks[k])), k)
  {
    AskLess(s, k);
    AnswerLess(s, k);
    DecideLess(s, k);
    hide Nearer, MayGoOn, AskStep, DecideStep;
  }

  lemma AskLess(s: System, k: nat)
    requires MayGoOn(s, k)
    ensures var t := s.tasks[k];
            t.phase.WantAsk? || t.phase.Asking? || t.phase.Recorded? || t.phase.Hooks? ==>
              Nearer(s, AskStep(s, k, t, Onward(k, t)), k)
  {
    hide ActiveTurn;
  }

  lemma AnswerLess(s: System, k: nat)
    requires MayGoOn(s, k)
    ensures s.tasks[k].phase.Answerers? ==> Nearer(s, DecideStep(s, k, s.tasks[k], Onward(k, s.tasks[k])), k)
  {
    hide ActiveTurn;
  }

  lemma DecideLess(s: System, k: nat)
    requires MayGoOn(s, k)
    ensures var t := s.tasks[k];
            t.phase.WantDecide? || t.phase.Deciding? ==> Nearer(s, DecideStep(s, k, t, Onward(k, t)), k)
  {
    hide ActiveTurn;
  }

  lemma {:induction false} Answers(s: System, k: nat) returns (actions: seq<Action>)
    requires MayGoOn(s, k) && !s.tasks[k].phase.Dropped?
    ensures var z := Run(s, actions);
            && k in z.tasks && z.tasks[k].phase.Returned? && z.gate == Nobody
            && (forall j :: j in s.tasks && j != k ==> j in z.tasks && z.tasks[j] == s.tasks[j])
    decreases Left(s.tasks[k])
  {
    hide Next, Left;
    if s.tasks[k].phase.Returned? {
      actions := [];
    } else {
      OnwardLess(s, k);
      var rest := Answers(Next(s, Onward(k, s.tasks[k])), k);
      actions := [Onward(k, s.tasks[k])] + rest;
      assert actions[1..] == rest;
    }
  }

  /** In every run: whenever the gate is free, or this approval holds it, the approval can be brought to
      its answer by its own steps, and leaves the gate free and every other approval as it was. */
  lemma AlwaysAnswers(s: System, before: seq<Action>, k: nat) returns (after: seq<Action>)
    requires Init(s)
    requires var s' := Run(s, before); k in s'.tasks && !s'.tasks[k].phase.Dropped? && (s'.gate == Nobody || s'.gate == Approver(k))
    ensures var s', z := Run(s, before), Run(Run(s, before), after);
            && k in z.tasks && z.tasks[k].phase.Returned? && z.gate == Nobody
            && (forall j :: j in s'.tasks && j != k ==> j in z.tasks && z.tasks[j] == s'.tasks[j])
  {
    hide Run, Inv, Init;
    InitInv(s);
    InvRun(s, before);
    MayGoOnInv(Run(s, before), k);
    after := Answers(Run(s, before), k);
  }

  lemma MayGoOnInv(s: System, k: nat)
    requires Inv(s) && k in s.tasks && (s.gate == Nobody || s.gate == Approver(k))
    ensures MayGoOn(s, k)
  {
    hide LogInv, TraceInv, SignalInv, GenerationInv, Open, Closed, Allowed, Consulted;
    assert Shape(k, s.tasks[k]);
  }

  /** The caller is answered Rejected, with nothing logged and the gate free, when the asked event
      cannot be logged. */
  lemma AskFails(s: System, k: nat)
    requires k in s.tasks && s.tasks[k].phase.Asking?
    ensures var z := Next(s, AppendAsked(k, false));
            && k in z.tasks && z.tasks[k] == s.tasks[k].(phase := Returned(Rejected))
            && z.log == s.log && z.gate == Nobody && z.pending == s.pending
  {
  }

  /** When all answerers have declined, or there is none, nobody is available. */
  lemma AllDeclined(s: System, k: nat)
    requires k in s.tasks && s.tasks[k].phase == Answerers(s.tasks[k].answerers)
    ensures Next(s, Exhausted(k)) == s.(tasks := s.tasks[k := s.tasks[k].(phase := WantDecide(Unavailable))])
  {
  }
}
