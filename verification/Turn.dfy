/** One turn of the agent loop as a producer of session events: bounded steps, a
    generation loop with retries and one overflow recovery, and early exits whenever an
    append fails. Everything the loop does not decide itself (cancellation, the model,
    tools, compaction, other writers of the log) is chosen arbitrarily. */
module Turn {

  type u64 = x: int | 0 <= x <= 0xFFFF_FFFF_FFFF_FFFF

  const U64_MAX: u64 := 0xFFFF_FFFF_FFFF_FFFF

  datatype Option<+T> = None | Some(value: T)

  datatype Reason = Completed | MaxTokens | Blocked | GenerationError | Aborted

  /** Identifies the retries of one step under one provider policy. */
  datatype RetryKey = RetryKey(turn: u64, step: nat, provider: string, policyKey: string)

  datatype Event =
    | TurnStart(turn: u64)
    | StepStart(turn: u64, step: nat)
    | StepEnd(turn: u64, step: nat)
    | TurnEnd(turn: u64, reason: Reason)
    | Retry(key: RetryKey, retry: nat)
    | Other(kind: string)

  /** A normal retry policy: its key and its retry limit. */
  datatype Policy = Policy(key: string, maxRetries: nat)

  function KeyOf(turn: u64, step: nat, provider: string, policy: Option<Policy>): RetryKey {
    RetryKey(turn, step, provider, if policy.Some? then policy.value.key else "")
  }

  function Limit(policy: Option<Policy>): nat {
    if policy.Some? then policy.value.maxRetries else 0
  }

  predicate IsBracket(e: Event) {
    e.TurnStart? || e.StepStart? || e.StepEnd? || e.TurnEnd?
  }

  function Brackets(log: seq<Event>): seq<Event> {
    if log == [] then []
    else Brackets(log[..|log| - 1]) + if IsBracket(log[|log| - 1]) then [log[|log| - 1]] else []
  }

  /** The retry numbers recorded for `key`, in order. */
  function Retries(log: seq<Event>, key: RetryKey): seq<nat> {
    if log == [] then []
    else Retries(log[..|log| - 1], key)
         + (if log[|log| - 1].Retry? && log[|log| - 1].key == key then [log[|log| - 1].retry] else [])
  }

  function LastRetry(log: seq<Event>, key: RetryKey): nat {
    var rs := Retries(log, key);
    if rs == [] then 0 else rs[|rs| - 1]
  }

  lemma AppendOne(log: seq<Event>, e: Event, key: RetryKey)
    ensures Brackets(log + [e]) == Brackets(log) + if IsBracket(e) then [e] else []
    ensures Retries(log + [e], key) == Retries(log, key) + if e.Retry? && e.key == key then [e.retry] else []
  {
    assert (log + [e])[..|log|] == log;
  }

  // ---------------------------------------------------------------------
  // What a well-formed turn looks like
  // ---------------------------------------------------------------------

  /** Steps 1 to k, each opened and closed once, without nesting. */
  function Steps(turn: u64, k: nat): seq<Event> {
    if k == 0 then [] else Steps(turn, k - 1) + [StepStart(turn, k), StepEnd(turn, k)]
  }

  function Segment(turn: u64, k: nat, reason: Reason): seq<Event> {
    [TurnStart(turn)] + Steps(turn, k) + [TurnEnd(turn, reason)]
  }

  /** A turn left open by a failed append: some steps closed, perhaps one open. */
  ghost predicate OpenTurn(brackets: seq<Event>, turn: u64, maxSteps: nat) {
    || brackets == []
    || exists k :: 0 <= k <= maxSteps
         && (brackets == [TurnStart(turn)] + Steps(turn, k)
             || (k < maxSteps && brackets == [TurnStart(turn)] + Steps(turn, k) + [StepStart(turn, k + 1)]))
  }

  /** Consecutive numbers from + 1 .. from + n. */
  function Counting(from: nat, n: nat): seq<nat> {
    seq(n, i => from + 1 + i)
  }

  // ---------------------------------------------------------------------
  // Turn numbers
  // ---------------------------------------------------------------------

  function MaxTurn(log: seq<Event>): u64 {
    if log == [] then 0
    else
      var rest := MaxTurn(log[..|log| - 1]);
      var e := log[|log| - 1];
      if e.TurnStart? && e.turn > rest then e.turn else rest
  }

  function NextTurn(log: seq<Event>): u64 {
    if MaxTurn(log) == U64_MAX then U64_MAX else MaxTurn(log) + 1
  }

  lemma {:induction false} MaxTurnBounds(log: seq<Event>)
    ensures forall i :: 0 <= i < |log| && log[i].TurnStart? ==> log[i].turn <= MaxTurn(log)
    ensures MaxTurn(log) > 0 ==> exists i :: 0 <= i < |log| && log[i] == TurnStart(MaxTurn(log))
  {
    if log != [] {
      MaxTurnBounds(log[..|log| - 1]);
      var e := log[|log| - 1];
      if MaxTurn(log) > 0 {
        if !(e.TurnStart? && e.turn > MaxTurn(log[..|log| - 1])) {
          var i :| 0 <= i < |log| - 1 && log[..|log| - 1][i] == TurnStart(MaxTurn(log));
          assert log[i] == TurnStart(MaxTurn(log));
        } else {
          assert log[|log| - 1] == TurnStart(MaxTurn(log));
        }
      }
    }
  }

  /** The next turn number exceeds every earlier one exactly when the last possible
      number has not been used: the increment saturates. */
  lemma NextTurnIsNew(log: seq<Event>)
    ensures (forall i :: 0 <= i < |log| && log[i].TurnStart? ==> log[i].turn < NextTurn(log))
        <==> TurnStart(U64_MAX) !in log
  {
    MaxTurnBounds(log);
    if MaxTurn(log) == U64_MAX {
      var i :| 0 <= i < |log| && log[i] == TurnStart(MaxTurn(log));
    }
  }

  datatype Finish = Stop | ToolCalls | OutOfTokens

  /** A failed generation, as the retry policy and the overflow recovery see it. */
  datatype Failure = Failure(permitted: bool, delayTooLong: bool, overflow: bool)

  datatype Compaction = Shrunk | NothingToDrop | Broke

  /** What one attempt gets from the provider, and from the compactor if it is asked. `thrown`
      says that the failure came as an error and not as the finish of a message. */
  datatype Served =
    | Reply(finish: Finish)
    | ModelStops
    | Fails(failure: Failure, thrown: bool, compaction: Compaction)

  /** Why a step closed. */
  datatype Cause =
    | CancelSeen
    | ModelAborted
    | CompactionFailed
    | GaveUp(failure: Failure)
    | Replied(finish: Finish, queued: bool)

  datatype Attempted = Ended(ending: Generated) | Recovered | Retryable(failure: Failure)

  lemma CountingNone(from: nat)
    ensures Counting(from, 0) == []
  {
  }

  lemma CountingMore(from: nat, n: nat)
    ensures Counting(from, n + 1) == Counting(from, n) + [from + n + 1]
  {
  }

  /** How the generation loop of one step ended. */
  datatype Generated =
    | Message(finish: Finish)
    | Unanswered(why: Cause)
    | AppendFailed

  predicate Recoverable(served: Served) {
    served.Fails? && served.failure.overflow && served.compaction == Shrunk
  }

  /** One attempt, unless an append failed before it: a reply or the model's abort ends it, and a
      failure leads to the overflow recovery if that is still open, or else may be retried. */
  predicate AttemptMeans(r: Attempted, recovered: bool, served: Served) {
    || r == Ended(AppendFailed)
    || match served
       case Reply(finish) => r == Ended(Message(finish))
       case ModelStops => r == Ended(Unanswered(ModelAborted))
       case Fails(failure, thrown, compaction) =>
         || (thrown && r == Ended(Unanswered(CancelSeen)))
         || (if recovered || !failure.overflow || compaction == NothingToDrop then r == Retryable(failure)
             else if compaction == Broke then r == Ended(Unanswered(CompactionFailed))
             else r == Recovered)
  }

  /** How the generation loop ended, read off its last attempt. It gives up on a failure only if
      the policy, its limit or the delay allows no further retry. */
  ghost predicate GeneratedMeans(r: Generated, served: nat -> Served, last: nat, prior: nat, policy: Option<Policy>) {
    match r
    case AppendFailed => true
    case Message(finish) => served(last) == Reply(finish)
    case Unanswered(CancelSeen) => served(last).Fails?
    case Unanswered(ModelAborted) => served(last) == ModelStops
    case Unanswered(CompactionFailed) =>
      served(last).Fails? && served(last).failure.overflow && served(last).compaction == Broke
    case Unanswered(GaveUp(failure)) =>
      && served(last).Fails? && served(last).failure == failure
      && (policy.None? || !failure.permitted || failure.delayTooLong || prior >= policy.value.maxRetries)
    case Unanswered(Replied(_, _)) => false
  }

  ghost predicate AllFailed(served: nat -> Served, n: nat) {
    forall i :: 0 <= i < n ==> served(i).Fails?
  }

  /** One of the first `n` attempts was an overflow that compaction could help. */
  ghost predicate OneRecovers(served: nat -> Served, n: nat) {
    exists i :: 0 <= i < n && Recoverable(served(i))
  }

  lemma NoneFailed(served: nat -> Served)
    ensures AllFailed(served, 0) && !OneRecovers(served, 0)
  {
  }

  lemma OneMoreFailed(served: nat -> Served, n: nat)
    ensures AllFailed(served, n + 1) <==> AllFailed(served, n) && served(n).Fails?
    ensures OneRecovers(served, n + 1) <==> OneRecovers(served, n) || Recoverable(served(n))
  {
    hide Recoverable;
    if OneRecovers(served, n + 1) {
      var i :| 0 <= i < n + 1 && Recoverable(served(i));
    }
  }

  lemma AttemptFacts(r: Attempted, recovered: bool, served: Served)
    requires AttemptMeans(r, recovered, served)
    ensures r.Recovered? ==> !recovered && Recoverable(served)
    ensures r.Retryable? ==> served.Fails? && served.failure == r.failure
    ensures r.Retryable? && !recovered ==> !Recoverable(served)
    ensures r == Recovered || r.Retryable? ==> served.Fails?
    ensures r.Ended? && r.ending.Message? ==> served == Reply(r.ending.finish)
    ensures r.Ended? && r.ending.Unanswered? ==>
              match r.ending.why
              case CancelSeen => served.Fails?
              case ModelAborted => served == ModelStops
              case CompactionFailed => served.Fails? && served.failure.overflow && served.compaction == Broke
              case _ => false
  {
  }

  datatype Outcome =
    | Skipped                                               // cancelled before it began
    | Finished(turn: u64, steps: nat, reason: Reason, exhausted: bool)
    | Broken(turn: u64)                                     // an append or claim failed

  /** How one step of a turn ended. */
  datatype StepResult =
    | StepDone(why: Cause)                     // closed, the turn goes on
    | TurnEnded(reason: Reason, why: Cause)    // closed, and the turn ended
    | StepBroken                               // an append or claim failed

  /** The replies after which a turn takes another step, unless it has reached the last one. */
  predicate GoesOn(why: Cause) {
    why.Replied? && (why.finish == ToolCalls || (why.finish == Stop && why.queued))
  }

  /** How an agent that is not cancelled ends a turn after a step closed for `why`. */
  predicate EndsAs(reason: Reason, why: Cause, last: bool) {
    match why
    case CancelSeen => false
    case ModelAborted => reason == Aborted
    case CompactionFailed => reason == GenerationError
    case GaveUp(_) => reason == GenerationError
    case Replied(OutOfTokens, _) => reason == MaxTokens
    case Replied(ToolCalls, _) => reason == Blocked && last
    case Replied(Stop, queued) => if queued then reason == Blocked && last else reason == Completed
  }

  /** What the provider sent in a step that closed for `why`. */
  ghost predicate Answers(why: Cause, served: nat -> Served, queued: bool) {
    match why
    case Replied(finish, q) => q == queued && exists k :: RepliedAt(served, k, finish)
    case ModelAborted => exists k: nat :: served(k) == ModelStops
    case GaveUp(failure) => exists k: nat :: served(k).Fails? && served(k).failure == failure
    case _ => true
  }

  /** Attempt `k` replied, after nothing but failures. */
  ghost predicate RepliedAt(served: nat -> Served, k: nat, finish: Finish) {
    served(k) == Reply(finish) && forall i :: 0 <= i < k ==> served(i).Fails?
  }

  ghost predicate StepMeans(r: StepResult, step: nat, maxSteps: nat, served: nat -> Served, queued: bool, cancelled: bool) {
    match r
    case StepDone(why) => GoesOn(why) && step != maxSteps && !cancelled && Answers(why, served, queued)
    case TurnEnded(reason, why) =>
      && (if cancelled then reason == Aborted else EndsAs(reason, why, step == maxSteps))
      && Answers(why, served, queued)
    case StepBroken => true
  }

  /** The causes of the steps of a finished turn: all but the last let it go on, and the last, or a
      cancellation, gives the reason it ended with. */
  ghost predicate TurnMeans(r: Outcome, whys: seq<Cause>, maxSteps: nat, cancelled: bool)
    requires r.Finished?
  {
    && |whys| == r.steps <= maxSteps
    && (|whys| > 0 ==> AllGoOn(whys[..|whys| - 1]))
    && (if cancelled then r.reason == Aborted
        else if maxSteps == 0 then r.reason == Blocked
        else r.steps > 0 && EndsAs(r.reason, whys[r.steps - 1], r.steps == maxSteps))
  }

  ghost predicate AllGoOn(whys: seq<Cause>) {
    forall i :: 0 <= i < |whys| ==> GoesOn(whys[i])
  }

  ghost predicate AllAnswer(whys: seq<Cause>, served: (nat, nat) -> Served, queued: nat -> bool) {
    forall i :: 0 <= i < |whys| ==> Answers(whys[i], (k: nat) => served(i + 1, k), queued(i + 1))
  }

  ghost predicate StepShape(r: StepResult, turn: u64, step: nat, maxSteps: nat, before: seq<Event>, after: seq<Event>) {
    match r
    case StepDone(_) => after == before + [StepStart(turn, step), StepEnd(turn, step)] && step != maxSteps
    case TurnEnded(reason, _) => after == before + [StepStart(turn, step), StepEnd(turn, step), TurnEnd(turn, reason)]
    case StepBroken =>
      || after == before || after == before + [StepStart(turn, step)]
      || after == before + [StepStart(turn, step), StepEnd(turn, step)]
  }

  lemma NoneYet(served: (nat, nat) -> Served, queued: nat -> bool)
    ensures AllGoOn([]) && AllAnswer([], served, queued)
  {
  }

  /** A step that closed, after steps that all let the turn go on. */
  lemma StepEnds(
    r: StepResult, step: nat, maxSteps: nat, whys: seq<Cause>, served: (nat, nat) -> Served, queued: nat -> bool, cancelled: bool)
    requires StepMeans(r, step, maxSteps, (k: nat) => served(step, k), queued(step), cancelled) && !r.StepBroken?
    requires 1 <= step <= maxSteps && |whys| == step - 1 && AllGoOn(whys) && AllAnswer(whys, served, queued)
    ensures AllAnswer(whys + [r.why], served, queued)
    ensures r.StepDone? ==> AllGoOn(whys + [r.why])
    ensures r.TurnEnded? ==> forall turn :: TurnMeans(Finished(turn, step, r.reason, false), whys + [r.why], maxSteps, cancelled)
  {
    hide Answers, EndsAs;
    assert (whys + [r.why])[..|whys|] == whys;
  }

  /** A turn that ends between two steps: cancelled, or without any step allowed. */
  lemma EarlyEnd(r: Outcome, whys: seq<Cause>, maxSteps: nat, cancelled: bool)
    requires r.Finished? && |whys| == r.steps <= maxSteps && AllGoOn(whys)
    requires r.reason == (if cancelled then Aborted else Blocked) && (!cancelled ==> maxSteps == 0)
    ensures TurnMeans(r, whys, maxSteps, cancelled)
  {
  }

  lemma CauseAnswers(why: Cause, served: nat -> Served, queued: bool, k: nat)
    requires match why
             case Replied(finish, q) => q == queued && RepliedAt(served, k, finish)
             case ModelAborted => served(k) == ModelStops
             case GaveUp(failure) => served(k).Fails? && served(k).failure == failure
             case _ => true
    ensures Answers(why, served, queued)
  {
  }

  /** New retry numbers continue the old ones without a gap, up to the limit. */
  ghost predicate NumberedFrom(before: seq<nat>, after: seq<nat>, limit: nat) {
    var last := if before == [] then 0 else before[|before| - 1];
    exists n: nat {:trigger Counting(last, n)} :: after == before + Counting(last, n) && (n > 0 ==> last + n <= limit)
  }

  lemma NumberedBy(before: seq<nat>, after: seq<nat>, n: nat, limit: nat)
    requires var last := if before == [] then 0 else before[|before| - 1];
             after == before + Counting(last, n) && (n > 0 ==> last + n <= limit)
    ensures NumberedFrom(before, after, limit)
  {
  }

  lemma NumberedBy0(rs: seq<nat>, limit: nat)
    ensures NumberedFrom(rs, rs, limit)
  {
    var last := if rs == [] then 0 else rs[|rs| - 1];
    assert rs == rs + Counting(last, 0);
  }

  ghost predicate SameRetries(a: seq<Event>, b: seq<Event>) {
    forall key :: Retries(a, key) == Retries(b, key)
  }

  lemma SameRetriesRefl(a: seq<Event>)
    ensures SameRetries(a, a)
  {
  }

  /** One step numbers the retries of its own key on, and touches no other. */
  ghost predicate StepRetries(a: seq<Event>, b: seq<Event>, key: RetryKey, limit: nat) {
    && NumberedFrom(Retries(a, key), Retries(b, key), limit)
    && forall other :: other != key ==> Retries(b, other) == Retries(a, other)
  }

  /** A turn that has reached step `from`: numbered on per step, later steps untouched. */
  ghost predicate TurnRetries(a: seq<Event>, b: seq<Event>, turn: u64, from: nat, provider: string, policy: Option<Policy>) {
    && (forall n :: NumberedFrom(Retries(a, KeyOf(turn, n, provider, policy)), Retries(b, KeyOf(turn, n, provider, policy)), Limit(policy)))
    && (from > 0 ==> forall n :: n >= from ==>
          Retries(b, KeyOf(turn, n, provider, policy)) == Retries(a, KeyOf(turn, n, provider, policy)))
    && (forall key: RetryKey :: key.turn != turn ==> Retries(b, key) == Retries(a, key))
  }

  lemma TurnRetriesStart(a: seq<Event>, b: seq<Event>, turn: u64, provider: string, policy: Option<Policy>)
    requires SameRetries(a, b)
    ensures TurnRetries(a, b, turn, 1, provider, policy) && TurnRetries(a, b, turn, 0, provider, policy)
  {
    hide Retries, NumberedFrom;
    forall n ensures NumberedFrom(Retries(a, KeyOf(turn, n, provider, policy)), Retries(b, KeyOf(turn, n, provider, policy)), Limit(policy)) {
      NumberedBy0(Retries(a, KeyOf(turn, n, provider, policy)), Limit(policy));
    }
  }

  lemma TurnRetriesQuiet(a: seq<Event>, b: seq<Event>, c: seq<Event>, turn: u64, from: nat, provider: string, policy: Option<Policy>)
    requires TurnRetries(a, b, turn, from, provider, policy) && SameRetries(b, c)
    ensures TurnRetries(a, c, turn, from, provider, policy) && TurnRetries(a, c, turn, 0, provider, policy)
  {
    hide Retries, NumberedFrom;
  }

  lemma TurnRetriesStep(a: seq<Event>, b: seq<Event>, c: seq<Event>, turn: u64, step: nat, provider: string, policy: Option<Policy>)
    requires step > 0 && TurnRetries(a, b, turn, step, provider, policy)
    requires StepRetries(b, c, KeyOf(turn, step, provider, policy), Limit(policy))
    ensures TurnRetries(a, c, turn, step + 1, provider, policy) && TurnRetries(a, c, turn, 0, provider, policy)
  {
    hide Retries, NumberedFrom;
  }

  /** The brackets a turn adds begin with its start, unless it never appended it. */
  ghost predicate Opened(before: seq<Event>, after: seq<Event>, turn: u64) {
    |before| <= |after| && after[..|before|] == before && (|after| > |before| ==> after[|before|] == TurnStart(turn))
  }

  lemma StepExtends(before: seq<Event>, turn: u64, step: nat)
    requires step >= 1
    ensures before + ([TurnStart(turn)] + Steps(turn, step - 1)) + [StepStart(turn, step), StepEnd(turn, step)]
         == before + ([TurnStart(turn)] + Steps(turn, step))
  {
  }

  lemma SegmentEnds(before: seq<Event>, turn: u64, k: nat, reason: Reason)
    ensures before + ([TurnStart(turn)] + Steps(turn, k)) + [TurnEnd(turn, reason)] == before + Segment(turn, k, reason)
    ensures k > 0 ==>
      before + ([TurnStart(turn)] + Steps(turn, k - 1)) + [StepStart(turn, k), StepEnd(turn, k), TurnEnd(turn, reason)]
      == before + Segment(turn, k, reason)
    ensures Opened(before, before + Segment(turn, k, reason), turn) && Segment(turn, k, reason) != []
  {
    hide Steps;
    if k > 0 { StepsUnroll(turn, k); }
  }

  lemma NoSteps()
    ensures forall turn :: Steps(turn, 0) == []
  {
  }

  lemma StepsUnroll(turn: u64, k: nat)
    requires k > 0
    ensures Steps(turn, k) == Steps(turn, k - 1) + [StepStart(turn, k), StepEnd(turn, k)]
  {
  }

  lemma BrokenTurn(before: seq<Event>, open: seq<Event>, turn: u64, maxSteps: nat, k: nat)
    requires open == [] || (k <= maxSteps && open == [TurnStart(turn)] + Steps(turn, k))
    ensures (before + open)[..|before|] == before && OpenTurn((before + open)[|before|..], turn, maxSteps)
    ensures Opened(before, before + open, turn)
  {
    assert (before + open)[|before|..] == open;
  }

  lemma StepOutcomes(r: StepResult, turn: u64, step: nat, maxSteps: nat, before: seq<Event>, after: seq<Event>)
    requires StepShape(r, turn, step, maxSteps, before, after)
    ensures r.StepDone? ==> after == before + [StepStart(turn, step), StepEnd(turn, step)] && step != maxSteps
    ensures r.TurnEnded? ==> after == before + [StepStart(turn, step), StepEnd(turn, step), TurnEnd(turn, r.reason)]
  {
  }

  lemma BrokenStep(before: seq<Event>, after: seq<Event>, turn: u64, step: nat, maxSteps: nat)
    requires 1 <= step <= maxSteps
    requires StepShape(StepBroken, turn, step, maxSteps, before + ([TurnStart(turn)] + Steps(turn, step - 1)), after)
    ensures |after| > |before| && after[..|before|] == before && OpenTurn(after[|before|..], turn, maxSteps)
    ensures Opened(before, after, turn)
  {
    hide Steps;
    StepsUnroll(turn, step);
    var open := [TurnStart(turn)] + Steps(turn, step - 1);
    if after == before + open {
      BrokenTurn(before, open, turn, maxSteps, step - 1);
    } else if after == before + open + [StepStart(turn, step)] {
      assert after[|before|..] == [TurnStart(turn)] + Steps(turn, step - 1) + [StepStart(turn, step - 1 + 1)];
    } else {
      assert after == before + ([TurnStart(turn)] + Steps(turn, step));
      BrokenTurn(before, [TurnStart(turn)] + Steps(turn, step), turn, maxSteps, step);
    }
  }

  ghost predicate OneToN(rs: seq<nat>, limit: nat) {
    |rs| <= limit && forall i :: 0 <= i < |rs| ==> rs[i] == i + 1
  }

  lemma FreshNumbering(rs: seq<nat>, limit: nat)
    requires NumberedFrom([], rs, limit)
    ensures OneToN(rs, limit)
  {
    var n: nat :| rs == [] + Counting(0, n) && (n > 0 ==> n <= limit);
    assert rs == Counting(0, n);
  }

  /** Every recorded retry belongs to a turn that was started. */
  ghost predicate RetriesStarted(log: seq<Event>) {
    forall key: RetryKey :: Retries(log, key) != [] ==> TurnStart(key.turn) in Brackets(log)
  }

  lemma {:induction false} BracketsInLog(log: seq<Event>, e: Event)
    requires e in Brackets(log)
    ensures e in log
  {
    if log != [] && e in Brackets(log[..|log| - 1]) {
      BracketsInLog(log[..|log| - 1], e);
    }
  }

  /** A turn number that was never started has no retries yet. */
  lemma NoEarlierRetries(log: seq<Event>, key: RetryKey)
    requires RetriesStarted(log) && key.turn == NextTurn(log) && TurnStart(U64_MAX) !in log
    ensures Retries(log, key) == []
  {
    NextTurnIsNew(log);
    if TurnStart(key.turn) in Brackets(log) {
      BracketsInLog(log, TurnStart(key.turn));
    }
  }

  lemma StartedKept(before: seq<Event>, after: seq<Event>, turn: u64)
    requires RetriesStarted(before) && Opened(Brackets(before), Brackets(after), turn)
    requires forall key: RetryKey :: key.turn != turn ==> Retries(after, key) == Retries(before, key)
    requires Brackets(after) == Brackets(before) ==> SameRetries(before, after)
    ensures RetriesStarted(after)
  {
    hide Brackets, Retries;
    var b, c := Brackets(before), Brackets(after);
    forall key: RetryKey | Retries(after, key) != [] ensures TurnStart(key.turn) in c {
      if key.turn != turn || c == b {
        assert TurnStart(key.turn) in b;
        var i :| 0 <= i < |b| && b[i] == TurnStart(key.turn);
        assert c[..|b|][i] == c[i];
      } else {
        assert c == b + c[|b|..];
        assert c[|b|] in c;
      }
    }
  }

  class Session {
    var log: seq<Event>
    var cancelled: bool

    constructor ()
      ensures log == [] && !cancelled
    {
      log, cancelled := [], false;
    }

    /** Other writers of this session append their own events at any time. */
    method OthersAppend()
      modifies this`log
      ensures old(log) <= log
      ensures Brackets(log) == old(Brackets(log))
      ensures SameRetries(old(log), log)
    {
      var kinds: seq<string> := *;
      for i := 0 to |kinds|
        invariant old(log) <= log
        invariant Brackets(log) == old(Brackets(log))
        invariant SameRetries(old(log), log)
      {
        forall key ensures Retries(log + [Other(kinds[i])], key) == Retries(log, key) {
          AppendOne(log, Other(kinds[i]), key);
        }
        AppendOne(log, Other(kinds[i]), RetryKey(0, 0, "", ""));
        log := log + [Other(kinds[i])];
      }
    }

    /** One durable append: it may fail, and others may have appended before it. */
    method Append(e: Event) returns (ok: bool)
      modifies this`log
      ensures old(log) <= log
      ensures Brackets(log) == if ok && IsBracket(e) then old(Brackets(log)) + [e] else old(Brackets(log))
      ensures !(ok && e.Retry?) ==> SameRetries(old(log), log)
      ensures forall key ::
                Retries(log, key) == if ok && e.Retry? && e.key == key then old(Retries(log, key)) + [e.retry] else old(Retries(log, key))
    {
      OthersAppend();
      ok := *;
      if ok {
        forall key ensures Retries(log + [e], key) == Retries(log, key) + if e.Retry? && e.key == key then [e.retry] else [] {
          AppendOne(log, e, key);
        }
        AppendOne(log, e, RetryKey(0, 0, "", ""));
        log := log + [e];
      }
    }

    /** Whether the agent is cancelled by now; once it is, it stays so. */
    method IsCancelled() returns (c: bool)
      modifies this`cancelled
      ensures c == cancelled && (old(cancelled) ==> cancelled)
    {
      var now: bool := *;
      cancelled := cancelled || now;
      c := cancelled;
    }

    /** Claims, messages, context, compaction, tool runs: any number of events that are
        neither brackets nor retries, with an error as a possible result. */
    method Work() returns (ok: bool)
      modifies this`log
      ensures old(log) <= log
      ensures Brackets(log) == old(Brackets(log))
      ensures SameRetries(old(log), log)
    {
      OthersAppend();
      ok := *;
    }

    /** The retry number recorded last for `key`, found by scanning backwards. */
    method PriorRetry(key: RetryKey) returns (n: nat)
      ensures n == LastRetry(log, key)
    {
      var i := |log|;
      assert log[..i] == log;
      while i > 0
        invariant 0 <= i <= |log|
        invariant Retries(log, key) == Retries(log[..i], key)
      {
        i := i - 1;
        assert log[..i + 1][..i] == log[..i];
        if log[i].Retry? && log[i].key == key { return log[i].retry; }
      }
      assert log[..0] == [];
      n := 0;
    }

    /** Decides on one more attempt and records it. `again` is false when the policy,
        the failure, the delay or a cancellation rules it out. */
    method ScheduleRetry(key: RetryKey, policy: Option<Policy>, failure: Failure) returns (ok: bool, again: bool)
      modifies this
      ensures old(log) <= log && (old(cancelled) ==> cancelled)
      ensures Brackets(log) == old(Brackets(log))
      ensures Retries(log, key) == old(Retries(log, key))
           || (policy.Some? && old(LastRetry(log, key)) < policy.value.maxRetries
               && Retries(log, key) == old(Retries(log, key)) + [old(LastRetry(log, key)) + 1])
      ensures ok && again ==> Retries(log, key) != old(Retries(log, key))
      ensures forall other :: other != key ==> Retries(log, other) == old(Retries(log, other))
      ensures var allowed :=
                policy.Some? && failure.permitted && old(LastRetry(log, key)) < policy.value.maxRetries && !failure.delayTooLong;
              && (ok ==> (again <==> allowed && !cancelled))
              && (!allowed ==> ok && SameRetries(old(log), log))
    {
      SameRetriesRefl(log);
      if policy.None? { return true, false; }
      var stop := IsCancelled();
      if stop || !failure.permitted { return true, false; }
      var prior := PriorRetry(key);
      if prior >= policy.value.maxRetries { return true, false; }
      if failure.delayTooLong { return true, false; }
      ok := Append(Retry(key, prior + 1));
      if !ok { return false, false; }
      stop := IsCancelled();
      if stop { return true, false; }
      stop := IsCancelled();             // after the delay
      if stop { return true, false; }
      ok := Append(Other("llm/retry-started"));
      if !ok { return false, false; }
      stop := IsCancelled();
      again := !stop;
    }

    /** One generation attempt, streamed into the log, with the overflow recovery it
        may lead to. */
    method Attempt(first: bool, recovered: bool, served: Served) returns (r: Attempted)
      modifies this
      ensures old(log) <= log && (old(cancelled) ==> cancelled)
      ensures Brackets(log) == old(Brackets(log))
      ensures SameRetries(old(log), log)
      ensures r == Ended(AppendFailed) ==> !first
      ensures r == Ended(Unanswered(CancelSeen)) ==> cancelled
      ensures AttemptMeans(r, recovered, served)
    {
      if !first {
        var ok := Work();                          // refreshed runtime context
        if !ok { return Ended(AppendFailed); }
      }
      var _ := Work();                             // chunks; a failed append is a thrown failure
      match served {
        case Reply(finish) => return Ended(Message(finish));
        case ModelStops => return Ended(Unanswered(ModelAborted));
        case Fails(failure, thrown, compaction) =>
          if thrown {
            var stopped := IsCancelled();
            if stopped { return Ended(Unanswered(CancelSeen)); }
          }
          if !recovered && failure.overflow {
            if compaction == Broke { return Ended(Unanswered(CompactionFailed)); }
            if compaction == Shrunk { return Recovered; }
          }
          r := Retryable(failure);
      }
    }

    /** The generation loop of one step: at most one overflow recovery, and every retry
        recorded under the next number, up to the policy's limit. */
    method Generate(key: RetryKey, policy: Option<Policy>, served: nat -> Served)
      returns (r: Generated, attempts: nat, recoveries: nat, ghost retries: nat)
      modifies this
      ensures old(log) <= log && (old(cancelled) ==> cancelled)
      ensures Brackets(log) == old(Brackets(log))
      ensures Retries(log, key) == old(Retries(log, key)) + Counting(old(LastRetry(log, key)), retries)
      ensures retries > 0 ==> policy.Some? && old(LastRetry(log, key)) + retries <= policy.value.maxRetries
      ensures recoveries <= 1 && attempts <= retries + recoveries + 1
      ensures old(Retries(log, key)) == [] ==> attempts <= (if policy.Some? then policy.value.maxRetries else 0) + 2
      ensures forall other :: other != key ==> Retries(log, other) == old(Retries(log, other))
      ensures r == Unanswered(CancelSeen) ==> cancelled
      ensures attempts > 0 && GeneratedMeans(r, served, attempts - 1, LastRetry(log, key), policy)
      ensures r.Message? ==> attempts == retries + recoveries + 1
      ensures AllFailed(served, attempts - 1)
      ensures if r.AppendFailed? then recoveries == 1 ==> OneRecovers(served, attempts)
              else recoveries == 1 <==> OneRecovers(served, attempts - 1)
    {
      hide Retries, Brackets, Counting, Recoverable, AttemptMeans, AllFailed, OneRecovers;
      attempts, recoveries, retries := 0, 0, 0;
      ghost var prior := LastRetry(log, key);
      ghost var limit := if policy.Some? then policy.value.maxRetries else 0;
      CountingNone(prior);
      NoneFailed(served);
      while true
        invariant old(log) <= log && (old(cancelled) ==> cancelled)
        invariant Brackets(log) == old(Brackets(log))
        invariant Retries(log, key) == old(Retries(log, key)) + Counting(prior, retries)
        invariant retries > 0 ==> policy.Some? && prior + retries <= limit
        invariant recoveries <= 1 && attempts == retries + recoveries
        invariant forall other :: other != key ==> Retries(log, other) == old(Retries(log, other))
        invariant AllFailed(served, attempts) && (recoveries == 1 <==> OneRecovers(served, attempts))
        decreases (if prior + retries <= limit then limit - prior - retries + 1 else 0) + 1 - recoveries
      {
        var attempt := Attempt(attempts == 0, recoveries == 1, served(attempts));
        AttemptFacts(attempt, recoveries == 1, served(attempts));
        OneMoreFailed(served, attempts);
        attempts := attempts + 1;
        match attempt {
          case Ended(ending) =>
            r := ending;
            return;
          case Recovered => recoveries := 1;
          case Retryable(failure) =>
            LastOfCounting(log, key, old(Retries(log, key)), prior, retries);
            ghost var before := Retries(log, key);
            var ok, again := ScheduleRetry(key, policy, failure);
            CountingMore(prior, retries);
            if Retries(log, key) != before { retries := retries + 1; }
            if !ok { return AppendFailed, attempts, recoveries, retries; }
            if !again {
              var stopped := IsCancelled();
              r := Unanswered(if stopped then CancelSeen else GaveUp(failure));
              return;
            }
        }
      }
      r := AppendFailed;
    }

    method EndTurn(turn: u64, reason: Reason) returns (r: Option<Reason>)
      modifies this
      ensures old(log) <= log && (old(cancelled) ==> cancelled)
      ensures Brackets(log) == if r.Some? then old(Brackets(log)) + [TurnEnd(turn, r.value)] else old(Brackets(log))
      ensures r.Some? ==> r.value == if cancelled then Aborted else reason
      ensures SameRetries(old(log), log)
    {
      hide Brackets, Retries;
      var stopped := IsCancelled();
      var recorded := if stopped then Aborted else reason;
      var ok := Append(TurnEnd(turn, recorded));
      r := if ok then Some(recorded) else None;
    }

    /** Closes the open step and ends the turn. */
    method CloseAndEnd(turn: u64, step: nat, reason: Reason, why: Cause) returns (r: StepResult)
      modifies this
      ensures old(log) <= log && (old(cancelled) ==> cancelled)
      ensures r.StepBroken? || r == TurnEnded(if cancelled then Aborted else reason, why)
      ensures r.TurnEnded? ==> Brackets(log) == old(Brackets(log)) + [StepEnd(turn, step), TurnEnd(turn, r.reason)]
      ensures r.StepBroken? ==> Brackets(log) == old(Brackets(log)) || Brackets(log) == old(Brackets(log)) + [StepEnd(turn, step)]
      ensures SameRetries(old(log), log)
    {
      hide Brackets, Retries;
      var ok := Append(StepEnd(turn, step));
      if !ok { return StepBroken; }
      var ended := EndTurn(turn, reason);
      r := if ended.Some? then TurnEnded(ended.value, why) else StepBroken;
    }

    /** What follows a complete assistant message; `queued` says whether next-step messages wait. */
    method AfterMessage(turn: u64, step: nat, maxSteps: nat, finish: Finish, queued: bool) returns (r: StepResult)
      modifies this
      ensures old(log) <= log && (old(cancelled) ==> cancelled)
      ensures r.StepDone? ==>
                && r.why == Replied(finish, queued) && !cancelled && step != maxSteps
                && (finish == ToolCalls || (finish == Stop && queued))
      ensures r.TurnEnded? ==>
                && r.why == Replied(finish, queued)
                && (if cancelled then r.reason == Aborted else EndsAs(r.reason, Replied(finish, queued), step == maxSteps))
      ensures r.StepDone? ==> Brackets(log) == old(Brackets(log)) + [StepEnd(turn, step)]
      ensures r.TurnEnded? ==> Brackets(log) == old(Brackets(log)) + [StepEnd(turn, step), TurnEnd(turn, r.reason)]
      ensures r.StepBroken? ==> Brackets(log) == old(Brackets(log)) || Brackets(log) == old(Brackets(log)) + [StepEnd(turn, step)]
      ensures SameRetries(old(log), log)
    {
      hide Brackets, Retries;
      if finish == OutOfTokens {
        r := CloseAndEnd(turn, step, MaxTokens, Replied(finish, queued));
        return;
      }
      if finish == ToolCalls {
        var ran := Work();
        if !ran { return StepBroken; }
      }
      var ok := Append(StepEnd(turn, step));
      if !ok { return StepBroken; }
      if finish == ToolCalls {
        ok := Work();                     // leaving plan mode
        if !ok { return StepBroken; }
      }
      var stopped := IsCancelled();
      var reason: Reason;
      if stopped { reason := Aborted; }
      else if finish == ToolCalls || queued {
        if step != maxSteps { return StepDone(Replied(finish, queued)); }
        reason := Blocked;
      } else { reason := Completed; }
      var ended := EndTurn(turn, reason);
      r := if ended.Some? then TurnEnded(ended.value, Replied(finish, queued)) else StepBroken;
    }

    /** What follows the generation loop of a step; attempt `last` was its last. */
    method AfterGeneration(
      turn: u64, step: nat, maxSteps: nat, generated: Generated, ghost served: nat -> Served, queued: bool,
      ghost last: nat, ghost prior: nat, ghost policy: Option<Policy>)
      returns (r: StepResult)
      requires GeneratedMeans(generated, served, last, prior, policy) && (generated == Unanswered(CancelSeen) ==> cancelled)
      requires AllFailed(served, last)
      modifies this
      ensures old(log) <= log && (old(cancelled) ==> cancelled)
      ensures StepMeans(r, step, maxSteps, served, queued, cancelled)
      ensures r.StepDone? ==> Brackets(log) == old(Brackets(log)) + [StepEnd(turn, step)]
      ensures r.TurnEnded? ==> Brackets(log) == old(Brackets(log)) + [StepEnd(turn, step), TurnEnd(turn, r.reason)]
      ensures r.StepBroken? ==> Brackets(log) == old(Brackets(log)) || Brackets(log) == old(Brackets(log)) + [StepEnd(turn, step)]
      ensures SameRetries(old(log), log)
    {
      hide Brackets, Retries, Answers;
      SameRetriesRefl(log);
      match generated {
        case AppendFailed => return StepBroken;
        case Unanswered(why) =>
          CauseAnswers(why, served, queued, last);
          r := CloseAndEnd(turn, step, if why == CancelSeen || why == ModelAborted then Aborted else GenerationError, why);
        case Message(finish) =>
          var stopped := IsCancelled();
          if stopped {
            CauseAnswers(CancelSeen, served, queued, 0);
            r := CloseAndEnd(turn, step, Aborted, CancelSeen);
            return;
          }
          var ok := Work();               // the assistant message
          if !ok { return StepBroken; }
          CauseAnswers(Replied(finish, queued), served, queued, last);
          r := AfterMessage(turn, step, maxSteps, finish, queued);
      }
    }

    /** One step: opened, worked, closed. */
    method RunStep(
      turn: u64, step: nat, maxSteps: nat, provider: string, policy: Option<Policy>, served: nat -> Served, queued: bool)
      returns (r: StepResult)
      modifies this
      ensures old(log) <= log && (old(cancelled) ==> cancelled)
      ensures StepShape(r, turn, step, maxSteps, old(Brackets(log)), Brackets(log))
      ensures StepMeans(r, step, maxSteps, served, queued, cancelled)
      ensures StepRetries(old(log), log, KeyOf(turn, step, provider, policy), Limit(policy))
    {
      hide Brackets, Retries, Counting, NumberedFrom, Answers, GeneratedMeans;
      ghost var key := KeyOf(turn, step, provider, policy);
      ghost var rs := Retries(log, key);
      ghost var limit := Limit(policy);
      CountingNone(if rs == [] then 0 else rs[|rs| - 1]);
      NumberedBy(rs, rs, 0, limit);
      var ok := Append(StepStart(turn, step));
      if !ok { return StepBroken; }
      ok := Work();                       // claimed messages, skills, instructions
      if !ok { return StepBroken; }
      var stopped := IsCancelled();
      if stopped {
        CauseAnswers(CancelSeen, served, queued, 0);
        r := CloseAndEnd(turn, step, Aborted, CancelSeen);
        return;
      }
      ok := Work();                       // runtime context, prompt, request header
      if !ok { return StepBroken; }
      var compactionFailed: bool := *;
      if compactionFailed {
        CauseAnswers(CompactionFailed, served, queued, 0);
        r := CloseAndEnd(turn, step, GenerationError, CompactionFailed);
        return;
      }
      var generated, attempts, recoveries; ghost var retries;
      generated, attempts, recoveries, retries :=
        Generate(KeyOf(turn, step, provider, policy), policy, served);
      NumberedBy(rs, Retries(log, key), retries, limit);
      r := AfterGeneration(turn, step, maxSteps, generated, served, queued, attempts - 1, LastRetry(log, key), policy);
    }

    /** One turn. If it finishes, the events between its start and its end are the
        start, steps 1 to k in order with k at most `maxSteps`, and the end. If an append
        fails on the way it leaves an open turn, and nothing else. */
    method RunTurn(
      maxSteps: nat, provider: string, policy: Option<Policy>, served: (nat, nat) -> Served, queued: nat -> bool)
      returns (r: Outcome, ghost whys: seq<Cause>)
      modifies this
      ensures old(log) <= log
      ensures r.Skipped? ==> log == old(log) && cancelled
      ensures old(cancelled) ==> r.Skipped?
      ensures r.Finished? ==>
                && Brackets(log) == old(Brackets(log)) + Segment(r.turn, r.steps, r.reason)
                && r.steps <= maxSteps
                && (r.exhausted ==> maxSteps == 0)
                && TurnMeans(r, whys, maxSteps, cancelled)
      ensures AllAnswer(whys, served, queued)
      ensures r.Broken? ==>
                && |Brackets(log)| >= |old(Brackets(log))|
                && Brackets(log)[..|old(Brackets(log))|] == old(Brackets(log))
                && OpenTurn(Brackets(log)[|old(Brackets(log))|..], r.turn, maxSteps)
      ensures !r.Skipped? ==> r.turn == old(NextTurn(log))
      ensures !r.Skipped? ==> TurnRetries(old(log), log, r.turn, 0, provider, policy)
      ensures Brackets(log) == old(Brackets(log)) ==> SameRetries(old(log), log)
      ensures !r.Skipped? ==> Opened(old(Brackets(log)), Brackets(log), r.turn)
    {
      hide Brackets, Retries, Counting, NumberedFrom, Opened, OpenTurn, Segment, StepShape, SameRetries, StepRetries, TurnRetries, Answers, AllAnswer, AllGoOn, StepMeans, TurnMeans, EndsAs, Steps;
      whys := [];
      NoneYet(served, queued);
      NoSteps();
      ghost var log0 := log;
      SameRetriesRefl(log);
      var stopped := IsCancelled();
      if stopped { r := Skipped; return; }
      ghost var before := Brackets(log);
      var turn := ComputeNextTurn();
      var ok := Append(TurnStart(turn));
      TurnRetriesStart(log0, log, turn, provider, policy);
      if !ok {
        assert before + [] == before;
        BrokenTurn(before, [], turn, maxSteps, 0);
        r := Broken(turn);
        return;
      }
      var step := 1;
      while step <= maxSteps
        invariant 1 <= step <= maxSteps + 1 && (step > 1 ==> step <= maxSteps)
        invariant old(log) <= log
        invariant Brackets(log) == before + ([TurnStart(turn)] + Steps(turn, step - 1))
        invariant TurnRetries(log0, log, turn, step, provider, policy)
        invariant |whys| == step - 1 && AllGoOn(whys)
        invariant AllAnswer(whys, served, queued)
      {
        ghost var open, log1 := [TurnStart(turn)] + Steps(turn, step - 1), log;
        stopped := IsCancelled();
        if stopped {
          var ended := EndTurn(turn, Aborted);
          TurnRetriesQuiet(log0, log1, log, turn, step, provider, policy);
          if ended.None? {
            BrokenTurn(before, open, turn, maxSteps, step - 1);
            r := Broken(turn);
            return;
          }
          SegmentEnds(before, turn, step - 1, ended.value);
          r := Finished(turn, step - 1, ended.value, false);
          EarlyEnd(r, whys, maxSteps, cancelled);
          return;
        }
        var s := RunStep(turn, step, maxSteps, provider, policy, (k: nat) => served(step, k), queued(step));
        StepExtends(before, turn, step);
        StepOutcomes(s, turn, step, maxSteps, before + open, Brackets(log));
        TurnRetriesStep(log0, log1, log, turn, step, provider, policy);
        match s {
          case StepBroken =>
            BrokenStep(before, Brackets(log), turn, step, maxSteps);
            r := Broken(turn);
            return;
          case TurnEnded(reason, why) =>
            StepEnds(s, step, maxSteps, whys, served, queued, cancelled);
            whys := whys + [why];
            SegmentEnds(before, turn, step, reason);
            r := Finished(turn, step, reason, false);
            return;
          case StepDone(why) =>
            StepEnds(s, step, maxSteps, whys, served, queued, cancelled);
            whys := whys + [why];
        }
        step := step + 1;
      }
      ghost var log2 := log;
      var ended := EndTurn(turn, Blocked);
      TurnRetriesQuiet(log0, log2, log, turn, step, provider, policy);
      if ended.None? {
        BrokenTurn(before, [TurnStart(turn)] + Steps(turn, step - 1), turn, maxSteps, step - 1);
        r := Broken(turn);
        return;
      }
      SegmentEnds(before, turn, step - 1, ended.value);
      r := Finished(turn, step - 1, ended.value, true);
      EarlyEnd(r, whys, maxSteps, cancelled);
    }

    /** The highest recorded turn number plus one, saturating. */
    method ComputeNextTurn() returns (turn: u64)
      ensures turn == NextTurn(log)
    {
      var max: u64 := 0;
      for i := 0 to |log|
        invariant max == MaxTurn(log[..i])
      {
        assert log[..i + 1][..i] == log[..i];
        if log[i].TurnStart? && log[i].turn > max { max := log[i].turn; }
      }
      assert log[..|log|] == log;
      turn := if max == U64_MAX then U64_MAX else max + 1;
    }

    /** A turn of a session whose retries all belong to started turns: it keeps that, and
        unless turn numbers are exhausted the retries of each of its steps are numbered
        1, 2, .., n with n at most the policy's limit. */
    method NumberedTurn(
      maxSteps: nat, provider: string, policy: Option<Policy>, served: (nat, nat) -> Served, queued: nat -> bool)
      returns (r: Outcome)
      requires RetriesStarted(log)
      modifies this
      ensures RetriesStarted(log)
      ensures !r.Skipped? && TurnStart(U64_MAX) !in old(log) ==>
                && (forall i :: 0 <= i < |old(log)| && old(log)[i].TurnStart? ==> old(log)[i].turn < r.turn)
                && (forall step :: OneToN(Retries(log, KeyOf(r.turn, step, provider, policy)), Limit(policy)))
    {
      hide Brackets, Retries, Counting, NumberedFrom, OpenTurn, Segment, Opened, RetriesStarted, NextTurn;
      ghost var before := log;
      ghost var whys;
      r, whys := RunTurn(maxSteps, provider, policy, served, queued);
      if r.Skipped? { return; }
      NextTurnIsNew(before);
      StartedKept(before, log, r.turn);
      if TurnStart(U64_MAX) !in before {
        forall step ensures OneToN(Retries(log, KeyOf(r.turn, step, provider, policy)), Limit(policy)) {
          assert NumberedFrom(Retries(before, KeyOf(r.turn, step, provider, policy)),
                              Retries(log, KeyOf(r.turn, step, provider, policy)), Limit(policy));
          NoEarlierRetries(before, KeyOf(r.turn, step, provider, policy));
          FreshNumbering(Retries(log, KeyOf(r.turn, step, provider, policy)), Limit(policy));
        }
      }
    }

    static lemma LastOfCounting(log: seq<Event>, key: RetryKey, rs: seq<nat>, prior: nat, n: nat)
      requires prior == if rs == [] then 0 else rs[|rs| - 1]
      requires Retries(log, key) == rs + Counting(prior, n)
      ensures LastRetry(log, key) == prior + n
    {
    }
  }
}
