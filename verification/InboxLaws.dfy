/** Further laws of inbox runs: arrival order, reserved-implies-pending, the relation
    between one-phase and two-phase updates, and where a reserved message stands. */
module InboxLaws {
  import opened Inboxes
  import opened InboxRuns

  // ---------------------------------------------------------------------
  // Arrival order
  // ---------------------------------------------------------------------

  function Restrict(xs: seq<MessageId>, keep: set<MessageId>): seq<MessageId> {
    if xs == [] then []
    else if xs[0] in keep then [xs[0]] + Restrict(xs[1..], keep)
    else Restrict(xs[1..], keep)
  }

  function IdSeq(q: seq<Item>): seq<MessageId> {
    seq(|q|, i requires 0 <= i < |q| => q[i].message.id)
  }

  /** Each queue lists its ids in the order in which they entered it. */
  ghost predicate InArrivalOrder(s: System) {
    && Restrict(s.turnArrivals, Ids(s.v.turn)) == IdSeq(s.v.turn)
    && Restrict(s.stepArrivals, Ids(s.v.step)) == IdSeq(s.v.step)
    && (forall x :: x in s.turnArrivals ==> x in s.sent)
    && (forall x :: x in s.stepArrivals ==> x in s.sent && x !in Ids(s.v.turn))
  }

  lemma {:induction false} RestrictConcat(a: seq<MessageId>, b: seq<MessageId>, keep: set<MessageId>)
    ensures Restrict(a + b, keep) == Restrict(a, keep) + Restrict(b, keep)
  {
    if a == [] {
      assert a + b == b;
    } else {
      assert (a + b)[1..] == a[1..] + b;
      RestrictConcat(a[1..], b, keep);
    }
  }

  lemma {:induction false} RestrictSame(xs: seq<MessageId>, a: set<MessageId>, b: set<MessageId>)
    requires forall x :: x in xs ==> (x in a <==> x in b)
    ensures Restrict(xs, a) == Restrict(xs, b)
  {
    if xs != [] {
      assert xs[0] in xs;
      assert forall x :: x in xs[1..] ==> x in xs;
      RestrictSame(xs[1..], a, b);
    }
  }

  lemma RestrictAppend(xs: seq<MessageId>, keep: set<MessageId>, x: MessageId)
    requires x !in xs
    ensures Restrict(xs + [x], keep + {x}) == Restrict(xs, keep) + [x]
  {
    RestrictConcat(xs, [x], keep + {x});
    RestrictSame(xs, keep + {x}, keep);
    assert [x][1..] == [];
  }

  lemma {:induction false} RestrictTwice(xs: seq<MessageId>, a: set<MessageId>, b: set<MessageId>)
    ensures Restrict(Restrict(xs, a), b) == Restrict(xs, a * b)
  {
    if xs != [] {
      RestrictTwice(xs[1..], a, b);
      if xs[0] in a {
        assert ([xs[0]] + Restrict(xs[1..], a))[1..] == Restrict(xs[1..], a);
      }
    }
  }

  lemma {:induction false} IdSeqDrop(q: seq<Item>, ids: set<MessageId>, all: set<MessageId>)
    requires Ids(q) <= all
    ensures IdSeq(Drop(q, ids)) == Restrict(IdSeq(q), all - ids)
  {
    if q != [] {
      IdsTail(q);
      assert IdSeq(q)[1..] == IdSeq(q[1..]);
      IdSeqDrop(q[1..], ids, all);
      var rest := Drop(q[1..], ids);
      assert IdSeq([q[0]] + rest) == [q[0].message.id] + IdSeq(rest);
    }
  }

  /** Dropping from a queue in arrival order leaves it in arrival order. */
  lemma OrderDrop(xs: seq<MessageId>, q: seq<Item>, ids: set<MessageId>)
    requires Restrict(xs, Ids(q)) == IdSeq(q)
    ensures Restrict(xs, Ids(Drop(q, ids))) == IdSeq(Drop(q, ids))
  {
    hide Restrict, Drop, Ids;
    IdSeqDrop(q, ids, Ids(q));
    DropFacts(q, ids);
    RestrictTwice(xs, Ids(q), Ids(q) - ids);
    assert Ids(q) * (Ids(q) - ids) == Ids(q) - ids;
  }

  lemma OrderAppend(xs: seq<MessageId>, q: seq<Item>, item: Item)
    requires Restrict(xs, Ids(q)) == IdSeq(q) && item.message.id !in xs
    ensures Restrict(xs + [item.message.id], Ids(q + [item])) == IdSeq(q + [item])
  {
    hide Restrict, Ids;
    IdsConcat(q, [item]);
    SingletonIds(item);
    RestrictAppend(xs, Ids(q), item.message.id);
  }

  lemma OrderReplace(xs: seq<MessageId>, q: seq<Item>, m: Message)
    requires Restrict(xs, Ids(q)) == IdSeq(q)
    ensures Restrict(xs, Ids(Replace(q, m))) == IdSeq(Replace(q, m))
  {
    hide Restrict, Ids;
    ReplaceIds(q, m);
  }

  lemma {:induction false} RestrictNothing(xs: seq<MessageId>)
    ensures Restrict(xs, {}) == []
  {
    if xs != [] { RestrictNothing(xs[1..]); }
  }

  lemma ArrivalOrderStep(s: System, st: Step)
    requires Inv(s) && Fresh(s, st) && InArrivalOrder(s)
    ensures InArrivalOrder(Next(s, st))
  {
    hide Restrict, Ids, Drop, Replace, Lane, IndexOf, NextView, Leaving, Granted, View.WellFormed, TokenInv;
    var mo, s' := MotionOf(s, st), Next(s, st);
    forall k | k in s.tokens ensures Shaped(s.tokens[k]) { assert TokenInv(s, s.tokens[k]); ShapedToken(s, k); }
    NextMoves(s, st);
    TurnGrowsBy(s.v, mo);
    NoIds();
    RestrictNothing(s.turnArrivals);
    RestrictNothing(s.stepArrivals);
    assert s.turnArrivals + [] == s.turnArrivals && s.stepArrivals + [] == s.stepArrivals;
    match mo {
      case Still =>
      case Dropped(ids) =>
        OrderDrop(s.turnArrivals, s.v.turn, ids);
        OrderDrop(s.stepArrivals, s.v.step, ids);
      case Appended(item) =>
        AppendedIsFresh(s, st);
        if item.target == Followup {
          OrderAppend(s.turnArrivals, s.v.turn, item);
        } else {
          OrderAppend(s.stepArrivals, s.v.step, item);
        }
      case Replaced(m) =>
        OrderReplace(s.turnArrivals, s.v.turn, m);
        OrderReplace(s.stepArrivals, s.v.step, m);
      case Moved(m) =>
        MovedIdInTurn(s.v, m);
        OrderDrop(s.turnArrivals, s.v.turn, {m.id});
        DropFacts(s.v.turn, {m.id});
        OrderAppend(s.stepArrivals, s.v.step, Item(Steer, m));
      case Emptied =>
      case StepEmptied =>
    }
  }

  lemma ShapedToken(s: System, k: nat)
    requires k in s.tokens && TokenInv(s, s.tokens[k])
    ensures Shaped(s.tokens[k])
  {
  }

  lemma AppendedIsFresh(s: System, st: Step)
    requires Fresh(s, st) && MotionOf(s, st).Appended?
    ensures MotionOf(s, st).item.message.id !in s.sent
  {
  }

  lemma {:induction false} ArrivalOrderRun(s: System, steps: seq<Step>)
    requires Inv(s) && FreshRun(s, steps) && InArrivalOrder(s)
    ensures InArrivalOrder(Run(s, steps))
    decreases |steps|
  {
    hide Inv, Next, Fresh, InArrivalOrder;
    if steps != [] {
      InvStep(s, steps[0]);
      ArrivalOrderStep(s, steps[0]);
      ArrivalOrderRun(Next(s, steps[0]), steps[1..]);
    }
  }

  /** In every state of every run the step lane and the next-turn queue list their
      entries in arrival order, so every batch drains oldest first. */
  lemma DrainsInArrivalOrder(steps: seq<Step>)
    requires FreshRun(INITIAL, steps)
    ensures InArrivalOrder(Run(INITIAL, steps))
  {
    InitialInv();
    NoIds();
    ArrivalOrderRun(INITIAL, steps);
  }

  // ---------------------------------------------------------------------
  // Reserved ids are pending
  // ---------------------------------------------------------------------

  /** Every step keeps "reserved implies pending", except draining the step lane,
      which ignores reservations: that one keeps it exactly when nothing in the lane
      is reserved. */
  lemma ReservedStaysPending(s: System, st: Step)
    requires Inv(s) && Fresh(s, st) && s.v.reserved <= s.v.Pending()
    ensures Next(s, st).v.reserved <= Next(s, st).v.Pending()
        <==> (st == TakeBatch ==> Ids(s.v.step) !! s.v.reserved)
  {
    hide Ids, Drop, Replace, Lane, IndexOf, Leaving, View.WellFormed, TokenInv;
    var mo, s' := MotionOf(s, st), Next(s, st);
    forall k | k in s.tokens ensures Shaped(s.tokens[k]) { assert TokenInv(s, s.tokens[k]); ShapedToken(s, k); }
    NextMoves(s, st);
    ApplyWellFormed(s.v, mo);
    PendingOf(s'.v, Apply(s.v, mo));
    WellFormedParts(s.v);
    match st {
      case ReserveTurn => if Granted(s, st).Some? { GrantedClaim(s.v, Granted(s, st).value.claim); }
      case ReserveStep => if Granted(s, st).Some? { GrantedClaim(s.v, Granted(s, st).value.claim); }
      case ReserveUpdate(id, u, on) => if Granted(s, st).Some? { GrantedUpdate(s.v, id, u, on); }
      case OnePhase(id, u) => if Addressed(s.v, id).Some? { AddressedFacts(s.v, id); }
      case Commit(k) =>
        if k in s.tokens && s.tokens[k].UpdateToken? && ReservationHolds(s.v, s.tokens[k].reservation) {
          PublishedFacts(s.v, s.tokens[k].reservation);
        }
      case _ =>
    }
  }

  // ---------------------------------------------------------------------
  // Giving a reservation up
  // ---------------------------------------------------------------------

  /** Some outstanding reservation is about `id`. */
  ghost predicate Owned(tokens: map<nat, Token>, id: MessageId) {
    exists k :: k in tokens && id in TokenIds(tokens[k])
  }

  ghost predicate AllOwned(s: System) {
    forall id :: id in s.v.reserved ==> Owned(s.tokens, id)
  }

  /** What a step leaves reserved was reserved before, or is what the step reserves. */
  lemma ReservedBy(s: System, st: Step)
    requires Inv(s)
    ensures forall id :: id in Next(s, st).v.reserved ==>
              && (id in s.v.reserved || (Granted(s, st).Some? && id in TokenIds(Granted(s, st).value)))
              && ((st.Commit? || st.Abort?) && st.token in s.tokens ==> id !in TokenIds(s.tokens[st.token]))
  {
    hide Ids, Drop, Replace, Lane, IndexOf, Inv;
    if st.Commit? && st.token in s.tokens {
      CommitReleases(s, st.token);
    }
  }

  lemma CommitReleases(s: System, k: nat)
    requires k in s.tokens
    ensures Next(s, Commit(k)).v.reserved == s.v.reserved - TokenIds(s.tokens[k])
  {
    hide Ids, Drop, Replace, Lane, IndexOf, ClaimHolds, ReservationHolds;
  }

  /** In every run every reserved id belongs to an outstanding reservation, so nothing stays
      blocked once its holder has committed or given up. */
  lemma {:induction false} OwnedRun(s: System, steps: seq<Step>)
    requires Inv(s) && FreshRun(s, steps) && AllOwned(s)
    ensures AllOwned(Run(s, steps))
    decreases |steps|
  {
    hide Inv, Fresh, Next, AllOwned;
    if steps != [] {
      InvStep(s, steps[0]);
      OwnedStep(s, steps[0]);
      OwnedRun(Next(s, steps[0]), steps[1..]);
    }
  }

  lemma OwnedStep(s: System, st: Step)
    requires Inv(s) && AllOwned(s)
    ensures AllOwned(Next(s, st))
  {
    ReservedBy(s, st);
    var s' := Next(s, st);
    assert forall k :: k in s.tokens ==> k < s.next;
    hide Inv, NextView, Granted, Leaving, MotionOf, TokenIds;
    forall id | id in s'.v.reserved
      ensures Owned(s'.tokens, id)
    {
      if id in s.v.reserved {
        var k :| k in s.tokens && id in TokenIds(s.tokens[k]);
        assert !Consumes(st, k);
        assert k in s'.tokens && s'.tokens[k] == s.tokens[k];
      } else {
        assert s'.tokens[s.next] == Granted(s, st).value;
      }
    }
  }

  lemma ReservedIsOwned(steps: seq<Step>, id: MessageId)
    requires FreshRun(INITIAL, steps) && id in Run(INITIAL, steps).v.reserved
    ensures Owned(Run(INITIAL, steps).tokens, id)
  {
    hide Run, FreshRun, Next;
    InitialInv();
    OwnedRun(INITIAL, steps);
  }

  /** Aborting a claim that was just granted gives back exactly what was there. */
  lemma AbortUndoesClaim(v: View, c: Claim)
    requires v.WellFormed() && (ReserveTurnOf(v) == Some(c) || ReserveStepOf(v) == Some(c))
    ensures AbortClaimView(ReserveClaimView(v, Some(c)), c) == v
    ensures forall id :: id in ReserveClaimView(v, Some(c)).reserved <==> id in v.reserved || id in Ids(c.items)
  {
    hide Drop, Lane, Replace;
    GrantedClaim(v, c);
    assert v.reserved + Ids(c.items) - Ids(c.items) == v.reserved;
  }

  /** The same for an update, up to the wake that an abort gives. */
  lemma AbortUndoesUpdate(v: View, id: MessageId, u: Edit, steerEnabled: bool)
    requires v.WellFormed() && ReserveUpdateOf(v, id, u, steerEnabled).Reserved?
    ensures AbortUpdateView(ReserveUpdateView(v, ReserveUpdateOf(v, id, u, steerEnabled)), id) == v.(wakes := Bump(v.wakes))
  {
    hide Drop, Lane, Replace, Ids, IndexOf;
    GrantedUpdate(v, id, u, steerEnabled);
    assert v.reserved + {id} - {id} == v.reserved;
  }

  /** Giving up a held claim of the next-turn head makes the very same claim grantable again. */
  lemma AbortedClaimIsGrantable(s: System, k: nat)
    requires Inv(s) && k in s.tokens && s.tokens[k].ClaimToken? && !s.tokens[k].claim.nextStep && Held(s.v, s.tokens[k])
    ensures var s' := Next(s, Abort(k));
            && s'.v.turn == s.v.turn && s'.v.step == s.v.step
            && |s.tokens[k].claim.items| >= 1
            && Granted(s', ReserveTurn) == Some(ClaimToken(Claim(false, s.tokens[k].claim.items[..1])))
  {
    hide Drop, Lane, Replace, Inv;
    var items := s.tokens[k].claim.items;
    IdAt(items, 0);
    assert s.v.turn[0] == items[0];
    assert items[..1] == [items[0]];
  }

  // ---------------------------------------------------------------------
  // Two phases against one
  // ---------------------------------------------------------------------

  /** Reserving and committing with nothing in between is the one-phase update, in
      state and in answer, unless steering is disabled and the update is a steer that
      the one-phase verb would have accepted. */
  lemma TwoPhaseIsOnePhase(v: View, id: MessageId, u: Edit, steerEnabled: bool)
    requires v.WellFormed()
    ensures var r := ReserveUpdateOf(v, id, u, steerEnabled);
            var reserved := ReserveUpdateView(v, r);
            var after := if r.Reserved? then CommitUpdateView(reserved, r.reservation) else reserved;
            && (r.Reserved? ==> ReservationHolds(reserved, r.reservation))
            && ((after == UpdateView(v, id, u) && (r.Reserved? <==> UpdateOf(v, id, u).Updated?))
                <==> (steerEnabled || !u.MoveToStep? || !UpdateOf(v, id, u).Updated?))
            && (r.Reserved? ==> UpdateOf(v, id, u) == Updated(r.reservation.target, r.reservation.message))
  {
    hide Ids, Drop, Replace, Lane, IndexOf, View.WellFormed;
    var r := ReserveUpdateOf(v, id, u, steerEnabled);
    if UpdateOf(v, id, u).Updated? {
      AddressedFacts(v, id);
      AbsentIndex(v.turn, id);
      if r.Reserved? {
        GrantedUpdate(v, id, u, steerEnabled);
        assert v.reserved + {id} - {id} == v.reserved;
      }
    }
  }

  // ---------------------------------------------------------------------
  // Recorded positions
  // ---------------------------------------------------------------------

  /** Where a held update's message is now: behind what is left of what was ahead of
      it, so at its recorded start exactly when nothing ahead of it has left. */
  lemma StartIsCurrent(s: System, k: nat)
    requires Inv(s) && k in s.tokens && s.tokens[k].UpdateToken? && Held(s.v, s.tokens[k])
    ensures var r, ahead := s.tokens[k].reservation, s.tokens[k].ahead;
            var q := s.v.Queue(r.sourceTarget != Followup);
            && IndexOf(q, r.id).Some?
            && IndexOf(q, r.id).value <= r.start
            && (IndexOf(q, r.id).value == r.start <==> Ids(ahead) <= Ids(q))
  {
    hide Ids, Drop, Replace, Lane, IndexOf, View.WellFormed;
    var r, ahead := s.tokens[k].reservation, s.tokens[k].ahead;
    var q := s.v.Queue(r.sourceTarget != Followup);
    assert TokenInv(s, s.tokens[k]);
    WellFormedParts(s.v);
    var now := IndexOf(q, r.id).value;
    AheadFacts(q, now);
    IdsCount(q[..now]);
    IdsCount(ahead);
    SubsetCount(Ids(q[..now]), Ids(ahead));
  }

  lemma {:induction false} IdsCount(q: seq<Item>)
    requires Distinct(q)
    ensures |Ids(q)| == |q|
  {
    if q != [] {
      IdsTail(q);
      assert q[0].message.id !in Ids(q[1..]);
      IdsCount(q[1..]);
    }
  }

  lemma {:induction false} SubsetCount(a: set<MessageId>, b: set<MessageId>)
    requires a <= b
    ensures |a| <= |b| && (|a| == |b| <==> a == b)
    decreases b
  {
    if x :| x in a {
      SubsetCount(a - {x}, b - {x});
      assert a == (a - {x}) + {x} && b == (b - {x}) + {x};
    } else {
      assert a == {};
      if y :| y in b { assert |b - {y}| == |b| - 1; }
    }
  }

  lemma RemovedDiffer(q: seq<Item>, i: nat, j: nat)
    requires i <= j < |q| && Distinct(q)
    ensures RemoveAt(q, i) == RemoveAt(q, j) <==> i == j
  {
    if i < j {
      assert RemoveAt(q, i)[i] == q[i + 1] && RemoveAt(q, j)[i] == q[i];
    }
  }

  // ---------------------------------------------------------------------
  // Why ids must not be reused
  // ---------------------------------------------------------------------

  /** Claim the head, clear the inbox, send and claim the same id again: the first
      holder's commit then succeeds and takes the second holder's message. */
  lemma ReusedIdStealsClaim(s: System)
    requires Inv(s) && s.v.turn != [] && s.v.turn[0].message.id !in s.v.reserved && s.v.turn[0].message.Valid()
    ensures var m := s.v.turn[0].message;
            var s1 := Next(s, ReserveTurn);
            var s2 := Next(s1, Clear);
            var s3 := Next(s2, Send(m, Followup, true));
            var s4 := Next(s3, ReserveTurn);
            var s5 := Next(s4, Commit(s.next));
            && !Fresh(s2, Send(m, Followup, true))
            && s.next + 1 in s5.tokens && s5.tokens[s.next + 1] == ClaimToken(Claim(false, [Item(Followup, m)]))
            && ClaimHolds(s4.v, s5.tokens[s.next + 1].claim)
            && !ClaimHolds(s5.v, s5.tokens[s.next + 1].claim)
  {
    hide Ids, Drop, Replace, Lane, IndexOf, TokensInv, View.WellFormed;
    var m := s.v.turn[0].message;
    var x := Item(Followup, m);
    WellFormedParts(s.v);
    assert s.v.turn[0] in s.v.turn;
    IdAt(s.v.turn, 0);
    NoIds();
    SingletonIds(x);
    var s1 := Next(s, ReserveTurn);
    var s2 := Next(s1, Clear);
    var s3 := Next(s2, Send(m, Followup, true));
    assert s3.v.turn == [x];
    var s4 := Next(s3, ReserveTurn);
    var s5 := Next(s4, Commit(s.next));
    assert s4.v.turn[0] == x;
    assert HasEntry(s4.v.turn, Followup, m.id);
    DropAll([x], {m.id});
    EntryPending(s5.v.turn, Followup, m.id);
    assert [x][0].target == Followup;
  }
}
