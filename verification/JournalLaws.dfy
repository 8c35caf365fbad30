/** What the journal keeps whatever happens, and what its single steps achieve. */
module JournalLaws {
  import opened Inboxes
  import opened InboxRuns
  import opened InboxJournal

  predicate AllValid(q: seq<Item>) {
    forall i :: 0 <= i < |q| ==> q[i].message.Valid()
  }

  /** No id stands in the journal twice, and every journalled message is valid. */
  ghost predicate JournalOk(turn: seq<Item>, step: seq<Item>) {
    && Distinct(turn) && Distinct(step) && Ids(turn) !! Ids(step)
    && AllValid(turn) && AllValid(step)
  }

  lemma SpliceOk(q: seq<Item>, other: seq<Item>, start: nat, removed: nat, inserted: seq<Item>)
    requires JournalOk(q, other) && |inserted| <= 1
    requires Splice(q, other, start, removed, inserted).Some?
    ensures JournalOk(Splice(q, other, start, removed, inserted).value, other)
  {
    hide Ids, JournalOk, Distinct;
    var front, back := q[..start], q[start + removed..];
    assert AllValid(inserted);
    Remaining(q, other, start, removed);
    Insertion(front, inserted, back, other);
  }

  lemma Remaining(q: seq<Item>, other: seq<Item>, start: nat, removed: nat)
    requires JournalOk(q, other) && start + removed <= |q|
    ensures JournalOk(q[..start], other) && JournalOk(q[start + removed..], other)
    ensures Ids(q[..start]) !! Ids(q[start + removed..])
  {
    var front, middle, back := q[..start], q[start..start + removed], q[start + removed..];
    hide Ids;
    assert q == front + (middle + back);
    DistinctParts(front, middle + back);
    DistinctParts(middle, back);
    IdsConcat(front, middle + back);
    IdsConcat(middle, back);
  }

  lemma Insertion(front: seq<Item>, inserted: seq<Item>, back: seq<Item>, other: seq<Item>)
    requires JournalOk(front, other) && JournalOk(back, other) && Ids(front) !! Ids(back)
    requires |inserted| <= 1 && AllValid(inserted) && Ids(inserted) * (Ids(front) + Ids(back) + Ids(other)) == {}
    ensures JournalOk(front + inserted + back, other)
  {
    hide Ids;
    forall id | id in Ids(inserted) ensures id !in Ids(front) + Ids(back) + Ids(other) {
      assert id !in Ids(inserted) * (Ids(front) + Ids(back) + Ids(other));
    }
    IdsConcat(front, inserted);
    IdsConcat(front + inserted, back);
    OneDistinct(inserted);
    DistinctJoin(front, inserted);
    DistinctJoin(front + inserted, back);
    hide Distinct;
    assert AllValid(front + inserted + back);
  }

  lemma OneDistinct(q: seq<Item>)
    requires |q| <= 1
    ensures Distinct(q)
  {
  }

  lemma MoveOk(turn: seq<Item>, step: seq<Item>, k: nat)
    requires JournalOk(turn, step) && k < |turn|
    ensures JournalOk(RemoveAt(turn, k), step + [Item(Steer, turn[k].message)])
  {
    RemoveAtFacts(turn, k);
    IdAt(turn, k);
    Swap(RemoveAt(turn, k), step + [Item(Steer, turn[k].message)]);
    AddOk(step, RemoveAt(turn, k), Item(Steer, turn[k].message));
  }

  lemma SteerOk(turn: seq<Item>, step: seq<Item>, m: Message)
    requires JournalOk(turn, step) && SpliceSteer(turn, step, m).Some?
    ensures JournalOk(SpliceSteer(turn, step, m).value.0, SpliceSteer(turn, step, m).value.1)
  {
    hide JournalOk;
    MoveOk(turn, step, IndexOf(turn, m.id).value);
  }

  lemma AddOk(q: seq<Item>, other: seq<Item>, item: Item)
    requires JournalOk(q, other) && item.message.Valid() && item.message.id !in Ids(q) + Ids(other)
    ensures JournalOk(q + [item], other)
  {
    SingletonIds(item);
    IdsConcat(q, [item]);
    OneDistinct([item]);
    DistinctJoin(q, [item]);
  }

  lemma DropOk(turn: seq<Item>, step: seq<Item>, id: MessageId)
    requires JournalOk(turn, step)
    ensures JournalOk(Drop(turn, {id}), Drop(step, {id}))
  {
    DropFacts(turn, {id});
    DropFacts(step, {id});
    hide Drop;
    forall i | 0 <= i < |Drop(turn, {id})| ensures Drop(turn, {id})[i].message.Valid() {
      assert Drop(turn, {id})[i] in turn;
    }
    forall i | 0 <= i < |Drop(step, {id})| ensures Drop(step, {id})[i].message.Valid() {
      assert Drop(step, {id})[i] in step;
    }
  }

  lemma AppliedOk(d: Durable, t: Token)
    requires JournalOk(d.turn, d.step) && Applied(d, t).Some?
    ensures JournalOk(Applied(d, t).value.turn, Applied(d, t).value.step)
  {
    hide Splice, JournalOk;
    assert JournalOk(d.step, d.turn) by { Swap(d.turn, d.step); }
    match t {
      case ClaimToken(c) =>
        SpliceOk(d.Queue(c.nextStep), d.Queue(!c.nextStep), 0, |c.items|, []);
        Swap(Splice(d.Queue(c.nextStep), d.Queue(!c.nextStep), 0, |c.items|, []).value, d.Queue(!c.nextStep));
      case UpdateToken(r, _) =>
        if r.update.MoveToStep? {
          SteerOk(d.turn, d.step, r.message);
        } else {
          var side := r.sourceTarget != Followup;
          var inserted := if r.update.Edit? then [Item(r.sourceTarget, r.message)] else [];
          SpliceOk(d.Queue(side), d.Queue(!side), r.start, 1, inserted);
          Swap(Splice(d.Queue(side), d.Queue(!side), r.start, 1, inserted).value, d.Queue(!side));
        }
    }
  }

  lemma Swap(a: seq<Item>, b: seq<Item>)
    ensures JournalOk(a, b) <==> JournalOk(b, a)
  {
  }

  lemma ActionOk(d: Durable, a: Action)
    requires JournalOk(d.turn, d.step)
    ensures JournalOk(DurableNext(d, a).turn, DurableNext(d, a).step)
  {
    hide JournalOk, Next, Applied;
    match a
    case Enqueue(item) =>
      Swap(d.turn, d.step);
      if item.message.Valid() && item.message.id !in Ids(d.turn) + Ids(d.step) {
        if item.target != Followup {
          AddOk(d.step, d.turn, item);
          Swap(d.step + [item], d.turn);
        } else {
          AddOk(d.turn, d.step, item);
        }
      }
    case Append(k) =>
      if k in d.s.tokens && Applied(d, d.s.tokens[k]).Some? { AppliedOk(d, d.s.tokens[k]); }
    case Record(id) => DropOk(d.turn, d.step, id);
    case _ =>
  }

  /** Whatever reservations are appended, published, withdrawn or lost, in any order and whether or not the
      memory agrees: the journal never holds an id twice and never an invalid message. */
  lemma {:induction false} JournalStaysOk(d: Durable, actions: seq<Action>)
    requires JournalOk(d.turn, d.step)
    ensures JournalOk(DurableRun(d, actions).turn, DurableRun(d, actions).step)
    decreases |actions|
  {
    hide JournalOk, DurableNext;
    if actions != [] {
      ActionOk(d, actions[0]);
      JournalStaysOk(DurableNext(d, actions[0]), actions[1..]);
    }
  }

  lemma NewIsOk()
    ensures JournalOk(NEW.turn, NEW.step)
  {
  }

  /** A message that is enqueued and then delivered ends both queues of its target, the journal's and the
      memory's, and leaves nothing to deliver. */
  lemma EnqueueThenDeliver(d: Durable, item: Item, wakeup: bool)
    requires item.message.Valid() && item.message.id !in Ids(d.turn) + Ids(d.step)
    requires item.message.id !in d.s.sent && item.message.id !in d.s.v.Pending()
    ensures var side := item.target != Followup;
            var enqueued := DurableNext(d, Enqueue(item));
            var delivered := DurableNext(enqueued, Deliver(side, |d.Coming(side)|, wakeup));
            && enqueued.Queue(side) == d.Queue(side) + [item] && enqueued.Queue(!side) == d.Queue(!side)
            && enqueued.s == d.s
            && delivered.s == Next(d.s, Send(item.message, item.target, wakeup))
            && delivered.s.v.Queue(side) == d.s.v.Queue(side) + [item]
            && delivered.turn == enqueued.turn && delivered.step == enqueued.step
            && delivered.comingTurn == d.comingTurn && delivered.comingStep == d.comingStep
  {
    var side := item.target != Followup;
    var coming := d.Coming(side);
    var enqueued := DurableNext(d, Enqueue(item));
    assert enqueued.Coming(side) == coming + [item];
    assert RemoveAt(coming + [item], |coming|) == coming;
    SendAppends(d.s, item.message, item.target, wakeup);
    hide Next;
  }

  lemma SendAppends(s: System, m: Message, t: Target, wakeup: bool)
    requires m.Valid() && m.id !in s.v.Pending()
    ensures Next(s, Send(m, t, wakeup)).v.Queue(t != Followup) == s.v.Queue(t != Followup) + [Item(t, m)]
  {
  }

  /** Withdrawing an unappended reservation is an abort in memory, gives its ids back and leaves the
      journal alone; an appended one can no longer be withdrawn. */
  lemma WithdrawReleases(d: Durable, k: nat)
    requires k in d.s.tokens
    ensures k !in d.journalled ==>
              && DurableNext(d, Withdraw(k)) == d.(s := Next(d.s, Abort(k)))
              && k !in Next(d.s, Abort(k)).tokens
              && Next(d.s, Abort(k)).v.reserved == d.s.v.reserved - TokenIds(d.s.tokens[k])
    ensures k in d.journalled ==> DurableNext(d, Withdraw(k)) == d
  {
  }

  /** Recording a message that was handed out takes exactly the entries with its id out of the journal. */
  lemma RecordRemoves(d: Durable, id: MessageId)
    requires id in Ids(d.s.out)
    ensures var d' := DurableNext(d, Record(id));
            && (forall x :: x in d'.turn <==> x in d.turn && x.message.id != id)
            && (forall x :: x in d'.step <==> x in d.step && x.message.id != id)
            && d'.s == d.s
  {
    DropFacts(d.turn, {id});
    DropFacts(d.step, {id});
    hide Drop;
  }
}
