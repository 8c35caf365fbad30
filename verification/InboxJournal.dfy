/** The inbox together with its durable journal. A message is journalled before it is sent,
    and a claim or an update is reserved in memory, appended to the journal and committed in
    memory in three separate steps; everybody's steps interleave. The append replays the
    journal first and refuses an event that does not apply. */
module InboxJournal {
  import opened Inboxes
  import opened InboxRuns
  import InboxLaws

  // ---------------------------------------------------------------------
  // What the journal does with one event
  // ---------------------------------------------------------------------

  /** One positional splice: a range check, a check of every inserted message, then the
      replacement. `other` is the queue the splice does not address. */
  function Splice(q: seq<Item>, other: seq<Item>, start: nat, removed: nat, inserted: seq<Item>): Option<seq<Item>> {
    if start > |q| || removed > |q| - start then None
    else if exists i :: 0 <= i < |inserted| && !inserted[i].message.Valid() then None
    else if Ids(inserted) * (Ids(q[..start]) + Ids(q[start + removed..]) + Ids(other)) != {} then None
    else if |Ids(inserted)| != |inserted| then None
    else Some(q[..start] + inserted + q[start + removed..])
  }

  /** A steer: addressed by id, checked against the queued message. */
  function SpliceSteer(turn: seq<Item>, step: seq<Item>, m: Message): Option<(seq<Item>, seq<Item>)> {
    match IndexOf(turn, m.id)
    case None => None
    case Some(k) =>
      if turn[k].message != m then None
      else Some((RemoveAt(turn, k), step + [Item(Steer, m)]))
  }

  // ---------------------------------------------------------------------
  // Memory and journal side by side
  // ---------------------------------------------------------------------

  /** The two journal queues beside the in-memory system. The `coming` lists hold what was
      appended to a journal queue and has not reached the memory queue; `gone`, `edits` and
      `journalled` say which outstanding reservations were appended and not committed. */
  datatype Durable = Durable(
    s: System, turn: seq<Item>, step: seq<Item>, comingTurn: seq<Item>, comingStep: seq<Item>,
    gone: set<MessageId>, edits: map<MessageId, Message>, journalled: set<nat>)
  {
    function Queue(nextStep: bool): seq<Item> {
      if nextStep then step else turn
    }

    function Coming(nextStep: bool): seq<Item> {
      if nextStep then comingStep else comingTurn
    }

    function With(nextStep: bool, q: seq<Item>): Durable {
      if nextStep then this.(step := q) else this.(turn := q)
    }

    function WithComing(nextStep: bool, q: seq<Item>): Durable {
      if nextStep then this.(comingStep := q) else this.(comingTurn := q)
    }
  }

  const NEW := Durable(INITIAL, [], [], [], [], {}, map[], {})

  datatype Action =
    | Enqueue(item: Item)
    | Deliver(nextStep: bool, i: nat, wakeup: bool)
    | Reserve(st: Step)
    | Append(token: nat)
    | Publish(token: nat)
    | Withdraw(token: nat)
    | Record(id: MessageId)

  /** The journal's answer to the event of one reservation: the new queue of its side. */
  function Applied(d: Durable, t: Token): Option<Durable> {
    match t
    case ClaimToken(c) =>
      (match Splice(d.Queue(c.nextStep), d.Queue(!c.nextStep), 0, |c.items|, [])
       case None => None
       case Some(q) => Some(d.With(c.nextStep, q).(gone := d.gone + Ids(c.items))))
    case UpdateToken(r, _) =>
      if r.update.MoveToStep? then
        (match SpliceSteer(d.turn, d.step, r.message)
         case None => None
         case Some((turn, step)) =>
           Some(d.(turn := turn, step := step, gone := d.gone + {r.id}, comingStep := d.comingStep + [Item(Steer, r.message)])))
      else
        var side := r.sourceTarget != Followup;
        var inserted := if r.update.Edit? then [Item(r.sourceTarget, r.message)] else [];
        match Splice(d.Queue(side), d.Queue(!side), r.start, 1, inserted)
        case None => None
        case Some(q) =>
          if r.update.Edit? then Some(d.With(side, q).(edits := d.edits[r.id := r.message]))
          else Some(d.With(side, q).(gone := d.gone + {r.id}))
  }

  function AppendStep(d: Durable, k: nat): Durable {
    if k !in d.s.tokens || k in d.journalled then d
    else match Applied(d, d.s.tokens[k])
      case None => d.(s := Next(d.s, Abort(k)))     // the append fails and the reservation is dropped
      case Some(d') => d'.(journalled := d.journalled + {k})
  }

  function PublishStep(d: Durable, k: nat): Durable {
    if k !in d.s.tokens || k !in d.journalled then d
    else
      var t := d.s.tokens[k];
      var settled := d.(s := Next(d.s, Commit(k)), gone := d.gone - TokenIds(t), edits := d.edits - TokenIds(t),
                        journalled := d.journalled - {k});
      if IsSteer(t) then settled.(comingStep := Drop(d.comingStep, TokenIds(t))) else settled
  }

  predicate IsSteer(t: Token) {
    t.UpdateToken? && t.reservation.update.MoveToStep?
  }

  predicate IsEdit(t: Token) {
    t.UpdateToken? && t.reservation.update.Edit?
  }

  predicate IsRemove(t: Token) {
    t.UpdateToken? && t.reservation.update.Remove?
  }

  /** Sent already, or no such entry: nothing to deliver. */
  predicate Deliverable(d: Durable, nextStep: bool, i: nat) {
    i < |d.Coming(nextStep)| && d.Coming(nextStep)[i].message.id !in d.s.sent
  }

  function DurableNext(d: Durable, a: Action): Durable {
    match a
    case Enqueue(item) =>
      var side := item.target != Followup;
      if !item.message.Valid() || item.message.id in Ids(d.turn) + Ids(d.step) then d
      else d.With(side, d.Queue(side) + [item]).WithComing(side, d.Coming(side) + [item])
    case Deliver(side, i, wakeup) =>
      if !Deliverable(d, side, i) then d
      else
        var item := d.Coming(side)[i];
        d.WithComing(side, RemoveAt(d.Coming(side), i)).(s := Next(d.s, Send(item.message, item.target, wakeup)))
    case Reserve(st) =>
      if st.ReserveTurn? || st.ReserveStep? || st.ReserveUpdate? then d.(s := Next(d.s, st)) else d
    case Append(k) => AppendStep(d, k)
    case Publish(k) => PublishStep(d, k)
    case Withdraw(k) => if k in d.s.tokens && k !in d.journalled then d.(s := Next(d.s, Abort(k))) else d
    case Record(id) =>
      if id in Ids(d.s.out) then d.(turn := Drop(d.turn, {id}), step := Drop(d.step, {id})) else d
  }

  /** Message ids are never reused. */
  predicate FreshAction(d: Durable, a: Action) {
    a.Enqueue? ==> a.item.message.id !in d.s.sent + Ids(d.comingTurn) + Ids(d.comingStep)
  }

  // ---------------------------------------------------------------------
  // A queue once the appended reservations are committed
  // ---------------------------------------------------------------------

  function Settled(x: Item, edits: map<MessageId, Message>): Item {
    if x.message.id in edits then x.(message := edits[x.message.id]) else x
  }

  function Settle(q: seq<Item>, gone: set<MessageId>, edits: map<MessageId, Message>): seq<Item> {
    if q == [] then []
    else if q[0].message.id in gone then Settle(q[1..], gone, edits)
    else [Settled(q[0], edits)] + Settle(q[1..], gone, edits)
  }

  /** The journal is the memory with the appended reservations committed and everything
      journalled delivered in journal order. */
  ghost predicate SyncedOn(d: Durable, nextStep: bool) {
    d.Queue(nextStep) == Settle(d.s.v.Queue(nextStep), d.gone, d.edits) + d.Coming(nextStep)
  }

  ghost predicate Synced(d: Durable) {
    SyncedOn(d, false) && SyncedOn(d, true)
  }

  predicate Keyed(edits: map<MessageId, Message>) {
    forall id :: id in edits ==> edits[id].id == id
  }

  lemma {:induction false} SettleConcat(a: seq<Item>, b: seq<Item>, gone: set<MessageId>, edits: map<MessageId, Message>)
    ensures Settle(a + b, gone, edits) == Settle(a, gone, edits) + Settle(b, gone, edits)
  {
    if a == [] {
      assert a + b == b;
    } else {
      assert (a + b)[1..] == a[1..] + b;
      SettleConcat(a[1..], b, gone, edits);
    }
  }

  /** Only what happens to its own ids matters to a queue. */
  lemma {:induction false} SettleSame(
      q: seq<Item>, gone: set<MessageId>, edits: map<MessageId, Message>, gone': set<MessageId>, edits': map<MessageId, Message>)
    requires forall id :: id in Ids(q) ==>
               && (id in gone <==> id in gone')
               && (id in edits <==> id in edits')
               && (id in edits && id in edits' ==> edits[id] == edits'[id])
    ensures Settle(q, gone, edits) == Settle(q, gone', edits')
  {
    if q != [] {
      IdAt(q, 0);
      IdsTail(q);
      SettleSame(q[1..], gone, edits, gone', edits');
    }
  }

  lemma {:induction false} SettleFacts(q: seq<Item>, gone: set<MessageId>, edits: map<MessageId, Message>)
    requires Distinct(q) && Keyed(edits)
    ensures Distinct(Settle(q, gone, edits)) && Ids(Settle(q, gone, edits)) == Ids(q) - gone
  {
    if q == [] {
      NoIds();
    } else {
      IdsTail(q);
      SettleFacts(q[1..], gone, edits);
      var x, rest := Settled(q[0], edits), Settle(q[1..], gone, edits);
      assert q[0].message.id !in Ids(q[1..]);
      SingletonIds(x);
      IdsConcat([x], rest);
      DistinctJoin([x], rest);
    }
  }

  lemma {:induction false} SettleUntouched(q: seq<Item>, gone: set<MessageId>, edits: map<MessageId, Message>)
    requires Ids(q) !! gone && Ids(q) !! edits.Keys
    ensures Settle(q, gone, edits) == q
  {
    if q != [] {
      IdAt(q, 0);
      IdsTail(q);
      SettleUntouched(q[1..], gone, edits);
    }
  }

  lemma {:induction false} SettleGone(q: seq<Item>, gone: set<MessageId>, edits: map<MessageId, Message>)
    requires Ids(q) <= gone
    ensures Settle(q, gone, edits) == []
  {
    if q != [] {
      IdAt(q, 0);
      IdsTail(q);
      SettleGone(q[1..], gone, edits);
    }
  }

  /** Committing what is gone does not change what the queue settles to. */
  lemma {:induction false} SettleDropped(q: seq<Item>, ids: set<MessageId>, gone: set<MessageId>, edits: map<MessageId, Message>)
    requires ids <= gone
    ensures Settle(Drop(q, ids), gone - ids, edits - ids) == Settle(q, gone, edits)
  {
    if q != [] {
      SettleDropped(q[1..], ids, gone, edits);
      var rest := Drop(q[1..], ids);
      if q[0].message.id !in ids {
        assert ([q[0]] + rest)[1..] == rest;
      }
    }
  }

  /** Committing an edit does not either. */
  lemma {:induction false} SettleReplaced(q: seq<Item>, m: Message, gone: set<MessageId>, edits: map<MessageId, Message>)
    requires m.id in edits && edits[m.id] == m && m.id !in gone
    ensures Settle(Replace(q, m), gone - {m.id}, edits - {m.id}) == Settle(q, gone, edits)
  {
    if q != [] {
      SettleReplaced(q[1..], m, gone, edits);
      assert Replace(q, m)[1..] == Replace(q[1..], m);
    }
  }

  // ---------------------------------------------------------------------
  // The invariant of every run
  // ---------------------------------------------------------------------

  /** Nothing sweeps the queues in these runs, so every reservation stays held. */
  ghost predicate AllHeld(s: System) {
    forall k :: k in s.tokens ==> Held(s.v, s.tokens[k]) && (IsEdit(s.tokens[k]) ==> s.tokens[k].reservation.message.Valid())
  }

  ghost predicate Appended(tokens: map<nat, Token>, journalled: set<nat>, id: MessageId) {
    exists k :: k in journalled && k in tokens && id in TokenIds(tokens[k])
  }

  /** `gone` and `edits` are what the appended reservations will do. */
  ghost predicate Pledged(tokens: map<nat, Token>, journalled: set<nat>, gone: set<MessageId>, edits: map<MessageId, Message>) {
    && journalled <= tokens.Keys
    && Keyed(edits)
    && (forall id :: id in gone ==> Appended(tokens, journalled, id))
    && (forall id :: id in edits ==> Appended(tokens, journalled, id))
    && (forall k :: k in journalled ==> Pledges(tokens[k], gone, edits))
  }

  ghost predicate Pledges(t: Token, gone: set<MessageId>, edits: map<MessageId, Message>) {
    if IsEdit(t) then
      && t.reservation.id in edits
      && edits[t.reservation.id] == t.reservation.message
      && t.reservation.id !in gone
    else TokenIds(t) <= gone && TokenIds(t) !! edits.Keys
  }

  predicate Unsent(x: Item, sent: set<MessageId>) {
    x.message.Valid() && x.message.id !in sent
  }

  predicate SteerOf(t: Token, x: Item) {
    IsSteer(t) && x == Item(Steer, t.reservation.message)
  }

  ghost predicate Steering(tokens: map<nat, Token>, journalled: set<nat>, x: Item) {
    exists k :: k in journalled && k in tokens && SteerOf(tokens[k], x)
  }

  /** What is on its way: unsent messages, and messages being steered. */
  ghost predicate ComingInv(
    turn: seq<Item>, step: seq<Item>, sent: set<MessageId>, tokens: map<nat, Token>, journalled: set<nat>)
  {
    && Distinct(turn)
    && Distinct(step)
    && Ids(turn) !! Ids(step)
    && (forall x :: x in turn ==> x.target == Followup && Unsent(x, sent))
    && (forall x :: x in step ==> x.target != Followup && (Unsent(x, sent) || Steering(tokens, journalled, x)))
    && (forall x :: Steering(tokens, journalled, x) ==> x in step)
  }

  ghost predicate DurableInv(d: Durable) {
    && Inv(d.s)
    && AllHeld(d.s)
    && Pledged(d.s.tokens, d.journalled, d.gone, d.edits)
    && ComingInv(d.comingTurn, d.comingStep, d.s.sent, d.s.tokens, d.journalled)
  }

  predicate Quiet(st: Step) {
    st.Send? || st.ReserveTurn? || st.ReserveStep? || st.ReserveUpdate? || st.Commit? || st.Abort?
  }

  /** What a memory step leaves of the other reservations. */
  lemma OthersStay(s: System, st: Step)
    requires Inv(s) && AllHeld(s) && Fresh(s, st) && Quiet(st)
    ensures Inv(Next(s, st)) && AllHeld(Next(s, st))
    ensures forall k :: k in s.tokens && !Consumes(st, k) ==>
              k in Next(s, st).tokens && Next(s, st).tokens[k] == s.tokens[k]
    ensures forall k :: k in Next(s, st).tokens && k !in s.tokens ==> k == s.next && Granted(s, st).Some?
    ensures forall k :: k in s.tokens ==> k < s.next
    ensures s.sent <= Next(s, st).sent
  {
    hide Held, NextView, Leaving, Granted, TokenInv, Conserved, View.WellFormed, TokenIds;
    InvStep(s, st);
    var s' := Next(s, st);
    assert forall k :: k in s.tokens ==> k < s.next;
    forall k | k in s'.tokens
      ensures Held(s'.v, s'.tokens[k]) && (IsEdit(s'.tokens[k]) ==> s'.tokens[k].reservation.message.Valid())
    {
      if k in s.tokens {
        assert s'.tokens[k] == s.tokens[k] && !Consumes(st, k);
        TokenStep(s, st, k);
      } else {
        GrantedFacts(s, st);
        GrantedValid(s, st);
      }
    }
  }

  lemma GrantedValid(s: System, st: Step)
    requires Granted(s, st).Some?
    ensures IsEdit(Granted(s, st).value) ==> Granted(s, st).value.reservation.message.Valid()
  {
    hide Ids, IndexOf;
  }

  lemma {:induction false} DropMember(q: seq<Item>, ids: set<MessageId>, x: Item)
    ensures x in Drop(q, ids) <==> x in q && x.message.id !in ids
  {
    if q != [] {
      DropMember(q[1..], ids, x);
      assert q == [q[0]] + q[1..];
    }
  }

  // ---------------------------------------------------------------------
  // Each action keeps the invariant
  // ---------------------------------------------------------------------

  lemma EnqueueKeeps(d: Durable, item: Item)
    requires DurableInv(d) && FreshAction(d, Enqueue(item))
    ensures DurableInv(DurableNext(d, Enqueue(item)))
  {
    hide Inv, AllHeld, Pledged, Steering;
    var d' := DurableNext(d, Enqueue(item));
    var side := item.target != Followup;
    SingletonIds(item);
    IdsConcat(d.Coming(side), [item]);
    DistinctJoin(d.Coming(side), [item]);
  }

  lemma DeliverKeeps(d: Durable, side: bool, i: nat, wakeup: bool)
    requires DurableInv(d) && Deliverable(d, side, i)
    ensures DurableInv(DurableNext(d, Deliver(side, i, wakeup)))
    ensures MotionOf(d.s, Send(d.Coming(side)[i].message, d.Coming(side)[i].target, wakeup)) == InboxRuns.Appended(d.Coming(side)[i])
    ensures (d.Coming(side)[i].target != Followup) == side
  {
    var d' := DurableNext(d, Deliver(side, i, wakeup));
    var coming := d.Coming(side);
    var x := coming[i];
    var st := Send(x.message, x.target, wakeup);
    assert x in coming;
    assert Unsent(x, d.s.sent) by { SteeredIsSent(d, x); }
    SentOnce(d.s, st, x);
    OthersStay(d.s, st);
    assert Granted(d.s, st).None?;
    assert d'.s.tokens == d.s.tokens;
    forall y: Item
      ensures Steering(d.s.tokens, d.journalled, y) ==> y.message.id in d.s.sent
    {
      SteeredIsSent(d, y);
    }
    hide Inv, AllHeld, Pledged, Next, Steering, ComingInv;
    ComingShrinks(d.comingTurn, d.comingStep, d.s.sent, d.s.tokens, d.journalled, side, i);
  }

  lemma ComingShrinks(
      turn: seq<Item>, step: seq<Item>, sent: set<MessageId>, tokens: map<nat, Token>, journalled: set<nat>, side: bool, i: nat)
    requires ComingInv(turn, step, sent, tokens, journalled)
    requires i < |if side then step else turn|
    requires (if side then step else turn)[i].message.id !in sent
    requires forall y :: Steering(tokens, journalled, y) ==> y.message.id in sent
    ensures var sent' := sent + {(if side then step else turn)[i].message.id};
            if side then ComingInv(turn, RemoveAt(step, i), sent', tokens, journalled)
            else ComingInv(RemoveAt(turn, i), step, sent', tokens, journalled)
  {
    hide Steering;
    MemberIds(turn);
    MemberIds(step);
    IdAt(if side then step else turn, i);
    RemoveAtFacts(if side then step else turn, i);
    hide RemoveAt, Ids;
  }

  lemma MemberIds(q: seq<Item>)
    ensures forall x :: x in q ==> x.message.id in Ids(q)
  {
  }

  lemma RemoveAtFacts(q: seq<Item>, i: nat)
    requires Distinct(q) && i < |q|
    ensures Distinct(RemoveAt(q, i)) && Ids(RemoveAt(q, i)) == Ids(q) - {q[i].message.id}
    ensures forall x :: x in RemoveAt(q, i) ==> x in q && x.message.id != q[i].message.id
    ensures forall x :: x in q && x.message.id != q[i].message.id ==> x in RemoveAt(q, i)
  {
    DropAt(q, i);
    DropFacts(q, {q[i].message.id});
    forall x: Item
      ensures x in RemoveAt(q, i) <==> x in q && x.message.id != q[i].message.id
    {
      DropMember(q, {q[i].message.id}, x);
    }
  }

  lemma SteeredIsSent(d: Durable, x: Item)
    requires Inv(d.s)
    ensures Steering(d.s.tokens, d.journalled, x) ==> x.message.id in d.s.sent
  {
    hide Held, Lost, Conserved;
    if Steering(d.s.tokens, d.journalled, x) {
      var k :| k in d.journalled && k in d.s.tokens && SteerOf(d.s.tokens[k], x);
      assert TokenInv(d.s, d.s.tokens[k]);
    }
  }

  lemma SentOnce(s: System, st: Step, x: Item)
    requires Inv(s) && st.Send? && x == Item(st.target, st.message) && Unsent(x, s.sent)
    ensures MotionOf(s, st) == InboxRuns.Appended(x) && Fresh(s, st)
    ensures Next(s, st).sent == s.sent + {x.message.id} && Next(s, st).tokens == s.tokens
  {
    hide TokensInv, Ids;
  }

  lemma ReserveKeeps(d: Durable, st: Step)
    requires DurableInv(d) && (st.ReserveTurn? || st.ReserveStep? || st.ReserveUpdate?)
    ensures DurableInv(d.(s := Next(d.s, st)))
  {
    var d' := d.(s := Next(d.s, st));
    OthersStay(d.s, st);
    assert d'.s.sent == d.s.sent;
    hide Inv, AllHeld, Next;
    RelatedKeeps(d, d');
  }

  /** More reservations in memory, none of them appended. */
  lemma RelatedKeeps(d: Durable, d': Durable)
    requires Pledged(d.s.tokens, d.journalled, d.gone, d.edits)
    requires ComingInv(d.comingTurn, d.comingStep, d.s.sent, d.s.tokens, d.journalled)
    requires d' == d.(s := d'.s) && d'.s.sent == d.s.sent
    requires forall k :: k in d.journalled ==> k in d'.s.tokens && k in d.s.tokens && d'.s.tokens[k] == d.s.tokens[k]
    ensures Pledged(d'.s.tokens, d'.journalled, d'.gone, d'.edits)
    ensures ComingInv(d'.comingTurn, d'.comingStep, d'.s.sent, d'.s.tokens, d'.journalled)
  {
    hide Pledges, TokenIds, Ids, Distinct, SteerOf;
    forall id | Appended(d.s.tokens, d.journalled, id)
      ensures Appended(d'.s.tokens, d'.journalled, id)
    {
      var k :| k in d.journalled && k in d.s.tokens && id in TokenIds(d.s.tokens[k]);
      assert k in d'.s.tokens && id in TokenIds(d'.s.tokens[k]);
    }
    forall x: Item
      ensures Steering(d.s.tokens, d.journalled, x) <==> Steering(d'.s.tokens, d'.journalled, x)
    {
      if Steering(d.s.tokens, d.journalled, x) {
        var k :| k in d.journalled && k in d.s.tokens && SteerOf(d.s.tokens[k], x);
        assert k in d'.s.tokens && SteerOf(d'.s.tokens[k], x);
      }
    }
  }

  lemma WithdrawKeeps(d: Durable, k: nat)
    requires DurableInv(d) && k in d.s.tokens && k !in d.journalled
    ensures DurableInv(d.(s := Next(d.s, Abort(k))))
  {
    var d' := d.(s := Next(d.s, Abort(k)));
    OthersStay(d.s, Abort(k));
    assert d'.s.sent == d.s.sent;
    hide Inv, AllHeld, Next;
    RelatedKeeps(d, d');
  }

  ghost predicate Apart(tokens: map<nat, Token>) {
    forall j, k :: j in tokens && k in tokens && j != k ==> TokenIds(tokens[j]) !! TokenIds(tokens[k])
  }

  /** What a reservation not yet appended touches is untouched by the appended ones. */
  lemma Untouched(d: Durable, k: nat)
    requires Apart(d.s.tokens) && Pledged(d.s.tokens, d.journalled, d.gone, d.edits)
    requires k in d.s.tokens && k !in d.journalled
    ensures TokenIds(d.s.tokens[k]) !! d.gone && TokenIds(d.s.tokens[k]) !! d.edits.Keys
  {
    hide TokenIds, Pledges;
    forall id | id in d.gone || id in d.edits
      ensures id !in TokenIds(d.s.tokens[k])
    {
      var j :| j in d.journalled && j in d.s.tokens && id in TokenIds(d.s.tokens[j]);
      assert TokenIds(d.s.tokens[j]) !! TokenIds(d.s.tokens[k]);
    }
  }

  lemma PledgeMore(d: Durable, k: nat, gone: set<MessageId>, edits: map<MessageId, Message>)
    requires Apart(d.s.tokens) && Pledged(d.s.tokens, d.journalled, d.gone, d.edits)
    requires k in d.s.tokens && k !in d.journalled && Shaped(d.s.tokens[k])
    requires var t := d.s.tokens[k];
             if IsEdit(t) then gone == d.gone && edits == d.edits[t.reservation.id := t.reservation.message]
             else gone == d.gone + TokenIds(t) && edits == d.edits
    ensures Pledged(d.s.tokens, d.journalled + {k}, gone, edits)
  {
    var tokens, journalled := d.s.tokens, d.journalled + {k};
    var t := tokens[k];
    Untouched(d, k);
    forall id | id in gone || id in edits
      ensures Appended(tokens, journalled, id)
    {
      if id in TokenIds(t) {
        assert k in journalled;
      } else {
        assert Appended(tokens, d.journalled, id);
        var j :| j in d.journalled && j in tokens && id in TokenIds(tokens[j]);
        assert j in journalled;
      }
    }
    forall j | j in journalled
      ensures Pledges(tokens[j], gone, edits)
    {
      if j != k {
        assert Pledges(tokens[j], d.gone, d.edits);
        assert TokenIds(tokens[j]) !! TokenIds(t);
      }
    }
  }

  lemma PledgeLess(d: Durable, k: nat)
    requires Apart(d.s.tokens) && Pledged(d.s.tokens, d.journalled, d.gone, d.edits) && k in d.journalled
    ensures var ids := TokenIds(d.s.tokens[k]);
            Pledged(d.s.tokens - {k}, d.journalled - {k}, d.gone - ids, d.edits - ids)
  {
    hide TokenIds;
    var tokens, journalled, ids := d.s.tokens - {k}, d.journalled - {k}, TokenIds(d.s.tokens[k]);
    forall id | id in d.gone - ids || id in d.edits - ids
      ensures Appended(tokens, journalled, id)
    {
      var j :| j in d.journalled && j in d.s.tokens && id in TokenIds(d.s.tokens[j]);
      assert j in journalled && j in tokens && id in TokenIds(tokens[j]);
    }
    forall j | j in journalled
      ensures Pledges(tokens[j], d.gone - ids, d.edits - ids)
    {
      assert Pledges(d.s.tokens[j], d.gone, d.edits);
      assert TokenIds(d.s.tokens[j]) !! ids;
      EditIds(d.s.tokens[j]);
    }
  }

  lemma EditIds(t: Token)
    ensures IsEdit(t) ==> t.reservation.id in TokenIds(t)
  {
  }

  lemma SteeringMore(tokens: map<nat, Token>, journalled: set<nat>, k: nat, x: Item)
    requires k in tokens
    ensures Steering(tokens, journalled + {k}, x) <==> Steering(tokens, journalled, x) || SteerOf(tokens[k], x)
  {
    hide SteerOf;
    if Steering(tokens, journalled, x) {
      var j :| j in journalled && j in tokens && SteerOf(tokens[j], x);
      assert j in journalled + {k};
    }
    if SteerOf(tokens[k], x) {
      assert k in journalled + {k};
    }
  }

  lemma SteeringLess(tokens: map<nat, Token>, journalled: set<nat>, k: nat, x: Item)
    requires k in journalled && k in tokens && Apart(tokens)
    requires forall j :: j in tokens && IsSteer(tokens[j]) ==> tokens[j].reservation.message.id == tokens[j].reservation.id
    ensures Steering(tokens - {k}, journalled - {k}, x) <==>
              Steering(tokens, journalled, x) && !(IsSteer(tokens[k]) && x.message.id in TokenIds(tokens[k]))
  {
    if Steering(tokens - {k}, journalled - {k}, x) {
      var j :| j in journalled - {k} && j in tokens - {k} && SteerOf((tokens - {k})[j], x);
      assert j in journalled && SteerOf(tokens[j], x);
      assert TokenIds(tokens[j]) !! TokenIds(tokens[k]);
    }
    if Steering(tokens, journalled, x) {
      var j :| j in journalled && j in tokens && SteerOf(tokens[j], x);
      if j != k {
        assert j in journalled - {k} && j in tokens - {k} && SteerOf((tokens - {k})[j], x);
      }
    }
  }

  /** The ids of one reservation, with what the inbox knows about them. */
  lemma TokenFacts(s: System)
    requires Inv(s)
    ensures Apart(s.tokens)
    ensures forall k :: k in s.tokens ==> Shaped(s.tokens[k]) && TokenIds(s.tokens[k]) <= s.sent
    ensures forall k :: k in s.tokens && s.tokens[k].UpdateToken? ==> s.tokens[k].reservation.message.id == s.tokens[k].reservation.id
  {
    hide Held, Lost, Conserved, View.WellFormed, TokenIds;
    forall k | k in s.tokens
      ensures Shaped(s.tokens[k]) && TokenIds(s.tokens[k]) <= s.sent
      ensures s.tokens[k].UpdateToken? ==> s.tokens[k].reservation.message.id == s.tokens[k].reservation.id
    {
      assert TokenInv(s, s.tokens[k]);
    }
  }

  lemma ComingSteer(d: Durable, k: nat)
    requires Inv(d.s) && ComingInv(d.comingTurn, d.comingStep, d.s.sent, d.s.tokens, d.journalled)
    requires k in d.s.tokens && k !in d.journalled && IsSteer(d.s.tokens[k])
    ensures ComingInv(d.comingTurn, d.comingStep + [Item(Steer, d.s.tokens[k].reservation.message)],
                      d.s.sent, d.s.tokens, d.journalled + {k})
  {
    TokenFacts(d.s);
    hide Inv, Shaped;
    var t := d.s.tokens[k];
    var x := Item(Steer, t.reservation.message);
    SingletonIds(x);
    IdsConcat(d.comingStep, [x]);
    assert x.message.id in TokenIds(t);
    assert x.message.id !in Ids(d.comingTurn);
    forall y | y in d.comingStep
      ensures y.message.id != x.message.id
    {
      if Steering(d.s.tokens, d.journalled, y) {
        var j :| j in d.journalled && j in d.s.tokens && SteerOf(d.s.tokens[j], y);
        assert TokenIds(d.s.tokens[j]) !! TokenIds(t);
        assert y.message.id in TokenIds(d.s.tokens[j]);
      }
    }
    assert x.message.id !in Ids(d.comingStep);
    DistinctJoin(d.comingStep, [x]);
    forall y: Item
      ensures Steering(d.s.tokens, d.journalled + {k}, y) <==> Steering(d.s.tokens, d.journalled, y) || y == x
    {
      SteeringMore(d.s.tokens, d.journalled, k, y);
    }
    hide Steering, Distinct, Ids, TokenIds;
  }

  lemma ComingOther(d: Durable, k: nat)
    requires ComingInv(d.comingTurn, d.comingStep, d.s.sent, d.s.tokens, d.journalled)
    requires k in d.s.tokens && !IsSteer(d.s.tokens[k])
    ensures ComingInv(d.comingTurn, d.comingStep, d.s.sent, d.s.tokens, d.journalled + {k})
  {
    forall y: Item
      ensures Steering(d.s.tokens, d.journalled + {k}, y) <==> Steering(d.s.tokens, d.journalled, y)
    {
      SteeringMore(d.s.tokens, d.journalled, k, y);
    }
    hide Steering, Distinct, Ids;
  }

  lemma AppendKeeps(d: Durable, k: nat)
    requires DurableInv(d)
    ensures DurableInv(AppendStep(d, k))
  {
    hide Inv, AllHeld, Splice, SpliceSteer, Pledged, ComingInv;
    if k in d.s.tokens && k !in d.journalled {
      var t := d.s.tokens[k];
      TokenFacts(d.s);
      match Applied(d, t)
      case None => WithdrawKeeps(d, k);
      case Some(d') =>
        PledgeMore(d, k, d'.gone, d'.edits);
        if IsSteer(t) {
          ComingSteer(d, k);
        } else {
          ComingOther(d, k);
        }
        assert AppendStep(d, k) == d'.(journalled := d.journalled + {k});
        hide Shaped, Apart;
        assert d'.s == d.s;
    }
  }

  lemma SteeringPublished(s: System, journalled: set<nat>, k: nat)
    requires Inv(s) && k in s.tokens && k in journalled
    ensures forall y :: Steering(s.tokens - {k}, journalled - {k}, y) <==>
              Steering(s.tokens, journalled, y) && !(IsSteer(s.tokens[k]) && y.message.id in TokenIds(s.tokens[k]))
  {
    TokenFacts(s);
    hide Inv, Shaped, Steering, TokenIds;
    forall y: Item
      ensures Steering(s.tokens - {k}, journalled - {k}, y) <==>
                Steering(s.tokens, journalled, y) && !(IsSteer(s.tokens[k]) && y.message.id in TokenIds(s.tokens[k]))
    {
      SteeringLess(s.tokens, journalled, k, y);
    }
  }

  lemma ComingPublished(d: Durable, k: nat)
    requires Inv(d.s) && ComingInv(d.comingTurn, d.comingStep, d.s.sent, d.s.tokens, d.journalled)
    requires k in d.s.tokens && k in d.journalled
    ensures ComingInv(d.comingTurn, PublishStep(d, k).comingStep, d.s.sent, d.s.tokens - {k}, d.journalled - {k})
  {
    hide Inv, Steering, TokenIds, Next, Drop, Ids, Distinct;
    SteeringPublished(d.s, d.journalled, k);
    var t := d.s.tokens[k];
    if IsSteer(t) {
      ComingDrop(d.comingTurn, d.comingStep, d.s.sent, d.s.tokens, d.journalled, d.s.tokens - {k}, d.journalled - {k}, TokenIds(t));
    }
  }

  lemma ComingDrop(
      turn: seq<Item>, step: seq<Item>, sent: set<MessageId>, tokens: map<nat, Token>, journalled: set<nat>,
      tokens': map<nat, Token>, journalled': set<nat>, ids: set<MessageId>)
    requires ComingInv(turn, step, sent, tokens, journalled)
    requires forall y :: Steering(tokens', journalled', y) <==> Steering(tokens, journalled, y) && y.message.id !in ids
    ensures ComingInv(turn, Drop(step, ids), sent, tokens', journalled')
  {
    hide Steering;
    DropFacts(step, ids);
    forall y: Item
      ensures y in Drop(step, ids) <==> y in step && y.message.id !in ids
    {
      DropMember(step, ids, y);
    }
    hide Drop, Ids;
  }

  lemma PublishKeeps(d: Durable, k: nat)
    requires DurableInv(d)
    ensures DurableInv(PublishStep(d, k))
  {
    hide AllHeld, Pledged, ComingInv;
    if k in d.s.tokens && k in d.journalled {
      TokenFacts(d.s);
      OthersStay(d.s, Commit(k));
      PledgeLess(d, k);
      ComingPublished(d, k);
      CommitKeepsSent(d.s, k);
      hide Inv, Next, Apart, Shaped;
    }
  }

  lemma CommitKeepsSent(s: System, k: nat)
    requires k in s.tokens
    ensures Next(s, Commit(k)).sent == s.sent && Next(s, Commit(k)).tokens == s.tokens - {k}
  {
    hide NextView, Leaving, Ids, IndexOf, Drop;
  }

  lemma DurableInvStep(d: Durable, a: Action)
    requires DurableInv(d) && FreshAction(d, a)
    ensures DurableInv(DurableNext(d, a))
  {
    match a
    case Enqueue(item) => EnqueueKeeps(d, item);
    case Deliver(side, i, wakeup) => if Deliverable(d, side, i) { DeliverKeeps(d, side, i, wakeup); }
    case Reserve(st) => if st.ReserveTurn? || st.ReserveStep? || st.ReserveUpdate? { ReserveKeeps(d, st); }
    case Append(k) => AppendKeeps(d, k);
    case Publish(k) => PublishKeeps(d, k);
    case Withdraw(k) => if k in d.s.tokens && k !in d.journalled { WithdrawKeeps(d, k); }
    case Record(id) =>
  }

  // ---------------------------------------------------------------------
  // The journal while it agrees with memory
  // ---------------------------------------------------------------------

  /** Nothing on its way is pending in the same queue, or about to be. */
  lemma ComingApart(d: Durable, side: bool)
    requires DurableInv(d)
    ensures Distinct(d.Coming(side)) && Ids(d.comingTurn) !! Ids(d.comingStep)
    ensures forall id :: id in Ids(d.Coming(side)) ==>
              id !in d.s.sent || (side && id in d.gone && id in Ids(d.s.v.turn))
  {
    TokenFacts(d.s);
    hide Inv, Shaped, Apart;
    forall id | id in Ids(d.Coming(side)) && id in d.s.sent
      ensures side && id in d.gone && id in Ids(d.s.v.turn)
    {
      var i :| 0 <= i < |d.Coming(side)| && d.Coming(side)[i].message.id == id;
      var x := d.Coming(side)[i];
      assert x in d.Coming(side);
      var k :| k in d.journalled && k in d.s.tokens && SteerOf(d.s.tokens[k], x);
      assert Pledges(d.s.tokens[k], d.gone, d.edits);
      assert Held(d.s.v, d.s.tokens[k]);
      HeldSteer(d.s, k);
    }
  }

  lemma HeldSteer(s: System, k: nat)
    requires k in s.tokens && IsSteer(s.tokens[k]) && Shaped(s.tokens[k]) && Held(s.v, s.tokens[k])
    ensures s.tokens[k].reservation.message.id in Ids(s.v.turn)
  {
    var r := s.tokens[k].reservation;
    IdAt(s.v.turn, IndexOf(s.v.turn, r.id).value);
  }

  lemma PendingSent(s: System)
    requires Inv(s)
    ensures s.v.Pending() <= s.sent && Distinct(s.v.turn) && Distinct(s.v.step) && Ids(s.v.turn) !! Ids(s.v.step)
    ensures Ids(s.out) <= s.sent && Ids(s.out) !! s.v.Pending()
  {
    hide TokensInv, Ids;
    WellFormedParts(s.v);
  }

  lemma JournalIds(d: Durable)
    requires DurableInv(d) && Synced(d)
    ensures Ids(d.turn) == (Ids(d.s.v.turn) - d.gone) + Ids(d.comingTurn)
    ensures Ids(d.step) == (Ids(d.s.v.step) - d.gone) + Ids(d.comingStep)
    ensures Distinct(d.turn) && Distinct(d.step) && Ids(d.turn) !! Ids(d.step)
    ensures Ids(d.s.out) !! Ids(d.turn) + Ids(d.step)
  {
    PendingSent(d.s);
    ComingApart(d, false);
    ComingApart(d, true);
    assert Keyed(d.edits);
    hide Inv, AllHeld, Pledged, ComingInv, Ids, Settle, Distinct;
    SettleFacts(d.s.v.turn, d.gone, d.edits);
    SettleFacts(d.s.v.step, d.gone, d.edits);
    IdsConcat(Settle(d.s.v.turn, d.gone, d.edits), d.comingTurn);
    IdsConcat(Settle(d.s.v.step, d.gone, d.edits), d.comingStep);
    DistinctJoin(Settle(d.s.v.turn, d.gone, d.edits), d.comingTurn);
    DistinctJoin(Settle(d.s.v.step, d.gone, d.edits), d.comingStep);
  }

  /** Where an update's message stands in the journal: behind those of the entries ahead of it
      at its reservation that the journal still holds, so at the recorded start exactly when
      the journal still holds all of them. */
  lemma OwnPlace(d: Durable, k: nat) returns (a: seq<Item>, x: Item, b: seq<Item>)
    requires DurableInv(d) && Synced(d) && k in d.s.tokens && d.s.tokens[k].UpdateToken? && k !in d.journalled
    ensures var t := d.s.tokens[k];
            var r, side := t.reservation, t.reservation.sourceTarget != Followup;
            && d.s.v.Queue(side) == a + [x] + b
            && x.target == r.sourceTarget && x.message.id == r.id == r.message.id
            && (!r.update.Edit? ==> x.message == r.message)
            && r.id !in d.gone && r.id !in d.edits
            && d.Queue(side) == Settle(a, d.gone, d.edits) + [x] + (Settle(b, d.gone, d.edits) + d.Coming(side))
            && |Settle(a, d.gone, d.edits)| <= r.start
            && (|Settle(a, d.gone, d.edits)| == r.start <==> Ids(t.ahead) <= Ids(d.Queue(side)))
  {
    a, x, b := MemoryPlace(d.s, k);
    TokenFacts(d.s);
    Untouched(d, k);
    assert Keyed(d.edits);
    hide Inv, AllHeld, Pledged, ComingInv, Ids, Settle, Distinct, Shaped, Apart;
    var t := d.s.tokens[k];
    var side := t.reservation.sourceTarget != Followup;
    JournalIds(d);
    ComingApart(d, side);
    SettleOwn(a, x, b, d.gone, d.edits, d.Coming(side));
    PlaceCount(d.s.v.Queue(side), a, t.ahead, d.gone, d.edits, d.Coming(side), d.Queue(side));
  }

  /** The same in memory. */
  lemma MemoryPlace(s: System, k: nat) returns (a: seq<Item>, x: Item, b: seq<Item>)
    requires Inv(s) && k in s.tokens && s.tokens[k].UpdateToken? && Held(s.v, s.tokens[k])
    ensures var t := s.tokens[k];
            var r, side := t.reservation, t.reservation.sourceTarget != Followup;
            && s.v.Queue(side) == a + [x] + b
            && x.target == r.sourceTarget && x.message.id == r.id == r.message.id
            && (!r.update.Edit? ==> x.message == r.message)
            && Ids(a) == Ids(t.ahead) * Ids(s.v.Queue(side)) && Distinct(a) && Distinct(t.ahead)
            && r.start == |t.ahead| && Ids(t.ahead) <= s.sent && (side ==> Ids(t.ahead) !! Ids(s.v.turn))
  {
    var t := s.tokens[k];
    var r, side := t.reservation, t.reservation.sourceTarget != Followup;
    var q := s.v.Queue(side);
    assert TokenInv(s, t);
    PendingSent(s);
    hide Inv, Ids, IndexOf, Lost;
    var now := IndexOf(q, r.id).value;
    a, x, b := q[..now], q[now], q[now + 1..];
    assert q == a + [x] + b;
    AheadFacts(q, now);
  }

  lemma SettleOwn(a: seq<Item>, x: Item, b: seq<Item>, gone: set<MessageId>, edits: map<MessageId, Message>, coming: seq<Item>)
    requires x.message.id !in gone && x.message.id !in edits
    ensures Settle(a + [x] + b, gone, edits) + coming == Settle(a, gone, edits) + [x] + (Settle(b, gone, edits) + coming)
  {
    SettleConcat(a + [x], b, gone, edits);
    SettleConcat(a, [x], gone, edits);
    assert Settle([x], gone, edits) == [x] by {
      assert [x][1..] == [];
    }
  }

  lemma PlaceCount(
      q: seq<Item>, a: seq<Item>, ahead: seq<Item>, gone: set<MessageId>, edits: map<MessageId, Message>,
      coming: seq<Item>, journal: seq<Item>)
    requires Distinct(a) && Distinct(ahead) && Keyed(edits)
    requires Ids(a) == Ids(ahead) * Ids(q) && Ids(ahead) !! Ids(coming)
    requires Ids(journal) == (Ids(q) - gone) + Ids(coming)
    ensures |Settle(a, gone, edits)| <= |ahead|
    ensures |Settle(a, gone, edits)| == |ahead| <==> Ids(ahead) <= Ids(journal)
  {
    hide Ids, Settle, Distinct;
    SettleFacts(a, gone, edits);
    InboxLaws.IdsCount(Settle(a, gone, edits));
    InboxLaws.IdsCount(ahead);
    InboxLaws.SubsetCount(Ids(a) - gone, Ids(ahead));
    assert Ids(a) - gone == Ids(ahead) * Ids(journal);
  }

  /** An edit or a removal finds its own message at its recorded start in the journal if and
      only if everything queued ahead of it when it was reserved is still in the journal. */
  lemma SpliceFindsOwn(d: Durable, k: nat)
    requires DurableInv(d) && Synced(d) && k in d.s.tokens && d.s.tokens[k].UpdateToken? && k !in d.journalled
    ensures var r := d.s.tokens[k].reservation;
            var q := d.Queue(r.sourceTarget != Followup);
            (r.start < |q| && q[r.start].message.id == r.id) <==> Ids(d.s.tokens[k].ahead) <= Ids(q)
  {
    var a, x, b := OwnPlace(d, k);
    JournalIds(d);
    hide DurableInv, Synced, Settle, Ids;
    var t := d.s.tokens[k];
    var q, p := d.Queue(t.reservation.sourceTarget != Followup), |Settle(a, d.gone, d.edits)|;
    assert q[p] == x;
    if t.reservation.start < |q| && p != t.reservation.start {
      assert q[t.reservation.start].message.id != q[p].message.id;
    }
  }

  // ---------------------------------------------------------------------
  // One action: agreement is kept exactly by the faithful ones
  // ---------------------------------------------------------------------

  /** Only three things can part journal and memory: appending a removal that applies although an
      entry ahead of it is no longer in the journal, and letting a sent or a steered
      message reach memory before one that was journalled earlier for the same queue. */
  ghost predicate Faithful(d: Durable, a: Action) {
    match a
    case Append(k) =>
      k in d.s.tokens && k !in d.journalled && IsRemove(d.s.tokens[k]) ==>
        var q := d.Queue(d.s.tokens[k].reservation.sourceTarget != Followup);
        Ids(d.s.tokens[k].ahead) <= Ids(q) || d.s.tokens[k].reservation.start >= |q|
    case Deliver(side, i, _) => Deliverable(d, side, i) ==> i == 0
    case Publish(k) =>
      k in d.s.tokens && k in d.journalled && IsSteer(d.s.tokens[k]) ==>
        d.comingStep != [] && d.comingStep[0].message.id == d.s.tokens[k].reservation.id
    case _ => true
  }

  lemma EnqueueSync(d: Durable, item: Item)
    requires Synced(d)
    ensures Synced(DurableNext(d, Enqueue(item)))
  {
    hide Settle, Ids;
    var side := item.target != Followup;
    var q := Settle(d.s.v.Queue(side), d.gone, d.edits);
    assert q + d.Coming(side) + [item] == q + (d.Coming(side) + [item]);
  }

  /** Taking an entry out of the middle of a list and putting it first changes the list. */
  lemma FrontOnly(q: seq<Item>, coming: seq<Item>, i: nat)
    requires i < |coming| && Distinct(coming)
    ensures q + [coming[i]] + RemoveAt(coming, i) == q + coming <==> i == 0
  {
    var left := q + [coming[i]] + RemoveAt(coming, i);
    if i == 0 {
      assert [coming[0]] + coming[1..] == coming;
      assert left == q + coming;
    } else {
      assert left[|q|] == coming[i] && (q + coming)[|q|] == coming[0];
    }
  }

  /** An arrival keeps the agreement exactly when it is the first of its queue to arrive. */
  lemma ArrivalSync(q: seq<Item>, coming: seq<Item>, i: nat, gone: set<MessageId>, edits: map<MessageId, Message>)
    requires i < |coming| && Distinct(coming) && coming[i].message.id !in gone && coming[i].message.id !in edits
    ensures Settle(q, gone, edits) + coming == Settle(q + [coming[i]], gone, edits) + RemoveAt(coming, i) <==> i == 0
  {
    var x := coming[i];
    SettleConcat(q, [x], gone, edits);
    assert Settle([x], gone, edits) == [x] by { assert [x][1..] == []; }
    hide Settle;
    FrontOnly(Settle(q, gone, edits), coming, i);
  }

  lemma DeliverShape(d: Durable, side: bool, i: nat, wakeup: bool)
    requires DurableInv(d) && Deliverable(d, side, i)
    ensures var d' := DurableNext(d, Deliver(side, i, wakeup));
            && d'.s.v.Queue(side) == d.s.v.Queue(side) + [d.Coming(side)[i]]
            && d'.s.v.Queue(!side) == d.s.v.Queue(!side)
  {
    DeliverKeeps(d, side, i, wakeup);
    var x := d.Coming(side)[i];
    hide DurableNext, DurableInv;
    MemoryMoves(d.s, Send(x.message, x.target, wakeup)) by { InvPart(d); }
    hide MotionOf;
    assert DurableNext(d, Deliver(side, i, wakeup)).s == Next(d.s, Send(x.message, x.target, wakeup)) by { DeliverNext(d, side, i, wakeup); }
  }

  lemma InvPart(d: Durable)
    requires DurableInv(d)
    ensures Inv(d.s)
  {
  }

  lemma DeliverNext(d: Durable, side: bool, i: nat, wakeup: bool)
    requires Deliverable(d, side, i)
    ensures var d' := DurableNext(d, Deliver(side, i, wakeup));
            && d'.s == Next(d.s, Send(d.Coming(side)[i].message, d.Coming(side)[i].target, wakeup))
            && d'.Coming(side) == RemoveAt(d.Coming(side), i) && d'.Coming(!side) == d.Coming(!side)
            && d'.turn == d.turn && d'.step == d.step && d'.gone == d.gone && d'.edits == d.edits
  {
    hide Next;
  }

  lemma DeliverSync(d: Durable, side: bool, i: nat, wakeup: bool)
    requires DurableInv(d) && Synced(d) && Deliverable(d, side, i)
    ensures Synced(DurableNext(d, Deliver(side, i, wakeup))) <==> i == 0
  {
    hide DurableNext, DurableInv, Settle, Distinct, Ids;
    var d' := DurableNext(d, Deliver(side, i, wakeup));
    ComingApart(d, side);
    UnsentUntouched(d, d.Coming(side)[i].message.id);
    DeliverShape(d, side, i, wakeup);
    DeliverNext(d, side, i, wakeup);
    ArrivalSync(d.s.v.Queue(side), d.Coming(side), i, d.gone, d.edits);
    assert SyncedOn(d', !side) && SyncedOn(d, side);
    assert SyncedOn(d', side) <==> i == 0;
  }

  lemma UnsentUntouched(d: Durable, id: MessageId)
    requires DurableInv(d) && id !in d.s.sent
    ensures id !in d.gone && id !in d.edits
  {
    TokenFacts(d.s);
    hide Inv, AllHeld, ComingInv, Shaped, TokenIds, Pledges;
    forall other | other in d.gone || other in d.edits
      ensures other in d.s.sent
    {
      var k :| k in d.journalled && k in d.s.tokens && other in TokenIds(d.s.tokens[k]);
      assert TokenIds(d.s.tokens[k]) <= d.s.sent;
    }
  }

  lemma MemoryMoves(s: System, st: Step)
    requires Inv(s)
    ensures Legal(s.v, MotionOf(s, st))
    ensures Next(s, st).v.turn == Apply(s.v, MotionOf(s, st)).turn
    ensures Next(s, st).v.step == Apply(s.v, MotionOf(s, st)).step
  {
    TokenFacts(s);
    NextMoves(s, st);
  }

  lemma StillSync(d: Durable, st: Step)
    requires Inv(d.s) && Synced(d) && MotionOf(d.s, st) == Still
    ensures Synced(d.(s := Next(d.s, st)))
  {
    MemoryMoves(d.s, st);
    hide Inv, Next, Settle;
  }

  // The four kinds of append.

  lemma ClaimSettles(items: seq<Item>, rest: seq<Item>, gone: set<MessageId>, edits: map<MessageId, Message>)
    requires Distinct(items + rest) && Ids(items) !! gone && Ids(items) !! edits.Keys
    ensures Settle(items + rest, gone, edits) == items + Settle(rest, gone, edits)
    ensures Settle(items + rest, gone + Ids(items), edits) == Settle(rest, gone, edits)
  {
    hide Ids, Settle;
    DistinctParts(items, rest);
    SettleConcat(items, rest, gone, edits);
    SettleUntouched(items, gone, edits);
    SettleConcat(items, rest, gone + Ids(items), edits);
    SettleGone(items, gone + Ids(items), edits);
    SettleSame(rest, gone, edits, gone + Ids(items), edits);
  }

  lemma CutFront(items: seq<Item>, rest: seq<Item>, other: seq<Item>)
    ensures Splice(items + rest, other, 0, |items|, []) == Some(rest)
  {
    NoIds();
    var q := items + rest;
    assert q[..0] + [] + q[|items|..] == rest;
  }

  lemma ClaimCut(
      items: seq<Item>, rest: seq<Item>, gone: set<MessageId>, edits: map<MessageId, Message>, coming: seq<Item>,
      journal: seq<Item>, other: seq<Item>)
    requires Distinct(items + rest) && Ids(items) !! gone && Ids(items) !! edits.Keys
    requires journal == Settle(items + rest, gone, edits) + coming
    ensures var left := Settle(items + rest, gone + Ids(items), edits) + coming;
            Splice(journal, other, 0, |items|, []) == Some(left) && journal == items + left
  {
    hide Ids, Settle, Splice, Distinct;
    ClaimSettles(items, rest, gone, edits);
    var tail := Settle(rest, gone, edits) + coming;
    assert journal == items + tail;
    CutFront(items, tail, other);
  }

  /** A held claim in memory: a prefix of its queue that no appended reservation touches. */
  lemma ClaimPlace(d: Durable, k: nat) returns (rest: seq<Item>)
    requires DurableInv(d) && k in d.s.tokens && d.s.tokens[k].ClaimToken? && k !in d.journalled
    ensures var c := d.s.tokens[k].claim;
            && d.s.v.Queue(c.nextStep) == c.items + rest && Distinct(c.items + rest)
            && Ids(c.items) !! d.gone && Ids(c.items) !! d.edits.Keys && Ids(c.items) !! Ids(d.s.v.Queue(!c.nextStep))
  {
    assert Held(d.s.v, d.s.tokens[k]) && Pledged(d.s.tokens, d.journalled, d.gone, d.edits);
    InvPart(d);
    hide DurableInv, Inv, Ids, Shaped, Distinct, Apart, Pledged;
    var c := d.s.tokens[k].claim;
    var q := d.s.v.Queue(c.nextStep);
    TokenFacts(d.s);
    Untouched(d, k);
    PendingSent(d.s);
    rest := q[|c.items|..];
    assert q == c.items + rest;
    IdsConcat(c.items, rest);
  }

  /** A claim's splice "start 0, removedCount n" always applies, and takes exactly the claimed
      messages out of the journal. */
  lemma ClaimSpliceIsCommit(d: Durable, k: nat)
    requires DurableInv(d) && Synced(d) && k in d.s.tokens && d.s.tokens[k].ClaimToken? && k !in d.journalled
    ensures var c := d.s.tokens[k].claim;
            && Applied(d, d.s.tokens[k]).Some?
            && d.Queue(c.nextStep) == c.items + AppendStep(d, k).Queue(c.nextStep)
            && AppendStep(d, k).Queue(!c.nextStep) == d.Queue(!c.nextStep)
            && AppendStep(d, k).s == d.s
            && Synced(AppendStep(d, k))
  {
    var c := d.s.tokens[k].claim;
    var rest := ClaimPlace(d, k);
    hide DurableInv, Ids, Settle, Splice, Distinct, Next;
    ClaimCut(c.items, rest, d.gone, d.edits, d.Coming(c.nextStep), d.Queue(c.nextStep), d.Queue(!c.nextStep));
    SettleSame(d.s.v.Queue(!c.nextStep), d.gone, d.edits, d.gone + Ids(c.items), d.edits);
    assert SyncedOn(AppendStep(d, k), c.nextStep) && SyncedOn(AppendStep(d, k), !c.nextStep);
  }

  lemma OwnGone(a: seq<Item>, x: Item, b: seq<Item>, gone: set<MessageId>, edits: map<MessageId, Message>)
    requires Distinct(a + [x] + b) && x.message.id !in gone && x.message.id !in edits
    ensures Settle(a + [x] + b, gone + {x.message.id}, edits) == Settle(a, gone, edits) + Settle(b, gone, edits)
  {
    hide Settle, Ids;
    DistinctParts(a + [x], b);
    DistinctParts(a, [x]);
    SingletonIds(x);
    IdsConcat(a, [x]);
    var gone' := gone + {x.message.id};
    SettleConcat(a + [x], b, gone', edits);
    SettleConcat(a, [x], gone', edits);
    SettleGone([x], gone', edits);
    SettleSame(a, gone, edits, gone', edits);
    SettleSame(b, gone, edits, gone', edits);
  }

  lemma OwnEdited(a: seq<Item>, x: Item, b: seq<Item>, gone: set<MessageId>, edits: map<MessageId, Message>, m: Message)
    requires Distinct(a + [x] + b) && x.message.id !in gone && x.message.id !in edits && m.id == x.message.id
    ensures Settle(a + [x] + b, gone, edits[m.id := m]) == Settle(a, gone, edits) + [x.(message := m)] + Settle(b, gone, edits)
  {
    hide Ids;
    DistinctParts(a + [x], b);
    DistinctParts(a, [x]);
    SingletonIds(x);
    IdsConcat(a, [x]);
    var edits' := edits[m.id := m];
    SettleConcat(a + [x], b, gone, edits');
    SettleConcat(a, [x], gone, edits');
    assert Settle([x], gone, edits') == [x.(message := m)] by { assert [x][1..] == []; }
    hide Settle;
    SettleSame(a, gone, edits, gone, edits');
    SettleSame(b, gone, edits, gone, edits');
  }

  lemma RemoveCut(
      a: seq<Item>, x: Item, b: seq<Item>, gone: set<MessageId>, edits: map<MessageId, Message>, coming: seq<Item>,
      journal: seq<Item>, start: nat)
    requires Distinct(a + [x] + b) && x.message.id !in gone && x.message.id !in edits && Distinct(journal)
    requires journal == Settle(a, gone, edits) + [x] + (Settle(b, gone, edits) + coming)
    requires |Settle(a, gone, edits)| <= start < |journal|
    ensures RemoveAt(journal, start) == Settle(a + [x] + b, gone + {x.message.id}, edits) + coming
            <==> start == |Settle(a, gone, edits)|
  {
    hide Ids, Settle, Distinct;
    OwnGone(a, x, b, gone, edits);
    var p := |Settle(a, gone, edits)|;
    assert RemoveAt(journal, p) == Settle(a, gone, edits) + (Settle(b, gone, edits) + coming);
    InboxLaws.RemovedDiffer(journal, p, start);
  }

  /** A removal that applies takes its own message out of the journal, and journal and memory
      stay together, if and only if everything ahead of it at its reservation is still journalled;
      one that does not apply fails and is dropped. */
  lemma RemoveSpliceIsCommit(d: Durable, k: nat)
    requires DurableInv(d) && Synced(d) && k in d.s.tokens && IsRemove(d.s.tokens[k]) && k !in d.journalled
    ensures var r := d.s.tokens[k].reservation;
            var q := d.Queue(r.sourceTarget != Followup);
            && (Applied(d, d.s.tokens[k]).Some? <==> r.start < |q|)
            && (r.start < |q| ==>
                  && AppendStep(d, k).Queue(r.sourceTarget != Followup) == RemoveAt(q, r.start)
                  && (q[r.start].message.id == r.id <==> Ids(d.s.tokens[k].ahead) <= Ids(q)))
            && (r.start >= |q| ==> AppendStep(d, k) == d.(s := Next(d.s, Abort(k))))
    ensures Synced(AppendStep(d, k)) <==> Faithful(d, Append(k))
  {
    var t := d.s.tokens[k];
    var r, side := t.reservation, t.reservation.sourceTarget != Followup;
    hide DurableInv, Synced, Ids, Splice, Next, Inv;
    SpliceFindsOwn(d, k);
    CutOne(d.Queue(side), d.Queue(!side), r.start);
    if r.start < |d.Queue(side)| {
      RemoveSync(d, k);
    } else {
      InvPart(d);
      AbortIsStill(d.s, k);
      StillSync(d, Abort(k));
    }
  }

  lemma RemoveSync(d: Durable, k: nat)
    requires DurableInv(d) && Synced(d) && k in d.s.tokens && IsRemove(d.s.tokens[k]) && k !in d.journalled
    requires d.s.tokens[k].reservation.start < |d.Queue(d.s.tokens[k].reservation.sourceTarget != Followup)|
    ensures Synced(AppendStep(d, k)) <==>
              Ids(d.s.tokens[k].ahead) <= Ids(d.Queue(d.s.tokens[k].reservation.sourceTarget != Followup))
  {
    var t := d.s.tokens[k];
    var r, side := t.reservation, t.reservation.sourceTarget != Followup;
    var a, x, b := OwnPlace(d, k);
    InvPart(d);
    PendingSent(d.s);
    JournalIds(d);
    OtherSide(d.s, side, a, x, b);
    CutOne(d.Queue(side), d.Queue(!side), r.start);
    hide DurableInv, Inv, Settle, Ids, Splice, Distinct, Next;
    RemoveCut(a, x, b, d.gone, d.edits, d.Coming(side), d.Queue(side), r.start);
    SettleSame(d.s.v.Queue(!side), d.gone, d.edits, d.gone + {r.id}, d.edits);
    assert SyncedOn(AppendStep(d, k), !side);
  }

  lemma OtherSide(s: System, side: bool, a: seq<Item>, x: Item, b: seq<Item>)
    requires Ids(s.v.turn) !! Ids(s.v.step) && s.v.Queue(side) == a + [x] + b
    ensures x.message.id !in Ids(s.v.Queue(!side))
  {
    IdAt(s.v.Queue(side), |a|);
  }

  lemma CutOne(q: seq<Item>, other: seq<Item>, start: nat)
    ensures Splice(q, other, start, 1, []) == if start < |q| then Some(RemoveAt(q, start)) else None
  {
    NoIds();
    if start < |q| {
      assert q[..start] + [] + q[start + 1..] == RemoveAt(q, start);
    }
  }

  lemma AbortIsStill(s: System, k: nat)
    ensures MotionOf(s, Abort(k)) == Still
  {
  }

  lemma ReserveIsStill(s: System, st: Step)
    requires st.ReserveTurn? || st.ReserveStep? || st.ReserveUpdate?
    ensures MotionOf(s, st) == Still
  {
  }

  /** Replacing one entry in place. */
  lemma SwapOne(q: seq<Item>, other: seq<Item>, start: nat, x: Item)
    requires x.message.Valid()
    ensures Splice(q, other, start, 1, [x]) ==
            if start < |q| && x.message.id !in Ids(q[..start]) + Ids(q[start + 1..]) + Ids(other)
            then Some(q[..start] + [x] + q[start + 1..]) else None
  {
    SingletonIds(x);
    assert [x][0] == x;
    if start < |q| {
      var rest := Ids(q[..start]) + Ids(q[start + 1..]) + Ids(other);
      assert {x.message.id} * rest != {} <==> x.message.id in rest by {
        if x.message.id in rest {
          assert x.message.id in {x.message.id} * rest;
        }
      }
    }
  }

  lemma EditCut(
      a: seq<Item>, x: Item, b: seq<Item>, gone: set<MessageId>, edits: map<MessageId, Message>, coming: seq<Item>,
      journal: seq<Item>, other: seq<Item>, start: nat, m: Message)
    requires Distinct(a + [x] + b) && x.message.id !in gone && x.message.id !in edits && Distinct(journal)
    requires m.id == x.message.id && m.Valid() && m.id !in Ids(other)
    requires journal == Settle(a, gone, edits) + [x] + (Settle(b, gone, edits) + coming)
    ensures Splice(journal, other, start, 1, [x.(message := m)]) ==
            if start == |Settle(a, gone, edits)| then Some(Settle(a + [x] + b, gone, edits[m.id := m]) + coming) else None
  {
    hide Settle, Splice;
    var p := |Settle(a, gone, edits)|;
    var y := x.(message := m);
    SwapOne(journal, other, start, y);
    assert journal[p] == x;
    SplitAt(journal, p, start);
    OwnEdited(a, x, b, gone, edits, m);
    if start == p {
      var left, right := Settle(a, gone, edits), Settle(b, gone, edits) + coming;
      assert journal[..p] == left && journal[p + 1..] == right;
      assert left + [y] + Settle(b, gone, edits) + coming == left + [y] + right;
    }
  }

  lemma SplitAt(q: seq<Item>, p: nat, start: nat)
    requires p < |q| && Distinct(q)
    ensures start < |q| ==> (q[p].message.id in Ids(q[..start]) + Ids(q[start + 1..]) <==> start != p)
  {
    if start < |q| {
      if p < start {
        assert q[..start][p] == q[p];
      } else if start < p {
        assert q[start + 1..][p - start - 1] == q[p];
      }
    }
  }

  /** An edit applies, to its own message, if and only if everything ahead of it at its
      reservation is still journalled; otherwise the append fails and the edit is dropped. */
  lemma EditSpliceIsCommit(d: Durable, k: nat)
    requires DurableInv(d) && Synced(d) && k in d.s.tokens && IsEdit(d.s.tokens[k]) && k !in d.journalled
    ensures var r := d.s.tokens[k].reservation;
            var q := d.Queue(r.sourceTarget != Followup);
            && (Applied(d, d.s.tokens[k]).Some? <==> Ids(d.s.tokens[k].ahead) <= Ids(q))
            && (Applied(d, d.s.tokens[k]).Some? ==> r.start < |q| && q[r.start].message.id == r.id)
            && (Applied(d, d.s.tokens[k]).None? ==> AppendStep(d, k) == d.(s := Next(d.s, Abort(k))))
            && (Applied(d, d.s.tokens[k]).Some? ==>
                  EntryEdited(q, AppendStep(d, k).Queue(r.sourceTarget != Followup), r.start, r.update.content))
    ensures Synced(AppendStep(d, k))
  {
    var t := d.s.tokens[k];
    var r, side := t.reservation, t.reservation.sourceTarget != Followup;
    var a, x, b := OwnPlace(d, k);
    SpliceFindsOwn(d, k);
    InvPart(d);
    PendingSent(d.s);
    JournalIds(d);
    OtherSide(d.s, side, a, x, b);
    IdAt(d.Queue(side), |Settle(a, d.gone, d.edits)|);
    assert r.message.Valid();
    hide DurableInv, Inv, Settle, Ids, Splice, Distinct, Next, SyncedOn;
    assert d.Queue(side)[|Settle(a, d.gone, d.edits)|] == x;
    EditCut(a, x, b, d.gone, d.edits, d.Coming(side), d.Queue(side), d.Queue(!side), r.start, r.message);
    if Applied(d, t).Some? {
      EditSync(d, k, side, a, x, b);
      EditedEntry(d, k);
    } else {
      AbortIsStill(d.s, k);
      StillSync(d, Abort(k));
    }
  }

  lemma EditedEntry(d: Durable, k: nat)
    requires DurableInv(d) && Synced(d) && k in d.s.tokens && IsEdit(d.s.tokens[k]) && k !in d.journalled
    requires Applied(d, d.s.tokens[k]).Some?
    ensures var r := d.s.tokens[k].reservation;
            var side := r.sourceTarget != Followup;
            EntryEdited(d.Queue(side), AppendStep(d, k).Queue(side), r.start, r.update.content)
  {
    hide DurableInv, Synced, Inv, Ids, Splice, Settle, Next, Shaped;
    var r := d.s.tokens[k].reservation;
    var side := r.sourceTarget != Followup;
    var q := d.Queue(side);
    EditValid(d, k);
    SwapOne(q, d.Queue(!side), r.start, Item(r.sourceTarget, r.message));
    var a, x, b := OwnPlace(d, k);
    SpliceFindsOwn(d, k);
    JournalIds(d);
    EditRecords(d.s, k, x, a, b) by { InvPart(d); HeldPart(d, k); }
    EditIsOwn(d, k);
    assert q[|Settle(a, d.gone, d.edits)|] == x;
    DistinctIndex(q, |Settle(a, d.gone, d.edits)|, r.start);
  }

  lemma HeldPart(d: Durable, k: nat)
    requires DurableInv(d) && k in d.s.tokens
    ensures Held(d.s.v, d.s.tokens[k])
  {
  }

  lemma DistinctIndex(q: seq<Item>, i: nat, j: nat)
    requires Distinct(q) && i < |q| && j < |q| && q[i].message.id == q[j].message.id
    ensures i == j
  {
  }

  /** An edit that applies is at its own message. */
  lemma EditIsOwn(d: Durable, k: nat)
    requires DurableInv(d) && Synced(d) && k in d.s.tokens && IsEdit(d.s.tokens[k]) && k !in d.journalled
    requires Applied(d, d.s.tokens[k]).Some?
    ensures var r := d.s.tokens[k].reservation;
            r.start < |d.Queue(r.sourceTarget != Followup)| && d.Queue(r.sourceTarget != Followup)[r.start].message.id == r.id
  {
    var t := d.s.tokens[k];
    var r, side := t.reservation, t.reservation.sourceTarget != Followup;
    EditValid(d, k);
    var a, x, b := OwnPlace(d, k);
    InvPart(d);
    PendingSent(d.s);
    JournalIds(d);
    OtherSide(d.s, side, a, x, b);
    hide DurableInv, Synced, Inv, Ids, Splice, Settle, Next, Distinct;
    assert d.Queue(side)[|Settle(a, d.gone, d.edits)|] == x;
    EditCut(a, x, b, d.gone, d.edits, d.Coming(side), d.Queue(side), d.Queue(!side), r.start, r.message);
  }

  /** What an edit recorded of its message in memory. */
  lemma EditRecords(s: System, k: nat, x: Item, a: seq<Item>, b: seq<Item>)
    requires Inv(s) && k in s.tokens && IsEdit(s.tokens[k]) && Held(s.v, s.tokens[k])
    requires s.v.Queue(s.tokens[k].reservation.sourceTarget != Followup) == a + [x] + b && x.message.id == s.tokens[k].reservation.id
    ensures var r := s.tokens[k].reservation;
            r.message == x.message.(content := r.update.content) && x.target == r.sourceTarget
  {
    TokenFacts(s);
    PendingSent(s);
    hide Inv, Ids, IndexOf, Apart;
    var t := s.tokens[k];
    assert Shaped(t);
    var q := s.v.Queue(t.reservation.sourceTarget != Followup);
    var now := IndexOf(q, t.reservation.id).value;
    assert q[|a|] == x;
    DistinctIndex(q, now, |a|);
  }

  /** The entry at `i` has exactly this content now; nothing else about the queue differs. */
  predicate EntryEdited(q: seq<Item>, q': seq<Item>, i: nat, content: seq<Block>) {
    && i < |q| == |q'|
    && q'[i] == q[i].(message := q[i].message.(content := content))
    && forall j :: 0 <= j < |q| && j != i ==> q'[j] == q[j]
  }

  lemma EditSync(d: Durable, k: nat, side: bool, a: seq<Item>, x: Item, b: seq<Item>)
    requires Synced(d) && k in d.s.tokens && IsEdit(d.s.tokens[k]) && k !in d.journalled
    requires side == (d.s.tokens[k].reservation.sourceTarget != Followup)
    requires d.s.tokens[k].reservation.id !in Ids(d.s.v.Queue(!side)) && d.s.v.Queue(side) == a + [x] + b
    requires var r := d.s.tokens[k].reservation;
             Splice(d.Queue(side), d.Queue(!side), r.start, 1, [Item(r.sourceTarget, r.message)])
             == Some(Settle(a + [x] + b, d.gone, d.edits[r.id := r.message]) + d.Coming(side))
    ensures Synced(AppendStep(d, k))
  {
    hide Settle, Ids, Splice, Next;
    var r := d.s.tokens[k].reservation;
    SettleSame(d.s.v.Queue(!side), d.gone, d.edits, d.gone, d.edits[r.id := r.message]);
    assert SyncedOn(AppendStep(d, k), !side);
  }

  lemma SteerCut(
      a: seq<Item>, x: Item, b: seq<Item>, gone: set<MessageId>, edits: map<MessageId, Message>, coming: seq<Item>,
      journal: seq<Item>, step: seq<Item>)
    requires Distinct(a + [x] + b) && x.message.id !in gone && x.message.id !in edits && Distinct(journal)
    requires journal == Settle(a, gone, edits) + [x] + (Settle(b, gone, edits) + coming)
    ensures SpliceSteer(journal, step, x.message) ==
            Some((Settle(a + [x] + b, gone + {x.message.id}, edits) + coming, step + [Item(Steer, x.message)]))
  {
    hide Settle, Ids;
    var p := |Settle(a, gone, edits)|;
    assert journal[p] == x;
    AbsentIndex(journal, x.message.id);
    IdAt(journal, p);
    assert IndexOf(journal, x.message.id) == Some(p);
    OwnGone(a, x, b, gone, edits);
    assert RemoveAt(journal, p) == Settle(a, gone, edits) + Settle(b, gone, edits) + coming;
  }

  /** A steer is addressed by id, so it always applies to its own message. */
  lemma SteerSpliceIsCommit(d: Durable, k: nat)
    requires DurableInv(d) && Synced(d) && k in d.s.tokens && IsSteer(d.s.tokens[k]) && k !in d.journalled
    ensures var m := d.s.tokens[k].reservation.message;
            && Applied(d, d.s.tokens[k]).Some?
            && Ids(AppendStep(d, k).turn) == Ids(d.turn) - {m.id}
            && AppendStep(d, k).step == d.step + [Item(Steer, m)]
            && AppendStep(d, k).s == d.s
    ensures Synced(AppendStep(d, k))
  {
    hide DurableInv, Synced, Inv, Settle, Ids, Distinct, Next, SpliceSteer, Shaped, Apart;
    var t := d.s.tokens[k];
    InvPart(d);
    TokenFacts(d.s);
    SteerShape(t);
    var a, x, b := OwnPlace(d, k);
    PendingSent(d.s);
    JournalIds(d);
    OtherSide(d.s, false, a, x, b);
    SteerCut(a, x, b, d.gone, d.edits, d.comingTurn, d.turn, d.step);
    SteerIds(Settle(a, d.gone, d.edits), x, Settle(b, d.gone, d.edits) + d.comingTurn, d.turn);
    OwnGone(a, x, b, d.gone, d.edits);
    assert Settle(a, d.gone, d.edits) + Settle(b, d.gone, d.edits) + d.comingTurn
        == Settle(a, d.gone, d.edits) + (Settle(b, d.gone, d.edits) + d.comingTurn);
    SteerSync(d, k, a + [x] + b);
  }

  lemma SteerSync(d: Durable, k: nat, q: seq<Item>)
    requires Synced(d) && k in d.s.tokens && IsSteer(d.s.tokens[k]) && k !in d.journalled && d.s.v.turn == q
    requires d.s.tokens[k].reservation.id !in Ids(d.s.v.step)
    requires var r := d.s.tokens[k].reservation;
             SpliceSteer(d.turn, d.step, r.message) ==
             Some((Settle(q, d.gone + {r.id}, d.edits) + d.comingTurn, d.step + [Item(Steer, r.message)]))
    ensures Synced(AppendStep(d, k))
  {
    hide Settle, Ids, SpliceSteer, Next;
    var r, d' := d.s.tokens[k].reservation, AppendStep(d, k);
    SettleSame(d.s.v.step, d.gone, d.edits, d.gone + {r.id}, d.edits);
    assert d'.step == Settle(d.s.v.step, d.gone, d.edits) + (d.comingStep + [Item(Steer, r.message)]);
  }

  lemma SteerShape(t: Token)
    requires Shaped(t) && IsSteer(t)
    ensures t.reservation.sourceTarget == Followup
  {
  }

  lemma SteerIds(a: seq<Item>, x: Item, b: seq<Item>, q: seq<Item>)
    requires q == a + [x] + b && Distinct(q)
    ensures Ids(a + b) == Ids(q) - {x.message.id}
  {
    hide Ids;
    DistinctParts(a + [x], b);
    DistinctParts(a, [x]);
    SingletonIds(x);
    IdsConcat(a, [x]);
    IdsConcat(a + [x], b);
    IdsConcat(a, b);
  }

  // Committing in memory what was appended.

  /** The motion of a commit, and what it commits. */
  lemma CommitMotion(d: Durable, k: nat)
    requires DurableInv(d) && k in d.s.tokens && k in d.journalled
    ensures var t := d.s.tokens[k];
            MotionOf(d.s, Commit(k)) ==
            if IsSteer(t) then Moved(t.reservation.message)
            else if IsEdit(t) then Replaced(t.reservation.message)
            else Dropped(TokenIds(t))
  {
    var t := d.s.tokens[k];
    assert Held(d.s.v, t);
    InvPart(d);
    hide DurableInv, Inv, Held, MotionOf, TokenIds;
    if t.ClaimToken? {
      ClaimMotion(d.s, k);
    } else {
      UpdateMotionOf(d.s, k);
    }
  }

  lemma ClaimMotion(s: System, k: nat)
    requires Inv(s) && k in s.tokens && s.tokens[k].ClaimToken? && Held(s.v, s.tokens[k])
    ensures MotionOf(s, Commit(k)) == Dropped(TokenIds(s.tokens[k]))
  {
    hide Inv, Held, Ids, ClaimHolds;
    HeldOrLost(s, k);
  }

  lemma UpdateMotionOf(s: System, k: nat)
    requires Inv(s) && k in s.tokens && s.tokens[k].UpdateToken? && Held(s.v, s.tokens[k])
    ensures var t := s.tokens[k];
            MotionOf(s, Commit(k)) ==
            if IsSteer(t) then Moved(t.reservation.message)
            else if IsEdit(t) then Replaced(t.reservation.message)
            else Dropped(TokenIds(t))
  {
    hide Inv, Held, Lost, Apart, ReservationHolds, Shaped, Published;
    HeldOrLost(s, k);
    TokenFacts(s);
    PublishedIs(s.v, s.tokens[k]);
  }

  lemma PublishedIs(v: View, t: Token)
    requires t.UpdateToken? && Shaped(t) && Held(v, t) && ReservationHolds(v, t.reservation)
    ensures Published(v, t.reservation) == t.reservation.message
  {
    hide Ids, IndexOf;
  }

  /** Committing a claim, an edit or a removal changes neither journal nor agreement. */
  lemma PublishPlain(d: Durable, k: nat)
    requires DurableInv(d) && k in d.s.tokens && k in d.journalled && !IsSteer(d.s.tokens[k])
    ensures Synced(PublishStep(d, k)) <==> Synced(d)
  {
    var t, d' := d.s.tokens[k], PublishStep(d, k);
    CommitMotion(d, k);
    TokenFacts(d.s);
    MemoryMoves(d.s, Commit(k));
    assert Pledges(t, d.gone, d.edits);
    hide DurableInv, Inv, Settle, Ids, Drop, Replace, MotionOf, Next, Apart;
    if IsEdit(t) {
      var m := t.reservation.message;
      SettleReplaced(d.s.v.turn, m, d.gone, d.edits);
      SettleReplaced(d.s.v.step, m, d.gone, d.edits);
    } else {
      SettleDropped(d.s.v.turn, TokenIds(t), d.gone, d.edits);
      SettleDropped(d.s.v.step, TokenIds(t), d.gone, d.edits);
    }
  }

  /** Committing a steer keeps the agreement exactly when it is the first to arrive. */
  lemma PublishSteer(d: Durable, k: nat)
    requires DurableInv(d) && Synced(d) && k in d.s.tokens && k in d.journalled && IsSteer(d.s.tokens[k])
    ensures Synced(PublishStep(d, k)) <==> Faithful(d, Publish(k))
  {
    hide DurableInv, Inv, Settle, Ids, Drop, MotionOf, Next, Distinct;
    var r := d.s.tokens[k].reservation;
    var d' := PublishStep(d, k);
    var i := SteerPledge(d, k);
    InvPart(d);
    CommitMotion(d, k);
    MemoryMoves(d.s, Commit(k));
    DropAt(d.comingStep, i);
    SettleDropped(d.s.v.turn, {r.id}, d.gone, d.edits);
    SteerArrives(d.s.v.step, d.comingStep, i, d.gone, d.edits, r.id);
    assert SyncedOn(d', false);
    assert SyncedOn(d', true) <==> i == 0;
    DistinctAt(d.comingStep, i);
  }

  lemma DistinctAt(q: seq<Item>, i: nat)
    requires i < |q| && Distinct(q)
    ensures i == 0 <==> q[0].message.id == q[i].message.id
  {
  }

  lemma SteerPledge(d: Durable, k: nat) returns (i: nat)
    requires DurableInv(d) && k in d.s.tokens && k in d.journalled && IsSteer(d.s.tokens[k])
    ensures var r := d.s.tokens[k].reservation;
            && i < |d.comingStep| && d.comingStep[i] == Item(Steer, r.message) && Distinct(d.comingStep)
            && r.message.id == r.id && r.id in d.gone && r.id !in d.edits && r.id !in Ids(d.s.v.step)
  {
    var t := d.s.tokens[k];
    var x := Item(Steer, t.reservation.message);
    TokenFacts(d.s);
    PendingSent(d.s);
    assert Pledges(t, d.gone, d.edits) && Held(d.s.v, t);
    HeldSteer(d.s, k);
    assert SteerOf(t, x) && Steering(d.s.tokens, d.journalled, x);
    i :| 0 <= i < |d.comingStep| && d.comingStep[i] == x;
  }

  lemma SteerArrives(
      q: seq<Item>, coming: seq<Item>, i: nat, gone: set<MessageId>, edits: map<MessageId, Message>, id: MessageId)
    requires i < |coming| && Distinct(coming) && coming[i].message.id == id && id !in edits && id !in Ids(q)
    ensures Settle(q, gone, edits) + coming == Settle(q + [coming[i]], gone - {id}, edits - {id}) + RemoveAt(coming, i) <==> i == 0
  {
    hide Settle, Ids;
    SettleSame(q, gone, edits, gone - {id}, edits - {id});
    ArrivalSync(q, coming, i, gone - {id}, edits - {id});
  }

  lemma RecordSync(d: Durable, id: MessageId)
    requires DurableInv(d) && Synced(d)
    ensures DurableNext(d, Record(id)) == d
  {
    JournalIds(d);
    hide DurableInv, Synced, Ids, Drop;
    if id in Ids(d.s.out) {
      DropNone(d.turn, {id});
      DropNone(d.step, {id});
    }
  }

  /** One action keeps journal and memory together if and only if it is faithful. */
  lemma SyncStep(d: Durable, a: Action)
    requires DurableInv(d) && Synced(d) && FreshAction(d, a)
    ensures Synced(DurableNext(d, a)) <==> Faithful(d, a)
  {
    hide DurableInv, Synced, Settle, Ids, Next, Inv, MotionOf, AppendStep, PublishStep;
    InvPart(d);
    match a
    case Enqueue(item) => EnqueueSync(d, item);
    case Deliver(side, i, wakeup) => if Deliverable(d, side, i) { DeliverSync(d, side, i, wakeup); }
    case Reserve(st) => if st.ReserveTurn? || st.ReserveStep? || st.ReserveUpdate? { ReserveIsStill(d.s, st); StillSync(d, st); }
    case Append(k) => AppendSync(d, k);
    case Publish(k) => PublishSync(d, k);
    case Withdraw(k) => if k in d.s.tokens && k !in d.journalled { AbortIsStill(d.s, k); StillSync(d, Abort(k)); }
    case Record(id) => RecordSync(d, id);
  }

  lemma PublishSync(d: Durable, k: nat)
    requires DurableInv(d) && Synced(d)
    ensures Synced(PublishStep(d, k)) <==> Faithful(d, Publish(k))
  {
    hide DurableInv, Synced, Next, Ids;
    if k in d.s.tokens && k in d.journalled {
      if IsSteer(d.s.tokens[k]) {
        PublishSteer(d, k);
      } else {
        PublishPlain(d, k);
      }
    }
  }

  lemma AppendSync(d: Durable, k: nat)
    requires DurableInv(d) && Synced(d)
    ensures Synced(AppendStep(d, k)) <==> Faithful(d, Append(k))
  {
    hide DurableInv, Synced, Applied, Next, Ids;
    if k in d.s.tokens && k !in d.journalled {
      var t := d.s.tokens[k];
      if t.ClaimToken? {
        ClaimSpliceIsCommit(d, k);
      } else if IsRemove(t) {
        RemoveSpliceIsCommit(d, k);
      } else if IsEdit(t) {
        EditSpliceIsCommit(d, k);
      } else {
        SteerSpliceIsCommit(d, k);
      }
    }
  }

  // ---------------------------------------------------------------------
  // Runs
  // ---------------------------------------------------------------------

  function DurableRun(d: Durable, actions: seq<Action>): Durable
    decreases |actions|
  {
    if actions == [] then d else DurableRun(DurableNext(d, actions[0]), actions[1..])
  }

  ghost predicate FreshActions(d: Durable, actions: seq<Action>)
    decreases |actions|
  {
    actions != [] ==> FreshAction(d, actions[0]) && FreshActions(DurableNext(d, actions[0]), actions[1..])
  }

  ghost predicate SyncedThroughout(d: Durable, actions: seq<Action>)
    decreases |actions|
  {
    Synced(d) && (actions != [] ==> SyncedThroughout(DurableNext(d, actions[0]), actions[1..]))
  }

  ghost predicate FaithfulThroughout(d: Durable, actions: seq<Action>)
    decreases |actions|
  {
    actions != [] ==> Faithful(d, actions[0]) && FaithfulThroughout(DurableNext(d, actions[0]), actions[1..])
  }

  lemma {:induction false} TogetherRun(d: Durable, actions: seq<Action>)
    requires DurableInv(d) && Synced(d) && FreshActions(d, actions)
    ensures DurableInv(DurableRun(d, actions))
    ensures SyncedThroughout(d, actions) <==> FaithfulThroughout(d, actions)
    ensures FaithfulThroughout(d, actions) ==> Synced(DurableRun(d, actions))
    decreases |actions|
  {
    hide DurableInv, Synced, Faithful, FreshAction, DurableNext;
    if actions != [] {
      var d' := DurableNext(d, actions[0]);
      DurableInvStep(d, actions[0]);
      SyncStep(d, actions[0]);
      if Synced(d') {
        TogetherRun(d', actions[1..]);
      } else {
        DurableInvRun(d', actions[1..]);
      }
    }
  }

  lemma {:induction false} DurableInvRun(d: Durable, actions: seq<Action>)
    requires DurableInv(d) && FreshActions(d, actions)
    ensures DurableInv(DurableRun(d, actions))
    decreases |actions|
  {
    hide DurableInv, FreshAction, DurableNext;
    if actions != [] {
      DurableInvStep(d, actions[0]);
      DurableInvRun(DurableNext(d, actions[0]), actions[1..]);
    }
  }

  lemma NewInv()
    ensures DurableInv(NEW) && Synced(NEW)
  {
    InitialInv();
    NoIds();
  }

  /** Nothing appended waits for its commit and nothing journalled for its delivery. */
  predicate Quiescent(d: Durable) {
    d.journalled == {} && d.comingTurn == [] && d.comingStep == []
  }

  ghost predicate Agree(d: Durable) {
    d.turn == d.s.v.turn && d.step == d.s.v.step
  }

  lemma QuiescentAgrees(d: Durable)
    requires DurableInv(d) && Quiescent(d)
    ensures Synced(d) <==> Agree(d)
  {
    assert d.gone == {} && d.edits == map[] by {
      hide Inv, AllHeld, ComingInv, Pledges, TokenIds;
      assert forall id :: id !in d.gone && id !in d.edits;
    }
    SettleUntouched(d.s.v.turn, {}, map[]);
    SettleUntouched(d.s.v.step, {}, map[]);
    hide Settle;
    assert d.s.v.turn + [] == d.s.v.turn && d.s.v.step + [] == d.s.v.step;
  }

  /** In every run, journal and memory stay together all the way if and only if every action was
      faithful, and then at every quiet point the journal restores exactly what memory holds. */
  lemma JournalTheorem(actions: seq<Action>)
    requires FreshActions(NEW, actions)
    ensures SyncedThroughout(NEW, actions) <==> FaithfulThroughout(NEW, actions)
    ensures FaithfulThroughout(NEW, actions) && Quiescent(DurableRun(NEW, actions)) ==> Agree(DurableRun(NEW, actions))
  {
    hide DurableInv, Synced, DurableRun, FreshActions, SyncedThroughout, FaithfulThroughout;
    NewInv();
    TogetherRun(NEW, actions);
    if Quiescent(DurableRun(NEW, actions)) {
      QuiescentAgrees(DurableRun(NEW, actions));
    }
  }

  // ---------------------------------------------------------------------
  // From the reservation of an update to its append
  // ---------------------------------------------------------------------

  /** An action on somebody else's reservation. */
  predicate Elsewhere(a: Action, k: nat) {
    !((a.Append? || a.Publish? || a.Withdraw?) && a.token == k)
  }

  /** Reservation `k` is outstanding, unchanged and not appended. */
  predicate Waits(d: Durable, k: nat, t: Token) {
    k in d.s.tokens && d.s.tokens[k] == t && k !in d.journalled
  }

  lemma OthersPersist(d: Durable, a: Action, k: nat)
    requires DurableInv(d) && FreshAction(d, a) && k in d.s.tokens && k !in d.journalled && Elsewhere(a, k)
    ensures Waits(DurableNext(d, a), k, d.s.tokens[k])
  {
    hide DurableInv, Inv, AppendStep, Ids, Drop, Next, TokenIds;
    InvPart(d);
    match a
    case Deliver(side, i, wakeup) =>
      if Deliverable(d, side, i) { TokenPersists(d.s, Send(d.Coming(side)[i].message, d.Coming(side)[i].target, wakeup), k); }
    case Reserve(st) => if st.ReserveTurn? || st.ReserveStep? || st.ReserveUpdate? { TokenPersists(d.s, st, k); }
    case Append(j) => AppendElsewhere(d, j, k);
    case Publish(j) => TokenPersists(d.s, Commit(j), k);
    case Withdraw(j) => TokenPersists(d.s, Abort(j), k);
    case _ =>
  }

  lemma AppendElsewhere(d: Durable, j: nat, k: nat)
    requires Inv(d.s) && k in d.s.tokens && k !in d.journalled && j != k
    ensures Waits(AppendStep(d, j), k, d.s.tokens[k])
  {
    hide Inv, Applied, Next;
    TokenPersists(d.s, Abort(j), k);
    if j in d.s.tokens {
      AppliedMemory(d, d.s.tokens[j]);
    }
  }

  lemma AppliedMemory(d: Durable, t: Token)
    ensures Applied(d, t).Some? ==> Applied(d, t).value.s == d.s
    ensures Applied(d, t).Some? && !IsSteer(t) ==> Applied(d, t).value.comingStep == d.comingStep
  {
    hide Splice, SpliceSteer, Ids;
  }

  lemma TokenPersists(s: System, st: Step, k: nat)
    requires Inv(s) && k in s.tokens && !Consumes(st, k)
    ensures k in Next(s, st).tokens && Next(s, st).tokens[k] == s.tokens[k]
  {
    hide NextView, Leaving, MotionOf, Granted, TokenInv, Conserved;
  }

  /** The only ids an action brings into a journal queue: a new message, or one being steered. */
  lemma JournalGains(d: Durable, a: Action, side: bool)
    requires DurableInv(d) && Synced(d)
    ensures forall id :: id in Ids(DurableNext(d, a).Queue(side)) && id !in Ids(d.Queue(side)) ==>
              || (a.Enqueue? && id == a.item.message.id)
              || (side && a.Append? && a.token in d.s.tokens && IsSteer(d.s.tokens[a.token]) && id == d.s.tokens[a.token].reservation.id)
  {
    hide DurableInv, Synced, Ids, Drop, Next, Applied;
    match a
    case Enqueue(item) =>
      IdsConcat(d.Queue(item.target != Followup), [item]);
      SingletonIds(item);
    case Append(k) => if k in d.s.tokens && k !in d.journalled { AppendGains(d, k, side); }
    case Record(id) =>
      DropFacts(d.turn, {id});
      DropFacts(d.step, {id});
    case _ =>
  }

  lemma AppendGains(d: Durable, k: nat, side: bool)
    requires DurableInv(d) && Synced(d) && k in d.s.tokens && k !in d.journalled
    ensures forall id :: id in Ids(AppendStep(d, k).Queue(side)) && id !in Ids(d.Queue(side)) ==>
              side && IsSteer(d.s.tokens[k]) && id == d.s.tokens[k].reservation.id
  {
    hide DurableInv, Synced, Ids, Next, Splice, SpliceSteer;
    var t, d' := d.s.tokens[k], AppendStep(d, k);
    if t.ClaimToken? {
      ClaimSpliceIsCommit(d, k);
      hide Applied;
      IdsConcat(t.claim.items, d'.Queue(t.claim.nextStep));
    } else if IsSteer(t) {
      SteerSpliceIsCommit(d, k);
      hide Applied;
      var m := t.reservation.message;
      IdsConcat(d.step, [Item(Steer, m)]);
      SingletonIds(Item(Steer, m));
      InvPart(d);
      TokenFacts(d.s);
    } else if IsRemove(t) {
      var r, own := t.reservation, t.reservation.sourceTarget != Followup;
      CutOne(d.Queue(own), d.Queue(!own), r.start);
      if r.start < |d.Queue(own)| {
        CutIds(d.Queue(own), r.start);
      }
    } else {
      EditGains(d, k);
    }
  }

  lemma CutIds(q: seq<Item>, i: nat)
    requires i < |q|
    ensures Ids(RemoveAt(q, i)) <= Ids(q)
  {
    hide Ids;
    assert q == q[..i] + q[i..] && q[i..] == [q[i]] + q[i + 1..];
    IdsConcat(q[..i], q[i..]);
    IdsConcat([q[i]], q[i + 1..]);
    IdsConcat(q[..i], q[i + 1..]);
  }

  lemma EditGains(d: Durable, k: nat)
    requires DurableInv(d) && Synced(d) && k in d.s.tokens && k !in d.journalled && IsEdit(d.s.tokens[k])
    ensures forall side :: Ids(AppendStep(d, k).Queue(side)) <= Ids(d.Queue(side))
  {
    hide DurableInv, Synced, Next, Inv, Shaped, Apart, Ids, Splice;
    EditSpliceIsCommit(d, k);
    InvPart(d);
    TokenFacts(d.s);
    var r, own := d.s.tokens[k].reservation, d.s.tokens[k].reservation.sourceTarget != Followup;
    var q, x := d.Queue(own), Item(r.sourceTarget, r.message);
    EditValid(d, k);
    SwapOne(q, d.Queue(!own), r.start, x);
    if Applied(d, d.s.tokens[k]).Some? {
      SwapIds(q, r.start, x);
    }
  }

  lemma EditValid(d: Durable, k: nat)
    requires DurableInv(d) && k in d.s.tokens && IsEdit(d.s.tokens[k])
    ensures d.s.tokens[k].reservation.message.Valid()
  {
  }

  lemma SwapIds(q: seq<Item>, i: nat, x: Item)
    requires i < |q| && q[i].message.id == x.message.id
    ensures Ids(q[..i] + [x] + q[i + 1..]) == Ids(q)
  {
    hide Ids;
    assert q == q[..i] + [q[i]] + q[i + 1..];
    SingletonIds(x);
    SingletonIds(q[i]);
    IdsConcat(q[..i] + [q[i]], q[i + 1..]);
    IdsConcat(q[..i], [q[i]]);
    IdsConcat(q[..i] + [x], q[i + 1..]);
    IdsConcat(q[..i], [x]);
  }

  /** What left the journal queue of an update from ahead of it never comes back there. */
  lemma AheadNeverReturns(d: Durable, a: Action, k: nat)
    requires DurableInv(d) && Synced(d) && FreshAction(d, a)
    requires k in d.s.tokens && d.s.tokens[k].UpdateToken?
    ensures var t := d.s.tokens[k];
            var side := t.reservation.sourceTarget != Followup;
            Ids(t.ahead) * Ids(DurableNext(d, a).Queue(side)) <= Ids(d.Queue(side))
  {
    var t := d.s.tokens[k];
    var side := t.reservation.sourceTarget != Followup;
    assert TokenInv(d.s, t);
    assert Ids(t.ahead) <= d.s.sent && (side ==> Ids(t.ahead) !! Ids(d.s.v.turn));
    JournalGains(d, a, side);
    if a.Append? && a.token in d.s.tokens && IsSteer(d.s.tokens[a.token]) {
      InvPart(d);
      TokenFacts(d.s);
      HeldSteer(d.s, a.token);
    }
    hide DurableInv, Synced, DurableNext, Ids;
  }

  /** No action of the run takes one of `ids` out of a journal queue. */
  ghost predicate NoneLeave(d: Durable, actions: seq<Action>, ids: set<MessageId>, side: bool)
    decreases |actions|
  {
    actions != [] ==>
      && ids * Ids(d.Queue(side)) <= Ids(DurableNext(d, actions[0]).Queue(side))
      && NoneLeave(DurableNext(d, actions[0]), actions[1..], ids, side)
  }

  /** The condition of an edit or a removal, seen from its reservation: everything ahead of it was
      in the journal then, and no action in between took any of it out. */
  lemma {:induction false} AheadOverRun(d: Durable, actions: seq<Action>, k: nat)
    requires DurableInv(d) && Synced(d) && FreshActions(d, actions) && FaithfulThroughout(d, actions)
    requires k in d.s.tokens && d.s.tokens[k].UpdateToken? && k !in d.journalled
    requires forall i :: 0 <= i < |actions| ==> Elsewhere(actions[i], k)
    ensures var t, d' := d.s.tokens[k], DurableRun(d, actions);
            var side := t.reservation.sourceTarget != Followup;
            && Waits(d', k, t)
            && (Ids(t.ahead) <= Ids(d'.Queue(side)) <==>
                  Ids(t.ahead) <= Ids(d.Queue(side)) && NoneLeave(d, actions, Ids(t.ahead), side))
    decreases |actions|
  {
    hide DurableInv, Synced, Faithful, FreshAction, DurableNext, Ids;
    if actions != [] {
      var a, d' := actions[0], DurableNext(d, actions[0]);
      assert Elsewhere(a, k);
      DurableInvStep(d, a);
      SyncStep(d, a);
      OthersPersist(d, a, k);
      AheadNeverReturns(d, a, k);
      AheadOverRun(d', actions[1..], k);
    }
  }

  // ---------------------------------------------------------------------
  // Why the condition is there
  // ---------------------------------------------------------------------

  lemma {:induction false} ApartStays(d: Durable, commits: seq<nat>)
    requires DurableInv(d) && !Synced(d) && d.comingStep == []
    ensures var d' := DurableRun(d, seq(|commits|, i requires 0 <= i < |commits| => Publish(commits[i])));
            DurableInv(d') && !Synced(d')
    decreases |commits|
  {
    hide DurableInv, Synced, PublishStep;
    var actions := seq(|commits|, i requires 0 <= i < |commits| => Publish(commits[i]));
    if commits != [] {
      var k := commits[0];
      assert actions[0] == Publish(k) && DurableNext(d, actions[0]) == PublishStep(d, k);
      assert actions[1..] == seq(|commits[1..]|, i requires 0 <= i < |commits[1..]| => Publish(commits[1..][i]));
      PublishKeeps(d, k);
      ApartPublish(d, k);
      ApartStays(PublishStep(d, k), commits[1..]);
    }
  }

  lemma ApartPublish(d: Durable, k: nat)
    requires DurableInv(d) && !Synced(d) && d.comingStep == []
    ensures !Synced(PublishStep(d, k)) && PublishStep(d, k).comingStep == []
  {
    if k in d.s.tokens && k in d.journalled {
      assert !IsSteer(d.s.tokens[k]) by { NoSteer(d, k); }
      hide DurableInv, Synced, Next, Ids;
      PublishPlain(d, k);
    }
  }

  lemma NoSteer(d: Durable, k: nat)
    requires DurableInv(d) && d.comingStep == [] && k in d.s.tokens && k in d.journalled
    ensures !IsSteer(d.s.tokens[k])
  {
    hide Inv, AllHeld, Pledged;
    var t := d.s.tokens[k];
    assert forall x :: !Steering(d.s.tokens, d.journalled, x);
    if t.UpdateToken? {
      assert !SteerOf(t, Item(Steer, t.reservation.message));
    }
  }

  /** A removal appended without its condition shows: once it and whatever else was appended have
      committed, the journal is not what memory holds. */
  lemma MissedRemovalShows(d: Durable, k: nat, commits: seq<nat>)
    requires DurableInv(d) && Synced(d) && d.comingStep == []
    requires k in d.s.tokens && k !in d.journalled && IsRemove(d.s.tokens[k]) && !Faithful(d, Append(k))
    ensures var d' := DurableRun(AppendStep(d, k), seq(|commits|, i requires 0 <= i < |commits| => Publish(commits[i])));
            Quiescent(d') ==> !Agree(d')
  {
    hide Synced, DurableInv, Faithful, Applied, Next, DurableRun, Ids, PublishStep;
    RemoveSpliceIsCommit(d, k);
    AppliedMemory(d, d.s.tokens[k]);
    AppendKeeps(d, k);
    ApartStays(AppendStep(d, k), commits);
    var d' := DurableRun(AppendStep(d, k), seq(|commits|, i requires 0 <= i < |commits| => Publish(commits[i])));
    if Quiescent(d') {
      QuiescentAgrees(d');
    }
  }

  /** A removal appended against its condition while memory still holds everything ahead of it. */
  ghost predicate Missed(before: Durable, after: Durable, k: nat) {
    && k in before.s.tokens
    && IsRemove(before.s.tokens[k])
    && !Faithful(before, Append(k))
    && Ids(before.s.tokens[k].ahead) <= Ids(after.s.v.turn)
  }

  ghost predicate Parted(d: Durable, t: seq<Item>) {
    && Quiescent(d)
    && |t| >= 3
    && d.s.v.turn == t[2..]
    && d.turn == [t[1]] + t[3..]
  }

  /** The driver reserves and journals the head; the host reserves the removal of the second
      followup, at start 1 as memory still shows the head, and journals it; both commit. At that
      commit everything ahead of the removed message is still in memory. From every agreeing quiet
      state with three followups, the journal loses the third message and keeps the second. */
  lemma StaleRemovalDiverges(d: Durable)
    requires DurableInv(d) && Agree(d) && Quiescent(d) && |d.s.v.turn| >= 3
    requires d.s.v.turn[0].message.id !in d.s.v.reserved && d.s.v.turn[1].message.id !in d.s.v.reserved
    ensures var t, n := d.s.v.turn, d.s.next;
            var d2 := AppendStep(DurableNext(d, Reserve(ReserveTurn)), n);
            var d3 := DurableNext(d2, Reserve(ReserveUpdate(t[1].message.id, Remove, false)));
            var d4 := AppendStep(d3, n + 1);
            Missed(d3, d4, n + 1) && Parted(PublishStep(PublishStep(d4, n + 1), n), t)
  {
    hide DurableInv, Synced, Ids, DurableNext, AppendStep, PublishStep, Faithful, Distinct;
    var t, n := d.s.v.turn, d.s.next;
    QuiescentAgrees(d);
    InvPart(d);
    PendingSent(d.s);
    DistinctPair(t);
    var d2 := HeadJournalled(d);
    var d3 := SecondReserved(d2, n, t);
    var d4 := AppendStep(d3, n + 1);
    var d5 := PublishStep(d4, n + 1);
    StaleCut(d3, n, t);
    StaleMissed(d3, n, t);
    BothCommit(d4, n, t);
  }

  lemma DistinctPair(t: seq<Item>)
    requires Distinct(t) && |t| >= 2
    ensures t[0].message.id != t[1].message.id
  {
  }

  /** Reserve and journal the head of the next-turn queue. */
  lemma HeadJournalled(d: Durable) returns (d2: Durable)
    requires DurableInv(d) && Synced(d) && Quiescent(d) && d.turn == d.s.v.turn
    requires d.s.v.turn != [] && d.s.v.turn[0].message.id !in d.s.v.reserved
    ensures var t, n := d.s.v.turn, d.s.next;
            && d2 == AppendStep(DurableNext(d, Reserve(ReserveTurn)), n)
            && DurableInv(d2) && Synced(d2)
            && d2.turn == t[1..] && d2.s.v.turn == t && d2.step == d.step && d2.s.v.step == d.s.v.step
            && d2.journalled == {n} && d2.comingTurn == d2.comingStep == []
            && d2.s.next == n + 1 && d2.s.v.reserved == d.s.v.reserved + {t[0].message.id}
            && n in d2.s.tokens && d2.s.tokens[n] == ClaimToken(Claim(false, [t[0]]))
  {
    hide DurableInv, Synced, Next, Splice, Ids;
    var t, n := d.s.v.turn, d.s.next;
    var d1 := DurableNext(d, Reserve(ReserveTurn));
    InvPart(d);
    HeadReserved(d.s);
    DurableInvStep(d, Reserve(ReserveTurn));
    SyncStep(d, Reserve(ReserveTurn));
    d2 := AppendStep(d1, n);
    AppendKeeps(d1, n);
    ClaimSpliceIsCommit(d1, n);
    assert d2.turn == ([t[0]] + d2.turn)[1..];
    AppliedKeeps(d1, d1.s.tokens[n]);
  }

  lemma AppliedKeeps(d: Durable, t: Token)
    ensures Applied(d, t).Some? && !IsSteer(t) ==>
              Applied(d, t).value.comingTurn == d.comingTurn && Applied(d, t).value.comingStep == d.comingStep
  {
    hide Splice, Ids;
  }

  lemma HeadReserved(s: System)
    requires Inv(s) && s.v.turn != [] && s.v.turn[0].message.id !in s.v.reserved
    ensures var s' := Next(s, ReserveTurn);
            && s'.tokens == s.tokens[s.next := ClaimToken(Claim(false, [s.v.turn[0]]))]
            && s'.next == s.next + 1
            && s'.v.turn == s.v.turn && s'.v.step == s.v.step
            && s'.v.reserved == s.v.reserved + {s.v.turn[0].message.id}
  {
    hide Inv;
    SingletonIds(s.v.turn[0]);
  }

  lemma SecondReserved(d2: Durable, n: nat, t: seq<Item>) returns (d3: Durable)
    requires DurableInv(d2) && Synced(d2) && d2.s.v.turn == t && |t| >= 3 && d2.s.next == n + 1
    requires t[1].message.id !in d2.s.v.reserved && n in d2.s.tokens
    ensures d3 == DurableNext(d2, Reserve(ReserveUpdate(t[1].message.id, Remove, false)))
    ensures DurableInv(d3) && Synced(d3) && d3 == d2.(s := d3.s) && d3.s.v.turn == t
    ensures n in d3.s.tokens && d3.s.tokens[n] == d2.s.tokens[n]
    ensures n + 1 in d3.s.tokens && d3.s.tokens[n + 1] == UpdateToken(
              Reservation(t[1].message.id, Remove, Followup, t[1].message, Followup, 1, None, false), t[..1])
  {
    var st := ReserveUpdate(t[1].message.id, Remove, false);
    InvPart(d2);
    PendingSent(d2.s);
    SecondGranted(d2.s, t);
    DurableInvStep(d2, Reserve(st));
    SyncStep(d2, Reserve(st));
    d3 := DurableNext(d2, Reserve(st));
    TokenPersists(d2.s, st, n);
    ReserveIsStill(d2.s, st);
    MemoryMoves(d2.s, st);
    hide DurableInv, Synced, Inv, Granted, MotionOf, NextView, Leaving;
  }

  lemma SecondGranted(s: System, t: seq<Item>)
    requires Inv(s) && s.v.turn == t && |t| >= 2 && Distinct(t) && t[1].message.id !in s.v.reserved
    ensures Granted(s, ReserveUpdate(t[1].message.id, Remove, false)) == Some(UpdateToken(
              Reservation(t[1].message.id, Remove, Followup, t[1].message, Followup, 1, None, false), t[..1]))
  {
    hide Ids, Drop, Replace, Lane, IndexOf, TokensInv, Conserved;
    WellFormedParts(s.v);
    assert s.v.turn[1] in s.v.turn;
    assert IndexOf(s.v.turn, t[1].message.id) == Some(1);
  }

  lemma StaleCut(d3: Durable, n: nat, t: seq<Item>)
    requires DurableInv(d3) && |t| >= 3 && Distinct(t) && d3.turn == t[1..] && n + 1 !in d3.journalled
    requires n + 1 in d3.s.tokens && d3.s.tokens[n + 1] == UpdateToken(
               Reservation(t[1].message.id, Remove, Followup, t[1].message, Followup, 1, None, false), t[..1])
    ensures var d4 := AppendStep(d3, n + 1);
            && DurableInv(d4) && d4.s == d3.s && d4.turn == [t[1]] + t[3..]
            && d4.journalled == d3.journalled + {n + 1}
            && d4.comingTurn == d3.comingTurn && d4.comingStep == d3.comingStep
  {
    hide DurableInv, Splice, Next, Ids, Distinct;
    AppendKeeps(d3, n + 1);
    CutOne(d3.turn, d3.step, 1);
    assert RemoveAt(t[1..], 1) == [t[1]] + t[3..];
  }

  lemma StaleMissed(d3: Durable, n: nat, t: seq<Item>)
    requires |t| >= 3 && Distinct(t) && d3.turn == t[1..] && n + 1 !in d3.journalled
    requires n + 1 in d3.s.tokens && d3.s.tokens[n + 1] == UpdateToken(
               Reservation(t[1].message.id, Remove, Followup, t[1].message, Followup, 1, None, false), t[..1])
    ensures !Faithful(d3, Append(n + 1)) && Ids(t[..1]) <= Ids(t)
  {
    IdAt(t[..1], 0);
    assert t[..1][0].message.id !in Ids(t[1..]);
  }

  lemma BothCommit(d4: Durable, n: nat, t: seq<Item>)
    requires DurableInv(d4) && d4.s.v.turn == t && |t| >= 3 && Distinct(t) && d4.journalled == {n, n + 1}
    requires d4.comingTurn == d4.comingStep == []
    requires n in d4.s.tokens && d4.s.tokens[n] == ClaimToken(Claim(false, [t[0]]))
    requires n + 1 in d4.s.tokens && IsRemove(d4.s.tokens[n + 1]) && d4.s.tokens[n + 1].reservation.id == t[1].message.id
    ensures var d6 := PublishStep(PublishStep(d4, n + 1), n);
            Quiescent(d6) && d6.s.v.turn == t[2..] && d6.turn == d4.turn && d6.step == d4.step
  {
    hide DurableInv, Ids, Drop, Next, Distinct, TokenIds;
    var d5 := PublishStep(d4, n + 1);
    SingletonIds(t[0]);
    assert TokenIds(d4.s.tokens[n]) == {t[0].message.id} && TokenIds(d4.s.tokens[n + 1]) == {t[1].message.id} by {
      ClaimIds(d4.s.tokens[n]);
      ClaimIds(d4.s.tokens[n + 1]);
    }
    DropCommits(d4, n + 1);
    TokenPersists(d4.s, Commit(n + 1), n) by { InvPart(d4); }
    PublishKeeps(d4, n + 1);
    DropCommits(d5, n);
    DropAt(t, 1);
    var left := RemoveAt(t, 1);
    assert left == [t[0]] + t[2..];
    RemoveAtDistinct(t, 1);
    DropAt(left, 0);
    assert RemoveAt(left, 0) == t[2..];
  }

  lemma ClaimIds(t: Token)
    ensures TokenIds(t) == match t case ClaimToken(c) => Ids(c.items) case UpdateToken(r, _) => {r.id}
  {
  }

  lemma DropCommits(d: Durable, k: nat)
    requires DurableInv(d) && k in d.s.tokens && k in d.journalled && !IsSteer(d.s.tokens[k]) && !IsEdit(d.s.tokens[k])
    ensures Next(d.s, Commit(k)).v.turn == Drop(d.s.v.turn, TokenIds(d.s.tokens[k]))
    ensures PublishStep(d, k).s == Next(d.s, Commit(k)) && PublishStep(d, k).journalled == d.journalled - {k}
    ensures PublishStep(d, k).comingTurn == d.comingTurn && PublishStep(d, k).comingStep == d.comingStep
    ensures PublishStep(d, k).turn == d.turn && PublishStep(d, k).step == d.step
  {
    hide DurableInv, Inv, Ids, Drop, Next, MotionOf, TokenIds;
    InvPart(d);
    CommitMotion(d, k);
    MemoryMoves(d.s, Commit(k));
  }

  lemma RemoveAtDistinct(q: seq<Item>, i: nat)
    requires Distinct(q) && i < |q|
    ensures Distinct(RemoveAt(q, i))
  {
    RemoveAtFacts(q, i);
  }

  /** Agreement at a later quiet point does not show that every action was faithful: a claim takes
      whatever stands first, so it can clear away the two messages that differ. */
  lemma ClaimHeals(d: Durable, x: Item, y: Item)
    requires DurableInv(d) && Quiescent(d) && d.s.v.turn == [x] && d.turn == [y] && d.step == d.s.v.step
    requires x.message.id !in d.s.v.reserved
    ensures var d' := PublishStep(AppendStep(DurableNext(d, Reserve(ReserveTurn)), d.s.next), d.s.next);
            Quiescent(d') && Agree(d')
  {
    var n := d.s.next;
    var d1 := DurableNext(d, Reserve(ReserveTurn));
    var claim := Claim(false, [x]);
    assert Granted(d.s, ReserveTurn) == Some(ClaimToken(claim));
    assert d1.s.tokens[n] == ClaimToken(claim) && d1.s.v.turn == [x] && d1.s.v.step == d.s.v.step;
    DurableInvStep(d, Reserve(ReserveTurn));
    CutFront([y], [], d1.step);
    assert [y] + [] == [y];
    AppendKeeps(d1, n);
    var d2 := AppendStep(d1, n);
    assert d2.turn == [] && d2.s == d1.s && n in d2.journalled;
    InvPart(d2);
    CommitMotion(d2, n);
    MemoryMoves(d2.s, Commit(n));
    PendingSent(d2.s);
    hide DurableInv, Inv, MotionOf, Next;
    SingletonIds(x);
    DropAll([x], {x.message.id});
    DropNone(d2.s.v.step, {x.message.id}) by { IdAt([x], 0); }
  }
}
