/** Whole runs of an inbox: any interleaving of sends, takes, one-phase updates and
    two-phase claims and updates, with every outstanding reservation tracked.

    A run is a list of atomic steps, one per critical section of the inbox lock. */
module InboxRuns {
  import opened Inboxes

  /** An outstanding reservation. `ahead` records, for an update, what was queued
      before its message when it was reserved. */
  datatype Token =
    | ClaimToken(claim: Claim)
    | UpdateToken(reservation: Reservation, ahead: seq<Item>)

  function TokenIds(t: Token): set<MessageId> {
    match t
    case ClaimToken(c) => Ids(c.items)
    case UpdateToken(r, _) => {r.id}
  }

  /** `sent` lists accepted ids in order, `out` every item that left the inbox, and
      the two arrival lists the order in which ids entered each queue. */
  datatype System = System(
    v: View, tokens: map<nat, Token>, next: nat,
    sent: set<MessageId>, out: seq<Item>,
    turnArrivals: seq<MessageId>, stepArrivals: seq<MessageId>)

  const INITIAL := System(EMPTY, map[], 0, {}, [], [], [])

  datatype Step =
    | Send(message: Message, target: Target, wakeup: bool)
    | Take(target: Target)
    | OnePhase(id: MessageId, update: Edit)
    | ReserveTurn
    | ReserveStep
    | ReserveUpdate(id: MessageId, update: Edit, steerEnabled: bool)
    | Commit(token: nat)
    | Abort(token: nat)
    | Clear
    | TakeBatch

  // ---------------------------------------------------------------------
  // What a step does to the two queues
  // ---------------------------------------------------------------------

  datatype Motion =
    | Still
    | Dropped(ids: set<MessageId>)
    | Appended(item: Item)
    | Replaced(message: Message)
    | Moved(message: Message)
    | Emptied
    | StepEmptied

  function Apply(v: View, mo: Motion): View {
    match mo
    case Still => v
    case Dropped(ids) => DropView(v, ids)
    case Appended(item) =>
      if item.target == Followup then v.(turn := v.turn + [item]) else v.(step := v.step + [item])
    case Replaced(m) => v.(turn := Replace(v.turn, m), step := Replace(v.step, m))
    case Moved(m) => v.(turn := Drop(v.turn, {m.id}), step := v.step + [Item(Steer, m)])
    case Emptied => v.(turn := [], step := [])
    case StepEmptied => v.(step := [])
  }

  function Touched(mo: Motion): set<MessageId> {
    match mo
    case Dropped(ids) => ids
    case Replaced(m) => {m.id}
    case Moved(m) => {m.id}
    case _ => {}
  }

  ghost predicate Legal(v: View, mo: Motion) {
    match mo
    case Appended(item) => item.message.id !in v.Pending()
    case Moved(m) => Item(Followup, m) in v.turn
    case Replaced(m) => m.id in v.Pending()
    case _ => true
  }

  function UpdateMotion(u: Edit, m: Message): Motion {
    match u
    case Edit(_) => Replaced(m)
    case Remove => Dropped({m.id})
    case MoveToStep => Moved(m)
  }

  /** The message a commit publishes: the edited copy, or what the queue holds now. */
  function Published(v: View, r: Reservation): Message
    requires ReservationHolds(v, r)
  {
    var q := v.Queue(!r.update.MoveToStep? && r.target != Followup);
    if r.update.Edit? then r.message else q[IndexOf(q, r.id).value].message
  }

  function MotionOf(s: System, st: Step): Motion {
    match st
    case Send(m, t, _) => if SendResultOf(s.v, m) == Sent then Appended(Item(t, m)) else Still
    case Take(t) =>
      (match Takeable(s.v, t) case None => Still case Some(item) => Dropped({item.message.id}))
    case OnePhase(id, u) =>
      (match UpdateOf(s.v, id, u) case Updated(_, m) => UpdateMotion(u, m) case _ => Still)
    case Commit(k) =>
      if k !in s.tokens then Still
      else (match s.tokens[k]
            case ClaimToken(c) => if ClaimHolds(s.v, c) then Dropped(Ids(c.items)) else Still
            case UpdateToken(r, _) => if ReservationHolds(s.v, r) then UpdateMotion(r.update, Published(s.v, r)) else Still)
    case Clear => Emptied
    case TakeBatch => StepEmptied
    case _ => Still
  }

  // ---------------------------------------------------------------------
  // The transition function
  // ---------------------------------------------------------------------

  function Item1(o: Option<Item>): seq<Item> {
    match o case None => [] case Some(x) => [x]
  }

  /** What the caller of a step gets, or what a clear throws away. */
  function Leaving(s: System, st: Step): seq<Item> {
    match st
    case Take(t) => Item1(Takeable(s.v, t))
    case OnePhase(id, Remove) => if UpdateOf(s.v, id, Remove).Updated? then Item1(Addressed(s.v, id)) else []
    case Commit(k) =>
      if k !in s.tokens then []
      else (match s.tokens[k]
            case ClaimToken(c) => if ClaimHolds(s.v, c) then c.items else []
            case UpdateToken(r, _) =>
              if ReservationHolds(s.v, r) && r.update.Remove? then [Item(r.target, Published(s.v, r))] else [])
    case Clear => s.v.turn + s.v.step
    case TakeBatch => s.v.step
    case _ => []
  }

  function NextView(s: System, st: Step): View {
    match st
    case Send(m, t, w) => SendView(s.v, m, t, w)
    case Take(t) => TakeView(s.v, t)
    case OnePhase(id, u) => UpdateView(s.v, id, u)
    case ReserveTurn => ReserveClaimView(s.v, ReserveTurnOf(s.v))
    case ReserveStep => ReserveClaimView(s.v, ReserveStepOf(s.v))
    case ReserveUpdate(id, u, on) => ReserveUpdateView(s.v, ReserveUpdateOf(s.v, id, u, on))
    case Commit(k) =>
      if k !in s.tokens then s.v
      else (match s.tokens[k]
            // a failed commit drops the reservation, which aborts it
            case ClaimToken(c) => if ClaimHolds(s.v, c) then CommitClaimView(s.v, c) else AbortClaimView(s.v, c)
            case UpdateToken(r, _) => CommitUpdateView(s.v, r))
    case Abort(k) =>
      if k !in s.tokens then s.v
      else (match s.tokens[k]
            case ClaimToken(c) => AbortClaimView(s.v, c)
            case UpdateToken(r, _) => AbortUpdateView(s.v, r.id))
    case Clear => ClearView(s.v)
    case TakeBatch => TakeStepBatchView(s.v)
  }

  /** The token a reserving step hands out, if it hands one out. */
  function Granted(s: System, st: Step): Option<Token> {
    match st
    case ReserveTurn => (match ReserveTurnOf(s.v) case None => None case Some(c) => Some(ClaimToken(c)))
    case ReserveStep => (match ReserveStepOf(s.v) case None => None case Some(c) => Some(ClaimToken(c)))
    case ReserveUpdate(id, u, on) =>
      (match ReserveUpdateOf(s.v, id, u, on)
       case Reserved(r) =>
         var q := s.v.Queue(r.sourceTarget != Followup);
         Some(UpdateToken(r, if r.start <= |q| then q[..r.start] else q))
       case _ => None)
    case _ => None
  }

  function Entering(mo: Motion, nextStep: bool): seq<MessageId> {
    match mo
    case Appended(item) => if (item.target != Followup) == nextStep then [item.message.id] else []
    case Moved(m) => if nextStep then [m.id] else []
    case _ => []
  }

  function Next(s: System, st: Step): System {
    var mo := MotionOf(s, st);
    var granted := Granted(s, st);
    var kept := if st.Commit? || st.Abort? then s.tokens - {st.token} else s.tokens;
    System(NextView(s, st),
           if granted.Some? then kept[s.next := granted.value] else kept,
           if granted.Some? then s.next + 1 else s.next,
           if mo.Appended? then s.sent + {mo.item.message.id} else s.sent,
           s.out + Leaving(s, st),
           s.turnArrivals + Entering(mo, false),
           s.stepArrivals + Entering(mo, true))
  }

  /** Message ids are never reused. */
  predicate Fresh(s: System, st: Step) {
    st.Send? ==> st.message.id !in s.sent
  }

  // ---------------------------------------------------------------------
  // Where an outstanding reservation's entries are
  // ---------------------------------------------------------------------

  /** A claim's items are still the prefix of their queue; an update's message is
      still in its queue, behind exactly those of `ahead` that have not left. */
  ghost predicate Placed(v: View, t: Token) {
    match t
    case ClaimToken(c) => c.items != [] && c.items <= v.Queue(c.nextStep)
    case UpdateToken(r, ahead) =>
      var q := v.Queue(r.sourceTarget != Followup);
      var k := IndexOf(q, r.id);
      && k.Some?
      && q[k.value].target == r.sourceTarget
      && r.message == (if r.update.Edit? then q[k.value].message.(content := r.message.content) else q[k.value].message)
      && Ids(q[..k.value]) == Ids(ahead) * Ids(q)
  }

  ghost predicate Held(v: View, t: Token) {
    Placed(v, t) && TokenIds(t) <= v.reserved
  }

  /** None of the reservation's entries is queued any more. */
  ghost predicate Lost(v: View, t: Token) {
    TokenIds(t) !! v.Pending()
  }

  ghost predicate Shaped(t: Token) {
    match t
    case ClaimToken(c) => ClaimShape(c) && c.items != []
    case UpdateToken(r, ahead) =>
      && r.message.id == r.id
      && r.sourceTarget != Inject
      && (r.update.MoveToStep? ==> r.sourceTarget == Followup && r.target == Steer)
      && (!r.update.MoveToStep? ==> r.target == r.sourceTarget)
      && (r.update.Edit? ==> r.message.content == r.update.content)
      && r.start == |ahead| && Distinct(ahead) && r.id !in Ids(ahead)
  }

  function AheadIds(t: Token): set<MessageId> {
    match t
    case ClaimToken(_) => {}
    case UpdateToken(_, ahead) => Ids(ahead)
  }

  predicate OnStep(t: Token) {
    match t
    case ClaimToken(c) => c.nextStep
    case UpdateToken(r, _) => r.sourceTarget != Followup
  }

  /** No id queued before an update's message is about to enter that queue again. */
  ghost predicate NoReturn(mo: Motion, t: Token) {
    match mo
    case Appended(item) => item.message.id !in AheadIds(t)
    case Moved(m) => OnStep(t) ==> m.id !in AheadIds(t)
    case _ => true
  }

  // ---------------------------------------------------------------------
  // Motions keep the queues well formed and the reserved entries in place
  // ---------------------------------------------------------------------

  lemma ApplyWellFormed(v: View, mo: Motion)
    requires v.WellFormed() && Legal(v, mo)
    ensures Apply(v, mo).WellFormed()
    ensures Apply(v, mo).Pending() == match mo
              case Dropped(ids) => v.Pending() - ids
              case Appended(item) => v.Pending() + {item.message.id}
              case Emptied => {}
              case StepEmptied => Ids(v.turn)
              case _ => v.Pending()
  {
    hide Drop, Lane, Replace;
    match mo {
      case Still =>
      case Dropped(ids) => DropViewWellFormed(v, ids);
      case Appended(item) => AppendWellFormed(v, item);
      case Replaced(m) =>
        ReplaceViewWellFormed(v, m);
        ReplaceIds(v.turn, m);
        ReplaceIds(v.step, m);
      case Moved(m) => MovedWellFormed(v, m);
      case Emptied =>
      case StepEmptied =>
        DistinctParts(v.turn, v.step);
        assert v.turn + [] == v.turn;
    }
  }

  lemma MovedWellFormed(v: View, m: Message)
    requires v.WellFormed() && Item(Followup, m) in v.turn
    ensures Apply(v, Moved(m)).WellFormed()
    ensures Apply(v, Moved(m)).Pending() == v.Pending()
  {
    hide Drop, Lane;
    var k :| 0 <= k < |v.turn| && v.turn[k] == Item(Followup, m);
    IdAt(v.turn, k);
    DistinctParts(v.turn, v.step);
    DropNone(v.step, {m.id});
    DropViewWellFormed(v, {m.id});
    DropFacts(v.turn, {m.id});
    AppendWellFormed(DropView(v, {m.id}), Item(Steer, m));
  }

  /** An item not dropped stays, behind what is left of what was before it. */
  lemma DropKeepsIndex(q: seq<Item>, k: nat, ids: set<MessageId>)
    requires k < |q| && Distinct(q) && q[k].message.id !in ids
    ensures var k' := |Drop(q[..k], ids)|;
            && IndexOf(Drop(q, ids), q[k].message.id) == Some(k')
            && Drop(q, ids)[k'] == q[k]
            && Drop(q, ids)[..k'] == Drop(q[..k], ids)
  {
    hide Ids, Drop, IndexOf;
    var a, x, b := q[..k], q[k], q[k + 1..];
    assert q == a + [x] + b;
    DropConcat(a + [x], b, ids);
    DropConcat(a, [x], ids);
    DropSingle(x, ids);
    DropFacts(q, ids);
    var d, k' := Drop(q, ids), |Drop(a, ids)|;
    assert d == Drop(a, ids) + [x] + Drop(b, ids);
    assert d[k'] == x;
    assert IndexOf(d, x.message.id) == Some(k');
  }

  lemma DropSingle(x: Item, ids: set<MessageId>)
    requires x.message.id !in ids
    ensures Drop([x], ids) == [x]
  {
    assert [x][1..] == [];
  }

  lemma PlacedDrop(v: View, t: Token, ids: set<MessageId>)
    requires v.WellFormed() && Placed(v, t) && TokenIds(t) !! ids
    ensures Placed(DropView(v, ids), t)
  {
    hide Drop, Lane;
    DistinctParts(v.turn, v.step);
    match t {
      case ClaimToken(c) =>
        var q := v.Queue(c.nextStep);
        assert q == c.items + q[|c.items|..];
        DropConcat(c.items, q[|c.items|..], ids);
        DropNone(c.items, ids);
      case UpdateToken(r, ahead) =>
        var q := v.Queue(r.sourceTarget != Followup);
        var k := IndexOf(q, r.id).value;
        DropKeepsIndex(q, k, ids);
        DropFacts(q, ids);
        DropFacts(q[..k], ids);
    }
  }

  lemma PlacedAppend(q: seq<Item>, r: Reservation, ahead: seq<Item>, item: Item)
    requires IndexOf(q, r.id).Some? && Ids(q[..IndexOf(q, r.id).value]) == Ids(ahead) * Ids(q)
    requires item.message.id !in Ids(ahead)
    ensures IndexOf(q + [item], r.id) == IndexOf(q, r.id)
    ensures Ids((q + [item])[..IndexOf(q, r.id).value]) == Ids(ahead) * Ids(q + [item])
  {
    hide Ids, IndexOf;
    var k := IndexOf(q, r.id).value;
    assert (q + [item])[..k] == q[..k];
    IdsConcat(q, [item]);
    SingletonIds(item);
    var k' := IndexOf(q + [item], r.id);
    assert (q + [item])[k].message.id == r.id;
    assert k'.Some? && k'.value == k;
  }

  lemma ReplacePrefix(items: seq<Item>, q: seq<Item>, m: Message)
    requires items <= q && m.id !in Ids(items)
    ensures items <= Replace(q, m)
  {
    forall i | 0 <= i < |items| ensures Replace(q, m)[i] == items[i] {
      assert q[i] == items[i];
      IdAt(items, i);
    }
  }

  lemma ReplaceIndex(q: seq<Item>, id: MessageId, m: Message)
    requires IndexOf(q, id).Some? && m.id != id
    ensures IndexOf(Replace(q, m), id) == IndexOf(q, id)
    ensures Replace(q, m)[IndexOf(q, id).value] == q[IndexOf(q, id).value]
    ensures Ids(Replace(q, m)[..IndexOf(q, id).value]) == Ids(q[..IndexOf(q, id).value])
    ensures Ids(Replace(q, m)) == Ids(q)
  {
    hide Ids, IndexOf;
    var k, q' := IndexOf(q, id).value, Replace(q, m);
    assert forall i :: 0 <= i < |q| ==> q'[i].message.id == q[i].message.id;
    assert q'[k].message.id == id;
    assert IndexOf(q', id) == Some(k);
    assert q'[..k] == Replace(q[..k], m);
    ReplaceIds(q, m);
    ReplaceIds(q[..k], m);
  }

  lemma PlacedReplace(v: View, t: Token, m: Message)
    requires v.WellFormed() && Placed(v, t) && m.id !in TokenIds(t)
    ensures Placed(Apply(v, Replaced(m)), t)
  {
    hide Ids, IndexOf, Replace;
    match t {
      case ClaimToken(c) => ReplacePrefix(c.items, v.Queue(c.nextStep), m);
      case UpdateToken(r, ahead) => ReplaceIndex(v.Queue(r.sourceTarget != Followup), r.id, m);
    }
  }

  /** Every motion that touches none of a reservation's own entries leaves them in place. */
  lemma ApplyPlaced(v: View, t: Token, mo: Motion)
    requires v.WellFormed() && Legal(v, mo) && Placed(v, t)
    requires Touched(mo) !! TokenIds(t) && NoReturn(mo, t)
    requires mo != Emptied && (mo == StepEmptied ==> !OnStep(t))
    ensures Placed(Apply(v, mo), t)
  {
    hide Drop, Lane, Ids, Replace;
    match mo {
      case Still =>
      case StepEmptied =>
      case Dropped(ids) => PlacedDrop(v, t, ids);
      case Replaced(m) => PlacedReplace(v, t, m);
      case Appended(item) =>
        match t {
          case ClaimToken(c) =>
          case UpdateToken(r, ahead) => PlacedAppend(v.Queue(r.sourceTarget != Followup), r, ahead, item);
        }
      case Moved(m) =>
        match t {
          case ClaimToken(c) => if !c.nextStep { PlacedDrop(v, t, {m.id}); }
          case UpdateToken(r, ahead) =>
            if r.sourceTarget == Followup {
              PlacedDrop(v, t, {m.id});
            } else {
              PlacedAppend(v.step, r, ahead, Item(Steer, m));
            }
        }
    }
  }

  // ---------------------------------------------------------------------
  // The invariant of every run
  // ---------------------------------------------------------------------

  ghost predicate TokenInv(s: System, t: Token) {
    && Shaped(t)
    && TokenIds(t) <= s.sent
    && AheadIds(t) <= s.sent
    && (OnStep(t) ==> AheadIds(t) !! Ids(s.v.turn))
    && (Held(s.v, t) || Lost(s.v, t))
  }

  ghost predicate TokensInv(s: System) {
    && (forall k :: k in s.tokens ==> k < s.next && TokenInv(s, s.tokens[k]))
    && (forall j, k :: j in s.tokens && k in s.tokens && j != k ==> TokenIds(s.tokens[j]) !! TokenIds(s.tokens[k]))
  }

  /** Every accepted message is pending or has left, and has left at most once. */
  ghost predicate Conserved(s: System) {
    && Distinct(s.out)
    && Ids(s.out) !! s.v.Pending()
    && s.v.Pending() + Ids(s.out) == s.sent
  }

  ghost predicate Inv(s: System) {
    s.v.WellFormed() && Conserved(s) && TokensInv(s)
  }

  /** An addressed item is a member of its queue. */
  lemma AddressedFacts(v: View, id: MessageId)
    requires v.WellFormed() && Addressed(v, id).Some?
    ensures var x := Addressed(v, id).value;
            && x.message.id == id && x.target != Inject && id in v.Pending()
            && x in v.Queue(x.target != Followup)
  {
    var x := Addressed(v, id).value;
    var q := if IndexOf(v.turn, id).Some? then v.turn else v.step;
    var k := IndexOf(q, id).value;
    assert q[k] == x && x in q;
    IdAt(q, k);
  }

  /** What `ReservationHolds` finds in the queue. */
  lemma PublishedFacts(v: View, r: Reservation)
    requires v.WellFormed() && ReservationHolds(v, r) && r.message.id == r.id
    ensures Published(v, r).id == r.id && r.id in v.Pending()
    ensures !r.update.Edit? ==>
              Item(if r.update.MoveToStep? then Followup else r.target, Published(v, r))
              in v.Queue(!r.update.MoveToStep? && r.target != Followup)
  {
    var q := v.Queue(!r.update.MoveToStep? && r.target != Followup);
    var k := IndexOf(q, r.id).value;
    IdAt(q, k);
    assert q[k] in q;
    assert q[k] == Item(q[k].target, q[k].message);
  }

  /** A step moves the queues by its motion and does nothing else to them. */
  lemma NextMoves(s: System, st: Step)
    requires s.v.WellFormed()
    requires st.Commit? && st.token in s.tokens ==> Shaped(s.tokens[st.token])
    ensures Legal(s.v, MotionOf(s, st))
    ensures Next(s, st).v.turn == Apply(s.v, MotionOf(s, st)).turn
    ensures Next(s, st).v.step == Apply(s.v, MotionOf(s, st)).step
  {
    hide Drop, Ids, Lane, Replace, IndexOf, View.WellFormed;
    match st {
      case OnePhase(id, u) =>
        if Addressed(s.v, id).Some? { AddressedFacts(s.v, id); }
      case Commit(k) =>
        if k in s.tokens && s.tokens[k].UpdateToken? && ReservationHolds(s.v, s.tokens[k].reservation) {
          PublishedFacts(s.v, s.tokens[k].reservation);
        }
      case _ =>
    }
  }

  /** The steps that take entries away without regard to reservations. */
  predicate Sweeps(st: Step, t: Token) {
    st == Clear || (st == TakeBatch && OnStep(t))
  }

  predicate Consumes(st: Step, k: nat) {
    (st.Commit? || st.Abort?) && st.token == k
  }

  /** Nobody else's step touches a held reservation's entries or releases them. */
  lemma Untouched(s: System, st: Step, k: nat)
    requires Inv(s) && Fresh(s, st) && k in s.tokens && !Consumes(st, k)
    requires Held(s.v, s.tokens[k])
    ensures Touched(MotionOf(s, st)) !! TokenIds(s.tokens[k])
    ensures NoReturn(MotionOf(s, st), s.tokens[k])
    ensures st != Clear ==> TokenIds(s.tokens[k]) <= Next(s, st).v.reserved
  {
    hide Drop, Lane, Replace, Ids, IndexOf, View.WellFormed, Placed;
    var t := s.tokens[k];
    match st {
      case OnePhase(id, u) =>
        if Addressed(s.v, id).Some? {
          AddressedFacts(s.v, id);
          if MotionOf(s, st).Moved? { MoverIsFollowup(s.v, id); }
        }
      case Commit(j) => CommitUntouched(s, j, k);
      case Abort(j) =>
        if j in s.tokens { assert TokenIds(s.tokens[j]) !! TokenIds(t); }
      case _ =>
    }
  }

  /** A commit of another reservation. */
  lemma CommitUntouched(s: System, j: nat, k: nat)
    requires Inv(s) && k in s.tokens && j != k && Held(s.v, s.tokens[k])
    ensures Touched(MotionOf(s, Commit(j))) !! TokenIds(s.tokens[k])
    ensures NoReturn(MotionOf(s, Commit(j)), s.tokens[k])
    ensures TokenIds(s.tokens[k]) <= Next(s, Commit(j)).v.reserved
  {
    hide Drop, Lane, Replace, Ids, IndexOf, View.WellFormed, Placed;
    if j in s.tokens {
      assert TokenIds(s.tokens[j]) !! TokenIds(s.tokens[k]);
      match s.tokens[j] {
        case ClaimToken(_) =>
        case UpdateToken(r, _) =>
          if ReservationHolds(s.v, r) {
            PublishedFacts(s.v, r);
            if r.update.MoveToStep? { MovedIdInTurn(s.v, Published(s.v, r)); }
          }
      }
    }
  }

  lemma MovedIdInTurn(v: View, m: Message)
    requires Item(Followup, m) in v.turn
    ensures m.id in Ids(v.turn)
  {
    var k :| 0 <= k < |v.turn| && v.turn[k] == Item(Followup, m);
  }

  lemma MoverIsFollowup(v: View, id: MessageId)
    requires v.WellFormed() && UpdateOf(v, id, MoveToStep).Updated?
    ensures id in Ids(v.turn)
  {
    AddressedFacts(v, id);
    MovedIdInTurn(v, Addressed(v, id).value.message);
  }

  /** One step from the point of view of somebody else's reservation: it stays held
      unless the step sweeps its queue, and a lost one never comes back. */
  lemma TokenStep(s: System, st: Step, k: nat)
    requires Inv(s) && Fresh(s, st) && k in s.tokens && !Consumes(st, k)
    ensures Held(s.v, s.tokens[k]) && !Sweeps(st, s.tokens[k]) ==> Held(Next(s, st).v, s.tokens[k])
    ensures Held(s.v, s.tokens[k]) && Sweeps(st, s.tokens[k]) ==> Lost(Next(s, st).v, s.tokens[k])
    ensures Lost(s.v, s.tokens[k]) ==> Lost(Next(s, st).v, s.tokens[k])
    ensures TokenInv(Next(s, st), s.tokens[k])
  {
    hide Drop, Lane, Replace, Ids, IndexOf, View.WellFormed;
    var t, mo := s.tokens[k], MotionOf(s, st);
    assert TokenInv(s, t);
    NextMoves(s, st);
    ApplyWellFormed(s.v, mo);
    var s' := Next(s, st);
    PendingOf(s'.v, Apply(s.v, mo));
    if Held(s.v, t) {
      Untouched(s, st, k);
      if Sweeps(st, t) {
        SweptIsLost(s, st, t);
      } else {
        ApplyPlaced(s.v, t, mo);
        PlacedByQueues(s'.v, Apply(s.v, mo), t);
      }
    }
    TurnGrowsBy(s.v, mo);
  }

  lemma PendingOf(v: View, w: View)
    requires v.turn == w.turn && v.step == w.step
    ensures v.Pending() == w.Pending()
  {
  }

  lemma PlacedByQueues(v: View, w: View, t: Token)
    requires v.turn == w.turn && v.step == w.step
    ensures Placed(v, t) == Placed(w, t)
  {
  }

  lemma SweptIsLost(s: System, st: Step, t: Token)
    requires s.v.WellFormed() && Shaped(t) && Placed(s.v, t) && Sweeps(st, t)
    ensures Lost(Next(s, st).v, t)
  {
    hide Drop, Lane, Replace;
    DistinctParts(s.v.turn, s.v.step);
    if st == TakeBatch {
      match t {
        case ClaimToken(c) => PrefixIds(c.items, s.v.step);
        case UpdateToken(r, _) => IdAt(s.v.step, IndexOf(s.v.step, r.id).value);
      }
    }
  }

  lemma PrefixIds(items: seq<Item>, q: seq<Item>)
    requires items <= q
    ensures Ids(items) <= Ids(q)
  {
    forall id | id in Ids(items) ensures id in Ids(q) {
      var i :| 0 <= i < |items| && items[i].message.id == id;
      assert q[i] == items[i];
    }
  }

  lemma TurnGrowsBy(v: View, mo: Motion)
    ensures Ids(Apply(v, mo).turn) <= Ids(v.turn) + if mo.Appended? then {mo.item.message.id} else {}
  {
    hide Drop, Lane, Replace, Ids;
    match mo {
      case Dropped(ids) => DropFacts(v.turn, ids);
      case Moved(m) => DropFacts(v.turn, {m.id});
      case Replaced(m) => ReplaceIds(v.turn, m);
      case Appended(item) =>
        IdsConcat(v.turn, [item]);
        SingletonIds(item);
      case Emptied => NoIds();
      case _ =>
    }
  }

  lemma NoIds()
    ensures Ids([]) == {}
  {
  }

  // ---------------------------------------------------------------------
  // New reservations
  // ---------------------------------------------------------------------

  lemma GrantedClaim(v: View, c: Claim)
    requires v.WellFormed()
    requires ReserveTurnOf(v) == Some(c) || ReserveStepOf(v) == Some(c)
    ensures Shaped(ClaimToken(c)) && Placed(v, ClaimToken(c))
    ensures Ids(c.items) <= v.Pending() && Ids(c.items) !! v.reserved
  {
    hide Drop, Lane, Replace;
    DistinctParts(v.turn, v.step);
    if c.nextStep {
      assert forall id :: id in Ids(v.step) && id in v.reserved ==> id in Ids(v.step) * v.reserved;
    } else {
      SingletonIds(v.turn[0]);
      IdAt(v.turn, 0);
      assert v.turn[0] in v.turn;
    }
  }

  lemma WellFormedParts(v: View)
    requires v.WellFormed()
    ensures Distinct(v.turn) && Distinct(v.step) && Ids(v.turn) !! Ids(v.step)
    ensures forall x :: x in v.turn ==> x.target == Followup
    ensures forall x :: x in v.step ==> x.target != Followup
  {
    DistinctParts(v.turn, v.step);
  }

  lemma GrantedUpdate(v: View, id: MessageId, u: Edit, on: bool)
    requires v.WellFormed() && ReserveUpdateOf(v, id, u, on).Reserved?
    ensures var r := ReserveUpdateOf(v, id, u, on).reservation;
            var q := v.Queue(r.sourceTarget != Followup);
            && r.id == id && r.start <= |q|
            && Shaped(UpdateToken(r, q[..r.start])) && Placed(v, UpdateToken(r, q[..r.start]))
            && id in v.Pending() && id !in v.reserved
            && Ids(q[..r.start]) <= v.Pending()
            && (r.sourceTarget != Followup ==> Ids(q[..r.start]) !! Ids(v.turn))
  {
    hide Drop, Lane, Replace, Ids, IndexOf, View.WellFormed;
    AddressedFacts(v, id);
    WellFormedParts(v);
    AbsentIndex(v.turn, id);
    var r := ReserveUpdateOf(v, id, u, on).reservation;
    var q := v.Queue(r.sourceTarget != Followup);
    AheadFacts(q, r.start);
    assert q[r.start] in q;
  }

  lemma AheadFacts(q: seq<Item>, k: nat)
    requires k < |q| && Distinct(q)
    ensures Distinct(q[..k]) && q[k].message.id !in Ids(q[..k])
    ensures Ids(q[..k]) <= Ids(q) && Ids(q[..k]) == Ids(q[..k]) * Ids(q)
  {
    hide Ids;
    assert q == q[..k] + q[k..];
    IdsConcat(q[..k], q[k..]);
    DistinctParts(q[..k], q[k..]);
    IdAt(q[k..], 0);
  }

  /** A freshly granted reservation is held and shares no id with any other. */
  lemma GrantedFacts(s: System, st: Step)
    requires Inv(s) && Granted(s, st).Some?
    ensures s.next in Next(s, st).tokens && Next(s, st).tokens[s.next] == Granted(s, st).value
    ensures TokenInv(Next(s, st), Granted(s, st).value)
    ensures Held(Next(s, st).v, Granted(s, st).value)
    ensures forall k :: k in s.tokens ==> TokenIds(s.tokens[k]) !! TokenIds(Granted(s, st).value)
  {
    hide Drop, Lane, Replace, Ids, IndexOf, View.WellFormed, Shaped;
    var t, s' := Granted(s, st).value, Next(s, st);
    match st {
      case ReserveTurn => GrantedClaim(s.v, t.claim);
      case ReserveStep => GrantedClaim(s.v, t.claim);
      case ReserveUpdate(id, u, on) => GrantedUpdate(s.v, id, u, on);
      case _ =>
    }
    PlacedByQueues(s.v, s'.v, t);
    assert TokenIds(t) <= s.v.Pending() && TokenIds(t) !! s.v.reserved;
    forall k | k in s.tokens ensures TokenIds(s.tokens[k]) !! TokenIds(t) {
      assert TokenInv(s, s.tokens[k]);
    }
  }

  // ---------------------------------------------------------------------
  // Conservation
  // ---------------------------------------------------------------------

  lemma EntryPending(q: seq<Item>, t: Target, id: MessageId)
    ensures HasEntry(q, t, id) ==> id in Ids(q)
  {
  }

  lemma HeldOrLost(s: System, k: nat)
    requires Inv(s) && k in s.tokens
    ensures match s.tokens[k]
            case ClaimToken(c) => ClaimHolds(s.v, c) <==> Held(s.v, s.tokens[k])
            case UpdateToken(r, _) => ReservationHolds(s.v, r) <==> Held(s.v, s.tokens[k])
    ensures Held(s.v, s.tokens[k]) <==> !Lost(s.v, s.tokens[k])
  {
    hide Drop, Lane, Replace;
    var t := s.tokens[k];
    assert TokenInv(s, t);
    match t {
      case ClaimToken(c) =>
        var q := s.v.Queue(c.nextStep);
        IdAt(c.items, 0);
        if Held(s.v, t) {
          forall i | 0 <= i < |c.items| ensures HasEntry(q, c.items[i].target, c.items[i].message.id) {
            assert q[i] == c.items[i];
          }
          IdAt(q, 0);
          assert q[0] == c.items[0];
        }
        EntryPending(q, c.items[0].target, c.items[0].message.id);
      case UpdateToken(r, _) =>
        var q := s.v.Queue(r.sourceTarget != Followup);
        AbsentIndex(q, r.id);
    }
  }

  /** Whatever a step hands out was queued exactly like that, and leaves. */
  lemma LeavingFacts(s: System, st: Step)
    requires Inv(s)
    ensures forall x :: x in Leaving(s, st) ==> x in s.v.turn + s.v.step
    ensures Distinct(Leaving(s, st))
    ensures Ids(Leaving(s, st)) == match MotionOf(s, st)
              case Dropped(ids) => ids
              case Emptied => s.v.Pending()
              case StepEmptied => Ids(s.v.step)
              case _ => {}
  {
    hide Drop, Lane, Replace, Ids, IndexOf;
    NoIds();
    match st {
      case Take(t) =>
        if Takeable(s.v, t).Some? {
          var q := s.v.Queue(t != Followup);
          SingletonIds(q[FrontOf(q, t).value]);
          assert q[FrontOf(q, t).value] in q;
        }
      case OnePhase(id, u) =>
        if Addressed(s.v, id).Some? {
          AddressedFacts(s.v, id);
          SingletonIds(Addressed(s.v, id).value);
        }
      case Commit(k) =>
        if k in s.tokens {
          HeldOrLost(s, k);
          assert TokenInv(s, s.tokens[k]);
          match s.tokens[k] {
            case ClaimToken(c) =>
              if ClaimHolds(s.v, c) {
                forall x | x in c.items ensures x in s.v.Queue(c.nextStep) {
                  var i :| 0 <= i < |c.items| && c.items[i] == x;
                  assert s.v.Queue(c.nextStep)[i] == x;
                }
              }
            case UpdateToken(r, _) =>
              if ReservationHolds(s.v, r) && r.update.Remove? {
                PublishedFacts(s.v, r);
                SingletonIds(Item(r.target, Published(s.v, r)));
              }
          }
        }
      case Clear => IdsConcat(s.v.turn, s.v.step);
      case TakeBatch => DistinctParts(s.v.turn, s.v.step);
      case _ =>
    }
  }

  lemma ConservedStep(s: System, st: Step)
    requires Inv(s) && Fresh(s, st)
    ensures Next(s, st).v.WellFormed() && Conserved(Next(s, st))
  {
    hide Drop, Lane, Replace, Ids, IndexOf;
    var mo, s' := MotionOf(s, st), Next(s, st);
    forall k | k in s.tokens ensures Shaped(s.tokens[k]) { assert TokenInv(s, s.tokens[k]); }
    NextMoves(s, st);
    ApplyWellFormed(s.v, mo);
    PendingOf(s'.v, Apply(s.v, mo));
    LeavingFacts(s, st);
    IdsConcat(s.out, Leaving(s, st));
    DistinctParts(s.v.turn, s.v.step);
    LeavingPending(s.v, Leaving(s, st));
    DistinctJoin(s.out, Leaving(s, st));
    assert s'.v.Pending() == if mo.Appended? then s.v.Pending() + {mo.item.message.id} else s.v.Pending() - Ids(Leaving(s, st));
  }

  lemma LeavingPending(v: View, xs: seq<Item>)
    requires forall x :: x in xs ==> x in v.turn + v.step
    ensures Ids(xs) <= v.Pending()
  {
    IdsConcat(v.turn, v.step);
    forall id | id in Ids(xs) ensures id in v.Pending() {
      var i :| 0 <= i < |xs| && xs[i].message.id == id;
      assert xs[i] in xs;
      var j :| 0 <= j < |v.turn + v.step| && (v.turn + v.step)[j] == xs[i];
      IdAt(v.turn + v.step, j);
    }
  }

  lemma InvStep(s: System, st: Step)
    requires Inv(s) && Fresh(s, st)
    ensures Inv(Next(s, st))
  {
    hide Drop, Lane, Replace, Ids, IndexOf, View.WellFormed, Conserved, NextView, Leaving, TokenInv, Granted, TokenIds;
    ConservedStep(s, st);
    var s' := Next(s, st);
    if Granted(s, st).Some? { GrantedFacts(s, st); }
    forall k | k in s'.tokens ensures k < s'.next && TokenInv(s', s'.tokens[k]) {
      if k in s.tokens && s'.tokens[k] == s.tokens[k] && !Consumes(st, k) { TokenStep(s, st, k); }
    }
  }

  // ---------------------------------------------------------------------
  // Runs
  // ---------------------------------------------------------------------

  function Run(s: System, steps: seq<Step>): System
    decreases |steps|
  {
    if steps == [] then s else Run(Next(s, steps[0]), steps[1..])
  }

  ghost predicate FreshRun(s: System, steps: seq<Step>)
    decreases |steps|
  {
    steps != [] ==> Fresh(s, steps[0]) && FreshRun(Next(s, steps[0]), steps[1..])
  }

  lemma {:induction false} InvRun(s: System, steps: seq<Step>)
    requires Inv(s) && FreshRun(s, steps)
    ensures Inv(Run(s, steps))
    decreases |steps|
  {
    hide Inv, Next, Fresh;
    if steps != [] {
      InvStep(s, steps[0]);
      InvRun(Next(s, steps[0]), steps[1..]);
    }
  }

  lemma InitialInv()
    ensures Inv(INITIAL)
  {
    NoIds();
  }

  /** In every state of every run, each accepted message is either pending or has left,
      never both, has left at most once, and ids stay distinct across the queues. */
  lemma RunsConserve(steps: seq<Step>)
    requires FreshRun(INITIAL, steps)
    ensures var s := Run(INITIAL, steps); s.v.WellFormed() && Conserved(s)
  {
    InitialInv();
    InvRun(INITIAL, steps);
  }

  // ---------------------------------------------------------------------
  // Claims: from reservation to commit
  // ---------------------------------------------------------------------

  /** Over any stretch of steps that does not consume reservation `k`: it is still
      held at the end exactly when it was held at the start and no step swept its queue. */
  lemma {:induction false} HeldRun(s: System, steps: seq<Step>, k: nat)
    requires Inv(s) && FreshRun(s, steps) && k in s.tokens
    requires forall i :: 0 <= i < |steps| ==> !Consumes(steps[i], k)
    ensures k in Run(s, steps).tokens && Run(s, steps).tokens[k] == s.tokens[k]
    ensures Held(Run(s, steps).v, s.tokens[k])
        <==> Held(s.v, s.tokens[k]) && forall i :: 0 <= i < |steps| ==> !Sweeps(steps[i], s.tokens[k])
    decreases |steps|
  {
    hide Held, Lost, Sweeps, TokenInv, NextView, Leaving, Granted, Conserved, Fresh;
    if steps != [] {
      var s' := Next(s, steps[0]);
      assert steps == [steps[0]] + steps[1..];
      TokenStep(s, steps[0], k);
      HeldOrLost(s, k);
      InvStep(s, steps[0]);
      HeldOrLost(s', k);
      HeldRun(s', steps[1..], k);
    }
  }

  /** Committing a held claim removes exactly the prefix it claimed and hands it out. */
  lemma HeldClaimCommits(s: System, k: nat)
    requires Inv(s) && k in s.tokens && s.tokens[k].ClaimToken? && Held(s.v, s.tokens[k])
    ensures var c, s' := s.tokens[k].claim, Next(s, Commit(k));
            && ClaimHolds(s.v, c)
            && s.v.Queue(c.nextStep) == c.items + s'.v.Queue(c.nextStep)
            && s'.v.Queue(!c.nextStep) == s.v.Queue(!c.nextStep)
            && s'.v.reserved == s.v.reserved - Ids(c.items)
            && s'.out == s.out + c.items
  {
    hide Drop, Lane, Replace;
    var c := s.tokens[k].claim;
    HeldOrLost(s, k);
    assert TokenInv(s, s.tokens[k]);
    CommitClaimKeeps(s.v, c);
    DistinctParts(s.v.turn, s.v.step);
    DropPrefix(c.items, s.v.Queue(c.nextStep));
  }

  lemma LostClaimCommits(s: System, k: nat)
    requires k in s.tokens && s.tokens[k].ClaimToken? && !ClaimHolds(s.v, s.tokens[k].claim)
    ensures Next(s, Commit(k)).v.turn == s.v.turn && Next(s, Commit(k)).v.step == s.v.step
    ensures Next(s, Commit(k)).out == s.out
  {
  }

  /** The claim theorem. Take any run, reserve a claim, then let anything else happen
      except consuming it. The commit succeeds exactly when nobody swept the queue in
      between, and then it removes precisely the claimed prefix, as claimed. */
  lemma ClaimTheorem(before: seq<Step>, reserve: Step, mid: seq<Step>)
    requires FreshRun(INITIAL, before) && (reserve == ReserveTurn || reserve == ReserveStep)
    requires var s := Run(INITIAL, before);
             && Granted(s, reserve).Some?
             && FreshRun(Next(s, reserve), mid)
             && forall i :: 0 <= i < |mid| ==> !Consumes(mid[i], s.next)
    ensures var s := Run(INITIAL, before);
            var t := Granted(s, reserve).value;
            var s2 := Run(Next(s, reserve), mid);
            var s3 := Next(s2, Commit(s.next));
            && (ClaimHolds(s2.v, t.claim) <==> forall i :: 0 <= i < |mid| ==> !Sweeps(mid[i], t))
            && s2.v.Queue(t.claim.nextStep) == (if ClaimHolds(s2.v, t.claim) then t.claim.items else []) + s3.v.Queue(t.claim.nextStep)
            && s3.v.Queue(!t.claim.nextStep) == s2.v.Queue(!t.claim.nextStep)
            && s3.out == s2.out + if ClaimHolds(s2.v, t.claim) then t.claim.items else []
  {
    hide Inv, Held, Lost, Sweeps, TokenInv, Conserved, ClaimHolds, Drop, Next, Granted, Run, FreshRun;
    var s := Run(INITIAL, before);
    var k := s.next;
    InitialInv();
    InvRun(INITIAL, before);
    GrantedFacts(s, reserve);
    var s1 := Next(s, reserve);
    InvStep(s, reserve);
    InvRun(s1, mid);
    HeldRun(s1, mid, k);
    var s2 := Run(s1, mid);
    HeldOrLost(s2, k);
    GrantedIsClaim(s, reserve);
    if Held(s2.v, s2.tokens[k]) { HeldClaimCommits(s2, k); } else { LostClaimCommits(s2, k); }
  }

  lemma GrantedIsClaim(s: System, st: Step)
    requires (st == ReserveTurn || st == ReserveStep) && Granted(s, st).Some?
    ensures Granted(s, st).value.ClaimToken?
    ensures FreshRun(s, [st]) && Fresh(s, st)
  {
  }
}
