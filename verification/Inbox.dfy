/** The process-local inbox of one agent: three FIFO queues whose two step queues
    share one arrival order, with reservations that hold entries back while a
    durable event is being written.

    `View` is the simple form: one next-turn queue, one step lane, a reserved set.
    The class `Inbox` keeps the source's representation (separate steer and
    injection queues plus `stepOrder`) and is proved to refine `View`. */
module Inboxes {

  const U64_MAX: nat := 0xFFFF_FFFF_FFFF_FFFF

  type MessageId = string

  datatype Option<+T> = None | Some(value: T)

  /** A content block together with the verdict of its own validation. */
  datatype Block = Block(text: string, wellFormed: bool)

  datatype Message = Message(id: MessageId, sourceValid: bool, content: seq<Block>) {
    predicate Valid() {
      sourceValid && forall i :: 0 <= i < |content| ==> content[i].wellFormed
    }
  }

  datatype Target = Followup | Steer | Inject

  /** One pending occurrence: a message and the queue it was sent to. */
  datatype Item = Item(target: Target, message: Message)

  datatype Entry = Entry(target: Target, id: MessageId)

  datatype Edit = Edit(content: seq<Block>) | Remove | MoveToStep

  datatype UpdateResult =
    | Updated(target: Target, message: Message)
    | NotPending
    | SteerUnavailable

  /** A claimed batch: the whole step lane, or the head of the next-turn queue. */
  datatype Claim = Claim(nextStep: bool, items: seq<Item>)

  datatype Reservation = Reservation(
    id: MessageId, update: Edit, target: Target, message: Message,
    sourceTarget: Target, start: nat, destinationStart: Option<nat>, wakes: bool)

  datatype ReserveResult =
    | Reserved(reservation: Reservation)
    | ReserveNotPending
    | ReserveSteerUnavailable

  // ---------------------------------------------------------------------
  // Queues of items
  // ---------------------------------------------------------------------

  function Ids(q: seq<Item>): set<MessageId> {
    set i | 0 <= i < |q| :: q[i].message.id
  }

  ghost predicate Distinct(q: seq<Item>) {
    forall i, j :: 0 <= i < j < |q| ==> q[i].message.id != q[j].message.id
  }

  /** The items whose id is not in `ids`, in order. */
  function Drop(q: seq<Item>, ids: set<MessageId>): seq<Item> {
    if q == [] then []
    else if q[0].message.id in ids then Drop(q[1..], ids)
    else [q[0]] + Drop(q[1..], ids)
  }

  /** The queue with the message of `m.id` replaced by `m`. */
  function Replace(q: seq<Item>, m: Message): seq<Item> {
    seq(|q|, i requires 0 <= i < |q| => if q[i].message.id == m.id then q[i].(message := m) else q[i])
  }

  function IndexOf(q: seq<Item>, id: MessageId): (r: Option<nat>)
    ensures r.Some? ==> r.value < |q| && q[r.value].message.id == id
    ensures r.Some? ==> forall i :: 0 <= i < r.value ==> q[i].message.id != id
    ensures r.None? ==> forall i :: 0 <= i < |q| ==> q[i].message.id != id
  {
    if q == [] then None
    else if q[0].message.id == id then Some(0)
    else match IndexOf(q[1..], id)
      case None => None
      case Some(k) => Some(k + 1)
  }

  /** The messages of one target, in lane order. */
  function Lane(q: seq<Item>, t: Target): seq<Message> {
    if q == [] then []
    else (if q[0].target == t then [q[0].message] else []) + Lane(q[1..], t)
  }

  function Order(q: seq<Item>): seq<Entry> {
    seq(|q|, i requires 0 <= i < |q| => Entry(q[i].target, q[i].message.id))
  }

  function AsItems(ms: seq<Message>, t: Target): seq<Item> {
    seq(|ms|, i requires 0 <= i < |ms| => Item(t, ms[i]))
  }

  function Messages(q: seq<Item>): seq<Message> {
    seq(|q|, i requires 0 <= i < |q| => q[i].message)
  }

  /** Index of the first item of target `t`. */
  function FrontOf(q: seq<Item>, t: Target): (r: Option<nat>)
    ensures r.Some? ==> r.value < |q| && q[r.value].target == t
    ensures r.Some? ==> forall i :: 0 <= i < r.value ==> q[i].target != t
    ensures r.None? ==> forall i :: 0 <= i < |q| ==> q[i].target != t
  {
    if q == [] then None
    else if q[0].target == t then Some(0)
    else match FrontOf(q[1..], t)
      case None => None
      case Some(k) => Some(k + 1)
  }

  function RemoveAt<T>(q: seq<T>, k: nat): seq<T>
    requires k < |q|
  {
    q[..k] + q[k + 1..]
  }

  lemma {:induction false} DropConcat(a: seq<Item>, b: seq<Item>, ids: set<MessageId>)
    ensures Drop(a + b, ids) == Drop(a, ids) + Drop(b, ids)
  {
    if a == [] {
      assert a + b == b;
    } else {
      assert (a + b)[1..] == a[1..] + b;
      DropConcat(a[1..], b, ids);
    }
  }

  lemma {:induction false} DropNone(q: seq<Item>, ids: set<MessageId>)
    requires Ids(q) !! ids
    ensures Drop(q, ids) == q
  {
    if q != [] {
      assert q[0].message.id in Ids(q);
      assert Ids(q[1..]) <= Ids(q) by { IdsTail(q); }
      DropNone(q[1..], ids);
    }
  }

  lemma {:induction false} DropAll(q: seq<Item>, ids: set<MessageId>)
    requires Ids(q) <= ids
    ensures Drop(q, ids) == []
  {
    if q != [] {
      assert q[0].message.id in Ids(q);
      assert Ids(q[1..]) <= Ids(q) by { IdsTail(q); }
      DropAll(q[1..], ids);
    }
  }

  lemma IdsTail(q: seq<Item>)
    requires q != []
    ensures Ids(q) == {q[0].message.id} + Ids(q[1..])
  {
    forall x | x in Ids(q) ensures x in {q[0].message.id} + Ids(q[1..]) {
      var i :| 0 <= i < |q| && q[i].message.id == x;
      if i > 0 { assert q[1..][i - 1] == q[i]; }
    }
    forall x | x in Ids(q[1..]) ensures x in Ids(q) {
      var i :| 0 <= i < |q[1..]| && q[1..][i].message.id == x;
      assert q[i + 1].message.id == x;
    }
    assert q[0].message.id in Ids(q);
  }

  lemma IdsConcat(a: seq<Item>, b: seq<Item>)
    ensures Ids(a + b) == Ids(a) + Ids(b)
  {
    forall x | x in Ids(a + b) ensures x in Ids(a) + Ids(b) {
      var i :| 0 <= i < |a + b| && (a + b)[i].message.id == x;
      if i < |a| { assert a[i].message.id == x; } else { assert b[i - |a|].message.id == x; }
    }
    forall x | x in Ids(a) ensures x in Ids(a + b) {
      var i :| 0 <= i < |a| && a[i].message.id == x;
      assert (a + b)[i].message.id == x;
    }
    forall x | x in Ids(b) ensures x in Ids(a + b) {
      var i :| 0 <= i < |b| && b[i].message.id == x;
      assert (a + b)[|a| + i].message.id == x;
    }
  }

  /** `Drop` keeps exactly the items outside `ids`, and keeps them distinct. */
  lemma {:induction false} DropFacts(q: seq<Item>, ids: set<MessageId>)
    ensures Ids(Drop(q, ids)) == Ids(q) - ids
    ensures Distinct(q) ==> Distinct(Drop(q, ids))
    ensures forall x :: x in Drop(q, ids) <==> x in q && x.message.id !in ids
  {
    if q != [] {
      DropFacts(q[1..], ids);
      IdsTail(q);
      var rest := Drop(q[1..], ids);
      assert q == [q[0]] + q[1..];
      if q[0].message.id !in ids {
        IdsConcat([q[0]], rest);
        assert Ids([q[0]]) == {q[0].message.id} by { assert [q[0]][0].message.id in Ids([q[0]]); }
        if Distinct(q) {
          forall i | 0 <= i < |rest| ensures rest[i].message.id != q[0].message.id {
            assert rest[i] in q[1..];
          }
        }
      }
    }
  }

  lemma DropMiddle(a: seq<Item>, x: Item, b: seq<Item>)
    requires x.message.id !in Ids(a) && x.message.id !in Ids(b)
    ensures Drop(a + [x] + b, {x.message.id}) == a + b
  {
    var id := {x.message.id};
    DropConcat(a + [x], b, id);
    DropConcat(a, [x], id);
    DropNone(a, id);
    DropNone(b, id);
    SingletonIds(x);
    DropAll([x], id);
  }

  lemma SingletonIds(item: Item)
    ensures Ids([item]) == {item.message.id}
  {
    assert [item][0].message.id in Ids([item]);
  }

  /** With distinct ids, dropping one id removes exactly the position that holds it. */
  lemma DropAt(q: seq<Item>, k: nat)
    requires k < |q| && Distinct(q)
    ensures Drop(q, {q[k].message.id}) == RemoveAt(q, k)
  {
    var a, x, b := q[..k], q[k], q[k + 1..];
    assert q == a + [x] + b;
    DropMiddle(a, x, b);
  }

  /** Dropping the ids of a prefix removes that prefix. */
  lemma DropPrefix(items: seq<Item>, q: seq<Item>)
    requires items <= q && Distinct(q)
    ensures Drop(q, Ids(items)) == q[|items|..]
  {
    var rest := q[|items|..];
    assert q == items + rest;
    DropConcat(items, rest, Ids(items));
    DropAll(items, Ids(items));
    forall x | x in Ids(rest) ensures x !in Ids(items) {
      var i :| 0 <= i < |rest| && rest[i].message.id == x;
      assert q[|items| + i].message.id == x;
    }
    DropNone(rest, Ids(items));
  }

  lemma {:induction false} LaneConcat(a: seq<Item>, b: seq<Item>, t: Target)
    ensures Lane(a + b, t) == Lane(a, t) + Lane(b, t)
  {
    if a == [] {
      assert a + b == b;
    } else {
      var h, rest := a[0], a[1..];
      assert (a + b)[1..] == rest + b && (a + b)[0] == h;
      LaneConcat(rest, b, t);
    }
  }

  lemma {:induction false} LaneMember(q: seq<Item>, t: Target, m: Message)
    ensures m in Lane(q, t) <==> Item(t, m) in q
  {
    if q != [] {
      assert q == [q[0]] + q[1..];
      LaneMember(q[1..], t, m);
    }
  }

  lemma LaneMiddle(a: seq<Item>, x: Item, b: seq<Item>, t: Target)
    ensures Lane(a + [x] + b, t) == Lane(a, t) + (if x.target == t then [x.message] else []) + Lane(b, t)
  {
    LaneConcat(a + [x], b, t);
    LaneConcat(a, [x], t);
    LaneSingle(x, t);
  }

  lemma LaneSingle(x: Item, t: Target)
    ensures Lane([x], t) == if x.target == t then [x.message] else []
  {
    assert [x][1..] == [];
  }

  /** Splitting the lane at position `k` splits each projection. */
  lemma LaneSplit(q: seq<Item>, k: nat, t: Target)
    requires k < |q|
    ensures Lane(q, t) == Lane(q[..k], t) + (if q[k].target == t then [q[k].message] else []) + Lane(q[k + 1..], t)
  {
    var a, x, b := q[..k], q[k], q[k + 1..];
    assert q == a + [x] + b;
    LaneMiddle(a, x, b, t);
  }

  /** The lane position behind index `i` of one projection. */
  lemma {:induction false} LanePosition(q: seq<Item>, t: Target, i: nat) returns (k: nat)
    requires i < |Lane(q, t)|
    ensures k < |q| && q[k] == Item(t, Lane(q, t)[i])
    ensures |Lane(q[..k], t)| == i
  {
    if q[0].target == t {
      if i == 0 {
        k := 0;
        assert q[..0] == [];
      } else {
        var k' := LanePosition(q[1..], t, i - 1);
        k := k' + 1;
        assert q[..k] == [q[0]] + q[1..][..k'];
        LaneConcat([q[0]], q[1..][..k'], t);
        assert Lane([q[0]], t) == [q[0].message];
      }
    } else {
      var k' := LanePosition(q[1..], t, i);
      k := k' + 1;
      assert q[..k] == [q[0]] + q[1..][..k'];
      LaneConcat([q[0]], q[1..][..k'], t);
      assert Lane([q[0]], t) == [];
    }
  }

  // ---------------------------------------------------------------------
  // The simple form
  // ---------------------------------------------------------------------

  datatype View = View(turn: seq<Item>, step: seq<Item>, reserved: set<MessageId>, changes: nat, wakes: nat) {
    ghost predicate WellFormed() {
      && (forall x :: x in turn ==> x.target == Followup)
      && (forall x :: x in step ==> x.target != Followup)
      && Distinct(turn + step)
    }

    function Pending(): set<MessageId> {
      Ids(turn) + Ids(step)
    }

    function Queue(nextStep: bool): seq<Item> {
      if nextStep then step else turn
    }
  }

  const EMPTY := View([], [], {}, 0, 0)

  function Bump(x: nat): nat {
    if x >= U64_MAX then 1 else x + 1
  }

  lemma BumpMoves(x: nat)
    ensures Bump(x) != x && Bump(x) > 0
    ensures x <= U64_MAX ==> Bump(x) <= U64_MAX
  {
  }

  function Woken(v: View, wakes: bool): View {
    if wakes then v.(wakes := Bump(v.wakes)) else v
  }

  function Changed(v: View): View {
    v.(changes := Bump(v.changes))
  }

  datatype SendResult = Sent | InvalidMessage | Duplicate

  function SendResultOf(v: View, m: Message): SendResult {
    if !m.Valid() then InvalidMessage
    else if m.id in v.Pending() then Duplicate
    else Sent
  }

  function SendView(v: View, m: Message, t: Target, wakeup: bool): View {
    if SendResultOf(v, m) != Sent then v
    else
      var item := [Item(t, m)];
      Woken(Changed(if t == Followup then v.(turn := v.turn + item) else v.(step := v.step + item)), wakeup)
  }

  /** The item `take` would pop: the oldest of its target, unless that one is reserved. */
  function Takeable(v: View, t: Target): Option<Item> {
    var q := v.Queue(t != Followup);
    match FrontOf(q, t)
    case None => None
    case Some(k) => if q[k].message.id in v.reserved then None else Some(q[k])
  }

  function DropView(v: View, ids: set<MessageId>): View {
    v.(turn := Drop(v.turn, ids), step := Drop(v.step, ids))
  }

  function TakeView(v: View, t: Target): View {
    match Takeable(v, t)
    case None => v
    case Some(item) => Changed(DropView(v, {item.message.id}))
  }

  function ReserveTurnOf(v: View): Option<Claim> {
    if v.turn == [] || v.turn[0].message.id in v.reserved then None
    else Some(Claim(false, [v.turn[0]]))
  }

  function ReserveStepOf(v: View): Option<Claim> {
    if v.step == [] || Ids(v.step) * v.reserved != {} then None
    else Some(Claim(true, v.step))
  }

  function ReserveClaimView(v: View, c: Option<Claim>): View {
    match c
    case None => v
    case Some(claim) => v.(reserved := v.reserved + Ids(claim.items))
  }

  predicate HasEntry(q: seq<Item>, t: Target, id: MessageId) {
    exists j :: 0 <= j < |q| && q[j].target == t && q[j].message.id == id
  }

  /** A claim commits when all its ids are still reserved and still queued. */
  predicate ClaimHolds(v: View, c: Claim) {
    && Ids(c.items) <= v.reserved
    && forall i :: 0 <= i < |c.items| ==> HasEntry(v.Queue(c.nextStep), c.items[i].target, c.items[i].message.id)
  }

  function CommitClaimView(v: View, c: Claim): View {
    if ClaimHolds(v, c)
    then Changed(DropView(v, Ids(c.items))).(reserved := v.reserved - Ids(c.items))
    else v
  }

  function AbortClaimView(v: View, c: Claim): View {
    v.(reserved := v.reserved - Ids(c.items))
  }

  /** The user-addressable occurrence of `id`: a followup, or a steer. */
  function Addressed(v: View, id: MessageId): Option<Item> {
    match IndexOf(v.turn, id)
    case Some(k) => Some(v.turn[k])
    case None =>
      match IndexOf(v.step, id)
      case Some(k) => if v.step[k].target == Steer then Some(v.step[k]) else None
      case None => None
  }

  function UpdateOf(v: View, id: MessageId, u: Edit): UpdateResult {
    if id in v.reserved then NotPending
    else match Addressed(v, id)
      case None => NotPending
      case Some(item) =>
        match u
        case Edit(content) =>
          var m := item.message.(content := content);
          if m.Valid() then Updated(item.target, m) else NotPending
        case Remove => Updated(item.target, item.message)
        case MoveToStep =>
          if item.target == Followup then Updated(Steer, item.message) else SteerUnavailable
  }

  function Effect(v: View, u: Edit, m: Message): View {
    match u
    case Edit(_) => v.(turn := Replace(v.turn, m), step := Replace(v.step, m))
    case Remove => DropView(v, {m.id})
    case MoveToStep => v.(turn := Drop(v.turn, {m.id}), step := v.step + [Item(Steer, m)])
  }

  function UpdateView(v: View, id: MessageId, u: Edit): View {
    match UpdateOf(v, id, u)
    case Updated(_, m) => Woken(Changed(Effect(v, u, m)), u.MoveToStep?)
    case _ => v
  }

  function ReserveUpdateOf(v: View, id: MessageId, u: Edit, steerEnabled: bool): ReserveResult {
    match UpdateOf(v, id, u)
    case NotPending => ReserveNotPending
    case SteerUnavailable => ReserveSteerUnavailable
    case Updated(t, m) =>
      if u.MoveToStep? && !steerEnabled then ReserveSteerUnavailable
      else
        var source := if IndexOf(v.turn, id).Some? then Followup else Steer;
        var start := match IndexOf(v.Queue(source != Followup), id) case Some(k) => k case None => 0;
        Reserved(Reservation(id, u, t, m, source, start,
                             if u.MoveToStep? then Some(|v.step|) else None, u.MoveToStep?))
  }

  function ReserveUpdateView(v: View, r: ReserveResult): View {
    match r
    case Reserved(res) => v.(reserved := v.reserved + {res.id})
    case _ => v
  }

  /** Whether the reserved occurrence is still where the commit will look for it. */
  predicate ReservationHolds(v: View, r: Reservation) {
    && r.id in v.reserved
    && var q := v.Queue(!r.update.MoveToStep? && r.target != Followup);
       var k := IndexOf(q, r.id);
       k.Some? && q[k.value].target == (if r.update.MoveToStep? then Followup else r.target)
  }

  function CommitUpdateView(v: View, r: Reservation): View {
    var released := v.(reserved := v.reserved - {r.id});
    if !ReservationHolds(v, r) then released
    else
      var m := match r.update
        case Edit(_) => r.message
        case _ =>
          var q := v.Queue(!r.update.MoveToStep? && r.target != Followup);
          q[IndexOf(q, r.id).value].message;
      Woken(Changed(Effect(released, r.update, m)), r.wakes)
  }

  function AbortUpdateView(v: View, id: MessageId): View {
    if id !in v.reserved then v
    else Woken(v.(reserved := v.reserved - {id}), id in v.Pending())
  }

  function ClearView(v: View): View {
    if v.turn == [] && v.step == [] then v
    else View([], [], {}, Bump(v.changes), v.wakes)
  }

  function TakeStepBatchView(v: View): View {
    if v.step == [] then v else Changed(v.(step := []))
  }

  // ---------------------------------------------------------------------
  // The representation
  // ---------------------------------------------------------------------

  function PendingIndex(q: seq<Message>, id: MessageId): (r: Option<nat>)
    ensures r.Some? ==> r.value < |q| && q[r.value].id == id
    ensures r.Some? ==> forall i :: 0 <= i < r.value ==> q[i].id != id
    ensures r.None? ==> forall i :: 0 <= i < |q| ==> q[i].id != id
  {
    if q == [] then None
    else if q[0].id == id then Some(0)
    else match PendingIndex(q[1..], id)
      case None => None
      case Some(k) => Some(k + 1)
  }

  /** `retain` with both target and id, as the one-phase verbs call it. */
  function RetainOther(order: seq<Entry>, t: Target, id: MessageId): seq<Entry> {
    if order == [] then []
    else if order[0].target == t && order[0].id == id then RetainOther(order[1..], t, id)
    else [order[0]] + RetainOther(order[1..], t, id)
  }

  /** `retain` by id alone, as the two-phase commits call it. */
  function RetainIds(order: seq<Entry>, ids: set<MessageId>): seq<Entry> {
    if order == [] then []
    else if order[0].id in ids then RetainIds(order[1..], ids)
    else [order[0]] + RetainIds(order[1..], ids)
  }

  lemma {:induction false} RetainIdsDrops(q: seq<Item>, ids: set<MessageId>)
    ensures RetainIds(Order(q), ids) == Order(Drop(q, ids))
  {
    if q != [] {
      assert Order(q)[1..] == Order(q[1..]);
      RetainIdsDrops(q[1..], ids);
    }
  }

  lemma {:induction false} RetainOtherDrops(q: seq<Item>, t: Target, id: MessageId)
    requires forall i :: 0 <= i < |q| && q[i].message.id == id ==> q[i].target == t
    ensures RetainOther(Order(q), t, id) == Order(Drop(q, {id}))
  {
    if q != [] {
      assert Order(q)[1..] == Order(q[1..]);
      RetainOtherDrops(q[1..], t, id);
    }
  }

  /** Removing one item from the lane removes it from its own projection only. */
  lemma DropProjects(q: seq<Item>, k: nat)
    requires k < |q| && Distinct(q)
    ensures |Lane(q[..k], q[k].target)| < |Lane(q, q[k].target)|
    ensures Lane(q, q[k].target)[|Lane(q[..k], q[k].target)|] == q[k].message
    ensures Lane(Drop(q, {q[k].message.id}), q[k].target)
         == RemoveAt(Lane(q, q[k].target), |Lane(q[..k], q[k].target)|)
    ensures forall t :: t != q[k].target ==> Lane(Drop(q, {q[k].message.id}), t) == Lane(q, t)
  {
    hide Drop, Lane, Ids;
    DropAt(q, k);
    forall t
      ensures Lane(q, t) == Lane(q[..k], t) + (if q[k].target == t then [q[k].message] else []) + Lane(q[k + 1..], t)
      ensures Lane(RemoveAt(q, k), t) == Lane(q[..k], t) + Lane(q[k + 1..], t)
    {
      LaneSplit(q, k, t);
      LaneConcat(q[..k], q[k + 1..], t);
    }
  }

  /** Replacing one message in place replaces it in its own projection only. */
  lemma ReplaceProjects(q: seq<Item>, k: nat, m: Message)
    requires k < |q| && Distinct(q) && m.id == q[k].message.id
    ensures |Lane(q[..k], q[k].target)| < |Lane(q, q[k].target)|
    ensures Lane(Replace(q, m), q[k].target) == Lane(q, q[k].target)[|Lane(q[..k], q[k].target)| := m]
    ensures forall t :: t != q[k].target ==> Lane(Replace(q, m), t) == Lane(q, t)
    ensures Order(Replace(q, m)) == Order(q)
  {
    hide Drop, Lane, Ids;
    var r := Replace(q, m);
    assert r[..k] == q[..k] && r[k + 1..] == q[k + 1..];
    forall t
      ensures Lane(q, t) == Lane(q[..k], t) + (if q[k].target == t then [q[k].message] else []) + Lane(q[k + 1..], t)
      ensures Lane(r, t) == Lane(q[..k], t) + (if q[k].target == t then [m] else []) + Lane(q[k + 1..], t)
    {
      LaneSplit(q, k, t);
      LaneSplit(r, k, t);
    }
  }

  lemma DistinctParts(a: seq<Item>, b: seq<Item>)
    requires Distinct(a + b)
    ensures Distinct(a) && Distinct(b) && Ids(a) !! Ids(b)
  {
    forall i, j | 0 <= i < j < |a| ensures a[i].message.id != a[j].message.id {
      assert (a + b)[i] == a[i] && (a + b)[j] == a[j];
    }
    forall i, j | 0 <= i < j < |b| ensures b[i].message.id != b[j].message.id {
      assert (a + b)[|a| + i] == b[i] && (a + b)[|a| + j] == b[j];
    }
    forall x | x in Ids(a) ensures x !in Ids(b) {
      var i :| 0 <= i < |a| && a[i].message.id == x;
      forall j | 0 <= j < |b| ensures b[j].message.id != x {
        assert (a + b)[i] == a[i] && (a + b)[|a| + j] == b[j];
      }
    }
  }

  lemma DistinctJoin(a: seq<Item>, b: seq<Item>)
    requires Distinct(a) && Distinct(b) && Ids(a) !! Ids(b)
    ensures Distinct(a + b)
  {
    var s := a + b;
    forall i, j | 0 <= i < j < |s| ensures s[i].message.id != s[j].message.id {
      if i < |a| { assert s[i].message.id in Ids(a); }
      if j >= |a| { assert s[j] == b[j - |a|]; assert s[j].message.id in Ids(b); }
      if i >= |a| { assert s[i] == b[i - |a|]; }
    }
  }

  lemma DropViewWellFormed(v: View, ids: set<MessageId>)
    requires v.WellFormed()
    ensures DropView(v, ids).WellFormed()
    ensures DropView(v, ids).Pending() == v.Pending() - ids
  {
    hide Drop, Lane, Ids;
    DistinctParts(v.turn, v.step);
    DropFacts(v.turn, ids);
    DropFacts(v.step, ids);
    DistinctJoin(Drop(v.turn, ids), Drop(v.step, ids));
  }

  lemma AppendWellFormed(v: View, item: Item)
    requires v.WellFormed() && item.message.id !in v.Pending()
    ensures item.target == Followup ==> v.(turn := v.turn + [item]).WellFormed()
    ensures item.target != Followup ==> v.(step := v.step + [item]).WellFormed()
    ensures Ids(v.turn + [item]) == Ids(v.turn) + {item.message.id}
    ensures Ids(v.step + [item]) == Ids(v.step) + {item.message.id}
  {
    assert Ids([item]) == {item.message.id} by { assert [item][0].message.id in Ids([item]); }
    IdsConcat(v.turn, [item]);
    IdsConcat(v.step, [item]);
    DistinctParts(v.turn, v.step);
    assert Distinct([item]);
    if item.target == Followup {
      DistinctJoin(v.turn, [item]);
      DistinctJoin(v.turn + [item], v.step);
    } else {
      DistinctJoin(v.step, [item]);
      DistinctJoin(v.turn, v.step + [item]);
    }
  }

  lemma ReplaceIds(q: seq<Item>, m: Message)
    ensures Ids(Replace(q, m)) == Ids(q)
    ensures Distinct(q) ==> Distinct(Replace(q, m))
    ensures m.id !in Ids(q) ==> Replace(q, m) == q
  {
    var r := Replace(q, m);
    assert forall i :: 0 <= i < |q| ==> r[i].message.id == q[i].message.id;
    forall x | x in Ids(q) ensures x in Ids(r) {
      var i :| 0 <= i < |q| && q[i].message.id == x;
      assert r[i].message.id == x;
    }
    forall x | x in Ids(r) ensures x in Ids(q) {
      var i :| 0 <= i < |r| && r[i].message.id == x;
      assert q[i].message.id == x;
    }
  }

  lemma ReplaceViewWellFormed(v: View, m: Message)
    requires v.WellFormed()
    ensures v.(turn := Replace(v.turn, m), step := Replace(v.step, m)).WellFormed()
  {
    DistinctParts(v.turn, v.step);
    ReplaceIds(v.turn, m);
    ReplaceIds(v.step, m);
    DistinctJoin(Replace(v.turn, m), Replace(v.step, m));
  }

  lemma IdAt(q: seq<Item>, k: nat)
    requires k < |q|
    ensures q[k].message.id in Ids(q)
  {
  }

  lemma AbsentIndex(q: seq<Item>, id: MessageId)
    ensures IndexOf(q, id).Some? <==> id in Ids(q)
  {
  }

  lemma SendKeepsLane(q: seq<Item>, item: Item, l: Target)
    ensures Lane(q + [item], l) == Lane(q, l) + if item.target == l then [item.message] else []
  {
    LaneConcat(q, [item], l);
    LaneSingle(item, l);
  }

  lemma SendKeeps(v: View, m: Message, t: Target, wakeup: bool)
    requires v.WellFormed()
    ensures SendView(v, m, t, wakeup).WellFormed()
    ensures forall l :: Lane(v.step + [Item(t, m)], l) == Lane(v.step, l) + if t == l then [m] else []
    ensures Order(v.step + [Item(t, m)]) == Order(v.step) + [Entry(t, m.id)]
  {
    var item := Item(t, m);
    forall l ensures Lane(v.step + [item], l) == Lane(v.step, l) + if t == l then [m] else [] {
      LaneConcat(v.step, [item], l);
      LaneSingle(item, l);
    }
    if SendResultOf(v, m) == Sent { AppendWellFormed(v, item); }
  }

  /** The head of a projection is the oldest lane item of that target. */
  lemma FrontFacts(v: View, t: Target)
    requires v.WellFormed()
    ensures t == Followup ==> FrontOf(v.turn, t) == if v.turn == [] then None else Some(0)
    ensures t != Followup ==>
              && (FrontOf(v.step, t).None? <==> Lane(v.step, t) == [])
              && (FrontOf(v.step, t).Some? ==>
                    && v.step[FrontOf(v.step, t).value].message == Lane(v.step, t)[0]
                    && Lane(v.step[..FrontOf(v.step, t).value], t) == [])
  {
    if t == Followup {
      if v.turn != [] { assert v.turn[0] in v.turn; }
    } else if Lane(v.step, t) == [] {
      forall i | 0 <= i < |v.step| ensures v.step[i].target != t {
        LaneMember(v.step, t, v.step[i].message);
        assert v.step[i] in v.step;
      }
    } else {
      var k := LanePosition(v.step, t, 0);
      NoneBefore(v.step, t, k);
    }
  }

  lemma TakeKeeps(v: View, t: Target)
    requires v.WellFormed() && Takeable(v, t).Some?
    ensures TakeView(v, t).WellFormed()
    ensures t == Followup ==> TakeView(v, t).turn == v.turn[1..] && TakeView(v, t).step == v.step
    ensures t != Followup ==>
              && TakeView(v, t).turn == v.turn
              && Lane(v.step, t) != [] && Lane(TakeView(v, t).step, t) == Lane(v.step, t)[1..]
              && (forall l :: l != t ==> Lane(TakeView(v, t).step, l) == Lane(v.step, l))
              && RetainOther(Order(v.step), t, Takeable(v, t).value.message.id) == Order(TakeView(v, t).step)
  {
    hide Drop, Lane, Ids;
    var q := v.Queue(t != Followup);
    var k := FrontOf(q, t).value;
    var id := q[k].message.id;
    FrontFacts(v, t);
    DropViewWellFormed(v, {id});
    DistinctParts(v.turn, v.step);
    IdAt(q, k);
    if t == Followup {
      DropAt(v.turn, 0);
      DropNone(v.step, {id});
    } else {
      DropNone(v.turn, {id});
      DropProjects(v.step, k);
      RetainOtherDrops(v.step, t, id);
    }
  }

  /** The lane item at `k` is found by id in its own projection. */
  lemma LaneFinds(q: seq<Item>, k: nat)
    requires k < |q| && Distinct(q)
    ensures PendingIndex(Lane(q, q[k].target), q[k].message.id) == Some(|Lane(q[..k], q[k].target)|)
    ensures Lane(q, q[k].target)[|Lane(q[..k], q[k].target)|] == q[k].message
  {
    hide Drop, Lane, Ids;
    var t := q[k].target;
    var lane := Lane(q, t);
    LaneSplit(q, k, t);
    assert lane[|Lane(q[..k], t)|].id == q[k].message.id;
    var r := PendingIndex(lane, q[k].message.id);
    var j := LanePosition(q, t, r.value);
    assert j == k;
  }

  lemma LaneOfNone(t: Target)
    ensures Lane([], t) == []
  {
  }

  /** The head of the lane is the head of its own projection. */
  lemma HeadFacts(v: View)
    requires v.WellFormed() && v.step != []
    ensures v.(step := v.step[1..]).WellFormed()
    ensures var t := v.step[0].target;
            && t != Followup
            && PendingIndex(Lane(v.step, t), v.step[0].message.id) == Some(0)
            && Lane(v.step, t)[0] == v.step[0].message
            && Lane(v.step[1..], t) == RemoveAt(Lane(v.step, t), 0)
            && forall l :: l != t ==> Lane(v.step[1..], l) == Lane(v.step, l)
    ensures Order(v.step[1..]) == Order(v.step)[1..]
  {
    hide Drop, Lane, Ids;
    DistinctParts(v.turn, v.step);
    assert v.step[0] in v.step;
    LaneFinds(v.step, 0);
    assert v.step[..0] == [];
    LaneOfNone(v.step[0].target);
    var id := v.step[0].message.id;
    DropAt(v.step, 0);
    assert RemoveAt(v.step, 0) == v.step[1..];
    IdAt(v.step, 0);
    DropNone(v.turn, {id});
    DropViewWellFormed(v, {id});
    DropProjects(v.step, 0);
  }

  lemma PrefixIds(q: seq<Item>, i: nat)
    requires i < |q|
    ensures Ids(q[..i + 1]) == Ids(q[..i]) + {q[i].message.id}
  {
    assert q[..i + 1] == q[..i] + [q[i]];
    IdsConcat(q[..i], [q[i]]);
    SingletonIds(q[i]);
  }

  /** What every claim handed out by the inbox looks like. */
  ghost predicate ClaimShape(c: Claim) {
    && Distinct(c.items)
    && forall x :: x in c.items ==> (x.target == Followup <==> !c.nextStep)
  }

  lemma {:induction false} DropDrop(q: seq<Item>, a: set<MessageId>, b: set<MessageId>)
    ensures Drop(Drop(q, a), b) == Drop(q, a + b)
  {
    if q != [] {
      DropDrop(q[1..], a, b);
      if q[0].message.id !in a {
        assert ([q[0]] + Drop(q[1..], a))[1..] == Drop(q[1..], a);
      }
    }
  }

  lemma AsItemsFinds(ms: seq<Message>, id: MessageId)
    ensures IndexOf(AsItems(ms, Followup), id) == PendingIndex(ms, id)
    ensures PendingIndex(ms, id).Some? ==>
              AsItems(RemoveAt(ms, PendingIndex(ms, id).value), Followup)
              == RemoveAt(AsItems(ms, Followup), PendingIndex(ms, id).value)
  {
    var q := AsItems(ms, Followup);
    assert forall i :: 0 <= i < |ms| ==> q[i].message.id == ms[i].id;
    var r := PendingIndex(ms, id);
    if r.Some? {
      assert q[r.value].message.id == id;
      assert AsItems(RemoveAt(ms, r.value), Followup) == RemoveAt(q, r.value);
    }
  }

  lemma CommitClaimKeeps(v: View, c: Claim)
    requires v.WellFormed() && ClaimShape(c) && ClaimHolds(v, c)
    ensures CommitClaimView(v, c).WellFormed()
    ensures !c.nextStep ==> Drop(v.step, Ids(c.items)) == v.step
    ensures c.nextStep ==> Drop(v.turn, Ids(c.items)) == v.turn
  {
    hide Drop, Lane;
    DropViewWellFormed(v, Ids(c.items));
    DistinctParts(v.turn, v.step);
    var q := v.Queue(c.nextStep);
    forall id | id in Ids(c.items) ensures id in Ids(q) {
      var i :| 0 <= i < |c.items| && c.items[i].message.id == id;
    }
    if c.nextStep { DropNone(v.turn, Ids(c.items)); } else { DropNone(v.step, Ids(c.items)); }
  }

  function RemoveId(q: seq<Message>, id: MessageId): seq<Message> {
    match PendingIndex(q, id)
    case None => q
    case Some(k) => RemoveAt(q, k)
  }

  /** Removing one pending item by id, in the view and in the representation. */
  lemma RemoveOne(w: View, t: Target, id: MessageId, fs: seq<Message>)
    requires w.WellFormed() && HasEntry(w.Queue(t != Followup), t, id)
    requires AsItems(fs, Followup) == w.turn
    ensures AsItems(if t == Followup then RemoveId(fs, id) else fs, Followup) == Drop(w.turn, {id})
    ensures forall l :: l != Followup ==>
      (if t == l then RemoveId(Lane(w.step, l), id) else Lane(w.step, l)) == Lane(Drop(w.step, {id}), l)
  {
    hide Drop, Lane, Ids;
    DistinctParts(w.turn, w.step);
    var q := w.Queue(t != Followup);
    var k :| 0 <= k < |q| && q[k].target == t && q[k].message.id == id;
    IdAt(q, k);
    if t == Followup {
      DropNone(w.step, {id});
      DropAt(w.turn, k);
      assert IndexOf(w.turn, id) == Some(k);
      AsItemsFinds(fs, id);
    } else {
      DropNone(w.turn, {id});
      LaneFinds(w.step, k);
      DropProjects(w.step, k);
    }
  }

  /** After the first `i` claimed items are gone the next one is still there. */
  lemma ClaimedStaysPut(v: View, c: Claim, i: nat)
    requires v.WellFormed() && ClaimShape(c) && ClaimHolds(v, c) && i < |c.items|
    ensures var w := DropView(v, Ids(c.items[..i]));
            && w.WellFormed()
            && HasEntry(w.Queue(c.items[i].target != Followup), c.items[i].target, c.items[i].message.id)
            && DropView(v, Ids(c.items[..i + 1])) == DropView(w, {c.items[i].message.id})
  {
    hide Drop, Lane;
    var id, t, before := c.items[i].message.id, c.items[i].target, Ids(c.items[..i]);
    PrefixIds(c.items, i);
    assert id !in before;
    assert c.items[i] in c.items;
    DropDrop(v.turn, before, {id});
    DropDrop(v.step, before, {id});
    DropViewWellFormed(v, before);
    var q := v.Queue(c.nextStep);
    DropFacts(q, before);
    assert HasEntry(q, t, id);
    var j :| 0 <= j < |q| && q[j].target == t && q[j].message.id == id;
    assert q[j] in Drop(q, before);
  }

  /** The removal loop of a claim that was found to hold. */
  method RemoveClaimed(ghost v: View, c: Claim, followups: seq<Message>, steers: seq<Message>,
                       injections: seq<Message>, reservations: set<MessageId>)
    returns (fs: seq<Message>, ss: seq<Message>, js: seq<Message>, rs: set<MessageId>)
    requires v.WellFormed() && ClaimShape(c) && ClaimHolds(v, c)
    requires AsItems(followups, Followup) == v.turn && steers == Lane(v.step, Steer) && injections == Lane(v.step, Inject)
    ensures AsItems(fs, Followup) == Drop(v.turn, Ids(c.items))
    ensures ss == Lane(Drop(v.step, Ids(c.items)), Steer)
    ensures js == Lane(Drop(v.step, Ids(c.items)), Inject)
    ensures rs == reservations - Ids(c.items)
  {
    hide Drop, Lane;
    fs, ss, js, rs := followups, steers, injections, reservations;
    assert c.items[..0] == [] && Ids([]) == {};
    DropNone(v.turn, {});
    DropNone(v.step, {});
    ghost var w := v;
    for i := 0 to |c.items|
      invariant w == DropView(v, Ids(c.items[..i]))
      invariant AsItems(fs, Followup) == w.turn
      invariant ss == Lane(w.step, Steer)
      invariant js == Lane(w.step, Inject)
      invariant rs == reservations - Ids(c.items[..i])
    {
      var item := c.items[i];
      ClaimedStaysPut(v, c, i);
      RemoveOne(w, item.target, item.message.id, fs);
      PrefixIds(c.items, i);
      w := DropView(w, {item.message.id});
      match item.target {
        case Followup => fs := RemoveId(fs, item.message.id);
        case Steer => ss := RemoveId(ss, item.message.id);
        case Inject => js := RemoveId(js, item.message.id);
      }
      rs := rs - {item.message.id};
    }
    assert c.items[..|c.items|] == c.items;
  }

  // ---------------------------------------------------------------------
  // What the verbs do to the queues themselves
  // ---------------------------------------------------------------------

  predicate Lacks(q: seq<Message>, id: MessageId) {
    forall i :: 0 <= i < |q| ==> q[i].id != id
  }

  /** The message `id` has exactly this content now; nothing else about the queue differs. */
  predicate Edited(before: seq<Message>, after: seq<Message>, id: MessageId, content: seq<Block>) {
    && |after| == |before|
    && forall i :: 0 <= i < |before| ==>
         && after[i].id == before[i].id
         && after[i].sourceValid == before[i].sourceValid
         && after[i].content == if before[i].id == id then content else before[i].content
  }

  /** One message `m` was taken out, the rest keeps its order. */
  ghost predicate TakenOut(before: seq<Message>, after: seq<Message>, m: Message) {
    exists i :: 0 <= i < |before| && before[i] == m && after == before[..i] + before[i + 1..]
  }

  /** The message with `m`'s id is `m` now; nothing else about the queue differs. */
  predicate Swapped(before: seq<Message>, after: seq<Message>, m: Message) {
    |after| == |before| && forall i :: 0 <= i < |before| ==> after[i] == if before[i].id == m.id then m else before[i]
  }

  /** What a pending message needs for an update to be reserved on it. */
  predicate Allows(m: Message, u: Edit, steerEnabled: bool) {
    match u
    case Edit(content) => m.(content := content).Valid()
    case Remove => true
    case MoveToStep => steerEnabled
  }

  predicate SomeAllows(q: seq<Message>, id: MessageId, u: Edit, steerEnabled: bool) {
    exists i :: 0 <= i < |q| && q[i].id == id && Allows(q[i], u, steerEnabled)
  }

  lemma OneAllows(q: seq<Message>, id: MessageId, u: Edit, steerEnabled: bool)
    requires Unique(q)
    ensures SomeAllows(q, id, u, steerEnabled) <==>
              PendingIndex(q, id).Some? && Allows(q[PendingIndex(q, id).value], u, steerEnabled)
  {
    hide PendingIndex, Allows;
  }

  /** An edit records the original with exactly the new content, the rest the original itself. */
  predicate Recorded(original: Message, r: Reservation) {
    && original.id == r.id
    && r.message == match r.update
         case Edit(content) => original.(content := content)
         case _ => original
  }

  /** The message `id` was taken out. */
  ghost predicate CutOut(before: seq<Message>, after: seq<Message>, id: MessageId) {
    exists m: Message :: m.id == id && TakenOut(before, after, m)
  }

  lemma SwappedAt(q: seq<Message>, index: nat, m: Message)
    requires Unique(q) && index < |q| && m.id == q[index].id
    ensures Swapped(q, q[index := m], m)
  {
  }

  /** The queues `fs'` and `ss'` after an update was published, given what they were. */
  ghost predicate PublishedAs(
    r: Reservation, queue: Target, fs: seq<Message>, ss: seq<Message>, fs': seq<Message>, ss': seq<Message>)
  {
    match r.update
    case Edit(_) =>
      if queue == Followup then Swapped(fs, fs', r.message) && ss' == ss else Swapped(ss, ss', r.message) && fs' == fs
    case Remove =>
      if queue == Followup then CutOut(fs, fs', r.id) && ss' == ss else CutOut(ss, ss', r.id) && fs' == fs
    case MoveToStep =>
      && CutOut(fs, fs', r.id)
      && |ss'| == |ss| + 1 && ss'[..|ss|] == ss && ss'[|ss|] in fs && ss'[|ss|].id == r.id
  }

  lemma OrderIds(q: seq<Item>)
    ensures |Messages(q)| == |Order(q)| && forall i :: 0 <= i < |q| ==> Messages(q)[i].id == Order(q)[i].id
  {
  }

  lemma LacksFinds(q: seq<Message>, id: MessageId)
    ensures Lacks(q, id) <==> PendingIndex(q, id).None?
  {
  }

  lemma TakenAt(q: seq<Message>, i: nat)
    requires i < |q|
    ensures TakenOut(q, RemoveAt(q, i), q[i]) && CutOut(q, RemoveAt(q, i), q[i].id)
  {
  }

  predicate Unique(q: seq<Message>) {
    forall i, j :: 0 <= i < j < |q| ==> q[i].id != q[j].id
  }

  lemma EditedAt(q: seq<Message>, index: nat, m: Message)
    requires Unique(q) && index < |q| && m == q[index].(content := m.content)
    ensures Edited(q, q[index := m], m.id, m.content)
  {
  }

  lemma EditedElsewhere(q: seq<Message>, id: MessageId, content: seq<Block>)
    requires Lacks(q, id)
    ensures Edited(q, q, id, content)
  {
  }

  /** Distinct items are distinct messages in every projection. */
  lemma LaneUnique(q: seq<Item>, t: Target)
    requires Distinct(q)
    ensures Unique(Lane(q, t))
  {
    hide Lane;
    var lane := Lane(q, t);
    forall i, j | 0 <= i < j < |lane|
      ensures lane[i].id != lane[j].id
    {
      var a := LanePosition(q, t, i);
      var b := LanePosition(q, t, j);
      assert a != b;
    }
  }

  class Inbox {
    var followups: seq<Message>
    var steers: seq<Message>
    var injections: seq<Message>
    var reservations: set<MessageId>
    var stepOrder: seq<Entry>
    var changes: nat
    var wakes: nat
    ghost var step: seq<Item>

    ghost function Contents(): View
      reads this
    {
      View(AsItems(followups, Followup), step, reservations, changes, wakes)
    }

    /** Steers and injections are the in-order projections of the step lane. */
    ghost predicate Valid()
      reads this
    {
      && steers == Lane(step, Steer)
      && injections == Lane(step, Inject)
      && stepOrder == Order(step)
      && Contents().WellFormed()
    }

    constructor ()
      ensures Valid() && Contents() == EMPTY
    {
      followups, steers, injections := [], [], [];
      reservations, stepOrder := {}, [];
      changes, wakes := 0, 0;
      step := [];
      new;
      assert AsItems(followups, Followup) == [];
    }

    /** Membership in one of the three queues is membership in the view. */
    lemma FindsPending(id: MessageId)
      requires Valid()
      ensures PendingIndex(followups, id).Some? <==> id in Ids(AsItems(followups, Followup))
      ensures PendingIndex(steers, id).Some? || PendingIndex(injections, id).Some? <==> id in Ids(step)
    {
      var turn := AsItems(followups, Followup);
      if PendingIndex(followups, id).Some? { IdAt(turn, PendingIndex(followups, id).value); }
      if id in Ids(turn) {
        var i :| 0 <= i < |turn| && turn[i].message.id == id;
        assert followups[i].id == id;
      }
      if PendingIndex(steers, id).Some? {
        var k := LanePosition(step, Steer, PendingIndex(steers, id).value);
        IdAt(step, k);
      }
      if PendingIndex(injections, id).Some? {
        var k := LanePosition(step, Inject, PendingIndex(injections, id).value);
        IdAt(step, k);
      }
      if id in Ids(step) {
        var k :| 0 <= k < |step| && step[k].message.id == id;
        assert step[k] in step;
        LaneMember(step, step[k].target, step[k].message);
        assert step[k] == Item(step[k].target, step[k].message);
      }
    }

    /** No two messages of the three queues share an id. */
    lemma UniqueQueues()
      requires Valid()
      ensures Unique(followups) && Unique(steers) && Unique(injections)
      ensures forall i :: 0 <= i < |followups| ==> Lacks(steers, followups[i].id) && Lacks(injections, followups[i].id)
      ensures forall i :: 0 <= i < |steers| ==> Lacks(followups, steers[i].id)
    {
      hide Lane;
      var turn := AsItems(followups, Followup);
      DistinctParts(turn, step);
      assert forall i :: 0 <= i < |followups| ==> turn[i].message == followups[i];
      LaneUnique(step, Steer);
      LaneUnique(step, Inject);
      forall i | 0 <= i < |followups|
        ensures Lacks(steers, followups[i].id) && Lacks(injections, followups[i].id)
      {
        IdAt(turn, i);
        FindsPending(followups[i].id);
      }
      forall i | 0 <= i < |steers|
        ensures Lacks(followups, steers[i].id)
      {
        FindsPending(steers[i].id);
      }
    }

    method Send(message: Message, target: Target, wakeup: bool) returns (r: SendResult)
      requires Valid()
      modifies this
      ensures Valid()
      ensures r == InvalidMessage <==> !message.Valid()
      ensures r == Sent <==>
                && message.Valid()
                && Lacks(old(followups), message.id)
                && Lacks(old(steers), message.id)
                && Lacks(old(injections), message.id)
      ensures r == Sent ==>
                && followups == (if target == Followup then old(followups) + [message] else old(followups))
                && steers == (if target == Steer then old(steers) + [message] else old(steers))
                && injections == (if target == Inject then old(injections) + [message] else old(injections))
                && stepOrder == (if target == Followup then old(stepOrder) else old(stepOrder) + [Entry(target, message.id)])
                && changes != old(changes)
                && (wakes != old(wakes) <==> wakeup)
      ensures r != Sent ==> unchanged(this)
      ensures reservations == old(reservations)
      ensures r == SendResultOf(old(Contents()), message)
      ensures Contents() == SendView(old(Contents()), message, target, wakeup)
    {
      hide Drop, Lane, Ids;
      if !message.Valid() { return InvalidMessage; }
      FindsPending(message.id);
      if PendingIndex(followups, message.id).Some?
         || PendingIndex(steers, message.id).Some?
         || PendingIndex(injections, message.id).Some? {
        return Duplicate;
      }
      r := Sent;
      SendKeeps(Contents(), message, target, wakeup);
      ghost var item := Item(target, message);
      match target {
        case Followup =>
          followups := followups + [message];
          assert AsItems(followups, Followup) == AsItems(old(followups), Followup) + [item];
        case Steer =>
          stepOrder := stepOrder + [Entry(target, message.id)];
          steers := steers + [message];
          step := step + [item];
        case Inject =>
          stepOrder := stepOrder + [Entry(target, message.id)];
          injections := injections + [message];
          step := step + [item];
      }
      changes := Bump(changes);
      if wakeup { wakes := Bump(wakes); }
      assert Contents() == SendView(old(Contents()), message, target, wakeup);
    }

    method Take(target: Target) returns (r: Option<Message>)
      requires Valid()
      modifies this
      ensures Valid()
      ensures var q := old(match target case Followup => followups case Steer => steers case Inject => injections);
              var q' := match target case Followup => followups case Steer => steers case Inject => injections;
              && (r.Some? <==> q != [] && q[0].id !in old(reservations))
              && (r.Some? ==> q == [r.value] + q')
      ensures target != Followup ==> followups == old(followups)
      ensures target != Steer ==> steers == old(steers)
      ensures target != Inject ==> injections == old(injections)
      ensures reservations == old(reservations) && wakes == old(wakes)
      ensures r.None? ==> unchanged(this)
      ensures r.Some? ==> changes != old(changes)
      ensures r == match Takeable(old(Contents()), target) case None => None case Some(item) => Some(item.message)
      ensures Contents() == TakeView(old(Contents()), target)
    {
      hide Drop, Lane, Ids;
      var queue := match target case Followup => followups case Steer => steers case Inject => injections;
      FrontFacts(Contents(), target);
      if queue == [] || queue[0].id in reservations { return None; }
      var message := queue[0];
      assert queue == [message] + queue[1..];
      r := Some(message);
      TakeKeeps(Contents(), target);
      match target {
        case Followup =>
          followups := followups[1..];
          assert AsItems(followups, Followup) == AsItems(old(followups), Followup)[1..];
        case Steer =>
          steers := steers[1..];
          stepOrder := RetainOther(stepOrder, target, message.id);
          step := Drop(step, {message.id});
        case Inject =>
          injections := injections[1..];
          stepOrder := RetainOther(stepOrder, target, message.id);
          step := Drop(step, {message.id});
      }
      changes := Bump(changes);
      assert Contents() == TakeView(old(Contents()), target);
    }

    /** Drains the whole step lane in arrival order, reserved or not. */
    method TakeStepBatch() returns (messages: seq<Message>)
      requires Valid()
      modifies this
      ensures Valid()
      ensures messages == Messages(old(Contents()).step)
      ensures Contents() == TakeStepBatchView(old(Contents()))
      ensures steers == [] && injections == [] && stepOrder == []
      ensures followups == old(followups) && reservations == old(reservations)
      ensures |messages| == |old(stepOrder)| && forall i :: 0 <= i < |messages| ==> messages[i].id == old(stepOrder)[i].id
    {
      hide Drop, Lane, Ids;
      OrderIds(step);
      messages := [];
      while stepOrder != []
        invariant Valid()
        invariant |messages| + |step| == |old(step)|
        invariant step == old(step)[|messages|..]
        invariant messages == Messages(old(step))[..|messages|]
        invariant Contents() == old(Contents()).(step := step)
        invariant followups == old(followups)
        decreases |stepOrder|
      {
        var entry := stepOrder[0];
        HeadFacts(Contents());
        stepOrder := stepOrder[1..];
        match entry.target {
          case Followup =>
          case Steer =>
            var index := PendingIndex(steers, entry.id);
            if index.Some? {
              messages := messages + [steers[index.value]];
              steers := RemoveAt(steers, index.value);
            }
          case Inject =>
            var index := PendingIndex(injections, entry.id);
            if index.Some? {
              messages := messages + [injections[index.value]];
              injections := RemoveAt(injections, index.value);
            }
        }
        step := step[1..];
      }
      LaneOfEmpty();
      if messages == [] { return; }
      changes := Bump(changes);
    }

    lemma LaneOfEmpty()
      ensures Lane([], Steer) == [] && Lane([], Inject) == []
    {
    }

    method ReserveNextTurnClaim() returns (r: Option<Claim>)
      requires Valid()
      modifies this`reservations
      ensures Valid()
      ensures r == ReserveTurnOf(old(Contents()))
      ensures Contents() == ReserveClaimView(old(Contents()), r)
      ensures r.Some? <==> followups != [] && followups[0].id !in old(reservations)
      ensures r.Some? ==>
                && r.value == Claim(false, [Item(Followup, followups[0])])
                && reservations == old(reservations) + {followups[0].id}
      ensures r.None? ==> reservations == old(reservations)
    {
      if followups == [] || followups[0].id in reservations { return None; }
      r := Some(Claim(false, [Item(Followup, followups[0])]));
      SingletonIds(r.value.items[0]);
      reservations := reservations + {followups[0].id};
    }

    /** Whether some entry of the step lane is reserved. */
    method StepBlocked() returns (blocked: bool)
      requires Valid()
      ensures blocked <==> Ids(step) * reservations != {}
      ensures blocked <==> exists i :: 0 <= i < |stepOrder| && stepOrder[i].id in reservations
    {
      for i := 0 to |stepOrder|
        invariant forall j :: 0 <= j < i ==> stepOrder[j].id !in reservations
      {
        if stepOrder[i].id in reservations {
          IdAt(step, i);
          assert stepOrder[i].id in Ids(step) * reservations;
          return true;
        }
      }
      forall id | id in Ids(step) ensures id !in reservations {
        var j :| 0 <= j < |step| && step[j].message.id == id;
        assert stepOrder[j].id == id;
      }
      blocked := false;
    }

    /** Looks every entry of `stepOrder` up in its own queue; the lookups cannot fail. */
    method CollectStep() returns (items: seq<Item>)
      requires Valid()
      ensures items == step
    {
      DistinctParts(Contents().turn, step);
      items := [];
      for i := 0 to |stepOrder|
        invariant items == step[..i]
      {
        var entry := stepOrder[i];
        assert step[i] in step;
        LaneFinds(step, i);
        var queue := if entry.target == Steer then steers else injections;
        items := items + [Item(entry.target, queue[PendingIndex(queue, entry.id).value])];
      }
    }

    method ReserveStepBatchClaim() returns (r: Option<Claim>)
      requires Valid()
      modifies this`reservations
      ensures Valid()
      ensures r == ReserveStepOf(old(Contents()))
      ensures Contents() == ReserveClaimView(old(Contents()), r)
      ensures r.Some? <==> stepOrder != [] && forall i :: 0 <= i < |stepOrder| ==> stepOrder[i].id !in old(reservations)
      ensures r.Some? ==>
                && r.value.nextStep
                && Order(r.value.items) == stepOrder
                && Lane(r.value.items, Steer) == steers
                && Lane(r.value.items, Inject) == injections
                && (forall id :: id in reservations <==> id in old(reservations) || id in Ids(r.value.items))
      ensures r.None? ==> reservations == old(reservations)
    {
      if stepOrder == [] { return None; }
      var blocked := StepBlocked();
      if blocked { return None; }
      var items := CollectStep();
      r := Some(Claim(true, items));
      for i := 0 to |items|
        invariant reservations == old(reservations) + Ids(items[..i])
      {
        PrefixIds(items, i);
        reservations := reservations + {items[i].message.id};
      }
      assert items[..|items|] == items;
    }

    method CanCommit(c: Claim) returns (ok: bool)
      requires Valid() && ClaimShape(c)
      ensures ok == ClaimHolds(Contents(), c)
    {
      for i := 0 to |c.items|
        invariant forall j :: 0 <= j < i ==> c.items[j].message.id in reservations
      {
        if c.items[i].message.id !in reservations {
          IdAt(c.items, i);
          return false;
        }
      }
      ghost var q := Contents().Queue(c.nextStep);
      for i := 0 to |c.items|
        invariant forall n :: 0 <= n < i ==> HasEntry(q, c.items[n].target, c.items[n].message.id)
      {
        var item := c.items[i];
        assert item in c.items;
        var queue := match item.target case Followup => followups case Steer => steers case Inject => injections;
        QueueFinds(item.target, item.message.id);
        if PendingIndex(queue, item.message.id).None? {
          return false;
        }
      }
      forall id | id in Ids(c.items) ensures id in reservations {
        var j :| 0 <= j < |c.items| && c.items[j].message.id == id;
      }
      ok := true;
    }

    /** Finding an id in a target's own queue is finding it, with that target, in the view. */
    lemma QueueFinds(t: Target, id: MessageId)
      requires Valid()
      ensures var queue := match t case Followup => followups case Steer => steers case Inject => injections;
              var q := Contents().Queue(t != Followup);
              PendingIndex(queue, id).Some? <==> HasEntry(q, t, id)
    {
      var queue := match t case Followup => followups case Steer => steers case Inject => injections;
      var q := Contents().Queue(t != Followup);
      var r := PendingIndex(queue, id);
      if r.Some? {
        if t == Followup {
          assert q[r.value].target == t && q[r.value].message.id == id;
        } else {
          var k := LanePosition(step, t, r.value);
          assert q[k].target == t && q[k].message.id == id;
        }
      }
      if j :| 0 <= j < |q| && q[j].target == t && q[j].message.id == id {
        if t == Followup {
          assert followups[j].id == id;
        } else {
          DistinctParts(Contents().turn, step);
          LaneFinds(step, j);
        }
      }
    }

    /** Commits a claim: checks every entry first, then removes all of them. */
    method CommitClaim(c: Claim) returns (committed: bool)
      requires Valid() && ClaimShape(c)
      modifies this
      ensures Valid()
      ensures committed == ClaimHolds(old(Contents()), c)
      ensures Contents() == CommitClaimView(old(Contents()), c)
      ensures committed ==> reservations == old(reservations) - Ids(c.items) && changes != old(changes)
      ensures !committed ==> unchanged(this)
    {
      hide Drop, Lane, Ids;
      committed := CanCommit(c);
      if !committed { return; }
      CommitClaimKeeps(Contents(), c);
      RetainIdsDrops(step, Ids(c.items));
      followups, steers, injections, reservations :=
        RemoveClaimed(Contents(), c, followups, steers, injections, reservations);
      if c.nextStep {
        stepOrder := RetainIds(stepOrder, Ids(c.items));
      }
      step := Drop(step, Ids(c.items));
      changes := Bump(changes);
      assert Contents() == CommitClaimView(old(Contents()), c);
    }

    /** Releases exactly the claimed ids. */
    method AbortClaim(c: Claim)
      requires Valid()
      modifies this`reservations
      ensures Valid()
      ensures Contents() == AbortClaimView(old(Contents()), c)
      ensures forall i :: 0 <= i < |c.items| ==> c.items[i].message.id !in reservations
      ensures forall id :: (forall i :: 0 <= i < |c.items| ==> c.items[i].message.id != id) ==>
                (id in reservations <==> id in old(reservations))
    {
      for i := 0 to |c.items|
        invariant reservations == old(reservations) - Ids(c.items[..i])
      {
        PrefixIds(c.items, i);
        reservations := reservations - {c.items[i].message.id};
      }
      assert c.items[..|c.items|] == c.items;
    }

    /** Every pending occurrence: next-turn entries, then the lane in arrival order. */
    method Pending() returns (items: seq<Item>)
      requires Valid()
      ensures items == Contents().turn + Contents().step
    {
      var lane := CollectStep();
      items := AsItems(followups, Followup) + lane;
    }

    /** Where a user-addressable message sits: its target and its index in that target's own queue. */
    method Locate(id: MessageId) returns (r: Option<(Target, nat)>)
      requires Valid()
      ensures r.None? <==> Addressed(Contents(), id).None?
      ensures r.Some? ==> Located(id, r.value.0, r.value.1)
    {
      LocateFacts(id);
      var index := PendingIndex(followups, id);
      if index.Some? { return Some((Followup, index.value)); }
      index := PendingIndex(steers, id);
      if index.Some? { return Some((Steer, index.value)); }
      r := None;
    }

    ghost predicate Located(id: MessageId, t: Target, i: nat)
      reads this
    {
      && (t == Followup ==> i < |followups| && PendingIndex(followups, id) == Some(i) && followups[i].id == id
                            && Addressed(Contents(), id) == Some(Item(Followup, followups[i])))
      && (t == Steer ==> i < |steers| && PendingIndex(steers, id) == Some(i) && steers[i].id == id
                         && Addressed(Contents(), id) == Some(Item(Steer, steers[i])))
      && t != Inject
    }

    lemma LocateFacts(id: MessageId)
      requires Valid()
      ensures PendingIndex(followups, id).Some? ==> Located(id, Followup, PendingIndex(followups, id).value)
      ensures PendingIndex(followups, id).None? && PendingIndex(steers, id).Some? ==>
                Located(id, Steer, PendingIndex(steers, id).value)
      ensures PendingIndex(followups, id).None? && PendingIndex(steers, id).None? ==> Addressed(Contents(), id).None?
    {
      hide Drop, Lane, Ids;
      AsItemsFinds(followups, id);
      DistinctParts(Contents().turn, step);
      if PendingIndex(followups, id).None? {
        var k := IndexOf(step, id);
        if k.Some? {
          LaneFinds(step, k.value);
          if PendingIndex(steers, id).Some? {
            var j := LanePosition(step, Steer, PendingIndex(steers, id).value);
            assert j == k.value;
          }
        } else if PendingIndex(steers, id).Some? {
          var j := LanePosition(step, Steer, PendingIndex(steers, id).value);
          assert false;
        }
      }
    }

    /** One-phase mutation of a pending user message. */
    method Update(id: MessageId, u: Edit) returns (r: UpdateResult)
      requires Valid()
      modifies this
      ensures Valid()
      ensures r == UpdateOf(old(Contents()), id, u)
      ensures Contents() == UpdateView(old(Contents()), id, u)
      ensures !r.Updated? ==> unchanged(this)
      ensures r.Updated? ==> r.message.id == id && id !in old(reservations)
      ensures r.Updated? ==> reservations == old(reservations) && injections == old(injections)
      ensures r.Updated? ==> changes != old(changes) && (wakes != old(wakes) <==> u.MoveToStep?)
      ensures r.Updated? && u.Edit? ==>
                && r.message.content == u.content
                && Edited(old(followups), followups, id, u.content)
                && Edited(old(steers), steers, id, u.content)
                && stepOrder == old(stepOrder)
                && r.message in (if r.target == Followup then followups else steers)
      ensures r.Updated? && u.Remove? ==>
                if r.target == Followup
                then TakenOut(old(followups), followups, r.message) && steers == old(steers) && stepOrder == old(stepOrder)
                else TakenOut(old(steers), steers, r.message) && followups == old(followups)
      ensures r.Updated? && u.MoveToStep? ==>
                && r.target == Steer
                && TakenOut(old(followups), followups, r.message)
                && steers == old(steers) + [r.message]
                && stepOrder == old(stepOrder) + [Entry(Steer, id)]
    {
      if id in reservations { return NotPending; }
      var at := Locate(id);
      if at.None? { return NotPending; }
      var (target, index) := at.value;
      hide UpdateView, Edited, TakenOut, Valid;
      match u {
        case Edit(content) => r := EditMessage(id, target, index, content);
        case Remove => r := CutMessage(id, target, index);
        case MoveToStep =>
          if target != Followup { return SteerUnavailable; }
          r := SteerMessage(id, index);
      }
    }

    method EditMessage(id: MessageId, target: Target, index: nat, content: seq<Block>) returns (r: UpdateResult)
      requires Valid() && id !in reservations && Located(id, target, index)
      modifies this
      ensures Valid()
      ensures r == UpdateOf(old(Contents()), id, Edit(content)) && Contents() == UpdateView(old(Contents()), id, Edit(content))
      ensures r.NotPending? ==> unchanged(this)
      ensures !r.NotPending? ==>
                && r.Updated? && r.message.id == id && r.message.content == content
                && reservations == old(reservations) && injections == old(injections) && stepOrder == old(stepOrder)
                && changes != old(changes) && wakes == old(wakes)
                && Edited(old(followups), followups, id, content)
                && Edited(old(steers), steers, id, content)
                && r.message in (if r.target == Followup then followups else steers)
    {
      hide Drop, Lane, Ids, Replace;
      var message := if target == Followup then followups[index] else steers[index];
      var updated := message.(content := content);
      if !updated.Valid() { return NotPending; }
      UniqueQueues();
      ReplaceMessage(target, index, updated, Edit(content));
      EditedAt(if target == Followup then old(followups) else old(steers), index, updated);
      EditedElsewhere(if target == Followup then old(steers) else old(followups), id, content);
      BumpMoves(changes);
      changes := Bump(changes);
      r := Updated(target, updated);
    }

    method CutMessage(id: MessageId, target: Target, index: nat) returns (r: UpdateResult)
      requires Valid() && id !in reservations && Located(id, target, index)
      modifies this
      ensures Valid()
      ensures r == UpdateOf(old(Contents()), id, Remove) && Contents() == UpdateView(old(Contents()), id, Remove)
      ensures r.Updated? && r.message.id == id
      ensures reservations == old(reservations) && injections == old(injections) && changes != old(changes) && wakes == old(wakes)
      ensures if r.target == Followup
              then TakenOut(old(followups), followups, r.message) && steers == old(steers) && stepOrder == old(stepOrder)
              else TakenOut(old(steers), steers, r.message) && followups == old(followups)
    {
      hide Drop, Lane, Ids, TakenOut, RemoveAt, CutOut;
      var message := if target == Followup then followups[index] else steers[index];
      TakenAt(if target == Followup then followups else steers, index);
      RemoveMessage(id, target, index);
      BumpMoves(changes);
      changes := Bump(changes);
      r := Updated(target, message);
    }

    method SteerMessage(id: MessageId, index: nat) returns (r: UpdateResult)
      requires Valid() && id !in reservations && Located(id, Followup, index)
      modifies this
      ensures Valid()
      ensures r == UpdateOf(old(Contents()), id, MoveToStep) && Contents() == UpdateView(old(Contents()), id, MoveToStep)
      ensures r.Updated? && r.message.id == id && r.target == Steer
      ensures reservations == old(reservations) && injections == old(injections) && changes != old(changes) && wakes != old(wakes)
      ensures TakenOut(old(followups), followups, r.message)
      ensures steers == old(steers) + [r.message] && stepOrder == old(stepOrder) + [Entry(Steer, id)]
    {
      hide Drop, Lane, Ids, TakenOut, RemoveAt, CutOut;
      var message := followups[index];
      TakenAt(followups, index);
      MoveMessage(index);
      BumpMoves(changes);
      BumpMoves(wakes);
      changes := Bump(changes);
      wakes := Bump(wakes);
      r := Updated(Steer, message);
    }

    method ReplaceMessage(target: Target, index: nat, m: Message, ghost u: Edit)
      requires Valid() && Located(m.id, target, index) && u.Edit?
      modifies this`followups, this`steers, this`step
      ensures Valid()
      ensures Contents() == Effect(old(Contents()), u, m)
      ensures followups == if target == Followup then old(followups)[index := m] else old(followups)
      ensures steers == if target == Followup then old(steers) else old(steers)[index := m]
    {
      hide Drop, Lane, Ids;
      EditKeeps(Contents(), target, index, m, followups);
      ghost var v := Contents();
      if target == Followup { followups := followups[index := m]; } else { steers := steers[index := m]; }
      step := Replace(step, m);
      assert Contents() == Effect(v, u, m);
    }

    method RemoveMessage(id: MessageId, target: Target, index: nat)
      requires Valid() && Located(id, target, index)
      modifies this`followups, this`steers, this`step, this`stepOrder
      ensures Valid()
      ensures Contents() == DropView(old(Contents()), {id})
      ensures followups == if target == Followup then RemoveAt(old(followups), index) else old(followups)
      ensures steers == if target == Followup then old(steers) else RemoveAt(old(steers), index)
      ensures target == Followup ==> stepOrder == old(stepOrder)
    {
      hide Drop, Lane, Ids;
      QueueFinds(target, id);
      RemoveOne(Contents(), target, id, followups);
      RemoveOrder(Contents(), target, id);
      DropViewWellFormed(Contents(), {id});
      if target == Followup {
        followups := RemoveAt(followups, index);
        assert followups == RemoveId(old(followups), id);
      } else {
        steers := RemoveAt(steers, index);
        assert steers == RemoveId(old(steers), id);
        stepOrder := RetainOther(stepOrder, target, id);
      }
      step := Drop(step, {id});
      assert Contents() == DropView(old(Contents()), {id});
    }

    method MoveMessage(index: nat)
      requires Valid() && index < |followups| && Located(followups[index].id, Followup, index)
      modifies this`followups, this`steers, this`step, this`stepOrder
      ensures Valid()
      ensures Contents() == Effect(old(Contents()), MoveToStep, old(followups)[index])
      ensures followups == RemoveAt(old(followups), index)
      ensures steers == old(steers) + [old(followups)[index]]
      ensures stepOrder == old(stepOrder) + [Entry(Steer, old(followups)[index].id)]
    {
      hide Drop, Lane, Ids;
      ghost var v := Contents();
      var message := followups[index];
      MoveKeeps(v, index, followups);
      followups := RemoveAt(followups, index);
      stepOrder := stepOrder + [Entry(Steer, message.id)];
      steers := steers + [message];
      step := step + [Item(Steer, message)];
      assert Contents() == Effect(v, MoveToStep, message);
    }

    /** First phase: reserve one pending message for a mutation that is not yet durable. */
    method ReserveUpdate(id: MessageId, u: Edit, steerEnabled: bool) returns (r: ReserveResult)
      requires Valid()
      modifies this`reservations
      ensures Valid()
      ensures r == ReserveUpdateOf(old(Contents()), id, u, steerEnabled)
      ensures Contents() == ReserveUpdateView(old(Contents()), r)
      ensures r.Reserved? <==>
                && id !in old(reservations)
                && (SomeAllows(followups, id, u, steerEnabled) || (!u.MoveToStep? && SomeAllows(steers, id, u, steerEnabled)))
      ensures reservations == if r.Reserved? then old(reservations) + {id} else old(reservations)
      ensures r.Reserved? ==> ReservedFrom(r.reservation, id, u)
    {
      hide Drop, Lane, Ids, UpdateOf;
      GrantFacts(id, u, steerEnabled);
      r := TryReserve(id, u, steerEnabled);
      hide ReserveUpdateOf;
      if r.Reserved? {
        reservations := reservations + {id};
      }
    }

    /** What a reservation records of the message it was taken on. */
    ghost predicate ReservedFrom(r: Reservation, id: MessageId, u: Edit)
      reads this
    {
      && r.id == id == r.message.id && r.update == u
      && r.sourceTarget != Inject
      && r.target == (if u.MoveToStep? then Steer else r.sourceTarget)
      && (r.sourceTarget == Followup ==> r.start < |followups| && Recorded(followups[r.start], r))
      && (r.sourceTarget == Steer ==>
            && r.start < |stepOrder| && stepOrder[r.start] == Entry(Steer, id)
            && exists i :: 0 <= i < |steers| && Recorded(steers[i], r))
    }

    /** An update is granted on an unreserved followup or steer that allows it, and on no other. */
    lemma GrantFacts(id: MessageId, u: Edit, steerEnabled: bool)
      requires Valid()
      ensures var r := ReserveUpdateOf(Contents(), id, u, steerEnabled);
              && (r.Reserved? <==>
                    && id !in reservations
                    && (SomeAllows(followups, id, u, steerEnabled) || (!u.MoveToStep? && SomeAllows(steers, id, u, steerEnabled))))
              && (r.Reserved? ==> ReservedFrom(r.reservation, id, u))
    {
      hide Drop, Lane, Ids, Valid, Located, SomeAllows, ReservedFrom, Allows, PendingIndex;
      UniqueQueues();
      LocateFacts(id);
      OneAllows(followups, id, u, steerEnabled);
      OneAllows(steers, id, u, steerEnabled);
      var f, g := PendingIndex(followups, id), PendingIndex(steers, id);
      if f.Some? {
        assert Lacks(steers, followups[f.value].id);
        FollowupGrant(id, u, steerEnabled, f.value);
      } else if g.Some? {
        SteerGrant(id, u, steerEnabled, g.value);
      }
    }

    lemma FollowupGrant(id: MessageId, u: Edit, steerEnabled: bool, k: nat)
      requires Valid() && PendingIndex(followups, id) == Some(k) && Located(id, Followup, k)
      ensures var r := ReserveUpdateOf(Contents(), id, u, steerEnabled);
              && (r.Reserved? <==> id !in reservations && Allows(followups[k], u, steerEnabled))
              && (r.Reserved? ==> ReservedFrom(r.reservation, id, u))
    {
      hide Drop, Lane, Ids;
      AsItemsFinds(followups, id);
      var r := ReserveUpdateOf(Contents(), id, u, steerEnabled);
      if r.Reserved? {
        assert Recorded(followups[k], r.reservation);
      }
    }

    lemma SteerGrant(id: MessageId, u: Edit, steerEnabled: bool, k: nat)
      requires Valid() && PendingIndex(followups, id).None? && PendingIndex(steers, id) == Some(k) && Located(id, Steer, k)
      ensures var r := ReserveUpdateOf(Contents(), id, u, steerEnabled);
              && (r.Reserved? <==> id !in reservations && !u.MoveToStep? && Allows(steers[k], u, steerEnabled))
              && (r.Reserved? ==> ReservedFrom(r.reservation, id, u))
    {
      hide Drop, Lane, Ids;
      AsItemsFinds(followups, id);
      PositionFacts(step, id);
      var r := ReserveUpdateOf(Contents(), id, u, steerEnabled);
      if r.Reserved? {
        assert Recorded(steers[k], r.reservation);
        assert stepOrder[r.reservation.start] == Entry(Steer, id);
      }
    }

    /** Answers a reservation without taking it yet. */
    method TryReserve(id: MessageId, u: Edit, steerEnabled: bool) returns (r: ReserveResult)
      requires Valid()
      ensures r == ReserveUpdateOf(Contents(), id, u, steerEnabled)
    {
      hide Drop, Lane, Ids;
      if id in reservations { return ReserveNotPending; }
      var at := Locate(id);
      if at.None? { return ReserveNotPending; }
      var (source, index) := at.value;
      AsItemsFinds(followups, id);
      PositionFacts(step, id);
      var start := if source == Followup then index else Position(stepOrder, id).value;
      var original := if source == Followup then followups[index] else steers[index];
      var target, message := source, original;
      match u {
        case Edit(content) =>
          message := original.(content := content);
          if !message.Valid() { return ReserveNotPending; }
        case Remove =>
        case MoveToStep =>
          if source != Followup || !steerEnabled { return ReserveSteerUnavailable; }
          target := Steer;
      }
      r := Reserved(Reservation(id, u, target, message, source, start,
                                if u.MoveToStep? then Some(|stepOrder|) else None, u.MoveToStep?));
    }

    method Publish(r: Reservation, queue: Target, index: nat)
      requires Valid() && Located(r.id, queue, index) && r.message.id == r.id
      requires r.update.MoveToStep? ==> queue == Followup
      modifies this`followups, this`steers, this`step, this`stepOrder
      ensures Valid()
      ensures Contents() == Effect(old(Contents()), r.update,
        if r.update.Edit? then r.message else if queue == Followup then old(followups)[index] else old(steers)[index])
      ensures PublishedAs(r, queue, old(followups), old(steers), followups, steers)
    {
      UniqueQueues();
      hide Drop, Lane, Ids, Replace;
      match r.update {
        case Edit(_) =>
          ReplaceMessage(queue, index, r.message, r.update);
          SwappedAt(if queue == Followup then old(followups) else old(steers), index, r.message);
        case Remove =>
          TakenAt(if queue == Followup then followups else steers, index);
          RemoveMessage(r.id, queue, index);
        case MoveToStep =>
          TakenAt(followups, index);
          MoveMessage(index);
      }
    }

    /** Second phase: publish the mutation, unless the reservation or its message is gone. */
    method CommitReservation(r: Reservation) returns (committed: bool)
      requires Valid() && r.target != Inject && r.message.id == r.id
      modifies this
      ensures Valid()
      ensures committed == ReservationHolds(old(Contents()), r)
      ensures Contents() == CommitUpdateView(old(Contents()), r)
      ensures var queue := if r.update.MoveToStep? then Followup else r.target;
              && (committed <==> r.id in old(reservations) && !Lacks(if queue == Followup then old(followups) else old(steers), r.id))
              && (committed ==> PublishedAs(r, queue, old(followups), old(steers), followups, steers))
      ensures !committed ==> followups == old(followups) && steers == old(steers) && stepOrder == old(stepOrder)
      ensures injections == old(injections) && reservations == old(reservations) - {r.id}
    {
      hide Drop, Lane, Ids, Replace, PublishedAs, Lacks, ReservationHolds, CommitUpdateView, Effect, IndexOf, View.Queue;
      CommitFacts(r);
      LacksFinds(if (if r.update.MoveToStep? then Followup else r.target) == Followup then followups else steers, r.id);
      if r.id !in reservations { return false; }
      reservations := reservations - {r.id};
      var queue := if r.update.MoveToStep? then Followup else r.target;
      var index := PendingIndex(if queue == Followup then followups else steers, r.id);
      if index.None? { return false; }
      Publish(r, queue, index.value);
      changes := Bump(changes);
      if r.wakes { wakes := Bump(wakes); }
      committed := true;
    }

    /** What the commit comes to, in terms of the queue the method looks at. */
    lemma CommitFacts(r: Reservation)
      requires Valid() && r.target != Inject
      ensures var queue := if r.update.MoveToStep? then Followup else r.target;
              var q := if queue == Followup then followups else steers;
              var index := PendingIndex(q, r.id);
              var released := Contents().(reserved := reservations - {r.id});
              && (ReservationHolds(Contents(), r) <==> r.id in reservations && index.Some?)
              && (index.Some? ==> Located(r.id, queue, index.value))
              && CommitUpdateView(Contents(), r)
                 == if r.id in reservations && index.Some?
                    then Woken(Changed(Effect(released, r.update, if r.update.Edit? then r.message else q[index.value])), r.wakes)
                    else released
    {
      hide Drop, Lane, Ids, Replace, Effect, Located;
      HoldsFacts(if r.update.MoveToStep? then Followup else r.target, r.id);
    }

    /** Looking a reserved id up in its queue is what `ReservationHolds` asks of the view. */
    lemma HoldsFacts(t: Target, id: MessageId)
      requires Valid() && t != Inject
      ensures var i := PendingIndex(if t == Followup then followups else steers, id);
              var q := Contents().Queue(t != Followup);
              && (i.Some? <==> IndexOf(q, id).Some? && q[IndexOf(q, id).value].target == t)
              && (i.Some? ==> Located(id, t, i.value)
                              && q[IndexOf(q, id).value].message == (if t == Followup then followups else steers)[i.value])
    {
      hide Drop, Lane, Ids;
      AsItemsFinds(followups, id);
      DistinctParts(Contents().turn, step);
      var k := IndexOf(step, id);
      LocateFacts(id);
      if k.Some? {
        LaneFinds(step, k.value);
        IdAt(step, k.value);
        if PendingIndex(followups, id).Some? { IdAt(Contents().turn, PendingIndex(followups, id).value); }
      }
      if PendingIndex(steers, id).Some? {
        var j := LanePosition(step, Steer, PendingIndex(steers, id).value);
        assert k == Some(j);
      }
    }

    method AbortReservation(id: MessageId)
      requires Valid()
      modifies this`reservations, this`wakes
      ensures Valid()
      ensures Contents() == AbortUpdateView(old(Contents()), id)
      ensures id !in reservations
      ensures forall other :: other != id ==> (other in reservations <==> other in old(reservations))
      ensures wakes != old(wakes) <==>
                id in old(reservations) && !(Lacks(followups, id) && Lacks(steers, id) && Lacks(injections, id))
    {
      if id !in reservations { return; }
      FindsPending(id);
      reservations := reservations - {id};
      if PendingIndex(followups, id).Some? || PendingIndex(steers, id).Some? || PendingIndex(injections, id).Some? {
        wakes := Bump(wakes);
      }
    }

    method Clear()
      requires Valid()
      modifies this
      ensures Valid()
      ensures Contents() == ClearView(old(Contents()))
      ensures followups == [] && steers == [] && injections == [] && stepOrder == []
      ensures old(followups) == [] && old(steers) == [] && old(injections) == [] ==> unchanged(this)
      ensures old(followups) != [] || old(steers) != [] || old(injections) != [] ==> reservations == {} && changes != old(changes)
    {
      LanesEmpty(step);
      if followups == [] && steers == [] && injections == [] { return; }
      followups, steers, injections := [], [], [];
      reservations, stepOrder, step := {}, [], [];
      changes := Bump(changes);
      assert AsItems(followups, Followup) == [];
    }
  }

  function Position(order: seq<Entry>, id: MessageId): (r: Option<nat>)
    ensures r.Some? ==> r.value < |order| && order[r.value].id == id
    ensures r.Some? ==> forall i :: 0 <= i < r.value ==> order[i].id != id
    ensures r.None? ==> forall i :: 0 <= i < |order| ==> order[i].id != id
  {
    if order == [] then None
    else if order[0].id == id then Some(0)
    else match Position(order[1..], id)
      case None => None
      case Some(k) => Some(k + 1)
  }

  lemma PositionFacts(q: seq<Item>, id: MessageId)
    ensures Position(Order(q), id) == IndexOf(q, id)
  {
    var order := Order(q);
    assert forall i :: 0 <= i < |q| ==> order[i].id == q[i].message.id;
  }

  lemma LanesEmpty(q: seq<Item>)
    requires forall x :: x in q ==> x.target != Followup
    ensures q == [] <==> Lane(q, Steer) == [] && Lane(q, Inject) == []
  {
    if q != [] {
      assert q[0] in q;
      LaneMember(q, q[0].target, q[0].message);
      assert q[0] == Item(q[0].target, q[0].message);
    }
  }

  lemma EditKeeps(v: View, t: Target, i: nat, m: Message, fs: seq<Message>)
    requires v.WellFormed() && t != Inject && AsItems(fs, Followup) == v.turn
    requires t == Followup ==> i < |fs| && fs[i].id == m.id
    requires t == Steer ==> i < |Lane(v.step, Steer)| && Lane(v.step, Steer)[i].id == m.id
    ensures v.(turn := Replace(v.turn, m), step := Replace(v.step, m)).WellFormed()
    ensures Replace(v.turn, m) == if t == Followup then AsItems(fs[i := m], Followup) else v.turn
    ensures Lane(Replace(v.step, m), Steer) == if t == Steer then Lane(v.step, Steer)[i := m] else Lane(v.step, Steer)
    ensures Lane(Replace(v.step, m), Inject) == Lane(v.step, Inject)
    ensures Order(Replace(v.step, m)) == Order(v.step)
  {
    hide Drop, Lane, Ids;
    ReplaceViewWellFormed(v, m);
    DistinctParts(v.turn, v.step);
    ReplaceIds(v.turn, m);
    ReplaceIds(v.step, m);
    if t == Followup {
      IdAt(v.turn, i);
      assert Replace(v.turn, m) == AsItems(fs[i := m], Followup);
    } else {
      var k := LanePosition(v.step, Steer, i);
      IdAt(v.step, k);
      ReplaceProjects(v.step, k, m);
    }
  }

  lemma RemoveOrder(v: View, t: Target, id: MessageId)
    requires v.WellFormed() && HasEntry(v.Queue(t != Followup), t, id)
    ensures t == Followup ==> Drop(v.step, {id}) == v.step
    ensures t != Followup ==> RetainOther(Order(v.step), t, id) == Order(Drop(v.step, {id}))
    ensures t != Followup ==> Drop(v.turn, {id}) == v.turn
  {
    hide Drop, Lane, Ids;
    DistinctParts(v.turn, v.step);
    var q := v.Queue(t != Followup);
    var k :| 0 <= k < |q| && q[k].target == t && q[k].message.id == id;
    IdAt(q, k);
    if t == Followup {
      DropNone(v.step, {id});
    } else {
      DropNone(v.turn, {id});
      RetainOtherDrops(v.step, t, id);
    }
  }

  lemma MoveKeeps(v: View, i: nat, fs: seq<Message>)
    requires v.WellFormed() && AsItems(fs, Followup) == v.turn && i < |fs|
    ensures Effect(v, MoveToStep, fs[i]).WellFormed()
    ensures AsItems(RemoveAt(fs, i), Followup) == Drop(v.turn, {fs[i].id})
    ensures Lane(v.step + [Item(Steer, fs[i])], Steer) == Lane(v.step, Steer) + [fs[i]]
    ensures Lane(v.step + [Item(Steer, fs[i])], Inject) == Lane(v.step, Inject)
    ensures Order(v.step + [Item(Steer, fs[i])]) == Order(v.step) + [Entry(Steer, fs[i].id)]
  {
    hide Drop, Lane, Ids;
    var m := fs[i];
    DistinctParts(v.turn, v.step);
    assert v.turn[i] == Item(Followup, m);
    IdAt(v.turn, i);
    DropAt(v.turn, i);
    assert AsItems(RemoveAt(fs, i), Followup) == RemoveAt(v.turn, i);
    DropViewWellFormed(v, {m.id});
    DropNone(v.step, {m.id});
    var w := DropView(v, {m.id});
    AppendWellFormed(w, Item(Steer, m));
    SendKeepsLane(v.step, Item(Steer, m), Steer);
    SendKeepsLane(v.step, Item(Steer, m), Inject);
  }

  lemma NoneBefore(q: seq<Item>, t: Target, k: nat)
    requires k < |q| && q[k].target == t && Lane(q[..k], t) == []
    ensures FrontOf(q, t) == Some(k)
  {
    forall i | 0 <= i < k ensures q[i].target != t {
      LaneMember(q[..k], t, q[i].message);
      assert q[..k][i] == q[i];
    }
  }
}
