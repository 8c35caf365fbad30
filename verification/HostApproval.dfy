/** The host's registry of pending browser approvals: one slot per session, one entry per
    request with a single-use sender, and a bounded memory of relayed asked events. */
module HostApproval {

  datatype Option<+T> = None | Some(value: T)

  datatype Outcome = AllowedOnce | Rejected | Cancelled | Unavailable

  datatype Receipt = Accepted | NotPending | BadResponse

  datatype Authority = Authority(session: nat, generation: nat)

  datatype Key = Key(session: nat, approval: nat)

  datatype Entry = Entry(
    key: Key, generation: Authority, turn: nat, token: nat, deadline: nat, hasSender: bool, claimed: bool)

  datatype Asked = Asked(key: Key, turn: nat, named: bool)

  datatype Selection = OfGeneration(authority: Authority) | OfSession(session: nat) | OfTurn(session: nat, turn: nat) | Everything

  // ---------------------------------------------------------------------
  // The two lock-protected states as one value
  // ---------------------------------------------------------------------

  datatype Core = Core(
    slots: map<nat, Authority>, entries: map<nat, Entry>,
    relayed: set<Key>, order: seq<Key>, cancelled: set<nat>, maxPending: nat)

  predicate Matches(which: Selection, e: Entry) {
    match which
    case OfGeneration(authority) => e.generation == authority
    case OfSession(session) => e.key.session == session
    case OfTurn(session, turn) => e.key.session == session && e.turn == turn
    case Everything => true
  }

  function Claim(e: Entry): Entry {
    e.(claimed := true, hasSender := false)
  }

  /** The requests for one approval, all or only the unclaimed ones. */
  function Requests(entries: map<nat, Entry>, key: Key, unclaimed: bool): set<nat> {
    set rpc | rpc in entries && entries[rpc].key == key && (unclaimed ==> !entries[rpc].claimed)
  }

  ghost predicate IsFirst(rpcs: set<nat>, found: Option<nat>) {
    match found
    case None => rpcs == {}
    case Some(rpc) => rpc in rpcs && forall other :: other in rpcs ==> rpc <= other
  }

  function First(rpcs: set<nat>): (found: Option<nat>)
    ensures IsFirst(rpcs, found)
  {
    if rpcs == {} then None
    else
      assert exists rpc :: rpc in rpcs && forall other :: other in rpcs ==> rpc <= other by {
        var some :| some in rpcs;
        LeastExists(rpcs, some);
      }
      var rpc :| rpc in rpcs && forall other :: other in rpcs ==> rpc <= other;
      Some(rpc)
  }

  lemma {:induction false} LeastExists(rpcs: set<nat>, some: nat)
    requires some in rpcs
    ensures exists rpc :: rpc in rpcs && forall other :: other in rpcs ==> rpc <= other
  {
    if smaller :| smaller in rpcs && smaller < some {
      LeastExists(rpcs, smaller);
    } else {
      assert forall other :: other in rpcs ==> some <= other;
    }
  }

  lemma FirstMore(rpcs: set<nat>, rest: set<nat>, rpc: nat, found: Option<nat>)
    requires rpc in rest && IsFirst(rpcs - rest, found)
    ensures IsFirst(rpcs - (rest - {rpc}),
                    if rpc in rpcs && (found.None? || rpc < found.value) then Some(rpc) else found)
  {
    var more := rpcs - (rest - {rpc});
    assert forall other :: other in more <==> other in rpcs - rest || (other == rpc && rpc in rpcs);
    if found.None? && rpc !in rpcs {
      assert more == {};
    }
  }

  lemma FirstUnique(rpcs: set<nat>, found: Option<nat>)
    requires IsFirst(rpcs, found)
    ensures found == First(rpcs)
  {
  }

  function InstallOf(c: Core, owner: Authority): Core {
    c.(slots := c.slots[owner.session := owner])
  }

  predicate Answerable(c: Core, rpc: nat, now: nat) {
    rpc in c.entries && !c.entries[rpc].claimed && now < c.entries[rpc].deadline
  }

  function RespondOf(c: Core, rpc: nat, key: Key, outcome: Outcome, now: nat, delivered: bool): (Core, Receipt) {
    if outcome != AllowedOnce && outcome != Rejected then (c, BadResponse)
    else if !Answerable(c, rpc, now) then (c, NotPending)
    else if c.entries[rpc].key != key then (c, BadResponse)
    else
      (c.(entries := c.entries[rpc := Claim(c.entries[rpc])]),
       if c.entries[rpc].hasSender && !delivered then NotPending else Accepted)
  }

  predicate Registrable(c: Core, owner: Authority, asked: Asked, live: bool) {
    && asked.key.session == owner.session
    && asked.named
    && owner.session in c.slots
    && c.slots[owner.session] == owner
    && live
    && |c.entries| < c.maxPending
  }

  function RegisterOf(c: Core, owner: Authority, asked: Asked, rpc: nat, token: nat, deadline: nat): Core {
    c.(entries := c.entries[rpc := Entry(asked.key, owner, asked.turn, token, deadline, true, false)])
  }

  /** The newest `limit` keys. */
  function Newest(order: seq<Key>, limit: nat): seq<Key> {
    if |order| <= limit then order else order[|order| - limit..]
  }

  lemma NewestEnds(order: seq<Key>, key: Key, limit: nat)
    requires limit > 0
    ensures Newest(order + [key], limit) == Newest(order, limit - 1) + [key]
    ensures key in Members(Newest(order + [key], limit))
  {
    assert (Newest(order, limit - 1) + [key])[|Newest(order, limit - 1)|] == key;
  }

  function Members(order: seq<Key>): set<Key> {
    set key | key in order
  }

  predicate Distinct(order: seq<Key>) {
    forall i, j :: 0 <= i < j < |order| ==> order[i] != order[j]
  }

  lemma NewestDistinct(order: seq<Key>, limit: nat)
    requires Distinct(order)
    ensures Distinct(Newest(order, limit))
  {
  }

  /** Dropping the oldest key of a duplicate-free queue drops it from the set. */
  lemma OldestGone(all: seq<Key>, kept: nat)
    requires Distinct(all) && 0 < kept <= |all|
    ensures |Newest(all, kept)| == kept
    ensures Newest(all, kept)[1..] == Newest(all, kept - 1)
    ensures Members(Newest(all, kept)[1..]) == Members(Newest(all, kept)) - {Newest(all, kept)[0]}
  {
    var order := Newest(all, kept);
    assert order == [order[0]] + order[1..];
    assert order[0] !in order[1..];
  }

  function RememberOf(c: Core, key: Key): Core {
    if c.maxPending == 0 || key in c.relayed then c
    else
      var order := Newest(c.order + [key], c.maxPending);
      c.(order := order, relayed := Members(order))
  }

  function CancelOf(c: Core, which: Selection): Core {
    c.(entries := ClaimAll(c.entries, which, c.entries.Keys), cancelled := c.cancelled + Revoked(c.entries, which, c.entries.Keys))
  }

  predicate Revocable(which: Selection, e: Entry) {
    Matches(which, e) && !e.claimed
  }

  function ClaimAll(entries: map<nat, Entry>, which: Selection, among: set<nat>): map<nat, Entry> {
    map rpc | rpc in entries ::
      if rpc in among && Revocable(which, entries[rpc]) then Claim(entries[rpc]) else entries[rpc]
  }

  /** The cancellation tokens of the unclaimed entries a selection covers. */
  function Revoked(entries: map<nat, Entry>, which: Selection, among: set<nat>): set<nat> {
    set rpc | rpc in among && rpc in entries && Revocable(which, entries[rpc]) :: entries[rpc].token
  }

  function TimeoutOf(c: Core, key: Key): Core {
    match First(Requests(c.entries, key, false))
    case None => c
    case Some(rpc) => c.(entries := c.entries[rpc := Claim(c.entries[rpc])])
  }

  function RemoveOf(c: Core, rpc: nat): Core {
    c.(entries := c.entries - {rpc})
  }

  function UninstallOf(c: Core, owner: Authority): (Core, bool) {
    if owner.session in c.slots && c.slots[owner.session] == owner then (c.(slots := c.slots - {owner.session}), true)
    else (c, false)
  }

  /** Entries of one registry: a sender exactly while unclaimed, bounded, and a relayed set
      that is the contents of its duplicate-free bounded queue. */
  predicate WellFormed(c: Core) {
    && (forall rpc :: rpc in c.entries ==> EntryOk(c.entries[rpc]))
    && |c.entries| <= c.maxPending
    && Remembered(c.relayed, c.order, c.maxPending)
    && (forall s :: s in c.slots ==> c.slots[s].session == s)
  }

  predicate EntryOk(e: Entry) {
    e.hasSender == !e.claimed && e.generation.session == e.key.session
  }

  predicate Remembered(relayed: set<Key>, order: seq<Key>, limit: nat) {
    && relayed == Members(order)
    && Distinct(order)
    && |order| <= limit
  }

  // ---------------------------------------------------------------------
  // What the operations do to the requests, entry by entry
  // ---------------------------------------------------------------------

  /** An answered, expired or revoked request: claimed, without a sender, otherwise the same. */
  predicate Closed(before: Entry, after: Entry) {
    && after.claimed && !after.hasSender
    && after == before.(claimed := true, hasSender := false)
  }

  /** One request is claimed if `taken`, and every other stays as it was. */
  ghost predicate Taken(before: map<nat, Entry>, after: map<nat, Entry>, rpc: nat, taken: bool)
    requires taken ==> rpc in before
  {
    && after.Keys == before.Keys
    && (taken ==> Closed(before[rpc], after[rpc]))
    && forall other :: other in before && !(taken && other == rpc) ==> after[other] == before[other]
  }

  predicate Selected(e: Entry, which: Selection) {
    && !e.claimed
    && (which.OfGeneration? ==> e.generation == which.authority)
    && (which.OfSession? ==> e.key.session == which.session)
    && (which.OfTurn? ==> e.key.session == which.session && e.turn == which.turn)
  }

  predicate Swept(before: Entry, after: Entry, which: Selection) {
    if Selected(before, which) then Closed(before, after) else after == before
  }

  /** The smallest request id for an approval, or nothing if there is no request for it. */
  ghost predicate LeastFor(entries: map<nat, Entry>, key: Key, unclaimed: bool, found: Option<nat>) {
    match found
    case None => forall rpc :: rpc in entries && (unclaimed ==> !entries[rpc].claimed) ==> entries[rpc].key != key
    case Some(rpc) =>
      && rpc in entries && entries[rpc].key == key && (unclaimed ==> !entries[rpc].claimed)
      && forall other :: other in entries && entries[other].key == key && (unclaimed ==> !entries[other].claimed) ==> rpc <= other
  }

  lemma FirstIsLeast(entries: map<nat, Entry>, key: Key, unclaimed: bool)
    ensures LeastFor(entries, key, unclaimed, First(Requests(entries, key, unclaimed)))
  {
    var rpcs := Requests(entries, key, unclaimed);
    assert forall rpc :: rpc in rpcs <==> rpc in entries && entries[rpc].key == key && (unclaimed ==> !entries[rpc].claimed);
  }

  // ---------------------------------------------------------------------
  // The registry object
  // ---------------------------------------------------------------------

  class HostApprovalRegistry {
    var slots: map<nat, Authority>
    var entries: map<nat, Entry>
    var relayed: set<Key>
    var order: seq<Key>
    var cancelled: set<nat>
    const maxPending: nat

    ghost function View(): Core
      reads this
    {
      Core(slots, entries, relayed, order, cancelled, maxPending)
    }

    ghost predicate Valid()
      reads this
    {
      WellFormed(View())
    }

    constructor (limit: nat)
      ensures Valid() && View() == Core(map[], map[], {}, [], {}, limit)
    {
      slots, entries, relayed, order, cancelled, maxPending := map[], map[], {}, [], {}, limit;
    }

    method Install(owner: Authority, live: bool, belongs: bool) returns (ok: bool)
      requires Valid()
      modifies this
      ensures Valid()
      ensures ok <==> live && belongs && owner.session !in old(slots)
      ensures View() == if ok then InstallOf(old(View()), owner) else old(View())
      ensures slots == if ok then old(slots)[owner.session := owner] else old(slots)
    {
      if !live || !belongs || owner.session in slots {
        return false;
      }
      slots := slots[owner.session := owner];
      ok := true;
    }

    /** The first valid answer wins; a refused answer leaves everything as it was unless
        the waiting side had already gone. */
    method Respond(rpc: nat, key: Key, outcome: Outcome, now: nat, delivered: bool) returns (receipt: Receipt)
      requires Valid()
      modifies this
      ensures Valid()
      ensures (View(), receipt) == RespondOf(old(View()), rpc, key, outcome, now, delivered)
      ensures var open := rpc in old(entries) && !old(entries)[rpc].claimed && now < old(entries)[rpc].deadline;
              var answer := outcome == AllowedOnce || outcome == Rejected;
              && (receipt == Accepted <==> answer && open && old(entries)[rpc].key == key && delivered)
              && (receipt == BadResponse <==> !answer || (open && old(entries)[rpc].key != key))
              && Taken(old(entries), entries, rpc, answer && open && old(entries)[rpc].key == key)
      ensures slots == old(slots) && relayed == old(relayed) && order == old(order) && cancelled == old(cancelled)
    {
      if outcome != AllowedOnce && outcome != Rejected {
        return BadResponse;
      }
      if rpc !in entries || entries[rpc].claimed || entries[rpc].deadline <= now {
        return NotPending;
      }
      if entries[rpc].key != key {
        return BadResponse;
      }
      var sender := entries[rpc].hasSender;
      entries := entries[rpc := Claim(entries[rpc])];
      receipt := if sender && !delivered then NotPending else Accepted;
    }

    /** One critical section under both locks; `emit` says that the asked event was relayed before. */
    method RegisterPending(owner: Authority, asked: Asked, live: bool, rpc: nat, token: nat, deadline: nat)
      returns (registered: bool, emit: bool)
      requires Valid() && rpc !in entries
      modifies this
      ensures Valid()
      ensures registered == Registrable(old(View()), owner, asked, live)
      ensures View() == if registered then RegisterOf(old(View()), owner, asked, rpc, token, deadline) else old(View())
      ensures emit == (registered && asked.key in relayed)
      ensures registered <==>
                && asked.key.session == owner.session && asked.named && live
                && owner.session in old(slots) && old(slots)[owner.session] == owner
                && |old(entries)| < maxPending
      ensures entries == if registered
                         then old(entries)[rpc := Entry(asked.key, owner, asked.turn, token, deadline, true, false)]
                         else old(entries)
      ensures slots == old(slots) && relayed == old(relayed) && order == old(order) && cancelled == old(cancelled)
    {
      if asked.key.session != owner.session || !asked.named {
        return false, false;
      }
      if owner.session !in slots || slots[owner.session] != owner || !live {
        return false, false;
      }
      if maxPending == 0 || |entries| >= maxPending {
        return false, false;
      }
      emit := asked.key in relayed;
      entries := entries[rpc := Entry(asked.key, owner, asked.turn, token, deadline, true, false)];
      registered := true;
    }

    /** The first entry for an approval, in the order of rpc ids. */
    method Find(key: Key, unclaimed: bool) returns (found: Option<nat>)
      ensures found == First(Requests(entries, key, unclaimed))
      ensures LeastFor(entries, key, unclaimed, found)
    {
      ghost var wanted := Requests(entries, key, unclaimed);
      var rest := entries.Keys;
      found := None;
      assert wanted - rest == {};
      while rest != {}
        invariant rest <= entries.Keys
        invariant IsFirst(wanted - rest, found)
        decreases |rest|
      {
        hide IsFirst, First;
        var rpc :| rpc in rest;
        FirstMore(wanted, rest, rpc, found);
        if entries[rpc].key == key && (!unclaimed || !entries[rpc].claimed) && (found.None? || rpc < found.value) {
          found := Some(rpc);
        }
        rest := rest - {rpc};
      }
      assert wanted - rest == wanted;
      FirstUnique(wanted, found);
      FirstIsLeast(entries, key, unclaimed);
    }

    method RememberRelayedAsked(key: Key)
      requires Valid()
      modifies this`relayed, this`order
      ensures Valid()
      ensures View() == RememberOf(old(View()), key)
      ensures maxPending > 0 ==> key in relayed
      ensures if maxPending == 0 || key in old(relayed) then order == old(order)
              else order == Newest(old(order), maxPending - 1) + [key]
      ensures relayed == set k | k in order
    {
      if maxPending == 0 || key in relayed {
        return;
      }
      relayed := relayed + {key};
      order := order + [key];
      ghost var all := order;
      assert Distinct(all);
      while |order| > maxPending
        invariant order == Newest(all, |order|) && |order| <= |all|
        invariant |order| >= maxPending || order == all
        invariant relayed == Members(order)
      {
        hide Newest, Members, Distinct;
        OldestGone(all, |order|);
        relayed := relayed - {order[0]};
        order := order[1..];
      }
      NewestDistinct(all, maxPending);
      NewestEnds(old(order), key, maxPending);
    }

    /** Returns the request to announce, when the asked event finds one waiting. */
    method ObserveAsked(key: Key) returns (notice: Option<nat>)
      requires Valid()
      modifies this`relayed, this`order
      ensures Valid()
      ensures View() == RememberOf(old(View()), key)
      ensures notice == First(Requests(entries, key, true))
      ensures LeastFor(entries, key, true, notice)
      ensures maxPending > 0 ==> key in relayed
    {
      RememberRelayedAsked(key);
      notice := Find(key, true);
    }

    method CancelPending(which: Selection)
      requires Valid()
      modifies this`entries, this`cancelled
      ensures Valid()
      ensures View() == CancelOf(old(View()), which)
      ensures entries.Keys == old(entries).Keys
      ensures forall rpc :: rpc in old(entries) ==> Swept(old(entries)[rpc], entries[rpc], which)
      ensures forall token :: token in cancelled <==>
                || token in old(cancelled)
                || exists rpc :: rpc in old(entries) && old(entries)[rpc].token == token && Selected(old(entries)[rpc], which)
    {
      var tokens;
      CancelKeepsForm(View(), which);
      entries, tokens := ClaimMatching(entries, which);
      cancelled := cancelled + tokens;
    }

    method ClaimTimeout(key: Key)
      requires Valid()
      modifies this`entries
      ensures Valid()
      ensures View() == TimeoutOf(old(View()), key)
      ensures entries.Keys == old(entries).Keys
      ensures forall rpc :: rpc in old(entries) ==>
                if LeastFor(old(entries), key, false, Some(rpc)) then Closed(old(entries)[rpc], entries[rpc])
                else entries[rpc] == old(entries)[rpc]
    {
      var found := Find(key, false);
      if found.Some? {
        entries := entries[found.value := Claim(entries[found.value])];
      }
    }

    method RemoveEntry(rpc: nat) returns (present: bool)
      requires Valid()
      modifies this`entries
      ensures Valid()
      ensures present == (rpc in old(entries))
      ensures View() == RemoveOf(old(View()), rpc)
      ensures entries == old(entries) - {rpc}
    {
      present := rpc in entries;
      RemoveKeepsForm(View(), rpc);
      entries := entries - {rpc};
    }

    method Uninstall(owner: Authority) returns (removed: bool)
      requires Valid()
      modifies this`slots
      ensures Valid()
      ensures (View(), removed) == UninstallOf(old(View()), owner)
      ensures removed <==> owner.session in old(slots) && old(slots)[owner.session] == owner
      ensures slots == if removed then old(slots) - {owner.session} else old(slots)
    {
      if owner.session in slots && slots[owner.session] == owner {
        slots := slots - {owner.session};
        return true;
      }
      removed := false;
    }

    /** Closing with nothing in between: the slot goes, and no unclaimed request of its generation stays. */
    method Close(owner: Authority) returns (removed: bool)
      requires Valid()
      modifies this`slots, this`entries, this`cancelled
      ensures Valid()
      ensures removed <==> owner.session in old(slots) && old(slots)[owner.session] == owner
      ensures slots == if removed then old(slots) - {owner.session} else old(slots)
      ensures entries.Keys == old(entries).Keys
      ensures forall rpc :: rpc in old(entries) ==>
                if removed then Swept(old(entries)[rpc], entries[rpc], OfGeneration(owner)) else entries[rpc] == old(entries)[rpc]
      ensures View() == if removed then CancelOf(UninstallOf(old(View()), owner).0, OfGeneration(owner)) else old(View())
    {
      removed := Uninstall(owner);
      if removed {
        CancelPending(OfGeneration(owner));
      }
    }
  }

  method ClaimMatching(before: map<nat, Entry>, which: Selection) returns (entries: map<nat, Entry>, tokens: set<nat>)
    ensures entries == ClaimAll(before, which, before.Keys)
    ensures tokens == Revoked(before, which, before.Keys)
  {
    hide ClaimAll, Revoked;
    entries, tokens := before, {};
    ghost var done: set<nat> := {};
    var rest := entries.Keys;
    ClaimNone(before, which);
    while rest != {}
      invariant rest !! done && rest + done == before.Keys
      invariant entries == ClaimAll(before, which, done)
      invariant tokens == Revoked(before, which, done)
      decreases |rest|
    {
      var rpc :| rpc in rest;
      ClaimMore(before, which, done, rpc);
      if Matches(which, entries[rpc]) && !entries[rpc].claimed {
        tokens := tokens + {entries[rpc].token};
        entries := entries[rpc := Claim(entries[rpc])];
      }
      done := done + {rpc};
      rest := rest - {rpc};
    }
    assert done == before.Keys;
  }

  lemma ClaimNone(entries: map<nat, Entry>, which: Selection)
    ensures ClaimAll(entries, which, {}) == entries && Revoked(entries, which, {}) == {}
  {
  }

  lemma ClaimMore(entries: map<nat, Entry>, which: Selection, among: set<nat>, rpc: nat)
    requires rpc in entries && rpc !in among
    ensures rpc in ClaimAll(entries, which, among) && ClaimAll(entries, which, among)[rpc] == entries[rpc]
    ensures if Revocable(which, entries[rpc]) then
              && ClaimAll(entries, which, among + {rpc}) == ClaimAll(entries, which, among)[rpc := Claim(entries[rpc])]
              && Revoked(entries, which, among + {rpc}) == Revoked(entries, which, among) + {entries[rpc].token}
            else
              && ClaimAll(entries, which, among + {rpc}) == ClaimAll(entries, which, among)
              && Revoked(entries, which, among + {rpc}) == Revoked(entries, which, among)
  {
  }

  lemma CancelKeepsForm(c: Core, which: Selection)
    requires WellFormed(c)
    ensures WellFormed(CancelOf(c, which))
  {
    assert CancelOf(c, which).entries.Keys == c.entries.Keys;
    assert |CancelOf(c, which).entries.Keys| == |CancelOf(c, which).entries|;
  }

  lemma RemoveKeepsForm(c: Core, rpc: nat)
    requires WellFormed(c)
    ensures WellFormed(RemoveOf(c, rpc))
  {
    var entries := c.entries - {rpc};
    assert entries.Keys == c.entries.Keys - {rpc};
    assert |entries.Keys| == |entries|;
  }
}
