/** Every run of the host registry: answers, registrations, relayed events, cancellations,
    closes and notice deliveries interleave at their lock boundaries. */
module HostApprovalRuns {
  import opened HostApproval

  datatype Closing = Open | Swapped | Removed | Done(result: bool)

  datatype Registration = Registration(authority: Authority, phase: Closing)

  datatype Notice = Requested(rpc: nat, key: Key) | Resolved(rpc: nat, key: Key, outcome: Outcome)

  datatype Observer = Observer(rpc: nat, key: Key, outcome: Outcome)

  /** `known` names every request ever registered, `observed` counts relayed asked events;
      a decided notice waits in `outbox` until its sender gets to publish it. */
  datatype System = System(
    core: Core, known: map<nat, Key>, accepted: seq<nat>, registrations: map<nat, Registration>,
    observers: map<nat, Observer>, observed: multiset<Key>, outbox: multiset<Notice>, sent: multiset<Notice>)

  datatype Action =
    | Install(registration: nat, owner: Authority, live: bool, belongs: bool)
    | Respond(rpc: nat, key: Key, outcome: Outcome, now: nat, delivered: bool)
    | Register(owner: Authority, asked: Asked, live: bool, rpc: nat, token: nat, deadline: nat)
    | ObserveAsked(key: Key)
    | FindDecided(observer: nat, key: Key, outcome: Outcome)
    | RemoveDecided(observer: nat)
    | Cancel(which: Selection)
    | Timeout(key: Key)
    | CloseSwap(registration: nat)
    | CloseRemove(registration: nat)
    | CloseCancel(registration: nat)
    | Publish(notice: Notice)

  function Start(maxPending: nat): System {
    System(Core(map[], map[], {}, [], {}, maxPending), map[], [], map[], map[], multiset{}, multiset{}, multiset{})
  }

  function InstallStep(s: System, r: nat, owner: Authority, live: bool, belongs: bool): System {
    if r in s.registrations || !live || !belongs || owner.session in s.core.slots then s
    else s.(core := InstallOf(s.core, owner), registrations := s.registrations[r := Registration(owner, Open)])
  }

  function RespondStep(s: System, rpc: nat, key: Key, outcome: Outcome, now: nat, delivered: bool): System {
    var (core, receipt) := RespondOf(s.core, rpc, key, outcome, now, delivered);
    s.(core := core, accepted := if receipt == Accepted then s.accepted + [rpc] else s.accepted)
  }

  function RegisterStep(s: System, a: Action): System
    requires a.Register?
  {
    if a.rpc in s.known || !Registrable(s.core, a.owner, a.asked, a.live) then s
    else
      s.(core := RegisterOf(s.core, a.owner, a.asked, a.rpc, a.token, a.deadline),
         known := s.known[a.rpc := a.asked.key],
         outbox := if a.asked.key in s.core.relayed then s.outbox + multiset{Requested(a.rpc, a.asked.key)} else s.outbox)
  }

  function ObserveStep(s: System, key: Key): System {
    var found := First(Requests(s.core.entries, key, true));
    s.(core := RememberOf(s.core, key),
       observed := s.observed + multiset{key},
       outbox := if found.Some? then s.outbox + multiset{Requested(found.value, key)} else s.outbox)
  }

  function FindStep(s: System, observer: nat, key: Key, outcome: Outcome): System {
    var found := First(Requests(s.core.entries, key, false));
    if observer in s.observers || found.None? then s
    else s.(observers := s.observers[observer := Observer(found.value, key, outcome)])
  }

  function RemoveStep(s: System, observer: nat): System {
    if observer !in s.observers then s
    else
      var o := s.observers[observer];
      s.(observers := s.observers - {observer}, core := RemoveOf(s.core, o.rpc),
         outbox := if o.rpc in s.core.entries then s.outbox + multiset{Resolved(o.rpc, o.key, o.outcome)} else s.outbox)
  }

  function CloseStep(s: System, r: nat, a: Action): System
    requires r in s.registrations
  {
    var g := s.registrations[r];
    match a
    case CloseSwap(_) => if g.phase == Open then s.(registrations := s.registrations[r := g.(phase := Swapped)]) else s
    case CloseRemove(_) =>
      if g.phase != Swapped then s
      else
        var (core, removed) := UninstallOf(s.core, g.authority);
        s.(core := core, registrations := s.registrations[r := g.(phase := if removed then Removed else Done(false))])
    case CloseCancel(_) =>
      if g.phase != Removed then s
      else s.(core := CancelOf(s.core, OfGeneration(g.authority)),
              registrations := s.registrations[r := g.(phase := Done(true))])
    case _ => s
  }

  function Next(s: System, a: Action): System {
    match a
    case Install(r, owner, live, belongs) => InstallStep(s, r, owner, live, belongs)
    case Respond(rpc, key, outcome, now, delivered) => RespondStep(s, rpc, key, outcome, now, delivered)
    case Register(_, _, _, _, _, _) => RegisterStep(s, a)
    case ObserveAsked(key) => ObserveStep(s, key)
    case FindDecided(observer, key, outcome) => FindStep(s, observer, key, outcome)
    case RemoveDecided(observer) => RemoveStep(s, observer)
    case Cancel(which) => s.(core := CancelOf(s.core, which))
    case Timeout(key) => s.(core := TimeoutOf(s.core, key))
    case CloseSwap(r) => if r in s.registrations then CloseStep(s, r, a) else s
    case CloseRemove(r) => if r in s.registrations then CloseStep(s, r, a) else s
    case CloseCancel(r) => if r in s.registrations then CloseStep(s, r, a) else s
    case Publish(n) =>
      if n in s.outbox then s.(outbox := s.outbox - multiset{n}, sent := s.sent + multiset{n}) else s
  }

  function Run(s: System, actions: seq<Action>): System
    decreases |actions|
  {
    if actions == [] then s else Run(Next(s, actions[0]), actions[1..])
  }

  // ---------------------------------------------------------------------
  // Invariants
  // ---------------------------------------------------------------------

  predicate NameInv(entries: map<nat, Entry>, known: map<nat, Key>) {
    forall rpc :: rpc in entries ==> rpc in known && entries[rpc].key == known[rpc]
  }

  predicate AcceptInv(accepted: seq<nat>, entries: map<nat, Entry>, known: map<nat, Key>) {
    && (forall i, j :: 0 <= i < j < |accepted| ==> accepted[i] != accepted[j])
    && (forall rpc :: rpc in accepted ==> rpc in known && (rpc in entries ==> entries[rpc].claimed))
  }

  ghost predicate ClosingFor(registrations: map<nat, Registration>, owner: Authority) {
    exists r :: r in registrations && registrations[r] == Registration(owner, Removed)
  }

  predicate Installed(slots: map<nat, Authority>, owner: Authority) {
    owner.session in slots && slots[owner.session] == owner
  }

  /** An unclaimed request has its slot, or a close that is about to revoke it. */
  ghost predicate OwnerInv(entries: map<nat, Entry>, slots: map<nat, Authority>, registrations: map<nat, Registration>) {
    forall rpc :: rpc in entries && !entries[rpc].claimed ==>
      Installed(slots, entries[rpc].generation) || ClosingFor(registrations, entries[rpc].generation)
  }

  predicate ObserverInv(observers: map<nat, Observer>, known: map<nat, Key>) {
    forall o :: o in observers ==> observers[o].rpc in known && known[observers[o].rpc] == observers[o].key
  }

  predicate Sole(known: map<nat, Key>, rpc: nat)
    requires rpc in known
  {
    forall other :: other in known && known[other] == known[rpc] ==> other == rpc
  }

  ghost predicate RequestedInv(all: multiset<Notice>, known: map<nat, Key>, observed: multiset<Key>) {
    && (forall rpc, key :: Requested(rpc, key) in all ==> rpc in known && key == known[rpc])
    && (forall rpc :: rpc in known ==> all[Requested(rpc, known[rpc])] <= observed[known[rpc]])
  }

  ghost predicate AnnouncedInv(all: multiset<Notice>, known: map<nat, Key>, entries: map<nat, Entry>, relayed: set<Key>) {
    forall rpc :: rpc in entries && rpc in known && !entries[rpc].claimed && known[rpc] in relayed && Sole(known, rpc) ==>
      Requested(rpc, known[rpc]) in all
  }

  ghost predicate ResolvedInv(all: multiset<Notice>, known: map<nat, Key>, entries: map<nat, Entry>) {
    && (forall n :: n in all && n.Resolved? ==> n.rpc !in entries && n.rpc in known && n.key == known[n.rpc] && all[n] == 1)
    && (forall m, n :: m in all && n in all && m.Resolved? && n.Resolved? && m.rpc == n.rpc ==> m == n)
  }

  ghost predicate NoticeInv(
    all: multiset<Notice>, known: map<nat, Key>, observed: multiset<Key>, entries: map<nat, Entry>, relayed: set<Key>)
  {
    && (forall key :: key in relayed ==> key in observed)
    && RequestedInv(all, known, observed)
    && AnnouncedInv(all, known, entries, relayed)
    && ResolvedInv(all, known, entries)
  }

  ghost predicate RequestInv(s: System) {
    && WellFormed(s.core)
    && NameInv(s.core.entries, s.known)
    && AcceptInv(s.accepted, s.core.entries, s.known)
    && OwnerInv(s.core.entries, s.core.slots, s.registrations)
    && ObserverInv(s.observers, s.known)
  }

  ghost predicate Inv(s: System) {
    && RequestInv(s)
    && NoticeInv(s.outbox + s.sent, s.known, s.observed, s.core.entries, s.core.relayed)
  }

  // ---------------------------------------------------------------------
  // Steps that only claim requests
  // ---------------------------------------------------------------------

  /** The same requests, some of them newly claimed. */
  predicate Claims(entries: map<nat, Entry>, entries': map<nat, Entry>) {
    && entries'.Keys == entries.Keys
    && forall rpc :: rpc in entries ==> entries'[rpc] == entries[rpc] || entries'[rpc] == Claim(entries[rpc])
  }

  lemma ClaimsKeep(s: System, core: Core)
    requires Inv(s)
    requires core == s.core.(entries := core.entries, cancelled := core.cancelled) && Claims(s.core.entries, core.entries)
    ensures Inv(s.(core := core))
  {
    hide RequestedInv, Installed, ClosingFor, Remembered;
    assert |core.entries.Keys| == |core.entries|;
    assert |s.core.entries.Keys| == |s.core.entries|;
  }

  lemma CancelClaims(c: Core, which: Selection)
    ensures Claims(c.entries, CancelOf(c, which).entries)
    ensures forall rpc :: rpc in c.entries && Matches(which, c.entries[rpc]) ==> CancelOf(c, which).entries[rpc].claimed
  {
  }

  lemma RespondKeeps(s: System, rpc: nat, key: Key, outcome: Outcome, now: nat, delivered: bool)
    requires Inv(s)
    ensures Inv(RespondStep(s, rpc, key, outcome, now, delivered))
  {
    hide Inv;
    var (core, receipt) := RespondOf(s.core, rpc, key, outcome, now, delivered);
    if core != s.core {
      ClaimsKeep(s, core);
      AcceptKeeps(s, rpc, core);
    }
  }

  lemma AcceptKeeps(s: System, rpc: nat, core: Core)
    requires Inv(s) && Inv(s.(core := core))
    requires rpc in s.core.entries && rpc in core.entries && !s.core.entries[rpc].claimed && core.entries[rpc].claimed
    ensures Inv(s.(core := core, accepted := s.accepted + [rpc]))
  {
    hide WellFormed, OwnerInv, NoticeInv, ObserverInv;
    assert rpc !in s.accepted;
  }

  // ---------------------------------------------------------------------
  // The other steps
  // ---------------------------------------------------------------------

  lemma InstallKeeps(s: System, r: nat, owner: Authority, live: bool, belongs: bool)
    requires Inv(s)
    ensures Inv(InstallStep(s, r, owner, live, belongs))
  {
    hide NoticeInv, ObserverInv, AcceptInv, Remembered, EntryOk, NameInv;
    var s' := InstallStep(s, r, owner, live, belongs);
    if s' != s {
      forall a | ClosingFor(s.registrations, a)
        ensures ClosingFor(s'.registrations, a)
      {
        var q :| q in s.registrations && s.registrations[q] == Registration(a, Removed);
        assert s'.registrations[q] == Registration(a, Removed);
      }
      hide ClosingFor;
      assert OwnerInv(s'.core.entries, s'.core.slots, s'.registrations);
    }
  }

  lemma CloseKeeps(s: System, r: nat, a: Action)
    requires Inv(s) && r in s.registrations
    ensures Inv(CloseStep(s, r, a))
  {
    hide Inv;
    if a.CloseCancel? {
      CloseCancelKeeps(s, r);
    } else if a.CloseRemove? || a.CloseSwap? {
      CloseSlotKeeps(s, r, a);
    }
  }

  lemma CloseSlotKeeps(s: System, r: nat, a: Action)
    requires Inv(s) && r in s.registrations && (a.CloseRemove? || a.CloseSwap?)
    ensures Inv(CloseStep(s, r, a))
  {
    hide NoticeInv, ObserverInv, AcceptInv, NameInv, CancelOf, OwnerInv, Remembered, EntryOk, ClosingFor;
    var s' := CloseStep(s, r, a);
    assert s' == s.(core := s'.core, registrations := s'.registrations);
    assert s'.core == s.core.(slots := s'.core.slots);
    CloseOwners(s, s', r);
  }

  lemma CloseCancelKeeps(s: System, r: nat)
    requires Inv(s) && r in s.registrations
    ensures Inv(CloseStep(s, r, CloseCancel(r)))
  {
    hide NoticeInv, ObserverInv, AcceptInv, NameInv, CancelOf, OwnerInv, WellFormed;
    var s', g := CloseStep(s, r, CloseCancel(r)), s.registrations[r];
    if g.phase == Removed {
      CancelClaims(s.core, OfGeneration(g.authority));
      CancelShape(s.core, OfGeneration(g.authority));
      ClaimsKeep(s, s'.core);
      ClosedOwners(s, s', r);
    }
  }

  lemma CancelShape(c: Core, which: Selection)
    ensures CancelOf(c, which) == c.(entries := CancelOf(c, which).entries, cancelled := CancelOf(c, which).cancelled)
  {
  }

  lemma ClosedOwners(s: System, s': System, r: nat)
    requires r in s.registrations && s.registrations[r].phase == Removed
    requires OwnerInv(s.core.entries, s.core.slots, s.registrations)
    requires Claims(s.core.entries, s'.core.entries) && s'.core.slots == s.core.slots
    requires s'.registrations == s.registrations[r := s.registrations[r].(phase := Done(true))]
    requires forall rpc :: rpc in s.core.entries && s.core.entries[rpc].generation == s.registrations[r].authority ==>
                             s'.core.entries[rpc].claimed
    ensures OwnerInv(s'.core.entries, s'.core.slots, s'.registrations)
  {
    hide Installed;
    forall rpc | rpc in s'.core.entries && !s'.core.entries[rpc].claimed
      ensures Installed(s'.core.slots, s'.core.entries[rpc].generation) || ClosingFor(s'.registrations, s'.core.entries[rpc].generation)
    {
      var a := s.core.entries[rpc].generation;
      if !Installed(s.core.slots, a) {
        var q :| q in s.registrations && s.registrations[q] == Registration(a, Removed);
        assert s'.registrations[q] == Registration(a, Removed);
      }
    }
  }

  lemma CloseOwners(s: System, s': System, r: nat)
    requires r in s.registrations
    requires OwnerInv(s.core.entries, s.core.slots, s.registrations)
    requires s'.core.entries == s.core.entries
    requires forall q :: q in s.registrations && s.registrations[q].phase == Removed ==>
                           q in s'.registrations && s'.registrations[q] == s.registrations[q]
    requires s'.core.slots == s.core.slots
             || (&& s'.core.slots == s.core.slots - {s.registrations[r].authority.session}
                 && Installed(s.core.slots, s.registrations[r].authority)
                 && r in s'.registrations
                 && s'.registrations[r] == Registration(s.registrations[r].authority, Removed))
    ensures OwnerInv(s'.core.entries, s'.core.slots, s'.registrations)
  {
    forall rpc | rpc in s'.core.entries && !s'.core.entries[rpc].claimed
      ensures Installed(s'.core.slots, s'.core.entries[rpc].generation) || ClosingFor(s'.registrations, s'.core.entries[rpc].generation)
    {
      var a := s.core.entries[rpc].generation;
      if Installed(s.core.slots, a) {
        if !Installed(s'.core.slots, a) {
          assert s'.registrations[r] == Registration(a, Removed);
        }
      } else {
        var q :| q in s.registrations && s.registrations[q] == Registration(a, Removed);
        assert s'.registrations[q] == Registration(a, Removed);
      }
    }
  }

  lemma FindKeeps(s: System, observer: nat, key: Key, outcome: Outcome)
    requires Inv(s)
    ensures Inv(FindStep(s, observer, key, outcome))
  {
    hide WellFormed, OwnerInv, NoticeInv, AcceptInv;
  }

  lemma PublishKeeps(s: System, n: Notice)
    requires Inv(s)
    ensures Inv(Next(s, Publish(n)))
  {
    hide NoticeInv, WellFormed, NameInv, AcceptInv, OwnerInv, ObserverInv;
    if n in s.outbox {
      assert (s.outbox - multiset{n}) + (s.sent + multiset{n}) == s.outbox + s.sent;
    }
  }

  // A removed request.

  lemma RemoveKeeps(s: System, observer: nat)
    requires Inv(s)
    ensures Inv(RemoveStep(s, observer))
  {
    hide NoticeInv;
    if observer in s.observers {
      var o := s.observers[observer];
      var s', all := RemoveStep(s, observer), s.outbox + s.sent;
      RemoveKeepsForm(s.core, o.rpc);
      hide WellFormed, Installed, ClosingFor;
      assert s'.core == s.core.(entries := s.core.entries - {o.rpc});
      RemoveNotices(all, s.known, s.observed, s.core.entries, s.core.relayed, Resolved(o.rpc, o.key, o.outcome));
      if o.rpc in s.core.entries {
        assert s'.outbox + s'.sent == all + multiset{Resolved(o.rpc, o.key, o.outcome)};
      } else {
        assert s'.core.entries == s.core.entries;
      }
    }
  }

  lemma RemoveNotices(all: multiset<Notice>, known: map<nat, Key>, observed: multiset<Key>, entries: map<nat, Entry>, relayed: set<Key>, n: Notice)
    requires NoticeInv(all, known, observed, entries, relayed)
    requires n.Resolved? && n.rpc in known && n.key == known[n.rpc]
    ensures n.rpc in entries ==> NoticeInv(all + multiset{n}, known, observed, entries - {n.rpc}, relayed)
  {
    if n.rpc in entries {
      ResolvedMore(all, known, entries, n);
      RequestedSame(all, known, observed, n);
      hide ResolvedInv, RequestedInv;
    }
  }

  lemma ResolvedMore(all: multiset<Notice>, known: map<nat, Key>, entries: map<nat, Entry>, n: Notice)
    requires ResolvedInv(all, known, entries)
    requires n.Resolved? && n.rpc in entries && n.rpc in known && n.key == known[n.rpc]
    ensures ResolvedInv(all + multiset{n}, known, entries - {n.rpc})
  {
    assert n !in all;
    assert forall m :: m in all + multiset{n} <==> m in all || m == n;
    assert forall m :: m in all && m.Resolved? ==> m.rpc != n.rpc;
  }

  lemma RequestedSame(all: multiset<Notice>, known: map<nat, Key>, observed: multiset<Key>, n: Notice)
    requires RequestedInv(all, known, observed) && n.Resolved?
    ensures RequestedInv(all + multiset{n}, known, observed)
  {
  }

  lemma ResolvedSame(all: multiset<Notice>, known: map<nat, Key>, entries: map<nat, Entry>, n: Notice)
    requires ResolvedInv(all, known, entries) && n.Requested?
    ensures ResolvedInv(all + multiset{n}, known, entries)
  {
    assert forall m :: m in all + multiset{n} <==> m in all || m == n;
    assert forall m: Notice :: m.Resolved? ==> (all + multiset{n})[m] == all[m];
  }

  lemma RequestedMore(all: multiset<Notice>, known: map<nat, Key>, observed: multiset<Key>, rpc: nat)
    requires RequestedInv(all, known, observed)
    requires rpc in known && all[Requested(rpc, known[rpc])] < observed[known[rpc]]
    ensures RequestedInv(all + multiset{Requested(rpc, known[rpc])}, known, observed)
  {
  }

  // A relayed asked event.

  lemma RememberFacts(c: Core, key: Key)
    requires WellFormed(c)
    ensures WellFormed(RememberOf(c, key))
    ensures RememberOf(c, key).relayed <= c.relayed + {key}
    ensures RememberOf(c, key) == c.(order := RememberOf(c, key).order, relayed := RememberOf(c, key).relayed)
  {
    var c' := RememberOf(c, key);
    if c' != c {
      var all := c.order + [key];
      assert Distinct(all);
      NewestDistinct(all, c.maxPending);
      assert forall k :: k in Newest(all, c.maxPending) ==> k in all;
    }
  }

  lemma ObserveKeeps(s: System, key: Key)
    requires Inv(s)
    ensures Inv(ObserveStep(s, key))
  {
    hide NoticeInv, WellFormed, RememberOf, OwnerInv, AcceptInv, ObserverInv;
    RememberFacts(s.core, key);
    var s' := ObserveStep(s, key);
    var found := First(Requests(s.core.entries, key, true));
    ObserveNotices(s.outbox + s.sent, s.known, s.observed, s.core.entries, s.core.relayed, key, s'.core.relayed);
    if found.Some? {
      assert s'.outbox + s'.sent == s.outbox + s.sent + multiset{Requested(found.value, key)};
    }
  }

  lemma ObserveNotices(
      all: multiset<Notice>, known: map<nat, Key>, observed: multiset<Key>, entries: map<nat, Entry>, relayed: set<Key>,
      key: Key, relayed': set<Key>)
    requires NoticeInv(all, known, observed, entries, relayed) && NameInv(entries, known)
    requires relayed' <= relayed + {key}
    ensures NoticeInv(Announced(all, entries, key), known, observed + multiset{key}, entries, relayed')
  {
    hide RequestedInv, ResolvedInv, AnnouncedInv;
    ObserveCounts(all, known, observed, key);
    ObserveAnnounces(all, known, entries, relayed, key, relayed');
    var found := First(Requests(entries, key, true));
    if found.Some? {
      assert known[found.value] == key;
      ResolvedSame(all, known, entries, Requested(found.value, key));
      RequestedMore(all, known, observed + multiset{key}, found.value);
    }
  }

  /** The notices after a relayed asked event announced the first waiting request. */
  function Announced(all: multiset<Notice>, entries: map<nat, Entry>, key: Key): multiset<Notice> {
    match First(Requests(entries, key, true))
    case None => all
    case Some(rpc) => all + multiset{Requested(rpc, key)}
  }

  lemma ObserveCounts(all: multiset<Notice>, known: map<nat, Key>, observed: multiset<Key>, key: Key)
    requires RequestedInv(all, known, observed)
    ensures RequestedInv(all, known, observed + multiset{key})
    ensures forall rpc :: rpc in known && known[rpc] == key ==>
                            all[Requested(rpc, known[rpc])] < (observed + multiset{key})[known[rpc]]
  {
  }

  lemma ObserveAnnounces(
      all: multiset<Notice>, known: map<nat, Key>, entries: map<nat, Entry>, relayed: set<Key>, key: Key, relayed': set<Key>)
    requires NameInv(entries, known) && AnnouncedInv(all, known, entries, relayed)
    requires relayed' <= relayed + {key}
    ensures AnnouncedInv(Announced(all, entries, key), known, entries, relayed')
  {
    var all' := Announced(all, entries, key);
    forall rpc | rpc in entries && rpc in known && !entries[rpc].claimed && known[rpc] in relayed' && Sole(known, rpc)
      ensures Requested(rpc, known[rpc]) in all'
    {
      if known[rpc] == key {
        assert rpc in Requests(entries, key, true);
        var first := First(Requests(entries, key, true)).value;
        assert known[first] == key;
      }
    }
  }

  // A new request.

  lemma RegisterKeeps(s: System, a: Action)
    requires Inv(s) && a.Register?
    ensures Inv(RegisterStep(s, a))
  {
    hide NoticeInv, RequestInv;
    var s' := RegisterStep(s, a);
    if s' != s {
      RegisterRequests(s, a);
      var entry := s'.core.entries[a.rpc];
      RegisterNotices(s.outbox + s.sent, s.known, s.observed, s.core.entries, s.core.relayed, a.rpc, entry);
      if entry.key in s.core.relayed {
        assert s'.outbox + s'.sent == s.outbox + s.sent + multiset{Requested(a.rpc, entry.key)};
      }
    }
  }

  lemma RegisterRequests(s: System, a: Action)
    requires RequestInv(s) && a.Register?
    ensures RequestInv(RegisterStep(s, a))
  {
    hide Remembered, ClosingFor;
    assert a.rpc !in s.known ==> a.rpc !in s.core.entries;
    if a.rpc !in s.known && Registrable(s.core, a.owner, a.asked, a.live) {
      var e := Entry(a.asked.key, a.owner, a.asked.turn, a.token, a.deadline, true, false);
      RegisterEntries(s, a.rpc, e);
      hide WellFormed, NameInv, AcceptInv, OwnerInv, ObserverInv, Registrable;
    }
  }

  lemma RegisterEntries(s: System, rpc: nat, e: Entry)
    requires RequestInv(s) && rpc !in s.known && rpc !in s.core.entries && EntryOk(e) && !e.claimed
    requires Installed(s.core.slots, e.generation) && |s.core.entries| < s.core.maxPending
    ensures var entries, known := s.core.entries[rpc := e], s.known[rpc := e.key];
            && WellFormed(s.core.(entries := entries))
            && NameInv(entries, known)
            && AcceptInv(s.accepted, entries, known)
            && OwnerInv(entries, s.core.slots, s.registrations)
            && ObserverInv(s.observers, known)
  {
    hide Remembered, ClosingFor;
  }

  lemma RegisterNotices(
      all: multiset<Notice>, known: map<nat, Key>, observed: multiset<Key>, entries: map<nat, Entry>, relayed: set<Key>,
      rpc: nat, e: Entry)
    requires NoticeInv(all, known, observed, entries, relayed)
    requires rpc !in known
    ensures NoticeInv(if e.key in relayed then all + multiset{Requested(rpc, e.key)} else all,
                      known[rpc := e.key], observed, entries[rpc := e], relayed)
  {
    var known' := known[rpc := e.key];
    RegisterCounts(all, known, observed, rpc, e.key);
    RegisterResolved(all, known, entries, rpc, e);
    SoleBefore(known, rpc, e.key);
    hide RequestedInv, ResolvedInv, Sole;
    if e.key in relayed {
      RequestedMore(all, known', observed, rpc);
      ResolvedSame(all, known', entries[rpc := e], Requested(rpc, e.key));
    }
  }

  lemma RegisterCounts(all: multiset<Notice>, known: map<nat, Key>, observed: multiset<Key>, rpc: nat, key: Key)
    requires RequestedInv(all, known, observed) && rpc !in known
    ensures RequestedInv(all, known[rpc := key], observed) && Requested(rpc, key) !in all
  {
  }

  lemma RegisterResolved(all: multiset<Notice>, known: map<nat, Key>, entries: map<nat, Entry>, rpc: nat, e: Entry)
    requires ResolvedInv(all, known, entries) && rpc !in known
    ensures ResolvedInv(all, known[rpc := e.key], entries[rpc := e])
  {
  }

  lemma SoleBefore(known: map<nat, Key>, rpc: nat, key: Key)
    requires rpc !in known
    ensures forall other :: other in known && Sole(known[rpc := key], other) ==> Sole(known, other)
  {
    forall other | other in known && Sole(known[rpc := key], other)
      ensures Sole(known, other)
    {
      forall third | third in known && known[third] == known[other]
        ensures third == other
      {
        assert known[rpc := key][third] == known[rpc := key][other];
      }
    }
  }

  // ---------------------------------------------------------------------
  // Runs
  // ---------------------------------------------------------------------

  lemma TimeoutClaims(c: Core, key: Key)
    ensures Claims(c.entries, TimeoutOf(c, key).entries)
    ensures TimeoutOf(c, key) == c.(entries := TimeoutOf(c, key).entries)
  {
  }

  lemma InvStep(s: System, a: Action)
    requires Inv(s)
    ensures Inv(Next(s, a))
  {
    hide Inv, InstallStep, RespondStep, RegisterStep, ObserveStep, FindStep, RemoveStep, CloseStep, CancelOf, TimeoutOf, Claims;
    match a
    case Install(r, owner, live, belongs) => InstallKeeps(s, r, owner, live, belongs);
    case Respond(rpc, key, outcome, now, delivered) => RespondKeeps(s, rpc, key, outcome, now, delivered);
    case Register(_, _, _, _, _, _) => RegisterKeeps(s, a);
    case ObserveAsked(key) => ObserveKeeps(s, key);
    case FindDecided(observer, key, outcome) => FindKeeps(s, observer, key, outcome);
    case RemoveDecided(observer) => RemoveKeeps(s, observer);
    case Cancel(which) =>
      CancelClaims(s.core, which);
      CancelShape(s.core, which);
      ClaimsKeep(s, CancelOf(s.core, which));
    case Timeout(key) =>
      TimeoutClaims(s.core, key);
      ClaimsKeep(s, TimeoutOf(s.core, key));
    case Publish(n) => PublishKeeps(s, n);
    case CloseSwap(r) => if r in s.registrations { CloseKeeps(s, r, a); }
    case CloseRemove(r) => if r in s.registrations { CloseKeeps(s, r, a); }
    case CloseCancel(r) => if r in s.registrations { CloseKeeps(s, r, a); }
  }

  lemma {:induction false} InvRun(s: System, actions: seq<Action>)
    requires Inv(s)
    ensures Inv(Run(s, actions))
    decreases |actions|
  {
    hide Inv, Next;
    if actions != [] {
      InvStep(s, actions[0]);
      InvRun(Next(s, actions[0]), actions[1..]);
    }
  }

  lemma Reachable(maxPending: nat, actions: seq<Action>)
    ensures Inv(Run(Start(maxPending), actions))
    ensures Run(Start(maxPending), actions).core.maxPending == maxPending
  {
    hide Next, Run, Inv;
    StartInv(maxPending);
    InvRun(Start(maxPending), actions);
    LimitRun(Start(maxPending), actions);
  }

  lemma StartInv(maxPending: nat)
    ensures Inv(Start(maxPending))
  {
  }

  lemma {:induction false} LimitRun(s: System, actions: seq<Action>)
    ensures Run(s, actions).core.maxPending == s.core.maxPending
    decreases |actions|
  {
    hide Next;
    if actions != [] {
      LimitStep(s, actions[0]);
      LimitRun(Next(s, actions[0]), actions[1..]);
    }
  }

  lemma LimitStep(s: System, a: Action)
    ensures Next(s, a).core.maxPending == s.core.maxPending
  {
    hide First, Requests, ClaimAll, Revoked, Newest, Members;
  }

  // ---------------------------------------------------------------------
  // Theorems
  // ---------------------------------------------------------------------

  /** In every run each request is accepted at most once, its sender is there exactly while
      it is unclaimed, at most `maxPending` requests wait, and the relayed set is the
      contents of its duplicate-free bounded queue. */
  lemma AcceptedOnce(maxPending: nat, actions: seq<Action>)
    ensures var s := Run(Start(maxPending), actions);
            && (forall i, j :: 0 <= i < j < |s.accepted| ==> s.accepted[i] != s.accepted[j])
            && (forall rpc :: rpc in s.core.entries ==> s.core.entries[rpc].hasSender == !s.core.entries[rpc].claimed)
            && |s.core.entries| <= maxPending
            && s.core.relayed == Members(s.core.order)
            && Distinct(s.core.order)
            && |s.core.order| <= maxPending
  {
    hide Run;
    Reachable(maxPending, actions);
  }

  /** However registration and the relayed asked event fall, a request is announced at
      most as often as its asked event was relayed, and, while it is the only request of
      its approval, unclaimed and still remembered, at least once. */
  lemma AnnouncedOnce(maxPending: nat, actions: seq<Action>, rpc: nat)
    requires rpc in Run(Start(maxPending), actions).known
    ensures var s := Run(Start(maxPending), actions);
            var key := s.known[rpc];
            var announced := (s.outbox + s.sent)[Requested(rpc, key)];
            && (s.observed[key] <= 1 ==> announced <= 1)
            && (s.observed[key] == 1 && Sole(s.known, rpc) && rpc in s.core.entries && !s.core.entries[rpc].claimed && key in s.core.relayed ==>
                  announced == 1)
  {
    hide Run;
    Reachable(maxPending, actions);
  }

  /** A request is resolved at most once, with one outcome, and never while it is pending. */
  lemma ResolvedOnce(maxPending: nat, actions: seq<Action>, m: Notice, n: Notice)
    requires var s := Run(Start(maxPending), actions); m in s.outbox + s.sent && n in s.outbox + s.sent
    requires m.Resolved? && n.Resolved? && m.rpc == n.rpc
    ensures var s := Run(Start(maxPending), actions);
            m == n && (s.outbox + s.sent)[m] == 1 && m.rpc !in s.core.entries
  {
    hide Run;
    Reachable(maxPending, actions);
  }

  /** Only a request whose exact generation is installed, or is being closed right now,
      can still be answered. */
  lemma PendingIsOwned(maxPending: nat, actions: seq<Action>, rpc: nat, now: nat)
    requires Answerable(Run(Start(maxPending), actions).core, rpc, now)
    ensures var s := Run(Start(maxPending), actions);
            var owner := s.core.entries[rpc].generation;
            && owner.session == s.core.entries[rpc].key.session
            && (Installed(s.core.slots, owner) || ClosingFor(s.registrations, owner))
  {
    hide Run;
    Reachable(maxPending, actions);
  }

  /** No slot and no unclaimed request of this generation. */
  predicate Gone(c: Core, owner: Authority) {
    && !Installed(c.slots, owner)
    && forall rpc :: rpc in c.entries && c.entries[rpc].generation == owner ==> c.entries[rpc].claimed
  }

  predicate Reinstalls(actions: seq<Action>, owner: Authority) {
    exists i :: 0 <= i < |actions| && actions[i].Install? && actions[i].owner == owner
  }

  lemma AbsentStep(s: System, a: Action, owner: Authority)
    requires !Installed(s.core.slots, owner) && !(a.Install? && a.owner == owner)
    ensures !Installed(Next(s, a).core.slots, owner)
  {
    hide First, Requests, ClaimAll, Revoked, Newest, Members;
  }

  /** A step adds no unclaimed request of a generation without a slot. */
  lemma NoNewcomer(s: System, a: Action, rpc: nat)
    requires rpc in Next(s, a).core.entries && !Next(s, a).core.entries[rpc].claimed
    ensures (&& rpc in s.core.entries
             && !s.core.entries[rpc].claimed
             && s.core.entries[rpc].generation == Next(s, a).core.entries[rpc].generation)
            || Installed(s.core.slots, Next(s, a).core.entries[rpc].generation)
  {
    hide First, Requests, Revoked, Newest, Members;
  }

  lemma GoneStep(s: System, a: Action, owner: Authority)
    requires Gone(s.core, owner) && !(a.Install? && a.owner == owner)
    ensures Gone(Next(s, a).core, owner)
  {
    hide Next, Installed;
    AbsentStep(s, a, owner);
    forall rpc | rpc in Next(s, a).core.entries && Next(s, a).core.entries[rpc].generation == owner
      ensures Next(s, a).core.entries[rpc].claimed
    {
      if !Next(s, a).core.entries[rpc].claimed {
        NoNewcomer(s, a, rpc);
      }
    }
  }

  lemma {:induction false} GoneRun(s: System, actions: seq<Action>, owner: Authority)
    requires Gone(s.core, owner) && !Reinstalls(actions, owner)
    ensures Gone(Run(s, actions).core, owner)
    decreases |actions|
  {
    hide Gone, Next;
    if actions != [] {
      GoneStep(s, actions[0], owner);
      RestInstalls(actions, owner);
      GoneRun(Next(s, actions[0]), actions[1..], owner);
    }
  }

  lemma RestInstalls(actions: seq<Action>, owner: Authority)
    requires actions != [] && !Reinstalls(actions, owner)
    ensures !(actions[0].Install? && actions[0].owner == owner)
    ensures !Reinstalls(actions[1..], owner)
  {
    assert forall i :: 0 <= i < |actions[1..]| ==> actions[1..][i] == actions[i + 1];
  }

  /** Between its slot's removal and its revocation a close keeps its place. */
  lemma ClosingStep(s: System, a: Action, r: nat)
    requires r in s.registrations && s.registrations[r].phase == Removed
    requires !Installed(s.core.slots, s.registrations[r].authority)
    requires !(a.Install? && a.owner == s.registrations[r].authority)
    ensures var s' := Next(s, a);
            && r in s'.registrations
            && s'.registrations[r].authority == s.registrations[r].authority
            && !Installed(s'.core.slots, s.registrations[r].authority)
            && (s'.registrations[r] == s.registrations[r]
                || (a == CloseCancel(r) && Gone(s'.core, s.registrations[r].authority)))
  {
    AbsentStep(s, a, s.registrations[r].authority);
    hide Installed, First, Requests, ClaimAll, Revoked, Newest, Members;
    if a == CloseCancel(r) {
      CancelClaims(s.core, OfGeneration(s.registrations[r].authority));
    }
  }

  /** Once a close has returned true, no unclaimed request of its generation exists, and none
      appears on any run in which that generation is not installed again. */
  lemma {:induction false} NothingAfterClose(s: System, actions: seq<Action>, r: nat)
    requires r in s.registrations && s.registrations[r].phase == Removed
    requires !Installed(s.core.slots, s.registrations[r].authority)
    requires !Reinstalls(actions, s.registrations[r].authority)
    ensures var s' := Run(s, actions);
            && r in s'.registrations
            && (s'.registrations[r].phase == Removed || Gone(s'.core, s.registrations[r].authority))
    decreases |actions|
  {
    hide Gone, Next, Installed;
    if actions != [] {
      var s1 := Next(s, actions[0]);
      RestInstalls(actions, s.registrations[r].authority);
      ClosingStep(s, actions[0], r);
      if s1.registrations[r] == s.registrations[r] {
        NothingAfterClose(s1, actions[1..], r);
      } else {
        GoneRun(s1, actions[1..], s.registrations[r].authority);
        RegistrationsRun(s1, actions[1..], r);
      }
    }
  }

  lemma {:induction false} RegistrationsRun(s: System, actions: seq<Action>, r: nat)
    requires r in s.registrations
    ensures r in Run(s, actions).registrations
    ensures Run(s, actions).registrations[r].authority == s.registrations[r].authority
    ensures s.registrations[r].phase.Done? ==> Run(s, actions).registrations[r] == s.registrations[r]
    decreases |actions|
  {
    hide Next;
    if actions != [] {
      RegistrationsStep(s, actions[0], r);
      RegistrationsRun(Next(s, actions[0]), actions[1..], r);
    }
  }

  lemma RegistrationsStep(s: System, a: Action, r: nat)
    requires r in s.registrations
    ensures r in Next(s, a).registrations
    ensures Next(s, a).registrations[r].authority == s.registrations[r].authority
    ensures s.registrations[r].phase.Done? ==> Next(s, a).registrations[r] == s.registrations[r]
  {
    hide First, Requests, ClaimAll, Revoked, Newest, Members;
  }

  /** The whole life of a close: from the step that took the slot out to its return of true. */
  lemma CloseRevokes(maxPending: nat, before: seq<Action>, r: nat, after: seq<Action>)
    requires var s := Run(Start(maxPending), before);
             && r in s.registrations
             && s.registrations[r].phase == Swapped
             && !Reinstalls(after, s.registrations[r].authority)
             && r in Run(Next(s, CloseRemove(r)), after).registrations
             && Run(Next(s, CloseRemove(r)), after).registrations[r].phase == Done(true)
    ensures var s := Run(Start(maxPending), before);
            Gone(Run(Next(s, CloseRemove(r)), after).core, s.registrations[r].authority)
  {
    hide Run, Gone;
    var s := Run(Start(maxPending), before);
    var s1 := Next(s, CloseRemove(r));
    RegistrationsRun(s1, after, r);
    assert s1.registrations[r].phase == Removed;
    NothingAfterClose(s1, after, r);
  }
}
