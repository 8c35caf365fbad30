/** What the host registry does get done: an installed owner can be asked, answered and closed, and
    a cancellation or timeout takes hold. */
module HostApprovalProgress {
  import opened HostApproval
  import opened HostApprovalRuns

  predicate Installable(s: System, r: nat, owner: Authority) {
    r !in s.registrations && owner.session !in s.core.slots
  }

  /** A live owner of a free slot gets it. Its close goes through all three steps, and frees the slot again. */
  lemma InstallThenClose(s: System, r: nat, owner: Authority)
    requires Inv(s) && Installable(s, r, owner)
    ensures var installed := Next(s, Install(r, owner, true, true));
            var closed := Next(Next(Next(installed, CloseSwap(r)), CloseRemove(r)), CloseCancel(r));
            && installed.core == s.core.(slots := s.core.slots[owner.session := owner])
            && installed.registrations == s.registrations[r := Registration(owner, Open)]
            && closed.core.slots == s.core.slots
            && closed.registrations == s.registrations[r := Registration(owner, Done(true))]
  {
    Installs(s, r, owner);
    hide Inv, Next;
    var s1 := Next(s, Install(r, owner, true, true));
    Closes(s1, r, owner);
    assert s1.core.slots - {owner.session} == s.core.slots;
    assert s1.registrations[r := Registration(owner, Done(true))] == s.registrations[r := Registration(owner, Done(true))];
  }

  lemma Installs(s: System, r: nat, owner: Authority)
    requires Installable(s, r, owner)
    ensures Next(s, Install(r, owner, true, true))
         == s.(core := s.core.(slots := s.core.slots[owner.session := owner]),
               registrations := s.registrations[r := Registration(owner, Open)])
  {
  }

  /** The three steps of a close of the installed owner. */
  lemma Closes(s: System, r: nat, owner: Authority)
    requires r in s.registrations && s.registrations[r] == Registration(owner, Open) && Installed(s.core.slots, owner)
    ensures var closed := Next(Next(Next(s, CloseSwap(r)), CloseRemove(r)), CloseCancel(r));
            && closed.core.slots == s.core.slots - {owner.session}
            && closed.registrations == s.registrations[r := Registration(owner, Done(true))]
  {
    hide CancelOf;
    var s2 := s.(registrations := s.registrations[r := Registration(owner, Swapped)]);
    assert Next(s, CloseSwap(r)) == s2;
    var s3 := s2.(core := s.core.(slots := s.core.slots - {owner.session}), registrations := s2.registrations[r := Registration(owner, Removed)]);
    assert Next(s2, CloseRemove(r)) == s3;
    CancelShape(s3.core, OfGeneration(owner));
    assert s3.registrations[r := Registration(owner, Done(true))] == s.registrations[r := Registration(owner, Done(true))];
  }

  /** Anybody else is refused and changes nothing. */
  lemma InstallRefused(s: System, r: nat, owner: Authority, live: bool, belongs: bool)
    requires !live || !belongs || owner.session in s.core.slots
    ensures Next(s, Install(r, owner, live, belongs)) == s
  {
  }

  /** An installed owner with room, and an approval nobody asked for yet. */
  predicate Askable(s: System, owner: Authority, asked: Asked, rpc: nat) {
    && Installed(s.core.slots, owner)
    && asked.key.session == owner.session && asked.named
    && |s.core.entries| < s.core.maxPending
    && rpc !in s.known && rpc !in s.core.entries
    && forall other :: other in s.core.entries ==> s.core.entries[other].key != asked.key
  }

  /** The request is registered and answerable until its deadline. */
  lemma Registers(s: System, owner: Authority, asked: Asked, rpc: nat, token: nat, deadline: nat)
    requires Askable(s, owner, asked, rpc)
    ensures var s1 := Next(s, Register(owner, asked, true, rpc, token, deadline));
            && s1.core == s.core.(entries := s.core.entries[rpc := Entry(asked.key, owner, asked.turn, token, deadline, true, false)])
            && s1.accepted == s.accepted && s1.observers == s.observers && s1.known == s.known[rpc := asked.key]
  {
  }

  /** A delivered answer in time to a waiting request is accepted and recorded. */
  lemma Accepts(s: System, rpc: nat, outcome: Outcome, now: nat)
    requires rpc in s.core.entries && !s.core.entries[rpc].claimed && now < s.core.entries[rpc].deadline
    requires outcome == AllowedOnce || outcome == Rejected
    ensures var s1 := Next(s, Respond(rpc, s.core.entries[rpc].key, outcome, now, true));
            && s1.accepted == s.accepted + [rpc]
            && s1.core == s.core.(entries := s.core.entries[rpc := s.core.entries[rpc].(claimed := true, hasSender := false)])
            && s1.observers == s.observers && s1.outbox == s.outbox && s1.sent == s.sent
  {
  }

  /** The relayed decision finds the request, removes it, and its notice gets out. */
  lemma Resolves(s: System, o: nat, rpc: nat, outcome: Outcome)
    requires o !in s.observers && rpc in s.core.entries
    requires forall other :: other in s.core.entries && s.core.entries[other].key == s.core.entries[rpc].key ==> other == rpc
    ensures var key := s.core.entries[rpc].key;
            var notice := Resolved(rpc, key, outcome);
            var removed := Next(Next(s, FindDecided(o, key, outcome)), RemoveDecided(o));
            var told := Next(removed, Publish(notice));
            && removed.core == s.core.(entries := s.core.entries - {rpc})
            && removed.outbox == s.outbox + multiset{notice}
            && removed.accepted == s.accepted
            && told == removed.(outbox := s.outbox, sent := s.sent + multiset{notice})
  {
    hide First;
    var key := s.core.entries[rpc].key;
    FirstIsLeast(s.core.entries, key, false);
    assert First(Requests(s.core.entries, key, false)) == Some(rpc);
    var found := Next(s, FindDecided(o, key, outcome));
    assert found == s.(observers := s.observers[o := Observer(rpc, key, outcome)]);
    assert s.outbox + multiset{Resolved(rpc, key, outcome)} - multiset{Resolved(rpc, key, outcome)} == s.outbox;
  }

  /** From ask to notice: in every state in which an owner may ask, its request can be answered either way,
      and afterwards only the record of the answer and the notice are left. */
  lemma Exchange(s: System, owner: Authority, asked: Asked, rpc: nat, token: nat, deadline: nat, outcome: Outcome, now: nat, o: nat)
    requires Askable(s, owner, asked, rpc) && now < deadline && o !in s.observers
    requires outcome == AllowedOnce || outcome == Rejected
    ensures var asks := Next(s, Register(owner, asked, true, rpc, token, deadline));
            var answered := Next(asks, Respond(rpc, asked.key, outcome, now, true));
            var removed := Next(Next(answered, FindDecided(o, asked.key, outcome)), RemoveDecided(o));
            && removed.accepted == s.accepted + [rpc]
            && removed.core == s.core
            && removed.outbox == asks.outbox + multiset{Resolved(rpc, asked.key, outcome)}
  {
    hide Next, First, Requests;
    Registers(s, owner, asked, rpc, token, deadline);
    var asks := Next(s, Register(owner, asked, true, rpc, token, deadline));
    Accepts(asks, rpc, outcome, now);
    var answered := Next(asks, Respond(rpc, asked.key, outcome, now, true));
    Resolves(answered, o, rpc, outcome);
    assert answered.core.entries - {rpc} == s.core.entries;
  }

  /** A cancellation claims exactly the waiting requests it selects and cancels exactly their tokens. */
  lemma CancelTakesHold(s: System, which: Selection)
    ensures var swept := Next(s, Cancel(which)).core;
            && swept.entries.Keys == s.core.entries.Keys
            && (forall rpc :: rpc in s.core.entries ==> Swept(s.core.entries[rpc], swept.entries[rpc], which))
            && (forall token :: token in swept.cancelled <==>
                  || token in s.core.cancelled
                  || exists rpc :: rpc in s.core.entries && s.core.entries[rpc].token == token && Selected(s.core.entries[rpc], which))
            && swept.slots == s.core.slots
  {
  }

  /** A timeout claims the first request of its approval and nothing else. */
  lemma TimeoutTakesHold(s: System, key: Key)
    ensures var late := Next(s, Timeout(key)).core;
            && late.entries.Keys == s.core.entries.Keys
            && late == s.core.(entries := late.entries)
            && forall rpc :: rpc in s.core.entries ==>
                 if LeastFor(s.core.entries, key, false, Some(rpc)) then Closed(s.core.entries[rpc], late.entries[rpc])
                 else late.entries[rpc] == s.core.entries[rpc]
  {
    hide First;
    FirstIsLeast(s.core.entries, key, false);
  }
}
