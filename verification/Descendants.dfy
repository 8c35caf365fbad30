/** The descendant walk of the session export. A record of the session list is named by its
    index, so that two records with one id stay apart. */
module Descendants {

  const MAX_DIRECTORY_ENTRIES: nat := 1000

  datatype Option<+T> = None | Some(value: T)

  datatype Session = Session(id: nat, created: nat, parent: Option<nat>)

  // ---------------------------------------------------------------------
  // Children in order of creation
  // ---------------------------------------------------------------------

  predicate Records(sessions: seq<Session>, list: seq<nat>) {
    forall i :: 0 <= i < |list| ==> list[i] < |sessions|
  }

  predicate NoLater(sessions: seq<Session>, a: nat, b: nat)
    requires a < |sessions| && b < |sessions|
  {
    sessions[a].created < sessions[b].created
    || (sessions[a].created == sessions[b].created && sessions[a].id <= sessions[b].id)
  }

  predicate Ordered(sessions: seq<Session>, list: seq<nat>)
    requires Records(sessions, list)
  {
    forall i, j :: 0 <= i < j < |list| ==> NoLater(sessions, list[i], list[j])
  }

  predicate Distinct<T(==)>(list: seq<T>) {
    forall i, j :: 0 <= i < j < |list| ==> list[i] != list[j]
  }

  function Insert(sessions: seq<Session>, r: nat, list: seq<nat>): (out: seq<nat>)
    requires r < |sessions| && Records(sessions, list)
    ensures Records(sessions, out)
    ensures multiset(out) == multiset(list) + multiset{r}
  {
    if list == [] then [r]
    else if NoLater(sessions, r, list[0]) then [r] + list
    else
      assert list == [list[0]] + list[1..];
      [list[0]] + Insert(sessions, r, list[1..])
  }

  lemma {:induction false} InsertOrders(sessions: seq<Session>, r: nat, list: seq<nat>)
    requires r < |sessions| && Records(sessions, list) && Ordered(sessions, list)
    ensures Ordered(sessions, Insert(sessions, r, list))
  {
    if list != [] && !NoLater(sessions, r, list[0]) {
      InsertOrders(sessions, r, list[1..]);
      var rest := Insert(sessions, r, list[1..]);
      forall j | 0 <= j < |rest|
        ensures NoLater(sessions, list[0], rest[j])
      {
        assert rest[j] in multiset(rest);
        assert rest[j] == r || rest[j] in list[1..];
      }
    }
  }

  /** The library's sort by creation time, then id. */
  function Sorted(sessions: seq<Session>, list: seq<nat>): (out: seq<nat>)
    requires Records(sessions, list)
    ensures Records(sessions, out) && Ordered(sessions, out)
    ensures multiset(out) == multiset(list)
  {
    if list == [] then []
    else
      var rest := Sorted(sessions, list[1..]);
      InsertOrders(sessions, list[0], rest);
      assert list == [list[0]] + list[1..];
      Insert(sessions, list[0], rest)
  }

  /** The records among the first `n` that name `parent`, in list order. */
  function Filed(sessions: seq<Session>, parent: nat, n: nat): (list: seq<nat>)
    requires n <= |sessions|
    ensures Records(sessions, list)
  {
    if n == 0 then []
    else if sessions[n - 1].parent == Some(parent) then Filed(sessions, parent, n - 1) + [n - 1]
    else Filed(sessions, parent, n - 1)
  }

  lemma {:induction false} FiledFacts(sessions: seq<Session>, parent: nat, n: nat)
    requires n <= |sessions|
    ensures Distinct(Filed(sessions, parent, n))
    ensures forall r :: r in Filed(sessions, parent, n) <==> 0 <= r < n && sessions[r].parent == Some(parent)
  {
    if n > 0 {
      FiledFacts(sessions, parent, n - 1);
    }
  }

  function Kids(sessions: seq<Session>, parent: nat): (list: seq<nat>)
    ensures Records(sessions, list)
  {
    Sorted(sessions, Filed(sessions, parent, |sessions|))
  }

  lemma {:induction false} DistinctCounts(list: seq<nat>)
    ensures Distinct(list) <==> forall x :: multiset(list)[x] <= 1
  {
    if list != [] {
      var rest, last := list[..|list| - 1], list[|list| - 1];
      DistinctCounts(rest);
      assert list == rest + [last];
      if Distinct(list) {
        assert last !in rest;
        assert multiset(rest)[last] == 0;
      }
      if forall x :: multiset(list)[x] <= 1 {
        forall x
          ensures multiset(rest)[x] <= 1
        {
          assert multiset(list)[x] <= 1;
        }
        assert multiset(list)[last] == multiset(rest)[last] + 1;
        assert last !in multiset(rest);
        assert last !in rest;
      }
    }
  }

  lemma KidsFacts(sessions: seq<Session>, parent: nat)
    ensures Distinct(Kids(sessions, parent))
    ensures forall r :: r in Kids(sessions, parent) <==> 0 <= r < |sessions| && sessions[r].parent == Some(parent)
  {
    var filed := Filed(sessions, parent, |sessions|);
    FiledFacts(sessions, parent, |sessions|);
    DistinctCounts(filed);
    DistinctCounts(Kids(sessions, parent));
    forall r: nat
      ensures r in Kids(sessions, parent) <==> r in filed
    {
      assert r in multiset(Kids(sessions, parent)) <==> r in multiset(filed);
    }
  }

  /** Siblings stand in the order of their creation times, and of their ids where those are equal. */
  lemma KidsInOrder(sessions: seq<Session>, parent: nat, i: nat, j: nat)
    requires i < j < |Kids(sessions, parent)|
    ensures var a, b := sessions[Kids(sessions, parent)[i]], sessions[Kids(sessions, parent)[j]];
            a.created < b.created || (a.created == b.created && a.id <= b.id)
  {
    hide Sorted;
    assert NoLater(sessions, Kids(sessions, parent)[i], Kids(sessions, parent)[j]);
  }

  // ---------------------------------------------------------------------
  // Descent
  // ---------------------------------------------------------------------

  /** A path of records down from `root`, each child of the one before. */
  predicate Chain(sessions: seq<Session>, root: nat, path: seq<nat>) {
    && path != []
    && Records(sessions, path)
    && sessions[path[0]].parent == Some(root)
    && forall i :: 1 <= i < |path| ==> sessions[path[i]].parent == Some(sessions[path[i - 1]].id)
  }

  ghost predicate Descendant(sessions: seq<Session>, root: nat, id: nat) {
    exists path :: Chain(sessions, root, path) && sessions[path[|path| - 1]].id == id
  }

  ghost predicate Within(sessions: seq<Session>, root: nat, parent: Option<nat>) {
    parent.Some? && (parent.value == root || Descendant(sessions, root, parent.value))
  }

  lemma DescendFrom(sessions: seq<Session>, root: nat, r: nat)
    requires r < |sessions| && Within(sessions, root, sessions[r].parent)
    ensures Descendant(sessions, root, sessions[r].id)
  {
    var parent := sessions[r].parent.value;
    if parent == root {
      assert Chain(sessions, root, [r]);
    } else {
      var path :| Chain(sessions, root, path) && sessions[path[|path| - 1]].id == parent;
      var longer := path + [r];
      assert Chain(sessions, root, longer) && sessions[longer[|longer| - 1]].id == sessions[r].id;
    }
  }

  /** Two records below the root share an id, or the root is its own descendant. */
  ghost predicate Tangled(sessions: seq<Session>, root: nat) {
    || Descendant(sessions, root, root)
    || exists q, r :: 0 <= q < r < |sessions| && Clash(sessions, root, q, r)
  }

  ghost predicate Clash(sessions: seq<Session>, root: nat, q: nat, r: nat)
    requires q < |sessions| && r < |sessions|
  {
    && sessions[q].id == sessions[r].id
    && Within(sessions, root, sessions[q].parent)
    && Within(sessions, root, sessions[r].parent)
  }

  predicate UniqueIds(sessions: seq<Session>) {
    forall q, r :: 0 <= q < r < |sessions| ==> sessions[q].id != sessions[r].id
  }

  /** With unique ids only the root's own ancestor cycle is in the way. */
  lemma UniqueTangle(sessions: seq<Session>, root: nat)
    requires UniqueIds(sessions)
    ensures Tangled(sessions, root) <==> Descendant(sessions, root, root)
  {
  }

  predicate ParentsFirst(sessions: seq<Session>, root: nat, out: seq<nat>) {
    forall r, i | 0 <= r < |sessions| && 0 <= i < |out| && sessions[r].id == out[i] && sessions[r].parent.Some? ::
      sessions[r].parent.value == root || sessions[r].parent.value !in out[i..]
  }

  // ---------------------------------------------------------------------
  // Depth-first order
  // ---------------------------------------------------------------------

  /** `out` lists the agenda depth first: a record's id, then its children, then the rest. */
  predicate Walk(sessions: seq<Session>, agenda: seq<nat>, out: seq<nat>)
    decreases |out|
  {
    if agenda == [] then out == []
    else
      && out != []
      && agenda[0] < |sessions|
      && out[0] == sessions[agenda[0]].id
      && Walk(sessions, Kids(sessions, out[0]) + agenda[1..], out[1..])
  }

  lemma {:induction false} WalkUnique(sessions: seq<Session>, agenda: seq<nat>, x: seq<nat>, y: seq<nat>)
    requires Walk(sessions, agenda, x) && Walk(sessions, agenda, y)
    ensures x == y
    decreases |x|
  {
    if agenda != [] {
      WalkUnique(sessions, Kids(sessions, x[0]) + agenda[1..], x[1..], y[1..]);
      assert x == [x[0]] + x[1..] && y == [y[0]] + y[1..];
    }
  }

  lemma WalkStep(sessions: seq<Session>, agenda: seq<nat>, out: seq<nat>)
    requires agenda != []
    ensures Walk(sessions, agenda, out) <==>
              && out != []
              && agenda[0] < |sessions|
              && out[0] == sessions[agenda[0]].id
              && Walk(sessions, Kids(sessions, out[0]) + agenda[1..], out[1..])
  {
  }

  /** Walking two lists one after the other: everything below the first comes before the second. */
  lemma {:induction false} WalkSplits(sessions: seq<Session>, first: seq<nat>, second: seq<nat>, out: seq<nat>) returns (k: nat)
    requires Walk(sessions, first + second, out)
    ensures k <= |out| && Walk(sessions, first, out[..k]) && Walk(sessions, second, out[k..])
    decreases |out|
  {
    hide Walk, Kids;
    if first == [] {
      assert first + second == second && out[0..] == out;
      k := 0;
      WalkNone(sessions, out[..k]);
    } else {
      WalkStep(sessions, first + second, out);
      var kids := Kids(sessions, out[0]);
      var j := WalkSplits(sessions, kids + first[1..], second, out[1..]) by {
        Regroup(kids, first, second);
      }
      k := j + 1;
      Suffix(out, j);
      WalkStep(sessions, first, out[..k]);
    }
  }

  lemma WalkNone(sessions: seq<Session>, out: seq<nat>)
    ensures Walk(sessions, [], out) <==> out == []
  {
  }

  lemma Regroup(kids: seq<nat>, first: seq<nat>, second: seq<nat>)
    requires first != []
    ensures kids + (first + second)[1..] == (kids + first[1..]) + second
  {
    assert (first + second)[1..] == first[1..] + second;
  }

  lemma Suffix(out: seq<nat>, j: nat)
    requires j < |out|
    ensures out[..j + 1][1..] == out[1..][..j] && out[1..][j..] == out[j + 1..]
  {
  }

  // ---------------------------------------------------------------------
  // The walk
  // ---------------------------------------------------------------------

  function Reversed(s: seq<nat>): (r: seq<nat>)
    ensures |r| == |s|
  {
    if s == [] then [] else Reversed(s[1..]) + [s[0]]
  }

  lemma {:induction false} ReversedConcat(a: seq<nat>, b: seq<nat>)
    ensures Reversed(a + b) == Reversed(b) + Reversed(a)
  {
    if a == [] {
      assert a + b == b;
    } else {
      ReversedConcat(a[1..], b);
      assert (a + b)[1..] == a[1..] + b;
    }
  }

  lemma ReversedOne(x: nat)
    ensures Reversed([x]) == [x]
  {
    assert [x][1..] == [];
  }

  lemma {:induction false} ReversedTwice(s: seq<nat>)
    ensures Reversed(Reversed(s)) == s
  {
    if s != [] {
      ReversedTwice(s[1..]);
      ReversedConcat(Reversed(s[1..]), [s[0]]);
      assert Reversed([s[0]]) == [s[0]];
    }
  }

  method FileChildren(sessions: seq<Session>) returns (children: map<nat, seq<nat>>)
    ensures forall p :: p in children ==> children[p] == Filed(sessions, p, |sessions|)
    ensures forall p: nat :: p !in children ==> Filed(sessions, p, |sessions|) == []
  {
    children := map[];
    for i := 0 to |sessions|
      invariant forall p :: p in children ==> children[p] == Filed(sessions, p, i)
      invariant forall p: nat :: p !in children ==> Filed(sessions, p, i) == []
    {
      var parent := sessions[i].parent;
      if parent.Some? {
        var list := if parent.value in children then children[parent.value] else [];
        children := children[parent.value := list + [i]];
      }
    }
  }

  method SortChildren(sessions: seq<Session>, filed: map<nat, seq<nat>>) returns (children: map<nat, seq<nat>>)
    requires forall p :: p in filed ==> filed[p] == Filed(sessions, p, |sessions|)
    requires forall p: nat :: p !in filed ==> Filed(sessions, p, |sessions|) == []
    ensures forall p :: p in children ==> children[p] == Kids(sessions, p)
    ensures forall p: nat :: p !in children ==> Kids(sessions, p) == []
  {
    children := filed;
    var rest := filed.Keys;
    while rest != {}
      invariant children.Keys == filed.Keys && rest <= filed.Keys
      invariant forall p :: p in rest ==> children[p] == filed[p]
      invariant forall p :: p in children && p !in rest ==> children[p] == Kids(sessions, p)
      decreases |rest|
    {
      var p :| p in rest;
      children := children[p := Sorted(sessions, children[p])];
      rest := rest - {p};
    }
  }

  predicate Under(root: nat, out: seq<nat>, parent: Option<nat>) {
    parent.Some? && (parent.value == root || parent.value in out)
  }

  /** The records popped so far and those still on the agenda are exactly the children of what was listed. */
  ghost predicate Balanced(sessions: seq<Session>, root: nat, agenda: seq<nat>, popped: seq<nat>, out: seq<nat>) {
    && Records(sessions, popped + agenda)
    && Distinct(popped + agenda)
    && forall r :: 0 <= r < |sessions| ==> (Under(root, out, sessions[r].parent) <==> r in popped + agenda)
  }

  /** The popped records carry the listed ids, each after its parent. */
  ghost predicate Listed(sessions: seq<Session>, root: nat, popped: seq<nat>, out: seq<nat>) {
    && |popped| == |out|
    && Records(sessions, popped)
    && Distinct(out)
    && root !in out
    && (forall i :: 0 <= i < |out| ==> out[i] == sessions[popped[i]].id)
    && (forall i :: 0 <= i < |out| ==> Under(root, out[..i], sessions[popped[i]].parent))
  }

  lemma {:induction false} ListedDescend(sessions: seq<Session>, root: nat, popped: seq<nat>, out: seq<nat>, i: nat)
    requires Listed(sessions, root, popped, out) && i < |out|
    ensures Descendant(sessions, root, out[i])
    decreases i
  {
    var parent := sessions[popped[i]].parent;
    assert Under(root, out[..i], parent);
    if parent.value != root {
      var j :| 0 <= j < i && out[j] == parent.value;
      ListedDescend(sessions, root, popped, out, j);
    }
    DescendFrom(sessions, root, popped[i]);
  }

  lemma UnderWithin(sessions: seq<Session>, root: nat, popped: seq<nat>, out: seq<nat>, parent: Option<nat>)
    requires Listed(sessions, root, popped, out) && Under(root, out, parent)
    ensures Within(sessions, root, parent)
  {
    if parent.value != root {
      var i :| 0 <= i < |out| && out[i] == parent.value;
      ListedDescend(sessions, root, popped, out, i);
    }
  }

  lemma StepListed(sessions: seq<Session>, root: nat, agenda: seq<nat>, popped: seq<nat>, out: seq<nat>)
    requires agenda != [] && Balanced(sessions, root, agenda, popped, out) && Listed(sessions, root, popped, out)
    requires agenda[0] < |sessions| && sessions[agenda[0]].id !in [root] + out
    ensures Listed(sessions, root, popped + [agenda[0]], out + [sessions[agenda[0]].id])
  {
    var r := agenda[0];
    var id := sessions[r].id;
    assert r in popped + agenda by {
      assert (popped + agenda)[|popped|] == r;
    }
    assert Under(root, out, sessions[r].parent);
    var out', popped' := out + [id], popped + [r];
    assert out'[..|out|] == out;
    forall i | 0 <= i < |out'|
      ensures out'[i] == sessions[popped'[i]].id && Under(root, out'[..i], sessions[popped'[i]].parent)
    {
      if i < |out| {
        assert out'[..i] == out[..i];
      }
    }
    assert id != root && id !in out by {
      assert id in [root] + out <==> id == root || id in out;
    }
  }

  lemma StepBalanced(sessions: seq<Session>, root: nat, agenda: seq<nat>, popped: seq<nat>, out: seq<nat>)
    requires agenda != [] && Balanced(sessions, root, agenda, popped, out)
    requires agenda[0] < |sessions| && sessions[agenda[0]].id !in [root] + out
    ensures var id := sessions[agenda[0]].id;
            Balanced(sessions, root, Kids(sessions, id) + agenda[1..], popped + [agenda[0]], out + [id])
  {
    hide Kids;
    var id := sessions[agenda[0]].id;
    var kids := Kids(sessions, id);
    KidsFacts(sessions, id);
    assert id != root && id !in out by {
      assert id in [root] + out <==> id == root || id in out;
    }
    var old' := popped + agenda;
    var new' := popped + [agenda[0]] + (kids + agenda[1..]);
    assert popped + [agenda[0]] + agenda[1..] == old' by {
      assert agenda == [agenda[0]] + agenda[1..];
    }
    KidsApart(sessions, root, out, old', kids, id);
    DistinctInsert(popped + [agenda[0]], kids, agenda[1..]);
    forall r | 0 <= r < |sessions|
      ensures Under(root, out + [id], sessions[r].parent) <==> r in new'
    {
      assert r in new' <==> r in kids || r in old';
      assert r in kids <==> sessions[r].parent == Some(id);
      assert Under(root, out + [id], sessions[r].parent) <==> Under(root, out, sessions[r].parent) || sessions[r].parent == Some(id);
    }
    forall i | 0 <= i < |new'|
      ensures new'[i] < |sessions|
    {
      assert new'[i] in kids || new'[i] in old';
    }
  }

  lemma KidsApart(sessions: seq<Session>, root: nat, out: seq<nat>, old': seq<nat>, kids: seq<nat>, id: nat)
    requires Records(sessions, old') && Records(sessions, kids) && id != root && id !in out
    requires forall r :: 0 <= r < |sessions| ==> (Under(root, out, sessions[r].parent) <==> r in old')
    requires forall r :: r in kids ==> 0 <= r < |sessions| && sessions[r].parent == Some(id)
    ensures forall r :: r in kids ==> r !in old'
  {
  }

  lemma DistinctInsert(a: seq<nat>, kids: seq<nat>, b: seq<nat>)
    requires Distinct(a + b) && Distinct(kids) && forall r :: r in kids ==> r !in a + b
    ensures Distinct(a + (kids + b))
  {
    var all, n := a + (kids + b), |a| + |kids|;
    forall i, j | 0 <= i < j < |all|
      ensures all[i] != all[j]
    {
      var x := if i < |a| then (a + b)[i] else if i < n then kids[i - |a|] else (a + b)[i - |kids|];
      var y := if j < |a| then (a + b)[j] else if j < n then kids[j - |a|] else (a + b)[j - |kids|];
      assert all[i] == x && all[j] == y;
      if |a| <= i < n {
        assert x in kids;
      }
      if |a| <= j < n {
        assert y in kids;
      }
    }
  }

  lemma StartBalanced(sessions: seq<Session>, root: nat)
    ensures Balanced(sessions, root, Kids(sessions, root), [], [])
    ensures Listed(sessions, root, [], [])
  {
    hide Kids;
    KidsFacts(sessions, root);
    assert [] + Kids(sessions, root) == Kids(sessions, root);
  }

  lemma {:induction false} Pigeonhole(list: seq<nat>, n: nat)
    requires Distinct(list) && forall i :: 0 <= i < |list| ==> list[i] < n
    ensures |list| <= n
    decreases n
  {
    if |list| > 0 {
      assert list[0] < n;
      if n - 1 in list {
        var k :| 0 <= k < |list| && list[k] == n - 1;
        var rest := list[..k] + list[k + 1..];
        assert forall i :: 0 <= i < |rest| ==> rest[i] == list[if i < k then i else i + 1];
        Pigeonhole(rest, n - 1);
      } else {
        assert forall i :: 0 <= i < |list| ==> list[i] in list;
        Pigeonhole(list, n - 1);
      }
    }
  }

  /** A record whose id was listed before, or is the root's, tangles the tree. */
  lemma RepeatTangles(sessions: seq<Session>, root: nat, agenda: seq<nat>, popped: seq<nat>, out: seq<nat>)
    requires agenda != [] && Balanced(sessions, root, agenda, popped, out) && Listed(sessions, root, popped, out)
    requires agenda[0] < |sessions| && sessions[agenda[0]].id in [root] + out
    ensures Tangled(sessions, root)
  {
    var r := agenda[0];
    assert (popped + agenda)[|popped|] == r;
    UnderWithin(sessions, root, popped, out, sessions[r].parent);
    if sessions[r].id == root {
      DescendFrom(sessions, root, r);
    } else {
      assert sessions[r].id in out;
      var i :| 0 <= i < |out| && out[i] == sessions[r].id;
      var q := popped[i];
      assert (popped + agenda)[i] == q;
      UnderWithin(sessions, root, popped, out, sessions[q].parent);
      assert Clash(sessions, root, q, r) && Clash(sessions, root, r, q);
      assert q < r || r < q;
    }
  }

  lemma {:induction false} ChainListed(sessions: seq<Session>, root: nat, popped: seq<nat>, out: seq<nat>, path: seq<nat>, i: nat)
    requires Balanced(sessions, root, [], popped, out) && Listed(sessions, root, popped, out)
    requires Chain(sessions, root, path) && i < |path|
    ensures sessions[path[i]].id in out
    decreases i
  {
    if i > 0 {
      ChainListed(sessions, root, popped, out, path, i - 1);
    }
    assert Under(root, out, sessions[path[i]].parent);
    assert popped + [] == popped;
    var k :| 0 <= k < |popped| && popped[k] == path[i];
    assert out[k] == sessions[path[i]].id;
  }

  lemma FinishedLists(sessions: seq<Session>, root: nat, popped: seq<nat>, out: seq<nat>, id: nat)
    requires Balanced(sessions, root, [], popped, out) && Listed(sessions, root, popped, out)
    ensures Descendant(sessions, root, id) <==> id in out
  {
    if Descendant(sessions, root, id) {
      var path :| Chain(sessions, root, path) && sessions[path[|path| - 1]].id == id;
      ChainListed(sessions, root, popped, out, path, |path| - 1);
    }
    if id in out {
      var i :| 0 <= i < |out| && out[i] == id;
      ListedDescend(sessions, root, popped, out, i);
    }
  }

  /** Where a record under the listed ids was popped. */
  lemma PoppedAt(sessions: seq<Session>, root: nat, popped: seq<nat>, out: seq<nat>, r: nat) returns (k: nat)
    requires Balanced(sessions, root, [], popped, out) && Listed(sessions, root, popped, out)
    requires r < |sessions| && Under(root, out, sessions[r].parent)
    ensures k < |popped| && popped[k] == r && out[k] == sessions[r].id
  {
    assert popped + [] == popped;
    k :| 0 <= k < |popped| && popped[k] == r;
  }

  lemma FinishedUntangled(sessions: seq<Session>, root: nat, popped: seq<nat>, out: seq<nat>)
    requires Balanced(sessions, root, [], popped, out) && Listed(sessions, root, popped, out)
    ensures !Tangled(sessions, root)
  {
    FinishedLists(sessions, root, popped, out, root);
    if q, r :| 0 <= q < r < |sessions| && Clash(sessions, root, q, r) {
      FinishedLists(sessions, root, popped, out, sessions[q].parent.value);
      FinishedLists(sessions, root, popped, out, sessions[r].parent.value);
      var i := PoppedAt(sessions, root, popped, out, q);
      var j := PoppedAt(sessions, root, popped, out, r);
      assert false;
    }
  }

  lemma FinishedOrder(sessions: seq<Session>, root: nat, popped: seq<nat>, out: seq<nat>)
    requires Balanced(sessions, root, [], popped, out) && Listed(sessions, root, popped, out)
    ensures ParentsFirst(sessions, root, out)
  {
    forall r, i | 0 <= r < |sessions| && 0 <= i < |out| && sessions[r].id == out[i] && sessions[r].parent.Some?
      ensures sessions[r].parent.value == root || sessions[r].parent.value !in out[i..]
    {
      var parent := sessions[r].parent.value;
      if parent != root && parent in out {
        var k := PoppedAt(sessions, root, popped, out, r);
        assert k == i;
        assert Under(root, out[..i], sessions[popped[i]].parent);
        var h :| 0 <= h < i && out[h] == parent;
        assert forall j :: i <= j < |out| ==> out[j] != out[h];
      }
    }
  }

  /** What a finished export guarantees. */
  ghost predicate Exported(sessions: seq<Session>, root: nat, out: seq<nat>) {
    && Distinct(out)
    && (forall id :: id in out <==> Descendant(sessions, root, id))
    && ParentsFirst(sessions, root, out)
    && Walk(sessions, Kids(sessions, root), out)
  }

  ghost predicate Continues(sessions: seq<Session>, root: nat, agenda: seq<nat>, out: seq<nat>) {
    forall rest :: Walk(sessions, agenda, rest) ==> Walk(sessions, Kids(sessions, root), out + rest)
  }

  lemma StepContinues(sessions: seq<Session>, root: nat, agenda: seq<nat>, out: seq<nat>)
    requires agenda != [] && agenda[0] < |sessions| && Continues(sessions, root, agenda, out)
    ensures var id := sessions[agenda[0]].id;
            Continues(sessions, root, Kids(sessions, id) + agenda[1..], out + [id])
  {
    hide Walk, Kids;
    var id := sessions[agenda[0]].id;
    forall rest | Walk(sessions, Kids(sessions, id) + agenda[1..], rest)
      ensures Walk(sessions, Kids(sessions, root), out + [id] + rest)
    {
      assert ([id] + rest)[1..] == rest;
      WalkStep(sessions, agenda, [id] + rest);
      assert out + [id] + rest == out + ([id] + rest);
    }
  }

  ghost predicate Progress(sessions: seq<Session>, root: nat, agenda: seq<nat>, popped: seq<nat>, out: seq<nat>) {
    && Balanced(sessions, root, agenda, popped, out)
    && Listed(sessions, root, popped, out)
    && Continues(sessions, root, agenda, out)
  }

  lemma ProgressBound(sessions: seq<Session>, root: nat, agenda: seq<nat>, popped: seq<nat>, out: seq<nat>)
    requires Progress(sessions, root, agenda, popped, out)
    ensures |out| == |popped| && |popped| + |agenda| <= |sessions| && Records(sessions, agenda)
  {
    hide Continues;
    Pigeonhole(popped + agenda, |sessions|);
    assert forall i :: 0 <= i < |agenda| ==> agenda[i] == (popped + agenda)[|popped| + i];
  }

  lemma ProgressStep(sessions: seq<Session>, root: nat, agenda: seq<nat>, popped: seq<nat>, out: seq<nat>)
    requires agenda != [] && Progress(sessions, root, agenda, popped, out)
    requires agenda[0] < |sessions| && sessions[agenda[0]].id !in [root] + out
    ensures var id := sessions[agenda[0]].id;
            Progress(sessions, root, Kids(sessions, id) + agenda[1..], popped + [agenda[0]], out + [id])
  {
    hide Balanced, Listed, Continues, Kids;
    StepBalanced(sessions, root, agenda, popped, out);
    StepListed(sessions, root, agenda, popped, out);
    StepContinues(sessions, root, agenda, out);
  }

  lemma ProgressEnds(sessions: seq<Session>, root: nat, popped: seq<nat>, out: seq<nat>)
    requires Progress(sessions, root, [], popped, out)
    ensures Exported(sessions, root, out) && !Tangled(sessions, root)
  {
    hide Balanced, Descendant, ParentsFirst, Kids;
    forall id
      ensures id in out <==> Descendant(sessions, root, id)
    {
      FinishedLists(sessions, root, popped, out, id);
    }
    FinishedUntangled(sessions, root, popped, out);
    FinishedOrder(sessions, root, popped, out);
    assert Walk(sessions, [], []) && out + [] == out;
  }

  /** Terminates on every parent graph; succeeds exactly on lists within the limit whose part
      below the root is a tree, and then lists the proper descendants depth first. */
  method ExportDescendants(sessions: seq<Session>, root: nat) returns (result: Option<seq<nat>>)
    ensures result.Some? <==> |sessions| <= MAX_DIRECTORY_ENTRIES && !Tangled(sessions, root)
    ensures result.Some? ==> Exported(sessions, root, result.value)
  {
    hide Progress, Exported, Tangled, Kids, Reversed;
    if |sessions| > MAX_DIRECTORY_ENTRIES {
      return None;
    }
    var children := FileChildren(sessions);
    children := SortChildren(sessions, children);
    var seen := {root};
    var pending: seq<nat> := if root in children then Reversed(children[root]) else [];
    var descendants: seq<nat> := [];
    ghost var agenda: seq<nat>, popped: seq<nat> := Kids(sessions, root), [];
    ProgressStarts(sessions, root);
    PushKids([], agenda);
    while pending != []
      invariant Progress(sessions, root, agenda, popped, descendants)
      invariant pending == Reversed(agenda) && agenda == Reversed(pending)
      invariant seen == Seen(root, descendants)
      decreases |sessions| - |popped|
    {
      ProgressBound(sessions, root, agenda, popped, descendants);
      var record := pending[|pending| - 1];
      LastIsFirst(pending);
      pending := pending[..|pending| - 1];
      var id := sessions[record].id;
      if id in seen || |descendants| >= MAX_DIRECTORY_ENTRIES {
        RepeatFails(sessions, root, agenda, popped, descendants);
        return None;
      }
      ProgressStep(sessions, root, agenda, popped, descendants);
      seen := seen + {id};
      popped := popped + [record];
      descendants := descendants + [id];
      if id in children {
        pending := pending + Reversed(children[id]);
      }
      PushKids(agenda[1..], Kids(sessions, id));
      agenda := Kids(sessions, id) + agenda[1..];
    }
    ProgressEnds(sessions, root, popped, descendants);
    result := Some(descendants);
  }

  function Seen(root: nat, out: seq<nat>): set<nat> {
    {root} + set id | id in out
  }

  lemma ProgressStarts(sessions: seq<Session>, root: nat)
    ensures Progress(sessions, root, Kids(sessions, root), [], [])
  {
    hide Kids, Walk, Balanced, Listed;
    StartBalanced(sessions, root);
    assert forall rest: seq<nat> :: [] + rest == rest;
  }

  lemma LastIsFirst(pending: seq<nat>)
    requires pending != []
    ensures Reversed(pending) != [] && Reversed(pending)[0] == pending[|pending| - 1]
    ensures Reversed(pending)[1..] == Reversed(pending[..|pending| - 1])
    ensures Reversed(Reversed(pending)[1..]) == pending[..|pending| - 1]
  {
    hide Reversed;
    var front, last := pending[..|pending| - 1], pending[|pending| - 1];
    assert pending == front + [last];
    ReversedOne(last);
    ReversedConcat(front, [last]);
    ReversedTwice(front);
    assert ([last] + Reversed(front))[1..] == Reversed(front);
  }

  lemma PushKids(rest: seq<nat>, kids: seq<nat>)
    ensures Reversed(rest) + Reversed(kids) == Reversed(kids + rest)
    ensures Reversed(Reversed(kids + rest)) == kids + rest
    ensures kids == [] ==> Reversed(kids + rest) == Reversed(rest)
    ensures rest == [] ==> Reversed(kids + rest) == Reversed(kids) && kids + rest == kids
    ensures rest == kids == [] ==> Reversed(rest) == []
  {
    ReversedConcat(kids, rest);
    ReversedTwice(kids + rest);
    assert rest == [] ==> kids + rest == kids;
  }

  lemma RepeatFails(sessions: seq<Session>, root: nat, agenda: seq<nat>, popped: seq<nat>, out: seq<nat>)
    requires agenda != [] && Progress(sessions, root, agenda, popped, out) && agenda[0] < |sessions| <= MAX_DIRECTORY_ENTRIES
    requires sessions[agenda[0]].id in Seen(root, out) || |out| >= MAX_DIRECTORY_ENTRIES
    ensures Tangled(sessions, root)
  {
    hide Continues, Tangled;
    ProgressBound(sessions, root, agenda, popped, out);
    assert sessions[agenda[0]].id in [root] + out;
    RepeatTangles(sessions, root, agenda, popped, out);
  }
}
