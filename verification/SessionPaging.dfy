/** The paged session list: byte accounting against the exact response, and cursors that
    walk an unchanged list. SHA-256 is a parameter; a row is its serialized JSON text. */
module SessionPaging {
  import opened SessionCursor

  const MAX_FRAME_BYTES: nat := 64 * 1024
  const DEFAULT_SESSION_PAGE_ITEMS: nat := 100
  const MAX_SESSION_PAGE_ITEMS: nat := 500

  /** A quoted request id: at most 128 printable bytes, each escaped to at most two. */
  const MAX_QUOTED_ID_BYTES: nat := 258

  datatype Result<+T> = Ok(value: T) | Err(error: Error)

  datatype Error = BadLimit | Malformed | Stale | NoSession | TooLarge(id: string)

  datatype Session = Session(id: string, row: string)

  datatype Page = Page(items: seq<Session>, snapshot: string, next: Option<string>)

  type Sha = f: string -> seq<byte> | forall s :: |f(s)| == 32 witness s => seq(32, i => 0)

  /** What one host answers from: the process epoch and its current sessions. */
  datatype Listing = Listing(sha: Sha, epoch: string, sessions: seq<Session>)

  // ---------------------------------------------------------------------
  // The response text
  // ---------------------------------------------------------------------

  function Commas(items: seq<Session>): string {
    if items == [] then ""
    else if |items| == 1 then items[0].row
    else Commas(items[..|items| - 1]) + "," + items[|items| - 1].row
  }

  function PageText(page: Page): string {
    "{\"items\":[" + Commas(page.items) + "]"
    + (match page.next case None => "" case Some(cursor) => ",\"nextCursor\":\"" + cursor + "\"")
    + ",\"snapshot\":\"" + page.snapshot + "\"}"
  }

  function Response(rpc: string, page: Page): string {
    "{\"result\":{\"ok\":true,\"value\":" + PageText(page) + "},\"rpcId\":" + rpc + ",\"type\":\"server-response\"}"
  }

  function Snapshot(l: Listing): string {
    Hex(l.sha(l.epoch + "[" + Commas(l.sessions) + "]"))
  }

  function Digest(l: Listing, i: nat): string
    requires i < |l.sessions|
  {
    Hex(l.sha(l.sessions[i].id))
  }

  function CursorAt(l: Listing, i: nat): string
    requires i < |l.sessions|
  {
    Print(Cursor(Snapshot(l), i, Digest(l, i)))
  }

  function NextCursor(l: Listing, start: nat, end: nat): Option<string> {
    if start < end < |l.sessions| then Some(CursorAt(l, end - 1)) else None
  }

  function PageOf(l: Listing, start: nat, end: nat): Page
    requires start <= end <= |l.sessions|
  {
    Page(l.sessions[start..end], Snapshot(l), NextCursor(l, start, end))
  }

  function Size(l: Listing, rpc: string, start: nat, end: nat): nat
    requires start <= end <= |l.sessions|
  {
    |Response(rpc, PageOf(l, start, end))|
  }

  /** An empty page with a given cursor, as the accounting measures it. */
  function FixedSize(l: Listing, rpc: string, next: Option<string>): nat {
    |Response(rpc, Page([], Snapshot(l), next))|
  }

  /** The response is the fixed part plus the rows and one comma between any two. */
  lemma SizeSplits(rpc: string, items: seq<Session>, snapshot: string, next: Option<string>)
    ensures |Response(rpc, Page(items, snapshot, next))| == |Response(rpc, Page([], snapshot, next))| + |Commas(items)|
  {
  }

  lemma CommasMore(items: seq<Session>, x: Session)
    ensures |Commas(items + [x])| == |Commas(items)| + |x.row| + if items == [] then 0 else 1
  {
    assert (items + [x])[..|items|] == items;
  }

  // ---------------------------------------------------------------------
  // The list
  // ---------------------------------------------------------------------

  function StartOf(l: Listing, cursor: Option<string>): Result<nat> {
    match cursor
    case None => Ok(0)
    case Some(text) =>
      var parsed := Parse(text);
      if parsed.None? then Err(Malformed)
      else if parsed.value.snapshot != Snapshot(l) then Err(Stale)
      else if parsed.value.index >= |l.sessions| then Err(NoSession)
      else if parsed.value.last != Digest(l, parsed.value.index) then Err(NoSession)
      else Ok(parsed.value.index + 1)
  }

  /** The longest run of fitting pages from `start`, no further than `stop`. */
  function Greedy(l: Listing, rpc: string, start: nat, end: nat, stop: nat): (r: nat)
    requires start <= end <= stop <= |l.sessions|
    ensures end <= r <= stop
    decreases stop - end
  {
    if end < stop && Size(l, rpc, start, end + 1) <= MAX_FRAME_BYTES then Greedy(l, rpc, start, end + 1, stop) else end
  }

  function Stop(l: Listing, start: nat, limit: nat): nat {
    if start + limit < |l.sessions| then start + limit else |l.sessions|
  }

  function ListFrom(l: Listing, rpc: string, start: nat, limit: nat): Result<Page>
    requires start <= |l.sessions|
  {
    var stop := Stop(l, start, limit);
    var end := Greedy(l, rpc, start, start, stop);
    if end == start && start < stop then Err(TooLarge(l.sessions[start].id)) else Ok(PageOf(l, start, end))
  }

  lemma StartWithin(l: Listing, cursor: Option<string>)
    ensures StartOf(l, cursor).Ok? ==> StartOf(l, cursor).value <= |l.sessions|
  {
  }

  function List(l: Listing, limit: Option<nat>, cursor: Option<string>, rpc: string): Result<Page> {
    var n := if limit.Some? then limit.value else DEFAULT_SESSION_PAGE_ITEMS;
    if n == 0 || n > MAX_SESSION_PAGE_ITEMS then Err(BadLimit)
    else
      var start := StartOf(l, cursor);
      if start.Err? then Err(start.error)
      else
        StartWithin(l, cursor);
        ListFrom(l, rpc, start.value, n)
  }

  function SatAdd(a: nat, b: nat): nat {
    if a + b > USIZE_MAX then USIZE_MAX else a + b
  }

  /** The page loop: its saturating byte count is the size of the response it would send. */
  method FillPage(l: Listing, rpc: string, start: nat, stop: nat) returns (end: nat, failed: Option<string>)
    requires start <= stop <= |l.sessions|
    ensures start <= end <= stop
    ensures end == Greedy(l, rpc, start, start, stop)
    ensures failed == if end == start && start < stop then Some(l.sessions[start].id) else None
  {
    hide Response, PageText, Print, Hex, Commas;
    end := start;
    var itemBytes := 0;
    failed := None;
    EmptyCommas(l.sessions[start..start]);
    for index := start to stop
      invariant end == index
      invariant itemBytes == |Commas(l.sessions[start..end])|
      invariant itemBytes <= MAX_FRAME_BYTES
      invariant Greedy(l, rpc, start, start, stop) == Greedy(l, rpc, start, end, stop)
    {
      var session := l.sessions[index];
      var nextCursor := if index + 1 < |l.sessions| then Some(CursorAt(l, index)) else None;
      var fixedBytes := FixedSize(l, rpc, nextCursor);
      var rowBytes := |session.row|;
      var comma := if end > start then 1 else 0;
      var candidate := SatAdd(SatAdd(SatAdd(fixedBytes, itemBytes), rowBytes), comma);
      Accounting(l, rpc, start, index);
      if candidate > MAX_FRAME_BYTES {
        if end == start {
          failed := Some(session.id);
        }
        return;
      }
      itemBytes := SatAdd(SatAdd(itemBytes, rowBytes), comma);
      end := index + 1;
    }
  }

  lemma EmptyCommas(items: seq<Session>)
    requires items == []
    ensures |Commas(items)| == 0
  {
  }

  /** Extending a page by one row. */
  lemma Accounting(l: Listing, rpc: string, start: nat, index: nat)
    requires start <= index < |l.sessions|
    ensures var next := if index + 1 < |l.sessions| then Some(CursorAt(l, index)) else None;
            var comma := if index > start then 1 else 0;
            var items := l.sessions[start..index];
            && |Commas(l.sessions[start..index + 1])| == |Commas(items)| + |l.sessions[index].row| + comma
            && Size(l, rpc, start, index + 1) == FixedSize(l, rpc, next) + |Commas(items)| + |l.sessions[index].row| + comma
  {
    hide Response, PageText, Print, Hex, Commas;
    var items := l.sessions[start..index];
    assert l.sessions[start..index + 1] == items + [l.sessions[index]];
    CommasMore(items, l.sessions[index]);
    SizeSplits(rpc, l.sessions[start..index + 1], Snapshot(l), NextCursor(l, start, index + 1));
  }

  method SessionList(l: Listing, limit: Option<nat>, cursor: Option<string>, rpc: string) returns (r: Result<Page>)
    ensures r == List(l, limit, cursor, rpc)
  {
    hide Greedy, Parse, Print, Hex, Commas;
    var n := if limit.Some? then limit.value else DEFAULT_SESSION_PAGE_ITEMS;
    if n == 0 || n > MAX_SESSION_PAGE_ITEMS {
      return Err(BadLimit);
    }
    var start := StartOf(l, cursor);
    if start.Err? {
      return Err(start.error);
    }
    StartWithin(l, cursor);
    var stop := Stop(l, start.value, n);
    var end, failed := FillPage(l, rpc, start.value, stop);
    if failed.Some? {
      return Err(TooLarge(failed.value));
    }
    r := Ok(PageOf(l, start.value, end));
  }

  // ---------------------------------------------------------------------
  // Theorems
  // ---------------------------------------------------------------------

  lemma HexDigest(l: Listing, s: string)
    ensures IsDigest(Hex(l.sha(s)))
  {
    HexIsLower(l.sha(s));
  }

  /** A cursor is honoured exactly when it is the printed cursor of a session of this list. */
  lemma CursorHonoured(l: Listing, text: string, i: nat)
    requires |l.sessions| <= USIZE_MAX
    ensures StartOf(l, Some(text)) == Ok(i + 1) <==> i < |l.sessions| && text == CursorAt(l, i)
  {
    hide Parse, Print, Hex, Commas, IsDigest;
    HexDigest(l, l.epoch + "[" + Commas(l.sessions) + "]");
    if i < |l.sessions| {
      HexDigest(l, l.sessions[i].id);
      ParseExactly(text, Cursor(Snapshot(l), i, Digest(l, i)));
    }
  }

  /** Why a cursor text is refused: it is no cursor at all, it is of another snapshot, or it names no
      session of this list. */
  lemma CursorRefused(l: Listing, text: string)
    ensures var r, c := StartOf(l, Some(text)), Parse(text);
            && (r == Err(Malformed) <==> c.None?)
            && (r == Err(Stale) <==> c.Some? && c.value.snapshot != Snapshot(l))
            && (r == Err(NoSession) <==>
                  && c.Some? && c.value.snapshot == Snapshot(l)
                  && (c.value.index >= |l.sessions| || c.value.last != Digest(l, c.value.index)))
  {
    hide Parse, Hex, Commas;
  }

  /** Without a cursor the list starts at its first session, and without a limit a page has at most 100. */
  lemma Defaults(l: Listing, cursor: Option<string>, rpc: string)
    ensures StartOf(l, None) == Ok(0)
    ensures List(l, None, cursor, rpc) == List(l, Some(100), cursor, rpc)
    ensures List(l, Some(0), cursor, rpc) == Err(BadLimit) && List(l, Some(501), cursor, rpc) == Err(BadLimit)
  {
    hide ListFrom, Parse;
  }

  lemma {:induction false} GreedyFits(l: Listing, rpc: string, start: nat, end: nat, stop: nat)
    requires start <= end <= stop <= |l.sessions|
    requires start < end ==> Size(l, rpc, start, end) <= MAX_FRAME_BYTES
    ensures var r := Greedy(l, rpc, start, end, stop); start < r ==> Size(l, rpc, start, r) <= MAX_FRAME_BYTES
    decreases stop - end
  {
    hide Size;
    if end < stop && Size(l, rpc, start, end + 1) <= MAX_FRAME_BYTES {
      GreedyFits(l, rpc, start, end + 1, stop);
    }
  }

  lemma EmptySize(l: Listing, rpc: string, start: nat)
    requires start <= |l.sessions| && |rpc| <= MAX_QUOTED_ID_BYTES
    ensures Size(l, rpc, start, start) <= MAX_FRAME_BYTES
  {
    assert l.sessions[start..start] == [];
    assert |Snapshot(l)| == 64;
  }

  /** No page exceeds the frame limit, so none is replaced by the overflow error. */
  lemma PageFits(l: Listing, limit: Option<nat>, cursor: Option<string>, rpc: string)
    requires |rpc| <= MAX_QUOTED_ID_BYTES && List(l, limit, cursor, rpc).Ok?
    ensures |Response(rpc, List(l, limit, cursor, rpc).value)| <= MAX_FRAME_BYTES
  {
    hide Response, Greedy, Parse, Print, Hex, Commas;
    StartWithin(l, cursor);
    var start := StartOf(l, cursor).value;
    var n := if limit.Some? then limit.value else DEFAULT_SESSION_PAGE_ITEMS;
    GreedyFits(l, rpc, start, start, Stop(l, start, n));
    EmptySize(l, rpc, start);
  }

  lemma {:induction false} GreedyStops(l: Listing, rpc: string, start: nat, end: nat, stop: nat)
    requires start <= end <= stop <= |l.sessions|
    ensures var r := Greedy(l, rpc, start, end, stop);
            && (r < stop ==> Size(l, rpc, start, r + 1) > MAX_FRAME_BYTES)
            && forall i :: end < i <= r ==> Size(l, rpc, start, i) <= MAX_FRAME_BYTES
    decreases stop - end
  {
    hide Size;
    if end < stop && Size(l, rpc, start, end + 1) <= MAX_FRAME_BYTES {
      GreedyStops(l, rpc, start, end + 1, stop);
    }
  }

  /** A page holds the sessions from its start on, at most as many as the limit. It holds fewer
      only at the end of the list or when the next row does not fit, and every shorter page fits. */
  lemma PageIsFull(l: Listing, limit: Option<nat>, cursor: Option<string>, rpc: string) returns (start: nat, end: nat)
    requires List(l, limit, cursor, rpc).Ok?
    ensures StartOf(l, cursor) == Ok(start) && start <= end <= |l.sessions|
    ensures List(l, limit, cursor, rpc).value.items == l.sessions[start..end]
    ensures var n := if limit.Some? then limit.value else DEFAULT_SESSION_PAGE_ITEMS;
            && 0 < n <= MAX_SESSION_PAGE_ITEMS
            && end - start <= n
            && (end - start < n ==> end == |l.sessions| || Size(l, rpc, start, end + 1) > MAX_FRAME_BYTES)
    ensures forall i :: start < i <= end ==> Size(l, rpc, start, i) <= MAX_FRAME_BYTES
    ensures start < |l.sessions| ==> start < end
  {
    hide Greedy, Size, Parse, Print, Hex, Commas;
    StartWithin(l, cursor);
    start := StartOf(l, cursor).value;
    var n := if limit.Some? then limit.value else DEFAULT_SESSION_PAGE_ITEMS;
    end := Greedy(l, rpc, start, start, Stop(l, start, n));
    GreedyStops(l, rpc, start, start, Stop(l, start, n));
  }

  /** The errors: a bad limit, a bad cursor, and otherwise only a first row that does not fit alone. */
  lemma ListFails(l: Listing, limit: Option<nat>, cursor: Option<string>, rpc: string)
    ensures var n := if limit.Some? then limit.value else DEFAULT_SESSION_PAGE_ITEMS;
            var r := List(l, limit, cursor, rpc);
            if n == 0 || n > MAX_SESSION_PAGE_ITEMS then r == Err(BadLimit)
            else if StartOf(l, cursor).Err? then r == Err(StartOf(l, cursor).error)
            else
              var start := StartOf(l, cursor).value;
              && start <= |l.sessions|
              && (r.Err? <==> start < |l.sessions| && Size(l, rpc, start, start + 1) > MAX_FRAME_BYTES)
              && (r.Err? ==> r.error == TooLarge(l.sessions[start].id))
  {
    hide Greedy, Size, Parse, Print, Hex, Commas;
    StartWithin(l, cursor);
    if StartOf(l, cursor).Ok? {
      var start := StartOf(l, cursor).value;
      var n := if limit.Some? then limit.value else DEFAULT_SESSION_PAGE_ITEMS;
      GreedyStops(l, rpc, start, start, Stop(l, start, n));
    }
  }

  // ---------------------------------------------------------------------
  // Following cursors
  // ---------------------------------------------------------------------

  /** The limit and quoted id of one request. */
  datatype Ask = Ask(limit: Option<nat>, rpc: string)

  predicate ValidAsk(a: Ask) {
    a.limit.None? || 0 < a.limit.value <= MAX_SESSION_PAGE_ITEMS
  }

  function Remaining(l: Listing, cursor: Option<string>): nat {
    match StartOf(l, cursor)
    case Ok(start) => if start <= |l.sessions| then |l.sessions| - start else 0
    case Err(_) => 0
  }

  /** A page with a next cursor makes progress, and that cursor starts where the page ended. */
  lemma PageAdvances(l: Listing, a: Ask, cursor: Option<string>) returns (start: nat, end: nat)
    requires |l.sessions| <= USIZE_MAX && List(l, a.limit, cursor, a.rpc).Ok?
    ensures StartOf(l, cursor) == Ok(start) && start <= end <= |l.sessions|
    ensures var page := List(l, a.limit, cursor, a.rpc).value;
            && page == PageOf(l, start, end)
            && (page.next.None? <==> end == |l.sessions|)
            && (page.next.Some? ==> start < end && StartOf(l, page.next) == Ok(end))
  {
    hide Parse, Print, Hex, Commas, Size;
    StartWithin(l, cursor);
    start := StartOf(l, cursor).value;
    var n := if a.limit.Some? then a.limit.value else DEFAULT_SESSION_PAGE_ITEMS;
    end := Greedy(l, a.rpc, start, start, Stop(l, start, n));
    if start < end < |l.sessions| {
      CursorHonoured(l, CursorAt(l, end - 1), end - 1);
    }
  }

  lemma CursorProgress(l: Listing, a: Ask, cursor: Option<string>)
    requires |l.sessions| <= USIZE_MAX && List(l, a.limit, cursor, a.rpc).Ok?
    requires List(l, a.limit, cursor, a.rpc).value.next.Some?
    ensures Remaining(l, List(l, a.limit, cursor, a.rpc).value.next) < Remaining(l, cursor)
  {
    hide List, StartOf, CursorAt;
    var start, end := PageAdvances(l, a, cursor);
  }

  /** Every page from `cursor` on, request after request, on an unchanged list. */
  function Follow(l: Listing, asks: nat -> Ask, k: nat, cursor: Option<string>): Result<seq<Session>>
    requires |l.sessions| <= USIZE_MAX
    decreases Remaining(l, cursor)
  {
    var page := List(l, asks(k).limit, cursor, asks(k).rpc);
    if page.Err? then Err(page.error)
    else if page.value.next.None? then Ok(page.value.items)
    else
      CursorProgress(l, asks(k), cursor);
      var rest := Follow(l, asks, k + 1, page.value.next);
      if rest.Err? then rest else Ok(page.value.items + rest.value)
  }

  predicate RowFits(l: Listing, rpc: string, i: nat)
    requires i < |l.sessions|
  {
    Size(l, rpc, i, i + 1) <= MAX_FRAME_BYTES
  }

  /** The row at `i` does not fit into the answer to request `k` even alone. */
  ghost predicate Blocks(l: Listing, asks: nat -> Ask, i: nat, k: nat) {
    i < |l.sessions| && !RowFits(l, asks(k).rpc, i)
  }

  lemma ErrorBlocks(l: Listing, asks: nat -> Ask, k: nat, cursor: Option<string>, start: nat)
    requires StartOf(l, cursor) == Ok(start) && ValidAsk(asks(k)) && List(l, asks(k).limit, cursor, asks(k).rpc).Err?
    ensures Blocks(l, asks, start, k)
    ensures List(l, asks(k).limit, cursor, asks(k).rpc).error == TooLarge(l.sessions[start].id)
  {
    hide StartOf, Size;
    StartWithin(l, cursor);
  }

  lemma {:induction false} FollowCollects(l: Listing, asks: nat -> Ask, k: nat, cursor: Option<string>, start: nat)
    requires |l.sessions| <= USIZE_MAX && StartOf(l, cursor) == Ok(start)
    requires forall j: nat :: ValidAsk(asks(j))
    ensures start <= |l.sessions|
    ensures match Follow(l, asks, k, cursor)
            case Ok(items) => items == l.sessions[start..]
            case Err(e) => exists i: nat, j: nat :: Blocks(l, asks, i, j) && e == TooLarge(l.sessions[i].id)
    decreases Remaining(l, cursor)
  {
    hide StartOf, List, RowFits, CursorAt, ValidAsk;
    StartWithin(l, cursor);
    var page := List(l, asks(k).limit, cursor, asks(k).rpc);
    if page.Err? {
      ErrorBlocks(l, asks, k, cursor, start);
      assert Blocks(l, asks, start, k) && page.error == TooLarge(l.sessions[start].id);
    } else {
      var from, end := PageAdvances(l, asks(k), cursor);
      if page.value.next.Some? {
        CursorProgress(l, asks(k), cursor);
        FollowCollects(l, asks, k + 1, page.value.next, end);
        assert l.sessions[start..end] + l.sessions[end..] == l.sessions[start..];
      } else {
        assert l.sessions[start..end] == l.sessions[start..];
      }
    }
  }

  /** Following cursors from the first page ends, and gives every session once and in order,
      unless a row is met that does not fit even alone. */
  lemma FollowAll(l: Listing, asks: nat -> Ask)
    requires |l.sessions| <= USIZE_MAX
    requires forall j: nat :: ValidAsk(asks(j))
    ensures match Follow(l, asks, 0, None)
            case Ok(items) => items == l.sessions
            case Err(e) => exists i: nat, j: nat :: Blocks(l, asks, i, j) && e == TooLarge(l.sessions[i].id)
    ensures (forall i: nat, j: nat :: !Blocks(l, asks, i, j)) ==> Follow(l, asks, 0, None) == Ok(l.sessions)
  {
    hide Follow, ValidAsk, Blocks;
    assert StartOf(l, None) == Ok(0);
    FollowCollects(l, asks, 0, None, 0);
    assert l.sessions[0..] == l.sessions;
  }
}
