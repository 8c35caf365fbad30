/** The event stream of one session: durable history first, then live notifications, stitched
    at `next`. The host appends, then relays each event and its projections in sequence
    order; the stream subscribes before it reads history. Everything else interleaves. */
module EventStitch {

  datatype Option<+T> = None | Some(value: T)

  /** `large` says that the serialized frame exceeds the limit. */
  datatype Event = Event(number: nat, data: int, large: bool)

  datatype Notice =
    | SessionEvent(event: Event)
    | Projection(number: nat, large: bool)
    | Plain(large: bool)             // a status or subagent notice of this session, sent without an id
    | Unrelated

  datatype Signal = Arrived(notice: Notice) | Lagged | Shutdown

  datatype Frame = EventFrame(event: Event) | ProjectionFrame(number: nat) | PlainFrame | ErrorFrame

  datatype Client = Client(next: nat, out: seq<Frame>, open: bool)

  // ---------------------------------------------------------------------
  // The stream
  // ---------------------------------------------------------------------

  function Emit(c: Client, frame: Frame, large: bool): (r: Client)
    ensures r.next == c.next && r.open == (c.open && !large)
  {
    if large then c.(out := c.out + [ErrorFrame], open := false) else c.(out := c.out + [frame])
  }

  function Replay(c: Client, e: Event): Client {
    if !c.open then c
    else Emit(c.(next := if c.next < e.number + 1 then e.number + 1 else c.next), EventFrame(e), e.large)
  }

  function Hear(c: Client, n: Notice): Client {
    match n
    case SessionEvent(e) => if e.number < c.next then c else Emit(c.(next := e.number + 1), EventFrame(e), e.large)
    case Projection(number, large) => Emit(c, ProjectionFrame(number), large)
    case Plain(large) => Emit(c, PlainFrame, large)
    case Unrelated => c
  }

  function Live(c: Client, signal: Signal): Client {
    if !c.open then c
    else match signal
      case Arrived(n) => Hear(c, n)
      case Lagged => c.(out := c.out + [ErrorFrame], open := false)
      case Shutdown => c.(open := false)
  }

  function ReplayAll(c: Client, history: seq<Event>): Client {
    if history == [] then c else Replay(ReplayAll(c, history[..|history| - 1]), history[|history| - 1])
  }

  function LiveAll(c: Client, signals: seq<Signal>): Client {
    if signals == [] then c else Live(LiveAll(c, signals[..|signals| - 1]), signals[|signals| - 1])
  }

  lemma {:induction false} ClosedStays(c: Client, history: seq<Event>, i: nat)
    requires i <= |history| && !ReplayAll(c, history[..i]).open
    ensures ReplayAll(c, history) == ReplayAll(c, history[..i])
  {
    if i < |history| {
      assert history[..|history| - 1][..i] == history[..i];
      ClosedStays(c, history[..|history| - 1], i);
    } else {
      assert history[..i] == history;
    }
  }

  lemma {:induction false} ClosedStaysLive(c: Client, signals: seq<Signal>, i: nat)
    requires i <= |signals| && !LiveAll(c, signals[..i]).open
    ensures LiveAll(c, signals) == LiveAll(c, signals[..i])
  {
    if i < |signals| {
      assert signals[..|signals| - 1][..i] == signals[..i];
      ClosedStaysLive(c, signals[..|signals| - 1], i);
    } else {
      assert signals[..i] == signals;
    }
  }

  /** The generator: every durable event, then one signal after the other until one ends it. */
  method SseEvents(from: nat, durable: seq<Event>, signals: seq<Signal>) returns (next: nat, out: seq<Frame>, open: bool)
    ensures Client(next, out, open) == LiveAll(ReplayAll(Client(from, [], true), durable), signals)
  {
    next, out, open := from, [], true;
    ghost var start := Client(from, [], true);
    for i := 0 to |durable|
      invariant open && Client(next, out, open) == ReplayAll(start, durable[..i])
    {
      assert durable[..i + 1][..i] == durable[..i];
      var event := durable[i];
      next := if next < event.number + 1 then event.number + 1 else next;
      if event.large {
        out := out + [ErrorFrame];
        open := false;
        ClosedStays(start, durable, i + 1);
        ClosedStaysLive(Client(next, out, open), signals, 0);
        return;
      }
      out := out + [EventFrame(event)];
    }
    assert durable[..|durable|] == durable;
    ghost var live := Client(next, out, open);
    for i := 0 to |signals|
      invariant open && Client(next, out, open) == LiveAll(live, signals[..i])
    {
      assert signals[..i + 1][..i] == signals[..i];
      ghost var before := Client(next, out, open);
      var frame, large := None, false;
      match signals[i] {
        case Shutdown =>
          open := false;
          ClosedStaysLive(live, signals, i + 1);
          return;
        case Lagged =>
          out := out + [ErrorFrame];
          open := false;
          ClosedStaysLive(live, signals, i + 1);
          return;
        case Arrived(SessionEvent(event)) =>
          if event.number >= next {
            next := event.number + 1;
            frame, large := Some(EventFrame(event)), event.large;
          }
        case Arrived(Projection(number, tooLarge)) => frame, large := Some(ProjectionFrame(number)), tooLarge;
        case Arrived(Plain(tooLarge)) => frame, large := Some(PlainFrame), tooLarge;
        case Arrived(Unrelated) =>
      }
      if frame.Some? {
        if large {
          out := out + [ErrorFrame];
          open := false;
          ClosedStaysLive(live, signals, i + 1);
          return;
        }
        out := out + [frame.value];
      }
    }
    assert signals[..|signals|] == signals;
  }

  // ---------------------------------------------------------------------
  // Host and stream together
  // ---------------------------------------------------------------------

  datatype Phase =
    | Before
    | Subscribed(cursor: nat)
    | Streaming(since: nat, cursor: nat, history: seq<Event>, replayed: nat, client: Client)

  /** `relayed` events of the log are on the channel; the cursor counts what the stream received,
      and `since` where it stood when the stream subscribed. */
  datatype System = System(log: seq<Event>, relayed: nat, channel: seq<Notice>, phase: Phase)

  datatype Action =
    | Append(data: int, large: bool)
    | Relay
    | RelayProjection(large: bool)
    | RelayOther(notice: Notice)
    | Subscribe
    | ReadHistory
    | ReplayNext
    | Receive
    | Cut(signal: Signal)

  const START := System([], 0, [], Before)

  /** The suffix of the log a reader asks for. */
  function Suffix(log: seq<Event>, from: nat): seq<Event> {
    if from <= |log| then log[from..] else []
  }

  function ClientStep(s: System, from: nat, action: Action): System {
    match action
    case Subscribe => if s.phase == Before then s.(phase := Subscribed(|s.channel|)) else s
    case ReadHistory =>
      if s.phase.Subscribed?
      then s.(phase := Streaming(s.phase.cursor, s.phase.cursor, Suffix(s.log, from), 0, Client(from, [], true)))
      else s
    case ReplayNext =>
      if s.phase.Streaming? && s.phase.replayed < |s.phase.history|
      then s.(phase := s.phase.(replayed := s.phase.replayed + 1, client := Replay(s.phase.client, s.phase.history[s.phase.replayed])))
      else s
    case Receive =>
      if s.phase.Streaming? && s.phase.replayed == |s.phase.history| && s.phase.cursor < |s.channel|
      then s.(phase := s.phase.(cursor := s.phase.cursor + 1, client := Live(s.phase.client, Arrived(s.channel[s.phase.cursor]))))
      else s
    case Cut(signal) =>
      if s.phase.Streaming? && s.phase.replayed == |s.phase.history| && !signal.Arrived?
      then s.(phase := s.phase.(client := Live(s.phase.client, signal)))
      else s
    case _ => s
  }

  function HostStep(s: System, action: Action): System {
    match action
    case Append(data, large) => s.(log := s.log + [Event(|s.log|, data, large)])
    case Relay =>
      if s.relayed < |s.log| then s.(channel := s.channel + [SessionEvent(s.log[s.relayed])], relayed := s.relayed + 1) else s
    case RelayProjection(large) => if s.relayed > 0 then s.(channel := s.channel + [Projection(s.relayed - 1, large)]) else s
    case RelayOther(n) => if n.Plain? || n.Unrelated? then s.(channel := s.channel + [n]) else s
    case _ => s
  }

  function Next(s: System, from: nat, action: Action): System {
    match action
    case Append(_, _) => HostStep(s, action)
    case Relay => HostStep(s, action)
    case RelayProjection(_) => HostStep(s, action)
    case RelayOther(_) => HostStep(s, action)
    case _ => ClientStep(s, from, action)
  }

  function Run(s: System, from: nat, actions: seq<Action>): System
    decreases |actions|
  {
    if actions == [] then s else Run(Next(s, from, actions[0]), from, actions[1..])
  }

  // ---------------------------------------------------------------------
  // What was emitted
  // ---------------------------------------------------------------------

  function EventsOut(out: seq<Frame>): seq<Event> {
    if out == [] then []
    else if out[|out| - 1].EventFrame? then EventsOut(out[..|out| - 1]) + [out[|out| - 1].event]
    else EventsOut(out[..|out| - 1])
  }

  /** The `id` field a browser remembers: events and projections carry one. */
  function LastId(out: seq<Frame>): Option<nat> {
    if out == [] then None
    else match out[|out| - 1]
      case EventFrame(e) => Some(e.number)
      case ProjectionFrame(number) => Some(number)
      case _ => LastId(out[..|out| - 1])
  }

  lemma OutAppend(out: seq<Frame>, f: Frame)
    ensures EventsOut(out + [f]) == if f.EventFrame? then EventsOut(out) + [f.event] else EventsOut(out)
    ensures LastId(out + [f]) ==
            if f.EventFrame? then Some(f.event.number) else if f.ProjectionFrame? then Some(f.number) else LastId(out)
  {
    assert (out + [f])[..|out|] == out;
  }

  /** How many events of the session stand on the channel. */
  function Heard(channel: seq<Notice>): nat {
    if channel == [] then 0
    else Heard(channel[..|channel| - 1]) + if channel[|channel| - 1].SessionEvent? then 1 else 0
  }

  lemma HeardAppend(channel: seq<Notice>, n: Notice)
    ensures Heard(channel + [n]) == Heard(channel) + if n.SessionEvent? then 1 else 0
  {
    assert (channel + [n])[..|channel|] == channel;
  }

  // ---------------------------------------------------------------------
  // Invariants
  // ---------------------------------------------------------------------

  predicate LogInv(log: seq<Event>) {
    forall i :: 0 <= i < |log| ==> log[i].number == i
  }

  /** What stands at position `k` of the channel. */
  predicate NoticeOk(log: seq<Event>, channel: seq<Notice>, k: nat)
    requires k < |channel|
  {
    match channel[k]
    case SessionEvent(e) => Heard(channel[..k]) < |log| && e == log[Heard(channel[..k])]
    case Projection(number, _) => number < Heard(channel[..k])
    case _ => true
  }

  predicate ChannelInv(log: seq<Event>, relayed: nat, channel: seq<Notice>) {
    && relayed == Heard(channel)
    && relayed <= |log|
    && forall k :: 0 <= k < |channel| ==> NoticeOk(log, channel, k)
  }

  function Between(log: seq<Event>, from: nat, to: nat): seq<Event> {
    if from < to <= |log| then log[from..to] else []
  }

  /** The stream so far: nothing but the log from `from` on, up to `next` while it is open. */
  ghost predicate StreamInv(log: seq<Event>, from: nat, c: Client) {
    && from <= c.next
    && (from < c.next ==> c.next <= |log|)
    && EventsOut(c.out) <= Suffix(log, from)
    && (c.open ==> EventsOut(c.out) == Between(log, from, c.next))
    && (LastId(c.out).Some? ==> LastId(c.out).value < from + |EventsOut(c.out)|)
  }

  ghost predicate PhaseInv(log: seq<Event>, channel: seq<Notice>, phase: Phase, from: nat) {
    match phase
    case Before => true
    case Subscribed(cursor) => cursor <= |channel|
    case Streaming(_, cursor, history, replayed, c) =>
      && cursor <= |channel|
      && replayed <= |history|
      && history == Between(log, from, from + |history|)
      && StreamInv(log, from, c)
      && (c.open && replayed < |history| ==> c.next == from + replayed && Heard(channel[..cursor]) <= from + |history|)
      && (c.open && replayed == |history| ==> Heard(channel[..cursor]) <= c.next)
  }

  ghost predicate Inv(s: System, from: nat) {
    && LogInv(s.log)
    && ChannelInv(s.log, s.relayed, s.channel)
    && PhaseInv(s.log, s.channel, s.phase, from)
  }

  lemma {:induction false} HeardPrefix(channel: seq<Notice>, k: nat)
    requires k <= |channel|
    ensures Heard(channel[..k]) <= Heard(channel)
  {
    if k < |channel| {
      HeardPrefix(channel[..|channel| - 1], k);
      assert channel[..|channel| - 1][..k] == channel[..k];
    } else {
      assert channel[..k] == channel;
    }
  }

  // The host's steps.

  lemma AppendKeeps(s: System, from: nat, e: Event)
    requires Inv(s, from) && e.number == |s.log|
    ensures Inv(s.(log := s.log + [e]), from)
  {
    hide EventsOut, LastId, Heard;
    var log := s.log + [e];
    forall k | 0 <= k < |s.channel|
      ensures NoticeOk(log, s.channel, k)
    {
      assert NoticeOk(s.log, s.channel, k);
    }
    if s.phase.Streaming? {
      var c := s.phase.client;
      assert Between(log, from, c.next) == Between(s.log, from, c.next);
      var to := from + |s.phase.history|;
      assert Between(log, from, to) == Between(s.log, from, to);
      assert Suffix(s.log, from) <= Suffix(log, from);
    }
  }

  lemma ChannelKeeps(s: System, from: nat, n: Notice, relayed: nat)
    requires Inv(s, from)
    requires relayed == s.relayed + if n.SessionEvent? then 1 else 0
    requires n.SessionEvent? ==> s.relayed < |s.log| && n.event == s.log[s.relayed]
    requires n.Projection? ==> n.number < s.relayed
    ensures Inv(s.(channel := s.channel + [n], relayed := relayed), from)
  {
    hide StreamInv, Between;
    var channel := s.channel + [n];
    HeardAppend(s.channel, n);
    hide Heard;
    forall k | 0 <= k < |channel|
      ensures NoticeOk(s.log, channel, k)
    {
      assert channel[..|s.channel|] == s.channel;
      if k < |s.channel| {
        assert NoticeOk(s.log, s.channel, k);
        assert channel[..k] == s.channel[..k];
      }
    }
    if !s.phase.Before? {
      assert channel[..s.phase.cursor] == s.channel[..s.phase.cursor];
    }
  }

  // The stream's steps.

  lemma SubscribeKeeps(s: System, from: nat)
    requires Inv(s, from)
    ensures Inv(Next(s, from, Subscribe), from)
  {
    hide Heard, StreamInv;
  }

  lemma ReadKeeps(s: System, from: nat)
    requires Inv(s, from) && s.phase.Subscribed?
    ensures Inv(Next(s, from, ReadHistory), from)
  {
    HeardPrefix(s.channel, s.phase.cursor);
    hide Heard;
    var history := Suffix(s.log, from);
    assert history == Between(s.log, from, from + |history|);
    assert StreamInv(s.log, from, Client(from, [], true));
  }

  /** Emitting the next event of the log extends the stream by exactly that event. */
  lemma EmitNext(log: seq<Event>, from: nat, c: Client, k: nat)
    requires LogInv(log) && StreamInv(log, from, c) && c.open && c.next == k < |log|
    ensures StreamInv(log, from, Emit(c.(next := k + 1), EventFrame(log[k]), log[k].large))
  {
    OutAppend(c.out, EventFrame(log[k]));
    OutAppend(c.out, ErrorFrame);
    hide EventsOut, LastId;
    assert Between(log, from, k) + [log[k]] == Between(log, from, k + 1);
    assert Between(log, from, k + 1) <= Suffix(log, from);
  }

  lemma ReplayKeeps(s: System, from: nat)
    requires Inv(s, from) && s.phase.Streaming? && s.phase.replayed < |s.phase.history|
    ensures Inv(Next(s, from, ReplayNext), from)
  {
    hide Heard, StreamInv, LogInv, ChannelInv;
    var c, i := s.phase.client, s.phase.replayed;
    if c.open {
      assert s.phase.history[i] == s.log[from + i] && from + i < |s.log|;
      assert s.log[from + i].number == from + i by { NumberedAt(s.log, from + i); }
      hide Between;
      EmitNext(s.log, from, c, from + i);
    }
  }

  lemma NumberedAt(log: seq<Event>, i: nat)
    requires LogInv(log) && i < |log|
    ensures log[i].number == i
  {
  }

  /** A frame without an event, or with an id that is not ahead of the events. */
  lemma EmitOther(log: seq<Event>, from: nat, c: Client, f: Frame, large: bool)
    requires StreamInv(log, from, c) && !f.EventFrame?
    requires f.ProjectionFrame? ==> f.number < from + |EventsOut(c.out)|
    ensures StreamInv(log, from, Emit(c, f, large))
    ensures EventsOut(Emit(c, f, large).out) == EventsOut(c.out)
  {
    OutAppend(c.out, f);
    OutAppend(c.out, ErrorFrame);
  }

  lemma OpenLength(log: seq<Event>, from: nat, c: Client)
    requires StreamInv(log, from, c) && c.open
    ensures c.next == from + |EventsOut(c.out)|
  {
  }

  lemma HearKeeps(log: seq<Event>, from: nat, c: Client, n: Notice, heard: nat)
    requires LogInv(log) && StreamInv(log, from, c) && c.open && heard <= c.next
    requires n.SessionEvent? ==> heard < |log| && n.event == log[heard]
    requires n.Projection? ==> n.number < heard
    ensures StreamInv(log, from, Hear(c, n))
    ensures Hear(c, n).next >= heard + if n.SessionEvent? then 1 else 0
  {
    hide StreamInv, Emit;
    OpenLength(log, from, c);
    match n
    case SessionEvent(e) =>
      if e.number >= c.next {
        EmitNext(log, from, c, heard);
      }
    case Projection(number, large) =>
      EmitOther(log, from, c, ProjectionFrame(number), large);
    case Plain(large) =>
      EmitOther(log, from, c, PlainFrame, large);
    case Unrelated =>
  }

  lemma ReceiveKeeps(s: System, from: nat)
    requires Inv(s, from) && s.phase.Streaming? && s.phase.replayed == |s.phase.history| && s.phase.cursor < |s.channel|
    ensures Inv(Next(s, from, Receive), from)
  {
    hide LogInv, ChannelInv, PhaseInv, NoticeOk, Live, HostStep;
    NoticeAt(s.log, s.relayed, s.channel, s.phase.cursor);
    ReceivePhase(s.log, s.channel, s.phase, from);
  }

  lemma NoticeAt(log: seq<Event>, relayed: nat, channel: seq<Notice>, k: nat)
    requires ChannelInv(log, relayed, channel) && k < |channel|
    ensures NoticeOk(log, channel, k)
  {
  }

  lemma ReceivePhase(log: seq<Event>, channel: seq<Notice>, phase: Phase, from: nat)
    requires LogInv(log) && PhaseInv(log, channel, phase, from)
    requires phase.Streaming? && phase.replayed == |phase.history| && phase.cursor < |channel|
    requires NoticeOk(log, channel, phase.cursor)
    ensures PhaseInv(log, channel,
                     phase.(cursor := phase.cursor + 1, client := Live(phase.client, Arrived(channel[phase.cursor]))), from)
  {
    var k, c := phase.cursor, phase.client;
    HeardAppend(channel[..k], channel[k]);
    assert channel[..k + 1] == channel[..k] + [channel[k]];
    hide Heard, StreamInv, Hear, LogInv, NoticeOk, Between;
    if c.open {
      HearNotice(log, channel, k, from, c);
    }
  }

  lemma HearNotice(log: seq<Event>, channel: seq<Notice>, k: nat, from: nat, c: Client)
    requires k < |channel| && NoticeOk(log, channel, k) && Heard(channel[..k]) <= c.next
    requires LogInv(log) && StreamInv(log, from, c) && c.open
    ensures StreamInv(log, from, Hear(c, channel[k]))
    ensures Hear(c, channel[k]).next >= Heard(channel[..k]) + if channel[k].SessionEvent? then 1 else 0
  {
    hide Heard, StreamInv, Hear, LogInv;
    HearKeeps(log, from, c, channel[k], Heard(channel[..k]));
  }

  lemma CutKeeps(s: System, from: nat, signal: Signal)
    requires Inv(s, from) && !signal.Arrived?
    ensures Inv(Next(s, from, Cut(signal)), from)
  {
    hide Heard;
    if s.phase.Streaming? {
      OutAppend(s.phase.client.out, ErrorFrame);
    }
  }

  lemma InvStep(s: System, from: nat, action: Action)
    requires Inv(s, from)
    ensures Inv(Next(s, from, action), from)
  {
    hide LogInv, ChannelInv, PhaseInv;
    match action
    case Append(data, large) => AppendKeeps(s, from, Event(|s.log|, data, large));
    case Relay => if s.relayed < |s.log| { ChannelKeeps(s, from, SessionEvent(s.log[s.relayed]), s.relayed + 1); }
    case RelayProjection(large) => if s.relayed > 0 { ChannelKeeps(s, from, Projection(s.relayed - 1, large), s.relayed); }
    case RelayOther(n) => if n.Plain? || n.Unrelated? { ChannelKeeps(s, from, n, s.relayed); }
    case Subscribe => SubscribeKeeps(s, from);
    case ReadHistory => if s.phase.Subscribed? { ReadKeeps(s, from); }
    case ReplayNext => if s.phase.Streaming? && s.phase.replayed < |s.phase.history| { ReplayKeeps(s, from); }
    case Receive =>
      if s.phase.Streaming? && s.phase.replayed == |s.phase.history| && s.phase.cursor < |s.channel| { ReceiveKeeps(s, from); }
    case Cut(signal) => if !signal.Arrived? { CutKeeps(s, from, signal); }
  }

  lemma {:induction false} InvRun(s: System, from: nat, actions: seq<Action>)
    requires Inv(s, from)
    ensures Inv(Run(s, from, actions), from)
    decreases |actions|
  {
    hide Inv, Next;
    if actions != [] {
      InvStep(s, from, actions[0]);
      InvRun(Next(s, from, actions[0]), from, actions[1..]);
    }
  }

  lemma StartInv(from: nat)
    ensures Inv(START, from)
  {
  }

  // ---------------------------------------------------------------------
  // Theorems
  // ---------------------------------------------------------------------

  /** In every run the emitted session events are a prefix of the log from `from` on, so
      they are strictly increasing without gap or repetition, even after the stream was cut. */
  lemma NoGapNoRepeat(from: nat, actions: seq<Action>)
    ensures var s := Run(START, from, actions);
            s.phase.Streaming? ==>
              && EventsOut(s.phase.client.out) <= Suffix(s.log, from)
              && forall i :: 0 <= i < |EventsOut(s.phase.client.out)| ==> EventsOut(s.phase.client.out)[i].number == from + i
  {
    hide Run, Next, EventsOut;
    StartInv(from);
    InvRun(START, from, actions);
  }

  /** An open stream that took everything a caught-up host relayed has emitted the whole suffix. */
  lemma NothingLost(from: nat, actions: seq<Action>)
    requires var s := Run(START, from, actions);
             && s.phase.Streaming?
             && s.phase.client.open
             && s.phase.replayed == |s.phase.history|
             && s.phase.cursor == |s.channel|
             && s.relayed == |s.log|
    ensures var s := Run(START, from, actions);
            EventsOut(s.phase.client.out) == Suffix(s.log, from)
  {
    hide Run, Next, EventsOut, Heard;
    StartInv(from);
    InvRun(START, from, actions);
    var s := Run(START, from, actions);
    assert s.channel[..s.phase.cursor] == s.channel;
  }

  // ---------------------------------------------------------------------
  // The whole output
  // ---------------------------------------------------------------------

  /** One frame for each event. */
  function Frames(events: seq<Event>): (frames: seq<Frame>)
    ensures |frames| == |events| && forall i :: 0 <= i < |events| ==> frames[i] == EventFrame(events[i])
  {
    seq(|events|, i requires 0 <= i < |events| => EventFrame(events[i]))
  }

  /** The frames owed for notices after a history that ends before event `first`: one for each
      event not in that history, each projection and each plain notice, in their order. */
  function Owed(notices: seq<Notice>, first: nat): seq<Frame> {
    if notices == [] then []
    else
      var n, frames := notices[|notices| - 1], Owed(notices[..|notices| - 1], first);
      match n
      case SessionEvent(e) => if e.number < first then frames else frames + [EventFrame(e)]
      case Projection(number, _) => frames + [ProjectionFrame(number)]
      case Plain(_) => frames + [PlainFrame]
      case Unrelated => frames
  }

  function Plains(notices: seq<Notice>): nat {
    if notices == [] then 0
    else Plains(notices[..|notices| - 1]) + if notices[|notices| - 1].Plain? then 1 else 0
  }

  function PlainsOut(out: seq<Frame>): nat {
    if out == [] then 0
    else PlainsOut(out[..|out| - 1]) + if out[|out| - 1] == PlainFrame then 1 else 0
  }

  function Output(channel: seq<Notice>, since: nat, cursor: nat, history: seq<Event>, replayed: nat, from: nat): seq<Frame>
    requires since <= cursor <= |channel| && replayed <= |history|
  {
    Frames(history[..replayed]) + Owed(channel[since..cursor], from + |history|)
  }

  ghost predicate OutputInv(channel: seq<Notice>, phase: Phase, from: nat) {
    match phase
    case Streaming(since, cursor, history, replayed, c) =>
      && since <= cursor <= |channel| && replayed <= |history|
      && (c.open ==>
            && c.out == Output(channel, since, cursor, history, replayed, from)
            && (replayed < |history| ==> cursor == since)
            && (replayed == |history| ==> c.next == Later(from + |history|, Heard(channel[..cursor]))))
      && (!c.open ==> CutShort(c.out, channel, since, cursor, history, replayed, from))
    case _ => true
  }

  function Later(a: nat, b: nat): nat { if a < b then b else a }

  /** What a stream emitted that was cut after `r` events of its history and the notices before `k`. */
  ghost predicate CutAt(
    out: seq<Frame>, channel: seq<Notice>, since: nat, k: nat, history: seq<Event>, r: nat, from: nat)
    requires since <= k <= |channel| && r <= |history|
  {
    && (r < |history| ==> k == since)
    && (|| out == Output(channel, since, k, history, r, from)
        || out == Output(channel, since, k, history, r, from) + [ErrorFrame])
  }

  ghost predicate CutShort(
    out: seq<Frame>, channel: seq<Notice>, since: nat, cursor: nat, history: seq<Event>, replayed: nat, from: nat)
    requires since <= cursor <= |channel| && replayed <= |history|
  {
    exists k, r :: since <= k <= cursor && 0 <= r <= replayed && CutAt(out, channel, since, k, history, r, from)
  }

  lemma OwedAppend(notices: seq<Notice>, n: Notice, first: nat)
    ensures Owed(notices + [n], first) == Owed(notices, first) + Owed([n], first)
  {
    assert (notices + [n])[..|notices|] == notices;
    assert [n][..0] == [];
  }

  lemma FramesAppend(events: seq<Event>, e: Event)
    ensures Frames(events + [e]) == Frames(events) + [EventFrame(e)]
  {
  }

  /** Notices that come later change nothing of what was owed. */
  lemma ChannelGrows(channel: seq<Notice>, n: Notice, phase: Phase, from: nat)
    requires OutputInv(channel, phase, from)
    ensures OutputInv(channel + [n], phase, from)
  {
    hide Owed, Heard, Frames;
    if phase.Streaming? {
      var more, since := channel + [n], phase.since;
      assert forall k :: since <= k <= |channel| ==> more[since..k] == channel[since..k];
      assert more[..phase.cursor] == channel[..phase.cursor];
      if !phase.client.open {
        var k, r :| since <= k <= phase.cursor && 0 <= r <= phase.replayed && CutAt(phase.client.out, channel, since, k, phase.history, r, from);
        assert CutAt(phase.client.out, more, since, k, phase.history, r, from);
      }
    }
  }

  /** Going on when the stream is already cut. */
  lemma StaysCut(
    out: seq<Frame>, channel: seq<Notice>, since: nat, cursor: nat, cursor': nat, history: seq<Event>, replayed: nat,
    replayed': nat, from: nat)
    requires since <= cursor <= cursor' <= |channel| && replayed <= replayed' <= |history|
    requires CutShort(out, channel, since, cursor, history, replayed, from)
    ensures CutShort(out, channel, since, cursor', history, replayed', from)
  {
    hide CutAt;
    var k, r :| since <= k <= cursor && 0 <= r <= replayed && CutAt(out, channel, since, k, history, r, from);
  }

  lemma ReadOutputs(s: System, from: nat)
    requires Inv(s, from) && s.phase.Subscribed?
    ensures OutputInv(s.channel, Next(s, from, ReadHistory).phase, from)
  {
    HeardPrefix(s.channel, s.phase.cursor);
    hide Heard, StreamInv, LogInv, NoticeOk;
    assert s.channel[s.phase.cursor..s.phase.cursor] == [];
    assert Suffix(s.log, from)[..0] == [];
  }

  lemma ReplayOutputs(s: System, from: nat)
    requires Inv(s, from) && OutputInv(s.channel, s.phase, from)
    requires s.phase.Streaming? && s.phase.replayed < |s.phase.history|
    ensures OutputInv(s.channel, Next(s, from, ReplayNext).phase, from)
  {
    hide Heard, StreamInv, LogInv, ChannelInv, Owed, Frames, CutAt;
    var Streaming(since, cursor, history, i, c) := s.phase;
    var e := history[i];
    if c.open {
      assert e == s.log[from + i] && from + i < |s.log|;
      NumberedAt(s.log, from + i);
      assert history[..i + 1] == history[..i] + [e];
      FramesAppend(history[..i], e);
      NothingOwed(s.channel, since, from + |history|);
      assert Output(s.channel, since, cursor, history, i + 1, from) == c.out + [EventFrame(e)];
      if e.large {
        CutThere(c.out, s.channel, since, cursor, history, i, from);
      }
    } else {
      StaysCut(c.out, s.channel, since, cursor, cursor, history, i, i + 1, from);
    }
  }

  lemma NothingOwed(channel: seq<Notice>, since: nat, first: nat)
    requires since <= |channel|
    ensures Owed(channel[since..since], first) == []
  {
  }

  lemma ReceiveOutputs(s: System, from: nat)
    requires Inv(s, from) && OutputInv(s.channel, s.phase, from)
    requires s.phase.Streaming? && s.phase.replayed == |s.phase.history| && s.phase.cursor < |s.channel|
    ensures OutputInv(s.channel, Next(s, from, Receive).phase, from)
  {
    hide Heard, StreamInv, LogInv, ChannelInv, Owed, Frames, CutAt, NoticeOk, Hear;
    var Streaming(since, k, history, replayed, c) := s.phase;
    var n, first := s.channel[k], from + |history|;
    if c.open {
      NoticeAt(s.log, s.relayed, s.channel, k);
      assert s.channel[..k + 1] == s.channel[..k] + [n];
      HeardAppend(s.channel[..k], n);
      assert s.channel[since..k + 1] == s.channel[since..k] + [n];
      OwedAppend(s.channel[since..k], n, first);
      HearOwes(s.log, s.channel, k, c, first);
      if !Hear(c, n).open {
        CutThere(c.out, s.channel, since, k, history, replayed, from);
      }
    } else {
      StaysCut(c.out, s.channel, since, k, k + 1, history, replayed, replayed, from);
    }
  }

  /** One notice: its owed frame is emitted, or the stream is cut with an error. */
  lemma HearOwes(log: seq<Event>, channel: seq<Notice>, k: nat, c: Client, first: nat)
    requires LogInv(log) && k < |channel| && NoticeOk(log, channel, k)
    requires c.open && c.next == Later(first, Heard(channel[..k]))
    ensures var after := Hear(c, channel[k]);
            if after.open then
              && after.out == c.out + Owed([channel[k]], first)
              && after.next == Later(first, Heard(channel[..k]) + if channel[k].SessionEvent? then 1 else 0)
            else after.out == c.out + [ErrorFrame]
  {
    hide Heard;
    assert [channel[k]][..0] == [];
  }

  lemma CutThere(out: seq<Frame>, channel: seq<Notice>, since: nat, k: nat, history: seq<Event>, r: nat, from: nat)
    requires since <= k <= |channel| && r <= |history| && (r < |history| ==> k == since)
    requires out == Output(channel, since, k, history, r, from)
    ensures CutAt(out + [ErrorFrame], channel, since, k, history, r, from)
    ensures CutAt(out, channel, since, k, history, r, from)
  {
  }

  lemma OutputStep(s: System, from: nat, action: Action)
    requires Inv(s, from) && OutputInv(s.channel, s.phase, from)
    ensures OutputInv(Next(s, from, action).channel, Next(s, from, action).phase, from)
  {
    hide Inv, OutputInv, Hear;
    match action
    case Append(_, _) =>
    case Relay => if s.relayed < |s.log| { ChannelGrows(s.channel, SessionEvent(s.log[s.relayed]), s.phase, from); }
    case RelayProjection(large) => if s.relayed > 0 { ChannelGrows(s.channel, Projection(s.relayed - 1, large), s.phase, from); }
    case RelayOther(n) => ChannelGrows(s.channel, n, s.phase, from);
    case Subscribe => if s.phase == Before { SubscribedOutputs(s.channel, from); }
    case ReadHistory => if s.phase.Subscribed? { ReadOutputs(s, from); }
    case ReplayNext => if s.phase.Streaming? && s.phase.replayed < |s.phase.history| { ReplayOutputs(s, from); }
    case Receive =>
      if s.phase.Streaming? && s.phase.replayed == |s.phase.history| && s.phase.cursor < |s.channel| { ReceiveOutputs(s, from); }
    case Cut(signal) =>
      if s.phase.Streaming? && s.phase.replayed == |s.phase.history| && !signal.Arrived? { CutOutputs(s, from, signal); }
  }

  lemma SubscribedOutputs(channel: seq<Notice>, from: nat)
    ensures OutputInv(channel, Subscribed(|channel|), from)
  {
  }

  lemma CutOutputs(s: System, from: nat, signal: Signal)
    requires OutputInv(s.channel, s.phase, from) && !signal.Arrived?
    requires s.phase.Streaming? && s.phase.replayed == |s.phase.history|
    ensures OutputInv(s.channel, Next(s, from, Cut(signal)).phase, from)
  {
    hide Heard, Output, CutAt;
    var Streaming(since, cursor, history, replayed, c) := s.phase;
    if c.open {
      CutThere(c.out, s.channel, since, cursor, history, replayed, from);
    }
  }

  lemma {:induction false} OutputRun(s: System, from: nat, actions: seq<Action>)
    requires Inv(s, from) && OutputInv(s.channel, s.phase, from)
    ensures OutputInv(Run(s, from, actions).channel, Run(s, from, actions).phase, from)
    decreases |actions|
  {
    hide Inv, OutputInv, Next;
    if actions != [] {
      InvStep(s, from, actions[0]);
      OutputStep(s, from, actions[0]);
      OutputRun(Next(s, from, actions[0]), from, actions[1..]);
    }
  }

  /** In every run an open stream has emitted one frame for each event of its history, and then, in
      order, one frame for each notice it received: each event not in that history, each projection
      and each status or subagent notice. A cut stream has emitted such a beginning, and after it
      at most an error frame. */
  lemma OutputExact(from: nat, actions: seq<Action>)
    ensures var s := Run(START, from, actions);
            s.phase.Streaming? ==>
              var Streaming(since, cursor, history, replayed, c) := s.phase;
              && since <= cursor <= |s.channel| && replayed <= |history|
              && (replayed < |history| && c.open ==> cursor == since)
              && (c.open ==> c.out == Frames(history[..replayed]) + Owed(s.channel[since..cursor], from + |history|))
              && (!c.open ==> CutShort(c.out, s.channel, since, cursor, history, replayed, from))
  {
    hide Run, Next, Frames, Owed, CutShort;
    StartInv(from);
    OutputRun(START, from, actions);
  }

  lemma {:induction false} PlainsOwed(notices: seq<Notice>, first: nat)
    ensures PlainsOut(Owed(notices, first)) == Plains(notices)
  {
    if notices != [] {
      var front, n := notices[..|notices| - 1], notices[|notices| - 1];
      PlainsOwed(front, first);
      hide PlainsOut;
      match n
      case SessionEvent(e) => PlainsAppend(Owed(front, first), EventFrame(e));
      case Projection(number, _) => PlainsAppend(Owed(front, first), ProjectionFrame(number));
      case Plain(_) => PlainsAppend(Owed(front, first), PlainFrame);
      case Unrelated =>
    }
  }

  lemma PlainsAppend(out: seq<Frame>, f: Frame)
    ensures PlainsOut(out + [f]) == PlainsOut(out) + if f == PlainFrame then 1 else 0
  {
    assert (out + [f])[..|out|] == out;
  }

  lemma {:induction false} PlainsJoin(events: seq<Event>, out: seq<Frame>)
    ensures PlainsOut(Frames(events) + out) == PlainsOut(out)
    decreases |events| + |out|
  {
    if out != [] {
      assert (Frames(events) + out)[..|events| + |out| - 1] == Frames(events) + out[..|out| - 1];
      PlainsJoin(events, out[..|out| - 1]);
    } else if events != [] {
      assert Frames(events) + [] == Frames(events);
      assert Frames(events)[..|events| - 1] == Frames(events[..|events| - 1]) + [];
      PlainsJoin(events[..|events| - 1], []);
    }
  }

  /** An open stream has emitted as many plain frames as it received status and subagent notices. */
  lemma PlainsExact(from: nat, actions: seq<Action>)
    ensures var s := Run(START, from, actions);
            s.phase.Streaming? && s.phase.client.open ==>
              && s.phase.since <= s.phase.cursor <= |s.channel|
              && PlainsOut(s.phase.client.out) == Plains(s.channel[s.phase.since..s.phase.cursor])
  {
    hide Run, Next, Frames, Owed, CutShort, Plains, PlainsOut;
    OutputExact(from, actions);
    var s := Run(START, from, actions);
    if s.phase.Streaming? && s.phase.client.open {
      var Streaming(since, cursor, history, replayed, c) := s.phase;
      PlainsJoin(history[..replayed], Owed(s.channel[since..cursor], from + |history|));
      PlainsOwed(s.channel[since..cursor], from + |history|);
    }
  }

  /** A host can relay every kind of notice: an event once it is on the log, a projection of an event it has
      relayed, and any other notice at any time. Each goes to the end of the channel. */
  lemma HostRelays(s: System, from: nat, n: Notice, large: bool)
    ensures s.relayed < |s.log| ==>
              Next(s, from, Relay) == s.(channel := s.channel + [SessionEvent(s.log[s.relayed])], relayed := s.relayed + 1)
    ensures s.relayed > 0 ==> Next(s, from, RelayProjection(large)).channel == s.channel + [Projection(s.relayed - 1, large)]
    ensures n.Plain? || n.Unrelated? ==> Next(s, from, RelayOther(n)).channel == s.channel + [n]
  {
  }

  /** A stream that is cut now says so with an error frame, except at a shutdown. */
  lemma CutShows(s: System, from: nat, action: Action)
    requires s.phase.Streaming? && s.phase.client.open && !Next(s, from, action).phase.client.open
    ensures Next(s, from, action).phase.client.out
         == s.phase.client.out + if action == Cut(Shutdown) then [] else [ErrorFrame]
  {
  }

  /** A stream that was cut stays as it is. */
  lemma {:induction false} CutIsFinal(s: System, from: nat, actions: seq<Action>)
    requires s.phase.Streaming? && !s.phase.client.open
    ensures Run(s, from, actions).phase.Streaming? && Run(s, from, actions).phase.client == s.phase.client
    decreases |actions|
  {
    if actions != [] {
      CutIsFinal(Next(s, from, actions[0]), from, actions[1..]);
    }
  }

  /** Where a client resumes that reconnects with the last id it saw and no `from` of its own. */
  function Resume(from: nat, out: seq<Frame>): nat {
    match LastId(out)
    case None => from
    case Some(id) => id + 1
  }

  /** The last frame that carries an id. */
  function LastMarked(out: seq<Frame>): Option<Frame> {
    if out == [] then None
    else if out[|out| - 1].EventFrame? || out[|out| - 1].ProjectionFrame? then Some(out[|out| - 1])
    else LastMarked(out[..|out| - 1])
  }

  /** The last frame with an id is an event, or the projection of the newest event emitted; before
      the first event, of the event just before the requested ones. */
  predicate EndsCurrent(from: nat, out: seq<Frame>) {
    match LastMarked(out)
    case None => true
    case Some(EventFrame(_)) => true
    case Some(ProjectionFrame(number)) =>
      var events := EventsOut(out);
      if events == [] then number + 1 == from else number == events[|events| - 1].number
    case _ => true
  }

  lemma {:induction false} MarkedIds(out: seq<Frame>)
    ensures LastMarked(out).None? <==> LastId(out).None?
    ensures LastMarked(out).None? ==> EventsOut(out) == []
    ensures match LastMarked(out)
            case Some(EventFrame(e)) =>
              LastId(out) == Some(e.number) && EventsOut(out) != [] && EventsOut(out)[|EventsOut(out)| - 1] == e
            case Some(ProjectionFrame(number)) => LastId(out) == Some(number)
            case Some(_) => false
            case None => true
  {
    if out != [] {
      MarkedIds(out[..|out| - 1]);
    }
  }

  lemma Newest(log: seq<Event>, from: nat, events: seq<Event>)
    requires LogInv(log) && events <= Suffix(log, from)
    ensures forall i :: 0 <= i < |events| ==> events[i].number == from + i
  {
  }

  /** In every run: reconnecting never skips an event, and it repeats none if and only if the
      stream ended current. */
  lemma ReconnectExact(from: nat, actions: seq<Action>)
    ensures var s := Run(START, from, actions);
            s.phase.Streaming? ==>
              var out := s.phase.client.out;
              && Resume(from, out) <= from + |EventsOut(out)|
              && (Resume(from, out) == from + |EventsOut(out)| <==> EndsCurrent(from, out))
  {
    hide Run, Next, EventsOut, LastId, LastMarked;
    StartInv(from);
    InvRun(START, from, actions);
    var s := Run(START, from, actions);
    if s.phase.Streaming? {
      MarkedIds(s.phase.client.out);
      Newest(s.log, from, EventsOut(s.phase.client.out));
    }
  }

  /** Reconnecting never skips an event. */
  lemma ReconnectSkipsNothing(from: nat, actions: seq<Action>)
    ensures var s := Run(START, from, actions);
            s.phase.Streaming? ==>
              Resume(from, s.phase.client.out) <= from + |EventsOut(s.phase.client.out)|
  {
    hide Run, Next, EventsOut, LastId;
    StartInv(from);
    InvRun(START, from, actions);
  }

  /** The other side of the condition occurs: history first, an older projection after it, then a cut. */
  lemma ReconnectMayRepeat() returns (actions: seq<Action>)
    ensures var s := Run(START, 0, actions);
            && s.phase.Streaming?
            && |EventsOut(s.phase.client.out)| == 2
            && Resume(0, s.phase.client.out) == 1
  {
    hide Run, EventsOut, LastId;
    var e0, e1 := Event(0, 1, false), Event(1, 2, false);
    actions := [Append(1, false), Append(2, false), Relay, Subscribe, RelayProjection(false), ReadHistory,
                ReplayNext, ReplayNext, Receive, Cut(Lagged)];
    var s3 := System([e0, e1], 1, [SessionEvent(e0)], Before);
    var s4 := s3.(phase := Subscribed(1));
    var s5 := s4.(channel := [SessionEvent(e0), Projection(0, false)]);
    TwoAppended(actions, e0, e1);
    assert Next(s3, 0, Subscribe) == s4 && Next(s4, 0, RelayProjection(false)) == s5;
    hide Next;
    OneMore(s3, 0, Subscribe, s4, actions, 3);
    OneMore(s4, 0, RelayProjection(false), s5, actions, 4);
    assert actions[5..] == [ReadHistory, ReplayNext, ReplayNext, Receive, Cut(Lagged)];
    StreamRepeats(s5, e0, e1, actions[5..]);
  }

  lemma TwoAppended(actions: seq<Action>, e0: Event, e1: Event)
    requires |actions| > 3 && actions[0] == Append(1, false) && actions[1] == Append(2, false) && actions[2] == Relay
    requires e0 == Event(0, 1, false) && e1 == Event(1, 2, false)
    ensures Run(START, 0, actions) == Run(System([e0, e1], 1, [SessionEvent(e0)], Before), 0, actions[3..])
  {
    hide Run;
    var s1 := System([e0], 0, [], Before);
    var s2 := System([e0, e1], 0, [], Before);
    OneMore(START, 0, actions[0], s1, actions, 0);
    OneMore(s1, 0, actions[1], s2, actions, 1);
    OneMore(s2, 0, Relay, System([e0, e1], 1, [SessionEvent(e0)], Before), actions, 2);
    assert actions[0..] == actions;
  }

  lemma StreamRepeats(s: System, e0: Event, e1: Event, actions: seq<Action>)
    requires s == System([e0, e1], 1, [SessionEvent(e0), Projection(0, false)], Subscribed(1))
    requires e0 == Event(0, 1, false) && e1 == Event(1, 2, false)
    requires actions == [ReadHistory, ReplayNext, ReplayNext, Receive, Cut(Lagged)]
    ensures var s' := Run(s, 0, actions);
            s'.phase.Streaming? && |EventsOut(s'.phase.client.out)| == 2 && Resume(0, s'.phase.client.out) == 1
  {
    hide Run, EventsOut, LastId, HostStep;
    var out1 := [EventFrame(e0), EventFrame(e1)];
    var out2 := out1 + [ProjectionFrame(0)];
    var s3 := s.(phase := Streaming(1, 1, s.log, 2, Client(2, out1, true)));
    var s4 := s.(phase := Streaming(1, 2, s.log, 2, Client(2, out2, true)));
    var s5 := s.(phase := Streaming(1, 2, s.log, 2, Client(2, out2 + [ErrorFrame], false)));
    TwoReplayed(s, e0, e1, actions);
    assert Next(s3, 0, Receive) == s4 && Next(s4, 0, Cut(Lagged)) == s5;
    hide Next;
    OneMore(s3, 0, Receive, s4, actions, 3);
    OneMore(s4, 0, Cut(Lagged), s5, actions, 4);
    Finished(s5, 0, actions[5..]);
    NothingOut();
    OutAppend([], EventFrame(e0));
    OutAppend([EventFrame(e0)], EventFrame(e1));
    assert [] + [EventFrame(e0)] == [EventFrame(e0)] && [EventFrame(e0)] + [EventFrame(e1)] == out1;
    OutAppend(out1, ProjectionFrame(0));
    OutAppend(out2, ErrorFrame);
  }

  lemma TwoReplayed(s: System, e0: Event, e1: Event, actions: seq<Action>)
    requires s.log == [e0, e1] && s.phase == Subscribed(1) && !e0.large && !e1.large && e0.number == 0 && e1.number == 1
    requires |actions| > 3 && actions[0] == ReadHistory && actions[1] == actions[2] == ReplayNext
    ensures Run(s, 0, actions) ==
            Run(s.(phase := Streaming(1, 1, s.log, 2, Client(2, [EventFrame(e0), EventFrame(e1)], true))), 0, actions[3..])
  {
    hide Run, HostStep;
    var out0, out1 := [EventFrame(e0)], [EventFrame(e0), EventFrame(e1)];
    assert [] + [EventFrame(e0)] == out0 && out0 + [EventFrame(e1)] == out1;
    var s1 := s.(phase := Streaming(1, 1, s.log, 0, Client(0, [], true)));
    var s2 := s.(phase := Streaming(1, 1, s.log, 1, Client(1, out0, true)));
    var s3 := s.(phase := Streaming(1, 1, s.log, 2, Client(2, out1, true)));
    assert Next(s, 0, ReadHistory) == s1;
    assert Next(s1, 0, ReplayNext) == s2 && Next(s2, 0, ReplayNext) == s3;
    hide Next;
    OneMore(s, 0, ReadHistory, s1, actions, 0);
    OneMore(s1, 0, ReplayNext, s2, actions, 1);
    OneMore(s2, 0, ReplayNext, s3, actions, 2);
    assert actions[0..] == actions;
  }

  lemma Finished(s: System, from: nat, actions: seq<Action>)
    requires actions == []
    ensures Run(s, from, actions) == s
  {
  }

  lemma NothingOut()
    ensures EventsOut([]) == [] && LastId([]) == None
  {
  }

  lemma OneMore(s: System, from: nat, action: Action, s': System, actions: seq<Action>, i: nat)
    requires i < |actions| && actions[i] == action && Next(s, from, action) == s'
    ensures Run(s, from, actions[i..]) == Run(s', from, actions[i + 1..])
  {
    hide Next;
    assert actions[i..][1..] == actions[i + 1..];
  }
}
