/** What every run of the client machine keeps. */
module ClientProofs {
  import opened Sequences
  import opened StatusModel
  import opened ClientMachine

  // ----- The pipeline from Arti to the Go cache -----

  /** The statuses carried by a stretch of the event queue. */
  ghost function Statuses(events: seq<Event>): seq<Status>
    decreases |events|
  {
    if events == [] then []
    else if Last(events).StatusClient? then Statuses(Init(events)) + [StatusOfEvent(Last(events))]
    else Statuses(Init(events))
  }

  lemma {:induction false} StatusesHead(events: seq<Event>)
    requires events != []
    ensures Statuses(events) ==
            (if events[0].StatusClient? then [StatusOfEvent(events[0])] else []) + Statuses(events[1..])
    decreases |events|
  {
    if |events| == 1 {
      assert Init(events) == [] && events[1..] == [];
    } else {
      StatusesHead(Init(events));
      assert Init(events)[1..] == Init(events[1..]) && Last(events) == Last(events[1..]);
    }
  }

  lemma StatusesSnoc(events: seq<Event>, e: Event)
    ensures Statuses(events + [e]) == Statuses(events) + (if e.StatusClient? then [StatusOfEvent(e)] else [])
  {
  }

  /** Statuses the pump has taken off the queue, in order. */
  ghost function Taken(fanned: seq<Status>, pump: Pump): seq<Status> {
    fanned + (if pump.Caching? || pump.Locking? then [pump.st] else [])
  }

  /** What the watcher emitted is what the pump took, then what is queued, less what overflowed. */
  ghost predicate RustInv(r: Rust, taken: seq<Status>) {
    && r.last == Remembered(r.observed)
    && r.emitted == Statuses(Emitted(r.observed))
    && |r.queue| <= QUEUE_DEPTH
    && Subsequence(taken + Statuses(r.queue), r.emitted)
    && |taken + Statuses(r.queue)| + r.lostStatuses == |r.emitted|
  }

  /** The cache holds the newest status written, and a fan-out is of that status. */
  ghost predicate CacheInv(fanned: seq<Status>, pump: Pump, status: Status) {
    && status == (if pump.Locking? then pump.st else if fanned == [] then ZERO_STATUS else Last(fanned))
    && (pump.Sending? ==> fanned != [] && Last(fanned) == pump.st)
  }

  ghost predicate PipeInv(s: State) {
    RustInv(s.rust, Taken(s.fanned, s.pump)) && CacheInv(s.fanned, s.pump, s.status)
  }

  lemma AnnounceKeepsOrder(r: Rust, taken: seq<Status>, progress: nat, e: Event)
    requires e.StatusClient? && |r.queue| <= QUEUE_DEPTH
    requires Subsequence(taken + Statuses(r.queue), r.emitted)
    ensures var r' := Announce(r, progress, e);
            Subsequence(taken + Statuses(r'.queue), r'.emitted) &&
            |Statuses(r'.queue)| + r'.lostStatuses == |Statuses(r.queue)| + r.lostStatuses + 1
  {
    StatusesSnoc(r.queue, e);
    var held := taken + Statuses(r.queue);
    SubsequenceSnoc(held, r.emitted, StatusOfEvent(e));
    assert taken + (Statuses(r.queue) + [StatusOfEvent(e)]) == held + [StatusOfEvent(e)];
  }

  lemma WatchKept(r: Rust, taken: seq<Status>, a: ArtiStatus)
    requires RustInv(r, taken)
    ensures RustInv(Watch(r, a), taken)
  {
    var seen := r.(observed := r.observed + [a]);
    EmittedSnoc(r.observed, a);
    if Progress(a) != r.last {
      var e := EventOf(Summarize(a));
      StatusesSnoc(Emitted(r.observed), e);
      AnnounceKeepsOrder(seen, taken, Progress(a), e);
    }
  }

  lemma PollKept(r: Rust, fanned: seq<Status>)
    requires RustInv(r, fanned) && r.queue != []
    ensures RustInv(r.(queue := r.queue[1..]), Taken(fanned, PumpAfter(r.queue[0])))
  {
    var p := PumpAfter(r.queue[0]);
    StatusesHead(r.queue);
    assert Taken(fanned, p) + Statuses(r.queue[1..]) == fanned + Statuses(r.queue);
  }

  /** A step that touches neither the Rust side, nor the cache, nor the pump. */
  ghost predicate SamePipe(s: State, s': State) {
    s'.rust == s.rust && s'.status == s.status && s'.fanned == s.fanned && s'.pump == s.pump
  }

  lemma PollKeepsPipe(s: State)
    requires PipeInv(s)
    ensures PipeInv(DoPoll(s))
  {
    if s.pump == Polling {
      assert Taken(s.fanned, Polling) == s.fanned == Taken(s.fanned, CheckDone);
      if s.handle && s.rust.queue != [] { PollKept(s.rust, s.fanned); }
    }
  }

  /** Handing the status on, from the queue to the cache to the fan-out. */
  lemma HandOver(s: State, op: PumpOp)
    requires CacheInv(s.fanned, s.pump, s.status) && op != Poll
    ensures var s' := PumpDo(s, op);
            s'.rust == s.rust && Taken(s'.fanned, s'.pump) == Taken(s.fanned, s.pump) &&
            CacheInv(s'.fanned, s'.pump, s'.status)
  {
    match op {
      case Send => assert DoSend(s).fanned == s.fanned;
      case _ =>
    }
  }

  lemma BootKeepsPipe(s: State, t: nat, op: BootOp)
    ensures SamePipe(s, BootDo(s, t, op))
  {
  }

  lemma CloseKeepsPipe(s: State, t: nat)
    ensures SamePipe(s, DoCloseEnter(s, t)) && SamePipe(s, DoCloseStep(s, t))
  {
  }

  lemma PipeKept(s: State, a: Action)
    requires PipeInv(s)
    ensures PipeInv(Apply(s, a))
  {
    match a {
      case Observe(x) => WatchKept(s.rust, Taken(s.fanned, s.pump), x);
      case EmitDesc(action, address, reason) => StatusesSnoc(s.rust.queue, HsDesc(action, address, reason));
      case Pumping(op) => if op == Poll { PollKeepsPipe(s); } else { HandOver(s, op); }
      case Booting(t, op) => BootKeepsPipe(s, t, op);
      case CloseEnter(t) => CloseKeepsPipe(s, t);
      case CloseStep(t) => CloseKeepsPipe(s, t);
      case _ =>
    }
  }

  // ----- Who may be closed, and by whom -----

  ghost predicate Ascending(s: seq<nat>) {
    forall i, j :: 0 <= i < j < |s| ==> s[i] < s[j]
  }

  lemma {:induction false} RemoveAscending(s: seq<nat>, x: nat)
    requires Ascending(s) && x in s
    ensures Ascending(Remove(s, x))
    ensures forall y :: y in Remove(s, x) <==> y in s && y != x
    decreases |s|
  {
    var rest := s[1..];
    assert s == [s[0]] + rest;
    if s[0] != x {
      RemoveAscending(rest, x);
      PrependAscending(s[0], Remove(rest, x));
    }
  }

  lemma PrependAscending(x: nat, s: seq<nat>)
    requires Ascending(s) && forall y :: y in s ==> x < y
    ensures Ascending([x] + s)
  {
    forall j | 0 <= j < |s| ensures x < s[j] {
      assert s[j] in s;
    }
  }

  /** Channels a `Close` in progress has taken and not closed yet. */
  ghost function Left(c: Closer): seq<nat> {
    match c
    case Marked(subs) => subs
    case ClosingSubs(subs, next) => if next <= |subs| then subs[next..] else []
    case _ => []
  }

  ghost function LeftOver(s: State): seq<nat> {
    if s.winner.Some? && s.winner.value in s.closers then Left(s.closers[s.winner.value]) else []
  }

  ghost predicate HubInv(h: Hub, left: seq<nat>) {
    && !h.panicked
    && Ascending(h.subscribers) && Ascending(left)
    && (h.closed ==> h.subscribers == [])
    && (!h.closed ==> left == [])
    && (forall ch :: ch in h.subscribers || ch in left ==> ch < |h.channels|)
    && (forall ch :: 0 <= ch < |h.channels| ==>
          (h.channels[ch].closed <==> ch !in h.subscribers && ch !in left))
  }

  /** One `Close` call finds the client open; `done` and the handle follow its progress. */
  ghost predicate CloserInv(closers: map<nat, Closer>, winner: Option<nat>, closed: bool, done: bool, handle: bool) {
    && (winner.Some? <==> closed)
    && (forall t :: t in closers ==> (winner == Some(t) <==> !closers[t].Refused?))
    && (winner.Some? ==> winner.value in closers)
    && (forall t :: t in closers && closers[t].ClosingSubs? ==> closers[t].next <= |closers[t].subs|)
    && (done <==> winner.Some? && !closers[winner.value].Marked?)
    && (!handle <==> winner.Some? && closers[winner.value].Completed?)
  }

  ghost predicate CloseInv(s: State) {
    && HubInv(s.hub, LeftOver(s))
    && CloserInv(s.closers, s.winner, s.hub.closed, s.done, s.handle)
  }

  lemma AppendAscending(s: seq<nat>, x: nat)
    requires Ascending(s) && forall y :: y in s ==> y < x
    ensures Ascending(s + [x]) && forall y :: y in s + [x] <==> y in s || y == x
  {
    forall i, j | 0 <= i < j < |s + [x]| ensures (s + [x])[i] < (s + [x])[j] {
      assert s[i] in s;
    }
  }

  lemma AddKept(h: Hub, left: seq<nat>, internal: bool, start: nat)
    requires HubInv(h, left)
    ensures HubInv(AddChannel(h, internal, start), left)
  {
    if !h.closed {
      AppendAscending(h.subscribers, |h.channels|);
    }
  }

  lemma DropKept(h: Hub, left: seq<nat>, ch: nat)
    requires HubInv(h, left)
    ensures HubInv(DropChannel(h, ch), left)
    ensures ch in h.subscribers ==> DropChannel(h, ch).channels[ch].closed
  {
    if ch in h.subscribers {
      RemoveAscending(h.subscribers, ch);
    }
  }

  lemma CloseNextKept(h: Hub, left: seq<nat>)
    requires HubInv(h, left) && left != []
    ensures HubInv(CloseChan(h, left[0]), left[1..])
  {
  }

  /** Contents of one channel change, its closed mark does not. */
  lemma ContentsKept(h: Hub, left: seq<nat>, ch: nat, c: Channel)
    requires HubInv(h, left) && c.closed == Chan(h, ch).closed
    ensures HubInv(SetChan(h, ch, c), left)
  {
  }

  lemma SendKept(h: Hub, left: seq<nat>, st: Status, next: nat, stage: Stage)
    requires HubInv(h, left) && next < |h.subscribers|
    ensures HubInv(SendOne(h, st, next, stage).0, left)
  {
  }

  lemma CloseEnterKept(s: State, t: nat)
    requires CloseInv(s)
    ensures CloseInv(DoCloseEnter(s, t))
  {
  }

  /** The winning call moves on. */
  lemma AdvanceKept(s: State, t: nat, c: Closer, done: bool, handle: bool)
    requires CloserInv(s.closers, s.winner, s.hub.closed, s.done, s.handle)
    requires t in s.closers && !s.closers[t].Refused? && !c.Refused?
    requires c.ClosingSubs? ==> c.next <= |c.subs|
    requires done <==> !c.Marked?
    requires !handle <==> c.Completed?
    ensures s.winner == Some(t)
    ensures CloserInv(s.closers[t := c], s.winner, s.hub.closed, done, handle)
  {
  }

  lemma CloseStepKept(s: State, t: nat)
    requires CloseInv(s)
    ensures CloseInv(DoCloseStep(s, t))
  {
    if t in s.closers && !s.closers[t].Refused? {
      match s.closers[t] {
        case Marked(subs) =>
          AdvanceKept(s, t, ClosingSubs(subs, 0), true, s.handle);
        case ClosingSubs(subs, next) =>
          if next < |subs| {
            CloseNextKept(s.hub, LeftOver(s));
            AdvanceKept(s, t, ClosingSubs(subs, next + 1), s.done, s.handle);
          } else {
            AdvanceKept(s, t, ShuttingDown, s.done, s.handle);
          }
        case ShuttingDown => AdvanceKept(s, t, Freeing, s.done, s.handle);
        case Freeing => AdvanceKept(s, t, Completed, s.done, false);
        case Completed =>
      }
    }
  }

  /** A step that leaves the closing side alone. */
  ghost predicate SameClosers(s: State, s': State) {
    && s'.closers == s.closers && s'.winner == s.winner && s'.done == s.done && s'.handle == s.handle
    && s'.hub.closed == s.hub.closed
  }

  lemma PumpKeepsHub(s: State, op: PumpOp, left: seq<nat>)
    requires HubInv(s.hub, left)
    ensures HubInv(PumpDo(s, op).hub, left) && SameClosers(s, PumpDo(s, op))
  {
    if s.pump.Sending? && s.pump.next < |s.hub.subscribers| {
      SendKept(s.hub, left, s.pump.st, s.pump.next, s.pump.stage);
    }
  }

  lemma BootKeepsHub(s: State, t: nat, op: BootOp, left: seq<nat>)
    requires HubInv(s.hub, left)
    ensures HubInv(BootDo(s, t, op).hub, left) && SameClosers(s, BootDo(s, t, op))
  {
    if t in s.boots {
      var b := s.boots[t];
      match op {
        case Subscribe => AddKept(s.hub, left, true, |s.fanned|);
        case Wait =>
          if b.Waiting? && Chan(s.hub, b.ch).buf != [] { ContentsKept(s.hub, left, b.ch, Take(Chan(s.hub, b.ch))); }
        case Leave => if b.Leaving? { DropKept(s.hub, left, b.ch); }
        case _ =>
      }
    }
  }

  lemma CloseKept(s: State, a: Action)
    requires CloseInv(s)
    ensures CloseInv(Apply(s, a))
  {
    var left := LeftOver(s);
    match a {
      case Observe(x) =>
      case EmitDesc(action, address, reason) =>
      case Pumping(op) => PumpKeepsHub(s, op, left);
      case Booting(t, op) => BootKeepsHub(s, t, op, left);
      case StatusUpdates => AddKept(s.hub, left, false, |s.fanned|);
      case Unsubscribe(ch) => DropKept(s.hub, left, ch);
      case Receive(ch) =>
        if Chan(s.hub, ch).buf != [] { ContentsKept(s.hub, left, ch, Take(Chan(s.hub, ch))); }
      case CloseEnter(t) => CloseEnterKept(s, t);
      case CloseStep(t) => CloseStepKept(s, t);
    }
  }

  // ----- What each subscriber gets -----

  /** What a channel has delivered or holds, in order. */
  ghost function Delivered(c: Channel): seq<Status> {
    c.received + c.buf
  }

  /** A channel was offered a stretch of the fan-outs from its start, keeps them in order, and
      accounts for each one. */
  ghost predicate ChanInv(c: Channel, fanned: seq<Status>) {
    && |c.buf| <= STATUS_BUFFER
    && Subsequence(Delivered(c), c.offered)
    && |c.offered| == |Delivered(c)| + c.dropped
    && c.start + |c.offered| <= |fanned|
    && (forall i :: 0 <= i < |c.offered| ==> c.offered[i] == fanned[c.start + i])
  }

  /** The newest offer was not the one discarded. */
  ghost predicate Newest(c: Channel) {
    c.offered != [] ==> Delivered(c) != [] && Last(Delivered(c)) == Last(c.offered)
  }

  /** The pump is between making room in `ch` and refilling it. */
  ghost predicate MakingRoom(h: Hub, pump: Pump, ch: nat) {
    pump.Sending? && pump.stage == Retry && pump.next < |h.subscribers| && h.subscribers[pump.next] == ch
  }

  /** The pump has still to serve subscriber number `k` in this fan-out. */
  ghost predicate Unserved(pump: Pump, k: nat) {
    pump.Sending? && pump.next <= k
  }

  ghost predicate DeliveryInv(h: Hub, fanned: seq<Status>, pump: Pump) {
    && (forall k :: 0 <= k < |h.subscribers| ==> h.subscribers[k] < |h.channels|)
    && (forall ch :: 0 <= ch < |h.channels| ==> ChanInv(h.channels[ch], fanned))
    && (forall ch :: 0 <= ch < |h.channels| ==> MakingRoom(h, pump, ch) || Newest(h.channels[ch]))
    && (forall k :: 0 <= k < |h.subscribers| ==>
          var c := h.channels[h.subscribers[k]];
          c.start + |c.offered| + (if Unserved(pump, k) then 1 else 0) == |fanned|)
    && (pump.Sending? && pump.stage != TrySend ==> pump.next < |h.subscribers|)
    && (pump.Sending? && pump.stage == Retry ==> |h.channels[h.subscribers[pump.next]].buf| < STATUS_BUFFER)
    && (pump.Sending? ==> fanned != [] && Last(fanned) == pump.st)
  }

  lemma PushInv(c: Channel, fanned: seq<Status>)
    requires ChanInv(c, fanned) && |c.buf| < STATUS_BUFFER
    requires c.start + |c.offered| < |fanned|
    ensures ChanInv(Push(c, fanned[c.start + |c.offered|]), fanned)
    ensures Newest(Push(c, fanned[c.start + |c.offered|]))
  {
    var st := fanned[c.start + |c.offered|];
    var pushed := Push(c, st);
    SubsequenceSnoc(Delivered(c), c.offered, st);
    assert Delivered(pushed) == Delivered(c) + [st];
  }

  lemma DiscardInv(c: Channel, fanned: seq<Status>)
    requires ChanInv(c, fanned)
    ensures ChanInv(Discard(c), fanned) && |Discard(c).buf| < STATUS_BUFFER
  {
    if c.buf != [] {
      var d, i := Delivered(c), |c.received|;
      assert Delivered(Discard(c)) == d[..i] + d[i + 1..];
      SubsequenceRemove(d, i);
      SubsequenceTrans(Delivered(Discard(c)), d, c.offered);
    }
  }

  lemma TakeInv(c: Channel, fanned: seq<Status>)
    requires ChanInv(c, fanned) && c.buf != []
    ensures ChanInv(Take(c), fanned) && Delivered(Take(c)) == Delivered(c)
    ensures Newest(c) ==> Newest(Take(c))
  {
    assert Delivered(Take(c)) == Delivered(c);
  }

  /** Room was made in the channel being served. */
  lemma RoomMade(h: Hub, fanned: seq<Status>, pump: Pump, c: Channel)
    requires DeliveryInv(h, fanned, pump) && Ascending(h.subscribers)
    requires pump.Sending? && pump.next < |h.subscribers|
    requires ChanInv(c, fanned) && |c.buf| < STATUS_BUFFER
    requires var was := h.channels[h.subscribers[pump.next]]; c.start == was.start && c.offered == was.offered
    ensures DeliveryInv(SetChan(h, h.subscribers[pump.next], c), fanned, Sending(pump.st, pump.next, Retry))
  {
  }

  /** The channel being served took the status, and the pump moves on. */
  lemma Served(h: Hub, fanned: seq<Status>, pump: Pump, c: Channel)
    requires DeliveryInv(h, fanned, pump) && Ascending(h.subscribers)
    requires pump.Sending? && pump.next < |h.subscribers|
    requires ChanInv(c, fanned) && Newest(c)
    requires var was := h.channels[h.subscribers[pump.next]];
             c.start == was.start && |c.offered| == |was.offered| + 1
    ensures DeliveryInv(SetChan(h, h.subscribers[pump.next], c), fanned, Sending(pump.st, pump.next + 1, TrySend))
  {
    var ch := h.subscribers[pump.next];
    assert forall k :: 0 <= k < |h.subscribers| && k != pump.next ==> h.subscribers[k] != ch;
  }

  /** One channel operation of a fan-out. */
  lemma SendDelivers(h: Hub, fanned: seq<Status>, pump: Pump, left: seq<nat>)
    requires DeliveryInv(h, fanned, pump) && HubInv(h, left)
    requires pump.Sending? && pump.next < |h.subscribers|
    ensures var (h', pump') := SendOne(h, pump.st, pump.next, pump.stage);
            DeliveryInv(h', fanned, pump')
  {
    var ch := h.subscribers[pump.next];
    var c := h.channels[ch];
    assert ch in h.subscribers && !c.closed;
    if pump.stage == DropOldest {
      DiscardInv(c, fanned);
      RoomMade(h, fanned, pump, Discard(c));
    } else if |c.buf| < STATUS_BUFFER {
      assert c.start + |c.offered| + 1 == |fanned|;
      assert pump.st == fanned[c.start + |c.offered|];
      PushInv(c, fanned);
      Served(h, fanned, pump, Push(c, pump.st));
    }
  }

  lemma FreshChannel(closed: bool, internal: bool, fanned: seq<Status>)
    ensures var c := Channel([], closed, internal, |fanned|, [], 0, []);
            ChanInv(c, fanned) && Newest(c)
  {
    assert Picks([], Delivered(Channel([], closed, internal, |fanned|, [], 0, [])), []);
  }

  lemma ChannelMade(h: Hub, fanned: seq<Status>, pump: Pump, c: Channel)
    requires DeliveryInv(h, fanned, pump) && !pump.Sending?
    requires ChanInv(c, fanned) && Newest(c)
    ensures DeliveryInv(h.(channels := h.channels + [c]), fanned, pump)
  {
  }

  /** The newest channel is put on the list. */
  lemma SubscriberAdded(h: Hub, fanned: seq<Status>, pump: Pump, ch: nat)
    requires DeliveryInv(h, fanned, pump) && !pump.Sending?
    requires ch < |h.channels| && h.channels[ch].start + |h.channels[ch].offered| == |fanned|
    ensures DeliveryInv(h.(subscribers := h.subscribers + [ch]), fanned, pump)
  {
  }

  lemma NewChannelDelivers(h: Hub, fanned: seq<Status>, pump: Pump, internal: bool)
    requires DeliveryInv(h, fanned, pump) && !pump.Sending?
    ensures DeliveryInv(AddChannel(h, internal, |fanned|), fanned, pump)
  {
    var c := Channel([], h.closed, internal, |fanned|, [], 0, []);
    FreshChannel(h.closed, internal, fanned);
    ChannelMade(h, fanned, pump, c);
    if !h.closed {
      SubscriberAdded(h.(channels := h.channels + [c]), fanned, pump, |h.channels|);
    }
  }

  /** A channel changes without a new offer. */
  lemma ReplaceDelivers(h: Hub, fanned: seq<Status>, pump: Pump, ch: nat, c: Channel)
    requires DeliveryInv(h, fanned, pump) && ch < |h.channels|
    requires ChanInv(c, fanned) && (Newest(h.channels[ch]) ==> Newest(c))
    requires var was := h.channels[ch];
             c.start == was.start && c.offered == was.offered && |c.buf| <= |was.buf|
    ensures DeliveryInv(SetChan(h, ch, c), fanned, pump)
  {
  }

  lemma ClosedContents(c: Channel, fanned: seq<Status>)
    requires ChanInv(c, fanned)
    ensures ChanInv(c.(closed := true), fanned)
    ensures Newest(c) ==> Newest(c.(closed := true))
  {
  }

  lemma CloseDelivers(h: Hub, fanned: seq<Status>, pump: Pump, ch: nat)
    requires DeliveryInv(h, fanned, pump)
    ensures DeliveryInv(CloseChan(h, ch), fanned, pump)
  {
    if ch < |h.channels| {
      ClosedContents(h.channels[ch], fanned);
      ReplaceDelivers(h, fanned, pump, ch, h.channels[ch].(closed := true));
    }
  }

  lemma TakeDelivers(h: Hub, fanned: seq<Status>, pump: Pump, ch: nat)
    requires DeliveryInv(h, fanned, pump) && Chan(h, ch).buf != []
    ensures DeliveryInv(SetChan(h, ch, Take(Chan(h, ch))), fanned, pump)
  {
    if ch < |h.channels| {
      TakeInv(h.channels[ch], fanned);
      ReplaceDelivers(h, fanned, pump, ch, Take(h.channels[ch]));
    }
  }

  /** Fewer subscribers are served just as well. */
  lemma FewerSubscribers(h: Hub, fanned: seq<Status>, pump: Pump, subs: seq<nat>)
    requires DeliveryInv(h, fanned, pump) && !pump.Sending?
    requires forall k :: 0 <= k < |subs| ==> subs[k] in h.subscribers
    ensures DeliveryInv(h.(subscribers := subs), fanned, pump)
  {
  }

  lemma DropDelivers(h: Hub, fanned: seq<Status>, pump: Pump, ch: nat)
    requires DeliveryInv(h, fanned, pump) && !pump.Sending? && Ascending(h.subscribers)
    ensures DeliveryInv(DropChannel(h, ch), fanned, pump)
  {
    if ch in h.subscribers {
      RemoveAscending(h.subscribers, ch);
      var subs := Remove(h.subscribers, ch);
      assert forall k :: 0 <= k < |subs| ==> subs[k] in subs;
      FewerSubscribers(h, fanned, pump, subs);
      CloseDelivers(h.(subscribers := subs), fanned, pump, ch);
    }
  }

  /** A fan-out begins: every subscriber is one offer behind. */
  lemma FanOutBegins(h: Hub, fanned: seq<Status>, pump: Pump, st: Status)
    requires DeliveryInv(h, fanned, pump) && !pump.Sending?
    ensures DeliveryInv(h, fanned + [st], Sending(st, 0, TrySend))
  {
  }

  /** Outside a fan-out, where the pump is does not matter to the channels. */
  lemma PumpElsewhere(h: Hub, fanned: seq<Status>, pump: Pump, pump': Pump)
    requires DeliveryInv(h, fanned, pump) && !pump'.Sending?
    requires pump.Sending? ==> pump.next >= |h.subscribers|
    ensures DeliveryInv(h, fanned, pump')
  {
  }

  lemma PumpDelivers(s: State, op: PumpOp)
    requires DeliveryInv(s.hub, s.fanned, s.pump) && CloseInv(s)
    ensures var s' := PumpDo(s, op); DeliveryInv(s'.hub, s'.fanned, s'.pump)
  {
    if op == Send && s.pump.Sending? && s.pump.next < |s.hub.subscribers| {
      SendDelivers(s.hub, s.fanned, s.pump, LeftOver(s));
    } else if op == Lock && s.pump.Locking? {
      FanOutBegins(s.hub, s.fanned, s.pump, s.pump.st);
    } else {
      OffTheHub(s, op);
      if PumpDo(s, op).pump != s.pump {
        PumpElsewhere(s.hub, s.fanned, s.pump, PumpDo(s, op).pump);
      }
    }
  }

  /** The pump's steps outside a fan-out, and the one that ends it. */
  lemma OffTheHub(s: State, op: PumpOp)
    requires op == Send && s.pump.Sending? ==> s.pump.next >= |s.hub.subscribers|
    requires op == Lock ==> !s.pump.Locking?
    ensures var s' := PumpDo(s, op);
            && s'.hub == s.hub && s'.fanned == s.fanned
            && (s'.pump != s.pump ==> !s'.pump.Sending? && (s.pump.Sending? ==> s.pump.next >= |s.hub.subscribers|))
  {
  }

  lemma BootDelivers(s: State, t: nat, op: BootOp)
    requires DeliveryInv(s.hub, s.fanned, s.pump) && CloseInv(s)
    ensures var s' := BootDo(s, t, op);
            s'.fanned == s.fanned && s'.pump == s.pump && DeliveryInv(s'.hub, s'.fanned, s'.pump)
  {
    if t in s.boots {
      var b := s.boots[t];
      match op {
        case Subscribe => if !s.pump.Sending? { NewChannelDelivers(s.hub, s.fanned, s.pump, true); }
        case Wait => if b.Waiting? && Chan(s.hub, b.ch).buf != [] { TakeDelivers(s.hub, s.fanned, s.pump, b.ch); }
        case Leave => if b.Leaving? && !s.pump.Sending? { DropDelivers(s.hub, s.fanned, s.pump, b.ch); }
        case _ =>
      }
    }
  }

  lemma CloseEnterDelivers(s: State, t: nat)
    requires DeliveryInv(s.hub, s.fanned, s.pump)
    ensures var s' := DoCloseEnter(s, t); DeliveryInv(s'.hub, s'.fanned, s'.pump)
  {
    if !s.pump.Sending? {
      FewerSubscribers(s.hub, s.fanned, s.pump, []);
    }
  }

  lemma CloseStepDelivers(s: State, t: nat)
    requires DeliveryInv(s.hub, s.fanned, s.pump)
    ensures var s' := DoCloseStep(s, t); DeliveryInv(s'.hub, s'.fanned, s'.pump)
  {
    if t in s.closers && s.closers[t].ClosingSubs? && s.closers[t].next < |s.closers[t].subs| {
      CloseDelivers(s.hub, s.fanned, s.pump, s.closers[t].subs[s.closers[t].next]);
    }
  }

  lemma DeliveryKept(s: State, a: Action)
    requires DeliveryInv(s.hub, s.fanned, s.pump) && CloseInv(s)
    ensures var s' := Apply(s, a); DeliveryInv(s'.hub, s'.fanned, s'.pump)
  {
    match a {
      case Observe(x) =>
      case EmitDesc(action, address, reason) =>
      case Pumping(op) => PumpDelivers(s, op);
      case Booting(t, op) => BootDelivers(s, t, op);
      case StatusUpdates => if !s.pump.Sending? { NewChannelDelivers(s.hub, s.fanned, s.pump, false); }
      case Unsubscribe(ch) => if !s.pump.Sending? { DropDelivers(s.hub, s.fanned, s.pump, ch); }
      case Receive(ch) => if Chan(s.hub, ch).buf != [] { TakeDelivers(s.hub, s.fanned, s.pump, ch); }
      case CloseEnter(t) => CloseEnterDelivers(s, t);
      case CloseStep(t) => CloseStepDelivers(s, t);
    }
  }
}
