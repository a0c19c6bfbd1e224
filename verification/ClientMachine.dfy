/** The status pipeline, the fan-out to subscribers, `Bootstrap` and `Close` as one machine
    (internal/arti/client.go over rust/arti-ffi/src/client.rs and events.rs).

    A step is one lock section or one channel operation. `mu` is held by the pump for the whole
    of `Sending`; the other sections that take it are single steps and wait for it to be free.
    A step that is not enabled leaves the state unchanged, so every sequence of actions is a run
    and every interleaving of any number of threads is some sequence of actions. */
module ClientMachine {
  import opened Sequences
  import opened StatusModel

  /** Capacity of a subscriber channel. */
  const STATUS_BUFFER: nat := 8

  /** A subscriber channel with its history. `offered` is what the pump managed to send,
      `dropped` counts what it discarded to make room, `start` is the number of fan-outs begun
      before the channel was handed out, and `internal` marks a channel made by `Bootstrap`,
      which no other goroutine can name. */
  datatype Channel = Channel(
    buf: seq<Status>, closed: bool, internal: bool, start: nat,
    offered: seq<Status>, dropped: nat, received: seq<Status>)

  datatype Stage = TrySend | DropOldest | Retry

  /** The single event pump. `Sending` holds `mu`. */
  datatype Pump =
    | CheckDone
    | Polling
    | Caching(st: Status)
    | Locking(st: Status)
    | Sending(st: Status, next: nat, stage: Stage)
    | Exited

  datatype Outcome = Success | Cancelled | ClientClosed | NotStarted

  datatype Boot =
    | Entered
    | Subscribed(ch: nat)
    | Waiting(ch: nat)
    | Leaving(ch: nat, result: Outcome)
    | Returned(outcome: Outcome)

  /** A `Close` call. `Refused` found the client closed already. */
  datatype Closer =
    | Marked(subs: seq<nat>)
    | ClosingSubs(subs: seq<nat>, next: nat)
    | ShuttingDown
    | Freeing
    | Completed
    | Refused

  /** The Rust side: the watcher, the queue, and what went in. */
  datatype Rust = Rust(
    last: nat, observed: seq<ArtiStatus>, emitted: seq<Status>, queue: seq<Event>, lostStatuses: nat)

  /** What `mu` guards, with every channel ever handed out, by number. `panicked` records a send
      on a closed channel or a second close of one. */
  datatype Hub = Hub(subscribers: seq<nat>, closed: bool, channels: seq<Channel>, panicked: bool)

  /** `fanned`, `asked` and `winner` are history: the fan-outs begun, the direct queries answered,
      and the `Close` call that found the client open. */
  datatype State = State(
    rust: Rust, hub: Hub,
    handle: bool, status: Status, done: bool,
    pump: Pump, boots: map<nat, Boot>, closers: map<nat, Closer>,
    fanned: seq<Status>, asked: seq<ArtiStatus>, winner: Option<nat>)

  datatype PumpOp = Check | Poll | Cache | Lock | Send

  datatype BootOp =
    | Enter(accepted: bool)
    | Subscribe
    | Query(answer: Option<ArtiStatus>)
    | Wait
    | Cancel
    | SeeDone
    | Leave

  datatype Action =
    | Observe(a: ArtiStatus)
    | EmitDesc(action: string, address: string, reason: string)
    | Pumping(op: PumpOp)
    | Booting(t: nat, bop: BootOp)
    | StatusUpdates
    | Unsubscribe(ch: nat)
    | Receive(ch: nat)
    | CloseEnter(t: nat)
    | CloseStep(t: nat)

  const START := State(
    Rust(NOTHING_SENT, [], [], [], 0), Hub([], false, [], false),
    true, ZERO_STATUS, false,
    CheckDone, map[], map[],
    [], [], None)

  // ----- Channels and the subscriber list -----

  const NO_CHANNEL := Channel([], false, false, 0, [], 0, [])

  function Chan(h: Hub, ch: nat): Channel {
    if ch < |h.channels| then h.channels[ch] else NO_CHANNEL
  }

  function SetChan(h: Hub, ch: nat, c: Channel): Hub {
    if ch < |h.channels| then h.(channels := h.channels[ch := c]) else h
  }

  predicate MuFree(s: State) { !s.pump.Sending? }

  /** A send that finds room. */
  function Push(c: Channel, st: Status): Channel {
    c.(buf := c.buf + [st], offered := c.offered + [st])
  }

  /** A receive by the channel's owner. */
  function Take(c: Channel): Channel
    requires c.buf != []
  {
    c.(buf := c.buf[1..], received := c.received + [c.buf[0]])
  }

  /** A receive by the pump, to make room. */
  function Discard(c: Channel): Channel {
    if c.buf == [] then c else c.(buf := c.buf[1..], dropped := c.dropped + 1)
  }

  /** `close(ch)`. */
  function CloseChan(h: Hub, ch: nat): Hub {
    SetChan(h, ch, Chan(h, ch).(closed := true)).(panicked := h.panicked || Chan(h, ch).closed)
  }

  function Remove(subs: seq<nat>, ch: nat): seq<nat>
    decreases |subs|
  {
    if subs == [] then []
    else if subs[0] == ch then subs[1..]
    else [subs[0]] + Remove(subs[1..], ch)
  }

  /** `StatusUpdates`: a closed client hands out a closed channel. */
  function AddChannel(h: Hub, internal: bool, start: nat): Hub {
    h.(channels := h.channels + [Channel([], h.closed, internal, start, [], 0, [])],
       subscribers := if h.closed then h.subscribers else h.subscribers + [|h.channels|])
  }

  /** `unsubscribe`: a channel that is not subscribed is left alone. */
  function DropChannel(h: Hub, ch: nat): Hub {
    if ch in h.subscribers then CloseChan(h.(subscribers := Remove(h.subscribers, ch)), ch) else h
  }

  // ----- Rust -----

  /** The watcher's `events.send`. */
  function Announce(r: Rust, progress: nat, e: Event): Rust
    requires e.StatusClient?
  {
    r.(last := progress,
       emitted := r.emitted + [StatusOfEvent(e)],
       queue := Offer(r.queue, e),
       lostStatuses := if |r.queue| < QUEUE_DEPTH then r.lostStatuses else r.lostStatuses + 1)
  }

  function Watch(r: Rust, a: ArtiStatus): Rust {
    var seen := r.(observed := r.observed + [a]);
    if Progress(a) == r.last then seen else Announce(seen, Progress(a), EventOf(Summarize(a)))
  }

  // ----- The pump -----

  function PumpAfter(e: Event): Pump {
    if e.StatusClient? then Caching(StatusOfEvent(e)) else CheckDone
  }

  function DoPoll(s: State): State {
    if s.pump != Polling then s
    else if !s.handle || s.rust.queue == [] then s.(pump := CheckDone)
    else s.(rust := s.rust.(queue := s.rust.queue[1..]), pump := PumpAfter(s.rust.queue[0]))
  }

  /** One operation of the nested selects: what it does to the hub and where the pump goes. */
  function SendOne(h: Hub, st: Status, next: nat, stage: Stage): (Hub, Pump)
    requires next < |h.subscribers|
  {
    var ch := h.subscribers[next];
    var c := Chan(h, ch);
    if stage == DropOldest then (SetChan(h, ch, Discard(c)), Sending(st, next, Retry))
    else if c.closed then (h.(panicked := true), Sending(st, next, stage))
    else if |c.buf| < STATUS_BUFFER then (SetChan(h, ch, Push(c, st)), Sending(st, next + 1, TrySend))
    else if stage == TrySend then (h, Sending(st, next, DropOldest))
    else (h, Sending(st, next + 1, TrySend))
  }

  function DoSend(s: State): State {
    if !s.pump.Sending? then s
    else if s.pump.next >= |s.hub.subscribers| then s.(pump := CheckDone)
    else
      var (h, p) := SendOne(s.hub, s.pump.st, s.pump.next, s.pump.stage);
      s.(hub := h, pump := p)
  }

  function PumpDo(s: State, op: PumpOp): State {
    match op
    case Check => if s.pump == CheckDone then s.(pump := if s.done then Exited else Polling) else s
    case Poll => DoPoll(s)
    case Cache => if s.pump.Caching? then s.(status := s.pump.st, pump := Locking(s.pump.st)) else s
    case Lock =>
      if s.pump.Locking? then s.(pump := Sending(s.pump.st, 0, TrySend), fanned := s.fanned + [s.pump.st]) else s
    case Send => DoSend(s)
  }

  // ----- Bootstrap -----

  function SetBoot(s: State, t: nat, b: Boot): State {
    s.(boots := s.boots[t := b])
  }

  /** `Status()`: the cache, or a direct query while nothing with a summary has been cached. What the
      query answers is arbitrary, so both reads are one step, taken when the cache is read. */
  predicate AsksBackend(s: State, answer: Option<ArtiStatus>) {
    s.status.summary == "" && s.handle && answer.Some?
  }

  function ReadStatus(s: State, answer: Option<ArtiStatus>): Status {
    if AsksBackend(s, answer) then StatusFrom(Summarize(answer.value)) else s.status
  }

  function DoQuery(s: State, t: nat, ch: nat, answer: Option<ArtiStatus>): State {
    SetBoot(s.(asked := if AsksBackend(s, answer) then s.asked + [answer.value] else s.asked), t,
            if ReadStatus(s, answer).ready then Leaving(ch, Success) else Waiting(ch))
  }

  /** The receive arm of the select. */
  function DoWait(s: State, t: nat, ch: nat): State {
    var c := Chan(s.hub, ch);
    if c.buf != [] then
      SetBoot(s.(hub := SetChan(s.hub, ch, Take(c))), t,
              if c.buf[0].ready then Leaving(ch, Success) else Waiting(ch))
    else if c.closed then SetBoot(s, t, Leaving(ch, ClientClosed))
    else s
  }

  function BootDo(s: State, t: nat, op: BootOp): State {
    if op.Enter? then
      if t in s.boots then s else SetBoot(s, t, if s.handle && op.accepted then Entered else Returned(NotStarted))
    else if t !in s.boots then s
    else
      var b := s.boots[t];
      match op
      case Subscribe =>
        if b.Entered? && MuFree(s)
        then SetBoot(s.(hub := AddChannel(s.hub, true, |s.fanned|)), t, Subscribed(|s.hub.channels|)) else s
      case Query(answer) => if b.Subscribed? then DoQuery(s, t, b.ch, answer) else s
      case Wait => if b.Waiting? then DoWait(s, t, b.ch) else s
      case Cancel => if b.Waiting? then SetBoot(s, t, Leaving(b.ch, Cancelled)) else s
      case SeeDone => if b.Waiting? && s.done then SetBoot(s, t, Leaving(b.ch, ClientClosed)) else s
      case Leave =>
        if b.Leaving? && MuFree(s)
        then SetBoot(s.(hub := DropChannel(s.hub, b.ch)), t, Returned(b.result)) else s
  }

  // ----- Close -----

  function SetCloser(s: State, t: nat, c: Closer): State {
    s.(closers := s.closers[t := c])
  }

  function DoCloseEnter(s: State, t: nat): State {
    if t in s.closers || !MuFree(s) then s
    else if s.hub.closed then SetCloser(s, t, Refused)
    else
      SetCloser(s.(hub := s.hub.(closed := true, subscribers := []), winner := Some(t)), t,
                Marked(s.hub.subscribers))
  }

  function DoCloseStep(s: State, t: nat): State {
    if t !in s.closers then s
    else
      match s.closers[t]
      case Marked(subs) =>
        SetCloser(s.(done := true, hub := s.hub.(panicked := s.hub.panicked || s.done)), t, ClosingSubs(subs, 0))
      case ClosingSubs(subs, next) =>
        if next < |subs| then SetCloser(s.(hub := CloseChan(s.hub, subs[next])), t, ClosingSubs(subs, next + 1))
        else SetCloser(s, t, ShuttingDown)
      case ShuttingDown => SetCloser(s, t, Freeing)
      case Freeing => SetCloser(s.(handle := false), t, Completed)
      case _ => s
  }

  // ----- Runs -----

  function Apply(s: State, a: Action): State {
    match a
    case Observe(status) => s.(rust := Watch(s.rust, status))
    case EmitDesc(action, address, reason) =>
      s.(rust := s.rust.(queue := Offer(s.rust.queue, HsDesc(action, address, reason))))
    case Pumping(op) => PumpDo(s, op)
    case Booting(t, op) => BootDo(s, t, op)
    case StatusUpdates => if MuFree(s) then s.(hub := AddChannel(s.hub, false, |s.fanned|)) else s
    case Unsubscribe(ch) =>
      if MuFree(s) && !Chan(s.hub, ch).internal then s.(hub := DropChannel(s.hub, ch)) else s
    case Receive(ch) =>
      if !Chan(s.hub, ch).internal && Chan(s.hub, ch).buf != []
      then s.(hub := SetChan(s.hub, ch, Take(Chan(s.hub, ch)))) else s
    case CloseEnter(t) => DoCloseEnter(s, t)
    case CloseStep(t) => DoCloseStep(s, t)
  }

  /** The state after a sequence of actions. */
  function Run(s: State, actions: seq<Action>): State
    decreases |actions|
  {
    if actions == [] then s else Apply(Run(s, Init(actions)), Last(actions))
  }

  lemma {:induction false} RunConcat(s: State, a: seq<Action>, b: seq<Action>)
    ensures Run(s, a + b) == Run(Run(s, a), b)
    decreases |b|
  {
    if b == [] {
      assert a + b == a;
    } else {
      assert Init(a + b) == a + Init(b) && Last(a + b) == Last(b);
      RunConcat(s, a, Init(b));
    }
  }
}
