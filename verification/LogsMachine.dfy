/** Arti's log records on their way to the application, across any number of stops and restarts
    (internal/arti/logs.go over rust/arti-ffi/src/logs.rs).

    `logMu` is held by a pump for the whole of `Sending`; `EnableLogging` and `StopLogging` are single
    lock sections and wait for it to be free. A step that is not enabled leaves the state unchanged. */
module LogsMachine {
  import opened Sequences

  /** How far a slow consumer may fall behind. */
  const LOG_BUFFER: nat := 256

  /** Depth of the Rust queue. */
  const LOG_QUEUE_DEPTH: nat := 4096

  /** A delivery: which pump sent which record. Records are numbered as Arti emits them. */
  datatype Delivery = Delivery(pump: nat, record: nat)

  /** A consumer's channel; `offered` is history, everything that was put into it. */
  datatype Channel = Channel(buf: seq<nat>, closed: bool, offered: seq<Delivery>, received: seq<nat>)

  const NEW_CHANNEL := Channel([], false, [], [])

  /** What `logMu` guards: `stops` holds, for every pump ever started, whether its stop channel is
      closed; the last one is `logStop`. `panicked` records a send on a closed channel or a second
      close. */
  datatype Hub = Hub(started: bool, stops: seq<bool>, channels: seq<Channel>, listed: seq<nat>, panicked: bool)

  datatype Stage =
    | Checking
    | Polling
    | Holding(record: nat)
    | Sending(record: nat, next: nat)
    | Exited

  /** `late` is history: the fan-outs begun after this pump was told to stop. */
  datatype Pump = Pump(stage: Stage, late: nat)

  /** `installed` is whether the process has a log subscriber, `fromEnv` whether `LIBTOR_LOG` is set.
      `mark` is history: every record taken off the queue is below it. */
  datatype State = State(
    hub: Hub, pumps: seq<Pump>, queue: seq<nat>, emitted: nat, mark: nat, installed: bool, fromEnv: bool)

  datatype Action =
    | Emit
    // the host application, or the library itself on behalf of `LIBTOR_LOG`
    | InstallElsewhere
    | Enable(level: string, parses: bool)
    | Stop
    | Step(p: nat)
    | Receive(ch: nat)

  function Start(fromEnv: bool): State {
    State(Hub(false, [], [], [], false), [], [], 0, 0, false, fromEnv)
  }

  // ----- Channels -----

  function Chan(h: Hub, ch: nat): Channel {
    if ch < |h.channels| then h.channels[ch] else NEW_CHANNEL
  }

  function SetChan(h: Hub, ch: nat, c: Channel): Hub {
    if ch < |h.channels| then h.(channels := h.channels[ch := c]) else h
  }

  /** A send that does not wait: a full channel loses the record. */
  function TrySend(h: Hub, ch: nat, d: Delivery): Hub {
    var c := Chan(h, ch);
    if c.closed then h.(panicked := true)
    else if |c.buf| < LOG_BUFFER then SetChan(h, ch, c.(buf := c.buf + [d.record], offered := c.offered + [d]))
    else h
  }

  function CloseChan(h: Hub, ch: nat): Hub {
    SetChan(h, ch, Chan(h, ch).(closed := true)).(panicked := h.panicked || Chan(h, ch).closed)
  }

  function CloseAll(h: Hub, chs: seq<nat>): Hub
    decreases |chs|
  {
    if chs == [] then h else CloseChan(CloseAll(h, Init(chs)), Last(chs))
  }

  // ----- EnableLogging and StopLogging -----

  /** Unicode's White_Space property. */
  predicate IsSpace(c: char) {
    var n := c as int;
    || 9 <= n <= 13 || n in {0x20, 0x85, 0xA0, 0x1680, 0x2028, 0x2029, 0x202F, 0x205F, 0x3000}
    || 0x2000 <= n <= 0x200A
  }

  /** `strings.TrimSpace(level) == ""`. */
  predicate Blank(level: string) {
    forall i :: 0 <= i < |level| ==> IsSpace(level[i])
  }

  /** Whether the call returns a channel. While stopped it needs `enableLogging` to install the
      subscriber, which takes directives that parse and a process without one, or `LIBTOR_LOG`. */
  predicate Enables(s: State, level: string, parses: bool) {
    !Blank(level) && (s.hub.started || (parses && !s.installed) || s.fromEnv)
  }

  function StartPump(h: Hub): Hub {
    h.(started := true, stops := h.stops + [false])
  }

  function AddChannel(h: Hub): Hub {
    h.(channels := h.channels + [NEW_CHANNEL], listed := h.listed + [|h.channels|])
  }

  function DoEnable(s: State, level: string, parses: bool): State {
    if !Enables(s, level, parses) then s
    else if s.hub.started then s.(hub := AddChannel(s.hub))
    else
      s.(hub := AddChannel(StartPump(s.hub)), pumps := s.pumps + [Pump(Checking, 0)],
         installed := s.installed || parses)
  }

  function StopHub(h: Hub): Hub {
    if !h.started || h.stops == [] then h
    else
      var last := |h.stops| - 1;
      var stopped := h.(started := false, stops := h.stops[last := true], panicked := h.panicked || h.stops[last]);
      CloseAll(stopped, h.listed).(listed := [])
  }

  // ----- The pumps -----

  function SetPump(s: State, p: nat, x: Pump): State
    requires p < |s.pumps|
  {
    s.(pumps := s.pumps[p := x])
  }

  predicate Stopped(h: Hub, p: nat) { p < |h.stops| && h.stops[p] }

  predicate MuFree(s: State) {
    forall p :: 0 <= p < |s.pumps| ==> !s.pumps[p].stage.Sending?
  }

  function DoStep(s: State, p: nat): State
    requires p < |s.pumps|
  {
    var x := s.pumps[p];
    match x.stage
    case Checking => SetPump(s, p, x.(stage := if Stopped(s.hub, p) then Exited else Polling))
    case Polling =>
      if s.queue == [] then SetPump(s, p, x.(stage := Checking))
      else SetPump(s, p, x.(stage := Holding(s.queue[0]))).(queue := s.queue[1..], mark := s.queue[0] + 1)
    case Holding(record) =>
      if !MuFree(s) then s
      else if !s.hub.started then SetPump(s, p, x.(stage := Checking))
      else SetPump(s, p, Pump(Sending(record, 0), if Stopped(s.hub, p) then x.late + 1 else x.late))
    case Sending(record, next) =>
      if next >= |s.hub.listed| then SetPump(s, p, x.(stage := Checking))
      else
        SetPump(s, p, x.(stage := Sending(record, next + 1)))
        .(hub := TrySend(s.hub, s.hub.listed[next], Delivery(p, record)))
    case Exited => s
  }

  function DoReceive(h: Hub, ch: nat): Hub {
    var c := Chan(h, ch);
    if c.buf == [] then h else SetChan(h, ch, c.(buf := c.buf[1..], received := c.received + [c.buf[0]]))
  }

  // ----- Runs -----

  function Apply(s: State, a: Action): State {
    match a
    case Emit =>
      s.(emitted := s.emitted + 1, queue := if |s.queue| < LOG_QUEUE_DEPTH then s.queue + [s.emitted] else s.queue)
    case InstallElsewhere => s.(installed := true)
    case Enable(level, parses) => if MuFree(s) then DoEnable(s, level, parses) else s
    case Stop => if MuFree(s) then s.(hub := StopHub(s.hub)) else s
    case Step(p) => if p < |s.pumps| then DoStep(s, p) else s
    case Receive(ch) => s.(hub := DoReceive(s.hub, ch))
  }

  function Run(s: State, actions: seq<Action>): State
    decreases |actions|
  {
    if actions == [] then s else Apply(Run(s, Init(actions)), Last(actions))
  }
}
