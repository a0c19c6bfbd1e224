/** Publishing, waiting for publication, and closing, as one machine (internal/arti/onion.go,
    internal/arti/client.go).

    A step is one lock section, one channel operation or one backend call. Any number of `Listen`,
    `WaitPublished` and `Close` calls run beside the single event pump. A step that is not enabled
    leaves the state unchanged. */
module PublishMachine {
  import opened Sequences
  import opened Publication

  /** How far the `Listen` call that made this service has come. */
  datatype Stage = Adding | Refused | Registering | Handed

  datatype Guard = Fresh | Running | Done

  /** An `OnionService`. `localCloses` and `deletes` count calls; `handled` is history. */
  datatype Service = Service(
    stage: Stage, id: string,
    entered: bool, err: Option<string>, published: bool,
    guard: Guard, localCloses: nat, deletes: nat,
    handled: seq<Progress>)

  const NEW := Service(Adding, "", false, None, false, Fresh, 0, 0, [])

  /** The event pump, in the middle of an `hs_desc` event or not. */
  datatype Pump = Ready | Found(n: nat, ev: Progress) | Closing(n: nat)

  datatype WaitResult = Gate(err: Option<string>) | Cancelled | ClientGone

  datatype Waiter = Selecting(n: nat) | Reading(n: nat) | Returned(n: nat, result: WaitResult)

  /** A `Close` call on service `n`. */
  datatype Closer = Unmapping(n: nat) | Unpublishing(n: nat) | ClosingLocal(n: nat) | Closed(n: nat)

  /** The client's own `Close`, with the services it found registered and those still to visit. */
  datatype Teardown = Open | Marked(all: set<nat>) | Visiting(all: set<nat>, rest: set<nat>)

  /** `sent` is history: every event dispatched, with the service it was looked up to. */
  datatype State = State(
    onions: map<string, nat>, done: bool, teardown: Teardown,
    services: seq<Service>, pump: Pump, waiters: seq<Waiter>, closers: seq<Closer>,
    closedTwice: bool, sent: seq<(Progress, Option<nat>)>)

  datatype Action =
    | Listen
    | Add(n: nat, reply: Option<string>)
    | Register(n: nat)
    | Dispatch(address: string, ev: Progress)
    | Handle
    | Wait(n: nat)
    | SeePublished(w: nat)
    | ReadError(w: nat)
    | CancelWait(w: nat)
    | SeeDone(w: nat)
    | Close(n: nat)
    | CloseStep(c: nat)
    | CloseClient
    | CloseDone
    | CloseLocal(n: nat)

  const START := State(map[], false, Open, [], Ready, [], [], false, [])

  function SetService(s: State, n: nat, svc: Service): State
    requires n < |s.services|
  {
    s.(services := s.services[n := svc])
  }

  predicate IsHanded(s: State, n: nat) { n < |s.services| && s.services[n].stage.Handed? }

  // ----- Listen -----

  /** The check that the client is open, under `mu`. A refused call closes the listener it bound. */
  function DoListen(s: State): State {
    s.(services := s.services + [if s.teardown.Open? then NEW else NEW.(stage := Refused, localCloses := 1)])
  }

  /** `OnionAdd` returns. */
  function DoAdd(s: State, n: nat, reply: Option<string>): State {
    if n >= |s.services| || !s.services[n].stage.Adding? then s
    else
      match reply
      case None => SetService(s, n, s.services[n].(stage := Refused, localCloses := s.services[n].localCloses + 1))
      case Some(id) => SetService(s, n, s.services[n].(stage := Registering, id := id))
  }

  function DoRegister(s: State, n: nat): State {
    if n >= |s.services| || !s.services[n].stage.Registering? then s
    else SetService(s, n, s.services[n].(stage := Handed)).(onions := s.onions[s.services[n].id := n])
  }

  // ----- The pump -----

  function Target(s: State, address: string): Option<nat> {
    if address in s.onions then Some(s.onions[address]) else None
  }

  /** The lookup. An event for an address that is not registered is dropped. */
  function DoDispatch(s: State, address: string, ev: Progress): State {
    if !s.pump.Ready? then s
    else
      var to := Target(s, address);
      s.(sent := s.sent + [(ev, to)], pump := if to.Some? then Found(to.value, ev) else Ready)
  }

  /** `handleDescEvent` up to the close: the guard, and the error. */
  function Settle(svc: Service, ev: Progress): Service {
    var seen := svc.(handled := svc.handled + [ev]);
    if Decision(ev).None? || svc.entered then seen
    else seen.(entered := true, err := if ev.Failed? then Some(ev.reason) else None)
  }

  function DoHandle(s: State): State {
    match s.pump
    case Found(n, ev) =>
      if n >= |s.services| then s
      else
        var svc := s.services[n];
        SetService(s, n, Settle(svc, ev)).(pump := if Decision(ev).Some? && !svc.entered then Closing(n) else Ready)
    case Closing(n) =>
      if n >= |s.services| then s
      else
        SetService(s, n, s.services[n].(published := true))
        .(pump := Ready, closedTwice := s.closedTwice || s.services[n].published)
    case Ready => s
  }

  // ----- WaitPublished -----

  function SetWaiter(s: State, w: nat, x: Waiter): State
    requires w < |s.waiters|
  {
    s.(waiters := s.waiters[w := x])
  }

  predicate Waits(s: State, w: nat) { w < |s.waiters| && s.waiters[w].Selecting? }

  function DoSeePublished(s: State, w: nat): State {
    if Waits(s, w) && s.waiters[w].n < |s.services| && s.services[s.waiters[w].n].published
    then SetWaiter(s, w, Reading(s.waiters[w].n)) else s
  }

  function DoReadError(s: State, w: nat): State {
    if w < |s.waiters| && s.waiters[w].Reading? && s.waiters[w].n < |s.services|
    then SetWaiter(s, w, Returned(s.waiters[w].n, Gate(s.services[s.waiters[w].n].err))) else s
  }

  // ----- Closing one service -----

  /** `closeOnce` lets one call through; the others wait for it and then return. */
  function DoClose(s: State, n: nat): State {
    if !IsHanded(s, n) then s
    else
      match s.services[n].guard
      case Fresh => SetService(s, n, s.services[n].(guard := Running)).(closers := s.closers + [Unmapping(n)])
      case Running => s
      case Done => s.(closers := s.closers + [Closed(n)])
  }

  function DoCloseStep(s: State, c: nat): State {
    if c >= |s.closers| || s.closers[c].n >= |s.services| then s
    else
      var n := s.closers[c].n;
      var svc := s.services[n];
      match s.closers[c]
      case Unmapping(_) => s.(onions := s.onions - {svc.id}, closers := s.closers[c := Unpublishing(n)])
      case Unpublishing(_) =>
        SetService(s, n, svc.(deletes := svc.deletes + 1)).(closers := s.closers[c := ClosingLocal(n)])
      case ClosingLocal(_) =>
        SetService(s, n, svc.(localCloses := svc.localCloses + 1, guard := Done)).(closers := s.closers[c := Closed(n)])
      case Closed(_) => s
  }

  // ----- Closing the client -----

  function DoCloseClient(s: State): State {
    if s.teardown.Open? then s.(teardown := Marked(s.onions.Values)) else s
  }

  function DoCloseDone(s: State): State {
    if s.teardown.Marked? then s.(done := true, teardown := Visiting(s.teardown.all, s.teardown.all)) else s
  }

  /** `closeLocal` on one service; it waits while a `Close` of that service is under way. */
  function DoCloseLocal(s: State, n: nat): State {
    if !s.teardown.Visiting? || n !in s.teardown.rest || n >= |s.services| then s
    else
      var svc := s.services[n];
      var visited := s.(teardown := Visiting(s.teardown.all, s.teardown.rest - {n}));
      match svc.guard
      case Fresh => SetService(visited, n, svc.(guard := Done, localCloses := svc.localCloses + 1))
      case Running => s
      case Done => visited
  }

  // ----- Runs -----

  function Apply(s: State, a: Action): State {
    match a
    case Listen => DoListen(s)
    case Add(n, reply) => DoAdd(s, n, reply)
    case Register(n) => DoRegister(s, n)
    case Dispatch(address, ev) => DoDispatch(s, address, ev)
    case Handle => DoHandle(s)
    case Wait(n) => if IsHanded(s, n) then s.(waiters := s.waiters + [Selecting(n)]) else s
    case SeePublished(w) => DoSeePublished(s, w)
    case ReadError(w) => DoReadError(s, w)
    case CancelWait(w) => if Waits(s, w) then SetWaiter(s, w, Returned(s.waiters[w].n, Cancelled)) else s
    case SeeDone(w) => if Waits(s, w) && s.done then SetWaiter(s, w, Returned(s.waiters[w].n, ClientGone)) else s
    case Close(n) => DoClose(s, n)
    case CloseStep(c) => DoCloseStep(s, c)
    case CloseClient => DoCloseClient(s)
    case CloseDone => DoCloseDone(s)
    case CloseLocal(n) => DoCloseLocal(s, n)
  }

  function Run(s: State, actions: seq<Action>): State
    decreases |actions|
  {
    if actions == [] then s else Apply(Run(s, Init(actions)), Last(actions))
  }
}
