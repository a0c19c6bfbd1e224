/** The handle that crosses the FFI boundary, its RWMutex, and the onion services behind it
    (internal/arti/cgo.go, rust/arti-ffi/src/client.rs, rust/arti-ffi/src/ffi.rs).

    Any number of threads make any calls. The RWMutex is Go's: writers queue among themselves,
    the one at the head announces itself, readers that arrive after the announcement park, and
    an unlocking writer turns every parked reader into a reader before the next writer may
    announce. A step that is not enabled leaves the state unchanged. */
module HandleMachine {
  import opened Sequences

  /** Calls made under the read lock. `Other` is any call that only reads and returns. */
  datatype Call = Wait | Shutdown | Add(id: string) | Del(id: string) | Other

  datatype Stage = Begin | Draining | Signal

  /** `held` are the service instances a call has in hand: just launched, or taken from the map. */
  datatype Thread =
    | Idle
    | Parked(call: Call)
    | Reading(call: Call)
    | Inside(call: Call, stage: Stage, held: set<nat>)
    | Queued
    | Announced
    | Freeing(stage: Stage, held: set<nat>)

  /** Where a launched instance is. */
  datatype Place = Held(t: nat) | Mapped(id: string) | Shut | Replaced

  /** The Rust client: its service map, its exit flag, and every instance ever launched. */
  datatype Backend = Backend(
    services: map<string, nat>, exit: bool,
    ids: seq<string>, places: seq<Place>, shutTwice: bool)

  datatype State = State(
    handle: bool, freed: nat, announced: Option<nat>, threads: seq<Thread>, backend: Backend)

  datatype Action =
    | Spawn
    | Request(t: nat, call: Call)
    | RequestFree(t: nat)
    | Announce(t: nat)
    // one step of a thread that holds or is next for the lock: `ok` is whether a launch
    // succeeds, `pick` which drained service comes next
    | Step(t: nat, ok: bool, pick: nat)

  const START := State(true, 0, None, [], Backend(map[], false, [], [], false))

  // ----- The Rust client -----

  /** The drain at the head of `shutdown`. */
  function Drain(b: Backend, t: nat): (Backend, set<nat>) {
    var all := b.services.Values;
    (b.(services := map[],
        places := seq(|b.places|, i requires 0 <= i < |b.places| => if i in all then Held(t) else b.places[i])),
     all)
  }

  /** `svc.shutdown()`. */
  function ShutDown(b: Backend, i: nat): Backend {
    if i < |b.places|
    then b.(places := b.places[i := Shut], shutTwice := b.shutTwice || b.places[i] == Shut)
    else b
  }

  function Launch(b: Backend, t: nat, id: string): (Backend, nat) {
    (b.(ids := b.ids + [id], places := b.places + [Held(t)]), |b.places|)
  }

  /** The map insert of `onion_add`: a service already there under this id is dropped unshut. */
  function Insert(b: Backend, id: string, i: nat): Backend {
    var places :=
      if id in b.services && b.services[id] < |b.places| then b.places[b.services[id] := Replaced] else b.places;
    b.(services := b.services[id := i],
       places := if i < |places| then places[i := Mapped(id)] else places)
  }

  function TakeOut(b: Backend, t: nat, id: string): (Backend, nat)
    requires id in b.services
  {
    var i := b.services[id];
    (b.(services := b.services - {id}, places := if i < |b.places| then b.places[i := Held(t)] else b.places), i)
  }

  // ----- The lock -----

  predicate IsReader(th: Thread) { th.Reading? || th.Inside? }

  predicate NoReaders(threads: seq<Thread>) {
    forall t :: 0 <= t < |threads| ==> !IsReader(threads[t])
  }

  /** Readers parked behind the writer all get the lock at once. */
  function Woken(threads: seq<Thread>): seq<Thread> {
    seq(|threads|, t requires 0 <= t < |threads| =>
      if threads[t].Parked? then Reading(threads[t].call) else threads[t])
  }

  function Set(s: State, t: nat, th: Thread): State
    requires t < |s.threads|
  {
    s.(threads := s.threads[t := th])
  }

  function Unlock(s: State, t: nat): State
    requires t < |s.threads|
  {
    s.(announced := None, threads := Woken(s.threads[t := Idle]))
  }

  // ----- Calls -----

  /** One step inside an FFI call. */
  function InsideStep(s: State, t: nat, call: Call, stage: Stage, held: set<nat>, ok: bool, pick: nat): State
    requires t < |s.threads|
  {
    match call
    case Wait => if s.backend.exit then Set(s, t, Idle) else s
    case Other => Set(s, t, Idle)
    case Add(id) =>
      if stage == Begin then
        if !ok then Set(s, t, Idle)
        else
          var (b, i) := Launch(s.backend, t, id);
          Set(s.(backend := b), t, Inside(call, Draining, {i}))
      else if pick in held then Set(s.(backend := Insert(s.backend, id, pick)), t, Idle)
      else s
    case Del(id) =>
      if stage == Begin then
        if id !in s.backend.services then Set(s, t, Idle)
        else
          var (b, i) := TakeOut(s.backend, t, id);
          Set(s.(backend := b), t, Inside(call, Draining, {i}))
      else if pick in held then Set(s.(backend := ShutDown(s.backend, pick)), t, Idle)
      else s
    case Shutdown =>
      if stage == Begin then
        var (b, all) := Drain(s.backend, t);
        Set(s.(backend := b), t, Inside(call, Draining, all))
      else if stage == Draining then
        if held == {} then Set(s, t, Inside(call, Signal, held))
        else if pick in held then
          Set(s.(backend := ShutDown(s.backend, pick)), t, Inside(call, Draining, held - {pick}))
        else s
      else Set(s.(backend := s.backend.(exit := true)), t, Idle)
  }

  /** `free`, under the write lock: a second `shutdown`, then the drop. */
  function FreeStep(s: State, t: nat, stage: Stage, held: set<nat>, pick: nat): State
    requires t < |s.threads|
  {
    if stage == Begin then
      if !s.handle then Unlock(s, t)
      else
        var (b, all) := Drain(s.backend, t);
        Set(s.(backend := b), t, Freeing(Draining, all))
    else if stage == Draining then
      if held == {} then Set(s, t, Freeing(Signal, held))
      else if pick in held then
        Set(s.(backend := ShutDown(s.backend, pick)), t, Freeing(Draining, held - {pick}))
      else s
    else Unlock(s.(backend := s.backend.(exit := true), handle := false, freed := s.freed + 1), t)
  }

  function DoStep(s: State, t: nat, ok: bool, pick: nat): State
    requires t < |s.threads|
  {
    match s.threads[t]
    case Reading(call) => Set(s, t, if s.handle then Inside(call, Begin, {}) else Idle)
    case Inside(call, stage, held) => InsideStep(s, t, call, stage, held, ok, pick)
    case Announced => if NoReaders(s.threads) then Set(s, t, Freeing(Begin, {})) else s
    case Freeing(stage, held) => FreeStep(s, t, stage, held, pick)
    case _ => s
  }

  function Apply(s: State, a: Action): State {
    match a
    case Spawn => s.(threads := s.threads + [Idle])
    case Request(t, call) =>
      if t < |s.threads| && s.threads[t].Idle?
      then Set(s, t, if s.announced.None? then Reading(call) else Parked(call)) else s
    case RequestFree(t) =>
      if t < |s.threads| && s.threads[t].Idle? then Set(s, t, Queued) else s
    case Announce(t) =>
      if t < |s.threads| && s.threads[t].Queued? && s.announced.None?
      then Set(s, t, Announced).(announced := Some(t)) else s
    case Step(t, ok, pick) => if t < |s.threads| then DoStep(s, t, ok, pick) else s
  }

  function Run(s: State, actions: seq<Action>): State
    decreases |actions|
  {
    if actions == [] then s else Apply(Run(s, Init(actions)), Last(actions))
  }

  lemma {:induction false} RunConcat(s: State, a: seq<Action>, b: seq<Action>)
    ensures Run(s, a + b) == Run(Run(s, a), b)
    decreases |b|
  {
    if b == [] {
      assert a + b == a;
    } else {
      assert Init(a + b) == a + Init(b) && Last(a + b) == Last(b);
      RunConcat(s, a, Init(b));
    }
  }
}
