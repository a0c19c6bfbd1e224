/** Why no wakeup is lost: the invariant of the `Bootstrap` goroutines. */
module ClientWakeup {
  import opened Sequences
  import opened StatusModel
  import opened ClientMachine
  import opened ClientProofs

  /** A `Bootstrap` call that has a subscription to give back. */
  ghost predicate Holds(b: Boot) {
    b.Subscribed? || b.Waiting? || b.Leaving?
  }

  /** The pump has written a status to the cache and not yet offered it to `ch`. */
  ghost predicate Pending(h: Hub, pump: Pump, ch: nat) {
    pump.Locking? || (pump.Sending? && exists k :: pump.next <= k < |h.subscribers| && h.subscribers[k] == ch)
  }

  ghost predicate NoneReady(s: seq<Status>) {
    forall i :: 0 <= i < |s| ==> !s[i].ready
  }

  /** A waiting call has seen no readiness, and none happened before its first offer. */
  ghost predicate BootOk(h: Hub, pump: Pump, status: Status, b: Boot) {
    Holds(b) ==>
      && b.ch < |h.channels|
      && h.channels[b.ch].internal
      && (b.Subscribed? ==> h.channels[b.ch].received == [])
      && (b.Waiting? ==>
            && NoneReady(h.channels[b.ch].received)
            && (b.ch in h.subscribers && h.channels[b.ch].offered == [] && !Pending(h, pump, b.ch) ==>
                  !status.ready))
  }

  ghost predicate BootInv(h: Hub, pump: Pump, status: Status, boots: map<nat, Boot>) {
    && (forall t :: t in boots ==> BootOk(h, pump, status, boots[t]))
    && (forall t, u :: t in boots && u in boots && t != u && Holds(boots[t]) && Holds(boots[u]) ==>
          boots[t].ch != boots[u].ch)
  }

  /** Channels that no `Bootstrap` call holds may change freely; the others keep their subscription. */
  ghost predicate SameHeld(h: Hub, h': Hub, ch: nat) {
    ch < |h.channels| ==>
      && ch < |h'.channels|
      && h'.channels[ch].internal == h.channels[ch].internal
      && h'.channels[ch].received == h.channels[ch].received
      && (ch in h'.subscribers ==> ch in h.subscribers && h'.channels[ch].offered == h.channels[ch].offered)
  }

  lemma HubChanges(h: Hub, h': Hub, pump: Pump, status: Status, boots: map<nat, Boot>)
    requires BootInv(h, pump, status, boots) && !pump.Sending?
    requires forall ch :: 0 <= ch < |h.channels| && h.channels[ch].internal ==> SameHeld(h, h', ch)
    ensures BootInv(h', pump, status, boots)
  {
  }

  /** Readers of non-internal channels are invisible to `Bootstrap`, even during a fan-out. */
  lemma OthersReceive(h: Hub, pump: Pump, status: Status, boots: map<nat, Boot>, ch: nat, c: Channel)
    requires BootInv(h, pump, status, boots)
    requires ch < |h.channels| && !h.channels[ch].internal && !c.internal
    ensures BootInv(SetChan(h, ch, c), pump, status, boots)
  {
  }

  /** The goroutine `t` moves; its channel changes only as its own receive changes it. */
  lemma BootMoves(h: Hub, pump: Pump, status: Status, boots: map<nat, Boot>, t: nat, b: Boot)
    requires BootInv(h, pump, status, boots)
    requires BootOk(h, pump, status, b)
    requires Holds(b) ==> forall u :: u in boots && u != t && Holds(boots[u]) ==> boots[u].ch != b.ch
    ensures BootInv(h, pump, status, boots[t := b])
  {
  }

  /** One channel operation of a fan-out leaves every waiting call covered. */
  lemma SendCovers(h: Hub, pump: Pump, status: Status, b: Boot)
    requires BootOk(h, pump, status, b)
    requires pump.Sending? && pump.next < |h.subscribers| && h.subscribers[pump.next] < |h.channels|
    requires pump.stage == Retry ==> |h.channels[h.subscribers[pump.next]].buf| < STATUS_BUFFER
    requires !h.channels[h.subscribers[pump.next]].closed
    ensures var (h', pump') := SendOne(h, pump.st, pump.next, pump.stage); BootOk(h', pump', status, b)
  {
  }

  // ----- Where readiness comes from -----

  /** Arti was seen ready, by the watcher or by a direct query. */
  ghost predicate SeenReady(s: State) {
    (exists a :: a in s.rust.observed && a.ready) || (exists a :: a in s.asked && a.ready)
  }

  /** A ready status on its way to Go carries a summary and comes from a ready Arti. */
  lemma {:induction false} EmittedReady(stream: seq<ArtiStatus>, st: Status)
    requires st in Statuses(Emitted(stream)) && st.ready
    ensures st.summary != ""
    ensures exists a :: a in stream && a.ready
    decreases |stream|
  {
    var before, a := Init(stream), Last(stream);
    assert stream == before + [a];
    EmittedSnoc(before, a);
    var e := EventOf(Summarize(a));
    StatusesSnoc(Emitted(before), e);
    ReadinessAgrees(a);
    if st in Statuses(Emitted(before)) {
      EmittedReady(before, st);
    } else {
      assert st == StatusOfEvent(e);
      assert a in stream && a.ready;
    }
  }

  /** The cache never holds a ready status without a summary. */
  lemma CachedReady(s: State)
    requires PipeInv(s) && s.status.ready
    ensures s.status.summary != ""
  {
    var held := Taken(s.fanned, s.pump) + Statuses(s.rust.queue);
    assert s.status in held;
    SubsequenceMember(held, s.rust.emitted, s.status);
    EmittedReady(s.rust.observed, s.status);
  }

  lemma BufferedReady(s: State, ch: nat)
    requires PipeInv(s) && DeliveryInv(s.hub, s.fanned, s.pump)
    requires ch < |s.hub.channels| && s.hub.channels[ch].buf != [] && s.hub.channels[ch].buf[0].ready
    ensures SeenReady(s)
  {
    var c := s.hub.channels[ch];
    var st := c.buf[0];
    assert st == Delivered(c)[|c.received|];
    SubsequenceMember(Delivered(c), c.offered, st);
    var held := Taken(s.fanned, s.pump) + Statuses(s.rust.queue);
    assert st in held;
    SubsequenceMember(held, s.rust.emitted, st);
    EmittedReady(s.rust.observed, st);
  }

  // ----- The invariant of the whole machine -----

  /** A call only succeeds once Arti has been seen ready. */
  ghost predicate SuccessInv(s: State) {
    forall t ::
      t in s.boots && (s.boots[t] == Returned(Success) || (s.boots[t].Leaving? && s.boots[t].result == Success)) ==>
      SeenReady(s)
  }

  ghost predicate Inv(s: State) {
    && PipeInv(s)
    && CloseInv(s)
    && DeliveryInv(s.hub, s.fanned, s.pump)
    && BootInv(s.hub, s.pump, s.status, s.boots)
    && SuccessInv(s)
  }

  /** The fan-out begins: every subscriber has it pending. */
  lemma LockCovers(h: Hub, pump: Pump, status: Status, b: Boot, st: Status)
    requires BootOk(h, pump, status, b) && pump == Locking(st)
    ensures BootOk(h, Sending(st, 0, TrySend), status, b)
  {
  }

  /** The other steps of the pump: a status is cached before it is fanned out. */
  lemma RestCovers(s: State, op: PumpOp, b: Boot)
    requires BootOk(s.hub, s.pump, s.status, b)
    requires op == Lock ==> !s.pump.Locking?
    requires op == Send && s.pump.Sending? ==> s.pump.next >= |s.hub.subscribers|
    ensures var s' := PumpDo(s, op); BootOk(s'.hub, s'.pump, s'.status, b)
  {
  }

  /** The channel a fan-out is at is open, and has room when it was made there. */
  ghost predicate Serviceable(h: Hub, pump: Pump) {
    pump.Sending? && pump.next < |h.subscribers| ==>
      var ch := h.subscribers[pump.next];
      ch < |h.channels| && !h.channels[ch].closed && (pump.stage == Retry ==> |h.channels[ch].buf| < STATUS_BUFFER)
  }

  lemma FanOutServiceable(s: State)
    requires CloseInv(s) && DeliveryInv(s.hub, s.fanned, s.pump)
    ensures Serviceable(s.hub, s.pump)
  {
  }

  lemma PumpCoversOne(s: State, op: PumpOp, b: Boot)
    requires BootOk(s.hub, s.pump, s.status, b) && Serviceable(s.hub, s.pump)
    ensures var s' := PumpDo(s, op); BootOk(s'.hub, s'.pump, s'.status, b) && s'.boots == s.boots
  {
    if op == Send && s.pump.Sending? && s.pump.next < |s.hub.subscribers| {
      SendCovers(s.hub, s.pump, s.status, b);
    } else if op == Lock && s.pump.Locking? {
      LockCovers(s.hub, s.pump, s.status, b, s.pump.st);
    } else {
      RestCovers(s, op, b);
    }
  }

  lemma PumpKeepsBoots(s: State, op: PumpOp)
    ensures PumpDo(s, op).boots == s.boots
  {
  }

  lemma PumpCovers(s: State, op: PumpOp)
    requires Inv(s)
    ensures var s' := PumpDo(s, op); BootInv(s'.hub, s'.pump, s'.status, s'.boots)
  {
    FanOutServiceable(s);
    PumpKeepsBoots(s, op);
    forall t | t in s.boots
      ensures BootOk(PumpDo(s, op).hub, PumpDo(s, op).pump, PumpDo(s, op).status, s.boots[t])
    {
      assert BootOk(s.hub, s.pump, s.status, s.boots[t]);
      PumpCoversOne(s, op, s.boots[t]);
    }
  }

  lemma QueryCovers(s: State, t: nat, answer: Option<ArtiStatus>)
    requires Inv(s) && t in s.boots && s.boots[t].Subscribed?
    ensures var s' := DoQuery(s, t, s.boots[t].ch, answer); BootInv(s'.hub, s'.pump, s'.status, s'.boots)
  {
    var b := s.boots[t];
    assert BootOk(s.hub, s.pump, s.status, b);
    if s.status.ready { CachedReady(s); }
    var s' := DoQuery(s, t, b.ch, answer);
    BootMoves(s.hub, s.pump, s.status, s.boots, t, s'.boots[t]);
  }

  lemma WaitCovers(s: State, t: nat)
    requires Inv(s) && t in s.boots && s.boots[t].Waiting?
    ensures var s' := DoWait(s, t, s.boots[t].ch); BootInv(s'.hub, s'.pump, s'.status, s'.boots)
  {
    var b := s.boots[t];
    assert BootOk(s.hub, s.pump, s.status, b);
    var c := s.hub.channels[b.ch];
    if c.buf != [] {
      TakeCovers(s.hub, s.pump, s.status, s.boots, t);
    } else if c.closed {
      BootMoves(s.hub, s.pump, s.status, s.boots, t, Leaving(b.ch, ClientClosed));
    }
  }

  lemma TakeCovers(h: Hub, pump: Pump, status: Status, boots: map<nat, Boot>, t: nat)
    requires BootInv(h, pump, status, boots) && t in boots && boots[t].Waiting?
    requires boots[t].ch < |h.channels| && h.channels[boots[t].ch].buf != []
    ensures var ch := boots[t].ch;
            var c := h.channels[ch];
            BootInv(SetChan(h, ch, Take(c)), pump, status,
                    boots[t := if c.buf[0].ready then Leaving(ch, Success) else Waiting(ch)])
  {
  }

  lemma NewHeldChannel(s: State, internal: bool)
    requires BootInv(s.hub, s.pump, s.status, s.boots) && !s.pump.Sending?
    ensures BootInv(AddChannel(s.hub, internal, |s.fanned|), s.pump, s.status, s.boots)
  {
  }

  /** Closing a channel takes nothing from a `Bootstrap` that holds it. */
  lemma ClosingCovers(h: Hub, pump: Pump, status: Status, boots: map<nat, Boot>, ch: nat)
    requires BootInv(h, pump, status, boots)
    ensures BootInv(CloseChan(h, ch), pump, status, boots)
  {
    forall t | t in boots
      ensures BootOk(CloseChan(h, ch), pump, status, boots[t])
    {
      assert BootOk(h, pump, status, boots[t]);
    }
  }

  lemma DropCovers(s: State, ch: nat)
    requires BootInv(s.hub, s.pump, s.status, s.boots) && Ascending(s.hub.subscribers) && !s.pump.Sending?
    ensures BootInv(DropChannel(s.hub, ch), s.pump, s.status, s.boots)
  {
    if ch in s.hub.subscribers {
      RemoveAscending(s.hub.subscribers, ch);
      var fewer := s.hub.(subscribers := Remove(s.hub.subscribers, ch));
      HubChanges(s.hub, fewer, s.pump, s.status, s.boots);
      ClosingCovers(fewer, s.pump, s.status, s.boots, ch);
    }
  }

  lemma BootCovers(s: State, t: nat, op: BootOp)
    requires Inv(s)
    ensures var s' := BootDo(s, t, op); BootInv(s'.hub, s'.pump, s'.status, s'.boots)
  {
    if op.Enter? {
      if t !in s.boots {
        BootMoves(s.hub, s.pump, s.status, s.boots, t, BootDo(s, t, op).boots[t]);
      }
    } else if t in s.boots {
      var b := s.boots[t];
      assert BootOk(s.hub, s.pump, s.status, b);
      match op {
        case Subscribe =>
          if b.Entered? && MuFree(s) {
            NewHeldChannel(s, true);
            var h := AddChannel(s.hub, true, |s.fanned|);
            BootMoves(h, s.pump, s.status, s.boots, t, Subscribed(|s.hub.channels|));
          }
        case Query(answer) => if b.Subscribed? { QueryCovers(s, t, answer); }
        case Wait => if b.Waiting? { WaitCovers(s, t); }
        case Cancel => if b.Waiting? { BootMoves(s.hub, s.pump, s.status, s.boots, t, Leaving(b.ch, Cancelled)); }
        case SeeDone => if b.Waiting? { BootMoves(s.hub, s.pump, s.status, s.boots, t, Leaving(b.ch, ClientClosed)); }
        case Leave =>
          if b.Leaving? && MuFree(s) {
            DropCovers(s, b.ch);
            BootMoves(DropChannel(s.hub, b.ch), s.pump, s.status, s.boots, t, Returned(b.result));
          }
      }
    }
  }

  lemma CloseEnterCovers(s: State, t: nat)
    requires BootInv(s.hub, s.pump, s.status, s.boots)
    ensures BootInv(DoCloseEnter(s, t).hub, s.pump, s.status, s.boots)
  {
  }

  lemma PanicCovers(h: Hub, pump: Pump, status: Status, boots: map<nat, Boot>, panicked: bool)
    requires BootInv(h, pump, status, boots)
    ensures BootInv(h.(panicked := panicked), pump, status, boots)
  {
  }

  lemma CloseStepCovers(s: State, t: nat)
    requires BootInv(s.hub, s.pump, s.status, s.boots)
    ensures BootInv(DoCloseStep(s, t).hub, s.pump, s.status, s.boots)
  {
    PanicCovers(s.hub, s.pump, s.status, s.boots, s.hub.panicked || s.done);
    if t in s.closers && s.closers[t].ClosingSubs? && s.closers[t].next < |s.closers[t].subs| {
      ClosingCovers(s.hub, s.pump, s.status, s.boots, s.closers[t].subs[s.closers[t].next]);
    }
  }

  lemma BootKept(s: State, a: Action)
    requires Inv(s)
    ensures var s' := Apply(s, a); BootInv(s'.hub, s'.pump, s'.status, s'.boots)
  {
    match a {
      case Observe(x) =>
      case EmitDesc(action, address, reason) =>
      case Pumping(op) => PumpCovers(s, op);
      case Booting(t, op) => BootCovers(s, t, op);
      case StatusUpdates => if MuFree(s) { NewHeldChannel(s, false); }
      case Unsubscribe(ch) => if MuFree(s) { DropCovers(s, ch); }
      case Receive(ch) =>
        if !Chan(s.hub, ch).internal && Chan(s.hub, ch).buf != [] {
          OthersReceive(s.hub, s.pump, s.status, s.boots, ch, Take(Chan(s.hub, ch)));
        }
      case CloseEnter(t) => CloseEnterCovers(s, t);
      case CloseStep(t) => CloseStepCovers(s, t);
    }
  }
}
