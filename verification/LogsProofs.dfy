/** What every run of the log fan-out keeps. */
module LogsProofs {
  import opened Sequences
  import opened LogsMachine

  // ----- The hub -----

  ghost predicate Listed(h: Hub) {
    && (forall i :: 0 <= i < |h.listed| ==> h.listed[i] < |h.channels|)
    && (forall i, j :: 0 <= i < j < |h.listed| ==> h.listed[i] != h.listed[j])
    && (forall ch :: 0 <= ch < |h.channels| ==> (!h.channels[ch].closed <==> ch in h.listed))
  }

  /** Exactly the newest pump's stop channel is open while started, and none otherwise. */
  ghost predicate Stops(h: Hub) {
    && (h.started ==> h.stops != [])
    && forall p :: 0 <= p < |h.stops| ==> (!h.stops[p] <==> h.started && p == |h.stops| - 1)
  }

  ghost predicate HubInv(h: Hub) {
    Listed(h) && Stops(h) && (!h.started ==> h.listed == []) && !h.panicked
  }

  lemma {:induction false} CloseAllCloses(h: Hub, chs: seq<nat>)
    requires forall i :: 0 <= i < |chs| ==> chs[i] < |h.channels| && !h.channels[chs[i]].closed
    requires forall i, j :: 0 <= i < j < |chs| ==> chs[i] != chs[j]
    ensures var h' := CloseAll(h, chs);
            && |h'.channels| == |h.channels|
            && (forall ch :: 0 <= ch < |h.channels| ==>
                  h'.channels[ch] == if ch in chs then h.channels[ch].(closed := true) else h.channels[ch])
            && h' == h.(channels := h'.channels)
    decreases |chs|
  {
    if chs != [] {
      CloseAllCloses(h, Init(chs));
      assert chs == Init(chs) + [Last(chs)];
      assert Last(chs) !in Init(chs);
    }
  }

  lemma StopKeepsHub(h: Hub)
    requires HubInv(h)
    ensures HubInv(StopHub(h)) && |StopHub(h).channels| == |h.channels|
    ensures !StopHub(h).started
    ensures forall ch :: 0 <= ch < |h.channels| ==> StopHub(h).channels[ch] == h.channels[ch].(closed := true)
  {
    if h.started {
      var last := |h.stops| - 1;
      var stopped := h.(started := false, stops := h.stops[last := true], panicked := h.panicked || h.stops[last]);
      CloseAllCloses(stopped, h.listed);
    }
  }

  lemma EnableKeepsHub(h: Hub)
    requires HubInv(h)
    ensures h.started ==> HubInv(AddChannel(h))
    ensures !h.started ==> HubInv(AddChannel(StartPump(h)))
  {
  }

  lemma TrySendKeepsHub(h: Hub, next: nat, d: Delivery)
    requires HubInv(h) && next < |h.listed|
    ensures HubInv(TrySend(h, h.listed[next], d))
  {
  }

  lemma ReceiveKeepsHub(h: Hub, ch: nat)
    requires HubInv(h)
    ensures HubInv(DoReceive(h, ch))
  {
  }

  lemma HubKept(s: State, a: Action)
    requires HubInv(s.hub)
    ensures HubInv(Apply(s, a).hub)
  {
    match a {
      case Enable(_, _) => EnableKeepsHub(s.hub);
      case Stop => StopKeepsHub(s.hub);
      case Receive(ch) => ReceiveKeepsHub(s.hub, ch);
      case Step(p) =>
        if p < |s.pumps| && s.pumps[p].stage.Sending? && s.pumps[p].stage.next < |s.hub.listed| {
          TrySendKeepsHub(s.hub, s.pumps[p].stage.next, Delivery(p, s.pumps[p].stage.record));
        }
      case _ =>
    }
  }

  // ----- The pumps -----

  /** One pump at a time holds `logMu`, and only while started; a pump told to stop sends at most once more. */
  ghost predicate PumpOk(s: State, p: nat)
    requires p < |s.pumps| <= |s.hub.stops|
  {
    var x := s.pumps[p];
    && (x.stage.Sending? ==> s.hub.started && x.stage.next <= |s.hub.listed|)
    && x.late <= 1
    && (x.late == 1 ==> s.hub.stops[p] && (x.stage.Sending? || x.stage.Checking? || x.stage.Exited?))
    && (x.stage.Exited? ==> s.hub.stops[p])
  }

  ghost predicate PumpsInv(s: State) {
    && |s.pumps| == |s.hub.stops|
    && (forall p :: 0 <= p < |s.pumps| ==> PumpOk(s, p))
    && (forall p, q :: 0 <= p < |s.pumps| && 0 <= q < |s.pumps| && p != q ==>
          !(s.pumps[p].stage.Sending? && s.pumps[q].stage.Sending?))
  }

  lemma StopStops(h: Hub)
    requires HubInv(h)
    ensures |StopHub(h).stops| == |h.stops|
    ensures forall p :: 0 <= p < |h.stops| ==> StopHub(h).stops[p]
  {
    StopKeepsHub(h);
    if h.started {
      var last := |h.stops| - 1;
      var stopped := h.(started := false, stops := h.stops[last := true], panicked := h.panicked || h.stops[last]);
      CloseAllCloses(stopped, h.listed);
    }
  }

  /** One pump moves on, leaving the lists alone. */
  lemma PumpMoves(s: State, s': State, p: nat)
    requires PumpsInv(s) && p < |s.pumps| == |s'.pumps|
    requires forall q :: 0 <= q < |s.pumps| && q != p ==> s'.pumps[q] == s.pumps[q]
    requires s'.hub.stops == s.hub.stops && s'.hub.started == s.hub.started && s'.hub.listed == s.hub.listed
    requires PumpOk(s', p)
    requires s'.pumps[p].stage.Sending? ==> s.pumps[p].stage.Sending? || MuFree(s)
    ensures PumpsInv(s')
  {
    forall q | 0 <= q < |s'.pumps| ensures PumpOk(s', q) {
      assert PumpOk(s, q);
    }
  }

  lemma StepIsOk(s: State, p: nat)
    requires PumpsInv(s) && p < |s.pumps|
    ensures PumpOk(DoStep(s, p), p)
  {
    assert PumpOk(s, p);
  }

  lemma StepTouches(s: State, p: nat)
    requires p < |s.pumps|
    ensures var s' := DoStep(s, p);
            && |s'.pumps| == |s.pumps| && (forall q :: 0 <= q < |s.pumps| && q != p ==> s'.pumps[q] == s.pumps[q])
            && s'.hub.stops == s.hub.stops && s'.hub.started == s.hub.started && s'.hub.listed == s.hub.listed
            && (s'.pumps[p].stage.Sending? ==> s.pumps[p].stage.Sending? || MuFree(s))
  {
  }

  lemma StepKeepsPumps(s: State, p: nat)
    requires PumpsInv(s) && p < |s.pumps|
    ensures PumpsInv(DoStep(s, p))
  {
    StepTouches(s, p);
    StepIsOk(s, p);
    PumpMoves(s, DoStep(s, p), p);
  }

  lemma PumpsKept(s: State, a: Action)
    requires HubInv(s.hub) && PumpsInv(s)
    ensures PumpsInv(Apply(s, a))
  {
    var s' := Apply(s, a);
    if a.Step? {
      if a.p < |s.pumps| {
        StepKeepsPumps(s, a.p);
      }
    } else {
      if a.Stop? {
        StopStops(s.hub);
      }
      forall q | 0 <= q < |s'.pumps| ensures |s'.pumps| == |s'.hub.stops| && PumpOk(s', q) {
        assert q < |s.pumps| ==> PumpOk(s, q);
      }
    }
  }

  // ----- The records -----

  function Records(ds: seq<Delivery>): seq<nat> {
    seq(|ds|, i requires 0 <= i < |ds| => ds[i].record)
  }

  /** What reached one channel: no record twice, and each pump's records in order. */
  ghost predicate InOrder(ds: seq<Delivery>) {
    forall i, j :: 0 <= i < j < |ds| ==>
      ds[i].record != ds[j].record && (ds[i].pump == ds[j].pump ==> ds[i].record < ds[j].record)
  }

  ghost predicate ChannelOk(c: Channel, mark: nat) {
    && InOrder(c.offered)
    && Records(c.offered) == c.received + c.buf
    && |c.buf| <= LOG_BUFFER
    && forall d :: d in c.offered ==> d.record < mark
  }

  predicate InHand(x: Pump) { x.stage.Holding? || x.stage.Sending? }

  /** A channel the pump in this stage has already visited. */
  predicate Done(h: Hub, stage: Stage, ch: nat) {
    stage.Sending? && stage.next <= |h.listed| && ch in h.listed[..stage.next]
  }

  /** A record in a pump's hand is still to come on every channel that pump has not visited. */
  ghost predicate HandOk(h: Hub, p: nat, stage: Stage)
    requires stage.Holding? || stage.Sending?
  {
    forall ch :: 0 <= ch < |h.channels| ==> forall d :: d in h.channels[ch].offered ==>
      || (d.record != stage.record && (d.pump == p ==> d.record < stage.record))
      || (d == Delivery(p, stage.record) && Done(h, stage, ch))
  }

  ghost predicate QueueOk(s: State) {
    && s.mark <= s.emitted
    && (forall i :: 0 <= i < |s.queue| ==> s.mark <= s.queue[i] < s.emitted)
    && forall i, j :: 0 <= i < j < |s.queue| ==> s.queue[i] < s.queue[j]
  }

  ghost predicate HandsOk(s: State) {
    && (forall p :: 0 <= p < |s.pumps| && InHand(s.pumps[p]) ==>
          s.pumps[p].stage.record < s.mark && HandOk(s.hub, p, s.pumps[p].stage))
    && (forall p, q ::
          0 <= p < |s.pumps| && 0 <= q < |s.pumps| && p != q && InHand(s.pumps[p]) && InHand(s.pumps[q]) ==>
          s.pumps[p].stage.record != s.pumps[q].stage.record)
  }

  ghost predicate RecordsInv(s: State) {
    && QueueOk(s)
    && (forall ch :: 0 <= ch < |s.hub.channels| ==> ChannelOk(s.hub.channels[ch], s.mark))
    && HandsOk(s)
  }

  lemma AppendInOrder(ds: seq<Delivery>, d: Delivery)
    requires InOrder(ds)
    requires forall e :: e in ds ==> e.record != d.record && (e.pump == d.pump ==> e.record < d.record)
    ensures InOrder(ds + [d])
  {
  }

  lemma ChannelTakes(c: Channel, d: Delivery, mark: nat)
    requires ChannelOk(c, mark) && |c.buf| < LOG_BUFFER && d.record < mark
    requires forall e :: e in c.offered ==> e.record != d.record && (e.pump == d.pump ==> e.record < d.record)
    ensures ChannelOk(c.(buf := c.buf + [d.record], offered := c.offered + [d]), mark)
  {
    AppendInOrder(c.offered, d);
    assert Records(c.offered + [d]) == Records(c.offered) + [d.record];
  }

  lemma ReceiveKeepsRecords(s: State, ch: nat)
    requires RecordsInv(s)
    ensures RecordsInv(s.(hub := DoReceive(s.hub, ch)))
  {
    var h' := DoReceive(s.hub, ch);
    var c := Chan(s.hub, ch);
    if ch < |s.hub.channels| && c.buf != [] {
      assert c.received + [c.buf[0]] + c.buf[1..] == c.received + c.buf;
      assert ChannelOk(h'.channels[ch], s.mark);
    }
    HandsCarry(s, s.(hub := h'));
  }

  /** Steps that leave pumps, deliveries and visited lists alone. */
  lemma HandsCarry(s: State, s': State)
    requires HandsOk(s) && s.mark <= s'.mark
    requires |s.pumps| <= |s'.pumps| && (forall p :: 0 <= p < |s.pumps| ==> s'.pumps[p] == s.pumps[p])
    requires forall p :: |s.pumps| <= p < |s'.pumps| ==> !InHand(s'.pumps[p])
    requires |s.hub.channels| <= |s'.hub.channels|
    requires forall ch :: 0 <= ch < |s.hub.channels| ==> s'.hub.channels[ch].offered == s.hub.channels[ch].offered
    requires forall ch :: |s.hub.channels| <= ch < |s'.hub.channels| ==> s'.hub.channels[ch].offered == []
    requires s'.hub.listed == s.hub.listed || MuFree(s)
    ensures HandsOk(s')
  {
  }

  lemma StopKeepsRecords(s: State)
    requires RecordsInv(s) && HubInv(s.hub) && MuFree(s)
    ensures RecordsInv(s.(hub := StopHub(s.hub)))
  {
    var s' := s.(hub := StopHub(s.hub));
    StopKeepsHub(s.hub);
    forall ch | 0 <= ch < |s'.hub.channels| ensures ChannelOk(s'.hub.channels[ch], s'.mark) {
      assert ChannelOk(s.hub.channels[ch], s.mark);
    }
    HandsCarry(s, s');
  }

  lemma EnableKeepsRecords(s: State, level: string, parses: bool)
    requires RecordsInv(s) && MuFree(s)
    ensures RecordsInv(DoEnable(s, level, parses))
  {
    HandsCarry(s, DoEnable(s, level, parses));
  }

  lemma OthersKeepRecords(s: State, a: Action)
    requires RecordsInv(s) && HubInv(s.hub) && (a.Emit? || a.InstallElsewhere? || a.Enable? || a.Stop?)
    ensures RecordsInv(Apply(s, a))
  {
    match a {
      case Stop => if MuFree(s) { StopKeepsRecords(s); }
      case Enable(level, parses) => if MuFree(s) { EnableKeepsRecords(s, level, parses); }
      case _ => HandsCarry(s, Apply(s, a));
    }
  }

  lemma TakeKeepsRecords(s: State, p: nat)
    requires RecordsInv(s) && p < |s.pumps| && s.pumps[p].stage.Polling? && s.queue != []
    ensures RecordsInv(DoStep(s, p))
  {
  }

  /** A pump lets go of its record, or gets the lock for it. */
  lemma HandsRelease(s: State, s': State, p: nat)
    requires HandsOk(s) && p < |s.pumps| == |s'.pumps| && s'.hub == s.hub && s'.mark == s.mark
    requires s'.pumps == s.pumps[p := s'.pumps[p]]
    requires InHand(s'.pumps[p]) ==>
               s.pumps[p].stage.Holding? && s'.pumps[p].stage.record == s.pumps[p].stage.record
    ensures HandsOk(s')
  {
  }

  /** A step of a pump that takes nothing and sends nothing. */
  lemma QuietStep(s: State, p: nat)
    requires p < |s.pumps|
    requires s.pumps[p].stage.Polling? ==> s.queue == []
    requires s.pumps[p].stage.Sending? ==> s.pumps[p].stage.next >= |s.hub.listed|
    ensures var s' := DoStep(s, p);
            && s'.hub == s.hub && s'.mark == s.mark && s'.queue == s.queue && s'.emitted == s.emitted
            && |s'.pumps| == |s.pumps| && s'.pumps == s.pumps[p := s'.pumps[p]]
            && (InHand(s'.pumps[p]) ==>
                  s.pumps[p].stage.Holding? && s'.pumps[p].stage.record == s.pumps[p].stage.record)
  {
  }

  lemma QuietStepKeepsRecords(s: State, p: nat)
    requires RecordsInv(s) && p < |s.pumps|
    requires s.pumps[p].stage.Polling? ==> s.queue == []
    requires s.pumps[p].stage.Sending? ==> s.pumps[p].stage.next >= |s.hub.listed|
    ensures RecordsInv(DoStep(s, p))
  {
    QuietStep(s, p);
    HandsRelease(s, DoStep(s, p), p);
  }

  /** The channel the pump is about to try has not seen the record. */
  lemma NotYetSent(s: State, p: nat)
    requires HubInv(s.hub) && HandsOk(s)
    requires p < |s.pumps| && s.pumps[p].stage.Sending? && s.pumps[p].stage.next < |s.hub.listed|
    ensures var stage, ch := s.pumps[p].stage, s.hub.listed[s.pumps[p].stage.next];
            && ch < |s.hub.channels| && !s.hub.channels[ch].closed
            && forall e :: e in s.hub.channels[ch].offered ==>
                 e.record != stage.record && (e.pump == p ==> e.record < stage.record)
  {
  }

  lemma SendKeepsHand(s: State, p: nat, q: nat)
    requires HubInv(s.hub) && HandsOk(s)
    requires p < |s.pumps| && s.pumps[p].stage.Sending? && s.pumps[p].stage.next < |s.hub.listed|
    requires q < |s.pumps| && InHand(s.pumps[q])
    ensures var s' := DoStep(s, p);
            s'.pumps[q].stage.record == s.pumps[q].stage.record && HandOk(s'.hub, q, s'.pumps[q].stage)
  {
  }

  lemma SendKeepsChannels(s: State, p: nat)
    requires HubInv(s.hub) && RecordsInv(s)
    requires p < |s.pumps| && s.pumps[p].stage.Sending? && s.pumps[p].stage.next < |s.hub.listed|
    ensures forall ch :: 0 <= ch < |DoStep(s, p).hub.channels| ==> ChannelOk(DoStep(s, p).hub.channels[ch], s.mark)
  {
    var stage := s.pumps[p].stage;
    var target := s.hub.listed[stage.next];
    NotYetSent(s, p);
    if |s.hub.channels[target].buf| < LOG_BUFFER {
      ChannelTakes(s.hub.channels[target], Delivery(p, stage.record), s.mark);
    }
  }

  lemma SendKeepsRecords(s: State, p: nat)
    requires HubInv(s.hub) && RecordsInv(s)
    requires p < |s.pumps| && s.pumps[p].stage.Sending? && s.pumps[p].stage.next < |s.hub.listed|
    ensures RecordsInv(DoStep(s, p))
  {
    var s' := DoStep(s, p);
    SendKeepsChannels(s, p);
    assert forall q :: 0 <= q < |s.pumps| ==> (InHand(s'.pumps[q]) <==> InHand(s.pumps[q]));
    forall q | 0 <= q < |s'.pumps| && InHand(s'.pumps[q])
      ensures s'.pumps[q].stage.record == s.pumps[q].stage.record && HandOk(s'.hub, q, s'.pumps[q].stage)
    {
      SendKeepsHand(s, p, q);
    }
  }

  lemma RecordsKept(s: State, a: Action)
    requires HubInv(s.hub) && RecordsInv(s)
    ensures RecordsInv(Apply(s, a))
  {
    match a {
      case Receive(ch) => ReceiveKeepsRecords(s, ch);
      case Step(p) =>
        if p < |s.pumps| {
          if s.pumps[p].stage.Polling? && s.queue != [] {
            TakeKeepsRecords(s, p);
          } else if s.pumps[p].stage.Sending? && s.pumps[p].stage.next < |s.hub.listed| {
            SendKeepsRecords(s, p);
          } else {
            QuietStepKeepsRecords(s, p);
          }
        }
      case _ => OthersKeepRecords(s, a);
    }
  }
}
