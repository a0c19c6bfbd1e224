/** Exactly when a consumer can see log records out of order (internal/arti/logs.go). */
module LogsOrder {
  import opened Sequences
  import opened LogsMachine
  import opened LogsProofs
  import opened LogsTheorems
  import opened Logs

  /** What the consumer of `ch` has been or will be given is out of order. */
  ghost predicate Disordered(s: State, ch: nat) {
    ch < |s.hub.channels| && !Increasing(s.hub.channels[ch].received + s.hub.channels[ch].buf)
  }

  ghost predicate Ascends(ds: seq<Delivery>) {
    forall i, j :: 0 <= i < j < |ds| ==> ds[i].record < ds[j].record
  }

  lemma AscendsIsIncreasing(c: Channel)
    requires Records(c.offered) == c.received + c.buf
    ensures Ascends(c.offered) <==> Increasing(c.received + c.buf)
  {
    var all := c.received + c.buf;
    assert |all| == |c.offered|;
    assert forall i :: 0 <= i < |all| ==> all[i] == c.offered[i].record;
  }

  lemma DisorderedInOffered(s: State, ch: nat)
    requires Inv(s)
    ensures Disordered(s, ch) <==> ch < |s.hub.channels| && !Ascends(s.hub.channels[ch].offered)
  {
    if ch < |s.hub.channels| {
      assert ChannelOk(s.hub.channels[ch], s.mark);
      AscendsIsIncreasing(s.hub.channels[ch]);
    }
  }

  /** A pump past its check of the stop channel, with a record in hand or still to be taken. */
  predicate Active(x: Pump) { x.stage.Polling? || x.stage.Holding? }

  /** Some pump that was told to stop is still past its check. */
  ghost predicate OldPumpActive(s: State) {
    exists p :: 0 <= p < |s.pumps| - 1 && Active(s.pumps[p])
  }

  // ----- Without an active old pump -----

  /** The old pumps can only exit, and the newest pump's record is none below what was delivered. */
  ghost predicate Orderly(s: State, ch: nat) {
    && ch < |s.hub.channels| && Ascends(s.hub.channels[ch].offered)
    && (!s.hub.channels[ch].closed ==>
          && s.pumps != []
          && (forall p :: 0 <= p < |s.pumps| - 1 ==> s.pumps[p].stage.Checking? || s.pumps[p].stage.Exited?)
          && (InHand(Last(s.pumps)) ==>
                forall d :: d in s.hub.channels[ch].offered ==> d.record <= Last(s.pumps).stage.record))
  }

  /** The newest pump takes a record that is above everything delivered. */
  lemma TakeOrderly(s: State, p: nat, ch: nat)
    requires Inv(s) && Orderly(s, ch) && p < |s.pumps| && s.pumps[p].stage.Polling? && s.queue != []
    ensures Orderly(DoStep(s, p), ch)
  {
    assert ChannelOk(s.hub.channels[ch], s.mark);
  }

  /** A step that touches no channel and takes nothing. */
  lemma QuietOrderly(s: State, p: nat, ch: nat)
    requires Inv(s) && Orderly(s, ch) && p < |s.pumps|
    requires s.pumps[p].stage.Polling? ==> s.queue == []
    requires s.pumps[p].stage.Sending? ==> s.pumps[p].stage.next >= |s.hub.listed|
    ensures Orderly(DoStep(s, p), ch)
  {
    QuietStep(s, p);
    if !s.hub.channels[ch].closed && p < |s.pumps| - 1 {
      assert ch in s.hub.listed;
    }
  }

  lemma SendOrderly(s: State, p: nat, ch: nat)
    requires Inv(s) && Orderly(s, ch) && p < |s.pumps| && s.pumps[p].stage.Sending?
    requires s.pumps[p].stage.next < |s.hub.listed|
    ensures Orderly(DoStep(s, p), ch)
  {
    NotYetSent(s, p);
    var target := s.hub.listed[s.pumps[p].stage.next];
    assert target in s.hub.listed;
    var c, c' := s.hub.channels[ch], DoStep(s, p).hub.channels[ch];
    if c' != c {
      assert ch == target && c'.offered == c.offered + [Delivery(p, s.pumps[p].stage.record)];
      assert forall i :: 0 <= i < |c.offered| ==> c.offered[i] in c.offered;
    }
  }

  lemma OthersOrderly(s: State, a: Action, ch: nat)
    requires Inv(s) && Orderly(s, ch) && !a.Step?
    ensures Orderly(Apply(s, a), ch)
  {
    if a.Stop? {
      StopKeepsHub(s.hub);
    }
    assert !s.hub.channels[ch].closed ==> s.hub.started;
  }

  lemma OrderlyKept(s: State, a: Action, ch: nat)
    requires Inv(s) && Orderly(s, ch)
    ensures Orderly(Apply(s, a), ch)
  {
    if !a.Step? {
      OthersOrderly(s, a, ch);
    } else if a.p < |s.pumps| {
      if s.pumps[a.p].stage.Polling? && s.queue != [] {
        TakeOrderly(s, a.p, ch);
      } else if s.pumps[a.p].stage.Sending? && s.pumps[a.p].stage.next < |s.hub.listed| {
        SendOrderly(s, a.p, ch);
      } else {
        QuietOrderly(s, a.p, ch);
      }
    }
  }

  lemma {:induction false} OrderlyRuns(s: State, more: seq<Action>, ch: nat)
    requires Inv(s) && Orderly(s, ch)
    ensures Orderly(Run(s, more), ch)
    decreases |more|
  {
    if more != [] {
      OrderlyRuns(s, Init(more), ch);
      InvRuns(s, Init(more));
      OrderlyKept(Run(s, Init(more)), Last(more), ch);
    }
  }

  // ----- With an active old pump -----

  /** Between fan-outs, with nothing but pumps and queue changed. */
  ghost predicate Between(s: State, s': State) {
    && Inv(s') && MuFree(s') && s'.hub == s.hub && |s'.pumps| == |s.pumps|
  }

  lemma EmitFills(s: State)
    requires Inv(s)
    ensures Inv(Apply(s, Emit)) && Apply(s, Emit).queue != []
  {
    InvKept(s, Emit);
  }

  /** An active pump comes to hold a record. */
  lemma ComesToHold(s: State, p: nat) returns (more: seq<Action>)
    requires Inv(s) && MuFree(s) && p < |s.pumps| && Active(s.pumps[p])
    ensures var s' := Run(s, more);
            && Between(s, s') && s'.pumps[p].stage.Holding?
            && forall q :: 0 <= q < |s.pumps| && q != p ==> s'.pumps[q] == s.pumps[q]
  {
    if s.pumps[p].stage.Holding? {
      more := [];
    } else {
      EmitFills(s);
      PollTakes(Apply(s, Emit), p);
      more := [Emit, Step(p)];
      Extend(s, [], Emit);
      Extend(s, [Emit], Step(p));
      assert [] + [Emit] == [Emit] && [Emit] + [Step(p)] == more;
    }
  }

  lemma PollTakes(s: State, p: nat)
    requires Inv(s) && MuFree(s) && p < |s.pumps| && s.pumps[p].stage.Polling? && s.queue != []
    ensures var s' := Apply(s, Step(p));
            && Between(s, s') && s'.pumps[p].stage == Holding(s.queue[0])
            && forall q :: 0 <= q < |s.pumps| && q != p ==> s'.pumps[q] == s.pumps[q]
  {
    InvKept(s, Step(p));
  }

  /** The newest pump passes its check and takes a record above those in the old pumps' hands. */
  lemma TakesAbove(s: State, p: nat, q: nat) returns (more: seq<Action>)
    requires Inv(s) && MuFree(s) && s.hub.started && p < q == |s.pumps| - 1 && s.pumps[p].stage.Holding?
    requires s.pumps[q].stage.Checking? || s.pumps[q].stage.Polling?
    ensures var s' := Run(s, more);
            && Between(s, s') && s'.pumps[p] == s.pumps[p]
            && s'.pumps[q].stage.Holding? && s'.pumps[q].stage.record > s.pumps[p].stage.record
  {
    var first: seq<Action> := if s.pumps[q].stage.Checking? then [Step(q)] else [];
    var s1 := Run(s, first);
    if first != [] {
      Extend(s, [], Step(q));
      assert [] + [Step(q)] == first;
    }
    InvRuns(s, first);
    assert s1.pumps[q].stage.Polling? && s1.pumps[p] == s.pumps[p];
    EmitFills(s1);
    var s2 := Apply(s1, Emit);
    assert s2.pumps[p].stage.record < s2.mark <= s2.queue[0];
    PollTakes(s2, q);
    more := first + [Emit] + [Step(q)];
    Extend(s, first, Emit);
    Extend(s, first + [Emit], Step(q));
  }

  /** A receive makes room. */
  lemma MakesRoom(s: State, ch: nat) returns (more: seq<Action>)
    requires Inv(s) && MuFree(s) && ch < |s.hub.channels|
    ensures forall i :: 0 <= i < |more| ==> more[i] == Receive(ch)
    ensures var s' := Run(s, more);
            && Inv(s') && MuFree(s') && s'.pumps == s.pumps && s'.queue == s.queue
            && s'.hub == s.hub.(channels := s'.hub.channels) && |s'.hub.channels| == |s.hub.channels|
            && s'.hub.channels[ch].offered == s.hub.channels[ch].offered
            && |s'.hub.channels[ch].buf| < LOG_BUFFER
  {
    assert ChannelOk(s.hub.channels[ch], s.mark);
    if |s.hub.channels[ch].buf| < LOG_BUFFER {
      more := [];
    } else {
      more := [Receive(ch)];
      Extend(s, [], Receive(ch));
      assert [] + [Receive(ch)] == more;
      InvKept(s, Receive(ch));
    }
  }

  /** A fan-out from the lock to its release. */
  lemma FansOut(s: State, p: nat, ch: nat) returns (more: seq<Action>)
    requires Inv(s) && MuFree(s) && s.hub.started && p < |s.pumps| && s.pumps[p].stage.Holding?
    requires ch in s.hub.listed && |s.hub.channels[ch].buf| < LOG_BUFFER
    ensures forall i :: 0 <= i < |more| ==> more[i] == Step(p)
    ensures var s' := Run(s, more);
            && Inv(s') && MuFree(s') && |s'.pumps| == |s.pumps| && s'.queue == s.queue
            && (forall q :: 0 <= q < |s.pumps| && q != p ==> s'.pumps[q] == s.pumps[q])
            && s'.pumps[p].stage.Checking?
            && s'.hub == s.hub.(channels := s'.hub.channels) && |s'.hub.channels| == |s.hub.channels|
            && s'.hub.channels[ch].offered == s.hub.channels[ch].offered + [Delivery(p, s.pumps[p].stage.record)]
  {
    var record, n := s.pumps[p].stage.record, |s.hub.listed|;
    var fan := seq(n, _ => Step(p));
    var s1 := Apply(s, Step(p));
    InvKept(s, Step(p));
    StepsFanOut(s1, p, record, n);
    FannedDelivers(s1.hub, n, Delivery(p, record));
    assert s.hub.listed[..n] == s.hub.listed;
    var s2 := Run(s1, fan);
    InvRuns(s1, fan);
    InvKept(s2, Step(p));
    more := [Step(p)] + fan + [Step(p)];
    Extend(s, [], Step(p));
    assert [] + [Step(p)] == [Step(p)];
    RunConcat(s, [Step(p)], fan);
    Extend(s, [Step(p)] + fan, Step(p));
  }

  /** A pump that holds a record delivers it to `ch`. */
  lemma Delivers(s: State, p: nat, ch: nat) returns (more: seq<Action>)
    requires Inv(s) && MuFree(s) && s.hub.started && p < |s.pumps| && s.pumps[p].stage.Holding?
    requires ch in s.hub.listed
    ensures forall i :: 0 <= i < |more| ==> more[i] == Step(p) || more[i] == Receive(ch)
    ensures var s' := Run(s, more);
            && Inv(s') && MuFree(s') && |s'.pumps| == |s.pumps| && s'.queue == s.queue
            && (forall q :: 0 <= q < |s.pumps| && q != p ==> s'.pumps[q] == s.pumps[q])
            && s'.pumps[p].stage.Checking?
            && s'.hub == s.hub.(channels := s'.hub.channels) && |s'.hub.channels| == |s.hub.channels|
            && ch < |s.hub.channels|
            && s'.hub.channels[ch].offered == s.hub.channels[ch].offered + [Delivery(p, s.pumps[p].stage.record)]
  {
    var room := MakesRoom(s, ch);
    var rest := FansOut(Run(s, room), p, ch);
    more := room + rest;
    RunConcat(s, room, rest);
  }

  lemma OutOfOrder(ds: seq<Delivery>, a: Delivery, b: Delivery)
    requires a.record > b.record
    ensures !Ascends(ds + [a] + [b])
  {
    var all := ds + [a] + [b];
    assert all[|ds|] == a && all[|ds| + 1] == b;
  }

  /** The newest pump overtakes the old one. */
  lemma Overtakes(s: State, p: nat, ch: nat) returns (more: seq<Action>)
    requires Inv(s) && MuFree(s) && s.hub.started && ch in s.hub.listed
    requires p < |s.pumps| - 1 && Active(s.pumps[p])
    requires Last(s.pumps).stage.Checking? || Last(s.pumps).stage.Polling?
    ensures Disordered(Run(s, more), ch)
  {
    var q := |s.pumps| - 1;
    var a := ComesToHold(s, p);
    var s1 := Run(s, a);
    var b := TakesAbove(s1, p, q);
    var s2 := Run(s1, b);
    var c := Delivers(s2, q, ch);
    var s3 := Run(s2, c);
    var d := Delivers(s3, p, ch);
    more := a + b + c + d;
    RunConcat(s, a, b);
    RunConcat(s, a + b, c);
    RunConcat(s, a + b + c, d);
    OutOfOrder(s2.hub.channels[ch].offered,
               Delivery(q, s2.pumps[q].stage.record), Delivery(p, s2.pumps[p].stage.record));
    DisorderedInOffered(Run(s, more), ch);
  }

  // ----- The exact condition -----

  ghost predicate CanDisorder(s: State, ch: nat) {
    exists more :: Disordered(Run(s, more), ch)
  }

  /** The newest pump holds a record that comes before one already delivered to `ch`. */
  ghost predicate NewestIsBehind(s: State, ch: nat) {
    && s.pumps != [] && Last(s.pumps).stage.Holding? && ch < |s.hub.channels|
    && exists d :: d in s.hub.channels[ch].offered && d.record > Last(s.pumps).stage.record
  }

  lemma NewestIsAlive(s: State)
    requires HubInv(s.hub) && PumpsInv(s) && s.hub.started
    ensures s.pumps != [] && !Last(s.pumps).stage.Exited?
  {
    assert PumpOk(s, |s.pumps| - 1);
  }

  lemma DeliversThenOvertakes(s: State, p: nat, ch: nat) returns (more: seq<Action>)
    requires Inv(s) && MuFree(s) && s.hub.started && ch in s.hub.listed
    requires p < |s.pumps| - 1 && Active(s.pumps[p]) && Last(s.pumps).stage.Holding?
    ensures Disordered(Run(s, more), ch)
  {
    var first := Delivers(s, |s.pumps| - 1, ch);
    var s' := Run(s, first);
    assert s'.pumps[p] == s.pumps[p] && Last(s'.pumps).stage.Checking?;
    var rest := Overtakes(s', p, ch);
    more := first + rest;
    RunConcat(s, first, rest);
  }

  /** The newest pump delivers what it holds, and can then overtake like any other. */
  lemma OvertakesAnyway(s: State, p: nat, ch: nat) returns (more: seq<Action>)
    requires Inv(s) && MuFree(s) && s.hub.started && ch in s.hub.listed
    requires p < |s.pumps| - 1 && Active(s.pumps[p])
    ensures Disordered(Run(s, more), ch)
  {
    var q := |s.pumps| - 1;
    NewestIsAlive(s);
    if s.pumps[q].stage.Holding? {
      more := DeliversThenOvertakes(s, p, ch);
    } else {
      more := Overtakes(s, p, ch);
    }
  }

  lemma FallsBehind(s: State, ch: nat) returns (more: seq<Action>)
    requires Inv(s) && MuFree(s) && s.hub.started && ch in s.hub.listed && NewestIsBehind(s, ch)
    ensures Disordered(Run(s, more), ch)
  {
    var q := |s.pumps| - 1;
    more := Delivers(s, q, ch);
    var before, after := s.hub.channels[ch].offered, Run(s, more).hub.channels[ch].offered;
    var i :| 0 <= i < |before| && before[i].record > s.pumps[q].stage.record;
    assert after[i] == before[i] && after[|before|] == Delivery(q, s.pumps[q].stage.record);
    DisorderedInOffered(Run(s, more), ch);
  }

  /** In every reachable state with `logMu` free, an open channel that is in order so far can get out of
      order exactly if a pump that was told to stop is still past its check, or the newest pump holds a
      record from before one already delivered. */
  lemma DisordersIff(fromEnv: bool, actions: seq<Action>, ch: nat)
    requires var s := Run(Start(fromEnv), actions);
             s.hub.started && MuFree(s) && ch in s.hub.listed && !Disordered(s, ch)
    ensures var s := Run(Start(fromEnv), actions);
            CanDisorder(s, ch) <==> OldPumpActive(s) || NewestIsBehind(s, ch)
  {
    RunInv(fromEnv, actions);
    var s := Run(Start(fromEnv), actions);
    assert ch < |s.hub.channels|;
    if OldPumpActive(s) {
      var p :| 0 <= p < |s.pumps| - 1 && Active(s.pumps[p]);
      var more := OvertakesAnyway(s, p, ch);
    } else if NewestIsBehind(s, ch) {
      var more := FallsBehind(s, ch);
    } else {
      DisorderedInOffered(s, ch);
      assert Orderly(s, ch);
      forall more ensures !Disordered(Run(s, more), ch) {
        OrderlyRuns(s, more, ch);
        InvRuns(s, more);
        DisorderedInOffered(Run(s, more), ch);
      }
    }
  }

  /** For the caller: an `EnableLogging` that starts logging, again or for the first time, returns a
      channel that can get out of order exactly if some earlier pump is still past its check when the
      call is made. */
  lemma RestartDisordersIff(fromEnv: bool, actions: seq<Action>, level: string, parses: bool)
    requires var s := Run(Start(fromEnv), actions);
             !s.hub.started && MuFree(s) && Enables(s, level, parses)
    ensures var s := Run(Start(fromEnv), actions);
            CanDisorder(Apply(s, Enable(level, parses)), |s.hub.channels|) <==>
            exists p :: 0 <= p < |s.pumps| && Active(s.pumps[p])
  {
    var s := Run(Start(fromEnv), actions);
    var ch := |s.hub.channels|;
    var longer := actions + [Enable(level, parses)];
    Extend(Start(fromEnv), actions, Enable(level, parses));
    var s' := Apply(s, Enable(level, parses));
    assert s'.pumps == s.pumps + [Pump(Checking, 0)];
    assert s'.hub.channels[ch] == NEW_CHANNEL;
    assert s'.hub.listed[|s.hub.listed|] == ch;
    DisordersIff(fromEnv, longer, ch);
    assert forall p :: 0 <= p < |s.pumps| ==> s'.pumps[p] == s.pumps[p];
  }

  /** A witness: the pump stopped in `STOPPED_MIDWAY` holds record 0, so the channel handed out by the
      restart can get out of order. */
  lemma RestartCanReorder()
    ensures CanDisorder(Apply(Run(Start(true), STOPPED_MIDWAY), Enable("info", true)), 1)
  {
    MidwayRun();
    assert !IsSpace("info"[0]);
    RestartDisordersIff(true, STOPPED_MIDWAY, "info", true);
    assert Active(Run(Start(true), STOPPED_MIDWAY).pumps[0]);
  }
}
