/** The client's calls from beginning to end: each one gets going, and can get to each of its outcomes
    (internal/arti/client.go). */
module ClientCalls {
  import opened Sequences
  import opened StatusModel
  import opened ClientMachine
  import opened ClientProofs
  import opened ClientWakeup
  import opened ClientTheorems
  import opened ClientProgress

  // ----- The lock comes free -----

  /** A fan-out in progress ends, and changes nothing but the contents of channels. */
  lemma {:induction false} FanOutEnds(actions: seq<Action>) returns (more: seq<Action>)
    ensures forall i :: 0 <= i < |more| ==> more[i] == Pumping(Send)
    ensures var s, s' := Run(START, actions), Run(START, actions + more);
            && MuFree(s') && Undisturbed(s, s') && s'.status == s.status && s'.rust == s.rust
            && |s'.hub.channels| == |s.hub.channels|
    decreases var s := Run(START, actions); if MuFree(s) then 0 else Work(s.pump, |s.hub.subscribers|)
  {
    if MuFree(Run(START, actions)) {
      more := [];
      assert actions + [] == actions;
    } else {
      OneSend(actions);
      var rest := FanOutEnds(actions + [Pumping(Send)]);
      more := [Pumping(Send)] + rest;
      ConcatAssoc(actions, [Pumping(Send)], rest);
    }
  }

  lemma OneSend(actions: seq<Action>)
    requires Run(START, actions).pump.Sending?
    ensures var s, s' := Run(START, actions), Run(START, actions + [Pumping(Send)]);
            && Undisturbed(s, s') && s'.status == s.status && s'.rust == s.rust
            && |s'.hub.channels| == |s.hub.channels|
            && Work(s'.pump, |s.hub.subscribers|) < Work(s.pump, |s.hub.subscribers|)
  {
    RunInv(actions);
    FanOutServiceable(Run(START, actions));
    SendStep(Run(START, actions));
    Extend(actions, Pumping(Send));
  }

  // ----- Bootstrap gets going -----

  /** What `Status` tells a call that asks now: the cache, or Arti's answer while nothing is cached. */
  ghost predicate ToldReady(s: State, answer: Option<ArtiStatus>) {
    if s.status.summary == "" && answer.Some? then answer.value.ready else s.status.ready
  }

  /** The steps of call `t` other than giving up, and those of the pump. */
  ghost predicate CallSteps(more: seq<Action>, t: nat, answer: Option<ArtiStatus>) {
    forall i :: 0 <= i < |more| ==>
      || more[i].Pumping?
      || (more[i].Booting? && more[i].t == t && more[i].bop in {Enter(true), Subscribe, Query(answer), Wait, Leave})
  }

  lemma CallStepsConcat(a: seq<Action>, b: seq<Action>, t: nat, answer: Option<ArtiStatus>)
    requires CallSteps(a, t, answer) && CallSteps(b, t, answer)
    ensures CallSteps(a + b, t, answer)
  {
  }

  function Starting(t: nat, answer: Option<ArtiStatus>): seq<Action> {
    [Booting(t, Enter(true)), Booting(t, Subscribe), Booting(t, Query(answer))]
  }

  lemma OpenIsLive(actions: seq<Action>)
    requires !Run(START, actions).hub.closed
    ensures var s := Run(START, actions); s.handle && !s.done && s.pump != Exited
  {
    RunInv(actions);
    ExitedMeansDone(actions);
  }

  lemma EntersAndSubscribes(s: State, t: nat)
    requires !s.hub.closed && s.handle && MuFree(s) && t !in s.boots
    ensures var n := |s.hub.channels|;
            Apply(Apply(s, Booting(t, Enter(true))), Booting(t, Subscribe)) ==
            s.(boots := s.boots[t := Subscribed(n)],
               hub := s.hub.(channels := s.hub.channels + [Channel([], false, true, |s.fanned|, [], 0, [])],
                             subscribers := s.hub.subscribers + [n]))
  {
    assert s.boots[t := Entered][t := Subscribed(|s.hub.channels|)] == s.boots[t := Subscribed(|s.hub.channels|)];
  }

  lemma Queries(s: State, t: nat, answer: Option<ArtiStatus>)
    requires s.handle && t in s.boots && s.boots[t].Subscribed?
    ensures var s' := Apply(s, Booting(t, Query(answer)));
            && s'.hub == s.hub && s'.pump == s.pump && s'.rust == s.rust && s'.status == s.status
            && t in s'.boots
            && s'.boots[t] == if ToldReady(s, answer) then Leaving(s.boots[t].ch, Success) else Waiting(s.boots[t].ch)
  {
    if answer.Some? {
      EventAndQueryAgree(answer.value);
    }
  }

  /** A call on an open client subscribes first and asks second: what it is told decides whether it
      leaves with success or waits on the subscription it already has. */
  lemma BootstrapStarts(actions: seq<Action>, t: nat, answer: Option<ArtiStatus>)
    requires var s := Run(START, actions); !s.hub.closed && MuFree(s) && t !in s.boots
    ensures var s, s' := Run(START, actions), Run(START, actions + Starting(t, answer));
            var ch := |s.hub.channels|;
            && t in s'.boots && s'.boots[t] == (if ToldReady(s, answer) then Leaving(ch, Success) else Waiting(ch))
            && s'.hub.subscribers == s.hub.subscribers + [ch] && !s'.hub.closed
            && s'.pump == s.pump && s'.rust == s.rust
  {
    OpenIsLive(actions);
    var s := Run(START, actions);
    Extend(actions, Booting(t, Enter(true)));
    Extend(actions + [Booting(t, Enter(true))], Booting(t, Subscribe));
    EntersAndSubscribes(s, t);
    var two := actions + [Booting(t, Enter(true))] + [Booting(t, Subscribe)];
    Queries(Run(START, two), t, answer);
    Extend(two, Booting(t, Query(answer)));
    assert two + [Booting(t, Query(answer))] == actions + Starting(t, answer);
  }

  /** A new call on an open client, once Arti is ready and no status was lost, can return nil by its own
      steps and the pump's, whatever Arti would answer to a direct question. */
  lemma BootstrapCanSucceed(actions: seq<Action>, t: nat, answer: Option<ArtiStatus>) returns (more: seq<Action>)
    requires var s := Run(START, actions);
             && !s.hub.closed && t !in s.boots
             && s.rust.lostStatuses == 0 && s.rust.observed != [] && Last(s.rust.observed).ready
    ensures CallSteps(more, t, answer)
    ensures var s' := Run(START, actions + more); t in s'.boots && s'.boots[t] == Returned(Success)
  {
    OpenIsLive(actions);
    var drain := PumpDrains(actions);
    DrainedCallSucceeds(actions + drain, t, answer);
    more := drain + WholeCall(t, answer);
    ConcatAssoc(actions, drain, WholeCall(t, answer));
  }

  function WholeCall(t: nat, answer: Option<ArtiStatus>): seq<Action> {
    Starting(t, answer) + [Booting(t, Leave)]
  }

  lemma DrainedCallSucceeds(actions: seq<Action>, t: nat, answer: Option<ArtiStatus>)
    requires var s := Run(START, actions);
             && Drained(s) && !s.hub.closed && t !in s.boots
             && s.rust.lostStatuses == 0 && s.rust.observed != [] && Last(s.rust.observed).ready
    ensures var s' := Run(START, actions + WholeCall(t, answer)); t in s'.boots && s'.boots[t] == Returned(Success)
  {
    DrainedIsTold(actions, answer);
    BootstrapStarts(actions, t, answer);
    Leaves(actions + Starting(t, answer), t);
    ConcatAssoc(actions, Starting(t, answer), [Booting(t, Leave)]);
  }

  lemma DrainedIsTold(actions: seq<Action>, answer: Option<ArtiStatus>)
    requires var s := Run(START, actions);
             && Drained(s) && s.rust.lostStatuses == 0 && s.rust.observed != [] && Last(s.rust.observed).ready
    ensures ToldReady(Run(START, actions), answer)
  {
    DrainedCacheIsCurrent(actions);
    RunInv(actions);
    CachedReady(Run(START, actions));
  }

  /** A new call that is not told Ready comes to wait on an open subscription. */
  lemma BootstrapWaits(actions: seq<Action>, t: nat, answer: Option<ArtiStatus>) returns (more: seq<Action>)
    requires var s := Run(START, actions); !s.hub.closed && t !in s.boots && !ToldReady(s, answer)
    ensures CallSteps(more, t, answer)
    ensures var s, s' := Run(START, actions), Run(START, actions + more);
            && t in s'.boots && s'.boots[t].Waiting? && s'.boots[t].ch in s'.hub.subscribers
            && !s'.hub.closed && s'.rust == s.rust
  {
    var free := FanOutEnds(actions);
    BootstrapStarts(actions + free, t, answer);
    more := free + Starting(t, answer);
    ConcatAssoc(actions, free, Starting(t, answer));
  }

  lemma ObservesWithoutLoss(s: State, a: ArtiStatus)
    requires |s.rust.queue| < 256
    ensures var s' := Apply(s, Observe(a));
            && s'.rust.observed == s.rust.observed + [a] && s'.rust.lostStatuses == s.rust.lostStatuses
            && s'.boots == s.boots && s'.hub == s.hub
  {
  }

  /** Arti becoming ready later is enough for a call that waits. */
  lemma LaterReadySucceeds(actions: seq<Action>, t: nat, a: ArtiStatus, answer: Option<ArtiStatus>)
    returns (before: seq<Action>, rest: seq<Action>)
    requires var s := Run(START, actions);
             && t in s.boots && s.boots[t].Waiting? && s.boots[t].ch in s.hub.subscribers
             && s.rust.lostStatuses == 0 && a.ready
    ensures CallSteps(before, t, answer) && CallSteps(rest, t, answer)
    ensures var s' := Run(START, actions + before + [Observe(a)] + rest);
            t in s'.boots && s'.boots[t] == Returned(Success)
  {
    SubscribedMeansOpen(actions, Run(START, actions).boots[t].ch);
    before := PumpDrains(actions);
    var s := Run(START, actions + before);
    ObservesWithoutLoss(s, a);
    Extend(actions + before, Observe(a));
    assert Last(s.rust.observed + [a]) == a;
    rest := WaitingCallCanSucceed(actions + before + [Observe(a)], t);
  }

  /** From start to finish: a call made on an open client before Arti is ready waits, and returns nil once
      Arti has become ready. */
  lemma BootstrapOutlastsStartup(actions: seq<Action>, t: nat, answer: Option<ArtiStatus>, a: ArtiStatus)
    returns (first: seq<Action>, rest: seq<Action>)
    requires var s := Run(START, actions);
             && !s.hub.closed && t !in s.boots && !ToldReady(s, answer) && s.rust.lostStatuses == 0
    requires a.ready
    ensures CallSteps(first, t, answer) && CallSteps(rest, t, answer)
    ensures var s' := Run(START, actions + first + [Observe(a)] + rest);
            t in s'.boots && s'.boots[t] == Returned(Success)
  {
    var wait := BootstrapWaits(actions, t, answer);
    var drain, end := LaterReadySucceeds(actions + wait, t, a, answer);
    first, rest := wait + drain, end;
    CallStepsConcat(wait, drain, t, answer);
    ConcatAssoc(actions, wait, drain);
  }

  // ----- Bootstrap without success -----

  lemma GivesBack(s: State, t: nat)
    requires MuFree(s) && Ascending(s.hub.subscribers) && t in s.boots && s.boots[t].Leaving?
    ensures var s' := Apply(s, Booting(t, Leave));
            && s'.boots == s.boots[t := Returned(s.boots[t].result)] && s.boots[t].ch !in s'.hub.subscribers
  {
    if s.boots[t].ch in s.hub.subscribers {
      RemoveAscending(s.hub.subscribers, s.boots[t].ch);
    }
  }

  /** A call that is leaving returns what it decided once the lock is free, and its subscription is gone. */
  lemma LeavesAtLast(actions: seq<Action>, t: nat) returns (more: seq<Action>)
    requires var s := Run(START, actions); t in s.boots && s.boots[t].Leaving?
    ensures CallSteps(more, t, None)
    ensures var s, s' := Run(START, actions), Run(START, actions + more);
            && t in s'.boots && s'.boots[t] == Returned(s.boots[t].result)
            && s.boots[t].ch !in s'.hub.subscribers
  {
    var free := FanOutEnds(actions);
    Extend(actions + free, Booting(t, Leave));
    RunInv(actions + free);
    GivesBack(Run(START, actions + free), t);
    more := free + [Booting(t, Leave)];
    ConcatAssoc(actions, free, [Booting(t, Leave)]);
  }

  /** A waiting call whose context ends returns that; one that finds the client closed, by `done` or by a
      closed channel with nothing left in it, returns that. */
  lemma WaitingCallGivesUp(s: State, t: nat)
    requires t in s.boots && s.boots[t].Waiting?
    ensures var ch := s.boots[t].ch;
            && Apply(s, Booting(t, Cancel)) == s.(boots := s.boots[t := Leaving(ch, Cancelled)])
            && (s.done ==> Apply(s, Booting(t, SeeDone)) == s.(boots := s.boots[t := Leaving(ch, ClientClosed)]))
            && (Chan(s.hub, ch).closed && Chan(s.hub, ch).buf == [] ==>
                  Apply(s, Booting(t, Wait)) == s.(boots := s.boots[t := Leaving(ch, ClientClosed)]))
  {
  }

  /** From every reachable state a waiting call can be cancelled, and one whose client is done can notice it:
      it returns that, without its subscription, once the lock is free. */
  lemma WaitingCallReturns(actions: seq<Action>, t: nat, cancelled: bool) returns (more: seq<Action>)
    requires var s := Run(START, actions); t in s.boots && s.boots[t].Waiting? && (cancelled || s.done)
    ensures CallSteps(more, t, None)
    ensures var s := Run(START, actions);
            var s' := Run(START, actions + [Booting(t, if cancelled then Cancel else SeeDone)] + more);
            && t in s'.boots && s'.boots[t] == Returned(if cancelled then Cancelled else ClientClosed)
            && s.boots[t].ch !in s'.hub.subscribers
  {
    var op := if cancelled then Cancel else SeeDone;
    WaitingCallGivesUp(Run(START, actions), t);
    Extend(actions, Booting(t, op));
    more := LeavesAtLast(actions + [Booting(t, op)], t);
  }

  /** A call that the backend refuses, or that finds the handle released, returns without subscribing. */
  lemma RefusedCallReturns(s: State, t: nat, accepted: bool)
    requires t !in s.boots && !(accepted && s.handle)
    ensures Apply(s, Booting(t, Enter(accepted))) == s.(boots := s.boots[t := Returned(NotStarted)])
  {
  }

  // ----- The subscription is given back -----

  /** Each subscription of a `Bootstrap` belongs to a call that still holds it. */
  ghost predicate Owned(h: Hub, boots: map<nat, Boot>) {
    forall ch :: ch in h.subscribers && ch < |h.channels| && h.channels[ch].internal ==> HeldBySome(boots, ch)
  }

  ghost predicate HeldBySome(boots: map<nat, Boot>, ch: nat) {
    exists t :: t in boots && Holds(boots[t]) && boots[t].ch == ch
  }

  lemma StaysHeld(boots: map<nat, Boot>, t: nat, b: Boot, ch: nat)
    requires HeldBySome(boots, ch)
    requires t in boots && Holds(boots[t]) && boots[t].ch == ch ==> Holds(b) && b.ch == ch
    ensures HeldBySome(boots[t := b], ch)
  {
    var u :| u in boots && Holds(boots[u]) && boots[u].ch == ch;
    assert u in boots[t := b] && Holds(boots[t := b][u]) && boots[t := b][u].ch == ch;
  }

  /** A hub whose list gained no channel of a `Bootstrap`. */
  ghost predicate NoNewHeld(h: Hub, h': Hub) {
    forall ch :: ch in h'.subscribers && ch < |h'.channels| && h'.channels[ch].internal ==>
                   ch in h.subscribers && ch < |h.channels| && h.channels[ch].internal
  }

  lemma PumpKeepsOwned(s: State, op: PumpOp)
    ensures NoNewHeld(s.hub, PumpDo(s, op).hub) && PumpDo(s, op).boots == s.boots
  {
    if s.pump.Sending? && s.pump.next < |s.hub.subscribers| {
      SendsToHeld(s.hub, s.pump.st, s.pump.next, s.pump.stage);
    }
  }

  lemma SendsToHeld(h: Hub, st: Status, next: nat, stage: Stage)
    requires next < |h.subscribers|
    ensures NoNewHeld(h, SendOne(h, st, next, stage).0)
  {
  }

  lemma LeaveKeepsOwned(s: State, t: nat)
    requires Owned(s.hub, s.boots) && Ascending(s.hub.subscribers) && t in s.boots && s.boots[t].Leaving?
    ensures Owned(DropChannel(s.hub, s.boots[t].ch), s.boots[t := Returned(s.boots[t].result)])
  {
    var mine := s.boots[t].ch;
    if mine in s.hub.subscribers {
      RemoveAscending(s.hub.subscribers, mine);
    }
    var h' := DropChannel(s.hub, mine);
    var boots' := s.boots[t := Returned(s.boots[t].result)];
    forall ch | ch in h'.subscribers && ch < |h'.channels| && h'.channels[ch].internal ensures HeldBySome(boots', ch) {
      assert ch in s.hub.subscribers && s.hub.channels[ch].internal && ch != mine;
      StaysHeld(s.boots, t, Returned(s.boots[t].result), ch);
    }
  }

  lemma SubscribeKeepsOwned(s: State, t: nat)
    requires Owned(s.hub, s.boots) && t in s.boots && s.boots[t].Entered?
    ensures Owned(AddChannel(s.hub, true, |s.fanned|), s.boots[t := Subscribed(|s.hub.channels|)])
  {
    var h', b := AddChannel(s.hub, true, |s.fanned|), Subscribed(|s.hub.channels|);
    forall ch | ch in h'.subscribers && ch < |h'.channels| && h'.channels[ch].internal
      ensures HeldBySome(s.boots[t := b], ch)
    {
      if ch == |s.hub.channels| {
        assert t in s.boots[t := b] && Holds(s.boots[t := b][t]) && s.boots[t := b][t].ch == ch;
      } else {
        assert ch in s.hub.subscribers && s.hub.channels[ch].internal;
        StaysHeld(s.boots, t, b, ch);
      }
    }
  }

  lemma BootMovesOn(s: State, t: nat, op: BootOp)
    requires !op.Leave? && !op.Subscribe?
    ensures var s' := BootDo(s, t, op);
            && NoNewHeld(s.hub, s'.hub)
            && (s'.boots == s.boots || (t in s'.boots && s'.boots == s.boots[t := s'.boots[t]]))
            && (t in s.boots && t in s'.boots && Holds(s.boots[t]) ==>
                  Holds(s'.boots[t]) && s'.boots[t].ch == s.boots[t].ch)
  {
  }

  lemma BootKeepsOwned(s: State, t: nat, op: BootOp)
    requires Owned(s.hub, s.boots) && !op.Leave? && !op.Subscribe?
    ensures Owned(BootDo(s, t, op).hub, BootDo(s, t, op).boots)
  {
    var s' := BootDo(s, t, op);
    BootMovesOn(s, t, op);
    if s'.boots != s.boots {
      forall ch | HeldBySome(s.boots, ch) ensures HeldBySome(s'.boots, ch) {
        StaysHeld(s.boots, t, s'.boots[t], ch);
      }
    }
  }

  lemma FewerHeld(h: Hub, ch: nat)
    requires Ascending(h.subscribers)
    ensures NoNewHeld(h, DropChannel(h, ch))
  {
    if ch in h.subscribers {
      RemoveAscending(h.subscribers, ch);
    }
  }

  lemma TakesFromHeld(h: Hub, ch: nat)
    requires Chan(h, ch).buf != []
    ensures NoNewHeld(h, SetChan(h, ch, Take(Chan(h, ch))))
  {
  }

  lemma AddsToHeld(h: Hub, start: nat)
    ensures NoNewHeld(h, AddChannel(h, false, start))
  {
  }

  lemma CloseEnterOwned(s: State, t: nat)
    ensures NoNewHeld(s.hub, DoCloseEnter(s, t).hub) && DoCloseEnter(s, t).boots == s.boots
  {
  }

  lemma CloseStepOwned(s: State, t: nat)
    ensures NoNewHeld(s.hub, DoCloseStep(s, t).hub) && DoCloseStep(s, t).boots == s.boots
  {
  }

  lemma StillOwned(h: Hub, h': Hub, boots: map<nat, Boot>)
    requires NoNewHeld(h, h') && Owned(h, boots)
    ensures Owned(h', boots)
  {
  }

  lemma BootingOwned(s: State, t: nat, op: BootOp)
    requires Owned(s.hub, s.boots) && Ascending(s.hub.subscribers)
    ensures Owned(BootDo(s, t, op).hub, BootDo(s, t, op).boots)
  {
    if op.Subscribe? {
      if t in s.boots && s.boots[t].Entered? { SubscribeKeepsOwned(s, t); }
    } else if !op.Leave? {
      BootKeepsOwned(s, t, op);
    } else if t in s.boots && s.boots[t].Leaving? && MuFree(s) {
      LeaveKeepsOwned(s, t);
    }
  }

  lemma OthersAddNone(s: State, a: Action)
    requires Ascending(s.hub.subscribers) && !a.Booting?
    ensures NoNewHeld(s.hub, Apply(s, a).hub) && Apply(s, a).boots == s.boots
  {
    match a {
      case Pumping(op) => PumpKeepsOwned(s, op);
      case CloseEnter(t) => CloseEnterOwned(s, t);
      case CloseStep(t) => CloseStepOwned(s, t);
      case StatusUpdates => AddsToHeld(s.hub, |s.fanned|);
      case Unsubscribe(ch) => FewerHeld(s.hub, ch);
      case Receive(ch) => if Chan(s.hub, ch).buf != [] { TakesFromHeld(s.hub, ch); }
      case _ =>
    }
  }

  lemma OwnedStep(s: State, a: Action)
    requires Owned(s.hub, s.boots) && Ascending(s.hub.subscribers)
    ensures Owned(Apply(s, a).hub, Apply(s, a).boots)
  {
    if a.Booting? {
      BootingOwned(s, a.t, a.bop);
    } else {
      OthersAddNone(s, a);
      StillOwned(s.hub, Apply(s, a).hub, s.boots);
    }
  }

  /** No subscription leaks: the channels that are listed for a `Bootstrap` are those of calls that have
      not returned. */
  lemma {:induction false} NoSubscriptionLeaks(actions: seq<Action>)
    ensures var s := Run(START, actions); Owned(s.hub, s.boots)
    decreases |actions|
  {
    if actions != [] {
      NoSubscriptionLeaks(Init(actions));
      RunInv(Init(actions));
      OwnedStep(Run(START, Init(actions)), Last(actions));
    }
  }

  // ----- Close gets through -----

  ghost function StepsToClose(c: Closer): nat {
    match c
    case Marked(subs) => |subs| + 4
    case ClosingSubs(subs, next) => (if next <= |subs| then |subs| - next else 0) + 3
    case ShuttingDown => 2
    case Freeing => 1
    case _ => 0
  }

  lemma {:induction false} CloseProceeds(actions: seq<Action>, t: nat) returns (more: seq<Action>)
    requires var s := Run(START, actions); t in s.closers && !s.closers[t].Refused?
    ensures forall i :: 0 <= i < |more| ==> more[i] == CloseStep(t)
    ensures var s' := Run(START, actions + more); t in s'.closers && s'.closers[t] == Completed
    decreases StepsToClose(Run(START, actions).closers[t])
  {
    var s := Run(START, actions);
    if s.closers[t].Completed? {
      more := [];
      assert actions + [] == actions;
    } else {
      Extend(actions, CloseStep(t));
      var rest := CloseProceeds(actions + [CloseStep(t)], t);
      more := [CloseStep(t)] + rest;
      ConcatAssoc(actions, [CloseStep(t)], rest);
    }
  }

  /** A `Close` on an open client completes by its own steps and the end of the fan-out in progress, and
      leaves everything closed; a `Close` on a closed client returns at once. */
  lemma CloseCanComplete(actions: seq<Action>, t: nat) returns (more: seq<Action>)
    requires var s := Run(START, actions); !s.hub.closed && t !in s.closers
    ensures forall i :: 0 <= i < |more| ==> more[i] in {Pumping(Send), CloseEnter(t), CloseStep(t)}
    ensures var s' := Run(START, actions + more);
            && t in s'.closers && s'.closers[t] == Completed && s'.done && !s'.handle
            && forall ch :: 0 <= ch < |s'.hub.channels| ==> s'.hub.channels[ch].closed
  {
    var free := FanOutEnds(actions);
    Extend(actions + free, CloseEnter(t));
    var entered := actions + free + [CloseEnter(t)];
    var rest := CloseProceeds(entered, t);
    more := free + [CloseEnter(t)] + rest;
    assert actions + more == entered + rest;
    CloseCompletes(actions + more, t);
  }

  lemma SecondCloseReturns(s: State, t: nat)
    requires s.hub.closed && MuFree(s) && t !in s.closers
    ensures Apply(s, CloseEnter(t)) == s.(closers := s.closers[t := Refused])
  {
  }

  // ----- What descriptor events cost -----

  function Repeat(a: Action, n: nat): (r: seq<Action>)
    ensures |r| == n && forall i :: 0 <= i < n ==> r[i] == a
  {
    seq(n, i => a)
  }

  lemma {:induction false} DescEventsQueueUp(action: string, address: string, reason: string, n: nat)
    ensures var s := Run(START, Repeat(EmitDesc(action, address, reason), n));
            && s == START.(rust := START.rust.(queue := s.rust.queue))
            && |s.rust.queue| == if n <= 256 then n else 256
    decreases n
  {
    var e := EmitDesc(action, address, reason);
    if n > 0 {
      DescEventsQueueUp(action, address, reason, n - 1);
      assert Repeat(e, n) == Repeat(e, n - 1) + [e];
      Extend(Repeat(e, n - 1), e);
    } else {
      assert Repeat(e, 0) == [];
    }
  }

  /** Descriptor events share the queue with the statuses: Arti's change to ready is lost exactly when 256
      of them are waiting in front of it. */
  lemma DescEventsDisplaceStatus(action: string, address: string, reason: string, n: nat, a: ArtiStatus)
    requires a.ready
    ensures var s := Run(START, Repeat(EmitDesc(action, address, reason), n) + [Observe(a)]);
            s.rust.lostStatuses == if n < 256 then 0 else 1
  {
    DescEventsQueueUp(action, address, reason, n);
    Extend(Repeat(EmitDesc(action, address, reason), n), Observe(a));
    ReadinessAgrees(a);
  }

  // ----- Subscribers -----

  /** Where a channel begins never changes. */
  ghost predicate KeepsStarts(h: Hub, h': Hub) {
    |h.channels| <= |h'.channels| &&
    forall ch :: 0 <= ch < |h.channels| ==> h'.channels[ch].start == h.channels[ch].start
  }

  lemma SendKeepsStarts(h: Hub, st: Status, next: nat, stage: Stage)
    requires next < |h.subscribers|
    ensures KeepsStarts(h, SendOne(h, st, next, stage).0)
  {
  }

  lemma PumpKeepsStarts(s: State, op: PumpOp)
    ensures KeepsStarts(s.hub, PumpDo(s, op).hub)
  {
    if s.pump.Sending? && s.pump.next < |s.hub.subscribers| {
      SendKeepsStarts(s.hub, s.pump.st, s.pump.next, s.pump.stage);
    }
  }

  lemma {:induction false} PumpingKeepsStarts(actions: seq<Action>, more: seq<Action>)
    requires forall i :: 0 <= i < |more| ==> more[i].Pumping?
    ensures KeepsStarts(Run(START, actions).hub, Run(START, actions + more).hub)
    decreases |more|
  {
    if more == [] {
      assert actions + more == actions;
    } else {
      PumpingKeepsStarts(actions, Init(more));
      assert actions + more == actions + Init(more) + [Last(more)];
      Extend(actions + Init(more), Last(more));
      PumpKeepsStarts(Run(START, actions + Init(more)), Last(more).op);
    }
  }

  /** With the queue drained and nothing lost, everything emitted has been fanned out. */
  lemma DrainedFanned(actions: seq<Action>)
    requires var s := Run(START, actions); Drained(s) && s.rust.lostStatuses == 0
    ensures var s := Run(START, actions); s.fanned == Statuses(Emitted(s.rust.observed))
  {
    RunInv(actions);
    var s := Run(START, actions);
    DrainedHeld(s.rust, Taken(s.fanned, s.pump));
  }

  lemma EmittedStatuses(stream: seq<ArtiStatus>, a: ArtiStatus)
    requires Progress(a) != Remembered(stream)
    ensures Statuses(Emitted(stream + [a])) == Statuses(Emitted(stream)) + [StatusFrom(Summarize(a))]
  {
    EmittedSnoc(stream, a);
    StatusesSnoc(Emitted(stream), EventOf(Summarize(a)));
    EventAndQueryAgree(a);
  }

  lemma SubscribesTo(s: State)
    requires MuFree(s)
    ensures var n := |s.hub.channels|;
            Apply(s, StatusUpdates).hub ==
            s.hub.(channels := s.hub.channels + [Channel([], s.hub.closed, false, |s.fanned|, [], 0, [])],
                   subscribers := if s.hub.closed then s.hub.subscribers else s.hub.subscribers + [n])
    ensures Apply(s, StatusUpdates) == s.(hub := Apply(s, StatusUpdates).hub)
  {
  }

  /** A receive takes the oldest entry. */
  lemma ReceiveTakesOldest(s: State, ch: nat)
    requires ch < |s.hub.channels| && !s.hub.channels[ch].internal && s.hub.channels[ch].buf != []
    ensures var c, s' := s.hub.channels[ch], Apply(s, Receive(ch));
            && ch < |s'.hub.channels| && s'.hub.channels[ch].received == c.received + [c.buf[0]]
            && s'.hub.channels[ch].buf == c.buf[1..]
  {
  }

  /** Unsubscribing takes exactly that channel off the list, and closes it. (Every reachable state lists
      its channels in ascending order: `ClientTheorems.ChannelDiscipline`.) */
  lemma UnsubscribeCloses(s: State, ch: nat)
    requires MuFree(s) && Ascending(s.hub.subscribers) && ch in s.hub.subscribers
    requires ch < |s.hub.channels| && !s.hub.channels[ch].internal
    ensures var h, h' := s.hub, Apply(s, Unsubscribe(ch)).hub;
            && |h'.channels| == |h.channels| && h'.channels[ch] == h.channels[ch].(closed := true)
            && forall x :: x in h'.subscribers <==> x in h.subscribers && x != ch
  {
    RemoveAscending(s.hub.subscribers, ch);
  }

  /** The queue after a subscription was made on a drained client and Arti reported new progress. */
  lemma HearsAfter(actions: seq<Action>, a: ArtiStatus)
    requires var s := Run(START, actions);
             Drained(s) && !s.hub.closed && s.rust.lostStatuses == 0 && Progress(a) != Remembered(s.rust.observed)
    ensures var s, s' := Run(START, actions), Run(START, actions + [StatusUpdates] + [Observe(a)]);
            var ch := |s.hub.channels|;
            && s'.rust.observed == s.rust.observed + [a] && s'.rust.lostStatuses == 0
            && ch in s'.hub.subscribers && ch < |s'.hub.channels| && s'.hub.channels[ch].start == |s.fanned|
            && !s'.hub.closed
  {
    var s := Run(START, actions);
    SubscribesTo(s);
    Extend(actions, StatusUpdates);
    ObservesWithoutLoss(Apply(s, StatusUpdates), a);
    Extend(actions + [StatusUpdates], Observe(a));
  }

  /** A subscriber of an open client hears of the next change of progress: once the pump has caught up it
      is the newest thing on the channel. */
  lemma SubscriberHearsNext(actions: seq<Action>, a: ArtiStatus) returns (more: seq<Action>)
    requires var s := Run(START, actions);
             && Drained(s) && !s.hub.closed && s.rust.lostStatuses == 0
             && Progress(a) != Remembered(s.rust.observed)
    ensures forall i :: 0 <= i < |more| ==> more[i].Pumping?
    ensures var s, s' := Run(START, actions), Run(START, actions + [StatusUpdates] + [Observe(a)] + more);
            var ch := |s.hub.channels|;
            && ch < |s'.hub.channels| && Delivered(s'.hub.channels[ch]) != []
            && Last(Delivered(s'.hub.channels[ch])) == StatusFrom(Summarize(a))
  {
    var s := Run(START, actions);
    var heard := actions + [StatusUpdates] + [Observe(a)];
    HearsAfter(actions, a);
    OpenIsLive(heard);
    more := PumpDrains(heard);
    PumpingKeepsStarts(heard, more);
    DrainedFanned(actions);
    DrainedFanned(heard + more);
    EmittedStatuses(s.rust.observed, a);
    NewestDelivered(heard + more, |s.hub.channels|);
  }
}
