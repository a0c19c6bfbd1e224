/** What a caller of `Bootstrap` can count on: once Arti is ready and no status was lost, the pump and the
    call's own receives are enough for it to succeed (internal/arti/client.go). */
module ClientProgress {
  import opened Sequences
  import opened StatusModel
  import opened ClientMachine
  import opened ClientProofs
  import opened ClientWakeup
  import opened ClientTheorems

  // ----- The pump drains the queue -----

  /** Operations the pump needs before its next poll. */
  ghost function Work(p: Pump, subs: nat): nat {
    match p
    case Polling => 0
    case CheckDone => 1
    case Sending(_, next, stage) =>
      (if next <= subs then 3 * (subs - next) else 0)
      + (match stage case TrySend => 4 case DropOldest => 3 case Retry => 2)
    case Locking(_) => 3 * subs + 5
    case Caching(_) => 3 * subs + 6
    case Exited => 0
  }

  ghost predicate Drained(s: State) {
    s.pump == Polling && s.rust.queue == []
  }

  /** Nothing but the pump, the queue and the channels' contents has moved. */
  ghost predicate Undisturbed(s: State, s': State) {
    && s'.boots == s.boots && s'.closers == s.closers && s'.hub.subscribers == s.hub.subscribers
    && s'.hub.closed == s.hub.closed && s'.done == s.done && s'.handle == s.handle
    && s'.rust.observed == s.rust.observed && s'.rust.lostStatuses == s.rust.lostStatuses
  }

  lemma SendStep(s: State)
    requires s.pump.Sending? && Serviceable(s.hub, s.pump)
    ensures Undisturbed(s, DoSend(s)) && DoSend(s).rust == s.rust && !DoSend(s).pump.Exited?
    ensures Work(DoSend(s).pump, |s.hub.subscribers|) < Work(s.pump, |s.hub.subscribers|)
  {
  }

  /** The pump's next operation shortens the queue, or brings it closer to its next poll. */
  lemma PumpStep(s: State)
    requires Serviceable(s.hub, s.pump) && s.handle && !s.done && s.pump != Exited && !Drained(s)
    ensures var s' := PumpDo(s, NextOp(s.pump));
            && Undisturbed(s, s') && s'.pump != Exited
            && (|s'.rust.queue| < |s.rust.queue|
                || (s'.rust.queue == s.rust.queue &&
                    Work(s'.pump, |s.hub.subscribers|) < Work(s.pump, |s.hub.subscribers|)))
  {
    if s.pump.Sending? {
      SendStep(s);
    }
  }

  lemma Extend(actions: seq<Action>, a: Action)
    ensures Run(START, actions + [a]) == Apply(Run(START, actions), a)
  {
    assert Init(actions + [a]) == actions;
  }

  lemma OneOperation(actions: seq<Action>)
    requires var s := Run(START, actions); s.handle && !s.done && s.pump != Exited && !Drained(s)
    ensures var s := Run(START, actions);
            var s' := Run(START, actions + [Pumping(NextOp(s.pump))]);
            && Undisturbed(s, s') && s'.pump != Exited
            && (|s'.rust.queue| < |s.rust.queue|
                || (s'.rust.queue == s.rust.queue &&
                    Work(s'.pump, |s.hub.subscribers|) < Work(s.pump, |s.hub.subscribers|)))
  {
    var s := Run(START, actions);
    RunInv(actions);
    FanOutServiceable(s);
    PumpStep(s);
    Extend(actions, Pumping(NextOp(s.pump)));
  }

  /** Left to itself, the pump drains the queue. */
  lemma {:induction false} PumpDrains(actions: seq<Action>) returns (more: seq<Action>)
    requires var s := Run(START, actions); s.handle && !s.done && s.pump != Exited
    ensures forall i :: 0 <= i < |more| ==> more[i].Pumping?
    ensures var s, s' := Run(START, actions), Run(START, actions + more); Drained(s') && Undisturbed(s, s')
    decreases |Run(START, actions).rust.queue|,
              Work(Run(START, actions).pump, |Run(START, actions).hub.subscribers|)
  {
    var s := Run(START, actions);
    if Drained(s) {
      more := [];
      assert actions + [] == actions;
    } else {
      var a := Pumping(NextOp(s.pump));
      OneOperation(actions);
      var rest := PumpDrains(actions + [a]);
      more := [a] + rest;
      assert actions + more == actions + [a] + rest;
    }
  }

  // ----- The call's own receives -----

  lemma {:induction false} ExitedMeansDone(actions: seq<Action>)
    ensures Run(START, actions).pump == Exited ==> Run(START, actions).done
    decreases |actions|
  {
    if actions != [] {
      ExitedMeansDone(Init(actions));
      var s, a := Run(START, Init(actions)), Last(actions);
      if a.Pumping? {
        PumpLeavesDone(s, a.op);
      } else {
        OnlyThePumpMoves(s, a);
      }
    }
  }

  lemma PumpLeavesDone(s: State, op: PumpOp)
    ensures PumpDo(s, op).done == s.done
    ensures PumpDo(s, op).pump == Exited ==> s.pump == Exited || s.done
  {
  }

  lemma {:induction false} WaitsKeepPump(s: State, t: nat, n: nat)
    ensures Run(s, Waits(t, n)).pump == s.pump
    decreases n
  {
    if n > 0 {
      assert Init(Waits(t, n)) == Waits(t, n - 1) && Last(Waits(t, n)) == Booting(t, Wait);
      WaitsKeepPump(s, t, n - 1);
      OnlyThePumpMoves(Run(s, Waits(t, n - 1)), Booting(t, Wait));
    }
  }

  /** An open subscription means the client is open, its handle live and its pump at work. */
  lemma SubscribedMeansOpen(actions: seq<Action>, ch: nat)
    requires ch in Run(START, actions).hub.subscribers
    ensures var s := Run(START, actions); s.handle && !s.done && s.pump != Exited
  {
    RunInv(actions);
    ExitedMeansDone(actions);
  }

  /** Arti's last status was ready, the Rust queue has lost none, and the call waits on an open
      subscription. */
  ghost predicate ReadyAndWaiting(s: State, t: nat) {
    && s.rust.lostStatuses == 0 && s.rust.observed != [] && Last(s.rust.observed).ready
    && t in s.boots && s.boots[t].Waiting? && s.boots[t].ch in s.hub.subscribers
  }

  lemma StillWaiting(s: State, s': State, t: nat)
    requires ReadyAndWaiting(s, t) && Undisturbed(s, s')
    ensures ReadyAndWaiting(s', t)
  {
  }

  /** With the queue drained, Ready is at the end of the waiting call's channel. */
  lemma DrainedReady(actions: seq<Action>, t: nat)
    requires Drained(Run(START, actions)) && ReadyAndWaiting(Run(START, actions), t)
    ensures var s := Run(START, actions);
            var ch := s.boots[t].ch;
            ch < |s.hub.channels| && s.hub.channels[ch].buf != [] && Last(s.hub.channels[ch].buf).ready
  {
    DrainedCacheIsCurrent(actions);
    NoLostWakeup(actions, t);
  }

  /** The steps that `Bootstrap` and the pump take by themselves. */
  ghost predicate OwnSteps(more: seq<Action>, t: nat) {
    forall i :: 0 <= i < |more| ==> more[i].Pumping? || more[i] == Booting(t, Wait) || more[i] == Booting(t, Leave)
  }

  /** A Ready at the end of its channel takes the call to its return. */
  lemma ReceivesAndLeaves(actions: seq<Action>, t: nat) returns (more: seq<Action>)
    requires var s := Run(START, actions);
             && Drained(s) && t in s.boots && s.boots[t].Waiting? && s.boots[t].ch < |s.hub.channels|
             && s.hub.channels[s.boots[t].ch].buf != [] && Last(s.hub.channels[s.boots[t].ch].buf).ready
    ensures OwnSteps(more, t)
    ensures var s' := Run(START, actions + more); t in s'.boots && s'.boots[t] == Returned(Success)
  {
    var s := Run(START, actions);
    BufferedReadyIsReached(s, t);
    var n: nat :| 0 < n <= |s.hub.channels[s.boots[t].ch].buf| && t in Run(s, Waits(t, n)).boots &&
                  Run(s, Waits(t, n)).boots[t] == Leaving(s.boots[t].ch, Success);
    WaitsKeepPump(s, t, n);
    RunConcat(START, actions, Waits(t, n));
    Leaves(actions + Waits(t, n), t);
    more := Waits(t, n) + [Booting(t, Leave)];
    assert actions + more == actions + Waits(t, n) + [Booting(t, Leave)];
  }

  lemma Leaves(actions: seq<Action>, t: nat)
    requires var s := Run(START, actions); s.pump == Polling && t in s.boots && s.boots[t].Leaving?
    ensures var s, s' := Run(START, actions), Run(START, actions + [Booting(t, Leave)]);
            t in s'.boots && s'.boots[t] == Returned(s.boots[t].result)
  {
    Extend(actions, Booting(t, Leave));
  }

  lemma DrainedSucceeds(actions: seq<Action>, t: nat) returns (more: seq<Action>)
    requires Drained(Run(START, actions)) && ReadyAndWaiting(Run(START, actions), t)
    ensures OwnSteps(more, t)
    ensures var s' := Run(START, actions + more); t in s'.boots && s'.boots[t] == Returned(Success)
  {
    DrainedReady(actions, t);
    more := ReceivesAndLeaves(actions, t);
  }

  /** From every reachable state in which Arti's last status was ready and the Rust queue has lost none, a
      `Bootstrap` waiting on an open subscription can return nil by steps of the pump and its own alone. */
  lemma WaitingCallCanSucceed(actions: seq<Action>, t: nat) returns (more: seq<Action>)
    requires ReadyAndWaiting(Run(START, actions), t)
    ensures OwnSteps(more, t)
    ensures var s' := Run(START, actions + more); t in s'.boots && s'.boots[t] == Returned(Success)
  {
    SubscribedMeansOpen(actions, Run(START, actions).boots[t].ch);
    var drain := PumpDrains(actions);
    StillWaiting(Run(START, actions), Run(START, actions + drain), t);
    var rest := DrainedSucceeds(actions + drain, t);
    more := drain + rest;
    OwnStepsConcat(drain, rest, t);
    ConcatAssoc(actions, drain, rest);
  }

  lemma OwnStepsConcat(a: seq<Action>, b: seq<Action>, t: nat)
    requires (forall i :: 0 <= i < |a| ==> a[i].Pumping?) && OwnSteps(b, t)
    ensures OwnSteps(a + b, t)
  {
  }
}
