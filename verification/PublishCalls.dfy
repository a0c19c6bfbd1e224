/** The calls on an onion service from beginning to end: an event gets to its service, and every call has
    its effect (internal/arti/onion.go, internal/arti/client.go). */
module PublishCalls {
  import opened Sequences
  import opened Publication
  import opened PublishMachine
  import opened PublishProofs
  import opened PublishTheorems

  // ----- An event gets to its service -----

  /** The pump takes an event for a registered address to the service there. */
  lemma FindsService(s: State, address: string, ev: Progress)
    requires s.pump.Ready? && address in s.onions
    ensures var s' := Apply(s, Dispatch(address, ev));
            s'.pump == Found(s.onions[address], ev) && s'.services == s.services && s'.waiters == s.waiters
  {
  }

  /** The first decision a service sees settles it: after at most two steps of the pump its result is that
      decision, and no other service has changed. */
  lemma DecisionSettles(s: State, n: nat, ev: Progress)
    requires VerdictInv(s) && n < |s.services| && s.pump == Found(n, ev) && Decision(ev).Some?
    ensures var s' := Apply(Apply(s, Handle), Handle);
            && s'.pump.Ready? && |s'.services| == |s.services| && s'.services[n].published
            && s'.services[n].err == (if s.services[n].published then s.services[n].err
                                      else if ev.Failed? then Some(ev.reason) else None)
            && (forall m :: 0 <= m < |s.services| && m != n ==> s'.services[m] == s.services[m])
            && s'.services[n].stage == s.services[n].stage && s'.waiters == s.waiters
  {
    assert FollowsFirst(s.services[n], false);
  }

  function Delivery(address: string, ev: Progress): seq<Action> {
    [Dispatch(address, ev), Handle, Handle]
  }

  lemma DeliveryRun(actions: seq<Action>, address: string, ev: Progress)
    ensures Run(START, actions + Delivery(address, ev)) ==
            Apply(Apply(Apply(Run(START, actions), Dispatch(address, ev)), Handle), Handle)
  {
    Extend(START, actions, Dispatch(address, ev));
    Extend(START, actions + [Dispatch(address, ev)], Handle);
    Extend(START, actions + [Dispatch(address, ev)] + [Handle], Handle);
    assert actions + [Dispatch(address, ev)] + [Handle] + [Handle] == actions + Delivery(address, ev);
  }

  /** In every reachable state with the pump between events, a decision dispatched to an address publishes
      the service registered there, with that decision as its result if it had none. */
  lemma DecisionIsDelivered(actions: seq<Action>, address: string, ev: Progress)
    requires var s := Run(START, actions); s.pump.Ready? && address in s.onions && Decision(ev).Some?
    ensures var s, s' := Run(START, actions), Run(START, actions + Delivery(address, ev));
            var n := s.onions[address];
            && n < |s.services| == |s'.services| && s'.pump.Ready? && s'.services[n].published
            && s'.services[n].err == (if s.services[n].published then s.services[n].err
                                      else if ev.Failed? then Some(ev.reason) else None)
            && (forall m :: 0 <= m < |s.services| && m != n ==> s'.services[m] == s.services[m])
            && IsHanded(s', n) && s'.waiters == s.waiters
  {
    var s := Run(START, actions);
    RunInv(actions);
    FindsService(s, address, ev);
    Extend(START, actions, Dispatch(address, ev));
    RunInv(actions + [Dispatch(address, ev)]);
    assert IsHanded(s, s.onions[address]);
    DecisionSettles(Apply(s, Dispatch(address, ev)), s.onions[address], ev);
    DeliveryRun(actions, address, ev);
  }

  /** A `WaitPublished` on a published service returns its result. */
  lemma WaitReturnsResult(s: State, n: nat)
    requires IsHanded(s, n) && s.services[n].published
    ensures var w := |s.waiters|;
            var s' := Apply(Apply(Apply(s, Wait(n)), SeePublished(w)), ReadError(w));
            s'.waiters == s.waiters + [Returned(n, Gate(s.services[n].err))] && s'.services == s.services
  {
    var w := |s.waiters|;
    assert (s.waiters + [Selecting(n)])[w := Reading(n)] == s.waiters + [Reading(n)];
    assert (s.waiters + [Reading(n)])[w := Returned(n, Gate(s.services[n].err))] ==
           s.waiters + [Returned(n, Gate(s.services[n].err))];
  }

  function WaitCall(n: nat, w: nat): seq<Action> {
    [Wait(n), SeePublished(w), ReadError(w)]
  }

  /** From the event to the caller: whoever waits for a service that had no result returns with exactly the
      decision that was dispatched to its address. */
  lemma DecisionReachesCaller(actions: seq<Action>, address: string, ev: Progress)
    requires var s := Run(START, actions);
             && s.pump.Ready? && address in s.onions && Decision(ev).Some?
             && s.onions[address] < |s.services| && !s.services[s.onions[address]].published
    ensures var s := Run(START, actions);
            var n, w := s.onions[address], |s.waiters|;
            var s' := Run(START, actions + Delivery(address, ev) + WaitCall(n, w));
            s'.waiters == s.waiters + [Returned(n, Gate(if ev.Failed? then Some(ev.reason) else None))]
  {
    var s := Run(START, actions);
    var n, w := s.onions[address], |s.waiters|;
    DecisionIsDelivered(actions, address, ev);
    var sent := actions + Delivery(address, ev);
    WaitReturnsResult(Run(START, sent), n);
    Extend(START, sent, Wait(n));
    Extend(START, sent + [Wait(n)], SeePublished(w));
    Extend(START, sent + [Wait(n)] + [SeePublished(w)], ReadError(w));
    assert sent + [Wait(n)] + [SeePublished(w)] + [ReadError(w)] == sent + WaitCall(n, w);
  }

  /** An event for an address nobody has registered changes no service, however often the pump goes on. */
  lemma {:induction false} UnmappedIsDropped(s: State, address: string, ev: Progress, k: nat)
    requires s.pump.Ready? && address !in s.onions
    ensures var s' := Run(Apply(s, Dispatch(address, ev)), seq(k, _ => Handle));
            s'.services == s.services && s'.pump.Ready? && s'.waiters == s.waiters
    decreases k
  {
    if k > 0 {
      UnmappedIsDropped(s, address, ev, k - 1);
      assert Init(seq(k, _ => Handle)) == seq(k - 1, _ => Handle);
    }
  }

  /** An event that decides nothing settles nothing. */
  lemma UndecidedSettlesNothing(s: State, n: nat, ev: Progress)
    requires n < |s.services| && s.pump == Found(n, ev) && Decision(ev).None?
    ensures var s' := Apply(s, Handle);
            && s'.pump.Ready? && |s'.services| == |s.services|
            && s'.services[n] == s.services[n].(handled := s.services[n].handled + [ev])
            && forall m :: 0 <= m < |s.services| && m != n ==> s'.services[m] == s.services[m]
  {
  }

  /** A wait can be cancelled, and ends when the client is done. */
  lemma WaitGivesUp(s: State, n: nat)
    requires IsHanded(s, n)
    ensures var w, waiting := |s.waiters|, Apply(s, Wait(n));
            && Apply(waiting, CancelWait(w)).waiters == s.waiters + [Returned(n, Cancelled)]
            && (s.done ==> Apply(waiting, SeeDone(w)).waiters == s.waiters + [Returned(n, ClientGone)])
  {
    var w := |s.waiters|;
    assert (s.waiters + [Selecting(n)])[w := Returned(n, Cancelled)] == s.waiters + [Returned(n, Cancelled)];
    assert (s.waiters + [Selecting(n)])[w := Returned(n, ClientGone)] == s.waiters + [Returned(n, ClientGone)];
  }

  lemma OneWaiterMoves(s: State, a: Action, w: nat)
    requires w < |Apply(s, a).waiters| && Apply(s, a).waiters[w].Returned?
    requires w < |s.waiters| ==> s.waiters[w] != Apply(s, a).waiters[w]
    ensures var r := Apply(s, a).waiters[w].result;
            && (r == ClientGone ==> s.done) && (r == Cancelled ==> a == CancelWait(w))
            && (r.Gate? ==> a == ReadError(w))
    ensures s.done ==> Apply(s, a).done
  {
  }

  lemma DoneStays(s: State, a: Action)
    ensures s.done ==> Apply(s, a).done
    ensures |s.waiters| <= |Apply(s, a).waiters|
    ensures forall w :: 0 <= w < |s.waiters| && s.waiters[w].Returned? ==> Apply(s, a).waiters[w] == s.waiters[w]
  {
  }

  /** A wait returns for a reason: the result is in, its context was cancelled, or the client is done. */
  lemma {:induction false} WaitsReturnForAReason(actions: seq<Action>, w: nat)
    requires var s := Run(START, actions); w < |s.waiters| && s.waiters[w].Returned?
    ensures var s := Run(START, actions);
            match s.waiters[w].result
            case ClientGone => s.done
            case Cancelled => CancelWait(w) in actions
            case Gate(_) => s.waiters[w].n < |s.services| && s.services[s.waiters[w].n].published
    decreases |actions|
  {
    RunInv(actions);
    assert actions != [];
    var before, a := Run(START, Init(actions)), Last(actions);
    assert actions == Init(actions) + [a];
    DoneStays(before, a);
    assert WaiterOk(Run(START, actions).waiters[w], Run(START, actions).services);
    if w < |before.waiters| && before.waiters[w].Returned? {
      WaitsReturnForAReason(Init(actions), w);
    } else {
      OneWaiterMoves(before, a, w);
    }
  }

  // ----- Listen -----

  /** A `Listen` that fails, at its check or in the backend, has closed the listener it bound. */
  lemma FailedListenCloses(s: State, n: nat)
    requires n < |s.services| && s.services[n].stage.Adding?
    ensures !s.teardown.Open? ==>
              var svc := Last(Apply(s, Listen).services); svc.stage.Refused? && svc.localCloses == 1
    ensures var s' := Apply(s, Add(n, None));
            && n < |s'.services| && s'.services[n].stage.Refused?
            && s'.services[n].localCloses == s.services[n].localCloses + 1
  {
  }

  /** A `Listen` that succeeds registers its service under the id it was given, in place of whatever was
      there, and hands it out open and undecided. */
  lemma ListenRegisters(actions: seq<Action>, id: string)
    requires Run(START, actions).teardown.Open?
    ensures var s := Run(START, actions);
            var n := |s.services|;
            var s' := Run(START, actions + [Listen] + [Add(n, Some(id))] + [Register(n)]);
            && s'.onions == s.onions[id := n] && IsHanded(s', n) && |s'.services| == n + 1
            && s'.services[n] == NEW.(stage := Handed, id := id) && s'.services[..n] == s.services
  {
    var s := Run(START, actions);
    var n := |s.services|;
    Extend(START, actions, Listen);
    Extend(START, actions + [Listen], Add(n, Some(id)));
    Extend(START, actions + [Listen] + [Add(n, Some(id))], Register(n));
    assert Run(START, actions + [Listen]).services == s.services + [NEW];
    assert Run(START, actions + [Listen] + [Add(n, Some(id))]).services ==
           s.services + [NEW.(stage := Registering, id := id)];
  }

  // ----- Close -----

  /** A first `Close` unregisters the service's id, unpublishes it once, and closes its listener once. */
  lemma CloseHasItsEffect(actions: seq<Action>, n: nat)
    requires var s := Run(START, actions); IsHanded(s, n) && s.services[n].guard.Fresh?
    ensures var s := Run(START, actions);
            var c := |s.closers|;
            var s' := Run(START, actions + [Close(n)] + [CloseStep(c)] + [CloseStep(c)] + [CloseStep(c)]);
            && s'.closers == s.closers + [Closed(n)] && s'.onions == s.onions - {s.services[n].id}
            && s'.services == s.services[n := s.services[n].(guard := Done, localCloses := 1, deletes := 1)]
  {
    RunInv(actions);
    var s := Run(START, actions);
    assert ServiceOk(s.services[n]);
    Extend(START, actions, Close(n));
    var c, a := |s.closers|, actions + [Close(n)];
    Extend(START, a, CloseStep(c));
    Extend(START, a + [CloseStep(c)], CloseStep(c));
    Extend(START, a + [CloseStep(c)] + [CloseStep(c)], CloseStep(c));
    ClosesInSteps(s, n);
  }

  lemma ClosesInSteps(s: State, n: nat)
    requires IsHanded(s, n) && s.services[n].guard.Fresh?
    requires s.services[n].localCloses == 0 && s.services[n].deletes == 0
    ensures var c := |s.closers|;
            var s' := Apply(Apply(Apply(Apply(s, Close(n)), CloseStep(c)), CloseStep(c)), CloseStep(c));
            && s'.closers == s.closers + [Closed(n)] && s'.onions == s.onions - {s.services[n].id}
            && s'.services == s.services[n := s.services[n].(guard := Done, localCloses := 1, deletes := 1)]
  {
    var c, svc := |s.closers|, s.services[n];
    var s1 := Apply(s, Close(n));
    assert s1 == s.(services := s.services[n := svc.(guard := Running)], closers := s.closers + [Unmapping(n)]);
    var s2 := Apply(s1, CloseStep(c));
    assert s2 == s1.(onions := s.onions - {svc.id}, closers := s.closers + [Unpublishing(n)]);
    var s3 := Apply(s2, CloseStep(c));
    assert s3.closers == s.closers + [ClosingLocal(n)];
    assert s3.services == s.services[n := svc.(guard := Running, deletes := 1)];
    var s4 := Apply(s3, CloseStep(c));
    assert s4.closers == s.closers + [Closed(n)];
  }
}
