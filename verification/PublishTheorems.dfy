/** What callers of `Listen`, `WaitPublished` and `Close` can rely on in every run, and what they
    cannot. */
module PublishTheorems {
  import opened Sequences
  import opened Publication
  import opened PublishMachine
  import opened PublishProofs

  ghost predicate Inv(s: State) {
    VerdictInv(s) && SentInv(s) && WaitersInv(s) && CloseInv(s)
  }

  lemma InvKept(s: State, a: Action)
    requires Inv(s)
    ensures Inv(Apply(s, a))
  {
    VerdictKept(s, a);
    SentKept(s, a);
    WaitersKept(s, a);
    CloseKept(s, a);
  }

  lemma {:induction false} InvRuns(s: State, actions: seq<Action>)
    requires Inv(s)
    ensures Inv(Run(s, actions))
    decreases |actions|
  {
    if actions != [] {
      InvRuns(s, Init(actions));
      InvKept(Run(s, Init(actions)), Last(actions));
    }
  }

  lemma RunInv(actions: seq<Action>)
    ensures Inv(Run(START, actions))
  {
    InvRuns(START, actions);
  }

  // ----- One verdict -----

  /** Action number `i` of the run is an `hs_desc` event for the address at which service `n` is registered
      at that moment, and the pump is free to take it. */
  ghost predicate Reaches(actions: seq<Action>, i: nat, n: nat)
    requires i < |actions|
  {
    && actions[i].Dispatch?
    && var s := Run(START, actions[..i]);
    s.pump.Ready? && actions[i].address in s.onions && s.onions[actions[i].address] == n
  }

  /** The events of a run that reach service `n`, in order. */
  ghost function LookedUp(actions: seq<Action>, n: nat): seq<Progress>
    decreases |actions|
  {
    if actions == [] then []
    else
      LookedUp(Init(actions), n) + if Reaches(actions, |actions| - 1, n) then [Last(actions).ev] else []
  }

  lemma {:induction false} SentIsLookedUp(actions: seq<Action>, n: nat)
    ensures To(Run(START, actions).sent, n) == LookedUp(actions, n)
    decreases |actions|
  {
    if actions != [] {
      var s, a := Run(START, Init(actions)), Last(actions);
      SentIsLookedUp(Init(actions), n);
      assert actions[..|actions| - 1] == Init(actions);
      if a.Dispatch? && s.pump.Ready? {
        assert Init(Apply(s, a).sent) == s.sent;
      } else {
        OthersSendNothing(s, a);
      }
    }
  }

  lemma OthersSendNothing(s: State, a: Action)
    requires !(a.Dispatch? && s.pump.Ready?)
    ensures Apply(s, a).sent == s.sent
  {
  }

  /** Every `WaitPublished` that returned through the channel reports the first decision among the
      events that reach its service: all waiters agree, whenever they came. */
  lemma WaitersAgree(actions: seq<Action>, w: nat)
    requires var s := Run(START, actions);
             w < |s.waiters| && s.waiters[w].Returned? && s.waiters[w].result.Gate?
    ensures var s := Run(START, actions);
            var verdict := FirstDecision(LookedUp(actions, s.waiters[w].n));
            verdict.Some? && s.waiters[w].result.err == ErrOf(verdict)
  {
    RunInv(actions);
    var s := Run(START, actions);
    var n := s.waiters[w].n;
    SentIsLookedUp(actions, n);
    assert WaiterOk(s.waiters[w], s.services) && FollowsFirst(s.services[n], s.pump == Closing(n));
    FirstDecisionConcat(s.services[n].handled, Pending(s.pump, n));
  }

  /** Where the first decision stands, or the end. */
  function FirstAt(events: seq<Progress>): (k: nat)
    ensures k <= |events| && forall i :: 0 <= i < k ==> Decision(events[i]).None?
    ensures k < |events| ==> Decision(events[k]).Some?
    decreases |events|
  {
    if events == [] then 0
    else
      var k := FirstAt(Init(events));
      if k < |events| - 1 || Decision(Last(events)).Some? then k else |events|
  }

  lemma {:induction false} FirstDecisionAt(events: seq<Progress>)
    ensures FirstDecision(events) == if FirstAt(events) == |events| then None else Decision(events[FirstAt(events)])
    decreases |events|
  {
    if events != [] {
      FirstDecisionAt(Init(events));
    }
  }

  lemma PicksFirst(picks: seq<nat>, got: seq<Progress>, all: seq<Progress>)
    requires Picks(picks, got, all) && FirstAt(got) < |got|
    ensures FirstAt(all) <= picks[FirstAt(got)] < |all|
    ensures picks[FirstAt(got)] == FirstAt(all) <==> FirstAt(all) in picks
  {
    var f, d := FirstAt(got), FirstAt(all);
    assert Decision(all[picks[f]]).Some?;
    if j :| 0 <= j < |picks| && picks[j] == d {
      assert got[j] == all[d];
      assert f <= j;
    }
  }

  /** From Arti to the caller, whichever of the watcher's announcements the service was looked up for
      (the others came before it was registered, or were dropped by the queue): what a waiter reports
      through the channel was decided by the first deciding announcement exactly if that one was looked
      up, and is then the verdict of Arti's own status stream. */
  lemma WaitersReportTheStream(actions: seq<Action>, w: nat, stream: seq<ServiceStatus>, picks: seq<nat>)
    requires var s := Run(START, actions);
             && w < |s.waiters| && s.waiters[w].Returned? && s.waiters[w].result.Gate?
             && Picks(picks, LookedUp(actions, s.waiters[w].n), Announcements(Live(stream)))
    ensures var s := Run(START, actions);
            var got, all := LookedUp(actions, s.waiters[w].n), Announcements(Live(stream));
            var decider, err := FirstAt(got), s.waiters[w].result.err;
            && decider < |got| && picks[decider] < |all| && err == ErrOf(Decision(all[picks[decider]]))
            && (picks[decider] == FirstAt(all) <==> FirstAt(all) in picks)
            && (FirstAt(all) in picks ==>
                  Publication.Settled(Live(stream)).Some? && err == ErrOf(Publication.Settled(Live(stream))))
  {
    WaitersAgree(actions, w);
    var s := Run(START, actions);
    var got, all := LookedUp(actions, s.waiters[w].n), Announcements(Live(stream));
    FirstDecisionAt(got);
    FirstDecisionAt(all);
    PicksFirst(picks, got, all);
    VerdictOfStream(Live(stream));
  }

  lemma LaterPartDecides(got: seq<Progress>, all: seq<Progress>, k: nat)
    requires k <= |all| && FirstDecision(all[..k]).None? && got <= all[k..] && FirstDecision(got).Some?
    ensures FirstDecision(all) == FirstDecision(got)
  {
    var rest := all[k..];
    assert rest == got + rest[|got|..] && all == all[..k] + rest;
    FirstDecisionConcat(got, rest[|got|..]);
    FirstDecisionConcat(all[..k], rest);
  }

  /** Registering late is harmless as long as nothing decisive has gone by: a service that was looked up
      for its watcher's announcements from number `k` on reports the verdict of the whole stream. */
  lemma LateRegistrationIsHarmless(actions: seq<Action>, w: nat, stream: seq<ServiceStatus>, k: nat)
    requires var s, all := Run(START, actions), Announcements(Live(stream));
             && w < |s.waiters| && s.waiters[w].Returned? && s.waiters[w].result.Gate?
             && k <= |all| && FirstDecision(all[..k]).None? && LookedUp(actions, s.waiters[w].n) <= all[k..]
    ensures var verdict := Publication.Settled(Live(stream));
            verdict.Some? && Run(START, actions).waiters[w].result.err == ErrOf(verdict)
  {
    WaitersAgree(actions, w);
    LaterPartDecides(LookedUp(actions, Run(START, actions).waiters[w].n), Announcements(Live(stream)), k);
    VerdictOfStream(Live(stream));
  }

  lemma {:induction false} PublishedRuns(s: State, more: seq<Action>)
    requires Inv(s)
    ensures KeepsPublished(s, Run(s, more))
    decreases |more|
  {
    if more != [] {
      PublishedRuns(s, Init(more));
      InvRuns(s, Init(more));
      PublishedKept(Run(s, Init(more)), Last(more));
    }
  }

  /** Once `published` is closed the result never changes again, and the channel is never closed a
      second time. */
  lemma VerdictIsFinal(actions: seq<Action>, more: seq<Action>, n: nat)
    requires var s := Run(START, actions); n < |s.services| && s.services[n].published
    ensures var s, s' := Run(START, actions), Run(Run(START, actions), more);
            n < |s'.services| && s'.services[n].published && s'.services[n].err == s.services[n].err && !s'.closedTwice
  {
    RunInv(actions);
    PublishedRuns(Run(START, actions), more);
    InvRuns(Run(START, actions), more);
  }

  /** Some event of the run that reaches service `n` is a decision. */
  ghost predicate DecisionReaches(actions: seq<Action>, n: nat) {
    exists i :: 0 <= i < |actions| && Reaches(actions, i, n) && Decision(actions[i].ev).Some?
  }

  lemma ReachesBefore(actions: seq<Action>, n: nat, i: nat)
    requires actions != [] && i < |actions| - 1
    ensures Init(actions)[i] == actions[i] && (Reaches(Init(actions), i, n) <==> Reaches(actions, i, n))
  {
    assert Init(actions)[..i] == actions[..i];
  }

  lemma {:induction false} DecisionLookedUp(actions: seq<Action>, n: nat)
    ensures FirstDecision(LookedUp(actions, n)).Some? <==> DecisionReaches(actions, n)
    decreases |actions|
  {
    if actions != [] {
      var before, last := Init(actions), |actions| - 1;
      DecisionLookedUp(before, n);
      forall i | 0 <= i < last
        ensures before[i] == actions[i] && (Reaches(before, i, n) <==> Reaches(actions, i, n))
      {
        ReachesBefore(actions, n, i);
      }
      var tail := if Reaches(actions, last, n) then [Last(actions).ev] else [];
      FirstDecisionConcat(LookedUp(before, n), tail);
      FirstOfOne(Last(actions));
    }
  }

  lemma FirstOfOne(a: Action)
    ensures a.Dispatch? ==> FirstDecision([a.ev]) == Decision(a.ev)
  {
    if a.Dispatch? {
      assert Init([a.ev]) == [];
    }
  }

  /** With the pump between events, a service's result is in exactly when some decision for its address
      was dispatched while it was the one registered there. */
  lemma PublishedIffDispatched(actions: seq<Action>, n: nat)
    requires var s := Run(START, actions); n < |s.services| && s.pump.Ready?
    ensures Run(START, actions).services[n].published <==> DecisionReaches(actions, n)
  {
    RunInv(actions);
    var s := Run(START, actions);
    assert FollowsFirst(s.services[n], false);
    assert s.services[n].handled + [] == s.services[n].handled;
    SentIsLookedUp(actions, n);
    DecisionLookedUp(actions, n);
  }

  // ----- An event that comes too early -----

  ghost predicate NoDecisions(actions: seq<Action>) {
    forall i :: 0 <= i < |actions| && actions[i].Dispatch? ==> Decision(actions[i].ev).None?
  }

  /** Nothing has settled service `n`, and nothing about to be handled will. */
  ghost predicate Unsettled(s: State, n: nat) {
    && n < |s.services| && !s.services[n].entered && !s.services[n].published
    && s.pump != Closing(n)
    && (s.pump.Found? && s.pump.n == n ==> Decision(s.pump.ev).None?)
  }

  /** No `WaitPublished` on service `n` has returned through the channel. */
  ghost predicate NoGate(s: State, n: nat) {
    forall w :: 0 <= w < |s.waiters| && s.waiters[w].n == n && s.waiters[w].Returned? ==>
      !s.waiters[w].result.Gate?
  }

  lemma UnsettledKept(s: State, a: Action, n: nat)
    requires Unsettled(s, n) && (a.Dispatch? ==> Decision(a.ev).None?)
    ensures Unsettled(Apply(s, a), n)
  {
    if !a.Handle? {
      OthersLeaveVerdicts(s, a);
    }
  }

  /** Without a further decision, a service that has missed its own is never published: whoever waits
      for it returns only by cancellation or because the client was closed. */
  lemma {:induction false} MissedForGood(s: State, n: nat, more: seq<Action>)
    requires Inv(s) && Unsettled(s, n) && NoDecisions(more)
    ensures Unsettled(Run(s, more), n)
    ensures NoGate(Run(s, more), n)
    decreases |more|
  {
    if more != [] {
      MissedForGood(s, n, Init(more));
      assert more[|more| - 1] == Last(more);
      UnsettledKept(Run(s, Init(more)), Last(more), n);
    }
    InvRuns(s, more);
    var s' := Run(s, more);
    forall w | 0 <= w < |s'.waiters| && s'.waiters[w].n == n && s'.waiters[w].Returned?
      ensures !s'.waiters[w].result.Gate?
    {
      assert WaiterOk(s'.waiters[w], s'.services);
    }
  }

  lemma {:induction false} RunConcat(s: State, a: seq<Action>, b: seq<Action>)
    ensures Run(s, a + b) == Run(Run(s, a), b)
    decreases |b|
  {
    if b == [] {
      assert a + b == a;
    } else {
      assert Init(a + b) == a + Init(b) && Last(a + b) == Last(b);
      RunConcat(s, a, Init(b));
    }
  }

  lemma Extend(s: State, actions: seq<Action>, a: Action)
    ensures Run(s, actions + [a]) == Apply(Run(s, actions), a)
  {
  }

  /** A `Listen` call that `OnionAdd` has just answered. */
  function Launched(id: string): seq<Action> {
    [Listen, Add(0, Some(id))]
  }

  lemma LaunchedRun(id: string)
    ensures Run(START, Launched(id)) == START.(services := [NEW.(stage := Registering, id := id)])
  {
    var a := [Listen];
    assert [] + [Listen] == a;
    Extend(START, [], Listen);
    assert Run(START, a) == START.(services := [NEW]);
    Extend(START, a, Add(0, Some(id)));
    assert a + [Add(0, Some(id))] == Launched(id);
  }

  /** The service is launched, its `UPLOADED` is dispatched, and only then is it registered. */
  function EarlyUpload(id: string): seq<Action> {
    [Listen, Add(0, Some(id)), Dispatch(id, Uploaded), Register(0), Wait(0)]
  }

  lemma EarlyUploadRun(id: string)
    ensures var s := Run(START, EarlyUpload(id));
            && Unsettled(s, 0) && IsHanded(s, 0) && s.onions == map[id := 0]
            && s.waiters == [Selecting(0)] && s.sent == [(Uploaded, None)]
  {
    LaunchedRun(id);
    var b := Launched(id);
    Extend(START, b, Dispatch(id, Uploaded));
    var c := b + [Dispatch(id, Uploaded)];
    Extend(START, c, Register(0));
    var d := c + [Register(0)];
    Extend(START, d, Wait(0));
    assert EarlyUpload(id) == d + [Wait(0)];
  }

  /** `Listen` registers only after `OnionAdd` has returned, so the one `UPLOADED` a service sends can
      find nobody to deliver to. The caller then waits until it gives up: the comment in the source says
      registration comes first, the code does not do it. */
  lemma RegistrationCanMissUpload(id: string, more: seq<Action>)
    requires NoDecisions(more)
    ensures var s := Run(START, EarlyUpload(id) + more);
            0 < |s.services| && !s.services[0].published && NoGate(s, 0)
  {
    EarlyUploadRun(id);
    RunInv(EarlyUpload(id));
    MissedForGood(Run(START, EarlyUpload(id)), 0, more);
    RunConcat(START, EarlyUpload(id), more);
  }

  // ----- Teardown -----

  /** No listener is closed twice, no service is unpublished twice, and no channel is closed twice. */
  lemma ClosedOnce(actions: seq<Action>, n: nat)
    requires n < |Run(START, actions).services|
    ensures var s := Run(START, actions);
            s.services[n].localCloses <= 1 && s.services[n].deletes <= 1 && !s.closedTwice
  {
    RunInv(actions);
    assert ServiceOk(Run(START, actions).services[n]);
  }

  /** A `Close` call on service `n` has returned. */
  ghost predicate CloseReturned(s: State, n: nat) {
    exists c :: 0 <= c < |s.closers| && s.closers[c] == Closed(n)
  }

  /** The services registered when the client's first `Close` came. */
  function FoundByClose(actions: seq<Action>): set<nat>
    decreases |actions|
  {
    if actions == [] then {}
    else if CloseClient in Init(actions) then FoundByClose(Init(actions))
    else if Last(actions).CloseClient? then Run(START, Init(actions)).onions.Values
    else {}
  }

  lemma {:induction false} TeardownFound(actions: seq<Action>)
    ensures var t := Run(START, actions).teardown;
            && (t.Open? <==> CloseClient !in actions) && (!t.Open? ==> t.all == FoundByClose(actions))
    decreases |actions|
  {
    if actions != [] {
      TeardownFound(Init(actions));
      assert actions == Init(actions) + [Last(actions)];
      TeardownStays(Run(START, Init(actions)), Last(actions));
    }
  }

  lemma TeardownStays(s: State, a: Action)
    ensures var t, t' := s.teardown, Apply(s, a).teardown;
            && (!t.Open? ==> !t'.Open? && t'.all == t.all)
            && (t.Open? && !a.CloseClient? ==> t'.Open?)
            && (t.Open? && a.CloseClient? ==> t' == Marked(s.onions.Values))
  {
  }

  /** When the client's `Close` is through with the services, a handed-out service has its listener
      closed exactly if it was registered when `Close` came, or a `Close` of its own has returned. */
  lemma CloseReachesRegistered(actions: seq<Action>, n: nat)
    requires var s := Run(START, actions); IsHanded(s, n) && s.teardown.Visiting? && s.teardown.rest == {}
    ensures var s := Run(START, actions);
            && (s.services[n].localCloses == 1 <==> n in FoundByClose(actions) || CloseReturned(s, n))
            && s.services[n].localCloses <= 1
  {
    TeardownFound(actions);
    RunInv(actions);
    var s := Run(START, actions);
    assert ServiceOk(s.services[n]);
    assert Visited(s, n) <==> n in s.teardown.all;
    if c :| 0 <= c < |s.closers| && s.closers[c] == Closed(n) {
      assert CloserOk(s, c);
    }
    if n !in s.teardown.all && s.services[n].guard.Done? {
      var c :| 0 <= c < |s.closers| && s.closers[c].n == n;
      assert CloserOk(s, c);
    }
  }

  // ----- Teardown always gets through -----

  function StepsLeft(x: Closer): nat {
    match x
    case Unmapping(_) => 3
    case Unpublishing(_) => 2
    case ClosingLocal(_) => 1
    case Closed(_) => 0
  }

  lemma CloserMoves(s: State, c: nat)
    requires Inv(s) && c < |s.closers| && !s.closers[c].Closed?
    ensures var s' := Apply(s, CloseStep(c));
            && Inv(s') && c < |s'.closers| && s'.closers[c].n == s.closers[c].n
            && StepsLeft(s'.closers[c]) == StepsLeft(s.closers[c]) - 1 && s'.teardown == s.teardown
  {
    InvKept(s, CloseStep(c));
    assert CloserOk(s, c);
  }

  /** A `Close` call on a service that is under way can run to its end. */
  lemma {:induction false} FinishClose(s: State, c: nat) returns (more: seq<Action>)
    requires Inv(s) && c < |s.closers|
    ensures var s' := Run(s, more);
            Inv(s') && s'.teardown == s.teardown && c < |s'.closers| && s'.closers[c] == Closed(s.closers[c].n)
    decreases StepsLeft(s.closers[c])
  {
    if s.closers[c].Closed? {
      more := [];
    } else {
      CloserMoves(s, c);
      var rest := FinishClose(Apply(s, CloseStep(c)), c);
      more := [CloseStep(c)] + rest;
      RunConcat(s, [CloseStep(c)], rest);
      Extend(s, [], CloseStep(c));
      assert [] + [CloseStep(c)] == [CloseStep(c)];
    }
  }

  lemma RunningHasCloser(s: State, n: nat) returns (c: nat)
    requires Inv(s) && n < |s.services| && s.services[n].guard.Running?
    ensures c < |s.closers| && s.closers[c].n == n
  {
    c :| 0 <= c < |s.closers| && s.closers[c].n == n;
  }

  lemma VisitMoves(s: State, n: nat)
    requires Inv(s) && s.teardown.Visiting? && n in s.teardown.rest && !s.services[n].guard.Running?
    ensures Apply(s, CloseLocal(n)).teardown == Visiting(s.teardown.all, s.teardown.rest - {n})
    ensures Inv(Apply(s, CloseLocal(n)))
  {
    InvKept(s, CloseLocal(n));
    assert IsHanded(s, n);
  }

  /** The shared guard cannot hold the client's `Close` up for ever: from every reachable state in which
      it is visiting services, some continuation visits them all. */
  lemma {:induction false} FinishTeardown(s: State) returns (more: seq<Action>)
    requires Inv(s) && s.teardown.Visiting?
    ensures Inv(Run(s, more)) && Run(s, more).teardown == Visiting(s.teardown.all, {})
    decreases |s.teardown.rest|
  {
    if s.teardown.rest == {} {
      more := [];
    } else {
      var n :| n in s.teardown.rest;
      assert IsHanded(s, n);
      var first := [];
      if s.services[n].guard.Running? {
        var c := RunningHasCloser(s, n);
        first := FinishClose(s, c);
        assert CloserOk(Run(s, first), c);
      }
      var mid := Run(s, first);
      VisitMoves(mid, n);
      var rest := FinishTeardown(Apply(mid, CloseLocal(n)));
      more := first + [CloseLocal(n)] + rest;
      Extend(s, first, CloseLocal(n));
      RunConcat(s, first + [CloseLocal(n)], rest);
    }
  }

  lemma TeardownCanFinish(actions: seq<Action>) returns (more: seq<Action>)
    requires Run(START, actions).teardown.Visiting?
    ensures var s' := Run(START, actions + more); s'.teardown.Visiting? && s'.teardown.rest == {}
  {
    RunInv(actions);
    more := FinishTeardown(Run(START, actions));
    RunConcat(START, actions, more);
  }

  /** A `Listen` that is between `OnionAdd` and registration when the client is closed hands out a
      service that `Close` never sees. */
  lemma ListenCanOutliveClose(id: string)
    ensures var s := Run(START, [Listen, Add(0, Some(id)), CloseClient, CloseDone, Register(0)]);
            && IsHanded(s, 0) && s.done && s.teardown == Visiting({}, {})
            && s.services[0].localCloses == 0
  {
    LaunchedRun(id);
    var b := Launched(id);
    Extend(START, b, CloseClient);
    var c := b + [CloseClient];
    Extend(START, c, CloseDone);
    var d := c + [CloseDone];
    Extend(START, d, Register(0));
    assert d + [Register(0)] == [Listen, Add(0, Some(id)), CloseClient, CloseDone, Register(0)];
  }
}
