/** What every run of the publication machine keeps, and what follows for its callers. */
module PublishProofs {
  import opened Sequences
  import opened Publication
  import opened PublishMachine

  // ----- The verdict -----

  function ErrOf(v: Option<Verdict>): Option<string> {
    if v.Some? && v.value.FailedWith? then Some(v.value.reason) else None
  }

  /** The guard, the error and the channel all follow the first decision handled; `closing` is whether
      the pump is about to close the channel. */
  ghost predicate FollowsFirst(svc: Service, closing: bool) {
    && (svc.entered <==> FirstDecision(svc.handled).Some?)
    && svc.err == ErrOf(FirstDecision(svc.handled))
    && (svc.entered <==> svc.published || closing)
    && !(svc.published && closing)
  }

  ghost predicate PumpOk(pump: Pump, services: nat) {
    !pump.Ready? ==> pump.n < services
  }

  ghost predicate VerdictInv(s: State) {
    && PumpOk(s.pump, |s.services|)
    && !s.closedTwice
    && forall n :: 0 <= n < |s.services| ==> FollowsFirst(s.services[n], s.pump == Closing(n))
  }

  lemma SettleSettles(svc: Service, ev: Progress)
    requires FollowsFirst(svc, false)
    ensures FollowsFirst(Settle(svc, ev), Decision(ev).Some? && !svc.entered)
  {
  }

  lemma HandleKeepsVerdict(s: State)
    requires VerdictInv(s)
    ensures VerdictInv(DoHandle(s))
  {
    match s.pump {
      case Ready =>
      case Found(n, ev) => SettleSettles(s.services[n], ev);
      case Closing(n) => assert FollowsFirst(s.services[n], true);
    }
  }

  /** What a step that is not the pump's may change in a service. */
  ghost predicate SameVerdict(a: Service, b: Service) {
    a.entered == b.entered && a.err == b.err && a.published == b.published && a.handled == b.handled
  }

  ghost predicate LeavesVerdicts(s: State, s': State) {
    && |s.services| <= |s'.services|
    && s'.closedTwice == s.closedTwice
    && (forall n :: 0 <= n < |s.services| ==> SameVerdict(s.services[n], s'.services[n]))
    && (forall n :: |s.services| <= n < |s'.services| ==> SameVerdict(NEW, s'.services[n]))
  }

  lemma ListenLeavesVerdicts(s: State, a: Action)
    requires a.Listen? || a.Add? || a.Register?
    ensures LeavesVerdicts(s, Apply(s, a))
  {
  }

  lemma CloseLeavesVerdicts(s: State, n: nat)
    ensures LeavesVerdicts(s, DoClose(s, n)) && LeavesVerdicts(s, DoCloseLocal(s, n))
  {
  }

  lemma CloseStepLeavesVerdicts(s: State, c: nat)
    ensures LeavesVerdicts(s, DoCloseStep(s, c))
  {
  }

  lemma OthersLeaveVerdicts(s: State, a: Action)
    requires !a.Handle?
    ensures LeavesVerdicts(s, Apply(s, a))
  {
    if a.Listen? || a.Add? || a.Register? {
      ListenLeavesVerdicts(s, a);
    } else if a.Close? || a.CloseLocal? {
      CloseLeavesVerdicts(s, a.n);
    } else if a.CloseStep? {
      CloseStepLeavesVerdicts(s, a.c);
    } else {
      assert Apply(s, a).services == s.services && Apply(s, a).closedTwice == s.closedTwice;
    }
  }

  lemma VerdictKept(s: State, a: Action)
    requires VerdictInv(s) && (a.Dispatch? ==> OnionsKnown(s))
    ensures VerdictInv(Apply(s, a))
  {
    if a.Handle? {
      HandleKeepsVerdict(s);
    } else {
      OthersLeaveVerdicts(s, a);
      var s' := Apply(s, a);
      assert forall n :: 0 <= n < |s'.services| ==> ((s'.pump == Closing(n)) <==> (s.pump == Closing(n)));
    }
  }

  // ----- What was dispatched -----

  /** The events looked up to service `n`. */
  function To(sent: seq<(Progress, Option<nat>)>, n: nat): seq<Progress>
    decreases |sent|
  {
    if sent == [] then []
    else To(Init(sent), n) + if Last(sent).1 == Some(n) then [Last(sent).0] else []
  }

  function Pending(pump: Pump, n: nat): seq<Progress> {
    if pump.Found? && pump.n == n then [pump.ev] else []
  }

  /** Every event looked up to a service has been handled by it, in order, save the one in hand. */
  ghost predicate SentInv(s: State) {
    && (forall n: nat :: n < |s.services| ==> s.services[n].handled + Pending(s.pump, n) == To(s.sent, n))
    && (forall n: nat :: n >= |s.services| ==> To(s.sent, n) == [])
  }

  lemma DispatchKeepsSent(s: State, address: string, ev: Progress)
    requires SentInv(s) && OnionsKnown(s) && s.pump.Ready?
    ensures SentInv(DoDispatch(s, address, ev))
  {
  }

  lemma HandleKeepsSent(s: State)
    requires SentInv(s) && PumpOk(s.pump, |s.services|)
    ensures SentInv(DoHandle(s))
  {
    var s' := DoHandle(s);
    forall n: nat | n < |s'.services|
      ensures s'.services[n].handled + Pending(s'.pump, n) == To(s'.sent, n)
    {
      if s.pump.Found? && s.pump.n == n {
        assert s'.services[n].handled == s.services[n].handled + [s.pump.ev];
        assert s'.services[n].handled + [] == s'.services[n].handled;
      }
    }
  }

  lemma SentKept(s: State, a: Action)
    requires SentInv(s) && VerdictInv(s) && OnionsKnown(s)
    ensures SentInv(Apply(s, a))
  {
    if a.Handle? {
      HandleKeepsSent(s);
    } else if a.Dispatch? {
      if s.pump.Ready? {
        DispatchKeepsSent(s, a.address, a.ev);
      }
    } else {
      OthersLeaveVerdicts(s, a);
      var s' := Apply(s, a);
      assert s'.sent == s.sent && s'.pump == s.pump;
      forall n: nat | n < |s'.services|
        ensures s'.services[n].handled + Pending(s'.pump, n) == To(s'.sent, n)
      {
        if n >= |s.services| {
          assert To(s.sent, n) == [] && Pending(s.pump, n) == [];
        }
      }
    }
  }

  // ----- The waiters -----

  ghost predicate WaiterOk(x: Waiter, services: seq<Service>) {
    && x.n < |services|
    && (x.Reading? ==> services[x.n].published)
    && (x.Returned? && x.result.Gate? ==> services[x.n].published && services[x.n].err == x.result.err)
  }

  ghost predicate WaitersInv(s: State) {
    forall w :: 0 <= w < |s.waiters| ==> WaiterOk(s.waiters[w], s.services)
  }

  /** A service whose channel is closed has a fixed error. */
  ghost predicate KeepsPublished(s: State, s': State) {
    && |s.services| <= |s'.services|
    && forall n :: 0 <= n < |s.services| && s.services[n].published ==>
         s'.services[n].published && s'.services[n].err == s.services[n].err
  }

  lemma PublishedKept(s: State, a: Action)
    requires VerdictInv(s)
    ensures KeepsPublished(s, Apply(s, a))
  {
    if a.Handle? {
      if s.pump.Found? {
        assert FollowsFirst(s.services[s.pump.n], false);
      }
    } else {
      OthersLeaveVerdicts(s, a);
    }
  }

  lemma WaitersStep(s: State, a: Action)
    requires WaitersInv(s)
    ensures forall w :: 0 <= w < |Apply(s, a).waiters| ==> WaiterOk(Apply(s, a).waiters[w], s.services)
  {
  }

  lemma WaitersKept(s: State, a: Action)
    requires WaitersInv(s) && VerdictInv(s)
    ensures WaitersInv(Apply(s, a))
  {
    PublishedKept(s, a);
    WaitersStep(s, a);
  }

  // ----- Closing -----

  ghost predicate OnionsKnown(s: State) {
    forall id :: id in s.onions ==> IsHanded(s, s.onions[id])
  }

  /** The listener is closed once the guard is done, or the `Listen` call failed. */
  ghost predicate ServiceOk(svc: Service) {
    && svc.localCloses == (if svc.stage.Refused? || svc.guard.Done? then 1 else 0)
    && (!svc.stage.Handed? ==> svc.guard.Fresh?)
    && svc.deletes <= 1
    && (svc.guard.Fresh? ==> svc.deletes == 0)
  }

  /** A `Close` call past the guard and not finished owns its service. */
  ghost predicate CloserOk(s: State, c: nat)
    requires c < |s.closers|
  {
    var x := s.closers[c];
    && IsHanded(s, x.n)
    && s.services[x.n].guard == (if x.Closed? then Done else Running)
    && (x.Unmapping? || x.Unpublishing? ==> s.services[x.n].deletes == 0)
    && (!x.Closed? ==> forall d :: 0 <= d < |s.closers| && d != c && s.closers[d].n == x.n ==> s.closers[d].Closed?)
  }

  ghost predicate HasCloser(s: State, n: nat) {
    exists c :: 0 <= c < |s.closers| && s.closers[c].n == n
  }

  ghost predicate Visited(s: State, n: nat) {
    s.teardown.Visiting? && n in s.teardown.all && n !in s.teardown.rest
  }

  ghost predicate TeardownOk(s: State) {
    && (s.done <==> s.teardown.Visiting?)
    && (!s.teardown.Open? ==> forall n :: n in s.teardown.all ==> IsHanded(s, n))
    && (s.teardown.Visiting? ==> s.teardown.rest <= s.teardown.all)
    && forall n: nat :: n < |s.services| ==>
         && (Visited(s, n) ==> s.services[n].guard.Done?)
         && (!s.services[n].guard.Fresh? ==> HasCloser(s, n) || Visited(s, n))
  }

  ghost predicate CloseInv(s: State) {
    && OnionsKnown(s)
    && (forall n :: 0 <= n < |s.services| ==> ServiceOk(s.services[n]))
    && (forall c :: 0 <= c < |s.closers| ==> CloserOk(s, c))
    && TeardownOk(s)
  }

  lemma HasCloserGrows(s: State, s': State, n: nat)
    requires |s.closers| <= |s'.closers|
    requires forall c :: 0 <= c < |s.closers| ==> s'.closers[c].n == s.closers[c].n
    ensures HasCloser(s, n) ==> HasCloser(s', n)
  {
  }

  /** What the actions of `Listen`, the pump and the waiters leave alone. */
  ghost predicate LeavesClosing(s: State, s': State) {
    && s'.closers == s.closers && s'.teardown == s.teardown && s'.done == s.done
    && |s.services| <= |s'.services|
    && (forall n :: 0 <= n < |s.services| ==>
          && s'.services[n].guard == s.services[n].guard && s'.services[n].deletes == s.services[n].deletes
          && (s.services[n].stage.Handed? ==> s'.services[n].stage.Handed?))
    && (forall n :: |s.services| <= n < |s'.services| ==> s'.services[n].guard.Fresh?)
  }

  lemma LeftAlone(s: State, s': State)
    requires CloseInv(s) && LeavesClosing(s, s')
    requires OnionsKnown(s') && forall n :: 0 <= n < |s'.services| ==> ServiceOk(s'.services[n])
    ensures CloseInv(s')
  {
    assert forall n :: IsHanded(s, n) ==> IsHanded(s', n);
    forall c | 0 <= c < |s'.closers| ensures CloserOk(s', c) {
      assert CloserOk(s, c);
    }
    forall n: nat | n < |s'.services|
      ensures Visited(s', n) ==> s'.services[n].guard.Done?
      ensures !s'.services[n].guard.Fresh? ==> HasCloser(s', n) || Visited(s', n)
    {
      HasCloserGrows(s, s', n);
      if n >= |s.services| {
        assert Visited(s', n) ==> IsHanded(s, n);
      }
    }
  }

  lemma ListenKeeps(s: State)
    requires CloseInv(s)
    ensures CloseInv(DoListen(s))
  {
    assert forall n :: IsHanded(s, n) ==> IsHanded(DoListen(s), n);
    LeftAlone(s, DoListen(s));
  }

  lemma AddKeeps(s: State, n: nat, reply: Option<string>)
    requires CloseInv(s)
    ensures CloseInv(DoAdd(s, n, reply))
  {
    if n < |s.services| && s.services[n].stage.Adding? {
      assert ServiceOk(s.services[n]);
      assert forall m :: IsHanded(s, m) ==> IsHanded(DoAdd(s, n, reply), m);
      LeftAlone(s, DoAdd(s, n, reply));
    }
  }

  lemma RegisterKeeps(s: State, n: nat)
    requires CloseInv(s)
    ensures CloseInv(DoRegister(s, n))
  {
    if n < |s.services| && s.services[n].stage.Registering? {
      assert ServiceOk(s.services[n]);
      assert forall m :: IsHanded(s, m) ==> IsHanded(DoRegister(s, n), m);
      LeftAlone(s, DoRegister(s, n));
    }
  }

  /** A service settles without its closing being touched. */
  lemma ServiceSettles(s: State, s': State, n: nat)
    requires CloseInv(s) && n < |s.services| == |s'.services|
    requires s'.services == s.services[n := s'.services[n]] && s'.onions == s.onions
    requires var a, b := s.services[n], s'.services[n];
             a.stage == b.stage && a.guard == b.guard && a.localCloses == b.localCloses && a.deletes == b.deletes
    requires s'.closers == s.closers && s'.teardown == s.teardown && s'.done == s.done
    ensures CloseInv(s')
  {
    assert ServiceOk(s.services[n]);
    assert forall m :: IsHanded(s, m) <==> IsHanded(s', m);
    LeftAlone(s, s');
  }

  lemma HandleKeeps(s: State)
    requires CloseInv(s)
    ensures CloseInv(DoHandle(s))
  {
    if !s.pump.Ready? && s.pump.n < |s.services| {
      ServiceSettles(s, DoHandle(s), s.pump.n);
    }
  }

  /** Nothing that closing depends on. */
  lemma UntouchedKeeps(s: State, s': State)
    requires CloseInv(s)
    requires s'.onions == s.onions && s'.services == s.services && s'.closers == s.closers
    requires s'.teardown == s.teardown && s'.done == s.done
    ensures CloseInv(s')
  {
    assert forall n :: IsHanded(s, n) <==> IsHanded(s', n);
    LeftAlone(s, s');
  }

  /** A step that moves one guard forward, with a `Close` call or a visit to account for it. */
  ghost predicate MovesGuard(s: State, s': State, n: nat) {
    && |s'.services| == |s.services| && n < |s.services|
    && (forall m :: 0 <= m < |s.services| && m != n ==> s'.services[m] == s.services[m])
    && s'.services[n].stage == s.services[n].stage
    && (s.services[n].guard.Done? ==> s'.services[n].guard.Done?)
    && (s'.services[n].guard.Fresh? || HasCloser(s', n) || Visited(s', n))
    && |s.closers| <= |s'.closers|
    && (forall c :: 0 <= c < |s.closers| ==> s'.closers[c].n == s.closers[c].n)
    && s'.done == s.done
  }

  lemma TeardownMoves(s: State, s': State, n: nat)
    requires TeardownOk(s) && MovesGuard(s, s', n)
    requires s'.teardown == s.teardown
    ensures TeardownOk(s')
  {
  }

  lemma OnionsStay(s: State, s': State)
    requires OnionsKnown(s) && |s'.services| == |s.services|
    requires forall m :: 0 <= m < |s.services| ==> s'.services[m].stage == s.services[m].stage
    requires forall id :: id in s'.onions ==> id in s.onions && s'.onions[id] == s.onions[id]
    ensures OnionsKnown(s')
  {
  }

  lemma FreshHasNoCloser(s: State, n: nat)
    requires forall c :: 0 <= c < |s.closers| ==> CloserOk(s, c)
    requires IsHanded(s, n) && s.services[n].guard.Fresh?
    ensures forall c :: 0 <= c < |s.closers| ==> s.closers[c].n != n
  {
    forall c | 0 <= c < |s.closers| ensures s.closers[c].n != n {
      assert CloserOk(s, c);
    }
  }

  lemma CloseFresh(s: State, n: nat)
    requires CloseInv(s) && IsHanded(s, n) && s.services[n].guard.Fresh?
    ensures CloseInv(DoClose(s, n))
  {
    var s', c := DoClose(s, n), |s.closers|;
    assert ServiceOk(s.services[n]);
    FreshHasNoCloser(s, n);
    forall d | 0 <= d < |s'.closers| ensures CloserOk(s', d) {
      if d < c {
        assert CloserOk(s, d);
      }
    }
    assert s'.closers[c].n == n;
    TeardownMoves(s, s', n);
    OnionsStay(s, s');
  }

  lemma CloseAgain(s: State, n: nat)
    requires CloseInv(s) && IsHanded(s, n) && s.services[n].guard.Done?
    ensures CloseInv(DoClose(s, n))
  {
    var s', c := DoClose(s, n), |s.closers|;
    forall d | 0 <= d < |s'.closers| ensures CloserOk(s', d) {
      if d < c {
        assert CloserOk(s, d);
      }
    }
    assert s'.closers[c].n == n;
    TeardownMoves(s, s', n);
    OnionsStay(s, s');
  }

  /** The other `Close` calls are unaffected when one of them moves on. */
  lemma ClosersMove(s: State, s': State, c: nat)
    requires c < |s.closers| && !s.closers[c].Closed?
    requires forall d :: 0 <= d < |s.closers| ==> CloserOk(s, d)
    requires |s'.closers| == |s.closers| && |s'.services| == |s.services|
    requires forall d :: 0 <= d < |s.closers| && d != c ==> s'.closers[d] == s.closers[d]
    requires s'.closers[c].n == s.closers[c].n < |s.services| && !s'.closers[c].Unmapping?
    requires forall m :: 0 <= m < |s.services| && m != s.closers[c].n ==> s'.services[m] == s.services[m]
    requires s'.services[s.closers[c].n].stage == s.services[s.closers[c].n].stage
    requires s'.services[s.closers[c].n].guard == if s'.closers[c].Closed? then Done else Running
    requires s'.closers[c].Unpublishing? ==> s'.services[s.closers[c].n].deletes == 0
    requires s'.closers[c].Closed? || forall d :: 0 <= d < |s.closers| && d != c ==> s.closers[d].n != s.closers[c].n
    ensures forall d :: 0 <= d < |s'.closers| ==> CloserOk(s', d)
  {
    forall d | 0 <= d < |s'.closers| ensures CloserOk(s', d) {
      assert CloserOk(s, d);
      assert CloserOk(s, c);
    }
  }

  lemma RunningIsAlone(s: State, c: nat)
    requires c < |s.closers| && !s.closers[c].Closed?
    requires forall d :: 0 <= d < |s.closers| ==> CloserOk(s, d)
    ensures forall d :: 0 <= d < |s.closers| && d != c ==> s.closers[d].n != s.closers[c].n
  {
    forall d | 0 <= d < |s.closers| && d != c ensures s.closers[d].n != s.closers[c].n {
      assert CloserOk(s, c) && CloserOk(s, d);
    }
  }

  /** One step of a `Close` call past the guard. */
  ghost predicate CloserSteps(s: State, s': State, c: nat)
    requires c < |s.closers|
  {
    var n := s.closers[c].n;
    && n < |s.services| && |s'.services| == |s.services| && |s'.closers| == |s.closers|
    && s'.services == s.services[n := s'.services[n]] && s'.closers == s.closers[c := s'.closers[c]]
    && s'.services[n].stage == s.services[n].stage && s'.closers[c].n == n && !s'.closers[c].Unmapping?
    && s'.services[n].guard == (if s'.closers[c].Closed? then Done else Running)
    && (s'.closers[c].Unpublishing? ==> s'.services[n].deletes == 0)
    && ServiceOk(s'.services[n])
    && s'.done == s.done && s'.teardown == s.teardown
    && forall id :: id in s'.onions ==> id in s.onions && s'.onions[id] == s.onions[id]
  }

  lemma DoCloserSteps(s: State, c: nat)
    requires c < |s.closers| && !s.closers[c].Closed? && CloserOk(s, c) && ServiceOk(s.services[s.closers[c].n])
    ensures CloserSteps(s, DoCloseStep(s, c), c)
  {
  }

  lemma CloserStepKeeps(s: State, s': State, c: nat)
    requires CloseInv(s) && c < |s.closers| && !s.closers[c].Closed? && CloserSteps(s, s', c)
    ensures CloseInv(s')
  {
    RunningIsAlone(s, c);
    ClosersMove(s, s', c);
    assert CloserOk(s, c) && s'.closers[c].n == s.closers[c].n;
    TeardownMoves(s, s', s.closers[c].n);
    OnionsStay(s, s');
  }

  lemma CloseStepKeeps(s: State, c: nat)
    requires CloseInv(s)
    ensures CloseInv(DoCloseStep(s, c))
  {
    if c < |s.closers| && !s.closers[c].Closed? {
      assert CloserOk(s, c);
      DoCloserSteps(s, c);
      CloserStepKeeps(s, DoCloseStep(s, c), c);
    }
  }

  lemma TeardownVisits(s: State, s': State, n: nat)
    requires TeardownOk(s) && s.teardown.Visiting? && n in s.teardown.rest && MovesGuard(s, s', n)
    requires s'.teardown == Visiting(s.teardown.all, s.teardown.rest - {n}) && s'.services[n].guard.Done?
    ensures TeardownOk(s')
  {
  }

  lemma CloseLocalKeeps(s: State, n: nat)
    requires CloseInv(s)
    ensures CloseInv(DoCloseLocal(s, n))
  {
    var s' := DoCloseLocal(s, n);
    if s' != s {
      assert IsHanded(s, n) && ServiceOk(s.services[n]) && Visited(s', n);
      if s.services[n].guard.Fresh? {
        FreshHasNoCloser(s, n);
      }
      forall d | 0 <= d < |s'.closers| ensures CloserOk(s', d) {
        assert CloserOk(s, d);
      }
      TeardownVisits(s, s', n);
      OnionsStay(s, s');
    }
  }

  lemma CloseClientKeeps(s: State, a: Action)
    requires CloseInv(s) && (a.CloseClient? || a.CloseDone?)
    ensures CloseInv(Apply(s, a))
  {
    var s' := Apply(s, a);
    forall c | 0 <= c < |s'.closers| ensures CloserOk(s', c) {
      assert CloserOk(s, c);
    }
    OnionsStay(s, s');
    forall n: nat | n < |s'.services|
      ensures Visited(s', n) ==> s'.services[n].guard.Done?
      ensures !s'.services[n].guard.Fresh? ==> HasCloser(s', n) || Visited(s', n)
    {
      HasCloserGrows(s, s', n);
      assert Visited(s', n) <==> Visited(s, n);
    }
    assert forall n :: IsHanded(s, n) ==> IsHanded(s', n);
  }

  lemma OthersUntouched(s: State, a: Action)
    requires a.Dispatch? || a.Wait? || a.SeePublished? || a.ReadError? || a.CancelWait? || a.SeeDone?
    ensures var s' := Apply(s, a);
            && s'.onions == s.onions && s'.services == s.services && s'.closers == s.closers
            && s'.teardown == s.teardown && s'.done == s.done
  {
  }

  lemma CloseKept(s: State, a: Action)
    requires CloseInv(s)
    ensures CloseInv(Apply(s, a))
  {
    match a {
      case Listen => ListenKeeps(s);
      case Add(n, reply) => AddKeeps(s, n, reply);
      case Register(n) => RegisterKeeps(s, n);
      case Handle => HandleKeeps(s);
      case Close(n) =>
        if IsHanded(s, n) && s.services[n].guard.Fresh? {
          CloseFresh(s, n);
        } else if IsHanded(s, n) && s.services[n].guard.Done? {
          CloseAgain(s, n);
        }
      case CloseStep(c) => CloseStepKeeps(s, c);
      case CloseLocal(n) => CloseLocalKeeps(s, n);
      case CloseClient => CloseClientKeeps(s, a);
      case CloseDone => CloseClientKeeps(s, a);
      case _ => OthersUntouched(s, a); UntouchedKeeps(s, Apply(s, a));
    }
  }
}
