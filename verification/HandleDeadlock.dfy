/** Exactly when the threads around the handle can deadlock, and why the stated ordering cures it. */
module HandleDeadlock {
  import opened Sequences
  import opened HandleMachine
  import opened HandleProofs
  import opened HandleServices
  import opened HandleTheorems

  /** A `wait` past its read lock. */
  ghost predicate Waiter(th: Thread) {
    (th.Reading? || th.Inside?) && th.call == Wait
  }

  /** A `Shutdown` past its read lock. */
  ghost predicate Rescuer(th: Thread) {
    (th.Reading? || th.Inside?) && th.call == Shutdown
  }

  ghost predicate SomeWaiter(threads: seq<Thread>) {
    exists t :: 0 <= t < |threads| && Waiter(threads[t])
  }

  ghost predicate SomeRescuer(threads: seq<Thread>) {
    exists t :: 0 <= t < |threads| && Rescuer(threads[t])
  }

  /** The state the comment on `wait` warns about: a writer has announced itself while a `wait` is in
      flight, the exit flag is down, and no `Shutdown` got its read lock in time. */
  ghost predicate Doomed(s: State) {
    s.announced.Some? && !s.backend.exit && SomeWaiter(s.threads) && !SomeRescuer(s.threads)
  }

  // ----- A doomed state stays doomed -----

  /** The waiter is still waiting and the same writer still queued. */
  ghost predicate Frozen(s: State, s': State, t: nat) {
    && t < |s.threads| <= |s'.threads|
    && Waiter(s.threads[t]) && Waiter(s'.threads[t])
    && s'.announced == s.announced && s'.handle && !s'.backend.exit
  }

  lemma ReaderStaysFrozen(s: State, t: nat, u: nat, ok: bool, pick: nat)
    requires Inv(s) && Doomed(s) && t < |s.threads| && Waiter(s.threads[t])
    requires u < |s.threads| && IsReader(s.threads[u])
    ensures var s' := DoStep(s, u, ok, pick); Doomed(s') && Frozen(s, s', t)
  {
    var s' := DoStep(s, u, ok, pick);
    assert !Rescuer(s.threads[u]);
    assert s'.threads[u].Idle? || (s'.threads[u].Inside? && s'.threads[u].call == s.threads[u].call);
    assert s'.threads == s.threads[u := s'.threads[u]];
    assert Waiter(s'.threads[t]);
    assert !s'.backend.exit;
  }

  lemma DoomedStep(s: State, a: Action, t: nat)
    requires Inv(s) && Doomed(s) && t < |s.threads| && Waiter(s.threads[t])
    ensures Doomed(Apply(s, a)) && Frozen(s, Apply(s, a), t)
  {
    var s' := Apply(s, a);
    assert !NoReaders(s.threads);
    if a.Step? && a.t < |s.threads| && IsReader(s.threads[a.t]) {
      ReaderStaysFrozen(s, t, a.t, a.ok, a.pick);
    } else {
      assert s'.backend == s.backend && s'.announced == s.announced && s'.handle == s.handle;
      assert Waiter(s'.threads[t]);
    }
  }

  /** The deadlock: from a doomed state, under every continuation, the `wait` never returns, the
      writer never gets in, and the handle is never freed. */
  lemma {:induction false} Deadlock(before: seq<Action>, after: seq<Action>, t: nat)
    requires var s := Run(START, before); Doomed(s) && t < |s.threads| && Waiter(s.threads[t])
    ensures var s := Run(START, before); Doomed(Run(s, after)) && Frozen(s, Run(s, after), t)
    decreases |after|
  {
    var s := Run(START, before);
    RunInv(before);
    if after == [] {
      assert Run(s, after) == s;
    } else {
      Deadlock(before, Init(after), t);
      InvRuns(s, Init(after));
      DoomedStep(Run(s, Init(after)), Last(after), t);
    }
  }

  // ----- Every other state can finish -----

  ghost predicate AllIdle(s: State) {
    forall t :: 0 <= t < |s.threads| ==> s.threads[t].Idle?
  }

  /** Steps a thread may still need, given what it holds. */
  ghost function Rank(th: Thread): nat {
    match th
    case Idle => 0
    case Parked(_) => 8
    case Reading(_) => 7
    case Inside(_, stage, held) => if stage == Begin then 5 else if stage == Draining then 3 + |held| else 2
    case Queued => 20
    case Announced => 19
    case Freeing(stage, held) => if stage == Begin then 10 else if stage == Draining then 3 + |held| else 2
  }

  ghost function Ranks(threads: seq<Thread>): nat
    decreases |threads|
  {
    if threads == [] then 0 else Ranks(Init(threads)) + Rank(Last(threads))
  }

  /** A `Shutdown` still has to be sent while nobody has raised the exit flag. */
  ghost function Total(s: State): nat {
    Ranks(s.threads) + |s.backend.services.Values| + if s.backend.exit || SomeRescuer(s.threads) then 0 else 20
  }

  lemma {:induction false} RanksSet(threads: seq<Thread>, t: nat, th: Thread)
    requires t < |threads|
    ensures Ranks(threads[t := th]) == Ranks(threads) - Rank(threads[t]) + Rank(th)
    decreases |threads|
  {
    var threads' := threads[t := th];
    if t == |threads| - 1 {
      assert Init(threads') == Init(threads);
    } else {
      assert Init(threads') == Init(threads)[t := th];
      RanksSet(Init(threads), t, th);
    }
  }

  lemma {:induction false} RanksWoken(threads: seq<Thread>)
    ensures Ranks(Woken(threads)) <= Ranks(threads)
    decreases |threads|
  {
    if threads != [] {
      assert Init(Woken(threads)) == Woken(Init(threads));
      RanksWoken(Init(threads));
    }
  }

  /** A reader that is not simply waiting for the exit flag. */
  ghost predicate CanStep(s: State, t: nat) {
    && t < |s.threads| && IsReader(s.threads[t])
    && !(s.threads[t].Inside? && s.threads[t].call == Wait && !s.backend.exit)
  }

  ghost function Pick(held: set<nat>): nat {
    if held == {} then 0 else var i :| i in held; i
  }

  /** A thread's step leaves less to do. */
  ghost predicate Sinks(s: State, s': State, t: nat)
    requires t < |s.threads|
  {
    && |s'.threads| == |s.threads| && s'.threads == s.threads[t := s'.threads[t]]
    && Rank(s'.threads[t]) + |s'.backend.services.Values| < Rank(s.threads[t]) + |s.backend.services.Values|
  }

  lemma AddSinks(s: State, t: nat, id: string, stage: Stage, held: set<nat>)
    requires t < |s.threads| && s.threads[t] == Inside(Add(id), stage, held) && StageOk(s.threads[t], s.backend)
    ensures Sinks(s, InsideStep(s, t, Add(id), stage, held, false, Pick(held)), t)
  {
    if stage != Begin {
      var i := PickOnly(held);
      InsertValues(s.backend, id, i);
    }
  }

  lemma DelSinks(s: State, t: nat, id: string, stage: Stage, held: set<nat>)
    requires t < |s.threads| && s.threads[t] == Inside(Del(id), stage, held) && StageOk(s.threads[t], s.backend)
    ensures Sinks(s, InsideStep(s, t, Del(id), stage, held, false, Pick(held)), t)
  {
    if stage != Begin {
      var i := PickOnly(held);
    } else if id in s.backend.services {
      RemoveValues(s.backend.services, id);
    }
  }

  lemma ShutdownSinks(s: State, t: nat, stage: Stage, held: set<nat>)
    requires t < |s.threads| && s.threads[t] == Inside(Shutdown, stage, held)
    ensures Sinks(s, InsideStep(s, t, Shutdown, stage, held, false, Pick(held)), t)
  {
  }

  /** The change a reader's own step makes to the count of what is left to do. */
  lemma ReaderStepRank(s: State, t: nat)
    requires CanStep(s, t) && StageOk(s.threads[t], s.backend)
    ensures Sinks(s, DoStep(s, t, false, Pick(Hold(s.threads[t]))), t)
  {
    var th := s.threads[t];
    if th.Inside? {
      match th.call {
        case Add(id) => AddSinks(s, t, id, th.stage, th.held);
        case Del(id) => DelSinks(s, t, id, th.stage, th.held);
        case Shutdown => ShutdownSinks(s, t, th.stage, th.held);
        case _ =>
      }
    }
  }

  lemma PickOnly(held: set<nat>) returns (i: nat)
    requires exists x :: held == {x}
    ensures held == {i} && Pick(held) == i && |held| == 1
  {
    i :| held == {i};
  }

  lemma InsertValues(b: Backend, id: string, i: nat)
    ensures |Insert(b, id, i).services.Values| <= |b.services.Values| + 1
  {
    assert Insert(b, id, i).services.Values <= b.services.Values + {i};
    Subset(Insert(b, id, i).services.Values, b.services.Values + {i});
  }

  lemma RemoveValues(services: map<string, nat>, id: string)
    ensures |(services - {id}).Values| <= |services.Values|
  {
    var m := services - {id};
    assert forall k :: k in m ==> m[k] == services[k];
    assert m.Values <= services.Values;
    Subset(m.Values, services.Values);
  }

  lemma {:induction false} Subset(a: set<nat>, b: set<nat>)
    requires a <= b
    ensures |a| <= |b|
    decreases |a|
  {
    if a != {} {
      var x :| x in a;
      Subset(a - {x}, b - {x});
    }
  }

  ghost predicate Advances(s: State, s': State) {
    Inv(s') && !Doomed(s') && Total(s') < Total(s)
  }

  lemma ReaderProgress(s: State, t: nat)
    requires Inv(s) && !Doomed(s) && CanStep(s, t)
    ensures Advances(s, Apply(s, Step(t, false, Pick(Hold(s.threads[t])))))
  {
    var a := Step(t, false, Pick(Hold(s.threads[t])));
    var s' := Apply(s, a);
    InvKept(s, a);
    assert StageOk(s.threads[t], s.backend);
    ReaderStepRank(s, t);
    RanksSet(s.threads, t, s'.threads[t]);
    ReaderStepKeepsRescue(s, t, Pick(Hold(s.threads[t])));
  }

  /** A step by a reader never lowers the exit flag, and a rescuer only leaves with it raised. */
  lemma ReaderStepKeepsRescue(s: State, t: nat, pick: nat)
    requires Inv(s) && CanStep(s, t)
    ensures var s' := DoStep(s, t, false, pick);
            && s'.announced == s.announced
            && (s.backend.exit ==> s'.backend.exit)
            && (SomeRescuer(s.threads) ==> SomeRescuer(s'.threads) || s'.backend.exit)
            && (SomeWaiter(s'.threads) ==> SomeWaiter(s.threads))
  {
    var s' := DoStep(s, t, false, pick);
    var th := s.threads[t];
    assert s'.threads[t].Idle? || (s'.threads[t].Inside? && s'.threads[t].call == th.call);
    assert s'.threads == s.threads[t := s'.threads[t]];
    if Rescuer(th) && s'.threads[t].Idle? {
      assert s'.backend.exit;
    } else if u :| 0 <= u < |s.threads| && Rescuer(s.threads[u]) {
      assert Rescuer(s'.threads[u]);
    }
    if u :| 0 <= u < |s'.threads| && Waiter(s'.threads[u]) {
      assert Waiter(s.threads[u]);
    }
  }

  /** With no writer announced, a fresh `Shutdown` gets its read lock at once. */
  lemma RescueArrives(s: State) returns (actions: seq<Action>)
    requires Inv(s) && s.announced.None? && !s.backend.exit && !SomeRescuer(s.threads)
    ensures Advances(s, Run(s, actions))
  {
    var n := |s.threads|;
    actions := [Spawn, Request(n, Shutdown)];
    var s1 := Apply(s, Spawn);
    var s2 := Apply(s1, Request(n, Shutdown));
    assert Init(actions) == [Spawn] && Init([Spawn]) == [];
    assert Run(s, []) == s;
    assert Run(s, [Spawn]) == s1;
    assert Run(s, actions) == s2;
    InvKept(s, Spawn);
    InvKept(s1, Request(n, Shutdown));
    assert Init(s2.threads) == s.threads;
    assert Rescuer(s2.threads[n]);
  }

  /** With no reader left, the announced writer gets in, and out again. */
  lemma WriterProgress(s: State, t: nat)
    requires Inv(s) && s.announced == Some(t) && NoReaders(s.threads)
    ensures Advances(s, Apply(s, Step(t, false, Pick(Hold(s.threads[t])))))
  {
    var a := Step(t, false, Pick(Hold(s.threads[t])));
    var s' := Apply(s, a);
    InvKept(s, a);
    assert StageOk(s.threads[t], s.backend);
    RanksSet(s.threads, t, Idle);
    RanksWoken(s.threads[t := Idle]);
    WriterStep(s, t);
    if s'.announced.Some? {
      RanksSet(s.threads, t, s'.threads[t]);
    }
  }

  /** The writer either moves on under the lock, or leaves and wakes the parked readers. */
  lemma WriterStep(s: State, t: nat)
    requires LockInv(s.threads, s.announced) && s.announced == Some(t) && NoReaders(s.threads)
    requires StageOk(s.threads[t], s.backend)
    ensures WriterMoved(s, DoStep(s, t, false, Pick(Hold(s.threads[t]))), t)
  {
    match s.threads[t] {
      case Announced =>
      case Freeing(stage, held) => FreeStepMoves(s, t, stage, held);
    }
  }

  ghost predicate WriterMoved(s: State, s': State, t: nat)
    requires t < |s.threads|
  {
    && (s'.announced.Some? ==>
          && |s'.threads| == |s.threads| && s'.threads == s.threads[t := s'.threads[t]] && NoReaders(s'.threads)
          && Rank(s'.threads[t]) + |s'.backend.services.Values| < Rank(s.threads[t]) + |s.backend.services.Values|
          && s'.backend.exit == s.backend.exit && s'.announced == s.announced)
    && (s'.announced.None? ==>
          && s'.threads == Woken(s.threads[t := Idle]) && Rank(s.threads[t]) > 0
          && s'.backend.services == s.backend.services && (s.backend.exit ==> s'.backend.exit))
  }

  lemma FreeStepMoves(s: State, t: nat, stage: Stage, held: set<nat>)
    requires t < |s.threads| && s.threads[t] == Freeing(stage, held) && s.announced == Some(t) && NoReaders(s.threads)
    ensures WriterMoved(s, FreeStep(s, t, stage, held, Pick(held)), t)
  {
    if stage == Begin && s.handle {
      var all := s.backend.services.Values;
      assert FreeStep(s, t, stage, held, Pick(held)) ==
             Set(s.(backend := Drain(s.backend, t).0), t, Freeing(Draining, all));
      var none: map<string, nat> := map[];
      assert Drain(s.backend, t).0.services == none && none.Values == {};
    }
  }

  lemma AnnounceProgress(s: State, t: nat)
    requires Inv(s) && s.announced.None? && NoReaders(s.threads) && t < |s.threads| && s.threads[t].Queued?
    ensures Advances(s, Apply(s, Announce(t)))
  {
    InvKept(s, Announce(t));
    RanksSet(s.threads, t, Announced);
    assert NoReaders(Apply(s, Announce(t)).threads);
  }

  lemma OneAction(s: State, a: Action)
    ensures Run(s, [a]) == Apply(s, a)
  {
  }

  lemma Progress(s: State) returns (actions: seq<Action>)
    requires Inv(s) && !Doomed(s) && !AllIdle(s)
    ensures Advances(s, Run(s, actions))
  {
    var a: Action;
    if t: nat :| CanStep(s, t) {
      ReaderProgress(s, t);
      a := Step(t, false, Pick(Hold(s.threads[t])));
    } else if !NoReaders(s.threads) {
      var t :| 0 <= t < |s.threads| && IsReader(s.threads[t]);
      assert !CanStep(s, t);
      assert Waiter(s.threads[t]);
      if u :| 0 <= u < |s.threads| && Rescuer(s.threads[u]) {
        assert CanStep(s, u);
      }
      actions := RescueArrives(s);
      return;
    } else if s.announced.Some? {
      WriterProgress(s, s.announced.value);
      a := Step(s.announced.value, false, Pick(Hold(s.threads[s.announced.value])));
    } else {
      var t :| 0 <= t < |s.threads| && !s.threads[t].Idle?;
      AnnounceProgress(s, t);
      a := Announce(t);
    }
    OneAction(s, a);
    actions := [a];
  }

  lemma {:induction false} Finish(s: State) returns (actions: seq<Action>)
    requires Inv(s) && !Doomed(s)
    ensures AllIdle(Run(s, actions))
    decreases Total(s)
  {
    if AllIdle(s) {
      actions := [];
    } else {
      var first := Progress(s);
      var rest := Finish(Run(s, first));
      RunConcat(s, first, rest);
      actions := first + rest;
    }
  }

  /** Some continuation brings every thread home. */
  ghost predicate CanFinish(s: State) {
    exists after :: AllIdle(Run(s, after))
  }

  /** Every thread can still finish, if other calls return and somebody is willing to call
      `Shutdown`, exactly in the states that are not doomed. */
  lemma CanFinishIffNotDoomed(before: seq<Action>)
    ensures var s := Run(START, before); CanFinish(s) <==> !Doomed(s)
  {
    var s := Run(START, before);
    RunInv(before);
    if Doomed(s) {
      var t :| 0 <= t < |s.threads| && Waiter(s.threads[t]);
      forall after
        ensures !AllIdle(Run(s, after))
      {
        Deadlock(before, after, t);
      }
    } else {
      var after := Finish(s);
      assert AllIdle(Run(s, after));
    }
  }

  // ----- The stated ordering -----

  /** A `wait` anywhere between its request and its return. */
  ghost predicate InWait(th: Thread) {
    (th.Parked? || th.Reading? || th.Inside?) && th.call == Wait
  }

  ghost predicate InFree(th: Thread) {
    th.Queued? || th.Announced? || th.Freeing?
  }

  /** The ordering the comment on `wait` asks for: `free` is only requested when no `wait` is in
      progress, and no `wait` is started beside a `free`. */
  ghost predicate Ordered(s: State, a: Action) {
    && (a.RequestFree? ==> forall t :: 0 <= t < |s.threads| ==> !InWait(s.threads[t]))
    && (a.Request? && a.call == Wait ==> forall t :: 0 <= t < |s.threads| ==> !InFree(s.threads[t]))
  }

  ghost predicate OrderedRun(actions: seq<Action>)
    decreases |actions|
  {
    actions != [] ==> OrderedRun(Init(actions)) && Ordered(Run(START, Init(actions)), Last(actions))
  }

  ghost predicate WaitsAndFreesApart(s: State) {
    forall t, u :: 0 <= t < |s.threads| && 0 <= u < |s.threads| && InWait(s.threads[t]) ==> !InFree(s.threads[u])
  }

  lemma StepsStayApart(s: State, t: nat, ok: bool, pick: nat)
    requires WaitsAndFreesApart(s) && t < |s.threads|
    ensures WaitsAndFreesApart(DoStep(s, t, ok, pick))
  {
    var s' := DoStep(s, t, ok, pick);
    assert |s'.threads| == |s.threads|;
    forall u | 0 <= u < |s.threads|
      ensures InWait(s'.threads[u]) ==> InWait(s.threads[u])
      ensures InFree(s'.threads[u]) ==> InFree(s.threads[u])
    {
    }
  }

  lemma {:induction false} OrderedStaysApart(actions: seq<Action>)
    requires OrderedRun(actions)
    ensures WaitsAndFreesApart(Run(START, actions))
    decreases |actions|
  {
    if actions != [] {
      OrderedStaysApart(Init(actions));
      var s, a := Run(START, Init(actions)), Last(actions);
      if a.Step? && a.t < |s.threads| {
        StepsStayApart(s, a.t, a.ok, a.pick);
      }
    }
  }

  /** The cure: with the stated ordering no reachable state is stuck. */
  lemma OrderingPreventsDeadlock(actions: seq<Action>)
    requires OrderedRun(actions)
    ensures CanFinish(Run(START, actions))
  {
    OrderedStaysApart(actions);
    RunInv(actions);
    CanFinishIffNotDoomed(actions);
  }

  /** `free` is only requested when no `wait` is in progress, and nothing more. */
  ghost predicate FreesAfterWaits(actions: seq<Action>)
    decreases |actions|
  {
    actions != [] ==>
      && FreesAfterWaits(Init(actions))
      && var s := Run(START, Init(actions));
      Last(actions).RequestFree? ==> forall t :: 0 <= t < |s.threads| ==> !InWait(s.threads[t])
  }

  // ----- Witnesses -----

  /** One more action at the end of a run. */
  lemma Extend(actions: seq<Action>, a: Action) returns (longer: seq<Action>)
    ensures longer == actions + [a] && Run(START, longer) == Apply(Run(START, actions), a)
  {
    longer := actions + [a];
    assert Init(longer) == actions;
  }

  /** Without the ordering the deadlock is reachable: `wait` enters, then `free` announces itself. */
  lemma DeadlockIsReachable() returns (actions: seq<Action>)
    ensures Doomed(Run(START, actions))
  {
    actions := Extend([], Spawn);
    actions := Extend(actions, Spawn);
    actions := Extend(actions, Request(0, Wait));
    actions := Extend(actions, Step(0, true, 0));
    assert Run(START, actions).threads == [Inside(Wait, Begin, {}), Idle];
    actions := Extend(actions, RequestFree(1));
    actions := Extend(actions, Announce(1));
    var s := Run(START, actions);
    assert s.threads == [Inside(Wait, Begin, {}), Announced];
    assert Waiter(s.threads[0]);
  }

  /** Both halves of the ordering are needed: a `wait` that starts beside a queued `free` deadlocks, even
      though `free` was requested when no `wait` was in progress. */
  lemma FreesAfterWaitsIsNotEnough() returns (actions: seq<Action>)
    ensures FreesAfterWaits(actions) && Doomed(Run(START, actions)) && !CanFinish(Run(START, actions))
  {
    actions := Extend([], Spawn);
    assert Init(actions) == [] && FreesAfterWaits([]);
    actions := ExtendOrdered(actions, Spawn);
    assert Run(START, actions).threads == [Idle, Idle];
    actions := ExtendOrdered(actions, RequestFree(1));
    actions := ExtendOrdered(actions, Request(0, Wait));
    actions := ExtendOrdered(actions, Announce(1));
    var s := Run(START, actions);
    assert s.threads == [Reading(Wait), Announced];
    assert Waiter(s.threads[0]);
    CanFinishIffNotDoomed(actions);
  }

  lemma ExtendOrdered(actions: seq<Action>, a: Action) returns (longer: seq<Action>)
    requires FreesAfterWaits(actions)
    requires a.RequestFree? ==> var s := Run(START, actions); forall t :: 0 <= t < |s.threads| ==> !InWait(s.threads[t])
    ensures longer == actions + [a] && Run(START, longer) == Apply(Run(START, actions), a) && FreesAfterWaits(longer)
  {
    longer := Extend(actions, a);
    assert Init(longer) == actions && Last(longer) == a;
  }

  /** Relaunching an id that is still mapped loses the first instance: it is never shut down. */
  lemma RelaunchedIdIsNeverShut(id: string) returns (actions: seq<Action>)
    ensures var s := Run(START, actions);
            !s.handle && AllIdle(s) && s.backend.ids == [id, id] && s.backend.places == [Replaced, Shut]
  {
    actions := Extend([], Spawn);
    actions := AddOnce(actions, id);
    var b := Run(START, actions).backend;
    assert b.places == [Mapped(id)] && b.services == map[id := 0];
    actions := AddOnce(actions, id);
    var s := Run(START, actions);
    assert s.backend.places == [Replaced, Mapped(id)] && s.backend.services == map[id := 1];
    assert s.backend.services.Values == {1};
    actions := FreeOnce(actions, 1);
    assert Drain(s.backend, 0).0.places == [Replaced, Held(0)];
  }

  /** A single thread frees a client whose map holds just the instance `i`. */
  lemma FreeOnce(before: seq<Action>, i: nat) returns (actions: seq<Action>)
    requires var s := Run(START, before);
             s.threads == [Idle] && s.announced.None? && s.handle && s.backend.services.Values == {i}
    ensures var s, s' := Run(START, before), Run(START, actions);
            && s'.threads == [Idle] && !s'.handle
            && s'.backend == ShutDown(Drain(s.backend, 0).0, i).(exit := true)
  {
    var s := Run(START, before);
    actions := Extend(before, RequestFree(0));
    actions := Extend(actions, Announce(0));
    actions := Extend(actions, Step(0, true, 0));
    assert Run(START, actions) == s.(announced := Some(0), threads := [Freeing(Begin, {})]);
    actions := Extend(actions, Step(0, true, 0));
    var drained := Drain(s.backend, 0).0;
    assert Run(START, actions) == s.(announced := Some(0), threads := [Freeing(Draining, {i})], backend := drained);
    actions := DrainedOnce(actions, drained, i);
  }

  lemma DrainedOnce(before: seq<Action>, b: Backend, i: nat) returns (actions: seq<Action>)
    requires var s := Run(START, before);
             s.threads == [Freeing(Draining, {i})] && s.announced == Some(0) && s.handle && s.backend == b
    ensures var s' := Run(START, actions);
            s'.threads == [Idle] && !s'.handle && s'.backend == ShutDown(b, i).(exit := true)
  {
    var s := Run(START, before);
    actions := Extend(before, Step(0, true, i));
    assert {i} - {i} == {};
    assert Run(START, actions) == s.(threads := [Freeing(Draining, {})], backend := ShutDown(b, i));
    actions := Extend(actions, Step(0, true, 0));
    assert Run(START, actions) == s.(threads := [Freeing(Signal, {})], backend := ShutDown(b, i));
    actions := Extend(actions, Step(0, true, 0));
  }

  /** A single thread launches `id` and inserts it. */
  lemma AddOnce(before: seq<Action>, id: string) returns (actions: seq<Action>)
    requires var s := Run(START, before); s.threads == [Idle] && s.announced.None? && s.handle
    ensures var s, s' := Run(START, before), Run(START, actions);
            && s'.threads == [Idle] && s'.announced.None? && s'.handle
            && s'.backend == Insert(Launch(s.backend, 0, id).0, id, |s.backend.places|)
  {
    var s := Run(START, before);
    actions := Extend(before, Request(0, Add(id)));
    actions := Extend(actions, Step(0, true, 0));
    assert Run(START, actions).threads == [Inside(Add(id), Begin, {})];
    actions := Extend(actions, Step(0, true, 0));
    assert Run(START, actions).threads == [Inside(Add(id), Draining, {|s.backend.places|})];
    actions := Extend(actions, Step(0, true, |s.backend.places|));
  }
}