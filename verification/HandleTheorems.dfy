/** What holds in every run of the handle machine: no use after free, exactly-once teardown, and
    exactly when the threads can deadlock. */
module HandleTheorems {
  import opened Sequences
  import opened HandleMachine
  import opened HandleProofs
  import opened HandleServices

  ghost predicate Inv(s: State) {
    LockInv(s.threads, s.announced) && HandleInv(s) && ServiceInv(s)
  }

  lemma InvKept(s: State, a: Action)
    requires Inv(s)
    ensures Inv(Apply(s, a))
  {
    LockKept(s, a);
    HandleKept(s, a);
    ServiceKept(s, a);
  }

  lemma {:induction false} InvRuns(s: State, actions: seq<Action>)
    requires Inv(s)
    ensures Inv(Run(s, actions))
    decreases |actions|
  {
    if actions != [] {
      InvRuns(s, Init(actions));
      InvKept(Run(s, Init(actions)), Last(actions));
    }
  }

  lemma RunInv(actions: seq<Action>)
    ensures Inv(Run(START, actions))
  {
    InvRuns(START, actions);
  }

  // ----- Use after free -----

  /** Every call in progress has a live handle behind it and no writer beside it, and the handle
      is freed at most once. */
  lemma HandleSafety(actions: seq<Action>)
    ensures var s := Run(START, actions);
            && (forall t :: 0 <= t < |s.threads| && s.threads[t].Inside? ==> s.handle)
            && (forall t :: 0 <= t < |s.threads| && s.threads[t].Freeing? ==>
                  s.announced == Some(t) && NoReaders(s.threads))
            && s.freed <= 1 && (s.freed == 1 <==> !s.handle)
  {
    RunInv(actions);
  }

  // ----- Services -----

  /** A service instance that is still up. */
  ghost predicate Up(b: Backend, i: nat)
    requires i < |b.places|
  {
    b.places[i].Held? || b.places[i].Mapped?
  }

  /** An instance that is up is found in the map, or in the hands of some call. */
  ghost predicate UpIsFound(threads: seq<Thread>, b: Backend) {
    forall i :: 0 <= i < |b.places| ==>
      (Up(b, i) <==> i in b.services.Values || exists t :: 0 <= t < |threads| && i in Hold(threads[t]))
  }

  /** Nothing is in two hands, or in a hand and in the map. */
  ghost predicate OneOwner(threads: seq<Thread>, b: Backend) {
    forall t :: 0 <= t < |threads| ==>
      && Hold(threads[t]) !! b.services.Values
      && forall u :: 0 <= u < |threads| && u != t ==> Hold(threads[t]) !! Hold(threads[u])
  }

  lemma UpFound(threads: seq<Thread>, b: Backend)
    requires PlacesInv(Hands(threads), b)
    ensures UpIsFound(threads, b)
  {
    var hands := Hands(threads);
    forall i | 0 <= i < |b.places|
      ensures Up(b, i) <==> i in b.services.Values || exists t :: 0 <= t < |threads| && i in Hold(threads[t])
    {
      if b.places[i].Held? {
        assert i in hands[b.places[i].t];
      }
      if t :| 0 <= t < |threads| && i in Hold(threads[t]) {
        assert i in hands[t];
      }
    }
  }

  lemma OwnersDisjoint(threads: seq<Thread>, b: Backend)
    requires PlacesInv(Hands(threads), b)
    ensures OneOwner(threads, b)
  {
    var hands := Hands(threads);
    forall t | 0 <= t < |threads|
      ensures Hold(threads[t]) == hands[t]
    {
    }
  }

  /** Whatever interleaving of adds, deletes, shutdowns and frees: no instance is shut down twice,
      and one that is up has exactly one owner that will still find it. */
  lemma NothingShutTwice(actions: seq<Action>)
    ensures var s := Run(START, actions);
            !s.backend.shutTwice && UpIsFound(s.threads, s.backend) && OneOwner(s.threads, s.backend)
  {
    RunInv(actions);
    var s := Run(START, actions);
    UpFound(s.threads, s.backend);
    OwnersDisjoint(s.threads, s.backend);
  }

  /** Only a call on a live handle has an instance in hand. */
  lemma HeldMeansLive(s: State, i: nat)
    requires Inv(s) && i < |s.backend.places|
    ensures Up(s.backend, i) ==> s.handle
  {
  }

  /** Once the handle has been freed no instance is up: each was shut down, or was replaced in the
      map by a later launch under its own id. */
  lemma NothingUpAfterFree(actions: seq<Action>)
    requires !Run(START, actions).handle
    ensures var b := Run(START, actions).backend;
            forall i :: 0 <= i < |b.places| ==> b.places[i] == Shut || b.places[i] == Replaced
  {
    RunInv(actions);
    var s := Run(START, actions);
    forall i | 0 <= i < |s.backend.places|
      ensures !Up(s.backend, i)
    {
      HeldMeansLive(s, i);
    }
  }

  ghost predicate DistinctIds(b: Backend) {
    forall i, j :: 0 <= i < |b.ids| && 0 <= j < |b.ids| && i != j ==> b.ids[i] != b.ids[j]
  }

  ghost predicate NoneReplaced(b: Backend) {
    forall i :: 0 <= i < |b.places| ==> b.places[i] != Replaced
  }

  /** An insert that finds its id taken has relaunched an id. */
  lemma TakenIdIsRepeated(s: State, t: nat, pick: nat)
    requires ServiceInv(s) && t < |s.threads| && s.threads[t].Inside? && s.threads[t].call.Add?
    requires s.threads[t].stage != Begin && pick in s.threads[t].held
    requires s.threads[t].call.id in s.backend.services
    ensures !DistinctIds(s.backend)
  {
    var b, id := s.backend, s.threads[t].call.id;
    HeldAreKnown(s);
    assert pick in Hands(s.threads)[t] && StageOk(s.threads[t], b);
    assert b.ids[b.services[id]] == id && b.ids[pick] == id && b.services[id] != pick;
  }

  lemma TakingReplacesNothing(b: Backend, t: nat, id: string, pick: nat)
    ensures var b' := Drain(b, t).0; (NoneReplaced(b) ==> NoneReplaced(b')) && b'.ids == b.ids
    ensures var b' := ShutDown(b, pick); (NoneReplaced(b) ==> NoneReplaced(b')) && b'.ids == b.ids
    ensures id in b.services ==>
              var b' := TakeOut(b, t, id).0; (NoneReplaced(b) ==> NoneReplaced(b')) && b'.ids == b.ids
  {
  }

  lemma InsideReplacesNothing(s: State, t: nat, call: Call, stage: Stage, held: set<nat>, ok: bool, pick: nat)
    requires t < |s.threads| && !call.Add?
    ensures var b' := InsideStep(s, t, call, stage, held, ok, pick).backend;
            (NoneReplaced(s.backend) ==> NoneReplaced(b')) && b'.ids == s.backend.ids
  {
    TakingReplacesNothing(s.backend, t, if call.Del? then call.id else "", pick);
  }

  lemma FreeReplacesNothing(s: State, t: nat, stage: Stage, held: set<nat>, pick: nat)
    requires t < |s.threads|
    ensures var b' := FreeStep(s, t, stage, held, pick).backend;
            (NoneReplaced(s.backend) ==> NoneReplaced(b')) && b'.ids == s.backend.ids
  {
    TakingReplacesNothing(s.backend, t, "", pick);
  }

  lemma OthersReplaceNothing(s: State, t: nat, ok: bool, pick: nat)
    requires t < |s.threads| && !(s.threads[t].Inside? && s.threads[t].call.Add?)
    ensures NoneReplaced(s.backend) ==> NoneReplaced(DoStep(s, t, ok, pick).backend)
    ensures DoStep(s, t, ok, pick).backend.ids == s.backend.ids
  {
    match s.threads[t] {
      case Inside(call, stage, held) => InsideReplacesNothing(s, t, call, stage, held, ok, pick);
      case Freeing(stage, held) => FreeReplacesNothing(s, t, stage, held, pick);
      case _ =>
    }
  }

  lemma AddIds(s: State, t: nat, ok: bool, pick: nat)
    requires t < |s.threads| && s.threads[t].Inside? && s.threads[t].call.Add?
    ensures s.backend.ids <= DoStep(s, t, ok, pick).backend.ids
  {
  }

  lemma IdsGrow(s: State, a: Action)
    ensures s.backend.ids <= Apply(s, a).backend.ids
  {
    if a.Step? && a.t < |s.threads| {
      if s.threads[a.t].Inside? && s.threads[a.t].call.Add? {
        AddIds(s, a.t, a.ok, a.pick);
      } else {
        OthersReplaceNothing(s, a.t, a.ok, a.pick);
      }
    }
  }

  // ----- Exactly when an instance is lost -----

  /** The branch of `onion_add` that overwrites: the insert finds its id mapped. */
  ghost predicate Overwrites(s: State, a: Action) {
    && a.Step? && a.t < |s.threads| && s.threads[a.t].Inside? && s.threads[a.t].call.Add?
    && s.threads[a.t].stage != Begin && a.pick in s.threads[a.t].held
    && s.threads[a.t].call.id in s.backend.services
  }

  /** Some insert of the run found its id mapped. */
  ghost predicate SomeOverwrite(actions: seq<Action>)
    decreases |actions|
  {
    actions != [] && (SomeOverwrite(Init(actions)) || Overwrites(Run(START, Init(actions)), Last(actions)))
  }

  lemma OverwriteReplaces(s: State, a: Action)
    requires ServiceInv(s) && Overwrites(s, a)
    ensures !NoneReplaced(Apply(s, a).backend)
  {
    var b, id := s.backend, s.threads[a.t].call.id;
    assert a.pick in Hands(s.threads)[a.t];
    assert Apply(s, a).backend.places[b.services[id]] == Replaced;
  }

  lemma OtherAddsReplaceNothing(s: State, t: nat, ok: bool, pick: nat)
    requires t < |s.threads| && s.threads[t].Inside? && s.threads[t].call.Add?
    requires !Overwrites(s, Step(t, ok, pick)) && NoneReplaced(s.backend)
    ensures NoneReplaced(DoStep(s, t, ok, pick).backend)
  {
  }

  lemma OnlyOverwritesReplace(s: State, a: Action)
    requires !Overwrites(s, a) && NoneReplaced(s.backend)
    ensures NoneReplaced(Apply(s, a).backend)
  {
    if a.Step? && a.t < |s.threads| {
      if s.threads[a.t].Inside? && s.threads[a.t].call.Add? {
        OtherAddsReplaceNothing(s, a.t, a.ok, a.pick);
      } else {
        OthersReplaceNothing(s, a.t, a.ok, a.pick);
      }
    }
  }

  /** What is neither mapped nor held stays where it is. */
  ghost predicate KeepsReplaced(b: Backend, b': Backend) {
    |b.places| <= |b'.places| && forall i :: 0 <= i < |b.places| && b.places[i] == Replaced ==> b'.places[i] == Replaced
  }

  lemma InsideKeepsReplaced(s: State, t: nat, call: Call, stage: Stage, held: set<nat>, ok: bool, pick: nat)
    requires PlacesInv(Hands(s.threads), s.backend) && t < |s.threads| && s.threads[t] == Inside(call, stage, held)
    ensures KeepsReplaced(s.backend, InsideStep(s, t, call, stage, held, ok, pick).backend)
  {
    assert Hands(s.threads)[t] == held;
  }

  lemma FreeKeepsReplaced(s: State, t: nat, stage: Stage, held: set<nat>, pick: nat)
    requires PlacesInv(Hands(s.threads), s.backend) && t < |s.threads| && s.threads[t] == Freeing(stage, held)
    ensures KeepsReplaced(s.backend, FreeStep(s, t, stage, held, pick).backend)
  {
    assert Hands(s.threads)[t] == held;
  }

  lemma ReplacedStays(s: State, a: Action)
    requires ServiceInv(s)
    ensures KeepsReplaced(s.backend, Apply(s, a).backend)
  {
    if a.Step? && a.t < |s.threads| {
      match s.threads[a.t] {
        case Inside(call, stage, held) => InsideKeepsReplaced(s, a.t, call, stage, held, a.ok, a.pick);
        case Freeing(stage, held) => FreeKeepsReplaced(s, a.t, stage, held, a.pick);
        case _ => assert Apply(s, a).backend == s.backend;
      }
    } else {
      assert Apply(s, a).backend == s.backend;
    }
  }

  /** An instance is lost exactly when some insert found its id mapped. */
  lemma {:induction false} LostIffOverwritten(actions: seq<Action>)
    ensures NoneReplaced(Run(START, actions).backend) <==> !SomeOverwrite(actions)
    decreases |actions|
  {
    if actions != [] {
      var s, a := Run(START, Init(actions)), Last(actions);
      LostIffOverwritten(Init(actions));
      RunInv(Init(actions));
      ReplacedStays(s, a);
      if Overwrites(s, a) {
        OverwriteReplaces(s, a);
      } else if NoneReplaced(s.backend) {
        OnlyOverwritesReplace(s, a);
      }
    }
  }

  /** Every launched instance has been shut down, and none of them twice, by the time the handle is freed
      exactly if no insert of the run found its id mapped. */
  lemma ExactlyOnceTeardown(actions: seq<Action>)
    requires !Run(START, actions).handle
    ensures var b := Run(START, actions).backend;
            !b.shutTwice && ((forall i :: 0 <= i < |b.places| ==> b.places[i] == Shut) <==> !SomeOverwrite(actions))
  {
    NothingShutTwice(actions);
    NothingUpAfterFree(actions);
    LostIffOverwritten(actions);
  }

  /** Distinct service ids never overwrite one another. */
  lemma {:induction false} DistinctNeverOverwrite(actions: seq<Action>)
    requires DistinctIds(Run(START, actions).backend)
    ensures !SomeOverwrite(actions)
    decreases |actions|
  {
    if actions != [] {
      var s, a := Run(START, Init(actions)), Last(actions);
      IdsGrow(s, a);
      assert forall i :: 0 <= i < |s.backend.ids| ==> s.backend.ids[i] == Apply(s, a).backend.ids[i];
      DistinctNeverOverwrite(Init(actions));
      RunInv(Init(actions));
      if Overwrites(s, a) {
        TakenIdIsRepeated(s, a.t, a.pick);
      }
    }
  }

  /** With pairwise distinct service ids, every launched instance is shut down exactly once by the
      time the handle is freed. */
  lemma DistinctIdsTearDown(actions: seq<Action>)
    requires var s := Run(START, actions); !s.handle && DistinctIds(s.backend)
    ensures var b := Run(START, actions).backend;
            !b.shutTwice && forall i :: 0 <= i < |b.places| ==> b.places[i] == Shut
  {
    DistinctNeverOverwrite(actions);
    ExactlyOnceTeardown(actions);
  }

  // ----- What a call takes, it shuts -----

  /** A call that only takes instances to shut them. */
  ghost predicate Shuts(th: Thread) {
    th.Freeing? || (th.Inside? && (th.call.Del? || th.call.Shutdown?))
  }

  /** Instance `i` is in the hands of thread `t`, which is there to shut it, or has been shut. */
  ghost predicate HeldOrShut(s: State, t: nat, i: nat) {
    && t < |s.threads| && i < |s.backend.places|
    && (s.backend.places[i] == Shut || (Shuts(s.threads[t]) && i in Hold(s.threads[t])))
  }

  lemma InsideHeldOrShut(s: State, t: nat, u: nat, ok: bool, pick: nat, i: nat)
    requires ServiceInv(s) && HeldOrShut(s, t, i) && u < |s.threads| && s.threads[u].Inside?
    ensures var th := s.threads[u]; HeldOrShut(InsideStep(s, u, th.call, th.stage, th.held, ok, pick), t, i)
  {
    assert StageOk(s.threads[u], s.backend) && StageOk(s.threads[t], s.backend);
    assert Hands(s.threads)[u] == Hold(s.threads[u]) && Hands(s.threads)[t] == Hold(s.threads[t]);
  }

  lemma FreeHeldOrShut(s: State, t: nat, u: nat, pick: nat, i: nat)
    requires ServiceInv(s) && HeldOrShut(s, t, i) && u < |s.threads| && s.threads[u].Freeing?
    ensures var th := s.threads[u]; HeldOrShut(FreeStep(s, u, th.stage, th.held, pick), t, i)
  {
    assert StageOk(s.threads[u], s.backend) && StageOk(s.threads[t], s.backend);
    assert Hands(s.threads)[u] == Hold(s.threads[u]) && Hands(s.threads)[t] == Hold(s.threads[t]);
  }

  lemma HeldOrShutKept(s: State, a: Action, t: nat, i: nat)
    requires ServiceInv(s) && HeldOrShut(s, t, i)
    ensures HeldOrShut(Apply(s, a), t, i)
  {
    if a.Step? && a.t < |s.threads| {
      match s.threads[a.t] {
        case Inside(_, _, _) => InsideHeldOrShut(s, t, a.t, a.ok, a.pick, i);
        case Freeing(_, _) => FreeHeldOrShut(s, t, a.t, a.pick, i);
        case _ =>
      }
    }
  }

  /** What a `Del`, a `Shutdown` or a `free` has in hand it shuts: in every continuation it still has it in
      hand or the instance has been shut, so once the call is over it has been. */
  lemma {:induction false} WhatIsTakenIsShut(s: State, more: seq<Action>, t: nat, i: nat)
    requires Inv(s) && HeldOrShut(s, t, i)
    ensures HeldOrShut(Run(s, more), t, i)
    decreases |more|
  {
    if more != [] {
      WhatIsTakenIsShut(s, Init(more), t, i);
      InvRuns(s, Init(more));
      HeldOrShutKept(Run(s, Init(more)), Last(more), t, i);
    }
  }

  lemma DelTakes(s: State, t: nat, id: string, ok: bool, pick: nat)
    requires ServiceInv(s) && t < |s.threads| && s.threads[t] == Inside(Del(id), Begin, {}) && id in s.backend.services
    ensures var s' := DoStep(s, t, ok, pick);
            id !in s'.backend.services && HeldOrShut(s', t, s.backend.services[id])
  {
  }

  lemma DrainTakes(s: State, t: nat, ok: bool, pick: nat, id: string)
    requires ServiceInv(s) && t < |s.threads| && id in s.backend.services
    requires s.threads[t] == Inside(Shutdown, Begin, {}) || (s.threads[t] == Freeing(Begin, {}) && s.handle)
    ensures var s' := DoStep(s, t, ok, pick);
            id !in s'.backend.services && HeldOrShut(s', t, s.backend.services[id])
  {
    assert s.backend.services[id] in s.backend.services.Values;
  }

  /** A `Del` of a mapped id, once it has got to the map and is over, has left that instance shut; so have a
      `Shutdown` and a `free` every instance that was mapped when they got there. */
  lemma CallLeavesShut(actions: seq<Action>, more: seq<Action>, t: nat, id: string, ok: bool, pick: nat)
    requires var s := Run(START, actions);
             && t < |s.threads| && id in s.backend.services
             && (s.threads[t] == Inside(Del(id), Begin, {}) || s.threads[t] == Inside(Shutdown, Begin, {})
                 || s.threads[t] == Freeing(Begin, {}))
    ensures var s := Run(START, actions);
            var i := s.backend.services[id];
            var s' := Run(Apply(s, Step(t, ok, pick)), more);
            && t < |s'.threads| && i < |s'.backend.places|
            && (!Shuts(s'.threads[t]) || i !in Hold(s'.threads[t]) ==> s'.backend.places[i] == Shut)
  {
    RunInv(actions);
    var s := Run(START, actions);
    if s.threads[t] == Inside(Del(id), Begin, {}) {
      DelTakes(s, t, id, ok, pick);
    } else {
      DrainTakes(s, t, ok, pick, id);
    }
    InvKept(s, Step(t, ok, pick));
    WhatIsTakenIsShut(Apply(s, Step(t, ok, pick)), more, t, s.backend.services[id]);
  }
}
