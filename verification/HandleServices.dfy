/** Every launched onion service instance is in exactly one place, and is shut down at most once. */
module HandleServices {
  import opened HandleMachine

  ghost function Hold(th: Thread): set<nat> {
    if th.Inside? || th.Freeing? then th.held else {}
  }

  ghost function Hands(threads: seq<Thread>): seq<set<nat>> {
    seq(|threads|, t requires 0 <= t < |threads| => Hold(threads[t]))
  }

  /** The map, the hands of the threads and the record of places agree. */
  ghost predicate PlacesInv(hands: seq<set<nat>>, b: Backend) {
    && |b.ids| == |b.places|
    && !b.shutTwice
    && (forall id :: id in b.services ==> b.services[id] < |b.places| && b.places[b.services[id]] == Mapped(id))
    && (forall i :: 0 <= i < |b.places| && b.places[i].Mapped? ==>
          b.places[i].id in b.services && b.services[b.places[i].id] == i)
    && (forall t :: 0 <= t < |hands| ==> forall i :: i in hands[t] ==> i < |b.places| && b.places[i] == Held(t))
    && (forall i :: 0 <= i < |b.places| && b.places[i].Held? ==>
          b.places[i].t < |hands| && i in hands[b.places[i].t])
  }

  /** What a thread may have in hand at each stage. */
  ghost predicate StageOk(th: Thread, b: Backend) {
    && (th.Freeing? && th.stage != Draining ==> th.held == {})
    && (th.Inside? ==>
          match th.call
          case Wait => th.held == {}
          case Other => th.held == {}
          case Shutdown => th.stage != Draining ==> th.held == {}
          case Del(id) => if th.stage == Begin then th.held == {} else exists i :: th.held == {i}
          case Add(id) =>
            if th.stage == Begin then th.held == {}
            else exists i :: th.held == {i} && (i < |b.ids| ==> b.ids[i] == id))
  }

  /** A mapped instance carries the id it is mapped under. */
  ghost predicate IdsInv(b: Backend) {
    forall i :: 0 <= i < |b.places| && i < |b.ids| && b.places[i].Mapped? ==> b.places[i].id == b.ids[i]
  }

  ghost predicate ServiceInv(s: State) {
    && PlacesInv(Hands(s.threads), s.backend)
    && IdsInv(s.backend)
    && (forall t :: 0 <= t < |s.threads| ==> StageOk(s.threads[t], s.backend))
  }

  lemma DrainPlaces(hands: seq<set<nat>>, b: Backend, t: nat)
    requires PlacesInv(hands, b) && t < |hands| && hands[t] == {}
    ensures PlacesInv(hands[t := Drain(b, t).1], Drain(b, t).0)
    ensures IdsInv(b) ==> IdsInv(Drain(b, t).0)
  {
  }

  lemma ShutPlaces(hands: seq<set<nat>>, b: Backend, t: nat, i: nat)
    requires PlacesInv(hands, b) && t < |hands| && i in hands[t]
    ensures PlacesInv(hands[t := hands[t] - {i}], ShutDown(b, i))
    ensures IdsInv(b) ==> IdsInv(ShutDown(b, i))
  {
  }

  lemma LaunchPlaces(hands: seq<set<nat>>, b: Backend, t: nat, id: string)
    requires PlacesInv(hands, b) && t < |hands| && hands[t] == {}
    ensures PlacesInv(hands[t := {|b.places|}], Launch(b, t, id).0)
    ensures IdsInv(b) ==> IdsInv(Launch(b, t, id).0)
  {
  }

  lemma TakeOutPlaces(hands: seq<set<nat>>, b: Backend, t: nat, id: string)
    requires PlacesInv(hands, b) && t < |hands| && hands[t] == {} && id in b.services
    ensures PlacesInv(hands[t := {b.services[id]}], TakeOut(b, t, id).0)
    ensures IdsInv(b) ==> IdsInv(TakeOut(b, t, id).0)
  {
  }

  lemma InsertFresh(hands: seq<set<nat>>, b: Backend, t: nat, id: string, i: nat)
    requires PlacesInv(hands, b) && t < |hands| && hands[t] == {i} && id !in b.services
    requires i < |b.ids| && b.ids[i] == id
    ensures PlacesInv(hands[t := {}], Insert(b, id, i))
    ensures IdsInv(b) ==> IdsInv(Insert(b, id, i))
  {
    assert i in hands[t];
  }

  /** The service that an insert is about to overwrite leaves the map. */
  lemma Overwritten(hands: seq<set<nat>>, b: Backend, id: string)
    requires PlacesInv(hands, b) && id in b.services
    ensures var b' := b.(services := b.services - {id}, places := b.places[b.services[id] := Replaced]);
            PlacesInv(hands, b') && (IdsInv(b) ==> IdsInv(b'))
  {
  }

  lemma InsertPlaces(hands: seq<set<nat>>, b: Backend, t: nat, id: string, i: nat)
    requires PlacesInv(hands, b) && t < |hands| && hands[t] == {i}
    requires i < |b.ids| && b.ids[i] == id
    ensures PlacesInv(hands[t := {}], Insert(b, id, i))
    ensures IdsInv(b) ==> IdsInv(Insert(b, id, i))
  {
    if id in b.services {
      Overwritten(hands, b, id);
      var b' := b.(services := b.services - {id}, places := b.places[b.services[id] := Replaced]);
      InsertFresh(hands, b', t, id, i);
      assert b'.services[id := i] == b.services[id := i];
    } else {
      InsertFresh(hands, b, t, id, i);
    }
  }

  // ----- Steps -----

  lemma HandsSet(threads: seq<Thread>, t: nat, th: Thread)
    requires t < |threads|
    ensures Hands(threads[t := th]) == Hands(threads)[t := Hold(th)]
  {
  }

  lemma HandsWoken(threads: seq<Thread>)
    ensures Hands(Woken(threads)) == Hands(threads)
  {
  }

  /** `ids` is only ever extended, so what the other threads hold keeps its id. */
  lemma StagesKept(threads: seq<Thread>, b: Backend, b': Backend, t: nat, th: Thread)
    requires t < |threads| && forall u :: 0 <= u < |threads| ==> StageOk(threads[u], b)
    requires forall u, i :: 0 <= u < |threads| && i in Hold(threads[u]) ==> i < |b.ids|
    requires b.ids <= b'.ids && StageOk(th, b')
    ensures var threads' := threads[t := th]; forall u :: 0 <= u < |threads'| ==> StageOk(threads'[u], b')
  {
    forall u | 0 <= u < |threads| && u != t
      ensures StageOk(threads[u], b')
    {
      assert StageOk(threads[u], b);
      assert forall i :: i in Hold(threads[u]) ==> i < |b.ids| && b'.ids[i] == b.ids[i];
    }
  }

  lemma HeldAreKnown(s: State)
    requires ServiceInv(s)
    ensures forall u, i :: 0 <= u < |s.threads| && i in Hold(s.threads[u]) ==> i < |s.backend.ids|
  {
    forall u, i | 0 <= u < |s.threads| && i in Hold(s.threads[u])
      ensures i < |s.backend.ids|
    {
      assert i in Hands(s.threads)[u];
    }
  }

  /** A call moves on: the places agree and the thread holds what its stage allows. */
  lemma MoveOn(s: State, t: nat, th: Thread, b: Backend)
    requires ServiceInv(s) && t < |s.threads| && s.backend.ids <= b.ids
    requires PlacesInv(Hands(s.threads)[t := Hold(th)], b) && IdsInv(b) && StageOk(th, b)
    ensures ServiceInv(Set(s.(backend := b), t, th))
  {
    HandsSet(s.threads, t, th);
    HeldAreKnown(s);
    StagesKept(s.threads, s.backend, b, t, th);
  }

  lemma HandsUnchanged(hands: seq<set<nat>>, t: nat)
    requires t < |hands|
    ensures hands[t := hands[t]] == hands
  {
  }

  lemma DrainStep(s: State, t: nat, th: Thread)
    requires ServiceInv(s) && t < |s.threads| && Hold(s.threads[t]) == {}
    requires th == Inside(Shutdown, Draining, Drain(s.backend, t).1) || th == Freeing(Draining, Drain(s.backend, t).1)
    ensures ServiceInv(Set(s.(backend := Drain(s.backend, t).0), t, th))
  {
    assert Hands(s.threads)[t] == {};
    DrainPlaces(Hands(s.threads), s.backend, t);
    MoveOn(s, t, th, Drain(s.backend, t).0);
  }

  lemma ShutStep(s: State, t: nat, i: nat, th: Thread)
    requires ServiceInv(s) && t < |s.threads| && i in Hold(s.threads[t])
    requires Hold(th) == Hold(s.threads[t]) - {i} && StageOk(th, s.backend)
    ensures ServiceInv(Set(s.(backend := ShutDown(s.backend, i)), t, th))
  {
    assert i in Hands(s.threads)[t];
    ShutPlaces(Hands(s.threads), s.backend, t, i);
    MoveOn(s, t, th, ShutDown(s.backend, i));
  }

  /** A step that leaves the thread's hands and the backend's bookkeeping alone. */
  lemma QuietStep(s: State, t: nat, th: Thread, exit: bool)
    requires ServiceInv(s) && t < |s.threads|
    requires Hold(th) == Hold(s.threads[t]) && StageOk(th, s.backend)
    ensures ServiceInv(Set(s.(backend := s.backend.(exit := exit)), t, th))
  {
    HandsUnchanged(Hands(s.threads), t);
    MoveOn(s, t, th, s.backend.(exit := exit));
  }

  lemma AddStep(s: State, t: nat, ok: bool, pick: nat)
    requires ServiceInv(s) && t < |s.threads| && s.threads[t].Inside? && s.threads[t].call.Add?
    ensures ServiceInv(DoStep(s, t, ok, pick))
  {
    var th := s.threads[t];
    var hands, b, id := Hands(s.threads), s.backend, th.call.id;
    assert StageOk(th, b) && hands[t] == th.held;
    if th.stage == Begin {
      if ok {
        LaunchPlaces(hands, b, t, id);
        var (b', i) := Launch(b, t, id);
        var th' := Inside(th.call, Draining, {i});
        assert th'.held == {i};
        MoveOn(s, t, th', b');
      } else {
        QuietStep(s, t, Idle, b.exit);
      }
    } else if pick in th.held {
      assert th.held == {pick};
      HeldAreKnown(s);
      InsertPlaces(hands, b, t, id, pick);
      MoveOn(s, t, Idle, Insert(b, id, pick));
    }
  }

  lemma DelStep(s: State, t: nat, ok: bool, pick: nat)
    requires ServiceInv(s) && t < |s.threads| && s.threads[t].Inside? && s.threads[t].call.Del?
    ensures ServiceInv(DoStep(s, t, ok, pick))
  {
    var th := s.threads[t];
    var hands, b, id := Hands(s.threads), s.backend, th.call.id;
    assert StageOk(th, b) && hands[t] == th.held;
    if th.stage == Begin {
      if id in b.services {
        TakeOutPlaces(hands, b, t, id);
        var (b', i) := TakeOut(b, t, id);
        var th' := Inside(th.call, Draining, {i});
        assert th'.held == {i};
        MoveOn(s, t, th', b');
      } else {
        QuietStep(s, t, Idle, b.exit);
      }
    } else if pick in th.held {
      assert th.held == {pick};
      ShutStep(s, t, pick, Idle);
    }
  }

  lemma ShutdownStep(s: State, t: nat, ok: bool, pick: nat)
    requires ServiceInv(s) && t < |s.threads| && s.threads[t].Inside? && s.threads[t].call.Shutdown?
    ensures ServiceInv(DoStep(s, t, ok, pick))
  {
    var th := s.threads[t];
    assert StageOk(th, s.backend);
    if th.stage == Begin {
      DrainStep(s, t, Inside(Shutdown, Draining, Drain(s.backend, t).1));
    } else if th.stage == Draining {
      if th.held == {} {
        QuietStep(s, t, Inside(Shutdown, Signal, {}), s.backend.exit);
      } else if pick in th.held {
        ShutStep(s, t, pick, Inside(Shutdown, Draining, th.held - {pick}));
      }
    } else {
      QuietStep(s, t, Idle, true);
    }
  }

  /** Leaving the write lock wakes parked readers, whose hands are empty. */
  lemma UnlockStep(s: State, t: nat, exit: bool, handle: bool, freed: nat)
    requires ServiceInv(s) && t < |s.threads| && Hold(s.threads[t]) == {}
    ensures ServiceInv(Unlock(s.(backend := s.backend.(exit := exit), handle := handle, freed := freed), t))
  {
    QuietStep(s, t, Idle, exit);
    HandsWoken(s.threads[t := Idle]);
  }

  lemma FreeingStep(s: State, t: nat, pick: nat)
    requires ServiceInv(s) && t < |s.threads| && s.threads[t].Freeing?
    ensures ServiceInv(DoStep(s, t, false, pick))
  {
    var th := s.threads[t];
    assert StageOk(th, s.backend);
    if th.stage == Begin {
      if s.handle {
        DrainStep(s, t, Freeing(Draining, Drain(s.backend, t).1));
      } else {
        UnlockStep(s, t, s.backend.exit, s.handle, s.freed);
      }
    } else if th.stage == Draining {
      if th.held == {} {
        QuietStep(s, t, Freeing(Signal, {}), s.backend.exit);
      } else if pick in th.held {
        ShutStep(s, t, pick, Freeing(Draining, th.held - {pick}));
      }
    } else {
      UnlockStep(s, t, true, false, s.freed + 1);
    }
  }

  lemma ServiceKept(s: State, a: Action)
    requires ServiceInv(s)
    ensures ServiceInv(Apply(s, a))
  {
    match a {
      case Spawn =>
        assert Hands(s.threads + [Idle]) == Hands(s.threads) + [{}];
        SpawnPlaces(Hands(s.threads), s.backend);
      case Request(t, call) =>
        if t < |s.threads| && s.threads[t].Idle? { QuietStep(s, t, Apply(s, a).threads[t], s.backend.exit); }
      case RequestFree(t) =>
        if t < |s.threads| && s.threads[t].Idle? { QuietStep(s, t, Queued, s.backend.exit); }
      case Announce(t) =>
        if t < |s.threads| && s.threads[t].Queued? { QuietStep(s, t, Announced, s.backend.exit); }
      case Step(t, ok, pick) =>
        if t < |s.threads| {
          match s.threads[t] {
            case Reading(call) => QuietStep(s, t, DoStep(s, t, ok, pick).threads[t], s.backend.exit);
            case Inside(call, stage, held) =>
              assert StageOk(s.threads[t], s.backend);
              match call {
                case Add(id) => AddStep(s, t, ok, pick);
                case Del(id) => DelStep(s, t, ok, pick);
                case Shutdown => ShutdownStep(s, t, ok, pick);
                case _ => QuietStep(s, t, Idle, s.backend.exit);
              }
            case Announced => QuietStep(s, t, Freeing(Begin, {}), s.backend.exit);
            case Freeing(stage, held) => FreeingStep(s, t, pick);
            case _ =>
          }
        }
    }
  }

  lemma SpawnPlaces(hands: seq<set<nat>>, b: Backend)
    requires PlacesInv(hands, b)
    ensures PlacesInv(hands + [{}], b)
  {
  }
}
