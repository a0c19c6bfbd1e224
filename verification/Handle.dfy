/** The handle and the Rust client as objects, one call at a time: the effects the handle machine
    interleaves (internal/arti/cgo.go, rust/arti-ffi/src/client.rs). */
module HandleObject {
  import opened Sequences
  import opened HandleMachine
  import opened HandleServices

  datatype CallError = Closed | LaunchFailed | NoSuchService

  /** `shutdown` as a whole: the map is emptied, everything in it is shut down, the flag is raised. */
  ghost function AllShut(b: Backend): Backend {
    b.(services := map[], exit := true,
       places := seq(|b.places|, i requires 0 <= i < |b.places| =>
         if i in b.services.Values then Shut else b.places[i]))
  }

  const FREE_HANDS: seq<set<nat>> := [{}]

  lemma AddCalm(b: Backend, id: string)
    requires PlacesInv(FREE_HANDS, b) && IdsInv(b)
    ensures var b' := Insert(Launch(b, 0, id).0, id, |b.places|); PlacesInv(FREE_HANDS, b') && IdsInv(b')
  {
    LaunchPlaces(FREE_HANDS, b, 0, id);
    var hands := FREE_HANDS[0 := {|b.places|}];
    InsertPlaces(hands, Launch(b, 0, id).0, 0, id, |b.places|);
    assert hands[0 := {}] == FREE_HANDS;
  }

  lemma DelCalm(b: Backend, id: string)
    requires PlacesInv(FREE_HANDS, b) && IdsInv(b) && id in b.services
    ensures var b' := ShutDown(TakeOut(b, 0, id).0, b.services[id]); PlacesInv(FREE_HANDS, b') && IdsInv(b')
  {
    var i := b.services[id];
    TakeOutPlaces(FREE_HANDS, b, 0, id);
    var hands := FREE_HANDS[0 := {i}];
    ShutPlaces(hands, TakeOut(b, 0, id).0, 0, i);
    assert hands[0] - {i} == {};
    assert hands[0 := hands[0] - {i}] == FREE_HANDS;
  }

  class RustClient {
    var services: map<string, nat>
    var exit: bool
    // history: every instance launched, where it is, and whether one was shut down twice
    var ids: seq<string>
    var places: seq<Place>
    var shutTwice: bool

    ghost function View(): Backend
      reads this
    {
      Backend(services, exit, ids, places, shutTwice)
    }

    /** Between calls, every instance is in the map, shut down, or replaced. */
    ghost predicate Valid()
      reads this
    {
      PlacesInv(FREE_HANDS, View()) && IdsInv(View())
    }

    constructor ()
      ensures Valid() && View() == START.backend
    {
      services, exit, ids, places, shutTwice := map[], false, [], [], false;
    }

    /** `svc.shutdown()`. */
    method ShutService(i: nat)
      requires i < |places|
      modifies this`places, this`shutTwice
      ensures View() == ShutDown(old(View()), i)
    {
      if places[i] == Shut {
        shutTwice := true;
      }
      places := places[i := Shut];
    }

    /** `onion_add`: `launched` is whether Arti bootstraps and launches the service. */
    method OnionAdd(id: string, launched: bool) returns (r: Result<nat, CallError>)
      requires Valid()
      modifies this
      ensures Valid()
      ensures !launched ==> r == Err(LaunchFailed) && View() == old(View())
      ensures launched ==> r == Ok(|old(places)|) && View() == Insert(Launch(old(View()), 0, id).0, id, |old(places)|)
      ensures launched ==> id in services && places[services[id]] == Mapped(id)
      ensures launched && id in old(services) ==> places[old(services)[id]] == Replaced
    {
      if !launched {
        return Err(LaunchFailed);
      }
      var i := |places|;
      AddCalm(View(), id);
      ids, places := ids + [id], places + [Held(0)];
      if id in services {
        places := places[services[id] := Replaced];
      }
      services := services[id := i];
      places := places[i := Mapped(id)];
      r := Ok(i);
    }

    /** `onion_del`. */
    method OnionDel(id: string) returns (r: Result<nat, CallError>)
      requires Valid()
      modifies this
      ensures Valid()
      ensures id !in old(services) ==> r == Err(NoSuchService) && View() == old(View())
      ensures id in old(services) ==>
                && r == Ok(old(services)[id])
                && services == old(services) - {id}
                && places == old(places)[old(services)[id] := Shut]
                && ids == old(ids) && exit == old(exit)
    {
      if id !in services {
        return Err(NoSuchService);
      }
      var i := services[id];
      DelCalm(View(), id);
      services, places := services - {id}, places[i := Held(0)];
      ShutService(i);
      r := Ok(i);
    }

    /** `shutdown`: drain, shut each, raise the flag. Calling it again shuts nothing twice. */
    method ShutdownAll()
      requires Valid()
      modifies this
      ensures Valid() && View() == AllShut(old(View()))
    {
      ghost var was := View();
      ghost var all := services.Values;
      var rest := services.Values;
      DrainPlaces(FREE_HANDS, was, 0);
      assert FREE_HANDS[0 := rest] == [rest];
      var (drained, _) := Drain(Backend(services, exit, ids, places, shutTwice), 0);
      services, places := drained.services, drained.places;
      assert View() == Drain(was, 0).0;
      while rest != {}
        invariant rest <= all
        invariant PlacesInv([rest], View()) && IdsInv(View())
        invariant services == map[] && exit == was.exit && ids == was.ids && |places| == |was.places|
        invariant forall i :: 0 <= i < |places| ==>
                    places[i] == if i in rest then Held(0) else if i in all then Shut else was.places[i]
      {
        var i :| i in rest;
        ghost var hands: seq<set<nat>> := [rest];
        assert i in hands[0];
        ShutPlaces([rest], View(), 0, i);
        assert [rest][0 := rest - {i}] == [rest - {i}];
        ShutService(i);
        rest := rest - {i};
      }
      assert [rest] == FREE_HANDS;
      exit := true;
      assert places == AllShut(was).places;
    }
  }

  /** `artiClient`: a null handle is a released client. */
  class ArtiClient {
    var handle: RustClient?
    var freed: nat

    ghost predicate Valid()
      reads this, handle
    {
      && (handle != null ==> handle.Valid())
      && freed == (if handle == null then 1 else 0)
    }

    constructor (client: RustClient)
      requires client.Valid()
      ensures Valid() && handle == client
    {
      handle, freed := client, 0;
    }

    method Shutdown()
      requires Valid()
      modifies handle
      ensures Valid()
      ensures handle != null ==> handle.View() == AllShut(old(handle.View()))
    {
      if handle == null {
        return;
      }
      handle.ShutdownAll();
    }

    /** `free`: the second teardown happens here, under the write lock; freeing again does nothing. */
    method Free()
      requires Valid()
      modifies this, handle
      ensures Valid() && handle == null && freed == 1
      ensures old(handle) != null ==>
                old(handle).View() == AllShut(old(handle.View())) &&
                forall i :: 0 <= i < |old(handle).places| ==>
                  !old(handle).places[i].Mapped? && !old(handle).places[i].Held?
    {
      if handle != null {
        handle.ShutdownAll();
        handle := null;
        freed := freed + 1;
      }
    }

    method OnionAdd(id: string, launched: bool) returns (r: Result<nat, CallError>)
      requires Valid()
      modifies handle
      ensures Valid()
      ensures handle == null ==> r == Err(Closed)
      ensures handle != null && launched ==>
                && r == Ok(|old(handle.places)|)
                && handle.View() == Insert(Launch(old(handle.View()), 0, id).0, id, |old(handle.places)|)
                && id in handle.services && handle.services[id] == r.value && handle.places[r.value] == Mapped(id)
      ensures handle != null && !launched ==> r == Err(LaunchFailed) && handle.View() == old(handle.View())
    {
      if handle == null {
        return Err(Closed);
      }
      r := handle.OnionAdd(id, launched);
    }

    method OnionDel(id: string) returns (r: Result<nat, CallError>)
      requires Valid()
      modifies handle
      ensures Valid()
      ensures handle == null ==> r == Err(Closed)
      ensures handle != null && id !in old(handle.services) ==>
                r == Err(NoSuchService) && handle.View() == old(handle.View())
      ensures handle != null && id in old(handle.services) ==>
                && r == Ok(old(handle.services)[id])
                && handle.services == old(handle.services) - {id}
                && handle.places == old(handle.places)[r.value := Shut]
                && handle.ids == old(handle.ids) && handle.exit == old(handle.exit)
    {
      if handle == null {
        return Err(Closed);
      }
      r := handle.OnionDel(id);
    }
  }
}
