/** The client object in the form of internal/arti/client.go: methods that take `mu`, loop over
    the subscriber slice and operate on channels, against the functions the machine steps with.

    Channels live in an arena and are named by number. Receivers do not take `mu`, so they run
    between any two channel operations of `PublishStatus`; `Receivers` stands for them. */
module ClientObject {
  import opened Sequences
  import opened StatusModel
  import opened ClientMachine
  import opened ClientProofs

  /** What receivers can do to a channel: move entries from its buffer to themselves, in order. */
  ghost predicate OnlyReceived(was: Channel, c: Channel) {
    && Delivered(c) == Delivered(was)
    && was.received <= c.received
    && |c.buf| <= |was.buf|
    && c == was.(buf := c.buf, received := c.received)
  }

  /** `st` was offered and is the newest delivery; at most one older entry, not yet received when
      the publish began, was given up for it. */
  ghost predicate Publishes(was: Channel, c: Channel, st: Status) {
    && c.offered == was.offered + [st]
    && was.received <= c.received
    && |c.buf| <= STATUS_BUFFER
    && c.closed == was.closed && c.internal == was.internal && c.start == was.start
    && ((c.dropped == was.dropped && Delivered(c) == Delivered(was) + [st])
        || (c.dropped == was.dropped + 1 &&
            exists k :: |was.received| <= k < |Delivered(was)| && Delivered(c) == Without(Delivered(was), k) + [st]))
  }

  ghost function Without<T>(s: seq<T>, k: nat): seq<T>
    requires k < |s|
  {
    s[..k] + s[k + 1..]
  }

  lemma OnlyReceivedTrans(a: Channel, b: Channel, c: Channel)
    requires OnlyReceived(a, b) && OnlyReceived(b, c)
    ensures OnlyReceived(a, c)
  {
  }

  lemma TakeOnlyReceives(c: Channel)
    requires c.buf != []
    ensures OnlyReceived(c, Take(c))
  {
  }

  lemma PushPublishes(was: Channel, c: Channel, st: Status)
    requires OnlyReceived(was, c) && |c.buf| < STATUS_BUFFER
    ensures Publishes(was, Push(c, st), st)
  {
  }

  /** Receivers run, the pump discards, receivers run again, the pump sends. */
  lemma DiscardPublishes(was: Channel, c: Channel, c': Channel, st: Status)
    requires OnlyReceived(was, c) && OnlyReceived(Discard(c), c') && |c'.buf| < STATUS_BUFFER
    ensures Publishes(was, Push(c', st), st)
  {
    assert Delivered(Push(c', st)) == Delivered(Discard(c)) + [st];
    if c.buf != [] {
      assert Delivered(Discard(c)) == Without(Delivered(c), |c.received|);
    }
  }

  class Client {
    var subscribers: seq<nat>
    var closed: bool
    var status: Status
    var done: bool
    var handle: bool
    // every channel ever handed out
    var channels: seq<Channel>
    var panicked: bool
    // history: fan-outs begun
    var fanned: seq<Status>

    ghost function View(): Hub
      reads this
    {
      Hub(subscribers, closed, channels, panicked)
    }

    /** The machine's invariant, with no `Close` in progress. */
    ghost predicate Valid()
      reads this
    {
      && HubInv(View(), [])
      && (forall ch :: 0 <= ch < |channels| ==> |channels[ch].buf| <= STATUS_BUFFER)
      && done == closed
    }

    constructor ()
      ensures Valid() && View() == START.hub && status == START.status && handle && fanned == []
    {
      subscribers, closed, status, done, handle := [], false, ZERO_STATUS, false, true;
      channels, panicked, fanned := [], false, [];
    }

    method StatusUpdates(internal: bool) returns (ch: nat)
      requires Valid()
      modifies this`channels, this`subscribers
      ensures Valid() && View() == AddChannel(old(View()), internal, |fanned|)
      ensures ch == |old(channels)| && Chan(View(), ch).closed == closed
    {
      AddKept(View(), [], internal, |fanned|);
      ch := |channels|;
      if closed {
        channels := channels + [Channel([], true, internal, |fanned|, [], 0, [])];
        return;
      }
      channels := channels + [Channel([], false, internal, |fanned|, [], 0, [])];
      subscribers := subscribers + [ch];
    }

    method Unsubscribe(ch: nat)
      requires Valid()
      modifies this`channels, this`subscribers, this`panicked
      ensures Valid() && View() == DropChannel(old(View()), ch)
    {
      DropKept(View(), [], ch);
      ghost var h := View();
      for i := 0 to |subscribers|
        invariant View() == h
        invariant ch !in subscribers[..i]
      {
        if subscribers[i] == ch {
          RemoveIsSplice(subscribers, i);
          subscribers := subscribers[..i] + subscribers[i + 1..];
          CloseOne(ch);
          assert View() == DropChannel(h, ch);
          return;
        }
      }
    }

    /** `close(ch)`: a second close panics. */
    method CloseOne(ch: nat)
      requires ch < |channels|
      modifies this`channels, this`panicked
      ensures View() == CloseChan(old(View()), ch)
    {
      if channels[ch].closed {
        panicked := true;
      }
      channels := channels[ch := channels[ch].(closed := true)];
    }

    /** `close(c.done)`. */
    method CloseDone()
      modifies this`done, this`panicked
      ensures done && panicked == (old(panicked) || old(done))
    {
      if done {
        panicked := true;
      }
      done := true;
    }

    /** Any number of receives by any goroutines. */
    method Receivers()
      modifies this`channels
      ensures |channels| == |old(channels)|
      ensures forall ch :: 0 <= ch < |channels| ==> OnlyReceived(old(channels)[ch], channels[ch])
    {
      var n: nat := *;
      ghost var was := channels;
      while n > 0
        invariant |channels| == |was|
        invariant forall ch :: 0 <= ch < |channels| ==> OnlyReceived(was[ch], channels[ch])
      {
        var ch: int := *;
        if 0 <= ch < |channels| && channels[ch].buf != [] {
          TakeOnlyReceives(channels[ch]);
          OnlyReceivedTrans(was[ch], channels[ch], Take(channels[ch]));
          channels := channels[ch := Take(channels[ch])];
        }
        n := n - 1;
      }
    }

    /** `select { case ch <- st: default: }`: a send on a closed channel panics. */
    method TrySend(ch: nat, st: Status) returns (sent: bool)
      requires ch < |channels|
      modifies this`channels, this`panicked
      ensures panicked == (old(panicked) || old(channels)[ch].closed)
      ensures sent == (!old(channels)[ch].closed && |old(channels)[ch].buf| < 8)
      ensures channels == if sent then old(channels)[ch := Push(old(channels)[ch], st)] else old(channels)
    {
      sent := false;
      if channels[ch].closed {
        panicked := true;
      } else if |channels[ch].buf| < STATUS_BUFFER {
        channels := channels[ch := Push(channels[ch], st)];
        sent := true;
      }
    }

    /** The nested selects for one subscriber, with receivers running before each of them. */
    method SendTo(ch: nat, st: Status)
      requires ch < |channels| && !channels[ch].closed && |channels[ch].buf| <= STATUS_BUFFER
      modifies this`channels, this`panicked
      ensures |channels| == |old(channels)| && panicked == old(panicked)
      ensures Publishes(old(channels)[ch], channels[ch], st)
      ensures forall x :: 0 <= x < |channels| && x != ch ==> OnlyReceived(old(channels)[x], channels[x])
    {
      ghost var was := channels;
      Receivers();
      ghost var c := channels[ch];
      var sent := TrySend(ch, st);
      if sent {
        PushPublishes(was[ch], c, st);
        return;
      }
      Receivers();
      c := channels[ch];
      channels := channels[ch := Discard(channels[ch])];
      Receivers();
      DiscardPublishes(was[ch], c, channels[ch], st);
      sent := TrySend(ch, st);
    }

    /** `publishStatus`: whatever the receivers do meanwhile, every subscriber is given `st` last and
        gives up at most one older status for it, and no other channel is offered anything. */
    method PublishStatus(st: Status)
      requires Valid()
      modifies this`status, this`channels, this`panicked, this`fanned
      ensures Valid() && !panicked
      ensures status == st && fanned == old(fanned) + [st]
      ensures |channels| == |old(channels)|
      ensures forall ch :: 0 <= ch < |channels| ==>
                if ch in subscribers then Publishes(old(channels)[ch], channels[ch], st)
                else OnlyReceived(old(channels)[ch], channels[ch])
    {
      ghost var was := channels;
      status := st;
      fanned := fanned + [st];
      for i := 0 to |subscribers|
        invariant Valid() && |channels| == |was|
        invariant status == st && fanned == old(fanned) + [st]
        invariant forall ch :: 0 <= ch < |channels| ==>
                    if ch in subscribers[..i] then Publishes(was[ch], channels[ch], st)
                    else OnlyReceived(was[ch], channels[ch])
      {
        var ch := subscribers[i];
        assert ch in subscribers && ch !in subscribers[..i];
        ghost var before := channels;
        SendTo(ch, st);
        assert subscribers[..i + 1] == subscribers[..i] + [ch];
        forall x | 0 <= x < |channels|
          ensures if x in subscribers[..i + 1] then Publishes(was[x], channels[x], st)
                  else OnlyReceived(was[x], channels[x])
        {
          Combined(was[x], before[x], channels[x], st);
        }
      }
      assert subscribers[..|subscribers|] == subscribers;
    }

    /** The loop of `Close` over the subscribers it took. */
    method CloseSubs(subs: seq<nat>)
      requires HubInv(View(), subs)
      modifies this`channels, this`panicked
      ensures HubInv(View(), [])
      ensures |channels| == |old(channels)|
      ensures forall ch :: 0 <= ch < |channels| ==> channels[ch].(closed := true) == old(channels)[ch].(closed := true)
    {
      for i := 0 to |subs|
        invariant HubInv(View(), subs[i..])
        invariant |channels| == |old(channels)|
        invariant forall ch :: 0 <= ch < |channels| ==>
                    channels[ch].(closed := true) == old(channels)[ch].(closed := true)
      {
        CloseNextKept(View(), subs[i..]);
        assert subs[i..][0] == subs[i] && subs[i..][1..] == subs[i + 1..];
        assert subs[i] in subs[i..];
        CloseOne(subs[i]);
      }
    }

    /** `Close`: the first call closes `done` and every subscriber, each once, and frees the handle;
        later calls do nothing. */
    method Close()
      requires Valid()
      modifies this
      ensures Valid() && !panicked && closed && done && subscribers == []
      ensures old(closed) ==> channels == old(channels) && handle == old(handle)
      ensures !old(closed) ==> !handle
      ensures |channels| == |old(channels)|
      ensures forall ch :: 0 <= ch < |channels| ==> channels[ch] == old(channels)[ch].(closed := true)
      ensures status == old(status) && fanned == old(fanned)
    {
      if closed {
        return;
      }
      closed := true;
      var subs := subscribers;
      subscribers := [];
      CloseDone();
      CloseSubs(subs);
      handle := false;
    }
  }

  lemma Combined(was: Channel, before: Channel, c: Channel, st: Status)
    ensures Publishes(was, before, st) && OnlyReceived(before, c) ==> Publishes(was, c, st)
    ensures OnlyReceived(was, before) && OnlyReceived(before, c) ==> OnlyReceived(was, c)
    ensures OnlyReceived(was, before) && Publishes(before, c, st) ==> Publishes(was, c, st)
  {
  }

  lemma {:induction false} RemoveIsSplice(subs: seq<nat>, i: nat)
    requires i < |subs| && subs[i] !in subs[..i]
    ensures Remove(subs, subs[i]) == subs[..i] + subs[i + 1..]
    decreases i
  {
    if i > 0 {
      assert subs[0] in subs[..i];
      assert subs[1..][..i - 1] == subs[1..i];
      RemoveIsSplice(subs[1..], i - 1);
    }
  }
}
