/** What holds in every run of the client. */
module ClientTheorems {
  import opened Sequences
  import opened StatusModel
  import opened ClientMachine
  import opened ClientProofs
  import opened ClientWakeup

  /** A `Bootstrap` step asks at most one more question. */
  lemma BootHistory(s: State, t: nat, op: BootOp)
    ensures var s' := BootDo(s, t, op); s'.rust == s.rust && s.asked <= s'.asked
  {
  }

  /** Histories only grow. */
  lemma HistoryGrows(s: State, a: Action)
    ensures s.rust.observed <= Apply(s, a).rust.observed && s.asked <= Apply(s, a).asked
  {
    if a.Booting? {
      BootHistory(s, a.t, a.bop);
    } else if a.CloseEnter? || a.CloseStep? {
      CloseKeepsPipe(s, a.t);
    }
  }

  /** Readiness, once seen, stays seen. */
  lemma SeenReadyGrows(s: State, s': State)
    requires SeenReady(s) && s.rust.observed <= s'.rust.observed && s.asked <= s'.asked
    ensures SeenReady(s')
  {
  }

  ghost predicate Succeeds(b: Boot) {
    b == Returned(Success) || (b.Leaving? && b.result == Success)
  }

  /** A step that takes a call to success. */
  lemma EarningSuccess(s: State, t: nat, op: BootOp)
    requires Inv(s) && t in BootDo(s, t, op).boots
    requires Succeeds(BootDo(s, t, op).boots[t]) && !(t in s.boots && Succeeds(s.boots[t]))
    ensures SeenReady(BootDo(s, t, op))
  {
    var s' := BootDo(s, t, op);
    var b := s.boots[t];
    BootHistory(s, t, op);
    if b.Subscribed? {
      if AsksBackend(s, op.answer) {
        EventAndQueryAgree(op.answer.value);
        assert op.answer.value in s'.asked;
      } else {
        CachedSeenReady(s);
        SeenReadyGrows(s, s');
      }
    } else {
      assert BootOk(s.hub, s.pump, s.status, b);
      BufferedReady(s, b.ch);
      SeenReadyGrows(s, s');
    }
  }

  lemma OneBootMoves(s: State, t: nat, op: BootOp)
    ensures var s' := BootDo(s, t, op); s'.boots == s.boots || (t in s'.boots && s'.boots == s.boots[t := s'.boots[t]])
  {
  }

  lemma OnlyBootsMoveBoots(s: State, a: Action)
    requires !a.Booting?
    ensures Apply(s, a).boots == s.boots
  {
  }

  lemma SuccessKept(s: State, a: Action)
    requires Inv(s)
    ensures SuccessInv(Apply(s, a))
  {
    var s' := Apply(s, a);
    HistoryGrows(s, a);
    forall t | t in s'.boots && Succeeds(s'.boots[t])
      ensures SeenReady(s')
    {
      if t in s.boots && Succeeds(s.boots[t]) {
        SeenReadyGrows(s, s');
      } else {
        if a.Booting? { OneBootMoves(s, a.t, a.bop); } else { OnlyBootsMoveBoots(s, a); }
        EarningSuccess(s, t, a.bop);
      }
    }
  }

  lemma CachedSeenReady(s: State)
    requires PipeInv(s) && s.status.ready
    ensures SeenReady(s)
  {
    var held := Taken(s.fanned, s.pump) + Statuses(s.rust.queue);
    assert s.status in held;
    SubsequenceMember(held, s.rust.emitted, s.status);
    EmittedReady(s.rust.observed, s.status);
  }

  lemma StartInv()
    ensures Inv(START)
  {
    assert Picks([], Taken([], CheckDone) + Statuses([]), []);
  }

  /** The invariant holds in every reachable state, for every interleaving of any number of
      `Bootstrap`, `Close`, `StatusUpdates`, `Unsubscribe` and receiving goroutines. */
  lemma {:induction false} RunInv(actions: seq<Action>)
    ensures Inv(Run(START, actions))
    decreases |actions|
  {
    if actions == [] {
      StartInv();
    } else {
      var s, a := Run(START, Init(actions)), Last(actions);
      RunInv(Init(actions));
      PipeKept(s, a);
      CloseKept(s, a);
      DeliveryKept(s, a);
      BootKept(s, a);
      SuccessKept(s, a);
    }
  }

  // ----- Bootstrap -----

  lemma WakeupCovered(h: Hub, fanned: seq<Status>, pump: Pump, status: Status, b: Boot)
    requires DeliveryInv(h, fanned, pump) && CacheInv(fanned, pump, status) && BootOk(h, pump, status, b)
    requires b.Waiting? && b.ch in h.subscribers && status.ready && !Pending(h, pump, b.ch)
    ensures b.ch < |h.channels| && h.channels[b.ch].buf != [] && Last(h.channels[b.ch].buf).ready
  {
  }

  /** No lost wakeup: while a `Bootstrap` waits on an open subscription and the cache says Ready,
      either Ready is the newest entry of its channel, or the pump is still on its way there. */
  lemma NoLostWakeup(actions: seq<Action>, t: nat)
    requires var s := Run(START, actions);
             t in s.boots && s.boots[t].Waiting? && s.boots[t].ch in s.hub.subscribers && s.status.ready
    ensures var s := Run(START, actions);
            var ch := s.boots[t].ch;
            || (ch < |s.hub.channels| && s.hub.channels[ch].buf != [] && Last(s.hub.channels[ch].buf).ready)
            || (Pending(s.hub, s.pump, ch) && s.pump.st.ready)
  {
    RunInv(actions);
    var s := Run(START, actions);
    assert BootOk(s.hub, s.pump, s.status, s.boots[t]);
    if !Pending(s.hub, s.pump, s.boots[t].ch) {
      WakeupCovered(s.hub, s.fanned, s.pump, s.status, s.boots[t]);
    }
  }

  /** A waiting `Bootstrap` whose subscription has gone finds the client closing or the channel closed. */
  lemma NoSilentUnsubscribe(actions: seq<Action>, t: nat)
    requires var s := Run(START, actions);
             t in s.boots && s.boots[t].Waiting? && s.boots[t].ch !in s.hub.subscribers
    ensures var s := Run(START, actions); s.hub.closed || Chan(s.hub, s.boots[t].ch).closed
  {
    RunInv(actions);
    var s := Run(START, actions);
    assert BootOk(s.hub, s.pump, s.status, s.boots[t]);
  }

  /** A Ready at the end of the channel is enough: the goroutine's own receives reach it. */
  lemma {:induction false} BufferedReadyIsReached(s: State, t: nat)
    requires t in s.boots && s.boots[t].Waiting? && s.boots[t].ch < |s.hub.channels|
    requires var c := s.hub.channels[s.boots[t].ch]; c.buf != [] && Last(c.buf).ready
    ensures exists n ::
              0 < n <= |s.hub.channels[s.boots[t].ch].buf| &&
              t in Run(s, Waits(t, n)).boots &&
              Run(s, Waits(t, n)).boots[t] == Leaving(s.boots[t].ch, Success)
    decreases |s.hub.channels[s.boots[t].ch].buf|
  {
    var ch := s.boots[t].ch;
    var c := s.hub.channels[ch];
    var s' := Apply(s, Booting(t, Wait));
    assert Waits(t, 1) == [Booting(t, Wait)] && Init(Waits(t, 1)) == [];
    assert Run(s, []) == s;
    assert Run(s, Waits(t, 1)) == s';
    if !c.buf[0].ready {
      assert s'.hub.channels[ch].buf == c.buf[1..];
      BufferedReadyIsReached(s', t);
      var n: nat :| 0 < n <= |c.buf| - 1 && t in Run(s', Waits(t, n)).boots
             && Run(s', Waits(t, n)).boots[t] == Leaving(ch, Success);
      RunConcat(s, Waits(t, 1), Waits(t, n));
      assert Waits(t, 1) + Waits(t, n) == Waits(t, n + 1);
      assert Run(s, Waits(t, n + 1)) == Run(s', Waits(t, n));
    }
  }

  /** `n` receives by the goroutine `t`, with nobody else running. */
  ghost function Waits(t: nat, n: nat): seq<Action> {
    seq(n, i => Booting(t, Wait))
  }

  /** `Bootstrap` returns nil only after Arti has been seen ready. */
  lemma SuccessIsEarned(actions: seq<Action>, t: nat)
    requires var s := Run(START, actions); t in s.boots && s.boots[t] == Returned(Success)
    ensures SeenReady(Run(START, actions))
  {
    RunInv(actions);
  }

  // ----- Channels -----

  /** No send on a closed channel, no channel and no `done` closed twice; the subscriber list is
      free of duplicates and in subscription order, and holds open channels only. */
  lemma ChannelDiscipline(actions: seq<Action>)
    ensures var h := Run(START, actions).hub;
            && !h.panicked
            && Ascending(h.subscribers)
            && (forall ch :: ch in h.subscribers ==> ch < |h.channels| && !h.channels[ch].closed)
            && (!h.closed ==> forall ch :: 0 <= ch < |h.channels| && !h.channels[ch].closed ==> ch in h.subscribers)
  {
    RunInv(actions);
  }

  /** At most one `Close` does the work. Once it has completed, `done` and every channel ever
      handed out are closed and the handle is gone. */
  lemma CloseCompletes(actions: seq<Action>, t: nat)
    requires var s := Run(START, actions); t in s.closers && s.closers[t].Completed?
    ensures var s := Run(START, actions);
            && s.done && !s.handle && s.hub.subscribers == []
            && (forall ch :: 0 <= ch < |s.hub.channels| ==> s.hub.channels[ch].closed)
            && (forall u :: u in s.closers && u != t ==> s.closers[u].Refused?)
  {
    RunInv(actions);
  }

  /** The newest status wins: between fan-outs, every subscriber that has lived through one was
      given the newest status last, whatever the receivers did meanwhile. */
  lemma NewestDelivered(actions: seq<Action>, ch: nat)
    requires var s := Run(START, actions); ch in s.hub.subscribers && !s.pump.Sending?
    ensures var s := Run(START, actions);
            ch < |s.hub.channels| &&
            var c := s.hub.channels[ch];
            c.start < |s.fanned| ==> Delivered(c) != [] && Last(Delivered(c)) == Last(s.fanned)
  {
    RunInv(actions);
    var s := Run(START, actions);
    var k :| 0 <= k < |s.hub.subscribers| && s.hub.subscribers[k] == ch;
    var c := s.hub.channels[ch];
    assert !Unserved(s.pump, k) && !MakingRoom(s.hub, s.pump, ch);
    if c.start < |s.fanned| {
      assert Last(c.offered) == Last(s.fanned);
    }
  }

  lemma OfferedFromEmitted(c: Channel, fanned: seq<Status>, later: seq<Status>, emitted: seq<Status>)
    requires ChanInv(c, fanned) && Subsequence(fanned + later, emitted)
    ensures Subsequence(Delivered(c), emitted)
  {
    var all, n := fanned + later, c.start + |c.offered|;
    assert c.offered == all[c.start..n];
    SliceIsSubsequence(all, c.start, n);
    SubsequenceTrans(Delivered(c), c.offered, all);
    SubsequenceTrans(Delivered(c), all, emitted);
  }

  /** End to end: a channel delivers, in order and without invention, a selection of what the
      watcher emitted; every status offered to it was received, is queued, or was discarded to
      make room for a newer one. */
  lemma DeliveredFromEmitted(actions: seq<Action>, ch: nat)
    requires ch < |Run(START, actions).hub.channels|
    ensures var s := Run(START, actions);
            var c := s.hub.channels[ch];
            && Subsequence(Delivered(c), Statuses(Emitted(s.rust.observed)))
            && |c.offered| == |c.received| + |c.buf| + c.dropped
            && |c.buf| <= 8
  {
    RunInv(actions);
    var s := Run(START, actions);
    var held := Taken(s.fanned, s.pump) + Statuses(s.rust.queue);
    assert held == s.fanned + held[|s.fanned|..];
    OfferedFromEmitted(s.hub.channels[ch], s.fanned, held[|s.fanned|..], s.rust.emitted);
  }

  /** With nothing lost and nothing queued, the pump has taken everything the watcher emitted. */
  lemma DrainedHeld(r: Rust, held: seq<Status>)
    requires RustInv(r, held) && r.lostStatuses == 0 && Statuses(r.queue) == []
    ensures held == Statuses(Emitted(r.observed))
  {
    assert held + Statuses(r.queue) == held;
    SubsequenceFull(held, r.emitted);
  }

  lemma LastEmittedStatus(stream: seq<ArtiStatus>)
    requires stream != []
    ensures var sent := Statuses(Emitted(stream));
            && sent != []
            && Last(sent).ready == Last(stream).ready && Last(sent).progress == Progress(Last(stream))
            && Last(sent) == StatusOfEvent(EventOf(Summarize(stream[StretchStart(stream)])))
  {
    LastEmitted(stream);
    ReadinessAgrees(Last(stream));
    LastEmittedIsStretchStart(stream);
  }

  /** If the Rust queue never overflowed a status, then once it is drained the Go cache has the
      progress and the readiness of the last status Arti reported, and is word for word the first
      status of the last stretch of equal progress. */
  lemma DrainedCacheIsCurrent(actions: seq<Action>)
    requires var s := Run(START, actions);
             s.rust.lostStatuses == 0 && Statuses(s.rust.queue) == [] && !s.pump.Caching? && s.rust.observed != []
    ensures var s := Run(START, actions);
            && s.status.ready == Last(s.rust.observed).ready && s.status.progress == Progress(Last(s.rust.observed))
            && s.status == StatusFrom(Summarize(s.rust.observed[StretchStart(s.rust.observed)]))
  {
    RunInv(actions);
    var s := Run(START, actions);
    DrainedHeld(s.rust, Taken(s.fanned, s.pump));
    LastEmittedStatus(s.rust.observed);
    EventAndQueryAgree(s.rust.observed[StretchStart(s.rust.observed)]);
    CacheIsLastTaken(s.fanned, s.pump, s.status);
  }

  lemma CacheIsLastTaken(fanned: seq<Status>, pump: Pump, status: Status)
    requires CacheInv(fanned, pump, status) && !pump.Caching? && Taken(fanned, pump) != []
    ensures status == Last(Taken(fanned, pump))
  {
  }

  // ----- Shutdown -----

  /** A freed handle means `done` is already closed. */
  lemma FreedMeansDone(actions: seq<Action>)
    ensures var s := Run(START, actions); !s.handle ==> s.done && s.hub.closed
  {
    RunInv(actions);
  }

  /** The pump's next operation. */
  ghost function NextOp(p: Pump): PumpOp {
    match p
    case CheckDone => Check
    case Polling => Poll
    case Caching(_) => Cache
    case Locking(_) => Lock
    case _ => Send
  }

  /** Operations the pump can still perform once `done` is closed. */
  ghost function PumpRank(p: Pump): nat {
    match p
    case Exited => 0
    case CheckDone => 1
    case Sending(_, _, _) => 2
    case Locking(_) => 3
    case Caching(_) => 4
    case Polling => 5
  }

  lemma OnlyThePumpMoves(s: State, a: Action)
    requires !a.Pumping?
    ensures Apply(s, a).pump == s.pump && (s.done ==> Apply(s, a).done)
  {
  }

  lemma PumpFalls(s: State, op: PumpOp)
    requires s.done && s.hub.subscribers == []
    ensures PumpDo(s, op).done
    ensures PumpRank(PumpDo(s, op).pump) <= PumpRank(s.pump)
    ensures op == NextOp(s.pump) && s.pump != Exited ==> PumpRank(PumpDo(s, op).pump) < PumpRank(s.pump)
  {
  }

  /** Operations the pump performs in a run. */
  ghost function PumpMoves(s: State, actions: seq<Action>): nat
    decreases |actions|
  {
    if actions == [] then 0
    else
      var p := Run(s, Init(actions)).pump;
      PumpMoves(s, Init(actions)) + if Last(actions) == Pumping(NextOp(p)) && p != Exited then 1 else 0
  }

  /** Once `done` is closed, the pump performs at most five more operations in any continuation, and
      it is never blocked: its next operation always brings it closer to its exit. */
  lemma {:induction false} PumpWindsDown(before: seq<Action>, after: seq<Action>)
    requires Run(START, before).done
    ensures var s := Run(START, before);
            && Run(s, after).done
            && PumpMoves(s, after) + PumpRank(Run(s, after).pump) <= PumpRank(s.pump) <= 5
    decreases |after|
  {
    if after != [] {
      PumpWindsDown(before, Init(after));
      var s, a := Run(Run(START, before), Init(after)), Last(after);
      RunConcat(START, before, Init(after));
      RunInv(before + Init(after));
      assert s.hub.subscribers == [];
      if a.Pumping? { PumpFalls(s, a.op); } else { OnlyThePumpMoves(s, a); }
    }
  }
}
