/** Log routing as the package's own state, one lock section at a time: the effects the log machine
    interleaves (internal/arti/logs.go). */
module Logs {
  import opened Sequences
  import opened LogsMachine
  import opened LogsProofs

  /** One record sent to the first `k` listed channels. */
  function Fanned(h: Hub, k: nat, d: Delivery): Hub {
    if k == 0 || k > |h.listed| then h else TrySend(Fanned(h, k - 1, d), h.listed[k - 1], d)
  }

  /** Every listed channel with room takes the record at its end; every other channel is left alone. */
  ghost predicate Delivered(h: Hub, h': Hub, chs: seq<nat>, d: Delivery) {
    && h' == h.(channels := h'.channels) && |h'.channels| == |h.channels|
    && forall ch :: 0 <= ch < |h.channels| ==>
         h'.channels[ch] ==
           if ch in chs && |h.channels[ch].buf| < 256
           then h.channels[ch].(buf := h.channels[ch].buf + [d.record], offered := h.channels[ch].offered + [d])
           else h.channels[ch]
  }

  lemma {:induction false} FannedDelivers(h: Hub, k: nat, d: Delivery)
    requires HubInv(h) && k <= |h.listed|
    ensures Delivered(h, Fanned(h, k, d), h.listed[..k], d)
    decreases k
  {
    if k > 0 {
      FannedDelivers(h, k - 1, d);
      var ch := h.listed[k - 1];
      assert ch in h.listed;
      assert ch !in h.listed[..k - 1];
      assert h.listed[..k] == h.listed[..k - 1] + [ch];
    }
  }

  lemma {:induction false} FannedListed(h: Hub, k: nat, d: Delivery)
    ensures Fanned(h, k, d).listed == h.listed
    decreases k
  {
    if k > 0 && k <= |h.listed| {
      FannedListed(h, k - 1, d);
    }
  }

  /** A pump's steps under the lock add up to the whole fan-out. */
  lemma {:induction false} StepsFanOut(s: State, p: nat, record: nat, k: nat)
    requires HubInv(s.hub) && p < |s.pumps| && s.pumps[p].stage == Sending(record, 0) && k <= |s.hub.listed|
    ensures Run(s, seq(k, _ => Step(p))) ==
            s.(hub := Fanned(s.hub, k, Delivery(p, record)),
               pumps := s.pumps[p := s.pumps[p].(stage := Sending(record, k))])
    decreases k
  {
    if k > 0 {
      StepsFanOut(s, p, record, k - 1);
      assert Init(seq(k, _ => Step(p))) == seq(k - 1, _ => Step(p));
      FanStep(s, p, record, k);
    } else {
      assert s.pumps[p := s.pumps[p]] == s.pumps;
    }
  }

  lemma FanStep(s: State, p: nat, record: nat, k: nat)
    requires HubInv(s.hub) && p < |s.pumps| && 0 < k <= |s.hub.listed|
    ensures var x, d := s.pumps[p], Delivery(p, record);
            Apply(s.(hub := Fanned(s.hub, k - 1, d), pumps := s.pumps[p := x.(stage := Sending(record, k - 1))]),
                  Step(p)) ==
            s.(hub := Fanned(s.hub, k, d), pumps := s.pumps[p := x.(stage := Sending(record, k))])
  {
    FannedListed(s.hub, k - 1, Delivery(p, record));
  }

  class LogHub {
    const fromEnv: bool
    var installed: bool
    var logStarted: bool
    var stops: seq<bool>
    var channels: seq<Channel>
    var logChannels: seq<nat>
    // history: a send on a closed channel or a second close
    var panicked: bool

    ghost function View(): Hub
      reads this
    {
      Hub(logStarted, stops, channels, logChannels, panicked)
    }

    ghost predicate Valid()
      reads this
    {
      HubInv(View())
    }

    constructor (fromEnv: bool)
      ensures Valid() && View() == Start(fromEnv).hub && this.fromEnv == fromEnv && !installed
    {
      this.fromEnv := fromEnv;
      installed, logStarted, stops, channels, logChannels, panicked := false, false, [], [], [], false;
    }

    /** `EnableLogging`: the number of the channel handed out. */
    method EnableLogging(level: string, parses: bool) returns (r: Option<nat>)
      requires Valid()
      modifies this
      ensures Valid()
      ensures r.Some? <==>
              !Blank(level) && (old(logStarted) || (parses && !old(installed)) || fromEnv)
      ensures r.None? ==> View() == old(View())
      ensures installed == (old(installed) || (r.Some? && !old(logStarted) && parses))
      ensures r.Some? ==>
                && r.value == |old(channels)| < |channels| && logStarted && !channels[r.value].closed
                && View() == AddChannel(if old(logStarted) then old(View()) else StartPump(old(View())))
    {
      if Blank(level) {
        return None;
      }
      EnableKeepsHub(View());
      if !logStarted {
        var ok := parses && !installed;
        if !ok && !fromEnv {
          return None;
        }
        installed := installed || ok;
        logStarted := true;
        stops := stops + [false];
      }
      r := Some(|channels|);
      logChannels := logChannels + [|channels|];
      channels := channels + [NEW_CHANNEL];
    }

    /** `close(ch)`. */
    method CloseOne(ch: nat)
      requires ch < |channels|
      modifies this`channels, this`panicked
      ensures View() == CloseChan(old(View()), ch)
    {
      panicked := panicked || channels[ch].closed;
      channels := channels[ch := channels[ch].(closed := true)];
    }

    /** The loop of `StopLogging`. */
    method CloseMany(chs: seq<nat>)
      requires forall i :: 0 <= i < |chs| ==> chs[i] < |channels|
      modifies this`channels, this`panicked
      ensures View() == CloseAll(old(View()), chs)
    {
      ghost var was := View();
      for i := 0 to |chs|
        invariant |channels| == |was.channels|
        invariant View() == CloseAll(was, chs[..i])
      {
        assert Init(chs[..i + 1]) == chs[..i];
        CloseOne(chs[i]);
      }
      assert chs[..|chs|] == chs;
    }

    /** `StopLogging`: every channel handed out is closed, once. */
    method StopLogging()
      requires Valid()
      modifies this
      ensures Valid() && View() == StopHub(old(View()))
      ensures !logStarted && forall ch :: 0 <= ch < |channels| ==> channels[ch].closed
    {
      StopKeepsHub(View());
      if !logStarted {
        return;
      }
      var last := |stops| - 1;
      panicked := panicked || stops[last];
      stops := stops[last := true];
      logStarted := false;
      CloseMany(logChannels);
      logChannels := [];
    }

    /** `ch <- *record` with a default arm. */
    method Offer(ch: nat, d: Delivery)
      requires ch < |channels|
      modifies this`channels, this`panicked
      ensures View() == TrySend(old(View()), ch, d)
    {
      if channels[ch].closed {
        panicked := true;
      } else if |channels[ch].buf| < LOG_BUFFER {
        var c := channels[ch];
        channels := channels[ch := c.(buf := c.buf + [d.record], offered := c.offered + [d])];
      }
    }

    /** What `pumpLogs` does with a record once it has the lock. */
    method FanOut(d: Delivery)
      requires Valid()
      modifies this`channels, this`panicked
      ensures Valid() && Delivered(old(View()), View(), if logStarted then logChannels else [], d)
    {
      ghost var was := View();
      if logStarted {
        for i := 0 to |logChannels|
          invariant View() == Fanned(was, i, d) && |channels| == |was.channels|
        {
          Offer(logChannels[i], d);
        }
        FannedDelivers(was, |logChannels|, d);
        assert logChannels[..|logChannels|] == logChannels;
        DeliveredKeeps(was, View(), logChannels, d);
      }
    }
  }

  lemma DeliveredKeeps(h: Hub, h': Hub, chs: seq<nat>, d: Delivery)
    requires HubInv(h) && Delivered(h, h', chs, d)
    ensures HubInv(h')
  {
  }
}
