/** Logging from beginning to end: a call hands out a channel, a record gets to it, a pump that was told
    to stop goes away (internal/arti/logs.go). */
module LogsCalls {
  import opened Sequences
  import opened LogsMachine
  import opened LogsProofs
  import opened LogsTheorems
  import opened LogsOrder

  // ----- EnableLogging -----

  /** White space in ASCII text, which is what a level is blank of. */
  lemma BlankAscii(level: string)
    requires forall i :: 0 <= i < |level| ==> level[i] as int < 128
    ensures Blank(level) <==> forall i :: 0 <= i < |level| ==> level[i] as int in {9, 10, 11, 12, 13, 32}
  {
    forall i | 0 <= i < |level| ensures IsSpace(level[i]) <==> level[i] as int in {9, 10, 11, 12, 13, 32} {
      SpacesInAscii(level[i]);
    }
  }

  lemma SpacesInAscii(c: char)
    requires c as int < 128
    ensures IsSpace(c) <==> c as int in {9, 10, 11, 12, 13, 32}
  {
    if IsSpace(c) && c as int != 32 {
      assert c as int in [9, 10, 11, 12, 13];
    }
  }

  /** What a call that takes effect adds: a listed open channel, and a pump with an open stop channel if
      logging was off. Any other call changes nothing. */
  lemma EnableAdds(s: State, level: string, parses: bool)
    requires MuFree(s)
    ensures var s', n := Apply(s, Enable(level, parses)), |s.hub.channels|;
            if !Blank(level) && (s.hub.started || (parses && !s.installed) || s.fromEnv) then
              && s'.hub.started && s'.hub.listed == s.hub.listed + [n]
              && s'.hub.channels == s.hub.channels + [Channel([], false, [], [])]
              && (s.hub.started ==> s'.pumps == s.pumps && s'.hub.stops == s.hub.stops && s'.installed == s.installed)
              && (!s.hub.started ==>
                    && s'.pumps == s.pumps + [Pump(Checking, 0)] && s'.hub.stops == s.hub.stops + [false]
                    && s'.installed == (s.installed || parses))
            else s' == s
  {
  }

  /** A host that installs a subscriber of its own first, in a process without `LIBTOR_LOG`, can never
      have logging started. */
  lemma HostSubscriberBlocks(more: seq<Action>)
    ensures var s := Run(Start(false), [InstallElsewhere] + more); !s.hub.started && s.hub.channels == []
  {
    var s := Apply(Start(false), InstallElsewhere);
    Extend(Start(false), [], InstallElsewhere);
    assert [] + [InstallElsewhere] == [InstallElsewhere];
    RunConcat(Start(false), [InstallElsewhere], more);
    StuckOffRuns(s, more);
  }

  // ----- A record gets to its consumers -----

  /** Steps of the pumps, and receives on `ch`. */
  ghost predicate PumpsAndConsumer(more: seq<Action>, ch: nat) {
    forall i :: 0 <= i < |more| ==> more[i].Step? || more[i] == Receive(ch)
  }

  lemma Prepend(s: State, a: Action, rest: seq<Action>)
    ensures Run(s, [a] + rest) == Run(Apply(s, a), rest)
  {
    Extend(s, [], a);
    assert [] + [a] == [a];
    RunConcat(s, [a], rest);
  }

  /** The fan-out in progress ends. */
  lemma {:induction false} LockComesFree(s: State) returns (more: seq<Action>)
    requires Inv(s)
    ensures forall i :: 0 <= i < |more| ==> more[i].Step?
    ensures var s' := Run(s, more);
            && Inv(s') && MuFree(s') && |s'.pumps| == |s.pumps| && s'.queue == s.queue
            && s'.hub.started == s.hub.started && s'.hub.listed == s.hub.listed
    decreases SendsLeft(s)
  {
    if MuFree(s) {
      more := [];
    } else {
      var p :| 0 <= p < |s.pumps| && s.pumps[p].stage.Sending?;
      InvKept(s, Step(p));
      SendingStep(s, p);
      var rest := LockComesFree(Apply(s, Step(p)));
      more := [Step(p)] + rest;
      Prepend(s, Step(p), rest);
    }
  }

  ghost function SendsLeft(s: State): nat {
    if p :| 0 <= p < |s.pumps| && s.pumps[p].stage.Sending? then
      LeftFor(s.pumps[p], |s.hub.listed|)
    else 0
  }

  function LeftFor(x: Pump, listed: nat): nat {
    if x.stage.Sending? && x.stage.next <= listed then listed - x.stage.next + 1 else 1
  }

  lemma SendingStep(s: State, p: nat)
    requires Inv(s) && p < |s.pumps| && s.pumps[p].stage.Sending?
    ensures var s' := Apply(s, Step(p));
            && |s'.pumps| == |s.pumps| && s'.queue == s.queue
            && s'.hub.started == s.hub.started && s'.hub.listed == s.hub.listed
            && SendsLeft(s') < SendsLeft(s)
  {
    assert PumpOk(s, p);
    StepTouches(s, p);
    assert SendsLeft(s) == LeftFor(s.pumps[p], |s.hub.listed|);
    var s' := Apply(s, Step(p));
    if s'.pumps[p].stage.Sending? {
      assert SendsLeft(s') == LeftFor(s'.pumps[p], |s.hub.listed|);
    }
  }

  /** The newest pump of a started hub comes to hold the oldest queued record. */
  lemma NewestTakes(s: State, ch: nat) returns (more: seq<Action>)
    requires Inv(s) && MuFree(s) && s.hub.started && s.queue != [] && ch in s.hub.listed
    ensures PumpsAndConsumer(more, ch)
    ensures var s' := Run(s, more);
            && Inv(s') && MuFree(s') && s'.hub.started && s'.hub.listed == s.hub.listed
            && s'.pumps != [] && Last(s'.pumps).stage == Holding(s.queue[0])
  {
    var q := |s.pumps| - 1;
    NewestIsAlive(s);
    assert PumpOk(s, q);
    match s.pumps[q].stage {
      case Polling => more := Takes(s, q);
      case Checking => more := ChecksAndTakes(s, q);
      case Holding(_) =>
        var first := Delivers(s, q, ch);
        var rest := ChecksAndTakes(Run(s, first), q);
        more := first + rest;
        RunConcat(s, first, rest);
    }
  }

  lemma Takes(s: State, q: nat) returns (more: seq<Action>)
    requires Inv(s) && MuFree(s) && s.queue != [] && q < |s.pumps| && s.pumps[q].stage.Polling?
    ensures more == [Step(q)]
    ensures var s' := Run(s, more);
            && Inv(s') && MuFree(s') && s'.hub == s.hub && |s'.pumps| == |s.pumps|
            && s'.pumps[q].stage == Holding(s.queue[0])
  {
    more := [Step(q)];
    Extend(s, [], Step(q));
    assert [] + [Step(q)] == more;
    InvKept(s, Step(q));
  }

  lemma ChecksAndTakes(s: State, q: nat) returns (more: seq<Action>)
    requires Inv(s) && MuFree(s) && s.hub.started && s.queue != []
    requires q == |s.pumps| - 1 && s.pumps[q].stage.Checking?
    ensures forall i :: 0 <= i < |more| ==> more[i].Step?
    ensures var s' := Run(s, more);
            && Inv(s') && MuFree(s') && s'.hub == s.hub && |s'.pumps| == |s.pumps|
            && s'.pumps[q].stage == Holding(s.queue[0])
  {
    Extend(s, [], Step(q));
    assert [] + [Step(q)] == [Step(q)];
    InvKept(s, Step(q));
    var s1 := Apply(s, Step(q));
    assert s1.pumps[q].stage.Polling?;
    var rest := Takes(s1, q);
    more := [Step(q)] + rest;
    RunConcat(s, [Step(q)], rest);
  }

  /** While logging is on, the oldest queued record can get to every consumer: the pumps' own steps, and at
      most some receives of that consumer to make room, put it on the channel. */
  lemma RecordReachesConsumer(fromEnv: bool, actions: seq<Action>, ch: nat) returns (more: seq<Action>)
    requires var s := Run(Start(fromEnv), actions); s.hub.started && s.queue != [] && ch in s.hub.listed
    ensures PumpsAndConsumer(more, ch)
    ensures var s, s' := Run(Start(fromEnv), actions), Run(Run(Start(fromEnv), actions), more);
            ch < |s'.hub.channels| && s.queue[0] in s'.hub.channels[ch].received + s'.hub.channels[ch].buf
  {
    RunInv(fromEnv, actions);
    var s := Run(Start(fromEnv), actions);
    var a := LockComesFree(s);
    var s1 := Run(s, a);
    var b := NewestTakes(s1, ch);
    var s2 := Run(s1, b);
    var c := Delivers(s2, |s2.pumps| - 1, ch);
    more := a + b + c;
    RunConcat(s, a, b);
    RunConcat(s, a + b, c);
    InHistory(Run(s2, c), ch);
  }

  lemma InHistory(s: State, ch: nat)
    requires Inv(s) && ch < |s.hub.channels| && s.hub.channels[ch].offered != []
    ensures Last(s.hub.channels[ch].offered).record in s.hub.channels[ch].received + s.hub.channels[ch].buf
  {
    var c := s.hub.channels[ch];
    assert ChannelOk(c, s.mark);
    assert Records(c.offered)[|c.offered| - 1] == Last(c.offered).record;
  }

  // ----- A stopped pump goes away -----

  function StepsToExit(x: Pump, listed: nat): nat {
    match x.stage
    case Exited => 0
    case Checking => 1
    case Sending(_, next) => if next <= listed then listed - next + 2 else 2
    case Holding(_) => listed + 3
    case Polling => listed + 4
  }

  /** A pump whose stop channel is closed exits by its own steps once no other pump has the lock: also when
      nothing is queued, and also when logging has been started again meanwhile. */
  lemma {:induction false} StoppedPumpExits(s: State, p: nat) returns (more: seq<Action>)
    requires p < |s.pumps| && p < |s.hub.stops| && s.hub.stops[p]
    requires forall q :: 0 <= q < |s.pumps| && q != p ==> !s.pumps[q].stage.Sending?
    ensures forall i :: 0 <= i < |more| ==> more[i] == Step(p)
    ensures var s' := Run(s, more); p < |s'.pumps| && s'.pumps[p].stage.Exited?
    decreases StepsToExit(s.pumps[p], |s.hub.listed|)
  {
    if s.pumps[p].stage.Exited? {
      more := [];
    } else {
      ComesCloser(s, p);
      var rest := StoppedPumpExits(Apply(s, Step(p)), p);
      more := [Step(p)] + rest;
      Prepend(s, Step(p), rest);
    }
  }

  /** A step of a stopped pump that can have the lock brings it closer to its exit. */
  lemma ComesCloser(s: State, p: nat)
    requires p < |s.pumps| && p < |s.hub.stops| && s.hub.stops[p] && !s.pumps[p].stage.Exited?
    requires forall q :: 0 <= q < |s.pumps| && q != p ==> !s.pumps[q].stage.Sending?
    ensures var s' := Apply(s, Step(p));
            && |s'.pumps| == |s.pumps| && s'.hub.stops == s.hub.stops && s'.hub.listed == s.hub.listed
            && (forall q :: 0 <= q < |s.pumps| && q != p ==> !s'.pumps[q].stage.Sending?)
            && StepsToExit(s'.pumps[p], |s.hub.listed|) < StepsToExit(s.pumps[p], |s.hub.listed|)
  {
    StepTouches(s, p);
    assert !s.pumps[p].stage.Sending? ==> MuFree(s);
  }
}
