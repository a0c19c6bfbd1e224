/** What consumers of the log channels can rely on in every run, and what they cannot. */
module LogsTheorems {
  import opened Sequences
  import opened LogsMachine
  import opened LogsProofs

  /** Logging that was ever started had a subscriber installed for it, or `LIBTOR_LOG` to vouch for one. */
  ghost predicate InstallInv(s: State) {
    s.pumps != [] ==> s.installed || s.fromEnv
  }

  ghost predicate Inv(s: State) {
    HubInv(s.hub) && PumpsInv(s) && RecordsInv(s) && InstallInv(s)
  }

  lemma InstallKept(s: State, a: Action)
    requires InstallInv(s)
    ensures InstallInv(Apply(s, a))
  {
  }

  lemma InvKept(s: State, a: Action)
    requires Inv(s)
    ensures Inv(Apply(s, a))
  {
    HubKept(s, a);
    PumpsKept(s, a);
    RecordsKept(s, a);
    InstallKept(s, a);
  }

  lemma {:induction false} InvRuns(s: State, actions: seq<Action>)
    requires Inv(s)
    ensures Inv(Run(s, actions))
    decreases |actions|
  {
    if actions != [] {
      InvRuns(s, Init(actions));
      InvKept(Run(s, Init(actions)), Last(actions));
    }
  }

  lemma RunInv(fromEnv: bool, actions: seq<Action>)
    ensures Inv(Run(Start(fromEnv), actions))
  {
    InvRuns(Start(fromEnv), actions);
  }

  /** However often logging is stopped and restarted, and however many old pumps are still finishing:
      nothing is sent on a closed channel, nothing is closed twice, exactly the newest pump has an open
      stop channel while started and none otherwise, and a channel is open exactly while it is listed. */
  lemma FanOutIsSafe(fromEnv: bool, actions: seq<Action>)
    ensures var h := Run(Start(fromEnv), actions).hub;
            && !h.panicked
            && (forall p :: 0 <= p < |h.stops| ==> (!h.stops[p] <==> h.started && p == |h.stops| - 1))
            && (forall ch :: 0 <= ch < |h.channels| ==> (!h.channels[ch].closed <==> ch in h.listed))
            && (!h.started ==> forall ch :: 0 <= ch < |h.channels| ==> h.channels[ch].closed)
  {
    RunInv(fromEnv, actions);
  }

  /** No record reaches a channel twice, and what one pump delivers to it is in order, with nothing
      lost between the buffer and the consumer. */
  lemma NoRecordTwice(fromEnv: bool, actions: seq<Action>, ch: nat)
    requires ch < |Run(Start(fromEnv), actions).hub.channels|
    ensures var c := Run(Start(fromEnv), actions).hub.channels[ch];
            InOrder(c.offered) && Records(c.offered) == c.received + c.buf && |c.buf| <= 256
  {
    RunInv(fromEnv, actions);
    assert ChannelOk(Run(Start(fromEnv), actions).hub.channels[ch], Run(Start(fromEnv), actions).mark);
  }

  ghost predicate Increasing(s: seq<nat>) {
    forall i, j :: 0 <= i < j < |s| ==> s[i] < s[j]
  }

  /** A full Rust queue of 4096 drops the new record; otherwise the record goes last. */
  lemma EmitDropsNewest(s: State)
    ensures Apply(s, Emit).queue == if |s.queue| < 4096 then s.queue + [s.emitted] else s.queue
  {
  }

  /** A pump that was told to stop begins at most one more fan-out. */
  lemma StoppedPumpSendsOnce(fromEnv: bool, actions: seq<Action>, p: nat)
    requires p < |Run(Start(fromEnv), actions).pumps|
    ensures Run(Start(fromEnv), actions).pumps[p].late <= 1
  {
    RunInv(fromEnv, actions);
    assert PumpOk(Run(Start(fromEnv), actions), p);
  }

  // ----- Stopping and resuming -----

  /** Once logging has been started and stopped, `EnableLogging` succeeds again exactly when `LIBTOR_LOG`
      is set, whatever happens in between. The comment on `StopLogging` promises that it always does. */
  lemma ResumesIffFromEnv(fromEnv: bool, actions: seq<Action>, level: string, parses: bool)
    requires var s := Run(Start(fromEnv), actions); s.pumps != [] && !s.hub.started
    ensures Enables(Run(Start(fromEnv), actions), level, parses) <==> !Blank(level) && fromEnv
  {
    RunInv(fromEnv, actions);
    EnvStays(Start(fromEnv), actions);
  }

  lemma {:induction false} EnvStays(s: State, actions: seq<Action>)
    ensures Run(s, actions).fromEnv == s.fromEnv
    decreases |actions|
  {
    if actions != [] {
      EnvStays(s, Init(actions));
    }
  }

  ghost predicate StuckOff(s: State) {
    !s.hub.started && s.installed && !s.fromEnv
  }

  lemma StuckOffKept(s: State, a: Action)
    requires StuckOff(s)
    ensures StuckOff(Apply(s, a)) && |Apply(s, a).hub.channels| == |s.hub.channels|
  {
  }

  lemma {:induction false} StuckOffRuns(s: State, more: seq<Action>)
    requires StuckOff(s)
    ensures StuckOff(Run(s, more)) && |Run(s, more).hub.channels| == |s.hub.channels|
    decreases |more|
  {
    if more != [] {
      StuckOffRuns(s, Init(more));
      StuckOffKept(Run(s, Init(more)), Last(more));
    }
  }

  /** Without `LIBTOR_LOG`, stopping is final: after any run in which logging was started and stopped, no
      call in any continuation starts it again or hands out a channel. */
  lemma StopIsFinal(actions: seq<Action>, more: seq<Action>)
    requires var s := Run(Start(false), actions); s.pumps != [] && !s.hub.started
    ensures var s, s' := Run(Start(false), actions), Run(Run(Start(false), actions), more);
            !s'.hub.started && |s'.hub.channels| == |s.hub.channels|
  {
    RunInv(false, actions);
    EnvStays(Start(false), actions);
    StuckOffRuns(Run(Start(false), actions), more);
  }

  lemma FirstEnable(fromEnv: bool)
    ensures Run(Start(fromEnv), [Enable("info", true)]) ==
            State(Hub(true, [false], [NEW_CHANNEL], [0], false), [Pump(Checking, 0)], [], 0, 0, true, fromEnv)
  {
    assert !IsSpace("info"[0]);
    Extend(Start(fromEnv), [], Enable("info", true));
    assert [] + [Enable("info", true)] == [Enable("info", true)];
  }

  /** A start and a stop without `LIBTOR_LOG`. */
  lemma StopHappens()
    ensures var s := Run(Start(false), [Enable("info", true), Stop]);
            s.pumps != [] && StuckOff(s) && forall parses :: !Enables(s, "info", parses)
  {
    FirstEnable(false);
    Extend(Start(false), [Enable("info", true)], Stop);
    StopsOne(Hub(true, [false], [NEW_CHANNEL], [0], false));
    assert [Enable("info", true)] + [Stop] == [Enable("info", true), Stop];
  }

  // ----- Two pumps at once -----

  lemma Extend(s: State, actions: seq<Action>, a: Action)
    ensures Run(s, actions + [a]) == Apply(Run(s, actions), a)
  {
  }

  lemma {:induction false} RunConcat(s: State, a: seq<Action>, b: seq<Action>)
    ensures Run(s, a + b) == Run(Run(s, a), b)
    decreases |b|
  {
    if b == [] {
      assert a + b == a;
    } else {
      assert Init(a + b) == a + Init(b) && Last(a + b) == Last(b);
      RunConcat(s, a, Init(b));
    }
  }

  /** A pump has taken record 0 when logging is stopped. */
  const STOPPED_MIDWAY: seq<Action> := [Enable("info", true), Emit, Emit, Step(0), Step(0), Stop]

  lemma StopsOne(h: Hub)
    requires h == Hub(true, [false], [NEW_CHANNEL], [0], false)
    ensures StopHub(h) == Hub(false, [true], [NEW_CHANNEL.(closed := true)], [], false)
  {
  }

  lemma StartedRun()
    ensures Run(Start(true), [Enable("info", true), Emit, Emit]) ==
            State(Hub(true, [false], [NEW_CHANNEL], [0], false), [Pump(Checking, 0)], [0, 1], 2, 0, true, true)
  {
    var s0 := Start(true);
    FirstEnable(true);
    var a := [Enable("info", true)];
    Extend(s0, a, Emit);
    Extend(s0, a + [Emit], Emit);
    assert a + [Emit] + [Emit] == [Enable("info", true), Emit, Emit];
  }

  lemma MidwayRun()
    ensures Run(Start(true), STOPPED_MIDWAY) ==
            State(Hub(false, [true], [NEW_CHANNEL.(closed := true)], [], false),
                  [Pump(Holding(0), 0)], [1], 2, 1, true, true)
  {
    var s0 := Start(true);
    var h := Hub(true, [false], [NEW_CHANNEL], [0], false);
    var b := [Enable("info", true), Emit, Emit];
    StartedRun();
    Extend(s0, b, Step(0));
    Extend(s0, b + [Step(0)], Step(0));
    var c := b + [Step(0)] + [Step(0)];
    assert Run(s0, c) == State(h, [Pump(Holding(0), 0)], [1], 2, 1, true, true);
    Extend(s0, c, Stop);
    StopsOne(h);
    assert c + [Stop] == STOPPED_MIDWAY;
  }
}
