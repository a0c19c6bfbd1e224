/** How Arti's bootstrap status is condensed, deduplicated, queued and read back in Go
    (rust/arti-ffi/src/client.rs, rust/arti-ffi/src/events.rs, internal/arti/client.go). */
module StatusModel {
  import opened Sequences

  /** Why Arti says it is blocked; `disabled` is the `BlockageKind::Disabled` case. */
  datatype Blockage = Blockage(disabled: bool, text: string)

  /** What Arti reports. `frac` is exact here: the source's f32 rounding is not modelled. */
  datatype ArtiStatus = ArtiStatus(ready: bool, frac: real, blocked: Option<Blockage>, text: string)

  /** The snapshot that crosses to Go. */
  datatype Snapshot = Snapshot(progress: nat, tag: string, summary: string, liveness: string)

  datatype Event =
    | StatusClient(progress: nat, tag: string, summary: string)
    | HsDesc(action: string, address: string, reason: string)

  /** The Go side's view of the client. */
  datatype Status = Status(progress: nat, ready: bool, summary: string, problem: string)

  const ZERO_STATUS := Status(0, false, "", "")

  /** Depth of the Rust event queue. */
  const QUEUE_DEPTH: nat := 256

  /** Rounding half away from zero. */
  function Round(x: real): int {
    if x >= 0.0 then (x + 0.5).Floor else -((-x + 0.5).Floor)
  }

  function Clamp(x: int, lo: int, hi: int): int
    requires lo <= hi
  {
    if x < lo then lo else if x > hi then hi else x
  }

  function Progress(a: ArtiStatus): nat {
    var p: nat := Clamp(Round(a.frac * 100.0), 0, 100);
    if a.ready then 100 else if p > 99 then 99 else p
  }

  function Summarize(a: ArtiStatus): Snapshot {
    var progress := Progress(a);
    var (tag, summary) :=
      if a.ready then ("done", "Done")
      else if a.blocked.Some? then
        if a.blocked.value.disabled then ("starting", "Waiting to bootstrap")
        else ("problem", a.blocked.value.text)
      else if progress > 0 then ("loading_status", a.text)
      else ("starting", "Starting");
    Snapshot(progress, tag, summary, if a.ready then "up" else "down")
  }

  function ProblemOfTag(tag: string, summary: string): string {
    if tag == "problem" then summary else ""
  }

  /** The answer to a direct status query. */
  function StatusFrom(s: Snapshot): Status {
    Status(s.progress, s.liveness == "up", s.summary, ProblemOfTag(s.tag, s.summary))
  }

  /** What the event pump publishes for a status event. */
  function StatusOfEvent(e: Event): Status
    requires e.StatusClient?
  {
    Status(e.progress, e.tag == "done", e.summary, ProblemOfTag(e.tag, e.summary))
  }

  function EventOf(s: Snapshot): Event {
    StatusClient(s.progress, s.tag, s.summary)
  }

  /** Below ready the progress is the percentage rounded to the nearest whole number, held between 0
      and 99. */
  lemma ProgressRounds(a: ArtiStatus)
    requires !a.ready
    ensures var p, x := Summarize(a).progress, a.frac * 100.0;
            && (x < 0.5 ==> p == 0)
            && (0.5 <= x < 98.5 ==> p as real - 0.5 <= x < p as real + 0.5)
            && (x >= 98.5 ==> p == 99)
  {
  }

  /** What a person is told: Arti's own text about a fault or while it is loading, and otherwise a fixed
      phrase. */
  lemma SummaryFollowsCause(a: ArtiStatus)
    ensures var s := Summarize(a);
            if a.ready then s.summary == "Done"
            else if a.blocked.Some? && a.blocked.value.disabled then
              s.tag == "starting" && s.summary == "Waiting to bootstrap"
            else if a.blocked.Some? then s.tag == "problem" && s.summary == a.blocked.value.text
            else if a.frac * 100.0 >= 0.5 then s.tag == "loading_status" && s.summary == a.text
            else s.tag == "starting" && s.summary == "Starting"
  {
  }

  /** A problem is reported exactly while Arti is not ready and blocked by something other than being
      disabled, and it is Arti's own text. */
  lemma ProblemIffFault(a: ArtiStatus)
    ensures StatusFrom(Summarize(a)).problem ==
            if !a.ready && a.blocked.Some? && !a.blocked.value.disabled then a.blocked.value.text else ""
    ensures StatusOfEvent(EventOf(Summarize(a))).problem == StatusFrom(Summarize(a)).problem
  {
    assert "done"[0] == 'd' && "starting"[0] == 's' && "problem"[0] == 'p' && "loading_status"[0] == 'l';
  }

  /** Every signal a caller can look at agrees with Arti's own readiness. */
  lemma ReadinessAgrees(a: ArtiStatus)
    ensures Summarize(a).progress <= 100
    ensures Summarize(a).progress == 100 <==> a.ready
    ensures Summarize(a).tag == "done" <==> a.ready
    ensures Summarize(a).liveness == "up" <==> a.ready
    ensures a.ready ==> Summarize(a).summary != ""
  {
  }

  /** The event path and the direct query tell Go the same thing about one Arti status. */
  lemma EventAndQueryAgree(a: ArtiStatus)
    ensures StatusOfEvent(EventOf(Summarize(a))) == StatusFrom(Summarize(a))
    ensures StatusFrom(Summarize(a)).ready == a.ready
  {
  }

  // ----- The bootstrap watcher -----

  /** The watcher's memory before anything was sent (`u8::MAX`). */
  const NOTHING_SENT: nat := 255

  /** The progress the watcher remembers after a stream of statuses. */
  function Remembered(stream: seq<ArtiStatus>): nat {
    if stream == [] then NOTHING_SENT else Progress(Last(stream))
  }

  /** The events the watcher sends for a stream: one whenever the progress differs from the remembered one. */
  function Emitted(stream: seq<ArtiStatus>): seq<Event>
    decreases |stream|
  {
    if stream == [] then []
    else
      var before := Emitted(Init(stream));
      if Progress(Last(stream)) != Remembered(Init(stream))
      then before + [EventOf(Summarize(Last(stream)))]
      else before
  }

  lemma EmittedSnoc(stream: seq<ArtiStatus>, a: ArtiStatus)
    ensures Emitted(stream + [a]) ==
            Emitted(stream) + if Progress(a) != Remembered(stream) then [EventOf(Summarize(a))] else []
    ensures Remembered(stream + [a]) == Progress(a)
  {
  }

  /** The readiness history with repetitions removed. */
  function Flips(flags: seq<bool>): seq<bool>
    decreases |flags|
  {
    if |flags| <= 1 then flags
    else if Last(flags) == Last(Init(flags)) then Flips(Init(flags))
    else Flips(Init(flags)) + [Last(flags)]
  }

  function ReadyFlags(stream: seq<ArtiStatus>): seq<bool> {
    seq(|stream|, i requires 0 <= i < |stream| => stream[i].ready)
  }

  function EventFlags(events: seq<Event>): seq<bool> {
    seq(|events|, i requires 0 <= i < |events| => events[i].StatusClient? && events[i].tag == "done")
  }

  lemma {:induction false} FlipsKeepLast(flags: seq<bool>)
    requires flags != []
    ensures Flips(flags) != [] && Last(Flips(flags)) == Last(flags)
    decreases |flags|
  {
    if |flags| > 1 {
      FlipsKeepLast(Init(flags));
    }
  }

  lemma FlipsSnoc(flags: seq<bool>, b: bool)
    ensures Flips(flags + [b]) == if flags != [] && Last(flags) == b then Flips(flags) else Flips(flags) + [b]
  {
  }

  lemma EventFlagsSnoc(events: seq<Event>, a: ArtiStatus)
    ensures EventFlags(events + [EventOf(Summarize(a))]) == EventFlags(events) + [a.ready]
  {
  }

  /** The last event sent describes the last status observed. */
  lemma {:induction false} LastEmitted(stream: seq<ArtiStatus>)
    requires stream != []
    ensures var sent := Emitted(stream);
            sent != [] && Last(sent).StatusClient? &&
            Last(sent).progress == Progress(Last(stream)) &&
            (Last(sent).tag == "done" <==> Last(stream).ready)
    decreases |stream|
  {
    var before, a := Init(stream), Last(stream);
    ReadinessAgrees(a);
    assert Remembered([]) != Progress(a);
    if Progress(a) == Remembered(before) {
      LastEmitted(before);
      ReadinessAgrees(Last(before));
    }
  }

  /** For every status stream, the progress-only deduplication loses no readiness change:
      the emitted events flip readiness exactly as Arti did. */
  lemma {:induction false} DedupKeepsReadiness(stream: seq<ArtiStatus>)
    ensures Flips(EventFlags(Emitted(stream))) == Flips(ReadyFlags(stream))
    decreases |stream|, 0
  {
    if stream == [] {
      assert EventFlags(Emitted(stream)) == ReadyFlags(stream);
    } else {
      DedupStep(Init(stream), Last(stream));
      assert stream == Init(stream) + [Last(stream)];
    }
  }

  lemma {:induction false} DedupStep(before: seq<ArtiStatus>, a: ArtiStatus)
    ensures Flips(EventFlags(Emitted(before + [a]))) == Flips(ReadyFlags(before + [a]))
    decreases |before|, 1
  {
    DedupKeepsReadiness(before);
    var sent, flags := Emitted(before), ReadyFlags(before);
    assert Init(before + [a]) == before && Last(before + [a]) == a;
    assert ReadyFlags(before + [a]) == flags + [a.ready];
    FlipsSnoc(flags, a.ready);
    if before != [] {
      FlipsKeepLast(flags);
      LastEmitted(before);
      FlipsKeepLast(EventFlags(sent));
      ReadinessAgrees(Last(before));
    }
    ReadinessAgrees(a);
    if Progress(a) != Remembered(before) {
      EventFlagsSnoc(sent, a);
      FlipsSnoc(EventFlags(sent), a.ready);
    }
  }

  /** What is lost: only the progress is compared, so after any stream a status goes unannounced
      exactly when it has the progress of its predecessor, whatever else about it changed. */
  lemma DedupDropsProblemText(stream: seq<ArtiStatus>, a: ArtiStatus, b: ArtiStatus)
    ensures Emitted(stream + [a] + [b]) == Emitted(stream + [a]) <==> Progress(a) == Progress(b)
  {
    EmittedSnoc(stream, a);
    EmittedSnoc(stream + [a], b);
  }

  /** Two statuses at 40 percent, blocked for different reasons. */
  lemma ProblemTextDiffers()
    ensures var a := ArtiStatus(false, 0.4, Some(Blockage(false, "x")), "");
            var b := ArtiStatus(false, 0.4, Some(Blockage(false, "y")), "");
            Progress(a) == Progress(b) && StatusOfEvent(EventOf(Summarize(a))).problem == "x" &&
            StatusOfEvent(EventOf(Summarize(b))).problem == "y"
  {
  }

  /** Where the last stretch of equal progress begins. */
  function StretchStart(stream: seq<ArtiStatus>): (k: nat)
    requires stream != []
    ensures k < |stream| && forall i :: k <= i < |stream| ==> Progress(stream[i]) == Progress(Last(stream))
    ensures k > 0 ==> Progress(stream[k - 1]) != Progress(Last(stream))
    decreases |stream|
  {
    if |stream| == 1 || Progress(Last(Init(stream))) != Progress(Last(stream)) then |stream| - 1
    else StretchStart(Init(stream))
  }

  /** The last event sent describes the first status of the last stretch of equal progress. */
  lemma {:induction false} LastEmittedIsStretchStart(stream: seq<ArtiStatus>)
    requires stream != []
    ensures Emitted(stream) != [] && Last(Emitted(stream)) == EventOf(Summarize(stream[StretchStart(stream)]))
    decreases |stream|
  {
    var before, a := Init(stream), Last(stream);
    ReadinessAgrees(a);
    if before != [] && Progress(Last(before)) == Progress(a) {
      LastEmittedIsStretchStart(before);
    }
  }

  /** `spawn_bootstrap_watcher`: the loop over Arti's status stream. */
  method WatchBootstrap(stream: seq<ArtiStatus>) returns (sent: seq<Event>)
    ensures sent == Emitted(stream)
  {
    var last := NOTHING_SENT;
    sent := [];
    for i := 0 to |stream|
      invariant last == Remembered(stream[..i])
      invariant sent == Emitted(stream[..i])
    {
      assert Init(stream[..i + 1]) == stream[..i];
      var snapshot := Summarize(stream[i]);
      if snapshot.progress != last {
        last := snapshot.progress;
        sent := sent + [EventOf(snapshot)];
      }
    }
    assert stream[..|stream|] == stream;
  }

  // ----- The Rust event queue -----

  /** `try_send` on the bounded queue: the new event is the one dropped when full. */
  function Offer(queue: seq<Event>, e: Event): (r: seq<Event>)
    ensures |queue| <= QUEUE_DEPTH ==> |r| <= QUEUE_DEPTH
    ensures |queue| < QUEUE_DEPTH ==> r == queue + [e]
    ensures |queue| >= QUEUE_DEPTH ==> r == queue
  {
    if |queue| < QUEUE_DEPTH then queue + [e] else queue
  }

  function OfferAll(queue: seq<Event>, es: seq<Event>): seq<Event>
    decreases |es|
  {
    if es == [] then queue else Offer(OfferAll(queue, Init(es)), Last(es))
  }

  /** A burst keeps its oldest events, and only as many as fit. */
  lemma {:induction false} BurstKeepsOldest(queue: seq<Event>, es: seq<Event>)
    requires |queue| <= 256
    ensures var room := 256 - |queue|;
            OfferAll(queue, es) == queue + es[..if |es| < room then |es| else room]
    decreases |es|
  {
    if es != [] {
      BurstKeepsOldest(queue, Init(es));
      var room := QUEUE_DEPTH - |queue|;
      if |es| <= room {
        assert Init(es)[..|es| - 1] + [Last(es)] == es[..|es|];
      } else {
        assert Init(es)[..room] == es[..room];
      }
    }
  }

  /** The queue itself: `Sender::send` and `Queue::next`. */
  class EventQueue {
    var events: seq<Event>

    ghost predicate Valid()
      reads this
    {
      |events| <= QUEUE_DEPTH
    }

    constructor ()
      ensures Valid() && events == []
    {
      events := [];
    }

    method Send(e: Event)
      requires Valid()
      modifies this
      ensures Valid() && events == Offer(old(events), e)
    {
      if |events| < QUEUE_DEPTH {
        events := events + [e];
      }
    }

    /** `next`: an empty queue times out. */
    method Next() returns (r: Option<Event>)
      requires Valid()
      modifies this
      ensures Valid()
      ensures old(events) == [] ==> r == None && events == []
      ensures old(events) != [] ==> r == Some(old(events)[0]) && events == old(events)[1..]
    {
      if events == [] {
        r := None;
      } else {
        r := Some(events[0]);
        events := events[1..];
      }
    }
  }
}
