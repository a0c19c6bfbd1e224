/** Publication progress of an onion service: the watcher that reports it (rust/arti-ffi/src/onion.rs)
    and the one-shot result it settles (internal/arti/onion.go). */
module Publication {
  import opened Sequences

  // ----- The watcher -----

  /** Arti's aggregate state; `Working` stands for every state the watcher has no case for. */
  datatype Condition = Shutdown | Broken | Working

  /** `reachable` is what `is_fully_reachable` answers, `problem` the printed current problem. */
  datatype ServiceStatus = ServiceStatus(condition: Condition, reachable: bool, problem: Option<string>)

  datatype Progress = Upload | Uploaded | Failed(reason: string) | Unrecognised

  function Reason(s: ServiceStatus): string {
    if s.problem.Some? then s.problem.value else "unknown"
  }

  /** The statuses the watcher does not skip. */
  function Live(stream: seq<ServiceStatus>): seq<ServiceStatus>
    decreases |stream|
  {
    if stream == [] then []
    else Live(Init(stream)) + if Last(stream).condition.Shutdown? then [] else [Last(stream)]
  }

  lemma LiveSnoc(stream: seq<ServiceStatus>, s: ServiceStatus)
    ensures Live(stream + [s]) == if s.condition.Shutdown? then Live(stream) else Live(stream) + [s]
  {
  }

  function Failures(live: seq<ServiceStatus>): seq<Progress>
    decreases |live|
  {
    if live == [] then []
    else Failures(Init(live)) + if Last(live).condition.Broken? then [Failed(Reason(Last(live)))] else []
  }

  /** The first reachable status, or the end. */
  function FirstReachable(live: seq<ServiceStatus>): (k: nat)
    ensures k <= |live|
    ensures forall i :: 0 <= i < k ==> !live[i].reachable
    ensures k < |live| ==> live[k].reachable
    decreases |live|
  {
    if live == [] then 0
    else
      var k := FirstReachable(Init(live));
      if k < |live| - 1 || Last(live).reachable then k else |live|
  }

  /** What is announced for a stream, in closed form: one `UPLOAD` ahead of everything, every failure
      in order, and one `UPLOADED` at the first reachable status. */
  function Announcements(live: seq<ServiceStatus>): seq<Progress> {
    if live == [] then []
    else
      var k := FirstReachable(live);
      [Upload] + Failures(live[..k]) + (if k < |live| then [Uploaded] else []) + Failures(live[k..])
  }

  lemma {:induction false} FailuresSnoc(live: seq<ServiceStatus>, s: ServiceStatus)
    ensures Failures(live + [s]) == Failures(live) + if s.condition.Broken? then [Failed(Reason(s))] else []
  {
  }

  /** What one more status adds, given which announcements were made before it. */
  function Adds(upload: bool, uploaded: bool, s: ServiceStatus): seq<Progress> {
    (if !upload then [Upload] else [])
    + (if s.reachable && !uploaded then [Uploaded] else [])
    + (if s.condition.Broken? then [Failed(Reason(s))] else [])
  }

  predicate Reached(live: seq<ServiceStatus>) { FirstReachable(live) < |live| }

  function Added(live: seq<ServiceStatus>, s: ServiceStatus): seq<Progress> {
    Adds(live != [], Reached(live), s)
  }

  lemma {:induction false} FirstReachableSnoc(live: seq<ServiceStatus>, s: ServiceStatus)
    ensures FirstReachable(live + [s]) ==
            if FirstReachable(live) < |live| || s.reachable then FirstReachable(live) else |live| + 1
  {
  }

  lemma {:induction false} AddedAfterReachable(live: seq<ServiceStatus>, s: ServiceStatus)
    requires FirstReachable(live) < |live|
    ensures Announcements(live + [s]) == Announcements(live) + Added(live, s)
  {
    var all, k := live + [s], FirstReachable(live);
    FirstReachableSnoc(live, s);
    assert all[..k] == live[..k] && all[k..] == live[k..] + [s];
    FailuresSnoc(live[k..], s);
  }

  lemma {:induction false} AddedAtReachable(live: seq<ServiceStatus>, s: ServiceStatus)
    requires FirstReachable(live) == |live| && s.reachable
    ensures Announcements(live + [s]) == Announcements(live) + Added(live, s)
  {
    var all, k := live + [s], |live|;
    FirstReachableSnoc(live, s);
    assert all[..k] == live && live[..k] == live && live[k..] == [] && all[k..] == [] + [s];
    FailuresSnoc([], s);
  }

  lemma {:induction false} AddedBeforeReachable(live: seq<ServiceStatus>, s: ServiceStatus)
    requires FirstReachable(live) == |live| && !s.reachable
    ensures Announcements(live + [s]) == Announcements(live) + Added(live, s)
  {
    var all, k := live + [s], |live|;
    FirstReachableSnoc(live, s);
    assert all[..k + 1] == all && all[k + 1..] == [] && live[..k] == live && live[k..] == [];
    FailuresSnoc(live, s);
  }

  /** One turn of the watcher's loop. */
  lemma {:induction false} AnnounceSnoc(live: seq<ServiceStatus>, s: ServiceStatus)
    ensures Announcements(live + [s]) == Announcements(live) + Added(live, s)
  {
    if FirstReachable(live) < |live| {
      AddedAfterReachable(live, s);
    } else if s.reachable {
      AddedAtReachable(live, s);
    } else {
      AddedBeforeReachable(live, s);
    }
  }

  /** What has been sent, and which announcements have been made, after the statuses seen so far. */
  ghost predicate Told(seen: seq<ServiceStatus>, sent: seq<Progress>, upload: bool, uploaded: bool) {
    && sent == Announcements(Live(seen))
    && (upload <==> Live(seen) != [])
    && (uploaded <==> Reached(Live(seen)))
  }

  lemma ToldTurn(seen: seq<ServiceStatus>, sent: seq<Progress>, upload: bool, uploaded: bool, s: ServiceStatus)
    requires Told(seen, sent, upload, uploaded)
    ensures s.condition.Shutdown? ==> Told(seen + [s], sent, upload, uploaded)
    ensures !s.condition.Shutdown? ==>
              Told(seen + [s], sent + Adds(upload, uploaded, s), true, uploaded || s.reachable)
  {
    LiveSnoc(seen, s);
    AnnounceSnoc(Live(seen), s);
    FirstReachableSnoc(Live(seen), s);
  }

  /** The body of the watcher's loop. */
  method Announce(status: ServiceStatus, before: seq<Progress>, upload: bool, uploaded: bool)
    returns (sent: seq<Progress>, upload': bool, uploaded': bool)
    requires !status.condition.Shutdown?
    ensures upload' && (uploaded' <==> uploaded || status.reachable)
    ensures sent == before + Adds(upload, uploaded, status)
  {
    sent, upload', uploaded' := before, upload, uploaded;
    if !upload' {
      upload' := true;
      sent := sent + [Upload];
    }
    if status.reachable && !uploaded' {
      uploaded' := true;
      sent := sent + [Uploaded];
    }
    if status.condition.Broken? {
      sent := sent + [Failed(Reason(status))];
    }
  }

  /** `spawn_status_watcher`. */
  method WatchStatus(stream: seq<ServiceStatus>) returns (sent: seq<Progress>)
    ensures sent == Announcements(Live(stream))
  {
    var announcedUpload, announcedUploaded := false, false;
    sent := [];
    for i := 0 to |stream|
      invariant Told(stream[..i], sent, announcedUpload, announcedUploaded)
    {
      var status := stream[i];
      ToldTurn(stream[..i], sent, announcedUpload, announcedUploaded, status);
      assert stream[..i + 1] == stream[..i] + [status];
      if status.condition.Shutdown? {
        continue;
      }
      sent, announcedUpload, announcedUploaded := Announce(status, sent, announcedUpload, announcedUploaded);
    }
    assert stream[..|stream|] == stream;
  }

  lemma {:induction false} FailuresFail(live: seq<ServiceStatus>)
    ensures forall i :: 0 <= i < |Failures(live)| ==> Failures(live)[i].Failed?
    ensures Failures(live) != [] ==> exists i :: 0 <= i < |live| && live[i].condition.Broken?
    decreases |live|
  {
    if live != [] {
      FailuresFail(Init(live));
      if i :| 0 <= i < |live| - 1 && Init(live)[i].condition.Broken? {
        assert live[i].condition.Broken?;
      }
    }
  }

  /** Where `UPLOAD` and `UPLOADED` stand among failures. */
  lemma Placed(a: seq<Progress>, uploaded: bool, b: seq<Progress>, i: nat)
    requires forall j :: 0 <= j < |a| ==> a[j].Failed?
    requires forall j :: 0 <= j < |b| ==> b[j].Failed?
    requires i < |[Upload] + a + (if uploaded then [Uploaded] else []) + b|
    ensures var sent := [Upload] + a + (if uploaded then [Uploaded] else []) + b;
            (sent[i].Upload? <==> i == 0) && (sent[i].Uploaded? <==> uploaded && i == 1 + |a|)
  {
  }

  /** Exactly the `Shutdown` statuses are skipped, and the others keep their order. */
  lemma {:induction false} LiveKeeps(stream: seq<ServiceStatus>, i: nat)
    requires i < |stream|
    ensures forall s :: s in Live(stream) <==> s in stream && !s.condition.Shutdown?
    ensures var k := |Live(stream[..i])|;
            if stream[i].condition.Shutdown? then Live(stream[..i + 1]) == Live(stream[..i])
            else k < |Live(stream)| && Live(stream)[k] == stream[i]
    decreases |stream|
  {
    assert stream == Init(stream) + [Last(stream)];
    if |stream| > 1 {
      LiveKeeps(Init(stream), if i < |stream| - 1 then i else 0);
    }
    if i < |stream| - 1 {
      assert Init(stream)[..i] == stream[..i] && Init(stream)[..i + 1] == stream[..i + 1];
    } else {
      assert stream[..i] == Init(stream) && stream[..i + 1] == stream;
    }
  }

  /** Nothing comes before a single `UPLOAD`, and there is at most one `UPLOADED`, which is there
      exactly when some status that is not `Shutdown` was reachable; statuses that are `Shutdown` alone
      announce nothing. */
  lemma WatcherAnnouncesOnce(stream: seq<ServiceStatus>)
    ensures var sent := Announcements(Live(stream));
            && (sent != [] <==> exists s :: s in stream && !s.condition.Shutdown?)
            && (forall i :: 0 <= i < |sent| ==> (sent[i].Upload? <==> i == 0))
            && (forall i, j :: 0 <= i < j < |sent| ==> !(sent[i].Uploaded? && sent[j].Uploaded?))
            && (Uploaded in sent <==> exists s :: s in stream && !s.condition.Shutdown? && s.reachable)
  {
    AnnouncesOnce(Live(stream));
    if stream != [] {
      LiveKeeps(stream, 0);
    }
    var live := Live(stream);
    assert live != [] ==> live[0] in live;
  }

  lemma AnnouncesOnce(live: seq<ServiceStatus>)
    ensures var sent := Announcements(live);
            && (sent != [] <==> live != [])
            && (forall i :: 0 <= i < |sent| ==> (sent[i].Upload? <==> i == 0))
            && (forall i, j :: 0 <= i < j < |sent| ==> !(sent[i].Uploaded? && sent[j].Uploaded?))
            && ((exists i :: 0 <= i < |sent| && sent[i].Uploaded?) <==>
                exists i :: 0 <= i < |live| && live[i].reachable)
  {
    var k := FirstReachable(live);
    FailuresFail(live[..k]);
    FailuresFail(live[k..]);
    var sent, a, b := Announcements(live), Failures(live[..k]), Failures(live[k..]);
    forall i | 0 <= i < |sent|
      ensures (sent[i].Upload? <==> i == 0) && (sent[i].Uploaded? <==> k < |live| && i == 1 + |a|)
    {
      Placed(a, k < |live|, b, i);
    }
    if k < |live| {
      assert sent[1 + |a|].Uploaded?;
    }
  }

  function OnlyFailed(sent: seq<Progress>): seq<Progress>
    decreases |sent|
  {
    if sent == [] then [] else OnlyFailed(Init(sent)) + if Last(sent).Failed? then [Last(sent)] else []
  }

  lemma {:induction false} OnlyFailedConcat(a: seq<Progress>, b: seq<Progress>)
    ensures OnlyFailed(a + b) == OnlyFailed(a) + OnlyFailed(b)
    decreases |b|
  {
    if b == [] {
      assert a + b == a;
    } else {
      assert Init(a + b) == a + Init(b) && Last(a + b) == Last(b);
      OnlyFailedConcat(a, Init(b));
    }
  }

  /** Every `Broken` status is reported as a failure with its own reason, in order, and nothing else is. */
  lemma {:induction false} FailuresReported(live: seq<ServiceStatus>)
    ensures OnlyFailed(Announcements(live)) == Failures(live)
    decreases |live|
  {
    if live != [] {
      var before, s := Init(live), Last(live);
      assert live == before + [s];
      FailuresReported(before);
      AnnounceSnoc(before, s);
      OnlyFailedConcat(Announcements(before), Added(before, s));
      AddedFails(before, s);
    }
  }

  /** The reason given for each failure is the problem Arti names, or "unknown". */
  lemma {:induction false} FailureReasons(live: seq<ServiceStatus>, i: nat)
    requires i < |live| && live[i].condition.Broken?
    ensures var k := |Failures(live[..i])|;
            k < |Failures(live)| &&
            Failures(live)[k] == Failed(match live[i].problem case Some(text) => text case None => "unknown")
    decreases |live|
  {
    if i < |live| - 1 {
      FailureReasons(Init(live), i);
      assert Init(live)[..i] == live[..i];
    } else {
      assert live[..i] == Init(live);
    }
  }

  lemma {:induction false} AddedFails(live: seq<ServiceStatus>, s: ServiceStatus)
    ensures OnlyFailed(Added(live, s)) == if s.condition.Broken? then [Failed(Reason(s))] else []
  {
    var a := if live == [] then [Upload] else [];
    var b := if s.reachable && !Reached(live) then [Uploaded] else [];
    var c := if s.condition.Broken? then [Failed(Reason(s))] else [];
    OnlyFailedConcat(a + b, c);
    OnlyFailedConcat(a, b);
    assert Init([Upload]) == [] && Init([Uploaded]) == [] && Init([Failed(Reason(s))]) == [];
  }

  // ----- The verdict -----

  datatype Verdict = Published | FailedWith(reason: string)

  /** Events that settle the result. */
  function Decision(p: Progress): Option<Verdict> {
    match p
    case Uploaded => Some(Published)
    case Failed(reason) => Some(FailedWith(reason))
    case _ => None
  }

  function FirstDecision(events: seq<Progress>): Option<Verdict>
    decreases |events|
  {
    if events == [] then None
    else if FirstDecision(Init(events)).Some? then FirstDecision(Init(events))
    else Decision(Last(events))
  }

  lemma {:induction false} FirstDecisionConcat(a: seq<Progress>, b: seq<Progress>)
    ensures FirstDecision(a + b) == if FirstDecision(a).Some? then FirstDecision(a) else FirstDecision(b)
    decreases |b|
  {
    if b == [] {
      assert a + b == a;
    } else {
      assert Init(a + b) == a + Init(b) && Last(a + b) == Last(b);
      FirstDecisionConcat(a, Init(b));
    }
  }

  /** The first status that is reachable or broken. */
  function FirstSettled(live: seq<ServiceStatus>): (k: nat)
    ensures k <= |live|
    ensures forall i :: 0 <= i < k ==> !live[i].reachable && !live[i].condition.Broken?
    ensures k < |live| ==> live[k].reachable || live[k].condition.Broken?
    decreases |live|
  {
    if live == [] then 0
    else
      var k := FirstSettled(Init(live));
      if k < |live| - 1 || Last(live).reachable || Last(live).condition.Broken? then k else |live|
  }

  function Settled(live: seq<ServiceStatus>): Option<Verdict> {
    var k := FirstSettled(live);
    if k == |live| then None
    else if live[k].reachable then Some(Published)
    else Some(FailedWith(Reason(live[k])))
  }

  lemma {:induction false} FirstSettledSnoc(live: seq<ServiceStatus>, s: ServiceStatus)
    ensures Settled(live + [s]) ==
            if Settled(live).Some? then Settled(live)
            else if s.reachable then Some(Published)
            else if s.condition.Broken? then Some(FailedWith(Reason(s))) else None
  {
  }

  lemma {:induction false} AddedDecides(live: seq<ServiceStatus>, s: ServiceStatus)
    ensures FirstDecision(Added(live, s)) ==
            if s.reachable && FirstReachable(live) == |live| then Some(Published)
            else if s.condition.Broken? then Some(FailedWith(Reason(s))) else None
  {
    var a := if live == [] then [Upload] else [];
    var b := if s.reachable && FirstReachable(live) == |live| then [Uploaded] else [];
    var c := if s.condition.Broken? then [Failed(Reason(s))] else [];
    FirstDecisionConcat(a + b, c);
    FirstDecisionConcat(a, b);
    assert Init([Upload]) == [] && Init([Uploaded]) == [] && Init([Failed(Reason(s))]) == [];
  }

  lemma UnsettledUnreachable(live: seq<ServiceStatus>)
    requires Settled(live).None?
    ensures FirstReachable(live) == |live|
  {
  }

  /** From Arti's status stream to the verdict: the first status that is reachable or broken decides,
      and one that is both counts as published. */
  lemma {:induction false} VerdictOfStream(live: seq<ServiceStatus>)
    ensures FirstDecision(Announcements(live)) == Settled(live)
    decreases |live|
  {
    if live != [] {
      var before, s := Init(live), Last(live);
      assert live == before + [s];
      VerdictOfStream(before);
      AnnounceSnoc(before, s);
      FirstDecisionConcat(Announcements(before), Added(before, s));
      AddedDecides(before, s);
      FirstSettledSnoc(before, s);
      if Settled(before).None? {
        UnsettledUnreachable(before);
      }
    }
  }

  // ----- The service object -----

  /** `OnionService`, as far as publication and teardown go. */
  class OnionService {
    const id: string
    var publishOnce: bool
    var publishErr: Option<string>
    var publishClosed: bool
    var closeOnce: bool
    var localOpen: bool
    // history: the events handled, and whether a channel or the listener was closed twice
    var handled: seq<Progress>
    var closedTwice: bool

    /** What `WaitPublished` reports, once `published` is closed. */
    ghost function Result(): Option<Verdict>
      reads this
    {
      if !publishClosed then None
      else if publishErr.Some? then Some(FailedWith(publishErr.value))
      else Some(Published)
    }

    /** The result is the first decision handled, and everything is closed at most once. */
    ghost predicate Valid()
      reads this
    {
      && publishOnce == publishClosed
      && (!publishOnce ==> publishErr.None?)
      && Result() == FirstDecision(handled)
      && localOpen == !closeOnce
      && !closedTwice
    }

    constructor (id: string)
      ensures Valid() && this.id == id && handled == [] && !publishClosed && localOpen
    {
      this.id := id;
      publishOnce, publishErr, publishClosed := false, None, false;
      closeOnce, localOpen := false, true;
      handled, closedTwice := [], false;
    }

    /** `close(s.published)`. */
    method ClosePublished()
      modifies this`publishClosed, this`closedTwice
      ensures publishClosed && closedTwice == (old(closedTwice) || old(publishClosed))
    {
      closedTwice := closedTwice || publishClosed;
      publishClosed := true;
    }

    /** `handleDescEvent`: the first decision settles the result, everything later leaves it alone. */
    method HandleDescEvent(ev: Progress)
      requires Valid()
      modifies this
      ensures Valid() && handled == old(handled) + [ev]
      ensures Result() == if old(Result()).Some? then old(Result()) else Decision(ev)
      ensures closeOnce == old(closeOnce) && localOpen == old(localOpen)
    {
      assert Init(handled + [ev]) == handled;
      handled := handled + [ev];
      match ev {
        case Uploaded =>
          if !publishOnce {
            publishOnce := true;
            ClosePublished();
          }
        case Failed(reason) =>
          if !publishOnce {
            publishOnce := true;
            publishErr := Some(reason);
            ClosePublished();
          }
        case _ =>
      }
    }

    /** `local.Close()`. */
    method CloseListener()
      modifies this`localOpen, this`closedTwice
      ensures !localOpen && closedTwice == (old(closedTwice) || !old(localOpen))
    {
      closedTwice := closedTwice || !localOpen;
      localOpen := false;
    }

    /** `closeLocal`: shares its guard with `Close`, so only the first of the two does anything. */
    method CloseLocal()
      requires Valid()
      modifies this
      ensures Valid() && !localOpen && handled == old(handled) && Result() == old(Result())
    {
      if !closeOnce {
        closeOnce := true;
        CloseListener();
      }
    }
  }

  /** The part of `Client` that services are registered with. */
  class Registry {
    var onions: map<string, OnionService>
    // history: the ids the backend was told to unpublish
    var unpublished: seq<string>

    constructor ()
      ensures onions == map[] && unpublished == []
    {
      onions, unpublished := map[], [];
    }

    /** `pending[svc.id] = svc`. */
    method Register(svc: OnionService)
      modifies this
      ensures onions == old(onions)[svc.id := svc] && unpublished == old(unpublished)
    {
      onions := onions[svc.id := svc];
    }

    /** The `hs_desc` arm of `pumpEvents`: an event for an address nobody has registered is dropped. */
    method Dispatch(address: string, ev: Progress)
      requires forall a :: a in onions ==> onions[a].Valid()
      modifies if address in onions then {onions[address]} else {}
      ensures forall a :: a in onions ==> onions[a].Valid()
      ensures address in onions ==> onions[address].handled == old(onions[address].handled) + [ev]
    {
      if address in onions {
        onions[address].HandleDescEvent(ev);
      }
    }

    /** `OnionService.Close`: unregister, unpublish, then stop listening, once. */
    method CloseService(svc: OnionService)
      requires svc.Valid()
      modifies this, svc
      ensures svc.Valid() && !svc.localOpen && svc.handled == old(svc.handled) && svc.Result() == old(svc.Result())
      ensures old(svc.closeOnce) ==> onions == old(onions) && unpublished == old(unpublished)
      ensures !old(svc.closeOnce) ==> onions == old(onions) - {svc.id} && unpublished == old(unpublished) + [svc.id]
    {
      if !svc.closeOnce {
        svc.closeOnce := true;
        onions := onions - {svc.id};
        unpublished := unpublished + [svc.id];
        svc.CloseListener();
      }
    }
  }
}
