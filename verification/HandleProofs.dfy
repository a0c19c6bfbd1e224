/** What every run of the handle machine keeps. */
module HandleProofs {
  import opened Sequences
  import opened HandleMachine

  // ----- The lock -----

  /** A thread that holds the writers' mutex. */
  ghost predicate IsWriter(th: Thread) { th.Announced? || th.Freeing? }

  ghost predicate LockInv(threads: seq<Thread>, announced: Option<nat>) {
    && (announced.Some? ==> announced.value < |threads| && IsWriter(threads[announced.value]))
    && (forall t :: 0 <= t < |threads| && IsWriter(threads[t]) ==> announced == Some(t))
    && (forall t :: 0 <= t < |threads| && threads[t].Freeing? ==> NoReaders(threads))
    && (forall t :: 0 <= t < |threads| && threads[t].Parked? ==> announced.Some?)
  }

  /** A reader or an idle thread moves on; nobody can become a reader past an announced writer. */
  lemma ThreadMoves(threads: seq<Thread>, announced: Option<nat>, t: nat, th: Thread)
    requires LockInv(threads, announced) && t < |threads|
    requires IsWriter(th) <==> IsWriter(threads[t])
    requires th.Freeing? ==> NoReaders(threads)
    requires IsReader(th) ==> IsReader(threads[t]) || announced.None?
    requires th.Parked? ==> announced.Some?
    ensures LockInv(threads[t := th], announced)
  {
  }

  lemma WriterAnnounces(threads: seq<Thread>, t: nat)
    requires LockInv(threads, None) && t < |threads| && threads[t].Queued?
    ensures LockInv(threads[t := Announced], Some(t))
  {
  }

  lemma WriterLeaves(threads: seq<Thread>, t: nat)
    requires LockInv(threads, Some(t))
    ensures LockInv(Woken(threads[t := Idle]), None)
  {
  }

  lemma LockKept(s: State, a: Action)
    requires LockInv(s.threads, s.announced)
    ensures LockInv(Apply(s, a).threads, Apply(s, a).announced)
  {
    var s' := Apply(s, a);
    match a {
      case Spawn =>
      case Request(t, call) =>
        if t < |s.threads| && s.threads[t].Idle? { ThreadMoves(s.threads, s.announced, t, s'.threads[t]); }
      case RequestFree(t) =>
        if t < |s.threads| && s.threads[t].Idle? { ThreadMoves(s.threads, s.announced, t, Queued); }
      case Announce(t) =>
        if t < |s.threads| && s.threads[t].Queued? && s.announced.None? { WriterAnnounces(s.threads, t); }
      case Step(t, ok, pick) =>
        if t < |s.threads| { StepKeepsLock(s, t, ok, pick); }
    }
  }

  lemma InsideKeepsLock(s: State, t: nat, ok: bool, pick: nat)
    requires t < |s.threads| && s.threads[t].Inside?
    ensures var th := s.threads[t];
            var s' := InsideStep(s, t, th.call, th.stage, th.held, ok, pick);
            && s'.announced == s.announced && |s'.threads| == |s.threads|
            && (s'.threads[t].Idle? || s'.threads[t].Inside?)
            && s'.threads == s.threads[t := s'.threads[t]]
  {
  }

  lemma StepKeepsLock(s: State, t: nat, ok: bool, pick: nat)
    requires LockInv(s.threads, s.announced) && t < |s.threads|
    ensures LockInv(DoStep(s, t, ok, pick).threads, DoStep(s, t, ok, pick).announced)
  {
    var s' := DoStep(s, t, ok, pick);
    match s.threads[t] {
      case Reading(call) => ThreadMoves(s.threads, s.announced, t, s'.threads[t]);
      case Inside(call, stage, held) =>
        InsideKeepsLock(s, t, ok, pick);
        ThreadMoves(s.threads, s.announced, t, s'.threads[t]);
      case Announced =>
        if NoReaders(s.threads) { ThreadMoves(s.threads, s.announced, t, Freeing(Begin, {})); }
      case Freeing(stage, held) =>
        if s'.announced.None? {
          WriterLeaves(s.threads, t);
        } else if s' != s {
          ThreadMoves(s.threads, s.announced, t, s'.threads[t]);
        }
      case _ =>
    }
  }

  // ----- The handle -----

  /** The handle is live for everyone inside it, is freed at most once, and once it is freed the
      exit flag is up and the service map is empty for good. */
  ghost predicate HandleInv(s: State) {
    && (forall t :: 0 <= t < |s.threads| && s.threads[t].Inside? ==> s.handle)
    && (forall t :: 0 <= t < |s.threads| && s.threads[t].Freeing? && s.threads[t].stage != Begin ==>
          s.handle && s.backend.services == map[])
    && s.freed == (if s.handle then 0 else 1)
    && (!s.handle ==> s.backend.exit && s.backend.services == map[])
  }

  lemma InsideKeepsHandle(s: State, t: nat, ok: bool, pick: nat)
    requires HandleInv(s) && LockInv(s.threads, s.announced) && t < |s.threads| && s.threads[t].Inside?
    ensures HandleInv(DoStep(s, t, ok, pick))
  {
    assert IsReader(s.threads[t]);
    assert !NoReaders(s.threads);
    InsideKeepsLock(s, t, ok, pick);
    var s' := DoStep(s, t, ok, pick);
    assert s'.handle == s.handle && s'.freed == s.freed && s.handle;
    assert forall u :: 0 <= u < |s.threads| ==> !s'.threads[u].Freeing?;
  }

  lemma FreeKeepsHandle(s: State, t: nat, pick: nat)
    requires HandleInv(s) && LockInv(s.threads, s.announced) && t < |s.threads| && s.threads[t].Freeing?
    ensures HandleInv(DoStep(s, t, false, pick))
  {
  }

  lemma HandleKept(s: State, a: Action)
    requires HandleInv(s) && LockInv(s.threads, s.announced)
    ensures HandleInv(Apply(s, a))
  {
    match a {
      case Step(t, ok, pick) =>
        if t < |s.threads| {
          if s.threads[t].Inside? {
            InsideKeepsHandle(s, t, ok, pick);
          } else if s.threads[t].Freeing? {
            FreeKeepsHandle(s, t, pick);
          }
        }
      case _ =>
    }
  }
}
