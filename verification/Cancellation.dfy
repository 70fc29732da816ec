/**
 A Create whose context is cancelled at any moment. Calls that go through the context then
 fail; the deferred cleanup has a context of its own. Create is rolled back exactly unless
 the cancellation falls between making the network or the sidecar and checking it.
 */
module Cancellation {
  import opened Names
  import opened Engine
  import opened Sandbox
  import opened Provision
  import opened Runs
  import opened Rollback
  import opened Preservation

  // ----- calls under a context -----

  /** Engine calls before the cleanup go through the caller's context; checks of host files do not. */
  predicate Bound(t: Thread, ev: Event)
    requires t.Creating?
  {
    !RollPhase(t.pc) && !ev.call.Check?
  }

  /** A healthy engine that is reached: removing and inspecting volumes fail only for cause. */
  ghost predicate Healthy(st: State, ev: Event) {
    Honest(st, ev) && (ev.call.InspectVol? && !ev.ok ==> ev.call.seenVol !in st.volumes)
  }

  ghost predicate Answered(st: State, t: Thread, ev: Event, cancelled: bool)
    requires t.Creating?
  {
    if cancelled && Bound(t, ev) then !ev.ok else Healthy(st, ev)
  }

  /** Inside ensureNetwork with an unchecked network, or inside createProxySidecar with a sidecar. */
  predicate Exposed(t: Thread)
    requires t.Creating?
  {
    t.pc == NetCheck || t.pc == NetUndo || ProxyKnown(t.pc)
  }

  /** A CA or SSH volume that is about to be made is not there. */
  ghost predicate Vacant(n: string, st: State, t: Thread)
    requires t.Creating?
  {
    (t.pc == CaMake ==> CaVolume(n) !in st.volumes) && (t.pc == SshMake ==> SshVolume(n) !in st.volumes)
  }

  /** Where volumes are made, and how Create gets there. */
  lemma VolumeCalls(cfg: Config, t: Thread, ev: Event)
    requires t.Creating? && NextCreate(cfg, t, ev).Some?
    ensures ev.call.CreateVol? ==>
              && !RollPhase(t.pc)
              && ((t.pc == CaMake && ev.call.newVol == CaVolume(t.plan.name)) || (t.pc == SshMake && ev.call.newVol == SshVolume(t.plan.name))
                  || (t.pc == DataMake && ev.call.newVol == DataVolume(t.plan.name)))
    ensures var t' := NextCreate(cfg, t, ev).value;
            && t'.Creating?
            && (t'.pc == CaMake ==> ev == Event(InspectVol(CaVolume(t.plan.name)), false))
            && (t'.pc == SshMake ==> ev == Event(InspectVol(SshVolume(t.plan.name)), false))
  {
    NextKeepsPlan(cfg, t, ev);
    if NetworkPhase(t.pc) {
      NetworkCallsNoVolume(cfg, t, ev);
    }
  }

  lemma NetworkCallsNoVolume(cfg: Config, t: Thread, ev: Event)
    requires t.Creating? && NetworkPhase(t.pc) && NextNetwork(cfg, t, ev).Some?
    ensures !ev.call.CreateVol? && NextNetwork(cfg, t, ev).value.Creating?
    ensures NextNetwork(cfg, t, ev).value.pc != CaMake && NextNetwork(cfg, t, ev).value.pc != SshMake
  {
  }

  /** While the context lives, answers of a healthy engine are all that rollback needs. */
  lemma LiveStep(cfg: Config, n: string, st: State, t: Thread, ev: Event)
    requires t.Creating? && t.plan.name == n && NextCreate(cfg, t, ev).Some? && Vacant(n, st, t) && Healthy(st, ev)
    ensures Honest(st, ev) && NotTaken(n, st, ev)
    ensures NextCreate(cfg, t, ev).value.Creating? && Vacant(n, Effect(st, ev), NextCreate(cfg, t, ev).value)
  {
    VolumeCalls(cfg, t, ev);
  }

  /** What a cancelled Create can still call before its cleanup, and where it gets. */
  lemma CancelledCalls(cfg: Config, t: Thread, ev: Event)
    requires t.Creating? && NextCreate(cfg, t, ev).Some? && !Exposed(t) && (Bound(t, ev) ==> !ev.ok)
    ensures NextCreate(cfg, t, ev).value.Creating? && !Exposed(NextCreate(cfg, t, ev).value)
    ensures !RollPhase(t.pc) ==>
              !ev.call.RemoveNet? && !ev.call.RemoveVol? && !ev.call.RemoveId? && !ev.call.RemoveName? && !ev.call.InspectCtr?
  {
    NextKeepsPlan(cfg, t, ev);
    if NetworkPhase(t.pc) {
      CancelledNetworkCalls(cfg, t, ev);
    }
  }

  lemma CancelledNetworkCalls(cfg: Config, t: Thread, ev: Event)
    requires t.Creating? && NetworkPhase(t.pc) && NextNetwork(cfg, t, ev).Some? && !Exposed(t) && (Bound(t, ev) ==> !ev.ok)
    ensures NextNetwork(cfg, t, ev).value.Creating? && !Exposed(NextNetwork(cfg, t, ev).value)
    ensures !ev.call.RemoveNet? && !ev.call.RemoveVol? && !ev.call.RemoveId? && !ev.call.RemoveName? && !ev.call.InspectCtr?
  {
  }

  /** After a cancellation at a safe moment, too. */
  lemma CancelledStep(cfg: Config, n: string, st: State, t: Thread, ev: Event)
    requires t.Creating? && NextCreate(cfg, t, ev).Some? && !Exposed(t) && Answered(st, t, ev, true)
    ensures Honest(st, ev) && NotTaken(n, st, ev)
    ensures NextCreate(cfg, t, ev).value.Creating? && !Exposed(NextCreate(cfg, t, ev).value)
  {
    CancelledCalls(cfg, t, ev);
    VolumeCalls(cfg, t, ev);
  }

  // ----- after a cancellation at an exposed moment -----

  /** The network that Create made and could not check stays. */
  ghost predicate NetworkLeaks(cfg: Config, n: string, st: State, t: Thread)
    requires t.Creating?
  {
    && (t.pc == NetCheck || t.pc == NetUndo || t.pc == Failed)
    && t.before.networks == map[] && Net(cfg, n) in st.networks
  }

  /** The sidecar that Create made stays. */
  ghost predicate SidecarStays(n: string, st: State, t: Thread)
    requires t.Creating?
  {
    && (ProxyKnown(t.pc) || t.pc == RollVolume || t.pc == RollNetwork || t.pc == Failed) && !t.proxyMade
    && t.proxyId in st.containers && st.containers[t.proxyId].name == ProxyName(n) && t.proxyId !in t.before.containers
  }

  ghost predicate Leaks(cfg: Config, n: string, st: State, t: Thread) {
    t.Creating? && t.plan.name == n && (NetworkLeaks(cfg, n, st, t) || SidecarStays(n, st, t))
  }

  lemma ExposedLeaks(cfg: Config, n: string, st: State, t: Thread)
    requires t.Creating? && t.plan.name == n && Exposed(t) && Tracks(cfg, n, st, t)
    ensures Leaks(cfg, n, st, t)
  {
    if ProxyKnown(t.pc) {
      assert t.proxyId !in CtrsOf(n, st.containers) - {t.proxyId};
    }
  }

  lemma NetworkLeaksOn(cfg: Config, n: string, st: State, t: Thread, ev: Event)
    requires t.Creating? && NextCreate(cfg, t, ev).Some? && NetworkLeaks(cfg, n, st, t) && Answered(st, t, ev, true)
    ensures NextCreate(cfg, t, ev).value.Creating? && NetworkLeaks(cfg, n, Effect(st, ev), NextCreate(cfg, t, ev).value)
  {
  }

  lemma SidecarStaysOn(cfg: Config, n: string, st: State, t: Thread, ev: Event)
    requires t.Creating? && NextCreate(cfg, t, ev).Some? && SidecarStays(n, st, t) && Answered(st, t, ev, true)
    ensures NextCreate(cfg, t, ev).value.Creating? && SidecarStays(n, Effect(st, ev), NextCreate(cfg, t, ev).value)
  {
    NextKeepsPlan(cfg, t, ev);
    if ProxyPhase(t.pc) {
      assert Effect(st, ev) == st;
    } else {
      assert Effect(st, ev).containers == st.containers;
    }
  }

  lemma LeaksOn(cfg: Config, n: string, st: State, t: Thread, ev: Event)
    requires Leaks(cfg, n, st, t) && NextCreate(cfg, t, ev).Some? && Answered(st, t, ev, true)
    ensures Leaks(cfg, n, Effect(st, ev), NextCreate(cfg, t, ev).value)
  {
    NextKeepsPlan(cfg, t, ev);
    if NetworkLeaks(cfg, n, st, t) {
      NetworkLeaksOn(cfg, n, st, t, ev);
    } else {
      SidecarStaysOn(cfg, n, st, t, ev);
    }
  }

  lemma LeaksBesideOthers(cfg: Config, n: string, m: string, st: State, t: Thread, ev: Event)
    requires Leaks(cfg, n, st, t) && Apart(m, n) && WellFormed(st) && Possible(st, ev) && Touching(cfg, m, st, ev)
    ensures Leaks(cfg, n, Effect(st, ev), t)
  {
    TouchingLeavesOthers(cfg, m, n, st, ev);
    var st' := Effect(st, ev);
    if NetworkLeaks(cfg, n, st, t) {
      assert Net(cfg, n) in NetsOf(cfg, n, st.networks);
      assert Net(cfg, n) in NetsOf(cfg, n, st'.networks);
    } else {
      assert t.proxyId in CtrsOf(n, st.containers);
      assert t.proxyId in CtrsOf(n, st'.containers) && CtrsOf(n, st'.containers)[t.proxyId] == CtrsOf(n, st.containers)[t.proxyId];
    }
  }

  lemma LeaksIsNotRestored(cfg: Config, n: string, st: State, t: Thread)
    requires Leaks(cfg, n, st, t)
    ensures t.pc != Made && !Restored(cfg, n, st, t.before, t.plan.persist)
  {
    if NetworkLeaks(cfg, n, st, t) {
      assert Net(cfg, n) in NetsOf(cfg, n, st.networks);
    } else {
      assert t.proxyId in CtrsOf(n, st.containers);
    }
  }

  // ----- whole runs -----

  /**
   Sandbox n's calls in the run are those of one Create whose context is cancelled after
   the first k steps of the run; with k beyond its end it is never cancelled.
   */
  ghost predicate UnderContext(cfg: Config, n: string, s: Sys, acts: seq<Act>, k: int)
    requires IsRun(cfg, s, acts)
    decreases |acts|
  {
    acts != [] ==>
      && (acts[0].who == n ==> acts[0].Call? && s.threads[n].Creating? && Answered(s.st, s.threads[n], acts[0].ev, k <= 0))
      && UnderContext(cfg, n, After(cfg, s, acts[0]), acts[1..], k - 1)
  }

  /** One step of n or of another sandbox, with the Create still running under its context. */
  lemma StepUnderContext(cfg: Config, s: Sys, act: Act, n: string, cancelled: bool)
    requires Inv(cfg, s) && Enabled(cfg, s, act) && n in s.threads && s.threads[n].Creating?
    requires act.who == n ==> act.Call? && Answered(s.st, s.threads[n], act.ev, cancelled)
    requires if cancelled then !Exposed(s.threads[n]) else Vacant(n, s.st, s.threads[n])
    ensures var s' := After(cfg, s, act);
            && n in s'.threads && s'.threads[n].Creating?
            && (if cancelled then !Exposed(s'.threads[n]) else Vacant(n, s'.st, s'.threads[n]))
            && (act.who == n ==> Honest(s.st, act.ev) && NotTaken(n, s.st, act.ev))
  {
    if act.who == n {
      if cancelled {
        CancelledStep(cfg, n, s.st, s.threads[n], act.ev);
      } else {
        LiveStep(cfg, n, s.st, s.threads[n], act.ev);
      }
    } else {
      StepLeavesOthers(cfg, s, act, n);
      VacantIsInView(cfg, n, s.st, After(cfg, s, act).st, s.threads[n]);
    }
  }

  lemma VacantIsInView(cfg: Config, n: string, st: State, st': State, t: Thread)
    requires t.Creating? && ViewOf(cfg, n, st') == ViewOf(cfg, n, st)
    ensures Vacant(n, st, t) ==> Vacant(n, st', t)
  {
    assert forall v :: v in Vols(n) ==> (v in st.volumes <==> v in ViewOf(cfg, n, st).volumes);
    assert forall v :: v in Vols(n) ==> (v in st'.volumes <==> v in ViewOf(cfg, n, st').volumes);
  }

  /** Under a live context the calls are all that rollback asks for. */
  lemma {:induction false} LiveIsHonest(cfg: Config, s: Sys, acts: seq<Act>, n: string, k: int)
    requires Inv(cfg, s) && IsRun(cfg, s, acts) && UnderContext(cfg, n, s, acts, k) && k > |acts|
    requires n in s.threads && s.threads[n].Creating? && Vacant(n, s.st, s.threads[n])
    ensures HonestFor(cfg, n, s, acts) && n in End(cfg, s, acts).threads && End(cfg, s, acts).threads[n].Creating?
    decreases |acts|
  {
    if acts != [] {
      InvStep(cfg, s, acts[0]);
      StepUnderContext(cfg, s, acts[0], n, false);
      LiveIsHonest(cfg, After(cfg, s, acts[0]), acts[1..], n, k - 1);
    }
  }

  /** And so they are after a cancellation that found nothing exposed. */
  lemma {:induction false} CancelledIsHonest(cfg: Config, s: Sys, acts: seq<Act>, n: string, k: int)
    requires Inv(cfg, s) && IsRun(cfg, s, acts) && UnderContext(cfg, n, s, acts, k) && k <= 0
    requires n in s.threads && s.threads[n].Creating? && !Exposed(s.threads[n])
    ensures HonestFor(cfg, n, s, acts) && n in End(cfg, s, acts).threads && End(cfg, s, acts).threads[n].Creating?
    decreases |acts|
  {
    if acts != [] {
      InvStep(cfg, s, acts[0]);
      StepUnderContext(cfg, s, acts[0], n, true);
      CancelledIsHonest(cfg, After(cfg, s, acts[0]), acts[1..], n, k - 1);
    }
  }

  /** Whenever cancelled, Create takes no volume for its own that was there. */
  lemma {:induction false} ContextTakesNothing(cfg: Config, s: Sys, acts: seq<Act>, n: string, k: int)
    requires Inv(cfg, s) && IsRun(cfg, s, acts) && UnderContext(cfg, n, s, acts, k)
    requires n in s.threads && s.threads[n].Creating? && (k > 0 ==> Vacant(n, s.st, s.threads[n]))
    ensures TakesNothing(cfg, n, s, acts)
    decreases |acts|
  {
    if acts != [] {
      var act := acts[0];
      InvStep(cfg, s, act);
      if k > 0 {
        StepUnderContext(cfg, s, act, n, false);
      } else if act.who == n {
        VolumeCalls(cfg, s.threads[n], act.ev);
      }
      ContextTakesNothing(cfg, After(cfg, s, act), acts[1..], n, k - 1);
    }
  }

  lemma {:induction false} LeaksToTheEnd(cfg: Config, s: Sys, acts: seq<Act>, n: string, k: int)
    requires Inv(cfg, s) && IsRun(cfg, s, acts) && UnderContext(cfg, n, s, acts, k) && k <= 0
    requires n in s.threads && Leaks(cfg, n, s.st, s.threads[n])
    ensures n in End(cfg, s, acts).threads && Leaks(cfg, n, End(cfg, s, acts).st, End(cfg, s, acts).threads[n])
    decreases |acts|
  {
    if acts != [] {
      var act := acts[0];
      InvStep(cfg, s, act);
      if act.who == n {
        LeaksOn(cfg, n, s.st, s.threads[n], act.ev);
      } else if act.Call? {
        StepTouchesOwn(cfg, act.who, s.st, s.threads[act.who], act.ev);
        LeaksBesideOthers(cfg, n, act.who, s.st, s.threads[n], act.ev);
      }
      LeaksToTheEnd(cfg, After(cfg, s, act), acts[1..], n, k - 1);
    }
  }

  // ----- a run up to the cancellation, and from there -----

  lemma HeadAndTail(acts: seq<Act>, k: nat)
    requires 0 < k <= |acts|
    ensures acts[..k] != [] && acts[..k][0] == acts[0] && acts[..k][1..] == acts[1..][..k - 1] && acts[k..] == acts[1..][k - 1..]
  {
  }

  lemma {:induction false} RunSplits(cfg: Config, s: Sys, acts: seq<Act>, k: nat)
    requires IsRun(cfg, s, acts) && k <= |acts|
    ensures IsRun(cfg, s, acts[..k]) && IsRun(cfg, End(cfg, s, acts[..k]), acts[k..])
    ensures End(cfg, End(cfg, s, acts[..k]), acts[k..]) == End(cfg, s, acts)
    decreases |acts|
  {
    if k == 0 {
      assert acts[..0] == [] && acts[0..] == acts;
    } else {
      HeadAndTail(acts, k);
      RunSplits(cfg, After(cfg, s, acts[0]), acts[1..], k - 1);
    }
  }

  /** Up to the cancellation the context lives; from there on it does not. */
  lemma {:induction false} ContextSplits(cfg: Config, s: Sys, acts: seq<Act>, n: string, k: nat)
    requires IsRun(cfg, s, acts) && UnderContext(cfg, n, s, acts, k) && k <= |acts|
    ensures IsRun(cfg, s, acts[..k]) && UnderContext(cfg, n, s, acts[..k], k + 1)
    ensures IsRun(cfg, End(cfg, s, acts[..k]), acts[k..]) && UnderContext(cfg, n, End(cfg, s, acts[..k]), acts[k..], 0)
    decreases |acts|
  {
    RunSplits(cfg, s, acts, k);
    if k == 0 {
      assert acts[..0] == [] && acts[0..] == acts;
    } else {
      HeadAndTail(acts, k);
      ContextSplits(cfg, After(cfg, s, acts[0]), acts[1..], n, k - 1);
    }
  }

  lemma {:induction false} KeepOffSplits(acts: seq<Act>, n: string, k: nat)
    requires AllKeepOff(n, acts) && k <= |acts|
    ensures AllKeepOff(n, acts[..k]) && AllKeepOff(n, acts[k..])
  {
    if k > 0 {
      HeadAndTail(acts, k);
      KeepOffSplits(acts[1..], n, k - 1);
    } else {
      assert acts[..0] == [] && acts[0..] == acts;
    }
  }

  /** At the cancellation Create is still followed. */
  lemma UpToCancellation(cfg: Config, s: Sys, acts: seq<Act>, n: string, k: nat)
    requires Inv(cfg, s) && IsRun(cfg, s, acts) && AllKeepOff(n, acts) && UnderContext(cfg, n, s, acts, k) && k <= |acts|
    requires n in s.threads && s.threads[n].Creating? && Follows(cfg, n, s.st, s.threads[n]) && Vacant(n, s.st, s.threads[n])
    ensures IsRun(cfg, s, acts[..k])
    ensures var mid := End(cfg, s, acts[..k]);
            && Inv(cfg, mid) && n in mid.threads && mid.threads[n].Creating? && Follows(cfg, n, mid.st, mid.threads[n])
            && IsRun(cfg, mid, acts[k..]) && UnderContext(cfg, n, mid, acts[k..], 0) && AllKeepOff(n, acts[k..])
            && End(cfg, mid, acts[k..]) == End(cfg, s, acts)
  {
    ContextSplits(cfg, s, acts, n, k);
    RunSplits(cfg, s, acts, k);
    KeepOffSplits(acts, n, k);
    LiveIsHonest(cfg, s, acts[..k], n, k + 1);
    FailedCreateIsUndone(cfg, s, acts[..k], n);
    RunsKeepInv(cfg, s, acts[..k]);
  }

  lemma ExposedNow(cfg: Config, s: Sys, acts: seq<Act>, n: string)
    requires Inv(cfg, s) && IsRun(cfg, s, acts) && UnderContext(cfg, n, s, acts, 0)
    requires n in s.threads && s.threads[n].Creating? && Exposed(s.threads[n]) && Follows(cfg, n, s.st, s.threads[n])
    ensures n in End(cfg, s, acts).threads && Leaks(cfg, n, End(cfg, s, acts).st, End(cfg, s, acts).threads[n])
  {
    ExposedLeaks(cfg, n, s.st, s.threads[n]);
    LeaksToTheEnd(cfg, s, acts, n, 0);
  }

  /** Create of n has just begun. */
  ghost predicate Begun(cfg: Config, n: string, s: Sys) {
    n in s.threads && exists req: Request :: req.name == n && s.threads[n] == StartCreate(cfg, req, s.st)
  }

  /** The cancellation, after the first k steps, finds Create at an exposed moment. */
  ghost predicate ExposedAt(cfg: Config, n: string, s: Sys, acts: seq<Act>, k: nat) {
    && k <= |acts| && IsRun(cfg, s, acts[..k])
    && var mid := End(cfg, s, acts[..k]); n in mid.threads && mid.threads[n].Creating? && Exposed(mid.threads[n])
  }

  /** Create of n is there to the end, and has failed with everything put back or left behind. */
  ghost predicate FailsWith(cfg: Config, n: string, s: Sys, restored: bool) {
    && n in s.threads && s.threads[n].Creating?
    && (s.threads[n].pc == Failed ==> (Restored(cfg, n, s.st, s.threads[n].before, s.threads[n].plan.persist) <==> restored))
    && (!restored ==> s.threads[n].pc != Made)
  }

  lemma CancelledNow(cfg: Config, s: Sys, acts: seq<Act>, n: string)
    requires Inv(cfg, s) && IsRun(cfg, s, acts) && UnderContext(cfg, n, s, acts, 0) && AllKeepOff(n, acts)
    requires n in s.threads && s.threads[n].Creating? && Follows(cfg, n, s.st, s.threads[n])
    ensures FailsWith(cfg, n, End(cfg, s, acts), !Exposed(s.threads[n]))
  {
    if Exposed(s.threads[n]) {
      ExposedNow(cfg, s, acts, n);
      LeaksIsNotRestored(cfg, n, End(cfg, s, acts).st, End(cfg, s, acts).threads[n]);
    } else {
      CancelledIsHonest(cfg, s, acts, n, 0);
      FailedCreateIsUndone(cfg, s, acts, n);
    }
  }

  lemma BegunFollows(cfg: Config, n: string, s: Sys)
    requires Begun(cfg, n, s)
    ensures s.threads[n].Creating? && Follows(cfg, n, s.st, s.threads[n]) && Vacant(n, s.st, s.threads[n])
  {
    var req: Request :| req.name == n && s.threads[n] == StartCreate(cfg, req, s.st);
    BeginFollows(cfg, n, s.st, req);
  }

  /**
   Cancellation at any moment of a Create, in any interleaving with other sandboxes that
   mount no volume of n: a failed Create has put everything back, the data volume excepted,
   if and only if the cancellation did not find it at an exposed moment.
   */
  lemma CancellationIsExact(cfg: Config, s: Sys, acts: seq<Act>, n: string, k: nat)
    requires Inv(cfg, s) && Begun(cfg, n, s) && IsRun(cfg, s, acts) && AllKeepOff(n, acts) && UnderContext(cfg, n, s, acts, k)
    ensures FailsWith(cfg, n, End(cfg, s, acts), !ExposedAt(cfg, n, s, acts, k))
  {
    BegunFollows(cfg, n, s);
    if k <= |acts| {
      UpToCancellation(cfg, s, acts, n, k);
      CancelledNow(cfg, End(cfg, s, acts[..k]), acts[k..], n);
    } else {
      LiveIsHonest(cfg, s, acts, n, k);
      FailedCreateIsUndone(cfg, s, acts, n);
    }
  }

  /** Whenever it is cancelled, Create removes nothing that it found. */
  lemma CancelledCreateKeeps(cfg: Config, s: Sys, acts: seq<Act>, n: string, k: nat)
    requires Inv(cfg, s) && Begun(cfg, n, s) && IsRun(cfg, s, acts) && UnderContext(cfg, n, s, acts, k)
    ensures var s' := End(cfg, s, acts); n in s'.threads && StillKeeps(cfg, n, s'.st, s'.threads[n])
  {
    var req: Request :| req.name == n && s.threads[n] == StartCreate(cfg, req, s.st);
    BeginKeeps(cfg, n, s.st, req);
    BegunFollows(cfg, n, s);
    ContextTakesNothing(cfg, s, acts, n, k);
    CreateKeepsWhatItFound(cfg, s, acts, n);
  }
}
