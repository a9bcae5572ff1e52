/** The channels callers hand in to learn that a pod has been torn down: what is closed, when,
    and what is never closed. */
module CompletionChannels {
  import opened PodTypes
  import opened GracePeriod
  import opened WorkerState
  import opened WorkerSystem
  import opened WorkerInvariant
  import opened WorkerProgress
  import opened WorkerSafety
  import opened KillRequests

  // ---------------------------------------------------------------- who awaits what

  /** The channel a request hands in. */
  function Offer(e: Event): Option<CompletedCh> {
    if e.Update? then e.options.Channel() else None
  }

  function Offered(events: seq<Event>, i: nat): set<CompletedCh>
    requires i <= |events|
  {
    set e | e in events[..i] && Offer(e).Some? :: Offer(e).value
  }

  /** Each call brings a channel of its own. */
  ghost predicate FreshOffers(events: seq<Event>) {
    forall i :: 0 <= i < |events| && Offer(events[i]).Some? ==> Offer(events[i]).value !in Offered(events, i)
  }

  predicate Awaits(s: Shared, u: UID, k: nat, c: CompletedCh) {
    u in s.statuses && k < |s.statuses[u].notifyPostTerminating| && s.statuses[u].notifyPostTerminating[k] == c
  }

  /** Closed channels were closed once; awaited ones were offered, are open, and await one
      pod at one place; a pod torn down by its worker awaits nothing. */
  ghost predicate ChannelsFit(s: Shared, offered: set<CompletedCh>) {
    && (forall c :: s.completions[c] <= 1 && (c in s.completions ==> c in offered))
    && (forall u, k, c :: Awaits(s, u, k, c) ==> c in offered && c !in s.completions)
    && (forall u, k, u', k', c :: Awaits(s, u, k, c) && Awaits(s, u', k', c) ==> u == u' && k == k')
    && (forall u :: u in s.statuses && s.statuses[u].terminatedAt && !s.statuses[u].finished ==>
          s.statuses[u].notifyPostTerminating == [])
  }

  /** A step that offers nothing and awaits no more than before. */
  ghost predicate AwaitsLess(s: Shared, s': Shared) {
    && s'.completions == s.completions
    && (forall u :: u in s'.statuses ==>
          && u in s.statuses && s'.statuses[u].notifyPostTerminating == s.statuses[u].notifyPostTerminating
          && (s'.statuses[u].terminatedAt && !s'.statuses[u].finished ==>
                s.statuses[u].terminatedAt && !s.statuses[u].finished))
  }

  lemma AwaitsLessFits(s: Shared, s': Shared, offered: set<CompletedCh>)
    requires ChannelsFit(s, offered) && AwaitsLess(s, s')
    ensures ChannelsFit(s', offered)
  {
    assert forall u, k, c :: Awaits(s', u, k, c) ==> Awaits(s, u, k, c);
  }

  /** completeTerminating closes every awaited channel of its pod and empties the list. */
  ghost predicate ClosesAll(s: Shared, s': Shared, u: UID) {
    && u in s.statuses && u in s'.statuses
    && s'.statuses == s.statuses[u := s'.statuses[u]]
    && s'.statuses[u].notifyPostTerminating == []
    && s'.completions == s.completions + multiset(s.statuses[u].notifyPostTerminating)
  }

  lemma ClosesAllFits(s: Shared, s': Shared, u: UID, offered: set<CompletedCh>)
    requires ChannelsFit(s, offered) && ClosesAll(s, s', u)
    ensures ChannelsFit(s', offered)
  {
    var list := s.statuses[u].notifyPostTerminating;
    assert forall k :: 0 <= k < |list| ==> Awaits(s, u, k, list[k]);
    forall c ensures s'.completions[c] <= 1 && (c in s'.completions ==> c in offered) {
      AtMostOnce(list, c);
      if c in list {
        var k :| 0 <= k < |list| && list[k] == c;
        assert Awaits(s, u, k, c);
      }
    }
    forall v, k, c | Awaits(s', v, k, c) ensures c in offered && c !in s'.completions && Awaits(s, v, k, c) {
      assert v != u && Awaits(s, v, k, c);
      forall l | 0 <= l < |list| ensures list[l] != c {
        assert Awaits(s, u, l, list[l]);
      }
    }
  }

  lemma {:induction false} AtMostOnce(list: seq<CompletedCh>, c: CompletedCh)
    requires forall k, k' :: 0 <= k < k' < |list| ==> list[k] != list[k']
    ensures multiset(list)[c] == if c in list then 1 else 0
  {
    if list != [] {
      assert list == [list[0]] + list[1..];
      AtMostOnce(list[1..], c);
    }
  }

  /** A request joins, or is answered at once, or is dropped. */
  lemma OfferFits(s: Shared, s': Shared, pod: Pod, k: KillPodOptions, fate: Fate, offered: set<CompletedCh>)
    requires ChannelsFit(s, offered) && pod.uid in s.statuses && Effects(s, s', pod, k, fate)
    requires k.completedCh.Some? ==> k.completedCh.value !in offered
    requires fate.Joined? ==> !s.statuses[pod.uid].terminatedAt
    ensures ChannelsFit(s', if k.completedCh.Some? then offered + {k.completedCh.value} else offered)
  {
    var u := pod.uid;
    var list, list' := s.statuses[u].notifyPostTerminating, s'.statuses[u].notifyPostTerminating;
    var offered' := if k.completedCh.Some? then offered + {k.completedCh.value} else offered;
    forall v: UID, i: nat, c: CompletedCh | Awaits(s', v, i, c)
      ensures c in offered' && c !in s'.completions
      ensures Awaits(s, v, i, c) || (v == u && i == |list| && k.completedCh == Some(c))
    {
      if v == u && i < |list| {
        assert Awaits(s, v, i, c);
      } else if v != u {
        assert Awaits(s, v, i, c);
      }
    }
  }

  // ---------------------------------------------------------------- the steps

  lemma CompleteAwaits(s: System, w: nat)
    requires Inv(s) && Enabled(s, Complete(w))
    ensures var s' := Apply(s, Complete(w));
            if TerminatesSuccessfully(s, Complete(w), w) && !s.workers[w].phase.work.runtime
            then ClosesAll(s.sh, s'.sh, s.workers[w].uid)
            else AwaitsLess(s.sh, s'.sh)
  {
    LiveWorker(s, w);
    var u := s.workers[w].uid;
    var Returned(work, _, outcome) := s.workers[w].phase;
    if outcome.Done? && work.workType.TerminatedPodWork? {
      CleanupEffect(s.sh, u);
      FinishAwaits(CleanupPodUpdates(s.sh, u), u, s.sh.statuses[u].terminatedAt, false);
    } else if outcome.Done? && work.workType.TerminatingPodWork? && work.runtime {
      FinishAwaits(s.sh, u, true, false);
      CleanupEffect(Finish(s.sh, u, true, false), u);
    }
  }

  lemma FinishAwaits(s: Shared, u: UID, terminatedAt: bool, suspicious: bool)
    requires u in s.statuses
    ensures AwaitsLess(s, Finish(s, u, terminatedAt, suspicious))
  {
  }

  lemma GiveUpAwaits(s: System, w: nat)
    requires Inv(s) && Enabled(s, GiveUp(w))
    ensures AwaitsLess(s.sh, Apply(s, GiveUp(w)).sh)
  {
    LiveWorker(s, w);
    var u := s.workers[w].uid;
    CleanupEffect(s.sh, u);
    FinishAwaits(CleanupPodUpdates(s.sh, u), u, true, false);
  }

  lemma TryStartAwaits(s: System, w: nat)
    requires Inv(s) && Enabled(s, TryStart(w))
    ensures AwaitsLess(s.sh, Apply(s, TryStart(w)).sh)
  {
    LiveWorker(s, w);
    AllowPodStartFrame(s.sh, s.workers[w].phase.work.pod);
  }

  lemma ContextAwaits(s: Shared, u: UID)
    ensures AwaitsLess(s, ContextForWorker(s, u).0)
  {
    if u in s.statuses {
      ContextFrame(s, u);
      hide ContextForWorker;
    }
  }

  lemma AcknowledgeAwaits(s: Shared, u: UID)
    ensures AwaitsLess(s, AcknowledgeTerminating(s, u).0)
  {
  }

  lemma NextAwaits(s: Shared, u: UID)
    ensures AwaitsLess(s, CompleteWorkQueueNext(s, u))
  {
    hide Send, AwaitsLess;
    if u in s.lastUndelivered {
      SendEffect(s, u, s.lastUndelivered[u]);
      SameListsAwait(s, CompleteWorkQueueNext(s, u));
    } else if u in s.statuses {
      StopsAwaits(s, u);
    } else {
      SameListsAwait(s, CompleteWorkQueueNext(s, u));
    }
  }

  lemma SameListsAwait(s: Shared, s': Shared)
    requires s'.statuses == s.statuses && s'.completions == s.completions
    ensures AwaitsLess(s, s')
  {
  }

  lemma StopsAwaits(s: Shared, u: UID)
    requires u in s.statuses
    ensures AwaitsLess(s, SetStatus(s, u, s.statuses[u].(working := false)))
  {
  }

  lemma OtherAwaits(s: System, e: Event)
    requires Inv(s) && Enabled(s, e) && IsWorkerEvent(e) && !e.Complete? && !e.GiveUp? && !e.TryStart?
    ensures AwaitsLess(s.sh, Apply(s, e).sh)
  {
    hide Inv, ApplyComplete, CompleteUnstartedTerminated, ApplyTryStart, ContextForWorker, AcknowledgeTerminating,
         CompleteWorkQueueNext;
    match e
    case TakeContext(w) => ContextAwaits(s.sh, s.workers[w].phase.work.pod.uid);
    case Acknowledge(w) => AcknowledgeAwaits(s.sh, s.workers[w].phase.work.pod.uid);
    case Requeue(w) => NextAwaits(s.sh, s.workers[w].phase.pod.uid);
    case _ =>
  }

  lemma SyncKnownAwaits(s: Shared, order: seq<UID>, desired: set<UID>)
    ensures AwaitsLess(s, SyncKnownPods(s, order, desired))
  {
    hide Sweep;
    var s' := SyncKnownPods(s, order, desired);
    forall u | u in s'.statuses ensures u in s.statuses && s'.statuses[u] == s.statuses[u] {
      SyncKnownEffect(s, order, desired, u);
    }
    SyncKnownCompletions(s.(podsSynced := true), order, desired);
  }

  lemma {:induction false} SyncKnownCompletions(s: Shared, order: seq<UID>, desired: set<UID>)
    ensures Sweep(s, order, desired).completions == s.completions
    decreases |order|
  {
    if order != [] {
      hide VisitKnown;
      SyncKnownCompletions(s, order[..|order| - 1], desired);
      VisitCompletions(Sweep(s, order[..|order| - 1], desired), order[|order| - 1], desired);
    }
  }

  lemma VisitCompletions(s: Shared, u: UID, desired: set<UID>)
    ensures VisitKnown(s, u, desired).completions == s.completions
  {
    if u in s.statuses && s.statuses[u].finished {
      CleanupEffect(s.(statuses := s.statuses - {u}), u);
    }
  }

  lemma RegisterFits(s: Shared, pod: Pod, runtime: bool, cacheTerminal: bool, offered: set<CompletedCh>)
    requires ChannelsFit(s, offered)
    ensures ChannelsFit(Register(s, pod, runtime, cacheTerminal), offered)
  {
    var s' := Register(s, pod, runtime, cacheTerminal);
    if pod.uid !in s.statuses {
      forall u: UID, k: nat, c: CompletedCh ensures Awaits(s', u, k, c) <==> Awaits(s, u, k, c) {
        if u == pod.uid { assert s'.statuses[u].notifyPostTerminating == []; }
      }
      assert s'.completions == s.completions;
    }
  }

  lemma UpdateFits(s: System, o: UpdatePodOptions, cacheTerminal: bool, offered: set<CompletedCh>)
    requires Inv(s) && o.WellFormed() && ChannelsFit(s.sh, offered)
    requires o.Channel().Some? ==> o.Channel().value !in offered
    ensures ChannelsFit(UpdatePod(s.sh, o, cacheTerminal),
                        if o.Channel().Some? then offered + {o.Channel().value} else offered)
  {
    hide Admit, ChannelsFit;
    var offered' := if o.Channel().Some? then offered + {o.Channel().value} else offered;
    if o.IsRuntime() && !o.updateType.SyncPodKill? {
      MoreOffered(s.sh, offered, offered');
    } else {
      var pod, s1 := o.Target(), Register(s.sh, o.Target(), o.IsRuntime(), cacheTerminal);
      RegisterFits(s.sh, pod, o.IsRuntime(), cacheTerminal, offered);
      AdmitRegistered(s.sh, pod, o.IsRuntime(), o.updateType, o.kill, cacheTerminal);
      assert s1.statuses[pod.uid].terminatedAt ==> s1.statuses[pod.uid].terminatingAt by {
        assert PodFits(pod.uid, ViewOf(s, pod.uid));
      }
      AdmitEffects(s1, pod, o.IsRuntime(), o.updateType, o.kill);
      OfferFits(s1, Admit(s1, pod, o.IsRuntime(), o.updateType, o.kill, false), pod, KillOf(o.kill),
                FateOf(s1.statuses[pod.uid], pod, o.IsRuntime(), o.updateType, o.kill), offered);
    }
  }

  lemma MoreOffered(s: Shared, offered: set<CompletedCh>, offered': set<CompletedCh>)
    requires ChannelsFit(s, offered) && offered <= offered'
    ensures ChannelsFit(s, offered')
  {
  }

  lemma StepFits(s: System, e: Event, s': System, offered: set<CompletedCh>)
    requires Inv(s) && Next(s, e, s') && ChannelsFit(s.sh, offered)
    requires Offer(e).Some? ==> Offer(e).value !in offered
    ensures ChannelsFit(s'.sh, if Offer(e).Some? then offered + {Offer(e).value} else offered)
  {
    hide Inv, ChannelsFit, AwaitsLess, ClosesAll, UpdatePod, SyncKnownPods, ApplyComplete, ApplyTryStart,
         ApplyTakeContext, ApplyReceive, CompleteWorkQueueNext, CompleteUnstartedTerminated, AcknowledgeTerminating;
    if e.Update? {
      UpdateFits(s, e.options, e.cacheTerminal, offered);
    } else if e.Complete? && TerminatesSuccessfully(s, e, e.w) && !s.workers[e.w].phase.work.runtime {
      CompleteAwaits(s, e.w);
      ClosesAllFits(s.sh, s'.sh, s.workers[e.w].uid, offered);
    } else {
      if e.SyncKnown? { SyncKnownAwaits(s.sh, e.order, e.desired); }
      else if e.Complete? { CompleteAwaits(s, e.w); }
      else if e.GiveUp? { GiveUpAwaits(s, e.w); }
      else if e.TryStart? { TryStartAwaits(s, e.w); }
      else { OtherAwaits(s, e); }
      AwaitsLessFits(s.sh, s'.sh, offered);
    }
  }

  // ---------------------------------------------------------------- over runs

  lemma {:induction false} RunChannelsFit(tr: seq<System>, events: seq<Event>, i: nat)
    requires IsRun(tr, events) && |tr| == |events| + 1 && i < |tr| && FreshOffers(events)
    ensures ChannelsFit(tr[i].sh, Offered(events, i))
  {
    hide Next, Inv, IsRun, ChannelsFit;
    RunStarts(tr, events);
    if i == 0 {
      StartFits(Offered(events, 0));
    } else {
      RunChannelsFit(tr, events, i - 1);
      RunStep(tr, events, i - 1);
      var e := events[i - 1];
      assert events[..i] == events[..i - 1] + [e];
      assert Offered(events, i) == if Offer(e).Some? then Offered(events, i - 1) + {Offer(e).value} else Offered(events, i - 1);
      StepFits(tr[i - 1], e, tr[i], Offered(events, i - 1));
    }
  }

  lemma StartFits(offered: set<CompletedCh>)
    ensures ChannelsFit(START.sh, offered)
  {
  }

  /** No completion channel is ever closed twice. */
  lemma NeverClosedTwice(tr: seq<System>, events: seq<Event>, i: nat, c: CompletedCh)
    requires IsRun(tr, events) && |tr| == |events| + 1 && i < |tr| && FreshOffers(events)
    ensures tr[i].sh.completions[c] <= 1
    ensures c in tr[i].sh.completions ==> c in Offered(events, i)
  {
    RunChannelsFit(tr, events, i);
  }

  /** A successful teardown closes every channel awaiting it, once, and leaves none behind. */
  lemma TeardownClosesAll(tr: seq<System>, events: seq<Event>, i: nat, w: nat)
    requires IsRun(tr, events) && |tr| == |events| + 1 && i < |events| && FreshOffers(events)
    requires TerminatesSuccessfully(tr[i], events[i], w) && !tr[i].workers[w].phase.work.runtime
    ensures var u := tr[i].workers[w].uid;
            && u in tr[i].sh.statuses && u in tr[i + 1].sh.statuses
            && tr[i + 1].sh.statuses[u].notifyPostTerminating == []
            && forall c :: c in tr[i].sh.statuses[u].notifyPostTerminating ==>
                 c !in tr[i].sh.completions && tr[i + 1].sh.completions[c] == 1
  {
    RunChannelsFit(tr, events, i);
    RunChannelsFit(tr, events, i + 1);
    RunStep(tr, events, i);
    CompleteAwaits(tr[i], w);
    var u := tr[i].workers[w].uid;
    forall c | c in tr[i].sh.statuses[u].notifyPostTerminating
      ensures c !in tr[i].sh.completions && tr[i + 1].sh.completions[c] == 1
    {
      var k :| 0 <= k < |tr[i].sh.statuses[u].notifyPostTerminating| && tr[i].sh.statuses[u].notifyPostTerminating[k] == c;
      assert Awaits(tr[i].sh, u, k, c);
    }
  }

  /** Nothing joins the list of a pod that is known to have terminated. */
  lemma NothingJoinsAfterTermination(s: System, e: Event, s': System, u: UID)
    requires Inv(s) && Next(s, e, s') && u in s.sh.statuses && u in s'.sh.statuses && s.sh.statuses[u].terminatedAt
    ensures s'.sh.statuses[u].notifyPostTerminating in {[], s.sh.statuses[u].notifyPostTerminating}
  {
    hide Admit, SyncKnownPods, ApplyComplete, ApplyTryStart, ApplyTakeContext, ApplyReceive,
         CompleteWorkQueueNext, CompleteUnstartedTerminated, AcknowledgeTerminating;
    if e.Update? {
      UpdateTouches(s.sh, e.options, e.cacheTerminal);
      if e.options.Target().uid == u && !(e.options.IsRuntime() && !e.options.updateType.SyncPodKill?) {
        assert PodFits(u, ViewOf(s, u));
        AdmitRegistered(s.sh, e.options.Target(), e.options.IsRuntime(), e.options.updateType, e.options.kill, e.cacheTerminal);
        AdmitEffects(s.sh, e.options.Target(), e.options.IsRuntime(), e.options.updateType, e.options.kill);
      }
    } else if e.SyncKnown? {
      SyncKnownAwaits(s.sh, e.order, e.desired);
    } else if e.Complete? {
      CompleteAwaits(s, e.w);
    } else if e.GiveUp? {
      GiveUpAwaits(s, e.w);
    } else if e.TryStart? {
      TryStartAwaits(s, e.w);
    } else {
      OtherAwaits(s, e);
    }
  }

  /** The promise that an accepted channel is not left open once the pod cannot have running
      containers: the step that terminates a pod leaves its channels open exactly when it is
      one of the two that finish a pod without a regular teardown. */
  lemma LeftOpenExactly(s: System, e: Event, s': System, u: UID)
    requires Inv(s) && Next(s, e, s')
    requires u in s.sh.statuses && u in s'.sh.statuses
    requires CouldHaveRunningContainers(s.sh, u) && !CouldHaveRunningContainers(s'.sh, u)
    ensures s'.sh.statuses[u].notifyPostTerminating != [] <==>
              s.sh.statuses[u].notifyPostTerminating != []
              && (e.GiveUp? || (e.Complete? && s.workers[e.w].phase.work.runtime))
  {
    hide Admit, SyncKnownPods, ApplyComplete, ApplyTryStart, ApplyTakeContext, ApplyReceive,
         CompleteWorkQueueNext, CompleteUnstartedTerminated, AcknowledgeTerminating;
    if e.Update? {
      KeepsTerminatedAt(s, e.options, e.cacheTerminal, u);
    } else if e.SyncKnown? {
      SyncKnownEffect(s.sh, e.order, e.desired, u);
    } else {
      WorkerTouches(s, e);
      if e.Complete? {
        CompleteAwaits(s, e.w);
        CompleteTerminates(s, e.w);
      } else if e.GiveUp? {
        GiveUpAwaits(s, e.w);
      } else if e.TryStart? {
        LiveWorker(s, e.w);
        TryStartKeeps(s, e.w);
      } else {
        LiveWorker(s, WorkerOf(e));
        OtherKeeps(s, e);
      }
    }
  }

  lemma KeepsTerminatedAt(s: System, o: UpdatePodOptions, cacheTerminal: bool, u: UID)
    requires Inv(s) && o.WellFormed() && u in s.sh.statuses
    ensures u in UpdatePod(s.sh, o, cacheTerminal).statuses
    ensures UpdatePod(s.sh, o, cacheTerminal).statuses[u].terminatedAt == s.sh.statuses[u].terminatedAt
  {
    hide Admit;
    UpdateTouches(s.sh, o, cacheTerminal);
    if o.Target().uid == u && !(o.IsRuntime() && !o.updateType.SyncPodKill?) {
      assert PodFits(u, ViewOf(s, u));
      AdmitRegistered(s.sh, o.Target(), o.IsRuntime(), o.updateType, o.kill, cacheTerminal);
      AdmitEffects(s.sh, o.Target(), o.IsRuntime(), o.updateType, o.kill);
    }
  }

  lemma TryStartKeeps(s: System, w: nat)
    requires Inv(s) && Enabled(s, TryStart(w)) && s.workers[w].uid in s.sh.statuses
    ensures var u, s' := s.workers[w].uid, Apply(s, TryStart(w));
            u in s'.sh.statuses && s'.sh.statuses[u].terminatedAt == s.sh.statuses[u].terminatedAt
  {
    LiveWorker(s, w);
    AllowPodStartFrame(s.sh, s.workers[w].phase.work.pod);
  }

  lemma OtherKeeps(s: System, e: Event)
    requires Inv(s) && Enabled(s, e) && IsWorkerEvent(e) && !e.Complete? && !e.GiveUp? && !e.TryStart?
    requires WorkerOf(e) in s.workers && s.workers[WorkerOf(e)].uid in s.sh.statuses
    ensures var u, s' := s.workers[WorkerOf(e)].uid, Apply(s, e);
            u in s'.sh.statuses && s'.sh.statuses[u].terminatedAt == s.sh.statuses[u].terminatedAt
  {
    hide ApplyComplete, CompleteUnstartedTerminated, ApplyTryStart;
    LiveWorker(s, WorkerOf(e));
  }

  /** Of the completions, only a teardown makes a pod terminated. */
  lemma CompleteTerminates(s: System, w: nat)
    requires Inv(s) && Enabled(s, Complete(w)) && s.workers[w].uid in s.sh.statuses
    requires !s.sh.statuses[s.workers[w].uid].terminatedAt
    requires s.workers[w].uid in Apply(s, Complete(w)).sh.statuses
    requires Apply(s, Complete(w)).sh.statuses[s.workers[w].uid].terminatedAt
    ensures TerminatesSuccessfully(s, Complete(w), w)
  {
    LiveWorker(s, w);
  }

  // ---------------------------------------------------------------- what becomes of one channel

  /** u awaits its teardown, and c with it. */
  predicate AwaitedBy(s: Shared, u: UID, c: CompletedCh) {
    u in s.statuses && !s.statuses[u].terminatedAt && c in s.statuses[u].notifyPostTerminating
  }

  /** c is open and only finished pods still list it, so that nobody will close it. */
  ghost predicate Lost(s: Shared, c: CompletedCh) {
    && c !in s.completions
    && forall v :: v in s.statuses && c in s.statuses[v].notifyPostTerminating ==> s.statuses[v].finished
  }

  /** u's worker completes a regular teardown. */
  predicate TearsDown(s: System, e: Event, u: UID) {
    && e.Complete? && TerminatesSuccessfully(s, e, e.w)
    && !s.workers[e.w].phase.work.runtime && s.workers[e.w].uid == u
  }

  lemma UpdateKeepsClosed(s: System, o: UpdatePodOptions, cacheTerminal: bool, c: CompletedCh)
    requires Inv(s) && o.WellFormed() && c in s.sh.completions
    ensures c in UpdatePod(s.sh, o, cacheTerminal).completions
  {
    hide UpdatePod, Inv;
    if o.IsRuntime() && !o.updateType.SyncPodKill? {
      UpdateIgnored(s.sh, o, cacheTerminal);
    } else {
      UpdateEffects(s, o, cacheTerminal);
    }
  }

  /** All steps but updates and regular teardowns leave lists and completions alone. */
  lemma QuietStep(s: System, e: Event)
    requires Inv(s) && Enabled(s, e) && !e.Update?
    requires e.Complete? ==> !TearsDown(s, e, s.workers[e.w].uid)
    ensures AwaitsLess(s.sh, Apply(s, e).sh)
  {
    hide Inv, AwaitsLess, Apply;
    match e
    case SyncKnown(order, desired) =>
      SyncKnownAwaits(s.sh, order, desired);
      SyncKnownIs(s, order, desired);
    case Complete(w) => CompleteAwaits(s, w);
    case GiveUp(w) => GiveUpAwaits(s, w);
    case TryStart(w) => TryStartAwaits(s, w);
    case _ => OtherAwaits(s, e);
  }

  lemma SyncKnownIs(s: System, order: seq<UID>, desired: set<UID>)
    requires Enabled(s, SyncKnown(order, desired))
    ensures Apply(s, SyncKnown(order, desired)).sh == SyncKnownPods(s.sh, order, desired)
  {
  }

  /** What is closed stays closed. */
  lemma StaysClosed(s: System, e: Event, s': System, c: CompletedCh)
    requires Inv(s) && Next(s, e, s') && c in s.sh.completions
    ensures c in s'.sh.completions
  {
    hide Inv, UpdatePod, SyncKnownPods, ApplyComplete, ApplyTryStart, ApplyTakeContext, ApplyReceive,
         CompleteWorkQueueNext, CompleteUnstartedTerminated, AcknowledgeTerminating;
    if e.Update? {
      UpdateKeepsClosed(s, e.options, e.cacheTerminal, c);
    } else if e.Complete? && TearsDown(s, e, s.workers[e.w].uid) {
      CompleteAwaits(s, e.w);
    } else {
      QuietStep(s, e);
    }
  }

  /** What is lost stays lost, unless it is handed in again. */
  lemma StaysLost(s: System, e: Event, s': System, c: CompletedCh)
    requires Inv(s) && Next(s, e, s') && Lost(s.sh, c) && Offer(e) != Some(c)
    ensures Lost(s'.sh, c)
  {
    forall v | v in s.sh.statuses && v in s'.sh.statuses && s.sh.statuses[v].finished ensures s'.sh.statuses[v].finished {
      StepProgresses(s, e, s', v);
    }
    hide UpdatePod, SyncKnownPods, ApplyComplete, ApplyTryStart, ApplyTakeContext, ApplyReceive,
         CompleteWorkQueueNext, CompleteUnstartedTerminated, AcknowledgeTerminating;
    if e.Update? {
      UpdateStaysLost(s, e.options, e.cacheTerminal, c);
    } else if e.Complete? && TearsDown(s, e, s.workers[e.w].uid) {
      CompleteAwaits(s, e.w);
      LiveIsKnown(s, e.w);
    } else {
      QuietStep(s, e);
    }
  }

  lemma UpdateStaysLost(s: System, o: UpdatePodOptions, cacheTerminal: bool, c: CompletedCh)
    requires Inv(s) && o.WellFormed() && Lost(s.sh, c) && o.Channel() != Some(c)
    ensures Lost(UpdatePod(s.sh, o, cacheTerminal), c)
  {
    hide UpdatePod, Inv, Effects, Lost, Register;
    if o.IsRuntime() && !o.updateType.SyncPodKill? {
      UpdateIgnored(s.sh, o, cacheTerminal);
    } else {
      UpdateEffects(s, o, cacheTerminal);
      hide FateAt;
      var s1 := Register(s.sh, o.Target(), o.IsRuntime(), cacheTerminal);
      RegisterLost(s.sh, o.Target(), o.IsRuntime(), cacheTerminal, c);
      EffectsLost(s1, UpdatePod(s.sh, o, cacheTerminal), o.Target(), KillOf(o.kill), FateAt(s.sh, o, cacheTerminal), c);
    }
  }

  lemma RegisterLost(s: Shared, pod: Pod, runtime: bool, cacheTerminal: bool, c: CompletedCh)
    requires Lost(s, c)
    ensures Lost(Register(s, pod, runtime, cacheTerminal), c)
    ensures pod.uid in Register(s, pod, runtime, cacheTerminal).statuses
  {
  }

  lemma EffectsLost(s: Shared, s': Shared, pod: Pod, k: KillPodOptions, fate: Fate, c: CompletedCh)
    requires pod.uid in s.statuses && Effects(s, s', pod, k, fate) && Lost(s, c) && k.completedCh != Some(c)
    ensures Lost(s', c)
  {
    hide Effective, Shortened;
    var u := pod.uid;
    assert c in s'.statuses[u].notifyPostTerminating ==> c in s.statuses[u].notifyPostTerminating;
    assert c !in s'.completions;
  }

  /** A channel nobody handed in is neither listed nor closed. */
  lemma NotListed(s: Shared, offered: set<CompletedCh>, c: CompletedCh)
    requires ChannelsFit(s, offered) && c !in offered
    ensures Lost(s, c) && forall v :: v in s.statuses ==> c !in s.statuses[v].notifyPostTerminating
  {
    if v :| v in s.statuses && c in s.statuses[v].notifyPostTerminating {
      var k :| 0 <= k < |s.statuses[v].notifyPostTerminating| && s.statuses[v].notifyPostTerminating[k] == c;
      assert !Awaits(s, v, k, c);
    }
  }

  /** A channel that is awaited goes on being awaited, is closed by a regular teardown, or is
      lost when the pod ends in another way. */
  lemma AwaitedStep(s: System, e: Event, s': System, u: UID, c: CompletedCh, offered: set<CompletedCh>)
    requires Inv(s) && Next(s, e, s') && Inv(s') && ChannelsFit(s.sh, offered)
    requires AwaitedBy(s.sh, u, c) && Offer(e) != Some(c)
    ensures if TearsDown(s, e, u) then c in s'.sh.completions && !CouldHaveRunningContainers(s'.sh, u)
            else AwaitedBy(s'.sh, u, c) || (Lost(s'.sh, c) && !CouldHaveRunningContainers(s'.sh, u))
  {
    var k :| 0 <= k < |s.sh.statuses[u].notifyPostTerminating| && s.sh.statuses[u].notifyPostTerminating[k] == c;
    assert Awaits(s.sh, u, k, c);
    forall v | v in s.sh.statuses && c in s.sh.statuses[v].notifyPostTerminating ensures v == u {
      var l :| 0 <= l < |s.sh.statuses[v].notifyPostTerminating| && s.sh.statuses[v].notifyPostTerminating[l] == c;
      assert Awaits(s.sh, v, l, c);
    }
    hide ChannelsFit;
    if e.Update? {
      UpdateAwaits(s, e.options, e.cacheTerminal, u, c);
    } else if e.Complete? && TearsDown(s, e, s.workers[e.w].uid) {
      TeardownAwaits(s, e.w, u, c);
    } else {
      QuietAwaits(s, e, s', u, c);
    }
  }

  lemma UpdateAwaits(s: System, o: UpdatePodOptions, cacheTerminal: bool, u: UID, c: CompletedCh)
    requires Inv(s) && o.WellFormed() && AwaitedBy(s.sh, u, c)
    ensures AwaitedBy(UpdatePod(s.sh, o, cacheTerminal), u, c)
  {
    hide UpdatePod, Inv, Effects, Register, FateAt;
    if o.IsRuntime() && !o.updateType.SyncPodKill? {
      UpdateIgnored(s.sh, o, cacheTerminal);
    } else {
      UpdateEffects(s, o, cacheTerminal);
      RegisterListsNothing(s.sh, o.Target(), o.IsRuntime(), cacheTerminal);
      RegisterKnows(s.sh, o.Target(), o.IsRuntime(), cacheTerminal);
      EffectsAwait(Register(s.sh, o.Target(), o.IsRuntime(), cacheTerminal), UpdatePod(s.sh, o, cacheTerminal),
                   o.Target(), KillOf(o.kill), FateAt(s.sh, o, cacheTerminal), u, c);
    }
  }

  lemma RegisterKnows(s: Shared, pod: Pod, runtime: bool, cacheTerminal: bool)
    ensures var s1 := Register(s, pod, runtime, cacheTerminal); pod.uid in s1.statuses && forall v :: v in s.statuses ==> v in s1.statuses
  {
  }

  lemma EffectsAwait(s: Shared, s': Shared, pod: Pod, k: KillPodOptions, fate: Fate, u: UID, c: CompletedCh)
    requires pod.uid in s.statuses && Effects(s, s', pod, k, fate) && AwaitedBy(s, u, c)
    ensures AwaitedBy(s', u, c)
  {
    hide Effective, Shortened;
  }

  lemma TeardownAwaits(s: System, w: nat, u: UID, c: CompletedCh)
    requires Inv(s) && Enabled(s, Complete(w)) && TearsDown(s, Complete(w), s.workers[w].uid) && AwaitedBy(s.sh, u, c)
    ensures var s' := Apply(s, Complete(w)).sh;
            if s.workers[w].uid == u then c in s'.completions && !CouldHaveRunningContainers(s', u)
            else AwaitedBy(s', u, c)
  {
    CompleteAwaits(s, w);
    LiveIsKnown(s, w);
    CompletionTerminates(s, w);
    hide Inv, Apply;
  }

  lemma CompletionTerminates(s: System, w: nat)
    requires Inv(s) && Enabled(s, Complete(w)) && TearsDown(s, Complete(w), s.workers[w].uid)
    ensures var s' := Apply(s, Complete(w)).sh; s.workers[w].uid in s'.statuses && s'.statuses[s.workers[w].uid].terminatedAt
  {
    LiveWorker(s, w);
    hide Inv, PhaseFits, NumbersFit;
  }

  lemma StaysKnown(s: System, e: Event, s': System, u: UID)
    requires Inv(s) && Next(s, e, s') && u in s.sh.statuses && !s.sh.statuses[u].terminatedAt
    ensures u in s'.sh.statuses
  {
    assert !s.sh.statuses[u].finished by { assert PodFits(u, ViewOf(s, u)); }
    hide Next, Inv;
    StepProgresses(s, e, s', u);
  }

  lemma QuietAwaits(s: System, e: Event, s': System, u: UID, c: CompletedCh)
    requires Inv(s) && Next(s, e, s') && Inv(s') && AwaitedBy(s.sh, u, c) && !e.Update? && c !in s.sh.completions
    requires e.Complete? ==> !TearsDown(s, e, s.workers[e.w].uid)
    requires forall v :: v in s.sh.statuses && c in s.sh.statuses[v].notifyPostTerminating ==> v == u
    ensures AwaitedBy(s'.sh, u, c) || (Lost(s'.sh, c) && !CouldHaveRunningContainers(s'.sh, u))
  {
    QuietStep(s, e);
    StaysKnown(s, e, s', u);
    assert s'.sh == Apply(s, e).sh;
    hide Inv, Next, Apply;
  }

  /** At the step that hands it in, a fresh channel is closed, awaited, or lost, as FateAt says. */
  lemma OfferedStep(s: System, e: Event, s': System, c: CompletedCh, offered: set<CompletedCh>)
    requires Inv(s) && Next(s, e, s') && ChannelsFit(s.sh, offered) && c !in offered
    requires e.Update? && Offer(e) == Some(c)
    ensures match FateAt(s.sh, e.options, e.cacheTerminal)
            case Closed => c in s'.sh.completions
            case Joined => AwaitedBy(s'.sh, e.options.Target().uid, c)
            case Ignored => Lost(s'.sh, c)
  {
    NotListed(s.sh, offered, c);
    hide ChannelsFit, UpdatePod, Register, Effects, Lost, Inv;
    var o := e.options;
    if o.IsRuntime() && !o.updateType.SyncPodKill? {
      UpdateIgnored(s.sh, o, e.cacheTerminal);
    } else {
      UpdateEffects(s, o, e.cacheTerminal);
      var s1 := Register(s.sh, o.Target(), o.IsRuntime(), e.cacheTerminal);
      RegisterLost(s.sh, o.Target(), o.IsRuntime(), e.cacheTerminal, c);
      RegisterListsNothing(s.sh, o.Target(), o.IsRuntime(), e.cacheTerminal);
      hide FateAt;
      EffectsOffer(s1, UpdatePod(s.sh, o, e.cacheTerminal), o.Target(), KillOf(o.kill), FateAt(s.sh, o, e.cacheTerminal), c);
    }
  }

  lemma RegisterListsNothing(s: Shared, pod: Pod, runtime: bool, cacheTerminal: bool)
    ensures var s1 := Register(s, pod, runtime, cacheTerminal);
            forall v :: v in s1.statuses ==>
              if v in s.statuses then s1.statuses[v] == s.statuses[v] else s1.statuses[v].notifyPostTerminating == []
  {
  }

  lemma EffectsOffer(s: Shared, s': Shared, pod: Pod, k: KillPodOptions, fate: Fate, c: CompletedCh)
    requires pod.uid in s.statuses && Effects(s, s', pod, k, fate) && k.completedCh == Some(c)
    requires c !in s.completions && forall v :: v in s.statuses ==> c !in s.statuses[v].notifyPostTerminating
    requires fate.Joined? ==> !s.statuses[pod.uid].terminatedAt
    ensures match fate
            case Closed => c in s'.completions
            case Joined => AwaitedBy(s', pod.uid, c)
            case Ignored => Lost(s', c)
  {
    hide Effective, Shortened;
  }

  // ---------------------------------------------------------------- the promise on CompletedCh, exactly

  /** Until step j, u could have running containers all along since step i. */
  ghost predicate RunsOn(tr: seq<System>, i: nat, j: nat, u: UID)
    requires j < |tr|
  {
    forall k :: i < k <= j ==> CouldHaveRunningContainers(tr[k].sh, u)
  }

  /** The first step after i after which u cannot have running containers, if before j, is a
      regular teardown. */
  ghost predicate EndsByTeardown(tr: seq<System>, events: seq<Event>, i: nat, j: nat, u: UID)
    requires |tr| == |events| + 1 && j < |tr|
  {
    exists k: nat :: i < k < j && RunsOn(tr, i, k, u) && TearsDown(tr[k], events[k], u)
  }

  /** How a channel that joined u's termination at step i stands at j. */
  ghost predicate JoinedStands(tr: seq<System>, events: seq<Event>, i: nat, j: nat, u: UID, c: CompletedCh)
    requires |tr| == |events| + 1 && j < |tr|
  {
    if EndsByTeardown(tr, events, i, j, u) then c in tr[j].sh.completions
    else (RunsOn(tr, i, j, u) && AwaitedBy(tr[j].sh, u, c)) || (!RunsOn(tr, i, j, u) && Lost(tr[j].sh, c))
  }

  lemma OthersOffer(events: seq<Event>, i: nat, j: nat, c: CompletedCh)
    requires FreshOffers(events) && i < j < |events| && Offer(events[i]) == Some(c)
    ensures Offer(events[j]) != Some(c)
  {
    assert events[..j][i] == events[i];
  }

  lemma JoinedStarts(tr: seq<System>, events: seq<Event>, i: nat, u: UID, c: CompletedCh)
    requires |tr| == |events| + 1 && i < |events| && AwaitedBy(tr[i + 1].sh, u, c)
    ensures JoinedStands(tr, events, i, i + 1, u, c)
  {
    AwaitedRuns(tr[i + 1].sh, u, c);
    hide AwaitedBy, CouldHaveRunningContainers, TearsDown, Lost;
    assert RunsOn(tr, i, i + 1, u);
    assert !EndsByTeardown(tr, events, i, i + 1, u);
  }

  lemma {:induction false} JoinedAlong(tr: seq<System>, events: seq<Event>, i: nat, j: nat, u: UID, c: CompletedCh)
    requires IsRun(tr, events) && |tr| == |events| + 1 && i < j < |tr| && FreshOffers(events)
    requires Offer(events[i]) == Some(c) && AwaitedBy(tr[i + 1].sh, u, c)
    ensures JoinedStands(tr, events, i, j, u, c)
    decreases j
  {
    hide Next, Inv, IsRun, FreshOffers, JoinedStands, AwaitedBy, Offer;
    if j == i + 1 {
      JoinedStarts(tr, events, i, u, c);
    } else {
      JoinedAlong(tr, events, i, j - 1, u, c);
      RunStep(tr, events, j - 1);
      OthersOffer(events, i, j - 1, c);
      JoinedNext(tr, events, i, j - 1, u, c);
    }
  }

  lemma JoinedNext(tr: seq<System>, events: seq<Event>, i: nat, j: nat, u: UID, c: CompletedCh)
    requires IsRun(tr, events) && |tr| == |events| + 1 && i < j < |events| && FreshOffers(events)
    requires Offer(events[j]) != Some(c) && JoinedStands(tr, events, i, j, u, c)
    ensures JoinedStands(tr, events, i, j + 1, u, c)
  {
    hide Next, Inv, IsRun, FreshOffers, ChannelsFit, Lost, TearsDown, CouldHaveRunningContainers;
    RunStep(tr, events, j);
    assert RunsOn(tr, i, j + 1, u) <==> RunsOn(tr, i, j, u) && CouldHaveRunningContainers(tr[j + 1].sh, u);
    assert EndsByTeardown(tr, events, i, j + 1, u)
      <==> EndsByTeardown(tr, events, i, j, u) || (RunsOn(tr, i, j, u) && TearsDown(tr[j], events[j], u));
    if EndsByTeardown(tr, events, i, j, u) {
      StaysClosed(tr[j], events[j], tr[j + 1], c);
    } else if RunsOn(tr, i, j, u) {
      RunChannelsFit(tr, events, j);
      AwaitedStep(tr[j], events[j], tr[j + 1], u, c, Offered(events, j));
      AwaitedRuns(tr[j + 1].sh, u, c);
    } else {
      StaysLost(tr[j], events[j], tr[j + 1], c);
    }
  }

  lemma AwaitedRuns(s: Shared, u: UID, c: CompletedCh)
    ensures AwaitedBy(s, u, c) ==> CouldHaveRunningContainers(s, u)
    ensures Lost(s, c) ==> c !in s.completions
  {
  }

  lemma {:induction false} LostAlong(tr: seq<System>, events: seq<Event>, i: nat, j: nat, c: CompletedCh)
    requires IsRun(tr, events) && |tr| == |events| + 1 && i < j < |tr| && FreshOffers(events)
    requires Offer(events[i]) == Some(c) && Lost(tr[i + 1].sh, c)
    ensures Lost(tr[j].sh, c)
    decreases j
  {
    hide Next, Inv, IsRun, FreshOffers, Lost;
    if j > i + 1 {
      LostAlong(tr, events, i, j - 1, c);
      RunStep(tr, events, j - 1);
      OthersOffer(events, i, j - 1, c);
      StaysLost(tr[j - 1], events[j - 1], tr[j], c);
    }
  }

  lemma {:induction false} ClosedAlong(tr: seq<System>, events: seq<Event>, i: nat, j: nat, c: CompletedCh)
    requires IsRun(tr, events) && |tr| == |events| + 1 && i <= j < |tr| && c in tr[i].sh.completions
    ensures c in tr[j].sh.completions
    decreases j
  {
    hide Next, Inv, IsRun;
    if j > i {
      ClosedAlong(tr, events, i, j - 1, c);
      RunStep(tr, events, j - 1);
      StaysClosed(tr[j - 1], events[j - 1], tr[j], c);
    }
  }

  /** The comment on CompletedCh, exactly: a channel handed in at step i is closed at a later
      point if and only if the request was answered at once, or it joined the termination and
      the pod has ended since by a regular teardown. */
  lemma ClosedExactly(tr: seq<System>, events: seq<Event>, i: nat, j: nat, c: CompletedCh)
    requires IsRun(tr, events) && |tr| == |events| + 1 && i < j < |tr| && FreshOffers(events)
    requires events[i].Update? && events[i].options.WellFormed() && Offer(events[i]) == Some(c)
    ensures var e, u := events[i], events[i].options.Target().uid;
            var fate := FateAt(tr[i].sh, e.options, e.cacheTerminal);
            c in tr[j].sh.completions <==> fate.Closed? || (fate.Joined? && EndsByTeardown(tr, events, i, j, u))
  {
    hide Next, Inv, IsRun, FreshOffers, ChannelsFit, FateAt, EndsByTeardown;
    var e, u := events[i], events[i].options.Target().uid;
    RunStep(tr, events, i);
    RunChannelsFit(tr, events, i);
    assert c !in Offered(events, i) by { FreshAt(events, i, c); }
    OfferedStep(tr[i], e, tr[i + 1], c, Offered(events, i));
    match FateAt(tr[i].sh, e.options, e.cacheTerminal)
    case Closed => ClosedAlong(tr, events, i + 1, j, c);
    case Ignored => LostAlong(tr, events, i, j, c);
    case Joined =>
      JoinedAlong(tr, events, i, j, u, c);
      if AwaitedBy(tr[j].sh, u, c) { OpenWhileAwaited(tr, events, j, u, c); }
  }

  lemma FreshAt(events: seq<Event>, i: nat, c: CompletedCh)
    requires FreshOffers(events) && i < |events| && Offer(events[i]) == Some(c)
    ensures c !in Offered(events, i)
  {
  }

  lemma OpenWhileAwaited(tr: seq<System>, events: seq<Event>, j: nat, u: UID, c: CompletedCh)
    requires IsRun(tr, events) && |tr| == |events| + 1 && j < |tr| && FreshOffers(events) && AwaitedBy(tr[j].sh, u, c)
    ensures c !in tr[j].sh.completions
  {
    hide IsRun, FreshOffers;
    RunChannelsFit(tr, events, j);
    var list := tr[j].sh.statuses[u].notifyPostTerminating;
    var k :| 0 <= k < |list| && list[k] == c;
    assert Awaits(tr[j].sh, u, k, c);
  }
}
