/** What becomes of the items issued to a worker: order, supersession, cancellation. */
module WorkerDelivery {
  import opened PodTypes
  import opened WorkerState
  import opened WorkerSystem
  import opened WorkerInvariant
  import opened WorkerProgress
  import opened WorkerSafety
  import opened WorkerQueries
  import opened KillRequests

  // ---------------------------------------------------------------- what is received

  /** The worker takes item n from its channel. */
  predicate ReceivesNumber(s: System, e: Event, w: nat, n: nat) {
    e == Receive(w) && w in s.sh.channels && s.sh.channels[w].buffer != [] && s.sh.channels[w].buffer[0].number == n
  }

  lemma ReceivedKept(s: System, e: Event, s': System, w: nat)
    requires Inv(s) && Next(s, e, s') && w in s.workers && w in s'.workers && Live(s', w)
    ensures e == Receive(w) ==> w in s.sh.channels && s.sh.channels[w].buffer != []
    ensures s'.workers[w].received
         == if e == Receive(w) then Max(s.sh.channels[w].buffer[0].number, s.workers[w].received)
            else s.workers[w].received
  {
    hide UpdatePod, SyncKnownPods, CompleteWorkQueueNext, CompleteUnstartedTerminated, AcknowledgeTerminating,
         AllowPodStart, ContextForWorker, CompleteSync, CompleteTerminating, CompleteTerminated,
         CompleteTerminatingRuntimePod;
    StepKeepsWorker(s, e, s', w);
    LiveWorker(s, w);
    hide Inv, ActiveFits;
  }

  lemma {:induction false} ReceivedGrowsAlong(tr: seq<System>, events: seq<Event>, i: nat, j: nat, w: nat)
    requires IsRun(tr, events) && i <= j < |tr| && w in tr[i].workers && Live(tr[j], w)
    ensures tr[i].workers[w].received <= tr[j].workers[w].received
    decreases j - i
  {
    hide Next, Inv, IsRun;
    if i < j {
      RunInv(tr, events, i);
      RunStep(tr, events, i);
      StepKeepsWorker(tr[i], events[i], tr[i + 1], w);
      LiveBefore(tr, events, i + 1, j, w);
      ReceivedKept(tr[i], events[i], tr[i + 1], w);
      ReceivedGrowsAlong(tr, events, i + 1, j, w);
    }
  }

  /** The highest number recorded as received was received. */
  lemma {:induction false} ReceivedAt(tr: seq<System>, events: seq<Event>, j: nat, w: nat) returns (i: nat)
    requires IsRun(tr, events) && j < |tr| && Live(tr[j], w) && tr[j].workers[w].received > 0
    ensures |tr| == |events| + 1 && i < j && ReceivesNumber(tr[i], events[i], w, tr[j].workers[w].received)
  {
    hide Next, Inv, IsRun;
    RunStarts(tr, events);
    if j == 0 {
      assert false;
    } else {
      RunStep(tr, events, j - 1);
      i := j - 1;
      WorkerBefore(tr[j - 1], events[j - 1], tr[j], w);
      ReceivedKept(tr[j - 1], events[j - 1], tr[j], w);
      if !ReceivesNumber(tr[j - 1], events[j - 1], w, tr[j].workers[w].received) {
        StepKeepsWorker(tr[j - 1], events[j - 1], tr[j], w);
        i := ReceivedAt(tr, events, j - 1, w);
      }
    }
  }

  /** A worker that has received something was there before. */
  lemma WorkerBefore(s: System, e: Event, s': System, w: nat)
    requires Inv(s) && Next(s, e, s') && w in s'.workers && s'.workers[w].received > 0
    ensures w in s.workers
  {
    hide UpdatePod, SyncKnownPods, ApplyComplete, ApplyTryStart, ApplyTakeContext, ApplyReceive,
         CompleteWorkQueueNext, CompleteUnstartedTerminated, AcknowledgeTerminating;
    if IsWorkerEvent(e) {
      WorkerTouches(s, e);
    }
  }

  // ---------------------------------------------------------------- nothing is lost

  /** Only superseded items are ever dropped: the last item issued is undelivered, in the
      channel, or was received. */
  lemma NewestNeverLost(tr: seq<System>, events: seq<Event>, i: nat, w: nat)
    requires IsRun(tr, events) && |tr| == |events| + 1 && i < |tr| && Live(tr[i], w)
    ensures w in tr[i].sh.channels
    ensures var c, u := tr[i].sh.channels[w], tr[i].workers[w].uid;
            || c.issued == 0
            || (u in tr[i].sh.lastUndelivered && tr[i].sh.lastUndelivered[u].number == c.issued)
            || (c.buffer != [] && c.buffer[0].number == c.issued)
            || exists k :: 0 <= k < i && ReceivesNumber(tr[k], events[k], w, c.issued)
  {
    RunInv(tr, events, i);
    LiveWorker(tr[i], w);
    var c := tr[i].sh.channels[w];
    if tr[i].workers[w].received == c.issued > 0 {
      var k := ReceivedAt(tr, events, i, w);
      assert ReceivesNumber(tr[k], events[k], w, c.issued);
    }
    hide IsRun, Inv, PhaseFits, ItemFits, ReceivesNumber;
  }

  // ---------------------------------------------------------------- order

  /** UpdatePod sends an item directly to the idle worker w while item n is undelivered. */
  predicate SendsPast(s: System, e: Event, w: nat, n: nat) {
    && e.Update? && e.options.WellFormed()
    && var o, u := e.options, e.options.Target().uid;
    && u in s.sh.podUpdates && s.sh.podUpdates[u] == w
    && u in s.sh.lastUndelivered && s.sh.lastUndelivered[u].number == n
    && u in s.sh.statuses && !s.sh.statuses[u].working
    && !(o.IsRuntime() && !o.updateType.SyncPodKill?)
    && !FateOf(s.sh.statuses[u], o.Target(), o.IsRuntime(), o.updateType, o.kill).Ignored?
  }

  /** What was passed over grows by what w's channel is sent past. */
  ghost predicate PassedGrows(s: System, e: Event, s': System, w: nat) {
    && w in s.sh.channels && w in s'.sh.channels
    && forall n :: n in s'.sh.channels[w].passed <==> n in s.sh.channels[w].passed || SendsPast(s, e, w, n)
  }

  lemma UpdatePasses(s: System, o: UpdatePodOptions, cacheTerminal: bool, w: nat)
    requires Inv(s) && o.WellFormed() && w in s.workers
    ensures PassedGrows(s, Update(o, cacheTerminal), ApplyUpdate(s, o, cacheTerminal), w)
  {
    var u := o.Target().uid;
    assert PodFits(u, ViewOf(s, u));
    if o.IsRuntime() && !o.updateType.SyncPodKill? {
    } else if Register(s.sh, o.Target(), o.IsRuntime(), cacheTerminal).statuses[u].finished {
      FinishedShape(s.sh, o, cacheTerminal);
      hide Inv, UpdatePod;
    } else if u !in s.sh.statuses {
      NewPasses(s, o, cacheTerminal, w);
    } else {
      ServedPasses(s, o, cacheTerminal, w);
    }
  }

  lemma NewPasses(s: System, o: UpdatePodOptions, cacheTerminal: bool, w: nat)
    requires Inv(s) && o.WellFormed() && w in s.workers && o.Target().uid !in s.sh.statuses
    requires !(o.IsRuntime() && !o.updateType.SyncPodKill?)
    requires !Register(s.sh, o.Target(), o.IsRuntime(), cacheTerminal).statuses[o.Target().uid].finished
    ensures PassedGrows(s, Update(o, cacheTerminal), ApplyUpdate(s, o, cacheTerminal), w)
  {
    assert w in s.sh.channels && w != s.sh.nextChannel;
    hide Inv, UpdatePod, Register, SendsPast;
    NewChannel(s, o, cacheTerminal);
    forall n ensures !SendsPast(s, Update(o, cacheTerminal), w, n) {
      UnknownIsNotPassed(s, Update(o, cacheTerminal), w, n);
    }
    NotPassed(s, Update(o, cacheTerminal), ApplyUpdate(s, o, cacheTerminal), s.sh.nextChannel, w);
  }

  lemma NotPassed(s: System, e: Event, s': System, c: nat, w: nat)
    requires w in s.sh.channels && w != c && c in s'.sh.channels && s'.sh.channels == s.sh.channels[c := s'.sh.channels[c]]
    requires forall n :: !SendsPast(s, e, w, n)
    ensures PassedGrows(s, e, s', w)
  {
    hide SendsPast;
  }

  lemma UnknownIsNotPassed(s: System, e: Event, w: nat, n: nat)
    requires e.Update? && e.options.WellFormed() && e.options.Target().uid !in s.sh.statuses
    ensures !SendsPast(s, e, w, n)
  {
  }

  /** A pod seen for the first time gets a channel that has passed nothing over. */
  lemma NewChannel(s: System, o: UpdatePodOptions, cacheTerminal: bool)
    requires Inv(s) && o.WellFormed() && o.Target().uid !in s.sh.statuses
    requires !(o.IsRuntime() && !o.updateType.SyncPodKill?)
    requires !Register(s.sh, o.Target(), o.IsRuntime(), cacheTerminal).statuses[o.Target().uid].finished
    ensures var s', n := UpdatePod(s.sh, o, cacheTerminal), s.sh.nextChannel;
            n in s'.channels && s'.channels == s.sh.channels[n := s'.channels[n]] && s'.channels[n].passed == {}
  {
    var pod := o.Target();
    assert PodFits(pod.uid, ViewOf(s, pod.uid));
    assert s.sh.nextChannel !in s.workers;
    AdmitNew(s.sh, o, cacheTerminal);
    DecideFacts(NewStatus(pod.fullname), pod, o.IsRuntime(), o.updateType, o.kill);
    hide Inv, PodFits, Decide, Dispatch, UpdatePod, Prepared, Register;
    FirstItemShape(s.sh, pod, Decide(NewStatus(pod.fullname), pod, o.IsRuntime(), o.updateType, o.kill));
  }

  lemma ServedPasses(s: System, o: UpdatePodOptions, cacheTerminal: bool, w: nat)
    requires Inv(s) && o.WellFormed() && w in s.workers
    requires !(o.IsRuntime() && !o.updateType.SyncPodKill?)
    requires o.Target().uid in s.sh.statuses && !s.sh.statuses[o.Target().uid].finished
    ensures PassedGrows(s, Update(o, cacheTerminal), ApplyUpdate(s, o, cacheTerminal), w)
  {
    hide UpdatePod, Served, SendsPast, Drops, ActiveFits;
    var e := Update(o, cacheTerminal);
    assert PodFits(o.Target().uid, ViewOf(s, o.Target().uid)) && w in s.sh.channels;
    AdmitActive(s.sh, o, cacheTerminal);
    ServedPassed(s, o);
    hide Inv, PodFits, ViewOf, LifecycleOrdered;
    forall n: nat ensures SendsPast(s, e, w, n) <==> PassesOver(s, o, w, n) {
      SendsPastGuard(s, e, w, n);
    }
  }

  /** What was passed over on channel c is now `passed`; all other channels are as before. */
  ghost predicate PassedIs(s: Shared, s': Shared, c: nat, passed: set<nat>) {
    forall w :: w in s.channels ==>
      w in s'.channels && s'.channels[w].passed == if w == c then passed else s.channels[w].passed
  }

  lemma ServedPassed(s: System, o: UpdatePodOptions)
    requires Inv(s) && o.WellFormed()
    requires o.Target().uid in s.sh.statuses && !s.sh.statuses[o.Target().uid].finished
    ensures o.Target().uid in s.sh.podUpdates && s.sh.podUpdates[o.Target().uid] in s.sh.channels
    ensures var u, c := o.Target().uid, s.sh.podUpdates[o.Target().uid];
            PassedIs(s.sh, Served(s.sh, o), c,
                     if Drops(s.sh.statuses[u], o) || s.sh.statuses[u].working then s.sh.channels[c].passed
                     else PassedAfter(s.sh.channels[c], Undelivered(s.sh, u)))
  {
    var u, st := o.Target().uid, s.sh.statuses[o.Target().uid];
    HasChannel(s, u);
    DecideFacts(st, o.Target(), o.IsRuntime(), o.updateType, o.kill);
    hide Inv, PodFits, ViewOf, Dispatch, Decide, PassedAfter;
    if !Drops(st, o) {
      VerdictPasses(s, u, Decide(st, o.Target(), o.IsRuntime(), o.updateType, o.kill));
    }
  }

  /** A request the code drops although the pod has not finished. */
  predicate Drops(st: PodSyncStatus, o: UpdatePodOptions) {
    (st.terminatingAt && o.updateType.SyncPodCreate?) || (st.terminatedAt && o.IsRuntime())
  }

  predicate PassesOver(s: System, o: UpdatePodOptions, w: nat, n: nat)
    requires o.WellFormed()
  {
    var u := o.Target().uid;
    && u in s.sh.statuses && !Drops(s.sh.statuses[u], o) && !s.sh.statuses[u].working
    && u in s.sh.podUpdates && s.sh.podUpdates[u] == w
    && u in s.sh.lastUndelivered && s.sh.lastUndelivered[u].number == n
  }

  lemma SendsPastGuard(s: System, e: Event, w: nat, n: nat)
    requires e.Update? && e.options.WellFormed() && e.options.Target().uid in s.sh.statuses
    requires !(e.options.IsRuntime() && !e.options.updateType.SyncPodKill?)
    requires !s.sh.statuses[e.options.Target().uid].finished
    ensures SendsPast(s, e, w, n) <==> PassesOver(s, e.options, w, n)
  {
    hide RequestTermination;
  }

  /** A direct item is sent past the undelivered one. */
  lemma VerdictPasses(s: System, u: UID, v: Verdict)
    requires Inv(s) && u in s.sh.statuses && !s.sh.statuses[u].finished && Keeps(s.sh.statuses[u], v)
    ensures u in s.sh.podUpdates && s.sh.podUpdates[u] in s.sh.channels
    ensures var c := s.sh.podUpdates[u];
            PassedIs(s.sh, Dispatch(CloseCompletion(SetStatus(s.sh, u, v.status), v.close), u, v), c,
                     if s.sh.statuses[u].working then s.sh.channels[c].passed
                     else PassedAfter(s.sh.channels[c], Undelivered(s.sh, u)))
  {
    HasChannel(s, u);
    if !v.status.working { IdleCanSend(s, u); }
    assert v.status.working == s.sh.statuses[u].working;
    hide Inv, Keeps, LifecycleOrdered, Dispatch, PassedAfter, PassedIs, CloseCompletion, SetStatus;
    DispatchPasses(s.sh, u, v);
  }

  lemma DispatchPasses(s: Shared, u: UID, v: Verdict)
    requires u in s.podUpdates && s.podUpdates[u] in s.channels && (!v.status.working ==> CanSend(s, u))
    ensures var c := s.podUpdates[u];
            PassedIs(s, Dispatch(CloseCompletion(SetStatus(s, u, v.status), v.close), u, v), c,
                     if v.status.working then s.channels[c].passed else PassedAfter(s.channels[c], Undelivered(s, u)))
  {
    hide Dispatch, PassedAfter, CanSend;
    var s2 := CloseCompletion(SetStatus(s, u, v.status), v.close);
    if v.status.working {
      BusyDispatch(s, s2, u, v);
    } else {
      IdleDispatch(s, s2, u, v);
    }
  }

  lemma HasChannel(s: System, u: UID)
    requires Inv(s) && u in s.sh.statuses && !s.sh.statuses[u].finished
    ensures u in s.sh.podUpdates && s.sh.podUpdates[u] in s.sh.channels && LifecycleOrdered(s.sh.statuses[u])
  {
    assert PodFits(u, ViewOf(s, u));
  }

  lemma IdleCanSend(s: System, u: UID)
    requires Inv(s) && u in s.sh.statuses && !s.sh.statuses[u].finished && !s.sh.statuses[u].working
    ensures CanSend(s.sh, u)
  {
    assert PodFits(u, ViewOf(s, u));
  }

  /** All other steps leave it alone. */
  ghost predicate SamePassed(s: Shared, s': Shared) {
    forall w :: w in s.channels ==> w in s'.channels && s'.channels[w].passed == s.channels[w].passed
  }

  lemma CloseKeepsPassed(s: Shared, u: UID)
    ensures SamePassed(s, CloseUpdates(s, u))
  {
  }

  lemma CleanupKeepsPassed(s: Shared, u: UID)
    ensures SamePassed(s, CleanupPodUpdates(s, u))
  {
    CloseKeepsPassed(s, u);
    hide CloseUpdates;
  }

  lemma ParkKeepsPassed(s: Shared, u: UID, work: PodWork)
    ensures SamePassed(s, Park(s, u, work))
  {
  }

  lemma SendKeepsPassed(s: Shared, u: UID, work: PodWork)
    ensures SamePassed(s, Send(s, u, work))
  {
  }

  lemma NextKeepsPassed(s: Shared, u: UID)
    ensures SamePassed(s, CompleteWorkQueueNext(s, u))
  {
    hide Send;
    if u in s.lastUndelivered { SendKeepsPassed(s, u, s.lastUndelivered[u]); }
  }

  lemma FinishKeepsChannels(s: Shared, u: UID, terminatedAt: bool, suspicious: bool)
    requires u in s.statuses
    ensures Finish(s, u, terminatedAt, suspicious).channels == s.channels
  {
  }

  lemma CompleteKeepsPassed(s: System, w: nat)
    requires Inv(s) && Enabled(s, Complete(w))
    ensures SamePassed(s.sh, Apply(s, Complete(w)).sh)
  {
    LiveWorker(s, w);
    hide Inv, ActiveFits, Park, CleanupPodUpdates, Finish;
    var Returned(work, _, outcome) := s.workers[w].phase;
    var u := work.pod.uid;
    if outcome.Done? && work.workType.TerminatedPodWork? {
      CleanupKeepsPassed(s.sh, u);
      var s1 := CleanupPodUpdates(s.sh, u);
      if u in s1.statuses {
        FinishKeepsChannels(s1, u, s1.statuses[u].terminatedAt,
                            !s1.statuses[u].terminatingAt || !s1.statuses[u].terminatedAt);
      }
    } else if outcome.Done? && work.workType.TerminatingPodWork? && work.runtime {
      if u in s.sh.statuses { FinishKeepsChannels(s.sh, u, true, !s.sh.statuses[u].terminatingAt); }
      CleanupKeepsPassed(if u in s.sh.statuses then Finish(s.sh, u, true, !s.sh.statuses[u].terminatingAt) else s.sh, u);
    } else if outcome.Done? {
      ParksKeepPassed(s.sh, work.pod);
    }
  }

  lemma ParksKeepPassed(s: Shared, pod: Pod)
    ensures SamePassed(s, CompleteTerminating(s, pod)) && SamePassed(s, CompleteSync(s, pod))
  {
    hide Park;
    forall s1: Shared, work | s1.channels == s.channels ensures SamePassed(s, Park(s1, pod.uid, work)) {
      ParkKeepsPassed(s1, pod.uid, work);
    }
  }

  lemma GiveUpKeepsPassed(s: Shared, u: UID)
    ensures SamePassed(s, CompleteUnstartedTerminated(s, u))
  {
    hide CleanupPodUpdates, Finish;
    CleanupKeepsPassed(s, u);
    var s1 := CleanupPodUpdates(s, u);
    if u in s1.statuses {
      FinishKeepsChannels(s1, u, true, !s1.statuses[u].terminatingAt || s1.statuses[u].terminatedAt);
    }
  }

  lemma WorkerKeepsPassed(s: System, e: Event)
    requires Inv(s) && Enabled(s, e) && IsWorkerEvent(e)
    ensures SamePassed(s.sh, Apply(s, e).sh)
  {
    hide Inv, ApplyComplete, CompleteUnstartedTerminated, CompleteWorkQueueNext, AllowPodStart, ContextForWorker,
         AcknowledgeTerminating;
    match e
    case Complete(w) => CompleteKeepsPassed(s, w);
    case GiveUp(w) => GiveUpKeepsPassed(s.sh, s.workers[w].phase.work.pod.uid);
    case Requeue(w) => NextKeepsPassed(s.sh, s.workers[w].phase.pod.uid);
    case TryStart(w) =>
      LiveWorker(s, w);
      AllowPodStartFrame(s.sh, s.workers[w].phase.work.pod);
    case TakeContext(w) =>
      LiveWorker(s, w);
      ContextFrame(s.sh, s.workers[w].phase.work.pod.uid);
    case Acknowledge(w) => AcknowledgeKeepsChannels(s.sh, s.workers[w].phase.work.pod.uid);
    case _ =>
  }

  lemma AcknowledgeKeepsChannels(s: Shared, u: UID)
    ensures AcknowledgeTerminating(s, u).0.channels == s.channels
  {
  }

  lemma StepPasses(s: System, e: Event, s': System, w: nat)
    requires Inv(s) && Next(s, e, s') && w in s.workers
    ensures PassedGrows(s, e, s', w)
  {
    assert w in s.sh.channels;
    hide UpdatePod, SyncKnownPods, ApplyComplete, ApplyTryStart, ApplyTakeContext, ApplyReceive,
         CompleteWorkQueueNext, CompleteUnstartedTerminated, AcknowledgeTerminating;
    if e.Update? {
      UpdatePasses(s, e.options, e.cacheTerminal, w);
    } else if e.SyncKnown? {
      InvFinishedAreIdle(s);
      KnownKeepsChannels(s.sh, e.order, e.desired);
    } else {
      WorkerKeepsPassed(s, e);
    }
  }

  lemma KnownKeepsChannels(s: Shared, order: seq<UID>, desired: set<UID>)
    requires FinishedAreIdle(s)
    ensures SyncKnownPods(s, order, desired).channels == s.channels
  {
    hide Sweep;
    SweepForgets(s.(podsSynced := true), order, desired);
  }

  /** A new channel has passed nothing over. */
  lemma NewPassedNothing(s: System, e: Event, s': System, w: nat)
    requires Inv(s) && Next(s, e, s') && w !in s.workers && w in s'.workers
    ensures w in s'.sh.channels && s'.sh.channels[w].passed == {}
  {
    if IsWorkerEvent(e) { WorkerTouches(s, e); }
    hide SyncKnownPods, ApplyComplete, ApplyTryStart, ApplyTakeContext, ApplyReceive,
         CompleteWorkQueueNext, CompleteUnstartedTerminated, AcknowledgeTerminating, Admit;
    assert e.Update?;
    CreatedPassedNothing(s, e.options, e.cacheTerminal);
  }

  lemma CreatedPassedNothing(s: System, o: UpdatePodOptions, cacheTerminal: bool)
    requires Inv(s) && o.WellFormed() && UpdatePod(s.sh, o, cacheTerminal).nextChannel > s.sh.nextChannel
    ensures var s' := UpdatePod(s.sh, o, cacheTerminal);
            s.sh.nextChannel in s'.channels && s'.channels[s.sh.nextChannel].passed == {}
  {
    hide UpdatePod, Inv;
    if o.IsRuntime() && !o.updateType.SyncPodKill? {
      UpdateIgnored(s.sh, o, cacheTerminal);
    } else if Register(s.sh, o.Target(), o.IsRuntime(), cacheTerminal).statuses[o.Target().uid].finished {
      FinishedShape(s.sh, o, cacheTerminal);
    } else if o.Target().uid in s.sh.statuses {
      KnownKeepsNext(s, o, cacheTerminal);
    } else {
      NewChannel(s, o, cacheTerminal);
    }
  }

  lemma KnownKeepsNext(s: System, o: UpdatePodOptions, cacheTerminal: bool)
    requires Inv(s) && o.WellFormed() && !(o.IsRuntime() && !o.updateType.SyncPodKill?)
    requires o.Target().uid in s.sh.statuses && !s.sh.statuses[o.Target().uid].finished
    ensures UpdatePod(s.sh, o, cacheTerminal).nextChannel == s.sh.nextChannel
  {
    HasChannel(s, o.Target().uid);
    hide UpdatePod, Served, Inv;
    AdmitActive(s.sh, o, cacheTerminal);
    ServedKeepsChannels(s.sh, o);
  }

  /** The items passed over are exactly those undelivered when UpdatePod sent a later one
      directly to the idle worker. */
  lemma {:induction false} PassedExactly(tr: seq<System>, events: seq<Event>, j: nat, w: nat, n: nat)
    requires IsRun(tr, events) && |tr| == |events| + 1 && j < |tr| && w in tr[j].workers
    ensures w in tr[j].sh.channels
    ensures n in tr[j].sh.channels[w].passed <==> SentPast(tr, events, j, w, n)
  {
    hide Next, Inv, IsRun, SendsPast;
    RunStarts(tr, events);
    if j > 0 {
      RunStep(tr, events, j - 1);
      if w in tr[j - 1].workers {
        PassedExactly(tr, events, j - 1, w, n);
        StepPasses(tr[j - 1], events[j - 1], tr[j], w);
      } else {
        NewPassedNothing(tr[j - 1], events[j - 1], tr[j], w);
        forall k | 0 <= k < j ensures w !in tr[k].workers { NotYet(tr, events, k, j - 1, w); }
      }
    }
  }

  /** Before step j, w received an item issued after item x. */
  ghost predicate ReceivedAbove(tr: seq<System>, events: seq<Event>, j: nat, w: nat, x: nat)
    requires |tr| == |events| + 1 && j < |tr|
  {
    exists i: nat, n: nat :: i < j && ReceivesNumber(tr[i], events[i], w, n) && n > x
  }

  /** Before step j, UpdatePod sent an item directly to w while item x was undelivered. */
  ghost predicate SentPast(tr: seq<System>, events: seq<Event>, j: nat, w: nat, x: nat)
    requires |tr| == |events| + 1 && j < |tr|
  {
    exists k: nat :: k < j && w in tr[k].workers && SendsPast(tr[k], events[k], w, x)
  }

  /** An item is received after a later one exactly if UpdatePod sent a later one directly
      while this one was undelivered. */
  lemma OutOfOrderExactly(tr: seq<System>, events: seq<Event>, j: nat, w: nat)
    requires IsRun(tr, events) && |tr| == |events| + 1 && j < |events| && events[j] == Receive(w) && Live(tr[j], w)
    ensures w in tr[j].sh.channels && tr[j].sh.channels[w].buffer != []
    ensures var x := tr[j].sh.channels[w].buffer[0].number;
            ReceivedAbove(tr, events, j, w, x) <==> SentPast(tr, events, j, w, x)
  {
    hide IsRun, Next, Inv, SendsPast, PhaseFits, ItemFits;
    RunStep(tr, events, j);
    ReceivesWhat(tr[j], events[j], tr[j + 1], w);
    LiveWorker(tr[j], w);
    var x := tr[j].sh.channels[w].buffer[0].number;
    PassedExactly(tr, events, j, w, x);
    hide SentPast;
    if tr[j].workers[w].received > x {
      var i := ReceivedAt(tr, events, j, w);
      assert ReceivesNumber(tr[i], events[i], w, tr[j].workers[w].received);
    }
    hide ReceivesNumber;
    forall i: nat, n: nat | i < j && ReceivesNumber(tr[i], events[i], w, n) ensures n <= tr[j].workers[w].received {
      ReceivedBy(tr, events, i, j, w, n);
    }
  }

  lemma ReceivedBy(tr: seq<System>, events: seq<Event>, i: nat, j: nat, w: nat, n: nat)
    requires IsRun(tr, events) && |tr| == |events| + 1 && i < j < |tr| && Live(tr[j], w)
    requires ReceivesNumber(tr[i], events[i], w, n)
    ensures n <= tr[j].workers[w].received
  {
    hide IsRun, Inv, Next;
    RunStep(tr, events, i);
    ReceiverWasThere(tr[i], tr[i + 1], w);
    StepKeepsWorker(tr[i], events[i], tr[i + 1], w);
    LiveBefore(tr, events, i + 1, j, w);
    ReceivedKept(tr[i], events[i], tr[i + 1], w);
    ReceivedGrowsAlong(tr, events, i + 1, j, w);
  }

  lemma ReceiverWasThere(s: System, s': System, w: nat)
    requires Next(s, Receive(w), s')
    ensures w in s.workers
  {
  }

  /** That happens only to a worker that was told to wait, and never to a non-static pod's if
      callers keep the kinds of pods that wait to be let in. */
  lemma WaitsWithItem(tr: seq<System>, events: seq<Event>, i: nat, u: UID)
    requires IsRun(tr, events) && i < |tr| && u in tr[i].sh.podUpdates && u in tr[i].sh.statuses
    requires !tr[i].sh.statuses[u].working && u in tr[i].sh.lastUndelivered
    ensures tr[i].sh.podUpdates[u] in tr[i].workers
    ensures var w := tr[i].workers[tr[i].sh.podUpdates[u]];
            !w.started && w.phase.Idle? && (StableRun(tr, events) ==> w.isStatic)
  {
    RunInv(tr, events, i);
    assert PodFits(u, ViewOf(tr[i], u));
    if StableRun(tr, events) {
      hide StableRun, Inv, KindsFit, ActiveFits;
      RunKinds(tr, events, i);
      LinkedUp(tr[i], u);
      LiveKinds(tr[i], tr[i].sh.podUpdates[u], true);
    }
  }

  /** So the worker of a non-static pod receives strictly increasing item numbers. */
  lemma ReceivesInOrder(tr: seq<System>, events: seq<Event>, i: nat, j: nat, w: nat)
    requires StableRun(tr, events) && i < j < |events| && |tr| == |events| + 1
    requires events[i] == Receive(w) && events[j] == Receive(w)
    requires Live(tr[j], w) && !tr[j].workers[w].isStatic
    ensures w in tr[i].sh.channels && tr[i].sh.channels[w].buffer != []
    ensures w in tr[j].sh.channels && tr[j].sh.channels[w].buffer != []
    ensures tr[i].sh.channels[w].buffer[0].number < tr[j].sh.channels[w].buffer[0].number
  {
    assert IsRun(tr, events);
    hide StableRun, IsRun, Next, Inv, KindsFit, PhaseFits, ItemFits;
    RunKinds(tr, events, j);
    RunStep(tr, events, i);
    RunStep(tr, events, j);
    ReceiverWasThere(tr[i], tr[i + 1], w);
    StepKeepsWorker(tr[i], events[i], tr[i + 1], w);
    StepKeepsWorker(tr[j], events[j], tr[j + 1], w);
    LiveBefore(tr, events, i, j, w);
    LiveBefore(tr, events, i + 1, j, w);
    ReceivedKept(tr[i], events[i], tr[i + 1], w);
    ReceivesWhat(tr[j], events[j], tr[j + 1], w);
    LiveWorker(tr[j], w);
    LiveKinds(tr[j], w, true);
    ReceivedBy(tr, events, i, j, w, tr[i].sh.channels[w].buffer[0].number);
  }

  lemma ReceivesWhat(s: System, e: Event, s': System, w: nat)
    requires Inv(s) && Next(s, e, s') && e == Receive(w) && Live(s, w)
    ensures w in s.sh.channels && s.sh.channels[w].buffer != []
  {
    LiveWorker(s, w);
  }

  // ---------------------------------------------------------------- cancellation

  /** The context the worker's current operation was given has been cancelled. */
  predicate OperationCancelled(s: System, w: nat) {
    && Live(s, w) && ContextOf(s.workers[w].phase).Some?
    && s.workers[w].uid in s.sh.statuses
    && s.sh.statuses[s.workers[w].uid].ctx == Some(Context(ContextOf(s.workers[w].phase).value, true))
  }

  /** contextForWorker hands out the recorded context, and never a cancelled one. */
  lemma HandsOutLiveContext(tr: seq<System>, events: seq<Event>, i: nat, w: nat)
    requires IsRun(tr, events) && i < |events| && events[i] == TakeContext(w)
    ensures Live(tr[i + 1], w) && ContextOf(tr[i + 1].workers[w].phase).Some?
    ensures tr[i + 1].workers[w].uid in tr[i + 1].sh.statuses
    ensures tr[i + 1].sh.statuses[tr[i + 1].workers[w].uid].ctx
         == Some(Context(ContextOf(tr[i + 1].workers[w].phase).value, false))
  {
    RunStep(tr, events, i);
    LiveWorker(tr[i], w);
    ContextFrame(tr[i].sh, tr[i].workers[w].uid);
    hide Inv, ContextForWorker;
  }

  /** From the moment it is cancelled, an operation has a successor waiting. */
  lemma CancelledHasSuccessor(tr: seq<System>, events: seq<Event>, i: nat, w: nat)
    requires IsRun(tr, events) && i < |tr| && OperationCancelled(tr[i], w)
    ensures tr[i].workers[w].uid in tr[i].sh.lastUndelivered
  {
    RunInv(tr, events, i);
    LiveWorker(tr[i], w);
  }

  /** So a cancelled worker goes on with exactly that item, and stays marked as working. */
  lemma CancelledContinues(tr: seq<System>, events: seq<Event>, i: nat, w: nat)
    requires IsRun(tr, events) && i < |events|
    requires events[i] == Requeue(w) && OperationCancelled(tr[i], w)
    ensures var u := tr[i].workers[w].uid;
            && u in tr[i].sh.lastUndelivered
            && w in tr[i + 1].sh.channels
            && tr[i + 1].sh.channels[w].buffer == [tr[i].sh.lastUndelivered[u]]
            && u in tr[i + 1].sh.statuses && tr[i + 1].sh.statuses[u].working
  {
    CancelledHasSuccessor(tr, events, i, w);
    RunStep(tr, events, i);
    LiveWorker(tr[i], w);
    assert tr[i].sh.channels[w].buffer == [];
  }
}
