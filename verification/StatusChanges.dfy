/** What becomes of each flag of a pod's record: which steps set it, and so what the record and
    the answers read from it say about the run. */
module StatusChanges {
  import opened GracePeriod
  import opened PodTypes
  import opened WorkerState
  import opened WorkerSystem
  import opened WorkerInvariant
  import opened WorkerProgress
  import opened WorkerSafety
  import opened KillRequests
  import opened WorkerDelivery
  import opened PendingItems

  datatype Flag = Asked | Started | Deleted | Evicted | Terminated | Finished | RestartRequested

  predicate Set(st: PodSyncStatus, f: Flag) {
    match f
    case Asked => st.terminatingAt
    case Started => st.startedTerminating
    case Deleted => st.deleted
    case Evicted => st.evicted
    case Terminated => st.terminatedAt
    case Finished => st.finished
    case RestartRequested => st.restartRequested
  }

  /** A request sets the flag; `asked`: its pod is known and has been asked to terminate. */
  predicate RequestSets(s: Shared, o: UpdatePodOptions, cacheTerminal: bool, f: Flag)
    requires o.WellFormed()
  {
    var pod, over := o.Target(), OverAtSight(s, o, cacheTerminal);
    var asked := pod.uid in s.statuses && s.statuses[pod.uid].terminatingAt;
    && !(o.IsRuntime() && !o.updateType.SyncPodKill?)
    && match f
       case Asked => AsksToEnd(pod, o.IsRuntime(), o.updateType)
       case Deleted => !over && !asked && (o.IsRuntime() || pod.deleting)
       case Evicted =>
         && !asked && !o.IsRuntime() && !pod.deleting && !TerminalPhase(pod.phase)
         && o.updateType.SyncPodKill? && o.kill.Some? && o.kill.value.evict
       case RestartRequested => (over || asked) && o.updateType.SyncPodCreate?
       case _ => over
  }

  /** syncPod came out as terminal. */
  predicate CompletesSync(s: System, e: Event, w: nat) {
    && e == Complete(w) && w in s.workers && s.workers[w].phase.Returned?
    && s.workers[w].phase.outcome == Done(true) && s.workers[w].phase.work.workType.SyncPodWork?
  }

  /** The worker's last sync function came out without error. */
  predicate EndsWorker(s: System, e: Event, w: nat) {
    && e == Complete(w) && w in s.workers && s.workers[w].phase.Returned? && s.workers[w].phase.outcome.Done?
    && var work := s.workers[w].phase.work;
    work.workType.TerminatedPodWork? || (work.workType.TerminatingPodWork? && work.runtime)
  }

  /** A step of w sets the flag of its pod. */
  predicate WorkerSets(s: System, e: Event, w: nat, f: Flag) {
    match f
    case Asked => CompletesSync(s, e, w)
    case Started => e == Acknowledge(w) || CompletesSync(s, e, w)
    case Terminated => e == GiveUp(w) || TerminatesSuccessfully(s, e, w)
    case Finished => e == GiveUp(w) || EndsWorker(s, e, w)
    case _ => false
  }

  predicate Sets(s: System, e: Event, u: UID, f: Flag) {
    if e.Update? then e.options.WellFormed() && e.options.Target().uid == u && RequestSets(s.sh, e.options, e.cacheTerminal, f)
    else IsWorkerEvent(e) && WorkerOf(e) in s.workers && s.workers[WorkerOf(e)].uid == u && WorkerSets(s, e, WorkerOf(e), f)
  }

  // ---------------------------------------------------------------- requests

  /** The first request for a pod records it as finished exactly if it presents a configured
      pod that has ended and the pod cache shows nothing running. Otherwise the pod gets a
      worker, and its first item asks for termination exactly if the request does. */
  lemma FirstSight(s: System, o: UpdatePodOptions, cacheTerminal: bool)
    requires Inv(s) && o.WellFormed() && !(o.IsRuntime() && !o.updateType.SyncPodKill?)
    requires o.Target().uid !in s.sh.statuses
    ensures var pod, s' := o.Target(), ApplyUpdate(s, o, cacheTerminal);
            var w := s.sh.nextChannel;
            && pod.uid in s'.sh.statuses
            && s'.sh.statuses[pod.uid].fullname == pod.fullname && s'.sh.statuses[pod.uid].ctx == None
            && (s'.sh.statuses[pod.uid].finished <==> o.pod.Some? && TerminalPhase(pod.phase) && cacheTerminal)
            && (s'.sh.statuses[pod.uid].finished ==>
                  && s'.workers == s.workers && s'.sh.podUpdates == s.sh.podUpdates && s'.sh.channels == s.sh.channels
                  && !CouldHaveRunningContainers(s'.sh, pod.uid))
            && (!s'.sh.statuses[pod.uid].finished ==>
                  && pod.uid in s'.sh.podUpdates && s'.sh.podUpdates[pod.uid] == w
                  && w !in s.workers && s'.workers == s.workers[w := Worker(pod.uid, pod.isStatic, false, 0, Idle)]
                  && w in s'.sh.channels && |s'.sh.channels[w].buffer| == 1 && !s'.sh.channels[w].closed
                  && var x := s'.sh.channels[w].buffer[0];
                  && GivenBy(s, Update(o, cacheTerminal), s', pod.uid, x)
                  && x.workType == (if o.IsRuntime() || pod.deleting || TerminalPhase(pod.phase) || o.updateType.SyncPodKill?
                                    then TerminatingPodWork else SyncPodWork))
  {
    var u, s' := o.Target().uid, ApplyUpdate(s, o, cacheTerminal);
    hide UpdatePod, Register, Inv, GivenBy;
    SeenFirst(s.sh, o, cacheTerminal);
    if OverAtSight(s.sh, o, cacheTerminal) {
      FinishedShape(s.sh, o, cacheTerminal);
    } else {
      FirstWorker(s, o, cacheTerminal);
    }
  }

  /** The record a pod starts with. */
  lemma SeenFirst(s: Shared, o: UpdatePodOptions, cacheTerminal: bool)
    requires o.WellFormed() && o.Target().uid !in s.statuses
    ensures var s1 := Register(s, o.Target(), o.IsRuntime(), cacheTerminal);
            && o.Target().uid in s1.statuses
            && var st := s1.statuses[o.Target().uid];
            && st.fullname == o.Target().fullname && st.ctx == None
            && !st.deleted && !st.evicted && !st.restartRequested
            && (forall f :: f in {Asked, Started, Terminated, Finished} ==> (Set(st, f) <==> OverAtSight(s, o, cacheTerminal)))
            && (!OverAtSight(s, o, cacheTerminal) ==> st == NewStatus(o.Target().fullname))
  {
  }

  lemma FirstWorker(s: System, o: UpdatePodOptions, cacheTerminal: bool)
    requires Inv(s) && o.WellFormed() && !(o.IsRuntime() && !o.updateType.SyncPodKill?)
    requires o.Target().uid !in s.sh.statuses && !OverAtSight(s.sh, o, cacheTerminal)
    ensures var pod, s', w := o.Target(), ApplyUpdate(s, o, cacheTerminal), s.sh.nextChannel;
            && pod.uid in s'.sh.statuses
            && s'.sh.statuses[pod.uid] == Decide(NewStatus(pod.fullname), pod, o.IsRuntime(), o.updateType, o.kill).status.(working := true)
            && pod.uid in s'.sh.podUpdates && s'.sh.podUpdates[pod.uid] == w
            && w !in s.workers && s'.workers == s.workers[w := Worker(pod.uid, pod.isStatic, false, 0, Idle)]
            && w in s'.sh.channels && |s'.sh.channels[w].buffer| == 1 && !s'.sh.channels[w].closed
            && GivenBy(s, Update(o, cacheTerminal), s', pod.uid, s'.sh.channels[w].buffer[0])
            && s'.sh.channels[w].buffer[0].workType
               == if AsksToEnd(pod, o.IsRuntime(), o.updateType) then TerminatingPodWork else SyncPodWork
  {
    hide UpdatePod, Decide, GivenBy;
    var pod, s' := o.Target(), ApplyUpdate(s, o, cacheTerminal);
    SeenFirst(s.sh, o, cacheTerminal);
    NewBegins(s, o, cacheTerminal);
    assert s.sh.nextChannel !in s.workers;
    assert pod.uid !in s.sh.podUpdates by { assert PodFits(pod.uid, ViewOf(s, pod.uid)); }
    hide Inv, Register;
    var v := Decide(NewStatus(pod.fullname), pod, o.IsRuntime(), o.updateType, o.kill);
    NewGiven(s, o, cacheTerminal, s', v, 1);
    UpdateTouches(s.sh, o, cacheTerminal);
    DecideGives(NewStatus(pod.fullname), o);
    DecideFacts(NewStatus(pod.fullname), pod, o.IsRuntime(), o.updateType, o.kill);
  }

  /** The flag is set after the step exactly if it was, or the step sets it. */
  ghost predicate SetBy(s: System, e: Event, s': System, u: UID, f: Flag)
    requires u in s'.sh.statuses
  {
    Set(s'.sh.statuses[u], f) <==> (u in s.sh.statuses && Set(s.sh.statuses[u], f)) || Sets(s, e, u, f)
  }

  /** st' has the flag exactly if st had it or the request sets it. */
  ghost predicate FlagsAfter(s: Shared, o: UpdatePodOptions, cacheTerminal: bool, st: PodSyncStatus, st': PodSyncStatus)
    requires o.WellFormed()
  {
    forall f :: Set(st', f) <==> Set(st, f) || RequestSets(s, o, cacheTerminal, f)
  }

  lemma DecidedFlags(s: Shared, o: UpdatePodOptions, cacheTerminal: bool, st: PodSyncStatus)
    requires o.WellFormed() && !(o.IsRuntime() && !o.updateType.SyncPodKill?) && !OverAtSight(s, o, cacheTerminal)
    requires LifecycleOrdered(st) && !st.finished && !(st.terminatingAt && o.updateType.SyncPodCreate?)
    requires o.Target().uid in s.statuses ==> s.statuses[o.Target().uid] == st
    requires o.Target().uid !in s.statuses ==> !st.terminatingAt
    ensures FlagsAfter(s, o, cacheTerminal, st, Decide(st, o.Target(), o.IsRuntime(), o.updateType, o.kill).status)
  {
    AskedExactly(st, o.Target(), o.IsRuntime(), o.updateType, o.kill);
    DecideRecords(st, o.Target(), o.IsRuntime(), o.updateType, o.kill);
    DecideKeepsTerminated(st, o.Target(), o.IsRuntime(), o.updateType, o.kill);
    hide Decide, RequestTermination;
  }

  lemma FirstFlags(s: System, o: UpdatePodOptions, cacheTerminal: bool)
    requires Inv(s) && o.WellFormed() && !(o.IsRuntime() && !o.updateType.SyncPodKill?)
    requires o.Target().uid !in s.sh.statuses
    ensures var u, s' := o.Target().uid, UpdatePod(s.sh, o, cacheTerminal);
            u in s'.statuses && FlagsAfter(s.sh, o, cacheTerminal, NewStatus(o.Target().fullname), s'.statuses[u])
  {
    hide UpdatePod, Inv;
    SeenFirst(s.sh, o, cacheTerminal);
    if OverAtSight(s.sh, o, cacheTerminal) {
      OverFlags(s.sh, o, cacheTerminal);
    } else {
      hide Register, Decide, AsksToEnd;
      FirstWorker(s, o, cacheTerminal);
      DecidedFlags(s.sh, o, cacheTerminal, NewStatus(o.Target().fullname));
    }
  }

  lemma OverFlags(s: Shared, o: UpdatePodOptions, cacheTerminal: bool)
    requires o.WellFormed() && OverAtSight(s, o, cacheTerminal)
    ensures var u, s' := o.Target().uid, UpdatePod(s, o, cacheTerminal);
            u in s'.statuses && FlagsAfter(s, o, cacheTerminal, NewStatus(o.Target().fullname), s'.statuses[u])
  {
    hide Decide, Dispatch, EnsureWorker;
  }

  lemma KnownFlags(s: System, o: UpdatePodOptions, cacheTerminal: bool)
    requires Inv(s) && o.WellFormed() && !(o.IsRuntime() && !o.updateType.SyncPodKill?)
    requires o.Target().uid in s.sh.statuses
    ensures var u, s' := o.Target().uid, UpdatePod(s.sh, o, cacheTerminal);
            u in s'.statuses && FlagsAfter(s.sh, o, cacheTerminal, s.sh.statuses[u], s'.statuses[u])
  {
    var u := o.Target().uid;
    assert LifecycleOrdered(s.sh.statuses[u]) by { assert PodFits(u, ViewOf(s, u)); }
    if s.sh.statuses[u].finished {
      hide Inv;
      FinishedFlags(s.sh, o, cacheTerminal);
    } else {
      HasChannel(s, u);
      hide Inv, UpdatePod, Served;
      AdmitActive(s.sh, o, cacheTerminal);
      ServedFlags(s.sh, o, cacheTerminal);
    }
  }

  lemma FinishedFlags(s: Shared, o: UpdatePodOptions, cacheTerminal: bool)
    requires o.WellFormed() && !(o.IsRuntime() && !o.updateType.SyncPodKill?) && o.Target().uid in s.statuses
    requires LifecycleOrdered(s.statuses[o.Target().uid]) && s.statuses[o.Target().uid].finished
    ensures var u, s' := o.Target().uid, UpdatePod(s, o, cacheTerminal);
            u in s'.statuses && FlagsAfter(s, o, cacheTerminal, s.statuses[u], s'.statuses[u])
  {
    hide Decide, Dispatch, EnsureWorker;
  }

  lemma ServedFlags(s: Shared, o: UpdatePodOptions, cacheTerminal: bool)
    requires o.WellFormed() && !(o.IsRuntime() && !o.updateType.SyncPodKill?) && o.Target().uid in s.statuses
    requires LifecycleOrdered(s.statuses[o.Target().uid]) && !s.statuses[o.Target().uid].finished
    ensures var u := o.Target().uid;
            u in Served(s, o).statuses && FlagsAfter(s, o, cacheTerminal, s.statuses[u], Served(s, o).statuses[u])
  {
    hide Decide, Dispatch, CloseCompletion;
    var u, st := o.Target().uid, s.statuses[o.Target().uid];
    if !Drops(st, o) {
      DecidedFlags(s, o, cacheTerminal, st);
      var v := Decide(st, o.Target(), o.IsRuntime(), o.updateType, o.kill);
      DispatchEffect(CloseCompletion(SetStatus(s, u, v.status), v.close), u, v);
      hide RequestSets;
    }
  }

  lemma RequestFlags(s: System, o: UpdatePodOptions, cacheTerminal: bool, u: UID, f: Flag)
    requires Inv(s) && o.WellFormed() && u in UpdatePod(s.sh, o, cacheTerminal).statuses
    ensures SetBy(s, Update(o, cacheTerminal), ApplyUpdate(s, o, cacheTerminal), u, f)
  {
    hide UpdatePod, Inv, RequestSets;
    if u != o.Target().uid {
      UpdateTouches(s.sh, o, cacheTerminal);
    } else if o.IsRuntime() && !o.updateType.SyncPodKill? {
      UpdateIgnored(s.sh, o, cacheTerminal);
      IgnoredSetsNothing(s.sh, o, cacheTerminal, f);
    } else if u in s.sh.statuses {
      KnownFlags(s, o, cacheTerminal);
    } else {
      FirstFlags(s, o, cacheTerminal);
    }
  }

  lemma IgnoredSetsNothing(s: Shared, o: UpdatePodOptions, cacheTerminal: bool, f: Flag)
    requires o.WellFormed() && o.IsRuntime() && !o.updateType.SyncPodKill?
    ensures !RequestSets(s, o, cacheTerminal, f)
  {
  }

  // ---------------------------------------------------------------- steps of workers

  /** The record of u after the completion of w's sync function. */
  function Completed(s: System, w: nat, st: PodSyncStatus): PodSyncStatus {
    if CompletesSync(s, Complete(w), w) then st.(terminatingAt := true, startedTerminating := true)
    else if EndsWorker(s, Complete(w), w) then st.(terminatedAt := true, finished := true, working := false)
    else if TerminatesSuccessfully(s, Complete(w), w) then
      st.(terminatedAt := true, notifyPostTerminating := [], statusPostTerminating := [])
    else st
  }

  lemma CompletionEnds(s: System, w: nat)
    requires Inv(s) && Enabled(s, Complete(w)) && EndsWorker(s, Complete(w), w)
    ensures var u, s' := s.workers[w].uid, Apply(s, Complete(w));
            && u in s.sh.statuses && u in s'.sh.statuses
            && s'.sh.statuses[u] == s.sh.statuses[u].(terminatedAt := true, finished := true, working := false)
            && (s.workers[w].phase.work.workType.TerminatedPodWork? ==> s.sh.statuses[u].terminatedAt)
  {
    LiveWorker(s, w);
    var u, work := s.workers[w].uid, s.workers[w].phase.work;
    hide Inv, NumbersFit, TokenFits, CompleteSync, CompleteTerminating;
    if work.workType.TerminatedPodWork? { TerminatedEnds(s.sh, u); } else { RuntimeEnds(s.sh, u); }
    hide CompleteTerminated, CompleteTerminatingRuntimePod, PhaseFits;
  }

  lemma CompletionParks(s: System, w: nat)
    requires Inv(s) && Enabled(s, Complete(w)) && !EndsWorker(s, Complete(w), w)
    ensures var u, s' := s.workers[w].uid, Apply(s, Complete(w));
            u in s.sh.statuses && u in s'.sh.statuses && s'.sh.statuses[u] == Completed(s, w, s.sh.statuses[u])
  {
    LiveWorker(s, w);
    var u, work := s.workers[w].uid, s.workers[w].phase.work;
    hide Inv, NumbersFit, TokenFits, CompleteTerminated, CompleteTerminatingRuntimePod, Park;
    if CompletesSync(s, Complete(w), w) {
      var st := s.sh.statuses[u].(terminatingAt := true, startedTerminating := true);
      ParkShape(SetStatus(s.sh, u, st), u, BareWork(TerminatingPodWork, work.pod));
    } else if TerminatesSuccessfully(s, Complete(w), w) {
      var st := s.sh.statuses[u].(terminatedAt := true, notifyPostTerminating := [], statusPostTerminating := []);
      ParkShape(SetStatus(s.sh, u, st).(completions := s.sh.completions + multiset(s.sh.statuses[u].notifyPostTerminating)),
                u, BareWork(TerminatedPodWork, work.pod));
    }
    hide PhaseFits;
  }

  lemma CompletionFlags(s: System, w: nat, f: Flag)
    requires Inv(s) && Enabled(s, Complete(w)) && s.workers[w].uid in Apply(s, Complete(w)).sh.statuses
    ensures SetBy(s, Complete(w), Apply(s, Complete(w)), s.workers[w].uid, f)
  {
    hide Inv, Apply;
    if EndsWorker(s, Complete(w), w) { CompletionEnds(s, w); } else { CompletionParks(s, w); }
  }

  lemma GiveUpFlags(s: System, w: nat, f: Flag)
    requires Inv(s) && Enabled(s, GiveUp(w)) && s.workers[w].uid in Apply(s, GiveUp(w)).sh.statuses
    ensures SetBy(s, GiveUp(w), Apply(s, GiveUp(w)), s.workers[w].uid, f)
  {
    LiveWorker(s, w);
    UnstartedEnds(s.sh, s.workers[w].uid);
    hide Inv, NumbersFit, TokenFits, CompleteUnstartedTerminated;
  }

  lemma AcknowledgeFlags(s: System, w: nat, f: Flag)
    requires Inv(s) && Enabled(s, Acknowledge(w)) && s.workers[w].uid in Apply(s, Acknowledge(w)).sh.statuses
    ensures SetBy(s, Acknowledge(w), Apply(s, Acknowledge(w)), s.workers[w].uid, f)
  {
    LiveWorker(s, w);
    hide Inv, NumbersFit, TokenFits;
  }

  /** The other steps leave the flags alone. */
  lemma QuietFlags(s: System, e: Event, w: nat)
    requires Inv(s) && Enabled(s, e) && IsWorkerEvent(e) && WorkerOf(e) == w && !e.Complete? && !e.GiveUp? && !e.Acknowledge?
    ensures w in s.workers
    ensures var u, s' := s.workers[w].uid, Apply(s, e);
            && u in s.sh.statuses && u in s'.sh.statuses
            && s'.sh.statuses[u] == s.sh.statuses[u].(working := s'.sh.statuses[u].working, ctx := s'.sh.statuses[u].ctx)
  {
    LiveWorker(s, w);
    var u := s.workers[w].uid;
    assert Held(s.workers[w].phase).Some? ==> Held(s.workers[w].phase).value.pod.uid == u;
    assert s.workers[w].phase.Requeuing? ==> s.workers[w].phase.pod.uid == u;
    hide Inv, ActiveFits, LifecycleOrdered, Apply;
    match e
    case TryStart(_) => TryStartFlags(s, w);
    case TakeContext(_) => TakeFlags(s, w);
    case Requeue(_) => RequeueFlags(s, w);
    case _ => SameStatuses(s, e);
  }

  lemma SameStatuses(s: System, e: Event)
    requires Enabled(s, e) && (e.Receive? || e.CacheFails? || e.Return?)
    ensures Apply(s, e).sh.statuses == s.sh.statuses
  {
  }

  lemma RequeueFlags(s: System, w: nat)
    requires Enabled(s, Requeue(w)) && s.workers[w].phase.pod.uid in s.sh.statuses
    ensures var u, sh := s.workers[w].phase.pod.uid, Apply(s, Requeue(w)).sh;
            u in sh.statuses && sh.statuses[u] == s.sh.statuses[u].(working := sh.statuses[u].working)
  {
    hide CompleteWorkQueueNext;
    NextFlags(s.sh, s.workers[w].phase.pod.uid);
  }

  lemma TryStartFlags(s: System, w: nat)
    requires Enabled(s, TryStart(w)) && s.workers[w].phase.work.pod.uid in s.sh.statuses
    ensures var u, sh := s.workers[w].phase.work.pod.uid, Apply(s, TryStart(w)).sh;
            u in sh.statuses && sh.statuses[u] == s.sh.statuses[u].(working := sh.statuses[u].working)
  {
    AllowPodStartFrame(s.sh, s.workers[w].phase.work.pod);
    hide AllowPodStart;
  }

  lemma TakeFlags(s: System, w: nat)
    requires Enabled(s, TakeContext(w)) && s.workers[w].phase.work.pod.uid in s.sh.statuses
    ensures var u, sh := s.workers[w].phase.work.pod.uid, Apply(s, TakeContext(w)).sh;
            u in sh.statuses && sh.statuses[u] == s.sh.statuses[u].(ctx := sh.statuses[u].ctx)
  {
    ContextFrame(s.sh, s.workers[w].phase.work.pod.uid);
    hide ContextForWorker;
  }

  lemma NextFlags(s: Shared, u: UID)
    requires u in s.statuses
    ensures var s' := CompleteWorkQueueNext(s, u);
            u in s'.statuses && s'.statuses[u] == s.statuses[u].(working := s'.statuses[u].working)
  {
    hide Send;
    if u in s.lastUndelivered { SendEffect(s, u, s.lastUndelivered[u]); }
  }

  lemma OwnFlags(s: System, e: Event, w: nat, f: Flag)
    requires Inv(s) && Enabled(s, e) && IsWorkerEvent(e) && WorkerOf(e) == w && w in s.workers
    requires s.workers[w].uid in Apply(s, e).sh.statuses
    ensures SetBy(s, e, Apply(s, e), s.workers[w].uid, f)
  {
    hide Inv, Enabled, Apply;
    match e
    case Complete(_) => CompletionFlags(s, w, f);
    case GiveUp(_) => GiveUpFlags(s, w, f);
    case Acknowledge(_) => AcknowledgeFlags(s, w, f);
    case _ => QuietFlags(s, e, w);
  }

  /** Exactly which steps set a flag, and none ever clears one. */
  lemma StepSets(s: System, e: Event, s': System, u: UID, f: Flag)
    requires Inv(s) && Next(s, e, s') && u in s'.sh.statuses
    ensures SetBy(s, e, s', u, f)
  {
    hide Inv, RequestSets, WorkerSets, UpdatePod, SyncKnownPods, ApplyComplete, ApplyTryStart, ApplyTakeContext, ApplyReceive,
         CompleteWorkQueueNext, CompleteUnstartedTerminated, AcknowledgeTerminating;
    if e.Update? {
      RequestFlags(s, e.options, e.cacheTerminal, u, f);
    } else if e.SyncKnown? {
      SyncKnownEffect(s.sh, e.order, e.desired, u);
    } else {
      WorkerTouches(s, e);
      if s.workers[WorkerOf(e)].uid == u { OwnFlags(s, e, WorkerOf(e), f); }
    }
  }

  /** A runtime-only request speaks for a pod of that UID and name without annotations, status
      or periods, and a configured pod comes before a runtime one. */
  lemma RequestedPod(o: UpdatePodOptions)
    requires o.WellFormed()
    ensures o.pod.Some? ==> o.Target() == o.pod.value && !o.IsRuntime()
    ensures o.pod.None? ==>
              var pod, running := o.Target(), o.runningPod.value;
              && o.IsRuntime() && pod.uid == running.uid && pod.fullname == running.fullname
              && !pod.isStatic && !pod.deleting && !TerminalPhase(pod.phase)
              && pod.deletionGrace == None && pod.specGrace == None
  {
  }

  /** An orphan's worker does not wait for the pod cache: its next step after it took an item
      hands out a context. */
  lemma OrphansSkipCache(tr: seq<System>, events: seq<Event>, i: nat, w: nat)
    requires IsRun(tr, events) && |tr| == |events| + 1 && i < |events| && IsWorkerEvent(events[i]) && WorkerOf(events[i]) == w
    requires w in tr[i].workers && tr[i].workers[w].phase.Ready? && tr[i].workers[w].phase.work.runtime
    ensures events[i] == TakeContext(w)
    ensures Live(tr[i + 1], w) && ContextOf(tr[i + 1].workers[w].phase).Some?
  {
    RunStep(tr, events, i);
    LiveWorker(tr[i], w);
    hide Inv, ActiveFits, ApplyComplete, ApplyReceive, ApplyTryStart, CompleteWorkQueueNext, CompleteUnstartedTerminated;
  }

  // ---------------------------------------------------------------- flags over runs

  /** Some step between r and j set the flag of u. */
  ghost predicate SetSince(tr: seq<System>, events: seq<Event>, r: nat, j: nat, u: UID, f: Flag)
    requires |tr| == |events| + 1 && j < |tr|
  {
    exists k: nat :: r <= k < j && Sets(tr[k], events[k], u, f)
  }

  /** u was registered at r and has been known since. */
  ghost predicate RegisteredAt(tr: seq<System>, r: nat, j: nat, u: UID)
    requires j < |tr|
  {
    r < j && u !in tr[r].sh.statuses && forall k :: r < k <= j ==> u in tr[k].sh.statuses
  }

  /** A flag is set exactly if some step since the pod was registered set it. */
  lemma {:induction false} FlagsExactly(tr: seq<System>, events: seq<Event>, r: nat, j: nat, u: UID, f: Flag)
    requires IsRun(tr, events) && |tr| == |events| + 1 && j < |tr| && RegisteredAt(tr, r, j, u)
    ensures Set(tr[j].sh.statuses[u], f) <==> SetSince(tr, events, r, j, u, f)
    decreases j
  {
    hide Next, Inv, IsRun, Set, Sets;
    RunStep(tr, events, j - 1);
    StepSets(tr[j - 1], events[j - 1], tr[j], u, f);
    if r < j - 1 { FlagsExactly(tr, events, r, j - 1, u, f); }
  }

  /** Every known pod was registered at some step. */
  lemma RegisteredSometime(tr: seq<System>, events: seq<Event>, j: nat, u: UID) returns (r: nat)
    requires IsRun(tr, events) && j < |tr| && u in tr[j].sh.statuses
    ensures RegisteredAt(tr, r, j, u)
  {
    r := KnownSince(tr, events, j, u);
  }

  /** A terminal syncPod starts the termination of its pod at once. */
  lemma CompletionStartsTermination(tr: seq<System>, events: seq<Event>, i: nat, w: nat)
    requires IsRun(tr, events) && |tr| == |events| + 1 && i < |events| && CompletesSync(tr[i], events[i], w)
    ensures var u := tr[i].workers[w].uid;
            && u in tr[i + 1].sh.statuses && tr[i + 1].sh.statuses[u].terminatingAt
            && ShouldPodContainersBeTerminating(tr[i + 1].sh, u)
  {
    RunStep(tr, events, i);
    WorkerTouches(tr[i], events[i]);
    hide Inv, Next;
    StepSets(tr[i], events[i], tr[i + 1], tr[i].workers[w].uid, Asked);
    StepSets(tr[i], events[i], tr[i + 1], tr[i].workers[w].uid, Started);
  }

  /** u's worker observes the request to terminate, or comes out of a terminal syncPod. */
  predicate StartsTermination(s: System, e: Event, w: nat, u: UID) {
    w in s.workers && s.workers[w].uid == u && (e == Acknowledge(w) || CompletesSync(s, e, w))
  }

  /** u's worker gives up an unstarted pod, or comes out of its last sync function. */
  predicate FinishesPod(s: System, e: Event, w: nat, u: UID) {
    w in s.workers && s.workers[w].uid == u && (e == GiveUp(w) || EndsWorker(s, e, w))
  }

  /** u is seen for the first time, and is over. */
  predicate SeenOver(s: System, e: Event, u: UID) {
    && e.Update? && e.options.WellFormed() && e.options.Target().uid == u
    && OverAtSight(s.sh, e.options, e.cacheTerminal)
  }

  lemma StartersSet(s: System, e: Event, u: UID)
    ensures Sets(s, e, u, Started) <==> (exists w :: StartsTermination(s, e, w, u)) || SeenOver(s, e, u)
  {
    if IsWorkerEvent(e) && Sets(s, e, u, Started) { assert StartsTermination(s, e, WorkerOf(e), u); }
  }

  lemma FinishersSet(s: System, e: Event, u: UID)
    ensures Sets(s, e, u, Finished) <==> (exists w :: FinishesPod(s, e, w, u)) || SeenOver(s, e, u)
  {
    if IsWorkerEvent(e) && Sets(s, e, u, Finished) { assert FinishesPod(s, e, WorkerOf(e), u); }
  }

  /** Containers of a pod should be terminating from exactly these steps on. */
  lemma StartsExactly(tr: seq<System>, events: seq<Event>, i: nat, u: UID)
    requires IsRun(tr, events) && |tr| == |events| + 1 && i < |events| && u in tr[i + 1].sh.statuses
    requires u in tr[i].sh.statuses ==> !ShouldPodContainersBeTerminating(tr[i].sh, u)
    ensures ShouldPodContainersBeTerminating(tr[i + 1].sh, u) <==>
              (exists w :: StartsTermination(tr[i], events[i], w, u)) || SeenOver(tr[i], events[i], u)
  {
    hide IsRun, Inv, Next, Sets, StartsTermination, SeenOver;
    RunStep(tr, events, i);
    StepSets(tr[i], events[i], tr[i + 1], u, Started);
    StartersSet(tr[i], events[i], u);
  }

  /** A pod becomes finished by exactly these steps. */
  lemma FinishesExactly(tr: seq<System>, events: seq<Event>, i: nat, u: UID)
    requires IsRun(tr, events) && |tr| == |events| + 1 && i < |events| && u in tr[i + 1].sh.statuses
    requires u in tr[i].sh.statuses ==> !tr[i].sh.statuses[u].finished
    ensures tr[i + 1].sh.statuses[u].finished <==>
              (exists w :: FinishesPod(tr[i], events[i], w, u)) || SeenOver(tr[i], events[i], u)
  {
    hide IsRun, Inv, Next, Sets, FinishesPod, SeenOver;
    RunStep(tr, events, i);
    StepSets(tr[i], events[i], tr[i + 1], u, Finished);
    FinishersSet(tr[i], events[i], u);
  }

  // ---------------------------------------------------------------- the answers to other parts of the kubelet

  lemma {:induction false} SyncedExactly(tr: seq<System>, events: seq<Event>, j: nat)
    requires IsRun(tr, events) && |tr| == |events| + 1 && j < |tr|
    ensures tr[j].sh.podsSynced <==> exists k :: 0 <= k < j && events[k].SyncKnown?
  {
    hide Next, Inv, IsRun;
    RunStarts(tr, events);
    if j > 0 {
      SyncedExactly(tr, events, j - 1);
      RunStep(tr, events, j - 1);
      StepSyncs(tr[j - 1], events[j - 1], tr[j]);
    }
  }

  lemma StepSyncs(s: System, e: Event, s': System)
    requires Inv(s) && Next(s, e, s')
    ensures s'.sh.podsSynced <==> s.sh.podsSynced || e.SyncKnown?
  {
    hide Inv, UpdatePod, SyncKnownPods, ApplyComplete, ApplyTryStart, ApplyTakeContext, ApplyReceive,
         CompleteWorkQueueNext, CompleteUnstartedTerminated, AcknowledgeTerminating;
    if e.Update? {
      UpdateTouches(s.sh, e.options, e.cacheTerminal);
    } else if e.SyncKnown? {
      SyncKnownEffect(s.sh, e.order, e.desired, 0);
    } else {
      WorkerTouches(s, e);
    }
  }

  /** Every answer, by the steps of the run. For a known pod it tells what happened to it since
      it was registered, at step r; for an unknown one, whether any SyncKnownPods ran. */
  lemma AnswersExactly(tr: seq<System>, events: seq<Event>, j: nat, u: UID) returns (r: nat)
    requires IsRun(tr, events) && |tr| == |events| + 1 && j < |tr|
    ensures u in tr[j].sh.statuses ==>
              && RegisteredAt(tr, r, j, u)
              && (ShouldPodContainersBeTerminating(tr[j].sh, u) <==> SetSince(tr, events, r, j, u, Started))
              && (ShouldPodRuntimeBeRemoved(tr[j].sh, u) <==> SetSince(tr, events, r, j, u, Terminated))
              && (CouldHaveRunningContainers(tr[j].sh, u) <==> !SetSince(tr, events, r, j, u, Terminated))
              && (ShouldPodContentBeRemoved(tr[j].sh, u) <==>
                    || SetSince(tr, events, r, j, u, Evicted)
                    || (SetSince(tr, events, r, j, u, Deleted) && SetSince(tr, events, r, j, u, Terminated)))
              && (IsPodTerminationRequested(tr[j].sh, u) <==> SetSince(tr, events, r, j, u, Asked))
              && (IsPodKnownTerminated(tr[j].sh, u) <==> SetSince(tr, events, r, j, u, Terminated))
    ensures u !in tr[j].sh.statuses ==>
              var synced := exists k :: 0 <= k < j && events[k].SyncKnown?;
              && (ShouldPodContainersBeTerminating(tr[j].sh, u) <==> synced)
              && (ShouldPodRuntimeBeRemoved(tr[j].sh, u) <==> synced)
              && (ShouldPodContentBeRemoved(tr[j].sh, u) <==> synced)
              && (CouldHaveRunningContainers(tr[j].sh, u) <==> !synced)
              && !IsPodTerminationRequested(tr[j].sh, u) && !IsPodKnownTerminated(tr[j].sh, u)
  {
    hide IsRun, SetSince, RegisteredAt;
    r := 0;
    SyncedExactly(tr, events, j);
    if u in tr[j].sh.statuses {
      r := RegisteredSometime(tr, events, j, u);
      FlagsExactly(tr, events, r, j, u, Started);
      FlagsExactly(tr, events, r, j, u, Terminated);
      FlagsExactly(tr, events, r, j, u, Evicted);
      FlagsExactly(tr, events, r, j, u, Deleted);
      FlagsExactly(tr, events, r, j, u, Asked);
    }
  }

  /** What SyncKnownPods reports of a pod, in the words of the queries. */
  lemma ReportExactly(tr: seq<System>, events: seq<Event>, j: nat, u: UID)
    requires IsRun(tr, events) && j < |tr| && u in tr[j].sh.statuses
    ensures var s, st := tr[j].sh, tr[j].sh.statuses[u];
            && (StateOf(st).SyncPod? <==> !IsPodTerminationRequested(s, u))
            && (StateOf(st).TerminatingPod? <==> IsPodTerminationRequested(s, u) && CouldHaveRunningContainers(s, u))
            && (StateOf(st).TerminatedPod? <==> !CouldHaveRunningContainers(s, u) && !st.restartRequested)
            && (StateOf(st).TerminatedAndRecreatedPod? <==> !CouldHaveRunningContainers(s, u) && st.restartRequested)
  {
    LifecycleHolds(tr, events, j, u);
  }

  /** Position of a reported state in the life of a pod. */
  function Stage(state: PodWorkerState): nat {
    match state
    case SyncPod => 0
    case TerminatingPod => 1
    case TerminatedPod => 2
    case TerminatedAndRecreatedPod => 3
  }

  lemma AdvancesStage(st: PodSyncStatus, st': PodSyncStatus)
    requires Advances(st, st')
    ensures Stage(StateOf(st)) <= Stage(StateOf(st'))
  {
  }

  /** It never goes back while the pod stays known. */
  lemma {:induction false} ReportsForward(tr: seq<System>, events: seq<Event>, i: nat, j: nat, u: UID)
    requires IsRun(tr, events) && |tr| == |events| + 1 && i <= j < |tr|
    requires forall k :: i <= k <= j ==> u in tr[k].sh.statuses
    ensures Stage(StateOf(tr[i].sh.statuses[u])) <= Stage(StateOf(tr[j].sh.statuses[u]))
    decreases j - i
  {
    hide IsRun, Inv, Next, StateOf, Stage;
    if i < j {
      ReportsForward(tr, events, i, j - 1, u);
      RunStep(tr, events, j - 1);
      StepProgresses(tr[j - 1], events[j - 1], tr[j], u);
      AdvancesStage(tr[j - 1].sh.statuses[u], tr[j].sh.statuses[u]);
    }
  }

  /** A pod reported as terminated has no worker inside syncPod or syncTerminatingPod, and one
      reported as syncing none inside syncTerminatingPod or syncTerminatedPod. */
  lemma ReportedIsIdle(tr: seq<System>, events: seq<Event>, j: nat, w: nat)
    requires IsRun(tr, events) && j < |tr| && w in tr[j].workers && tr[j].workers[w].phase.Running?
    requires tr[j].workers[w].uid in tr[j].sh.statuses
    ensures match StateOf(tr[j].sh.statuses[tr[j].workers[w].uid])
            case SyncPod => Processes(tr[j], w, SyncPodWork)
            case TerminatingPod => !Processes(tr[j], w, TerminatedPodWork)
            case _ => Processes(tr[j], w, TerminatedPodWork)
  {
    RunInv(tr, events, j);
    LiveWorker(tr[j], w);
    hide Inv;
  }

  // ---------------------------------------------------------------- contexts

  /** This step changes the termination of u as a request does that cancels its sync: it joins,
      the worker is busy, and it is the first or changes a recorded period. */
  predicate Interrupts(s: System, e: Event, s': System, u: UID) {
    && e.Update? && e.options.WellFormed() && e.options.Target().uid == u
    && FateAt(s.sh, e.options, e.cacheTerminal).Joined?
    && u in s.sh.statuses && u in s'.sh.statuses && s.sh.statuses[u].working
    && (!s.sh.statuses[u].terminatingAt
        || (s.sh.statuses[u].gracePeriod != 0 && s'.sh.statuses[u].gracePeriod != s.sh.statuses[u].gracePeriod))
  }

  /** u's worker asks for a context. */
  predicate TakesContext(s: System, e: Event, u: UID) {
    e.TakeContext? && e.w in s.workers && s.workers[e.w].uid == u
  }

  lemma GivenUpContext(s: System, w: nat)
    requires Inv(s) && Enabled(s, GiveUp(w))
    ensures var u, s' := s.workers[w].uid, Apply(s, GiveUp(w));
            u in s.sh.statuses && u in s'.sh.statuses && s'.sh.statuses[u].ctx == s.sh.statuses[u].ctx
  {
    LiveWorker(s, w);
    UnstartedEnds(s.sh, s.workers[w].uid);
    hide Inv, NumbersFit, TokenFits, CompleteUnstartedTerminated;
  }

  lemma TakenContext(s: System, w: nat)
    requires Inv(s) && Enabled(s, TakeContext(w))
    ensures var u, s' := s.workers[w].uid, Apply(s, TakeContext(w));
            && u in s.sh.statuses && u in s'.sh.statuses
            && s'.sh.statuses[u].ctx == if s.sh.statuses[u].ctx.Some? && !s.sh.statuses[u].ctx.value.cancelled
                                        then s.sh.statuses[u].ctx else Some(Context(s.sh.nextContext, false))
  {
    LiveWorker(s, w);
    hide Inv, NumbersFit, TokenFits;
  }

  lemma KeptContext(s: System, e: Event, w: nat)
    requires Inv(s) && Enabled(s, e) && IsWorkerEvent(e) && WorkerOf(e) == w
    requires !e.Complete? && !e.GiveUp? && !e.TakeContext?
    ensures w in s.workers
    ensures var u, s' := s.workers[w].uid, Apply(s, e);
            u in s.sh.statuses && u in s'.sh.statuses && s'.sh.statuses[u].ctx == s.sh.statuses[u].ctx
  {
    LiveWorker(s, w);
    var u := s.workers[w].uid;
    assert Held(s.workers[w].phase).Some? ==> Held(s.workers[w].phase).value.pod.uid == u;
    assert s.workers[w].phase.Requeuing? ==> s.workers[w].phase.pod.uid == u;
    hide Inv, ActiveFits, LifecycleOrdered, ApplyComplete, ApplyTakeContext, CompleteUnstartedTerminated, Send;
    if e.TryStart? { AllowPodStartFrame(s.sh, s.workers[w].phase.work.pod); }
    hide AllowPodStart;
    if e.Requeue? && u in s.sh.lastUndelivered { SendEffect(s.sh, u, s.sh.lastUndelivered[u]); }
  }

  lemma OwnContext(s: System, e: Event, w: nat)
    requires Inv(s) && Enabled(s, e) && IsWorkerEvent(e) && WorkerOf(e) == w && !e.TakeContext?
    ensures w in s.workers
    ensures var u, s' := s.workers[w].uid, Apply(s, e);
            u in s.sh.statuses && u in s'.sh.statuses && s'.sh.statuses[u].ctx == s.sh.statuses[u].ctx
  {
    hide Inv, Apply;
    match e
    case Complete(_) => if EndsWorker(s, e, w) { CompletionEnds(s, w); } else { CompletionParks(s, w); }
    case GiveUp(_) => GivenUpContext(s, w);
    case _ => KeptContext(s, e, w);
  }

  lemma WorkerContext(s: System, e: Event, s': System, u: UID)
    requires Inv(s) && Next(s, e, s') && IsWorkerEvent(e) && u in s.sh.statuses && u in s'.sh.statuses
    ensures ContextFollows(s, e, s', u)
  {
    hide Inv, Apply;
    WorkerTouches(s, e);
    if s.workers[WorkerOf(e)].uid == u {
      if e.TakeContext? { TakenContext(s, e.w); } else { OwnContext(s, e, WorkerOf(e)); }
    }
  }

  lemma RequestContext(s: System, o: UpdatePodOptions, cacheTerminal: bool, u: UID)
    requires Inv(s) && o.WellFormed() && u in s.sh.statuses && u in UpdatePod(s.sh, o, cacheTerminal).statuses
    ensures ContextFollows(s, Update(o, cacheTerminal), ApplyUpdate(s, o, cacheTerminal), u)
  {
    assert o.IsRuntime() && !o.updateType.SyncPodKill? ==> FateAt(s.sh, o, cacheTerminal).Ignored?;
    hide UpdatePod, Inv, FateAt;
    if u != o.Target().uid {
      UpdateTouches(s.sh, o, cacheTerminal);
    } else if o.IsRuntime() && !o.updateType.SyncPodKill? {
      UpdateIgnored(s.sh, o, cacheTerminal);
    } else {
      hide ContextFollows;
      ReachedContext(s, o, cacheTerminal);
    }
  }

  lemma ReachedContext(s: System, o: UpdatePodOptions, cacheTerminal: bool)
    requires Inv(s) && o.WellFormed() && !(o.IsRuntime() && !o.updateType.SyncPodKill?)
    requires o.Target().uid in s.sh.statuses
    ensures o.Target().uid in UpdatePod(s.sh, o, cacheTerminal).statuses
    ensures ContextFollows(s, Update(o, cacheTerminal), ApplyUpdate(s, o, cacheTerminal), o.Target().uid)
  {
    hide UpdatePod, Inv, FateAt, Effective, KillOf, Appended, CloseCompletion;
    assert Register(s.sh, o.Target(), o.IsRuntime(), cacheTerminal) == s.sh;
    UpdateEffects(s, o, cacheTerminal);
    hide Register, Effects;
    var u, fate := o.Target().uid, FateAt(s.sh, o, cacheTerminal);
    EffectsContext(s.sh, UpdatePod(s.sh, o, cacheTerminal), o.Target(), KillOf(o.kill), fate);
  }

  lemma EffectsContext(s: Shared, s': Shared, pod: Pod, k: KillPodOptions, fate: Fate)
    requires pod.uid in s.statuses && Effects(s, s', pod, k, fate)
    ensures pod.uid in s'.statuses
    ensures s'.statuses[pod.uid].ctx == ContextAfter(s.statuses[pod.uid], fate.Joined?, s'.statuses[pod.uid].gracePeriod)
  {
    hide Effective, Appended, CloseCompletion;
  }

  /** A pod's context is cancelled by exactly those requests, replaced exactly if its worker asks
      for one and has none or a cancelled one, and otherwise stays as it is. */
  ghost predicate ContextFollows(s: System, e: Event, s': System, u: UID)
    requires u in s.sh.statuses && u in s'.sh.statuses
  {
    var ctx, ctx' := s.sh.statuses[u].ctx, s'.sh.statuses[u].ctx;
    ctx' == if TakesContext(s, e, u) then
              if ctx.Some? && !ctx.value.cancelled then ctx else Some(Context(s.sh.nextContext, false))
            else if Interrupts(s, e, s', u) && ctx.Some? then Some(Context(ctx.value.id, true))
            else ctx
  }

  lemma ContextExactly(s: System, e: Event, s': System, u: UID)
    requires Inv(s) && Next(s, e, s') && u in s.sh.statuses && u in s'.sh.statuses
    ensures ContextFollows(s, e, s', u)
  {
    hide Inv, ContextFollows, Apply;
    if e.Update? {
      IsUpdate(s, e, s');
      RequestContext(s, e.options, e.cacheTerminal, u);
    } else if e.SyncKnown? {
      KnownContext(s, e, s', u);
    } else {
      WorkerContext(s, e, s', u);
    }
  }

  lemma IsUpdate(s: System, e: Event, s': System)
    requires Next(s, e, s') && e.Update?
    ensures e.options.WellFormed() && s' == ApplyUpdate(s, e.options, e.cacheTerminal)
  {
  }

  lemma KnownContext(s: System, e: Event, s': System, u: UID)
    requires Next(s, e, s') && e.SyncKnown? && u in s.sh.statuses && u in s'.sh.statuses
    ensures ContextFollows(s, e, s', u)
  {
    hide SyncKnownPods;
    SyncKnownEffect(s.sh, e.order, e.desired, u);
  }

  // ---------------------------------------------------------------- what the log calls programmer errors

  /** The states in which the endings of a worker log an error do not occur. */
  lemma EndsInOrder(tr: seq<System>, events: seq<Event>, i: nat, w: nat)
    requires IsRun(tr, events) && |tr| == |events| + 1 && i < |events| && w in tr[i].workers
    ensures events[i] == GiveUp(w) || EndsWorker(tr[i], events[i], w) || TerminatesSuccessfully(tr[i], events[i], w)
            || events[i] == TryStart(w) || events[i] == Requeue(w) ==>
              tr[i].workers[w].uid in tr[i].sh.statuses
    ensures events[i] == GiveUp(w) || EndsWorker(tr[i], events[i], w) ==>
              w in tr[i].sh.channels && !tr[i].sh.channels[w].closed
    ensures var u := tr[i].workers[w].uid;
            u in tr[i].sh.statuses ==>
              var st := tr[i].sh.statuses[u];
              && (events[i] == GiveUp(w) ==> st.terminatingAt && !st.terminatedAt)
              && (TerminatesSuccessfully(tr[i], events[i], w) ==> st.terminatingAt && !st.terminatedAt)
              && (EndsWorker(tr[i], events[i], w) && !TerminatesSuccessfully(tr[i], events[i], w) ==>
                    st.terminatingAt && st.terminatedAt)
  {
    RunStep(tr, events, i);
    if Live(tr[i], w) { LiveWorker(tr[i], w); }
    hide Inv, NumbersFit, TokenFits, Apply;
  }
}
