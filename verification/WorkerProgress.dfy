/** What a single step can do to a pod's status and to a worker: nothing ever moves back. */
module WorkerProgress {
  import opened PodTypes
  import opened GracePeriod
  import opened WorkerState
  import opened WorkerSystem
  import opened WorkerInvariant

  predicate Advances(st: PodSyncStatus, st': PodSyncStatus) {
    && st'.fullname == st.fullname
    && (st.terminatingAt ==> st'.terminatingAt)
    && (st.startedTerminating ==> st'.startedTerminating)
    && (st.deleted ==> st'.deleted)
    && (st.evicted ==> st'.evicted)
    && (st.terminatedAt ==> st'.terminatedAt)
    && (st.finished ==> st'.finished)
    && (st.restartRequested ==> st'.restartRequested)
  }

  /** An UpdatePod call that makes an unknown UID known. */
  predicate Registers(s: System, e: Event, u: UID) {
    e.Update? && e.options.WellFormed() && e.options.Target().uid == u && u !in s.sh.statuses
  }

  lemma CloseEffect(s: Shared, u: UID)
    ensures var s' := CloseUpdates(s, u); s' == s.(channels := s'.channels, faults := s'.faults)
  {
  }

  lemma CleanupEffect(s: Shared, u: UID)
    ensures var s' := CleanupPodUpdates(s, u);
            s' == s.(channels := s'.channels, faults := s'.faults,
                     podUpdates := s.podUpdates - {u}, lastUndelivered := s.lastUndelivered - {u})
  {
    CloseEffect(s, u);
    hide CloseUpdates;
  }

  /** What one visit of the housekeeping pass does. */
  lemma VisitEffect(s: Shared, v: UID, desired: set<UID>)
    ensures var s' := VisitKnown(s, v, desired);
            && s'.podsSynced == s.podsSynced
            && (s' == s
                || (&& v in s.statuses && s.statuses[v].finished
                    && s'.statuses == s.statuses - {v}
                    && s'.podUpdates == s.podUpdates - {v}))
  {
    if v in s.statuses && s.statuses[v].finished {
      CleanupEffect(s.(statuses := s.statuses - {v}), v);
    }
  }

  lemma {:induction false} SweepEffect(s: Shared, order: seq<UID>, desired: set<UID>, u: UID)
    ensures var s' := Sweep(s, order, desired);
            && s'.podsSynced == s.podsSynced
            && (u in s'.statuses ==> u in s.statuses && s'.statuses[u] == s.statuses[u])
            && (u in s.statuses && u !in s'.statuses ==> s.statuses[u].finished)
            && (u in s'.podUpdates ==> u in s.podUpdates && s'.podUpdates[u] == s.podUpdates[u])
    decreases |order|
  {
    if order != [] {
      SweepEffect(s, order[..|order| - 1], desired, u);
      VisitEffect(Sweep(s, order[..|order| - 1], desired), order[|order| - 1], desired);
    }
  }

  function WorkerOf(e: Event): nat
    requires IsWorkerEvent(e)
  {
    match e
    case Receive(w) => w
    case TryStart(w) => w
    case GiveUp(w) => w
    case CacheFails(w) => w
    case TakeContext(w) => w
    case Acknowledge(w) => w
    case Return(w, _) => w
    case Complete(w) => w
    case Requeue(w) => w
  }

  /** A worker's step: its own pod advances, nobody else's status or channel changes. */
  ghost predicate Touches(s: System, s': System, w: nat) {
    && w in s.workers && w in s'.workers && s'.workers == s.workers[w := s'.workers[w]]
    && s'.workers[w].uid == s.workers[w].uid && s'.workers[w].isStatic == s.workers[w].isStatic
    && (s.workers[w].started ==> s'.workers[w].started)
    && var u := s.workers[w].uid;
    && u in s.sh.statuses && u in s'.sh.statuses
    && s'.sh.podsSynced == s.sh.podsSynced
    && s'.sh.statuses == s.sh.statuses[u := s'.sh.statuses[u]]
    && Advances(s.sh.statuses[u], s'.sh.statuses[u])
    && s'.sh.statuses[u].gracePeriod == s.sh.statuses[u].gracePeriod
    && (!s'.sh.statuses[u].terminatedAt ==>
          s'.sh.statuses[u].statusPostTerminating == s.sh.statuses[u].statusPostTerminating)
    && (s'.sh.statuses[u].ctx == s.sh.statuses[u].ctx
        || (s'.sh.statuses[u].ctx.Some? && !s'.sh.statuses[u].ctx.value.cancelled))
    && u in s.sh.podUpdates && s.sh.podUpdates[u] == w && !s.workers[w].phase.Gone?
    && s'.sh.podUpdates == (if s'.workers[w].phase.Gone? then s.sh.podUpdates - {u} else s.sh.podUpdates)
  }

  lemma CompleteTouches(s: System, w: nat)
    requires Inv(s) && Enabled(s, Complete(w))
    ensures Touches(s, Apply(s, Complete(w)), w)
  {
    LiveWorker(s, w);
    var Returned(work, _, outcome) := s.workers[w].phase;
    hide Inv, ActiveFits, CompleteTerminated, CompleteTerminating, CompleteTerminatingRuntimePod, Park;
    if outcome.Done? && (work.workType.TerminatedPodWork? || (work.workType.TerminatingPodWork? && work.runtime)) {
      EndTouches(s, w);
    } else if outcome.Done? && work.workType.TerminatingPodWork? {
      TerminatingTouches(s, w);
    } else if outcome.Done? && outcome.isTerminal {
      SyncTouches(s, w);
    }
  }

  /** A worker that ends normally. */
  lemma EndTouches(s: System, w: nat)
    requires Inv(s) && Enabled(s, Complete(w)) && s.workers[w].phase.outcome.Done?
    requires var work := s.workers[w].phase.work;
             work.workType.TerminatedPodWork? || (work.workType.TerminatingPodWork? && work.runtime)
    ensures Touches(s, Apply(s, Complete(w)), w)
  {
    LiveWorker(s, w);
    var u := s.workers[w].uid;
    hide Inv, Touches, NumbersFit, TokenFits;
    if s.workers[w].phase.work.workType.TerminatedPodWork? {
      TerminatedEnds(s.sh, u);
    } else {
      RuntimeEnds(s.sh, u);
    }
    hide CompleteTerminated, CompleteTerminatingRuntimePod, Ended, PhaseFits;
    EndedTouches(s, u, w);
  }

  lemma EndedTouches(s: System, u: UID, w: nat)
    requires Linked(s.sh, u) && s.sh.podUpdates[u] == w && Live(s, w) && s.workers[w].uid == u
    ensures Touches(s, System(Ended(s.sh, u), s.workers[w := s.workers[w].(phase := Gone)]), w)
  {
  }

  lemma TerminatingTouches(s: System, w: nat)
    requires Inv(s) && Enabled(s, Complete(w)) && !s.workers[w].phase.work.runtime
    requires s.workers[w].phase.outcome.Done? && s.workers[w].phase.work.workType.TerminatingPodWork?
    ensures Touches(s, Apply(s, Complete(w)), w)
  {
    LiveWorker(s, w);
    var u, work := s.workers[w].uid, s.workers[w].phase.work;
    var st := s.sh.statuses[u].(terminatedAt := true, notifyPostTerminating := [], statusPostTerminating := []);
    hide Inv, NumbersFit, TokenFits, Park;
    ParkShape(SetStatus(s.sh, u, st).(completions := s.sh.completions + multiset(s.sh.statuses[u].notifyPostTerminating)),
              u, BareWork(TerminatedPodWork, work.pod));
    hide PhaseFits;
  }

  lemma SyncTouches(s: System, w: nat)
    requires Inv(s) && Enabled(s, Complete(w))
    requires s.workers[w].phase.outcome == Done(true) && s.workers[w].phase.work.workType.SyncPodWork?
    ensures Touches(s, Apply(s, Complete(w)), w)
  {
    LiveWorker(s, w);
    var u, work := s.workers[w].uid, s.workers[w].phase.work;
    var st := s.sh.statuses[u].(terminatingAt := true, startedTerminating := true);
    hide Inv, NumbersFit, TokenFits, Park;
    ParkShape(SetStatus(s.sh, u, st), u, BareWork(TerminatingPodWork, work.pod));
    hide PhaseFits;
  }

  lemma RequeueTouches(s: System, w: nat)
    requires Inv(s) && Enabled(s, Requeue(w))
    ensures Touches(s, Apply(s, Requeue(w)), w)
  {
    LiveWorker(s, w);
    var u := s.workers[w].uid;
    assert s.workers[w].phase.pod.uid == u;
    hide Inv, ActiveFits, Send;
    if u in s.sh.lastUndelivered { SendEffect(s.sh, u, s.sh.lastUndelivered[u]); }
  }

  lemma GiveUpTouches(s: System, w: nat)
    requires Inv(s) && Enabled(s, GiveUp(w))
    ensures Touches(s, Apply(s, GiveUp(w)), w)
  {
    LiveWorker(s, w);
    var u := s.workers[w].uid;
    hide Inv, Touches, NumbersFit, TokenFits;
    UnstartedEnds(s.sh, u);
    hide CompleteUnstartedTerminated, Ended, PhaseFits;
    EndedTouches(s, u, w);
  }

  lemma TryStartTouches(s: System, w: nat)
    requires Inv(s) && Enabled(s, TryStart(w))
    ensures Touches(s, Apply(s, TryStart(w)), w)
  {
    LiveWorker(s, w);
    AllowPodStartFrame(s.sh, s.workers[w].phase.work.pod);
  }

  lemma ReceiveTouches(s: System, w: nat)
    requires Inv(s) && Enabled(s, Receive(w))
    ensures Touches(s, Apply(s, Receive(w)), w)
  {
    LiveWorker(s, w);
  }

  lemma TakeContextTouches(s: System, w: nat)
    requires Inv(s) && Enabled(s, TakeContext(w))
    ensures Touches(s, Apply(s, TakeContext(w)), w)
  {
    LiveWorker(s, w);
    ContextFrame(s.sh, s.workers[w].uid);
    hide Inv, NumbersFit, TokenFits, ContextForWorker;
  }

  lemma AcknowledgeTouches(s: System, w: nat)
    requires Inv(s) && Enabled(s, Acknowledge(w))
    ensures Touches(s, Apply(s, Acknowledge(w)), w)
  {
    LiveWorker(s, w);
  }

  lemma WorkerTouches(s: System, e: Event)
    requires Inv(s) && Enabled(s, e) && IsWorkerEvent(e)
    ensures Touches(s, Apply(s, e), WorkerOf(e))
  {
    match e {
      case Receive(w) => ReceiveTouches(s, w);
      case TryStart(w) => TryStartTouches(s, w);
      case GiveUp(w) => GiveUpTouches(s, w);
      case CacheFails(w) => LiveWorker(s, w);
      case TakeContext(w) => TakeContextTouches(s, w);
      case Acknowledge(w) => AcknowledgeTouches(s, w);
      case Return(w, _) => LiveWorker(s, w);
      case Complete(w) => CompleteTouches(s, w);
      case Requeue(w) => RequeueTouches(s, w);
    }
  }

  lemma SendEffect(s: Shared, u: UID, work: PodWork)
    ensures var s' := Send(s, u, work); s' == s.(channels := s'.channels, faults := s'.faults)
  {
  }

  lemma IssueEffect(s: Shared, u: UID)
    ensures Issue(s, u) == s.(channels := Issue(s, u).channels)
  {
  }

  /** Dispatching changes u's status, its slots and its channel. */
  ghost predicate Dispatched(s: Shared, s': Shared, u: UID, st: PodSyncStatus) {
    && s' == s.(statuses := s'.statuses, lastUndelivered := s'.lastUndelivered,
                channels := s'.channels, faults := s'.faults)
    && u in s'.statuses
    && s'.statuses == s.statuses[u := s'.statuses[u]]
    && s'.statuses[u] == st.(working := true, ctx := s'.statuses[u].ctx)
  }

  lemma DispatchEffect(s: Shared, u: UID, v: Verdict)
    ensures Dispatched(s, Dispatch(s, u, v), u, v.status)
  {
    if !v.status.working {
      var s1 := SetStatus(s, u, v.status.(working := true));
      IssueEffect(s1, u);
      SendEffect(Issue(s1, u), u, v.work.(number := NextNumber(s, u)));
    } else {
      var s1 := SetStatus(s, u, if v.cancel then Cancelled(v.status) else v.status);
      IssueEffect(s1.(lastUndelivered := s1.lastUndelivered[u := v.work.(number := NextNumber(s1, u))]), u);
    }
  }

  lemma RequestAdvances(st: PodSyncStatus, pod: Pod, runtime: bool, ut: SyncPodType, kill: Option<KillPodOptions>)
    ensures Advances(st, RequestTermination(st, pod, runtime, ut, kill))
  {
    RequestShape(st, pod, runtime, ut, kill);
    hide RequestTermination;
  }

  lemma DecideAdvances(st: PodSyncStatus, pod: Pod, runtime: bool, ut: SyncPodType, kill: Option<KillPodOptions>)
    ensures Advances(st, Decide(st, pod, runtime, ut, kill).status)
  {
    RequestAdvances(st, pod, runtime, ut, kill);
    hide RequestTermination, Effective, Shortened, Appended;
  }

  lemma EnsureEffect(s: Shared, pod: Pod, fullname: FullName)
    ensures var s' := EnsureWorker(s, pod, fullname);
            && s'.podsSynced == s.podsSynced && s'.statuses == s.statuses
            && ((s'.podUpdates == s.podUpdates && s'.nextChannel == s.nextChannel)
                || (pod.uid !in s.podUpdates && s'.podUpdates == s.podUpdates[pod.uid := s.nextChannel]
                    && s'.nextChannel == s.nextChannel + 1))
  {
  }

  /** Only u's status changes, and it advances; at most u gets a new channel. */
  ghost predicate TouchesOnly(s: Shared, s': Shared, u: UID) {
    && s'.podsSynced == s.podsSynced
    && u in s'.statuses && s'.statuses == s.statuses[u := s'.statuses[u]]
    && (u in s.statuses ==> Advances(s.statuses[u], s'.statuses[u]))
    && ((s'.podUpdates == s.podUpdates && s'.nextChannel == s.nextChannel)
        || (u !in s.podUpdates && s'.podUpdates == s.podUpdates[u := s.nextChannel]
            && s'.nextChannel == s.nextChannel + 1))
  }

  lemma StatusTouches(s: Shared, u: UID, st: PodSyncStatus)
    requires u in s.statuses ==> Advances(s.statuses[u], st)
    ensures TouchesOnly(s, SetStatus(s, u, st), u)
  {
  }

  lemma ServeTouches(s: Shared, pod: Pod, fullname: FullName, v: Verdict)
    requires pod.uid in s.statuses ==> Advances(s.statuses[pod.uid], v.status)
    ensures TouchesOnly(s, Dispatch(Prepared(s, pod, fullname, v), pod.uid, v), pod.uid)
  {
    var s1 := CloseCompletion(SetStatus(s, pod.uid, v.status), v.close);
    hide Dispatch;
    EnsureEffect(s1, pod, fullname);
    DispatchEffect(Prepared(s, pod, fullname, v), pod.uid, v);
  }

  lemma RestartAdvances(st: PodSyncStatus)
    ensures Advances(st, st) && Advances(st, st.(restartRequested := true))
  {
  }

  lemma AdmitTouches(s: Shared, pod: Pod, runtime: bool, ut: SyncPodType, kill: Option<KillPodOptions>)
    requires pod.uid in s.statuses
    ensures TouchesOnly(s, Admit(s, pod, runtime, ut, kill, false), pod.uid)
  {
    hide Decide, Dispatch, EnsureWorker, CloseCompletion, TouchesOnly, Advances;
    var st := s.statuses[pod.uid];
    var v := Decide(st, pod, runtime, ut, kill);
    DecideAdvances(st, pod, runtime, ut, kill);
    if st.terminatingAt && ut.SyncPodCreate? {
      RestartAdvances(st);
      StatusTouches(s, pod.uid, st.(restartRequested := true));
    } else if st.finished {
      RestartAdvances(st);
      StatusTouches(s, pod.uid, st);
      assert SetStatus(s, pod.uid, st) == s;
    } else if v.status.terminatedAt && runtime {
      StatusTouches(s, pod.uid, v.status);
    } else {
      ServeTouches(s, pod, st.fullname, v);
    }
  }

  /** Registering first and then admitting is the same as admitting. */
  lemma AdmitRegistered(s: Shared, pod: Pod, runtime: bool, ut: SyncPodType, kill: Option<KillPodOptions>,
                        cacheTerminal: bool)
    ensures Admit(s, pod, runtime, ut, kill, cacheTerminal)
         == Admit(Register(s, pod, runtime, cacheTerminal), pod, runtime, ut, kill, false)
  {
  }

  lemma RegisterTouches(s: Shared, s1: Shared, s': Shared, u: UID)
    requires u in s1.statuses && s1 == SetStatus(s, u, s1.statuses[u])
    requires u in s.statuses ==> s1 == s
    requires TouchesOnly(s1, s', u)
    ensures TouchesOnly(s, s', u)
  {
  }

  /** UpdatePod touches the status of its own pod only. */
  lemma UpdateTouches(s: Shared, o: UpdatePodOptions, cacheTerminal: bool)
    requires o.WellFormed()
    ensures UpdatePod(s, o, cacheTerminal) == s
            || TouchesOnly(s, UpdatePod(s, o, cacheTerminal), o.Target().uid)
  {
    hide Admit, TouchesOnly;
    if !(o.IsRuntime() && !o.updateType.SyncPodKill?) {
      var s1 := Register(s, o.Target(), o.IsRuntime(), cacheTerminal);
      AdmitRegistered(s, o.Target(), o.IsRuntime(), o.updateType, o.kill, cacheTerminal);
      AdmitTouches(s1, o.Target(), o.IsRuntime(), o.updateType, o.kill);
      RegisterTouches(s, s1, UpdatePod(s, o, cacheTerminal), o.Target().uid);
    }
  }

  /** Any step, seen from one UID. */
  ghost predicate Progresses(s: System, e: Event, s': System, u: UID) {
    && (s.sh.podsSynced ==> s'.sh.podsSynced)
    && (u in s.sh.statuses && u in s'.sh.statuses ==> Advances(s.sh.statuses[u], s'.sh.statuses[u]))
    && (u in s.sh.statuses && u !in s'.sh.statuses ==>
          e.SyncKnown? && s.sh.statuses[u].finished && s'.sh.podsSynced)
    && (u !in s.sh.statuses && u in s'.sh.statuses ==> Registers(s, e, u))
    && (u in s.sh.podUpdates && u in s'.sh.podUpdates ==> s'.sh.podUpdates[u] == s.sh.podUpdates[u])
  }

  lemma StepProgresses(s: System, e: Event, s': System, u: UID)
    requires Inv(s) && Next(s, e, s')
    ensures Progresses(s, e, s', u)
  {
    hide UpdatePod, SyncKnownPods, ApplyComplete, ApplyTryStart, ApplyTakeContext, ApplyReceive,
         CompleteWorkQueueNext, CompleteUnstartedTerminated, AcknowledgeTerminating;
    if IsWorkerEvent(e) {
      WorkerTouches(s, e);
    } else if e.Update? {
      UpdateTouches(s.sh, e.options, e.cacheTerminal);
    } else {
      SyncKnownEffect(s.sh, e.order, e.desired, u);
    }
  }

  lemma SyncKnownEffect(s: Shared, order: seq<UID>, desired: set<UID>, u: UID)
    ensures var s' := SyncKnownPods(s, order, desired);
            && s'.podsSynced
            && (u in s'.statuses ==> u in s.statuses && s'.statuses[u] == s.statuses[u])
            && (u in s.statuses && u !in s'.statuses ==> s.statuses[u].finished)
            && (u in s'.podUpdates ==> u in s.podUpdates && s'.podUpdates[u] == s.podUpdates[u])
  {
    SweepEffect(s.(podsSynced := true), order, desired, u);
  }

  /** Any step, seen from one worker: it keeps its pod and never comes back. */
  ghost predicate KeepsWorker(s: System, e: Event, s': System, w: nat) {
    && w in s'.workers && w in s.workers
    && s'.workers[w].uid == s.workers[w].uid
    && s'.workers[w].isStatic == s.workers[w].isStatic
    && (s.workers[w].started ==> s'.workers[w].started)
    && (s.workers[w].phase.Gone? ==> s'.workers[w].phase.Gone?)
    && (!IsWorkerEvent(e) || WorkerOf(e) != w ==> s'.workers[w] == s.workers[w])
  }

  lemma StepKeepsWorker(s: System, e: Event, s': System, w: nat)
    requires Inv(s) && Next(s, e, s') && w in s.workers
    ensures KeepsWorker(s, e, s', w)
  {
    hide UpdatePod, SyncKnownPods, ApplyComplete, ApplyTryStart, ApplyTakeContext, ApplyReceive,
         CompleteWorkQueueNext, CompleteUnstartedTerminated, AcknowledgeTerminating;
    if IsWorkerEvent(e) {
      WorkerTouches(s, e);
    } else if e.Update? {
      UpdateTouches(s.sh, e.options, e.cacheTerminal);
    }
  }
}
