/** Kill requests over whole runs: what becomes of a request, the recorded grace period, the
    cancellations it causes, and the status functions. */
module KillRequests {
  import opened PodTypes
  import opened GracePeriod
  import opened WorkerState
  import opened WorkerSystem
  import opened WorkerInvariant
  import opened WorkerProgress
  import opened WorkerSafety

  // ---------------------------------------------------------------- what UpdatePod makes of a request

  datatype Fate = Ignored | Closed | Joined

  /** What becomes of a request for a pod in status st: dropped, answered at once, or joined
      to the termination under way. */
  function FateOf(st: PodSyncStatus, pod: Pod, runtime: bool, ut: SyncPodType, kill: Option<KillPodOptions>): Fate {
    if st.finished || (st.terminatingAt && ut.SyncPodCreate?) || (st.terminatedAt && runtime) then Ignored
    else if st.terminatedAt then Closed
    else if st.terminatingAt || AsksToEnd(pod, runtime, ut) then Joined
    else Closed
  }

  /** A request that ends its pod if nothing did before. */
  predicate AsksToEnd(pod: Pod, runtime: bool, ut: SyncPodType) {
    runtime || pod.deleting || TerminalPhase(pod.phase) || ut.SyncPodKill?
  }

  /** The first request for a pod that has ended and has nothing running. */
  predicate OverAtSight(s: Shared, o: UpdatePodOptions, cacheTerminal: bool)
    requires o.WellFormed()
  {
    o.Target().uid !in s.statuses && !o.IsRuntime() && TerminalPhase(o.Target().phase) && cacheTerminal
  }

  function KillOf(kill: Option<KillPodOptions>): KillPodOptions {
    if kill.Some? then kill.value else NO_KILL_OPTIONS
  }

  /** The effect of a request with this fate on grace period, channels, status functions and
      the context of the current sync. */
  ghost predicate Effects(s: Shared, s': Shared, pod: Pod, k: KillPodOptions, fate: Fate)
    requires pod.uid in s.statuses
  {
    var st := s.statuses[pod.uid];
    && pod.uid in s'.statuses
    && s'.statuses == s.statuses[pod.uid := s'.statuses[pod.uid]]
    && var st' := s'.statuses[pod.uid];
    && st'.gracePeriod == (if fate.Joined? then Effective(st.gracePeriod, pod, k) else st.gracePeriod)
    && st'.notifyPostTerminating == (if fate.Joined? then Appended(st.notifyPostTerminating, k.completedCh)
                                     else st.notifyPostTerminating)
    && st'.ctx == ContextAfter(st, fate.Joined?, st'.gracePeriod)
    && (st'.statusPostTerminating == if fate.Joined? then Appended(st.statusPostTerminating, k.podStatusFunc)
                                     else st.statusPostTerminating)
    && s'.completions == (if fate.Closed? then CloseCompletion(s, k.completedCh).completions else s.completions)
    && st'.terminatedAt == st.terminatedAt && st'.finished == st.finished
  }

  /** A request that joins a termination cancels the sync of a busy worker if it is the first,
      or changes a recorded period. */
  function ContextAfter(st: PodSyncStatus, joined: bool, period: int): Option<Context> {
    if joined && st.working && (!st.terminatingAt || (st.gracePeriod != 0 && period != st.gracePeriod)) && st.ctx.Some?
    then Some(Context(st.ctx.value.id, true)) else st.ctx
  }

  lemma DecideEffects(st: PodSyncStatus, pod: Pod, runtime: bool, ut: SyncPodType, kill: Option<KillPodOptions>)
    requires st.terminatedAt ==> st.terminatingAt
    requires !st.finished && !(st.terminatingAt && ut.SyncPodCreate?) && !(st.terminatedAt && runtime)
    ensures var v, k, fate := Decide(st, pod, runtime, ut, kill), KillOf(kill), FateOf(st, pod, runtime, ut, kill);
            && v.status.gracePeriod == (if fate.Joined? then Effective(st.gracePeriod, pod, k) else st.gracePeriod)
            && v.status.notifyPostTerminating
               == (if fate.Joined? then Appended(st.notifyPostTerminating, k.completedCh) else st.notifyPostTerminating)
            && (v.status.statusPostTerminating == if fate.Joined? then Appended(st.statusPostTerminating, k.podStatusFunc)
                                                  else st.statusPostTerminating)
            && v.status.ctx == st.ctx
            && v.status.working == st.working
            && (v.cancel <==> fate.Joined? && (!st.terminatingAt || Shortened(st.gracePeriod, pod, k)))
            && v.close == (if fate.Closed? then k.completedCh else None)
            && v.status.terminatedAt == st.terminatedAt && v.status.finished == st.finished
  {
    RequestShape(st, pod, runtime, ut, kill);
    AskedExactly(st, pod, runtime, ut, kill);
    hide RequestTermination, Effective, Shortened, Appended;
  }

  lemma ServeEffects(s: Shared, pod: Pod, fullname: FullName, v: Verdict)
    ensures var s' := Dispatch(Prepared(s, pod, fullname, v), pod.uid, v);
            && pod.uid in s'.statuses
            && s'.statuses == s.statuses[pod.uid := s'.statuses[pod.uid]]
            && s'.statuses[pod.uid].gracePeriod == v.status.gracePeriod
            && s'.statuses[pod.uid].notifyPostTerminating == v.status.notifyPostTerminating
            && s'.statuses[pod.uid].statusPostTerminating == v.status.statusPostTerminating
            && s'.statuses[pod.uid].ctx == (if v.status.working && v.cancel then Cancelled(v.status) else v.status).ctx
            && s'.statuses[pod.uid].terminatedAt == v.status.terminatedAt
            && s'.statuses[pod.uid].finished == v.status.finished
            && s'.completions == CloseCompletion(s, v.close).completions
  {
    hide Dispatch, EnsureWorker;
    var s1 := CloseCompletion(SetStatus(s, pod.uid, v.status), v.close);
    assert s1.statuses == s.statuses[pod.uid := v.status] && s1.completions == CloseCompletion(s, v.close).completions;
    var s2 := Prepared(s, pod, fullname, v);
    EnsureEffect(s1, pod, fullname);
    EnsureKeepsCompletions(s1, pod, fullname);
    assert s2.statuses == s1.statuses && s2.completions == s1.completions;
    hide Prepared, CloseCompletion;
    DispatchEffect(s2, pod.uid, v);
    DispatchContext(s2, pod.uid, v);
  }

  lemma DispatchContext(s: Shared, u: UID, v: Verdict)
    ensures u in Dispatch(s, u, v).statuses
    ensures Dispatch(s, u, v).statuses[u].ctx == (if v.status.working && v.cancel then Cancelled(v.status) else v.status).ctx
  {
    hide Issue, NextNumber, PassOver, CanSend;
    if !v.status.working {
      var s1 := SetStatus(s, u, v.status.(working := true));
      PassOverKeepsStatuses(s1, u);
      IssueEffect(PassOver(s1, u), u);
    } else {
      var s1 := SetStatus(s, u, if v.cancel then Cancelled(v.status) else v.status);
      IssueEffect(s1.(lastUndelivered := s1.lastUndelivered[u := v.work.(number := NextNumber(s1, u))]), u);
    }
  }

  lemma PassOverKeepsStatuses(s: Shared, u: UID)
    ensures PassOver(s, u).statuses == s.statuses
  {
  }

  lemma EnsureKeepsCompletions(s: Shared, pod: Pod, fullname: FullName)
    ensures EnsureWorker(s, pod, fullname).completions == s.completions
  {
  }

  lemma AdmitEffects(s: Shared, pod: Pod, runtime: bool, ut: SyncPodType, kill: Option<KillPodOptions>)
    requires pod.uid in s.statuses
    requires !s.statuses[pod.uid].finished && s.statuses[pod.uid].terminatedAt ==> s.statuses[pod.uid].terminatingAt
    ensures Effects(s, Admit(s, pod, runtime, ut, kill, false), pod, KillOf(kill),
                    FateOf(s.statuses[pod.uid], pod, runtime, ut, kill))
  {
    hide Decide, Dispatch, EnsureWorker, RequestTermination, Effective, Appended, AsksToEnd;
    var st := s.statuses[pod.uid];
    var v := Decide(st, pod, runtime, ut, kill);
    if st.terminatingAt && ut.SyncPodCreate? {
    } else if st.finished {
    } else if st.terminatedAt && runtime {
      TerminatedIsKept(st, pod, runtime, ut, kill);
    } else {
      DecideEffects(st, pod, runtime, ut, kill);
      ServeEffects(s, pod, st.fullname, v);
    }
  }

  lemma TerminatedIsKept(st: PodSyncStatus, pod: Pod, runtime: bool, ut: SyncPodType, kill: Option<KillPodOptions>)
    requires st.terminatedAt && st.terminatingAt
    ensures Decide(st, pod, runtime, ut, kill).status == st
  {
  }

  /** What a request records on a pod that has a worker. An eviction that arrives after the
      pod was asked to terminate, or together with its deletion or end, is not recorded. */
  lemma RequestRecordedExactly(s: Shared, o: UpdatePodOptions, cacheTerminal: bool)
    requires o.WellFormed() && !(o.IsRuntime() && !o.updateType.SyncPodKill?)
    requires o.Target().uid in s.statuses && o.Target().uid in s.podUpdates
    requires LifecycleOrdered(s.statuses[o.Target().uid]) && !s.statuses[o.Target().uid].finished
    ensures o.Target().uid in UpdatePod(s, o, cacheTerminal).statuses
    ensures var pod, st := o.Target(), s.statuses[o.Target().uid];
            var st' := UpdatePod(s, o, cacheTerminal).statuses[pod.uid];
            var ends := o.IsRuntime() || pod.deleting || TerminalPhase(pod.phase);
            var evicts := o.updateType.SyncPodKill? && o.kill.Some? && o.kill.value.evict;
            && (st'.terminatingAt <==> st.terminatingAt || ends || o.updateType.SyncPodKill?)
            && (st'.deleted <==> st.deleted || (!st.terminatingAt && (o.IsRuntime() || pod.deleting)))
            && (st'.evicted <==> st.evicted || (!st.terminatingAt && !ends && evicts))
            && (st'.restartRequested <==> st.restartRequested || (st.terminatingAt && o.updateType.SyncPodCreate?))
            && st'.fullname == st.fullname && st'.startedTerminating == st.startedTerminating
  {
    var pod, st := o.Target(), s.statuses[o.Target().uid];
    AdmitActive(s, o, cacheTerminal);
    hide UpdatePod;
    ServedRecords(s, o);
    hide Served;
    AskedExactly(st, pod, o.IsRuntime(), o.updateType, o.kill);
  }

  /** st' is st as a request leaves it, with `asked` what the request asks of it. */
  predicate LeftAs(st': PodSyncStatus, st: PodSyncStatus, asked: PodSyncStatus, restart: bool) {
    && st'.terminatingAt == asked.terminatingAt && st'.deleted == asked.deleted && st'.evicted == asked.evicted
    && (st'.restartRequested <==> st.restartRequested || restart)
    && st'.fullname == st.fullname && st'.startedTerminating == st.startedTerminating
  }

  lemma ServedRecords(s: Shared, o: UpdatePodOptions)
    requires o.WellFormed() && o.Target().uid in s.statuses && LifecycleOrdered(s.statuses[o.Target().uid])
    ensures var u, st := o.Target().uid, s.statuses[o.Target().uid];
            && u in Served(s, o).statuses
            && LeftAs(Served(s, o).statuses[u], st,
                      RequestTermination(st, o.Target(), o.IsRuntime(), o.updateType, o.kill),
                      st.terminatingAt && o.updateType.SyncPodCreate?)
  {
    hide LeftAs, Dispatch, Decide, RequestTermination, CloseCompletion;
    var st := s.statuses[o.Target().uid];
    RestartLeaves(st, o.Target(), o.IsRuntime(), o.updateType, o.kill);
    VerdictRecords(s, st, o.Target(), o.IsRuntime(), o.updateType, o.kill);
  }

  lemma RestartLeaves(st: PodSyncStatus, pod: Pod, runtime: bool, ut: SyncPodType, kill: Option<KillPodOptions>)
    ensures var asked := RequestTermination(st, pod, runtime, ut, kill);
            st.terminatingAt ==> LeftAs(st, st, asked, false) && LeftAs(st.(restartRequested := true), st, asked, true)
  {
    RequestShape(st, pod, runtime, ut, kill);
    hide RequestTermination;
  }

  lemma VerdictRecords(s: Shared, st: PodSyncStatus, pod: Pod, runtime: bool, ut: SyncPodType, kill: Option<KillPodOptions>)
    ensures var v := Decide(st, pod, runtime, ut, kill);
            var s' := Dispatch(CloseCompletion(SetStatus(s, pod.uid, v.status), v.close), pod.uid, v);
            pod.uid in s'.statuses && LeftAs(s'.statuses[pod.uid], st, RequestTermination(st, pod, runtime, ut, kill), false)
  {
    hide Dispatch, Decide, RequestTermination, CloseCompletion;
    var v := Decide(st, pod, runtime, ut, kill);
    DecideRecords(st, pod, runtime, ut, kill);
    DispatchRecords(CloseCompletion(SetStatus(s, pod.uid, v.status), v.close), pod.uid, v);
  }

  lemma AskedExactly(st: PodSyncStatus, pod: Pod, runtime: bool, ut: SyncPodType, kill: Option<KillPodOptions>)
    ensures var asked := RequestTermination(st, pod, runtime, ut, kill);
            var ends := runtime || pod.deleting || TerminalPhase(pod.phase);
            && (asked.terminatingAt <==> st.terminatingAt || ends || ut.SyncPodKill?)
            && (asked.deleted <==> st.deleted || (!st.terminatingAt && (runtime || pod.deleting)))
            && (asked.evicted <==> st.evicted
                                   || (!st.terminatingAt && !ends && ut.SyncPodKill? && kill.Some? && kill.value.evict))
  {
  }

  lemma DispatchRecords(s: Shared, u: UID, v: Verdict)
    ensures u in Dispatch(s, u, v).statuses
    ensures var st := Dispatch(s, u, v).statuses[u];
            && st.terminatingAt == v.status.terminatingAt && st.deleted == v.status.deleted
            && st.evicted == v.status.evicted && st.restartRequested == v.status.restartRequested
            && st.fullname == v.status.fullname && st.startedTerminating == v.status.startedTerminating
  {
    hide Dispatch;
    DispatchEffect(s, u, v);
  }

  lemma DecideRecords(st: PodSyncStatus, pod: Pod, runtime: bool, ut: SyncPodType, kill: Option<KillPodOptions>)
    ensures var st', asked := Decide(st, pod, runtime, ut, kill).status, RequestTermination(st, pod, runtime, ut, kill);
            && st'.terminatingAt == asked.terminatingAt && st'.deleted == asked.deleted
            && st'.evicted == asked.evicted && st'.restartRequested == st.restartRequested
            && st'.fullname == st.fullname && st'.startedTerminating == st.startedTerminating
  {
    RequestShape(st, pod, runtime, ut, kill);
    hide RequestTermination, Effective, Shortened, Appended;
  }

  /** What becomes of a whole request; one for a new pod registers it first. */
  function FateAt(s: Shared, o: UpdatePodOptions, cacheTerminal: bool): Fate
    requires o.WellFormed()
  {
    if o.IsRuntime() && !o.updateType.SyncPodKill? then Ignored
    else if o.Target().uid in s.statuses then
      FateOf(s.statuses[o.Target().uid], o.Target(), o.IsRuntime(), o.updateType, o.kill)
    else if OverAtSight(s, o, cacheTerminal) then Ignored
    else if AsksToEnd(o.Target(), o.IsRuntime(), o.updateType) then Joined
    else Closed
  }

  /** Which is the fate of the request once the pod is registered. */
  lemma FateWhenRegistered(s: Shared, o: UpdatePodOptions, cacheTerminal: bool)
    requires o.WellFormed() && !(o.IsRuntime() && !o.updateType.SyncPodKill?)
    ensures o.Target().uid in Register(s, o.Target(), o.IsRuntime(), cacheTerminal).statuses
    ensures FateAt(s, o, cacheTerminal)
         == FateOf(Register(s, o.Target(), o.IsRuntime(), cacheTerminal).statuses[o.Target().uid],
                   o.Target(), o.IsRuntime(), o.updateType, o.kill)
  {
  }

  lemma UpdateIgnored(s: Shared, o: UpdatePodOptions, cacheTerminal: bool)
    requires o.WellFormed() && o.IsRuntime() && !o.updateType.SyncPodKill?
    ensures UpdatePod(s, o, cacheTerminal) == s
  {
  }

  lemma UpdateEffects(s: System, o: UpdatePodOptions, cacheTerminal: bool)
    requires Inv(s) && o.WellFormed() && !(o.IsRuntime() && !o.updateType.SyncPodKill?)
    ensures var pod := o.Target();
            Effects(Register(s.sh, pod, o.IsRuntime(), cacheTerminal), UpdatePod(s.sh, o, cacheTerminal), pod,
                    KillOf(o.kill), FateAt(s.sh, o, cacheTerminal))
  {
    hide Admit, Effects;
    var pod := o.Target();
    FateWhenRegistered(s.sh, o, cacheTerminal);
    AdmitRegistered(s.sh, pod, o.IsRuntime(), o.updateType, o.kill, cacheTerminal);
    var s1 := Register(s.sh, pod, o.IsRuntime(), cacheTerminal);
    assert s1.statuses[pod.uid].terminatedAt ==> s1.statuses[pod.uid].terminatingAt by {
      assert PodFits(pod.uid, ViewOf(s, pod.uid));
    }
    AdmitEffects(s1, pod, o.IsRuntime(), o.updateType, o.kill);
  }

  // ---------------------------------------------------------------- the grace period over a run

  /** The request an event joins to u's termination, if it is one. */
  function Accepted(s: System, e: Event, u: UID): Option<KillRequest> {
    if e.Update? && e.options.WellFormed() && e.options.Target().uid == u
       && FateAt(s.sh, e.options, e.cacheTerminal).Joined?
    then Some(KillRequest(e.options.Target(), KillOf(e.options.kill)))
    else None
  }

  /** What a step records of requests while u stays known. */
  ghost predicate Records(s: System, e: Event, s': System, u: UID)
    requires u in s.sh.statuses && u in s'.sh.statuses
  {
    var st, st' := s.sh.statuses[u], s'.sh.statuses[u];
    match Accepted(s, e, u)
    case None =>
      && st'.gracePeriod == st.gracePeriod
      && (!st'.terminatedAt ==> st'.statusPostTerminating == st.statusPostTerminating)
      && (st'.ctx == st.ctx || (st'.ctx.Some? && !st'.ctx.value.cancelled))
    case Some(r) =>
      && st'.gracePeriod == Effective(st.gracePeriod, r.pod, r.options)
      && st'.statusPostTerminating == Appended(st.statusPostTerminating, r.options.podStatusFunc)
      && st'.ctx == ContextAfter(st, true, st'.gracePeriod)
  }

  lemma StepRecords(s: System, e: Event, s': System, u: UID)
    requires Inv(s) && Next(s, e, s') && u in s.sh.statuses && u in s'.sh.statuses
    ensures Records(s, e, s', u)
  {
    hide UpdatePod, SyncKnownPods, ApplyComplete, ApplyTryStart, ApplyTakeContext, ApplyReceive,
         CompleteWorkQueueNext, CompleteUnstartedTerminated, AcknowledgeTerminating, Effective, Shortened, FateOf;
    if IsWorkerEvent(e) {
      WorkerTouches(s, e);
    } else if e.SyncKnown? {
      SyncKnownEffect(s.sh, e.order, e.desired, u);
    } else {
      var o := e.options;
      UpdateTouches(s.sh, o, e.cacheTerminal);
      if o.IsRuntime() && !o.updateType.SyncPodKill? {
        UpdateIgnored(s.sh, o, e.cacheTerminal);
      } else if o.Target().uid == u {
        UpdateEffects(s, o, e.cacheTerminal);
      }
    }
  }

  function AcceptedBetween(tr: seq<System>, events: seq<Event>, i: nat, j: nat, u: UID): seq<KillRequest>
    requires i <= j <= |events| && |tr| == |events| + 1
    decreases j - i
  {
    if i == j then []
    else
      var front := AcceptedBetween(tr, events, i, j - 1, u);
      var r := Accepted(tr[j - 1], events[j - 1], u);
      if r.Some? then front + [r.value] else front
  }

  /** While a pod stays known, its grace period is the result of exactly the kill requests
      accepted meanwhile, in order. */
  lemma {:induction false} GraceIsRecorded(tr: seq<System>, events: seq<Event>, i: nat, j: nat, u: UID)
    requires IsRun(tr, events) && |tr| == |events| + 1 && i <= j < |tr|
    requires forall k :: i <= k <= j ==> u in tr[k].sh.statuses
    ensures tr[j].sh.statuses[u].gracePeriod
         == Recorded(tr[i].sh.statuses[u].gracePeriod, AcceptedBetween(tr, events, i, j, u))
    decreases j - i
  {
    hide Next, Inv, IsRun, Accepted;
    if i < j {
      GraceIsRecorded(tr, events, i, j - 1, u);
      RunStep(tr, events, j - 1);
      StepRecords(tr[j - 1], events[j - 1], tr[j], u);
      var r := Accepted(tr[j - 1], events[j - 1], u);
      if r.Some? {
        var front := AcceptedBetween(tr, events, i, j - 1, u);
        assert (front + [r.value])[..|front|] == front;
      }
    }
  }

  /** So, once recorded, it never rises while nobody supplies a zero. */
  lemma GraceNeverRises(tr: seq<System>, events: seq<Event>, i: nat, j: nat, u: UID)
    requires IsRun(tr, events) && |tr| == |events| + 1 && i <= j < |tr|
    requires forall k :: i <= k <= j ==> u in tr[k].sh.statuses
    requires tr[i].sh.statuses[u].gracePeriod >= 1
    requires forall r :: r in AcceptedBetween(tr, events, i, j, u) ==> NoZeroOverride(r)
    ensures 1 <= tr[j].sh.statuses[u].gracePeriod <= tr[i].sh.statuses[u].gracePeriod
  {
    hide IsRun;
    GraceIsRecorded(tr, events, i, j, u);
    CancellationsBounded(tr[i].sh.statuses[u].gracePeriod, AcceptedBetween(tr, events, i, j, u));
  }

  /** The updates between i and j that cancel u's current sync although u had been asked to
      terminate before. */
  function GraceCancellations(tr: seq<System>, events: seq<Event>, i: nat, j: nat, u: UID): nat
    requires i <= j <= |events| && |tr| == |events| + 1
    decreases j - i
  {
    if i == j then 0
    else GraceCancellations(tr, events, i, j - 1, u) + if CancelsAgain(tr[j - 1], tr[j], u) then 1 else 0
  }

  predicate CancelsAgain(s: System, s': System, u: UID) {
    && u in s.sh.statuses && u in s'.sh.statuses && s.sh.statuses[u].terminatingAt
    && s'.sh.statuses[u].ctx.Some? && s'.sh.statuses[u].ctx.value.cancelled
    && s'.sh.statuses[u].ctx != s.sh.statuses[u].ctx
  }

  lemma {:induction false} CancellationsCounted(tr: seq<System>, events: seq<Event>, i: nat, j: nat, u: UID)
    requires IsRun(tr, events) && |tr| == |events| + 1 && i <= j < |tr|
    requires forall k :: i <= k <= j ==> u in tr[k].sh.statuses
    ensures GraceCancellations(tr, events, i, j, u)
         <= Cancellations(tr[i].sh.statuses[u].gracePeriod, AcceptedBetween(tr, events, i, j, u))
    decreases j - i
  {
    hide Next, Inv, IsRun, Accepted, Effective;
    if i < j {
      CancellationsCounted(tr, events, i, j - 1, u);
      RunStep(tr, events, j - 1);
      StepRecords(tr[j - 1], events[j - 1], tr[j], u);
      GraceIsRecorded(tr, events, i, j - 1, u);
      var front, r := AcceptedBetween(tr, events, i, j - 1, u), Accepted(tr[j - 1], events[j - 1], u);
      if r.Some? {
        assert (front + [r.value])[..|front|] == front;
      }
    }
  }

  /** Once a period is recorded and while nobody supplies a zero, each further cancellation of
      the pod's syncs costs at least one second of it. */
  lemma GraceCancellationsBounded(tr: seq<System>, events: seq<Event>, i: nat, j: nat, u: UID)
    requires IsRun(tr, events) && |tr| == |events| + 1 && i <= j < |tr|
    requires forall k :: i <= k <= j ==> u in tr[k].sh.statuses
    requires tr[i].sh.statuses[u].gracePeriod >= 1
    requires forall r :: r in AcceptedBetween(tr, events, i, j, u) ==> NoZeroOverride(r)
    ensures GraceCancellations(tr, events, i, j, u)
         <= tr[i].sh.statuses[u].gracePeriod - tr[j].sh.statuses[u].gracePeriod
  {
    hide IsRun, CancelsAgain;
    CancellationsCounted(tr, events, i, j, u);
    GraceIsRecorded(tr, events, i, j, u);
    CancellationsBounded(tr[i].sh.statuses[u].gracePeriod, AcceptedBetween(tr, events, i, j, u));
  }

  // ---------------------------------------------------------------- status functions over a run

  /** The functions a sequence of requests hands in, in order. */
  function FunctionsOf(rs: seq<KillRequest>): seq<StatusFn>
    decreases |rs|
  {
    if rs == [] then [] else Appended(FunctionsOf(rs[..|rs| - 1]), rs[|rs| - 1].options.podStatusFunc)
  }

  /** The function of the latest request that brought one. */
  function LatestFunction(rs: seq<KillRequest>): Option<StatusFn>
    decreases |rs|
  {
    if rs == [] then None
    else if rs[|rs| - 1].options.podStatusFunc.Some? then rs[|rs| - 1].options.podStatusFunc
    else LatestFunction(rs[..|rs| - 1])
  }

  lemma {:induction false} LatestIsLast(rs: seq<KillRequest>)
    ensures var fns := FunctionsOf(rs);
            LatestFunction(rs) == if fns == [] then None else Some(fns[|fns| - 1])
    decreases |rs|
  {
    if rs != [] { LatestIsLast(rs[..|rs| - 1]); }
  }

  /** Every known pod was registered at some step and has been known since. */
  lemma {:induction false} KnownSince(tr: seq<System>, events: seq<Event>, j: nat, u: UID) returns (r: nat)
    requires IsRun(tr, events) && j < |tr| && u in tr[j].sh.statuses
    ensures r < j && u !in tr[r].sh.statuses && forall k :: r < k <= j ==> u in tr[k].sh.statuses
  {
    hide Next, IsRun;
    RunStarts(tr, events);
    if j == 0 {
      assert false;
    } else if u in tr[j - 1].sh.statuses {
      r := KnownSince(tr, events, j - 1, u);
    } else {
      r := j - 1;
    }
  }

  /** A pod registered by a request starts with that request's function, if it joins. */
  lemma RegisterRecords(s: System, e: Event, s': System, u: UID)
    requires Inv(s) && Next(s, e, s') && u !in s.sh.statuses && u in s'.sh.statuses && !s'.sh.statuses[u].terminatedAt
    ensures s'.sh.statuses[u].statusPostTerminating
         == match Accepted(s, e, u) case None => [] case Some(r) => Appended([], r.options.podStatusFunc)
  {
    hide UpdatePod, SyncKnownPods, ApplyComplete, ApplyTryStart, ApplyTakeContext, ApplyReceive,
         CompleteWorkQueueNext, CompleteUnstartedTerminated, AcknowledgeTerminating, FateAt, KillOf, Appended;
    StepProgresses(s, e, s', u);
    hide Inv;
    if e.options.IsRuntime() && !e.options.updateType.SyncPodKill? {
      UpdateIgnored(s.sh, e.options, e.cacheTerminal);
    } else {
      NewPodRecords(s, e.options, e.cacheTerminal);
    }
  }

  lemma NewPodRecords(s: System, o: UpdatePodOptions, cacheTerminal: bool)
    requires Inv(s) && o.WellFormed() && !(o.IsRuntime() && !o.updateType.SyncPodKill?)
    requires o.Target().uid !in s.sh.statuses
    ensures o.Target().uid in UpdatePod(s.sh, o, cacheTerminal).statuses
    ensures var st := UpdatePod(s.sh, o, cacheTerminal).statuses[o.Target().uid];
            st.terminatedAt || st.statusPostTerminating
                               == if FateAt(s.sh, o, cacheTerminal).Joined?
                                  then Appended([], KillOf(o.kill).podStatusFunc) else []
  {
    hide UpdatePod, FateAt, KillOf, Appended, Inv;
    UpdateEffects(s, o, cacheTerminal);
  }

  /** From its registration on, a pod that is not terminated records exactly the functions of
      the accepted requests. */
  lemma {:induction false} FunctionsRecorded(tr: seq<System>, events: seq<Event>, r: nat, j: nat, u: UID)
    requires IsRun(tr, events) && |tr| == |events| + 1 && r < j < |tr|
    requires u !in tr[r].sh.statuses && forall k :: r < k <= j ==> u in tr[k].sh.statuses
    requires !tr[j].sh.statuses[u].terminatedAt
    ensures tr[j].sh.statuses[u].statusPostTerminating == FunctionsOf(AcceptedBetween(tr, events, r, j, u))
    decreases j - r
  {
    hide Next, Inv, IsRun, Accepted, Effective, Shortened, LatestFunction;
    RunStep(tr, events, j - 1);
    var front, q := AcceptedBetween(tr, events, r, j - 1, u), Accepted(tr[j - 1], events[j - 1], u);
    if q.Some? {
      assert (front + [q.value])[..|front|] == front;
    }
    if r == j - 1 {
      RegisterRecords(tr[r], events[r], tr[j], u);
    } else {
      StepRecords(tr[j - 1], events[j - 1], tr[j], u);
      StepProgresses(tr[j - 1], events[j - 1], tr[j], u);
      FunctionsRecorded(tr, events, r, j - 1, u);
    }
  }

  // ---------------------------------------------------------------- the grace period since registration

  /** A pod registered by a request starts with the period of that request, if it joins. */
  lemma RegisterPeriod(s: System, e: Event, s': System, u: UID)
    requires Inv(s) && Next(s, e, s') && u !in s.sh.statuses && u in s'.sh.statuses
    ensures s'.sh.statuses[u].gracePeriod == match Accepted(s, e, u) case None => 0 case Some(r) => Effective(0, r.pod, r.options)
  {
    hide UpdatePod, SyncKnownPods, ApplyComplete, ApplyTryStart, ApplyTakeContext, ApplyReceive,
         CompleteWorkQueueNext, CompleteUnstartedTerminated, AcknowledgeTerminating, FateAt, KillOf, Effective;
    StepProgresses(s, e, s', u);
    hide Inv;
    if e.options.IsRuntime() && !e.options.updateType.SyncPodKill? {
      UpdateIgnored(s.sh, e.options, e.cacheTerminal);
    } else {
      NewPodPeriod(s, e.options, e.cacheTerminal);
    }
  }

  lemma NewPodPeriod(s: System, o: UpdatePodOptions, cacheTerminal: bool)
    requires Inv(s) && o.WellFormed() && !(o.IsRuntime() && !o.updateType.SyncPodKill?)
    requires o.Target().uid !in s.sh.statuses
    ensures o.Target().uid in UpdatePod(s.sh, o, cacheTerminal).statuses
    ensures UpdatePod(s.sh, o, cacheTerminal).statuses[o.Target().uid].gracePeriod
         == if FateAt(s.sh, o, cacheTerminal).Joined? then Effective(0, o.Target(), KillOf(o.kill)) else 0
  {
    hide UpdatePod, FateAt, KillOf, Appended, Inv, Effective;
    UpdateEffects(s, o, cacheTerminal);
  }

  /** From its registration on, a pod's period is that of the accepted requests, and 0 as long
      as there is none. */
  lemma {:induction false} PeriodIsRecorded(tr: seq<System>, events: seq<Event>, r: nat, j: nat, u: UID)
    requires IsRun(tr, events) && |tr| == |events| + 1 && r < j < |tr|
    requires u !in tr[r].sh.statuses && forall k :: r < k <= j ==> u in tr[k].sh.statuses
    ensures tr[j].sh.statuses[u].gracePeriod == Recorded(0, AcceptedBetween(tr, events, r, j, u))
    decreases j - r
  {
    hide Next, Inv, IsRun, Accepted, Effective, Shortened;
    RunStep(tr, events, j - 1);
    var front, q := AcceptedBetween(tr, events, r, j - 1, u), Accepted(tr[j - 1], events[j - 1], u);
    if q.Some? {
      assert (front + [q.value])[..|front|] == front;
    }
    if r == j - 1 {
      RegisterPeriod(tr[r], events[r], tr[j], u);
    } else {
      StepRecords(tr[j - 1], events[j - 1], tr[j], u);
      PeriodIsRecorded(tr, events, r, j - 1, u);
    }
  }

  /** The period of a termination: nothing before the first accepted request, that of the first
      one after it, and from then on the least of that and of all that later requests name, as
      long as none of them names a 0. */
  lemma PeriodSinceRegistration(tr: seq<System>, events: seq<Event>, r: nat, j: nat, u: UID) returns (m: int)
    requires IsRun(tr, events) && |tr| == |events| + 1 && r < j < |tr|
    requires u !in tr[r].sh.statuses && forall k :: r < k <= j ==> u in tr[k].sh.statuses
    ensures var rs, period := AcceptedBetween(tr, events, r, j, u), tr[j].sh.statuses[u].gracePeriod;
            && (rs == [] ==> period == 0)
            && (|rs| == 1 ==> period == FirstPeriod(rs[0]))
            && (rs != [] && (forall q :: q in rs[1..] ==> NoZeroOverride(q)) ==>
                  IsFloor(m, FirstPeriod(rs[0]), Overrides(rs[1..])) && period == AtLeastOne(m))
  {
    hide IsRun, FirstPeriod;
    m := 0;
    PeriodIsRecorded(tr, events, r, j, u);
    var rs := AcceptedBetween(tr, events, r, j, u);
    if rs != [] {
      RecordedStarts(rs);
      FirstPeriodExactly(rs[0]);
      if forall q :: q in rs[1..] ==> NoZeroOverride(q) {
        m := RecordedIsFloor(FirstPeriod(rs[0]), rs[1..]);
      }
    }
  }

  lemma AcknowledgesUnterminated(s: System, w: nat)
    requires Inv(s) && Enabled(s, Acknowledge(w))
    ensures s.workers[w].uid in s.sh.statuses && !s.sh.statuses[s.workers[w].uid].terminatedAt
    ensures s.workers[w].phase.work.pod.uid == s.workers[w].uid
  {
    LiveWorker(s, w);
  }

  /** Each termination attempt is given the status function of the latest accepted kill request
      since the pod was registered, at step r, that brought one. */
  lemma LatestStatusFunctionWins(tr: seq<System>, events: seq<Event>, j: nat, w: nat) returns (r: nat)
    requires IsRun(tr, events) && |tr| == |events| + 1 && j < |events| && events[j] == Acknowledge(w)
    ensures w in tr[j].workers && r < j
    ensures var u := tr[j].workers[w].uid;
            && u !in tr[r].sh.statuses && (forall k :: r < k <= j ==> u in tr[k].sh.statuses)
            && AcknowledgeTerminating(tr[j].sh, u).1 == LatestFunction(AcceptedBetween(tr, events, r, j, u))
  {
    RunStep(tr, events, j);
    AcknowledgesUnterminated(tr[j], w);
    var u := tr[j].workers[w].uid;
    hide Inv, Next, IsRun;
    r := KnownSince(tr, events, j, u);
    FunctionsRecorded(tr, events, r, j, u);
    LatestIsLast(AcceptedBetween(tr, events, r, j, u));
  }
}
