/** Where the items issued to a worker are, what moves them, and where they come from; and so
    exactly when a sync follows the start of termination, and which grace period a
    termination is given. */
module PendingItems {
  import GracePeriod
  import opened PodTypes
  import opened WorkerState
  import opened WorkerSystem
  import opened WorkerInvariant
  import opened WorkerProgress
  import opened WorkerSafety
  import opened WorkerQueries
  import opened KillRequests
  import opened WorkerDelivery

  /** The item undelivered for w's pod. */
  function Slot(s: System, w: nat): Option<PodWork>
    requires w in s.workers
  {
    Undelivered(s.sh, s.workers[w].uid)
  }

  /** The item sent to w, in its channel or in its hands. */
  function Hand(s: System, w: nat): Option<PodWork>
    requires w in s.workers && w in s.sh.channels
  {
    if s.sh.channels[w].buffer != [] then Some(s.sh.channels[w].buffer[0]) else Held(s.workers[w].phase)
  }

  /** UpdatePod hands a request on to u's worker. */
  predicate AcceptsUpdate(s: System, e: Event, u: UID) {
    && e.Update? && e.options.WellFormed() && e.options.Target().uid == u
    && !FateAt(s.sh, e.options, e.cacheTerminal).Ignored?
  }

  /** A sync function came out so that completeSync or completeTerminating issues an item. */
  predicate Parks(s: System, w: nat) {
    && w in s.workers && s.workers[w].phase.Returned? && s.workers[w].phase.outcome.Done?
    && match s.workers[w].phase.work.workType
       case SyncPodWork => s.workers[w].phase.outcome.isTerminal
       case TerminatingPodWork => !s.workers[w].phase.work.runtime
       case TerminatedPodWork => false
  }

  /** The stage of the lifecycle that follows a completed one. */
  function NextWork(t: PodWorkType): PodWorkType {
    if t.SyncPodWork? then TerminatingPodWork else TerminatedPodWork
  }

  /** Item x was issued to w by this step: by a sync function's completion, or by a request,
      which gives it the stage its pod is in and, if it joins a termination, the period then
      recorded. */
  ghost predicate IssuedAt(s: System, e: Event, s': System, w: nat, x: PodWork) {
    && w in s'.workers && w in s'.sh.channels && x.number == s'.sh.channels[w].issued
    && (w in s.sh.channels ==> s.sh.channels[w].issued < x.number)
    && if e == Complete(w) then Parks(s, w) && CarriesOn(s.workers[w].phase.work, x)
       else GivenBy(s, e, s', s'.workers[w].uid, x)
  }

  /** x is the item that follows the completed item `work`. */
  predicate CarriesOn(work: PodWork, x: PodWork) {
    && x.workType == NextWork(work.workType) && x.kill.None?
    && x.pod == work.pod && !x.runtime && x.updateType.SyncPodSync?
  }

  ghost predicate GivenBy(s: System, e: Event, s': System, u: UID, x: PodWork) {
    && AcceptsUpdate(s, e, u) && u in s'.sh.statuses
    && x.pod == e.options.Target() && x.runtime == e.options.IsRuntime() && x.updateType == e.options.updateType
    && match Accepted(s, e, u)
       case None =>
         x.kill.None? && x.workType == if s'.sh.statuses[u].terminatedAt then TerminatedPodWork else SyncPodWork
       case Some(r) =>
         && x.workType.TerminatingPodWork?
         && x.kill == Some(r.options.(graceOverride := Some(s'.sh.statuses[u].gracePeriod)))
  }

  /** What any step does to the items of a worker that lives on. */
  ghost predicate ItemsMove(s: System, e: Event, s': System, w: nat)
    requires w in s.workers && w in s.sh.channels && s.workers[w].uid in s.sh.statuses
  {
    var u, n := s.workers[w].uid, s.sh.channels[w].issued;
    && w in s'.workers && w in s'.sh.channels
    && s'.sh.channels[w].issued >= n
    && if e == Requeue(w) then Hand(s', w) == Slot(s, w) && Slot(s', w) == None
       else if e == Complete(w) then
         && Hand(s', w) == None
         && if Parks(s, w) then Slot(s', w).Some? && IssuedAt(s, e, s', w, Slot(s', w).value) else Slot(s', w) == Slot(s, w)
       else if AcceptsUpdate(s, e, u) && s.sh.statuses[u].working then
         Hand(s', w) == Hand(s, w) && Slot(s', w).Some? && IssuedAt(s, e, s', w, Slot(s', w).value)
       else if AcceptsUpdate(s, e, u) then
         Slot(s', w) == Slot(s, w) && Hand(s', w).Some? && IssuedAt(s, e, s', w, Hand(s', w).value)
       else
         && Slot(s', w) == Slot(s, w)
         && (Hand(s', w) == Hand(s, w) || (e == TryStart(w) && Hand(s', w) == None))
  }

  // ---------------------------------------------------------------- single steps

  /** Nothing changes for w's items. */
  ghost predicate SameItems(s: System, s': System, w: nat) {
    && w in s.workers && w in s.sh.channels && w in s'.workers && w in s'.sh.channels
    && s'.sh.channels[w].issued == s.sh.channels[w].issued
    && Slot(s', w) == Slot(s, w) && Hand(s', w) == Hand(s, w)
  }

  lemma SameItemsMove(s: System, e: Event, s': System, w: nat)
    requires SameItems(s, s', w) && s.workers[w].uid in s.sh.statuses
    requires !(IsWorkerEvent(e) && WorkerOf(e) == w) && !AcceptsUpdate(s, e, s.workers[w].uid)
    ensures ItemsMove(s, e, s', w)
  {
  }

  /** A worker that goes on with an item of its own. */
  lemma ParkedItems(s: System, w: nat, s': System, x: PodWork)
    requires Inv(s) && Enabled(s, Complete(w)) && Parks(s, w) && w in s.sh.channels && s.workers[w].uid in s.sh.statuses
    requires var u, n, c := s.workers[w].uid, s.sh.channels[w].issued + 1, s.sh.channels[w];
             && x.number == n && CarriesOn(s.workers[w].phase.work, x)
             && s'.sh.lastUndelivered == s.sh.lastUndelivered[u := x]
             && s'.sh.channels == s.sh.channels[w := c.(issued := n)]
             && s'.workers == s.workers[w := s.workers[w].(phase := Requeuing(s.workers[w].phase.work.pod, s.workers[w].phase.ctx))]
    ensures ItemsMove(s, Complete(w), s', w)
  {
    LiveWorker(s, w);
    assert s.sh.channels[w].buffer == [];
    hide Inv, Enabled, PhaseFits, NumbersFit, ItemFits;
  }

  lemma CompleteItems(s: System, w: nat)
    requires Inv(s) && Enabled(s, Complete(w)) && Live(Apply(s, Complete(w)), w)
    ensures w in s.sh.channels && s.workers[w].uid in s.sh.statuses
    ensures ItemsMove(s, Complete(w), Apply(s, Complete(w)), w)
  {
    LiveWorker(s, w);
    var u, work, n := s.workers[w].uid, s.workers[w].phase.work, s.sh.channels[w].issued + 1;
    hide Inv, NumbersFit, ItemsMove, Park;
    if Parks(s, w) && work.workType.SyncPodWork? {
      var st := s.sh.statuses[u].(terminatingAt := true, startedTerminating := true);
      ParkShape(SetStatus(s.sh, u, st), u, BareWork(TerminatingPodWork, work.pod));
      ParkedItems(s, w, Apply(s, Complete(w)), BareWork(TerminatingPodWork, work.pod).(number := n));
    } else if Parks(s, w) {
      var st := s.sh.statuses[u].(terminatedAt := true, notifyPostTerminating := [], statusPostTerminating := []);
      ParkShape(SetStatus(s.sh, u, st).(completions := s.sh.completions + multiset(s.sh.statuses[u].notifyPostTerminating)),
                u, BareWork(TerminatedPodWork, work.pod));
      ParkedItems(s, w, Apply(s, Complete(w)), BareWork(TerminatedPodWork, work.pod).(number := n));
    } else {
      RequeuedItems(s, w);
    }
  }

  lemma RequeuedItems(s: System, w: nat)
    requires Inv(s) && Enabled(s, Complete(w)) && Live(Apply(s, Complete(w)), w) && !Parks(s, w)
    ensures w in s.sh.channels && s.workers[w].uid in s.sh.statuses
    ensures ItemsMove(s, Complete(w), Apply(s, Complete(w)), w)
  {
    LiveWorker(s, w);
    assert s.sh.channels[w].buffer == [];
    hide Inv, PhaseFits, NumbersFit, ItemFits, CompleteSync, CompleteTerminating, CompleteTerminated,
         CompleteTerminatingRuntimePod;
  }

  lemma RequeueItems(s: System, w: nat)
    requires Inv(s) && Enabled(s, Requeue(w))
    ensures w in s.sh.channels && s.workers[w].uid in s.sh.statuses
    ensures ItemsMove(s, Requeue(w), Apply(s, Requeue(w)), w)
  {
    LiveWorker(s, w);
    hide Inv, NumbersFit;
    assert s.sh.channels[w].buffer == [];
  }

  lemma ReceiveItems(s: System, w: nat)
    requires Inv(s) && Enabled(s, Receive(w)) && Live(Apply(s, Receive(w)), w)
    ensures w in s.sh.channels && s.workers[w].uid in s.sh.statuses
    ensures ItemsMove(s, Receive(w), Apply(s, Receive(w)), w)
  {
    LiveWorker(s, w);
    hide Inv, NumbersFit, PhaseFits, ItemFits, IssuedAt;
  }

  lemma OwnItems(s: System, e: Event, w: nat)
    requires Inv(s) && Enabled(s, e) && IsWorkerEvent(e) && WorkerOf(e) == w && Live(Apply(s, e), w)
    ensures w in s.workers && w in s.sh.channels && s.workers[w].uid in s.sh.statuses
    ensures ItemsMove(s, e, Apply(s, e), w)
  {
    hide ItemsMove;
    if e.Complete? {
      CompleteItems(s, w);
    } else if e.Requeue? {
      RequeueItems(s, w);
    } else if e.Receive? {
      ReceiveItems(s, w);
    } else {
      QuietItems(s, e, w);
    }
  }

  lemma QuietItems(s: System, e: Event, w: nat)
    requires Inv(s) && Enabled(s, e) && IsWorkerEvent(e) && WorkerOf(e) == w && Live(Apply(s, e), w)
    requires !e.Complete? && !e.Requeue? && !e.Receive?
    ensures w in s.workers && w in s.sh.channels && s.workers[w].uid in s.sh.statuses
    ensures ItemsMove(s, e, Apply(s, e), w)
  {
    QuietKeeps(s, e, w);
    LiveWorker(s, w);
    hide *;
    QuietMoves(s, e, Apply(s, e), w);
  }

  lemma QuietMoves(s: System, e: Event, s': System, w: nat)
    requires w in s.workers && w in s.sh.channels && s.workers[w].uid in s.sh.statuses
    requires IsWorkerEvent(e) && !e.Complete? && !e.Requeue? && !e.Receive?
    requires s'.sh.channels == s.sh.channels && s'.sh.lastUndelivered == s.sh.lastUndelivered
    requires w in s'.workers && s'.workers[w].uid == s.workers[w].uid
    requires Held(s'.workers[w].phase) == Held(s.workers[w].phase)
             || (e == TryStart(w) && Held(s'.workers[w].phase) == None)
    ensures ItemsMove(s, e, s', w)
  {
    hide Held, IssuedAt, Parks;
  }

  /** The other steps of w send and issue nothing. */
  lemma QuietKeeps(s: System, e: Event, w: nat)
    requires Inv(s) && Enabled(s, e) && IsWorkerEvent(e) && WorkerOf(e) == w && Live(Apply(s, e), w)
    requires !e.Complete? && !e.Requeue? && !e.Receive?
    ensures var s' := Apply(s, e);
            && s'.sh.channels == s.sh.channels && s'.sh.lastUndelivered == s.sh.lastUndelivered
            && w in s'.workers && s'.workers[w].uid == s.workers[w].uid
            && (Held(s'.workers[w].phase) == Held(s.workers[w].phase)
                || (e == TryStart(w) && Held(s'.workers[w].phase) == None))
  {
    LiveWorker(s, w);
    var u := s.workers[w].uid;
    assert Held(s.workers[w].phase).Some? ==> Held(s.workers[w].phase).value.pod.uid == u;
    hide Inv, ActiveFits;
    if e.TryStart? { AllowPodStartFrame(s.sh, s.workers[w].phase.work.pod); }
    if e.TakeContext? { ContextFrame(s.sh, u); }
    hide AllowPodStart, ContextForWorker, ApplyReceive, ApplyComplete, CompleteWorkQueueNext, CompleteUnstartedTerminated;
  }

  /** The items of all pods but u's and of all channels but u's stay as they are. */
  ghost predicate ElsewhereSame(s: Shared, s': Shared, u: UID) {
    && (forall v :: v != u ==> Undelivered(s', v) == Undelivered(s, v))
    && (forall c :: c in s.channels && !(u in s.podUpdates && c == s.podUpdates[u]) ==>
          c in s'.channels && s'.channels[c] == s.channels[c])
  }

  lemma ParkElsewhere(s: Shared, u: UID, st: PodSyncStatus, completions: multiset<CompletedCh>, work: PodWork)
    requires u in s.podUpdates && s.podUpdates[u] in s.channels
    ensures ElsewhereSame(s, Park(SetStatus(s, u, st).(completions := completions), u, work), u)
  {
    hide Park;
    ParkShape(SetStatus(s, u, st).(completions := completions), u, work);
  }

  lemma OtherCompletes(s: System, w: nat)
    requires Inv(s) && Enabled(s, Complete(w))
    ensures ElsewhereSame(s.sh, Apply(s, Complete(w)).sh, s.workers[w].uid)
  {
    LiveWorker(s, w);
    var u, work := s.workers[w].uid, s.workers[w].phase.work;
    hide Inv, NumbersFit, TokenFits, Park;
    if Parks(s, w) && work.workType.SyncPodWork? {
      hide ElsewhereSame;
      var st := s.sh.statuses[u].(terminatingAt := true, startedTerminating := true);
      ParkElsewhere(s.sh, u, st, s.sh.completions, BareWork(TerminatingPodWork, work.pod));
    } else if Parks(s, w) {
      hide ElsewhereSame;
      var st := s.sh.statuses[u].(terminatedAt := true, notifyPostTerminating := [], statusPostTerminating := []);
      ParkElsewhere(s.sh, u, st, s.sh.completions + multiset(s.sh.statuses[u].notifyPostTerminating),
                    BareWork(TerminatedPodWork, work.pod));
    } else {
      hide ElsewhereSame;
      EndsElsewhere(s, w);
    }
  }

  lemma EndsElsewhere(s: System, w: nat)
    requires Inv(s) && Enabled(s, Complete(w)) && !Parks(s, w)
    ensures ElsewhereSame(s.sh, Apply(s, Complete(w)).sh, s.workers[w].uid)
  {
    LiveWorker(s, w);
    var u, work := s.workers[w].uid, s.workers[w].phase.work;
    hide Inv, NumbersFit, TokenFits, CompleteSync, CompleteTerminating;
    if s.workers[w].phase.outcome.Done? && work.workType.TerminatedPodWork? {
      TerminatedEnds(s.sh, u);
    } else if s.workers[w].phase.outcome.Done? && work.workType.TerminatingPodWork? {
      RuntimeEnds(s.sh, u);
    }
    hide CompleteTerminated, CompleteTerminatingRuntimePod, PhaseFits;
  }

  lemma OtherGivesUp(s: System, w: nat)
    requires Inv(s) && Enabled(s, GiveUp(w))
    ensures ElsewhereSame(s.sh, Apply(s, GiveUp(w)).sh, s.workers[w].uid)
  {
    LiveWorker(s, w);
    UnstartedEnds(s.sh, s.workers[w].uid);
    hide Inv, NumbersFit, TokenFits, CompleteUnstartedTerminated;
  }

  lemma OtherRequeues(s: System, w: nat)
    requires Inv(s) && Enabled(s, Requeue(w))
    ensures ElsewhereSame(s.sh, Apply(s, Requeue(w)).sh, s.workers[w].uid)
  {
    LiveWorker(s, w);
    hide Inv, NumbersFit;
  }

  lemma OtherSteps(s: System, e: Event)
    requires Inv(s) && Enabled(s, e) && IsWorkerEvent(e)
    ensures var w := WorkerOf(e);
            w in s.workers && ElsewhereSame(s.sh, Apply(s, e).sh, s.workers[w].uid)
  {
    if e.Complete? {
      OtherCompletes(s, e.w);
    } else if e.GiveUp? {
      OtherGivesUp(s, e.w);
    } else if e.Requeue? {
      OtherRequeues(s, e.w);
    } else {
      LiveWorker(s, WorkerOf(e));
      var u := s.workers[WorkerOf(e)].uid;
      assert Held(s.workers[WorkerOf(e)].phase).Some? ==> Held(s.workers[WorkerOf(e)].phase).value.pod.uid == u;
      hide Inv, ActiveFits, ApplyComplete, CompleteWorkQueueNext, CompleteUnstartedTerminated;
      if e.TryStart? { AllowPodStartFrame(s.sh, s.workers[e.w].phase.work.pod); }
      if e.TakeContext? { ContextFrame(s.sh, u); }
      hide AllowPodStart, ContextForWorker;
    }
  }

  lemma OthersItems(s: System, e: Event, s': System, w: nat)
    requires Inv(s) && Next(s, e, s') && IsWorkerEvent(e) && WorkerOf(e) != w && Live(s, w)
    ensures SameItems(s, s', w)
  {
    hide Enabled, Apply;
    OtherSteps(s, e);
    WorkerTouches(s, e);
    LiveWorker(s, w);
    LiveWorker(s, WorkerOf(e));
    hide Inv, ActiveFits, Next, Advances;
  }

  lemma KnownItems(s: System, order: seq<UID>, desired: set<UID>, w: nat)
    requires Inv(s) && Live(s, w)
    ensures SameItems(s, s.(sh := SyncKnownPods(s.sh, order, desired)), w)
  {
    LiveWorker(s, w);
    InvFinishedAreIdle(s);
    hide Inv, Sweep, ActiveFits;
    SweepForgets(s.sh.(podsSynced := true), order, desired);
  }

  // ---------------------------------------------------------------- requests

  /** The item a request for a pod in status st becomes. */
  lemma DecideGives(st: PodSyncStatus, o: UpdatePodOptions)
    requires o.WellFormed() && LifecycleOrdered(st) && !st.finished && !Drops(st, o)
    ensures var v := Decide(st, o.Target(), o.IsRuntime(), o.updateType, o.kill);
            && v.work.pod == o.Target() && v.work.runtime == o.IsRuntime() && v.work.updateType == o.updateType
            && if FateOf(st, o.Target(), o.IsRuntime(), o.updateType, o.kill).Joined?
               then v.work.workType.TerminatingPodWork?
                    && v.work.kill == Some(KillOf(o.kill).(graceOverride := Some(v.status.gracePeriod)))
               else v.work.workType == (if v.status.terminatedAt then TerminatedPodWork else SyncPodWork) && v.work.kill.None?
  {
    RequestShape(st, o.Target(), o.IsRuntime(), o.updateType, o.kill);
    AskedExactly(st, o.Target(), o.IsRuntime(), o.updateType, o.kill);
    hide RequestTermination, GracePeriod.Effective, GracePeriod.Shortened, Appended;
  }

  lemma ServedItems(s: System, o: UpdatePodOptions, cacheTerminal: bool, w: nat)
    requires Inv(s) && o.WellFormed() && !(o.IsRuntime() && !o.updateType.SyncPodKill?)
    requires Live(s, w) && s.workers[w].uid == o.Target().uid
    ensures w in s.sh.channels && s.workers[w].uid in s.sh.statuses
    ensures ItemsMove(s, Update(o, cacheTerminal), s.(sh := Served(s.sh, o)), w)
  {
    var u, e := o.Target().uid, Update(o, cacheTerminal);
    LiveWorker(s, w);
    var st := s.sh.statuses[u];
    hide Inv, ActiveFits, Served, ItemsMove;
    if Drops(st, o) {
      DroppedItems(s, o, cacheTerminal, w);
    } else {
      AcceptedItems(s, o, cacheTerminal, w);
    }
  }

  lemma DroppedItems(s: System, o: UpdatePodOptions, cacheTerminal: bool, w: nat)
    requires Inv(s) && o.WellFormed() && !(o.IsRuntime() && !o.updateType.SyncPodKill?)
    requires Live(s, w) && s.workers[w].uid == o.Target().uid && o.Target().uid in s.sh.statuses && w in s.sh.channels
    requires Drops(s.sh.statuses[o.Target().uid], o)
    ensures ItemsMove(s, Update(o, cacheTerminal), s.(sh := Served(s.sh, o)), w)
  {
    hide Inv, Dispatch, Decide;
  }

  /** Item x reached w: in its slot if it is busy, in its channel otherwise. */
  ghost predicate Reaches(s: System, s': System, w: nat, busy: bool, x: PodWork)
    requires w in s.workers && w in s.sh.channels
  {
    && w in s'.workers && w in s'.sh.channels
    && s'.sh.channels[w].issued == s.sh.channels[w].issued + 1 == x.number
    && Slot(s', w) == (if busy then Some(x) else Slot(s, w))
    && Hand(s', w) == (if busy then Hand(s, w) else Some(x))
  }

  /** What dispatching leaves in u's channel and slot. */
  ghost predicate Delivered(s: Shared, s': Shared, u: UID, v: Verdict) {
    && u in s.podUpdates && s.podUpdates[u] in s.channels && s.podUpdates[u] in s'.channels
    && ElsewhereSame(s, s', u)
    && var c, c' := s.channels[s.podUpdates[u]], s'.channels[s.podUpdates[u]];
    var x := v.work.(number := c.issued + 1);
    && c'.issued == x.number
    && c'.buffer == (if v.status.working then c.buffer else [x])
    && Undelivered(s', u) == (if v.status.working then Some(x) else Undelivered(s, u))
    && u in s'.statuses && Recorded(s'.statuses[u], v)
  }

  /** The status keeps what the verdict says of the period and of the end. */
  predicate Recorded(st: PodSyncStatus, v: Verdict) {
    st.gracePeriod == v.status.gracePeriod && st.terminatedAt == v.status.terminatedAt
  }

  lemma DispatchDelivers(s: Shared, u: UID, v: Verdict)
    requires u in s.podUpdates && s.podUpdates[u] in s.channels && (!v.status.working ==> CanSend(s, u))
    ensures Delivered(s, Dispatch(CloseCompletion(SetStatus(s, u, v.status), v.close), u, v), u, v)
  {
    hide Dispatch, PassedAfter, CanSend;
    var s2 := CloseCompletion(SetStatus(s, u, v.status), v.close);
    if v.status.working {
      BusyDispatch(s, s2, u, v);
    } else {
      IdleDispatch(s, s2, u, v);
    }
  }

  lemma VerdictReaches(s: System, w: nat, u: UID, v: Verdict)
    requires Inv(s) && Live(s, w) && s.workers[w].uid == u && u in s.sh.statuses && Keeps(s.sh.statuses[u], v)
    ensures w in s.sh.channels
    ensures var sh := Dispatch(CloseCompletion(SetStatus(s.sh, u, v.status), v.close), u, v);
            && Reaches(s, s.(sh := sh), w, s.sh.statuses[u].working, v.work.(number := s.sh.channels[w].issued + 1))
            && u in sh.statuses && Recorded(sh.statuses[u], v)
  {
    LiveWorker(s, w);
    if !v.status.working { IdleCanSend(s, u); }
    hide Inv, PhaseFits, NumbersFit, ItemFits, Dispatch, CloseCompletion, SetStatus;
    DispatchDelivers(s.sh, u, v);
  }

  lemma AcceptsUndropped(s: System, o: UpdatePodOptions, cacheTerminal: bool)
    requires o.WellFormed() && !(o.IsRuntime() && !o.updateType.SyncPodKill?) && o.Target().uid in s.sh.statuses
    requires !s.sh.statuses[o.Target().uid].finished && !Drops(s.sh.statuses[o.Target().uid], o)
    ensures var u, e := o.Target().uid, Update(o, cacheTerminal);
            && AcceptsUpdate(s, e, u)
            && Accepted(s, e, u) == if FateOf(s.sh.statuses[u], o.Target(), o.IsRuntime(), o.updateType, o.kill).Joined?
                                    then Some(GracePeriod.KillRequest(o.Target(), KillOf(o.kill))) else None
  {
    hide RequestTermination;
  }

  lemma VerdictGiven(s: System, o: UpdatePodOptions, cacheTerminal: bool, s': System, v: Verdict, n: nat)
    requires o.WellFormed() && !(o.IsRuntime() && !o.updateType.SyncPodKill?) && o.Target().uid in s.sh.statuses
    requires var st := s.sh.statuses[o.Target().uid];
             && LifecycleOrdered(st) && !st.finished && !Drops(st, o)
             && v == Decide(st, o.Target(), o.IsRuntime(), o.updateType, o.kill)
    requires o.Target().uid in s'.sh.statuses && Recorded(s'.sh.statuses[o.Target().uid], v)
    ensures GivenBy(s, Update(o, cacheTerminal), s', o.Target().uid, v.work.(number := n))
  {
    hide Decide, FateOf, LifecycleOrdered, Drops, AcceptsUpdate, Accepted;
    AcceptsUndropped(s, o, cacheTerminal);
    DecideGives(s.sh.statuses[o.Target().uid], o);
  }

  lemma ServedIsDispatched(s: Shared, o: UpdatePodOptions, v: Verdict)
    requires o.WellFormed() && o.Target().uid in s.statuses && !Drops(s.statuses[o.Target().uid], o)
    requires v == Decide(s.statuses[o.Target().uid], o.Target(), o.IsRuntime(), o.updateType, o.kill)
    ensures Served(s, o) == Dispatch(CloseCompletion(SetStatus(s, o.Target().uid, v.status), v.close), o.Target().uid, v)
  {
  }

  lemma AcceptedItems(s: System, o: UpdatePodOptions, cacheTerminal: bool, w: nat)
    requires Inv(s) && o.WellFormed() && !(o.IsRuntime() && !o.updateType.SyncPodKill?)
    requires Live(s, w) && s.workers[w].uid == o.Target().uid && o.Target().uid in s.sh.statuses && w in s.sh.channels
    requires !Drops(s.sh.statuses[o.Target().uid], o)
    ensures ItemsMove(s, Update(o, cacheTerminal), s.(sh := Served(s.sh, o)), w)
  {
    var u, st := o.Target().uid, s.sh.statuses[o.Target().uid];
    LiveWorker(s, w);
    hide Inv, ActiveFits, Decide, Dispatch, Served, Drops, ItemsMove, CloseCompletion, SetStatus, Reaches, GivenBy;
    DecideFacts(st, o.Target(), o.IsRuntime(), o.updateType, o.kill);
    var v := Decide(st, o.Target(), o.IsRuntime(), o.updateType, o.kill);
    hide Keeps, LifecycleOrdered;
    VerdictReaches(s, w, u, v);
    ServedIsDispatched(s.sh, o, v);
    var n, s' := s.sh.channels[w].issued + 1, s.(sh := Served(s.sh, o));
    VerdictGiven(s, o, cacheTerminal, s', v, n);
    ReachedMoves(s, Update(o, cacheTerminal), s', w, v.work.(number := n));
  }

  lemma ReachedMoves(s: System, e: Event, s': System, w: nat, x: PodWork)
    requires w in s.workers && w in s.sh.channels && s.workers[w].uid in s.sh.statuses && w in s'.workers
    requires Reaches(s, s', w, s.sh.statuses[s.workers[w].uid].working, x)
    requires s'.workers[w].uid == s.workers[w].uid && GivenBy(s, e, s', s.workers[w].uid, x)
    ensures ItemsMove(s, e, s', w)
  {
    hide FateAt;
  }

  /** A request for another pod. */
  lemma VerdictElsewhere(s: System, u: UID, v: Verdict)
    requires Inv(s) && u in s.sh.statuses && !s.sh.statuses[u].finished && Keeps(s.sh.statuses[u], v)
    ensures ElsewhereSame(s.sh, Dispatch(CloseCompletion(SetStatus(s.sh, u, v.status), v.close), u, v), u)
  {
    HasChannel(s, u);
    if !v.status.working { IdleCanSend(s, u); }
    hide Inv, Dispatch;
    DispatchDelivers(s.sh, u, v);
  }

  lemma ServedElsewhere(s: System, o: UpdatePodOptions)
    requires Inv(s) && o.WellFormed() && o.Target().uid in s.sh.statuses && !s.sh.statuses[o.Target().uid].finished
    ensures ElsewhereSame(s.sh, Served(s.sh, o), o.Target().uid)
  {
    var u, st := o.Target().uid, s.sh.statuses[o.Target().uid];
    HasChannel(s, u);
    hide Inv, Decide, Dispatch, Keeps;
    DecideFacts(st, o.Target(), o.IsRuntime(), o.updateType, o.kill);
    if !Drops(st, o) {
      hide ElsewhereSame;
      VerdictElsewhere(s, u, Decide(st, o.Target(), o.IsRuntime(), o.updateType, o.kill));
    }
  }

  /** A pod seen for the first time gets a channel that holds its first item. */
  ghost predicate Begins(s: Shared, s': Shared, u: UID, v: Verdict) {
    && ElsewhereSame(s, s', u)
    && s'.nextChannel == s.nextChannel + 1
    && u in s'.statuses && s'.statuses[u] == v.status.(working := true)
    && s'.lastUndelivered == s.lastUndelivered
    && s.nextChannel in s'.channels && s'.channels[s.nextChannel] == Channel([v.work.(number := 1)], false, 1)
  }

  lemma FirstBegins(s: Shared, pod: Pod, v: Verdict)
    requires pod.uid !in s.lastUndelivered
    requires pod.uid !in s.podUpdates && s.nextChannel !in s.channels && !v.status.working
    ensures Begins(s, Dispatch(Prepared(s, pod, pod.fullname, v), pod.uid, v), pod.uid, v)
  {
    hide Dispatch, Prepared;
    FirstItemShape(s, pod, v);
  }

  lemma NewBegins(s: System, o: UpdatePodOptions, cacheTerminal: bool)
    requires Inv(s) && o.WellFormed() && o.Target().uid !in s.sh.statuses
    requires !(o.IsRuntime() && !o.updateType.SyncPodKill?)
    requires !Register(s.sh, o.Target(), o.IsRuntime(), cacheTerminal).statuses[o.Target().uid].finished
    ensures var pod := o.Target();
            Begins(s.sh, UpdatePod(s.sh, o, cacheTerminal), pod.uid,
                   Decide(NewStatus(pod.fullname), pod, o.IsRuntime(), o.updateType, o.kill))
  {
    hide Begins, UpdatePod, Register, Dispatch, Prepared, Decide;
    var pod := o.Target();
    assert PodFits(pod.uid, ViewOf(s, pod.uid));
    assert s.sh.nextChannel !in s.workers;
    AdmitNew(s.sh, o, cacheTerminal);
    DecideFacts(NewStatus(pod.fullname), pod, o.IsRuntime(), o.updateType, o.kill);
    hide Inv;
    FirstBegins(s.sh, pod, Decide(NewStatus(pod.fullname), pod, o.IsRuntime(), o.updateType, o.kill));
  }

  lemma UpdateElsewhere(s: System, o: UpdatePodOptions, cacheTerminal: bool)
    requires Inv(s) && o.WellFormed()
    ensures ElsewhereSame(s.sh, UpdatePod(s.sh, o, cacheTerminal), o.Target().uid)
  {
    var u := o.Target().uid;
    hide Inv, UpdatePod, Served;
    if o.IsRuntime() && !o.updateType.SyncPodKill? {
      UpdateIgnored(s.sh, o, cacheTerminal);
    } else if Register(s.sh, o.Target(), o.IsRuntime(), cacheTerminal).statuses[u].finished {
      FinishedShape(s.sh, o, cacheTerminal);
    } else if u in s.sh.statuses {
      HasChannel(s, u);
      AdmitActive(s.sh, o, cacheTerminal);
      ServedElsewhere(s, o);
    } else {
      hide ElsewhereSame;
      NewBegins(s, o, cacheTerminal);
    }
  }

  lemma UpdateItems(s: System, o: UpdatePodOptions, cacheTerminal: bool, w: nat)
    requires Inv(s) && o.WellFormed() && Live(s, w)
    ensures w in s.sh.channels && s.workers[w].uid in s.sh.statuses
    ensures ItemsMove(s, Update(o, cacheTerminal), ApplyUpdate(s, o, cacheTerminal), w)
  {
    var u, e, s' := o.Target().uid, Update(o, cacheTerminal), ApplyUpdate(s, o, cacheTerminal);
    LiveWorker(s, w);
    assert w != s.sh.nextChannel;
    hide Inv, ActiveFits, UpdatePod, Served, ItemsMove;
    if u != s.workers[w].uid {
      UpdateElsewhere(s, o, cacheTerminal);
      assert SameItems(s, s', w) by { LiveWorker(s, w); }
      SameItemsMove(s, e, s', w);
    } else if o.IsRuntime() && !o.updateType.SyncPodKill? {
      UpdateIgnored(s.sh, o, cacheTerminal);
      SameItemsMove(s, e, s', w);
    } else {
      AdmitActive(s.sh, o, cacheTerminal);
      ServedKeepsChannels(s.sh, o);
      ServedItems(s, o, cacheTerminal, w);
    }
  }

  lemma StepItems(s: System, e: Event, s': System, w: nat)
    requires Inv(s) && Next(s, e, s') && Live(s, w) && Live(s', w)
    ensures w in s.sh.channels && s.workers[w].uid in s.sh.statuses
    ensures ItemsMove(s, e, s', w)
  {
    LiveWorker(s, w);
    hide Inv, ActiveFits, ItemsMove, UpdatePod, SyncKnownPods, ApplyComplete, ApplyTryStart, ApplyTakeContext, ApplyReceive,
         CompleteWorkQueueNext, CompleteUnstartedTerminated, AcknowledgeTerminating;
    if e.Update? {
      UpdateItems(s, e.options, e.cacheTerminal, w);
    } else if e.SyncKnown? {
      KnownItems(s, e.order, e.desired, w);
      SameItemsMove(s, e, s', w);
    } else if WorkerOf(e) == w {
      OwnItems(s, e, w);
    } else {
      OthersItems(s, e, s', w);
      SameItemsMove(s, e, s', w);
    }
  }

  // ---------------------------------------------------------------- the item a worker was let in past

  /** Between k and i the undelivered item was sent to w. */
  ghost predicate HandedOver(events: seq<Event>, k: nat, i: nat, w: nat)
    requires i <= |events|
  {
    exists m :: k < m < i && events[m] == Requeue(w)
  }

  /** This step issues an item that replaces an undelivered one of u. */
  predicate Replaces(s: System, e: Event, w: nat, u: UID) {
    AcceptsUpdate(s, e, u) || (e == Complete(w) && Parks(s, w))
  }

  /** Between k and i nothing takes away the item that was undelivered at k: it is not replaced
      before it is sent to w, and w's processing of it does not complete after that. */
  ghost predicate Undisturbed(tr: seq<System>, events: seq<Event>, k: nat, i: nat, w: nat, u: UID)
    requires |tr| == |events| + 1 && i < |tr|
  {
    forall m {:trigger events[m]} :: k < m < i ==>
      if HandedOver(events, k, m, w) then events[m] != Complete(w) else !Replaces(tr[m], events[m], w, u)
  }

  lemma HandedNext(events: seq<Event>, k: nat, i: nat, w: nat)
    requires k < i < |events|
    ensures HandedOver(events, k, i + 1, w) <==> HandedOver(events, k, i, w) || events[i] == Requeue(w)
  {
  }

  lemma UndisturbedNext(tr: seq<System>, events: seq<Event>, k: nat, i: nat, w: nat, u: UID)
    requires |tr| == |events| + 1 && k < i < |events|
    ensures Undisturbed(tr, events, k, i + 1, w, u) <==>
              && Undisturbed(tr, events, k, i, w, u)
              && if HandedOver(events, k, i, w) then events[i] != Complete(w) else !Replaces(tr[i], events[i], w, u)
  {
    hide HandedOver, Replaces;
  }

  /** The worker is let in on an item that asks for termination; the sync item stays. */
  lemma PastStarts(s: System, e: Event, s': System, w: nat, x: PodWork)
    requires Inv(s) && Next(s, e, s') && LetInPastSync(s, e, w, x)
    ensures w in s'.workers && w in s'.sh.channels && s'.workers[w].started
    ensures x.number <= s'.sh.channels[w].issued && Slot(s', w) == Some(x) && Hand(s', w) != Some(x)
  {
    LiveWorker(s, w);
    AllowPodStartFrame(s.sh, s.workers[w].phase.work.pod);
    hide Inv, AllowStaticPodStart, Intruder;
  }

  /** While w works on an item, its slot may be filled, but nothing else is sent to it. */
  predicate OneAtATime(s: System, w: nat)
    requires w in s.workers && w in s.sh.channels && s.workers[w].uid in s.sh.statuses
  {
    && !s.workers[w].phase.Received?
    && (Slot(s, w).Some? ==> s.sh.statuses[s.workers[w].uid].working)
    && (s.workers[w].phase.Requeuing? || !s.sh.statuses[s.workers[w].uid].working ==> Hand(s, w) == None)
  }

  lemma StartedWorks(s: System, w: nat)
    requires Inv(s) && Live(s, w) && s.workers[w].started
    ensures w in s.sh.channels && s.workers[w].uid in s.sh.statuses && OneAtATime(s, w)
  {
    LiveWorker(s, w);
    hide Inv, NumbersFit, ItemFits;
  }

  /** How one item of a worker that was let in moves. */
  lemma PastMoves(s: System, e: Event, s': System, w: nat, x: PodWork)
    requires Inv(s) && Next(s, e, s') && Live(s, w) && Live(s', w) && s.workers[w].started
    requires w in s.sh.channels && x.number <= s.sh.channels[w].issued
    ensures w in s'.sh.channels && x.number <= s'.sh.channels[w].issued
    ensures Slot(s', w) == Some(x) <==>
              Slot(s, w) == Some(x) && e != Requeue(w) && !Replaces(s, e, w, s.workers[w].uid)
    ensures Hand(s', w) == Some(x) <==>
              (Hand(s, w) == Some(x) && e != Complete(w)) || (Slot(s, w) == Some(x) && e == Requeue(w))
  {
    assert AcceptsUpdate(s, e, s.workers[w].uid) ==> e.Update?;
    hide Inv, Apply, GivenBy, AcceptsUpdate, Slot, Hand, Parks;
    StartedWorks(s, w);
    StepItems(s, e, s', w);
  }

  lemma LetInThere(s: System, e: Event, w: nat, x: PodWork)
    requires LetInPastSync(s, e, w, x)
    ensures w in s.workers && x.workType.SyncPodWork?
  {
  }

  lemma {:induction false} PastAlong(tr: seq<System>, events: seq<Event>, k: nat, i: nat, w: nat, x: PodWork)
    requires IsRun(tr, events) && |tr| == |events| + 1 && k < i < |tr|
    requires LetInPastSync(tr[k], events[k], w, x) && Live(tr[i], w)
    ensures w in tr[i].sh.channels && tr[i].workers[w].started && x.number <= tr[i].sh.channels[w].issued
    ensures var u := tr[i].workers[w].uid;
            && (Slot(tr[i], w) == Some(x) <==> Undisturbed(tr, events, k, i, w, u) && !HandedOver(events, k, i, w))
            && (Hand(tr[i], w) == Some(x) <==> Undisturbed(tr, events, k, i, w, u) && HandedOver(events, k, i, w))
  {
    hide Next, Inv, IsRun, LetInPastSync;
    RunStep(tr, events, i - 1);
    if k == i - 1 {
      PastStarts(tr[k], events[k], tr[i], w, x);
    } else {
      hide Undisturbed, HandedOver, Slot, Hand;
      LetInThere(tr[k], events[k], w, x);
      if w !in tr[i - 1].workers { NotYet(tr, events, k, i - 1, w); }
      LiveBefore(tr, events, i - 1, i, w);
      StepKeepsWorker(tr[i - 1], events[i - 1], tr[i], w);
      PastAlong(tr, events, k, i - 1, w, x);
      PastMoves(tr[i - 1], events[i - 1], tr[i], w, x);
      HandedNext(events, k, i - 1, w);
      UndisturbedNext(tr, events, k, i - 1, w, tr[i].workers[w].uid);
    }
  }

  /** w was let in past a sync item before i, and nothing has taken that away since. */
  ghost predicate LeftBehind(tr: seq<System>, events: seq<Event>, i: nat, w: nat, u: UID)
    requires |tr| == |events| + 1 && i < |tr|
  {
    exists k: nat, x :: k < i && LetInPastSync(tr[k], events[k], w, x) && Undisturbed(tr, events, k, i, w, u)
  }

  /** And it has been sent to w. */
  ghost predicate SentBehind(tr: seq<System>, events: seq<Event>, i: nat, w: nat, u: UID)
    requires |tr| == |events| + 1 && i < |tr|
  {
    exists k: nat, x ::
      && k < i && LetInPastSync(tr[k], events[k], w, x) && Undisturbed(tr, events, k, i, w, u)
      && HandedOver(events, k, i, w)
  }

  lemma PendingIs(s: System, u: UID, x: PodWork)
    requires Inv(s) && u in s.sh.podUpdates
    ensures var w := s.sh.podUpdates[u];
            && Live(s, w) && s.workers[w].uid == u && w in s.sh.channels
            && (Pending(s, u, x) <==> Slot(s, w) == Some(x) || Hand(s, w) == Some(x))
  {
    LinkedUp(s, u);
    LiveWorker(s, s.sh.podUpdates[u]);
    hide PhaseFits, NumbersFit, ItemFits;
  }

  /** The claim on the field startedTerminating, exactly: nothing is left that can start a
      container, unless the worker was let in past a sync item, and that was neither replaced
      before it was sent to the worker nor completed after that. */
  lemma NoSyncPendingExactly(tr: seq<System>, events: seq<Event>, i: nat, u: UID)
    requires IsRun(tr, events) && |tr| == |events| + 1 && i < |tr|
    requires u in tr[i].sh.podUpdates && u in tr[i].sh.statuses && tr[i].sh.statuses[u].startedTerminating
    ensures NoSyncLeft(tr[i], u) <==> !LeftBehind(tr, events, i, tr[i].sh.podUpdates[u], u)
  {
    hide Next, Inv, IsRun, LetInPastSync, Undisturbed, HandedOver, Pending, Slot, Hand;
    RunInv(tr, events, i);
    var s, w := tr[i], tr[i].sh.podUpdates[u];
    LinkedUp(s, u);
    if x :| Pending(s, u, x) && x.workType.SyncPodWork? {
      OnlyIntruderPending(s, u, x);
      PendingIs(s, u, x);
      var k := IntruderOrigin(tr, events, i, w);
      PastAlong(tr, events, k, i, w, x);
      SyncIsLeft(s, u, x);
    } else {
      NothingPending(s, u);
      forall k: nat, x | k < i && LetInPastSync(tr[k], events[k], w, x) ensures !Undisturbed(tr, events, k, i, w, u) {
        LetInThere(tr[k], events[k], w, x);
        PendingIs(s, u, x);
        PastAlong(tr, events, k, i, w, x);
      }
    }
  }

  lemma SyncIsLeft(s: System, u: UID, x: PodWork)
    requires Pending(s, u, x) && x.workType.SyncPodWork?
    ensures !NoSyncLeft(s, u)
  {
  }

  /** While a pod's containers should be terminating, its worker is inside a syncPod exactly if
      it was let in past a sync item that was sent to it and has not been completed; never, if
      callers keep the kinds of pods that wait to be let in. */
  lemma TerminatingMeansNoSync(tr: seq<System>, events: seq<Event>, i: nat, w: nat)
    requires IsRun(tr, events) && |tr| == |events| + 1 && i < |tr| && w in tr[i].workers
    requires ShouldPodContainersBeTerminating(tr[i].sh, tr[i].workers[w].uid)
    ensures Processes(tr[i], w, SyncPodWork) <==>
              tr[i].workers[w].phase.Running? && SentBehind(tr, events, i, w, tr[i].workers[w].uid)
    ensures StableRun(tr, events) ==> !Processes(tr[i], w, SyncPodWork)
  {
    if tr[i].workers[w].phase.Running? { SyncsExactly(tr, events, i, w); }
    if StableRun(tr, events) && Processes(tr[i], w, SyncPodWork) {
      hide IsRun, StableRun, Inv, KindsFit, SentBehind;
      RunKinds(tr, events, i);
      ProcessedFits(tr[i], w, SyncPodWork);
      NoIntruder(tr[i], w);
    }
  }

  lemma SyncsExactly(tr: seq<System>, events: seq<Event>, i: nat, w: nat)
    requires IsRun(tr, events) && |tr| == |events| + 1 && i < |tr| && w in tr[i].workers && tr[i].workers[w].phase.Running?
    requires ShouldPodContainersBeTerminating(tr[i].sh, tr[i].workers[w].uid)
    ensures Processes(tr[i], w, SyncPodWork) <==> SentBehind(tr, events, i, w, tr[i].workers[w].uid)
  {
    hide Next, IsRun, LetInPastSync, Undisturbed, HandedOver, Slot;
    RunInv(tr, events, i);
    LiveWorker(tr[i], w);
    hide Inv, PhaseFits, NumbersFit;
    assert Hand(tr[i], w) == Some(tr[i].workers[w].phase.work);
    if Processes(tr[i], w, SyncPodWork) {
      ProcessedFits(tr[i], w, SyncPodWork);
      var k := IntruderOrigin(tr, events, i, w);
      PastAlong(tr, events, k, i, w, tr[i].workers[w].phase.work);
    }
    forall k: nat, x | k < i && LetInPastSync(tr[k], events[k], w, x)
                       && Undisturbed(tr, events, k, i, w, tr[i].workers[w].uid) && HandedOver(events, k, i, w)
      ensures Processes(tr[i], w, SyncPodWork)
    {
      LetInThere(tr[k], events[k], w, x);
      PastAlong(tr, events, k, i, w, x);
    }
  }

  /** However a run goes on after a pod has started terminating, its worker calls syncPod again
      exactly for such an item. */
  lemma NeverSyncsAgain(tr: seq<System>, events: seq<Event>, i: nat, j: nat, w: nat)
    requires IsRun(tr, events) && |tr| == |events| + 1 && i <= j < |tr| && w in tr[i].workers
    requires tr[i].workers[w].uid in tr[i].sh.statuses && tr[i].sh.statuses[tr[i].workers[w].uid].startedTerminating
    ensures Processes(tr[j], w, SyncPodWork) <==>
              && w in tr[j].workers && tr[j].workers[w].phase.Running?
              && SentBehind(tr, events, j, w, tr[i].workers[w].uid)
    ensures StableRun(tr, events) ==> !Processes(tr[j], w, SyncPodWork)
  {
    hide IsRun, StableRun, SentBehind;
    if w in tr[j].workers && tr[j].workers[w].phase.Running? {
      RunAdvances(tr, events, i, j, w);
      LiveBefore(tr, events, i, j, w);
      TerminatingMeansNoSync(tr, events, j, w);
    }
  }

  /** The work a worker processes over time reads Sync* Terminating* Terminated*, exactly: what
      it processes at j comes no earlier in the lifecycle than what it processed at i, unless it
      had begun to terminate its pod by i and now processes such an item. */
  lemma ForwardOnly(tr: seq<System>, events: seq<Event>, i: nat, j: nat, w: nat, t: PodWorkType, t': PodWorkType)
    requires IsRun(tr, events) && |tr| == |events| + 1 && i <= j < |tr|
    requires Processes(tr[i], w, t) && Processes(tr[j], w, t')
    ensures Rank(t) <= Rank(t') <==> t.SyncPodWork? || !SentBehind(tr, events, j, w, tr[j].workers[w].uid)
    ensures StableRun(tr, events) ==> Rank(t) <= Rank(t')
  {
    hide Next, IsRun, StableRun, Inv, SentBehind;
    RunInv(tr, events, i);
    RunInv(tr, events, j);
    ProcessedFits(tr[i], w, t);
    ProcessedFits(tr[j], w, t');
    RunAdvances(tr, events, i, j, w);
    LiveBefore(tr, events, i, j, w);
    if !t.SyncPodWork? { TerminatingMeansNoSync(tr, events, j, w); }
  }

  // ---------------------------------------------------------------- where items come from

  /** Item x is undelivered, in w's channel or in w's hands. */
  predicate Has(s: System, w: nat, x: PodWork) {
    w in s.workers && w in s.sh.channels && (Slot(s, w) == Some(x) || Hand(s, w) == Some(x))
  }

  lemma KeptOrIssued(s: System, e: Event, s': System, w: nat, x: PodWork)
    requires Inv(s) && Next(s, e, s') && w in s.workers && Live(s', w) && Has(s', w, x)
    ensures Has(s, w, x) || IssuedAt(s, e, s', w, x)
  {
    hide Inv, Next, IssuedAt, AcceptsUpdate, Parks, Slot, Hand;
    assert Live(s, w) by { StepKeepsWorker(s, e, s', w); }
    StepItems(s, e, s', w);
  }

  /** The request that makes a channel is the first one for its pod. */
  lemma Makes(s: System, o: UpdatePodOptions, cacheTerminal: bool)
    requires Inv(s) && o.WellFormed() && UpdatePod(s.sh, o, cacheTerminal).nextChannel > s.sh.nextChannel
    ensures !(o.IsRuntime() && !o.updateType.SyncPodKill?) && o.Target().uid !in s.sh.statuses
    ensures !Register(s.sh, o.Target(), o.IsRuntime(), cacheTerminal).statuses[o.Target().uid].finished
  {
    hide UpdatePod, Inv;
    if o.IsRuntime() && !o.updateType.SyncPodKill? {
      UpdateIgnored(s.sh, o, cacheTerminal);
    } else if Register(s.sh, o.Target(), o.IsRuntime(), cacheTerminal).statuses[o.Target().uid].finished {
      FinishedShape(s.sh, o, cacheTerminal);
    } else if o.Target().uid in s.sh.statuses {
      KnownKeepsNext(s, o, cacheTerminal);
    }
  }

  lemma NewGiven(s: System, o: UpdatePodOptions, cacheTerminal: bool, s': System, v: Verdict, n: nat)
    requires o.WellFormed() && !(o.IsRuntime() && !o.updateType.SyncPodKill?) && o.Target().uid !in s.sh.statuses
    requires !Register(s.sh, o.Target(), o.IsRuntime(), cacheTerminal).statuses[o.Target().uid].finished
    requires v == Decide(NewStatus(o.Target().fullname), o.Target(), o.IsRuntime(), o.updateType, o.kill)
    requires o.Target().uid in s'.sh.statuses && Recorded(s'.sh.statuses[o.Target().uid], v)
    ensures GivenBy(s, Update(o, cacheTerminal), s', o.Target().uid, v.work.(number := n))
  {
    hide Decide, RequestTermination;
    DecideGives(NewStatus(o.Target().fullname), o);
  }

  lemma FirstIs(s: System, o: UpdatePodOptions, s': System, w: nat, v: Verdict, x: PodWork)
    requires o.WellFormed() && Begins(s.sh, s'.sh, o.Target().uid, v) && w == s.sh.nextChannel
    requires w in s'.workers && s'.workers[w] == Worker(o.Target().uid, o.Target().isStatic, false, 0, Idle)
    requires o.Target().uid !in s.sh.lastUndelivered && Has(s', w, x)
    ensures x == v.work.(number := 1) && s'.sh.channels[w].issued == 1
  {
    hide ElsewhereSame;
  }

  /** A worker just made has the first item issued to it. */
  lemma FirstIssued(s: System, o: UpdatePodOptions, cacheTerminal: bool, w: nat, x: PodWork)
    requires Inv(s) && o.WellFormed() && w !in s.workers && w in ApplyUpdate(s, o, cacheTerminal).workers
    requires Has(ApplyUpdate(s, o, cacheTerminal), w, x)
    ensures IssuedAt(s, Update(o, cacheTerminal), ApplyUpdate(s, o, cacheTerminal), w, x)
  {
    var u, s' := o.Target().uid, ApplyUpdate(s, o, cacheTerminal);
    hide UpdatePod, GivenBy, Decide, Register;
    assert w !in s.sh.channels && w == s.sh.nextChannel;
    Makes(s, o, cacheTerminal);
    assert u !in s.sh.lastUndelivered by { assert PodFits(u, ViewOf(s, u)); }
    NewBegins(s, o, cacheTerminal);
    hide Inv;
    var v := Decide(NewStatus(o.Target().fullname), o.Target(), o.IsRuntime(), o.updateType, o.kill);
    FirstIs(s, o, s', w, v, x);
    NewGiven(s, o, cacheTerminal, s', v, 1);
    hide Begins, Has;
  }

  lemma StepIssues(s: System, e: Event, s': System, w: nat, x: PodWork)
    requires Inv(s) && Next(s, e, s') && Live(s', w) && Has(s', w, x)
    ensures Has(s, w, x) || IssuedAt(s, e, s', w, x)
  {
    hide Inv, Has, IssuedAt, Apply;
    if w in s.workers {
      KeptOrIssued(s, e, s', w, x);
    } else {
      OnlyUpdateMakes(s, e, w);
      FirstIssued(s, e.options, e.cacheTerminal, w, x);
    }
  }

  lemma OnlyUpdateMakes(s: System, e: Event, w: nat)
    requires Inv(s) && Enabled(s, e) && w !in s.workers && w in Apply(s, e).workers
    ensures e.Update? && Apply(s, e) == ApplyUpdate(s, e.options, e.cacheTerminal)
  {
    hide Inv, ApplyComplete, ApplyTryStart, ApplyTakeContext, ApplyReceive, SyncKnownPods, UpdatePod,
         CompleteWorkQueueNext, CompleteUnstartedTerminated, AcknowledgeTerminating;
    if IsWorkerEvent(e) { WorkerTouches(s, e); }
  }

  /** Every item that is undelivered, sent or held was issued at some step. */
  lemma {:induction false} ItemOrigin(tr: seq<System>, events: seq<Event>, j: nat, w: nat, x: PodWork) returns (i: nat)
    requires IsRun(tr, events) && j < |tr| && Live(tr[j], w) && Has(tr[j], w, x)
    ensures |tr| == |events| + 1 && i < j && IssuedAt(tr[i], events[i], tr[i + 1], w, x)
  {
    hide Next, Inv, IsRun, Has, IssuedAt;
    RunStarts(tr, events);
    if j == 0 {
      assert false;
    } else {
      RunStep(tr, events, j - 1);
      StepIssues(tr[j - 1], events[j - 1], tr[j], w, x);
      i := j - 1;
      if !IssuedAt(tr[j - 1], events[j - 1], tr[j], w, x) {
        HolderThere(tr[j - 1], w, x);
        LiveBefore(tr, events, j - 1, j, w);
        i := ItemOrigin(tr, events, j - 1, w, x);
      }
    }
  }

  lemma HolderThere(s: System, w: nat, x: PodWork)
    requires Has(s, w, x)
    ensures w in s.workers
  {
  }

  /** The period a termination attempt is given. Its item is that issued at step i: it carries
      no period exactly if completeSync issued it, and otherwise carries the options of the
      accepted request with the period recorded for that. */
  lemma PeriodGiven(tr: seq<System>, events: seq<Event>, j: nat, w: nat) returns (i: nat)
    requires IsRun(tr, events) && |tr| == |events| + 1 && j < |events| && events[j] == Acknowledge(w)
    ensures w in tr[j].workers && tr[j].workers[w].phase.Acknowledging?
    ensures i < j && w in tr[i + 1].sh.channels && (w in tr[i].sh.channels ==> tr[i].sh.channels[w].issued < tr[i + 1].sh.channels[w].issued)
    ensures var x, u := tr[j].workers[w].phase.work, tr[j].workers[w].uid;
            && x.number == tr[i + 1].sh.channels[w].issued
            && (x.kill.None? <==> events[i] == Complete(w))
            && (x.kill.None? ==> Parks(tr[i], w) && tr[i].workers[w].phase.work.workType.SyncPodWork?)
            && (x.kill.Some? ==>
                  && Accepted(tr[i], events[i], u).Some? && u in tr[i + 1].sh.statuses
                  && x.kill.value == Accepted(tr[i], events[i], u).value.options.(
                                       graceOverride := Some(tr[i + 1].sh.statuses[u].gracePeriod)))
  {
    hide IsRun, Apply, Accepted, AcceptsUpdate;
    RunStep(tr, events, j);
    AcknowledgesHeld(tr[j], w);
    hide Inv, Next, Enabled;
    i := ItemOrigin(tr, events, j, w, tr[j].workers[w].phase.work);
    RunStep(tr, events, i);
    LiveBefore(tr, events, i + 1, j, w);
    hide Parks;
  }

  lemma AcknowledgesHeld(s: System, w: nat)
    requires Inv(s) && Enabled(s, Acknowledge(w))
    ensures Live(s, w) && s.workers[w].phase.Acknowledging? && Has(s, w, s.workers[w].phase.work)
    ensures s.workers[w].phase.work.workType.TerminatingPodWork?
  {
    LiveWorker(s, w);
    hide Inv, NumbersFit, ItemFits;
  }
}
