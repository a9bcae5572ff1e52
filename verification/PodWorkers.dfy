/** The pod workers as the program keeps them: maps updated in place while podLock is held.
    Every method is one section under the lock and is proved to do to the state what its
    function in WorkerState does. */
module PodWorkersImpl {
  import opened PodTypes
  import opened GracePeriod
  import S = WorkerState
  import WorkerProgress
  import WorkerSafety

  type PodSyncStatus = S.PodSyncStatus

  class PodWorkers {
    var podsSynced: bool
    var podUpdates: map<UID, nat>
    var lastUndeliveredWorkUpdate: map<UID, PodWork>
    var podSyncStatuses: map<UID, PodSyncStatus>
    var startedStaticPodsByFullname: map<FullName, UID>
    var waitingToStartStaticPodsByFullname: map<FullName, seq<UID>>
    // the channels podUpdates refers to, and what the runtime would have reported
    var channels: map<nat, S.Channel>
    var nextChannel: nat
    var nextContext: nat
    var completions: multiset<CompletedCh>
    var faults: set<S.Fault>

    ghost function Abs(): S.Shared
      reads this
    {
      S.Shared(podsSynced, podUpdates, lastUndeliveredWorkUpdate, podSyncStatuses, startedStaticPodsByFullname,
               waitingToStartStaticPodsByFullname, channels, nextChannel, nextContext, completions, faults)
    }

    constructor ()
      ensures Abs() == S.INITIAL
    {
      podsSynced := false;
      podUpdates, lastUndeliveredWorkUpdate, podSyncStatuses := map[], map[], map[];
      startedStaticPodsByFullname, waitingToStartStaticPodsByFullname := map[], map[];
      channels, nextChannel, nextContext := map[], 0, 0;
      completions, faults := multiset{}, {};
    }

    // -------------------------------------------------------------- channels

    /** podUpdates[uid] <- work */
    method Send(uid: UID, work: PodWork)
      modifies this`channels, this`faults
      ensures Abs() == S.Send(old(Abs()), uid, work)
    {
      if uid in podUpdates && podUpdates[uid] in channels {
        var c := podUpdates[uid];
        if !channels[c].closed && |channels[c].buffer| < S.CAPACITY {
          channels := channels[c := channels[c].(buffer := channels[c].buffer + [work])];
          return;
        }
      }
      faults := faults + {S.BlockedSend(uid)};
    }

    /** Numbers an item about to be issued for uid (history only). */
    method Stamp(uid: UID, work: PodWork) returns (stamped: PodWork)
      modifies this`channels
      ensures stamped == work.(number := S.NextNumber(old(Abs()), uid))
      ensures Abs() == S.Issue(old(Abs()), uid)
    {
      stamped := work.(number := 0);
      if uid in podUpdates && podUpdates[uid] in channels {
        var c := podUpdates[uid];
        stamped := work.(number := channels[c].issued + 1);
        channels := channels[c := channels[c].(issued := channels[c].issued + 1)];
      }
    }

    /** Notes that the undelivered item is passed over (history only). */
    method PassOver(uid: UID)
      modifies this`channels
      ensures Abs() == S.PassOver(old(Abs()), uid)
    {
      if uid in lastUndeliveredWorkUpdate && uid in podUpdates && podUpdates[uid] in channels {
        var c := podUpdates[uid];
        channels := channels[c := channels[c].(passed := channels[c].passed + {lastUndeliveredWorkUpdate[uid].number})];
      }
    }

    method Park(uid: UID, work: PodWork)
      modifies this`channels, this`lastUndeliveredWorkUpdate
      ensures Abs() == S.Park(old(Abs()), uid, work)
    {
      var stamped := Stamp(uid, work);
      lastUndeliveredWorkUpdate := lastUndeliveredWorkUpdate[uid := stamped];
    }

    method CleanupPodUpdates(uid: UID)
      modifies this`channels, this`faults, this`podUpdates, this`lastUndeliveredWorkUpdate
      ensures Abs() == S.CleanupPodUpdates(old(Abs()), uid)
      ensures uid !in podUpdates && uid !in lastUndeliveredWorkUpdate
      ensures uid in old(podUpdates) && old(podUpdates)[uid] in old(channels) ==>
                old(podUpdates)[uid] in channels && channels[old(podUpdates)[uid]].closed
    {
      if uid in podUpdates {
        var c := podUpdates[uid];
        if c !in channels || channels[c].closed {
          faults := faults + {S.BadClose(uid)};
        } else {
          channels := channels[c := channels[c].(closed := true)];
        }
      }
      podUpdates := podUpdates - {uid};
      lastUndeliveredWorkUpdate := lastUndeliveredWorkUpdate - {uid};
    }

    method Report(condition: bool, fault: S.Fault)
      modifies this`faults
      ensures Abs() == S.Report(old(Abs()), condition, fault)
    {
      if condition { faults := faults + {fault}; }
    }

    // -------------------------------------------------------------- UpdatePod

    method UpdatePod(request: UpdatePodOptions, cacheTerminal: bool)
      requires request.WellFormed()
      modifies this
      ensures Abs() == S.UpdatePod(old(Abs()), request, cacheTerminal)
      ensures request.Target().uid !in old(podSyncStatuses) && !(request.pod.None? && request.updateType != SyncPodKill) ==>
                && request.Target().uid in podSyncStatuses
                && (podSyncStatuses[request.Target().uid].finished
                    <==> request.pod.Some? && TerminalPhase(request.pod.value.phase) && cacheTerminal)
    {
      hide S.Admit;
      var isRuntimePod := request.pod.None?;
      if isRuntimePod && request.updateType != SyncPodKill {
        return;
      }
      var pod := request.Target();
      if pod.uid !in podSyncStatuses {
        var first := S.NewStatus(pod.fullname);
        if !isRuntimePod && TerminalPhase(pod.phase) && cacheTerminal {
          first := S.FinishedStatus(pod.fullname);
        }
        podSyncStatuses := podSyncStatuses[pod.uid := first];
      }
      assert Abs() == S.Register(old(Abs()), pod, isRuntimePod, cacheTerminal);
      WorkerProgress.AdmitRegistered(old(Abs()), pod, isRuntimePod, request.updateType, request.kill, cacheTerminal);
      WorkerSafety.AdmitKeepsTerminated(Abs(), pod, isRuntimePod, request.updateType, request.kill);
      UpdateKnownPod(pod, isRuntimePod, request.updateType, request.kill);
    }

    /** The rest of UpdatePod, with the pod's status in place. */
    method UpdateKnownPod(pod: Pod, isRuntimePod: bool, updateType: SyncPodType, kill: Option<KillPodOptions>)
      requires pod.uid in podSyncStatuses
      modifies this
      ensures Abs() == S.Admit(old(Abs()), pod, isRuntimePod, updateType, kill, false)
    {
      hide S.Decide, S.Dispatch, S.EnsureWorker, S.CloseCompletion, S.RequestTermination;
      var uid := pod.uid;
      var status := podSyncStatuses[uid];
      if status.terminatingAt && updateType == SyncPodCreate {
        podSyncStatuses := podSyncStatuses[uid := status.(restartRequested := true)];
        return;
      }
      if status.finished {
        return;
      }
      ghost var v := S.Decide(status, pod, isRuntimePod, updateType, kill);
      var fullname := status.fullname;
      ghost var before := status;
      var becameTerminating, work, closed, wasGracePeriodShortened;
      status, becameTerminating := BecomeTerminating(status, pod, isRuntimePod, updateType, kill);
      status, work, closed, wasGracePeriodShortened :=
        ChooseWork(status, before, pod, isRuntimePod, updateType, kill);
      podSyncStatuses := podSyncStatuses[uid := status];
      if status.terminatedAt && isRuntimePod {
        return;
      }
      Deliver(pod, fullname, work, closed, becameTerminating || wasGracePeriodShortened, v);
    }

    /** Answers the request if it is to be answered now, and hands the item on. */
    method Deliver(pod: Pod, fullname: FullName, work: PodWork, closed: Option<CompletedCh>, cancel: bool,
                   ghost v: S.Verdict)
      requires pod.uid in podSyncStatuses && podSyncStatuses[pod.uid] == v.status
      requires v.work == work && v.close == closed && v.cancel == cancel
      modifies this
      ensures Abs() == S.Dispatch(S.EnsureWorker(S.CloseCompletion(old(Abs()), closed), pod, fullname), pod.uid, v)
    {
      hide S.Dispatch, S.EnsureWorker;
      if closed.Some? {
        completions := completions + multiset{closed.value};
      }
      assert Abs() == S.CloseCompletion(old(Abs()), closed);
      EnsureWorker(pod, fullname);
      Dispatch(pod.uid, podSyncStatuses[pod.uid], work, cancel, v);
    }

    /** The check for a transition to terminating. */
    static method BecomeTerminating(before: PodSyncStatus, pod: Pod, isRuntimePod: bool, updateType: SyncPodType,
                                    kill: Option<KillPodOptions>)
      returns (status: PodSyncStatus, becameTerminating: bool)
      ensures status == S.RequestTermination(before, pod, isRuntimePod, updateType, kill)
      ensures becameTerminating <==> status.terminatingAt && !before.terminatingAt
    {
      status, becameTerminating := before, false;
      if !status.terminatingAt {
        if isRuntimePod || pod.deleting {
          status := status.(deleted := true, terminatingAt := true);
          becameTerminating := true;
        } else if TerminalPhase(pod.phase) {
          status := status.(terminatingAt := true);
          becameTerminating := true;
        } else if updateType == SyncPodKill {
          if kill.Some? && kill.value.evict {
            status := status.(evicted := true);
          }
          status := status.(terminatingAt := true);
          becameTerminating := true;
        }
      }
    }

    static method JoinTermination(status0: PodSyncStatus, pod: Pod, k: KillPodOptions)
      returns (status: PodSyncStatus, gracePeriod: int, wasGracePeriodShortened: bool)
      ensures status == S.Join(status0, pod, k)
      ensures gracePeriod == Effective(status0.gracePeriod, pod, k)
      ensures status0.gracePeriod == 0 ==> gracePeriod == FirstPeriod(KillRequest(pod, k))
      ensures wasGracePeriodShortened == Shortened(status0.gracePeriod, pod, k)
      ensures wasGracePeriodShortened <==> status0.gracePeriod != 0 && gracePeriod != status0.gracePeriod
    {
      var notify, fns := status0.notifyPostTerminating, status0.statusPostTerminating;
      if k.completedCh.Some? {
        notify := notify + [k.completedCh.value];
      }
      if k.podStatusFunc.Some? {
        fns := fns + [k.podStatusFunc.value];
      }
      gracePeriod := Effective(status0.gracePeriod, pod, k);
      wasGracePeriodShortened := Shortened(status0.gracePeriod, pod, k);
      FirstPeriodExactly(KillRequest(pod, k));
      status := status0.(gracePeriod := gracePeriod, notifyPostTerminating := notify, statusPostTerminating := fns);
    }

    /** The work a request amounts to; one for a terminating pod joins its termination. */
    static method ChooseWork(status0: PodSyncStatus, ghost before: PodSyncStatus, pod: Pod, isRuntimePod: bool,
                             updateType: SyncPodType, kill0: Option<KillPodOptions>)
      returns (status: PodSyncStatus, work: PodWork, closed: Option<CompletedCh>, wasGracePeriodShortened: bool)
      requires status0 == S.RequestTermination(before, pod, isRuntimePod, updateType, kill0)
      ensures var v := S.Decide(before, pod, isRuntimePod, updateType, kill0);
              && status == v.status && work == v.work && closed == v.close
              && v.cancel == ((status0.terminatingAt && !before.terminatingAt) || wasGracePeriodShortened)
    {
      hide S.RequestTermination, Effective, S.Join, Shortened;
      status := status0;
      var kill := kill0;
      var k := if kill.Some? then kill.value else NO_KILL_OPTIONS;
      var workType := SyncPodWork;
      wasGracePeriodShortened := false;
      closed := None;
      if status.terminatedAt {
        workType := TerminatedPodWork;
        closed := k.completedCh;
        kill := None;
      } else if status.terminatingAt {
        workType := TerminatingPodWork;
        var gracePeriod;
        status, gracePeriod, wasGracePeriodShortened := JoinTermination(status, pod, k);
        kill := Some(k.(graceOverride := Some(gracePeriod)));
      } else {
        closed := k.completedCh;
        kill := None;
      }
      work := PodWork(workType, updateType, pod, isRuntimePod, kill, 0);
    }

    /** Starts the pod worker goroutine if it does not exist. */
    method EnsureWorker(pod: Pod, fullname: FullName)
      modifies this`podUpdates, this`channels, this`nextChannel, this`waitingToStartStaticPodsByFullname
      ensures Abs() == S.EnsureWorker(old(Abs()), pod, fullname) && podSyncStatuses == old(podSyncStatuses)
    {
      if pod.uid !in podUpdates {
        podUpdates := podUpdates[pod.uid := nextChannel];
        channels := channels[nextChannel := S.Channel([], false, 0)];
        nextChannel := nextChannel + 1;
        if pod.isStatic {
          var waiting := if fullname in waitingToStartStaticPodsByFullname
                         then waitingToStartStaticPodsByFullname[fullname] else [];
          waitingToStartStaticPodsByFullname := waitingToStartStaticPodsByFullname[fullname := waiting + [pod.uid]];
        }
      }
    }

    /** To the worker if none is running, otherwise as the latest undelivered item. */
    method Dispatch(uid: UID, status: PodSyncStatus, work: PodWork, cancel: bool, ghost v: S.Verdict)
      requires v.status == status && v.work == work && v.cancel == cancel
      modifies this
      ensures Abs() == S.Dispatch(old(Abs()), uid, v)
    {
      hide S.Send, S.Issue, S.PassOver;
      if !status.working {
        podSyncStatuses := podSyncStatuses[uid := status.(working := true)];
        assert Abs() == S.SetStatus(old(Abs()), uid, v.status.(working := true));
        PassOver(uid);
        PassOverKeepsNumber(S.SetStatus(old(Abs()), uid, v.status.(working := true)), uid);
        var stamped := Stamp(uid, work);
        Send(uid, stamped);
        return;
      }
      podSyncStatuses := podSyncStatuses[uid := status];
      if cancel && status.ctx.Some? {
        podSyncStatuses := podSyncStatuses[uid := status.(ctx := Some(status.ctx.value.(cancelled := true)))];
      }
      assert Abs() == S.SetStatus(old(Abs()), uid, if v.cancel then S.Cancelled(v.status) else v.status);
      Park(uid, work);
    }

    // -------------------------------------------------------------- static admission

    method AllowStaticPodStart(fullname: FullName, uid: UID) returns (ok: bool)
      modifies this`startedStaticPodsByFullname, this`waitingToStartStaticPodsByFullname
      ensures (Abs(), ok) == S.AllowStaticPodStart(old(Abs()), fullname, uid)
    {
      if fullname in startedStaticPodsByFullname {
        return startedStaticPodsByFullname[fullname] == uid;
      }
      StartsAtFront(old(Abs()), S.Waiting(old(Abs()), fullname));
      hide S.FirstEligible;
      var waitingPods := if fullname in waitingToStartStaticPodsByFullname
                         then waitingToStartStaticPodsByFullname[fullname] else [];
      ghost var list := waitingPods;
      var i := 0;
      while i < |waitingPods|
        invariant 0 <= i <= |list| && waitingPods == list
        invariant S.FirstEligible(old(Abs()), list) == i + S.FirstEligible(old(Abs()), list[i..])
        invariant Abs() == old(Abs())
      {
        var waitingUID := waitingPods[i];
        if waitingUID !in podSyncStatuses || podSyncStatuses[waitingUID].terminatingAt
           || podSyncStatuses[waitingUID].terminatedAt {
          SkipsIneligible(old(Abs()), list, i);
          i := i + 1;
          continue;
        }
        StopsAtEligible(old(Abs()), list, i);
        if waitingUID != uid {
          waitingToStartStaticPodsByFullname := waitingToStartStaticPodsByFullname[fullname := waitingPods[i..]];
          return false;
        }
        waitingPods := waitingPods[i + 1..];
        break;
      }
      if |waitingPods| != 0 {
        waitingToStartStaticPodsByFullname := waitingToStartStaticPodsByFullname[fullname := waitingPods];
      } else {
        waitingToStartStaticPodsByFullname := waitingToStartStaticPodsByFullname - {fullname};
      }
      startedStaticPodsByFullname := startedStaticPodsByFullname[fullname := uid];
      return true;
    }

    method AllowPodStart(pod: Pod) returns (admission: S.Admission)
      modifies this
      ensures (Abs(), admission) == S.AllowPodStart(old(Abs()), pod)
    {
      if !pod.isStatic {
        return S.Start;
      }
      if pod.uid !in podSyncStatuses {
        faults := faults + {S.MissingStatus(pod.uid)};
        return S.Never;
      }
      var status := podSyncStatuses[pod.uid];
      if status.terminatingAt {
        return S.Never;
      }
      var ok := AllowStaticPodStart(status.fullname, pod.uid);
      if !ok {
        podSyncStatuses := podSyncStatuses[pod.uid := status.(working := false)];
        return S.Later;
      }
      return S.Start;
    }

    // -------------------------------------------------------------- the worker's sections

    method ContextForWorker(uid: UID) returns (ctx: Option<nat>)
      modifies this`podSyncStatuses, this`nextContext
      ensures (Abs(), ctx) == S.ContextForWorker(old(Abs()), uid)
    {
      if uid !in podSyncStatuses {
        return None;
      }
      var status := podSyncStatuses[uid];
      if status.ctx.None? || status.ctx.value.cancelled {
        status := status.(ctx := Some(S.Context(nextContext, false)));
        podSyncStatuses := podSyncStatuses[uid := status];
        nextContext := nextContext + 1;
      }
      return Some(status.ctx.value.id);
    }

    method AcknowledgeTerminating(pod: Pod) returns (fn: Option<StatusFn>)
      modifies this`podSyncStatuses
      ensures (Abs(), fn) == S.AcknowledgeTerminating(old(Abs()), pod.uid)
    {
      if pod.uid !in podSyncStatuses {
        return None;
      }
      var status := podSyncStatuses[pod.uid];
      if status.terminatingAt && !status.startedTerminating {
        status := status.(startedTerminating := true);
      }
      podSyncStatuses := podSyncStatuses[pod.uid := status];
      var l := |status.statusPostTerminating|;
      if l > 0 {
        return Some(status.statusPostTerminating[l - 1]);
      }
      return None;
    }

    method CompleteSync(pod: Pod)
      modifies this
      ensures Abs() == S.CompleteSync(old(Abs()), pod)
      ensures pod.uid in old(podSyncStatuses) ==>
                && pod.uid in podSyncStatuses
                && podSyncStatuses[pod.uid].terminatingAt && podSyncStatuses[pod.uid].startedTerminating
    {
      if pod.uid in podSyncStatuses {
        var status := podSyncStatuses[pod.uid];
        if !status.terminatingAt {
          status := status.(terminatingAt := true);
        }
        status := status.(startedTerminating := true);
        podSyncStatuses := podSyncStatuses[pod.uid := status];
      }
      Park(pod.uid, S.BareWork(TerminatingPodWork, pod));
    }

    method CloseAll(list: seq<CompletedCh>)
      modifies this`completions
      ensures completions == old(completions) + multiset(list)
    {
      for i := 0 to |list|
        invariant completions == old(completions) + multiset(list[..i])
      {
        completions := completions + multiset{list[i]};
        assert list[..i + 1] == list[..i] + [list[i]];
      }
      assert list[..|list|] == list;
    }

    method CompleteTerminating(pod: Pod)
      modifies this
      ensures Abs() == S.CompleteTerminating(old(Abs()), pod)
    {
      if pod.uid in podSyncStatuses {
        var status := podSyncStatuses[pod.uid];
        Report(!status.terminatingAt, S.ProgrammerError(pod.uid));
        CloseAll(status.notifyPostTerminating);
        status := status.(terminatedAt := true, notifyPostTerminating := [], statusPostTerminating := []);
        podSyncStatuses := podSyncStatuses[pod.uid := status];
      }
      Park(pod.uid, S.BareWork(TerminatedPodWork, pod));
    }

    method Release(fullname: FullName, uid: UID)
      modifies this`startedStaticPodsByFullname
      ensures Abs() == S.Release(old(Abs()), fullname, uid)
    {
      if fullname in startedStaticPodsByFullname && startedStaticPodsByFullname[fullname] == uid {
        startedStaticPodsByFullname := startedStaticPodsByFullname - {fullname};
      }
    }

    /** Records the final status and gives up the name. */
    method Retire(uid: UID, status: PodSyncStatus)
      modifies this`podSyncStatuses, this`startedStaticPodsByFullname
      ensures Abs() == S.Release(S.SetStatus(old(Abs()), uid, status), status.fullname, uid)
    {
      podSyncStatuses := podSyncStatuses[uid := status];
      Release(status.fullname, uid);
    }

    method CompleteTerminatingRuntimePod(pod: Pod)
      modifies this
      ensures Abs() == S.CompleteTerminatingRuntimePod(old(Abs()), pod.uid)
    {
      if pod.uid in podSyncStatuses {
        var status := podSyncStatuses[pod.uid];
        Retire(pod.uid, status.(terminatedAt := true, finished := true, working := false));
        Report(!status.terminatingAt, S.ProgrammerError(pod.uid));
      }
      CleanupPodUpdates(pod.uid);
    }

    method CompleteTerminated(pod: Pod)
      modifies this
      ensures Abs() == S.CompleteTerminated(old(Abs()), pod.uid)
    {
      hide S.CleanupPodUpdates;
      CleanupPodUpdates(pod.uid);
      if pod.uid in podSyncStatuses {
        var status := podSyncStatuses[pod.uid];
        Retire(pod.uid, status.(finished := true, working := false));
        Report(!status.terminatingAt || !status.terminatedAt, S.ProgrammerError(pod.uid));
      }
    }

    method CompleteUnstartedTerminated(pod: Pod)
      modifies this
      ensures Abs() == S.CompleteUnstartedTerminated(old(Abs()), pod.uid)
    {
      hide S.CleanupPodUpdates;
      CleanupPodUpdates(pod.uid);
      if pod.uid in podSyncStatuses {
        var status := podSyncStatuses[pod.uid];
        Retire(pod.uid, status.(finished := true, working := false, terminatedAt := true));
        Report(!status.terminatingAt || status.terminatedAt, S.ProgrammerError(pod.uid));
      }
    }

    method CompleteWorkQueueNext(uid: UID)
      modifies this
      ensures Abs() == S.CompleteWorkQueueNext(old(Abs()), uid)
    {
      if uid in lastUndeliveredWorkUpdate {
        Send(uid, lastUndeliveredWorkUpdate[uid]);
        lastUndeliveredWorkUpdate := lastUndeliveredWorkUpdate - {uid};
      } else if uid in podSyncStatuses {
        podSyncStatuses := podSyncStatuses[uid := podSyncStatuses[uid].(working := false)];
      } else {
        faults := faults + {S.MissingStatus(uid)};
      }
    }

    // -------------------------------------------------------------- housekeeping

    method RemoveTerminatedWorker(uid: UID)
      modifies this
      ensures Abs() == S.RemoveTerminatedWorker(old(Abs()), uid)
      ensures if uid !in old(podSyncStatuses) || !old(podSyncStatuses)[uid].finished then Abs() == old(Abs())
              else
                && podSyncStatuses == old(podSyncStatuses) - {uid}
                && uid !in podUpdates && uid !in lastUndeliveredWorkUpdate
                && var f := old(podSyncStatuses)[uid].fullname;
                !(f in startedStaticPodsByFullname && startedStaticPodsByFullname[f] == uid)
    {
      if uid !in podSyncStatuses || !podSyncStatuses[uid].finished {
        return;
      }
      var status := podSyncStatuses[uid];
      podSyncStatuses := podSyncStatuses - {uid};
      CleanupPodUpdates(uid);
      Release(status.fullname, uid);
    }

    static method UIDs(desiredPods: seq<Pod>) returns (known: set<UID>)
      ensures known == set pod | pod in desiredPods :: pod.uid
    {
      known := {};
      for i := 0 to |desiredPods|
        invariant known == set j | 0 <= j < i :: desiredPods[j].uid
      {
        known := known + {desiredPods[i].uid};
      }
    }

    /** One turn of the loop in SyncKnownPods. */
    method Visit(uid: UID, known: set<UID>) returns (state: S.PodWorkerState)
      requires uid in podSyncStatuses
      modifies this
      ensures Abs() == S.VisitKnown(old(Abs()), uid, known)
      ensures forall u :: u in old(podSyncStatuses) && u != uid ==>
                u in podSyncStatuses && podSyncStatuses[u] == old(podSyncStatuses)[u]
      ensures state == S.StateOf(old(podSyncStatuses)[uid])
    {
      var status := podSyncStatuses[uid];
      if uid !in known || status.restartRequested {
        RemoveTerminatedWorker(uid);
      }
      if status.terminatedAt {
        if status.restartRequested {
          state := S.TerminatedAndRecreatedPod;
        } else {
          state := S.TerminatedPod;
        }
      } else if status.terminatingAt {
        state := S.TerminatingPod;
      } else {
        state := S.SyncPod;
      }
      WorkerProgress.VisitEffect(old(Abs()), uid, known);
    }

    /** Visits every known pod once, in the order `order` in which the map yields them, and
        reports what each was when the pass began. */
    method SyncKnownPods(desiredPods: seq<Pod>) returns (workers: map<UID, S.PodWorkerState>, ghost order: seq<UID>)
      modifies this
      ensures S.Enumerates(order, old(podSyncStatuses).Keys)
      ensures Abs() == S.SyncKnownPods(old(Abs()), order, set pod | pod in desiredPods :: pod.uid)
      ensures workers.Keys == old(podSyncStatuses).Keys
      ensures forall u :: u in workers ==>
                Reports(old(podSyncStatuses)[u], workers[u])
      ensures forall u :: u in workers ==> workers[u] == S.StateOf(old(podSyncStatuses)[u])
    {
      hide S.Sweep, S.VisitKnown, S.StateOf, S.Enumerates;
      var known := UIDs(desiredPods);
      podsSynced := true;
      ghost var start := Abs();
      var remaining := set u | u in podSyncStatuses;
      workers, order := map[], [];
      SweepNothing(start, known);
      EnumeratesNothing(workers);
      while exists u :: u in remaining
        invariant Abs() == S.Sweep(start, order, known)
        invariant S.Enumerates(order, workers.Keys)
        invariant forall u :: u in start.statuses <==> u in workers || u in remaining
        invariant forall u :: u in workers ==> u !in remaining
        invariant forall u :: u in remaining ==> u in podSyncStatuses && podSyncStatuses[u] == start.statuses[u]
        invariant forall u :: u in workers ==> workers[u] == S.StateOf(start.statuses[u])
        decreases remaining
      {
        var uid :| uid in remaining;
        var state := Visit(uid, known);
        SweepOneMore(start, order, uid, known);
        EnumeratesOneMore(order, workers, uid, state);
        workers := workers[uid := state];
        order := order + [uid];
        remaining := remaining - {uid};
      }
      assert forall u :: u in workers.Keys <==> u in start.statuses.Keys;
      SameElements(workers.Keys, start.statuses.Keys);
      forall u | u in workers ensures Reports(start.statuses[u], workers[u]) {
        StateReports(start.statuses[u]);
      }
    }
  }

  /** What each of the four reported states means. */
  predicate Reports(status: S.PodSyncStatus, state: S.PodWorkerState) {
    && (state.SyncPod? <==> !status.terminatingAt && !status.terminatedAt)
    && (state.TerminatingPod? <==> status.terminatingAt && !status.terminatedAt)
    && (state.TerminatedPod? <==> status.terminatedAt && !status.restartRequested)
    && (state.TerminatedAndRecreatedPod? <==> status.terminatedAt && status.restartRequested)
  }

  lemma StateReports(status: S.PodSyncStatus)
    ensures Reports(status, S.StateOf(status))
  {
  }

  lemma StartsAtFront(s: S.Shared, list: seq<UID>)
    ensures list[0..] == list && S.FirstEligible(s, list[|list|..]) == 0
  {
  }

  lemma SkipsIneligible(s: S.Shared, list: seq<UID>, i: nat)
    requires i < |list| && !S.Eligible(s, list[i])
    ensures S.FirstEligible(s, list[i..]) == 1 + S.FirstEligible(s, list[i + 1..])
  {
    assert list[i..][1..] == list[i + 1..];
  }

  lemma StopsAtEligible(s: S.Shared, list: seq<UID>, i: nat)
    requires i < |list| && S.Eligible(s, list[i])
    ensures S.FirstEligible(s, list[i..]) == 0
  {
  }

  lemma PassOverKeepsNumber(s: S.Shared, uid: UID)
    ensures S.NextNumber(S.PassOver(s, uid), uid) == S.NextNumber(s, uid)
  {
  }

  lemma SweepNothing(s: S.Shared, desired: set<UID>)
    ensures S.Sweep(s, [], desired) == s
  {
  }

  lemma EnumeratesNothing<V>(visited: map<UID, V>)
    requires visited == map[]
    ensures S.Enumerates([], visited.Keys)
  {
    assert visited.Keys == {};
  }

  lemma SameElements<T>(a: set<T>, b: set<T>)
    requires forall x :: x in a <==> x in b
    ensures a == b
  {
  }

  lemma EnumeratesOneMore<V>(order: seq<UID>, visited: map<UID, V>, u: UID, v: V)
    requires S.Enumerates(order, visited.Keys) && u !in visited
    ensures S.Enumerates(order + [u], visited[u := v].Keys)
  {
  }

  lemma SweepOneMore(s: S.Shared, order: seq<UID>, u: UID, desired: set<UID>)
    ensures S.Sweep(s, order + [u], desired) == S.VisitKnown(S.Sweep(s, order, desired), u, desired)
  {
    assert (order + [u])[..|order|] == order;
  }
}
