/** What holds in every state of every run of the pod workers, and along every run. */
module WorkerSafety {
  import GracePeriod
  import opened PodTypes
  import opened WorkerState
  import opened WorkerSystem
  import opened WorkerInvariant
  import opened WorkerProgress

  /** The worker is inside the sync function for work of type t. */
  predicate Processes(s: System, w: nat, t: PodWorkType) {
    w in s.workers && s.workers[w].phase.Running? && s.workers[w].phase.work.workType == t
  }

  // ---------------------------------------------------------------- tokens and faults

  function Items(s: System, u: UID): nat {
    if u in s.sh.podUpdates && s.sh.podUpdates[u] in s.sh.channels && s.sh.podUpdates[u] in s.workers then
      |s.sh.channels[s.sh.podUpdates[u]].buffer| + (if Busy(s.workers[s.sh.podUpdates[u]].phase) then 1 else 0)
    else 0
  }

  lemma TokenConservation(tr: seq<System>, events: seq<Event>, i: nat, u: UID)
    requires IsRun(tr, events) && i < |tr|
    ensures Items(tr[i], u) <= 1
    ensures Items(tr[i], u) == 1 <==> u in tr[i].sh.statuses && tr[i].sh.statuses[u].working
  {
    RunInv(tr, events, i);
    assert PodFits(u, ViewOf(tr[i], u));
  }

  /** Nothing blocks under the lock, nothing panics, no programmer error is logged; in
      particular both sends find an open, empty channel. */
  lemma NothingFaults(tr: seq<System>, events: seq<Event>, i: nat)
    requires IsRun(tr, events) && i < |tr|
    ensures tr[i].sh.faults == {}
  {
    RunInv(tr, events, i);
  }

  lemma SendsNeverBlock(tr: seq<System>, events: seq<Event>, i: nat, u: UID)
    requires IsRun(tr, events) && i < |tr|
    requires u in tr[i].sh.podUpdates && u in tr[i].sh.statuses && tr[i].sh.podUpdates[u] in tr[i].workers
    requires !tr[i].sh.statuses[u].working || tr[i].workers[tr[i].sh.podUpdates[u]].phase.Requeuing?
    ensures CanSend(tr[i].sh, u)
    ensures var w := tr[i].sh.podUpdates[u];
            w in tr[i].sh.channels && !tr[i].sh.channels[w].closed && tr[i].sh.channels[w].buffer == []
  {
    RunInv(tr, events, i);
    assert PodFits(u, ViewOf(tr[i], u));
  }

  // ---------------------------------------------------------------- map coherence

  lemma MapCoherence(tr: seq<System>, events: seq<Event>, i: nat)
    requires IsRun(tr, events) && i < |tr|
    ensures var s := tr[i];
            && (forall u :: u in s.sh.podUpdates <==> u in s.sh.statuses && !s.sh.statuses[u].finished)
            && s.sh.lastUndelivered.Keys <= s.sh.podUpdates.Keys
            && (forall u :: u in s.sh.podUpdates ==>
                  Live(s, s.sh.podUpdates[u]) && s.workers[s.sh.podUpdates[u]].uid == u)
            && (forall w, w' :: Live(s, w) && Live(s, w') && s.workers[w].uid == s.workers[w'].uid ==> w == w')
            && (forall w :: w in s.workers ==> w in s.sh.channels && (s.sh.channels[w].closed <==> !Live(s, w)))
  {
    RunInv(tr, events, i);
    var s := tr[i];
    forall u ensures u in s.sh.podUpdates <==> u in s.sh.statuses && !s.sh.statuses[u].finished
      ensures u in s.sh.podUpdates ==> Live(s, s.sh.podUpdates[u])
    {
      assert PodFits(u, ViewOf(s, u));
    }
    forall u | u in s.sh.lastUndelivered ensures u in s.sh.podUpdates {
      assert PodFits(u, ViewOf(s, u));
    }
  }

  // ---------------------------------------------------------------- no sync once terminating has started

  /** No sync item in u's channel, in its undelivered slot or in its worker's hands. */
  predicate NoSyncLeft(s: System, u: UID) {
    && u in s.sh.podUpdates && s.sh.podUpdates[u] in s.sh.channels && s.sh.podUpdates[u] in s.workers
    && var w := s.sh.podUpdates[u];
    && (forall x :: x in s.sh.channels[w].buffer ==> !x.workType.SyncPodWork?)
    && (u in s.sh.lastUndelivered ==> !s.sh.lastUndelivered[u].workType.SyncPodWork?)
    && (Held(s.workers[w].phase).Some? ==> !Held(s.workers[w].phase).value.workType.SyncPodWork?)
  }

  /** x is in u's channel, in its undelivered slot or in its worker's hands. */
  predicate Pending(s: System, u: UID, x: PodWork) {
    && u in s.sh.podUpdates && s.sh.podUpdates[u] in s.sh.channels && s.sh.podUpdates[u] in s.workers
    && var w := s.sh.podUpdates[u];
    (x in s.sh.channels[w].buffer || Undelivered(s.sh, u) == Some(x) || Held(s.workers[w].phase) == Some(x))
  }

  /** The branch that lets a pod past its own termination: allowPodStart lets a worker in on an
      item that is not a static pod's, while a sync item lies in the undelivered slot although
      the pod has been asked to terminate. */
  predicate LetInPastSync(s: System, e: Event, w: nat, x: PodWork) {
    && e == TryStart(w) && w in s.workers && s.workers[w].phase.Received?
    && var u := s.workers[w].phase.work.pod.uid;
    && !s.workers[w].phase.work.pod.isStatic
    && u in s.sh.statuses && s.sh.statuses[u].terminatingAt
    && Undelivered(s.sh, u) == Some(x) && x.workType.SyncPodWork?
  }

  lemma OnlyIntruderPending(s: System, u: UID, x: PodWork)
    requires Inv(s) && u in s.sh.statuses && s.sh.statuses[u].startedTerminating
    requires Pending(s, u, x) && x.workType.SyncPodWork?
    ensures s.workers[s.sh.podUpdates[u]].intruder == Some(x)
  {
    assert PodFits(u, ViewOf(s, u));
  }

  lemma TryStartIntrudes(s: System, w: nat)
    requires Inv(s) && Enabled(s, TryStart(w))
    ensures var s' := Apply(s, TryStart(w));
            && w in s'.workers
            && (s'.workers[w].intruder.Some? ==>
                  || LetInPastSync(s, TryStart(w), w, s'.workers[w].intruder.value)
                  || s.workers[w].intruder == s'.workers[w].intruder)
  {
    LiveWorker(s, w);
    AllowPodStartFrame(s.sh, s.workers[w].phase.work.pod);
    hide Inv, NumbersFit, TokenFits, AllowStaticPodStart;
  }

  /** The intruder is the item a worker was let in past. */
  lemma StepIntrudes(s: System, e: Event, s': System, w: nat)
    requires Inv(s) && Next(s, e, s') && w in s'.workers
    ensures s'.workers[w].intruder.Some? ==>
              || LetInPastSync(s, e, w, s'.workers[w].intruder.value)
              || (w in s.workers && s.workers[w].intruder == s'.workers[w].intruder)
  {
    hide Inv, UpdatePod, SyncKnownPods, CompleteWorkQueueNext, CompleteUnstartedTerminated, AcknowledgeTerminating,
         AllowPodStart, ContextForWorker, CompleteSync, CompleteTerminating, CompleteTerminated,
         CompleteTerminatingRuntimePod, LetInPastSync;
    if e == TryStart(w) { TryStartIntrudes(s, w); }
  }

  lemma {:induction false} IntruderOrigin(tr: seq<System>, events: seq<Event>, j: nat, w: nat) returns (k: nat)
    requires IsRun(tr, events) && j < |tr| && w in tr[j].workers && tr[j].workers[w].intruder.Some?
    ensures |tr| == |events| + 1 && k < j
    ensures LetInPastSync(tr[k], events[k], w, tr[j].workers[w].intruder.value)
  {
    hide Next, Inv, IsRun, LetInPastSync;
    RunStarts(tr, events);
    if j == 0 {
      assert false;
    } else {
      RunStep(tr, events, j - 1);
      StepIntrudes(tr[j - 1], events[j - 1], tr[j], w);
      k := j - 1;
      if !LetInPastSync(tr[j - 1], events[j - 1], w, tr[j].workers[w].intruder.value) {
        k := IntruderOrigin(tr, events, j - 1, w);
      }
    }
  }

  lemma LinkedUp(s: System, u: UID)
    requires Inv(s) && u in s.sh.podUpdates
    ensures s.sh.podUpdates[u] in s.workers && s.sh.podUpdates[u] in s.sh.channels && Live(s, s.sh.podUpdates[u])
  {
    assert PodFits(u, ViewOf(s, u));
  }

  lemma NothingPending(s: System, u: UID)
    requires u in s.sh.podUpdates && s.sh.podUpdates[u] in s.workers && s.sh.podUpdates[u] in s.sh.channels
    requires forall x :: Pending(s, u, x) ==> !x.workType.SyncPodWork?
    ensures NoSyncLeft(s, u)
  {
    var w := s.sh.podUpdates[u];
    forall x | x in s.sh.channels[w].buffer ensures !x.workType.SyncPodWork? {
      assert Pending(s, u, x);
    }
    if u in s.sh.lastUndelivered { assert Pending(s, u, s.sh.lastUndelivered[u]); }
    if Held(s.workers[w].phase).Some? { assert Pending(s, u, Held(s.workers[w].phase).value); }
  }

  /** The claim on the field startedTerminating holds if callers keep the kinds of pods that wait to be let in. */
  lemma NoSyncPending(tr: seq<System>, events: seq<Event>, i: nat, u: UID)
    requires StableRun(tr, events) && i < |tr|
    requires u in tr[i].sh.podUpdates && u in tr[i].sh.statuses && tr[i].sh.statuses[u].startedTerminating
    ensures NoSyncLeft(tr[i], u)
  {
    hide StableRun, Inv, KindsFit;
    RunKinds(tr, events, i);
    LinkedUp(tr[i], u);
    forall x | Pending(tr[i], u, x) ensures !x.workType.SyncPodWork? {
      if x.workType.SyncPodWork? {
        OnlyIntruderPending(tr[i], u, x);
        NoIntruder(tr[i], tr[i].sh.podUpdates[u]);
      }
    }
    NothingPending(tr[i], u);
  }

  lemma NoIntruder(s: System, w: nat)
    requires Sound(s, true) && Live(s, w)
    ensures s.workers[w].intruder.None?
  {
    LiveKinds(s, w, true);
  }

  /** A worker that lives at j lived at every earlier point at which it existed. */
  lemma {:induction false} LiveBefore(tr: seq<System>, events: seq<Event>, i: nat, j: nat, w: nat)
    requires IsRun(tr, events) && i <= j < |tr|
    requires w in tr[i].workers && Live(tr[j], w)
    ensures Live(tr[i], w) && tr[i].workers[w].uid == tr[j].workers[w].uid
    ensures tr[i].workers[w].isStatic == tr[j].workers[w].isStatic
    decreases j - i
  {
    hide Next, Inv, IsRun;
    if i < j {
      RunInv(tr, events, i);
      RunStep(tr, events, i);
      StepKeepsWorker(tr[i], events[i], tr[i + 1], w);
      LiveBefore(tr, events, i + 1, j, w);
    }
  }

  lemma {:induction false} NotYet(tr: seq<System>, events: seq<Event>, k: nat, j: nat, w: nat)
    requires IsRun(tr, events) && k <= j < |tr| && w !in tr[j].workers
    ensures w !in tr[k].workers
    decreases j - k
  {
    hide Next, Inv, IsRun;
    if k < j {
      NotYet(tr, events, k + 1, j, w);
      RunInv(tr, events, k);
      RunStep(tr, events, k);
      if w in tr[k].workers { StepKeepsWorker(tr[k], events[k], tr[k + 1], w); }
    }
  }

  lemma LiveIsKnown(s: System, w: nat)
    requires Inv(s) && Live(s, w)
    ensures s.workers[w].uid in s.sh.statuses && s.workers[w].uid in s.sh.podUpdates
    ensures s.sh.podUpdates[s.workers[w].uid] == w && !s.sh.statuses[s.workers[w].uid].finished
    ensures LifecycleOrdered(s.sh.statuses[s.workers[w].uid])
  {
    LiveWorker(s, w);
  }

  lemma {:induction false} RunAdvances(tr: seq<System>, events: seq<Event>, i: nat, j: nat, w: nat)
    requires IsRun(tr, events) && i <= j < |tr|
    requires w in tr[i].workers && Live(tr[j], w)
    ensures var u := tr[j].workers[w].uid;
            && u in tr[i].sh.statuses && u in tr[j].sh.statuses
            && Advances(tr[i].sh.statuses[u], tr[j].sh.statuses[u])
    decreases j - i
  {
    hide Next, Inv, IsRun;
    LiveBefore(tr, events, i, j, w);
    RunInv(tr, events, i);
    LiveIsKnown(tr[i], w);
    if i < j {
      RunStep(tr, events, i);
      StepKeepsWorker(tr[i], events[i], tr[i + 1], w);
      LiveBefore(tr, events, i + 1, j, w);
      LiveIsKnown(tr[i + 1], w);
      StepProgresses(tr[i], events[i], tr[i + 1], tr[i].workers[w].uid);
      RunAdvances(tr, events, i + 1, j, w);
    }
  }

  lemma ProcessedFits(s: System, w: nat, t: PodWorkType)
    requires Inv(s) && Processes(s, w, t)
    ensures Live(s, w) && s.workers[w].uid in s.sh.statuses
    ensures var st := s.sh.statuses[s.workers[w].uid];
            && (t.SyncPodWork? ==> !st.startedTerminating || s.workers[w].intruder == Some(s.workers[w].phase.work))
            && (t.TerminatingPodWork? ==> st.startedTerminating && !st.terminatedAt)
            && (t.TerminatedPodWork? ==> st.startedTerminating && st.terminatedAt)
  {
    LiveWorker(s, w);
  }

  // ---------------------------------------------------------------- the lifecycle

  /** Finished implies terminated implies terminating, in every state of every run; and a pod
      that is terminated but not finished went through syncTerminatingPod. */
  lemma LifecycleHolds(tr: seq<System>, events: seq<Event>, i: nat, u: UID)
    requires IsRun(tr, events) && i < |tr| && u in tr[i].sh.statuses
    ensures LifecycleOrdered(tr[i].sh.statuses[u])
  {
    RunInv(tr, events, i);
    assert PodFits(u, ViewOf(tr[i], u));
  }

  /** The worker's terminating sync function returned without error. */
  predicate TerminatesSuccessfully(s: System, e: Event, w: nat) {
    && e == Complete(w) && w in s.workers && s.workers[w].phase.Returned?
    && s.workers[w].phase.outcome.Done? && s.workers[w].phase.work.workType.TerminatingPodWork?
  }

  /** The pod of a live worker is known to have terminated. */
  predicate TerminatedWorker(s: System, w: nat) {
    && Live(s, w) && s.workers[w].uid in s.sh.statuses && s.sh.statuses[s.workers[w].uid].terminatedAt
  }

  lemma BecomesTerminated(s: System, e: Event, s': System, w: nat)
    requires Inv(s) && Next(s, e, s') && Inv(s') && TerminatedWorker(s', w)
    ensures TerminatesSuccessfully(s, e, w) || TerminatedWorker(s, w)
  {
    hide UpdatePod, SyncKnownPods, ApplyComplete, ApplyTryStart, ApplyTakeContext, ApplyReceive,
         CompleteWorkQueueNext, CompleteUnstartedTerminated, AcknowledgeTerminating;
    LiveIsKnown(s', w);
    var u := s'.workers[w].uid;
    if e.Update? {
      NewIsNotTerminated(s, e.options, e.cacheTerminal, w);
    } else if e.SyncKnown? {
      SyncKnownEffect(s.sh, e.order, e.desired, u);
    } else {
      WorkerTouches(s, e);
      if WorkerOf(e) == w { OwnStepTerminates(s, e, w); }
    }
  }

  lemma OwnStepTerminates(s: System, e: Event, w: nat)
    requires Inv(s) && Enabled(s, e) && IsWorkerEvent(e) && WorkerOf(e) == w && Live(Apply(s, e), w)
    requires s.workers[w].uid in Apply(s, e).sh.statuses
    requires Apply(s, e).sh.statuses[s.workers[w].uid].terminatedAt
    ensures TerminatesSuccessfully(s, e, w) || TerminatedWorker(s, w)
  {
    LiveWorker(s, w);
    if e.TryStart? {
      AllowPodStartFrame(s.sh, s.workers[w].phase.work.pod);
    } else if e.TakeContext? {
      ContextFrame(s.sh, s.workers[w].uid);
    }
    hide Inv, PhaseFits, NumbersFit, TokenFits, AllowPodStart, ContextForWorker;
    if e.Complete? { hide CompleteSync, CompleteTerminating; OwnCompletion(s, w); }
  }

  lemma OwnCompletion(s: System, w: nat)
    requires Inv(s) && Enabled(s, Complete(w)) && Live(Apply(s, Complete(w)), w)
    requires s.workers[w].uid in Apply(s, Complete(w)).sh.statuses
    requires Apply(s, Complete(w)).sh.statuses[s.workers[w].uid].terminatedAt
    ensures TerminatesSuccessfully(s, Complete(w), w) || TerminatedWorker(s, w)
  {
    LiveWorker(s, w);
    hide Inv, PhaseFits, NumbersFit, TokenFits;
  }

  lemma NewIsNotTerminated(s: System, o: UpdatePodOptions, cacheTerminal: bool, w: nat)
    requires Inv(s) && o.WellFormed() && Inv(ApplyUpdate(s, o, cacheTerminal))
    requires TerminatedWorker(ApplyUpdate(s, o, cacheTerminal), w)
    ensures TerminatedWorker(s, w)
  {
    hide UpdatePod, Inv;
    var s' := ApplyUpdate(s, o, cacheTerminal);
    var u := s'.workers[w].uid;
    LiveIsKnown(s', w);
    UpdateTouches(s.sh, o, cacheTerminal);
    if u == o.Target().uid {
      UpdateTerminates(s.sh, o, cacheTerminal);
      TerminatedKeepsChannel(s, u);
    }
  }

  lemma TerminatedKeepsChannel(s: System, u: UID)
    requires Inv(s) && u in s.sh.statuses && !s.sh.statuses[u].finished
    ensures u in s.sh.podUpdates && Live(s, s.sh.podUpdates[u]) && s.workers[s.sh.podUpdates[u]].uid == u
  {
    assert PodFits(u, ViewOf(s, u));
  }

  /** UpdatePod never sets terminatedAt on a pod it does not finish at once. */
  lemma UpdateTerminates(s: Shared, o: UpdatePodOptions, cacheTerminal: bool)
    requires o.WellFormed()
    requires var s', u := UpdatePod(s, o, cacheTerminal), o.Target().uid;
             u in s'.statuses && s'.statuses[u].terminatedAt && !s'.statuses[u].finished
    ensures var u := o.Target().uid; u in s.statuses && s.statuses[u].terminatedAt && !s.statuses[u].finished
  {
    hide Admit;
    if !(o.IsRuntime() && !o.updateType.SyncPodKill?) {
      var pod := o.Target();
      AdmitRegistered(s, pod, o.IsRuntime(), o.updateType, o.kill, cacheTerminal);
      AdmitKeepsTerminated(Register(s, pod, o.IsRuntime(), cacheTerminal), pod, o.IsRuntime(), o.updateType, o.kill);
    }
  }

  lemma AdmitKeepsTerminated(s: Shared, pod: Pod, runtime: bool, ut: SyncPodType, kill: Option<KillPodOptions>)
    requires pod.uid in s.statuses
    ensures pod.uid in Admit(s, pod, runtime, ut, kill, false).statuses
    ensures var st, st' := s.statuses[pod.uid], Admit(s, pod, runtime, ut, kill, false).statuses[pod.uid];
            st'.terminatedAt == st.terminatedAt && st'.finished == st.finished
  {
    hide Decide, Dispatch, EnsureWorker, CloseCompletion;
    var st := s.statuses[pod.uid];
    var v := Decide(st, pod, runtime, ut, kill);
    DecideKeepsTerminated(st, pod, runtime, ut, kill);
    DispatchEffect(EnsureWorker(CloseCompletion(SetStatus(s, pod.uid, v.status), v.close), pod, st.fullname), pod.uid, v);
  }

  lemma DecideKeepsTerminated(st: PodSyncStatus, pod: Pod, runtime: bool, ut: SyncPodType, kill: Option<KillPodOptions>)
    ensures var st' := Decide(st, pod, runtime, ut, kill).status;
            st'.terminatedAt == st.terminatedAt && st'.finished == st.finished
  {
    RequestShape(st, pod, runtime, ut, kill);
    hide RequestTermination, GracePeriod.Effective, GracePeriod.Shortened, Appended;
  }

  /** A live worker's pod is known to have terminated only after the worker's syncTerminatingPod
      returned without error, at step i. */
  lemma {:induction false} TerminatedAfterTerminating(tr: seq<System>, events: seq<Event>, j: nat, w: nat) returns (i: nat)
    requires IsRun(tr, events) && j < |tr| && TerminatedWorker(tr[j], w)
    ensures i < j && TerminatesSuccessfully(tr[i], events[i], w)
  {
    hide Next, Inv, IsRun;
    RunStarts(tr, events);
    if j == 0 {
      assert false;
    } else {
      hide TerminatedWorker, TerminatesSuccessfully;
      RunStep(tr, events, j - 1);
      BecomesTerminated(tr[j - 1], events[j - 1], tr[j], w);
      i := j - 1;
      if !TerminatesSuccessfully(tr[j - 1], events[j - 1], w) {
        i := TerminatedAfterTerminating(tr, events, j - 1, w);
      }
    }
  }

  /** syncTerminatedPod runs only after a successful syncTerminatingPod of the same worker. */
  lemma CleanupAfterTeardown(tr: seq<System>, events: seq<Event>, j: nat, w: nat)
    requires IsRun(tr, events) && j < |tr| && Processes(tr[j], w, TerminatedPodWork)
    ensures exists i :: 0 <= i < j && TerminatesSuccessfully(tr[i], events[i], w)
  {
    hide Inv;
    RunInv(tr, events, j);
    ProcessedFits(tr[j], w, TerminatedPodWork);
    var i := TerminatedAfterTerminating(tr, events, j, w);
  }
}
