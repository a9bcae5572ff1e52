/** Runs that show where an expectation about the pod workers fails, and so why the theorems
    carry the conditions they carry. */
module Surprises {
  import opened PodTypes
  import opened WorkerState
  import opened WorkerSystem
  import opened WorkerInvariant
  import opened WorkerSafety
  import opened StaticAdmission

  /** Reached by a run in which callers keep the kinds of pods that wait to be let in. */
  ghost predicate Reachable(s: System) {
    exists tr, events :: StableRun(tr, events) && tr[|tr| - 1] == s
  }

  /** Reached by some run. */
  ghost predicate PossiblyReachable(s: System) {
    exists tr, events :: IsRun(tr, events) && tr[|tr| - 1] == s
  }

  lemma ReachStart()
    ensures Reachable(START)
  {
    assert StableRun([START], []);
  }

  lemma ExtendRun(tr: seq<System>, events: seq<Event>, e: Event)
    requires IsRun(tr, events) && Enabled(tr[|tr| - 1], e)
    ensures IsRun(tr + [Apply(tr[|tr| - 1], e)], events + [e])
    ensures StableRun(tr, events) && SameKind(tr[|tr| - 1], e) ==> StableRun(tr + [Apply(tr[|tr| - 1], e)], events + [e])
  {
    hide Enabled, Apply, SameKind;
    var s := tr[|tr| - 1];
    var tr', events' := tr + [Apply(s, e)], events + [e];
    assert Next(s, e, Apply(s, e));
    forall i {:trigger events'[i]} | 0 <= i < |events'| ensures Next(tr'[i], events'[i], tr'[i + 1]) {
      if i < |events| { assert Next(tr[i], events[i], tr[i + 1]); }
    }
    if StableRun(tr, events) && SameKind(s, e) {
      forall i {:trigger events'[i]} | 0 <= i < |events'| ensures SameKind(tr'[i], events'[i]) {
        if i < |events| { assert SameKind(tr[i], events[i]); }
      }
    }
  }

  lemma ReachNext(s: System, e: Event)
    requires Reachable(s) && Enabled(s, e) && SameKind(s, e)
    ensures Reachable(Apply(s, e))
  {
    hide Enabled, Apply, SameKind, Next;
    var tr, events :| StableRun(tr, events) && tr[|tr| - 1] == s;
    ExtendRun(tr, events, e);
    hide IsRun;
    assert (tr + [Apply(s, e)])[|tr|] == Apply(s, e);
  }

  lemma MayReachNext(s: System, e: Event)
    requires PossiblyReachable(s) && Enabled(s, e)
    ensures PossiblyReachable(Apply(s, e))
  {
    hide Enabled, Apply, SameKind, Next;
    var tr, events :| IsRun(tr, events) && tr[|tr| - 1] == s;
    ExtendRun(tr, events, e);
    hide IsRun;
    assert (tr + [Apply(s, e)])[|tr|] == Apply(s, e);
  }

  /** Some run goes through s and ends in s'. */
  ghost predicate LeadsTo(s: System, s': System) {
    exists tr, events, i: nat :: IsRun(tr, events) && i < |tr| && tr[i] == s && tr[|tr| - 1] == s'
  }

  lemma LeadsToItself(s: System)
    requires PossiblyReachable(s)
    ensures LeadsTo(s, s)
  {
    hide Next;
    var tr, events :| IsRun(tr, events) && tr[|tr| - 1] == s;
    assert tr[|tr| - 1] == s;
  }

  lemma LeadsNext(s: System, s': System, e: Event)
    requires LeadsTo(s, s') && Enabled(s', e)
    ensures LeadsTo(s, Apply(s', e))
  {
    hide Enabled, Apply, SameKind, Next;
    var tr, events, i: nat :| IsRun(tr, events) && i < |tr| && tr[i] == s && tr[|tr| - 1] == s';
    ExtendRun(tr, events, e);
    hide IsRun;
    var tr' := tr + [Apply(s', e)];
    assert tr'[i] == s && tr'[|tr'| - 1] == Apply(s', e);
  }

  lemma ReachIsPossible(s: System)
    requires Reachable(s)
    ensures PossiblyReachable(s)
  {
    hide Next;
    var tr, events :| StableRun(tr, events) && tr[|tr| - 1] == s;
    assert IsRun(tr, events);
  }

  /** The shared state with no context made, no faults and the completions closed so far. */
  function Scene(podUpdates: map<UID, nat>, undelivered: map<UID, PodWork>, statuses: map<UID, PodSyncStatus>,
                 started: map<FullName, UID>, waiting: map<FullName, seq<UID>>,
                 channels: map<nat, Channel>, workers: map<nat, Worker>): System
  {
    System(Shared(false, podUpdates, undelivered, statuses, started, waiting, channels, |channels|, 0, multiset{}, {}),
           workers)
  }

  function PodOf(u: UID, f: FullName, isStatic: bool): Pod {
    Pod(u, f, isStatic, false, PodPending, None, None)
  }

  function SyncItem(pod: Pod, n: nat): PodWork {
    PodWork(SyncPodWork, SyncPodUpdate, pod, false, None, n)
  }

  /** The item of a kill request without override for a pod that names no period. */
  function KillItem(pod: Pod, runtime: bool, ch: Option<CompletedCh>, n: nat): PodWork {
    PodWork(TerminatingPodWork, SyncPodKill, pod, runtime, Some(KillPodOptions(ch, false, None, Some(1))), n)
  }

  function Sync(pod: Pod): Event {
    Update(UpdatePodOptions(SyncPodUpdate, Some(pod), None, None), false)
  }

  function Kill(pod: Pod, ch: Option<CompletedCh>): Event {
    Update(UpdatePodOptions(SyncPodKill, Some(pod), None, Some(KillPodOptions(ch, false, None, None))), false)
  }

  // ---------------------------------------------------------------- what the requests used below do

  /** A pod that runs and is wanted. */
  predicate Wanted(pod: Pod) {
    !pod.deleting && !TerminalPhase(pod.phase)
  }

  /** A status on which nothing was asked but syncs. */
  predicate Active(st: PodSyncStatus, pod: Pod) {
    && st.fullname == pod.fullname && !st.terminatingAt && !st.startedTerminating
    && !st.terminatedAt && !st.finished
  }

  lemma SyncDecides(st: PodSyncStatus, pod: Pod)
    requires Wanted(pod) && !st.terminatingAt && !st.terminatedAt
    ensures Decide(st, pod, false, SyncPodUpdate, None)
         == Verdict(st, PodWork(SyncPodWork, SyncPodUpdate, pod, false, None, 0), None, false)
  {
  }

  lemma FirstSync(s: Shared, pod: Pod)
    requires Wanted(pod) && pod.uid !in s.statuses && pod.uid !in s.podUpdates && pod.uid !in s.lastUndelivered
    requires s.nextChannel !in s.channels
    ensures UpdatePod(s, Sync(pod).options, false)
         == s.(podUpdates := s.podUpdates[pod.uid := s.nextChannel],
               nextChannel := s.nextChannel + 1,
               channels := s.channels[s.nextChannel := Channel([SyncItem(pod, 1)], false, 1)],
               statuses := s.statuses[pod.uid := NewStatus(pod.fullname).(working := true)],
               waitingStatic := if pod.isStatic
                                then s.waitingStatic[pod.fullname := Waiting(s, pod.fullname) + [pod.uid]]
                                else s.waitingStatic)
  {
    hide Dispatch, Prepared;
    SyncDecides(NewStatus(pod.fullname), pod);
    AdmitNew(s, Sync(pod).options, false);
    hide UpdatePod;
    FirstItemShape(s, pod, Decide(NewStatus(pod.fullname), pod, false, SyncPodUpdate, None));
    hide Decide;
  }

  lemma LaterSync(s: Shared, pod: Pod)
    requires Wanted(pod) && pod.uid in s.statuses && pod.uid in s.podUpdates && s.podUpdates[pod.uid] in s.channels
    requires Active(s.statuses[pod.uid], pod)
    requires !s.statuses[pod.uid].working ==> CanSend(s, pod.uid)
    ensures var u, c := pod.uid, s.podUpdates[pod.uid]; var n := s.channels[c].issued + 1;
            UpdatePod(s, Sync(pod).options, false)
            == if s.statuses[u].working
               then s.(lastUndelivered := s.lastUndelivered[u := SyncItem(pod, n)],
                       channels := s.channels[c := s.channels[c].(issued := n)])
               else s.(statuses := s.statuses[u := s.statuses[u].(working := true)],
                       channels := s.channels[c := Channel([SyncItem(pod, n)], false, n,
                                                           PassedAfter(s.channels[c], Undelivered(s, u)))])
  {
    hide Dispatch, PassedAfter;
    var u, st := pod.uid, s.statuses[pod.uid];
    SyncDecides(st, pod);
    AdmitActive(s, Sync(pod).options, false);
    hide UpdatePod;
    var v := Decide(st, pod, false, SyncPodUpdate, None);
    assert s.statuses[u := st] == s.statuses;
    var s2 := CloseCompletion(SetStatus(s, u, v.status), v.close);
    if st.working { BusyDispatch(s, s2, u, v); } else { IdleDispatch(s, s2, u, v); }
    hide Decide;
  }

  lemma FirstKill(s: Shared, pod: Pod, ch: Option<CompletedCh>)
    requires Wanted(pod) && pod.deletionGrace.None? && pod.specGrace.None?
    requires pod.uid in s.statuses && pod.uid in s.podUpdates && s.podUpdates[pod.uid] in s.channels
    requires Active(s.statuses[pod.uid], pod) && s.statuses[pod.uid].working && s.statuses[pod.uid].gracePeriod == 0
    ensures var u, c, st := pod.uid, s.podUpdates[pod.uid], s.statuses[pod.uid]; var n := s.channels[c].issued + 1;
            UpdatePod(s, Kill(pod, ch).options, false)
            == s.(lastUndelivered := s.lastUndelivered[u := KillItem(pod, false, ch, n)],
                  channels := s.channels[c := s.channels[c].(issued := n)],
                  statuses := s.statuses[u := Cancelled(st).(terminatingAt := true, gracePeriod := 1,
                                                             notifyPostTerminating := Appended(st.notifyPostTerminating, ch))])
  {
    hide Dispatch, Appended;
    var u, st := pod.uid, s.statuses[pod.uid];
    AdmitActive(s, Kill(pod, ch).options, false);
    hide UpdatePod;
    KillDecides(st, pod, ch);
    var v := Decide(st, pod, false, SyncPodKill, Kill(pod, ch).options.kill);
    BusyDispatch(s, CloseCompletion(SetStatus(s, u, v.status), v.close), u, v);
    hide Decide;
  }

  lemma KillDecides(st: PodSyncStatus, pod: Pod, ch: Option<CompletedCh>)
    requires Wanted(pod) && pod.deletionGrace.None? && pod.specGrace.None?
    requires !st.terminatingAt && !st.terminatedAt && st.gracePeriod == 0
    ensures Decide(st, pod, false, SyncPodKill, Kill(pod, ch).options.kill)
         == Verdict(st.(terminatingAt := true, gracePeriod := 1,
                        notifyPostTerminating := Appended(st.notifyPostTerminating, ch)),
                    KillItem(pod, false, ch, 0), None, true)
  {
    assert Appended(st.statusPostTerminating, None) == st.statusPostTerminating;
    hide Appended;
  }

  const WORKING := NewStatus(0).(working := true)
  const A := PodOf(1, 0, true)      // two static pods of one name ...
  const B := PodOf(2, 0, true)
  const C := PodOf(1, 9, true)      // ... the first again, under another name ...
  const D := PodOf(1, 0, false)     // ... and a pod of another kind

  // ---------------------------------------------------------------- a static pod that was told to wait

  const FIRST :=
    Scene(map[1 := 0], map[],
          map[1 := WORKING], map[], map[0 := [1]],
          map[0 := Channel([SyncItem(A, 1)], false, 1)],
          map[0 := Worker(1, true, false, 0, Idle)])

  lemma ReachFirst()
    ensures Reachable(FIRST)
  {
    ReachStart();
    FirstSync(START.sh, A);
    hide Reachable, UpdatePod, PassedAfter;
    var s := Apply(START, Sync(A));
    assert s.sh.waitingStatic[0] == [1];
    assert s == FIRST;
    ReachNext(START, Sync(A));
  }

  const SECOND :=
    Scene(map[1 := 0, 2 := 1], map[],
          map[1 := WORKING, 2 := WORKING], map[], map[0 := [1, 2]],
          map[0 := Channel([SyncItem(A, 1)], false, 1), 1 := Channel([SyncItem(B, 1)], false, 1)],
          map[0 := Worker(1, true, false, 0, Idle), 1 := Worker(2, true, false, 0, Idle)])

  lemma ReachSecond()
    ensures Reachable(SECOND)
  {
    ReachFirst();
    FirstSync(FIRST.sh, B);
    hide Reachable, UpdatePod, PassedAfter;
    var s := Apply(FIRST, Sync(B));
    assert s.sh.waitingStatic[0] == [1, 2];
    assert s == SECOND;
    ReachNext(FIRST, Sync(B));
  }

  const BOTH :=
    Scene(map[1 := 0, 2 := 1], map[],
          map[1 := WORKING, 2 := WORKING], map[], map[0 := [1, 2]],
          map[0 := Channel([SyncItem(A, 1)], false, 1), 1 := Channel([], false, 1)],
          map[0 := Worker(1, true, false, 0, Idle), 1 := Worker(2, true, false, 1, Received(SyncItem(B, 1)))])

  lemma ReachBoth()
    ensures Reachable(BOTH)
  {
    ReachSecond();
    var s := Apply(SECOND, Receive(1));
    assert s.sh.channels[1].buffer == [];
    assert s == BOTH;
    ReachNext(SECOND, Receive(1));
  }

  const PARKING :=
    Scene(map[1 := 0, 2 := 1], map[2 := SyncItem(B, 2)],
          map[1 := WORKING, 2 := WORKING], map[], map[0 := [1, 2]],
          map[0 := Channel([SyncItem(A, 1)], false, 1), 1 := Channel([], false, 2)],
          map[0 := Worker(1, true, false, 0, Idle), 1 := Worker(2, true, false, 1, Received(SyncItem(B, 1)))])

  lemma ReachParking()
    ensures Reachable(PARKING)
  {
    ReachBoth();
    LaterSync(BOTH.sh, B);
    hide Reachable, UpdatePod, PassedAfter;
    var s := Apply(BOTH, Sync(B));
    assert s == PARKING;
    ReachNext(BOTH, Sync(B));
  }

  /** The second pod must wait for the first; its later item stays in the undelivered slot. */
  const PARKED :=
    Scene(map[1 := 0, 2 := 1], map[2 := SyncItem(B, 2)],
          map[1 := WORKING, 2 := NewStatus(0)], map[], map[0 := [1, 2]],
          map[0 := Channel([SyncItem(A, 1)], false, 1), 1 := Channel([], false, 2)],
          map[0 := Worker(1, true, false, 0, Idle), 1 := Worker(2, true, false, 1, Idle)])

  lemma ReachParked()
    ensures Reachable(PARKED)
  {
    ReachParking();
    var s := Apply(PARKING, TryStart(1));
    assert FirstEligible(PARKING.sh, [1, 2]) == 0;
    assert s == PARKED;
    ReachNext(PARKING, TryStart(1));
  }

  // ---------------------------------------------------------------- static pods are not served in order

  const FIRST_KILLED :=
    Scene(map[1 := 0, 2 := 1], map[1 := KillItem(A, false, None, 2), 2 := SyncItem(B, 2)],
          map[1 := WORKING.(terminatingAt := true, gracePeriod := 1), 2 := NewStatus(0)], map[], map[0 := [1, 2]],
          map[0 := Channel([SyncItem(A, 1)], false, 2), 1 := Channel([], false, 2)],
          map[0 := Worker(1, true, false, 0, Idle), 1 := Worker(2, true, false, 1, Idle)])

  lemma ReachFirstKilled()
    ensures Reachable(FIRST_KILLED)
  {
    ReachParked();
    FirstKill(PARKED.sh, A, None);
    hide Reachable, UpdatePod, PassedAfter;
    var s := Apply(PARKED, Kill(A, None));
    assert s == FIRST_KILLED;
    ReachNext(PARKED, Kill(A, None));
  }

  /** The item sent directly is sent past the undelivered one. */
  const RETRIED :=
    FIRST_KILLED.(sh := FIRST_KILLED.sh.(
      statuses := FIRST_KILLED.sh.statuses[2 := WORKING],
      channels := FIRST_KILLED.sh.channels[1 := Channel([SyncItem(B, 3)], false, 3, {2})]))

  lemma ToRetried()
    ensures Enabled(FIRST_KILLED, Sync(B)) && SameKind(FIRST_KILLED, Sync(B)) && Apply(FIRST_KILLED, Sync(B)) == RETRIED
  {
    LaterSync(FIRST_KILLED.sh, B);
    hide UpdatePod;
  }

  lemma ReachRetried()
    ensures Reachable(RETRIED)
  {
    hide *;
    ReachFirstKilled();
    ToRetried();
    ReachNext(FIRST_KILLED, Sync(B));
  }

  const NEWER_RECEIVED :=
    Scene(map[1 := 0, 2 := 1], map[1 := KillItem(A, false, None, 2), 2 := SyncItem(B, 2)],
          map[1 := WORKING.(terminatingAt := true, gracePeriod := 1), 2 := WORKING], map[], map[0 := [1, 2]],
          map[0 := Channel([SyncItem(A, 1)], false, 2), 1 := Channel([], false, 3, {2})],
          map[0 := Worker(1, true, false, 0, Idle), 1 := Worker(2, true, false, 3, Received(SyncItem(B, 3)))])

  lemma ReachNewerReceived()
    ensures Reachable(NEWER_RECEIVED)
  {
    ReachRetried();
    var s := Apply(RETRIED, Receive(1));
    assert s.sh.channels[1].buffer == [];
    assert s == NEWER_RECEIVED;
    ReachNext(RETRIED, Receive(1));
  }

  const OVERTAKEN :=
    Scene(map[1 := 0, 2 := 1], map[1 := KillItem(A, false, None, 2), 2 := SyncItem(B, 2)],
          map[1 := WORKING.(terminatingAt := true, gracePeriod := 1), 2 := WORKING], map[0 := 2], map[],
          map[0 := Channel([SyncItem(A, 1)], false, 2), 1 := Channel([], false, 3, {2})],
          map[0 := Worker(1, true, false, 0, Idle), 1 := Worker(2, true, true, 3, Ready(SyncItem(B, 3)))])

  lemma ReachOvertaken()
    ensures Reachable(OVERTAKEN)
  {
    ReachNewerReceived();
    var s := Apply(NEWER_RECEIVED, TryStart(1));
    assert FirstEligible(NEWER_RECEIVED.sh, [1, 2][1..]) == 0;
    assert FirstEligible(NEWER_RECEIVED.sh, [1, 2]) == 1;
    assert s == OVERTAKEN;
    ReachNext(NEWER_RECEIVED, TryStart(1));
  }

  /** A started static pod can have received item 3 with item 2 still to come: for static pods
      delivery is neither in order nor of the newest item only. */
  lemma StaticPodsServedOutOfOrder()
    ensures Reachable(OVERTAKEN)
    ensures var w := OVERTAKEN.workers[1];
            && Live(OVERTAKEN, 1) && w.isStatic && w.started && w.uid in OVERTAKEN.sh.lastUndelivered
            && w.received > OVERTAKEN.sh.lastUndelivered[w.uid].number
  {
    ReachOvertaken();
  }

  // ---------------------------------------------------------------- a runtime kill of a waiting static pod

  function RuntimeKill(u: UID): Event {
    Update(UpdatePodOptions(SyncPodKill, None, Some(RunningPod(u, 0)), None), false)
  }

  const ORPHAN_KILL := KillItem(ToAPIPod(RunningPod(2, 0)), true, None, 3)
  const ORPHANED := WORKING.(terminatingAt := true, deleted := true, gracePeriod := 1)

  const RUNTIME_KILLED :=
    PARKED.(sh := PARKED.sh.(
      statuses := PARKED.sh.statuses[2 := ORPHANED],
      channels := PARKED.sh.channels[1 := Channel([ORPHAN_KILL], false, 3, {2})]))

  lemma OrphanKillDecides(u: UID)
    ensures Decide(NewStatus(0), ToAPIPod(RunningPod(u, 0)), true, SyncPodKill, None)
         == Verdict(NewStatus(0).(terminatingAt := true, deleted := true, gracePeriod := 1),
                    KillItem(ToAPIPod(RunningPod(u, 0)), true, None, 0), None, true)
  {
  }

  lemma ToRuntimeKilled()
    ensures Enabled(PARKED, RuntimeKill(2)) && Apply(PARKED, RuntimeKill(2)) == RUNTIME_KILLED
  {
    hide Dispatch;
    AdmitActive(PARKED.sh, RuntimeKill(2).options, false);
    OrphanKillDecides(2);
    var v := Decide(NewStatus(0), ToAPIPod(RunningPod(2, 0)), true, SyncPodKill, None);
    IdleDispatch(PARKED.sh, CloseCompletion(SetStatus(PARKED.sh, 2, v.status), v.close), 2, v);
    hide UpdatePod, Decide;
  }

  lemma ReachRuntimeKilled()
    ensures PossiblyReachable(RUNTIME_KILLED)
  {
    hide *;
    ReachParked();
    ReachIsPossible(PARKED);
    ToRuntimeKilled();
    MayReachNext(PARKED, RuntimeKill(2));
  }

  const KILL_RECEIVED :=
    Scene(map[1 := 0, 2 := 1], map[2 := SyncItem(B, 2)],
          map[1 := WORKING, 2 := ORPHANED], map[], map[0 := [1, 2]],
          map[0 := Channel([SyncItem(A, 1)], false, 1), 1 := Channel([], false, 3, {2})],
          map[0 := Worker(1, true, false, 0, Idle), 1 := Worker(2, true, false, 3, Received(ORPHAN_KILL))])

  lemma ReachKillReceived()
    ensures PossiblyReachable(KILL_RECEIVED)
  {
    ReachRuntimeKilled();
    var s := Apply(RUNTIME_KILLED, Receive(1));
    assert s.sh.channels[1].buffer == [];
    assert s == KILL_RECEIVED;
    MayReachNext(RUNTIME_KILLED, Receive(1));
  }

  const KILL_STARTED :=
    Scene(map[1 := 0, 2 := 1], map[2 := SyncItem(B, 2)],
          map[1 := WORKING, 2 := ORPHANED], map[], map[0 := [1, 2]],
          map[0 := Channel([SyncItem(A, 1)], false, 1), 1 := Channel([], false, 3, {2})],
          map[0 := Worker(1, true, false, 0, Idle), 1 := Worker(2, true, true, 3, Ready(ORPHAN_KILL), Some(SyncItem(B, 2)), true)])

  lemma ReachKillStarted()
    ensures PossiblyReachable(KILL_STARTED)
  {
    ReachKillReceived();
    var s := Apply(KILL_RECEIVED, TryStart(1));
    assert s == KILL_STARTED;
    MayReachNext(KILL_RECEIVED, TryStart(1));
  }

  const KILL_CONTEXT :=
    KILL_STARTED.(
      sh := KILL_STARTED.sh.(nextContext := 1,
                             statuses := map[1 := WORKING, 2 := ORPHANED.(ctx := Some(Context(0, false)))]),
      workers := map[0 := Worker(1, true, false, 0, Idle),
                     1 := Worker(2, true, true, 3, Acknowledging(ORPHAN_KILL, Some(0)), Some(SyncItem(B, 2)), true)])

  lemma ReachKillContext()
    ensures PossiblyReachable(KILL_CONTEXT)
  {
    ReachKillStarted();
    var s := Apply(KILL_STARTED, TakeContext(1));
    assert s == KILL_CONTEXT;
    MayReachNext(KILL_STARTED, TakeContext(1));
  }

  const KILL_ACKNOWLEDGED :=
    KILL_STARTED.(
      sh := KILL_STARTED.sh.(nextContext := 1,
                             statuses := map[1 := WORKING, 2 := ORPHANED.(ctx := Some(Context(0, false)), startedTerminating := true)]),
      workers := map[0 := Worker(1, true, false, 0, Idle), 1 := Worker(2, true, true, 3, Running(ORPHAN_KILL, Some(0)), Some(SyncItem(B, 2)), true)])

  lemma ReachKillAcknowledged()
    ensures PossiblyReachable(KILL_ACKNOWLEDGED)
  {
    ReachKillContext();
    var s := Apply(KILL_CONTEXT, Acknowledge(1));
    assert s == KILL_ACKNOWLEDGED;
    MayReachNext(KILL_CONTEXT, Acknowledge(1));
  }

  /** If a UID may change its kind, a pod that has started terminating can still have a sync
      item queued, having been let in past it. */
  lemma SyncPendingAfterRuntimeKill()
    ensures PossiblyReachable(KILL_ACKNOWLEDGED) && !SameKind(PARKED, RuntimeKill(2))
    ensures KILL_ACKNOWLEDGED.sh.statuses[2].startedTerminating
    ensures KILL_ACKNOWLEDGED.sh.lastUndelivered[2].workType.SyncPodWork?
    ensures !NoSyncLeft(KILL_ACKNOWLEDGED, 2)
    ensures LetInPastSync(KILL_RECEIVED, TryStart(1), 1, KILL_ACKNOWLEDGED.sh.lastUndelivered[2])
  {
    ReachKillAcknowledged();
  }

  /** The attempt fails, and its worker is handed the sync item next. */
  const KILL_FAILED :=
    KILL_ACKNOWLEDGED.(
      workers := map[0 := Worker(1, true, false, 0, Idle),
                     1 := Worker(2, true, true, 3, Returned(ORPHAN_KILL, Some(0), OtherError), Some(SyncItem(B, 2)), true)])

  lemma ReachKillFailed()
    ensures LeadsTo(KILL_ACKNOWLEDGED, KILL_FAILED)
  {
    ReachKillAcknowledged();
    LeadsToItself(KILL_ACKNOWLEDGED);
    var s := Apply(KILL_ACKNOWLEDGED, Return(1, OtherError));
    assert s == KILL_FAILED;
    LeadsNext(KILL_ACKNOWLEDGED, KILL_ACKNOWLEDGED, Return(1, OtherError));
  }

  const KILL_REQUEUING :=
    KILL_ACKNOWLEDGED.(
      workers := map[0 := Worker(1, true, false, 0, Idle),
                     1 := Worker(2, true, true, 3, Requeuing(ORPHAN_KILL.pod, Some(0)), Some(SyncItem(B, 2)), true)])

  lemma ReachKillRequeuing()
    ensures LeadsTo(KILL_ACKNOWLEDGED, KILL_REQUEUING)
  {
    ReachKillFailed();
    var s := Apply(KILL_FAILED, Complete(1));
    assert s == KILL_REQUEUING;
    LeadsNext(KILL_ACKNOWLEDGED, KILL_FAILED, Complete(1));
  }

  const SYNC_SENT :=
    System(KILL_ACKNOWLEDGED.sh.(
             lastUndelivered := map[],
             channels := map[0 := Channel([SyncItem(A, 1)], false, 1), 1 := Channel([SyncItem(B, 2)], false, 3, {2})]),
           map[0 := Worker(1, true, false, 0, Idle), 1 := Worker(2, true, true, 3, Idle, Some(SyncItem(B, 2)), true)])

  lemma ReachSyncSent()
    ensures LeadsTo(KILL_ACKNOWLEDGED, SYNC_SENT)
  {
    ReachKillRequeuing();
    var s := Apply(KILL_REQUEUING, Requeue(1));
    assert s.sh.lastUndelivered == map[];
    assert s.sh.channels[1] == SYNC_SENT.sh.channels[1];
    assert s == SYNC_SENT;
    LeadsNext(KILL_ACKNOWLEDGED, KILL_REQUEUING, Requeue(1));
  }

  const SYNC_READY :=
    System(SYNC_SENT.sh.(channels := map[0 := Channel([SyncItem(A, 1)], false, 1), 1 := Channel([], false, 3, {2})]),
           map[0 := Worker(1, true, false, 0, Idle),
               1 := Worker(2, true, true, 3, Ready(SyncItem(B, 2)), Some(SyncItem(B, 2)), true)])

  lemma ReachSyncReady()
    ensures LeadsTo(KILL_ACKNOWLEDGED, SYNC_READY)
  {
    ReachSyncSent();
    var s := Apply(SYNC_SENT, Receive(1));
    assert s.sh.channels[1].buffer == [];
    assert s == SYNC_READY;
    LeadsNext(KILL_ACKNOWLEDGED, SYNC_SENT, Receive(1));
  }

  const SYNC_RUNNING :=
    System(SYNC_READY.sh,
           map[0 := Worker(1, true, false, 0, Idle),
               1 := Worker(2, true, true, 3, Running(SyncItem(B, 2), Some(0)), Some(SyncItem(B, 2)), true)])

  lemma ReachSyncRunning()
    ensures LeadsTo(KILL_ACKNOWLEDGED, SYNC_RUNNING)
  {
    ReachSyncReady();
    var s := Apply(SYNC_READY, TakeContext(1));
    assert s == SYNC_RUNNING;
    LeadsNext(KILL_ACKNOWLEDGED, SYNC_READY, TakeContext(1));
  }

  /** And so syncPod can run, with a context nobody cancelled, after syncTerminatingPod of the
      same pod has begun and while the pod's containers should be terminating. */
  lemma SyncsAfterTerminating()
    ensures LeadsTo(KILL_ACKNOWLEDGED, SYNC_RUNNING)
    ensures Processes(KILL_ACKNOWLEDGED, 1, TerminatingPodWork) && Processes(SYNC_RUNNING, 1, SyncPodWork)
    ensures ShouldPodContainersBeTerminating(SYNC_RUNNING.sh, 2)
    ensures SYNC_RUNNING.sh.statuses[2].ctx == Some(Context(0, false))
  {
    ReachSyncRunning();
  }

  // ---------------------------------------------------------------- two static pods of one name

  const NAMESAKE_RECEIVED :=
    KILL_STARTED.(
      sh := KILL_STARTED.sh.(channels := map[0 := Channel([], false, 1), 1 := Channel([], false, 3, {2})]),
      workers := map[0 := Worker(1, true, false, 1, Received(SyncItem(A, 1))),
                     1 := Worker(2, true, true, 3, Ready(ORPHAN_KILL), Some(SyncItem(B, 2)), true)])

  lemma ReachNamesakeReceived()
    ensures PossiblyReachable(NAMESAKE_RECEIVED)
  {
    ReachKillStarted();
    var s := Apply(KILL_STARTED, Receive(0));
    assert s.sh.channels[0].buffer == [];
    assert s == NAMESAKE_RECEIVED;
    MayReachNext(KILL_STARTED, Receive(0));
  }

  const NAMESAKE_STARTED :=
    NAMESAKE_RECEIVED.(
      sh := NAMESAKE_RECEIVED.sh.(startedStatic := map[0 := 1], waitingStatic := map[0 := [2]]),
      workers := map[0 := Worker(1, true, true, 1, Ready(SyncItem(A, 1))),
                     1 := Worker(2, true, true, 3, Ready(ORPHAN_KILL), Some(SyncItem(B, 2)), true)])

  lemma ReachNamesakeStarted()
    ensures PossiblyReachable(NAMESAKE_STARTED)
  {
    ReachNamesakeReceived();
    var s := Apply(NAMESAKE_RECEIVED, TryStart(0));
    assert FirstEligible(NAMESAKE_RECEIVED.sh, [1, 2]) == 0;
    assert s == NAMESAKE_STARTED;
    MayReachNext(NAMESAKE_RECEIVED, TryStart(0));
  }

  /** If a UID may change its kind, two static pods of one name can both be let in and
      unfinished: the second was let in on a kill of its running pod, without the name. */
  lemma TwoInCharge()
    ensures PossiblyReachable(NAMESAKE_STARTED)
    ensures InCharge(NAMESAKE_STARTED, 1) && InCharge(NAMESAKE_STARTED, 2)
    ensures NAMESAKE_STARTED.sh.statuses[1].fullname == NAMESAKE_STARTED.sh.statuses[2].fullname
    ensures NAMESAKE_STARTED.sh.startedStatic[0] == 1
    ensures LetInUnnamed(KILL_RECEIVED, TryStart(1), 1)
  {
    ReachNamesakeStarted();
  }

  // ---------------------------------------------------------------- a static pod killed before it starts

  const AWAITED := WORKING.(terminatingAt := true, gracePeriod := 1, notifyPostTerminating := [7])

  const KILLED_EARLY :=
    Scene(map[1 := 0], map[1 := KillItem(A, false, Some(7), 2)],
          map[1 := AWAITED], map[], map[0 := [1]],
          map[0 := Channel([SyncItem(A, 1)], false, 2)],
          map[0 := Worker(1, true, false, 0, Idle)])

  lemma ReachKilledEarly()
    ensures Reachable(KILLED_EARLY)
  {
    ReachFirst();
    FirstKill(FIRST.sh, A, Some(7));
    hide Reachable, UpdatePod, PassedAfter;
    var s := Apply(FIRST, Kill(A, Some(7)));
    assert Appended<CompletedCh>([], Some(7)) == [7];
    assert s == KILLED_EARLY;
    ReachNext(FIRST, Kill(A, Some(7)));
  }

  const SEEN_EARLY :=
    Scene(map[1 := 0], map[1 := KillItem(A, false, Some(7), 2)],
          map[1 := AWAITED], map[], map[0 := [1]],
          map[0 := Channel([], false, 2)],
          map[0 := Worker(1, true, false, 1, Received(SyncItem(A, 1)))])

  lemma ReachSeenEarly()
    ensures Reachable(SEEN_EARLY)
  {
    ReachKilledEarly();
    var s := Apply(KILLED_EARLY, Receive(0));
    assert s.sh.channels[0].buffer == [];
    assert s == SEEN_EARLY;
    ReachNext(KILLED_EARLY, Receive(0));
  }

  const NEVER_STARTS :=
    Scene(map[1 := 0], map[1 := KillItem(A, false, Some(7), 2)],
          map[1 := AWAITED], map[], map[0 := [1]],
          map[0 := Channel([], false, 2)],
          map[0 := Worker(1, true, false, 1, Unstartable(SyncItem(A, 1)))])

  lemma ReachNeverStarts()
    ensures Reachable(NEVER_STARTS)
  {
    ReachSeenEarly();
    var s := Apply(SEEN_EARLY, TryStart(0));
    assert s == NEVER_STARTS;
    ReachNext(SEEN_EARLY, TryStart(0));
  }

  const UNSTARTED :=
    Scene(map[], map[],
          map[1 := NewStatus(0).(terminatingAt := true, gracePeriod := 1, notifyPostTerminating := [7],
                                     terminatedAt := true, finished := true)], map[], map[0 := [1]],
          map[0 := Channel([], true, 2)],
          map[0 := Worker(1, true, false, 1, Gone)])

  lemma ReachUnstarted()
    ensures Reachable(UNSTARTED)
  {
    ReachNeverStarts();
    var s := Apply(NEVER_STARTS, GiveUp(0));
    assert s == UNSTARTED;
    ReachNext(NEVER_STARTS, GiveUp(0));
  }

  /** The channel handed in with the kill stays open although the pod is known to have no
      running containers, contrary to the comment on CompletedCh. */
  lemma CompletionLeftOpen()
    ensures Reachable(UNSTARTED)
    ensures !CouldHaveRunningContainers(UNSTARTED.sh, 1)
    ensures UNSTARTED.sh.statuses[1].notifyPostTerminating == [7] && 7 !in UNSTARTED.sh.completions
  {
    ReachUnstarted();
  }

  /** A channel handed in for a pod that has finished is dropped, and left open as well. */
  lemma LateChannelDropped()
    ensures Reachable(UNSTARTED) && Enabled(UNSTARTED, Kill(A, Some(8))) && SameKind(UNSTARTED, Kill(A, Some(8)))
    ensures Apply(UNSTARTED, Kill(A, Some(8))) == UNSTARTED
    ensures !CouldHaveRunningContainers(UNSTARTED.sh, 1) && 8 !in UNSTARTED.sh.completions
  {
    ReachUnstarted();
    hide Reachable, Decide, Dispatch;
  }

  // ---------------------------------------------------------------- a UID that comes back under another name

  const FORGOTTEN :=
    Scene(map[], map[],
          map[], map[], map[0 := [1]],
          map[0 := Channel([], true, 2)],
          map[0 := Worker(1, true, false, 1, Gone)]).(
      sh := Shared(true, map[], map[], map[], map[], map[0 := [1]], map[0 := Channel([], true, 2)], 1, 0, multiset{}, {}))

  lemma ReachForgotten()
    ensures Reachable(FORGOTTEN)
  {
    ReachUnstarted();
    var s := Apply(UNSTARTED, SyncKnown([1], {}));
    assert [1][..0] == [];
    assert Sweep(UNSTARTED.sh.(podsSynced := true), [], {}) == UNSTARTED.sh.(podsSynced := true);
    assert s == FORGOTTEN;
    ReachNext(UNSTARTED, SyncKnown([1], {}));
  }

  const RENAMED :=
    System(Shared(true, map[1 := 1], map[], map[1 := NewStatus(9).(working := true)], map[], map[0 := [1], 9 := [1]],
                  map[0 := Channel([], true, 2), 1 := Channel([SyncItem(C, 1)], false, 1)], 2, 0, multiset{}, {}),
           map[0 := Worker(1, true, false, 1, Gone), 1 := Worker(1, true, false, 0, Idle)])

  lemma ReachRenamed()
    ensures Reachable(RENAMED)
  {
    ReachForgotten();
    FirstSync(FORGOTTEN.sh, C);
    hide Reachable, UpdatePod, PassedAfter;
    var s := Apply(FORGOTTEN, Sync(C));
    assert s.sh.waitingStatic[9] == [1];
    assert s == RENAMED;
    ReachNext(FORGOTTEN, Sync(C));
  }

  const JAMMED :=
    System(RENAMED.sh.(podUpdates := RENAMED.sh.podUpdates[2 := 2], nextChannel := 3,
                       statuses := RENAMED.sh.statuses[2 := WORKING],
                       waitingStatic := RENAMED.sh.waitingStatic[0 := [1, 2]],
                       channels := RENAMED.sh.channels[2 := Channel([SyncItem(B, 1)], false, 1)]),
           RENAMED.workers[2 := Worker(2, true, false, 0, Idle)])

  lemma ToJammed()
    ensures Enabled(RENAMED, Sync(B)) && SameKind(RENAMED, Sync(B)) && Apply(RENAMED, Sync(B)) == JAMMED
  {
    hide UpdatePod;
    ToJammedShared();
  }

  lemma ToJammedShared()
    ensures UpdatePod(RENAMED.sh, Sync(B).options, false) == JAMMED.sh
  {
    hide UpdatePod;
    assert Waiting(RENAMED.sh, 0) + [2] == [1, 2];
    FirstSync(RENAMED.sh, B);
  }

  lemma ReachJammed()
    ensures Reachable(JAMMED)
  {
    hide *;
    ReachRenamed();
    ToJammed();
    ReachNext(RENAMED, Sync(B));
  }

  /** The name is free and a pod is in line for it, yet nobody in line for it is let in: its
      queue starts with a UID that meanwhile lives under another name. */
  lemma QueueJams()
    ensures Reachable(JAMMED)
    ensures 0 !in JAMMED.sh.startedStatic && InLine(JAMMED, 2) && JAMMED.sh.statuses[2].fullname == 0
    ensures !Moves(JAMMED, 0)
  {
    ReachJammed();
    assert Waiting(JAMMED.sh, 0) == [1, 2] && Eligible(JAMMED.sh, 1);
    forall u | InLine(JAMMED, u) && JAMMED.sh.statuses[u].fullname == 0 ensures !MayStart(JAMMED.sh, 0, u) {
      assert u == 2 && [1, 2][0] == 1;
    }
  }

  // ---------------------------------------------------------------- completeSync meets a terminating pod

  const PLAIN :=
    System(Shared(false, map[1 := 0], map[], map[1 := WORKING], map[], map[],
                  map[0 := Channel([SyncItem(D, 1)], false, 1)], 1, 0, multiset{}, {}),
           map[0 := Worker(1, false, false, 0, Idle)])

  lemma ReachPlain()
    ensures Reachable(PLAIN)
  {
    ReachStart();
    FirstSync(START.sh, D);
    hide Reachable, UpdatePod, PassedAfter;
    var s := Apply(START, Sync(D));
    assert s == PLAIN;
    ReachNext(START, Sync(D));
  }

  const PLAIN_RECEIVED :=
    System(Shared(false, map[1 := 0], map[], map[1 := WORKING], map[], map[],
                  map[0 := Channel([], false, 1)], 1, 0, multiset{}, {}),
           map[0 := Worker(1, false, false, 1, Received(SyncItem(D, 1)))])

  lemma ReachPlainReceived()
    ensures Reachable(PLAIN_RECEIVED)
  {
    ReachPlain();
    var s := Apply(PLAIN, Receive(0));
    assert s.sh.channels[0].buffer == [];
    assert s == PLAIN_RECEIVED;
    ReachNext(PLAIN, Receive(0));
  }

  const PLAIN_READY :=
    System(Shared(false, map[1 := 0], map[], map[1 := WORKING], map[], map[],
                  map[0 := Channel([], false, 1)], 1, 0, multiset{}, {}),
           map[0 := Worker(1, false, true, 1, Ready(SyncItem(D, 1)), None, true)])

  lemma ReachPlainReady()
    ensures Reachable(PLAIN_READY)
  {
    ReachPlainReceived();
    var s := Apply(PLAIN_RECEIVED, TryStart(0));
    assert s == PLAIN_READY;
    ReachNext(PLAIN_RECEIVED, TryStart(0));
  }

  const PLAIN_RUNNING :=
    System(Shared(false, map[1 := 0], map[], map[1 := WORKING.(ctx := Some(Context(0, false)))], map[], map[],
                  map[0 := Channel([], false, 1)], 1, 1, multiset{}, {}),
           map[0 := Worker(1, false, true, 1, Running(SyncItem(D, 1), Some(0)), None, true)])

  lemma ReachPlainRunning()
    ensures Reachable(PLAIN_RUNNING)
  {
    ReachPlainReady();
    var s := Apply(PLAIN_READY, TakeContext(0));
    assert s == PLAIN_RUNNING;
    ReachNext(PLAIN_READY, TakeContext(0));
  }

  const INTERRUPTED := WORKING.(ctx := Some(Context(0, true)), terminatingAt := true, gracePeriod := 1)

  const PLAIN_KILLED :=
    System(Shared(false, map[1 := 0], map[1 := KillItem(D, false, None, 2)], map[1 := INTERRUPTED], map[], map[],
                  map[0 := Channel([], false, 2)], 1, 1, multiset{}, {}),
           map[0 := Worker(1, false, true, 1, Running(SyncItem(D, 1), Some(0)), None, true)])

  lemma ReachPlainKilled()
    ensures Reachable(PLAIN_KILLED)
  {
    ReachPlainRunning();
    FirstKill(PLAIN_RUNNING.sh, D, None);
    hide Reachable, UpdatePod, PassedAfter;
    var s := Apply(PLAIN_RUNNING, Kill(D, None));
    assert s == PLAIN_KILLED;
    ReachNext(PLAIN_RUNNING, Kill(D, None));
  }

  const PLAIN_TERMINAL :=
    System(Shared(false, map[1 := 0], map[1 := KillItem(D, false, None, 2)], map[1 := INTERRUPTED], map[], map[],
                  map[0 := Channel([], false, 2)], 1, 1, multiset{}, {}),
           map[0 := Worker(1, false, true, 1, Returned(SyncItem(D, 1), Some(0), Done(true)), None, true)])

  lemma ReachPlainTerminal()
    ensures Reachable(PLAIN_TERMINAL)
  {
    ReachPlainKilled();
    var s := Apply(PLAIN_KILLED, Return(0, Done(true)));
    assert s == PLAIN_TERMINAL;
    ReachNext(PLAIN_KILLED, Return(0, Done(true)));
  }

  /** So the branch its log text calls a programmer error is reached by a plain kill. */
  lemma SyncCompletesWhileTerminating()
    ensures Reachable(PLAIN_TERMINAL) && Enabled(PLAIN_TERMINAL, Complete(0))
    ensures PLAIN_TERMINAL.workers[0].phase.work.workType.SyncPodWork?
    ensures PLAIN_TERMINAL.workers[0].phase.outcome == Done(true)
    ensures PLAIN_TERMINAL.sh.statuses[1].terminatingAt
  {
    ReachPlainTerminal();
  }

  // ---------------------------------------------------------------- a termination without a period

  /** completeSync replaces the undelivered item of the kill, with its period, by its own. */
  const PLAIN_COMPLETED :=
    System(Shared(false, map[1 := 0], map[1 := BareWork(TerminatingPodWork, D).(number := 3)],
                  map[1 := INTERRUPTED.(startedTerminating := true)], map[], map[],
                  map[0 := Channel([], false, 3)], 1, 1, multiset{}, {}),
           map[0 := Worker(1, false, true, 1, Requeuing(D, Some(0)), None, true)])

  lemma ReachPlainCompleted()
    ensures Reachable(PLAIN_COMPLETED)
  {
    ReachPlainTerminal();
    var s := Apply(PLAIN_TERMINAL, Complete(0));
    assert s == PLAIN_COMPLETED;
    ReachNext(PLAIN_TERMINAL, Complete(0));
  }

  const PLAIN_SENT :=
    System(PLAIN_COMPLETED.sh.(
             lastUndelivered := map[],
             channels := map[0 := Channel([BareWork(TerminatingPodWork, D).(number := 3)], false, 3)]),
           map[0 := Worker(1, false, true, 1, Idle, None, true)])

  lemma ReachPlainSent()
    ensures Reachable(PLAIN_SENT)
  {
    ReachPlainCompleted();
    var s := Apply(PLAIN_COMPLETED, Requeue(0));
    assert s.sh.lastUndelivered == map[];
    assert s.sh.channels[0] == PLAIN_SENT.sh.channels[0];
    assert s == PLAIN_SENT;
    ReachNext(PLAIN_COMPLETED, Requeue(0));
  }

  const PLAIN_ENDING :=
    System(PLAIN_SENT.sh.(channels := map[0 := Channel([], false, 3)]),
           map[0 := Worker(1, false, true, 3, Ready(BareWork(TerminatingPodWork, D).(number := 3)), None, true)])

  lemma ReachPlainEnding()
    ensures Reachable(PLAIN_ENDING)
  {
    ReachPlainSent();
    var s := Apply(PLAIN_SENT, Receive(0));
    assert s.sh.channels[0].buffer == [];
    assert s == PLAIN_ENDING;
    ReachNext(PLAIN_SENT, Receive(0));
  }

  const PERIODLESS :=
    System(PLAIN_ENDING.sh.(
             statuses := map[1 := INTERRUPTED.(ctx := Some(Context(1, false)), startedTerminating := true)],
             nextContext := 2),
           map[0 := Worker(1, false, true, 3,
                           Acknowledging(BareWork(TerminatingPodWork, D).(number := 3), Some(1)), None, true)])

  lemma ReachPeriodless()
    ensures Reachable(PERIODLESS)
  {
    ReachPlainEnding();
    var s := Apply(PLAIN_ENDING, TakeContext(0));
    assert s == PERIODLESS;
    ReachNext(PLAIN_ENDING, TakeContext(0));
  }

  /** A termination attempt can be given no period although one is recorded, contrary to the
      comment where UpdatePod sets it. */
  lemma TerminatesWithoutPeriod()
    ensures Reachable(PERIODLESS) && Enabled(PERIODLESS, Acknowledge(0))
    ensures PERIODLESS.workers[0].phase.work.kill.None? && PERIODLESS.sh.statuses[1].gracePeriod == 1
  {
    ReachPeriodless();
  }
}
