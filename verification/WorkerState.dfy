/** The state behind `podLock` and one function for each section of code that runs while
    holding it. What would panic, block for ever or log a programmer error in the source
    is recorded in `faults`, so that its absence can be proved. */
module WorkerState {
  import opened PodTypes
  import opened GracePeriod

  datatype Context = Context(id: nat, cancelled: bool)

  datatype PodSyncStatus = PodSyncStatus(
    ctx: Option<Context>,            // ctx and cancelFn are set together
    working: bool,
    fullname: FullName,
    terminatingAt: bool,
    startedTerminating: bool,
    deleted: bool,
    gracePeriod: int,
    evicted: bool,
    terminatedAt: bool,
    finished: bool,
    restartRequested: bool,
    notifyPostTerminating: seq<CompletedCh>,
    statusPostTerminating: seq<StatusFn>)

  function NewStatus(fullname: FullName): PodSyncStatus {
    PodSyncStatus(None, false, fullname, false, false, false, 0, false, false, false, false, [], [])
  }

  function FinishedStatus(fullname: FullName): PodSyncStatus {
    NewStatus(fullname).(terminatedAt := true, terminatingAt := true, startedTerminating := true, finished := true)
  }

  /** A work channel of capacity one. `issued` counts the items issued for it, and `passed`
      holds the numbers of those that lay in the undelivered slot while a later item was sent
      directly (both history). */
  datatype Channel = Channel(buffer: seq<PodWork>, closed: bool, issued: nat, passed: set<nat> := {})

  const CAPACITY := 1

  datatype Fault =
    | BlockedSend(uid: UID)          // send on a full, closed or missing channel
    | BadClose(uid: UID)             // close of a closed or missing channel
    | MissingStatus(uid: UID)        // podSyncStatuses has no entry where one is needed
    | ProgrammerError(uid: UID)      // a "likely programmer error" log line

  datatype Shared = Shared(
    podsSynced: bool,
    podUpdates: map<UID, nat>,                       // values are keys of `channels`
    lastUndelivered: map<UID, PodWork>,
    statuses: map<UID, PodSyncStatus>,
    startedStatic: map<FullName, UID>,
    waitingStatic: map<FullName, seq<UID>>,
    channels: map<nat, Channel>,
    nextChannel: nat,
    nextContext: nat,
    completions: multiset<CompletedCh>,              // completion channels, once per close
    faults: set<Fault>)

  const INITIAL :=
    Shared(false, map[], map[], map[], map[], map[], map[], 0, 0, multiset{}, {})

  function SetStatus(s: Shared, u: UID, st: PodSyncStatus): Shared {
    s.(statuses := s.statuses[u := st])
  }

  function Report(s: Shared, condition: bool, f: Fault): Shared {
    if condition then s.(faults := s.faults + {f}) else s
  }

  function CloseCompletion(s: Shared, c: Option<CompletedCh>): Shared {
    if c.Some? then s.(completions := s.completions + multiset{c.value}) else s
  }

  // ---------------------------------------------------------------- channels

  predicate CanSend(s: Shared, u: UID) {
    && u in s.podUpdates && s.podUpdates[u] in s.channels
    && !s.channels[s.podUpdates[u]].closed
    && |s.channels[s.podUpdates[u]].buffer| < CAPACITY
  }

  function Send(s: Shared, u: UID, work: PodWork): Shared {
    if !CanSend(s, u) then Report(s, true, BlockedSend(u))
    else
      var c := s.podUpdates[u];
      s.(channels := s.channels[c := s.channels[c].(buffer := s.channels[c].buffer + [work])])
  }

  function NextNumber(s: Shared, u: UID): nat {
    if u in s.podUpdates && s.podUpdates[u] in s.channels then s.channels[s.podUpdates[u]].issued + 1 else 0
  }

  /** Counts one more item issued for u's channel. */
  function Issue(s: Shared, u: UID): Shared {
    if u in s.podUpdates && s.podUpdates[u] in s.channels then
      var c := s.podUpdates[u];
      s.(channels := s.channels[c := s.channels[c].(issued := s.channels[c].issued + 1)])
    else s
  }

  /** Issues `work` into the undelivered slot, replacing what is there. */
  function Park(s: Shared, u: UID, work: PodWork): Shared {
    Issue(s.(lastUndelivered := s.lastUndelivered[u := work.(number := NextNumber(s, u))]), u)
  }

  function Undelivered(s: Shared, u: UID): Option<PodWork> {
    if u in s.lastUndelivered then Some(s.lastUndelivered[u]) else None
  }

  /** Notes that an item is about to be sent past the one in the undelivered slot, if any. */
  function PassOver(s: Shared, u: UID): Shared {
    if u in s.lastUndelivered && u in s.podUpdates && s.podUpdates[u] in s.channels then
      var c := s.podUpdates[u];
      s.(channels := s.channels[c := s.channels[c].(passed := s.channels[c].passed + {s.lastUndelivered[u].number})])
    else s
  }

  function CloseUpdates(s: Shared, u: UID): Shared {
    if u !in s.podUpdates then s
    else
      var c := s.podUpdates[u];
      if c !in s.channels || s.channels[c].closed then Report(s, true, BadClose(u))
      else s.(channels := s.channels[c := s.channels[c].(closed := true)])
  }

  function CleanupPodUpdates(s: Shared, u: UID): Shared {
    CloseUpdates(s, u).(podUpdates := s.podUpdates - {u}, lastUndelivered := s.lastUndelivered - {u})
  }

  // ---------------------------------------------------------------- UpdatePod

  function Register(s: Shared, pod: Pod, runtime: bool, cacheTerminal: bool): Shared {
    if pod.uid in s.statuses then s
    else SetStatus(s, pod.uid,
                   if !runtime && TerminalPhase(pod.phase) && cacheTerminal
                   then FinishedStatus(pod.fullname) else NewStatus(pod.fullname))
  }

  /** The transition to terminating, for a pod that has not been asked to terminate. */
  function RequestTermination(st: PodSyncStatus, pod: Pod, runtime: bool, ut: SyncPodType,
                              kill: Option<KillPodOptions>): PodSyncStatus
  {
    if st.terminatingAt then st
    else if runtime || pod.deleting then st.(deleted := true, terminatingAt := true)
    else if TerminalPhase(pod.phase) then st.(terminatingAt := true)
    else if ut.SyncPodKill? then
      st.(evicted := st.evicted || (kill.Some? && kill.value.evict), terminatingAt := true)
    else st
  }

  /** What an accepted request turns into. */
  datatype Verdict = Verdict(status: PodSyncStatus, work: PodWork, close: Option<CompletedCh>, cancel: bool)

  function Appended<T>(xs: seq<T>, x: Option<T>): seq<T> {
    if x.Some? then xs + [x.value] else xs
  }

  /** A kill request joins the termination that is under way. */
  function Join(st: PodSyncStatus, pod: Pod, k: KillPodOptions): PodSyncStatus {
    st.(gracePeriod := Effective(st.gracePeriod, pod, k),
        notifyPostTerminating := Appended(st.notifyPostTerminating, k.completedCh),
        statusPostTerminating := Appended(st.statusPostTerminating, k.podStatusFunc))
  }

  function Decide(before: PodSyncStatus, pod: Pod, runtime: bool, ut: SyncPodType,
                  kill: Option<KillPodOptions>): Verdict
  {
    var st := RequestTermination(before, pod, runtime, ut, kill);
    var became := st.terminatingAt && !before.terminatingAt;
    var k := if kill.Some? then kill.value else NO_KILL_OPTIONS;
    if st.terminatedAt then
      Verdict(st, PodWork(TerminatedPodWork, ut, pod, runtime, None, 0), k.completedCh, became)
    else if st.terminatingAt then
      var g := Effective(st.gracePeriod, pod, k);
      Verdict(Join(st, pod, k),
              PodWork(TerminatingPodWork, ut, pod, runtime, Some(k.(graceOverride := Some(g))), 0),
              None,
              became || Shortened(st.gracePeriod, pod, k))
    else
      Verdict(st, PodWork(SyncPodWork, ut, pod, runtime, None, 0), k.completedCh, false)
  }

  function Waiting(s: Shared, f: FullName): seq<UID> {
    if f in s.waitingStatic then s.waitingStatic[f] else []
  }

  /** Makes the channel of a pod that has none; the caller starts a worker on it. */
  function EnsureWorker(s: Shared, pod: Pod, fullname: FullName): Shared {
    if pod.uid in s.podUpdates then s
    else s.(podUpdates := s.podUpdates[pod.uid := s.nextChannel],
            channels := s.channels[s.nextChannel := Channel([], false, 0)],
            nextChannel := s.nextChannel + 1,
            waitingStatic := if pod.isStatic
                             then s.waitingStatic[fullname := Waiting(s, fullname) + [pod.uid]]
                             else s.waitingStatic)
  }

  function Cancelled(st: PodSyncStatus): PodSyncStatus {
    if st.ctx.Some? then st.(ctx := Some(st.ctx.value.(cancelled := true))) else st
  }

  /** To an idle worker through its channel, otherwise into the undelivered slot. */
  function Dispatch(s: Shared, u: UID, v: Verdict): Shared {
    if !v.status.working then
      Send(Issue(PassOver(SetStatus(s, u, v.status.(working := true)), u), u), u, v.work.(number := NextNumber(s, u)))
    else
      Park(SetStatus(s, u, if v.cancel then Cancelled(v.status) else v.status), u, v.work)
  }

  function Admit(s: Shared, pod: Pod, runtime: bool, ut: SyncPodType,
                 kill: Option<KillPodOptions>, cacheTerminal: bool): Shared
  {
    var s1 := Register(s, pod, runtime, cacheTerminal);
    var st := s1.statuses[pod.uid];
    if st.terminatingAt && ut.SyncPodCreate? then
      SetStatus(s1, pod.uid, st.(restartRequested := true))
    else if st.finished then s1
    else
      var v := Decide(st, pod, runtime, ut, kill);
      if v.status.terminatedAt && runtime then SetStatus(s1, pod.uid, v.status)
      else
        var s2 := CloseCompletion(SetStatus(s1, pod.uid, v.status), v.close);
        Dispatch(EnsureWorker(s2, pod, st.fullname), pod.uid, v)
  }

  /** `cacheTerminal`: the pod cache has a status and it shows nothing running. */
  function UpdatePod(s: Shared, o: UpdatePodOptions, cacheTerminal: bool): Shared
    requires o.WellFormed()
  {
    if o.IsRuntime() && !o.updateType.SyncPodKill? then s
    else Admit(s, o.Target(), o.IsRuntime(), o.updateType, o.kill, cacheTerminal)
  }

  // ---------------------------------------------------------------- static admission

  predicate Eligible(s: Shared, u: UID) {
    u in s.statuses && !s.statuses[u].terminatingAt && !s.statuses[u].terminatedAt
  }

  /** Position of the first eligible UID in the list, or its length. */
  function FirstEligible(s: Shared, list: seq<UID>): (i: nat)
    ensures i <= |list|
    ensures forall j :: 0 <= j < i ==> !Eligible(s, list[j])
    ensures i < |list| ==> Eligible(s, list[i])
  {
    if list == [] then 0
    else if Eligible(s, list[0]) then 0
    else 1 + FirstEligible(s, list[1..])
  }

  function SetWaiting(s: Shared, f: FullName, list: seq<UID>): Shared {
    s.(waitingStatic := if list != [] then s.waitingStatic[f := list] else s.waitingStatic - {f})
  }

  function AllowStaticPodStart(s: Shared, f: FullName, u: UID): (Shared, bool) {
    if f in s.startedStatic then (s, s.startedStatic[f] == u)
    else
      var list := Waiting(s, f);
      var i := FirstEligible(s, list);
      if i < |list| && list[i] != u then (s.(waitingStatic := s.waitingStatic[f := list[i..]]), false)
      else
        var s1 := SetWaiting(s, f, if i < |list| then list[i + 1..] else list);
        (s1.(startedStatic := s1.startedStatic[f := u]), true)
  }

  datatype Admission = Start | Later | Never

  function AllowPodStart(s: Shared, pod: Pod): (Shared, Admission) {
    if !pod.isStatic then (s, Start)
    else if pod.uid !in s.statuses then (Report(s, true, MissingStatus(pod.uid)), Never)
    else if s.statuses[pod.uid].terminatingAt then (s, Never)
    else
      var (s1, granted) := AllowStaticPodStart(s, s.statuses[pod.uid].fullname, pod.uid);
      if granted then (s1, Start)
      else (SetStatus(s1, pod.uid, s.statuses[pod.uid].(working := false)), Later)
  }

  // ---------------------------------------------------------------- the worker's sections

  function ContextForWorker(s: Shared, u: UID): (Shared, Option<nat>) {
    if u !in s.statuses then (s, None)
    else
      var st := s.statuses[u];
      if st.ctx.None? || st.ctx.value.cancelled then
        (SetStatus(s, u, st.(ctx := Some(Context(s.nextContext, false)))).(nextContext := s.nextContext + 1),
         Some(s.nextContext))
      else (s, Some(st.ctx.value.id))
  }

  function AcknowledgeTerminating(s: Shared, u: UID): (Shared, Option<StatusFn>) {
    if u !in s.statuses then (s, None)
    else
      var st := s.statuses[u];
      var fns := st.statusPostTerminating;
      (SetStatus(s, u, st.(startedTerminating := st.startedTerminating || st.terminatingAt)),
       if fns != [] then Some(fns[|fns| - 1]) else None)
  }

  function BareWork(t: PodWorkType, pod: Pod): PodWork {
    PodWork(t, SyncPodSync, pod, false, None, 0)
  }

  function CompleteSync(s: Shared, pod: Pod): Shared {
    var s1 := if pod.uid in s.statuses
              then SetStatus(s, pod.uid, s.statuses[pod.uid].(terminatingAt := true, startedTerminating := true))
              else s;
    Park(s1, pod.uid, BareWork(TerminatingPodWork, pod))
  }

  function CompleteTerminating(s: Shared, pod: Pod): Shared {
    var s1 :=
      if pod.uid in s.statuses then
        var st := s.statuses[pod.uid];
        Report(SetStatus(s, pod.uid, st.(terminatedAt := true, notifyPostTerminating := [], statusPostTerminating := []))
               .(completions := s.completions + multiset(st.notifyPostTerminating)),
               !st.terminatingAt, ProgrammerError(pod.uid))
      else s;
    Park(s1, pod.uid, BareWork(TerminatedPodWork, pod))
  }

  /** Drops u as the started static pod of `f`, if it is. */
  function Release(s: Shared, f: FullName, u: UID): Shared {
    if f in s.startedStatic && s.startedStatic[f] == u then s.(startedStatic := s.startedStatic - {f}) else s
  }

  /** What the three ways to finish have in common; `suspicious` is the state the source
      logs a programmer error for. */
  function Finish(s: Shared, u: UID, terminatedAt: bool, suspicious: bool): Shared
    requires u in s.statuses
  {
    var st := s.statuses[u];
    var s1 := SetStatus(s, u, st.(terminatedAt := terminatedAt, finished := true, working := false));
    Report(Release(s1, st.fullname, u), suspicious, ProgrammerError(u))
  }

  function CompleteTerminatingRuntimePod(s: Shared, u: UID): Shared {
    CleanupPodUpdates(if u in s.statuses then Finish(s, u, true, !s.statuses[u].terminatingAt) else s, u)
  }

  function CompleteTerminated(s: Shared, u: UID): Shared {
    var s1 := CleanupPodUpdates(s, u);
    if u !in s1.statuses then s1
    else
      var st := s1.statuses[u];
      Finish(s1, u, st.terminatedAt, !st.terminatingAt || !st.terminatedAt)
  }

  function CompleteUnstartedTerminated(s: Shared, u: UID): Shared {
    var s1 := CleanupPodUpdates(s, u);
    if u !in s1.statuses then s1
    else Finish(s1, u, true, !s1.statuses[u].terminatingAt || s1.statuses[u].terminatedAt)
  }

  function CompleteWorkQueueNext(s: Shared, u: UID): Shared {
    if u in s.lastUndelivered then
      var s1 := Send(s, u, s.lastUndelivered[u]);
      s1.(lastUndelivered := s1.lastUndelivered - {u})
    else if u in s.statuses then SetStatus(s, u, s.statuses[u].(working := false))
    else Report(s, true, MissingStatus(u))
  }

  // ---------------------------------------------------------------- housekeeping

  function RemoveTerminatedWorker(s: Shared, u: UID): Shared {
    if u !in s.statuses || !s.statuses[u].finished then s
    else
      var st := s.statuses[u];
      Release(CleanupPodUpdates(s.(statuses := s.statuses - {u}), u), st.fullname, u)
  }

  predicate Unwanted(s: Shared, u: UID, desired: set<UID>) {
    u in s.statuses && (u !in desired || s.statuses[u].restartRequested)
  }

  function VisitKnown(s: Shared, u: UID, desired: set<UID>): Shared {
    if Unwanted(s, u, desired) then RemoveTerminatedWorker(s, u) else s
  }

  /** One pass over the known pods in the order the map happens to yield them. */
  function Sweep(s: Shared, order: seq<UID>, desired: set<UID>): Shared
    decreases |order|
  {
    if order == [] then s else VisitKnown(Sweep(s, order[..|order| - 1], desired), order[|order| - 1], desired)
  }

  ghost predicate Enumerates(order: seq<UID>, keys: set<UID>) {
    && (forall u :: u in order <==> u in keys)
    && (forall i, j :: 0 <= i < j < |order| ==> order[i] != order[j])
  }

  function SyncKnownPods(s: Shared, order: seq<UID>, desired: set<UID>): Shared {
    Sweep(s.(podsSynced := true), order, desired)
  }

  datatype PodWorkerState = SyncPod | TerminatingPod | TerminatedPod | TerminatedAndRecreatedPod

  function StateOf(st: PodSyncStatus): PodWorkerState {
    if st.terminatedAt then (if st.restartRequested then TerminatedAndRecreatedPod else TerminatedPod)
    else if st.terminatingAt then TerminatingPod
    else SyncPod
  }

  // ---------------------------------------------------------------- queries

  predicate CouldHaveRunningContainers(s: Shared, u: UID) {
    if u in s.statuses then !s.statuses[u].terminatedAt else !s.podsSynced
  }

  predicate ShouldPodContainersBeTerminating(s: Shared, u: UID) {
    if u in s.statuses then s.statuses[u].startedTerminating else s.podsSynced
  }

  predicate ShouldPodRuntimeBeRemoved(s: Shared, u: UID) {
    if u in s.statuses then s.statuses[u].terminatedAt else s.podsSynced
  }

  predicate ShouldPodContentBeRemoved(s: Shared, u: UID) {
    if u in s.statuses then s.statuses[u].evicted || (s.statuses[u].deleted && s.statuses[u].terminatedAt)
    else s.podsSynced
  }

  predicate IsPodKnownTerminated(s: Shared, u: UID) {
    u in s.statuses && s.statuses[u].terminatedAt
  }

  predicate IsPodTerminationRequested(s: Shared, u: UID) {
    u in s.statuses && s.statuses[u].terminatingAt
  }

  /** The name's recorded holder is terminating. */
  predicate IsPodForMirrorPodTerminatingByFullName(s: Shared, f: FullName) {
    f in s.startedStatic && s.startedStatic[f] in s.statuses
    && s.statuses[s.startedStatic[f]].terminatingAt && !s.statuses[s.startedStatic[f]].terminatedAt
  }
}
