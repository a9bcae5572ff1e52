/** The values the pod workers exchange: pods, update requests and work items.
    UIDs, full names, completion channels and status functions are only stored and
    compared, so integers stand for them; times are only tested for being set, so
    Booleans stand for them. */
module PodTypes {

  datatype Option<+T> = None | Some(value: T)

  type UID = int
  type FullName = int
  type CompletedCh = int
  type StatusFn = int

  datatype PodPhase = NoPhase | PodPending | PodRunning | PodSucceeded | PodFailed

  predicate TerminalPhase(p: PodPhase) {
    p.PodSucceeded? || p.PodFailed?
  }

  datatype Pod = Pod(
    uid: UID,
    fullname: FullName,
    isStatic: bool,
    deleting: bool,                  // DeletionTimestamp != nil
    phase: PodPhase,                 // Status.Phase
    deletionGrace: Option<int>,      // DeletionGracePeriodSeconds
    specGrace: Option<int>)          // Spec.TerminationGracePeriodSeconds

  /** A pod known only to the runtime; it carries neither annotations nor status. */
  datatype RunningPod = RunningPod(uid: UID, fullname: FullName)

  function ToAPIPod(r: RunningPod): Pod {
    Pod(r.uid, r.fullname, false, false, NoPhase, None, None)
  }

  datatype SyncPodType = SyncPodSync | SyncPodUpdate | SyncPodCreate | SyncPodKill

  datatype KillPodOptions = KillPodOptions(
    completedCh: Option<CompletedCh>,
    evict: bool,
    podStatusFunc: Option<StatusFn>,
    graceOverride: Option<int>)

  const NO_KILL_OPTIONS := KillPodOptions(None, false, None, None)

  datatype UpdatePodOptions = UpdatePodOptions(
    updateType: SyncPodType,
    pod: Option<Pod>,
    runningPod: Option<RunningPod>,
    kill: Option<KillPodOptions>)
  {
    /** The source dereferences one of the two; a request with neither is not a request. */
    predicate WellFormed() {
      pod.Some? || runningPod.Some?
    }

    /** Only a request without a configured pod is about the runtime pod. */
    predicate IsRuntime() {
      pod.None?
    }

    function Target(): Pod
      requires WellFormed()
    {
      if pod.Some? then pod.value else ToAPIPod(runningPod.value)
    }

    function Channel(): Option<CompletedCh> {
      if kill.Some? then kill.value.completedCh else None
    }
  }

  datatype PodWorkType = SyncPodWork | TerminatingPodWork | TerminatedPodWork

  /** Position of a work type in the lifecycle. */
  function Rank(t: PodWorkType): nat {
    match t
    case SyncPodWork => 0
    case TerminatingPodWork => 1
    case TerminatedPodWork => 2
  }

  /** One item for a worker. `number` is a history variable: the items issued for one
      channel are numbered 1, 2, 3, ... in the order they are issued. */
  datatype PodWork = PodWork(
    workType: PodWorkType,
    updateType: SyncPodType,
    pod: Pod,
    runtime: bool,                   // Options.RunningPod != nil
    kill: Option<KillPodOptions>,
    number: nat)
}
