/** The whole machine: the shared state and one goroutine per work channel. Every lock
    section is one atomic step, so the steps of managePodLoop interleave freely with
    UpdatePod, SyncKnownPods and the steps of other workers. */
module WorkerSystem {
  import opened PodTypes
  import opened WorkerState

  /** How a sync function, or the wait for the pod cache before it, came out. */
  datatype Outcome = Done(isTerminal: bool) | CancelledError | OtherError

  /** Where a worker stands in managePodLoop. */
  datatype Phase =
    | Idle                                               // ranging over its channel
    | Received(work: PodWork)                            // about to call allowPodStart
    | Unstartable(work: PodWork)                         // about to call completeUnstartedTerminated
    | Ready(work: PodWork)                               // started, about to wait for the pod cache
    | Acknowledging(work: PodWork, ctx: Option<nat>)     // has its context, about to acknowledge
    | Running(work: PodWork, ctx: Option<nat>)           // inside one of the sync functions
    | Returned(work: PodWork, ctx: Option<nat>, outcome: Outcome)
    | Requeuing(pod: Pod, ctx: Option<nat>)              // about to call completeWork
    | Gone

  /** History: `isStatic` tells what kind of pod the worker was made for, `received` is the
      highest number of an item received, `intruder` is the sync item that was undelivered
      when the worker was let in although its pod had been asked to terminate, and `unnamed`
      tells that it was let in without its pod taking its name. */
  datatype Worker = Worker(uid: UID, isStatic: bool, started: bool, received: nat, phase: Phase,
                           intruder: Option<PodWork> := None, unnamed: bool := false)

  /** A worker is identified by the channel it ranges over. */
  datatype System = System(sh: Shared, workers: map<nat, Worker>)

  const START := System(INITIAL, map[])

  datatype Event =
    | Update(options: UpdatePodOptions, cacheTerminal: bool)
    | SyncKnown(order: seq<UID>, desired: set<UID>)
    | Receive(w: nat)
    | TryStart(w: nat)
    | GiveUp(w: nat)
    | CacheFails(w: nat)
    | TakeContext(w: nat)
    | Acknowledge(w: nat)
    | Return(w: nat, outcome: Outcome)
    | Complete(w: nat)
    | Requeue(w: nat)

  predicate IsWorkerEvent(e: Event) {
    !e.Update? && !e.SyncKnown?
  }

  /** A step is possible whenever the goroutine is at that point; nothing else restricts it. */
  ghost predicate Enabled(s: System, e: Event) {
    match e
    case Update(o, _) => o.WellFormed()
    case SyncKnown(order, _) => Enumerates(order, s.sh.statuses.Keys)
    case Receive(w) =>
      && w in s.workers && s.workers[w].phase.Idle?
      && w in s.sh.channels && (s.sh.channels[w].buffer != [] || s.sh.channels[w].closed)
    case TryStart(w) => w in s.workers && s.workers[w].phase.Received?
    case GiveUp(w) => w in s.workers && s.workers[w].phase.Unstartable?
    case CacheFails(w) => w in s.workers && s.workers[w].phase.Ready? && !s.workers[w].phase.work.runtime
    case TakeContext(w) => w in s.workers && s.workers[w].phase.Ready?
    case Acknowledge(w) => w in s.workers && s.workers[w].phase.Acknowledging?
    case Return(w, _) => w in s.workers && s.workers[w].phase.Running?
    case Complete(w) => w in s.workers && s.workers[w].phase.Returned?
    case Requeue(w) => w in s.workers && s.workers[w].phase.Requeuing?
  }

  function Move(s: System, sh: Shared, w: nat, worker: Worker): System {
    System(sh, s.workers[w := worker])
  }

  function ApplyUpdate(s: System, o: UpdatePodOptions, cacheTerminal: bool): System
    requires o.WellFormed()
  {
    var sh := UpdatePod(s.sh, o, cacheTerminal);
    System(sh,
           if sh.nextChannel > s.sh.nextChannel
           then s.workers[s.sh.nextChannel := Worker(o.Target().uid, o.Target().isStatic, false, 0, Idle)]
           else s.workers)
  }

  function Max(a: nat, b: nat): nat {
    if a < b then b else a
  }

  function ApplyReceive(s: System, w: nat): System
    requires w in s.workers && w in s.sh.channels
  {
    var c := s.sh.channels[w];
    if c.buffer == [] then Move(s, s.sh, w, s.workers[w].(phase := Gone))
    else
      var work := c.buffer[0];
      Move(s, s.sh.(channels := s.sh.channels[w := c.(buffer := c.buffer[1..])]), w,
           s.workers[w].(received := Max(work.number, s.workers[w].received),
                         phase := if s.workers[w].started then Ready(work) else Received(work)))
  }

  /** A sync item still undelivered although u has been asked to terminate. */
  function Intruder(s: Shared, u: UID): Option<PodWork> {
    if u in s.lastUndelivered && s.lastUndelivered[u].workType.SyncPodWork? && u in s.statuses && s.statuses[u].terminatingAt
    then Some(s.lastUndelivered[u])
    else None
  }

  function ApplyTryStart(s: System, w: nat): System
    requires w in s.workers && s.workers[w].phase.Received?
  {
    var work := s.workers[w].phase.work;
    var (sh, admission) := AllowPodStart(s.sh, work.pod);
    Move(s, sh, w,
         match admission
         case Never => s.workers[w].(phase := Unstartable(work))
         case Later => s.workers[w].(phase := Idle)
         case Start => s.workers[w].(phase := Ready(work), started := true,
                                             intruder := Intruder(s.sh, work.pod.uid), unnamed := !work.pod.isStatic))
  }

  function ApplyTakeContext(s: System, w: nat): System
    requires w in s.workers && s.workers[w].phase.Ready?
  {
    var work := s.workers[w].phase.work;
    var (sh, ctx) := ContextForWorker(s.sh, work.pod.uid);
    Move(s, sh, w, s.workers[w].(phase := if work.workType.TerminatingPodWork?
                                          then Acknowledging(work, ctx) else Running(work, ctx)))
  }

  /** The switch after a sync function returned. */
  function ApplyComplete(s: System, w: nat): System
    requires w in s.workers && s.workers[w].phase.Returned?
  {
    var Returned(work, ctx, outcome) := s.workers[w].phase;
    var u := work.pod.uid;
    var again := s.workers[w].(phase := Requeuing(work.pod, ctx));
    var gone := s.workers[w].(phase := Gone);
    if !outcome.Done? then Move(s, s.sh, w, again)
    else if work.workType.TerminatedPodWork? then Move(s, CompleteTerminated(s.sh, u), w, gone)
    else if work.workType.TerminatingPodWork? then
      if work.runtime then Move(s, CompleteTerminatingRuntimePod(s.sh, u), w, gone)
      else Move(s, CompleteTerminating(s.sh, work.pod), w, again)
    else if outcome.isTerminal then Move(s, CompleteSync(s.sh, work.pod), w, again)
    else Move(s, s.sh, w, again)
  }

  function Apply(s: System, e: Event): System
    requires Enabled(s, e)
  {
    match e
    case Update(o, cacheTerminal) => ApplyUpdate(s, o, cacheTerminal)
    case SyncKnown(order, desired) => s.(sh := SyncKnownPods(s.sh, order, desired))
    case Receive(w) => ApplyReceive(s, w)
    case TryStart(w) => ApplyTryStart(s, w)
    case GiveUp(w) =>
      Move(s, CompleteUnstartedTerminated(s.sh, s.workers[w].phase.work.pod.uid), w, s.workers[w].(phase := Gone))
    case CacheFails(w) =>
      Move(s, s.sh, w, s.workers[w].(phase := Returned(s.workers[w].phase.work, None, OtherError)))
    case TakeContext(w) => ApplyTakeContext(s, w)
    case Acknowledge(w) =>
      var Acknowledging(work, ctx) := s.workers[w].phase;
      Move(s, AcknowledgeTerminating(s.sh, work.pod.uid).0, w, s.workers[w].(phase := Running(work, ctx)))
    case Return(w, outcome) =>
      var Running(work, ctx) := s.workers[w].phase;
      Move(s, s.sh, w, s.workers[w].(phase := Returned(work, ctx, outcome)))
    case Complete(w) => ApplyComplete(s, w)
    case Requeue(w) =>
      Move(s, CompleteWorkQueueNext(s.sh, s.workers[w].phase.pod.uid), w, s.workers[w].(phase := Idle))
  }

  /** While a worker has not been let in, callers do not present its UID as another kind of
      pod. A runtime pod carries no annotations, so it is not static. */
  predicate SameKind(s: System, e: Event) {
    e.Update? && e.options.WellFormed() && e.options.Target().uid in s.sh.podUpdates
    && s.sh.podUpdates[e.options.Target().uid] in s.workers
    && !s.workers[s.sh.podUpdates[e.options.Target().uid]].started
    ==> e.options.Target().isStatic == s.workers[s.sh.podUpdates[e.options.Target().uid]].isStatic
  }

  // ---------------------------------------------------------------- runs

  ghost predicate Next(s: System, e: Event, s': System) {
    Enabled(s, e) && s' == Apply(s, e)
  }

  /** tr[i] is the state before events[i]. */
  ghost predicate IsRun(tr: seq<System>, events: seq<Event>) {
    && |tr| == |events| + 1
    && tr[0] == START
    && forall i {:trigger events[i]} :: 0 <= i < |events| ==> Next(tr[i], events[i], tr[i + 1])
  }

  ghost predicate KindsFixed(tr: seq<System>, events: seq<Event>)
    requires |tr| == |events| + 1
  {
    forall i {:trigger events[i]} :: 0 <= i < |events| ==> SameKind(tr[i], events[i])
  }

  ghost predicate StableRun(tr: seq<System>, events: seq<Event>) {
    IsRun(tr, events) && KindsFixed(tr, events)
  }
}
