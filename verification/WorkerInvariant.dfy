/** The inductive invariant of the pod workers and its preservation by every step. */
module WorkerInvariant {
  import GracePeriod
  import opened PodTypes
  import opened WorkerState
  import opened WorkerSystem

  function Held(p: Phase): Option<PodWork> {
    match p
    case Received(work) => Some(work)
    case Unstartable(work) => Some(work)
    case Ready(work) => Some(work)
    case Acknowledging(work, _) => Some(work)
    case Running(work, _) => Some(work)
    case Returned(work, _, _) => Some(work)
    case _ => None
  }

  /** The worker owes its channel nothing only while it waits for it. */
  predicate Busy(p: Phase) {
    !p.Idle? && !p.Gone?
  }

  function ContextOf(p: Phase): Option<nat> {
    match p
    case Acknowledging(_, ctx) => ctx
    case Running(_, ctx) => ctx
    case Returned(_, ctx, _) => ctx
    case Requeuing(_, ctx) => ctx
    case _ => None
  }

  // ---------------------------------------------------------------- one pod

  datatype Link = Link(channel: Channel, worker: Worker)

  /** Everything the state says about one UID. */
  datatype PodView = PodView(status: Option<PodSyncStatus>, link: Option<Link>, undelivered: Option<PodWork>)

  function ViewOf(s: System, u: UID): PodView {
    PodView(
      if u in s.sh.statuses then Some(s.sh.statuses[u]) else None,
      if u in s.sh.podUpdates && s.sh.podUpdates[u] in s.sh.channels && s.sh.podUpdates[u] in s.workers
      then Some(Link(s.sh.channels[s.sh.podUpdates[u]], s.workers[s.sh.podUpdates[u]])) else None,
      Undelivered(s.sh, u))
  }

  predicate LifecycleOrdered(st: PodSyncStatus) {
    && (st.finished ==> st.terminatedAt)
    && (st.terminatedAt ==> st.terminatingAt)
    && (st.startedTerminating ==> st.terminatingAt)
    && (st.terminatedAt && !st.finished ==> st.startedTerminating)
  }

  /** Work of type t may be pending while the status is st. */
  predicate TypeFits(st: PodSyncStatus, t: PodWorkType) {
    && (t.TerminatedPodWork? <==> st.terminatedAt)
    && (t.TerminatingPodWork? ==> st.terminatingAt)
  }

  /** Once terminating has started, the only sync item left can be the intruder. */
  predicate ItemFits(u: UID, st: PodSyncStatus, w: Worker, x: PodWork) {
    && x.pod.uid == u && TypeFits(st, x.workType)
    && (x.workType.SyncPodWork? && st.startedTerminating ==> w.intruder == Some(x))
  }

  predicate SyncCalled(p: Phase) {
    p.Running? || (p.Returned? && p.outcome.Done?)
  }

  predicate PhaseFits(u: UID, st: PodSyncStatus, w: Worker, undelivered: Option<PodWork>) {
    && w.uid == u
    && !w.phase.Gone?
    && (Held(w.phase).Some? ==> ItemFits(u, st, w, Held(w.phase).value))
    && (w.phase.Requeuing? ==> w.phase.pod.uid == u)
    && (st.startedTerminating ==> w.started)
    && (w.unnamed ==> w.started)
    && (w.phase.Received? ==> !w.started)
    && (w.phase.Unstartable? ==> !w.started && st.terminatingAt)
    && (Busy(w.phase) && !w.phase.Received? && !w.phase.Unstartable? ==> w.started)
    && (w.phase.Acknowledging? ==> w.phase.work.workType.TerminatingPodWork?)
    && (SyncCalled(w.phase) && w.phase.work.workType.TerminatingPodWork? ==> st.startedTerminating)
    // the context handed out is the recorded one, and cancelling it leaves work behind
    && (w.phase.Acknowledging? || SyncCalled(w.phase) ==> ContextOf(w.phase).Some?)
    && (ContextOf(w.phase).Some? ==>
          st.ctx.Some? && st.ctx.value.id == ContextOf(w.phase).value
          && (st.ctx.value.cancelled ==> undelivered.Some?))
  }

  /** In the channel or in the worker's hands: exactly one item while working, else none. */
  predicate TokenFits(st: PodSyncStatus, c: Channel, w: Worker) {
    |c.buffer| + (if Busy(w.phase) then 1 else 0) == if st.working then 1 else 0
  }

  /** The last item issued was received or is pending. An item follows everything received
      and sent before it unless it was passed over. */
  predicate NumbersFit(c: Channel, w: Worker, undelivered: Option<PodWork>) {
    var sent := if |c.buffer| == 1 then Max(w.received, c.buffer[0].number) else w.received;
    && (|c.buffer| == 1 ==> InPlace(c.buffer[0].number, c, w.received))
    && (undelivered.Some? ==> InPlace(undelivered.value.number, c, sent))
    && (if undelivered.Some? then Max(sent, undelivered.value.number) else sent) == c.issued
    && (forall n :: n in c.passed ==> n <= c.issued)
  }

  /** Item n stands before or after item `last`, as it was passed over or not. */
  predicate InPlace(n: nat, c: Channel, last: nat) {
    1 <= n && if n in c.passed then n < last else last < n
  }

  predicate NoSyncFirst(c: Channel, w: Worker) {
    && (|c.buffer| == 1 ==> !c.buffer[0].workType.SyncPodWork?)
    && (Held(w.phase).Some? ==> !Held(w.phase).value.workType.SyncPodWork?)
  }

  predicate ActiveFits(u: UID, st: PodSyncStatus, c: Channel, w: Worker, undelivered: Option<PodWork>) {
    && !c.closed
    && TokenFits(st, c, w)
    && PhaseFits(u, st, w, undelivered)
    && (|c.buffer| == 1 ==> ItemFits(u, st, w, c.buffer[0]))
    && (undelivered.Some? ==> ItemFits(u, st, w, undelivered.value))
    // only a pod that was told to wait keeps what was parked meanwhile
    && (w.started && undelivered.Some? ==> st.working)
    // a sync item is left behind by a termination only if the item that asks for it went first
    && (undelivered.Some? && undelivered.value.workType.SyncPodWork? && st.terminatingAt ==>
          if w.started then w.intruder == undelivered else NoSyncFirst(c, w))
    && NumbersFit(c, w, undelivered)
  }

  predicate PodFits(u: UID, v: PodView) {
    match v.status
    case None => v.link.None? && v.undelivered.None?
    case Some(st) =>
      && LifecycleOrdered(st)
      && (st.finished <==> v.link.None?)
      && (st.finished ==> !st.working && v.undelivered.None?)
      && (v.link.Some? ==> ActiveFits(u, st, v.link.value.channel, v.link.value.worker, v.undelivered))
  }

  // ---------------------------------------------------------------- across pods

  /** Channels and workers come in pairs; a pair is named in podUpdates until it is closed. */
  ghost predicate Paired(s: System) {
    && s.sh.channels.Keys == s.workers.Keys
    && (forall u :: u in s.sh.podUpdates ==>
          s.sh.podUpdates[u] in s.workers && s.workers[s.sh.podUpdates[u]].uid == u)
    && (forall w :: w in s.workers ==>
          && w < s.sh.nextChannel
          && (s.sh.channels[w].closed <==> s.workers[w].phase.Gone?)
          && (!s.workers[w].phase.Gone? ==>
                s.workers[w].uid in s.sh.podUpdates && s.sh.podUpdates[s.workers[w].uid] == w))
  }

  /** A static pod that was let in and has not finished. */
  predicate InCharge(s: System, u: UID) {
    && u in s.sh.statuses
    && u in s.sh.podUpdates && s.sh.podUpdates[u] in s.workers
    && s.workers[s.sh.podUpdates[u]].isStatic && s.workers[s.sh.podUpdates[u]].started
  }

  /** A pod that was let in as a static pod, and so took its name, and has not finished. */
  predicate HoldsName(s: System, u: UID) {
    && u in s.sh.statuses
    && u in s.sh.podUpdates && s.sh.podUpdates[u] in s.workers
    && s.workers[s.sh.podUpdates[u]].started && !s.workers[s.sh.podUpdates[u]].unnamed
  }

  /** A static pod that waits to be let in and has not been asked to terminate. */
  predicate InLine(s: System, u: UID) {
    && u in s.sh.statuses && !s.sh.statuses[u].terminatingAt
    && u in s.sh.podUpdates && s.sh.podUpdates[u] in s.workers
    && s.workers[s.sh.podUpdates[u]].isStatic && !s.workers[s.sh.podUpdates[u]].started
  }

  ghost predicate StaticsFit(s: System) {
    && (forall f :: f in s.sh.startedStatic ==>
          HoldsName(s, s.sh.startedStatic[f]) && s.sh.statuses[s.sh.startedStatic[f]].fullname == f)
    && (forall u :: HoldsName(s, u) ==>
          var f := s.sh.statuses[u].fullname; f in s.sh.startedStatic && s.sh.startedStatic[f] == u)
    && (forall u :: InLine(s, u) ==> u in Waiting(s.sh, s.sh.statuses[u].fullname))
  }

  /** What holds whatever kinds of pods callers present. */
  ghost predicate Inv(s: System) {
    && s.sh.faults == {}
    && Paired(s)
    && StaticsFit(s)
    && (forall u :: PodFits(u, ViewOf(s, u)))
  }

  // ---------------------------------------------------------------- kinds

  predicate ItemsOfKind(c: Channel, w: Worker, undelivered: Option<PodWork>) {
    && (Held(w.phase).Some? ==> Held(w.phase).value.pod.isStatic == w.isStatic)
    && (|c.buffer| == 1 ==> c.buffer[0].pod.isStatic == w.isStatic)
    && (undelivered.Some? ==> undelivered.value.pod.isStatic == w.isStatic)
  }

  /** What holds of a worker that was let in as the kind it was made for: it takes its name if
      that is static, has no intruder, and nothing is passed over unless it may have been told
      to wait. */
  predicate LinkKinds(st: PodSyncStatus, c: Channel, w: Worker, undelivered: Option<PodWork>) {
    && w.intruder.None?
    && (w.started ==> (w.unnamed <==> !w.isStatic))
    && (!w.started ==> ItemsOfKind(c, w, undelivered))
    && (!w.isStatic ==>
          && c.passed == {}
          && (undelivered.Some? ==>
                st.working && (undelivered.value.workType.SyncPodWork? ==> !st.terminatingAt)))
  }

  predicate KindFits(v: PodView) {
    v.status.Some? && v.link.Some? ==>
      LinkKinds(v.status.value, v.link.value.channel, v.link.value.worker, v.undelivered)
  }

  ghost predicate KindsFit(s: System) {
    forall u :: KindFits(ViewOf(s, u))
  }

  /** The invariant, with the part that depends on the callers' kinds of pods if `kinds`. */
  ghost predicate Sound(s: System, kinds: bool) {
    Inv(s) && (kinds ==> KindsFit(s))
  }

  // ---------------------------------------------------------------- preservation

  lemma StartInv()
    ensures Sound(START, true)
  {
  }

  lemma LiveWorker(s: System, w: nat)
    requires Inv(s) && w in s.workers && !s.workers[w].phase.Gone?
    ensures s.sh.faults == {}
    ensures var u := s.workers[w].uid;
            && u in s.sh.podUpdates && s.sh.podUpdates[u] == w && w in s.sh.channels
            && u in s.sh.statuses && !s.sh.statuses[u].finished && LifecycleOrdered(s.sh.statuses[u])
            && ActiveFits(u, s.sh.statuses[u], s.sh.channels[w], s.workers[w],
                          Undelivered(s.sh, u))
  {
    var u := s.workers[w].uid;
    assert PodFits(u, ViewOf(s, u));
  }

  lemma LiveKinds(s: System, w: nat, kinds: bool)
    requires Sound(s, kinds) && w in s.workers && !s.workers[w].phase.Gone?
    ensures var u := s.workers[w].uid;
            kinds ==> u in s.sh.statuses && w in s.sh.channels
                      && LinkKinds(s.sh.statuses[u], s.sh.channels[w], s.workers[w],
                                   Undelivered(s.sh, u))
  {
    LiveWorker(s, w);
    if kinds { assert KindFits(ViewOf(s, s.workers[w].uid)); }
  }

  /** A step that touches one pod only, and leaves who is static, started and known alone. */
  ghost predicate Local(s: System, s': System, u: UID, w: nat) {
    && u in s.sh.podUpdates && s.sh.podUpdates[u] == w
    && w in s.workers && w in s'.workers && w in s.sh.channels && w in s'.sh.channels
    && s'.sh.podUpdates == s.sh.podUpdates
    && s'.sh.nextChannel == s.sh.nextChannel
    && s'.workers == s.workers[w := s'.workers[w]]
    && s'.sh.channels == s.sh.channels[w := s'.sh.channels[w]]
    && u in s.sh.statuses && u in s'.sh.statuses
    && s'.sh.statuses == s.sh.statuses[u := s'.sh.statuses[u]]
    && s'.sh.lastUndelivered - {u} == s.sh.lastUndelivered - {u}
    && s'.sh.statuses[u].fullname == s.sh.statuses[u].fullname
    && s'.workers[w].uid == s.workers[w].uid && s'.workers[w].isStatic == s.workers[w].isStatic
  }

  lemma LocalViews(s: System, s': System, u: UID, w: nat)
    requires Paired(s) && Local(s, s', u, w)
    ensures forall v :: v != u ==> ViewOf(s', v) == ViewOf(s, v)
  {
    forall v | v != u ensures ViewOf(s', v) == ViewOf(s, v) {
      assert v in s.sh.podUpdates ==> s.sh.podUpdates[v] != w;
      assert v in s'.sh.lastUndelivered <==> v in s'.sh.lastUndelivered - {u};
      assert v in s.sh.lastUndelivered <==> v in s.sh.lastUndelivered - {u};
      assert v in s.sh.lastUndelivered ==>
          s'.sh.lastUndelivered[v] == (s'.sh.lastUndelivered - {u})[v] == s.sh.lastUndelivered[v];
    }
  }

  lemma LocalStatics(s: System, s': System, u: UID, w: nat)
    requires Paired(s) && StaticsFit(s) && Local(s, s', u, w)
    requires s'.sh.startedStatic == s.sh.startedStatic && s'.sh.waitingStatic == s.sh.waitingStatic
    requires s'.workers[w].started == s.workers[w].started && s'.workers[w].unnamed == s.workers[w].unnamed
    requires s.sh.statuses[u].terminatingAt ==> s'.sh.statuses[u].terminatingAt
    ensures StaticsFit(s')
  {
    forall v
      ensures HoldsName(s', v) <==> HoldsName(s, v)
      ensures InLine(s', v) ==> InLine(s, v)
      ensures v in s.sh.statuses ==> v in s'.sh.statuses && s'.sh.statuses[v].fullname == s.sh.statuses[v].fullname
    {
      assert v in s.sh.podUpdates && v != u ==> s.sh.podUpdates[v] != w;
    }
    hide Local;
  }

  /** Such a step keeps the invariant if it keeps it for the pod it touches. */
  lemma LocalInv(s: System, s': System, u: UID, w: nat, kinds: bool)
    requires Sound(s, kinds) && Local(s, s', u, w)
    requires s'.sh.faults == {}
    requires s'.sh.startedStatic == s.sh.startedStatic && s'.sh.waitingStatic == s.sh.waitingStatic
    requires s'.workers[w].started == s.workers[w].started && s'.workers[w].unnamed == s.workers[w].unnamed
    requires s.sh.statuses[u].terminatingAt ==> s'.sh.statuses[u].terminatingAt
    requires !s'.sh.channels[w].closed && !s.workers[w].phase.Gone?
    requires PodFits(u, ViewOf(s', u)) && (kinds ==> KindFits(ViewOf(s', u)))
    ensures Sound(s', kinds)
  {
    LocalViews(s, s', u, w);
    LocalPods(s, s', u);
    hide PodFits, KindFits, ViewOf;
    LocalStatics(s, s', u, w);
  }

  /** All pods fit if the one that was touched does. */
  lemma LocalPods(s: System, s': System, u: UID)
    requires Inv(s) && PodFits(u, ViewOf(s', u))
    requires forall v :: v != u ==> ViewOf(s', v) == ViewOf(s, v)
    ensures forall v :: PodFits(v, ViewOf(s', v))
    ensures KindsFit(s) && KindFits(ViewOf(s', u)) ==> KindsFit(s')
  {
    hide StaticsFit;
    forall v ensures PodFits(v, ViewOf(s', v)) {
      if v != u { assert PodFits(v, ViewOf(s, v)); }
    }
    if KindsFit(s) && KindFits(ViewOf(s', u)) {
      forall v ensures KindFits(ViewOf(s', v)) {
        if v != u { assert KindFits(ViewOf(s, v)); }
      }
    }
  }

  lemma ReceiveInv(s: System, w: nat, kinds: bool)
    requires Sound(s, kinds) && Enabled(s, Receive(w))
    ensures Sound(Apply(s, Receive(w)), kinds)
  {
    hide Inv, KindsFit;
    LiveWorker(s, w);
    LiveKinds(s, w, kinds);
    var s' := Apply(s, Receive(w));
    var u := s.workers[w].uid;
    LocalInv(s, s', u, w, kinds);
  }

  lemma CacheFailsInv(s: System, w: nat, kinds: bool)
    requires Sound(s, kinds) && Enabled(s, CacheFails(w))
    ensures Sound(Apply(s, CacheFails(w)), kinds)
  {
    hide Inv, KindsFit;
    LiveWorker(s, w);
    LiveKinds(s, w, kinds);
    LocalInv(s, Apply(s, CacheFails(w)), s.workers[w].uid, w, kinds);
  }

  /** The worker gets the recorded context, which is not cancelled. */
  lemma ContextFits(u: UID, st: PodSyncStatus, c: Channel, w: Worker, undelivered: Option<PodWork>, id: nat)
    requires ActiveFits(u, st, c, w, undelivered) && w.phase.Ready?
    ensures var work := w.phase.work;
            var phase := if work.workType.TerminatingPodWork? then Acknowledging(work, Some(id)) else Running(work, Some(id));
            ActiveFits(u, st.(ctx := Some(Context(id, false))), c, w.(phase := phase), undelivered)
  {
  }

  lemma ContextFrame(s: Shared, u: UID)
    requires u in s.statuses
    ensures var (s', ctx) := ContextForWorker(s, u);
            && ctx.Some?
            && s' == s.(statuses := s.statuses[u := s.statuses[u].(ctx := Some(Context(ctx.value, false)))],
                        nextContext := s'.nextContext)
  {
    var st := s.statuses[u];
    if st.ctx.Some? && !st.ctx.value.cancelled {
      assert st.(ctx := Some(Context(st.ctx.value.id, false))) == st;
      assert s.statuses[u := st] == s.statuses;
    }
  }

  lemma TakeContextShape(s: System, w: nat)
    requires Inv(s) && Enabled(s, TakeContext(w))
    ensures var u, work, s' := s.workers[w].uid, s.workers[w].phase.work, Apply(s, TakeContext(w));
            u in s'.sh.statuses && s'.sh.statuses[u].ctx.Some?
    ensures var u, work, s' := s.workers[w].uid, s.workers[w].phase.work, Apply(s, TakeContext(w));
            var id := s'.sh.statuses[u].ctx.value.id;
            && s'.workers == s.workers[w := s.workers[w].(phase := if work.workType.TerminatingPodWork?
                                                                   then Acknowledging(work, Some(id))
                                                                   else Running(work, Some(id)))]
            && u in s.sh.statuses
            && s'.sh == s.sh.(statuses := s.sh.statuses[u := s.sh.statuses[u].(ctx := Some(Context(id, false)))],
                              nextContext := s'.sh.nextContext)
  {
    LiveWorker(s, w);
    ContextFrame(s.sh, s.workers[w].uid);
    hide Inv, ContextForWorker, NumbersFit, TokenFits;
  }

  lemma TakeContextInv(s: System, w: nat, kinds: bool)
    requires Sound(s, kinds) && Enabled(s, TakeContext(w))
    ensures Sound(Apply(s, TakeContext(w)), kinds)
  {
    LiveWorker(s, w);
    LiveKinds(s, w, kinds);
    TakeContextShape(s, w);
    var u, s' := s.workers[w].uid, Apply(s, TakeContext(w));
    assert s.workers[w].started && !s.sh.channels[w].closed;
    hide Inv, KindsFit, ActiveFits, Apply;
    ContextFits(u, s.sh.statuses[u], s.sh.channels[w], s.workers[w], ViewOf(s, u).undelivered,
                s'.sh.statuses[u].ctx.value.id);
    LocalInv(s, s', u, w, kinds);
  }

  lemma AcknowledgeInv(s: System, w: nat, kinds: bool)
    requires Sound(s, kinds) && Enabled(s, Acknowledge(w))
    ensures Sound(Apply(s, Acknowledge(w)), kinds)
  {
    hide Inv, KindsFit;
    LiveWorker(s, w);
    LiveKinds(s, w, kinds);
    LocalInv(s, Apply(s, Acknowledge(w)), s.workers[w].uid, w, kinds);
  }

  lemma ReturnInv(s: System, w: nat, outcome: Outcome, kinds: bool)
    requires Sound(s, kinds) && Enabled(s, Return(w, outcome))
    ensures Sound(Apply(s, Return(w, outcome)), kinds)
  {
    hide Inv, KindsFit;
    LiveWorker(s, w);
    LiveKinds(s, w, kinds);
    LocalInv(s, Apply(s, Return(w, outcome)), s.workers[w].uid, w, kinds);
  }

  lemma RequeueInv(s: System, w: nat, kinds: bool)
    requires Sound(s, kinds) && Enabled(s, Requeue(w))
    ensures Sound(Apply(s, Requeue(w)), kinds)
  {
    hide Inv, KindsFit;
    LiveWorker(s, w);
    LiveKinds(s, w, kinds);
    LocalInv(s, Apply(s, Requeue(w)), s.workers[w].uid, w, kinds);
  }

  // ---------------------------------------------------------------- the end of a worker

  /** u's worker is gone, its channel closed, its slots empty, and it is nobody's holder. */
  ghost predicate Retired(s: System, s': System, u: UID, w: nat) {
    && u in s.sh.podUpdates && s.sh.podUpdates[u] == w
    && w in s.workers && w in s.sh.channels
    && u in s.sh.statuses && u in s'.sh.statuses
    && s'.sh.podUpdates == s.sh.podUpdates - {u}
    && s'.sh.lastUndelivered == s.sh.lastUndelivered - {u}
    && s'.sh.nextChannel == s.sh.nextChannel
    && s'.workers == s.workers[w := s.workers[w].(phase := Gone)]
    && s'.sh.channels == s.sh.channels[w := s.sh.channels[w].(closed := true)]
    && s'.sh.statuses == s.sh.statuses[u := s'.sh.statuses[u]]
    && s'.sh.statuses[u].finished && !s'.sh.statuses[u].working
    && LifecycleOrdered(s'.sh.statuses[u])
    && s'.sh.statuses[u].fullname == s.sh.statuses[u].fullname
    && s'.sh.waitingStatic == s.sh.waitingStatic
    && s'.sh.startedStatic == Release(s.sh, s.sh.statuses[u].fullname, u).startedStatic
    && s'.sh.faults == {}
  }

  lemma RetiredOther(s: System, s': System, u: UID, w: nat, v: UID)
    requires Paired(s) && Retired(s, s', u, w) && v != u
    ensures ViewOf(s', v) == ViewOf(s, v)
    ensures HoldsName(s', v) <==> HoldsName(s, v)
    ensures InLine(s', v) <==> InLine(s, v)
  {
    assert v in s.sh.podUpdates ==> s.sh.podUpdates[v] != w;
  }

  lemma RetiredPods(s: System, s': System, u: UID, w: nat)
    requires Inv(s) && Retired(s, s', u, w)
    ensures Paired(s') && forall v :: PodFits(v, ViewOf(s', v))
    ensures KindsFit(s) ==> KindsFit(s')
  {
    assert ViewOf(s', u) == PodView(Some(s'.sh.statuses[u]), None, None);
    forall v | v != u ensures ViewOf(s', v) == ViewOf(s, v) {
      RetiredOther(s, s', u, w, v);
    }
    LocalPods(s, s', u);
  }

  lemma RetiredStatics(s: System, s': System, u: UID, w: nat)
    requires Paired(s) && StaticsFit(s) && Retired(s, s', u, w)
    ensures StaticsFit(s')
  {
    forall f | f in s'.sh.startedStatic
      ensures HoldsName(s', s'.sh.startedStatic[f])
      ensures s'.sh.statuses[s'.sh.startedStatic[f]].fullname == f
    {
      RetiredOther(s, s', u, w, s'.sh.startedStatic[f]);
    }
    forall v | HoldsName(s', v)
      ensures s'.sh.statuses[v].fullname in s'.sh.startedStatic
      ensures s'.sh.startedStatic[s'.sh.statuses[v].fullname] == v
    {
      RetiredOther(s, s', u, w, v);
    }
    forall v | InLine(s', v) ensures v in Waiting(s'.sh, s'.sh.statuses[v].fullname) {
      RetiredOther(s, s', u, w, v);
    }
  }

  lemma RetiredFaultless(s: System, s': System, u: UID, w: nat)
    requires Retired(s, s', u, w)
    ensures s'.sh.faults == {}
  {
  }

  lemma RetiredInv(s: System, s': System, u: UID, w: nat, kinds: bool)
    requires Sound(s, kinds) && Retired(s, s', u, w)
    ensures Sound(s', kinds)
  {
    hide Retired, PodFits, KindFits;
    RetiredPods(s, s', u, w);
    RetiredStatics(s, s', u, w);
    assert s'.sh.faults == {} by { RetiredFaultless(s, s', u, w); }
  }

  /** What the three ways to end a worker come to when nothing is amiss. */
  function Ended(s: Shared, u: UID): Shared
    requires u in s.statuses && u in s.podUpdates && s.podUpdates[u] in s.channels
  {
    var st, c := s.statuses[u], s.podUpdates[u];
    s.(podUpdates := s.podUpdates - {u}, lastUndelivered := s.lastUndelivered - {u},
       channels := s.channels[c := s.channels[c].(closed := true)],
       statuses := s.statuses[u := st.(terminatedAt := true, finished := true, working := false)],
       startedStatic := Release(s, st.fullname, u).startedStatic)
  }

  /** u's channel is there and open. */
  predicate Linked(s: Shared, u: UID) {
    && u in s.statuses && u in s.podUpdates && s.podUpdates[u] in s.channels
    && !s.channels[s.podUpdates[u]].closed
  }

  lemma CleanupShape(s: Shared, u: UID)
    requires u in s.podUpdates && s.podUpdates[u] in s.channels && !s.channels[s.podUpdates[u]].closed
    ensures var c := s.podUpdates[u];
            CleanupPodUpdates(s, u) == s.(podUpdates := s.podUpdates - {u}, lastUndelivered := s.lastUndelivered - {u},
                                          channels := s.channels[c := s.channels[c].(closed := true)])
  {
  }

  lemma FinishShape(s: Shared, u: UID, terminatedAt: bool)
    requires u in s.statuses
    ensures var st := s.statuses[u];
            Finish(s, u, terminatedAt, false)
            == s.(statuses := s.statuses[u := st.(terminatedAt := terminatedAt, finished := true, working := false)],
                  startedStatic := Release(s, st.fullname, u).startedStatic)
  {
  }

  lemma TerminatedEnds(s: Shared, u: UID)
    requires Linked(s, u) && s.statuses[u].terminatingAt && s.statuses[u].terminatedAt
    ensures CompleteTerminated(s, u) == Ended(s, u)
  {
    CleanupShape(s, u);
    FinishShape(CleanupPodUpdates(s, u), u, true);
    hide CleanupPodUpdates, Finish;
  }

  lemma UnstartedEnds(s: Shared, u: UID)
    requires Linked(s, u) && s.statuses[u].terminatingAt && !s.statuses[u].terminatedAt
    ensures CompleteUnstartedTerminated(s, u) == Ended(s, u)
  {
    CleanupShape(s, u);
    FinishShape(CleanupPodUpdates(s, u), u, true);
    hide CleanupPodUpdates, Finish;
  }

  lemma RuntimeEnds(s: Shared, u: UID)
    requires Linked(s, u) && s.statuses[u].terminatingAt
    ensures CompleteTerminatingRuntimePod(s, u) == Ended(s, u)
  {
    FinishShape(s, u, true);
    var s1 := Finish(s, u, true, false);
    hide Finish;
    CleanupShape(s1, u);
    hide CleanupPodUpdates;
  }

  lemma EndedRetires(s: System, u: UID, w: nat)
    requires Linked(s.sh, u) && s.sh.podUpdates[u] == w && w in s.workers && s.sh.faults == {}
    requires LifecycleOrdered(s.sh.statuses[u]) && s.sh.statuses[u].terminatingAt
    ensures Retired(s, System(Ended(s.sh, u), s.workers[w := s.workers[w].(phase := Gone)]), u, w)
  {
  }

  lemma GiveUpInv(s: System, w: nat, kinds: bool)
    requires Sound(s, kinds) && Enabled(s, GiveUp(w))
    ensures Sound(Apply(s, GiveUp(w)), kinds)
  {
    LiveWorker(s, w);
    hide Inv, KindsFit, Retired, NumbersFit, TokenFits;
    var u := s.workers[w].uid;
    UnstartedEnds(s.sh, u);
    hide CompleteUnstartedTerminated, Ended, PhaseFits;
    EndedRetires(s, u, w);
    RetiredInv(s, Apply(s, GiveUp(w)), u, w, kinds);
  }

  lemma CompleteRetires(s: System, w: nat)
    requires Inv(s) && Enabled(s, Complete(w)) && s.workers[w].phase.outcome.Done?
    requires var work := s.workers[w].phase.work;
             work.workType.TerminatedPodWork? || (work.workType.TerminatingPodWork? && work.runtime)
    ensures Retired(s, Apply(s, Complete(w)), s.workers[w].uid, w)
  {
    LiveWorker(s, w);
    hide Inv, Retired, NumbersFit, TokenFits;
    var u := s.workers[w].uid;
    if s.workers[w].phase.work.workType.TerminatedPodWork? {
      TerminatedEnds(s.sh, u);
    } else {
      RuntimeEnds(s.sh, u);
    }
    hide CompleteTerminated, CompleteTerminatingRuntimePod, Ended, PhaseFits;
    assert Apply(s, Complete(w)) == System(Ended(s.sh, u), s.workers[w := s.workers[w].(phase := Gone)]);
    EndedRetires(s, u, w);
  }

  lemma CompleteInv(s: System, w: nat, kinds: bool)
    requires Sound(s, kinds) && Enabled(s, Complete(w))
    ensures Sound(Apply(s, Complete(w)), kinds)
  {
    var Returned(work, _, outcome) := s.workers[w].phase;
    hide Inv, KindsFit, Apply, Retired;
    if outcome.Done? && (work.workType.TerminatedPodWork? || (work.workType.TerminatingPodWork? && work.runtime)) {
      CompleteRetires(s, w);
      RetiredInv(s, Apply(s, Complete(w)), s.workers[w].uid, w, kinds);
    } else {
      assert Apply(s, Complete(w)).workers[w].phase.Requeuing? by { RequeuesAfter(s, w); }
      PhaseTransitionInv(s, w, kinds);
    }
  }

  lemma RequeuesAfter(s: System, w: nat)
    requires Enabled(s, Complete(w))
    requires var Returned(work, _, outcome) := s.workers[w].phase;
             !(outcome.Done? && (work.workType.TerminatedPodWork? || (work.workType.TerminatingPodWork? && work.runtime)))
    ensures Apply(s, Complete(w)).workers[w].phase.Requeuing?
  {
  }

  lemma PhaseTransitionInv(s: System, w: nat, kinds: bool)
    requires Sound(s, kinds) && Enabled(s, Complete(w))
    requires Apply(s, Complete(w)).workers[w].phase.Requeuing?
    ensures Sound(Apply(s, Complete(w)), kinds)
  {
    var Returned(work, _, outcome) := s.workers[w].phase;
    hide Inv, KindsFit, CompleteSync, CompleteTerminating;
    if !outcome.Done? || (work.workType.SyncPodWork? && !outcome.isTerminal) {
      RequeuedInv(s, w, kinds);
    } else if work.workType.SyncPodWork? {
      CompleteSyncInv(s, w, kinds);
    } else {
      CompleteTerminatingInv(s, w, kinds);
    }
  }

  lemma RequeuedInv(s: System, w: nat, kinds: bool)
    requires Sound(s, kinds) && Enabled(s, Complete(w))
    requires Apply(s, Complete(w)) == Move(s, s.sh, w, s.workers[w].(phase := Requeuing(s.workers[w].phase.work.pod, s.workers[w].phase.ctx)))
    ensures Sound(Apply(s, Complete(w)), kinds)
  {
    hide Inv, KindsFit, ApplyComplete;
    LiveWorker(s, w);
    LiveKinds(s, w, kinds);
    hide NumbersFit;
    LocalInv(s, Apply(s, Complete(w)), s.workers[w].uid, w, kinds);
  }

  /** The worker goes on with an item of its own in the slot. */
  lemma CompletedFits(u: UID, st: PodSyncStatus, c: Channel, w: Worker, undelivered: Option<PodWork>,
                      st': PodSyncStatus, x: PodWork)
    requires LifecycleOrdered(st) && ActiveFits(u, st, c, w, undelivered) && w.phase.Returned?
    requires st'.working == st.working && st'.ctx == st.ctx && st'.startedTerminating && st'.terminatingAt
    requires x.pod.uid == u && x.number == c.issued + 1 && TypeFits(st', x.workType) && !x.workType.SyncPodWork?
    ensures var c', w' := c.(issued := c.issued + 1), w.(phase := Requeuing(w.phase.work.pod, w.phase.ctx));
            && ActiveFits(u, st', c', w', Some(x))
            && (LinkKinds(st, c, w, undelivered) ==> LinkKinds(st', c', w', Some(x)))
  {
  }

  lemma ParkShape(s: Shared, u: UID, work: PodWork)
    requires u in s.podUpdates && s.podUpdates[u] in s.channels
    ensures var c := s.podUpdates[u]; var n := s.channels[c].issued + 1;
            Park(s, u, work) == s.(lastUndelivered := s.lastUndelivered[u := work.(number := n)],
                                   channels := s.channels[c := s.channels[c].(issued := n)])
  {
  }

  /** A step of u's worker that gives u a new status and an item in its slot. */
  lemma ParkedInv(s: System, s': System, u: UID, w: nat, st: PodSyncStatus, x: PodWork, kinds: bool)
    requires Sound(s, kinds) && Live(s, w) && s.workers[w].uid == u && s.workers[w].phase.Returned? && w in s.sh.channels
    requires u in s.sh.statuses && u in s.sh.podUpdates && s.sh.podUpdates[u] == w
    requires s' == System(s.sh.(statuses := s.sh.statuses[u := st], completions := s'.sh.completions,
                                lastUndelivered := s.sh.lastUndelivered[u := x],
                                channels := s.sh.channels[w := s.sh.channels[w].(issued := s.sh.channels[w].issued + 1)]),
                          s.workers[w := s.workers[w].(phase := Requeuing(s.workers[w].phase.work.pod, s.workers[w].phase.ctx))])
    requires st.working == s.sh.statuses[u].working && st.ctx == s.sh.statuses[u].ctx && st.fullname == s.sh.statuses[u].fullname
    requires LifecycleOrdered(st) && !st.finished && st.startedTerminating && st.terminatingAt
    requires x.pod.uid == u && x.number == s.sh.channels[w].issued + 1 && TypeFits(st, x.workType) && !x.workType.SyncPodWork?
    ensures Sound(s', kinds)
  {
    LiveWorker(s, w);
    LiveKinds(s, w, kinds);
    CompletedFits(u, s.sh.statuses[u], s.sh.channels[w], s.workers[w], Undelivered(s.sh, u), st, x);
    hide Inv, KindsFit, LifecycleOrdered, TypeFits;
    assert ViewOf(s', u) == PodView(Some(st), Some(Link(s'.sh.channels[w], s'.workers[w])), Some(x));
    assert !s'.sh.channels[w].closed;
    hide ActiveFits, LinkKinds;
    LocalInv(s, s', u, w, kinds);
  }

  predicate Live(s: System, w: nat) {
    w in s.workers && !s.workers[w].phase.Gone?
  }

  lemma CompleteSyncInv(s: System, w: nat, kinds: bool)
    requires Sound(s, kinds) && Enabled(s, Complete(w))
    requires s.workers[w].phase.outcome == Done(true) && s.workers[w].phase.work.workType.SyncPodWork?
    ensures Sound(Apply(s, Complete(w)), kinds)
  {
    LiveWorker(s, w);
    var u, work := s.workers[w].uid, s.workers[w].phase.work;
    var st := s.sh.statuses[u].(terminatingAt := true, startedTerminating := true);
    hide Inv, KindsFit, NumbersFit, Park;
    ParkShape(SetStatus(s.sh, u, st), u, BareWork(TerminatingPodWork, work.pod));
    ParkedInv(s, Apply(s, Complete(w)), u, w, st,
              BareWork(TerminatingPodWork, work.pod).(number := s.sh.channels[w].issued + 1), kinds);
  }

  lemma CompleteTerminatingInv(s: System, w: nat, kinds: bool)
    requires Sound(s, kinds) && Enabled(s, Complete(w))
    requires s.workers[w].phase.outcome.Done? && !s.workers[w].phase.work.runtime
    requires s.workers[w].phase.work.workType.TerminatingPodWork?
    ensures Sound(Apply(s, Complete(w)), kinds)
  {
    LiveWorker(s, w);
    var u, work := s.workers[w].uid, s.workers[w].phase.work;
    var st := s.sh.statuses[u].(terminatedAt := true, notifyPostTerminating := [], statusPostTerminating := []);
    hide Inv, KindsFit, NumbersFit, Park;
    ParkShape(SetStatus(s.sh, u, st).(completions := s.sh.completions + multiset(s.sh.statuses[u].notifyPostTerminating)),
              u, BareWork(TerminatedPodWork, work.pod));
    ParkedInv(s, Apply(s, Complete(w)), u, w, st,
              BareWork(TerminatedPodWork, work.pod).(number := s.sh.channels[w].issued + 1), kinds);
  }

  // ---------------------------------------------------------------- admission

  /** A step that decides about letting u in. */
  ghost predicate Admitted(s: System, s': System, u: UID, w: nat) {
    && Local(s, s', u, w) && s'.sh.faults == {}
    && !s'.sh.channels[w].closed && !s.workers[w].phase.Gone?
    && PodFits(u, ViewOf(s', u))
    && !s.workers[w].started
    && s'.sh.statuses[u].terminatingAt == s.sh.statuses[u].terminatingAt
  }

  /** It gives u its name if it lets u in as a static pod, and drops nobody who is in line. */
  ghost predicate AdmittedInTurn(s: System, s': System, u: UID)
    requires u in s.sh.statuses
  {
    && u in s'.sh.statuses
    && s'.sh.startedStatic == (if HoldsName(s', u) then s.sh.startedStatic[s.sh.statuses[u].fullname := u]
                               else s.sh.startedStatic)
    && (HoldsName(s', u) ==> s.sh.statuses[u].fullname !in s.sh.startedStatic)
    && (forall v :: InLine(s', v) ==> v in Waiting(s'.sh, s'.sh.statuses[v].fullname))
  }

  lemma AdmittedOther(s: System, s': System, u: UID, w: nat, v: UID)
    requires Paired(s) && Local(s, s', u, w) && v != u
    ensures HoldsName(s', v) <==> HoldsName(s, v)
    ensures InLine(s', v) <==> InLine(s, v)
    ensures v in s.sh.statuses <==> v in s'.sh.statuses
    ensures v in s.sh.statuses ==> s'.sh.statuses[v] == s.sh.statuses[v]
  {
    assert v in s.sh.podUpdates ==> s.sh.podUpdates[v] != w;
  }

  lemma AdmittedStatics(s: System, s': System, u: UID, w: nat)
    requires Paired(s) && StaticsFit(s) && Admitted(s, s', u, w) && AdmittedInTurn(s, s', u)
    ensures StaticsFit(s')
  {
    forall f | f in s'.sh.startedStatic
      ensures HoldsName(s', s'.sh.startedStatic[f])
      ensures s'.sh.statuses[s'.sh.startedStatic[f]].fullname == f
    {
      if s'.sh.startedStatic[f] == u {
        assert !HoldsName(s, u);
      } else {
        AdmittedOther(s, s', u, w, s'.sh.startedStatic[f]);
      }
    }
    forall v | HoldsName(s', v)
      ensures s'.sh.statuses[v].fullname in s'.sh.startedStatic
      ensures s'.sh.startedStatic[s'.sh.statuses[v].fullname] == v
    {
      if v != u { AdmittedOther(s, s', u, w, v); }
    }
  }

  lemma AdmittedInv(s: System, s': System, u: UID, w: nat, kinds: bool)
    requires Sound(s, kinds) && Admitted(s, s', u, w) && AdmittedInTurn(s, s', u)
    requires kinds ==> KindFits(ViewOf(s', u))
    ensures Sound(s', kinds)
  {
    LocalViews(s, s', u, w);
    LocalPods(s, s', u);
    hide PodFits, KindFits, ViewOf;
    AdmittedStatics(s, s', u, w);
  }

  /** Whoever is in line after the decision was in line before, and still is on its list. */
  lemma LineKept(s: System, w: nat, v: UID)
    requires Inv(s) && Enabled(s, TryStart(w))
    requires InLine(Apply(s, TryStart(w)), v)
    ensures var s' := Apply(s, TryStart(w)); v in Waiting(s'.sh, s'.sh.statuses[v].fullname)
  {
    LiveWorker(s, w);
    var s' := Apply(s, TryStart(w));
    var u := s.workers[w].uid;
    AllowedLocally(s, w);
    hide PodFits, ViewOf;
    if v != u { AdmittedOther(s, s', u, w, v); }
    assert InLine(s, v);
    hide Local, AllowPodStart;
    LineEligible(s, v);
    AllowKeepsLine(s.sh, s.workers[w].phase.work.pod, s.sh.statuses[v].fullname, v);
  }

  lemma LineEligible(s: System, v: UID)
    requires Inv(s) && InLine(s, v)
    ensures Eligible(s.sh, v) && v in Waiting(s.sh, s.sh.statuses[v].fullname)
  {
    assert PodFits(v, ViewOf(s, v));
  }

  /** What the decision does to the waiting lists: it trims the one of this name if some pod
      on it is eligible, and takes that pod off it to let it in. */
  lemma AllowTrims(s: Shared, f: FullName, u: UID)
    ensures var (s', granted) := AllowStaticPodStart(s, f, u);
            var list, i := Waiting(s, f), FirstEligible(s, Waiting(s, f));
            && (forall g :: g != f ==> Waiting(s', g) == Waiting(s, g))
            && Waiting(s', f) == (if f in s.startedStatic || i == |list| then list
                                  else if granted then list[i + 1..]
                                  else list[i..])
            && (f !in s.startedStatic && granted && i < |list| ==> list[i] == u)
  {
    hide AllowStaticPodStart, FirstEligible, Waiting;
    forall g ensures Waiting(AllowStaticPodStart(s, f, u).0, g)
                     == if g == f then Trimmed(s, f, u) else Waiting(s, g) {
      AllowTrimsAt(s, f, u, g);
    }
    AllowTrimsAt(s, f, u, f);
  }

  /** What is left of f's list. */
  function Trimmed(s: Shared, f: FullName, u: UID): seq<UID> {
    var list, i := Waiting(s, f), FirstEligible(s, Waiting(s, f));
    if f in s.startedStatic || i == |list| then list
    else if AllowStaticPodStart(s, f, u).1 then list[i + 1..]
    else list[i..]
  }

  lemma AllowTrimsAt(s: Shared, f: FullName, u: UID, g: FullName)
    ensures Waiting(AllowStaticPodStart(s, f, u).0, g) == if g == f then Trimmed(s, f, u) else Waiting(s, g)
    ensures var list, i := Waiting(s, f), FirstEligible(s, Waiting(s, f));
            f !in s.startedStatic && AllowStaticPodStart(s, f, u).1 && i < |list| ==> list[i] == u
  {
    hide FirstEligible, Eligible;
    var list, i := Waiting(s, f), FirstEligible(s, Waiting(s, f));
    var rest := if i < |list| then list[i + 1..] else list;
    SetWaitingSets(s, f, rest, s.startedStatic[f := u], g);
    ListSets(s, f, list[i..], g);
    assert SetWaiting(s, f, rest).startedStatic == s.startedStatic;
    hide SetWaiting, Waiting;
  }

  lemma SetWaitingSets(s: Shared, f: FullName, list: seq<UID>, started: map<FullName, UID>, g: FullName)
    ensures Waiting(SetWaiting(s, f, list).(startedStatic := started), g) == if g == f then list else Waiting(s, g)
  {
    var s' := SetWaiting(s, f, list).(startedStatic := started);
    if list == [] {
      assert s'.waitingStatic == s.waitingStatic - {f};
      assert g in s'.waitingStatic <==> g in s.waitingStatic && g != f;
    } else {
      assert s'.waitingStatic == s.waitingStatic[f := list];
    }
  }

  lemma ListSets(s: Shared, f: FullName, list: seq<UID>, g: FullName)
    ensures Waiting(s.(waitingStatic := s.waitingStatic[f := list]), g) == if g == f then list else Waiting(s, g)
  {
  }

  lemma AllowKeepsLine(s: Shared, pod: Pod, f: FullName, v: UID)
    requires pod.uid in s.statuses && Eligible(s, v) && v in Waiting(s, f)
    requires pod.isStatic && v == pod.uid ==> !AllowPodStart(s, pod).1.Start?
    ensures v in Waiting(AllowPodStart(s, pod).0, f)
  {
    if pod.isStatic && !s.statuses[pod.uid].terminatingAt {
      AllowTrims(s, s.statuses[pod.uid].fullname, pod.uid);
      var s', granted := AllowStaticPodStart(s, s.statuses[pod.uid].fullname, pod.uid).0,
                         AllowStaticPodStart(s, s.statuses[pod.uid].fullname, pod.uid).1;
      assert granted <==> AllowPodStart(s, pod).1.Start?;
      assert Waiting(AllowPodStart(s, pod).0, f) == Waiting(s', f);
      hide AllowStaticPodStart, AllowPodStart;
      if f == s.statuses[pod.uid].fullname && f !in s.startedStatic {
        var list, i := Waiting(s, f), FirstEligible(s, Waiting(s, f));
        var k :| 0 <= k < |list| && list[k] == v;
        assert i <= k;
        if granted {
          assert list[i + 1..][k - i - 1] == v;
        } else {
          assert list[i..][k - i] == v;
        }
      }
    }
  }

  lemma AllowPodStartFrame(s: Shared, pod: Pod)
    requires pod.uid in s.statuses
    ensures var (s', admission) := AllowPodStart(s, pod);
            && s' == s.(waitingStatic := s'.waitingStatic, startedStatic := s'.startedStatic,
                        statuses := if admission.Later?
                                    then s.statuses[pod.uid := s.statuses[pod.uid].(working := false)]
                                    else s.statuses)
            && (admission.Start? && pod.isStatic ==>
                  var f := s.statuses[pod.uid].fullname;
                  (f in s.startedStatic ==> s.startedStatic[f] == pod.uid) && s'.startedStatic == s.startedStatic[f := pod.uid])
            && (!(admission.Start? && pod.isStatic) ==> s'.startedStatic == s.startedStatic)
            && (admission.Never? ==> pod.isStatic && s.statuses[pod.uid].terminatingAt)
            && (admission.Later? ==> pod.isStatic)
            && (admission.Start? && pod.isStatic ==> !s.statuses[pod.uid].terminatingAt)
  {
  }

  lemma AllowedLocally(s: System, w: nat)
    requires Inv(s) && Enabled(s, TryStart(w))
    ensures var s', u := Apply(s, TryStart(w)), s.workers[w].uid;
            && Local(s, s', u, w)
            && s'.sh.faults == {}
            && s'.sh.channels == s.sh.channels
            && s'.sh.lastUndelivered == s.sh.lastUndelivered
            && s'.sh.statuses[u].terminatingAt == s.sh.statuses[u].terminatingAt
            && PodFits(u, ViewOf(s', u))
  {
    LiveWorker(s, w);
    var u, work := s.workers[w].uid, s.workers[w].phase.work;
    assert work.pod.uid == u;
    AllowPodStartFrame(s.sh, work.pod);
    var intruder := Intruder(s.sh, u);
    AllowedFits(u, s.sh.statuses[u], s.sh.channels[w], s.workers[w], Undelivered(s.sh, u), intruder, !work.pod.isStatic);
    hide Inv, ActiveFits, LifecycleOrdered, AllowPodStart, Intruder;
  }

  /** The worker is let in, told to wait, or refused. */
  lemma AllowedFits(u: UID, st: PodSyncStatus, c: Channel, w: Worker, undelivered: Option<PodWork>,
                    intruder: Option<PodWork>, unnamed: bool)
    requires LifecycleOrdered(st) && ActiveFits(u, st, c, w, undelivered) && w.phase.Received?
    requires undelivered.Some? && undelivered.value.workType.SyncPodWork? && st.terminatingAt ==> intruder == undelivered
    ensures var work := w.phase.work;
            && ActiveFits(u, st, c, w.(phase := Ready(work), started := true, intruder := intruder, unnamed := unnamed), undelivered)
            && ActiveFits(u, st.(working := false), c, w.(phase := Idle), undelivered)
            && (st.terminatingAt ==> ActiveFits(u, st, c, w.(phase := Unstartable(work)), undelivered))
            && !c.closed && !w.started
  {
  }

  lemma TryStartInv(s: System, w: nat, kinds: bool)
    requires Sound(s, kinds) && Enabled(s, TryStart(w))
    ensures Sound(Apply(s, TryStart(w)), kinds)
  {
    LiveWorker(s, w);
    AllowedLocally(s, w);
    var s', u := Apply(s, TryStart(w)), s.workers[w].uid;
    TryStartInTurn(s, w);
    if kinds { TryStartKinds(s, w); }
    hide Apply, ViewOf, PodFits, KindFits, KindsFit;
    AdmittedInv(s, s', u, w, kinds);
  }

  /** A pod let in on a static pod's item takes its name, which was free. */
  lemma TryStartInTurn(s: System, w: nat)
    requires Inv(s) && Enabled(s, TryStart(w))
    ensures var s', u := Apply(s, TryStart(w)), s.workers[w].uid;
            u in s.sh.statuses && AdmittedInTurn(s, s', u)
  {
    LiveWorker(s, w);
    var s', u := Apply(s, TryStart(w)), s.workers[w].uid;
    forall v | InLine(s', v) ensures v in Waiting(s'.sh, s'.sh.statuses[v].fullname) {
      LineKept(s, w, v);
    }
    var pod := s.workers[w].phase.work.pod;
    assert pod.uid == u && !s.workers[w].started && !HoldsName(s, u);
    AllowPodStartFrame(s.sh, pod);
    assert s.sh.statuses[u].fullname in s.sh.startedStatic ==> s.sh.startedStatic[s.sh.statuses[u].fullname] != u;
    hide Inv, ActiveFits, LifecycleOrdered, AllowPodStart, InLine, Waiting;
  }

  lemma TryStartKinds(s: System, w: nat)
    requires Inv(s) && KindsFit(s) && Enabled(s, TryStart(w))
    ensures KindFits(ViewOf(Apply(s, TryStart(w)), s.workers[w].uid))
  {
    LiveWorker(s, w);
    LiveKinds(s, w, true);
    AllowedLocally(s, w);
    AllowPodStartFrame(s.sh, s.workers[w].phase.work.pod);
    hide Inv, KindsFit, PodFits, AllowPodStart;
  }

  // ---------------------------------------------------------------- UpdatePod

  /** All that asking a pod to terminate can set. */
  lemma RequestShape(st: PodSyncStatus, pod: Pod, runtime: bool, ut: SyncPodType, kill: Option<KillPodOptions>)
    ensures var asked := RequestTermination(st, pod, runtime, ut, kill);
            && asked == st.(terminatingAt := asked.terminatingAt, deleted := asked.deleted, evicted := asked.evicted)
            && (st.terminatingAt ==> asked == st)
            && (st.deleted ==> asked.deleted) && (st.evicted ==> asked.evicted)
  {
  }

  /** Facts about the request's effect on the status alone. */
  lemma DecideFacts(st: PodSyncStatus, pod: Pod, runtime: bool, ut: SyncPodType, kill: Option<KillPodOptions>)
    requires LifecycleOrdered(st) && !st.finished
    ensures var v := Decide(st, pod, runtime, ut, kill);
            && Keeps(st, v)
            && v.status == st.(terminatingAt := v.status.terminatingAt, deleted := v.status.deleted,
                               evicted := v.status.evicted, gracePeriod := v.status.gracePeriod,
                               notifyPostTerminating := v.status.notifyPostTerminating,
                               statusPostTerminating := v.status.statusPostTerminating)
            && v.work.pod == pod
  {
    RequestShape(st, pod, runtime, ut, kill);
    hide RequestTermination, GracePeriod.Effective, GracePeriod.Shortened, Appended;
  }

  /** A step that only changes the status of a pod without a worker. */
  lemma WorkerlessInv(s: System, s': System, u: UID, kinds: bool)
    requires Sound(s, kinds) && u !in s.sh.podUpdates && u !in s.sh.lastUndelivered
    requires u in s.sh.statuses ==> s.sh.statuses[u].finished
    requires u in s'.sh.statuses && s'.sh == SetStatus(s.sh, u, s'.sh.statuses[u])
    requires s'.workers == s.workers
    requires s'.sh.statuses[u].finished && !s'.sh.statuses[u].working && LifecycleOrdered(s'.sh.statuses[u])
    ensures Sound(s', kinds)
  {
    assert ViewOf(s', u) == PodView(Some(s'.sh.statuses[u]), None, None);
    assert forall v :: v != u ==> ViewOf(s', v) == ViewOf(s, v);
    LocalPods(s, s', u);
    hide PodFits, KindFits, ViewOf;
    WorkerlessStatics(s, s', u);
  }

  lemma WorkerlessStatics(s: System, s': System, u: UID)
    requires StaticsFit(s) && u !in s.sh.podUpdates
    requires u in s'.sh.statuses && s'.sh == SetStatus(s.sh, u, s'.sh.statuses[u]) && s'.workers == s.workers
    ensures StaticsFit(s')
  {
    assert forall v :: HoldsName(s', v) <==> v != u && HoldsName(s, v);
    assert forall v :: InLine(s', v) ==> v != u && InLine(s, v);
    assert !HoldsName(s, u);
  }

  /** A pod seen for the first time gets a channel, a worker and its first item. */
  ghost predicate Created(s: System, s': System, u: UID, isStatic: bool) {
    && u !in s.sh.statuses && u in s'.sh.statuses
    && u !in s.sh.podUpdates && u !in s.sh.lastUndelivered
    && var w := s.sh.nextChannel;
    && w !in s.workers && w in s'.workers && w in s'.sh.channels
    && s'.sh.podUpdates == s.sh.podUpdates[u := w]
    && s'.sh.channels == s.sh.channels[w := s'.sh.channels[w]] && !s'.sh.channels[w].closed
    && s'.sh.nextChannel == w + 1
    && s'.workers == s.workers[w := Worker(u, isStatic, false, 0, Idle)]
    && s'.sh.statuses == s.sh.statuses[u := s'.sh.statuses[u]]
    && s'.sh.lastUndelivered == s.sh.lastUndelivered
    && s'.sh.startedStatic == s.sh.startedStatic
    && s'.sh.faults == s.sh.faults
    && (var f := s'.sh.statuses[u].fullname;
        s'.sh.waitingStatic == if isStatic then s.sh.waitingStatic[f := Waiting(s.sh, f) + [u]] else s.sh.waitingStatic)
    && PodFits(u, ViewOf(s', u))
  }

  lemma CreatedOther(s: System, s': System, u: UID, isStatic: bool, v: UID)
    requires Inv(s) && Created(s, s', u, isStatic) && v != u
    ensures ViewOf(s', v) == ViewOf(s, v)
    ensures HoldsName(s', v) <==> HoldsName(s, v)
    ensures InLine(s', v) <==> InLine(s, v)
  {
    assert v in s.sh.podUpdates ==> s.sh.podUpdates[v] in s.workers;
  }

  lemma CreatedStatics(s: System, s': System, u: UID, isStatic: bool)
    requires Inv(s) && Created(s, s', u, isStatic)
    ensures StaticsFit(s')
  {
    forall f | f in s'.sh.startedStatic
      ensures HoldsName(s', s'.sh.startedStatic[f])
      ensures s'.sh.statuses[s'.sh.startedStatic[f]].fullname == f
    {
      assert HoldsName(s, s.sh.startedStatic[f]);
      CreatedOther(s, s', u, isStatic, s'.sh.startedStatic[f]);
    }
    forall v | HoldsName(s', v)
      ensures s'.sh.statuses[v].fullname in s'.sh.startedStatic
      ensures s'.sh.startedStatic[s'.sh.statuses[v].fullname] == v
    {
      CreatedOther(s, s', u, isStatic, v);
    }
    forall v | InLine(s', v) ensures v in Waiting(s'.sh, s'.sh.statuses[v].fullname) {
      var f := s'.sh.statuses[v].fullname;
      if v == u {
        assert Waiting(s'.sh, f)[|Waiting(s.sh, f)|] == u;
      } else {
        CreatedOther(s, s', u, isStatic, v);
        assert v in Waiting(s.sh, f);
      }
    }
  }

  lemma CreatedInv(s: System, s': System, u: UID, isStatic: bool, kinds: bool)
    requires Sound(s, kinds) && Created(s, s', u, isStatic)
    requires kinds ==> KindFits(ViewOf(s', u))
    ensures Sound(s', kinds)
  {
    hide PodFits, KindFits, ViewOf;
    forall v | v != u ensures ViewOf(s', v) == ViewOf(s, v) {
      CreatedOther(s, s', u, isStatic, v);
    }
    LocalPods(s, s', u);
    CreatedStatics(s, s', u, isStatic);
  }

  /** A request for a finished pod, or for one that is recorded as finished right away, at
      most asks for its restart. */
  lemma FinishedShape(s: Shared, o: UpdatePodOptions, cacheTerminal: bool)
    requires o.WellFormed() && !(o.IsRuntime() && !o.updateType.SyncPodKill?)
    requires Register(s, o.Target(), o.IsRuntime(), cacheTerminal).statuses[o.Target().uid].finished
    ensures var u := o.Target().uid;
            var st := Register(s, o.Target(), o.IsRuntime(), cacheTerminal).statuses[u];
            var s' := UpdatePod(s, o, cacheTerminal);
            && u in s'.statuses && s' == SetStatus(s, u, s'.statuses[u])
            && (s'.statuses[u] == st || s'.statuses[u] == st.(restartRequested := true))
  {
    var u := o.Target().uid;
    hide Decide, Dispatch, EnsureWorker, RequestTermination, CloseCompletion;
    var s1 := Register(s, o.Target(), o.IsRuntime(), cacheTerminal);
    RegisterSets(s, o.Target(), o.IsRuntime(), cacheTerminal);
    hide Register;
    forall st ensures SetStatus(s1, u, st) == SetStatus(s, u, st) {
      assert s.statuses[u := s1.statuses[u]][u := st] == s.statuses[u := st];
    }
  }

  lemma RegisterSets(s: Shared, pod: Pod, runtime: bool, cacheTerminal: bool)
    ensures var s1 := Register(s, pod, runtime, cacheTerminal);
            pod.uid in s1.statuses && s1 == SetStatus(s, pod.uid, s1.statuses[pod.uid])
  {
    if pod.uid in s.statuses {
      assert s.statuses[pod.uid := s.statuses[pod.uid]] == s.statuses;
    }
  }

  lemma UpdateFinishedInv(s: System, o: UpdatePodOptions, cacheTerminal: bool, kinds: bool)
    requires Sound(s, kinds) && o.WellFormed()
    requires !(o.IsRuntime() && !o.updateType.SyncPodKill?)
    requires Register(s.sh, o.Target(), o.IsRuntime(), cacheTerminal).statuses[o.Target().uid].finished
    ensures Sound(ApplyUpdate(s, o, cacheTerminal), kinds)
  {
    var u := o.Target().uid;
    assert PodFits(u, ViewOf(s, u));
    hide Inv, KindsFit, ActiveFits, UpdatePod;
    FinishedShape(s.sh, o, cacheTerminal);
    WorkerlessInv(s, ApplyUpdate(s, o, cacheTerminal), u, kinds);
  }

  lemma UpdateInv(s: System, o: UpdatePodOptions, cacheTerminal: bool, kinds: bool)
    requires Sound(s, kinds) && o.WellFormed() && (kinds ==> SameKind(s, Update(o, cacheTerminal)))
    ensures Sound(ApplyUpdate(s, o, cacheTerminal), kinds)
  {
    var u := o.Target().uid;
    hide Inv, KindsFit, SameKind, Admit;
    if o.IsRuntime() && !o.updateType.SyncPodKill? {
      assert ApplyUpdate(s, o, cacheTerminal) == s;
    } else if Register(s.sh, o.Target(), o.IsRuntime(), cacheTerminal).statuses[u].finished {
      UpdateFinishedInv(s, o, cacheTerminal, kinds);
    } else if u in s.sh.statuses {
      UpdateActiveInv(s, o, cacheTerminal, kinds);
    } else {
      UpdateNewInv(s, o, cacheTerminal, kinds);
    }
  }

  /** The numbers passed over once an item was sent directly. */
  function PassedAfter(c: Channel, undelivered: Option<PodWork>): set<nat> {
    if undelivered.Some? then c.passed + {undelivered.value.number} else c.passed
  }

  /** An item for an idle worker fills its empty channel. */
  lemma DispatchIdle(s: Shared, u: UID, v: Verdict)
    requires CanSend(s, u) && !v.status.working
    ensures var c := s.podUpdates[u]; var n := s.channels[c].issued + 1;
            var passed := PassedAfter(s.channels[c], Undelivered(s, u));
            Dispatch(s, u, v) == s.(
              statuses := s.statuses[u := v.status.(working := true)],
              channels := s.channels[c := Channel([v.work.(number := n)], false, n, passed)])
  {
    var c, work := s.podUpdates[u], v.work.(number := NextNumber(s, u));
    assert s.channels[c].buffer + [work] == [work];
    var s1 := SetStatus(s, u, v.status.(working := true));
    var passed := PassedAfter(s.channels[c], Undelivered(s, u));
    assert PassOver(s1, u) == s1.(channels := s1.channels[c := s.channels[c].(passed := passed)]) by {
      assert u !in s.lastUndelivered ==> s1.channels == s1.channels[c := s.channels[c].(passed := passed)];
    }
    hide PassOver, PassedAfter;
  }

  /** An item for a busy worker replaces whatever is undelivered. */
  lemma DispatchBusy(s: Shared, u: UID, v: Verdict)
    requires u in s.podUpdates && s.podUpdates[u] in s.channels && v.status.working
    ensures var c := s.podUpdates[u]; var n := s.channels[c].issued + 1;
            Dispatch(s, u, v) == s.(
              statuses := s.statuses[u := if v.cancel then Cancelled(v.status) else v.status],
              lastUndelivered := s.lastUndelivered[u := v.work.(number := n)],
              channels := s.channels[c := s.channels[c].(issued := n)])
  {
  }

  /** The state in which a request reaches the worker. */
  function Prepared(s: Shared, pod: Pod, fullname: FullName, v: Verdict): Shared {
    EnsureWorker(CloseCompletion(SetStatus(s, pod.uid, v.status), v.close), pod, fullname)
  }

  lemma AdmitNew(s: Shared, o: UpdatePodOptions, cacheTerminal: bool)
    requires o.WellFormed() && o.Target().uid !in s.statuses
    requires !(o.IsRuntime() && !o.updateType.SyncPodKill?)
    requires !Register(s, o.Target(), o.IsRuntime(), cacheTerminal).statuses[o.Target().uid].finished
    ensures var st := NewStatus(o.Target().fullname);
            var v := Decide(st, o.Target(), o.IsRuntime(), o.updateType, o.kill);
            UpdatePod(s, o, cacheTerminal) == Dispatch(Prepared(s, o.Target(), st.fullname, v), o.Target().uid, v)
  {
    var pod := o.Target();
    var st := NewStatus(pod.fullname);
    var v := Decide(st, pod, o.IsRuntime(), o.updateType, o.kill);
    var s1 := SetStatus(s, pod.uid, st);
    assert SetStatus(s1, pod.uid, v.status) == SetStatus(s, pod.uid, v.status);
  }

  /** What an update of a known, unfinished pod does to the shared state. */
  function Served(s: Shared, o: UpdatePodOptions): Shared
    requires o.WellFormed() && o.Target().uid in s.statuses
  {
    var u := o.Target().uid;
    var st := s.statuses[u];
    var v := Decide(st, o.Target(), o.IsRuntime(), o.updateType, o.kill);
    if st.terminatingAt && o.updateType.SyncPodCreate? then SetStatus(s, u, st.(restartRequested := true))
    else if st.terminatedAt && o.IsRuntime() then SetStatus(s, u, st)
    else Dispatch(CloseCompletion(SetStatus(s, u, v.status), v.close), u, v)
  }

  lemma AdmitActive(s: Shared, o: UpdatePodOptions, cacheTerminal: bool)
    requires o.WellFormed() && o.Target().uid in s.statuses && o.Target().uid in s.podUpdates
    requires !(o.IsRuntime() && !o.updateType.SyncPodKill?)
    requires LifecycleOrdered(s.statuses[o.Target().uid]) && !s.statuses[o.Target().uid].finished
    ensures UpdatePod(s, o, cacheTerminal) == Served(s, o)
  {
  }

  lemma DispatchKeepsChannels(s: Shared, u: UID, v: Verdict)
    ensures Dispatch(s, u, v).nextChannel == s.nextChannel
  {
    hide Send, Issue, NextNumber;
    if v.status.working {
      var s1 := SetStatus(s, u, if v.cancel then Cancelled(v.status) else v.status);
      IssueKeepsChannels(s1.(lastUndelivered := s1.lastUndelivered[u := v.work.(number := NextNumber(s1, u))]), u);
    } else {
      var s1 := SetStatus(s, u, v.status.(working := true));
      IssueKeepsChannels(PassOver(s1, u), u);
      SendKeepsChannels(Issue(PassOver(s1, u), u), u, v.work.(number := NextNumber(s, u)));
    }
  }

  lemma IssueKeepsChannels(s: Shared, u: UID)
    ensures Issue(s, u).nextChannel == s.nextChannel
  {
  }

  lemma SendKeepsChannels(s: Shared, u: UID, work: PodWork)
    ensures Send(s, u, work).nextChannel == s.nextChannel
  {
  }

  lemma ServedKeepsChannels(s: Shared, o: UpdatePodOptions)
    requires o.WellFormed() && o.Target().uid in s.statuses
    ensures Served(s, o).nextChannel == s.nextChannel
  {
    var u, st := o.Target().uid, s.statuses[o.Target().uid];
    var v := Decide(st, o.Target(), o.IsRuntime(), o.updateType, o.kill);
    DispatchKeepsChannels(CloseCompletion(SetStatus(s, u, v.status), v.close), u, v);
  }

  lemma ServedInv(s: System, o: UpdatePodOptions, kinds: bool)
    requires Sound(s, kinds) && o.WellFormed()
    requires o.Target().uid in s.sh.statuses && !s.sh.statuses[o.Target().uid].finished
    requires o.Target().uid in s.sh.podUpdates && s.sh.podUpdates[o.Target().uid] in s.workers
    requires kinds && !s.workers[s.sh.podUpdates[o.Target().uid]].started ==>
               o.Target().isStatic == s.workers[s.sh.podUpdates[o.Target().uid]].isStatic
    ensures Sound(s.(sh := Served(s.sh, o)), kinds)
  {
    var u, st := o.Target().uid, s.sh.statuses[o.Target().uid];
    assert LifecycleOrdered(st) by { assert PodFits(u, ViewOf(s, u)); }
    hide Inv, KindsFit, PodFits, ActiveFits, Decide, Keeps, Dispatch;
    if st.terminatingAt && o.updateType.SyncPodCreate? {
      StatusOnlyInv(s, u, st.(restartRequested := true), kinds);
    } else if st.terminatedAt && o.IsRuntime() {
      StatusOnlyInv(s, u, st, kinds);
    } else {
      DecideFacts(st, o.Target(), o.IsRuntime(), o.updateType, o.kill);
      VerdictInv(s, u, Decide(st, o.Target(), o.IsRuntime(), o.updateType, o.kill), kinds);
    }
  }

  lemma VerdictInv(s: System, u: UID, v: Verdict, kinds: bool)
    requires Sound(s, kinds) && u in s.sh.statuses && !s.sh.statuses[u].finished && Keeps(s.sh.statuses[u], v)
    requires u in s.sh.podUpdates && s.sh.podUpdates[u] in s.workers
    requires v.work.pod.uid == u
    requires kinds ==> OfKind(v, s.workers[s.sh.podUpdates[u]])
    ensures Sound(s.(sh := Dispatch(CloseCompletion(SetStatus(s.sh, u, v.status), v.close), u, v)), kinds)
  {
    hide Inv, KindsFit, Keeps, Dispatch;
    DeliverInv(s, CloseCompletion(SetStatus(s.sh, u, v.status), v.close), u, v, kinds);
  }

  lemma UpdateNewInv(s: System, o: UpdatePodOptions, cacheTerminal: bool, kinds: bool)
    requires Sound(s, kinds) && o.WellFormed() && o.Target().uid !in s.sh.statuses
    requires !(o.IsRuntime() && !o.updateType.SyncPodKill?)
    requires !Register(s.sh, o.Target(), o.IsRuntime(), cacheTerminal).statuses[o.Target().uid].finished
    ensures Sound(ApplyUpdate(s, o, cacheTerminal), kinds)
  {
    var pod := o.Target();
    assert PodFits(pod.uid, ViewOf(s, pod.uid));
    assert s.sh.nextChannel !in s.workers;
    var st := NewStatus(pod.fullname);
    DecideFacts(st, pod, o.IsRuntime(), o.updateType, o.kill);
    AdmitNew(s.sh, o, cacheTerminal);
    FirstItemInv(s, pod, Decide(st, pod, o.IsRuntime(), o.updateType, o.kill), kinds);
  }

  /** The verdict on a status leaves everything alone that concerns the worker. */
  predicate Keeps(st: PodSyncStatus, v: Verdict) {
    && v.status.working == st.working && v.status.ctx == st.ctx && v.status.fullname == st.fullname
    && v.status.startedTerminating == st.startedTerminating && v.status.terminatedAt == st.terminatedAt
    && v.status.finished == st.finished && (st.terminatingAt ==> v.status.terminatingAt)
    && LifecycleOrdered(v.status) && TypeFits(v.status, v.work.workType)
    && (v.work.workType.SyncPodWork? ==> !v.status.terminatingAt)
  }

  lemma FirstItemInv(s: System, pod: Pod, v: Verdict, kinds: bool)
    requires Sound(s, kinds) && pod.uid !in s.sh.statuses && pod.uid !in s.sh.podUpdates && pod.uid !in s.sh.lastUndelivered
    requires s.sh.nextChannel !in s.workers
    requires Keeps(NewStatus(pod.fullname), v) && v.work.pod == pod
    ensures var sh := Dispatch(Prepared(s.sh, pod, pod.fullname, v), pod.uid, v);
            && sh.nextChannel == s.sh.nextChannel + 1
            && Sound(System(sh, s.workers[s.sh.nextChannel := Worker(pod.uid, pod.isStatic, false, 0, Idle)]), kinds)
  {
    hide Dispatch, Prepared, ActiveFits, LinkKinds, PodFits, KindFits, StaticsFit;
    var sh := Dispatch(Prepared(s.sh, pod, pod.fullname, v), pod.uid, v);
    FirstItemShape(s.sh, pod, v);
    FirstItemFits(pod, v);
    FirstItemCreated(s, sh, pod, v.status.(working := true), Channel([v.work.(number := 1)], false, 1), kinds);
  }

  lemma FirstItemShape(s: Shared, pod: Pod, v: Verdict)
    requires pod.uid !in s.lastUndelivered
    requires pod.uid !in s.podUpdates && s.nextChannel !in s.channels && !v.status.working
    ensures var sh := Dispatch(Prepared(s, pod, pod.fullname, v), pod.uid, v);
            sh == s.(podUpdates := s.podUpdates[pod.uid := s.nextChannel],
                     nextChannel := s.nextChannel + 1,
                     completions := CloseCompletion(s, v.close).completions,
                     channels := s.channels[s.nextChannel := Channel([v.work.(number := 1)], false, 1)],
                     statuses := s.statuses[pod.uid := v.status.(working := true)],
                     waitingStatic := if pod.isStatic
                                      then s.waitingStatic[pod.fullname := Waiting(s, pod.fullname) + [pod.uid]]
                                      else s.waitingStatic)
  {
    hide Dispatch;
    var s2 := Prepared(s, pod, pod.fullname, v);
    PreparedShape(s, pod, v);
    hide Prepared;
    var c, st := Channel([v.work.(number := 1)], false, 1), v.status.(working := true);
    calc {
      Dispatch(s2, pod.uid, v);
      { DispatchIdle(s2, pod.uid, v); }
      s2.(statuses := s2.statuses[pod.uid := st], channels := s2.channels[s.nextChannel := c]);
      { assert s2.channels[s.nextChannel := c] == s.channels[s.nextChannel := c];
        assert s2.statuses[pod.uid := st] == s.statuses[pod.uid := st]; }
      s2.(statuses := s.statuses[pod.uid := st], channels := s.channels[s.nextChannel := c]);
    }
  }

  lemma PreparedShape(s: Shared, pod: Pod, v: Verdict)
    requires pod.uid !in s.podUpdates
    ensures Prepared(s, pod, pod.fullname, v) ==
            s.(podUpdates := s.podUpdates[pod.uid := s.nextChannel],
               nextChannel := s.nextChannel + 1,
               completions := CloseCompletion(s, v.close).completions,
               channels := s.channels[s.nextChannel := Channel([], false, 0)],
               statuses := s.statuses[pod.uid := v.status],
               waitingStatic := if pod.isStatic
                                then s.waitingStatic[pod.fullname := Waiting(s, pod.fullname) + [pod.uid]]
                                else s.waitingStatic)
  {
    var s1 := CloseCompletion(SetStatus(s, pod.uid, v.status), v.close);
    assert s1 == s.(statuses := s.statuses[pod.uid := v.status], completions := s1.completions);
    assert Waiting(s1, pod.fullname) == Waiting(s, pod.fullname);
    var s2 := EnsureWorker(s1, pod, pod.fullname);
    assert s2.completions == CloseCompletion(s, v.close).completions;
  }

  lemma FirstItemFits(pod: Pod, v: Verdict)
    requires Keeps(NewStatus(pod.fullname), v) && v.work.pod == pod
    ensures var c, w := Channel([v.work.(number := 1)], false, 1), Worker(pod.uid, pod.isStatic, false, 0, Idle);
            ActiveFits(pod.uid, v.status.(working := true), c, w, None)
            && LinkKinds(v.status.(working := true), c, w, None)
  {
  }

  lemma FirstItemCreated(s: System, sh: Shared, pod: Pod, st: PodSyncStatus, c: Channel, kinds: bool)
    requires Sound(s, kinds) && pod.uid !in s.sh.statuses && pod.uid !in s.sh.podUpdates && pod.uid !in s.sh.lastUndelivered
    requires s.sh.nextChannel !in s.workers
    requires ActiveFits(pod.uid, st, c, Worker(pod.uid, pod.isStatic, false, 0, Idle), None)
    requires LinkKinds(st, c, Worker(pod.uid, pod.isStatic, false, 0, Idle), None)
    requires LifecycleOrdered(st) && !st.finished && st.fullname == pod.fullname
    requires sh == s.sh.(
               podUpdates := s.sh.podUpdates[pod.uid := s.sh.nextChannel],
               channels := sh.channels, nextChannel := s.sh.nextChannel + 1,
               statuses := sh.statuses, completions := sh.completions,
               waitingStatic := if pod.isStatic
                                then s.sh.waitingStatic[pod.fullname := Waiting(s.sh, pod.fullname) + [pod.uid]]
                                else s.sh.waitingStatic)
    requires sh.channels == s.sh.channels[s.sh.nextChannel := c]
    requires sh.statuses == s.sh.statuses[pod.uid := st]
    ensures Sound(System(sh, s.workers[s.sh.nextChannel := Worker(pod.uid, pod.isStatic, false, 0, Idle)]), kinds)
  {
    var w := Worker(pod.uid, pod.isStatic, false, 0, Idle);
    var s' := System(sh, s.workers[s.sh.nextChannel := w]);
    assert ViewOf(s', pod.uid) == PodView(Some(st), Some(Link(c, w)), None);
    CreatedInv(s, s', pod.uid, pod.isStatic, kinds);
  }

  lemma UpdateActiveInv(s: System, o: UpdatePodOptions, cacheTerminal: bool, kinds: bool)
    requires Sound(s, kinds) && o.WellFormed() && (kinds ==> SameKind(s, Update(o, cacheTerminal)))
    requires !(o.IsRuntime() && !o.updateType.SyncPodKill?)
    requires o.Target().uid in s.sh.statuses && !s.sh.statuses[o.Target().uid].finished
    ensures Sound(ApplyUpdate(s, o, cacheTerminal), kinds)
  {
    assert PodFits(o.Target().uid, ViewOf(s, o.Target().uid));
    AdmitActive(s.sh, o, cacheTerminal);
    ServedKeepsChannels(s.sh, o);
    ServedInv(s, o, kinds);
    assert ApplyUpdate(s, o, cacheTerminal) == s.(sh := Served(s.sh, o));
  }

  lemma StatusOnlyInv(s: System, u: UID, st: PodSyncStatus, kinds: bool)
    requires Sound(s, kinds) && u in s.sh.statuses && !s.sh.statuses[u].finished
    requires st == s.sh.statuses[u].(restartRequested := st.restartRequested)
    ensures Sound(s.(sh := SetStatus(s.sh, u, st)), kinds)
  {
    assert PodFits(u, ViewOf(s, u));
    LiveWorker(s, s.sh.podUpdates[u]);
    LocalInv(s, s.(sh := SetStatus(s.sh, u, st)), u, s.sh.podUpdates[u], kinds);
  }

  lemma DeliverInv(s: System, s2: Shared, u: UID, v: Verdict, kinds: bool)
    requires Sound(s, kinds) && u in s.sh.statuses && !s.sh.statuses[u].finished && Keeps(s.sh.statuses[u], v)
    requires s2 == s.sh.(statuses := s.sh.statuses[u := v.status], completions := s2.completions)
    requires u in s.sh.podUpdates && s.sh.podUpdates[u] in s.workers
    requires v.work.pod.uid == u
    requires kinds ==> OfKind(v, s.workers[s.sh.podUpdates[u]])
    ensures Sound(s.(sh := Dispatch(s2, u, v)), kinds)
  {
    assert PodFits(u, ViewOf(s, u));
    if v.status.working { DeliverBusy(s, s2, u, v, kinds); } else { DeliverIdle(s, s2, u, v, kinds); }
  }

  /** A worker that was not let in gets items of the kind it was made for. */
  predicate OfKind(v: Verdict, w: Worker) {
    !w.started ==> v.work.pod.isStatic == w.isStatic
  }

  lemma IdleFits(u: UID, st: PodSyncStatus, c: Channel, w: Worker, undelivered: Option<PodWork>, v: Verdict)
    requires LifecycleOrdered(st) && ActiveFits(u, st, c, w, undelivered) && Keeps(st, v) && !v.status.working
    requires v.work.pod.uid == u
    ensures var n := c.issued + 1;
            var c' := Channel([v.work.(number := n)], false, n, PassedAfter(c, undelivered));
            && ActiveFits(u, v.status.(working := true), c', w, undelivered)
            && (LinkKinds(st, c, w, undelivered) && OfKind(v, w) ==>
                  LinkKinds(v.status.(working := true), c', w, undelivered))
  {
  }

  lemma BusyFits(u: UID, st: PodSyncStatus, c: Channel, w: Worker, undelivered: Option<PodWork>, v: Verdict)
    requires LifecycleOrdered(st) && ActiveFits(u, st, c, w, undelivered) && Keeps(st, v) && v.status.working
    requires v.work.pod.uid == u
    ensures var st' := if v.cancel then Cancelled(v.status) else v.status;
            var c', x := c.(issued := c.issued + 1), Some(v.work.(number := c.issued + 1));
            && ActiveFits(u, st', c', w, x)
            && (LinkKinds(st, c, w, undelivered) && OfKind(v, w) ==> LinkKinds(st', c', w, x))
  {
  }

  /** New status, channel and undelivered slot for one pod, whose worker stays as it is. */
  lemma ReplacedInv(s: System, s': System, u: UID, st: PodSyncStatus, c: Channel, kinds: bool)
    requires Sound(s, kinds) && u in s.sh.podUpdates && s.sh.podUpdates[u] in s.workers && u in s.sh.statuses
    requires !s.workers[s.sh.podUpdates[u]].phase.Gone?
    requires s' == s.(sh := s.sh.(statuses := s.sh.statuses[u := st], channels := s.sh.channels[s.sh.podUpdates[u] := c],
                                  lastUndelivered := s'.sh.lastUndelivered, completions := s'.sh.completions))
    requires s'.sh.lastUndelivered - {u} == s.sh.lastUndelivered - {u}
    requires LifecycleOrdered(st) && !st.finished && st.fullname == s.sh.statuses[u].fullname
    requires s.sh.statuses[u].terminatingAt ==> st.terminatingAt
    requires ActiveFits(u, st, c, s.workers[s.sh.podUpdates[u]], ViewOf(s', u).undelivered)
    requires kinds ==> LinkKinds(st, c, s.workers[s.sh.podUpdates[u]], ViewOf(s', u).undelivered)
    ensures Sound(s', kinds)
  {
    var w := s.sh.podUpdates[u];
    LiveWorker(s, w);
    LiveKinds(s, w, kinds);
    assert s.workers[w := s.workers[w]] == s.workers;
    assert ViewOf(s', u) == PodView(Some(st), Some(Link(c, s.workers[w])), ViewOf(s', u).undelivered);
    assert !c.closed;
    hide Inv, KindsFit, ActiveFits, LifecycleOrdered;
    LocalInv(s, s', u, w, kinds);
  }

  lemma IdleDispatch(s: Shared, s2: Shared, u: UID, v: Verdict)
    requires s2 == s.(statuses := s.statuses[u := v.status], completions := s2.completions)
    requires CanSend(s, u) && !v.status.working
    ensures var c := s.podUpdates[u]; var n := s.channels[c].issued + 1;
            Dispatch(s2, u, v)
            == s.(statuses := s.statuses[u := v.status.(working := true)], completions := s2.completions,
                  channels := s.channels[c := Channel([v.work.(number := n)], false, n,
                                                      PassedAfter(s.channels[c], Undelivered(s, u)))])
  {
    DispatchIdle(s2, u, v);
    hide Dispatch;
    assert s2.statuses[u := v.status.(working := true)] == s.statuses[u := v.status.(working := true)];
  }

  lemma BusyDispatch(s: Shared, s2: Shared, u: UID, v: Verdict)
    requires s2 == s.(statuses := s.statuses[u := v.status], completions := s2.completions)
    requires u in s.podUpdates && s.podUpdates[u] in s.channels && v.status.working
    ensures var c, st := s.podUpdates[u], if v.cancel then Cancelled(v.status) else v.status;
            var n := s.channels[c].issued + 1;
            Dispatch(s2, u, v)
            == s.(statuses := s.statuses[u := st], completions := s2.completions,
                  lastUndelivered := s.lastUndelivered[u := v.work.(number := n)],
                  channels := s.channels[c := s.channels[c].(issued := n)])
  {
    DispatchBusy(s2, u, v);
    hide Dispatch;
    var st := if v.cancel then Cancelled(v.status) else v.status;
    assert s2.statuses[u := st] == s.statuses[u := st];
  }

  lemma DeliverIdle(s: System, s2: Shared, u: UID, v: Verdict, kinds: bool)
    requires Sound(s, kinds) && u in s.sh.statuses && !s.sh.statuses[u].finished && Keeps(s.sh.statuses[u], v)
    requires s2 == s.sh.(statuses := s.sh.statuses[u := v.status], completions := s2.completions)
    requires u in s.sh.podUpdates && s.sh.podUpdates[u] in s.workers && !v.status.working
    requires !s.workers[s.sh.podUpdates[u]].phase.Gone?
    requires v.work.pod.uid == u
    requires kinds ==> OfKind(v, s.workers[s.sh.podUpdates[u]])
    ensures Sound(s.(sh := Dispatch(s2, u, v)), kinds)
  {
    var w, st := s.sh.podUpdates[u], s.sh.statuses[u];
    LiveWorker(s, w);
    LiveKinds(s, w, kinds);
    hide Inv, KindsFit, Dispatch, PassedAfter;
    var c, n := s.sh.channels[w], s.sh.channels[w].issued + 1;
    assert c.buffer == [] && !c.closed;
    hide PhaseFits, NumbersFit, ItemFits;
    IdleDispatch(s.sh, s2, u, v);
    IdleFits(u, st, c, s.workers[w], Undelivered(s.sh, u), v);
    hide ActiveFits, LinkKinds;
    ReplacedInv(s, s.(sh := Dispatch(s2, u, v)), u, v.status.(working := true),
                Channel([v.work.(number := n)], false, n, PassedAfter(c, Undelivered(s.sh, u))), kinds);
  }

  lemma DeliverBusy(s: System, s2: Shared, u: UID, v: Verdict, kinds: bool)
    requires Sound(s, kinds) && u in s.sh.statuses && !s.sh.statuses[u].finished && Keeps(s.sh.statuses[u], v)
    requires s2 == s.sh.(statuses := s.sh.statuses[u := v.status], completions := s2.completions)
    requires u in s.sh.podUpdates && s.sh.podUpdates[u] in s.workers && v.status.working
    requires !s.workers[s.sh.podUpdates[u]].phase.Gone?
    requires v.work.pod.uid == u
    requires kinds ==> OfKind(v, s.workers[s.sh.podUpdates[u]])
    ensures Sound(s.(sh := Dispatch(s2, u, v)), kinds)
  {
    var w, st := s.sh.podUpdates[u], s.sh.statuses[u];
    LiveWorker(s, w);
    LiveKinds(s, w, kinds);
    hide Inv, KindsFit, Dispatch;
    var c := s.sh.channels[w];
    hide PhaseFits, NumbersFit, ItemFits;
    BusyDispatch(s.sh, s2, u, v);
    BusyFits(u, st, c, s.workers[w], Undelivered(s.sh, u), v);
    hide ActiveFits, LinkKinds;
    ReplacedInv(s, s.(sh := Dispatch(s2, u, v)), u, if v.cancel then Cancelled(v.status) else v.status,
                c.(issued := c.issued + 1), kinds);
  }

  // ---------------------------------------------------------------- housekeeping

  /** Forgetting the status of a finished pod. */
  lemma ForgetInv(s: System, s': System, u: UID, kinds: bool)
    requires Sound(s, kinds) && u in s.sh.statuses && s.sh.statuses[u].finished
    requires s' == s.(sh := s.sh.(statuses := s.sh.statuses - {u}))
    ensures Sound(s', kinds)
  {
    assert PodFits(u, ViewOf(s, u));
    assert ViewOf(s', u) == PodView(None, None, None);
    assert forall v :: v != u ==> ViewOf(s', v) == ViewOf(s, v);
    LocalPods(s, s', u);
    hide PodFits, KindFits, ViewOf;
    ForgetStatics(s, s', u);
  }

  lemma ForgetStatics(s: System, s': System, u: UID)
    requires StaticsFit(s) && u !in s.sh.podUpdates && s' == s.(sh := s.sh.(statuses := s.sh.statuses - {u}))
    ensures StaticsFit(s')
  {
    assert !HoldsName(s, u);
    assert forall v :: HoldsName(s', v) <==> HoldsName(s, v);
    assert forall v :: InLine(s', v) <==> v != u && InLine(s, v);
  }

  lemma VisitInv(s: System, u: UID, desired: set<UID>, kinds: bool)
    requires Sound(s, kinds)
    ensures Sound(s.(sh := VisitKnown(s.sh, u, desired)), kinds)
  {
    var s' := s.(sh := VisitKnown(s.sh, u, desired));
    if Unwanted(s.sh, u, desired) && s.sh.statuses[u].finished {
      assert PodFits(u, ViewOf(s, u));
      assert s'.sh == s.sh.(statuses := s.sh.statuses - {u});
      ForgetInv(s, s', u, kinds);
    }
  }

  lemma {:induction false} SweepInv(s: System, order: seq<UID>, desired: set<UID>, kinds: bool)
    requires Sound(s, kinds)
    ensures Sound(s.(sh := Sweep(s.sh, order, desired)), kinds)
    decreases |order|
  {
    if order != [] {
      SweepInv(s, order[..|order| - 1], desired, kinds);
      VisitInv(s.(sh := Sweep(s.sh, order[..|order| - 1], desired)), order[|order| - 1], desired, kinds);
    }
  }

  lemma SyncKnownInv(s: System, order: seq<UID>, desired: set<UID>, kinds: bool)
    requires Sound(s, kinds)
    ensures Sound(s.(sh := SyncKnownPods(s.sh, order, desired)), kinds)
  {
    var s1 := s.(sh := s.sh.(podsSynced := true));
    assert forall v :: ViewOf(s1, v) == ViewOf(s, v);
    assert forall v :: HoldsName(s1, v) <==> HoldsName(s, v);
    assert forall v :: InLine(s1, v) <==> InLine(s, v);
    assert StaticsFit(s1);
    hide HoldsName, InLine;
    forall v ensures PodFits(v, ViewOf(s1, v)) && (KindsFit(s) ==> KindFits(ViewOf(s1, v))) {
      assert PodFits(v, ViewOf(s, v)) && (KindsFit(s) ==> KindFits(ViewOf(s, v)));
    }
    SweepInv(s1, order, desired, kinds);
  }

  // ---------------------------------------------------------------- every step, every run

  lemma StepInv(s: System, e: Event, kinds: bool)
    requires Sound(s, kinds) && Enabled(s, e) && (kinds ==> SameKind(s, e))
    ensures Sound(Apply(s, e), kinds)
  {
    match e
    case Update(o, cacheTerminal) => UpdateInv(s, o, cacheTerminal, kinds);
    case SyncKnown(order, desired) => SyncKnownInv(s, order, desired, kinds);
    case Receive(w) => ReceiveInv(s, w, kinds);
    case TryStart(w) => TryStartInv(s, w, kinds);
    case GiveUp(w) => GiveUpInv(s, w, kinds);
    case CacheFails(w) => CacheFailsInv(s, w, kinds);
    case TakeContext(w) => TakeContextInv(s, w, kinds);
    case Acknowledge(w) => AcknowledgeInv(s, w, kinds);
    case Return(w, outcome) => ReturnInv(s, w, outcome, kinds);
    case Complete(w) => CompleteInv(s, w, kinds);
    case Requeue(w) => RequeueInv(s, w, kinds);
  }

  lemma NextInv(s: System, e: Event, s': System, kinds: bool)
    requires Sound(s, kinds) && Next(s, e, s') && (kinds ==> SameKind(s, e))
    ensures Sound(s', kinds)
  {
    hide Apply, Inv;
    StepInv(s, e, kinds);
  }

  lemma {:induction false} RunInv(tr: seq<System>, events: seq<Event>, i: nat)
    requires IsRun(tr, events) && i < |tr|
    ensures Inv(tr[i]) && |tr| == |events| + 1
  {
    hide Next, Inv, KindsFit;
    if i == 0 {
      StartInv();
    } else {
      RunInv(tr, events, i - 1);
      NextInv(tr[i - 1], events[i - 1], tr[i], false);
    }
  }

  /** If callers keep the kinds of pods that wait to be let in, the rest holds too. */
  lemma {:induction false} RunKinds(tr: seq<System>, events: seq<Event>, i: nat)
    requires StableRun(tr, events) && i < |tr|
    ensures Sound(tr[i], true) && |tr| == |events| + 1
  {
    hide Next, Inv, KindsFit, SameKind;
    if i == 0 {
      StartInv();
    } else {
      RunKinds(tr, events, i - 1);
      var e := events[i - 1];
      NextInv(tr[i - 1], e, tr[i], true);
    }
  }

  lemma RunStarts(tr: seq<System>, events: seq<Event>)
    requires IsRun(tr, events)
    ensures |tr| == |events| + 1 && tr[0] == START
  {
    hide Next;
  }

  /** Everything that is known about one step of a run. */
  lemma RunStep(tr: seq<System>, events: seq<Event>, i: nat)
    requires IsRun(tr, events) && i < |events|
    ensures Inv(tr[i]) && Inv(tr[i + 1])
    ensures Next(tr[i], events[i], tr[i + 1])
  {
    hide Next, Inv;
    RunInv(tr, events, i);
    RunInv(tr, events, i + 1);
  }

  lemma StableIsRun(tr: seq<System>, events: seq<Event>)
    requires StableRun(tr, events)
    ensures IsRun(tr, events) && |tr| == |events| + 1
  {
  }
}
