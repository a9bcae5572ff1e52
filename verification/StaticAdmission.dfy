/** Static pods of one full name take turns, in the order UpdatePod first saw them. */
module StaticAdmission {
  import opened PodTypes
  import opened WorkerState
  import opened WorkerSystem
  import opened WorkerInvariant
  import opened WorkerProgress
  import opened WorkerSafety
  import opened WorkerQueries
  import opened KillRequests

  // ---------------------------------------------------------------- exclusion

  /** allowPodStart lets a worker in on an item that is not a static pod's, and so without its
      pod taking its name. */
  predicate LetInUnnamed(s: System, e: Event, w: nat) {
    e == TryStart(w) && w in s.workers && s.workers[w].phase.Received? && !s.workers[w].phase.work.pod.isStatic
  }

  /** That happened to w before j. */
  ghost predicate WasLetInUnnamed(tr: seq<System>, events: seq<Event>, j: nat, w: nat)
    requires |tr| == |events| + 1 && j < |tr|
  {
    exists k: nat :: k < j && LetInUnnamed(tr[k], events[k], w)
  }

  lemma StepNames(s: System, e: Event, s': System, w: nat)
    requires Inv(s) && Next(s, e, s') && w in s.workers && !s.workers[w].phase.Gone?
    ensures w in s'.workers && (s'.workers[w].unnamed <==> s.workers[w].unnamed || LetInUnnamed(s, e, w))
  {
    StepKeepsWorker(s, e, s', w);
    LiveWorker(s, w);
    if e == TryStart(w) { AllowPodStartFrame(s.sh, s.workers[w].phase.work.pod); }
    hide UpdatePod, SyncKnownPods, CompleteWorkQueueNext, CompleteUnstartedTerminated, AcknowledgeTerminating,
         AllowStaticPodStart, ContextForWorker, CompleteSync, CompleteTerminating, CompleteTerminated,
         CompleteTerminatingRuntimePod, Inv;
  }

  /** A worker just made has not been let in. */
  lemma NewIsNamed(s: System, e: Event, s': System, w: nat)
    requires Inv(s) && Next(s, e, s') && w !in s.workers && w in s'.workers
    ensures !s'.workers[w].unnamed
  {
    hide UpdatePod, SyncKnownPods, ApplyComplete, ApplyTryStart, ApplyTakeContext, ApplyReceive,
         CompleteWorkQueueNext, CompleteUnstartedTerminated, AcknowledgeTerminating;
    if IsWorkerEvent(e) { WorkerTouches(s, e); }
  }

  lemma {:induction false} UnnamedExactly(tr: seq<System>, events: seq<Event>, j: nat, w: nat)
    requires IsRun(tr, events) && |tr| == |events| + 1 && j < |tr| && Live(tr[j], w)
    ensures tr[j].workers[w].unnamed <==> WasLetInUnnamed(tr, events, j, w)
  {
    hide Next, Inv, IsRun, LetInUnnamed;
    RunStarts(tr, events);
    if j > 0 {
      RunStep(tr, events, j - 1);
      if w in tr[j - 1].workers {
        StepKeepsWorker(tr[j - 1], events[j - 1], tr[j], w);
        UnnamedExactly(tr, events, j - 1, w);
        StepNames(tr[j - 1], events[j - 1], tr[j], w);
      } else {
        NewIsNamed(tr[j - 1], events[j - 1], tr[j], w);
        forall k: nat | k < j ensures !LetInUnnamed(tr[k], events[k], w) {
          NotYet(tr, events, k, j - 1, w);
          MustBeThere(tr[k], events[k], w);
        }
      }
    }
  }

  lemma MustBeThere(s: System, e: Event, w: nat)
    requires w !in s.workers
    ensures !LetInUnnamed(s, e, w)
  {
  }

  /** A worker that was let in is that of the recorded holder of its pod's name exactly if it
      was never let in unnamed. */
  lemma HoldsExactly(tr: seq<System>, events: seq<Event>, j: nat, w: nat)
    requires IsRun(tr, events) && |tr| == |events| + 1 && j < |tr| && Live(tr[j], w) && tr[j].workers[w].started
    ensures tr[j].workers[w].uid in tr[j].sh.statuses
    ensures var u := tr[j].workers[w].uid;
            var f := tr[j].sh.statuses[u].fullname;
            (f in tr[j].sh.startedStatic && tr[j].sh.startedStatic[f] == u) <==> !WasLetInUnnamed(tr, events, j, w)
  {
    UnnamedExactly(tr, events, j, w);
    hide IsRun, WasLetInUnnamed;
    RunInv(tr, events, j);
    LiveIsKnown(tr[j], w);
    var s, u := tr[j], tr[j].workers[w].uid;
    assert HoldsName(s, u) <==> !s.workers[w].unnamed;
    hide PodFits, ViewOf;
  }

  /** Exclusion over every run: if two static pods of one name are let in and unfinished, one of
      the two was let in unnamed. */
  lemma TwoInChargeCause(tr: seq<System>, events: seq<Event>, j: nat, u: UID, v: UID)
    requires IsRun(tr, events) && |tr| == |events| + 1 && j < |tr| && u != v
    requires InCharge(tr[j], u) && InCharge(tr[j], v)
    requires tr[j].sh.statuses[u].fullname == tr[j].sh.statuses[v].fullname
    ensures WasLetInUnnamed(tr, events, j, tr[j].sh.podUpdates[u]) || WasLetInUnnamed(tr, events, j, tr[j].sh.podUpdates[v])
  {
    hide WasLetInUnnamed, IsRun;
    RunInv(tr, events, j);
    LinkedUp(tr[j], u);
    LinkedUp(tr[j], v);
    assert tr[j].workers[tr[j].sh.podUpdates[u]].uid == u && tr[j].workers[tr[j].sh.podUpdates[v]].uid == v;
    hide Inv;
    HoldsExactly(tr, events, j, tr[j].sh.podUpdates[u]);
    HoldsExactly(tr, events, j, tr[j].sh.podUpdates[v]);
  }

  /** The recorded holder of a name is a known, unfinished pod of that name whose worker was let
      in; and a static pod, if callers keep the kinds of pods that wait to be let in. */
  lemma HolderIsInCharge(tr: seq<System>, events: seq<Event>, i: nat, f: FullName)
    requires IsRun(tr, events) && i < |tr| && f in tr[i].sh.startedStatic
    ensures var u := tr[i].sh.startedStatic[f];
            && u in tr[i].sh.statuses && !tr[i].sh.statuses[u].finished && tr[i].sh.statuses[u].fullname == f
            && u in tr[i].sh.podUpdates && Live(tr[i], tr[i].sh.podUpdates[u])
            && tr[i].workers[tr[i].sh.podUpdates[u]].started
            && (StableRun(tr, events) ==> InCharge(tr[i], u))
  {
    RunInv(tr, events, i);
    var s, u := tr[i], tr[i].sh.startedStatic[f];
    assert HoldsName(s, u);
    LinkedUp(s, u);
    assert PodFits(u, ViewOf(s, u));
    if StableRun(tr, events) {
      hide StableRun, IsRun, Inv, KindsFit, PodFits, ViewOf;
      RunKinds(tr, events, i);
      LiveKinds(s, s.sh.podUpdates[u], true);
      LiveIsKnown(s, s.sh.podUpdates[u]);
    }
  }

  lemma LinkedWorker(s: System, u: UID)
    requires Inv(s) && u in s.sh.podUpdates
    ensures Live(s, s.sh.podUpdates[u]) && s.workers[s.sh.podUpdates[u]].uid == u
  {
    LinkedUp(s, u);
  }

  /** Exclusion: a static pod that is let in and unfinished is the recorded holder of its name,
      and the only such pod, exactly as HoldsExactly and TwoInChargeCause say; always, if
      callers keep the kinds of pods that wait to be let in. */
  lemma OneInCharge(tr: seq<System>, events: seq<Event>, i: nat, u: UID, v: UID)
    requires IsRun(tr, events) && |tr| == |events| + 1 && i < |tr| && InCharge(tr[i], u)
    ensures !tr[i].sh.statuses[u].finished
    ensures var f := tr[i].sh.statuses[u].fullname;
            && ((f in tr[i].sh.startedStatic && tr[i].sh.startedStatic[f] == u)
                <==> !WasLetInUnnamed(tr, events, i, tr[i].sh.podUpdates[u]))
            && (StableRun(tr, events) ==> f in tr[i].sh.startedStatic && tr[i].sh.startedStatic[f] == u)
    ensures InCharge(tr[i], v) && tr[i].sh.statuses[v].fullname == tr[i].sh.statuses[u].fullname ==>
              || u == v
              || (!StableRun(tr, events)
                  && (WasLetInUnnamed(tr, events, i, tr[i].sh.podUpdates[u])
                      || WasLetInUnnamed(tr, events, i, tr[i].sh.podUpdates[v])))
  {
    hide WasLetInUnnamed, IsRun, StableRun, KindsFit;
    RunInv(tr, events, i);
    LinkedWorker(tr[i], u);
    LiveIsKnown(tr[i], tr[i].sh.podUpdates[u]);
    HoldsExactly(tr, events, i, tr[i].sh.podUpdates[u]);
    var twins := u != v && InCharge(tr[i], v) && tr[i].sh.statuses[v].fullname == tr[i].sh.statuses[u].fullname;
    if twins { TwoInChargeCause(tr, events, i, u, v); }
    if StableRun(tr, events) {
      RunKinds(tr, events, i);
      InChargeHolds(tr[i], u);
      if twins { InChargeHolds(tr[i], v); }
    }
  }

  /** The pod of a live worker that took the name f is terminating. */
  ghost predicate NamesakeTerminates(tr: seq<System>, events: seq<Event>, i: nat, f: FullName, w: nat)
    requires |tr| == |events| + 1 && i < |tr|
  {
    && Live(tr[i], w) && tr[i].workers[w].started && !WasLetInUnnamed(tr, events, i, w)
    && tr[i].workers[w].uid in tr[i].sh.statuses
    && var st := tr[i].sh.statuses[tr[i].workers[w].uid];
    && st.fullname == f && st.terminatingAt && !st.terminatedAt
  }

  /** The answer by full name is true exactly if some worker that took the name has a pod that
      is terminating. */
  lemma MirrorAnswerExactly(tr: seq<System>, events: seq<Event>, i: nat, f: FullName)
    requires IsRun(tr, events) && |tr| == |events| + 1 && i < |tr|
    ensures IsPodForMirrorPodTerminatingByFullName(tr[i].sh, f) <==> exists w :: NamesakeTerminates(tr, events, i, f, w)
  {
    hide IsRun, WasLetInUnnamed;
    if IsPodForMirrorPodTerminatingByFullName(tr[i].sh, f) {
      HolderIsInCharge(tr, events, i, f);
      var w := tr[i].sh.podUpdates[tr[i].sh.startedStatic[f]];
      RunInv(tr, events, i);
      LinkedWorker(tr[i], tr[i].sh.startedStatic[f]);
      hide Inv;
      HoldsExactly(tr, events, i, w);
      assert NamesakeTerminates(tr, events, i, f, w);
    }
    if w :| NamesakeTerminates(tr, events, i, f, w) {
      HoldsExactly(tr, events, i, w);
    }
  }

  lemma InChargeHolds(s: System, u: UID)
    requires Sound(s, true) && InCharge(s, u)
    ensures HoldsName(s, u)
  {
    hide Inv, KindsFit;
    LinkedWorker(s, u);
    LiveKinds(s, s.sh.podUpdates[u], true);
  }

  // ---------------------------------------------------------------- who is let in

  /** u may start under the name f: it holds the name, or the name is free and no eligible
      UID comes before u in the list. */
  ghost predicate MayStart(s: Shared, f: FullName, u: UID) {
    if f in s.startedStatic then s.startedStatic[f] == u
    else
      var list := Waiting(s, f);
      || (forall v :: v in list ==> !Eligible(s, v))
      || (exists k :: 0 <= k < |list| && list[k] == u && Eligible(s, u)
            && forall j :: 0 <= j < k ==> !Eligible(s, list[j]))
  }

  /** The loop over the waiting list lets in exactly these, and makes them the holder. */
  lemma AdmitsExactly(s: Shared, f: FullName, u: UID)
    ensures AllowStaticPodStart(s, f, u).1 <==> MayStart(s, f, u)
    ensures MayStart(s, f, u) ==>
              f in AllowStaticPodStart(s, f, u).0.startedStatic
              && AllowStaticPodStart(s, f, u).0.startedStatic[f] == u
  {
    if f !in s.startedStatic {
      var list := Waiting(s, f);
      var i := FirstEligible(s, list);
      if i < |list| {
        assert list[i] in list;
      }
      if AllowStaticPodStart(s, f, u).1 && i == |list| {
        forall v | v in list ensures !Eligible(s, v) {
          var k :| 0 <= k < |list| && list[k] == v;
        }
      }
    }
  }

  /** A worker may start unless its pod is static and must wait for its turn, or never again if
      that was asked to terminate. */
  lemma StartsExactlyInTurn(s: Shared, pod: Pod)
    ensures var admission := AllowPodStart(s, pod).1;
            && (admission.Never? <==> pod.isStatic && (pod.uid in s.statuses ==> s.statuses[pod.uid].terminatingAt))
            && (admission.Start? <==>
                  || !pod.isStatic
                  || (&& pod.uid in s.statuses && !s.statuses[pod.uid].terminatingAt
                      && MayStart(s, s.statuses[pod.uid].fullname, pod.uid)))
            && (admission.Later? ==>
                  pod.uid in AllowPodStart(s, pod).0.statuses
                  && AllowPodStart(s, pod).0.statuses[pod.uid] == s.statuses[pod.uid].(working := false))
  {
    if pod.uid in s.statuses {
      AdmitsExactly(s, s.statuses[pod.uid].fullname, pod.uid);
      hide AllowStaticPodStart, MayStart;
    }
  }

  // ---------------------------------------------------------------- first come, first served

  /** In this list every v comes after some u. */
  ghost predicate Ahead(list: seq<UID>, u: UID, v: UID) {
    u in list && forall k :: 0 <= k < |list| && list[k] == v ==> u in list[..k]
  }

  /** While u is in line, a pod queued behind it is not let in. */
  lemma NoOvertaking(s: Shared, f: FullName, u: UID, v: UID)
    requires u != v && Eligible(s, u) && Ahead(Waiting(s, f), u, v)
    requires f !in s.startedStatic
    ensures !MayStart(s, f, v)
  {
    var list := Waiting(s, f);
    forall k | 0 <= k < |list| && list[k] == v ensures exists j :: 0 <= j < k && Eligible(s, list[j]) {
      var j :| 0 <= j < k && list[..k][j] == u;
      assert Eligible(s, list[j]);
    }
  }

  lemma AheadAfterAppend(list: seq<UID>, u: UID, v: UID, x: UID)
    requires Ahead(list, u, v)
    ensures Ahead(list + [x], u, v)
  {
    var l := list + [x];
    assert l[..|list|] == list;
    forall k | 0 <= k < |l| && l[k] == v ensures u in l[..k] {
      if k < |list| { assert l[..k] == list[..k]; }
    }
  }

  /** Dropping ineligible UIDs from the front keeps an eligible u ahead. */
  lemma AheadAfterTrim(s: Shared, list: seq<UID>, u: UID, v: UID, n: nat)
    requires Ahead(list, u, v) && Eligible(s, u) && n <= |list|
    requires forall j :: 0 <= j < n ==> list[j] != u
    ensures Ahead(list[n..], u, v)
  {
    var l := list[n..];
    var m :| 0 <= m < |list| && list[m] == u;
    assert l[m - n] == u;
    forall k | 0 <= k < |l| && l[k] == v ensures u in l[..k] {
      var j :| 0 <= j < k + n && list[j] == u;
      assert l[..k][j - n] == u;
    }
  }

  /** How a step can change the queue of f: not at all, by one more UID at its end, or by
      dropping UIDs from its front that are ineligible or just let in. */
  ghost predicate QueueChange(s: Shared, s': Shared, f: FullName) {
    || Waiting(s', f) == Waiting(s, f)
    || (exists x :: Waiting(s', f) == Waiting(s, f) + [x])
    || (exists n :: 0 <= n <= |Waiting(s, f)| && Waiting(s', f) == Waiting(s, f)[n..]
          && (forall j :: 0 <= j < n ==>
                !Eligible(s, Waiting(s, f)[j])
                || (f in s'.startedStatic && s'.startedStatic[f] == Waiting(s, f)[j])))
  }

  /** The holder of f is new only if it might start. */
  ghost predicate HolderChange(s: Shared, s': Shared, f: FullName) {
    f in s'.startedStatic ==>
      || (f in s.startedStatic && s.startedStatic[f] == s'.startedStatic[f])
      || (f !in s.startedStatic && MayStart(s, f, s'.startedStatic[f]))
  }

  /** At most one queue changes: a static pod without a channel joins the end of its own. */
  ghost predicate Joins(s: Shared, s': Shared, pod: Pod, f: FullName) {
    && s'.startedStatic == s.startedStatic
    && (|| Waiting(s', f) == Waiting(s, f)
        || (&& Waiting(s', f) == Waiting(s, f) + [pod.uid]
            && pod.isStatic && pod.uid !in s.podUpdates
            && pod.uid in s'.statuses && s'.statuses[pod.uid].fullname == f))
  }

  lemma JoinsThen(s: Shared, s1: Shared, s2: Shared, s3: Shared, pod: Pod, f: FullName)
    requires s1.startedStatic == s.startedStatic && s1.waitingStatic == s.waitingStatic && s1.podUpdates == s.podUpdates
    requires Joins(s1, s2, pod, f)
    requires s3.startedStatic == s2.startedStatic && s3.waitingStatic == s2.waitingStatic
    requires pod.uid in s2.statuses ==>
               pod.uid in s3.statuses && s3.statuses[pod.uid].fullname == s2.statuses[pod.uid].fullname
    ensures Joins(s, s3, pod, f)
  {
  }

  lemma DispatchKeepsQueues(s: Shared, u: UID, v: Verdict)
    ensures var s' := Dispatch(s, u, v);
            && s'.startedStatic == s.startedStatic && s'.waitingStatic == s.waitingStatic
            && u in s'.statuses && s'.statuses[u].fullname == v.status.fullname
  {
    hide Dispatch;
    DispatchEffect(s, u, v);
  }

  lemma ServeJoins(s: Shared, pod: Pod, fullname: FullName, v: Verdict, f: FullName)
    requires v.status.fullname == fullname
    ensures Joins(s, Dispatch(Prepared(s, pod, fullname, v), pod.uid, v), pod, f)
  {
    hide Dispatch, Joins;
    var s1 := SetStatus(s, pod.uid, v.status);
    var s2 := CloseCompletion(s1, v.close);
    hide CloseCompletion, SetStatus;
    CloseKeeps(s1, v.close);
    var s3 := EnsureWorker(s2, pod, fullname);
    StatusSet(s, pod.uid, v.status);
    EnsureJoins(s2, pod, fullname, f);
    DispatchKeepsQueues(s3, pod.uid, v);
    assert s3.statuses == s2.statuses;
    hide EnsureWorker;
    JoinsThen(s, s2, s3, Dispatch(s3, pod.uid, v), pod, f);
  }

  lemma StatusSet(s: Shared, u: UID, st: PodSyncStatus)
    ensures var s' := SetStatus(s, u, st);
            && s'.statuses == s.statuses[u := st] && s'.startedStatic == s.startedStatic
            && s'.waitingStatic == s.waitingStatic && s'.podUpdates == s.podUpdates
  {
  }

  lemma CloseKeeps(s: Shared, c: Option<CompletedCh>)
    ensures var s' := CloseCompletion(s, c);
            && s'.statuses == s.statuses && s'.startedStatic == s.startedStatic
            && s'.waitingStatic == s.waitingStatic && s'.podUpdates == s.podUpdates
  {
  }

  lemma EnsureJoins(s: Shared, pod: Pod, fullname: FullName, f: FullName)
    requires pod.uid in s.statuses && s.statuses[pod.uid].fullname == fullname
    ensures Joins(s, EnsureWorker(s, pod, fullname), pod, f)
  {
  }

  lemma AdmitJoins(s: Shared, pod: Pod, runtime: bool, ut: SyncPodType, kill: Option<KillPodOptions>, f: FullName)
    requires pod.uid in s.statuses
    ensures Joins(s, Admit(s, pod, runtime, ut, kill, false), pod, f)
  {
    hide Decide, Dispatch, EnsureWorker;
    var st := s.statuses[pod.uid];
    DecideAdvances(st, pod, runtime, ut, kill);
    ServeJoins(s, pod, st.fullname, Decide(st, pod, runtime, ut, kill), f);
  }

  lemma UpdateJoins(s: Shared, o: UpdatePodOptions, cacheTerminal: bool, f: FullName)
    requires o.WellFormed()
    ensures Joins(s, UpdatePod(s, o, cacheTerminal), o.Target(), f)
  {
    hide Admit;
    if !(o.IsRuntime() && !o.updateType.SyncPodKill?) {
      var s1 := Register(s, o.Target(), o.IsRuntime(), cacheTerminal);
      AdmitRegistered(s, o.Target(), o.IsRuntime(), o.updateType, o.kill, cacheTerminal);
      AdmitJoins(s1, o.Target(), o.IsRuntime(), o.updateType, o.kill, f);
    }
  }

  lemma AllowQueues(s: Shared, g: FullName, u: UID, f: FullName)
    ensures var s' := AllowStaticPodStart(s, g, u).0;
            QueueChange(s, s', f) && HolderChange(s, s', f)
  {
    AdmitsExactly(s, g, u);
    if g !in s.startedStatic && f == g {
      var list := Waiting(s, f);
      var i := FirstEligible(s, list);
      if i < |list| && list[i] == u {
        assert Waiting(AllowStaticPodStart(s, g, u).0, f) == list[i + 1..];
      } else if i < |list| {
        assert Waiting(AllowStaticPodStart(s, g, u).0, f) == list[i..];
      } else {
        assert Waiting(AllowStaticPodStart(s, g, u).0, f) == list;
      }
    }
  }

  lemma ChangeThen(s: Shared, s1: Shared, s2: Shared, f: FullName)
    requires QueueChange(s, s1, f) && HolderChange(s, s1, f)
    requires s2.startedStatic == s1.startedStatic && s2.waitingStatic == s1.waitingStatic
    ensures QueueChange(s, s2, f) && HolderChange(s, s2, f)
  {
    assert Waiting(s2, f) == Waiting(s1, f);
  }

  lemma TryStartQueues(s: System, w: nat, f: FullName)
    requires Inv(s) && Enabled(s, TryStart(w))
    ensures var s' := Apply(s, TryStart(w)); QueueChange(s.sh, s'.sh, f) && HolderChange(s.sh, s'.sh, f)
  {
    LiveWorker(s, w);
    var pod := s.workers[w].phase.work.pod;
    var fullname := s.sh.statuses[pod.uid].fullname;
    var s1 := if pod.isStatic && !s.sh.statuses[pod.uid].terminatingAt
              then AllowStaticPodStart(s.sh, fullname, pod.uid).0 else s.sh;
    var s2 := AllowPodStart(s.sh, pod).0;
    assert s2.startedStatic == s1.startedStatic && s2.waitingStatic == s1.waitingStatic by {
      hide AllowStaticPodStart;
    }
    assert Apply(s, TryStart(w)).sh == s2;
    AllowQueues(s.sh, fullname, pod.uid, f);
    assert QueueChange(s.sh, s.sh, f) && HolderChange(s.sh, s.sh, f);
    hide *;
    ChangeThen(s.sh, s1, s2, f);
  }

  /** The queues stay as they are, and at most one name becomes free. */
  ghost predicate Frees(s: Shared, s': Shared) {
    && s'.waitingStatic == s.waitingStatic
    && (s'.startedStatic == s.startedStatic || exists f :: s'.startedStatic == s.startedStatic - {f})
  }

  lemma CompleteFrees(s: System, w: nat)
    requires Inv(s) && Enabled(s, Complete(w))
    ensures Frees(s.sh, Apply(s, Complete(w)).sh)
  {
    LiveWorker(s, w);
    var u := s.workers[w].uid;
    var Returned(work, _, outcome) := s.workers[w].phase;
    if outcome.Done? && work.workType.TerminatedPodWork? {
      FinishFrees(CleanupPodUpdates(s.sh, u), u, s.sh.statuses[u].terminatedAt, false);
      CleanupEffect(s.sh, u);
    } else if outcome.Done? && work.workType.TerminatingPodWork? && work.runtime {
      FinishFrees(s.sh, u, true, false);
      CleanupEffect(Finish(s.sh, u, true, false), u);
    }
  }

  lemma FinishFrees(s: Shared, u: UID, terminatedAt: bool, suspicious: bool)
    requires u in s.statuses
    ensures Frees(s, Finish(s, u, terminatedAt, suspicious))
  {
  }

  lemma GiveUpFrees(s: System, w: nat)
    requires Inv(s) && Enabled(s, GiveUp(w))
    ensures Frees(s.sh, Apply(s, GiveUp(w)).sh)
  {
    LiveWorker(s, w);
    var u := s.workers[w].uid;
    CleanupEffect(s.sh, u);
    FinishFrees(CleanupPodUpdates(s.sh, u), u, true, false);
  }

  /** All other steps of workers leave the queues alone and can only free names. */
  lemma OtherQueues(s: System, e: Event)
    requires Inv(s) && Enabled(s, e) && IsWorkerEvent(e) && !e.TryStart?
    ensures Frees(s.sh, Apply(s, e).sh)
  {
    if e.Complete? {
      CompleteFrees(s, e.w);
    } else if e.GiveUp? {
      GiveUpFrees(s, e.w);
    } else {
      hide ApplyComplete, CompleteUnstartedTerminated;
      LiveWorker(s, WorkerOf(e));
    }
  }

  lemma StepQueues(s: System, e: Event, s': System, f: FullName)
    requires Inv(s) && Next(s, e, s')
    ensures QueueChange(s.sh, s'.sh, f) && HolderChange(s.sh, s'.sh, f)
  {
    hide UpdatePod, SyncKnownPods, ApplyComplete, ApplyTryStart, ApplyTakeContext, ApplyReceive,
         CompleteWorkQueueNext, CompleteUnstartedTerminated, AcknowledgeTerminating;
    if e.Update? {
      UpdateJoins(s.sh, e.options, e.cacheTerminal, f);
    } else if e.SyncKnown? {
      SyncKnownQueues(s, e.order, e.desired);
    } else if e.TryStart? {
      TryStartQueues(s, e.w, f);
    } else {
      OtherQueues(s, e);
    }
  }

  lemma SyncKnownQueues(s: System, order: seq<UID>, desired: set<UID>)
    requires Inv(s)
    ensures var s' := SyncKnownPods(s.sh, order, desired);
            s'.waitingStatic == s.sh.waitingStatic && s'.startedStatic == s.sh.startedStatic
  {
    hide Inv, Sweep;
    InvFinishedAreIdle(s);
    SweepForgets(s.sh.(podsSynced := true), order, desired);
  }

  lemma StepKeepsTurn(s: System, e: Event, s': System, f: FullName, u: UID, v: UID)
    requires Inv(s) && Next(s, e, s') && Inv(s')
    requires InLine(s, u) && InLine(s', u) && s.sh.statuses[u].fullname == f && u != v
    requires Ahead(Waiting(s.sh, f), u, v)
    ensures Ahead(Waiting(s'.sh, f), u, v)
    ensures f in s'.sh.startedStatic && s'.sh.startedStatic[f] == v ==>
              f in s.sh.startedStatic && s.sh.startedStatic[f] == v
  {
    hide Next;
    StepQueues(s, e, s', f);
    assert PodFits(u, ViewOf(s, u));
    assert Eligible(s.sh, u);
    var list := Waiting(s.sh, f);
    if f !in s.sh.startedStatic {
      NoOvertaking(s.sh, f, u, v);
    }
    if x :| Waiting(s'.sh, f) == list + [x] {
      AheadAfterAppend(list, u, v, x);
    } else if Waiting(s'.sh, f) != list {
      var n :| 0 <= n <= |list| && Waiting(s'.sh, f) == list[n..]
               && (forall j :: 0 <= j < n ==>
                     !Eligible(s.sh, list[j]) || (f in s'.sh.startedStatic && s'.sh.startedStatic[f] == list[j]));
      assert f in s'.sh.startedStatic ==> HoldsName(s', s'.sh.startedStatic[f]);
      AheadAfterTrim(s.sh, list, u, v, n);
    }
  }

  /** As long as u waits in line, no pod queued behind it takes the name. */
  lemma {:induction false} FirstComeFirstServed(tr: seq<System>, events: seq<Event>, i: nat, j: nat,
                                                f: FullName, u: UID, v: UID)
    requires IsRun(tr, events) && i <= j < |tr| && u != v
    requires forall k :: i <= k <= j ==> InLine(tr[k], u) && tr[k].sh.statuses[u].fullname == f
    requires Ahead(Waiting(tr[i].sh, f), u, v)
    requires !(f in tr[i].sh.startedStatic && tr[i].sh.startedStatic[f] == v)
    ensures Ahead(Waiting(tr[j].sh, f), u, v)
    ensures !(f in tr[j].sh.startedStatic && tr[j].sh.startedStatic[f] == v)
    decreases j - i
  {
    hide Next, Inv, IsRun, InLine, Ahead;
    RunStarts(tr, events);
    if i < j {
      RunStep(tr, events, i);
      RunInv(tr, events, i + 1);
      StepKeepsTurn(tr[i], events[i], tr[i + 1], f, u, v);
      FirstComeFirstServed(tr, events, i + 1, j, f, u, v);
    }
  }

  /** Nobody in line is ever dropped from its list. */
  lemma StaysInQueue(tr: seq<System>, events: seq<Event>, i: nat, u: UID)
    requires IsRun(tr, events) && i < |tr| && InLine(tr[i], u)
    ensures u in Waiting(tr[i].sh, tr[i].sh.statuses[u].fullname)
  {
    RunInv(tr, events, i);
  }

  // ---------------------------------------------------------------- can a queue jam?

  /** Somebody in line under f would be let in. */
  ghost predicate Moves(s: System, f: FullName) {
    exists u :: InLine(s, u) && s.sh.statuses[u].fullname == f && MayStart(s.sh, f, u)
  }

  /** When the name is free and somebody is in line for it, the queue moves exactly if the
      first eligible UID in it is itself in line for this name. */
  lemma JamsExactly(tr: seq<System>, events: seq<Event>, i: nat, f: FullName, v: UID)
    requires IsRun(tr, events) && i < |tr|
    requires f !in tr[i].sh.startedStatic
    requires InLine(tr[i], v) && tr[i].sh.statuses[v].fullname == f
    ensures var list := Waiting(tr[i].sh, f);
            var n := FirstEligible(tr[i].sh, list);
            && n < |list|
            && (Moves(tr[i], f) <==> InLine(tr[i], list[n]) && tr[i].sh.statuses[list[n]].fullname == f)
  {
    RunInv(tr, events, i);
    var s, list := tr[i], Waiting(tr[i].sh, f);
    assert PodFits(v, ViewOf(s, v));
    var m :| 0 <= m < |list| && list[m] == v;
    assert Eligible(s.sh, list[m]);
    var n := FirstEligible(s.sh, list);
    if Moves(s, f) {
      var u :| InLine(s, u) && s.sh.statuses[u].fullname == f && MayStart(s.sh, f, u);
      AdmitsExactly(s.sh, f, u);
    }
    if InLine(s, list[n]) && s.sh.statuses[list[n]].fullname == f {
      assert MayStart(s.sh, f, list[n]);
    }
  }

  /** Every known UID in a queue is there under its own name and as a static pod. */
  ghost predicate QueuesHonest(s: System) {
    forall f, u :: u in Waiting(s.sh, f) && u in s.sh.statuses && !s.sh.statuses[u].finished ==>
      && s.sh.statuses[u].fullname == f
      && u in s.sh.podUpdates && s.sh.podUpdates[u] in s.workers && s.workers[s.sh.podUpdates[u]].isStatic
  }

  /** Callers never register a UID again under another name or kind than the one it is
      still queued under. */
  ghost predicate SameName(s: System, e: Event) {
    e.Update? && e.options.WellFormed() && e.options.Target().uid !in s.sh.statuses ==>
      forall f :: e.options.Target().uid in Waiting(s.sh, f) ==>
        e.options.Target().fullname == f && e.options.Target().isStatic
  }

  /** A pod that UpdatePod registers is recorded under its name and as its kind. */
  lemma RegisteredAsItself(s: System, o: UpdatePodOptions, cacheTerminal: bool)
    requires Inv(s) && o.WellFormed() && o.Target().uid !in s.sh.statuses
    requires o.Target().uid in ApplyUpdate(s, o, cacheTerminal).sh.statuses
    ensures var s', u := ApplyUpdate(s, o, cacheTerminal), o.Target().uid;
            && s'.sh.statuses[u].fullname == o.Target().fullname
            && (u in s'.sh.podUpdates ==>
                  s'.sh.podUpdates[u] in s'.workers && s'.workers[s'.sh.podUpdates[u]].isStatic == o.Target().isStatic)
  {
    hide Inv, UpdatePod;
    assert o.Target().uid !in s.sh.podUpdates by { UnknownHasNoChannel(s, o.Target().uid); }
    UpdateTouches(s.sh, o, cacheTerminal);
    RegisteredName(s.sh, o, cacheTerminal);
  }

  lemma UnknownHasNoChannel(s: System, u: UID)
    requires Inv(s) && u !in s.sh.statuses
    ensures u !in s.sh.podUpdates
  {
    assert PodFits(u, ViewOf(s, u));
  }

  lemma RegisteredName(s: Shared, o: UpdatePodOptions, cacheTerminal: bool)
    requires o.WellFormed() && o.Target().uid !in s.statuses
    ensures o.Target().uid in UpdatePod(s, o, cacheTerminal).statuses ==>
              UpdatePod(s, o, cacheTerminal).statuses[o.Target().uid].fullname == o.Target().fullname
  {
    hide Admit;
    if !(o.IsRuntime() && !o.updateType.SyncPodKill?) {
      AdmitRegistered(s, o.Target(), o.IsRuntime(), o.updateType, o.kill, cacheTerminal);
      AdmitTouches(Register(s, o.Target(), o.IsRuntime(), cacheTerminal),
                   o.Target(), o.IsRuntime(), o.updateType, o.kill);
    }
  }

  lemma StaysHonest(s: System, e: Event, s': System, f: FullName, u: UID)
    requires Inv(s) && Next(s, e, s') && Inv(s') && QueuesHonest(s) && SameName(s, e)
    requires u in Waiting(s'.sh, f) && u in s'.sh.statuses && !s'.sh.statuses[u].finished
    ensures s'.sh.statuses[u].fullname == f
    ensures u in s'.sh.podUpdates && s'.sh.podUpdates[u] in s'.workers && s'.workers[s'.sh.podUpdates[u]].isStatic
  {
    assert u in s'.sh.podUpdates && s'.sh.podUpdates[u] in s'.workers by { assert PodFits(u, ViewOf(s', u)); }
    StepProgresses(s, e, s', u);
    if u in s.sh.statuses && !s.sh.statuses[u].finished {
      assert u in s.sh.podUpdates by { assert PodFits(u, ViewOf(s, u)); }
      OldInQueue(s, e, s', f, u);
      StepKeepsWorker(s, e, s', s.sh.podUpdates[u]);
    } else {
      RegisteredAsItself(s, e.options, e.cacheTerminal);
      UpdateJoins(s.sh, e.options, e.cacheTerminal, f);
    }
  }

  lemma OldInQueue(s: System, e: Event, s': System, f: FullName, u: UID)
    requires Inv(s) && Next(s, e, s') && u in Waiting(s'.sh, f) && u in s.sh.podUpdates
    ensures u in Waiting(s.sh, f)
  {
    hide UpdatePod, SyncKnownPods, ApplyComplete, ApplyTakeContext, ApplyReceive,
         CompleteWorkQueueNext, CompleteUnstartedTerminated, AcknowledgeTerminating;
    if e.Update? {
      UpdateJoins(s.sh, e.options, e.cacheTerminal, f);
    } else if e.SyncKnown? {
      SyncKnownQueues(s, e.order, e.desired);
    } else if e.TryStart? {
      LiveWorker(s, e.w);
      var pod := s.workers[e.w].phase.work.pod;
      if pod.isStatic && !s.sh.statuses[pod.uid].terminatingAt {
        AllowShrinks(s.sh, s.sh.statuses[pod.uid].fullname, pod.uid, f, u);
      }
    } else {
      OtherQueues(s, e);
    }
  }

  lemma AllowShrinks(s: Shared, g: FullName, u: UID, f: FullName, x: UID)
    requires x in Waiting(AllowStaticPodStart(s, g, u).0, f)
    ensures x in Waiting(s, f)
  {
    var list := Waiting(s, f);
    if g !in s.startedStatic && f == g {
      var i := FirstEligible(s, list);
      if i < |list| {
        assert x in list[i..] || x in list[i + 1..];
      }
    }
  }

  lemma StepHonest(s: System, e: Event, s': System)
    requires Inv(s) && Next(s, e, s') && Inv(s') && QueuesHonest(s) && SameName(s, e)
    ensures QueuesHonest(s')
  {
    hide Inv, Next, SameName;
    forall f, u | u in Waiting(s'.sh, f) && u in s'.sh.statuses && !s'.sh.statuses[u].finished
      ensures s'.sh.statuses[u].fullname == f
      ensures u in s'.sh.podUpdates && s'.sh.podUpdates[u] in s'.workers && s'.workers[s'.sh.podUpdates[u]].isStatic
    {
      StaysHonest(s, e, s', f, u);
    }
  }

  lemma {:induction false} RunHonest(tr: seq<System>, events: seq<Event>, i: nat)
    requires StableRun(tr, events) && i < |tr|
    requires forall k :: 0 <= k < i ==> SameName(tr[k], events[k])
    ensures QueuesHonest(tr[i])
  {
    hide Next, Inv, KindsFit, StableRun, IsRun, SameName, QueuesHonest;
    StableIsRun(tr, events);
    RunStarts(tr, events);
    if i == 0 {
      StartHonest();
    } else {
      RunHonest(tr, events, i - 1);
      RunStep(tr, events, i - 1);
      StepHonest(tr[i - 1], events[i - 1], tr[i]);
    }
  }

  lemma StartHonest()
    ensures QueuesHonest(START)
  {
  }

  /** So a queue never jams while no UID is registered again under another name or kind than
      the one it is still queued under. */
  lemma QueueNeverJams(tr: seq<System>, events: seq<Event>, i: nat, f: FullName, v: UID)
    requires StableRun(tr, events) && i < |tr|
    requires forall k :: 0 <= k < i ==> SameName(tr[k], events[k])
    requires f !in tr[i].sh.startedStatic
    requires InLine(tr[i], v) && tr[i].sh.statuses[v].fullname == f
    ensures Moves(tr[i], f)
  {
    RunHonest(tr, events, i);
    JamsExactly(tr, events, i, f, v);
    RunKinds(tr, events, i);
    HonestMoves(tr[i], f);
  }

  lemma HonestMoves(s: System, f: FullName)
    requires Sound(s, true) && QueuesHonest(s) && f !in s.sh.startedStatic
    ensures var list := Waiting(s.sh, f);
            var n := FirstEligible(s.sh, list);
            n < |list| ==> InLine(s, list[n]) && s.sh.statuses[list[n]].fullname == f
  {
    var list := Waiting(s.sh, f);
    var n := FirstEligible(s.sh, list);
    if n < |list| {
      assert list[n] in list;
      assert PodFits(list[n], ViewOf(s, list[n]));
      LinkedWorker(s, list[n]);
      LiveKinds(s, s.sh.podUpdates[list[n]], true);
      assert !HoldsName(s, list[n]);
    }
  }

  // ---------------------------------------------------------------- why a queue jams

  /** Since step r, u has been known as the pod that the request of that step named. */
  predicate KnownAs(s: System, u: UID, pod: Pod) {
    && u in s.sh.statuses && s.sh.statuses[u].fullname == pod.fullname
    && (!s.sh.statuses[u].finished ==>
          u in s.sh.podUpdates && s.sh.podUpdates[u] in s.workers
          && s.workers[s.sh.podUpdates[u]].isStatic == pod.isStatic)
  }

  lemma StaysKnownAs(s: System, e: Event, s': System, u: UID, pod: Pod)
    requires Inv(s) && Next(s, e, s') && Inv(s') && KnownAs(s, u, pod) && u in s'.sh.statuses
    ensures KnownAs(s', u, pod)
  {
    hide Next;
    StepProgresses(s, e, s', u);
    if !s'.sh.statuses[u].finished {
      assert PodFits(u, ViewOf(s', u));
      StepKeepsWorker(s, e, s', s.sh.podUpdates[u]);
    }
  }

  lemma RegistersAs(s: System, e: Event, s': System, u: UID)
    requires Inv(s) && Next(s, e, s') && Inv(s') && u !in s.sh.statuses && u in s'.sh.statuses
    ensures Registers(s, e, u) && KnownAs(s', u, e.options.Target())
  {
    StepProgresses(s, e, s', u);
    RegisteredAsItself(s, e.options, e.cacheTerminal);
    assert PodFits(u, ViewOf(s', u));
  }

  lemma {:induction false} KnownAsSince(tr: seq<System>, events: seq<Event>, r: nat, j: nat, u: UID)
    requires IsRun(tr, events) && |tr| == |events| + 1 && r < j < |tr|
    requires u !in tr[r].sh.statuses && forall k :: r < k <= j ==> u in tr[k].sh.statuses
    ensures Registers(tr[r], events[r], u) && KnownAs(tr[j], u, events[r].options.Target())
    decreases j - r
  {
    hide Next, Inv, IsRun, KnownAs;
    RunStep(tr, events, j - 1);
    if r == j - 1 {
      RegistersAs(tr[r], events[r], tr[j], u);
    } else {
      KnownAsSince(tr, events, r, j - 1, u);
      StaysKnownAs(tr[j - 1], events[j - 1], tr[j], u, events[r].options.Target());
    }
  }

  /** With the name free and a pod in line for it, somebody can start if and only if the first
      eligible UID x of the queue was registered, at step r, by a request that names it as a
      static pod of this name, and its worker was not let in unnamed since. */
  lemma JamCause(tr: seq<System>, events: seq<Event>, i: nat, f: FullName, v: UID) returns (r: nat, x: UID)
    requires IsRun(tr, events) && |tr| == |events| + 1 && i < |tr|
    requires f !in tr[i].sh.startedStatic
    requires InLine(tr[i], v) && tr[i].sh.statuses[v].fullname == f
    ensures var list := Waiting(tr[i].sh, f);
            FirstEligible(tr[i].sh, list) < |list| && x == list[FirstEligible(tr[i].sh, list)]
    ensures r < i && Registers(tr[r], events[r], x) && forall k :: r < k <= i ==> x in tr[k].sh.statuses
    ensures x in tr[i].sh.podUpdates
    ensures Moves(tr[i], f) <==>
              && events[r].options.Target().fullname == f && events[r].options.Target().isStatic
              && !WasLetInUnnamed(tr, events, i, tr[i].sh.podUpdates[x])
  {
    JamsExactly(tr, events, i, f, v);
    hide IsRun, Next, Moves, WasLetInUnnamed;
    var list := Waiting(tr[i].sh, f);
    x := list[FirstEligible(tr[i].sh, list)];
    assert Eligible(tr[i].sh, x);
    r := KnownSince(tr, events, i, x);
    KnownAsSince(tr, events, r, i, x);
    RunInv(tr, events, i);
    assert PodFits(x, ViewOf(tr[i], x));
    LinkedWorker(tr[i], x);
    UnnamedExactly(tr, events, i, tr[i].sh.podUpdates[x]);
    LiveWorker(tr[i], tr[i].sh.podUpdates[x]);
    assert HoldsName(tr[i], x) ==> tr[i].sh.statuses[x].fullname in tr[i].sh.startedStatic;
  }
}
