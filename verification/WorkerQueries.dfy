/** The questions other parts of the kubelet ask: their answers do not flap. */
module WorkerQueries {
  import opened PodTypes
  import opened WorkerState
  import opened WorkerSystem
  import opened WorkerInvariant
  import opened WorkerProgress
  import opened WorkerSafety

  /** No UpdatePod call between i and j makes u known again. */
  ghost predicate NotRegistered(tr: seq<System>, events: seq<Event>, i: nat, j: nat, u: UID)
    requires j < |tr| && |tr| == |events| + 1
  {
    forall k :: i <= k < j ==> !Registers(tr[k], events[k], u)
  }

  lemma StepKeepsAnswers(s: System, e: Event, s': System, u: UID)
    requires Progresses(s, e, s', u) && !Registers(s, e, u)
    ensures ShouldPodContainersBeTerminating(s.sh, u) ==> ShouldPodContainersBeTerminating(s'.sh, u)
    ensures ShouldPodRuntimeBeRemoved(s.sh, u) ==> ShouldPodRuntimeBeRemoved(s'.sh, u)
    ensures ShouldPodContentBeRemoved(s.sh, u) ==> ShouldPodContentBeRemoved(s'.sh, u)
    ensures CouldHaveRunningContainers(s'.sh, u) ==> CouldHaveRunningContainers(s.sh, u)
  {
  }

  /** An answer that once told a subsystem to clean up stands until the UID is registered
      anew; an answer that ruled out running containers stands as long. */
  lemma {:induction false} AnswersStand(tr: seq<System>, events: seq<Event>, i: nat, j: nat, u: UID)
    requires IsRun(tr, events) && i <= j < |tr|
    requires NotRegistered(tr, events, i, j, u)
    ensures ShouldPodContainersBeTerminating(tr[i].sh, u) ==> ShouldPodContainersBeTerminating(tr[j].sh, u)
    ensures ShouldPodRuntimeBeRemoved(tr[i].sh, u) ==> ShouldPodRuntimeBeRemoved(tr[j].sh, u)
    ensures ShouldPodContentBeRemoved(tr[i].sh, u) ==> ShouldPodContentBeRemoved(tr[j].sh, u)
    ensures CouldHaveRunningContainers(tr[j].sh, u) ==> CouldHaveRunningContainers(tr[i].sh, u)
    decreases j - i
  {
    assert |tr| == |events| + 1;
    hide Next, Inv, IsRun, Registers, ShouldPodContainersBeTerminating,
         ShouldPodRuntimeBeRemoved, ShouldPodContentBeRemoved, CouldHaveRunningContainers;
    if i < j {
      RunStep(tr, events, i);
      StepProgresses(tr[i], events[i], tr[i + 1], u);
      StepKeepsAnswers(tr[i], events[i], tr[i + 1], u);
      AnswersStand(tr, events, i + 1, j, u);
    }
  }

  // ---------------------------------------------------------------- SyncKnownPods

  function Elements(order: seq<UID>): set<UID> {
    set u | u in order
  }

  /** The pods one housekeeping pass forgets. */
  function Forgotten(s: Shared, desired: set<UID>): set<UID> {
    set u | u in s.statuses && s.statuses[u].finished && (u !in desired || s.statuses[u].restartRequested)
  }

  /** No finished pod has a channel, a slot or the right to its name. */
  ghost predicate FinishedAreIdle(s: Shared) {
    && (forall u :: u in s.statuses && s.statuses[u].finished ==> u !in s.podUpdates && u !in s.lastUndelivered)
    && (forall f :: f in s.startedStatic ==>
          !(s.startedStatic[f] in s.statuses && s.statuses[s.startedStatic[f]].finished))
  }

  lemma InvFinishedAreIdle(s: System)
    requires Inv(s)
    ensures FinishedAreIdle(s.sh)
  {
    forall u | u in s.sh.statuses && s.sh.statuses[u].finished
      ensures u !in s.sh.podUpdates && u !in s.sh.lastUndelivered
    {
      assert PodFits(u, ViewOf(s, u));
    }
    forall f | f in s.sh.startedStatic
      ensures !(s.sh.startedStatic[f] in s.sh.statuses && s.sh.statuses[s.sh.startedStatic[f]].finished)
    {
      assert HoldsName(s, s.sh.startedStatic[f]);
    }
  }

  lemma VisitForgets(s: Shared, u: UID, desired: set<UID>)
    requires FinishedAreIdle(s)
    ensures VisitKnown(s, u, desired)
         == if u in Forgotten(s, desired) then s.(statuses := s.statuses - {u}) else s
    ensures FinishedAreIdle(VisitKnown(s, u, desired))
  {
    if u in Forgotten(s, desired) {
      var s1 := s.(statuses := s.statuses - {u});
      assert s1.podUpdates - {u} == s1.podUpdates && s1.lastUndelivered - {u} == s1.lastUndelivered;
      assert CleanupPodUpdates(s1, u) == s1;
      assert Release(s1, s.statuses[u].fullname, u) == s1;
    }
  }

  function Forget(s: Shared, order: seq<UID>, desired: set<UID>): Shared {
    s.(statuses := s.statuses - (Forgotten(s, desired) * Elements(order)))
  }

  lemma {:induction false} SweepForgets(s: Shared, order: seq<UID>, desired: set<UID>)
    requires FinishedAreIdle(s)
    ensures Sweep(s, order, desired) == Forget(s, order, desired)
    ensures FinishedAreIdle(Sweep(s, order, desired))
    decreases |order|
  {
    if order == [] {
      assert s.statuses - (Forgotten(s, desired) * Elements(order)) == s.statuses;
    } else {
      hide FinishedAreIdle, VisitKnown, Forget;
      var front, last := order[..|order| - 1], order[|order| - 1];
      assert order == front + [last];
      SweepForgets(s, front, desired);
      VisitForgets(Sweep(s, front, desired), last, desired);
      ForgetOneMore(s, front, last, desired);
    }
  }

  lemma ForgetOneMore(s: Shared, front: seq<UID>, last: UID, desired: set<UID>)
    ensures Forget(s, front + [last], desired)
         == if last in Forgotten(Forget(s, front, desired), desired)
            then Forget(s, front, desired).(statuses := Forget(s, front, desired).statuses - {last})
            else Forget(s, front, desired)
  {
    hide Forgotten;
    var gone := Forgotten(s, desired) * Elements(front);
    assert Elements(front + [last]) == Elements(front) + {last};
    ForgottenAfter(s, gone, last, desired);
    if last in Forgotten(s, desired) {
      assert s.statuses - gone - {last} == s.statuses - (gone + {last});
    }
  }

  lemma ForgottenAfter(s: Shared, gone: set<UID>, u: UID, desired: set<UID>)
    ensures u in Forgotten(s.(statuses := s.statuses - gone), desired) <==> u in Forgotten(s, desired) && u !in gone
  {
  }

  /** Whatever order the map yields its keys in, a pass of SyncKnownPods forgets exactly the
      finished pods that are undesired or asked to be restarted, and touches nothing else. */
  lemma SyncKnownForgetsExactly(tr: seq<System>, events: seq<Event>, i: nat)
    requires IsRun(tr, events) && i < |events| && events[i].SyncKnown?
    ensures tr[i + 1] == tr[i].(sh := tr[i].sh.(
              podsSynced := true,
              statuses := tr[i].sh.statuses - Forgotten(tr[i].sh, events[i].desired)))
  {
    hide Inv, Sweep;
    RunStep(tr, events, i);
    InvFinishedAreIdle(tr[i]);
    var s, desired := tr[i].sh.(podsSynced := true), events[i].desired;
    SweepForgets(s, events[i].order, desired);
    assert Forgotten(s, desired) == Forgotten(tr[i].sh, desired);
    forall u | u in Forgotten(s, desired) ensures u in Elements(events[i].order) {
      assert u in tr[i].sh.statuses;
    }
    assert Forgotten(s, desired) * Elements(events[i].order) == Forgotten(s, desired);
  }
}
