/** generateAPIPodStatus: container statuses, phase, and the merge of the phase with what is
    stored and what the API shows; and what this amounts to over many calls. */
module StatusGeneration {
  import opened PodTypes
  import opened StatusTypes
  import opened ContainerStatuses
  import opened PodPhases
  import opened RuntimeStatus

  /** What one call is given besides the stored status. */
  datatype Sources = Sources(pod: ApiPod, records: seq<Record>, sorted: seq<Record>, failures: map<Name, string>)

  /** The status manager's, or the API's if it has none. */
  function Basis(x: Sources, stored: Option<ApiStatus>): ApiStatus {
    if stored.Some? then stored.value else x.pod.status
  }

  /** `olds` is the status a call starts from: the one stored, or what the API shows if none is. */
  predicate StartsFrom(x: Sources, stored: Option<ApiStatus>, olds: ApiStatus) {
    stored == Some(olds) || (stored == None && olds == x.pod.status)
  }

  function AppInput(x: Sources, stored: Option<ApiStatus>): Input {
    Input(x.pod, x.records, x.sorted, Basis(x, stored).containers, x.pod.spec.containers, false, x.failures)
  }

  function InitInput(x: Sources, stored: Option<ApiStatus>): Input {
    Input(x.pod, x.records, x.sorted, Basis(x, stored).initContainers, x.pod.spec.initContainers, true, x.failures)
  }

  /** The phase of the API wins if terminal, then the computed one, then the stored one. */
  function MergePhase(own: PodPhase, stored: PodPhase, api: PodPhase): PodPhase {
    if TerminalPhase(api) then api
    else if TerminalPhase(own) then own
    else if TerminalPhase(stored) then stored
    else own
  }

  ghost function OwnPhase(x: Sources, s: ApiStatus): PodPhase {
    PhaseOf(x.pod.spec, s.containers + s.initContainers)
  }

  /** s is what a call produces. */
  ghost predicate Generates(x: Sources, stored: Option<ApiStatus>, s: ApiStatus) {
    && Describes(s.containers, AppInput(x, stored))
    && Describes(s.initContainers, InitInput(x, stored))
    && s.phase == MergePhase(OwnPhase(x, s), Basis(x, stored).phase, x.pod.status.phase)
  }

  method GenerateAPIPodStatus(x: Sources, stored: Option<ApiStatus>) returns (s: ApiStatus)
    ensures Generates(x, stored, s)
    ensures TerminalPhase(x.pod.status.phase) ==> s.phase == x.pod.status.phase
    ensures Ascending(s.containers) && |s.initContainers| == |x.pod.spec.initContainers|
  {
    hide Describes;
    var old' := if stored.Some? then stored.value else x.pod.status;
    var containers := ConvertToAPIContainerStatuses(AppInput(x, stored));
    var initContainers := ConvertToAPIContainerStatuses(InitInput(x, stored));
    var phase := GetPhase(x.pod.spec, containers + initContainers);
    s := ApiStatus(phase, containers, initContainers);
    if s.phase != PodFailed && s.phase != PodSucceeded {
      if old'.phase == PodFailed || old'.phase == PodSucceeded {
        s := s.(phase := old'.phase);
      } else if x.pod.status.phase == PodFailed || x.pod.status.phase == PodSucceeded {
        s := s.(phase := x.pod.status.phase);
      }
    }
    if x.pod.status.phase == PodFailed || x.pod.status.phase == PodSucceeded {
      if s.phase != x.pod.status.phase {
        s := s.(phase := x.pod.status.phase);
      }
    }
  }

  // ---------------------------------------------------------------- terminal phases over many calls

  /** Calls whose results are stored back; between calls everything else may change. */
  ghost predicate IsHistory(calls: seq<Sources>, first: Option<ApiStatus>, results: seq<ApiStatus>) {
    && |results| == |calls|
    && forall k {:trigger calls[k]} :: 0 <= k < |calls| ==> Generates(calls[k], StoredBefore(first, results, k), results[k])
  }

  function StoredBefore(first: Option<ApiStatus>, results: seq<ApiStatus>, k: nat): Option<ApiStatus>
    requires k <= |results|
  {
    if k == 0 then first else Some(results[k - 1])
  }

  /** Once terminal, always terminal. */
  lemma {:induction false} TerminalAbsorbs(calls: seq<Sources>, first: Option<ApiStatus>,
                                            results: seq<ApiStatus>, j: nat, k: nat)
    requires IsHistory(calls, first, results) && j <= k < |results|
    requires TerminalPhase(results[j].phase)
    ensures TerminalPhase(results[k].phase)
  {
    hide Describes, PhaseOf;
    if j < k {
      TerminalAbsorbs(calls, first, results, j, k - 1);
      assert Generates(calls[k], Some(results[k - 1]), results[k]);
    }
  }

  // ---------------------------------------------------------------- finding the generated status

  lemma {:induction false} FindInPrefix(a: seq<ContainerStatus>, b: seq<ContainerStatus>, n: Name)
    ensures Find(a + b, n) == if Find(a, n).Some? then Find(a, n) else Find(b, n)
  {
    if a == [] {
      assert a + b == b;
    } else {
      assert (a + b)[1..] == a[1..] + b;
      FindInPrefix(a[1..], b, n);
    }
  }

  /** getPhase looks every container of the spec up to its own generated status. */
  lemma FindsGenerated(x: Sources, stored: Option<ApiStatus>, s: ApiStatus, n: Name)
    requires Generates(x, stored, s) && n in x.pod.spec.containers
    ensures Find(s.containers + s.initContainers, n) == Some(Generated(AppInput(x, stored), n))
  {
    hide Generated, PhaseOf, MergePhase, Find;
    FindInPrefix(s.containers, s.initContainers, n);
    FindIsMember(s.containers, n);
    var k :| 0 <= k < |s.containers| && s.containers[k].name == n;
    assert s.containers[k] in s.containers;
    assert Find(s.containers, n).Some?;
    var j :| 0 <= j < |s.containers| && s.containers[j] == Find(s.containers, n).value;
    assert s.containers[j] == Generated(AppInput(x, stored), s.containers[j].name);
  }

  // ---------------------------------------------------------------- the phase from what a call is given

  function InputOf(x: Sources, stored: Option<ApiStatus>, n: Name): Input {
    if n in x.pod.spec.containers then AppInput(x, stored) else InitInput(x, stored)
  }

  lemma FindsInit(x: Sources, stored: Option<ApiStatus>, s: ApiStatus, n: Name)
    requires Generates(x, stored, s) && n in x.pod.spec.initContainers
    ensures Find(s.containers + s.initContainers, n) == Some(Generated(InputOf(x, stored, n), n))
  {
    if n in x.pod.spec.containers {
      FindsGenerated(x, stored, s, n);
    } else {
      hide Generated, PhaseOf, MergePhase, Find;
      FindInPrefix(s.containers, s.initContainers, n);
      FindIsMember(s.containers, n);
      FindIsMember(s.initContainers, n);
      var k :| 0 <= k < |s.initContainers| && s.initContainers[k].name == n;
      assert s.initContainers[k] in s.initContainers;
      var j :| 0 <= j < |s.initContainers| && s.initContainers[j] == Find(s.initContainers, n).value;
      assert s.initContainers[j] == Generated(InitInput(x, stored), s.initContainers[j].name);
    }
  }

  ghost function AppShown(x: Sources, olds: ApiStatus, n: Name): Shown {
    ShownFrom(RecordsOf(x.sorted, n), OldStatus(olds.containers, n),
              HeldBack(x.pod, x.records, x.failures, false, n))
  }

  ghost function InitShown(x: Sources, olds: ApiStatus, n: Name): Shown {
    ShownFrom(RecordsOf(x.sorted, n), OldStatus(olds.initContainers, n),
              HeldBack(x.pod, x.records, x.failures, true, n))
  }

  function AppClassFrom(shown: Shown): AppClass {
    match shown
    case ShownRunning => AppRunning
    case ShownEnded(code, again) => AppStopped(code == 0 && !again)
    case ShownWaiting => AppWaiting
  }

  function InitClassFrom(shown: Shown): InitClass {
    match shown
    case ShownEnded(code, _) => if code == 0 then InitDone else InitFailed
    case _ => InitPending
  }

  lemma ShownClasses(s: ContainerStatus, shown: Shown)
    requires Shows(s, shown)
    ensures AppClassOf(Some(s)) == AppClassFrom(shown) && InitClassOf(Some(s)) == InitClassFrom(shown)
  {
  }

  ghost function AppNow(x: Sources, olds: ApiStatus, n: Name): AppClass {
    AppClassFrom(AppShown(x, olds, n))
  }

  /** An init container that is also an app container is looked up as the latter. */
  ghost function InitNow(x: Sources, olds: ApiStatus, n: Name): InitClass {
    InitClassFrom(if n in x.pod.spec.containers then AppShown(x, olds, n) else InitShown(x, olds, n))
  }

  ghost predicate SomeInitNow(x: Sources, olds: ApiStatus, c: InitClass) {
    exists n :: n in x.pod.spec.initContainers && InitNow(x, olds, n) == c
  }

  ghost predicate SomeAppNow(x: Sources, olds: ApiStatus, c: AppClass) {
    exists n :: n in x.pod.spec.containers && AppNow(x, olds, n) == c
  }

  /** The phase by the records, the old statuses and the failed starts. */
  ghost function PhaseNow(x: Sources, olds: ApiStatus): PodPhase {
    var spec := x.pod.spec;
    if spec.policy.Never? && SomeInitNow(x, olds, InitFailed) then PodFailed
    else if spec.containers == [] || SomeInitNow(x, olds, InitPending) || SomeAppNow(x, olds, AppWaiting) then PodPending
    else if spec.policy.Always? || SomeAppNow(x, olds, AppRunning) then PodRunning
    else if forall n :: n in spec.containers ==> AppNow(x, olds, n) == AppStopped(true) then PodSucceeded
    else if spec.policy.Never? then PodFailed
    else PodRunning
  }

  lemma ClassesNow(x: Sources, stored: Option<ApiStatus>, olds: ApiStatus, s: ApiStatus, n: Name)
    requires Generates(x, stored, s) && StartsFrom(x, stored, olds) && NewestFirst(x.records, x.sorted)
    ensures n in x.pod.spec.containers ==> AppClassOf(Find(s.containers + s.initContainers, n)) == AppNow(x, olds, n)
    ensures n in x.pod.spec.initContainers ==> InitClassOf(Find(s.containers + s.initContainers, n)) == InitNow(x, olds, n)
  {
    hide Generates, Generated, Shows, ShownFrom, AppClassFrom, InitClassFrom, AppClassOf, InitClassOf, HeldBack, Find,
         OldStatus, RecordsOf, NewestFirst;
    if n in x.pod.spec.containers {
      FindsGenerated(x, stored, s, n);
      GeneratedShows(AppInput(x, stored), n);
      ShownClasses(Generated(AppInput(x, stored), n), AppShown(x, olds, n));
    }
    if n in x.pod.spec.initContainers {
      FindsInit(x, stored, s, n);
      GeneratedShows(InputOf(x, stored, n), n);
      ShownClasses(Generated(InputOf(x, stored, n), n), if n in x.pod.spec.containers then AppShown(x, olds, n) else InitShown(x, olds, n));
    }
  }

  /** The phase the generated statuses amount to is that one. */
  lemma OwnPhaseExactly(x: Sources, stored: Option<ApiStatus>, olds: ApiStatus, s: ApiStatus)
    requires Generates(x, stored, s) && StartsFrom(x, stored, olds) && NewestFirst(x.records, x.sorted)
    ensures OwnPhase(x, s) == PhaseNow(x, olds)
  {
    var spec, info := x.pod.spec, s.containers + s.initContainers;
    SameClasses(x, stored, olds, s);
    AllStopped(x, olds);
    hide Generates, NewestFirst, SomeApp, SomeInit, SomeInitNow, SomeAppNow, AppNow;
  }

  lemma AllStopped(x: Sources, olds: ApiStatus)
    requires !SomeAppNow(x, olds, AppUnknown)
    ensures (forall n :: n in x.pod.spec.containers ==> AppNow(x, olds, n) == AppStopped(true)) <==>
              && !SomeAppNow(x, olds, AppWaiting) && !SomeAppNow(x, olds, AppRunning)
              && !SomeAppNow(x, olds, AppStopped(false))
  {
    hide AppNow;
    forall n | n in x.pod.spec.containers ensures SomeAppNow(x, olds, AppNow(x, olds, n)) {
    }
  }

  lemma SameClasses(x: Sources, stored: Option<ApiStatus>, olds: ApiStatus, s: ApiStatus)
    requires Generates(x, stored, s) && StartsFrom(x, stored, olds) && NewestFirst(x.records, x.sorted)
    ensures forall c :: SomeApp(x.pod.spec, s.containers + s.initContainers, c) <==> SomeAppNow(x, olds, c)
    ensures forall c :: SomeInit(x.pod.spec, s.containers + s.initContainers, c) <==> SomeInitNow(x, olds, c)
    ensures !SomeAppNow(x, olds, AppUnknown)
  {
    var spec, info := x.pod.spec, s.containers + s.initContainers;
    forall n ensures n in spec.containers ==> AppClassOf(Find(info, n)) == AppNow(x, olds, n)
      ensures n in spec.initContainers ==> InitClassOf(Find(info, n)) == InitNow(x, olds, n) {
      ClassesNow(x, stored, olds, s, n);
    }
    hide Generates, StartsFrom, NewestFirst, AppShown, InitShown, AppClassOf, InitClassOf, Find;
  }

  /** The phase of the result: the API's if that is terminal, else the one by records, old
      statuses and failed starts if that is, else the old one if that is, else again the second. */
  lemma PhaseExactly(x: Sources, stored: Option<ApiStatus>, olds: ApiStatus, s: ApiStatus)
    requires Generates(x, stored, s) && StartsFrom(x, stored, olds) && NewestFirst(x.records, x.sorted)
    ensures s.phase == if TerminalPhase(x.pod.status.phase) then x.pod.status.phase
                       else if TerminalPhase(olds.phase) && !TerminalPhase(PhaseNow(x, olds)) then olds.phase
                       else PhaseNow(x, olds)
  {
    OwnPhaseExactly(x, stored, olds, s);
    hide Describes, PhaseNow, NewestFirst;
  }

  /** A stored terminal phase gives way to the other one exactly if the API shows the other, or
      shows no terminal phase and records, old statuses and failed starts amount to the other. */
  lemma TerminalFlipsExactly(x: Sources, stored: ApiStatus, s: ApiStatus)
    requires Generates(x, Some(stored), s) && NewestFirst(x.records, x.sorted) && TerminalPhase(stored.phase)
    ensures var now := if TerminalPhase(x.pod.status.phase) then x.pod.status.phase else PhaseNow(x, stored);
            s.phase != stored.phase <==> TerminalPhase(now) && now != stored.phase
  {
    PhaseExactly(x, Some(stored), stored, s);
    hide Generates, PhaseNow, NewestFirst;
  }

  // ---------------------------------------------------------------- the first call after a restart

  /** An init container that the API shows to have succeeded, and that has no record any more. */
  ghost predicate DoneBefore(x: Sources, n: Name) {
    && n !in x.pod.spec.containers && RecordsOf(x.records, n) == []
    && var prior := OldStatus(x.pod.status.initContainers, n);
    && prior.Some? && !prior.value.state.running
    && prior.value.state.terminated.Some? && prior.value.state.terminated.value.exitCode == 0
  }

  /** A pod whose init containers the API shows to have succeeded, whose containers all show a
      run or an end, and one of which runs, is running when the status manager knows nothing. */
  lemma RestartKeepsRunning(x: Sources, s: ApiStatus)
    requires Generates(x, None, s) && NewestFirst(x.records, x.sorted) && !TerminalPhase(x.pod.status.phase)
    requires forall n :: n in x.pod.spec.initContainers ==> DoneBefore(x, n)
    requires forall n :: n in x.pod.spec.containers ==> !AppNow(x, x.pod.status, n).AppWaiting?
    requires SomeAppNow(x, x.pod.status, AppRunning)
    ensures s.phase == PodRunning
  {
    PhaseExactly(x, None, x.pod.status, s);
    forall n | n in x.pod.spec.initContainers ensures InitNow(x, x.pod.status, n) == InitDone {
      assert DoneBefore(x, n);
      SameNamesRecorded(Input(x.pod, x.records, x.sorted, [], [], false, map[]), n);
    }
    hide Generates, NewestFirst, AppNow, InitNow;
  }

  /** With the containers in place, a vanished init container waits exactly if its old status,
      or without a stored one the API's, does not show that it ran. */
  lemma VanishedInitWaitsExactly(x: Sources, stored: Option<ApiStatus>, olds: ApiStatus, s: ApiStatus, n: Name)
    requires Generates(x, stored, s) && StartsFrom(x, stored, olds) && NewestFirst(x.records, x.sorted)
    requires n in x.pod.spec.initContainers && n !in x.pod.spec.containers && RecordsOf(x.records, n) == []
    ensures Find(s.containers + s.initContainers, n).Some?
    ensures CountsAsWaiting(Find(s.containers + s.initContainers, n).value) <==> !RanBefore(OldStatus(olds.initContainers, n))
  {
    hide Generates, Generated, Find, OldStatus, RecordsOf;
    FindsInit(x, stored, s, n);
    VanishedWaitsExactly(InitInput(x, stored), n);
  }

  // ---------------------------------------------------------------- containers that vanished

  /** A container without a record is waiting if it never ran, and counts as ended, or as its
      old status says, if it did; it is never unknown. */
  lemma VanishedClass(x: Sources, stored: Option<ApiStatus>, olds: ApiStatus, s: ApiStatus, n: Name)
    requires Generates(x, stored, s) && StartsFrom(x, stored, olds) && n in x.pod.spec.containers
    requires NewestFirst(x.records, x.sorted) && RecordsOf(x.records, n) == []
    ensures var c, prior := AppClassOf(Find(s.containers + s.initContainers, n)), OldStatus(olds.containers, n);
            !c.AppUnknown? && (c.AppWaiting? <==> !RanBefore(prior))
  {
    hide Generates, Find, OldStatus, RecordsOf;
    FindsGenerated(x, stored, s, n);
    SameNamesRecorded(AppInput(x, stored), n);
  }

  /** A pod that vanished from the runtime goes back to Pending exactly if some container of it
      never ran. */
  lemma VanishedPodPendingExactly(x: Sources, stored: Option<ApiStatus>, olds: ApiStatus, s: ApiStatus)
    requires Generates(x, stored, s) && StartsFrom(x, stored, olds) && NewestFirst(x.records, x.sorted)
    requires x.pod.spec.containers != [] && x.pod.spec.initContainers == []
    requires forall n :: n in x.pod.spec.containers ==> RecordsOf(x.records, n) == []
    ensures OwnPhase(x, s).PodPending?
       <==> exists n :: n in x.pod.spec.containers && !RanBefore(OldStatus(olds.containers, n))
    ensures !TerminalPhase(olds.phase) && !TerminalPhase(x.pod.status.phase) ==> s.phase == OwnPhase(x, s)
  {
    var info, spec := s.containers + s.initContainers, x.pod.spec;
    forall n | n in spec.containers
      ensures !AppClassOf(Find(info, n)).AppUnknown?
      ensures AppClassOf(Find(info, n)).AppWaiting? <==> !RanBefore(OldStatus(olds.containers, n)) {
      VanishedClass(x, stored, olds, s, n);
    }
    hide Describes, Find, AppClassOf, RanBefore, OldStatus, RecordsOf, AppInput, InitInput;
  }

  // ---------------------------------------------------------------- vanishing over many calls

  lemma {:induction false} OldIsMember(previous: seq<ContainerStatus>, n: Name)
    ensures OldStatus(previous, n).None? ==> forall s :: s in previous ==> s.name != n
    decreases |previous|
  {
    if previous != [] && previous[|previous| - 1].name != n {
      OldIsMember(previous[..|previous| - 1], n);
      assert previous == previous[..|previous| - 1] + [previous[|previous| - 1]];
    }
  }

  /** The next call finds what this one generated. */
  lemma NextFinds(x: Sources, stored: Option<ApiStatus>, s: ApiStatus, n: Name)
    requires Generates(x, stored, s) && n in x.pod.spec.containers
    ensures OldStatus(s.containers, n) == Some(Generated(AppInput(x, stored), n))
  {
    hide Generated, PhaseOf, MergePhase, OldStatus;
    OldIsMember(s.containers, n);
    var k :| 0 <= k < |s.containers| && s.containers[k].name == n;
    assert s.containers[k] in s.containers;
    var old' := OldStatus(s.containers, n).value;
    var j :| 0 <= j < |s.containers| && s.containers[j] == old';
    assert s.containers[j] == Generated(AppInput(x, stored), s.containers[j].name);
  }

  /** The call's records of n, if any, show that it ran. */
  ghost predicate StillShown(x: Sources, olds: ApiStatus, n: Name) {
    var mine, prior := RecordsOf(x.sorted, n), OldStatus(olds.containers, n);
    || mine == []
    || ShowsEnd(mine[0], prior)
    || (|mine| > 1 && ShowsEnd(mine[1], prior))
    || (mine[0].state.StateRunning? && !HeldBack(x.pod, x.records, x.failures, false, n))
  }

  /** A call forgets that a container ran exactly if it has records of it that do not show it. */
  lemma RanIsKeptExactly(x: Sources, stored: Option<ApiStatus>, olds: ApiStatus, s: ApiStatus, n: Name)
    requires Generates(x, stored, s) && StartsFrom(x, stored, olds) && n in x.pod.spec.containers && NewestFirst(x.records, x.sorted)
    requires RanBefore(OldStatus(olds.containers, n))
    ensures RanBefore(OldStatus(s.containers, n)) <==> StillShown(x, olds, n)
  {
    hide Generates, OldStatus, RecordsOf, HeldBack, ShowsEnd, RanBefore;
    NextFinds(x, stored, s, n);
    RanBeforeKeptExactly(AppInput(x, stored), n);
    hide Generated;
  }

  /** Over any history, a container that ran once and that every call with records of it shows
      to have run is never again counted as waiting when its records vanish. */
  lemma {:induction false} NeverDraggedBack(calls: seq<Sources>, first: Option<ApiStatus>, results: seq<ApiStatus>,
                                            j: nat, k: nat, n: Name)
    requires IsHistory(calls, first, results) && j <= k < |results|
    requires forall m :: j <= m <= k ==> n in calls[m].pod.spec.containers && NewestFirst(calls[m].records, calls[m].sorted)
    requires RanBefore(OldStatus(results[j].containers, n))
    requires forall m :: j < m <= k ==> StillShown(calls[m], results[m - 1], n)
    ensures RanBefore(OldStatus(results[k].containers, n))
    ensures j < k && RecordsOf(calls[k].records, n) == [] ==>
              !AppClassOf(Find(results[k].containers + results[k].initContainers, n)).AppWaiting?
    decreases k
  {
    hide Describes, PhaseOf, StillShown, NewestFirst, OldStatus, RanBefore, RecordsOf, Find, AppClassOf, IsHistory;
    if j < k {
      NeverDraggedBack(calls, first, results, j, k - 1, n);
      HistoryStep(calls, first, results, k);
      hide Generates;
      RanIsKeptExactly(calls[k], Some(results[k - 1]), results[k - 1], results[k], n);
      if RecordsOf(calls[k].records, n) == [] {
        VanishedClass(calls[k], Some(results[k - 1]), results[k - 1], results[k], n);
      }
    }
  }

  lemma HistoryStep(calls: seq<Sources>, first: Option<ApiStatus>, results: seq<ApiStatus>, k: nat)
    requires IsHistory(calls, first, results) && 0 < k < |results|
    ensures |calls| == |results| && Generates(calls[k], Some(results[k - 1]), results[k])
  {
    hide Generates;
  }

  // ---------------------------------------------------------------- pods whose containers all have a record

  /** Every container of the pod has exactly one record, and runs or has exited. */
  ghost predicate Recorded(x: Sources) {
    var names := x.pod.spec.containers;
    && |x.records| == |names| && Distinct(names) && NewestFirst(x.records, x.sorted)
    && forall k :: 0 <= k < |names| ==> x.records[k].name == names[k]
                                        && (x.records[k].state.StateRunning? || x.records[k].state.StateExited?)
  }

  lemma {:induction false} FirstRecordIsMember(records: seq<Record>, n: Name)
    ensures FirstRecord(records, n).Some? ==> FirstRecord(records, n).value in records && FirstRecord(records, n).value.name == n
    ensures FirstRecord(records, n).None? ==> forall r :: r in records ==> r.name != n
  {
    if records != [] && records[0].name != n {
      FirstRecordIsMember(records[1..], n);
      assert records == [records[0]] + records[1..];
    }
  }

  /** The one record is the newest and the first. */
  lemma OnlyRecord(x: Sources, k: nat)
    requires Recorded(x) && k < |x.records|
    ensures var n := x.pod.spec.containers[k];
            && FirstRecord(x.records, n) == Some(x.records[k])
            && RecordsOf(x.sorted, n) != [] && RecordsOf(x.sorted, n)[0] == x.records[k]
  {
    var n, r := x.pod.spec.containers[k], x.records[k];
    FirstRecordIsMember(x.records, n);
    assert r in x.records;
    NewestComesFirst(Input(x.pod, x.records, x.sorted, [], [], false, map[]), n, r);
    var newest := RecordsOf(x.sorted, n)[0];
    var j :| 0 <= j < |x.records| && x.records[j] == newest;
    assert newest.name == n;
    var first := FirstRecord(x.records, n).value;
    var i :| 0 <= i < |x.records| && x.records[i] == first;
  }

  /** A container that exited stopped with success if its code is 0 as an int32 and it is not
      held up by a failed start. */
  predicate CleanExit(x: Sources, n: Name, code: int) {
    ToInt32(code) == 0
    && (code == 0 || !x.pod.spec.policy.OnFailure? || x.pod.deleting || n !in x.failures)
  }

  lemma RecordedClass(x: Sources, stored: Option<ApiStatus>, s: ApiStatus, k: nat)
    requires Recorded(x) && Generates(x, stored, s) && k < |x.records|
    ensures var c, r := AppClassOf(Find(s.containers + s.initContainers, x.pod.spec.containers[k])), x.records[k];
            if r.state.StateRunning? then c == AppRunning
            else c.AppStopped? && (!x.pod.spec.policy.Always? ==> c.success == CleanExit(x, r.name, r.exitCode))
  {
    var n := x.pod.spec.containers[k];
    FindsGenerated(x, stored, s, n);
    OnlyRecord(x, k);
    SameNamesRecorded(AppInput(x, stored), n);
    NewestRecordDecides(AppInput(x, stored), n);
    hide Generates, Recorded, Generated, Find, OldStatus, RecordsOf, FirstRecord, ToInt32;
  }

  /** Running while any container runs; then Succeeded, Failed or, for a restart, Running. */
  function PhaseWhenRecorded(x: Sources): PodPhase {
    if x.pod.spec.policy.Always? || exists k :: 0 <= k < |x.records| && x.records[k].state.StateRunning? then PodRunning
    else if forall k :: 0 <= k < |x.records| ==> CleanExit(x, x.records[k].name, x.records[k].exitCode) then PodSucceeded
    else if x.pod.spec.policy.Never? then PodFailed
    else PodRunning
  }

  lemma RecordedPhase(x: Sources, stored: Option<ApiStatus>, s: ApiStatus)
    requires Recorded(x) && Generates(x, stored, s)
    requires x.pod.spec.containers != [] && x.pod.spec.initContainers == []
    ensures OwnPhase(x, s) == PhaseWhenRecorded(x)
  {
    var info, names := s.containers + s.initContainers, x.pod.spec.containers;
    forall k | 0 <= k < |names|
      ensures var c, r := AppClassOf(Find(info, names[k])), x.records[k];
              if r.state.StateRunning? then c == AppRunning
              else c.AppStopped? && (!x.pod.spec.policy.Always? ==> c.success == CleanExit(x, r.name, r.exitCode)) {
      RecordedClass(x, stored, s, k);
    }
    hide Generates, Find, AppClassOf, CleanExit;
    forall c ensures SomeApp(x.pod.spec, info, c) <==> exists k :: 0 <= k < |names| && AppClassOf(Find(info, names[k])) == c {
      if SomeApp(x.pod.spec, info, c) {
        var n :| n in names && AppClassOf(Find(info, n)) == c;
        var k :| 0 <= k < |names| && names[k] == n;
        assert AppClassOf(Find(info, names[k])) == c;
      }
    }
    hide SomeApp;
  }

  // ---------------------------------------------------------------- from start to end

  /** From the start of a pod and any sequence of reports to its phase: Running until each
      container's last report is an exit; then Succeeded exactly if restarts are not always
      wanted and all exits are clean, Failed exactly if restarts are never wanted and one is not. */
  lemma PhaseAfterReports(x: Sources, stored: Option<ApiStatus>, olds: ApiStatus, s: ApiStatus, clock: seq<int>, ops: seq<Op>)
    requires var names := x.pod.spec.containers;
             names != [] && x.pod.spec.initContainers == [] && Distinct(names) && |clock| == |names|
             && x.records == ApplyAll(Started(names, StateRunning, clock), ops) && NewestFirst(x.records, x.sorted)
    requires Generates(x, stored, s)
    requires StartsFrom(x, stored, olds) && !TerminalPhase(olds.phase) && !TerminalPhase(x.pod.status.phase)
    ensures var names, policy := x.pod.spec.containers, x.pod.spec.policy;
            var allExited := forall k :: 0 <= k < |names| ==> LastExit(ops, names[k]).Some?;
            var allClean := allExited && forall k :: 0 <= k < |names| ==> CleanExit(x, names[k], LastExit(ops, names[k]).value);
            && (s.phase.PodSucceeded? <==> allClean && !policy.Always?)
            && (s.phase.PodFailed? <==> allExited && policy.Never? && !allClean)
            && (s.phase.PodSucceeded? || s.phase.PodFailed? || s.phase.PodRunning?)
  {
    var names := x.pod.spec.containers;
    forall k | 0 <= k < |names|
      ensures x.records[k].name == names[k]
      ensures var exit, r := LastExit(ops, names[k]), x.records[k];
              if exit.None? then r.state.StateRunning? else r.state.StateExited? && r.exitCode == exit.value {
      LastReportCounts(names, clock, ops, k);
    }
    hide LastExit, ApplyAll, Started, CleanExit, NewestFirst;
    RecordedPhase(x, stored, s);
    hide Describes, PhaseOf;
  }

  /** Marking the pod completed makes it Succeeded whatever its containers exited with before,
      and turns a stored Failed into Succeeded, unless the API already shows the end. */
  lemma CompletionErasesFailure(x: Sources, stored: Option<ApiStatus>, s: ApiStatus)
    requires var names := x.pod.spec.containers;
             names != [] && x.pod.spec.initContainers == [] && Distinct(names)
             && x.records == Finished(names, "Completed") && NewestFirst(x.records, x.sorted)
    requires Generates(x, stored, s)
    requires !x.pod.spec.policy.Always? && !TerminalPhase(x.pod.status.phase)
    ensures s.phase.PodSucceeded?
  {
    RecordedPhase(x, stored, s);
    hide Describes, PhaseOf;
  }

  /** Codes are cut to 32 bits: without restarts, exactly the multiples of 2^32 are clean. */
  lemma CleanExactly(x: Sources, n: Name, code: int)
    requires x.pod.spec.policy.Never?
    ensures CleanExit(x, n, code) <==> code % INT32_SPAN == 0
  {
    var r := ToInt32(code);
    if r == 0 {
      assert (0 - code) % INT32_SPAN == 0;
    }
    if code % INT32_SPAN == 0 {
      assert r % INT32_SPAN == 0 && -INT32_SPAN < r < INT32_SPAN;
    }
  }
}
