/** convertToAPIContainerStatuses: the passes that turn spec, old status and runtime records
    into one status for each container. */
module ContainerStatuses {
  import opened PodTypes
  import opened StatusTypes

  const CONTAINER_CREATING := "ContainerCreating"
  const POD_INITIALIZING := "PodInitializing"
  const STATUS_UNKNOWN := Terminated(137, "ContainerStatusUnknown")

  /** What one call works on. `sorted` is the copy of `records` after sorting; `failures` is
      what the reason cache answers. */
  datatype Input = Input(
    pod: ApiPod,
    records: seq<Record>,
    sorted: seq<Record>,
    previous: seq<ContainerStatus>,
    containers: seq<Name>,
    isInit: bool,
    failures: map<Name, string>)
  {
    predicate HasInit() {
      pod.spec.initContainers != []
    }
  }

  /** Newest first; records of one age may come in any order. */
  ghost predicate NewestFirst(records: seq<Record>, sorted: seq<Record>) {
    && multiset(sorted) == multiset(records)
    && forall i, j :: 0 <= i < j < |sorted| ==> sorted[i].createdAt >= sorted[j].createdAt
  }

  // ---------------------------------------------------------------- look-ups

  /** The old status by name; a later entry wins. */
  function OldStatus(previous: seq<ContainerStatus>, n: Name): (r: Option<ContainerStatus>)
    ensures r.Some? ==> r.value.name == n && r.value in previous
    ensures r.None? ==> forall k :: 0 <= k < |previous| ==> previous[k].name != n
  {
    if previous == [] then None
    else if previous[|previous| - 1].name == n then Some(previous[|previous| - 1])
    else OldStatus(previous[..|previous| - 1], n)
  }

  function RecordsOf(records: seq<Record>, n: Name): (r: seq<Record>)
    ensures forall k :: 0 <= k < |r| ==> r[k].name == n && r[k] in records
    ensures r == [] <==> forall k :: 0 <= k < |records| ==> records[k].name != n
    decreases |records|
  {
    if records == [] then []
    else
      var front := RecordsOf(records[..|records| - 1], n);
      var last := records[|records| - 1];
      if last.name == n then front + [last] else front
  }

  /** FindContainerStatusByName: the first record of that name. */
  function FirstRecord(records: seq<Record>, n: Name): Option<Record> {
    if records == [] then None
    else if records[0].name == n then Some(records[0])
    else FirstRecord(records[1..], n)
  }

  // ---------------------------------------------------------------- the passes, for one container

  function DefaultReason(hasInit: bool): string {
    if hasInit then POD_INITIALIZING else CONTAINER_CREATING
  }

  /** First pass: waiting, or as it terminated before. */
  function Default(n: Name, prior: Option<ContainerStatus>, hasInit: bool): ContainerStatus {
    if prior.Some? && prior.value.state.terminated.Some? then prior.value
    else ContainerStatus(n, WaitingFor(DefaultReason(hasInit)),
                         if prior.Some? then prior.value.last else NO_STATE,
                         if prior.Some? then prior.value.restartCount else 0)
  }

  /** Second pass, for a container without any record. */
  function Vanish(s: ContainerStatus, prior: Option<ContainerStatus>, hasInit: bool, deleting: bool): ContainerStatus {
    if prior.None? || prior.value.state.terminated.Some? || !prior.value.state.running then s
    else if s.state.waiting != Some(DefaultReason(hasInit)) || s.last.terminated.Some? then s
    else s.(last := s.last.(terminated := Some(STATUS_UNKNOWN)),
            restartCount := if deleting then s.restartCount else ToInt32(s.restartCount + 1))
  }

  function Convert(r: Record, prior: Option<ContainerStatus>): ContainerStatus {
    match r.state
    case StateRunning => ContainerStatus(r.name, ContainerState(None, true, None), NO_STATE, ToInt32(r.restartCount))
    case StateCreated => ContainerStatus(r.name, WaitingFor(""), NO_STATE, ToInt32(r.restartCount))
    case StateExited =>
      ContainerStatus(r.name, ContainerState(None, false, Some(Terminated(ToInt32(r.exitCode), r.reason))), NO_STATE,
                      ToInt32(r.restartCount))
    case StateUnknown =>
      if prior.Some? && prior.value.state.running then
        ContainerStatus(r.name, ContainerState(None, false, Some(STATUS_UNKNOWN)), NO_STATE,
                        ToInt32(prior.value.restartCount + 1))
      else ContainerStatus(r.name, WaitingFor(""), NO_STATE, ToInt32(r.restartCount))
  }

  /** Third pass: the newest record replaces the status, the second newest its last state. */
  function FromRecords(s: ContainerStatus, mine: seq<Record>, prior: Option<ContainerStatus>): ContainerStatus {
    if mine == [] then s
    else if |mine| == 1 then Convert(mine[0], prior)
    else Convert(mine[0], prior).(last := Convert(mine[1], prior).state)
  }

  predicate ShouldBeRestarted(pod: ApiPod, records: seq<Record>, n: Name) {
    if pod.deleting then false
    else
      match FirstRecord(records, n)
      case None => true
      case Some(r) =>
        match r.state
        case StateRunning => false
        case StateUnknown => true
        case StateCreated => true
        case StateExited => !pod.spec.policy.Never? && (pod.spec.policy.OnFailure? ==> r.exitCode != 0)
  }

  predicate FinishedInit(i: Input, n: Name) {
    i.isInit && FirstRecord(i.records, n).Some?
    && FirstRecord(i.records, n).value.state.StateExited? && FirstRecord(i.records, n).value.exitCode == 0
  }

  predicate FailedToStart(i: Input, n: Name) {
    !FinishedInit(i, n) && ShouldBeRestarted(i.pod, i.records, n) && n in i.failures
  }

  /** Fourth pass: a container that could not be started again waits. */
  function FailStart(s: ContainerStatus, reason: string): ContainerStatus {
    s.(last := if s.state.terminated.Some? then s.state else s.last, state := WaitingFor(reason))
  }

  function AfterVanish(i: Input, n: Name): ContainerStatus {
    var prior := OldStatus(i.previous, n);
    var s := Default(n, prior, i.HasInit());
    if RecordsOf(i.records, n) == [] then Vanish(s, prior, i.HasInit(), i.pod.deleting) else s
  }

  function AfterRecords(i: Input, n: Name): ContainerStatus {
    FromRecords(AfterVanish(i, n), RecordsOf(i.sorted, n), OldStatus(i.previous, n))
  }

  /** The status all passes together give a container. */
  function Generated(i: Input, n: Name): (s: ContainerStatus)
    ensures s.name == n
  {
    var s := AfterRecords(i, n);
    if FailedToStart(i, n) then FailStart(s, i.failures[n]) else s
  }

  // ---------------------------------------------------------------- the loops

  method OldStatuses(previous: seq<ContainerStatus>) returns (prior: map<Name, ContainerStatus>)
    ensures forall n :: n in prior <==> OldStatus(previous, n).Some?
    ensures forall n :: n in prior ==> OldStatus(previous, n) == Some(prior[n])
  {
    prior := map[];
    for k := 0 to |previous|
      invariant forall n :: n in prior <==> OldStatus(previous[..k], n).Some?
      invariant forall n :: n in prior ==> OldStatus(previous[..k], n) == Some(prior[n])
    {
      assert previous[..k + 1][..k] == previous[..k];
      prior := prior[previous[k].name := previous[k]];
    }
    assert previous[..|previous|] == previous;
  }

  function Lookup<V>(m: map<Name, V>, n: Name): Option<V> {
    if n in m then Some(m[n]) else None
  }

  method SetDefaults(i: Input, prior: map<Name, ContainerStatus>) returns (statuses: map<Name, ContainerStatus>)
    requires forall n :: Lookup(prior, n) == OldStatus(i.previous, n)
    ensures forall n :: n in statuses <==> n in i.containers
    ensures forall n :: n in statuses ==> statuses[n] == Default(n, OldStatus(i.previous, n), i.HasInit())
  {
    statuses := map[];
    for k := 0 to |i.containers|
      invariant forall n :: n in statuses <==> n in i.containers[..k]
      invariant forall n :: n in statuses ==> statuses[n] == Default(n, OldStatus(i.previous, n), i.HasInit())
    {
      var n := i.containers[k];
      var status := ContainerStatus(n, WaitingFor(DefaultReason(i.HasInit())), NO_STATE, 0);
      if n in prior {
        if prior[n].state.terminated.Some? {
          status := prior[n];
        } else {
          status := status.(restartCount := prior[n].restartCount, last := prior[n].last);
        }
      }
      assert Lookup(prior, n) == OldStatus(i.previous, n);
      assert i.containers[..k + 1] == i.containers[..k] + [n];
      statuses := statuses[n := status];
    }
    assert i.containers[..|i.containers|] == i.containers;
  }

  /** The second pass leaves alone what it already did: names may repeat in the spec. */
  lemma VanishTwice(s: ContainerStatus, prior: Option<ContainerStatus>, hasInit: bool, deleting: bool)
    ensures var v := Vanish(s, prior, hasInit, deleting); Vanish(v, prior, hasInit, deleting) == v
  {
  }

  lemma FailStartTwice(s: ContainerStatus, reason: string)
    ensures FailStart(FailStart(s, reason), reason) == FailStart(s, reason)
  {
  }

  method MarkVanished(i: Input, prior: map<Name, ContainerStatus>, defaults: map<Name, ContainerStatus>)
    returns (statuses: map<Name, ContainerStatus>)
    requires forall n :: Lookup(prior, n) == OldStatus(i.previous, n)
    requires forall n :: n in defaults <==> n in i.containers
    requires forall n :: n in defaults ==> defaults[n] == Default(n, OldStatus(i.previous, n), i.HasInit())
    ensures forall n :: n in statuses <==> n in i.containers
    ensures forall n :: n in statuses ==> statuses[n] == AfterVanish(i, n)
  {
    statuses := defaults;
    for k := 0 to |i.containers|
      invariant forall n :: n in statuses <==> n in i.containers
      invariant forall n :: n in statuses ==>
                  statuses[n] == if n in i.containers[..k] then AfterVanish(i, n)
                                 else Default(n, OldStatus(i.previous, n), i.HasInit())
    {
      var n := i.containers[k];
      assert i.containers[..k + 1] == i.containers[..k] + [n];
      var found := HasRecord(i.records, n);
      assert Lookup(prior, n) == OldStatus(i.previous, n);
      VanishTwice(Default(n, OldStatus(i.previous, n), i.HasInit()), OldStatus(i.previous, n), i.HasInit(), i.pod.deleting);
      if !found && n in prior && prior[n].state.terminated.None? && prior[n].state.running {
        var status := statuses[n];
        if status.state.waiting == Some(DefaultReason(i.HasInit())) && status.last.terminated.None? {
          status := status.(last := status.last.(terminated := Some(STATUS_UNKNOWN)));
          if !i.pod.deleting {
            status := status.(restartCount := ToInt32(status.restartCount + 1));
          }
          statuses := statuses[n := status];
        }
      }
    }
    assert i.containers[..|i.containers|] == i.containers;
  }

  method HasRecord(records: seq<Record>, n: Name) returns (found: bool)
    ensures found <==> RecordsOf(records, n) != []
  {
    found := false;
    for k := 0 to |records|
      invariant !found
      invariant forall j :: 0 <= j < k ==> records[j].name != n
    {
      if records[k].name == n {
        return true;
      }
    }
  }

  function Min(a: nat, b: nat): nat {
    if a < b then a else b
  }

  /** Container n after the k newest records were read. */
  ghost predicate Read(i: Input, n: Name, k: nat, s: ContainerStatus, seen: nat)
    requires k <= |i.sorted|
  {
    var mine := RecordsOf(i.sorted[..k], n);
    && seen == Min(2, |mine|)
    && s == FromRecords(AfterVanish(i, n), mine, OldStatus(i.previous, n))
  }

  lemma ReadNext(i: Input, n: Name, k: nat, s: ContainerStatus, seen: nat)
    requires k < |i.sorted| && Read(i, n, k, s, seen)
    ensures var status := Convert(i.sorted[k], OldStatus(i.previous, n));
            if i.sorted[k].name != n || seen >= 2 then Read(i, n, k + 1, s, seen)
            else Read(i, n, k + 1, if seen == 0 then status else s.(last := status.state), seen + 1)
  {
    hide AfterVanish, OldStatus, Convert;
    assert i.sorted[..k + 1][..k] == i.sorted[..k];
  }

  method ReadRecords(i: Input, prior: map<Name, ContainerStatus>, before: map<Name, ContainerStatus>)
    returns (statuses: map<Name, ContainerStatus>)
    requires forall n :: Lookup(prior, n) == OldStatus(i.previous, n)
    requires forall n :: n in before <==> n in i.containers
    requires forall n :: n in before ==> before[n] == AfterVanish(i, n)
    ensures forall n :: n in statuses <==> n in i.containers
    ensures forall n :: n in statuses ==> statuses[n] == AfterRecords(i, n)
  {
    statuses := before;
    var containerSeen: map<Name, nat> := map[];
    for k := 0 to |i.sorted|
      invariant forall n :: n in statuses <==> n in i.containers
      invariant forall n :: n in statuses ==> Read(i, n, k, statuses[n], Seen(containerSeen, n))
    {
      hide Read, Convert;
      var r := i.sorted[k];
      var n := r.name;
      forall m | m in statuses
        ensures var status := Convert(r, OldStatus(i.previous, m));
                var seen := Seen(containerSeen, m);
                if n != m || seen >= 2 then Read(i, m, k + 1, statuses[m], seen)
                else Read(i, m, k + 1, if seen == 0 then status else statuses[m].(last := status.state), seen + 1) {
        ReadNext(i, m, k, statuses[m], Seen(containerSeen, m));
      }
      if n !in statuses {
        continue;
      }
      if Seen(containerSeen, n) >= 2 {
        continue;
      }
      assert Lookup(prior, n) == OldStatus(i.previous, n);
      var status := Convert(r, Lookup(prior, n));
      if Seen(containerSeen, n) == 0 {
        statuses := statuses[n := status];
      } else {
        statuses := statuses[n := statuses[n].(last := status.state)];
      }
      containerSeen := containerSeen[n := Seen(containerSeen, n) + 1];
    }
    assert i.sorted[..|i.sorted|] == i.sorted;
  }

  /** A missing count reads as zero. */
  function Seen(containerSeen: map<Name, nat>, n: Name): nat {
    if n in containerSeen then containerSeen[n] else 0
  }

  method MarkFailedStarts(i: Input, before: map<Name, ContainerStatus>) returns (statuses: map<Name, ContainerStatus>)
    requires forall n :: n in before <==> n in i.containers
    requires forall n :: n in before ==> before[n] == AfterRecords(i, n)
    ensures forall n :: n in statuses <==> n in i.containers
    ensures forall n :: n in statuses ==> statuses[n] == Generated(i, n)
  {
    statuses := before;
    for k := 0 to |i.containers|
      invariant forall n :: n in statuses <==> n in i.containers
      invariant forall n :: n in statuses ==>
                  statuses[n] == if n in i.containers[..k] then Generated(i, n) else AfterRecords(i, n)
    {
      var n := i.containers[k];
      assert i.containers[..k + 1] == i.containers[..k] + [n];
      if i.isInit {
        var s := FirstRecord(i.records, n);
        if s.Some? && s.value.state.StateExited? && s.value.exitCode == 0 {
          continue;
        }
      }
      if !ShouldBeRestarted(i.pod, i.records, n) {
        continue;
      }
      if n !in i.failures {
        continue;
      }
      FailStartTwice(AfterRecords(i, n), i.failures[n]);
      var status := statuses[n];
      if status.state.terminated.Some? {
        status := status.(last := status.state);
      }
      status := status.(state := WaitingFor(i.failures[n]));
      statuses := statuses[n := status];
    }
    assert i.containers[..|i.containers|] == i.containers;
  }

  // ---------------------------------------------------------------- the result

  /** Exactly one status, the generated one, for every container of the spec. */
  ghost predicate Describes(r: seq<ContainerStatus>, i: Input) {
    && (forall k :: 0 <= k < |r| ==> r[k].name in i.containers && r[k] == Generated(i, r[k].name))
    && (forall n :: n in i.containers ==> exists k :: 0 <= k < |r| && r[k].name == n)
  }

  predicate Ascending(r: seq<ContainerStatus>) {
    forall j, k :: 0 <= j < k < |r| ==> r[j].name < r[k].name
  }

  function InsertByName(r: seq<ContainerStatus>, s: ContainerStatus): (r': seq<ContainerStatus>)
    requires Ascending(r) && forall k :: 0 <= k < |r| ==> r[k].name != s.name
    ensures Ascending(r')
    ensures forall x :: x in r' <==> x in r || x == s
  {
    if r == [] then [s]
    else if s.name < r[0].name then [s] + r
    else
      var rest := InsertByName(r[1..], s);
      assert forall x :: x in r <==> x == r[0] || x in r[1..];
      assert forall k :: 0 <= k < |rest| ==> rest[k] in r[1..] || rest[k] == s;
      [r[0]] + rest
  }

  /** The values of the map, ordered by container name. */
  method ListByName(statuses: map<Name, ContainerStatus>) returns (r: seq<ContainerStatus>)
    requires forall n :: n in statuses ==> statuses[n].name == n
    ensures Ascending(r)
    ensures forall s :: s in r <==> s.name in statuses && statuses[s.name] == s
  {
    var remaining := set n | n in statuses;
    r := [];
    while exists n :: n in remaining
      invariant forall n :: n in remaining ==> n in statuses
      invariant Ascending(r)
      invariant forall s :: s in r <==> s.name in statuses && s.name !in remaining && statuses[s.name] == s
      decreases remaining
    {
      var n :| n in remaining;
      r := InsertByName(r, statuses[n]);
      remaining := remaining - {n};
    }
  }

  /** The values of the map, in the order of the spec. */
  method ListInOrder(names: seq<Name>, statuses: map<Name, ContainerStatus>) returns (r: seq<ContainerStatus>)
    requires forall k :: 0 <= k < |names| ==> names[k] in statuses
    ensures |r| == |names| && forall k :: 0 <= k < |r| ==> r[k] == statuses[names[k]]
  {
    r := [];
    for k := 0 to |names|
      invariant |r| == k && forall j :: 0 <= j < k ==> r[j] == statuses[names[j]]
    {
      r := r + [statuses[names[k]]];
    }
  }

  method ConvertToAPIContainerStatuses(i: Input) returns (r: seq<ContainerStatus>)
    ensures Describes(r, i)
    ensures i.isInit ==> |r| == |i.containers| && forall k :: 0 <= k < |r| ==> r[k].name == i.containers[k]
    ensures !i.isInit ==> Ascending(r)
  {
    var prior := OldStatuses(i.previous);
    assert forall n :: Lookup(prior, n) == OldStatus(i.previous, n);
    hide Generated, AfterRecords, AfterVanish, Default, OldStatus, RecordsOf, Lookup;
    var statuses := SetDefaults(i, prior);
    statuses := MarkVanished(i, prior, statuses);
    statuses := ReadRecords(i, prior, statuses);
    statuses := MarkFailedStarts(i, statuses);
    assert Complete(i, statuses);
    forall k | 0 <= k < |i.containers| ensures i.containers[k] in statuses {
      var n := i.containers[k];
      assert n in i.containers;
      assert n in statuses;
    }
    hide Complete, Describes;
    if i.isInit {
      r := ListInOrder(i.containers, statuses);
      DescribesInOrder(i, statuses, r);
    } else {
      r := ListByName(statuses);
      DescribesByName(i, statuses, r);
    }
  }

  /** The statuses the passes leave in the map. */
  ghost predicate Complete(i: Input, statuses: map<Name, ContainerStatus>) {
    && (forall n :: n in statuses <==> n in i.containers)
    && (forall n :: n in statuses ==> statuses[n] == Generated(i, n))
  }

  lemma DescribesInOrder(i: Input, statuses: map<Name, ContainerStatus>, r: seq<ContainerStatus>)
    requires Complete(i, statuses)
    requires |r| == |i.containers|
    requires forall k :: 0 <= k < |r| ==> i.containers[k] in statuses && r[k] == statuses[i.containers[k]]
    ensures Describes(r, i) && forall k :: 0 <= k < |r| ==> r[k].name == i.containers[k]
  {
    hide AfterRecords;
    forall k | 0 <= k < |r| ensures r[k].name == i.containers[k] && r[k] == Generated(i, r[k].name) {
      assert i.containers[k] in statuses;
    }
    forall n | n in i.containers ensures exists k :: 0 <= k < |r| && r[k].name == n {
      var k :| 0 <= k < |i.containers| && i.containers[k] == n;
      assert r[k].name == n;
    }
  }

  lemma DescribesByName(i: Input, statuses: map<Name, ContainerStatus>, r: seq<ContainerStatus>)
    requires Complete(i, statuses)
    requires forall s :: s in r <==> s.name in statuses && statuses[s.name] == s
    ensures Describes(r, i)
  {
    hide AfterRecords;
    forall n | n in i.containers ensures exists k :: 0 <= k < |r| && r[k].name == n {
      assert statuses[n] in r;
    }
  }

  // ---------------------------------------------------------------- what the look-ups find

  lemma {:induction false} LaterStatusWins(previous: seq<ContainerStatus>, n: Name, k: nat)
    requires k < |previous| && previous[k].name == n
    requires forall j :: k < j < |previous| ==> previous[j].name != n
    ensures OldStatus(previous, n) == Some(previous[k])
  {
    if k < |previous| - 1 { LaterStatusWins(previous[..|previous| - 1], n, k); }
  }

  lemma {:induction false} FirstRecordWins(records: seq<Record>, n: Name, k: nat)
    requires k < |records| && records[k].name == n
    requires forall j :: 0 <= j < k ==> records[j].name != n
    ensures FirstRecord(records, n) == Some(records[k])
  {
    if k > 0 { FirstRecordWins(records[1..], n, k - 1); }
  }

  lemma {:induction false} NoRecord(records: seq<Record>, n: Name)
    requires forall j :: 0 <= j < |records| ==> records[j].name != n
    ensures FirstRecord(records, n) == None
  {
    if records != [] { NoRecord(records[1..], n); }
  }

  /** Exactly a container's own records, each as often as it occurs. */
  lemma {:induction false} RecordsOfExactly(records: seq<Record>, n: Name, r: Record)
    ensures multiset(RecordsOf(records, n))[r] == if r.name == n then multiset(records)[r] else 0
    decreases |records|
  {
    if records != [] {
      var front, last := records[..|records| - 1], records[|records| - 1];
      assert records == front + [last];
      RecordsOfExactly(front, n, r);
    }
  }

  /** Nothing about this record keeps its container from being started again. */
  predicate Startable(r: Record, policy: RestartPolicy, isInit: bool) {
    && !r.state.StateRunning?
    && (r.state.StateExited? ==>
          && !policy.Never?
          && (r.exitCode == 0 ==> policy.Always? && !isInit))
  }

  /** n is to be started, which was tried and failed: its pod is not being deleted, and its
      first record, if it has any, is startable. */
  ghost predicate HeldBack(pod: ApiPod, records: seq<Record>, failures: map<Name, string>, isInit: bool, n: Name) {
    && n in failures && !pod.deleting
    && forall k :: 0 <= k < |records| && records[k].name == n && (forall j :: 0 <= j < k ==> records[j].name != n) ==>
         Startable(records[k], pod.spec.policy, isInit)
  }

  lemma HeldBackExactly(i: Input, n: Name)
    ensures FailedToStart(i, n) <==> HeldBack(i.pod, i.records, i.failures, i.isInit, n)
  {
    if k :| 0 <= k < |i.records| && i.records[k].name == n && forall j :: 0 <= j < k ==> i.records[j].name != n {
      FirstRecordWins(i.records, n, k);
    } else {
      if m :| 0 <= m < |i.records| && i.records[m].name == n { FirstExists(i.records, n, m); }
      NoRecord(i.records, n);
    }
  }

  lemma {:induction false} FirstExists(records: seq<Record>, n: Name, m: nat)
    requires m < |records| && records[m].name == n
    ensures exists k :: 0 <= k < |records| && records[k].name == n && forall j :: 0 <= j < k ==> records[j].name != n
  {
    if j :| 0 <= j < m && records[j].name == n {
      FirstExists(records, n, j);
    } else {
      assert forall j :: 0 <= j < m ==> records[j].name != n;
    }
  }

  // ---------------------------------------------------------------- what the passes guarantee

  lemma {:induction false} RecordsOfSorted(sorted: seq<Record>, n: Name, j: nat, k: nat)
    requires forall a, b :: 0 <= a < b < |sorted| ==> sorted[a].createdAt >= sorted[b].createdAt
    requires j < k < |RecordsOf(sorted, n)|
    ensures RecordsOf(sorted, n)[j].createdAt >= RecordsOf(sorted, n)[k].createdAt
    decreases |sorted|
  {
    var front, last := sorted[..|sorted| - 1], sorted[|sorted| - 1];
    var mine := RecordsOf(front, n);
    if k < |mine| {
      RecordsOfSorted(front, n, j, k);
    } else {
      assert mine[j] in front;
    }
  }

  /** The first of a container's records after sorting is as young as any of them. */
  lemma NewestComesFirst(i: Input, n: Name, r: Record)
    requires NewestFirst(i.records, i.sorted) && r in i.records && r.name == n
    ensures RecordsOf(i.sorted, n) != [] && RecordsOf(i.sorted, n)[0] in i.records
    ensures RecordsOf(i.sorted, n)[0].createdAt >= r.createdAt
  {
    assert r in multiset(i.records);
    assert r in i.sorted;
    var k :| 0 <= k < |i.sorted| && i.sorted[k] == r;
    RecordFound(i.sorted, n, k);
    var mine := RecordsOf(i.sorted, n);
    var j :| 0 <= j < |mine| && mine[j] == r;
    if j > 0 { RecordsOfSorted(i.sorted, n, 0, j); }
    assert mine[0] in multiset(i.sorted);
  }

  lemma {:induction false} RecordFound(records: seq<Record>, n: Name, k: nat)
    requires k < |records| && records[k].name == n
    ensures records[k] in RecordsOf(records, n)
    decreases |records|
  {
    if k < |records| - 1 { RecordFound(records[..|records| - 1], n, k); }
  }

  lemma SameNamesRecorded(i: Input, n: Name)
    requires NewestFirst(i.records, i.sorted)
    ensures RecordsOf(i.sorted, n) == [] <==> RecordsOf(i.records, n) == []
  {
    if RecordsOf(i.records, n) != [] {
      NewestComesFirst(i, n, RecordsOf(i.records, n)[0]);
    }
    if RecordsOf(i.sorted, n) != [] {
      assert RecordsOf(i.sorted, n)[0] in multiset(i.sorted);
      var k :| 0 <= k < |i.records| && i.records[k] == RecordsOf(i.sorted, n)[0];
      RecordFound(i.records, n, k);
    }
  }

  /** A recorded container shows the state of its newest record, and the state of the one
      before as its last, unless it could not be started again; then it waits, and shows
      the newest record's termination, if any, as its last. */
  lemma NewestRecordDecides(i: Input, n: Name)
    requires NewestFirst(i.records, i.sorted) && RecordsOf(i.records, n) != []
    ensures RecordsOf(i.sorted, n) != []
    ensures var mine, prior := RecordsOf(i.sorted, n), OldStatus(i.previous, n);
            var now := Convert(mine[0], prior).state;
            var before := if |mine| == 1 then NO_STATE else Convert(mine[1], prior).state;
            var s := Generated(i, n);
            if HeldBack(i.pod, i.records, i.failures, i.isInit, n)
            then s.state == WaitingFor(i.failures[n]) && s.last == (if now.terminated.Some? then now else before)
            else s.state == now && s.last == before
  {
    SameNamesRecorded(i, n);
    HeldBackExactly(i, n);
    hide HeldBack;
  }

  /** An exit the runtime reports last is never lost, whichever pass ran after. */
  lemma ExitNeverLost(i: Input, n: Name)
    requires NewestFirst(i.records, i.sorted) && RecordsOf(i.records, n) != []
    requires RecordsOf(i.sorted, n) != [] && RecordsOf(i.sorted, n)[0].state.StateExited?
    ensures var r, s := RecordsOf(i.sorted, n)[0], Generated(i, n);
            var exit := Some(Terminated(ToInt32(r.exitCode), r.reason));
            s.state.terminated == exit || s.last.terminated == exit
  {
    NewestRecordDecides(i, n);
  }

  /** The old status shows that the container ran at some time. */
  predicate RanBefore(prior: Option<ContainerStatus>) {
    prior.Some? && (prior.value.state.running || prior.value.state.terminated.Some? || prior.value.last.terminated.Some?)
  }

  /** getPhase counts a status as waiting if this holds. */
  predicate CountsAsWaiting(s: ContainerStatus) {
    !s.state.running && s.state.terminated.None? && s.state.waiting.Some? && s.last.terminated.None?
  }

  /** A container that ran and is gone from the runtime is not waiting to start: exactly those
      without a record that did not run before are. */
  lemma VanishedWaitsExactly(i: Input, n: Name)
    requires NewestFirst(i.records, i.sorted) && RecordsOf(i.records, n) == []
    ensures CountsAsWaiting(Generated(i, n)) <==> !RanBefore(OldStatus(i.previous, n))
  {
    SameNamesRecorded(i, n);
  }

  /** Its restart count, an int32, rises by one exactly if it was running with no recorded end and its
      pod is not being deleted. */
  lemma VanishedRestarts(i: Input, n: Name)
    requires NewestFirst(i.records, i.sorted) && RecordsOf(i.records, n) == []
    requires OldStatus(i.previous, n).Some?
    requires INT32_MIN <= OldStatus(i.previous, n).value.restartCount < -INT32_MIN
    ensures var prior := OldStatus(i.previous, n).value;
            var lost := prior.state.running && prior.state.terminated.None? && prior.last.terminated.None?;
            Generated(i, n).restartCount
            == ToInt32(prior.restartCount + if lost && !i.pod.deleting then 1 else 0)
  {
    SameNamesRecorded(i, n);
  }

  /** The record shows that its container has ended. */
  predicate ShowsEnd(r: Record, prior: Option<ContainerStatus>) {
    r.state.StateExited? || (r.state.StateUnknown? && prior.Some? && prior.value.state.running)
  }

  /** Whether a container's new status shows that it ran: without a record, as the old one did;
      with records, if one of the two newest shows its end, or the newest that it runs and
      nothing keeps it from starting. A container last seen running whose only record is a
      created one is forgotten to have run. */
  lemma RanBeforeKeptExactly(i: Input, n: Name)
    requires NewestFirst(i.records, i.sorted)
    ensures var mine, prior := RecordsOf(i.sorted, n), OldStatus(i.previous, n);
            RanBefore(Some(Generated(i, n)))
            == if mine == [] then RanBefore(prior)
               else || ShowsEnd(mine[0], prior)
                    || (|mine| > 1 && ShowsEnd(mine[1], prior))
                    || (mine[0].state.StateRunning? && !HeldBack(i.pod, i.records, i.failures, i.isInit, n))
  {
    SameNamesRecorded(i, n);
    if RecordsOf(i.sorted, n) == [] {
      VanishedRanBefore(i, n);
    } else {
      NewestRecordDecides(i, n);
    }
    hide Generated, HeldBack, RecordsOf, OldStatus, ToInt32;
  }

  lemma VanishedRanBefore(i: Input, n: Name)
    requires RecordsOf(i.records, n) == [] && RecordsOf(i.sorted, n) == []
    ensures RanBefore(Some(Generated(i, n))) <==> RanBefore(OldStatus(i.previous, n))
  {
    hide FailedToStart, RecordsOf, OldStatus, ToInt32;
  }

  // ---------------------------------------------------------------- what a container comes to

  /** What a call makes of a container: it runs; it ended, and may wait for its next start; or
      it waits without ever having ended. */
  datatype Shown = ShownRunning | ShownEnded(exitCode: int, again: bool) | ShownWaiting

  /** The code with which the record shows its container to have ended. */
  function EndCode(r: Record, prior: Option<ContainerStatus>): Option<int> {
    if !ShowsEnd(r, prior) then None
    else if r.state.StateExited? then Some(ToInt32(r.exitCode))
    else Some(137)
  }

  /** From the newest two records, or without any from the old status. */
  function ShownFrom(mine: seq<Record>, prior: Option<ContainerStatus>, held: bool): Shown {
    if mine != [] && mine[0].state.StateRunning? && !held then ShownRunning
    else if mine != [] && EndCode(mine[0], prior).Some? then ShownEnded(EndCode(mine[0], prior).value, held)
    else if |mine| > 1 && EndCode(mine[1], prior).Some? then ShownEnded(EndCode(mine[1], prior).value, true)
    else if mine != [] || !RanBefore(prior) then ShownWaiting
    else if prior.value.state.terminated.Some? then
      if prior.value.state.running && !held then ShownRunning
      else ShownEnded(prior.value.state.terminated.value.exitCode, held)
    else if prior.value.last.terminated.Some? then ShownEnded(prior.value.last.terminated.value.exitCode, true)
    else ShownEnded(137, true)
  }

  /** s shows that. */
  predicate Shows(s: ContainerStatus, shown: Shown) {
    match shown
    case ShownRunning => s.state.running
    case ShownEnded(code, again) =>
      && !s.state.running && (again <==> s.state.terminated.None?) && (again ==> s.state.waiting.Some?)
      && var end := if again then s.last.terminated else s.state.terminated;
      end.Some? && end.value.exitCode == code
    case ShownWaiting => CountsAsWaiting(s)
  }

  lemma ConvertShows(r: Record, prior: Option<ContainerStatus>)
    ensures var now := Convert(r, prior).state;
            && (now.running <==> r.state.StateRunning?)
            && (now.terminated.Some? <==> EndCode(r, prior).Some?)
            && (now.terminated.Some? ==> now.terminated.value.exitCode == EndCode(r, prior).value)
            && (!now.running && now.terminated.None? ==> now.waiting == Some(""))
  {
    hide ToInt32;
  }

  lemma RecordedShows(i: Input, n: Name)
    requires NewestFirst(i.records, i.sorted) && RecordsOf(i.records, n) != []
    ensures RecordsOf(i.sorted, n) != []
    ensures Shows(Generated(i, n), ShownFrom(RecordsOf(i.sorted, n), OldStatus(i.previous, n),
                                             HeldBack(i.pod, i.records, i.failures, i.isInit, n)))
  {
    NewestRecordDecides(i, n);
    var mine, prior := RecordsOf(i.sorted, n), OldStatus(i.previous, n);
    ConvertShows(mine[0], prior);
    if |mine| > 1 { ConvertShows(mine[1], prior); }
    hide Generated, Convert, EndCode, HeldBack, RecordsOf, OldStatus;
  }

  lemma VanishedShows(i: Input, n: Name)
    requires RecordsOf(i.records, n) == [] && RecordsOf(i.sorted, n) == []
    ensures Shows(Generated(i, n), ShownFrom([], OldStatus(i.previous, n), HeldBack(i.pod, i.records, i.failures, i.isInit, n)))
  {
    HeldBackExactly(i, n);
    hide FailedToStart, HeldBack, RecordsOf, OldStatus, ToInt32, EndCode;
  }

  /** The four passes together amount to that. */
  lemma GeneratedShows(i: Input, n: Name)
    requires NewestFirst(i.records, i.sorted)
    ensures Shows(Generated(i, n), ShownFrom(RecordsOf(i.sorted, n), OldStatus(i.previous, n),
                                             HeldBack(i.pod, i.records, i.failures, i.isInit, n)))
  {
    SameNamesRecorded(i, n);
    hide Shows, ShownFrom, Generated;
    if RecordsOf(i.sorted, n) != [] { RecordedShows(i, n); } else { VanishedShows(i, n); }
  }

  /** A container without a record after the first two passes. */
  lemma VanishedStatus(n: Name, prior: Option<ContainerStatus>, hasInit: bool, deleting: bool)
    ensures var s := Vanish(Default(n, prior, hasInit), prior, hasInit, deleting);
            var lost := prior.Some? && prior.value.state.running && prior.value.state.terminated.None?
                        && prior.value.last.terminated.None?;
            && s.restartCount == (if prior.None? then 0
                                  else if lost && !deleting then ToInt32(prior.value.restartCount + 1)
                                  else prior.value.restartCount)
            && (lost ==> s.last.terminated == Some(Terminated(137, "ContainerStatusUnknown")))
            && if prior.Some? && prior.value.state.terminated.Some? then s == prior.value
               else s.state == ContainerState(Some(if hasInit then "PodInitializing" else "ContainerCreating"), false, None)
  {
    hide ToInt32;
  }

  /** A container with records after the third. */
  lemma RecordedStatus(s: ContainerStatus, mine: seq<Record>, prior: Option<ContainerStatus>)
    requires mine != []
    ensures var s', r := FromRecords(s, mine, prior), mine[0];
            var lost := r.state.StateUnknown? && prior.Some? && prior.value.state.running;
            && s'.restartCount == (if lost then ToInt32(prior.value.restartCount + 1) else ToInt32(r.restartCount))
            && (lost ==> s'.state.terminated == Some(Terminated(137, "ContainerStatusUnknown")))
            && s'.state.waiting == if r.state.StateRunning? || ShowsEnd(r, prior) then None else Some("")
  {
    hide ToInt32;
  }

  /** What a failed start leaves of a status. */
  lemma FailedStatus(s: ContainerStatus, reason: string)
    ensures var s' := FailStart(s, reason);
            s'.restartCount == s.restartCount && s'.state == ContainerState(Some(reason), false, None)
            && (s.state.terminated.None? ==> s'.last == s.last)
  {
  }

  lemma NothingRead(s: ContainerStatus, prior: Option<ContainerStatus>)
    ensures FromRecords(s, [], prior) == s
  {
  }

  /** The passes of one container, taken apart. */
  lemma PassesOf(i: Input, n: Name) returns (v: ContainerStatus, s: ContainerStatus)
    requires NewestFirst(i.records, i.sorted)
    ensures var mine, prior := RecordsOf(i.sorted, n), OldStatus(i.previous, n);
            && (mine != [] ==> s == FromRecords(v, mine, prior))
            && (mine == [] ==> s == Vanish(Default(n, prior, i.HasInit()), prior, i.HasInit(), i.pod.deleting))
    ensures HeldBack(i.pod, i.records, i.failures, i.isInit, n) ==> n in i.failures && Generated(i, n) == FailStart(s, i.failures[n])
    ensures !HeldBack(i.pod, i.records, i.failures, i.isInit, n) ==> Generated(i, n) == s
  {
    SameNamesRecorded(i, n);
    HeldBackExactly(i, n);
    v, s := AfterVanish(i, n), AfterRecords(i, n);
    NothingRead(AfterVanish(i, n), OldStatus(i.previous, n));
    hide FromRecords, FailedToStart, HeldBack, RecordsOf, OldStatus, FailStart, Vanish, Default, Convert;
    assert s == FromRecords(AfterVanish(i, n), RecordsOf(i.sorted, n), OldStatus(i.previous, n));
    if RecordsOf(i.sorted, n) == [] {
      assert RecordsOf(i.records, n) == [];
      assert s == AfterVanish(i, n);
    }
  }

  /** The restart count is the newest record's, cut to 32 bits; one more than the old one if the
      container was running and its newest record, or all of them, were lost; or the old one. */
  lemma RestartCountExactly(i: Input, n: Name)
    requires NewestFirst(i.records, i.sorted)
    ensures var mine, prior := RecordsOf(i.sorted, n), OldStatus(i.previous, n);
            Generated(i, n).restartCount
            == if mine != [] then
                 if mine[0].state.StateUnknown? && prior.Some? && prior.value.state.running
                 then ToInt32(prior.value.restartCount + 1) else ToInt32(mine[0].restartCount)
               else if prior.None? then 0
               else if && prior.value.state.running && prior.value.state.terminated.None?
                       && prior.value.last.terminated.None? && !i.pod.deleting
               then ToInt32(prior.value.restartCount + 1)
               else prior.value.restartCount
  {
    var v, s := PassesOf(i, n);
    var mine, prior := RecordsOf(i.sorted, n), OldStatus(i.previous, n);
    hide Generated, FromRecords, Vanish, Default, FailStart, HeldBack, RecordsOf, OldStatus, NewestFirst, ToInt32;
    if mine != [] {
      RecordedStatus(v, mine, prior);
    } else {
      VanishedStatus(n, prior, i.HasInit(), i.pod.deleting);
    }
    if n in i.failures { FailedStatus(s, i.failures[n]); }
  }

  /** A running container whose newest record, or all of them, were lost shows the code of a
      kill as its end. */
  lemma LostIsKilled(i: Input, n: Name)
    requires NewestFirst(i.records, i.sorted) && OldStatus(i.previous, n).Some? && OldStatus(i.previous, n).value.state.running
    requires !HeldBack(i.pod, i.records, i.failures, i.isInit, n)
    ensures var mine, prior := RecordsOf(i.sorted, n), OldStatus(i.previous, n).value;
            var lost := Some(Terminated(137, "ContainerStatusUnknown"));
            && (mine != [] && mine[0].state.StateUnknown? ==> Generated(i, n).state.terminated == lost)
            && (mine == [] && prior.state.terminated.None? && prior.last.terminated.None? ==>
                  Generated(i, n).last.terminated == lost)
  {
    var v, s := PassesOf(i, n);
    var mine, prior := RecordsOf(i.sorted, n), OldStatus(i.previous, n);
    hide Generated, FromRecords, Vanish, Default, FailStart, HeldBack, RecordsOf, OldStatus, NewestFirst, ToInt32;
    if mine != [] {
      RecordedStatus(v, mine, prior);
    } else {
      VanishedStatus(n, prior, i.HasInit(), i.pod.deleting);
    }
  }

  /** Why a container waits: it was held back by a failed start; or it has no record and did not
      show an end of its own, and waits for the init containers, if there are any, or for its
      creation; or its newest record gives no reason. */
  lemma WaitingReasonExactly(i: Input, n: Name)
    requires NewestFirst(i.records, i.sorted)
    ensures var mine, prior, waiting := RecordsOf(i.sorted, n), OldStatus(i.previous, n), Generated(i, n).state.waiting;
            if HeldBack(i.pod, i.records, i.failures, i.isInit, n) then waiting == Some(i.failures[n])
            else if mine != [] then
              waiting == if mine[0].state.StateRunning? || ShowsEnd(mine[0], prior) then None else Some("")
            else if prior.Some? && prior.value.state.terminated.Some? then Generated(i, n) == prior.value
            else waiting == Some(if i.pod.spec.initContainers != [] then "PodInitializing" else "ContainerCreating")
  {
    var v, s := PassesOf(i, n);
    var mine, prior := RecordsOf(i.sorted, n), OldStatus(i.previous, n);
    assert HeldBack(i.pod, i.records, i.failures, i.isInit, n) ==> n in i.failures;
    hide Generated, FromRecords, Vanish, Default, FailStart, HeldBack, RecordsOf, OldStatus, NewestFirst, ToInt32, ShowsEnd;
    if mine != [] {
      RecordedStatus(v, mine, prior);
    } else {
      VanishedStatus(n, prior, i.HasInit(), i.pod.deleting);
    }
    if n in i.failures { FailedStatus(s, i.failures[n]); }
  }
}
