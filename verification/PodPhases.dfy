/** getPhase: the phase of a pod from the statuses of its containers. */
module PodPhases {
  import opened PodTypes
  import opened StatusTypes

  /** GetContainerStatus: the first status of that name. */
  function Find(info: seq<ContainerStatus>, n: Name): Option<ContainerStatus> {
    if info == [] then None
    else if info[0].name == n then Some(info[0])
    else Find(info[1..], n)
  }

  // ---------------------------------------------------------------- one container

  datatype InitClass = InitPending | InitFailed | InitDone

  datatype AppClass = AppRunning | AppStopped(success: bool) | AppWaiting | AppUnknown

  function InitClassOf(status: Option<ContainerStatus>): InitClass {
    if status.None? then InitPending
    else
      var s := status.value;
      if s.state.running then InitPending
      else if s.state.terminated.Some? then
        if s.state.terminated.value.exitCode != 0 then InitFailed else InitDone
      else if s.state.waiting.Some? && s.last.terminated.Some? then
        if s.last.terminated.value.exitCode != 0 then InitFailed else InitDone
      else InitPending
  }

  /** A stopped container that waits for its next start never counts as a success. */
  function AppClassOf(status: Option<ContainerStatus>): AppClass {
    if status.None? then AppUnknown
    else
      var s := status.value;
      if s.state.running then AppRunning
      else if s.state.terminated.Some? then AppStopped(s.state.terminated.value.exitCode == 0)
      else if s.state.waiting.None? then AppUnknown
      else if s.last.terminated.Some? then AppStopped(false)
      else AppWaiting
  }

  // ---------------------------------------------------------------- the phase, by quantifiers

  ghost predicate SomeInit(spec: PodSpec, info: seq<ContainerStatus>, c: InitClass) {
    exists n :: n in spec.initContainers && InitClassOf(Find(info, n)) == c
  }

  ghost predicate SomeApp(spec: PodSpec, info: seq<ContainerStatus>, c: AppClass) {
    exists n :: n in spec.containers && AppClassOf(Find(info, n)) == c
  }

  ghost function PhaseOf(spec: PodSpec, info: seq<ContainerStatus>): PodPhase {
    if spec.policy.Never? && SomeInit(spec, info, InitFailed) then PodFailed
    else if spec.containers == [] || SomeInit(spec, info, InitPending)
            || SomeApp(spec, info, AppWaiting) || SomeApp(spec, info, AppUnknown) then PodPending
    else if spec.policy.Always? || SomeApp(spec, info, AppRunning) then PodRunning
    else if !SomeApp(spec, info, AppStopped(false)) then PodSucceeded
    else if spec.policy.Never? then PodFailed
    else PodRunning
  }

  /** Success needs a container, and every container stopped with code 0. */
  lemma SucceededExactly(spec: PodSpec, info: seq<ContainerStatus>)
    ensures PhaseOf(spec, info).PodSucceeded?
       <==> && spec.containers != [] && !spec.policy.Always?
            && !SomeInit(spec, info, InitPending)
            && (spec.policy.Never? ==> !SomeInit(spec, info, InitFailed))
            && forall n :: n in spec.containers ==> AppClassOf(Find(info, n)) == AppStopped(true)
  {
    forall n | n in spec.containers && PhaseOf(spec, info).PodSucceeded?
      ensures AppClassOf(Find(info, n)) == AppStopped(true) {
      assert !SomeApp(spec, info, AppClassOf(Find(info, n))) || AppClassOf(Find(info, n)) == AppStopped(true);
    }
  }

  // ---------------------------------------------------------------- the counting loops

  function CountInit(names: seq<Name>, info: seq<ContainerStatus>, c: InitClass): nat {
    if names == [] then 0
    else CountInit(names[..|names| - 1], info, c)
         + if InitClassOf(Find(info, names[|names| - 1])) == c then 1 else 0
  }

  function CountApp(names: seq<Name>, info: seq<ContainerStatus>, c: AppClass): nat {
    if names == [] then 0
    else CountApp(names[..|names| - 1], info, c)
         + if AppClassOf(Find(info, names[|names| - 1])) == c then 1 else 0
  }

  lemma {:induction false} CountsInit(names: seq<Name>, info: seq<ContainerStatus>, c: InitClass)
    ensures CountInit(names, info, c) > 0 <==> exists n :: n in names && InitClassOf(Find(info, n)) == c
  {
    if names != [] {
      var front, last := names[..|names| - 1], names[|names| - 1];
      CountsInit(front, info, c);
      assert names == front + [last];
      if n :| n in names && InitClassOf(Find(info, n)) == c {
        assert n in front || n == last;
      }
      assert last in names;
    }
  }

  lemma {:induction false} CountsApp(names: seq<Name>, info: seq<ContainerStatus>, c: AppClass)
    ensures CountApp(names, info, c) > 0 <==> exists n :: n in names && AppClassOf(Find(info, n)) == c
  {
    if names != [] {
      var front, last := names[..|names| - 1], names[|names| - 1];
      CountsApp(front, info, c);
      assert names == front + [last];
      if n :| n in names && AppClassOf(Find(info, n)) == c {
        assert n in front || n == last;
      }
      assert last in names;
    }
  }

  lemma OneMoreInit(names: seq<Name>, info: seq<ContainerStatus>, k: nat, c: InitClass)
    requires k < |names|
    ensures CountInit(names[..k + 1], info, c)
         == CountInit(names[..k], info, c) + if InitClassOf(Find(info, names[k])) == c then 1 else 0
  {
    assert names[..k + 1][..k] == names[..k];
  }

  lemma OneMoreApp(names: seq<Name>, info: seq<ContainerStatus>, k: nat, c: AppClass)
    requires k < |names|
    ensures CountApp(names[..k + 1], info, c)
         == CountApp(names[..k], info, c) + if AppClassOf(Find(info, names[k])) == c then 1 else 0
  {
    assert names[..k + 1][..k] == names[..k];
  }

  method FindStatus(info: seq<ContainerStatus>, n: Name) returns (status: Option<ContainerStatus>)
    ensures status == Find(info, n)
  {
    for k := 0 to |info|
      invariant Find(info, n) == Find(info[k..], n)
    {
      if info[k].name == n {
        return Some(info[k]);
      }
    }
    return None;
  }

  method CountInitContainers(spec: PodSpec, info: seq<ContainerStatus>)
    returns (pendingInitialization: nat, failedInitialization: nat)
    ensures pendingInitialization == CountInit(spec.initContainers, info, InitPending)
    ensures failedInitialization == CountInit(spec.initContainers, info, InitFailed)
  {
    pendingInitialization, failedInitialization := 0, 0;
    var names := spec.initContainers;
    for k := 0 to |names|
      invariant pendingInitialization == CountInit(names[..k], info, InitPending)
      invariant failedInitialization == CountInit(names[..k], info, InitFailed)
    {
      OneMoreInit(names, info, k, InitPending);
      OneMoreInit(names, info, k, InitFailed);
      hide CountInit, Find;
      var status := FindStatus(info, names[k]);
      if status.None? {
        pendingInitialization := pendingInitialization + 1;
        continue;
      }
      var s := status.value;
      if s.state.running {
        pendingInitialization := pendingInitialization + 1;
      } else if s.state.terminated.Some? {
        if s.state.terminated.value.exitCode != 0 {
          failedInitialization := failedInitialization + 1;
        }
      } else if s.state.waiting.Some? {
        if s.last.terminated.Some? {
          if s.last.terminated.value.exitCode != 0 {
            failedInitialization := failedInitialization + 1;
          }
        } else {
          pendingInitialization := pendingInitialization + 1;
        }
      } else {
        pendingInitialization := pendingInitialization + 1;
      }
    }
    assert names[..|names|] == names;
  }

  /** The four counters partition the containers; successes are among the stopped. */
  method CountContainers(spec: PodSpec, info: seq<ContainerStatus>)
    returns (unknown: nat, running: nat, waiting: nat, stopped: nat, succeeded: nat)
    ensures unknown + running + waiting + stopped == |spec.containers|
    ensures unknown == CountApp(spec.containers, info, AppUnknown)
    ensures running == CountApp(spec.containers, info, AppRunning)
    ensures waiting == CountApp(spec.containers, info, AppWaiting)
    ensures succeeded == CountApp(spec.containers, info, AppStopped(true))
    ensures stopped == succeeded + CountApp(spec.containers, info, AppStopped(false))
  {
    unknown, running, waiting, stopped, succeeded := 0, 0, 0, 0, 0;
    var names := spec.containers;
    for k := 0 to |names|
      invariant unknown + running + waiting + stopped == k
      invariant unknown == CountApp(names[..k], info, AppUnknown)
      invariant running == CountApp(names[..k], info, AppRunning)
      invariant waiting == CountApp(names[..k], info, AppWaiting)
      invariant succeeded == CountApp(names[..k], info, AppStopped(true))
      invariant stopped == succeeded + CountApp(names[..k], info, AppStopped(false))
    {
      OneMoreApp(names, info, k, AppUnknown);
      OneMoreApp(names, info, k, AppRunning);
      OneMoreApp(names, info, k, AppWaiting);
      OneMoreApp(names, info, k, AppStopped(true));
      OneMoreApp(names, info, k, AppStopped(false));
      hide CountApp, Find;
      var status := FindStatus(info, names[k]);
      if status.None? {
        unknown := unknown + 1;
        continue;
      }
      var s := status.value;
      if s.state.running {
        running := running + 1;
      } else if s.state.terminated.Some? {
        stopped := stopped + 1;
        if s.state.terminated.value.exitCode == 0 {
          succeeded := succeeded + 1;
        }
      } else if s.state.waiting.Some? {
        if s.last.terminated.Some? {
          stopped := stopped + 1;
        } else {
          waiting := waiting + 1;
        }
      } else {
        unknown := unknown + 1;
      }
    }
    assert names[..|names|] == names;
  }

  method GetPhase(spec: PodSpec, info: seq<ContainerStatus>) returns (phase: PodPhase)
    ensures phase == PhaseOf(spec, info)
  {
    var pendingInitialization, failedInitialization := CountInitContainers(spec, info);
    var unknown, running, waiting, stopped, succeeded := CountContainers(spec, info);
    CountsInit(spec.initContainers, info, InitPending);
    CountsInit(spec.initContainers, info, InitFailed);
    forall c ensures CountApp(spec.containers, info, c) > 0 <==> SomeApp(spec, info, c) {
      CountsApp(spec.containers, info, c);
    }
    if failedInitialization > 0 && spec.policy.Never? {
      return PodFailed;
    }
    if pendingInitialization > 0 || waiting > 0 {
      return PodPending;
    } else if running > 0 && unknown == 0 {
      return PodRunning;
    } else if running == 0 && stopped > 0 && unknown == 0 {
      if spec.policy.Always? {
        return PodRunning;
      }
      if stopped == succeeded {
        return PodSucceeded;
      }
      if spec.policy.Never? {
        return PodFailed;
      }
      return PodRunning;
    } else {
      return PodPending;
    }
  }

  // ---------------------------------------------------------------- order does not matter

  ghost predicate DistinctNames(info: seq<ContainerStatus>) {
    forall j, k :: 0 <= j < k < |info| ==> info[j].name != info[k].name
  }

  lemma {:induction false} FindIsMember(info: seq<ContainerStatus>, n: Name)
    ensures Find(info, n).Some? ==> Find(info, n).value in info && Find(info, n).value.name == n
    ensures Find(info, n).None? ==> forall s :: s in info ==> s.name != n
  {
    if info != [] && info[0].name != n {
      FindIsMember(info[1..], n);
      assert info == [info[0]] + info[1..];
    }
  }

  lemma FindPermuted(info: seq<ContainerStatus>, permuted: seq<ContainerStatus>, n: Name)
    requires DistinctNames(info) && multiset(info) == multiset(permuted)
    ensures Find(info, n) == Find(permuted, n)
  {
    FindIsMember(info, n);
    FindIsMember(permuted, n);
    forall s ensures s in info <==> s in permuted {
      assert s in info <==> s in multiset(info);
      assert s in permuted <==> s in multiset(permuted);
    }
  }

  /** The phase depends on neither the order of the containers in the spec nor, if no name
      occurs twice, on that of the statuses. */
  lemma OrderIrrelevant(spec: PodSpec, info: seq<ContainerStatus>, spec': PodSpec, info': seq<ContainerStatus>)
    requires multiset(spec.containers) == multiset(spec'.containers)
    requires multiset(spec.initContainers) == multiset(spec'.initContainers)
    requires spec.policy == spec'.policy
    requires DistinctNames(info) && multiset(info) == multiset(info')
    ensures PhaseOf(spec, info) == PhaseOf(spec', info')
  {
    forall n ensures Find(info, n) == Find(info', n) {
      FindPermuted(info, info', n);
    }
    forall n ensures n in spec.containers <==> n in spec'.containers {
      assert n in spec.containers <==> n in multiset(spec.containers);
      assert n in spec'.containers <==> n in multiset(spec'.containers);
    }
    forall n ensures n in spec.initContainers <==> n in spec'.initContainers {
      assert n in spec.initContainers <==> n in multiset(spec.initContainers);
      assert n in spec'.initContainers <==> n in multiset(spec'.initContainers);
    }
    assert spec.containers == [] <==> spec'.containers == [] by {
      assert |multiset(spec.containers)| == |spec.containers|;
    }
    forall c ensures SomeInit(spec, info, c) <==> SomeInit(spec', info', c) {}
    forall c ensures SomeApp(spec, info, c) <==> SomeApp(spec', info', c) {}
  }
}
