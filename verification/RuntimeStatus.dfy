/** status.go: the runtime status kept for a pod, and the calls that overwrite it in place. */
module RuntimeStatus {
  import opened PodTypes
  import opened StatusTypes

  /** The time of a record whose creation time was never set. */
  const ZERO_TIME: int := 0

  // ---------------------------------------------------------------- values of the records

  function Started(names: seq<Name>, state: RecordState, clock: seq<int>): (r: seq<Record>)
    requires |clock| == |names|
    ensures |r| == |names|
  {
    seq(|names|, k requires 0 <= k < |names| => Record(names[k], state, clock[k], 0, "", 0))
  }

  function Finished(names: seq<Name>, reason: string): (r: seq<Record>)
    ensures |r| == |names|
  {
    seq(|names|, k requires 0 <= k < |names| => Record(names[k], StateExited, ZERO_TIME, 0, reason, 0))
  }

  /** What the callbacks of a running pod report. */
  datatype Op = Run(name: Name) | Exit(name: Name, code: int)

  function ApplyToRecord(r: Record, op: Op): Record {
    if r.name != op.name then r
    else
      match op
      case Run(_) => r.(state := StateRunning)
      case Exit(_, code) => r.(state := StateExited, exitCode := code, reason := if code == 0 then "Completed" else "Error")
  }

  function Apply(records: seq<Record>, op: Op): (r: seq<Record>)
    ensures |r| == |records|
  {
    seq(|records|, k requires 0 <= k < |records| => ApplyToRecord(records[k], op))
  }

  /** Only the exit of the only container takes the sandbox down; any start brings it up. */
  function SandboxReady(op: Op, spec: PodSpec): bool {
    op.Run? || |spec.containers| != 1
  }

  function AllReady(count: nat, ready: bool): (r: seq<bool>)
    ensures |r| == count
  {
    seq(count, k => ready)
  }

  /** isPodStatusCacheTerminal: nothing runs. */
  predicate CacheTerminal(sandboxes: seq<bool>, records: seq<Record>) {
    && (forall k :: 0 <= k < |sandboxes| ==> !sandboxes[k])
    && (forall k :: 0 <= k < |records| ==> !records[k].state.StateRunning?)
  }

  // ---------------------------------------------------------------- the object

  class PodStatus {
    var sandboxes: array<bool>           // whether each is SANDBOX_READY
    var containers: array<Record>

    constructor SetPodStatus(spec: PodSpec, state: RecordState, clock: seq<int>)
      requires |clock| == |spec.containers|
      ensures fresh(sandboxes) && fresh(containers)
      ensures sandboxes[..] == [true] && containers[..] == Started(spec.containers, state, clock)
    {
      sandboxes := new bool[1](_ => true);
      var list: seq<Record> := [];
      for k := 0 to |spec.containers|
        invariant list == Started(spec.containers, state, clock)[..k]
      {
        list := list + [Record(spec.containers[k], state, clock[k], 0, "", 0)];
      }
      containers := new Record[|list|](k requires 0 <= k < |list| => list[k]);
    }

    constructor SetPodCompleted(spec: PodSpec)
      ensures fresh(sandboxes) && fresh(containers)
      ensures sandboxes[..] == [false] && containers[..] == Finished(spec.containers, "Completed")
      ensures CacheTerminal(sandboxes[..], containers[..])
    {
      FinishedPods(spec.containers);
      sandboxes := new bool[1](_ => false);
      var list: seq<Record> := [];
      for k := 0 to |spec.containers|
        invariant list == Finished(spec.containers, "Completed")[..k]
      {
        list := list + [Record(spec.containers[k], StateExited, ZERO_TIME, 0, "Completed", 0)];
      }
      containers := new Record[|list|](k requires 0 <= k < |list| => list[k]);
    }

    constructor SetPodTerminated(spec: PodSpec)
      ensures fresh(sandboxes) && fresh(containers)
      ensures sandboxes[..] == [true] && containers[..] == Finished(spec.containers, "Terminated")
      ensures !CacheTerminal(sandboxes[..], containers[..])
    {
      FinishedPods(spec.containers);
      sandboxes := new bool[1](_ => true);
      var list: seq<Record> := [];
      for k := 0 to |spec.containers|
        invariant list == Finished(spec.containers, "Terminated")[..k]
      {
        list := list + [Record(spec.containers[k], StateExited, ZERO_TIME, 0, "Terminated", 0)];
      }
      containers := new Record[|list|](k requires 0 <= k < |list| => list[k]);
    }

    method SetSandboxes(ready: bool)
      modifies sandboxes
      ensures sandboxes[..] == AllReady(old(sandboxes.Length), ready)
    {
      for k := 0 to sandboxes.Length
        invariant forall j :: 0 <= j < k ==> sandboxes[j] == ready
      {
        sandboxes[k] := ready;
      }
    }

    method SetContainerRunning(spec: PodSpec, n: Name)
      modifies sandboxes, containers
      ensures sandboxes[..] == AllReady(old(sandboxes.Length), SandboxReady(Run(n), spec))
      ensures containers[..] == Apply(old(containers[..]), Run(n))
    {
      SetSandboxes(true);
      for k := 0 to containers.Length
        invariant sandboxes[..] == AllReady(old(sandboxes.Length), true)
        invariant forall j :: 0 <= j < containers.Length ==>
                    containers[j] == if j < k then ApplyToRecord(old(containers[j]), Run(n)) else old(containers[j])
      {
        if containers[k].name == n {
          containers[k] := containers[k].(state := StateRunning);
        }
      }
    }

    method SetContainerExit(spec: PodSpec, n: Name, exitCode: int)
      modifies sandboxes, containers
      ensures sandboxes[..] == AllReady(old(sandboxes.Length), SandboxReady(Exit(n, exitCode), spec))
      ensures containers[..] == Apply(old(containers[..]), Exit(n, exitCode))
    {
      SetSandboxes(|spec.containers| != 1);
      for k := 0 to containers.Length
        invariant sandboxes[..] == AllReady(old(sandboxes.Length), |spec.containers| != 1)
        invariant forall j :: 0 <= j < containers.Length ==>
                    containers[j] == if j < k then ApplyToRecord(old(containers[j]), Exit(n, exitCode))
                                     else old(containers[j])
      {
        if containers[k].name == n {
          var reason := "Error";
          if exitCode == 0 {
            reason := "Completed";
          }
          containers[k] := containers[k].(state := StateExited, exitCode := exitCode, reason := reason);
        }
      }
    }

    method IsPodStatusCacheTerminal() returns (terminal: bool)
      ensures terminal <==> CacheTerminal(sandboxes[..], containers[..])
    {
      var runningContainers, runningSandboxes := 0, 0;
      for k := 0 to containers.Length
        invariant runningContainers >= 0
        invariant runningContainers == 0 <==> forall j :: 0 <= j < k ==> !containers[j].state.StateRunning?
      {
        if containers[k].state.StateRunning? {
          runningContainers := runningContainers + 1;
        }
      }
      for k := 0 to sandboxes.Length
        invariant runningSandboxes >= 0
        invariant runningSandboxes == 0 <==> forall j :: 0 <= j < k ==> !sandboxes[j]
      {
        if sandboxes[k] {
          runningSandboxes := runningSandboxes + 1;
        }
      }
      return runningContainers == 0 && runningSandboxes == 0;
    }
  }

  // ---------------------------------------------------------------- any sequence of reports

  function ApplyAll(records: seq<Record>, ops: seq<Op>): (r: seq<Record>)
    ensures |r| == |records|
  {
    if ops == [] then records else Apply(ApplyAll(records, ops[..|ops| - 1]), ops[|ops| - 1])
  }

  /** The code of a container's last report, unless that says it runs or there is none. */
  function LastExit(ops: seq<Op>, n: Name): Option<int> {
    if ops == [] then None
    else
      var op := ops[|ops| - 1];
      if op.name != n then LastExit(ops[..|ops| - 1], n)
      else if op.Run? then None else Some(op.code)
  }

  /** Only the last report about a container matters, whatever else is reported. */
  lemma {:induction false} LastReportCounts(names: seq<Name>, clock: seq<int>, ops: seq<Op>, k: nat)
    requires |clock| == |names| && k < |names|
    ensures var r, exit := ApplyAll(Started(names, StateRunning, clock), ops)[k], LastExit(ops, names[k]);
            && r.name == names[k] && r.createdAt == clock[k] && r.restartCount == 0
            && (exit.None? ==> r.state.StateRunning?)
            && (exit.Some? ==> r.state.StateExited? && r.exitCode == exit.value)
            && (exit.Some? ==> r.reason == if exit.value == 0 then "Completed" else "Error")
  {
    if ops != [] {
      LastReportCounts(names, clock, ops[..|ops| - 1], k);
    }
  }

  /** The one sandbox of a pod after the reports. */
  function SandboxAfter(spec: PodSpec, ops: seq<Op>): seq<bool> {
    if ops == [] then [true] else AllReady(1, SandboxReady(ops[|ops| - 1], spec))
  }

  lemma OneSandbox(spec: PodSpec, ops: seq<Op>)
    ensures |SandboxAfter(spec, ops)| == 1
    ensures SandboxAfter(spec, ops)[0] <==> ops == [] || SandboxReady(ops[|ops| - 1], spec)
  {
  }

  lemma OneContainer(names: seq<Name>, clock: seq<int>, ops: seq<Op>)
    requires |clock| == |names| == 1
    ensures var records := ApplyAll(Started(names, StateRunning, clock), ops);
            |records| == 1 && (records[0].state.StateRunning? <==> LastExit(ops, names[0]).None?)
    ensures LastExit(ops, names[0]).Some? ==> ops != []
  {
    hide Apply, Started;
    LastReportCounts(names, clock, ops, 0);
  }

  /** The pod counts as stopped exactly if it has just one container, that container has
      exited, and the last report was an exit. With several containers it never does, even
      when all have exited. */
  lemma CacheTerminalExactly(spec: PodSpec, clock: seq<int>, ops: seq<Op>)
    requires |clock| == |spec.containers|
    ensures CacheTerminal(SandboxAfter(spec, ops), ApplyAll(Started(spec.containers, StateRunning, clock), ops))
       <==> && |spec.containers| == 1 && LastExit(ops, spec.containers[0]).Some?
            && ops[|ops| - 1].Exit?
  {
    hide LastExit, ApplyAll, Started, SandboxAfter, AllReady;
    OneSandbox(spec, ops);
    if |spec.containers| == 1 {
      OneContainer(spec.containers, clock, ops);
    }
  }

  /** A completed pod counts as stopped; a terminated one does not. */
  lemma FinishedPods(names: seq<Name>)
    ensures CacheTerminal([false], Finished(names, "Completed"))
    ensures !CacheTerminal([true], Finished(names, "Terminated"))
  {
    assert [true][0];
  }
}
