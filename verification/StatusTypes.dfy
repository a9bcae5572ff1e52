/** Container records of the runtime, container statuses of the API, and the parts of a pod
    that status generation reads. Names are compared and ordered, so integers stand for them;
    times of creation are only ordered. */
module StatusTypes {
  import opened PodTypes

  type Name = int

  const INT32_SPAN: int := 0x1_0000_0000
  const INT32_MIN: int := -0x8000_0000

  /** Conversion of a wider integer to int32. */
  function ToInt32(x: int): (r: int)
    ensures INT32_MIN <= r < -INT32_MIN
    ensures (r - x) % INT32_SPAN == 0
    ensures INT32_MIN <= x < -INT32_MIN ==> r == x
  {
    (x - INT32_MIN) % INT32_SPAN + INT32_MIN
  }

  // ---------------------------------------------------------------- runtime side

  datatype RecordState = StateCreated | StateRunning | StateExited | StateUnknown

  /** One container the runtime knows of; a name can have several, of different age. */
  datatype Record = Record(name: Name, state: RecordState, createdAt: int, exitCode: int, reason: string,
                           restartCount: int)

  // ---------------------------------------------------------------- API side

  datatype Terminated = Terminated(exitCode: int, reason: string)

  /** Three independent pointers in the source; usually one is set. */
  datatype ContainerState = ContainerState(waiting: Option<string>, running: bool, terminated: Option<Terminated>)

  const NO_STATE := ContainerState(None, false, None)

  function WaitingFor(reason: string): ContainerState {
    ContainerState(Some(reason), false, None)
  }

  datatype ContainerStatus = ContainerStatus(name: Name, state: ContainerState, last: ContainerState, restartCount: int)

  datatype RestartPolicy = Always | OnFailure | Never

  datatype PodSpec = PodSpec(containers: seq<Name>, initContainers: seq<Name>, policy: RestartPolicy)

  datatype ApiStatus = ApiStatus(phase: PodPhase, containers: seq<ContainerStatus>, initContainers: seq<ContainerStatus>)

  datatype ApiPod = ApiPod(spec: PodSpec, deleting: bool, status: ApiStatus)

  predicate Distinct(names: seq<Name>) {
    forall i, j :: 0 <= i < j < |names| ==> names[i] != names[j]
  }
}
