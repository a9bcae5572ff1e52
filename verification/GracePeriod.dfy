/** calculateEffectiveGracePeriod and what it does to the recorded value over a
    whole sequence of kill requests. */
module GracePeriod {
  import opened PodTypes

  function Lower(current: int, override: Option<int>): int {
    if override.Some? && (current == 0 || override.value < current) then override.value else current
  }

  function Effective(recorded: int, pod: Pod, options: KillPodOptions): (g: int)
    ensures g >= 1
  {
    var g1 := Lower(recorded, pod.deletionGrace);
    var g2 := Lower(g1, options.graceOverride);
    var g3 := if g2 == 0 && pod.specGrace.Some? then pod.specGrace.value else g2;
    if g3 < 1 then 1 else g3
  }

  /** The second result: an already recorded value changed. */
  predicate Shortened(recorded: int, pod: Pod, options: KillPodOptions) {
    recorded != 0 && recorded != Effective(recorded, pod, options)
  }

  datatype KillRequest = KillRequest(pod: Pod, options: KillPodOptions)

  predicate NoZeroOverride(r: KillRequest) {
    r.pod.deletionGrace != Some(0) && r.options.graceOverride != Some(0)
  }

  function MinWith(x: int, o: Option<int>): int {
    if o.Some? && o.value < x then o.value else x
  }

  function AtLeastOne(x: int): int {
    if x < 1 then 1 else x
  }

  function Recorded(first: int, rs: seq<KillRequest>): int
    decreases |rs|
  {
    if rs == [] then first
    else Effective(Recorded(first, rs[..|rs| - 1]), rs[|rs| - 1].pod, rs[|rs| - 1].options)
  }

  function Cancellations(first: int, rs: seq<KillRequest>): nat
    decreases |rs|
  {
    if rs == [] then 0
    else
      var last := rs[|rs| - 1];
      Cancellations(first, rs[..|rs| - 1])
      + if Shortened(Recorded(first, rs[..|rs| - 1]), last.pod, last.options) then 1 else 0
  }

  /** All values a sequence of requests supplies. */
  function Overrides(rs: seq<KillRequest>): set<int> {
    (set r | r in rs && r.pod.deletionGrace.Some? :: r.pod.deletionGrace.value)
    + (set r | r in rs && r.options.graceOverride.Some? :: r.options.graceOverride.value)
  }

  ghost predicate IsFloor(m: int, first: int, values: set<int>) {
    && (m == first || m in values)
    && m <= first
    && forall v :: v in values ==> m <= v
  }

  // ---------------------------------------------------------------- single requests

  /** A value that is not taken for "unset". */
  predicate Given(value: Option<int>) {
    value.Some? && value.value != 0
  }

  /** The period of a pod for which no request names one. */
  function Fallback(pod: Pod): int {
    if pod.specGrace.Some? then AtLeastOne(pod.specGrace.value) else 1
  }

  /** The period of the first request of a termination: the least that it and the deletion
      name, or the fallback if they name none or the request takes the deletion's back to 0. */
  function FirstPeriod(r: KillRequest): int {
    var deletion, override := r.pod.deletionGrace, r.options.graceOverride;
    if Given(deletion) && Given(override) then
      AtLeastOne(if deletion.value < override.value then deletion.value else override.value)
    else if Given(override) then AtLeastOne(override.value)
    else if Given(deletion) && !(override == Some(0) && deletion.value > 0) then AtLeastOne(deletion.value)
    else Fallback(r.pod)
  }

  lemma FirstPeriodExactly(r: KillRequest)
    ensures Effective(0, r.pod, r.options) == FirstPeriod(r)
  {
  }

  /** The period that a later request leaves: the least of what was recorded and what is named,
      unless a 0 among the latter discards it. */
  lemma LaterPeriodExactly(g: int, r: KillRequest)
    requires g >= 1
    ensures var deletion, override, after := r.pod.deletionGrace, r.options.graceOverride, Effective(g, r.pod, r.options);
            if override == Some(0) then after == (if deletion.Some? && deletion.value < 0 then 1 else Fallback(r.pod))
            else if deletion == Some(0) then after == (if override.Some? then AtLeastOne(override.value) else Fallback(r.pod))
            else after == AtLeastOne(MinWith(MinWith(g, deletion), override))
  {
  }

  /** One request against a recorded value: exactly the requests whose zero override
      re-enters the "unset" path with a larger fallback can raise it. */
  lemma RaisedExactlyByZero(g: int, pod: Pod, options: KillPodOptions)
    requires g >= 1
    ensures Effective(g, pod, options) > g <==>
            || (&& pod.deletionGrace == Some(0)
                && options.graceOverride.Some? && options.graceOverride.value > g)
            || (&& pod.specGrace.Some? && pod.specGrace.value > g
                && (|| (pod.deletionGrace == Some(0) && options.graceOverride in {None, Some(0)})
                    || (options.graceOverride == Some(0)
                        && (pod.deletionGrace.None? || pod.deletionGrace.value > 0))))
  {
    if options.graceOverride.Some? {
      assert options.graceOverride in {None, Some(0)} <==> options.graceOverride.value == 0;
    }
  }

  /** Without zero overrides the recorded value is the least of the first value and
      everything supplied since, but never below one. */
  lemma {:induction false} RecordedIsFloor(first: int, rs: seq<KillRequest>) returns (m: int)
    requires first >= 1
    requires forall r :: r in rs ==> NoZeroOverride(r)
    ensures IsFloor(m, first, Overrides(rs))
    ensures Recorded(first, rs) == AtLeastOne(m)
  {
    if rs == [] {
      m := first;
    } else {
      var front, last := rs[..|rs| - 1], rs[|rs| - 1];
      assert rs == front + [last];
      var m0 := RecordedIsFloor(first, front);
      m := MinWith(MinWith(m0, last.pod.deletionGrace), last.options.graceOverride);
      forall v | v in Overrides(rs) ensures m <= v {
        if v !in Overrides(front) {
          assert last.pod.deletionGrace == Some(v) || last.options.graceOverride == Some(v);
        }
      }
      assert last in rs;
      assert Overrides(front) <= Overrides(rs);
    }
  }

  /** So later requests may arrive in any order, and each grace-triggered cancellation
      costs at least one second of the first recorded value. */
  lemma RecordedOrderIndependent(first: int, rs: seq<KillRequest>, rs': seq<KillRequest>)
    requires first >= 1
    requires multiset(rs) == multiset(rs')
    requires forall r :: r in rs ==> NoZeroOverride(r)
    ensures Recorded(first, rs) == Recorded(first, rs')
  {
    forall r ensures r in rs <==> r in rs' {
      assert r in multiset(rs) <==> r in multiset(rs');
    }
    var m := RecordedIsFloor(first, rs);
    var m' := RecordedIsFloor(first, rs');
    assert Overrides(rs) == Overrides(rs');
  }

  /** A termination starts with nothing recorded. */
  lemma {:induction false} RecordedStarts(rs: seq<KillRequest>)
    requires rs != []
    ensures Recorded(0, rs) == Recorded(FirstPeriod(rs[0]), rs[1..])
    decreases |rs|
  {
    if |rs| == 1 {
      FirstPeriodExactly(rs[0]);
    } else {
      var front := rs[..|rs| - 1];
      RecordedStarts(front);
      assert rs[1..][..|rs| - 2] == front[1..];
    }
  }

  lemma {:induction false} CancellationsBounded(first: int, rs: seq<KillRequest>)
    requires first >= 1
    requires forall r :: r in rs ==> NoZeroOverride(r)
    ensures 1 <= Recorded(first, rs) <= first
    ensures Cancellations(first, rs) <= first - Recorded(first, rs)
  {
    if rs != [] {
      var front, last := rs[..|rs| - 1], rs[|rs| - 1];
      assert last in rs;
      CancellationsBounded(first, front);
      RaisedExactlyByZero(Recorded(first, front), last.pod, last.options);
    }
  }
}
