/**
  The container supervisor: start, wait, publish, and start again as the restart policy says. What the
  process does is an endless sequence of attempts; the loop is a function of it.
 */
module RestartLoop {
  import opened Options

  /** `Unknown` is the empty policy. */
  datatype Policy = Unknown | No | OnFailure | Always

  datatype RestartSpec = RestartSpec(policy: Policy, maxRetries: int)

  /** One turn: the start fails, or the process runs and exits (-1 when a signal ended it). */
  datatype Attempt = StartFailed | Exited(code: int)

  /** A process that was never started has exit code -1 too. */
  function ExitCode(a: Attempt): int {
    if a.StartFailed? then -1 else a.code
  }

  /** 32-bit addition. */
  function Wrap32(n: int): int {
    (n + 0x8000_0000) % 0x1_0000_0000 - 0x8000_0000
  }

  /** It is the number itself up to multiples of 2^32, and 32 bits wide. */
  lemma WrapIs(n: int)
    ensures -0x8000_0000 <= Wrap32(n) < 0x8000_0000 && (Wrap32(n) - n) % 0x1_0000_0000 == 0
    ensures -0x8000_0000 <= n < 0x8000_0000 ==> Wrap32(n) == n
  {
  }

  lemma WrapStep(n: int)
    ensures Wrap32(Wrap32(n) + 1) == Wrap32(n + 1)
  {
  }

  /** Whether the loop returns after an attempt, `restartCount` restarts into it. */
  predicate Returns(spec: Option<RestartSpec>, a: Attempt, restartCount: int) {
    spec == None || spec.value.policy == No ||
    (spec.value.policy == OnFailure &&
     (ExitCode(a) == 0 || (spec.value.maxRetries > 0 && restartCount >= spec.value.maxRetries)))
  }

  /** Over all attempts: the loop is still going after `n` starts. */
  ghost predicate Going(spec: Option<RestartSpec>, attempts: nat -> Attempt, n: nat) {
    forall k: nat :: k < n ==> !Returns(spec, attempts(k), Wrap32(k))
  }

  /** It returns, after exactly `n` starts. */
  ghost predicate ReturnsAfter(spec: Option<RestartSpec>, attempts: nat -> Attempt, n: nat) {
    n >= 1 && Going(spec, attempts, n - 1) && Returns(spec, attempts(n - 1), Wrap32(n - 1))
  }

  lemma ReturnsOnce(spec: Option<RestartSpec>, attempts: nat -> Attempt, m: nat, n: nat)
    requires ReturnsAfter(spec, attempts, m)
    ensures Going(spec, attempts, n) <==> n < m
    ensures ReturnsAfter(spec, attempts, n) ==> n == m
  {
    if n >= m { assert !Going(spec, attempts, n) by { assert Returns(spec, attempts(m - 1), Wrap32(m - 1)); } }
  }

  // ---------------------------------------------------------------- the policies

  /** The index of the first zero exit code, but at most `m`. */
  function FirstZero(attempts: nat -> Attempt, from: nat, m: nat): (z: nat)
    decreases m - from
    ensures from <= m ==> from <= z <= m && (z == m || ExitCode(attempts(z)) == 0)
    ensures forall k: nat :: from <= k < z ==> ExitCode(attempts(k)) != 0
  {
    if from >= m then m
    else if ExitCode(attempts(from)) == 0 then from
    else FirstZero(attempts, from + 1, m)
  }

  /** On failure, with a bound on retries: one start more than min(index of the first zero, bound). */
  lemma BoundedStarts(attempts: nat -> Attempt, m: nat, n: nat)
    requires 0 < m < 0x8000_0000
    ensures ReturnsAfter(Some(RestartSpec(OnFailure, m)), attempts, n) <==> n == FirstZero(attempts, 0, m) + 1
  {
    var spec, z := Some(RestartSpec(OnFailure, m)), FirstZero(attempts, 0, m);
    assert forall k: nat :: k <= m ==> Wrap32(k) == k;
    assert ReturnsAfter(spec, attempts, z + 1);
    ReturnsOnce(spec, attempts, z + 1, n);
  }

  /** On failure without one: it returns exactly at the first zero, so never when there is none. */
  lemma UnboundedStarts(attempts: nat -> Attempt, m: int, n: nat)
    requires m <= 0
    ensures ReturnsAfter(Some(RestartSpec(OnFailure, m)), attempts, n) <==>
      (n >= 1 && ExitCode(attempts(n - 1)) == 0 && forall k: nat :: k < n - 1 ==> ExitCode(attempts(k)) != 0)
  {
    var spec := Some(RestartSpec(OnFailure, m));
    assert forall k: nat :: Returns(spec, attempts(k), Wrap32(k)) <==> ExitCode(attempts(k)) == 0;
    if n >= 1 && ReturnsAfter(spec, attempts, n) {
      forall k: nat | k < n - 1 ensures ExitCode(attempts(k)) != 0 {
        assert !Returns(spec, attempts(k), Wrap32(k));
      }
    }
  }

  /** No spec, or the policy "no": one start, whatever happens. */
  lemma SingleStart(spec: Option<RestartSpec>, attempts: nat -> Attempt, n: nat)
    requires spec == None || spec.value.policy == No
    ensures ReturnsAfter(spec, attempts, n) <==> n == 1
  {
    assert ReturnsAfter(spec, attempts, 1);
    ReturnsOnce(spec, attempts, 1, n);
  }

  /** "always" never returns; neither does the empty policy. */
  lemma NeverReturns(spec: RestartSpec, attempts: nat -> Attempt, n: nat)
    requires spec.policy == Always || spec.policy == Unknown
    ensures Going(Some(spec), attempts, n) && !ReturnsAfter(Some(spec), attempts, n)
  {
  }

  ghost predicate NeverStarts(attempts: nat -> Attempt) {
    forall k: nat :: attempts(k) == StartFailed
  }

  /** A container that cannot be started is tried m times more under a bound of m retries, and for ever
      without a bound. */
  lemma FailedStarts(attempts: nat -> Attempt, m: int, n: nat)
    requires NeverStarts(attempts) && m < 0x8000_0000
    ensures m > 0 ==> (ReturnsAfter(Some(RestartSpec(OnFailure, m)), attempts, n) <==> n == m + 1)
    ensures m <= 0 ==> !ReturnsAfter(Some(RestartSpec(OnFailure, m)), attempts, n)
  {
    if m > 0 {
      assert forall k: nat :: ExitCode(attempts(k)) == -1;
      BoundedStarts(attempts, m, n);
      assert FirstZero(attempts, 0, m) == m;
    } else {
      UnboundedStarts(attempts, m, n);
    }
  }

  /** An exit of zero ends the retries at once, wherever it comes. */
  lemma ZeroEnds(attempts: nat -> Attempt, m: int, z: nat)
    requires m < 0x8000_0000 && (m > 0 ==> z <= m) && attempts(z) == Exited(0)
    requires forall k: nat :: k < z ==> attempts(k) == StartFailed || (attempts(k).Exited? && attempts(k).code != 0)
    ensures ReturnsAfter(Some(RestartSpec(OnFailure, m)), attempts, z + 1)
  {
    if m > 0 {
      FirstZeroIs(attempts, m, z);
      BoundedStarts(attempts, m, z + 1);
    } else {
      UnboundedStarts(attempts, m, z + 1);
    }
  }

  ghost predicate Ends(spec: Option<RestartSpec>, attempts: nat -> Attempt) {
    exists n: nat :: ReturnsAfter(spec, attempts, n)
  }

  /** Which policies are sure to end, whatever the container does. */
  lemma AlwaysEndsIff(spec: Option<RestartSpec>)
    requires spec.Some? ==> -0x8000_0000 <= spec.value.maxRetries < 0x8000_0000
    ensures (forall attempts: nat -> Attempt :: Ends(spec, attempts)) <==>
      (spec == None || spec.value.policy == No || (spec.value.policy == OnFailure && spec.value.maxRetries > 0))
  {
    if spec == None || spec.value.policy == No {
      forall attempts: nat -> Attempt ensures Ends(spec, attempts) {
        SingleStart(spec, attempts, 1);
      }
    } else if spec.value.policy == OnFailure && spec.value.maxRetries > 0 {
      forall attempts: nat -> Attempt ensures Ends(spec, attempts) {
        BoundedStarts(attempts, spec.value.maxRetries, FirstZero(attempts, 0, spec.value.maxRetries) + 1);
      }
    } else {
      var failing: nat -> Attempt := (k: nat) => StartFailed;
      forall n: nat ensures !ReturnsAfter(spec, failing, n) {
        if spec.value.policy == OnFailure { UnboundedStarts(failing, spec.value.maxRetries, n); }
      }
      assert !Ends(spec, failing);
    }
  }

  // ---------------------------------------------------------------- the loop

  /** The event published on each turn; a code of -1 is not reported. */
  datatype Event = Event(restartCount: int, exitCode: Option<int>)

  function EventOf(a: Attempt, restartCount: int): Event {
    Event(restartCount, if ExitCode(a) == -1 then None else Some(ExitCode(a)))
  }

  class Container {
    const spec: Option<RestartSpec>
    var restartCount: int
    var events: seq<Event>

    constructor (spec: Option<RestartSpec>)
      ensures this.spec == spec && restartCount == 0 && events == []
    {
      this.spec, restartCount, events := spec, 0, [];
    }

    /** One turn of the supervisor loop. */
    method Turn(a: Attempt) returns (returned: bool)
      modifies this
      ensures returned <==> Returns(spec, a, old(restartCount))
      ensures restartCount == if returned then old(restartCount) else Wrap32(old(restartCount) + 1)
      ensures events == old(events) + [EventOf(a, old(restartCount))]
      ensures spec == None || spec.value.policy == No ==> returned
      ensures spec.Some? && (spec.value.policy == Always || spec.value.policy == Unknown) ==> !returned
      ensures spec.Some? && spec.value.policy == OnFailure && a == Exited(0) ==> returned
      ensures spec.Some? && spec.value.policy == OnFailure && a != Exited(0) ==>
        (returned <==> spec.value.maxRetries > 0 && old(restartCount) >= spec.value.maxRetries)
      ensures |events| == |old(events)| + 1
      ensures events[|old(events)|].restartCount == old(restartCount)
      ensures events[|old(events)|].exitCode == (if a == StartFailed || a == Exited(-1) then None else Some(a.code))
    {
      events := events + [EventOf(a, restartCount)];
      if spec == None || spec.value.policy == No { return true; }
      var exitCode := ExitCode(a);
      if spec.value.policy == OnFailure
        && (exitCode == 0 || (spec.value.maxRetries > 0 && restartCount >= spec.value.maxRetries)) {
        return true;
      }
      restartCount := Wrap32(restartCount + 1);
      returned := false;
    }

    /** The loop watched for at most `turns` turns, since it need not end: the restart count is the number of
        restarts made, and each turn publishes one event. */
    method Run(attempts: nat -> Attempt, turns: nat) returns (returned: bool, starts: nat)
      requires restartCount == 0 && events == []
      modifies this
      ensures starts <= turns && (returned ==> ReturnsAfter(spec, attempts, starts))
      ensures !returned ==> starts == turns && Going(spec, attempts, turns)
      ensures restartCount == Wrap32(if returned then starts - 1 else starts)
      ensures |events| == starts && forall k :: 0 <= k < starts ==> events[k] == EventOf(attempts(k), Wrap32(k))
    {
      starts, returned := 0, false;
      while !returned && starts < turns
        invariant starts <= turns
        invariant if returned then ReturnsAfter(spec, attempts, starts) else Going(spec, attempts, starts)
        invariant restartCount == Wrap32(if returned then starts - 1 else starts)
        invariant |events| == starts && forall k :: 0 <= k < starts ==> events[k] == EventOf(attempts(k), Wrap32(k))
        decreases turns - starts
      {
        WrapStep(starts);
        returned := Turn(attempts(starts));
        starts := starts + 1;
      }
    }

    /** With a bound on retries the loop ends by itself: the retries left go down on every turn. */
    method RunToEnd(attempts: nat -> Attempt) returns (starts: nat)
      requires spec.Some? && spec.value.policy == OnFailure && 0 < spec.value.maxRetries < 0x8000_0000
      requires restartCount == 0
      modifies this
      ensures starts == FirstZero(attempts, 0, spec.value.maxRetries) + 1 && restartCount == starts - 1
    {
      var returned := false;
      starts := 0;
      while !returned
        invariant 0 <= restartCount <= spec.value.maxRetries
        invariant starts == if returned then restartCount + 1 else restartCount
        invariant forall k: nat :: k < restartCount ==> ExitCode(attempts(k)) != 0
        invariant returned ==> restartCount == spec.value.maxRetries || ExitCode(attempts(restartCount)) == 0
        decreases spec.value.maxRetries - restartCount, !returned
      {
        returned := Turn(attempts(starts));
        starts := starts + 1;
      }
      FirstZeroIs(attempts, spec.value.maxRetries, restartCount);
    }
  }

  lemma FirstZeroIs(attempts: nat -> Attempt, m: nat, z: nat)
    requires z <= m && (z == m || ExitCode(attempts(z)) == 0) && forall k: nat :: k < z ==> ExitCode(attempts(k)) != 0
    ensures FirstZero(attempts, 0, m) == z
  {
  }
}
