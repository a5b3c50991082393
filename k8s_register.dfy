/**
 * Idempotent registration and deregistration (cmd/csi-cluster-driver-registrar/k8s_register.go).
 *
 * The add/remove closures are modelled by the sequence of errors they return on successive
 * calls; client-go's conflict-retry wrapper by a loop over at most `steps` attempts.
 */
module K8sRegister {
  import S = DriverSetup

  /** The error an API call returns; NoError stands for Go's nil. */
  datatype Err = NoError | AlreadyExists | NotFound | Conflict | Other

  /** The closure around add(): a created object and an existing one both count as success. */
  function AddAttempt(e: Err): (r: Err)
    ensures r == NoError <==> e == NoError || e == AlreadyExists
    ensures r != NoError ==> r == e
  {
    if e == NoError then NoError
    else if e == AlreadyExists then NoError
    else e
  }

  /** The closure around remove(): a deleted object and a missing one both count as success. */
  function DeleteAttempt(e: Err): (r: Err)
    ensures r == NoError <==> e == NoError || e == NotFound
    ensures r != NoError ==> r == e
  {
    if e == NoError then NoError
    else if e == NotFound then NoError
    else e
  }

  /** What a retried call returned and how many times it invoked the closure. */
  datatype Attempts = Attempts(err: Err, calls: nat)

  /**
   * The meaning of RetryOnConflict: the closure, whose i-th invocation returns
   * attempt(results[i]), is invoked again only after a Conflict and at most `steps` times;
   * the first other outcome is returned, and when every attempt conflicted the last
   * Conflict is. With no steps at all the closure is never invoked and nil is returned.
   */
  ghost predicate RetriedOnConflict(steps: nat, attempt: Err -> Err, results: seq<Err>, a: Attempts)
    requires steps <= |results|
  {
    && a.calls <= steps
    && (a.calls == 0 <==> steps == 0)
    && (a.calls == 0 ==> a.err == NoError)
    && (forall j :: 0 <= j < a.calls - 1 ==> attempt(results[j]) == Conflict)
    && (a.calls > 0 ==>
          var last := attempt(results[a.calls - 1]);
          if last == Conflict then a.calls == steps && a.err == Conflict else a.err == last)
  }

  /** The specification determines the outcome: there is only one way to have retried. */
  lemma RetryDeterministic(steps: nat, attempt: Err -> Err, results: seq<Err>, a: Attempts, b: Attempts)
    requires steps <= |results|
    requires RetriedOnConflict(steps, attempt, results, a)
    requires RetriedOnConflict(steps, attempt, results, b)
    ensures a == b
  {
  }

  /** retry.RetryOnConflict with a backoff of `steps` attempts (the sleeps are left out). */
  method RetryOnConflict(steps: nat, attempt: Err -> Err, results: seq<Err>) returns (err: Err, calls: nat)
    requires steps <= |results|
    ensures RetriedOnConflict(steps, attempt, results, Attempts(err, calls))
  {
    var lastConflict := NoError;
    calls := 0;
    while calls < steps
      invariant calls <= steps
      invariant lastConflict == (if calls == 0 then NoError else Conflict)
      invariant forall j :: 0 <= j < calls ==> attempt(results[j]) == Conflict
    {
      var e := attempt(results[calls]);
      calls := calls + 1;
      if e == NoError {
        return NoError, calls;
      } else if e == Conflict {
        lastConflict := e;
      } else {
        return e, calls;
      }
    }
    err := lastConflict;
  }

  /** verifyAndAddCSIDriverInfo: `addResults` are the errors of successive add() calls. */
  method VerifyAndAddCSIDriverInfo(steps: nat, addResults: seq<Err>) returns (err: Err, calls: nat)
    requires steps <= |addResults|
    ensures RetriedOnConflict(steps, AddAttempt, addResults, Attempts(err, calls))
    ensures steps > 0 ==> 1 <= calls <= steps
    ensures calls > 0 ==>
      (err == NoError <==> addResults[calls - 1] == NoError || addResults[calls - 1] == AlreadyExists)
    ensures err != AlreadyExists
  {
    err, calls := RetryOnConflict(steps, AddAttempt, addResults);
  }

  /** verifyAndDeleteCSIDriverInfo: `removeResults` are the errors of successive remove() calls. */
  method VerifyAndDeleteCSIDriverInfo(steps: nat, removeResults: seq<Err>) returns (err: Err, calls: nat)
    requires steps <= |removeResults|
    ensures RetriedOnConflict(steps, DeleteAttempt, removeResults, Attempts(err, calls))
    ensures steps > 0 ==> 1 <= calls <= steps
    ensures calls > 0 ==>
      (err == NoError <==> removeResults[calls - 1] == NoError || removeResults[calls - 1] == NotFound)
    ensures err != NotFound
  {
    err, calls := RetryOnConflict(steps, DeleteAttempt, removeResults);
  }

  /** Creating an object that already exists is a success after a single call. */
  lemma AlreadyExistsIsSuccess(steps: nat, addResults: seq<Err>, a: Attempts)
    requires 0 < steps <= |addResults| && addResults[0] == AlreadyExists
    requires RetriedOnConflict(steps, AddAttempt, addResults, a)
    ensures a == Attempts(NoError, 1)
  {
  }

  /** Deleting an object that does not exist is a success after a single call. */
  lemma NotFoundIsSuccess(steps: nat, removeResults: seq<Err>, a: Attempts)
    requires 0 < steps <= |removeResults| && removeResults[0] == NotFound
    requires RetriedOnConflict(steps, DeleteAttempt, removeResults, a)
    ensures a == Attempts(NoError, 1)
  {
  }

  /** Two write conflicts followed by a successful create: success after exactly three calls. */
  lemma ConflictTwiceThenCreated(steps: nat, addResults: seq<Err>, a: Attempts)
    requires 3 <= steps <= |addResults|
    requires addResults[0] == Conflict && addResults[1] == Conflict && addResults[2] == NoError
    requires RetriedOnConflict(steps, AddAttempt, addResults, a)
    ensures a == Attempts(NoError, 3)
  {
  }

  /** When every attempt conflicts, all `steps` attempts are made and Conflict is returned. */
  lemma ConflictsExhaustRetries(steps: nat, attempt: Err -> Err, results: seq<Err>, a: Attempts)
    requires 0 < steps <= |results|
    requires forall j :: 0 <= j < steps ==> attempt(results[j]) == Conflict
    requires RetriedOnConflict(steps, attempt, results, a)
    ensures a == Attempts(Conflict, steps)
  {
  }

  // ---------------------------------------------------------------------------
  // The registrar: kubernetesRegister's loop and the cleanup handler

  /** The process after setup: re-registering on every tick, or gone with an exit status. */
  datatype Phase = Registering | Exited(code: int)

  function Repeat(c: S.ApiCall, n: nat): (r: seq<S.ApiCall>)
    ensures |r| == n && forall i :: 0 <= i < n ==> r[i] == c
  {
    if n == 0 then [] else Repeat(c, n - 1) + [c]
  }

  class Registrar {
    const binding: S.Binding
    const steps: nat
    var phase: Phase
    /** Every request sent to the API server, in order. */
    var log: seq<S.ApiCall>

    /** Only the bound add/remove reach the API server, every request goes through the one
        chosen API, nothing is deleted while registering, and the only exit status is 1. */
    ghost predicate Valid()
      reads this
    {
      && S.Consistent(binding)
      && (forall c :: c in log ==> c == binding.add || c == binding.remove)
      && (phase == Registering ==> binding.remove !in log)
      && (phase.Exited? ==> phase.code == 1)
    }

    constructor (b: S.Binding, retrySteps: nat)
      requires S.Consistent(b)
      ensures Valid()
      ensures binding == b && steps == retrySteps
      ensures phase == Registering && log == []
    {
      binding := b;
      steps := retrySteps;
      phase := Registering;
      log := [];
    }

    /** One iteration of kubernetesRegister's loop; the error of the add is discarded. */
    method Tick(addResults: seq<Err>)
      requires Valid() && steps <= |addResults|
      modifies this
      ensures Valid() && phase == old(phase)
      ensures old(phase) == Registering ==>
        exists a: Attempts :: RetriedOnConflict(steps, AddAttempt, addResults, a) &&
          log == old(log) + Repeat(binding.add, a.calls)
      ensures old(phase).Exited? ==> log == old(log)
    {
      if phase == Registering {
        var err, calls := VerifyAndAddCSIDriverInfo(steps, addResults);
        log := log + Repeat(binding.add, calls);
        assert RetriedOnConflict(steps, AddAttempt, addResults, Attempts(err, calls));
      }
    }

    /** cleanup: the interrupt signal deletes the object once and exits with status 1,
        whatever the delete returned. */
    method Interrupt(removeResults: seq<Err>)
      requires Valid() && steps <= |removeResults|
      modifies this
      ensures Valid() && phase == Exited(1)
      ensures old(phase) == Registering ==>
        exists a: Attempts :: RetriedOnConflict(steps, DeleteAttempt, removeResults, a) &&
          log == old(log) + Repeat(binding.remove, a.calls)
      ensures old(phase).Exited? ==> log == old(log)
    {
      if phase == Registering {
        var err, calls := VerifyAndDeleteCSIDriverInfo(steps, removeResults);
        log := log + Repeat(binding.remove, calls);
        assert RetriedOnConflict(steps, DeleteAttempt, removeResults, Attempts(err, calls));
        phase := Exited(1);
      }
    }

    /** kubernetesRegister from its first tick until the signal: one add round per tick,
        then one remove round, then exit status 1. */
    method Run(ticks: seq<seq<Err>>, removeResults: seq<Err>)
      requires Valid() && phase == Registering
      requires forall t :: t in ticks ==> steps <= |t|
      requires steps <= |removeResults|
      modifies this
      ensures Valid() && phase == Exited(1)
      ensures exists k: nat, n: nat ::
        && (steps > 0 ==> |ticks| <= k && 1 <= n)
        && k <= |ticks| * steps && n <= steps
        && log == old(log) + Repeat(binding.add, k) + Repeat(binding.remove, n)
    {
      ghost var k: nat := 0;
      for i := 0 to |ticks|
        invariant Valid() && phase == Registering
        invariant (steps > 0 ==> i <= k) && k <= i * steps
        invariant log == old(log) + Repeat(binding.add, k)
      {
        ghost var before := log;
        Tick(ticks[i]);
        ghost var a: Attempts :| RetriedOnConflict(steps, AddAttempt, ticks[i], a) &&
          log == before + Repeat(binding.add, a.calls);
        RepeatAppend(binding.add, k, a.calls);
        assert (i + 1) * steps == i * steps + steps;
        k := k + a.calls;
      }
      ghost var before := log;
      Interrupt(removeResults);
      ghost var a: Attempts :| RetriedOnConflict(steps, DeleteAttempt, removeResults, a) &&
        log == before + Repeat(binding.remove, a.calls);
      assert log == old(log) + Repeat(binding.add, k) + Repeat(binding.remove, a.calls);
    }
  }

  lemma RepeatAppend(c: S.ApiCall, k: nat, n: nat)
    ensures Repeat(c, k) + Repeat(c, n) == Repeat(c, k + n)
  {
  }
}
