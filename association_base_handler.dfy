/**
 * What every repository-association handler shares: the classified Describe call, the
 * stabilization settings and the generic bounded stabilization loop, and the defaulting
 * of a missing callback context.
 */
module AssociationBaseHandler {
  import opened Wrappers
  import opened CodeGuruService
  import opened CloudFormation
  import opened AssociationModel

  /** `MAX_STABILIZE_ATTEMPTS`. */
  const MaxStabilizeAttempts: int := 5
  /** `STABILIZE_SLEEP_TIME_MS`. */
  const StabilizeSleepTimeMs: int := 7000

  /** The catch blocks of `describeRepositoryAssociation`: no Conflict arm and no catch-all. */
  function ClassifyDescribeError(e: SdkError): Thrown {
    match e
    case NotFoundException => Cfn(CfnNotFound)
    case InternalServerException => Cfn(CfnServiceInternalError)
    case ValidationException => Cfn(CfnInvalidRequest(None))
    case AccessDeniedException => Cfn(CfnAccessDenied)
    case ThrottlingException => Cfn(CfnThrottling)
    case ConflictException => Service(e)
    case OtherException => Service(e)
  }

  /** `describeRepositoryAssociation`: one Describe call, its exceptions classified. */
  function DescribeRepositoryAssociation(outcome: Outcome<DescribeResponse>): (r: Result<DescribeResponse, Thrown>)
    ensures outcome.Success? ==> r == Success(outcome.value)
    ensures outcome.Failure? ==> r.Failure?
    ensures outcome.Failure? ==>
              (r.error.Service? <==> outcome.error == ConflictException || outcome.error == OtherException)
    ensures outcome.Failure? && r.error.Service? ==> r.error.sdk == outcome.error
    ensures outcome.Failure? && !r.error.Service? ==> r.error == Cfn(Taxonomy(outcome.error))
  {
    match outcome
    case Success(response) => Success(response)
    case Failure(e) => Failure(ClassifyDescribeError(e))
  }

  /** `callbackContext != null ? callbackContext : new CallbackContext()`. */
  function ContextOrNew(context: Option<CallbackContext>): (r: CallbackContext)
    ensures context.Some? ==> r == context.value
    ensures context.None? ==> !r.isCreateWorkflow && !r.isDeleteWorkflow
  {
    context.GetOr(CallbackContext(false, false))
  }

  /** The default `stabilizeOnHandle`: stable at once. */
  function DefaultStabilizeOnHandle(attempt: nat): bool {
    true
  }

  /** How a stabilization loop ended, and how many evaluations it made. */
  datatype Polled = Polled(outcome: Result<bool, Thrown>, calls: nat)

  /**
   * The run of `stabilizeLoop` from `attempts` evaluations on: `probe(i)` is what the
   * i-th `stabilizeOnHandle` returns and `sleep(i)` how the sleep after it ends.
   */
  function StabilizeLoopRun(probe: nat -> bool, sleep: nat -> SleepOutcome, budget: int, attempts: nat): Polled
    decreases budget - attempts
  {
    if attempts >= budget then Polled(Success(false), attempts)
    else if sleep(attempts) == Interrupted then Polled(Failure(Cfn(CfnInternalFailure)), attempts + 1)
    else if probe(attempts) then Polled(Success(true), attempts + 1)
    else StabilizeLoopRun(probe, sleep, budget, attempts + 1)
  }

  /**
   * What any run of the loop looks like: it evaluates at most the budget, every
   * evaluation before the last one returned false and slept, and the last one decides
   * the result: true and slept, an interrupted sleep, or the budget used up.
   */
  lemma {:induction false} StabilizeLoopShape(probe: nat -> bool, sleep: nat -> SleepOutcome, budget: int, attempts: nat)
    ensures var run := StabilizeLoopRun(probe, sleep, budget, attempts);
            && (attempts >= budget ==> run == Polled(Success(false), attempts))
            && (attempts < budget ==> attempts < run.calls <= budget)
            && (forall j :: attempts <= j < run.calls - 1 ==> !probe(j) && sleep(j) == Slept)
            && (run.outcome == Success(true) <==>
                  attempts < run.calls && probe(run.calls - 1) && sleep(run.calls - 1) == Slept)
            && (run.outcome.Failure? <==> attempts < run.calls && sleep(run.calls - 1) == Interrupted)
            && (run.outcome.Failure? ==> run.outcome.error == Cfn(CfnInternalFailure))
            && (run.outcome == Success(false) && attempts < budget ==>
                  run.calls == budget && !probe(budget - 1) && sleep(budget - 1) == Slept)
    decreases budget - attempts
  {
    if attempts < budget && sleep(attempts) == Slept && !probe(attempts) {
      StabilizeLoopShape(probe, sleep, budget, attempts + 1);
    }
  }

  /** The loop stops right after the first evaluation that returns true. */
  lemma {:induction false} StabilizeLoopStopsAtFirstTrue(probe: nat -> bool, sleep: nat -> SleepOutcome, budget: int, attempts: nat, k: nat)
    requires attempts <= k < budget
    requires probe(k) && forall j :: attempts <= j < k ==> !probe(j)
    requires forall j :: attempts <= j <= k ==> sleep(j) == Slept
    ensures StabilizeLoopRun(probe, sleep, budget, attempts) == Polled(Success(true), k + 1)
    decreases k - attempts
  {
    if attempts < k {
      StabilizeLoopStopsAtFirstTrue(probe, sleep, budget, attempts + 1, k);
    }
  }

  /** The loop reports true iff some evaluation within the budget returned true, all sleeps up to it completing. */
  lemma StabilizeLoopTrueIff(probe: nat -> bool, sleep: nat -> SleepOutcome, budget: int)
    ensures StabilizeLoopRun(probe, sleep, budget, 0).outcome == Success(true) <==>
            exists k :: 0 <= k < budget && probe(k) && (forall j :: 0 <= j < k ==> !probe(j))
                        && (forall j :: 0 <= j <= k ==> sleep(j) == Slept)
  {
    var run := StabilizeLoopRun(probe, sleep, budget, 0);
    StabilizeLoopShape(probe, sleep, budget, 0);
    if run.outcome == Success(true) {
      var k := run.calls - 1;
      assert 0 <= k < budget && probe(k);
      assert forall j :: 0 <= j < k ==> !probe(j);
    }
    if exists k :: 0 <= k < budget && probe(k) && (forall j :: 0 <= j < k ==> !probe(j))
                   && (forall j :: 0 <= j <= k ==> sleep(j) == Slept) {
      var k :| 0 <= k < budget && probe(k) && (forall j :: 0 <= j < k ==> !probe(j))
               && (forall j :: 0 <= j <= k ==> sleep(j) == Slept);
      StabilizeLoopStopsAtFirstTrue(probe, sleep, budget, 0, k);
    }
  }

  /** With the default `stabilizeOnHandle` and a budget of at least one, the loop evaluates exactly once. */
  lemma DefaultStabilizeLoopCallsOnce(sleep: nat -> SleepOutcome, budget: int)
    requires budget >= 1
    ensures StabilizeLoopRun(DefaultStabilizeOnHandle, sleep, budget, 0) ==
            Polled(if sleep(0) == Slept then Success(true) else Failure(Cfn(CfnInternalFailure)), 1)
  {
  }

  /** The settings half of `BaseHandlerStd`; each handler object owns one copy. */
  class BaseHandler {
    var maxStabilizeAttempts: int
    var stabilizeSleepTimeMs: int

    constructor()
      ensures maxStabilizeAttempts == MaxStabilizeAttempts && stabilizeSleepTimeMs == StabilizeSleepTimeMs
    {
      maxStabilizeAttempts := MaxStabilizeAttempts;
      stabilizeSleepTimeMs := StabilizeSleepTimeMs;
    }

    /** The four-argument `handleRequest`: default a missing context, then delegate. */
    method HandleRequest(context: Option<CallbackContext>) returns (delegated: CallbackContext)
      ensures delegated == ContextOrNew(context)
    {
      delegated := ContextOrNew(context);
    }

    /** The six-argument `handleRequest`: overwrite both settings, default the context, delegate. */
    method HandleRequestWithSettings(context: Option<CallbackContext>, maxAttempts: int, sleepTimeMs: int)
      returns (delegated: CallbackContext)
      modifies this
      ensures maxStabilizeAttempts == maxAttempts && stabilizeSleepTimeMs == sleepTimeMs
      ensures delegated == ContextOrNew(context)
    {
      maxStabilizeAttempts := maxAttempts;
      stabilizeSleepTimeMs := sleepTimeMs;
      delegated := ContextOrNew(context);
    }

    /**
     * `stabilizeLoop`: evaluate, sleep, count, until an evaluation returns true or
     * `maxStabilizeAttempts` evaluations are made; an interrupted sleep throws.
     */
    method StabilizeLoop(probe: nat -> bool, sleep: nat -> SleepOutcome) returns (r: Result<bool, Thrown>, calls: nat)
      ensures Polled(r, calls) == StabilizeLoopRun(probe, sleep, maxStabilizeAttempts, 0)
    {
      var stabilized := false;
      var attempts: nat := 0;
      while !stabilized && attempts < maxStabilizeAttempts
        invariant stabilized ==> 0 < attempts && StabilizeLoopRun(probe, sleep, maxStabilizeAttempts, 0) == Polled(Success(true), attempts)
        invariant !stabilized ==> StabilizeLoopRun(probe, sleep, maxStabilizeAttempts, 0) == StabilizeLoopRun(probe, sleep, maxStabilizeAttempts, attempts)
        decreases maxStabilizeAttempts - attempts
      {
        stabilized := probe(attempts);
        if sleep(attempts) == Interrupted {
          return Failure(Cfn(CfnInternalFailure)), attempts + 1;
        }
        attempts := attempts + 1;
      }
      r, calls := Success(stabilized), attempts;
    }
  }

  /** The model and callback context one handler invocation works on; both change in place. */
  class HandlerState {
    var model: ResourceModel
    var context: CallbackContext

    constructor(model: ResourceModel, context: CallbackContext)
      ensures this.model == model && this.context == context
    {
      this.model := model;
      this.context := context;
    }
  }
}
