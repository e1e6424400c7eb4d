/**
 * Create handler of the repository-association resource: the Associate call, which
 * records the new ARN and the create flag, and the polling of Describe until the
 * association is ASSOCIATED, FAILED or the attempts run out.
 */
module AssociationCreateHandler {
  import opened Wrappers
  import opened CodeGuruService
  import opened CloudFormation
  import opened AssociationModel
  import opened AssociationTranslator
  import opened AssociationBaseHandler

  /** The catch blocks of `createResource`, ending in a catch-all. */
  function ClassifyAssociateError(e: SdkError): CfnError {
    match e
    case InternalServerException => CfnServiceInternalError
    case ValidationException => CfnInvalidRequest(None)
    case AccessDeniedException => CfnAccessDenied
    case ConflictException => CfnAlreadyExists
    case ThrottlingException => CfnThrottling
    case _ => CfnInternalFailure
  }

  /** The table agrees with the shared taxonomy except that NotFound falls to the catch-all. */
  lemma AssociateTableAgreesWithTaxonomy(e: SdkError)
    ensures ClassifyAssociateError(e) == if e == NotFoundException then CfnInternalFailure else Taxonomy(e)
    ensures ClassifyAssociateError(e) == CfnInternalFailure <==> e == NotFoundException || e == OtherException
  {
  }

  /**
   * `createResource`: on success the model takes the new ARN and the context marks a
   * create workflow; on failure neither changes and one CloudFormation error is thrown.
   */
  method CreateResource(state: HandlerState, outcome: Outcome<AssociateResponse>) returns (r: Result<AssociateResponse, Thrown>)
    modifies state
    ensures outcome.Success? ==>
              && r == Success(outcome.value)
              && state.model == old(state.model).(associationArn := outcome.value.repositoryAssociation.associationArn)
              && state.context == old(state.context).(isCreateWorkflow := true)
    ensures outcome.Failure? ==>
              && r == Failure(Cfn(ClassifyAssociateError(outcome.error)))
              && state.model == old(state.model)
              && state.context == old(state.context)
  {
    match outcome
    case Success(response) =>
      state.model := state.model.(associationArn := response.repositoryAssociation.associationArn);
      state.context := state.context.(isCreateWorkflow := true);
      r := Success(response);
    case Failure(e) =>
      r := Failure(Cfn(ClassifyAssociateError(e)));
  }

  /**
   * The run of `stabilizedOnCreate` from `attempts` calls on: `describe(i)` is what the
   * i-th Describe call yields and `sleep(i)` how the sleep after it ends.
   */
  function CreatePollRun(describe: nat -> Outcome<DescribeResponse>, sleep: nat -> SleepOutcome, attempts: nat): Polled
    decreases MaxStabilizeAttempts - attempts
  {
    if attempts >= MaxStabilizeAttempts then Polled(Success(false), attempts)
    else
      match DescribeRepositoryAssociation(describe(attempts))
      case Failure(thrown) => Polled(Failure(thrown), attempts + 1)
      case Success(response) =>
        var current := response.repositoryAssociation.state;
        if current == Failed then Polled(Failure(Cfn(CfnNotStabilized)), attempts + 1)
        else if sleep(attempts) == Interrupted then Polled(Failure(Cfn(CfnInternalFailure)), attempts + 1)
        else if current == Associated then Polled(Success(true), attempts + 1)
        else CreatePollRun(describe, sleep, attempts + 1)
  }

  /**
   * `stabilizedOnCreate`. `requests` are the Describe requests it issues, in order:
   * at most `MAX_STABILIZE_ATTEMPTS` of them, each for the ARN the Associate call returned.
   */
  method StabilizedOnCreate(response: AssociateResponse, describe: nat -> Outcome<DescribeResponse>, sleep: nat -> SleepOutcome)
    returns (r: Result<bool, Thrown>, requests: seq<DescribeRequest>)
    ensures Polled(r, |requests|) == CreatePollRun(describe, sleep, 0)
    ensures 0 < |requests| <= MaxStabilizeAttempts
    ensures forall i :: 0 <= i < |requests| ==> requests[i].associationArn == response.repositoryAssociation.associationArn
  {
    var stabilized := false;
    var attempts: nat := 0;
    requests := [];
    while !stabilized && attempts < MaxStabilizeAttempts
      invariant attempts == |requests| <= MaxStabilizeAttempts
      invariant forall i :: 0 <= i < |requests| ==> requests[i] == DescribeRequestFromAssociate(response)
      invariant stabilized ==> 0 < attempts && CreatePollRun(describe, sleep, 0) == Polled(Success(true), attempts)
      invariant !stabilized ==> CreatePollRun(describe, sleep, 0) == CreatePollRun(describe, sleep, attempts)
      decreases MaxStabilizeAttempts - attempts
    {
      requests := requests + [DescribeRequestFromAssociate(response)];
      var described := DescribeRepositoryAssociation(describe(attempts));
      if described.Failure? {
        return Failure(described.error), requests;
      }
      var current := described.value.repositoryAssociation.state;
      if current == Associated {
        stabilized := true;
      } else if current == Failed {
        return Failure(Cfn(CfnNotStabilized)), requests;
      }
      if sleep(attempts) == Interrupted {
        return Failure(Cfn(CfnInternalFailure)), requests;
      }
      attempts := attempts + 1;
    }
    r := Success(stabilized);
  }

  /** Describe call i succeeded with a state that is neither ASSOCIATED nor FAILED. */
  predicate Pending(outcome: Outcome<DescribeResponse>) {
    outcome.Success? && outcome.value.repositoryAssociation.state != Associated
    && outcome.value.repositoryAssociation.state != Failed
  }

  /** Calls `from` up to `k` only saw pending states and slept through. */
  predicate PendingBetween(describe: nat -> Outcome<DescribeResponse>, sleep: nat -> SleepOutcome, from: nat, k: nat) {
    forall j :: from <= j < k ==> Pending(describe(j)) && sleep(j) == Slept
  }

  /** Pending calls only use up attempts: the run continues as if started after them. */
  lemma {:induction false} CreatePollSkipsPending(describe: nat -> Outcome<DescribeResponse>, sleep: nat -> SleepOutcome, from: nat, k: nat)
    requires from <= k <= MaxStabilizeAttempts
    requires PendingBetween(describe, sleep, from, k)
    ensures CreatePollRun(describe, sleep, from) == CreatePollRun(describe, sleep, k)
    decreases k - from
  {
    if from < k {
      CreatePollSkipsPending(describe, sleep, from + 1, k);
    }
  }

  /** If call k is the first to report ASSOCIATED, the loop returns true after exactly k + 1 calls. */
  lemma CreatePollFirstAssociated(describe: nat -> Outcome<DescribeResponse>, sleep: nat -> SleepOutcome, k: nat)
    requires k < MaxStabilizeAttempts
    requires PendingBetween(describe, sleep, 0, k)
    requires describe(k).Success? && describe(k).value.repositoryAssociation.state == Associated
    requires sleep(k) == Slept
    ensures CreatePollRun(describe, sleep, 0) == Polled(Success(true), k + 1)
  {
    CreatePollSkipsPending(describe, sleep, 0, k);
  }

  /** A FAILED state throws NotStabilized at once: no further Describe call. */
  lemma CreatePollFailedState(describe: nat -> Outcome<DescribeResponse>, sleep: nat -> SleepOutcome, k: nat)
    requires k < MaxStabilizeAttempts
    requires PendingBetween(describe, sleep, 0, k)
    requires describe(k).Success? && describe(k).value.repositoryAssociation.state == Failed
    ensures CreatePollRun(describe, sleep, 0) == Polled(Failure(Cfn(CfnNotStabilized)), k + 1)
  {
    CreatePollSkipsPending(describe, sleep, 0, k);
  }

  /** Only pending states for the whole budget: false after exactly the budget, without a throw. */
  lemma CreatePollExhausted(describe: nat -> Outcome<DescribeResponse>, sleep: nat -> SleepOutcome)
    requires PendingBetween(describe, sleep, 0, MaxStabilizeAttempts)
    ensures CreatePollRun(describe, sleep, 0) == Polled(Success(false), MaxStabilizeAttempts)
  {
    CreatePollSkipsPending(describe, sleep, 0, MaxStabilizeAttempts);
  }

  /** A Describe exception, NotFound included, is not caught by the loop: it aborts with the base table's error. */
  lemma CreatePollDescribeError(describe: nat -> Outcome<DescribeResponse>, sleep: nat -> SleepOutcome, k: nat)
    requires k < MaxStabilizeAttempts
    requires PendingBetween(describe, sleep, 0, k)
    requires describe(k).Failure?
    ensures CreatePollRun(describe, sleep, 0) == Polled(Failure(ClassifyDescribeError(describe(k).error)), k + 1)
  {
    CreatePollSkipsPending(describe, sleep, 0, k);
  }

  /** The sleep follows every evaluation: an interrupt even after ASSOCIATED is an internal failure. */
  lemma CreatePollInterrupted(describe: nat -> Outcome<DescribeResponse>, sleep: nat -> SleepOutcome, k: nat)
    requires k < MaxStabilizeAttempts
    requires PendingBetween(describe, sleep, 0, k)
    requires describe(k).Success? && describe(k).value.repositoryAssociation.state != Failed
    requires sleep(k) == Interrupted
    ensures CreatePollRun(describe, sleep, 0) == Polled(Failure(Cfn(CfnInternalFailure)), k + 1)
  {
    CreatePollSkipsPending(describe, sleep, 0, k);
  }
}
