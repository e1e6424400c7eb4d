/**
 * Delete handler of the repository-association resource: an existence pre-check that
 * tolerates absence only inside a delete workflow, the Disassociate call, which marks
 * the workflow, and a stabilization check under which only NotFound counts as done.
 */
module AssociationDeleteHandler {
  import opened Wrappers
  import opened CodeGuruService
  import opened CloudFormation
  import opened AssociationModel
  import opened AssociationTranslator
  import opened AssociationBaseHandler

  /** The pre-check either lets the delete go on, with model and context untouched, or throws. */
  datatype PreCheck = Proceed | Abort(error: Thrown)

  /**
   * `checkForPreDeleteResourceExistence` over the outcome of its raw Describe call and the
   * context's delete flag. Only NotFound is caught; other exceptions escape unclassified.
   */
  function CheckForPreDeleteResourceExistence(describe: Outcome<DescribeResponse>, isDeleteWorkflow: bool): (r: PreCheck)
    ensures r.Proceed? <==> describe.Success? || (describe.error == NotFoundException && isDeleteWorkflow)
    ensures describe == Failure(NotFoundException) && !isDeleteWorkflow ==> r == Abort(Cfn(CfnNotFound))
    ensures describe.Failure? && describe.error != NotFoundException ==> r == Abort(Service(describe.error))
  {
    match describe
    case Success(_) => Proceed
    case Failure(NotFoundException) => if isDeleteWorkflow then Proceed else Abort(Cfn(CfnNotFound))
    case Failure(e) => Abort(Service(e))
  }

  /**
   * The catch blocks of `deleteResource`, ending in a catch-all. `deleteResource` carries
   * its own catch list, so it is written out here as the source has it and proved equal
   * to the shared taxonomy below.
   */
  function ClassifyDisassociateError(e: SdkError): CfnError {
    match e
    case NotFoundException => CfnNotFound
    case InternalServerException => CfnServiceInternalError
    case ValidationException => CfnInvalidRequest(None)
    case AccessDeniedException => CfnAccessDenied
    case ConflictException => CfnAlreadyExists
    case ThrottlingException => CfnThrottling
    case _ => CfnInternalFailure
  }

  /** Disassociate is the one call site whose table is the whole shared taxonomy. */
  lemma DisassociateTableIsTaxonomy(e: SdkError)
    ensures ClassifyDisassociateError(e) == Taxonomy(e)
  {
  }

  /** `deleteResource`: a successful call marks the delete workflow; a failed one changes nothing and throws. */
  method DeleteResource(state: HandlerState, outcome: Outcome<DisassociateResponse>) returns (r: Result<DisassociateResponse, Thrown>)
    modifies state
    ensures outcome.Success? ==>
              && r == Success(outcome.value)
              && state.model == old(state.model)
              && state.context == old(state.context).(isDeleteWorkflow := true)
    ensures outcome.Failure? ==>
              && r == Failure(Cfn(ClassifyDisassociateError(outcome.error)))
              && state.model == old(state.model)
              && state.context == old(state.context)
  {
    match outcome
    case Success(response) =>
      state.context := state.context.(isDeleteWorkflow := true);
      r := Success(response);
    case Failure(e) =>
      r := Failure(Cfn(ClassifyDisassociateError(e)));
  }

  /**
   * The delete `stabilizeOnHandle`: a classified Describe whose CfnNotFound means done;
   * any other exception is swallowed and, like a successful Describe, means not yet.
   */
  function DeleteStabilizeOnHandle(describe: Outcome<DescribeResponse>): (stabilized: bool)
    ensures stabilized <==> describe == Failure(NotFoundException)
  {
    match DescribeRepositoryAssociation(describe)
    case Failure(Cfn(CfnNotFound)) => true
    case _ => false
  }

  /**
   * Were the delete check driven by `stabilizeLoop`, it would stop at the first Describe
   * that raises NotFound: the k-th call, if that is the first, after k + 1 evaluations.
   */
  lemma DeleteStabilizationStopsAtNotFound(describe: nat -> Outcome<DescribeResponse>, sleep: nat -> SleepOutcome, budget: int, k: nat)
    requires k < budget
    requires describe(k) == Failure(NotFoundException)
    requires forall j :: 0 <= j < k ==> describe(j) != Failure(NotFoundException)
    requires forall j :: 0 <= j <= k ==> sleep(j) == Slept
    ensures StabilizeLoopRun((i: nat) => DeleteStabilizeOnHandle(describe(i)), sleep, budget, 0) == Polled(Success(true), k + 1)
  {
    StabilizeLoopStopsAtFirstTrue((i: nat) => DeleteStabilizeOnHandle(describe(i)), sleep, budget, 0, k);
  }

  /**
   * The part of `handleRequest` this handler owns: the pre-check, then Disassociate with
   * the model's ARN. `disassociated` holds the Disassociate requests issued: none when
   * the pre-check throws. Stabilization is then driven by the host.
   */
  method HandleDelete(state: HandlerState, precheck: Outcome<DescribeResponse>, disassociate: Outcome<DisassociateResponse>)
    returns (r: Result<DisassociateResponse, Thrown>, disassociated: seq<DisassociateRequest>)
    modifies state
    ensures var check := CheckForPreDeleteResourceExistence(precheck, old(state.context.isDeleteWorkflow));
            check.Abort? ==>
              && r == Failure(check.error) && disassociated == []
              && state.model == old(state.model) && state.context == old(state.context)
    ensures CheckForPreDeleteResourceExistence(precheck, old(state.context.isDeleteWorkflow)).Proceed? ==>
              && disassociated == [DisassociateRequest(old(state.model).associationArn)]
              && state.model == old(state.model)
              && (disassociate.Success? ==>
                    r == Success(disassociate.value) && state.context == old(state.context).(isDeleteWorkflow := true))
              && (disassociate.Failure? ==>
                    r == Failure(Cfn(ClassifyDisassociateError(disassociate.error))) && state.context == old(state.context))
  {
    var check := CheckForPreDeleteResourceExistence(precheck, state.context.isDeleteWorkflow);
    if check.Abort? {
      return Failure(check.error), [];
    }
    disassociated := [DisassociateRequestFromModel(state.model)];
    r := DeleteResource(state, disassociate);
  }
}
