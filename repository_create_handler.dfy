/**
 * Create handler of `AWS::CodeGuruReviewer::Repository`: the Associate call, a single
 * stabilization check, and delegation to the read handler for the final event.
 */
module RepositoryCreateHandler {
  import opened Wrappers
  import opened CodeGuruService
  import opened CloudFormation
  import opened RepositoryTranslator

  /** The catch blocks of `createResource`: no NotFound arm and no catch-all. */
  function ClassifyAssociateError(e: SdkError): Thrown {
    match e
    case InternalServerException => Cfn(CfnServiceInternalError)
    case ValidationException => Cfn(CfnInvalidRequest(None))
    case AccessDeniedException => Cfn(CfnAccessDenied)
    case ConflictException => Cfn(CfnAlreadyExists)
    case ThrottlingException => Cfn(CfnThrottling)
    case NotFoundException => Service(e)
    case OtherException => Service(e)
  }

  /** `createResource`: the response as it came, or the classified exception; others escape unclassified. */
  function CreateResource(outcome: Outcome<AssociateResponse>): (r: Result<AssociateResponse, Thrown>)
    ensures outcome.Success? ==> r == Success(outcome.value)
    ensures outcome.Failure? ==> r.Failure?
    ensures outcome.Failure? ==>
              (r.error.Service? <==> outcome.error == NotFoundException || outcome.error == OtherException)
    ensures outcome.Failure? && r.error.Service? ==> r.error.sdk == outcome.error
    ensures outcome.Failure? && !r.error.Service? ==> r.error == Cfn(Taxonomy(outcome.error))
  {
    match outcome
    case Success(response) => Success(response)
    case Failure(e) => Failure(ClassifyAssociateError(e))
  }

  /** The Describe request a stabilization check issues, and what the check returned or threw. */
  datatype Check = Check(request: DescribeRequest, result: Result<bool, Thrown>)

  /**
   * `stabilizedOnCreate`: one raw Describe for the ARN the Associate call returned;
   * stable iff ASSOCIATED. FAILED is merely not stable, and exceptions are not classified.
   */
  function StabilizedOnCreate(response: AssociateResponse, describe: Outcome<DescribeResponse>): (check: Check)
    ensures check.request.associationArn == response.repositoryAssociation.associationArn
    ensures describe.Failure? ==> check.result == Failure(Service(describe.error))
    ensures describe.Success? ==>
              check.result == Success(describe.value.repositoryAssociation.state == Associated)
  {
    var request := DescribeRequestFromAssociate(response);
    match describe
    case Failure(e) => Check(request, Failure(Service(e)))
    case Success(described) => Check(request, Success(described.repositoryAssociation.state == Associated))
  }

  /**
   * How this handler's part of a create ends: a throw, a stabilization check the host
   * must repeat, or a hand-over to the read handler for the request's model.
   */
  datatype CreateEvent =
    | CreateFailed(error: Thrown)
    | NotYetStabilized
    | DelegatedToRead(model: ResourceModel)

  /**
   * `handleRequest`: translate, associate, check once; when stable, the final event is the
   * read handler's for the original request, not anything built from the Associate response.
   */
  function HandleCreate(model: ResourceModel, associate: Outcome<AssociateResponse>, describe: Outcome<DescribeResponse>): (event: CreateEvent)
    ensures TranslateToAssociateRequest(model).Failure? ==>
              event == CreateFailed(TranslateToAssociateRequest(model).error)
    ensures TranslateToAssociateRequest(model).Success? && associate.Failure? ==>
              event == CreateFailed(ClassifyAssociateError(associate.error))
    ensures TranslateToAssociateRequest(model).Success? && associate.Success? && describe.Failure? ==>
              event == CreateFailed(Service(describe.error))
    ensures event.DelegatedToRead? <==>
              && TranslateToAssociateRequest(model).Success? && associate.Success? && describe.Success?
              && describe.value.repositoryAssociation.state == Associated
    ensures event.DelegatedToRead? ==> event.model == model
    ensures (&& TranslateToAssociateRequest(model).Success? && associate.Success? && describe.Success?
             && describe.value.repositoryAssociation.state != Associated) ==>
              event == NotYetStabilized
  {
    match TranslateToAssociateRequest(model)
    case Failure(thrown) => CreateFailed(thrown)
    case Success(_) =>
      match CreateResource(associate)
      case Failure(thrown) => CreateFailed(thrown)
      case Success(response) =>
        match StabilizedOnCreate(response, describe).result
        case Failure(thrown) => CreateFailed(thrown)
        case Success(stabilized) => if stabilized then DelegatedToRead(model) else NotYetStabilized
  }
}
