/**
 * The CloudFormation provider contract as the handlers use it: the error kinds a
 * handler may surface, what can escape a handler, and the progress event it returns.
 */
module CloudFormation {
  import opened Wrappers
  import opened CodeGuruService

  /**
   * The CloudFormation exceptions the handlers throw. An invalid request carries the
   * message a translator writes, or None when it wraps the service's validation error.
   */
  datatype CfnError =
    | CfnNotFound
    | CfnServiceInternalError
    | CfnInvalidRequest(message: Option<string>)
    | CfnAccessDenied
    | CfnAlreadyExists
    | CfnThrottling
    | CfnNotStabilized
    | CfnInternalFailure

  /**
   * Whatever leaves a handler by a throw: a CloudFormation error, a service exception
   * that no table caught, or a runtime exception of the Java code itself.
   */
  datatype Thrown =
    | Cfn(cfn: CfnError)
    | Service(sdk: SdkError)
    | NullPointer        // a null dereferenced
    | DuplicateTagKey    // `Collectors.toMap` meeting a key twice

  /**
   * The one vendor-to-CloudFormation mapping the handlers' catch blocks share:
   * every classified service exception has its own error kind, and anything
   * unclassified is an internal failure.
   */
  function Taxonomy(e: SdkError): CfnError {
    match e
    case NotFoundException => CfnNotFound
    case InternalServerException => CfnServiceInternalError
    case ValidationException => CfnInvalidRequest(None)
    case AccessDeniedException => CfnAccessDenied
    case ConflictException => CfnAlreadyExists
    case ThrottlingException => CfnThrottling
    case OtherException => CfnInternalFailure
  }

  /** The taxonomy gives each service exception its own kind. */
  lemma TaxonomyInjective(e1: SdkError, e2: SdkError)
    requires Taxonomy(e1) == Taxonomy(e2)
    ensures e1 == e2
  {
  }

  /** Taxonomy never yields the two kinds that only the handlers themselves raise. */
  lemma TaxonomyNeverNotStabilized(e: SdkError)
    ensures Taxonomy(e) != CfnNotStabilized
    ensures Taxonomy(e) == CfnInternalFailure <==> e == OtherException
  {
  }

  datatype OperationStatus = InProgress | Succeeded | OperationFailed

  /** `ProgressEvent`: the handler's answer to the host. */
  datatype ProgressEvent<M> = ProgressEvent(
    status: OperationStatus,
    resourceModel: Option<M>,
    resourceModels: Option<seq<M>>,
    nextToken: Option<string>)

  /** `ProgressEvent.defaultSuccessHandler(model)`. */
  function DefaultSuccess<M>(model: M): ProgressEvent<M> {
    ProgressEvent(Succeeded, Some(model), None, None)
  }

  /** `Thread.sleep` either returns or is interrupted. */
  datatype SleepOutcome = Slept | Interrupted

  /** `StringUtils.isNullOrEmpty`. */
  predicate IsNullOrEmpty(s: Option<string>) {
    s.None? || s.value == ""
  }
}
