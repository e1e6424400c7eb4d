/** Read handler of the repository-association resource: guard, one Describe, translation. */
module AssociationReadHandler {
  import opened Wrappers
  import opened CodeGuruService
  import opened CloudFormation
  import opened AssociationModel
  import opened AssociationTranslator
  import opened AssociationBaseHandler

  /** The Describe requests one read issued, and what it returned or threw. */
  datatype ReadRun = ReadRun(requests: seq<DescribeRequest>, result: Result<ProgressEvent<ResourceModel>, Thrown>)

  /**
   * `handleRequest` of the read handler; `describe` is what its Describe call would yield.
   * A model without an ARN is not found before any call; otherwise exactly one Describe
   * for that ARN is made, its exceptions classified by the base table, and its response
   * translated into the returned model.
   */
  function HandleRead(model: ResourceModel, describe: Outcome<DescribeResponse>): (run: ReadRun)
    ensures IsNullOrEmpty(model.associationArn) ==> run == ReadRun([], Failure(Cfn(CfnNotFound)))
    ensures !IsNullOrEmpty(model.associationArn) ==>
              |run.requests| == 1 && run.requests[0].associationArn == model.associationArn
    ensures !IsNullOrEmpty(model.associationArn) && describe.Success? ==>
              run.result == Success(ProgressEvent(Succeeded, Some(TranslateFromReadResponse(describe.value)), None, None))
    ensures !IsNullOrEmpty(model.associationArn) && describe.Failure? ==>
              run.result == Failure(ClassifyDescribeError(describe.error))
  {
    if IsNullOrEmpty(model.associationArn) then ReadRun([], Failure(Cfn(CfnNotFound)))
    else
      var request := DescribeRequestFromModel(model);
      match DescribeRepositoryAssociation(describe)
      case Failure(thrown) => ReadRun([request], Failure(thrown))
      case Success(response) => ReadRun([request], Success(DefaultSuccess(TranslateFromReadResponse(response))))
  }
}
