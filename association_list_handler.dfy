/** List handler of the repository-association resource: one List call, its summaries mapped. */
module AssociationListHandler {
  import opened Wrappers
  import opened CodeGuruService
  import opened CloudFormation
  import opened AssociationModel
  import opened AssociationTranslator

  /** The List request issued, and what the handler returned or threw. */
  datatype ListRun = ListRun(request: ListRequest, result: Result<ProgressEvent<ResourceModel>, Thrown>)

  /**
   * `handleRequest` of the list handler; `response` is what its List call would yield.
   * The call is not wrapped in a catch table, so its exceptions escape as they are.
   */
  function HandleList(nextToken: Option<string>, response: Outcome<ListResponse>): (run: ListRun)
    ensures run.request.nextToken == nextToken
    ensures response.Failure? ==> run.result == Failure(Service(response.error))
    ensures response.Success? ==>
              && run.result.Success?
              && run.result.value.status == Succeeded
              && run.result.value.resourceModel.None?
              && run.result.value.nextToken == response.value.nextToken
              && run.result.value.resourceModels == Some(TranslateFromListResponse(response.value.summaries))
    ensures response.Success? ==>
              |run.result.value.resourceModels.value| == |response.value.summaries.GetOr([])|
  {
    var request := ListRequestFromToken(nextToken);
    match response
    case Failure(e) => ListRun(request, Failure(Service(e)))
    case Success(listed) =>
      ListRun(request, Success(ProgressEvent(Succeeded, None, Some(TranslateFromListResponse(listed.summaries)), listed.nextToken)))
  }

  /** An empty or missing summary list still succeeds, with no models and no single model. */
  lemma ListEmpty(nextToken: Option<string>, responseToken: Option<string>, summaries: Option<seq<RepositoryAssociationSummary>>)
    requires summaries.None? || summaries.value == []
    ensures HandleList(nextToken, Success(ListResponse(summaries, responseToken))).result ==
            Success(ProgressEvent(Succeeded, None, Some([]), responseToken))
  {
  }
}
