/**
 * Translator of the `AWS::CodeGuruReviewer::Repository` resource: two providers
 * only, no tags, and a read translation that copies every field unconditionally.
 */
module RepositoryTranslator {
  import opened Wrappers
  import opened CodeGuruService
  import opened CloudFormation
  import AssociationTranslator

  /** `ResourceModel` of this resource; every property may be null. */
  datatype ResourceModel = ResourceModel(
    associationArn: Option<string>,
    name: Option<string>,
    providerType: Option<string>,
    owner: Option<string>,
    connectionArn: Option<string>)

  /** The message for a provider type the request cannot be built for. */
  function UnknownProviderTypeMessage(providerType: string): string {
    "Unknown ProviderType of " + providerType
  }

  /** `translateToAssociateRepositoryRequest`: an if/else chain on the model's provider type string. */
  function TranslateToAssociateRequest(model: ResourceModel): (r: Result<AssociateRequest, Thrown>)
    ensures model.providerType.None? ==> r == Failure(NullPointer)
    ensures r.Success? <==> (model.providerType == Some(ProviderTypeText(CodeCommit))
                             || model.providerType == Some(ProviderTypeText(Bitbucket)))
    ensures model.providerType.Some? && r.Failure? ==>
              r.error == Cfn(CfnInvalidRequest(Some(UnknownProviderTypeMessage(model.providerType.value))))
    ensures r.Success? ==> FilledSlots(r.value.repository) == 1 && r.value.tags.None?
    ensures model.providerType == Some(ProviderTypeText(CodeCommit)) ==>
              r.value.repository.codeCommit == Some(CodeCommitRepository(model.name))
    ensures model.providerType == Some(ProviderTypeText(Bitbucket)) ==>
              r.value.repository.bitbucket == Some(ThirdPartySourceRepository(model.name, model.connectionArn, model.owner))
  {
    if model.providerType.None? then Failure(NullPointer)
    else if model.providerType.value == ProviderTypeText(CodeCommit) then
      Success(AssociateRequest(EmptyRepository.(codeCommit := Some(CodeCommitRepository(model.name))), None))
    else if model.providerType.value == ProviderTypeText(Bitbucket) then
      var repository := ThirdPartySourceRepository(model.name, model.connectionArn, model.owner);
      Success(AssociateRequest(EmptyRepository.(bitbucket := Some(repository)), None))
    else
      Failure(Cfn(CfnInvalidRequest(Some(UnknownProviderTypeMessage(model.providerType.value)))))
  }

  /** The provider types this resource accepts are a strict subset of those the association resource accepts. */
  lemma UnsupportedHere(model: ResourceModel)
    requires model.providerType == Some(ProviderTypeText(GitHubEnterpriseServer))
          || model.providerType == Some(ProviderTypeText(S3Bucket))
    ensures TranslateToAssociateRequest(model) ==
            Failure(Cfn(CfnInvalidRequest(Some(UnknownProviderTypeMessage(model.providerType.value)))))
  {
  }

  function DescribeRequestFromAssociate(response: AssociateResponse): DescribeRequest {
    DescribeRequest(response.repositoryAssociation.associationArn)
  }

  function DescribeRequestFromModel(model: ResourceModel): DescribeRequest {
    DescribeRequest(model.associationArn)
  }

  /** `translateFromReadResponse`: every field copied, with no type-dependent omission. */
  function TranslateFromReadResponse(response: DescribeResponse): ResourceModel {
    var ra := response.repositoryAssociation;
    ResourceModel(ra.associationArn, ra.name, Some(ProviderTypeText(ra.providerType)), ra.owner, ra.connectionArn)
  }

  /**
   * Unlike the association resource's read, this read keeps owner and connection ARN for
   * every provider type, CodeCommit included, and its type text parses back to the
   * reported provider type.
   */
  lemma ReadCopiesOwnerForEveryType(response: DescribeResponse)
    ensures var ra, model := response.repositoryAssociation, TranslateFromReadResponse(response);
            && model.associationArn == ra.associationArn && model.name == ra.name
            && model.owner == ra.owner && model.connectionArn == ra.connectionArn
            && model.providerType.Some? && ProviderTypeFromValue(model.providerType.value) == ra.providerType
    ensures var ra := response.repositoryAssociation;
            (ra.providerType == CodeCommit || ra.providerType == S3Bucket) && ra.owner.Some? ==>
              && TranslateFromReadResponse(response).owner == ra.owner
              && AssociationTranslator.TranslateFromReadResponse(response).owner.None?
  {
    ProviderTypeRoundTrip(response.repositoryAssociation.providerType);
  }

  /** The Describe response reports back what the associate request asked for. */
  predicate Echoes(response: DescribeResponse, request: AssociateRequest) {
    var ra, repo := response.repositoryAssociation, request.repository;
    && (repo.codeCommit.Some? ==> ra.providerType == CodeCommit && ra.name == repo.codeCommit.value.name)
    && (repo.bitbucket.Some? ==>
          var t := repo.bitbucket.value;
          ra.providerType == Bitbucket && ra.name == t.name && ra.owner == t.owner && ra.connectionArn == t.connectionArn)
  }

  /**
   * A Bitbucket model reads back unchanged apart from the ARN the service assigned; a
   * CodeCommit model keeps its name and type, and takes owner and connection from the
   * service (the read copies them unconditionally).
   */
  lemma AssociateThenReadRoundTrip(model: ResourceModel, response: DescribeResponse)
    requires TranslateToAssociateRequest(model).Success?
    requires Echoes(response, TranslateToAssociateRequest(model).value)
    ensures var back := TranslateFromReadResponse(response);
            && back.name == model.name
            && back.providerType == model.providerType
            && back.owner == response.repositoryAssociation.owner
            && (model.providerType == Some(ProviderTypeText(Bitbucket)) ==>
                  back == model.(associationArn := response.repositoryAssociation.associationArn))
  {
    var request := TranslateToAssociateRequest(model).value;
    if model.providerType == Some(ProviderTypeText(Bitbucket)) {
      assert request.repository.bitbucket.Some?;
    } else {
      assert request.repository.codeCommit.Some?;
    }
  }
}
