/**
 * Translator of the repository-association resource: builds the service requests from
 * the resource model and turns service responses back into resource models.
 */
module AssociationTranslator {
  import opened Wrappers
  import opened CodeGuruService
  import opened CloudFormation
  import opened AssociationModel

  const BucketNameRequired := "BucketName is required for S3Bucket repository."

  /** The message for a type the associate request cannot be built for. */
  function UnknownTypeMessage(p: ProviderType): string {
    "Unknown Type of " + ProviderTypeText(p)
  }

  /** The provider types an association request can be built for; GitHub is not one of them. */
  predicate Associable(p: ProviderType) {
    p == CodeCommit || p == Bitbucket || p == GitHubEnterpriseServer || p == S3Bucket
  }

  /** The provider type the model's `Type` string selects. */
  function SelectedType(model: ResourceModel): ProviderType
    requires model.providerType.Some?
  {
    ProviderTypeFromValue(model.providerType.value)
  }

  // ---- tags ----

  predicate DistinctKeys(tags: seq<Tag>) {
    forall i, j :: 0 <= i < j < |tags| ==> tags[i].key != tags[j].key
  }

  function KeySet(tags: seq<Tag>): set<string> {
    set i | 0 <= i < |tags| :: tags[i].key
  }

  /**
   * `tags.stream().collect(Collectors.toMap(Tag::getKey, Tag::getValue))`: the list as a
   * key-to-value map, failing on the first key met twice (no merge function is given).
   */
  function TagsToMap(tags: seq<Tag>): (r: Result<map<string, string>, Thrown>)
    ensures r.Success? <==> DistinctKeys(tags)
    ensures r.Failure? ==> r.error == DuplicateTagKey
    ensures r.Success? ==> r.value.Keys == KeySet(tags)
    ensures r.Success? ==> forall i :: 0 <= i < |tags| ==> r.value[tags[i].key] == tags[i].value
  {
    if tags == [] then Success(map[])
    else
      var front := tags[..|tags| - 1];
      var last := tags[|tags| - 1];
      assert forall i :: 0 <= i < |front| ==> front[i] == tags[i];
      assert KeySet(tags) == KeySet(front) + {last.key} by {
        assert forall i :: 0 <= i < |front| ==> tags[i].key in KeySet(front);
      }
      var m :- TagsToMap(front);
      if last.key in m then
        assert exists i :: 0 <= i < |front| && front[i].key == last.key;
        Failure(DuplicateTagKey)
      else
        Success(m[last.key := last.value])
  }

  /** `getTagsFromModel`: no map for a null or empty list. */
  function TagsFromModel(model: ResourceModel): Result<Option<map<string, string>>, Thrown> {
    if model.tags.None? || model.tags.value == [] then Success(None)
    else
      var m :- TagsToMap(model.tags.value);
      Success(Some(m))
  }

  // ---- associate request ----

  function CodeCommitRepositoryOf(model: ResourceModel): Repository {
    EmptyRepository.(codeCommit := Some(CodeCommitRepository(model.name)))
  }

  function ThirdPartyRepositoryOf(model: ResourceModel): ThirdPartySourceRepository {
    ThirdPartySourceRepository(model.name, model.connectionArn, model.owner)
  }

  function S3BucketRepositoryOf(model: ResourceModel): Result<Repository, Thrown> {
    if IsNullOrEmpty(model.bucketName) then Failure(Cfn(CfnInvalidRequest(Some(BucketNameRequired))))
    else Success(EmptyRepository.(s3Bucket := Some(S3Repository(model.name, model.bucketName))))
  }

  /** The switch on the provider type. */
  function RepositoryFor(p: ProviderType, model: ResourceModel): Result<Repository, Thrown> {
    match p
    case CodeCommit => Success(CodeCommitRepositoryOf(model))
    case Bitbucket => Success(EmptyRepository.(bitbucket := Some(ThirdPartyRepositoryOf(model))))
    case GitHubEnterpriseServer => Success(EmptyRepository.(gitHubEnterpriseServer := Some(ThirdPartyRepositoryOf(model))))
    case S3Bucket => S3BucketRepositoryOf(model)
    case _ => Failure(Cfn(CfnInvalidRequest(Some(UnknownTypeMessage(p)))))
  }

  /** True when `getTagsFromModel` does not throw. */
  predicate TagsConvertible(tags: Option<seq<Tag>>) {
    tags.None? || DistinctKeys(tags.value)
  }

  /** `translateToAssociateRepositoryRequest`. */
  function TranslateToAssociateRequest(model: ResourceModel): (r: Result<AssociateRequest, Thrown>)
    // the errors, in the order the code meets them
    ensures model.providerType.None? ==> r == Failure(NullPointer)
    ensures model.providerType.Some? && !Associable(SelectedType(model)) ==>
              r == Failure(Cfn(CfnInvalidRequest(Some(UnknownTypeMessage(SelectedType(model))))))
    ensures model.providerType.Some? && SelectedType(model) == S3Bucket && IsNullOrEmpty(model.bucketName) ==>
              r == Failure(Cfn(CfnInvalidRequest(Some(BucketNameRequired))))
    ensures r.Success? <==>
              && model.providerType.Some?
              && Associable(SelectedType(model))
              && !(SelectedType(model) == S3Bucket && IsNullOrEmpty(model.bucketName))
              && TagsConvertible(model.tags)
    ensures (&& r.Failure? && model.providerType.Some? && Associable(SelectedType(model))
             && !(SelectedType(model) == S3Bucket && IsNullOrEmpty(model.bucketName))) ==> r.error == DuplicateTagKey
    // exactly one descriptor, the one the type selects, carrying the model's fields
    ensures r.Success? ==> FilledSlots(r.value.repository) == 1
    ensures r.Success? ==>
              var repo, p := r.value.repository, SelectedType(model);
              && (repo.codeCommit.Some? <==> p == CodeCommit)
              && (repo.bitbucket.Some? <==> p == Bitbucket)
              && (repo.gitHubEnterpriseServer.Some? <==> p == GitHubEnterpriseServer)
              && (repo.s3Bucket.Some? <==> p == S3Bucket)
    ensures r.Success? && r.value.repository.codeCommit.Some? ==>
              r.value.repository.codeCommit.value.name == model.name
    ensures r.Success? && r.value.repository.bitbucket.Some? ==>
              r.value.repository.bitbucket.value == ThirdPartySourceRepository(model.name, model.connectionArn, model.owner)
    ensures r.Success? && r.value.repository.gitHubEnterpriseServer.Some? ==>
              r.value.repository.gitHubEnterpriseServer.value == ThirdPartySourceRepository(model.name, model.connectionArn, model.owner)
    ensures r.Success? && r.value.repository.s3Bucket.Some? ==>
              !IsNullOrEmpty(model.bucketName) && r.value.repository.s3Bucket.value == S3Repository(model.name, model.bucketName)
    // tags are attached iff there are some, as the map of the list
    ensures r.Success? ==> (r.value.tags.Some? <==> model.tags.Some? && model.tags.value != [])
    ensures r.Success? && r.value.tags.Some? ==> TagsToMap(model.tags.value) == Success(r.value.tags.value)
  {
    if model.providerType.None? then Failure(NullPointer)
    else
      var repository :- RepositoryFor(SelectedType(model), model);
      var tags :- TagsFromModel(model);
      Success(AssociateRequest(repository, tags))
  }

  // ---- requests built from an ARN or a token ----

  function DescribeRequestFromAssociate(response: AssociateResponse): DescribeRequest {
    DescribeRequest(response.repositoryAssociation.associationArn)
  }

  function DescribeRequestFromModel(model: ResourceModel): DescribeRequest {
    DescribeRequest(model.associationArn)
  }

  function DisassociateRequestFromModel(model: ResourceModel): DisassociateRequest {
    DisassociateRequest(model.associationArn)
  }

  function ListRequestFromToken(nextToken: Option<string>): ListRequest {
    ListRequest(nextToken)
  }

  // ---- read translation ----

  /** The map an SDK tag map stands for. */
  function EntryMap(entries: TagMap): map<string, string> {
    map i | 0 <= i < |entries| :: entries[i].0 := entries[i].1
  }

  /** The entries of the response's tag map as `Tag`s, in iteration order. */
  function TagsFromEntries(entries: TagMap): seq<Tag> {
    seq(|entries|, i requires 0 <= i < |entries| => Tag(entries[i].0, entries[i].1))
  }

  /** The tag list read back from a tag map converts to that same map. */
  lemma TagsFromEntriesToMap(entries: TagMap)
    ensures TagsToMap(TagsFromEntries(entries)) == Success(EntryMap(entries))
  {
    var tags := TagsFromEntries(entries);
    assert |tags| == |entries|;
    assert forall i :: 0 <= i < |tags| ==> tags[i] == Tag(entries[i].0, entries[i].1);
    assert DistinctKeys(tags);
    var r := TagsToMap(tags);
    var m, e := r.value, EntryMap(entries);
    forall k | k in e ensures k in m && m[k] == e[k] {
      var i :| 0 <= i < |entries| && entries[i].0 == k;
      assert tags[i].key == k;
    }
    forall k | k in m ensures k in e {
      assert k in KeySet(tags);
      var i :| 0 <= i < |tags| && tags[i].key == k;
      assert entries[i].0 == k;
    }
    assert m == e;
  }

  /** `translateFromReadResponse`. */
  function TranslateFromReadResponse(response: DescribeResponse): (model: ResourceModel)
    ensures var ra := response.repositoryAssociation;
            && model.associationArn == ra.associationArn
            && model.name == ra.name
            && model.providerType == Some(ProviderTypeText(ra.providerType))
            && model.connectionArn == ra.connectionArn
    ensures var p := response.repositoryAssociation.providerType;
            model.owner == if p == CodeCommit || p == S3Bucket then None else response.repositoryAssociation.owner
    ensures var ra := response.repositoryAssociation;
            model.bucketName == if ra.providerType == S3Bucket && ra.s3RepositoryDetails.Some?
                                then ra.s3RepositoryDetails.value.bucketName else None
    ensures model.tags.None? <==> |response.tags| == 0
    ensures model.tags.Some? ==> TagsToMap(model.tags.value) == Success(EntryMap(response.tags))
  {
    var ra := response.repositoryAssociation;
    var p := ra.providerType;
    var owner := if !(p == CodeCommit || p == S3Bucket) then ra.owner else None;
    var bucketName := if p == S3Bucket && ra.s3RepositoryDetails.Some? then ra.s3RepositoryDetails.value.bucketName else None;
    var tags := if |response.tags| != 0 then Some(TagsFromEntries(response.tags)) else None;
    TagsFromEntriesToMap(response.tags);
    ResourceModel(ra.associationArn, ra.name, Some(ProviderTypeText(p)), owner, ra.connectionArn, bucketName, tags)
  }

  // ---- list translation ----

  function ModelFromSummary(s: RepositoryAssociationSummary): ResourceModel {
    ResourceModel(s.associationArn, s.name, Some(ProviderTypeText(s.providerType)), s.owner, s.connectionArn, None, None)
  }

  function MapSummaries(summaries: seq<RepositoryAssociationSummary>): (models: seq<ResourceModel>)
    ensures |models| == |summaries|
    ensures forall i :: 0 <= i < |summaries| ==> models[i] == ModelFromSummary(summaries[i])
  {
    if summaries == [] then [] else [ModelFromSummary(summaries[0])] + MapSummaries(summaries[1..])
  }

  /** `translateFromListRepositoryAssocationResponse` over `streamOfOrEmpty`. */
  function TranslateFromListResponse(summaries: Option<seq<RepositoryAssociationSummary>>): (models: seq<ResourceModel>)
    ensures summaries.None? ==> models == []
    ensures summaries.Some? ==> |models| == |summaries.value|
    ensures summaries.Some? ==> forall i :: 0 <= i < |models| ==>
              var s := summaries.value[i];
              && models[i].associationArn == s.associationArn
              && models[i].name == s.name
              && models[i].owner == s.owner
              && models[i].providerType == Some(ProviderTypeText(s.providerType))
              && models[i].connectionArn == s.connectionArn
              && models[i].bucketName.None? && models[i].tags.None?
  {
    MapSummaries(summaries.GetOr([]))
  }

  // ---- round trip ----

  /** The Describe response reports back what the associate request asked for. */
  predicate Echoes(response: DescribeResponse, request: AssociateRequest) {
    var ra, repo := response.repositoryAssociation, request.repository;
    && (repo.codeCommit.Some? ==>
          ra.providerType == CodeCommit && ra.name == repo.codeCommit.value.name)
    && (repo.bitbucket.Some? ==>
          var t := repo.bitbucket.value;
          ra.providerType == Bitbucket && ra.name == t.name && ra.owner == t.owner && ra.connectionArn == t.connectionArn)
    && (repo.gitHubEnterpriseServer.Some? ==>
          var t := repo.gitHubEnterpriseServer.value;
          ra.providerType == GitHubEnterpriseServer && ra.name == t.name && ra.owner == t.owner && ra.connectionArn == t.connectionArn)
    && (repo.s3Bucket.Some? ==>
          var s := repo.s3Bucket.value;
          ra.providerType == S3Bucket && ra.name == s.name && ra.s3RepositoryDetails == Some(S3RepositoryDetails(s.bucketName)))
    && EntryMap(response.tags) == request.tags.GetOr(map[])
  }

  /**
   * A model that yields an associate request, echoed back by Describe, reads back with
   * its declared name and type, its owner and connection for a third-party provider,
   * its bucket for S3, and the same tags as a map.
   */
  lemma AssociateThenReadRoundTrip(model: ResourceModel, response: DescribeResponse)
    requires TranslateToAssociateRequest(model).Success?
    requires Echoes(response, TranslateToAssociateRequest(model).value)
    ensures var back := TranslateFromReadResponse(response);
            && back.name == model.name
            && back.providerType == model.providerType
            && (SelectedType(model) in {Bitbucket, GitHubEnterpriseServer} ==>
                  back.owner == model.owner && back.connectionArn == model.connectionArn)
            && (SelectedType(model) in {CodeCommit, S3Bucket} ==> back.owner.None?)
            && (SelectedType(model) == S3Bucket ==> back.bucketName == model.bucketName)
            && (back.tags.Some? <==> model.tags.Some? && model.tags.value != [])
            && TagsToMap(back.tags.GetOr([])) == TagsToMap(model.tags.GetOr([]))
  {
    var request := TranslateToAssociateRequest(model).value;
    var back := TranslateFromReadResponse(response);
    var p := SelectedType(model);
    assert ProviderTypeText(p) == model.providerType.value;
    if request.tags.None? {
      assert EntryMap(response.tags) == map[];
      assert model.tags.None? || model.tags.value == [];
    }
  }
}
