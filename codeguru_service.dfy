/**
 * The vocabulary of the CodeGuru Reviewer service as the handlers see it through the
 * AWS SDK: provider and state enums, the repository descriptors of an associate
 * request, the association record of a response, and the exceptions a call can raise.
 */
module CodeGuruService {
  import opened Wrappers

  /** `ProviderType`, including the value the SDK uses for a string it does not know. */
  datatype ProviderType =
    | CodeCommit
    | GitHub
    | Bitbucket
    | GitHubEnterpriseServer
    | S3Bucket
    | UnknownToSdkVersion

  /** `ProviderType.toString()`: the wire value; the unknown constant carries a null value and prints "null". */
  function ProviderTypeText(p: ProviderType): string {
    match p
    case CodeCommit => "CodeCommit"
    case GitHub => "GitHub"
    case Bitbucket => "Bitbucket"
    case GitHubEnterpriseServer => "GitHubEnterpriseServer"
    case S3Bucket => "S3Bucket"
    case UnknownToSdkVersion => "null"
  }

  /** `ProviderType.fromValue(s)` for a non-null `s`: an exact, case-sensitive lookup. */
  function ProviderTypeFromValue(s: string): (p: ProviderType)
    ensures p != UnknownToSdkVersion ==> ProviderTypeText(p) == s
  {
    if s == "CodeCommit" then CodeCommit
    else if s == "GitHub" then GitHub
    else if s == "Bitbucket" then Bitbucket
    else if s == "GitHubEnterpriseServer" then GitHubEnterpriseServer
    else if s == "S3Bucket" then S3Bucket
    else UnknownToSdkVersion
  }

  /** Every provider type survives printing and parsing its wire value. */
  lemma ProviderTypeRoundTrip(p: ProviderType)
    ensures ProviderTypeFromValue(ProviderTypeText(p)) == p
  {
  }

  /** `RepositoryAssociationState`; `Other` stands for any further value the service reports. */
  datatype AssociationState =
    | Associated
    | Associating
    | Failed
    | Disassociating
    | Disassociated
    | Other

  /** The service exceptions a call can raise; `OtherException` is any other exception (transport, unmodelled error). */
  datatype SdkError =
    | NotFoundException
    | InternalServerException
    | ValidationException
    | AccessDeniedException
    | ConflictException
    | ThrottlingException
    | OtherException

  // ---- associate request ----

  datatype CodeCommitRepository = CodeCommitRepository(name: Option<string>)

  datatype ThirdPartySourceRepository =
    ThirdPartySourceRepository(name: Option<string>, connectionArn: Option<string>, owner: Option<string>)

  datatype S3Repository = S3Repository(name: Option<string>, bucketName: Option<string>)

  /** `Repository`: four optional descriptors, of which a well-formed request fills one. */
  datatype Repository = Repository(
    codeCommit: Option<CodeCommitRepository>,
    bitbucket: Option<ThirdPartySourceRepository>,
    gitHubEnterpriseServer: Option<ThirdPartySourceRepository>,
    s3Bucket: Option<S3Repository>)

  const EmptyRepository := Repository(None, None, None, None)

  /** The number of descriptors a repository fills. */
  function FilledSlots(r: Repository): nat {
    (if r.codeCommit.Some? then 1 else 0)
    + (if r.bitbucket.Some? then 1 else 0)
    + (if r.gitHubEnterpriseServer.Some? then 1 else 0)
    + (if r.s3Bucket.Some? then 1 else 0)
  }

  datatype AssociateRequest = AssociateRequest(repository: Repository, tags: Option<map<string, string>>)

  // ---- association record and responses ----

  datatype S3RepositoryDetails = S3RepositoryDetails(bucketName: Option<string>)

  /** `RepositoryAssociation`, the record the service returns. */
  datatype RepositoryAssociation = RepositoryAssociation(
    associationArn: Option<string>,
    name: Option<string>,
    owner: Option<string>,
    providerType: ProviderType,
    connectionArn: Option<string>,
    state: AssociationState,
    s3RepositoryDetails: Option<S3RepositoryDetails>)

  /** No two entries share a key. */
  predicate DistinctEntryKeys(entries: seq<(string, string)>) {
    forall i, j :: 0 <= i < j < |entries| ==> entries[i].0 != entries[j].0
  }

  /** A `Map<String, String>` returned by the SDK, as its entries in iteration order. */
  type TagMap = entries: seq<(string, string)> | DistinctEntryKeys(entries)

  datatype AssociateResponse = AssociateResponse(repositoryAssociation: RepositoryAssociation)

  datatype DescribeResponse = DescribeResponse(repositoryAssociation: RepositoryAssociation, tags: TagMap)

  datatype DisassociateResponse = DisassociateResponse(repositoryAssociation: RepositoryAssociation)

  datatype RepositoryAssociationSummary = RepositoryAssociationSummary(
    associationArn: Option<string>,
    name: Option<string>,
    owner: Option<string>,
    providerType: ProviderType,
    connectionArn: Option<string>,
    state: AssociationState)

  datatype ListResponse = ListResponse(summaries: Option<seq<RepositoryAssociationSummary>>, nextToken: Option<string>)

  // ---- the other requests ----

  datatype DescribeRequest = DescribeRequest(associationArn: Option<string>)

  datatype DisassociateRequest = DisassociateRequest(associationArn: Option<string>)

  datatype ListRequest = ListRequest(nextToken: Option<string>)

  /** What one service call yields: its response or the exception it raised. */
  type Outcome<R> = Result<R, SdkError>
}
