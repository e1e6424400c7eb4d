# CodeGuru Reviewer repository resources for CloudFormation — a Dafny model

This project models the resource handlers behind two CloudFormation resource types backed by
Amazon CodeGuru Reviewer:

- `AWS::CodeGuruReviewer::RepositoryAssociation` associates a CodeCommit, Bitbucket,
  GitHub Enterprise Server or S3 bucket repository. It also covers tags, the
  describe-and-stabilize loops, delete with an existence pre-check, read, and list.
- `AWS::CodeGuruReviewer::Repository` associates CodeCommit or Bitbucket only, with a
  single stabilization check, and hands over to its read handler.

Each call to the CodeGuru Reviewer service is an *outcome*: a response or one of the
service's exceptions (`CodeGuruService.Outcome`). A handler that calls the service
several times takes a function from call number to outcome. Thread sleeps are modelled
the same way: each sleep either completes or is interrupted. What a handler throws is a
`CloudFormation.Thrown`. It is one of:

- a CloudFormation handler exception;
- an SDK exception that escaped unclassified;
- a `NullPointerException`;
- the `IllegalStateException` that `Collectors.toMap` raises on a duplicate tag key.

`CloudFormation.Taxonomy` is the common SDK-to-CloudFormation exception mapping. Each
handler's own catch table is proved to agree with it, except where the handler's table
differs on purpose.

Modules: four shared ones for the values the handlers exchange, then one per handler or translator source file:

| module | models |
|---|---|
| `Wrappers` | Option and Result |
| `CodeGuruService` | the SDK records and enums the handlers use |
| `CloudFormation` | handler exceptions, progress events and operation status |
| `AssociationModel` | the resource model and `CallbackContext` of the association resource |
| `AssociationTranslator` | `aws-codegurureviewer-repositoryassociation/src/main/java/software/amazon/codegurureviewer/repositoryassociation/Translator.java` |
| `AssociationBaseHandler` | `aws-codegurureviewer-repositoryassociation/src/main/java/software/amazon/codegurureviewer/repositoryassociation/BaseHandlerStd.java`: class `BaseHandler` carries the two stabilization settings; class `HandlerState` holds the model and context the handlers update in place |
| `AssociationCreateHandler` | `aws-codegurureviewer-repositoryassociation/src/main/java/software/amazon/codegurureviewer/repositoryassociation/CreateHandler.java` |
| `AssociationDeleteHandler` | `aws-codegurureviewer-repositoryassociation/src/main/java/software/amazon/codegurureviewer/repositoryassociation/DeleteHandler.java` |
| `AssociationReadHandler` | `aws-codegurureviewer-repositoryassociation/src/main/java/software/amazon/codegurureviewer/repositoryassociation/ReadHandler.java` |
| `AssociationListHandler` | `aws-codegurureviewer-repositoryassociation/src/main/java/software/amazon/codegurureviewer/repositoryassociation/ListHandler.java` |
| `RepositoryTranslator` | `aws-codegurureviewer-repository/src/main/java/software/amazon/codegurureviewer/repository/Translator.java` |
| `RepositoryCreateHandler` | `aws-codegurureviewer-repository/src/main/java/software/amazon/codegurureviewer/repository/CreateHandler.java` |

## Model

| member | source | states |
|---|---|---|
| CodeGuruService.ProviderTypeFromValue | aws-codegurureviewer-repositoryassociation/src/main/java/software/amazon/codegurureviewer/repositoryassociation/Translator.java:42 | parsing a type string yields a known provider type only when the string is that type's text; anything else is `UNKNOWN_TO_SDK_VERSION` |
| CodeGuruService.ProviderTypeRoundTrip | aws-codegurureviewer-repositoryassociation/src/main/java/software/amazon/codegurureviewer/repositoryassociation/Translator.java:42 | `fromValue` of a known provider type's text returns that type; the unknown type's text (`null`) parses back to unknown |
| CloudFormation.TaxonomyInjective | aws-codegurureviewer-repositoryassociation/src/main/java/software/amazon/codegurureviewer/repositoryassociation/DeleteHandler.java:108-124 | the common catch table sends distinct SDK exceptions to distinct CloudFormation exceptions |
| CloudFormation.TaxonomyNeverNotStabilized | aws-codegurureviewer-repositoryassociation/src/main/java/software/amazon/codegurureviewer/repositoryassociation/DeleteHandler.java:108-124 | no catch table produces `CfnNotStabilizedException`; only the catch-all produces `CfnInternalFailureException` |
| AssociationTranslator.TagsToMap | aws-codegurureviewer-repositoryassociation/src/main/java/software/amazon/codegurureviewer/repositoryassociation/Translator.java:159-165 | the tag list becomes a map exactly when its keys are distinct, otherwise a duplicate-key error; the map's keys are the list's keys and each maps to its tag's value |
| AssociationTranslator.TranslateToAssociateRequest | aws-codegurureviewer-repositoryassociation/src/main/java/software/amazon/codegurureviewer/repositoryassociation/Translator.java:40-90 | a null type is a null-pointer failure; an unknown type fails with "Unknown Type of null"; S3 without a bucket name fails with the bucket-name message; duplicate tags fail. Otherwise (if and only if) the request has exactly the one repository slot the type selects, carrying the model's name, connection ARN and owner, or name and bucket. Tags are present exactly when the model's list is non-empty, and equal the list as a map |
| AssociationTranslator.TagsFromEntriesToMap | aws-codegurureviewer-repositoryassociation/src/main/java/software/amazon/codegurureviewer/repositoryassociation/Translator.java:119-125 | tags read back from a response convert back to the very same map, with no duplicate-key failure |
| AssociationTranslator.TranslateFromReadResponse | aws-codegurureviewer-repositoryassociation/src/main/java/software/amazon/codegurureviewer/repositoryassociation/Translator.java:103-127 | ARN, name, type text and connection ARN are always copied. Owner is copied except for CodeCommit and S3. The bucket name is copied only for S3 with details present. Tags are absent exactly when the response's map is empty, and otherwise convert back to that map |
| AssociationTranslator.MapSummaries | aws-codegurureviewer-repositoryassociation/src/main/java/software/amazon/codegurureviewer/repositoryassociation/Translator.java:141-151 | one model per summary, in order |
| AssociationTranslator.TranslateFromListResponse | aws-codegurureviewer-repositoryassociation/src/main/java/software/amazon/codegurureviewer/repositoryassociation/Translator.java:141-157 | a null summary list gives no models; otherwise one model per summary with its ARN, name, owner (unconditionally), type text and connection ARN |
| AssociationTranslator.AssociateThenReadRoundTrip | aws-codegurureviewer-repositoryassociation/src/main/java/software/amazon/codegurureviewer/repositoryassociation/Translator.java:40-127 | when Describe echoes the associate request, the model read back has the original name and type, owner and connection ARN for Bitbucket and GitHub Enterprise Server, the bucket name for S3, and the same tags as a map (absent exactly when the original list was empty); owner is dropped for CodeCommit and S3 |
| AssociationBaseHandler.DescribeRepositoryAssociation | aws-codegurureviewer-repositoryassociation/src/main/java/software/amazon/codegurureviewer/repositoryassociation/BaseHandlerStd.java:84-106 | a response passes through. NotFound, InternalServer, Validation, AccessDenied and Throttling become their CloudFormation exceptions as in the common table. Conflict and any other exception escape unclassified |
| AssociationBaseHandler.ContextOrNew | aws-codegurureviewer-repositoryassociation/src/main/java/software/amazon/codegurureviewer/repositoryassociation/BaseHandlerStd.java:44-57 | a present context is passed on; a null one becomes a fresh context with both workflow flags false |
| AssociationBaseHandler.StabilizeLoopShape | aws-codegurureviewer-repositoryassociation/src/main/java/software/amazon/codegurureviewer/repositoryassociation/BaseHandlerStd.java:117-140 | the loop ends in one of three ways. It returns true right after the first successful probe. It returns false after the budget is spent. It throws `CfnInternalFailureException` when a sleep is interrupted. It never probes more often than the budget allows |
| AssociationBaseHandler.StabilizeLoopStopsAtFirstTrue | aws-codegurureviewer-repositoryassociation/src/main/java/software/amazon/codegurureviewer/repositoryassociation/BaseHandlerStd.java:117-140 | with uninterrupted sleeps, the loop returns true after exactly k+1 probes when probe k is the first to succeed within the budget |
| AssociationBaseHandler.StabilizeLoopTrueIff | aws-codegurureviewer-repositoryassociation/src/main/java/software/amazon/codegurureviewer/repositoryassociation/BaseHandlerStd.java:117-140 | the loop returns true if and only if some probe within the budget succeeds with no sleep interrupted up to and including it |
| AssociationBaseHandler.DefaultStabilizeLoopCallsOnce | aws-codegurureviewer-repositoryassociation/src/main/java/software/amazon/codegurureviewer/repositoryassociation/BaseHandlerStd.java:108-140 | with the default `stabilizeOnHandle` (always true), the loop probes once and returns true unless that sleep is interrupted |
| AssociationBaseHandler.BaseHandler.constructor | aws-codegurureviewer-repositoryassociation/src/main/java/software/amazon/codegurureviewer/repositoryassociation/BaseHandlerStd.java:31-41 | a new handler has the defaults: 5 attempts and 7000 ms |
| AssociationBaseHandler.BaseHandler.HandleRequest | aws-codegurureviewer-repositoryassociation/src/main/java/software/amazon/codegurureviewer/repositoryassociation/BaseHandlerStd.java:44-57 | the four-argument entry point delegates with the context `ContextOrNew` gives: the given one, or a new one with both flags false when it is null |
| AssociationBaseHandler.BaseHandler.HandleRequestWithSettings | aws-codegurureviewer-repositoryassociation/src/main/java/software/amazon/codegurureviewer/repositoryassociation/BaseHandlerStd.java:59-75 | the six-argument entry point stores both settings and then delegates like the four-argument one |
| AssociationBaseHandler.BaseHandler.StabilizeLoop | aws-codegurureviewer-repositoryassociation/src/main/java/software/amazon/codegurureviewer/repositoryassociation/BaseHandlerStd.java:117-140 | the `while` loop returns what the loop specification returns, after as many probes, for the handler's configured budget |
| AssociationBaseHandler.HandlerState.constructor | aws-codegurureviewer-repositoryassociation/src/main/java/software/amazon/codegurureviewer/repositoryassociation/DeleteHandler.java:30-39 | the handler state starts with the given model and context |
| AssociationCreateHandler.AssociateTableAgreesWithTaxonomy | aws-codegurureviewer-repositoryassociation/src/main/java/software/amazon/codegurureviewer/repositoryassociation/CreateHandler.java:59-88 | the create catch table agrees with the common table except for NotFound: NotFound and any unlisted exception become `CfnInternalFailureException` |
| AssociationCreateHandler.CreateResource | aws-codegurureviewer-repositoryassociation/src/main/java/software/amazon/codegurureviewer/repositoryassociation/CreateHandler.java:59-88 | on success the returned ARN is written into the model and `isCreateWorkflow` is set, with nothing else changed. On failure the classified exception is thrown and model and context are left as they were |
| AssociationCreateHandler.StabilizedOnCreate | aws-codegurureviewer-repositoryassociation/src/main/java/software/amazon/codegurureviewer/repositoryassociation/CreateHandler.java:104-141 | the polling `while` loop returns what the polling specification returns. It issues 1 to 5 Describe requests, each for the ARN the Associate call returned |
| AssociationCreateHandler.CreatePollSkipsPending | aws-codegurureviewer-repositoryassociation/src/main/java/software/amazon/codegurureviewer/repositoryassociation/CreateHandler.java:113-140 | polls that report a state other than ASSOCIATED or FAILED, each followed by a completed sleep, change nothing about the outcome |
| AssociationCreateHandler.CreatePollFirstAssociated | aws-codegurureviewer-repositoryassociation/src/main/java/software/amazon/codegurureviewer/repositoryassociation/CreateHandler.java:113-140 | the first ASSOCIATED within 5 polls ends the loop with true after exactly that many Describe calls |
| AssociationCreateHandler.CreatePollFailedState | aws-codegurureviewer-repositoryassociation/src/main/java/software/amazon/codegurureviewer/repositoryassociation/CreateHandler.java:113-140 | a FAILED state throws `CfnNotStabilizedException` at that poll, before sleeping |
| AssociationCreateHandler.CreatePollExhausted | aws-codegurureviewer-repositoryassociation/src/main/java/software/amazon/codegurureviewer/repositoryassociation/CreateHandler.java:113-140 | 5 pending polls end the loop with false after 5 Describe calls |
| AssociationCreateHandler.CreatePollDescribeError | aws-codegurureviewer-repositoryassociation/src/main/java/software/amazon/codegurureviewer/repositoryassociation/CreateHandler.java:113-140 | a Describe exception aborts the loop with the base handler's classification of it |
| AssociationCreateHandler.CreatePollInterrupted | aws-codegurureviewer-repositoryassociation/src/main/java/software/amazon/codegurureviewer/repositoryassociation/CreateHandler.java:113-140 | an interrupted sleep after a non-FAILED poll throws `CfnInternalFailureException` |
| AssociationDeleteHandler.CheckForPreDeleteResourceExistence | aws-codegurureviewer-repositoryassociation/src/main/java/software/amazon/codegurureviewer/repositoryassociation/DeleteHandler.java:67-88 | the delete proceeds if and only if the resource exists, or is already gone inside a delete workflow. Not found outside a delete workflow throws `CfnNotFoundException`. Any other exception escapes unclassified |
| AssociationDeleteHandler.DisassociateTableIsTaxonomy | aws-codegurureviewer-repositoryassociation/src/main/java/software/amazon/codegurureviewer/repositoryassociation/DeleteHandler.java:98-128 | the delete catch table is exactly the common table |
| AssociationDeleteHandler.DeleteResource | aws-codegurureviewer-repositoryassociation/src/main/java/software/amazon/codegurureviewer/repositoryassociation/DeleteHandler.java:98-128 | on success `isDeleteWorkflow` is set and the model is unchanged. On failure the classified exception is thrown and nothing changes |
| AssociationDeleteHandler.DeleteStabilizeOnHandle | aws-codegurureviewer-repositoryassociation/src/main/java/software/amazon/codegurureviewer/repositoryassociation/DeleteHandler.java:139-159 | delete is stable if and only if Describe reports not found; a response or any other exception means not yet |
| AssociationDeleteHandler.DeleteStabilizationStopsAtNotFound | aws-codegurureviewer-repositoryassociation/src/main/java/software/amazon/codegurureviewer/repositoryassociation/DeleteHandler.java:139-159 | `stabilizeLoop` as the delete handler inherits it, dispatching to the delete override, returns true at the first not-found. No handler calls `stabilizeLoop`: the delete handler passes its override to the framework's `stabilize` (line 50), so this describes the inherited, uncalled loop |
| AssociationDeleteHandler.HandleDelete | aws-codegurureviewer-repositoryassociation/src/main/java/software/amazon/codegurureviewer/repositoryassociation/DeleteHandler.java:30-52 | the pre-check runs first. If it throws, no Disassociate is issued and nothing changes. Otherwise exactly one Disassociate is issued, for the model's ARN, with the outcome of `deleteResource` |
| AssociationReadHandler.HandleRead | aws-codegurureviewer-repositoryassociation/src/main/java/software/amazon/codegurureviewer/repositoryassociation/ReadHandler.java:17-65 | a null or empty ARN throws `CfnNotFoundException` with no service call. Otherwise there is one Describe for the model's ARN: success is a SUCCESS event with the translated model, and failure is the base handler's classification |
| AssociationListHandler.HandleList | aws-codegurureviewer-repositoryassociation/src/main/java/software/amazon/codegurureviewer/repositoryassociation/ListHandler.java:14-32 | the request carries the caller's token; a service exception escapes unclassified. On success the event is SUCCESS with no single model, one translated model per summary and the response's next token |
| AssociationListHandler.ListEmpty | aws-codegurureviewer-repositoryassociation/src/main/java/software/amazon/codegurureviewer/repositoryassociation/Translator.java:153-157 | a null or empty summary list lists no models |
| RepositoryTranslator.TranslateToAssociateRequest | aws-codegurureviewer-repository/src/main/java/software/amazon/codegurureviewer/repository/Translator.java:28-50 | a null provider type is a null-pointer failure. It succeeds if and only if the type is CodeCommit or Bitbucket: the single matching slot carries the model's name, or name, connection ARN and owner, and there are never tags. Any other type fails with "Unknown ProviderType of <type>" |
| RepositoryTranslator.UnsupportedHere | aws-codegurureviewer-repository/src/main/java/software/amazon/codegurureviewer/repository/Translator.java:28-50 | GitHub Enterprise Server and S3 bucket models are rejected by this resource |
| RepositoryTranslator.AssociateThenReadRoundTrip | aws-codegurureviewer-repository/src/main/java/software/amazon/codegurureviewer/repository/Translator.java:28-70 | when the service echoes the request, reading back restores name and type. A Bitbucket model comes back unchanged but for the service's ARN; owner is always taken from the service |
| RepositoryTranslator.ReadCopiesOwnerForEveryType | aws-codegurureviewer-repository/src/main/java/software/amazon/codegurureviewer/repository/Translator.java:62-70 | the read copies ARN, name, owner and connection ARN for every provider type, and its type text parses back to the reported type. Where the association read drops the owner of a CodeCommit or S3 association, this one keeps it |
| RepositoryCreateHandler.CreateResource | aws-codegurureviewer-repository/src/main/java/software/amazon/codegurureviewer/repository/CreateHandler.java:58-80 | a response passes through unchanged. InternalServer, Validation, AccessDenied, Conflict and Throttling become their CloudFormation exceptions as in the common table. NotFound and any other exception escape unclassified (there is no catch-all) |
| RepositoryCreateHandler.StabilizedOnCreate | aws-codegurureviewer-repository/src/main/java/software/amazon/codegurureviewer/repository/CreateHandler.java:97-116 | one Describe for the Associate response's ARN. It is stable if and only if the state is ASSOCIATED (FAILED is merely not stable). A Describe exception escapes unclassified |
| RepositoryCreateHandler.HandleCreate | aws-codegurureviewer-repository/src/main/java/software/amazon/codegurureviewer/repository/CreateHandler.java:28-48 | translation, Associate and Describe failures end the create with that exception, in that order. It hands over to the read handler for the original model if and only if all three succeed and the state is ASSOCIATED. When all three succeed with any other state, FAILED included, nothing is thrown and the check is left for the framework to repeat |

Helpers without a row of their own are covered by the rows of the members whose contracts state them:

- The per-provider builders `CodeCommitRepositoryOf`, `ThirdPartyRepositoryOf` and `S3BucketRepositoryOf` (aws-codegurureviewer-repositoryassociation/src/main/java/software/amazon/codegurureviewer/repositoryassociation/Translator.java:71-90) and `TagsFromModel` (lines 159-165) are covered by the `AssociationTranslator.TranslateToAssociateRequest` row, which states what each contributes.
- The request builders are covered by the handlers that issue them:
  - `AssociationTranslator.DescribeRequestFromAssociate` (lines 92-96) by `AssociationCreateHandler.StabilizedOnCreate`;
  - `AssociationTranslator.DescribeRequestFromModel` (lines 98-101) by `AssociationReadHandler.HandleRead`;
  - `AssociationTranslator.DisassociateRequestFromModel` (lines 129-133) by `AssociationDeleteHandler.HandleDelete`;
  - `AssociationTranslator.ListRequestFromToken` (lines 135-139) by `AssociationListHandler.HandleList`;
  - `RepositoryTranslator.DescribeRequestFromAssociate` (aws-codegurureviewer-repository/src/main/java/software/amazon/codegurureviewer/repository/Translator.java:52-55) by `RepositoryCreateHandler.StabilizedOnCreate`.
  - `RepositoryTranslator.DescribeRequestFromModel` (lines 57-60) serves only the repository resource's read handler, which is not part of this model, so no contract uses it.
- `DefaultStabilizeOnHandle` (aws-codegurureviewer-repositoryassociation/src/main/java/software/amazon/codegurureviewer/repositoryassociation/BaseHandlerStd.java:108-115) is covered by `AssociationBaseHandler.DefaultStabilizeLoopCallsOnce`.
- The catch tables are each covered by the row that ties them to `CloudFormation.Taxonomy`:
  - `AssociationBaseHandler.ClassifyDescribeError` by `AssociationBaseHandler.DescribeRepositoryAssociation`;
  - `AssociationCreateHandler.ClassifyAssociateError` by `AssociationCreateHandler.AssociateTableAgreesWithTaxonomy`;
  - `AssociationDeleteHandler.ClassifyDisassociateError` by `AssociationDeleteHandler.DisassociateTableIsTaxonomy`;
  - `RepositoryCreateHandler.ClassifyAssociateError` by `RepositoryCreateHandler.CreateResource`.
- `EntryMap` and `TagsFromEntries` read the response's tag map and turn it into tags. `AssociationTranslator.TagsFromEntriesToMap` and `AssociationTranslator.TranslateFromReadResponse` state what they promise.

## Left out

- The CloudFormation proxy chain (`initiate`, `translateToServiceRequest`, `makeServiceCall`, `stabilize`, `done`, `then`) and the host's re-invocation of a handler are not modelled as such. Each handler is the sequence of calls it makes, with the outcomes as inputs. How often the framework repeats a stabilization check is the framework's business.
- `BACKOFF_STRATEGY` and all real time: the sleep duration is stored (`stabilizeSleepTimeMs`) but no clock is modelled. A sleep only completes or is interrupted.
- `CodeGuruReviewerClientBuilder.java`, credentials injection, transport and retries are not part of this model.
- Logging is left out; it does not influence any result.
- Tag iteration order: the SDK's tag map is modelled as its entries in iteration order. Which order a real `HashMap` yields is not modelled.
- CloudFormation exception messages, resource type names and identifiers are not modelled, except for the association translator's two messages (unknown type, missing bucket name) and the repository translator's one (unknown provider type). Only the exception kind is.
- Null records in service responses (a null `repositoryAssociation`, a null state or provider type) are not modelled. A null S3 details record and a null summary list are.
- The repository resource's read and delete handlers are not part of this model. `RepositoryCreateHandler.HandleCreate` ends at the hand-over to read.
- `stabilizeOnHandle` overrides that throw are not modelled. The delete override catches everything, and the default cannot throw.
- The association create polling loop is bounded by the constant 5, as in its source, which reads the static constant rather than the configurable `maxStabilizeAttempts` field; the setting therefore only bounds the base `stabilizeLoop`.
- The association create handler's `handleRequest` is only framework chaining (`createResource`, `stabilizedOnCreate`, then read). Its parts are modelled, the chaining is not.
- The repository resource's tests expect an unlisted Associate exception to become an internal failure. The code has no catch-all, so `RepositoryCreateHandler.CreateResource` lets it escape, following the code.
- Repository association states the SDK adds later are folded into one `Other` state, which the create loop treats as pending.
- Null entries in the model's tag list are not modelled: a `Tag` here always has a key and a value. In the source, `Collectors.toMap` throws a `NullPointerException` on a null tag or a null value, and accepts a null key.
