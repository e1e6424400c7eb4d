/** The resource model and callback context of `AWS::CodeGuruReviewer::RepositoryAssociation`. */
module AssociationModel {
  import opened Wrappers

  datatype Tag = Tag(key: string, value: string)

  /** `ResourceModel`; `providerType` is the model's `Type` property. Every property may be null. */
  datatype ResourceModel = ResourceModel(
    associationArn: Option<string>,
    name: Option<string>,
    providerType: Option<string>,
    owner: Option<string>,
    connectionArn: Option<string>,
    bucketName: Option<string>,
    tags: Option<seq<Tag>>)

  /** `CallbackContext`: the two workflow flags the host persists between invocations. */
  datatype CallbackContext = CallbackContext(isCreateWorkflow: bool, isDeleteWorkflow: bool)
}
