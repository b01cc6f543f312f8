/** What the commands see of the Bedrock management API. The SDK client is replaced by its
    answers: the listings, the per-resource tag lists and the service's default page size. */
module Bedrock {
  import opened Wrappers
  import opened TagMaps

  /** One element of a summary's `models` list. */
  datatype ModelRef = ModelRef(modelArn: string)

  /** One element of `inferenceProfileSummaries`, with the members the commands read; each
      member may be absent from the provider's dictionary. */
  datatype Summary = Summary(
    id: Option<string>,            // inferenceProfileId
    name: Option<string>,          // inferenceProfileName
    arn: Option<string>,           // inferenceProfileArn
    models: Option<seq<ModelRef>>) // models

  /** A listing request: every profile of the requested type in the provider's order, or a
      `ClientError`. A listing whose summaries member is absent is an empty catalog. */
  datatype ListResponse = Listed(catalog: seq<Summary>) | ListFailed

  /** A `list_tags_for_resource` call: the tag list (absent counts as empty), or a `ClientError`. */
  datatype TagResponse = TagsListed(tags: seq<Tag>) | TagsFailed

  /** The provider as both command files use it. `tagsOf` answers `list_tags_for_resource`
      for the ARN it is given (the ARN may be absent from a summary); `defaultPageSize` is how
      many summaries one listing returns when the request names no `maxResults`. */
  datatype Provider = Provider(
    applicationProfiles: ListResponse,
    systemProfiles: ListResponse,
    tagsOf: Option<string> -> TagResponse,
    defaultPageSize: nat)

  /** A kept application profile: the provider's summary, copied, with a `tags` member holding
      the profile's tag map. */
  datatype AppProfile = AppProfile(summary: Summary, tags: Dict)

  /** The one page a listing returns when at most `maxResults` summaries are asked for; no
      command follows the continuation token, so later pages are never seen. */
  function FirstPage(catalog: seq<Summary>, maxResults: nat): (page: seq<Summary>)
    ensures page <= catalog
    ensures |page| == if |catalog| < maxResults then |catalog| else maxResults
  {
    if |catalog| < maxResults then catalog else catalog[..maxResults]
  }
}
