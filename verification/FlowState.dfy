/** The records that the flows persist (launchflow/models), as far as the flows look
    at them. */
module FlowState {
  import opened Options

  datatype ResourceStatus =
    | Unknown | Ready
    | CreateFailed | DeleteFailed | UpdateFailed | ReplaceFailed
    | Creating | Destroying | Updating | Replacing
  {
    predicate IsPending() {
      this in {Creating, Destroying, Updating, Replacing}
    }
  }

  /** What an in-progress status is turned into by whatever gives up on the operation. */
  function GivenUp(status: ResourceStatus): ResourceStatus {
    match status
    case Creating => CreateFailed
    case Destroying => DeleteFailed
    case Updating => UpdateFailed
    case Replacing => ReplaceFailed
    case _ => status
  }

  /** A serialised value. */
  datatype Json = Text(text: string) | Number(n: int) | List(items: seq<Json>) | Dict(fields: map<string, Json>)

  type Inputs = map<string, Json>

  const UNKNOWN_PRODUCT := "unknown"

  datatype ResourceState = ResourceState(
    product: string,
    status: ResourceStatus,
    inputs: Option<Inputs>,
    dependsOn: seq<string>,
    gcpId: Option<string>,
    awsArn: Option<string>,
    attemptedInputs: Option<Inputs>,
    createdAt: nat,
    updatedAt: nat)
}
