/**
 * The release and deployment models the deploy grid works on: a release is a
 * tag on a commit, with the deployments GitHub recorded for that ref, newest
 * first. Instants are milliseconds.
 */
module Models {
  import opened Wrappers
  import opened Schemas

  /** GitHub's deployment states, as the GraphQL schema enumerates them. */
  datatype DeploymentState =
    | Abandoned | Active | Destroyed | Error | Failure | Inactive | InProgress | Pending | Queued | Success | Waiting

  /** The enum's string value, as GitHub spells it: upper-case letters and `_`. */
  function StateName(s: DeploymentState): (name: string)
    ensures |name| >= 5
    ensures forall i :: 0 <= i < |name| ==> 'A' <= name[i] <= 'Z' || name[i] == '_'
  {
    match s
    case Abandoned => "ABANDONED"
    case Destroyed => "DESTROYED"
    case Success => "SUCCESS"
    case Waiting => "WAITING"
    case Inactive => "INACTIVE"
    case Pending => "PENDING"
    case InProgress => "IN_PROGRESS"
    case Active => "ACTIVE"
    case Failure => "FAILURE"
    case Error => "ERROR"
    case Queued => "QUEUED"
  }

  datatype Deployment = Deployment(
    id: string,
    createdAt: int,
    environment: string,
    state: DeploymentState,
    modifiedAt: Option<int>,
    workflowRunId: Option<int>)

  datatype Release = Release(
    id: string,
    name: string,
    tagName: string,
    createdAt: int,
    commit: string,
    deployments: seq<Deployment>)

  /** `release.deployments.some(d => d.environment === environment)`. */
  predicate DeploysTo(r: Release, environment: string) {
    exists i :: 0 <= i < |r.deployments| && r.deployments[i].environment == environment
  }

  /** A workflow of the repository, as the workflow list returns it. */
  datatype Workflow = Workflow(id: int, name: string)

  /** The state of the new/edit application dialog; `warning` is shown when present and non-empty. */
  datatype ApplicationDialogState = ApplicationDialogState(
    repo: Option<Repo>,
    name: string,
    releaseFilter: string,
    warning: Option<string>)

  /** The state of the add/edit environment dialog. */
  datatype EnvironmentDialogState = EnvironmentDialogState(environmentName: string, workflowInputValue: string)
}
