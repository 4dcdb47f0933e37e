/**
 * The record shapes of src/state/schemas.ts, their zod schemas as decoders from
 * JSON (unknown properties are dropped, every required property must be
 * present with the right kind of value) and the constructors with defaults.
 * Each encoder states that its output decodes back to its input.
 */
module Schemas {
  import opened Wrappers
  import opened Json

  datatype AppSettings = AppSettings(deployTimeoutSecs: int, refreshIntervalSecs: int, workflowRuns: int)

  datatype Repo = Repo(id: string, name: string, owner: string, defaultBranch: string)

  /** The settings of a `workflow_dispatch` deployment (`type: 'workflow'`). */
  datatype WorkflowSettings = WorkflowSettings(
    environmentKey: string,
    releaseKey: string,
    workflowId: int,
    ref: string,
    extraArgs: map<string, string>)

  /**
   * Deploy settings: the workflow kind, or settings of another kind, for which
   * `DeployWorkflowCodec.is` fails.
   */
  datatype DeploySettings = WorkflowDeploy(workflow: WorkflowSettings) | OtherDeploy(kind: string)

  datatype EnvironmentSettings = EnvironmentSettings(name: string, workflowInputValue: string)

  datatype ApplicationConfig = ApplicationConfig(
    id: string,
    name: string,
    releaseFilter: string,
    repo: Repo,
    deploySettings: DeploySettings,
    environmentSettingsByName: map<string, EnvironmentSettings>)

  /** A workflow run; `conclusion` is a string or `null`. */
  datatype WorkflowRun = WorkflowRun(
    id: int,
    name: string,
    status: string,
    createdAt: string,
    conclusion: Option<string>,
    runNumber: int,
    htmlUrl: string)

  datatype GitHubEnvironment = GitHubEnvironment(name: string)

  /** An optimistic "a dispatch was requested" record; `createdAt` is a date string. */
  datatype PendingDeployment = PendingDeployment(createdAt: string, workflowRunId: Option<int>)

  /** `createDeploySettings({workflowId = 0, ref})`. */
  function CreateDeploySettings(workflowId: Option<int>, ref: string): (s: DeploySettings)
    ensures s.WorkflowDeploy?
    ensures s.workflow.environmentKey == "environment" && s.workflow.releaseKey == "ref"
    ensures s.workflow.workflowId == (if workflowId.Some? then workflowId.value else 0)
    ensures s.workflow.ref == ref && s.workflow.extraArgs == map[]
  {
    WorkflowDeploy(WorkflowSettings("environment", "ref", workflowId.GetOr(0), ref, map[]))
  }

  /** `createApplicationConfig(repo, name, releaseFilter)`; `id` is the generated uuid. */
  function CreateApplicationConfig(id: string, repo: Repo, name: string, releaseFilter: string): (c: ApplicationConfig)
    ensures c.id == id && c.repo == repo && c.releaseFilter == releaseFilter
    ensures c.name == if name != "" then name else repo.name
    ensures c.environmentSettingsByName == map[]
    ensures c.deploySettings == CreateDeploySettings(None, repo.defaultBranch)
    ensures DecodeApplicationConfig(EncodeApplicationConfig(c)) == Some(c)
  {
    var c := ApplicationConfig(id, if name != "" then name else repo.name, releaseFilter, repo,
      CreateDeploySettings(None, repo.defaultBranch), map[]);
    assert c.deploySettings.WorkflowDeploy?;
    c
  }

  // ---- appSettingsSchema

  function DecodeAppSettings(j: Json): Option<AppSettings> {
    if !j.JObj? then None
    else
      var deployTimeout := Field(j.fields, "deployTimeoutSecs", DecodeNumber);
      var refreshInterval := Field(j.fields, "refreshIntervalSecs", DecodeNumber);
      var runs := Field(j.fields, "workflowRuns", DecodeNumber);
      if deployTimeout.Some? && refreshInterval.Some? && runs.Some? then
        Some(AppSettings(deployTimeout.value, refreshInterval.value, runs.value))
      else None
  }

  function EncodeAppSettings(s: AppSettings): (j: Json)
    ensures DecodeAppSettings(j) == Some(s)
  {
    JObj(map[
      "deployTimeoutSecs" := JNum(s.deployTimeoutSecs),
      "refreshIntervalSecs" := JNum(s.refreshIntervalSecs),
      "workflowRuns" := JNum(s.workflowRuns)])
  }

  // ---- repoSchema

  function DecodeRepo(j: Json): Option<Repo> {
    if !j.JObj? then None
    else
      var id := Field(j.fields, "id", DecodeString);
      var name := Field(j.fields, "name", DecodeString);
      var owner := Field(j.fields, "owner", DecodeString);
      var branch := Field(j.fields, "defaultBranch", DecodeString);
      if id.Some? && name.Some? && owner.Some? && branch.Some? then
        Some(Repo(id.value, name.value, owner.value, branch.value))
      else None
  }

  function EncodeRepo(r: Repo): (j: Json)
    ensures DecodeRepo(j) == Some(r)
  {
    JObj(map["id" := JStr(r.id), "name" := JStr(r.name), "owner" := JStr(r.owner), "defaultBranch" := JStr(r.defaultBranch)])
  }

  // ---- deploySettingsSchema

  function DecodeStringRecord(j: Json): Option<map<string, string>> {
    DecodeRecord(j, DecodeString)
  }

  function EncodeStringRecord(m: map<string, string>): (j: Json)
    ensures DecodeStringRecord(j) == Some(m)
  {
    RecordRoundTrip(m, s => JStr(s), DecodeString);
    EncodeRecord(m, s => JStr(s))
  }

  /** `deploySettingsSchema`: only the workflow kind passes. */
  function DecodeDeploySettings(j: Json): (r: Option<DeploySettings>)
    ensures r.Some? ==> r.value.WorkflowDeploy?
  {
    if !j.JObj? then None
    else
      var kind := Field(j.fields, "type", DecodeString);
      var environmentKey := Field(j.fields, "environmentKey", DecodeString);
      var releaseKey := Field(j.fields, "releaseKey", DecodeString);
      var workflowId := Field(j.fields, "workflowId", DecodeNumber);
      var ref := Field(j.fields, "ref", DecodeString);
      var extraArgs := Field(j.fields, "extraArgs", DecodeStringRecord);
      if kind == Some("workflow") && environmentKey.Some? && releaseKey.Some? && workflowId.Some?
        && ref.Some? && extraArgs.Some?
      then
        Some(WorkflowDeploy(WorkflowSettings(environmentKey.value, releaseKey.value, workflowId.value,
          ref.value, extraArgs.value)))
      else None
  }

  function EncodeDeploySettings(s: DeploySettings): (j: Json)
    ensures s.WorkflowDeploy? ==> DecodeDeploySettings(j) == Some(s)
    ensures s.OtherDeploy? ==> DecodeDeploySettings(j) == None
  {
    match s
    case WorkflowDeploy(w) =>
      JObj(map[
        "type" := JStr("workflow"),
        "environmentKey" := JStr(w.environmentKey),
        "releaseKey" := JStr(w.releaseKey),
        "workflowId" := JNum(w.workflowId),
        "ref" := JStr(w.ref),
        "extraArgs" := EncodeStringRecord(w.extraArgs)])
    case OtherDeploy(kind) =>
      JObj(map["type" := JStr(kind)])
  }

  // ---- enviromentSettingsSchema

  function DecodeEnvironmentSettings(j: Json): Option<EnvironmentSettings> {
    if !j.JObj? then None
    else
      var name := Field(j.fields, "name", DecodeString);
      var value := Field(j.fields, "workflowInputValue", DecodeString);
      if name.Some? && value.Some? then Some(EnvironmentSettings(name.value, value.value)) else None
  }

  function EncodeEnvironmentSettings(e: EnvironmentSettings): (j: Json)
    ensures DecodeEnvironmentSettings(j) == Some(e)
  {
    JObj(map["name" := JStr(e.name), "workflowInputValue" := JStr(e.workflowInputValue)])
  }

  function DecodeEnvironmentsByName(j: Json): Option<map<string, EnvironmentSettings>> {
    DecodeRecord(j, DecodeEnvironmentSettings)
  }

  function EncodeEnvironmentsByName(m: map<string, EnvironmentSettings>): (j: Json)
    ensures DecodeEnvironmentsByName(j) == Some(m)
  {
    RecordRoundTrip(m, EncodeEnvironmentSettings, DecodeEnvironmentSettings);
    EncodeRecord(m, EncodeEnvironmentSettings)
  }

  // ---- applicationConfigSchema / applicationsByIdSchema

  function DecodeApplicationConfig(j: Json): Option<ApplicationConfig> {
    if !j.JObj? then None
    else
      var id := Field(j.fields, "id", DecodeString);
      var name := Field(j.fields, "name", DecodeString);
      var releaseFilter := Field(j.fields, "releaseFilter", DecodeString);
      var repo := Field(j.fields, "repo", DecodeRepo);
      var deploySettings := Field(j.fields, "deploySettings", DecodeDeploySettings);
      var environments := Field(j.fields, "environmentSettingsByName", DecodeEnvironmentsByName);
      if id.Some? && name.Some? && releaseFilter.Some? && repo.Some? && deploySettings.Some? && environments.Some? then
        Some(ApplicationConfig(id.value, name.value, releaseFilter.value, repo.value, deploySettings.value,
          environments.value))
      else None
  }

  function EncodeApplicationConfig(c: ApplicationConfig): (j: Json)
    ensures c.deploySettings.WorkflowDeploy? ==> DecodeApplicationConfig(j) == Some(c)
    ensures c.deploySettings.OtherDeploy? ==> DecodeApplicationConfig(j) == None
  {
    JObj(map[
      "id" := JStr(c.id),
      "name" := JStr(c.name),
      "releaseFilter" := JStr(c.releaseFilter),
      "repo" := EncodeRepo(c.repo),
      "deploySettings" := EncodeDeploySettings(c.deploySettings),
      "environmentSettingsByName" := EncodeEnvironmentsByName(c.environmentSettingsByName)])
  }

  /** Every application carries workflow deploy settings, the only kind the schema admits. */
  predicate AllWorkflow(apps: map<string, ApplicationConfig>) {
    forall k :: k in apps ==> apps[k].deploySettings.WorkflowDeploy?
  }

  function DecodeApplicationsById(j: Json): Option<map<string, ApplicationConfig>> {
    DecodeRecord(j, DecodeApplicationConfig)
  }

  function EncodeApplicationsById(apps: map<string, ApplicationConfig>): (j: Json)
    ensures AllWorkflow(apps) ==> DecodeApplicationsById(j) == Some(apps)
    ensures !AllWorkflow(apps) ==> DecodeApplicationsById(j) == None
  {
    var j := EncodeRecord(apps, EncodeApplicationConfig);
    ApplicationsRoundTrip(apps, j);
    j
  }

  lemma ApplicationsRoundTrip(apps: map<string, ApplicationConfig>, j: Json)
    requires j == EncodeRecord(apps, EncodeApplicationConfig)
    ensures AllWorkflow(apps) ==> DecodeApplicationsById(j) == Some(apps)
    ensures !AllWorkflow(apps) ==> DecodeApplicationsById(j) == None
  {
    if AllWorkflow(apps) {
      ApplicationsDecode(apps, j);
    } else {
      var k :| k in apps && !apps[k].deploySettings.WorkflowDeploy?;
      assert DecodeApplicationConfig(j.fields[k]) == None;
    }
  }

  lemma ApplicationsDecode(apps: map<string, ApplicationConfig>, j: Json)
    requires j == EncodeRecord(apps, EncodeApplicationConfig)
    requires AllWorkflow(apps)
    ensures DecodeApplicationsById(j) == Some(apps)
  {
    forall k | k in apps ensures DecodeApplicationConfig(EncodeApplicationConfig(apps[k])) == Some(apps[k]) {
    }
    RecordRoundTrip(apps, EncodeApplicationConfig, DecodeApplicationConfig);
  }

  // ---- pendingDeploymentSchema / pendingDeploymentsSchema

  function DecodePendingDeployment(j: Json): Option<PendingDeployment> {
    if !j.JObj? then None
    else
      var createdAt := Field(j.fields, "createdAt", DecodeString);
      var runId := if "workflowRunId" in j.fields then Some(DecodeNumber(j.fields["workflowRunId"])) else None;
      if createdAt.Some? && (runId.None? || runId.value.Some?) then
        Some(PendingDeployment(createdAt.value, if runId.Some? then runId.value else None))
      else None
  }

  function EncodePendingDeployment(p: PendingDeployment): (j: Json)
    ensures DecodePendingDeployment(j) == Some(p)
  {
    match p.workflowRunId
    case None => JObj(map["createdAt" := JStr(p.createdAt)])
    case Some(id) => JObj(map["createdAt" := JStr(p.createdAt), "workflowRunId" := JNum(id)])
  }

  function DecodePendingDeployments(j: Json): Option<map<string, PendingDeployment>> {
    DecodeRecord(j, DecodePendingDeployment)
  }

  function EncodePendingDeployments(m: map<string, PendingDeployment>): (j: Json)
    ensures DecodePendingDeployments(j) == Some(m)
  {
    RecordRoundTrip(m, EncodePendingDeployment, DecodePendingDeployment);
    EncodeRecord(m, EncodePendingDeployment)
  }

  // ---- workflowRunSchema / githubEnvironmentSchema

  /** `z.union([z.string(), z.null()])`. */
  function DecodeStringOrNull(j: Json): Option<Option<string>> {
    match j
    case JStr(s) => Some(Some(s))
    case JNull => Some(None)
    case _ => None
  }

  function DecodeWorkflowRun(j: Json): Option<WorkflowRun> {
    if !j.JObj? then None
    else
      var id := Field(j.fields, "id", DecodeNumber);
      var name := Field(j.fields, "name", DecodeString);
      var status := Field(j.fields, "status", DecodeString);
      var createdAt := Field(j.fields, "created_at", DecodeString);
      var conclusion := Field(j.fields, "conclusion", DecodeStringOrNull);
      var runNumber := Field(j.fields, "run_number", DecodeNumber);
      var url := Field(j.fields, "html_url", DecodeString);
      if id.Some? && name.Some? && status.Some? && createdAt.Some? && conclusion.Some? && runNumber.Some? && url.Some? then
        Some(WorkflowRun(id.value, name.value, status.value, createdAt.value, conclusion.value, runNumber.value, url.value))
      else None
  }

  function EncodeWorkflowRun(r: WorkflowRun): (j: Json)
    ensures DecodeWorkflowRun(j) == Some(r)
  {
    JObj(map[
      "id" := JNum(r.id),
      "name" := JStr(r.name),
      "status" := JStr(r.status),
      "created_at" := JStr(r.createdAt),
      "conclusion" := (if r.conclusion.Some? then JStr(r.conclusion.value) else JNull),
      "run_number" := JNum(r.runNumber),
      "html_url" := JStr(r.htmlUrl)])
  }

  function DecodeWorkflowRuns(j: Json): Option<seq<WorkflowRun>> {
    DecodeArray(j, DecodeWorkflowRun)
  }

  function DecodeGitHubEnvironment(j: Json): Option<GitHubEnvironment> {
    if !j.JObj? then None
    else
      var name := Field(j.fields, "name", DecodeString);
      if name.Some? then Some(GitHubEnvironment(name.value)) else None
  }

  function EncodeGitHubEnvironment(e: GitHubEnvironment): (j: Json)
    ensures DecodeGitHubEnvironment(j) == Some(e)
  {
    JObj(map["name" := JStr(e.name)])
  }

  function DecodeGitHubEnvironments(j: Json): Option<seq<GitHubEnvironment>> {
    DecodeArray(j, DecodeGitHubEnvironment)
  }

  function EncodeGitHubEnvironments(s: seq<GitHubEnvironment>): (j: Json)
    ensures DecodeGitHubEnvironments(j) == Some(s)
  {
    ArrayRoundTrip(s, EncodeGitHubEnvironment, DecodeGitHubEnvironment);
    EncodeArray(s, EncodeGitHubEnvironment)
  }
}
