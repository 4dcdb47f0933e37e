/**
 * The Overmind actions of `src/overmind/actions.ts`: the application store
 * (applications by id, the selected id, the open dialogs and the pending
 * deployments) and the actions that update it in place. The user's answer to
 * a confirmation, the generated application id, the clock and the uploaded
 * file are parameters; the workflow dispatch request is returned instead of
 * being sent.
 */
module Actions {
  import opened Wrappers
  import opened Text
  import opened Json
  import opened Dates
  import opened Schemas
  import opened Models
  import opened Utils
  import ApplicationDialog
  import ReleasesTable
  import EnvironmentDialog

  const DuplicateWarning := "App with same name and repo already exists!"

  /**
   * Some application, other than the one whose `id` is `except`, has this
   * repository id and this name.
   */
  predicate HasDuplicate(apps: map<string, ApplicationConfig>, repoId: string, name: string, except: Option<string>) {
    exists k :: k in apps && Some(apps[k].id) != except && apps[k].repo.id == repoId && apps[k].name == name
  }

  /**
   * The duplicate check compares the name as typed, but an application
   * created with an empty name takes its repository's name: so an empty name
   * passes the check even when an application of that repository already
   * carries the repository's name, and a second one with the same repository
   * and name is created.
   */
  lemma EmptyNamePassesDuplicateCheck(existing: ApplicationConfig, id: string, releaseFilter: string)
    requires existing.name == existing.repo.name && existing.name != ""
    ensures !HasDuplicate(map[existing.id := existing], existing.repo.id, "", None)
    ensures var created := CreateApplicationConfig(id, existing.repo, "", releaseFilter);
            created.repo == existing.repo && created.name == existing.name
  {
  }

  // ---- triggerDeployment

  /** The workflow input naming the environment: its configured input value, else its name. */
  function EnvironmentArg(env: EnvironmentSettings): string {
    if env.workflowInputValue != "" then env.workflowInputValue else env.name
  }

  /**
   * The `inputs` of the dispatch: the release under `releaseKey`, the
   * environment under `environmentKey` when that key is non-empty, and the
   * extra arguments spread last, so that they override both.
   */
  function DispatchInputs(settings: WorkflowSettings, env: EnvironmentSettings, release: string): (inputs: map<string, string>)
    ensures inputs.Keys == {settings.releaseKey} + settings.extraArgs.Keys +
                           (if settings.environmentKey != "" then {settings.environmentKey} else {})
    ensures forall k :: k in settings.extraArgs ==> inputs[k] == settings.extraArgs[k]
    ensures settings.environmentKey != "" && settings.environmentKey !in settings.extraArgs ==>
              inputs[settings.environmentKey] == EnvironmentArg(env)
    ensures settings.releaseKey !in settings.extraArgs &&
            (settings.environmentKey == "" || settings.environmentKey != settings.releaseKey) ==>
              inputs[settings.releaseKey] == release
  {
    var named := if settings.environmentKey != "" then
        map[settings.releaseKey := release, settings.environmentKey := EnvironmentArg(env)]
      else map[settings.releaseKey := release];
    named + settings.extraArgs
  }

  /**
   * Without an environment input name the environment's workflow input value
   * never reaches a dispatch. The dialog then hides the field, unless fetching
   * the environments failed: the manual form still shows it, and what is
   * typed there is ignored.
   */
  lemma WorkflowInputUnusedWithoutEnvironmentKey(app: ApplicationConfig, env: EnvironmentSettings, value: string, release: string)
    requires app.deploySettings.WorkflowDeploy? && app.deploySettings.workflow.environmentKey == ""
    ensures !EnvironmentDialog.ShowsWorkflowInput(false, Some(app))
    ensures EnvironmentDialog.ShowsWorkflowInput(true, Some(app))
    ensures DispatchInputs(app.deploySettings.workflow, env, release) ==
            DispatchInputs(app.deploySettings.workflow, env.(workflowInputValue := value), release)
  {
  }

  /** The `createWorkflowDispatch` request. */
  datatype Dispatch = Dispatch(owner: string, repo: string, ref: string, workflowId: int, inputs: map<string, string>)

  /**
   * The pending deployments with a dispatch recorded at `now` for a release of
   * the repository in an environment: that one key is (over)written, every
   * other entry stays.
   */
  function RecordPending(pending: map<string, PendingDeployment>, repo: Repo, environmentName: string, release: string, now: nat)
    : (r: map<string, PendingDeployment>)
    ensures r.Keys == pending.Keys + {DeploymentId(repo.owner, repo.name, environmentName, release)}
    ensures r[DeploymentId(repo.owner, repo.name, environmentName, release)] == PendingDeployment(FormatDate(now), None)
    ensures forall k :: k in pending && k != DeploymentId(repo.owner, repo.name, environmentName, release) ==> r[k] == pending[k]
  {
    pending[DeploymentId(repo.owner, repo.name, environmentName, release) := PendingDeployment(FormatDate(now), None)]
  }

  /**
   * The record is found by the grid: right after the dispatch, the cell of
   * that release and environment reads "PENDING" until a deployment shows up.
   */
  lemma RecordedDispatchShowsPending(
    app: ApplicationConfig, pending: map<string, PendingDeployment>,
    byEnv: map<string, seq<Release>>, runs: map<int, WorkflowRun>,
    release: Release, environment: EnvironmentSettings, now: nat)
    requires !DeploysTo(release, environment.name)
    ensures var recorded := RecordPending(pending, app.repo, environment.name, release.tagName, now);
            var c := ReleasesTable.DeployCell(app, recorded, byEnv, runs, release, environment);
            c.caption == "PENDING" && c.state == Some(Pending)
  {
    var recorded := RecordPending(pending, app.repo, environment.name, release.tagName, now);
    ReleasesTable.TriggeredCellShowsPending(app, recorded, byEnv, runs, release, environment, now);
  }

  /**
   * And only that cell: when no name involved contains `/`, a cell of
   * another release or another environment reads as it did.
   */
  lemma RecordingLeavesOtherCells(
    app: ApplicationConfig, pending: map<string, PendingDeployment>,
    byEnv: map<string, seq<Release>>, runs: map<int, WorkflowRun>,
    environmentName: string, releaseName: string, now: nat,
    release: Release, environment: EnvironmentSettings)
    requires '/' !in app.repo.owner && '/' !in app.repo.name
    requires '/' !in environmentName && '/' !in releaseName && '/' !in environment.name && '/' !in release.tagName
    requires environment.name != environmentName || release.tagName != releaseName
    ensures var recorded := RecordPending(pending, app.repo, environmentName, releaseName, now);
            ReleasesTable.DeployCell(app, recorded, byEnv, runs, release, environment) ==
            ReleasesTable.DeployCell(app, pending, byEnv, runs, release, environment)
  {
    var id := DeploymentId(app.repo.owner, app.repo.name, environment.name, release.tagName);
    var recordedId := DeploymentId(app.repo.owner, app.repo.name, environmentName, releaseName);
    if id == recordedId {
      DeploymentIdInjective(app.repo.owner, app.repo.name, environment.name, release.tagName,
        app.repo.owner, app.repo.name, environmentName, releaseName);
      assert false;
    }
  }

  // ---- importApplications

  /** `{...existing, ...imported}`: every id of either, an imported application winning a clash. */
  function MergeApplications(existing: map<string, ApplicationConfig>, imported: map<string, ApplicationConfig>)
    : (merged: map<string, ApplicationConfig>)
    ensures merged.Keys == existing.Keys + imported.Keys
    ensures forall k :: k in imported ==> merged[k] == imported[k]
    ensures forall k :: k in existing && k !in imported ==> merged[k] == existing[k]
  {
    existing + imported
  }

  /**
   * The applications an upload brings in: none when nothing was uploaded or
   * the text is not JSON (the parse throws); otherwise the decoded map, or the
   * empty map when it fails the schema.
   */
  function ImportedApplications(upload: Option<JsonText>): (r: Option<map<string, ApplicationConfig>>)
    ensures upload.None? || !TextTruthy(upload.value) || upload.value.Malformed? ==> r.None?
    ensures upload.Some? && upload.value.Serialized? ==>
              r == Some(DecodeApplicationsById(upload.value.value).GetOr(map[]))
  {
    if upload.Some? && TextTruthy(upload.value) then
      var parsed := ParseText(upload.value);
      if parsed.Some? then Some(DecodeApplicationsById(parsed.value).GetOr(map[])) else None
    else None
  }

  /**
   * Importing an export brings back every exported application unchanged
   * (all of them workflow applications), whatever the store held before.
   */
  lemma ImportExported(existing: map<string, ApplicationConfig>, exported: map<string, ApplicationConfig>)
    requires AllWorkflow(exported)
    ensures var imported := ImportedApplications(Some(Serialized(EncodeApplicationsById(exported))));
            imported == Some(exported) &&
            forall k :: k in exported ==> MergeApplications(existing, imported.value)[k] == exported[k]
  {
  }

  /** Importing the same file twice is importing it once. */
  lemma ImportTwice(existing: map<string, ApplicationConfig>, upload: Option<JsonText>)
    requires ImportedApplications(upload).Some?
    ensures var imported := ImportedApplications(upload).value;
            MergeApplications(MergeApplications(existing, imported), imported) == MergeApplications(existing, imported)
  {
  }

  // ---- setState

  /** lodash `get` along a path of property names; `None` is `undefined`. */
  function GetPath(j: Json, path: seq<string>): Option<Json>
    decreases |path|
  {
    if |path| == 0 then Some(j)
    else if j.JObj? && path[0] in j.fields then GetPath(j.fields[path[0]], path[1..])
    else None
  }

  /** lodash `set` along a path that exists. */
  function SetPath(j: Json, path: seq<string>, v: Json): Json
    requires GetPath(j, path).Some?
    decreases |path|
  {
    if |path| == 0 then v
    else JObj(j.fields[path[0] := SetPath(j.fields[path[0]], path[1..], v)])
  }

  /** After a set, the path reads the new value. */
  lemma {:induction false} SetThenGet(j: Json, path: seq<string>, v: Json)
    requires GetPath(j, path).Some?
    ensures GetPath(SetPath(j, path, v), path) == Some(v)
    decreases |path|
  {
    if |path| > 0 {
      SetThenGet(j.fields[path[0]], path[1..], v);
    }
  }

  /** `p` is a prefix of `q`. */
  predicate IsPrefix(p: seq<string>, q: seq<string>) {
    |p| <= |q| && q[..|p|] == p
  }

  /** A set leaves every path that neither contains nor lies inside the set one as it was. */
  lemma {:induction false} SetLeavesOtherPaths(j: Json, path: seq<string>, v: Json, other: seq<string>)
    requires GetPath(j, path).Some?
    requires !IsPrefix(path, other) && !IsPrefix(other, path)
    ensures GetPath(SetPath(j, path, v), other) == GetPath(j, other)
    decreases |path|
  {
    assert |path| > 0 && |other| > 0;
    if path[0] == other[0] {
      assert |path| <= |other| ==> other[..|path|] == [other[0]] + other[1..][..|path| - 1];
      assert |other| <= |path| ==> path[..|other|] == [path[0]] + path[1..][..|other| - 1];
      SetLeavesOtherPaths(j.fields[path[0]], path[1..], v, other[1..]);
    }
  }

  datatype SetStateResult = Updated(state: Json) | UnknownPath(message: string)

  /** The property path of a selector's source text: everything after its first `.`. */
  function SelectorPath(selector: string): string {
    ReplaceLeadingDot(selector, "")
  }

  /**
   * `setState` on the state seen as a JSON tree: the selector's path must read
   * as something (else it throws "Unkown path …"); then it is set to `value`.
   */
  function SetState(state: Json, selector: string, value: Json): (r: SetStateResult)
    ensures var path := Split(SelectorPath(selector), '.');
            (r.UnknownPath? <==> GetPath(state, path).None?) &&
            (r.UnknownPath? ==> r.message == "Unkown path " + SelectorPath(selector)) &&
            (r.Updated? ==> GetPath(r.state, path) == Some(value)) &&
            (r.Updated? ==> forall other :: !IsPrefix(path, other) && !IsPrefix(other, path) ==>
                              GetPath(r.state, other) == GetPath(state, other))
  {
    var path := Split(SelectorPath(selector), '.');
    if GetPath(state, path).None? then UnknownPath("Unkown path " + SelectorPath(selector))
    else
      SetThenGet(state, path, value);
      forall other | !IsPrefix(path, other) && !IsPrefix(other, path)
        ensures GetPath(SetPath(state, path, value), other) == GetPath(state, other)
      {
        SetLeavesOtherPaths(state, path, value, other);
      }
      Updated(SetPath(state, path, value))
  }

  // ---- environments of an application

  /** The application with `settings` under `name`. */
  function WithEnvironment(app: ApplicationConfig, name: string, settings: EnvironmentSettings): (r: ApplicationConfig)
    ensures r.environmentSettingsByName.Keys == app.environmentSettingsByName.Keys + {name}
    ensures r.environmentSettingsByName[name] == settings
    ensures forall k :: k in app.environmentSettingsByName && k != name ==>
              r.environmentSettingsByName[k] == app.environmentSettingsByName[k]
    ensures r.(environmentSettingsByName := app.environmentSettingsByName) == app
  {
    app.(environmentSettingsByName := app.environmentSettingsByName[name := settings])
  }

  /** The application without the environment `name`. */
  function WithoutEnvironment(app: ApplicationConfig, name: string): (r: ApplicationConfig)
    ensures r.environmentSettingsByName.Keys == app.environmentSettingsByName.Keys - {name}
    ensures forall k :: k in r.environmentSettingsByName ==> r.environmentSettingsByName[k] == app.environmentSettingsByName[k]
    ensures r.(environmentSettingsByName := app.environmentSettingsByName) == app
  {
    app.(environmentSettingsByName := app.environmentSettingsByName - {name})
  }

  /** Removing an environment just added under a new name restores the application. */
  lemma AddThenRemoveEnvironment(app: ApplicationConfig, name: string, settings: EnvironmentSettings)
    requires name !in app.environmentSettingsByName
    ensures WithoutEnvironment(WithEnvironment(app, name, settings), name) == app
  {
    assert WithoutEnvironment(WithEnvironment(app, name, settings), name).environmentSettingsByName
        == app.environmentSettingsByName;
  }

  /** Everything an Overmind state holds that the actions below read or write. */
  datatype AppStateValue = AppStateValue(
    token: string,
    applicationsById: map<string, ApplicationConfig>,
    selectedApplicationId: string,
    pendingDeployments: map<string, PendingDeployment>,
    newApplicationDialog: Option<ApplicationDialogState>,
    editApplicationDialog: Option<ApplicationDialogState>,
    deploymentDialog: Option<WorkflowSettings>,
    addEnvironmentDialog: Option<EnvironmentDialogState>)

  /** The Overmind state; an absent dialog is `None` (`delete state.dialog`). */
  class AppState {
    var token: string
    var applicationsById: map<string, ApplicationConfig>
    var selectedApplicationId: string
    var pendingDeployments: map<string, PendingDeployment>
    var newApplicationDialog: Option<ApplicationDialogState>
    var editApplicationDialog: Option<ApplicationDialogState>
    var deploymentDialog: Option<WorkflowSettings>
    var addEnvironmentDialog: Option<EnvironmentDialogState>

    function Value(): AppStateValue
      reads this
    {
      AppStateValue(token, applicationsById, selectedApplicationId, pendingDeployments,
        newApplicationDialog, editApplicationDialog, deploymentDialog, addEnvironmentDialog)
    }

    /** `state.selectedApplication`: the application under the selected id, if any. */
    function SelectedApplication(): Option<ApplicationConfig>
      reads this
    {
      if selectedApplicationId in applicationsById then Some(applicationsById[selectedApplicationId]) else None
    }

    /**
     * `triggerDeployment`: with a selected workflow application that has the
     * environment configured, and only once the user confirms, record the
     * pending deployment and dispatch the workflow; otherwise change nothing.
     */
    method TriggerDeployment(release: string, environmentName: string, confirmed: bool, now: nat)
      returns (dispatch: Option<Dispatch>)
      modifies this
      ensures var app := old(SelectedApplication());
              !(app.Some? && app.value.deploySettings.WorkflowDeploy? &&
                environmentName in app.value.environmentSettingsByName && confirmed) ==>
                Value() == old(Value()) && dispatch.None?
      ensures var app := old(SelectedApplication());
              app.Some? && app.value.deploySettings.WorkflowDeploy? &&
              environmentName in app.value.environmentSettingsByName && confirmed ==>
                var settings := app.value.deploySettings.workflow;
                var env := app.value.environmentSettingsByName[environmentName];
                Value() == old(Value()).(pendingDeployments :=
                  RecordPending(old(pendingDeployments), app.value.repo, environmentName, release, now)) &&
                dispatch == Some(Dispatch(app.value.repo.owner, app.value.repo.name, settings.ref, settings.workflowId,
                  DispatchInputs(settings, env, release)))
    {
      var app := SelectedApplication();
      if app.None? {
        return None;
      }
      if !app.value.deploySettings.WorkflowDeploy? {
        return None;
      }
      if environmentName !in app.value.environmentSettingsByName {
        return None;
      }
      var env := app.value.environmentSettingsByName[environmentName];
      if !confirmed {
        return None;
      }
      var repo := app.value.repo;
      pendingDeployments := RecordPending(pendingDeployments, repo, environmentName, release, now);
      var settings := app.value.deploySettings.workflow;
      dispatch := Some(Dispatch(repo.owner, repo.name, settings.ref, settings.workflowId, DispatchInputs(settings, env, release)));
    }

    /**
     * `createNewApplication`: with the new-application dialog open, either warn
     * about an application with the same repository and name, or add the new
     * application under `id`, select it, close the dialog and open its
     * deployment settings.
     */
    method CreateNewApplication(id: string, repo: Repo, name: string, releaseFilter: string)
      modifies this
      ensures old(newApplicationDialog).None? ==> Value() == old(Value())
      ensures old(newApplicationDialog).Some? && HasDuplicate(old(applicationsById), repo.id, name, None) ==>
                Value() == old(Value()).(newApplicationDialog :=
                  Some(old(newApplicationDialog).value.(warning := Some(DuplicateWarning))))
      ensures old(newApplicationDialog).Some? && !HasDuplicate(old(applicationsById), repo.id, name, None) ==>
                var config := CreateApplicationConfig(id, repo, name, releaseFilter);
                Value() == old(Value()).(
                  applicationsById := old(applicationsById)[id := config],
                  selectedApplicationId := id,
                  newApplicationDialog := None,
                  deploymentDialog := Some(config.deploySettings.workflow))
    {
      if newApplicationDialog.None? {
        return;
      }
      if HasDuplicate(applicationsById, repo.id, name, None) {
        newApplicationDialog := Some(newApplicationDialog.value.(warning := Some(DuplicateWarning)));
        return;
      }
      var config := CreateApplicationConfig(id, repo, name, releaseFilter);
      applicationsById := applicationsById[id := config];
      selectedApplicationId := id;
      newApplicationDialog := None;
      EditDeployment();
    }

    /** `editDeployment`: open the deployment dialog on the selected application's workflow settings. */
    method EditDeployment()
      modifies this
      ensures var app := old(SelectedApplication());
              app.Some? && app.value.deploySettings.WorkflowDeploy? ==>
                Value() == old(Value()).(deploymentDialog := Some(app.value.deploySettings.workflow))
      ensures var app := old(SelectedApplication());
              !(app.Some? && app.value.deploySettings.WorkflowDeploy?) ==> Value() == old(Value())
    {
      var app := SelectedApplication();
      if app.Some? && app.value.deploySettings.WorkflowDeploy? {
        deploymentDialog := Some(app.value.deploySettings.workflow);
      }
    }

    /** `saveDeployment`: the dialog's settings become the selected application's; the dialog closes in every case. */
    method SaveDeployment()
      modifies this
      ensures var app := old(SelectedApplication());
              app.Some? && old(deploymentDialog).Some? ==>
                Value() == old(Value()).(
                  applicationsById := old(applicationsById)[old(selectedApplicationId) :=
                    app.value.(deploySettings := WorkflowDeploy(old(deploymentDialog).value))],
                  deploymentDialog := None)
      ensures !(old(SelectedApplication()).Some? && old(deploymentDialog).Some?) ==>
                Value() == old(Value()).(deploymentDialog := None)
    {
      var app := SelectedApplication();
      if app.Some? && deploymentDialog.Some? {
        applicationsById := applicationsById[selectedApplicationId := app.value.(deploySettings := WorkflowDeploy(deploymentDialog.value))];
      }
      deploymentDialog := None;
    }

    /**
     * `saveApplication`: with the edit dialog open, either warn about another
     * application with the same repository and name, or give the selected
     * application the repository, name and filter and close the dialog.
     * `threw` is the TypeError of writing to a selected id with no
     * application, which changes nothing.
     */
    method SaveApplication(repo: Repo, name: string, releaseFilter: string) returns (threw: bool)
      modifies this
      ensures old(editApplicationDialog).None? ==> Value() == old(Value()) && !threw
      ensures old(editApplicationDialog).Some? && HasDuplicate(old(applicationsById), repo.id, name, Some(old(selectedApplicationId))) ==>
                Value() == old(Value()).(editApplicationDialog :=
                  Some(old(editApplicationDialog).value.(warning := Some(DuplicateWarning)))) && !threw
      ensures old(editApplicationDialog).Some? && !HasDuplicate(old(applicationsById), repo.id, name, Some(old(selectedApplicationId))) ==>
                var id := old(selectedApplicationId);
                if id in old(applicationsById) then
                  Value() == old(Value()).(
                    applicationsById := old(applicationsById)[id :=
                      old(applicationsById)[id].(repo := repo, name := name, releaseFilter := releaseFilter)],
                    editApplicationDialog := None) && !threw
                else Value() == old(Value()) && threw
    {
      threw := false;
      if editApplicationDialog.None? {
        return;
      }
      var id := selectedApplicationId;
      if HasDuplicate(applicationsById, repo.id, name, Some(id)) {
        editApplicationDialog := Some(editApplicationDialog.value.(warning := Some(DuplicateWarning)));
        return;
      }
      if id !in applicationsById {
        return true;
      }
      applicationsById := applicationsById[id := applicationsById[id].(repo := repo, name := name, releaseFilter := releaseFilter)];
      editApplicationDialog := None;
    }

    /**
     * `updateApplicationDialog`: clear the warning of the targeted dialog,
     * then let `update` change it; nothing happens when that dialog is closed.
     */
    method UpdateApplicationDialog(mode: ApplicationDialog.Mode, update: ApplicationDialogState -> ApplicationDialogState)
      modifies this
      ensures mode == ApplicationDialog.New && old(newApplicationDialog).Some? ==>
                Value() == old(Value()).(newApplicationDialog := Some(update(old(newApplicationDialog).value.(warning := None))))
      ensures mode == ApplicationDialog.Edit && old(editApplicationDialog).Some? ==>
                Value() == old(Value()).(editApplicationDialog := Some(update(old(editApplicationDialog).value.(warning := None))))
      ensures mode == ApplicationDialog.New && old(newApplicationDialog).None? ==> Value() == old(Value())
      ensures mode == ApplicationDialog.Edit && old(editApplicationDialog).None? ==> Value() == old(Value())
    {
      if mode == ApplicationDialog.New {
        if newApplicationDialog.Some? {
          newApplicationDialog := Some(update(newApplicationDialog.value.(warning := None)));
        }
      } else {
        if editApplicationDialog.Some? {
          editApplicationDialog := Some(update(editApplicationDialog.value.(warning := None)));
        }
      }
    }

    /** `deleteApplication`: once confirmed, drop the selected application and close the edit dialog. */
    method DeleteApplication(confirmed: bool)
      modifies this
      ensures old(SelectedApplication()).Some? && confirmed ==>
                Value() == old(Value()).(
                  applicationsById := old(applicationsById) - {old(selectedApplicationId)},
                  editApplicationDialog := None)
      ensures !(old(SelectedApplication()).Some? && confirmed) ==> Value() == old(Value())
    {
      if SelectedApplication().Some? && confirmed {
        applicationsById := applicationsById - {selectedApplicationId};
        editApplicationDialog := None;
      }
    }

    /**
     * `addEnvironment`: store `settings` under the dialog's environment name
     * when an application is selected and the name is non-empty; the add
     * dialog closes in every case.
     */
    method AddEnvironment(settings: EnvironmentSettings)
      modifies this
      ensures var app := old(SelectedApplication());
              var dialog := old(addEnvironmentDialog);
              app.Some? && dialog.Some? && dialog.value.environmentName != "" ==>
                Value() == old(Value()).(
                  applicationsById := old(applicationsById)[old(selectedApplicationId) :=
                    WithEnvironment(app.value, dialog.value.environmentName, settings)],
                  addEnvironmentDialog := None)
      ensures var app := old(SelectedApplication());
              var dialog := old(addEnvironmentDialog);
              !(app.Some? && dialog.Some? && dialog.value.environmentName != "") ==>
                Value() == old(Value()).(addEnvironmentDialog := None)
    {
      var app := SelectedApplication();
      if app.Some? && addEnvironmentDialog.Some? && addEnvironmentDialog.value.environmentName != "" {
        applicationsById := applicationsById[selectedApplicationId :=
          WithEnvironment(app.value, addEnvironmentDialog.value.environmentName, settings)];
      }
      addEnvironmentDialog := None;
    }

    /**
     * `removeEnvironment`: once confirmed, delete exactly that environment of
     * the selected application. `threw` is the TypeError of building the
     * confirmation text for a name that is not configured; nothing changes then.
     */
    method RemoveEnvironment(name: string, confirmed: bool) returns (threw: bool)
      modifies this
      ensures var app := old(SelectedApplication());
              app.Some? && name in app.value.environmentSettingsByName && confirmed ==>
                Value() == old(Value()).(applicationsById := old(applicationsById)[old(selectedApplicationId) :=
                  WithoutEnvironment(app.value, name)]) && !threw
      ensures var app := old(SelectedApplication());
              !(app.Some? && name in app.value.environmentSettingsByName && confirmed) ==> Value() == old(Value())
      ensures threw <==> old(SelectedApplication()).Some? && name !in old(SelectedApplication()).value.environmentSettingsByName
    {
      var app := SelectedApplication();
      if app.None? {
        return false;
      }
      if name !in app.value.environmentSettingsByName {
        return true;
      }
      threw := false;
      if confirmed {
        applicationsById := applicationsById[selectedApplicationId := WithoutEnvironment(app.value, name)];
      }
    }

    /**
     * `importApplications`: merge the uploaded applications into the store.
     * Without an upload (or with an empty one) nothing changes; text that is
     * not JSON makes `JSON.parse` throw, reported as `threw`, and nothing changes.
     */
    method ImportApplications(upload: Option<JsonText>) returns (threw: bool)
      modifies this
      ensures threw <==> upload.Some? && upload.value.Malformed? && TextTruthy(upload.value)
      ensures ImportedApplications(upload).Some? ==>
                Value() == old(Value()).(applicationsById := MergeApplications(old(applicationsById), ImportedApplications(upload).value))
      ensures ImportedApplications(upload).None? ==> Value() == old(Value())
    {
      threw := upload.Some? && upload.value.Malformed? && TextTruthy(upload.value);
      var imported := ImportedApplications(upload);
      if imported.Some? {
        applicationsById := MergeApplications(applicationsById, imported.value);
      }
    }
  }
}
