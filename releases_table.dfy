/**
 * The deploy grid of `src/components/ReleasesTableView.tsx`: one row per
 * release that passes the application's release filter, newest first; one
 * column per configured environment; in each cell a deploy button whose
 * state, variant, colour, style and label are decided from the latest
 * deployment of that release to that environment and from an optimistic
 * pending record, plus a link to the workflow run when one is known.
 */
module ReleasesTable {
  import opened Wrappers
  import opened Text
  import opened Seqs
  import opened Sorting
  import opened Dates
  import opened Schemas
  import opened Models
  import opened Utils

  // ---- getButtonStyle

  datatype Colour = Blue400 | Red400 | Orange400 | Yellow400 | Grey50

  /** A style object; `None` is an absent property. */
  datatype ButtonStyle = ButtonStyle(backgroundColor: Option<Colour>, color: Option<Colour>)

  /** `getButtonStyle`. */
  function GetButtonStyle(state: Option<DeploymentState>): (s: ButtonStyle)
    ensures state.None? <==> s == ButtonStyle(None, None)
    ensures s.backgroundColor.Some? <==> state == Some(Active)
    ensures state == Some(Active) ==> s == ButtonStyle(Some(Blue400), None)
    ensures state == Some(Failure) <==> s == ButtonStyle(None, Some(Red400))
    ensures state == Some(Pending) <==> s == ButtonStyle(None, Some(Orange400))
    ensures state == Some(InProgress) <==> s == ButtonStyle(None, Some(Yellow400))
    ensures s == ButtonStyle(None, Some(Grey50)) <==> state.Some? && state.value !in {Active, Failure, Pending, InProgress}
  {
    match state
    case None => ButtonStyle(None, None)
    case Some(Active) => ButtonStyle(Some(Blue400), None)
    case Some(Failure) => ButtonStyle(None, Some(Red400))
    case Some(Pending) => ButtonStyle(None, Some(Orange400))
    case Some(InProgress) => ButtonStyle(None, Some(Yellow400))
    case Some(_) => ButtonStyle(None, Some(Grey50))
  }

  // ---- releasesSorted

  /**
   * The descending tag order: `b.tagName.localeCompare(a.tagName, undefined,
   * {numeric: true})`, with the numeric-aware collation given as a rank.
   */
  function TagDescending(tagRank: string -> int): Release -> Key {
    (r: Release) => [-tagRank(r.tagName)]
  }

  /** `orderBy(r => r.createdAt, 'desc')`. */
  function NewestFirst(r: Release): Key {
    [-r.createdAt]
  }

  /** The lowercased release name starts with the lowercased release filter. */
  predicate MatchesFilter(releaseFilter: string, r: Release) {
    StartsWith(ToLower(r.name), ToLower(releaseFilter))
  }

  /** Newest first; among releases created at the same instant, higher-ranked tags first. */
  ghost predicate GridOrder(s: seq<Release>, tagRank: string -> int) {
    forall i, j :: 0 <= i < j < |s| ==>
      s[i].createdAt >= s[j].createdAt &&
      (s[i].createdAt == s[j].createdAt ==> tagRank(s[i].tagName) >= tagRank(s[j].tagName))
  }

  /** The releases whose name matches the filter, in their input order. */
  function Matching(releases: seq<Release>, releaseFilter: string): (r: seq<Release>)
    ensures forall x :: x in r <==> x in releases && MatchesFilter(releaseFilter, x)
  {
    Filter(releases, x => MatchesFilter(releaseFilter, x))
  }

  /** Filtering commutes with reordering: a permutation of the input has a permuted `Matching`. */
  lemma MatchingPermutation(a: seq<Release>, b: seq<Release>, releaseFilter: string)
    requires multiset(a) == multiset(b)
    ensures multiset(Matching(a, releaseFilter)) == multiset(Matching(b, releaseFilter))
  {
    var p := x => MatchesFilter(releaseFilter, x);
    forall x ensures multiset(Filter(a, p))[x] == multiset(Filter(b, p))[x] {
    }
  }

  /**
   * `releasesSorted`: sort by tag descending, keep the releases whose name
   * matches the filter, then stable-sort newest first. The result holds
   * exactly the matching releases (with their multiplicities), and because
   * the last sort is stable the tag order survives among equal instants.
   */
  function ReleasesSorted(releases: seq<Release>, releaseFilter: string, tagRank: string -> int): (r: seq<Release>)
    ensures multiset(r) == multiset(Matching(releases, releaseFilter))
    ensures forall x :: x in r <==> x in releases && MatchesFilter(releaseFilter, x)
  {
    var byTag := SortBy(releases, TagDescending(tagRank));
    var r := SortBy(Matching(byTag, releaseFilter), NewestFirst);
    MatchingPermutation(byTag, releases, releaseFilter);
    ReleasesSortedMembers(releases, r, releaseFilter);
    r
  }

  /** The rows are newest first, and among equal instants in descending tag order. */
  lemma ReleasesSortedOrder(releases: seq<Release>, releaseFilter: string, tagRank: string -> int)
    ensures GridOrder(ReleasesSorted(releases, releaseFilter, tagRank), tagRank)
    ensures SortedBy(ReleasesSorted(releases, releaseFilter, tagRank), NewestFirst)
  {
    var byTag := SortBy(releases, TagDescending(tagRank));
    FilterSorted(byTag, x => MatchesFilter(releaseFilter, x), TagDescending(tagRank));
    GridOrderFromSorts(Matching(byTag, releaseFilter), tagRank);
  }

  /** The stable newest-first sort of a tag-ordered sequence is in grid order. */
  lemma GridOrderFromSorts(filtered: seq<Release>, tagRank: string -> int)
    requires SortedBy(filtered, TagDescending(tagRank))
    ensures GridOrder(SortBy(filtered, NewestFirst), tagRank)
  {
    var r := SortBy(filtered, NewestFirst);
    SortByThenBy(filtered, NewestFirst, TagDescending(tagRank));
    forall i, j | 0 <= i < j < |r|
      ensures r[i].createdAt >= r[j].createdAt
      ensures r[i].createdAt == r[j].createdAt ==> tagRank(r[i].tagName) >= tagRank(r[j].tagName)
    {
      KeyLeSingle(-r[i].createdAt, -r[j].createdAt);
      KeyLeSingle(-tagRank(r[i].tagName), -tagRank(r[j].tagName));
    }
  }

  lemma ReleasesSortedMembers(releases: seq<Release>, r: seq<Release>, releaseFilter: string)
    requires multiset(r) == multiset(Matching(releases, releaseFilter))
    ensures forall x :: x in r <==> x in releases && MatchesFilter(releaseFilter, x)
  {
    forall x ensures x in r <==> x in releases && MatchesFilter(releaseFilter, x) {
      assert x in r <==> x in multiset(r);
      assert x in Matching(releases, releaseFilter) <==> x in multiset(Matching(releases, releaseFilter));
    }
  }

  // ---- releasesByEnvironment

  /** The releases of `sorted` deployed to `environment`, in their order in `sorted`. */
  function DeployedTo(sorted: seq<Release>, environment: string): (r: seq<Release>)
    ensures forall x :: x in r <==> x in sorted && DeploysTo(x, environment)
  {
    Filter(sorted, x => DeploysTo(x, environment))
  }

  /** Selecting the releases deployed to an environment keeps them newest first. */
  lemma DeployedToSorted(sorted: seq<Release>, environment: string)
    requires SortedBy(sorted, NewestFirst)
    ensures SortedBy(DeployedTo(sorted, environment), NewestFirst)
  {
    FilterSorted(sorted, x => DeploysTo(x, environment), NewestFirst);
  }

  /**
   * `keyOrder` lists every key of the object exactly once, in the order
   * `Object.values` visits them.
   */
  predicate IsKeyOrder<V>(m: map<string, V>, keyOrder: seq<string>) {
    (forall k :: k in keyOrder ==> k in m) && (forall k :: k in m ==> k in keyOrder) && Distinct(keyOrder)
  }

  /**
   * `values(environmentSettingsByName)`: one column per configured
   * environment, in the object's key order.
   */
  function SelectedEnvironments(byName: map<string, EnvironmentSettings>, keyOrder: seq<string>): (envs: seq<EnvironmentSettings>)
    requires IsKeyOrder(byName, keyOrder)
    ensures |envs| == |keyOrder| == |byName|
    ensures forall i :: 0 <= i < |envs| ==> envs[i] == byName[keyOrder[i]]
    ensures forall k :: k in byName ==> byName[k] in envs
  {
    DistinctCardinality(keyOrder);
    assert byName.Keys == set k | k in keyOrder;
    var envs := seq(|keyOrder|, i requires 0 <= i < |keyOrder| => byName[keyOrder[i]]);
    forall k | k in byName ensures byName[k] in envs {
      var i :| 0 <= i < |keyOrder| && keyOrder[i] == k;
      assert envs[i] == byName[k];
    }
    envs
  }

  /**
   * `releasesByEnvironment`: the reduce over the selected environments that
   * records, under each environment's name, the sorted releases deployed to it.
   */
  function ReleasesByEnvironment(sorted: seq<Release>, environments: seq<EnvironmentSettings>): map<string, seq<Release>>
    decreases |environments|
  {
    if |environments| == 0 then map[]
    else
      var n := |environments| - 1;
      ReleasesByEnvironment(sorted, environments[..n])[environments[n].name := DeployedTo(sorted, environments[n].name)]
  }

  ghost function EnvironmentNames(environments: seq<EnvironmentSettings>): set<string> {
    set e | e in environments :: e.name
  }

  lemma NamesSnoc(environments: seq<EnvironmentSettings>, e: EnvironmentSettings)
    ensures EnvironmentNames(environments + [e]) == EnvironmentNames(environments) + {e.name}
  {
    var all := environments + [e];
    forall x | x in all ensures x in environments || x == e {
      var i :| 0 <= i < |all| && all[i] == x;
      if i < |environments| { assert x == environments[i]; }
    }
  }

  /**
   * The reduce records every selected environment's name, nothing else, and
   * under each name exactly the sorted releases deployed there; the order in
   * which the environments are visited does not matter.
   */
  lemma {:induction false} ReleasesByEnvironmentMeaning(sorted: seq<Release>, environments: seq<EnvironmentSettings>)
    ensures ReleasesByEnvironment(sorted, environments).Keys == EnvironmentNames(environments)
    ensures forall name :: name in ReleasesByEnvironment(sorted, environments) ==>
                             ReleasesByEnvironment(sorted, environments)[name] == DeployedTo(sorted, name)
    decreases |environments|
  {
    if |environments| > 0 {
      var n := |environments| - 1;
      var init := environments[..n];
      ReleasesByEnvironmentMeaning(sorted, init);
      assert environments == init + [environments[n]];
      NamesSnoc(init, environments[n]);
    }
  }

  // ---- isAfterLatest

  /** `!latestRelease || release.createdAt.isAfter(latestRelease.createdAt)`. */
  predicate IsAfterLatest(release: Release, byEnv: map<string, seq<Release>>, environment: string) {
    environment !in byEnv || |byEnv[environment]| == 0 || release.createdAt > byEnv[environment][0].createdAt
  }

  /**
   * Over newest-first rows, a release is "after latest" for a selected
   * environment exactly when it is newer than every row deployed there.
   */
  lemma IsAfterLatestMeaning(
    sorted: seq<Release>, environments: seq<EnvironmentSettings>, environment: EnvironmentSettings, release: Release)
    requires SortedBy(sorted, NewestFirst)
    requires environment in environments
    ensures IsAfterLatest(release, ReleasesByEnvironment(sorted, environments), environment.name) <==>
              forall r :: r in sorted && DeploysTo(r, environment.name) ==> release.createdAt > r.createdAt
  {
    var byEnv := ReleasesByEnvironment(sorted, environments);
    ReleasesByEnvironmentMeaning(sorted, environments);
    assert environment.name in EnvironmentNames(environments);
    var deployed := byEnv[environment.name];
    assert deployed == DeployedTo(sorted, environment.name);
    DeployedToSorted(sorted, environment.name);
    if |deployed| > 0 {
      assert deployed[0] in deployed;
      forall r | r in sorted && DeploysTo(r, environment.name) ensures deployed[0].createdAt >= r.createdAt {
        assert r in deployed;
        var j :| 0 <= j < |deployed| && deployed[j] == r;
        if j > 0 {
          assert KeyLe(NewestFirst(deployed[0]), NewestFirst(deployed[j]));
          KeyLeSingle(-deployed[0].createdAt, -r.createdAt);
        }
      }
    }
  }

  /**
   * In the grid, no row deployed to an environment is "after latest" there
   * (in particular not the newest deployed one), and a row is "after latest"
   * exactly when it is newer than every row deployed there.
   */
  lemma GridAfterLatest(
    releases: seq<Release>, releaseFilter: string, tagRank: string -> int,
    environments: seq<EnvironmentSettings>, environment: EnvironmentSettings, release: Release)
    requires environment in environments
    ensures var sorted := ReleasesSorted(releases, releaseFilter, tagRank);
            var byEnv := ReleasesByEnvironment(sorted, environments);
            (release in sorted && DeploysTo(release, environment.name) ==> !IsAfterLatest(release, byEnv, environment.name)) &&
            (IsAfterLatest(release, byEnv, environment.name) <==>
               forall r :: r in sorted && DeploysTo(r, environment.name) ==> release.createdAt > r.createdAt)
  {
    ReleasesSortedOrder(releases, releaseFilter, tagRank);
    IsAfterLatestMeaning(ReleasesSorted(releases, releaseFilter, tagRank), environments, environment, release);
  }

  // ---- the latest deployment of a cell

  /** The index of the first deployment to `environment`, or `|deployments|` when there is none. */
  function FirstDeploymentIndex(deployments: seq<Deployment>, environment: string): (i: nat)
    ensures i <= |deployments|
    ensures i < |deployments| ==> deployments[i].environment == environment
    ensures forall j :: 0 <= j < i ==> deployments[j].environment != environment
    decreases |deployments|
  {
    if |deployments| == 0 || deployments[0].environment == environment then 0
    else
      var i := FirstDeploymentIndex(deployments[1..], environment);
      assert forall j :: 0 < j < i + 1 ==> deployments[j] == deployments[1..][j - 1];
      i + 1
  }

  /**
   * `release.deployments.find(d => d.environment === environment)`: the first
   * deployment to the environment, or none.
   */
  function LatestDeployment(deployments: seq<Deployment>, environment: string): (d: Option<Deployment>)
    ensures d.None? <==> forall i :: 0 <= i < |deployments| ==> deployments[i].environment != environment
    ensures d.Some? ==> d.value.environment == environment
    ensures d.Some? ==> exists i :: 0 <= i < |deployments| && deployments[i] == d.value &&
                                    forall j :: 0 <= j < i ==> deployments[j].environment != environment
  {
    var i := FirstDeploymentIndex(deployments, environment);
    if i < |deployments| then Some(deployments[i]) else None
  }

  /** Newest-first deployments: the one the cell picks is the newest to that environment. */
  lemma LatestDeploymentIsNewest(deployments: seq<Deployment>, environment: string)
    requires forall i, j :: 0 <= i < j < |deployments| ==> deployments[i].createdAt >= deployments[j].createdAt
    ensures var d := LatestDeployment(deployments, environment);
      d.Some? ==> forall k :: 0 <= k < |deployments| && deployments[k].environment == environment ==>
        d.value.createdAt >= deployments[k].createdAt
  {
  }

  // ---- the displayed state

  /**
   * The optimistic record wins: it exists, and either there is no
   * `modifiedAt` to compare with or the record is strictly newer than it. An
   * unparseable record date compares as false. No expiry is applied.
   */
  predicate PendingWins(pending: Option<PendingDeployment>, deployment: Option<Deployment>) {
    pending.Some? &&
    (deployment.None? || deployment.value.modifiedAt.None? ||
     (ParseDate(pending.value.createdAt).Some? &&
      ParseDate(pending.value.createdAt).value > deployment.value.modifiedAt.value))
  }

  /** `deploymentState`: Pending when the optimistic record wins, else the deployment's own state. */
  function DisplayedState(pending: Option<PendingDeployment>, deployment: Option<Deployment>): (state: Option<DeploymentState>)
    ensures PendingWins(pending, deployment) ==> state == Some(Pending)
    ensures !PendingWins(pending, deployment) && deployment.Some? ==> state == Some(deployment.value.state)
    ensures state.None? <==> pending.None? && deployment.None?
  {
    if PendingWins(pending, deployment) then Some(Pending)
    else if deployment.Some? then Some(deployment.value.state)
    else None
  }

  /**
   * A record written at `now` (as `triggerDeployment` writes it) wins over a
   * deployment exactly when that deployment has no `modifiedAt` or was last
   * modified strictly before `now`, however long ago `now` was.
   */
  lemma PendingRecordWins(now: nat, workflowRunId: Option<int>, deployment: Option<Deployment>)
    ensures PendingWins(Some(PendingDeployment(FormatDate(now), workflowRunId)), deployment) <==>
      deployment.None? || deployment.value.modifiedAt.None? || deployment.value.modifiedAt.value < now
  {
    ParseFormat(now);
  }

  /** Once the deployment has been modified at or after the record's instant, its own state shows. */
  lemma DeploymentCaughtUp(now: nat, d: Deployment)
    requires d.modifiedAt.Some? && d.modifiedAt.value >= now
    ensures DisplayedState(Some(PendingDeployment(FormatDate(now), None)), Some(d)) == Some(d.state)
  {
    PendingRecordWins(now, None, Some(d));
  }

  // ---- variant, colour, label

  datatype Variant = Contained | Outlined
  datatype ButtonColour = Primary | Inherit

  function ButtonVariant(isAfterLatest: bool, state: Option<DeploymentState>): (v: Variant)
    ensures v == Contained <==> (isAfterLatest && state.None?) || state == Some(Active)
  {
    if (isAfterLatest && state.None?) || state == Some(Active) then Contained else Outlined
  }

  function ButtonColourOf(isAfterLatest: bool, state: Option<DeploymentState>): (c: ButtonColour)
    ensures c == Primary <==> state.None? && isAfterLatest
  {
    if state.None? && isAfterLatest then Primary else Inherit
  }

  /** `deploymentState?.replaceAll('_', ' ') ?? 'Deploy'`. */
  function ButtonLabel(state: Option<DeploymentState>): (text: string)
    ensures '_' !in text && |text| > 0
    ensures state.None? ==> text == "Deploy"
    ensures text == "Deploy" <==> state.None?
    ensures state.Some? ==> |text| == |StateName(state.value)|
    ensures state.Some? ==> forall i :: 0 <= i < |text| ==>
                              text[i] == if StateName(state.value)[i] == '_' then ' ' else StateName(state.value)[i]
  {
    if state.Some? then
      var text := ReplaceChar(StateName(state.value), '_', ' ');
      assert text[1] != "Deploy"[1];
      text
    else "Deploy"
  }

  // ---- the workflow run link

  datatype IconColour = SuccessIcon | ErrorIcon | WarningIcon

  /** `latestDeployment?.workflowRunId ? workflowRuns[id] : undefined`; a run id of 0 is falsy. */
  function CellRun(deployment: Option<Deployment>, runs: map<int, WorkflowRun>): (run: Option<WorkflowRun>)
    ensures run.Some? <==> (deployment.Some? && deployment.value.workflowRunId.Some? &&
                            deployment.value.workflowRunId.value != 0 && deployment.value.workflowRunId.value in runs)
    ensures run.Some? ==> run.value == runs[deployment.value.workflowRunId.value]
  {
    if deployment.Some? && deployment.value.workflowRunId.Some? && deployment.value.workflowRunId.value != 0
      && deployment.value.workflowRunId.value in runs
    then Some(runs[deployment.value.workflowRunId.value])
    else None
  }

  /** Success for a `success` conclusion, warning while there is no (or an empty) conclusion, else error. */
  function RunIconColour(run: WorkflowRun): (c: IconColour)
    ensures c == SuccessIcon <==> run.conclusion == Some("success")
    ensures c == WarningIcon <==> run.conclusion.None? || run.conclusion == Some("")
    ensures c == ErrorIcon <==> run.conclusion.Some? && run.conclusion.value !in {"", "success"}
  {
    match run.conclusion
    case Some(c) => if c == "" then WarningIcon else if c == "success" then SuccessIcon else ErrorIcon
    case None => WarningIcon
  }

  // ---- one cell and the whole grid

  datatype Cell = Cell(
    state: Option<DeploymentState>,
    caption: string,
    variant: Variant,
    colour: ButtonColour,
    style: ButtonStyle,
    runIcon: Option<IconColour>)

  /** The key of the pending record for a cell. */
  function CellKey(app: ApplicationConfig, release: Release, environment: EnvironmentSettings): string {
    DeploymentId(app.repo.owner, app.repo.name, environment.name, release.tagName)
  }

  /**
   * `createButton` for the latest deployment of `release` to `environment`:
   * the button reads "Deploy" exactly when nothing is pending for the cell
   * and the release was never deployed there; otherwise the state shown, as
   * `DisplayedState` decides it from the cell's pending record and latest
   * deployment, sets the label, variant, colour and style, and the run link
   * follows the latest deployment's run.
   */
  function DeployCell(
    app: ApplicationConfig, pendingDeployments: map<string, PendingDeployment>,
    byEnv: map<string, seq<Release>>, runs: map<int, WorkflowRun>,
    release: Release, environment: EnvironmentSettings): (c: Cell)
    ensures c.caption == "Deploy" <==> CellKey(app, release, environment) !in pendingDeployments && !DeploysTo(release, environment.name)
    ensures c.state == DisplayedState(
              if CellKey(app, release, environment) in pendingDeployments
              then Some(pendingDeployments[CellKey(app, release, environment)]) else None,
              LatestDeployment(release.deployments, environment.name))
    ensures c.caption == ButtonLabel(c.state)
    ensures c.variant == Contained <==> (IsAfterLatest(release, byEnv, environment.name) && c.state.None?) || c.state == Some(Active)
    ensures c.colour == Primary <==> c.state.None? && IsAfterLatest(release, byEnv, environment.name)
    ensures c.style == GetButtonStyle(c.state)
    ensures c.runIcon.Some? <==> CellRun(LatestDeployment(release.deployments, environment.name), runs).Some?
    ensures c.runIcon.Some? ==> c.runIcon.value == RunIconColour(CellRun(LatestDeployment(release.deployments, environment.name), runs).value)
  {
    var id := DeploymentId(app.repo.owner, app.repo.name, environment.name, release.tagName);
    var deployment := LatestDeployment(release.deployments, environment.name);
    var pending := if id in pendingDeployments then Some(pendingDeployments[id]) else None;
    var state := DisplayedState(pending, deployment);
    var after := IsAfterLatest(release, byEnv, environment.name);
    var run := CellRun(deployment, runs);
    Cell(state, ButtonLabel(state), ButtonVariant(after, state), ButtonColourOf(after, state),
      GetButtonStyle(state), if run.Some? then Some(RunIconColour(run.value)) else None)
  }

  /**
   * Right after a dispatch was recorded at `now` for a release and an
   * environment with no deployment, the cell reads "PENDING", outlined,
   * inherited colour, orange, with no run link.
   */
  lemma TriggeredCellShowsPending(
    app: ApplicationConfig, pendingDeployments: map<string, PendingDeployment>,
    byEnv: map<string, seq<Release>>, runs: map<int, WorkflowRun>,
    release: Release, environment: EnvironmentSettings, now: nat)
    requires !DeploysTo(release, environment.name)
    requires var id := DeploymentId(app.repo.owner, app.repo.name, environment.name, release.tagName);
      id in pendingDeployments && pendingDeployments[id] == PendingDeployment(FormatDate(now), None)
    ensures var c := DeployCell(app, pendingDeployments, byEnv, runs, release, environment);
      c.caption == "PENDING" && c.variant == Outlined && c.colour == Inherit &&
      c.style == ButtonStyle(None, Some(Orange400)) && c.runIcon.None?
  {
    var c := DeployCell(app, pendingDeployments, byEnv, runs, release, environment);
    assert LatestDeployment(release.deployments, environment.name).None?;
    assert c.state == Some(Pending);
    assert c.caption == ReplaceChar("PENDING", '_', ' ');
  }

  /**
   * A release newer than everything deployed to an environment, with nothing
   * pending or deployed, offers a contained primary "Deploy" button.
   */
  lemma UndeployedNewerReleaseInvitesDeploy(
    app: ApplicationConfig, pendingDeployments: map<string, PendingDeployment>,
    byEnv: map<string, seq<Release>>, runs: map<int, WorkflowRun>,
    release: Release, environment: EnvironmentSettings)
    requires !DeploysTo(release, environment.name)
    requires DeploymentId(app.repo.owner, app.repo.name, environment.name, release.tagName) !in pendingDeployments
    requires IsAfterLatest(release, byEnv, environment.name)
    ensures var c := DeployCell(app, pendingDeployments, byEnv, runs, release, environment);
      c.caption == "Deploy" && c.variant == Contained && c.colour == Primary && c.style == ButtonStyle(None, None)
  {
    assert LatestDeployment(release.deployments, environment.name).None?;
  }

  /**
   * What the component renders: nothing, a spinner, or the grid whose cell
   * at a row and a column is `DeployCell` of that release and environment
   * over `byEnvironment`.
   */
  datatype TableView =
    | Hidden
    | Spinner
    | Grid(rows: seq<Release>, columns: seq<EnvironmentSettings>, byEnvironment: map<string, seq<Release>>)

  /** The guard for a deployable application: workflow settings with a non-zero workflow id. */
  predicate Deployable(app: Option<ApplicationConfig>) {
    app.Some? && app.value.deploySettings.WorkflowDeploy? && app.value.deploySettings.workflow.workflowId != 0
  }

  /**
   * `ReleasesTableView`: nothing without a deployable application, a spinner
   * while releases load, else the grid of the filtered and ordered fetched
   * releases (none when nothing was fetched) by the selected environments.
   */
  function ReleasesTableView(
    app: Option<ApplicationConfig>, environmentKeyOrder: seq<string>,
    fetched: Option<seq<Release>>, isLoading: bool, tagRank: string -> int): (v: TableView)
    requires app.Some? ==> IsKeyOrder(app.value.environmentSettingsByName, environmentKeyOrder)
    ensures v.Hidden? <==> !Deployable(app)
    ensures v.Spinner? <==> Deployable(app) && isLoading
    ensures v.Grid? ==> forall x :: x in v.rows <==> fetched.Some? && x in fetched.value && MatchesFilter(app.value.releaseFilter, x)
    ensures v.Grid? ==> multiset(v.rows) == multiset(Matching(fetched.GetOr([]), app.value.releaseFilter))
    ensures v.Grid? ==> GridOrder(v.rows, tagRank)
    ensures v.Grid? ==> |v.columns| == |environmentKeyOrder| == |app.value.environmentSettingsByName|
    ensures v.Grid? ==> forall i :: 0 <= i < |v.columns| ==>
                          v.columns[i] == app.value.environmentSettingsByName[environmentKeyOrder[i]]
    ensures v.Grid? ==> v.byEnvironment.Keys == EnvironmentNames(v.columns)
    ensures v.Grid? ==> forall name :: name in v.byEnvironment ==> v.byEnvironment[name] == DeployedTo(v.rows, name)
  {
    if !Deployable(app) then Hidden
    else if isLoading then Spinner
    else
      var a := app.value;
      var rows := ReleasesSorted(fetched.GetOr([]), a.releaseFilter, tagRank);
      var columns := SelectedEnvironments(a.environmentSettingsByName, environmentKeyOrder);
      ReleasesSortedOrder(fetched.GetOr([]), a.releaseFilter, tagRank);
      ReleasesByEnvironmentMeaning(rows, columns);
      Grid(rows, columns, ReleasesByEnvironment(rows, columns))
  }
}
