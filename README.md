# GitHub Deploy Center, modelled in Dafny

GitHub Deploy Center is a browser application for dispatching deployment workflows. You register applications: a repository, a release-tag filter, workflow dispatch settings and a set of environments. The application then shows a grid with one row per release and one column per environment. Each cell's button dispatches the deploy workflow for that release and environment.

This project models the decision logic under that user interface. Every operation has a Dafny contract, and the lemmas beside the operations prove its properties:

- **The deploy grid** (`ReleasesTable`):
  - which releases are shown, and in what order;
  - which releases count as deployed to each environment;
  - which deployment a cell looks at;
  - when an optimistic "pending" record wins over it;
  - the button's variant, colour, style and label, and the workflow-run link.
- **The store and its actions** (`Actions`):
  - the Overmind state is a class whose fields the actions update in place;
  - each action's `ensures` gives the complete new state;
  - the actions are: trigger a deployment (dispatch inputs and the pending record), create and edit applications with duplicate detection, add and remove environments, import applications, and the path-based `setState`.
- **Persistence** (`OnInitialize`, `SettingsState`):
  - the storage key derived from a selector's source text;
  - the "load if stored and truthy" rule, decode-or-empty, and the one-minute prune of pending deployments;
  - the reactions that save every change;
  - the settings atom, its defaults and its per-key selectors.
- **Record shapes** (`Schemas`, `Json`): the zod schemas of `src/state/schemas.ts` as decoders, with encoders proved to round-trip, and the constructors with their defaults. The same decoders stand in for the io-ts codecs that `actions.ts` and `onInitialize.ts` use (see "## Left out").
- **Dialogs** (`DeploymentDialog`, `SelectWorkflow`, `EnvironmentDialog`, `ApplicationDialog`):
  - the `key=value` extra-argument chips, with a render/parse round trip;
  - workflow relevance ranking;
  - environment option ordering and the "Add" suggestion;
  - release-filter derivation;
  - the save and submit guards.
- **Fetch hooks** (`FetchHooks`):
  - GraphQL fragments mapped to release and deployment models, with their defaults;
  - workflow ordering;
  - the two pagination loops, as methods over the sequence of responses the API returns.

Shared modules:

- `Sorting`: one stable sort, used for lodash `orderBy` and `Array.prototype.sort`.
- `Text`: the JavaScript string operations the code uses.
- `Dates`: timestamps as integers of milliseconds.
- `Seqs`: `filter` and `map`.
- `Wrappers`: `Option`.

The clock, generated ids, the user's answers to confirmations, uploaded files and API responses are parameters. A workflow dispatch is returned as a value, not sent.

## Behaviour as written

The model follows the code in these places, where it may surprise:

- The grid applies no expiry to a pending record. The record wins over a deployment whenever the deployment has no `modifiedAt` or was modified strictly before the record, however old the record is (`ReleasesTable.PendingRecordWins`).
- The load-time prune is not an expiry. It keeps every record dated before one minute from now, however old (`OnInitialize.PruneByRecordedInstant`).
- `releasesByEnvironment` is computed over the filtered, ordered rows, not over all fetched releases.
- `triggerDeployment` stores a bare `dayjs()` value, while the grid and the schema read `{createdAt, workflowRunId?}`. The model stores the record form `{createdAt: now}`.
- With no latest status, `dayjs(undefined)` makes a deployment's `modifiedAt` the current instant (`FetchHooks.ToDeployment`).
- Three paths throw in the source; the model returns `threw` and changes nothing:
  - `saveApplication` when the selected id has no application (a `TypeError`);
  - `removeEnvironment` for an environment name that is not configured (building the confirmation text throws a `TypeError`);
  - `importApplications` when the uploaded text is not JSON (`JSON.parse` throws).
- `createNewApplication` checks for a duplicate by the name as typed, but an empty name makes the application take its repository's name. So an empty name creates a second application with the same repository and name as an existing one (`Actions.EmptyNamePassesDuplicateCheck`).
- Each value's reaction is registered before the value loads (src/overmind/onInitialize.ts:27-40). So loading a value also fires its reaction: the loaded token goes to the API clients, and the decoded or pruned values are saved back to storage. `OnInitialize.LoadState` states only the state the loads leave; the reactions are the `...Changed` methods.
- `updateWorkflowSettings` on an application whose settings are not workflow settings applies the update to a fresh default settings object. That object is never stored, so the edit is lost (src/overmind/actions.ts:50-65).
- The message `setState` throws is spelled "Unkown path" in the source, and so in the model.

## Model

| member | source | states |
|---|---|---|
| Utils.DeploymentId | src/overmind/utils.ts:9-21 | the id has the four parts' lengths plus three separators, starts with the owner and a `/`, and ends with a `/` and the release |
| Utils.DeploymentIdIsJoin | src/overmind/utils.ts:20 | the id is the `/`-join of owner, repository, environment and release |
| Utils.DeploymentIdSplit | src/overmind/utils.ts:20 | splitting the id on `/` gives back exactly the four parts when none contains `/` |
| Utils.DeploymentIdInjective | src/overmind/utils.ts:9-21 | equal ids of `/`-free parts have equal parts |
| Utils.CreateConfig | src/overmind/utils.ts:3-7 | returns its argument unchanged |
| Schemas.CreateDeploySettings | src/state/schemas.ts:29-42 | workflow kind, `environmentKey` "environment", `releaseKey` "ref", workflow id defaulting to 0, the given ref, no extra arguments |
| Schemas.CreateApplicationConfig | src/state/schemas.ts:62-73 | the given id, repository and filter; the name, or the repository's name when it is empty; no environments; default deploy settings on the default branch; the config passes its own schema |
| Schemas.EncodeAppSettings | src/state/schemas.ts:4-8 | the settings record decodes back to the same settings |
| Schemas.EncodeRepo | src/state/schemas.ts:12-17 | a repository decodes back to itself |
| Schemas.EncodeStringRecord | src/state/schemas.ts:26 | a string record decodes back to itself |
| Schemas.DecodeDeploySettings | src/state/schemas.ts:20-27 | only settings of type `workflow` pass the schema |
| Schemas.EncodeDeploySettings | src/state/schemas.ts:20-27 | workflow settings decode back to themselves; settings of another kind fail the schema |
| Schemas.EncodeEnvironmentSettings | src/state/schemas.ts:45-48 | environment settings decode back to themselves |
| Schemas.EncodeEnvironmentsByName | src/state/schemas.ts:58 | a map of environment settings decodes back to itself |
| Schemas.EncodeApplicationConfig | src/state/schemas.ts:52-59 | a workflow application decodes back to itself; any other kind is rejected |
| Schemas.EncodeApplicationsById | src/state/schemas.ts:74 | applications decode back to themselves exactly when all are workflow applications; otherwise the whole map is rejected |
| Schemas.ApplicationsRoundTrip | src/state/schemas.ts:74 | both directions of the applications round trip |
| Schemas.ApplicationsDecode | src/state/schemas.ts:74 | workflow applications, encoded, decode back to the same map |
| Schemas.EncodePendingDeployment | src/state/schemas.ts:95-98 | a pending record decodes back to itself, with the workflow run id present or absent |
| Schemas.EncodePendingDeployments | src/state/schemas.ts:101 | a map of pending records decodes back to itself |
| Schemas.EncodeWorkflowRun | src/state/schemas.ts:76-84 | a workflow run decodes back to itself |
| Schemas.EncodeGitHubEnvironment | src/state/schemas.ts:88-90 | an environment decodes back to itself |
| Schemas.EncodeGitHubEnvironments | src/state/schemas.ts:93 | an array of environments decodes back to itself |
| Json.ParseText | src/state/index.ts:25 | `JSON.parse` succeeds exactly on serialised JSON |
| Json.DecodeString | src/state/schemas.ts:13 | `z.string()` accepts exactly strings and returns them |
| Json.DecodeNumber | src/state/schemas.ts:5 | `z.number()` accepts exactly numbers and returns them |
| Json.DecodeRecord | src/state/schemas.ts:74 | `z.record` accepts an object exactly when every value decodes, keeps its keys and decodes each value |
| Json.EncodeRecord | src/state/schemas.ts:74 | the object has the map's keys, each value encoded |
| Json.RecordRoundTrip | src/state/schemas.ts:74 | a record of encoded values decodes back when each value does |
| Json.DecodeArray | src/state/schemas.ts:93 | `z.array` accepts an array exactly when every item decodes, keeping the length and order |
| Json.EncodeArray | src/state/schemas.ts:93 | the array of the encoded items, in order |
| Json.ArrayRoundTrip | src/state/schemas.ts:93 | an array of encoded items decodes back when each item does |
| Dates.DigitChar | src/overmind/actions.ts:109 | a digit below ten as its decimal character |
| Dates.FormatDate | src/overmind/actions.ts:109 | a recorded instant's text is non-empty and all digits |
| Dates.ParseDate | src/overmind/onInitialize.ts:87 | text is a valid date exactly when it is non-empty and all digits |
| Dates.ParseFormat | src/overmind/onInitialize.ts:87 | reading a written instant back gives the same instant |
| Text.LowerChar | src/components/ReleasesTableView.tsx:94 | each upper-case ASCII letter becomes its own lower-case letter (code plus 32); every other character is kept |
| Text.ToLower | src/components/ReleasesTableView.tsx:94 | same length, each character lowercased |
| Text.ToLowerIdempotent | src/components/ApplicationDialog.tsx:106 | lowercasing twice is lowercasing once |
| Text.ToLowerAppend | src/components/ReleasesTableView.tsx:93-95 | lowercasing distributes over concatenation |
| Text.IncludesEmpty | src/components/SelectWorkflow.tsx:43 | every string includes the empty string |
| Text.ReplaceChar | src/components/ApplicationDialog.tsx:117 | `replaceAll` of one character: same length, that character replaced everywhere, the rest kept |
| Text.Split | src/components/DeploymentDialog.tsx:96 | `split` gives at least one part and no part holds the separator |
| Text.JoinSplit | src/components/DeploymentDialog.tsx:96 | joining the parts of a split gives the text back |
| Text.SplitJoin | src/overmind/utils.ts:20 | splitting a join of separator-free parts gives the parts back |
| Text.SplitNoSeparator | src/components/DeploymentDialog.tsx:96 | text without the separator splits into itself |
| Text.SplitAfterWord | src/components/DeploymentDialog.tsx:96 | a separator-free word, the separator and a tail split into the word, then the tail's parts |
| Text.FirstPart | src/components/SelectWorkflow.tsx:43 | `split(sep)[0]` is a separator-free prefix, followed by the separator if anything follows |
| Text.FirstPartProperties | src/components/SelectWorkflow.tsx:43 | the first part of a split is a prefix, followed by the separator when shorter |
| Text.CodeUnits | src/api/fetchHooks.ts:101 | a character's UTF-16 code units: itself below U+10000, else a high and a low surrogate that combine back to it |
| Text.Codes | src/api/fetchHooks.ts:101 | the UTF-16 code units that JavaScript's `<` compares strings by: one or two per character, each below 0x10000, one per character and equal to it for text in the Basic Multilingual Plane |
| Text.FromCodesCodes | src/api/fetchHooks.ts:101 | round trip: a string's code units read back as the string |
| Text.CodesInjective | src/api/fetchHooks.ts:101 | strings with the same code units are equal |
| Text.LeadingDotMatch | src/overmind/onInitialize.ts:26 | `/^.*?\./` matches up to the first `.` when no line terminator precedes it, and fails when every `.` has one before it |
| Text.ReplaceLeadingDot | src/overmind/onInitialize.ts:26 | the text up to and including the first `.` is replaced; text without a `.` is unchanged |
| Seqs.Filter | src/components/ReleasesTableView.tsx:92-96 | exactly the elements that pass, each as often as in the input |
| Seqs.MapSeq | src/api/fetchHooks.ts:167-174 | same length, each element mapped |
| Seqs.FilterAll | src/components/EnvironmentDialog.tsx:119 | filtering by a test every element passes keeps the whole sequence |
| Seqs.MapSeqAppend | src/api/fetchHooks.ts:38-70 | mapping distributes over concatenation |
| Seqs.DistinctCardinality | src/components/ReleasesTableView.tsx:101-103 | a sequence without repeats has as many elements as the set of them |
| Sorting.Insert | src/api/fetchHooks.ts:101 | inserting adds exactly one element |
| Sorting.SortBy | src/api/fetchHooks.ts:101 | `orderBy` gives a permutation of the input, in key order |
| Sorting.InsertSorted | src/api/fetchHooks.ts:101 | inserting into a sorted sequence keeps it sorted |
| Sorting.InsertThenBy | src/components/ReleasesTableView.tsx:86-99 | inserting an element below all others by the second key keeps a two-key order |
| Sorting.SortByThenBy | src/components/ReleasesTableView.tsx:86-99 | stability: stably sorting a sequence already ordered by a second key orders it by the first key, then by the second |
| Sorting.FilterSorted | src/components/ReleasesTableView.tsx:86-96 | filtering keeps a sorted sequence sorted |
| Sorting.SortBySorted | src/api/fetchHooks.ts:101 | a sequence already in key order is its own stable sort |
| Sorting.KeyLeRefl | src/api/fetchHooks.ts:101 | the key order is reflexive |
| Sorting.KeyLeTotal | src/api/fetchHooks.ts:101 | the key order is total |
| Sorting.KeyLeTrans | src/api/fetchHooks.ts:101 | the key order is transitive |
| Sorting.KeyLeAntisymmetric | src/api/fetchHooks.ts:101 | the key order is antisymmetric |
| Sorting.KeyLeCons | src/components/SelectWorkflow.tsx:38-56 | a two-key key compares on its first component, then on the rest |
| Sorting.KeyLeSingle | src/components/ReleasesTableView.tsx:97-98 | one-number keys compare as the numbers |
| Models.StateName | src/components/ReleasesTableView.tsx:159 | every deployment state has its GitHub name: at least five characters, all upper-case letters or `_` |
| ReleasesTable.GetButtonStyle | src/components/ReleasesTableView.tsx:32-47 | Active gives a blue background; Failure red, Pending orange, In progress yellow text; no state an empty style; any other of GitHub's eleven states grey. Each iff |
| ReleasesTable.Matching | src/components/ReleasesTableView.tsx:92-96 | exactly the releases whose lowercased name starts with the lowercased filter |
| ReleasesTable.MatchingPermutation | src/components/ReleasesTableView.tsx:86-96 | filtering a permutation gives a permutation of the filtered input |
| ReleasesTable.ReleasesSorted | src/components/ReleasesTableView.tsx:86-99 | the rows are exactly the matching input releases, with their multiplicities |
| ReleasesTable.ReleasesSortedMembers | src/components/ReleasesTableView.tsx:86-99 | a permutation of the matching releases holds exactly the matching input releases |
| ReleasesTable.ReleasesSortedOrder | src/components/ReleasesTableView.tsx:86-99 | the rows are newest first, and releases created at the same instant are in descending tag order |
| ReleasesTable.GridOrderFromSorts | src/components/ReleasesTableView.tsx:86-99 | the stable newest-first sort of tag-ordered releases keeps the tag order among equal instants |
| ReleasesTable.DeployedTo | src/components/ReleasesTableView.tsx:108-110 | exactly the rows with a deployment to the environment |
| ReleasesTable.DeployedToSorted | src/components/ReleasesTableView.tsx:105-112 | the releases deployed to an environment stay newest first |
| ReleasesTable.SelectedEnvironments | src/components/ReleasesTableView.tsx:101-103 | given the object's key order (every key once), one column per configured environment, in that order: as many columns as environments, column i the settings under key i |
| ReleasesTable.ReleasesByEnvironmentMeaning | src/components/ReleasesTableView.tsx:105-112 | the reduce records every column's name and nothing else, each mapped to the rows deployed there in row order |
| ReleasesTable.IsAfterLatestMeaning | src/components/ReleasesTableView.tsx:120-122 | "after latest" iff the release is strictly newer than every row deployed to the environment |
| ReleasesTable.GridAfterLatest | src/components/ReleasesTableView.tsx:120-122 | in the grid, a row deployed to an environment is never "after latest" there, and "after latest" means newer than every deployed row |
| ReleasesTable.FirstDeploymentIndex | src/components/ReleasesTableView.tsx:226-228 | the index of the first deployment to the environment, none before it |
| ReleasesTable.LatestDeployment | src/components/ReleasesTableView.tsx:226-228 | `find`: the first deployment to the environment, or none exactly when there is no such deployment |
| ReleasesTable.LatestDeploymentIsNewest | src/components/ReleasesTableView.tsx:225-228 | over newest-first deployments, the one found is the newest to that environment |
| ReleasesTable.DisplayedState | src/components/ReleasesTableView.tsx:130-136 | Pending when a pending record exists and there is no `modifiedAt` or the record is strictly newer; else the deployment's state; none only without both |
| ReleasesTable.PendingRecordWins | src/components/ReleasesTableView.tsx:132-136 | a record written at `now` wins iff there is no deployment or `modifiedAt`, or `modifiedAt` is before `now`; no expiry |
| ReleasesTable.DeploymentCaughtUp | src/components/ReleasesTableView.tsx:132-136 | once modified at or after the record's instant, the deployment's own state shows |
| ReleasesTable.ButtonVariant | src/components/ReleasesTableView.tsx:138-142 | contained iff (after latest with no state) or Active |
| ReleasesTable.ButtonColourOf | src/components/ReleasesTableView.tsx:151 | primary iff no state and after latest |
| ReleasesTable.ButtonLabel | src/components/ReleasesTableView.tsx:159 | the state's name with every `_` a space, else "Deploy"; the label is "Deploy" exactly when there is no state; never empty, never an `_` |
| ReleasesTable.CellRun | src/components/ReleasesTableView.tsx:229-231 | a run link iff the latest deployment has a non-zero run id that the fetched runs hold |
| ReleasesTable.RunIconColour | src/components/ReleasesTableView.tsx:165-171 | success iff concluded "success", warning iff no (or an empty) conclusion, else error |
| ReleasesTable.DeployCell | src/components/ReleasesTableView.tsx:114-180 | the cell's pending key is the deployment id of owner, repository, environment and tag, and its deployment the latest one there; the button reads "Deploy" iff nothing is pending and the release was never deployed there; the state shown decides label, variant (contained iff after latest with no state, or Active), colour (primary iff no state and after latest) and style; a run icon iff the latest deployment's run is known, coloured by its conclusion |
| ReleasesTable.TriggeredCellShowsPending | src/components/ReleasesTableView.tsx:124-159 | a cell with a fresh record and no deployment reads "PENDING", outlined, inherited colour, orange, with no run link |
| ReleasesTable.UndeployedNewerReleaseInvitesDeploy | src/components/ReleasesTableView.tsx:120-159 | a release newer than everything deployed, with nothing pending or deployed, offers a contained primary "Deploy" with no style |
| ReleasesTable.ReleasesTableView | src/components/ReleasesTableView.tsx:74-112 | hidden iff no deployable application; a spinner iff loading; else the grid, whose rows are the matching fetched releases with their multiplicities, in grid order, whose columns are every configured environment once in key order, and whose per-environment lists are as above |
| DeploymentDialog.Submit | src/components/DeploymentDialog.tsx:19-34 | saves iff a dialog is open with a workflow id, a release input name and a ref, and saves that dialog |
| DeploymentDialog.CreatedSettingsValid | src/components/DeploymentDialog.tsx:19-24 | default settings are savable iff a non-zero workflow is chosen and the ref is non-empty; never with the default workflow id |
| DeploymentDialog.RenderExtraArg | src/components/DeploymentDialog.tsx:83-85 | the chip is the key, `=`, then the value |
| DeploymentDialog.RenderExtraArgs | src/components/DeploymentDialog.tsx:83-85 | one chip per key, in the object's key order |
| DeploymentDialog.Typed | src/components/DeploymentDialog.tsx:93-95 | each rendered item as a typed chip |
| DeploymentDialog.PairOf | src/components/DeploymentDialog.tsx:94-97 | a pair iff the chip is text whose first two `=`-parts are non-empty, and then those two parts |
| DeploymentDialog.ParseExtraArgs | src/components/DeploymentDialog.tsx:93-101 | the parsed keys and values are non-empty and `=`-free |
| DeploymentDialog.PairOfRendered | src/components/DeploymentDialog.tsx:94-97 | `k=v` and `k=v=more` both read as `k` to `v` |
| DeploymentDialog.ParseLaterWins | src/components/DeploymentDialog.tsx:98 | a later chip for a key overrides earlier ones |
| DeploymentDialog.ParseRenderPrefix | src/components/DeploymentDialog.tsx:83-98 | parsing the first n rendered chips gives the first n keys' entries |
| DeploymentDialog.ParseRender | src/components/DeploymentDialog.tsx:83-98 | round trip: parsing the rendering of well-formed arguments gives them back |
| SelectWorkflow.FirstWord | src/components/SelectWorkflow.tsx:43 | the lowercased application name up to its first space: a space-free prefix followed by a space whenever it is shorter than the name |
| SelectWorkflow.Relevance | src/components/SelectWorkflow.tsx:38-52 | 3 iff the lowercased name holds the first word and "deploy", 2 iff only the word, 1 iff only "deploy", 0 iff neither |
| SelectWorkflow.EmptyAppNameRanksName | src/components/SelectWorkflow.tsx:43 | with an empty application name every workflow ranks at least Name |
| SelectWorkflow.WorkflowsSorted | src/components/SelectWorkflow.tsx:38-56 | a permutation, relevance descending, then name ascending by character codes |
| SelectWorkflow.SelectedWorkflowId | src/components/SelectWorkflow.tsx:68-74 | a number is the id; anything else selects 0 |
| SelectWorkflow.WorkflowPicker | src/components/SelectWorkflow.tsx:32-85 | nothing iff no application, an alert iff an error, a spinner iff loading, the ranked workflows iff fetched |
| EnvironmentDialog.AppWord | src/components/EnvironmentDialog.tsx:44 | the lowercased first word of the application name, or "" without one |
| EnvironmentDialog.Group | src/components/EnvironmentDialog.tsx:41-46 | 1 iff the lowercased name includes that word, else 2 |
| EnvironmentDialog.FilteredEnvironments | src/components/EnvironmentDialog.tsx:38-49 | a permutation of the fetched environments other than `github-pages`, first group first, by name within a group |
| EnvironmentDialog.NoApplicationOrdersByName | src/components/EnvironmentDialog.tsx:44 | without an application every environment is in the first group |
| EnvironmentDialog.AsOptions | src/components/EnvironmentDialog.tsx:100 | one option per environment, named by it |
| EnvironmentDialog.AddSuggestion | src/components/EnvironmentDialog.tsx:122-127 | the suggestion carries the input and is labelled `Add "<input>"` |
| EnvironmentDialog.MatchingOptions | src/components/EnvironmentDialog.tsx:119 | the `Filter` of the options by a case-insensitive substring match, so order and repeats are kept; all of them for empty input |
| EnvironmentDialog.FilterOptions | src/components/EnvironmentDialog.tsx:118-130 | the matching options, plus exactly one last "Add" suggestion iff the input is non-empty |
| EnvironmentDialog.ResolveEnvironmentName | src/components/EnvironmentDialog.tsx:103-110 | typed text itself, else the option's `inputValue`, else its name, else "" |
| EnvironmentDialog.PickingSuggestionGivesInput | src/components/EnvironmentDialog.tsx:103-127 | picking the suggestion names the environment by the input, not by the label |
| EnvironmentDialog.PickingEnvironmentGivesName | src/components/EnvironmentDialog.tsx:100-110 | picking a fetched environment names it by its name |
| EnvironmentDialog.Submit | src/components/EnvironmentDialog.tsx:54-62 | saves `{name, workflowInputValue}` iff the name is non-empty |
| EnvironmentDialog.ShowsWorkflowInput | src/components/EnvironmentDialog.tsx:66-157 | the "Workflow input value" field is always shown when fetching environments failed; otherwise exactly for workflow settings with an environment input name, and never without an application |
| ApplicationDialog.TypedReleaseFilter | src/components/ApplicationDialog.tsx:102-107 | the stored filter is the input lowercased, character by character; no upper-case letter remains |
| ApplicationDialog.FilterFromName | src/components/ApplicationDialog.tsx:113-119 | character by character the lowercased name with each space as `-`, then `-v`; no space and no upper-case letter |
| ApplicationDialog.FilterFromNameMatches | src/components/ApplicationDialog.tsx:113-119 | a release named by the derived filter and a version passes that filter in the grid |
| ApplicationDialog.LowerCaseFixed | src/components/ApplicationDialog.tsx:113-119 | lowercasing lower-case text changes nothing |
| ApplicationDialog.RepoOptions | src/components/ApplicationDialog.tsx:40 | a permutation of the fetched repositories, ordered by lowercased owner |
| ApplicationDialog.SaveDisabled | src/components/ApplicationDialog.tsx:148 | enabled iff a repository is set and no non-empty warning shows |
| ApplicationDialog.Submit | src/components/ApplicationDialog.tsx:45-53 | hands over repository, name and filter iff a repository is set |
| ApplicationDialog.EnabledSaveSubmits | src/components/ApplicationDialog.tsx:45-53 | an enabled Save always submits |
| ApplicationDialog.ShowsDelete | src/components/ApplicationDialog.tsx:137-144 | Delete is offered iff editing |
| FetchHooks.ToDeployment | src/api/fetchHooks.ts:52-64 | id and creation kept; environment defaults to "", state to Inactive, `modifiedAt` to now |
| FetchHooks.PresentNodes | src/api/fetchHooks.ts:48-50 | exactly the non-null nodes |
| FetchHooks.PresentNodesInOrder | src/api/fetchHooks.ts:48-50 | the non-null nodes keep their order and repeats: wrapped again they are the `Filter` of the nodes by presence |
| FetchHooks.CommitDeployments | src/api/fetchHooks.ts:47-66 | a permutation of the mapped non-null nodes, newest first |
| FetchHooks.ToRelease | src/api/fetchHooks.ts:39-68 | a release iff the target is a commit; tag is the ref name, created at the push date or else the commit date, commit the oid |
| FetchHooks.CommitReleases | src/api/fetchHooks.ts:38-70 | exactly the releases of the commit refs |
| FetchHooks.CommitReleasesInOrder | src/api/fetchHooks.ts:38-70 | the releases keep the refs' order and repeats: wrapped again they are the `Filter` by presence of the refs mapped through `ToRelease` |
| FetchHooks.FetchReleases | src/api/fetchHooks.ts:29-71 | none without a repository, else the commit refs' releases |
| FetchHooks.FetchedLatestIsNewest | src/api/fetchHooks.ts:47-66 | every fetched release's first deployment to an environment is its newest there |
| FetchHooks.FetchWorkflows | src/api/fetchHooks.ts:89-101 | none without a token or repository, else a permutation of the listed workflows ordered by name |
| FetchHooks.PageEnvironments | src/api/fetchHooks.ts:129-138 | the decoded payload, or none when it is absent or fails the schema |
| FetchHooks.AccumulatedStep | src/api/fetchHooks.ts:137 | each response appends its page |
| FetchHooks.ContinuedStep | src/api/fetchHooks.ts:140-142 | one more response that lets the loop go on extends the run |
| FetchHooks.FetchEnvironments | src/api/fetchHooks.ts:115-146 | nothing requested without a token or repository; else the accumulated pages of the responses used, every response but the last continuing, and stopping iff `total_count` is zero or reached |
| FetchHooks.ToRepo | src/api/fetchHooks.ts:167-174 | id, name, owner login, default branch or "" |
| FetchHooks.FetchRepos | src/api/fetchHooks.ts:152-175 | first request without a cursor, each next one with the previous end cursor while there is a next page; the repositories of all pages fetched, mapped |
| SettingsState.Description | src/state/index.ts:11-15 | every settings key has a non-empty description |
| SettingsState.DescriptionsDistinct | src/state/index.ts:11-15 | no two keys share a description |
| SettingsState.Set | src/state/index.ts:43-47 | the key reads the new value; every other key is unchanged |
| SettingsState.SettingsExtensionality | src/state/index.ts:38-49 | settings agreeing on every key are equal |
| SettingsState.SetGet | src/state/index.ts:41-47 | setting a key to its value changes nothing; of two sets of one key the later wins |
| SettingsState.StoredSettings | src/state/index.ts:22-30 | the stored settings when the text is non-empty, parses and passes the schema; the defaults 60, 60, 100 otherwise |
| SettingsState.WrittenSettingsReload | src/state/index.ts:22-33 | settings written back load unchanged at the next start |
| SettingsState.SettingsAtom.constructor | src/state/index.ts:17-30 | the atom starts from the stored settings or the defaults |
| SettingsState.SettingsAtom.SetValue | src/state/index.ts:31-33 | the new value is taken and written to storage under `appSettings` |
| SettingsState.SettingsAtom.SetKey | src/state/index.ts:43-47 | one key changes, the others stay, and the whole record is written back |
| Actions.DispatchInputs | src/overmind/actions.ts:115-127 | inputs hold the release key, the environment key iff non-empty, and the extra arguments, which override both |
| Actions.WorkflowInputUnusedWithoutEnvironmentKey | src/components/EnvironmentDialog.tsx:66-157 | without an environment input name the dialog hides the workflow input field unless fetching failed, where it is shown; either way the value typed there does not change the dispatch inputs |
| Actions.EmptyNamePassesDuplicateCheck | src/overmind/actions.ts:152-156 | an empty name passes the duplicate check, yet the application it creates has the repository and the name of an existing one |
| Actions.RecordPending | src/overmind/actions.ts:103-109 | exactly the deployment id's entry is (over)written with a record at `now`; the rest is kept |
| Actions.RecordedDispatchShowsPending | src/overmind/actions.ts:103-109 | after recording, that cell of the grid reads "PENDING" |
| Actions.RecordingLeavesOtherCells | src/overmind/actions.ts:103-109 | every other cell is unchanged when no name contains `/` |
| Actions.MergeApplications | src/overmind/actions.ts:341-344 | the ids of both maps; imported entries win clashes |
| Actions.ImportedApplications | src/overmind/actions.ts:331-340 | none for no upload or unparsable text; else the decoded map, or the empty map when it fails the schema |
| Actions.ImportExported | src/overmind/actions.ts:330-346 | importing an export brings back every exported application unchanged |
| Actions.ImportTwice | src/overmind/actions.ts:330-346 | importing the same file twice is importing it once |
| Actions.SetThenGet | src/overmind/actions.ts:39 | after `set`, the path reads the new value |
| Actions.SetLeavesOtherPaths | src/overmind/actions.ts:39 | `set` leaves every path unrelated to the set one as it was |
| Actions.SetState | src/overmind/actions.ts:31-40 | throws "Unkown path ..." iff the path reads undefined; else the path reads the value and unrelated paths are unchanged |
| Actions.WithEnvironment | src/overmind/actions.ts:308-310 | the environment is added or replaced under its name; nothing else changes |
| Actions.WithoutEnvironment | src/overmind/actions.ts:322 | exactly that key is deleted; nothing else changes |
| Actions.AddThenRemoveEnvironment | src/overmind/actions.ts:300-324 | removing an environment just added under a new name restores the application |
| Actions.AppState.TriggerDeployment | src/overmind/actions.ts:76-137 | with no application, non-workflow settings, an unconfigured environment or no confirmation, nothing changes and nothing is dispatched; else the pending record is added and the dispatch has the repository, ref, workflow and inputs |
| Actions.AppState.CreateNewApplication | src/overmind/actions.ts:139-166 | without the dialog nothing changes; a duplicate only sets the warning; else exactly one application is added and selected, the dialog closes and its deployment settings open |
| Actions.AppState.EditDeployment | src/overmind/actions.ts:186-190 | opens the deployment dialog on the selected workflow settings, else changes nothing |
| Actions.AppState.SaveDeployment | src/overmind/actions.ts:192-197 | the dialog's settings become the selected application's; the dialog always closes |
| Actions.AppState.SaveApplication | src/overmind/actions.ts:207-236 | the duplicate check skips the edited application; on success only its repository, name and filter change and the dialog closes |
| Actions.AppState.UpdateApplicationDialog | src/overmind/actions.ts:238-256 | the targeted dialog's warning is cleared before the update; a closed dialog changes nothing |
| Actions.AppState.DeleteApplication | src/overmind/actions.ts:258-268 | once confirmed, the selected application is removed and the edit dialog closes |
| Actions.AppState.AddEnvironment | src/overmind/actions.ts:300-313 | stores the settings under the dialog's non-empty name for a selected application; the dialog always closes |
| Actions.AppState.RemoveEnvironment | src/overmind/actions.ts:315-324 | once confirmed, exactly that environment is deleted; throws iff it is not configured |
| Actions.AppState.ImportApplications | src/overmind/actions.ts:330-346 | throws iff the uploaded text is non-empty and not JSON; the store becomes existing merged with imported; with no import, nothing changes |
| OnInitialize.StorageKey | src/overmind/onInitialize.ts:26 | "gdc." then everything after the first `.`; text without a `.` unchanged |
| OnInitialize.KeyOfStateField | src/overmind/onInitialize.ts:26 | the selector of a state field gives the key `gdc.<field>` |
| OnInitialize.SyncKeys | src/overmind/onInitialize.ts:43-76 | the four synced values are saved under four distinct keys `gdc.token`, `gdc.applicationsById`, `gdc.selectedApplicationId`, `gdc.pendingDeployments` |
| OnInitialize.Loaded | src/overmind/onInitialize.ts:37-40 | a stored value is applied iff it is present and truthy |
| OnInitialize.TokenOnLoad | src/overmind/onInitialize.ts:45-47 | a stored string is the token; a falsy value gives "" |
| OnInitialize.ApplicationsOnLoad | src/overmind/onInitialize.ts:57-64 | the decoded applications, or the empty map when they fail the schema |
| OnInitialize.SelectedIdOnLoad | src/overmind/onInitialize.ts:71 | a stored string is the selected id |
| OnInitialize.Prune | src/overmind/onInitialize.ts:84-88 | keeps exactly the entries dated before now plus 60 seconds, each unchanged, adding none |
| OnInitialize.PendingOnLoad | src/overmind/onInitialize.ts:77-90 | the decoded pending records, or none when they fail the schema, then pruned |
| OnInitialize.PruneIdempotent | src/overmind/onInitialize.ts:84-88 | pruning twice at one instant is pruning once |
| OnInitialize.PruneByRecordedInstant | src/overmind/onInitialize.ts:84-88 | a record is kept iff it was written before one minute from now; no expiry |
| OnInitialize.RecordedPendingSurvivesReload | src/overmind/onInitialize.ts:75-92 | a recorded dispatch, saved and reloaded within the minute after it or later, is still pending |
| OnInitialize.ApplicationsSurviveReload | src/overmind/onInitialize.ts:55-67 | saved workflow applications load back unchanged |
| OnInitialize.Storage.Save | src/overmind/onInitialize.ts:31 | the value is stored under the key and the save is logged |
| OnInitialize.LoadState | src/overmind/onInitialize.ts:37-40 | each of the four values stored and truthy replaces the state's, as loaded; no other state field changes |
| OnInitialize.TokenChanged | src/overmind/onInitialize.ts:27-36 | the token goes to the API clients first, then is saved under `gdc.token` |
| OnInitialize.ApplicationsChanged | src/overmind/onInitialize.ts:27-36 | the applications are saved under their key |
| OnInitialize.SelectedIdChanged | src/overmind/onInitialize.ts:27-36 | the selected id is saved under its key |
| OnInitialize.PendingChanged | src/overmind/onInitialize.ts:27-36 | the pending records are saved under their key |

## Left out

- Rendering, styling, layout, links, tooltips and the React Query cache, refetch interval and loading/error plumbing: none of it decides anything. The grid, the picker and the dialogs receive `isLoading`, the error flag and the fetched data as parameters.
- The network: GitHub's GraphQL and REST calls, and the dispatch request, which is returned as a value. The workflow-run list comes from a hook that is not part of this model; the grid takes the runs as a map by run id.
- `ReleasesTable.TagDescending`: `localeCompare` with numeric collation is locale data, so the tag order is a parameter `tagRank`.
- `Text.ToLower`: lowercases ASCII letters only, not Unicode case mapping.
- `Dates.FormatDate`: an instant is written as its decimal millisecond count, not as ISO-8601 text. Only the order of instants and "valid or not" matter to the code.
- `Json.Json`: JSON numbers are integers. The settings and ids the code stores are whole numbers.
- `Actions.SetState`: works on a JSON view of the state, along dotted property paths only. lodash's bracket and index path syntax is not modelled. The selector arrives as its source text.
- `EnvironmentDialog.MatchingOptions`: MUI's default filter also strips diacritics. The model matches case-insensitive substrings only.
- `OnInitialize.TokenOnLoad`: a stored truthy value that is not a string (a number, an object) becomes "" instead of that value; `OnInitialize.SelectedIdOnLoad` likewise. The state's type admits strings only.
- `FetchHooks.FetchEnvironments`: the loop requests without a page parameter, so the same page may come back each time and the source loop may never end. The model takes the responses as a finite sequence and reports `complete` = false when they run out.
- `FetchHooks.FetchRepos`: bounded in the same way by the pages given.
- `Actions.AppState.TriggerDeployment`: the source stores a bare `dayjs()` value, which the schema and the grid do not read as a record. The model stores `{createdAt: now}`, the form both readers use.
- The setters of `actions.ts` that only store what they are given, or copy fields of the selected application into a fresh dialog state, with nothing to state beyond the assignment: `setToken`, `showSettings`, `hideSettings`, `cancelNewApplication`, `selectApplication`, `updateDeployWorkflowDialog`, `cancelEditDeployment`, `cancelEditApplication`, `showAddEnvironmentModal`, `updateEnvironmentDialog`, `cancelAddEnvironment`. `showNewApplicationModal` also copies the selected application's repository into the new dialog, and `editApplication` copies its repository, name and release filter.
- `updateWorkflowSettings`: a caller-supplied mutation of the selected application's settings object. Its one branch beyond that is described under "## Behaviour as written".
- `OnInitialize.ApplicationsOnLoad`, `OnInitialize.PendingOnLoad` and `Actions.ImportedApplications`: the source decodes with the io-ts codecs `ApplicationsByIdCodec` and `PendingDeploymentsCodec`, and checks settings with `DeployWorkflowCodec.is`, all imported from a state module that is not part of this model. The model decodes with the zod schemas of `src/state/schemas.ts` instead, taking each io-ts codec to accept exactly what the corresponding zod schema accepts.
- `exportApplications`: a file download of the applications; the import side and the round trip are modelled (`Actions.ImportExported`).
- `state.selectedApplication`: its definition is not part of this model; it is taken to be the application under the selected id.
- `console.log`/`console.error` on decode failures, and the `nested` option of reactions (Overmind's change tracking).
