/**
 * The add/edit environment dialog of `src/components/EnvironmentDialog.tsx`:
 * the fetched environments offered as options (GitHub Pages left out, the
 * ones that mention the application first), the free-text "Add" suggestion,
 * how a picked value becomes the environment name, and the submit guard.
 */
module EnvironmentDialog {
  import opened Wrappers
  import opened Text
  import opened Seqs
  import opened Sorting
  import opened Schemas
  import opened Models

  /** An autocomplete option; a suggestion to add typed text carries it in `inputValue`. */
  datatype EnvOption = EnvOption(name: string, inputValue: Option<string>)

  /** `selectedApplication?.name.split(' ')[0].toLowerCase() || ''`. */
  function AppWord(appName: Option<string>): (w: string)
    ensures appName.None? ==> w == ""
    ensures appName.Some? ==> w == ToLower(FirstPart(appName.value, ' '))
  {
    if appName.Some? then ToLower(FirstPart(appName.value, ' ')) else ""
  }

  /** 1 for environments whose lowercased name includes the application's word, else 2. */
  function Group(e: GitHubEnvironment, appName: Option<string>): (g: int)
    ensures g == 1 <==> Includes(ToLower(e.name), AppWord(appName))
    ensures g == 1 || g == 2
  {
    if Includes(ToLower(e.name), AppWord(appName)) then 1 else 2
  }

  function EnvironmentKey(appName: Option<string>): GitHubEnvironment -> Key {
    (e: GitHubEnvironment) => [Group(e, appName)] + Codes(e.name)
  }

  predicate NotPages(e: GitHubEnvironment) {
    e.name != "github-pages"
  }

  /** `filteredEnvironments`: the fetched environments but `github-pages`, in option order. */
  function FilteredEnvironments(fetched: Option<seq<GitHubEnvironment>>, appName: Option<string>): (r: seq<GitHubEnvironment>)
    ensures multiset(r) == multiset(Filter(fetched.GetOr([]), NotPages))
    ensures forall e :: e in r <==> e in fetched.GetOr([]) && e.name != "github-pages"
    ensures forall i, j :: 0 <= i < j < |r| ==>
              Group(r[i], appName) <= Group(r[j], appName) &&
              (Group(r[i], appName) == Group(r[j], appName) ==> KeyLe(Codes(r[i].name), Codes(r[j].name)))
  {
    var kept := Filter(fetched.GetOr([]), NotPages);
    var r := SortBy(kept, EnvironmentKey(appName));
    forall i, j | 0 <= i < j < |r|
      ensures Group(r[i], appName) <= Group(r[j], appName)
      ensures Group(r[i], appName) == Group(r[j], appName) ==> KeyLe(Codes(r[i].name), Codes(r[j].name))
    {
      KeyLeCons(Group(r[i], appName), Codes(r[i].name), Group(r[j], appName), Codes(r[j].name));
    }
    forall e ensures e in r <==> e in kept {
      assert e in r <==> e in multiset(r);
      assert e in kept <==> e in multiset(kept);
    }
    r
  }

  /** With no application every option falls in the first group, so options are ordered by name alone. */
  lemma NoApplicationOrdersByName(e: GitHubEnvironment)
    ensures Group(e, None) == 1
  {
    IncludesEmpty(ToLower(e.name));
  }

  /** The options as the autocomplete gets them. */
  function AsOptions(envs: seq<GitHubEnvironment>): (options: seq<EnvOption>)
    ensures |options| == |envs|
    ensures forall i :: 0 <= i < |envs| ==> options[i] == EnvOption(envs[i].name, None)
  {
    seq(|envs|, i requires 0 <= i < |envs| => EnvOption(envs[i].name, None))
  }

  /** The suggestion to add the typed text. */
  function AddSuggestion(input: string): (o: EnvOption)
    ensures o.inputValue == Some(input)
    ensures o.name == "Add \"" + input + "\""
  {
    EnvOption("Add \"" + input + "\"", Some(input))
  }

  /**
   * The autocomplete's default filter: the options whose name contains the
   * input, ignoring case.
   */
  predicate MatchesInput(input: string, o: EnvOption) {
    Includes(ToLower(o.name), ToLower(input))
  }

  /** The options matching the input, in their order and with their repeats. */
  function MatchingOptions(options: seq<EnvOption>, input: string): (r: seq<EnvOption>)
    ensures r == Filter(options, o => MatchesInput(input, o))
    ensures forall o :: o in r <==> o in options && MatchesInput(input, o)
    ensures input == "" ==> r == options
  {
    if input == "" then
      forall o | o in options ensures MatchesInput(input, o) {
        IncludesEmpty(ToLower(o.name));
      }
      FilterAll(options, o => MatchesInput(input, o));
      Filter(options, o => MatchesInput(input, o))
    else Filter(options, o => MatchesInput(input, o))
  }

  /** `filterOptions`: the matching options, then the "Add" suggestion when something was typed. */
  function FilterOptions(options: seq<EnvOption>, input: string): (r: seq<EnvOption>)
    ensures input == "" ==> r == options
    ensures input != "" ==> |r| == |MatchingOptions(options, input)| + 1 && r[|r| - 1] == AddSuggestion(input)
    ensures input != "" ==> r[..|r| - 1] == MatchingOptions(options, input)
  {
    var filtered := MatchingOptions(options, input);
    if input != "" then filtered + [AddSuggestion(input)] else filtered
  }

  /** A value the autocomplete reports on change: typed text, a picked option, or nothing. */
  datatype ChangeValue = Typed(text: string) | Picked(option: EnvOption) | Cleared

  /** `typeof value === 'string' ? value : value?.inputValue ?? value?.name ?? ''`. */
  function ResolveEnvironmentName(v: ChangeValue): (name: string)
    ensures v.Typed? ==> name == v.text
    ensures v.Picked? && v.option.inputValue.Some? ==> name == v.option.inputValue.value
    ensures v.Picked? && v.option.inputValue.None? ==> name == v.option.name
    ensures v.Cleared? ==> name == ""
  {
    match v
    case Typed(text) => text
    case Picked(o) => if o.inputValue.Some? then o.inputValue.value else o.name
    case Cleared => ""
  }

  /** Picking the "Add" suggestion names the environment by the typed text, not by the suggestion's label. */
  lemma PickingSuggestionGivesInput(input: string)
    ensures ResolveEnvironmentName(Picked(AddSuggestion(input))) == input
    ensures ResolveEnvironmentName(Picked(AddSuggestion(input))) != AddSuggestion(input).name
  {
    assert |AddSuggestion(input).name| == |input| + 6;
  }

  /** Picking a fetched environment names it by the environment's name. */
  lemma PickingEnvironmentGivesName(envs: seq<GitHubEnvironment>, i: nat)
    requires i < |envs|
    ensures ResolveEnvironmentName(Picked(AsOptions(envs)[i])) == envs[i].name
  {
  }

  /** Submitting saves `{name: environmentName, workflowInputValue}` only with a non-empty name (the Save button is disabled otherwise). */
  function Submit(dialog: EnvironmentDialogState): (saved: Option<EnvironmentSettings>)
    ensures saved.Some? <==> dialog.environmentName != ""
    ensures saved.Some? ==> saved.value.name == dialog.environmentName &&
                            saved.value.workflowInputValue == dialog.workflowInputValue
  {
    if dialog.environmentName != "" then
      Some(EnvironmentSettings(dialog.environmentName, dialog.workflowInputValue))
    else None
  }

  /**
   * Whether the dialog shows a "Workflow input value" field. When fetching the
   * environments failed, the manual form always shows one; otherwise the
   * field appears below the autocomplete only for workflow settings with an
   * environment input name.
   */
  predicate ShowsWorkflowInput(fetchFailed: bool, app: Option<ApplicationConfig>): (shown: bool)
    ensures fetchFailed ==> shown
    ensures app.None? ==> (shown <==> fetchFailed)
    ensures !fetchFailed && shown ==> app.Some? && app.value.deploySettings.WorkflowDeploy?
    ensures app.Some? && app.value.deploySettings.WorkflowDeploy? ==>
              (shown <==> fetchFailed || app.value.deploySettings.workflow.environmentKey != "")
  {
    fetchFailed ||
    (app.Some? && app.value.deploySettings.WorkflowDeploy? && app.value.deploySettings.workflow.environmentKey != "")
  }
}
