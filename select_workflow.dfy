/**
 * The workflow picker of `src/components/SelectWorkflow.tsx`: workflows are
 * ranked by how well their name fits the application (its first word, and
 * the word "deploy") and listed best first, by name within a rank.
 */
module SelectWorkflow {
  import opened Wrappers
  import opened Text
  import opened Sorting
  import opened Models

  const NoRelevance := 0
  const DeployRelevance := 1
  const NameRelevance := 2
  const NameAndDeployRelevance := 3

  /** `selectedApplication.name.toLowerCase().split(' ')[0]`. */
  function FirstWord(appName: string): (w: string)
    ensures ' ' !in w && StartsWith(ToLower(appName), w)
    ensures |w| < |appName| ==> ToLower(appName)[|w|] == ' '
  {
    FirstPart(ToLower(appName), ' ')
  }

  /** The `WorkflowRelevance` of a workflow name for an application name. */
  function Relevance(workflowName: string, appName: string): (r: int)
    ensures var containsName := Includes(ToLower(workflowName), FirstWord(appName));
            var containsDeploy := Includes(ToLower(workflowName), "deploy");
            (r == NameAndDeployRelevance <==> containsName && containsDeploy) &&
            (r == NameRelevance <==> containsName && !containsDeploy) &&
            (r == DeployRelevance <==> !containsName && containsDeploy) &&
            (r == NoRelevance <==> !containsName && !containsDeploy)
  {
    var lower := ToLower(workflowName);
    var containsName := Includes(lower, FirstWord(appName));
    var containsDeploy := Includes(lower, "deploy");
    if containsDeploy && containsName then NameAndDeployRelevance
    else if containsName then NameRelevance
    else if containsDeploy then DeployRelevance
    else NoRelevance
  }

  /** An empty application name has the empty first word, so every workflow ranks at least Name. */
  lemma EmptyAppNameRanksName(workflowName: string)
    ensures Relevance(workflowName, "") >= NameRelevance
  {
    assert FirstWord("") == "";
    IncludesEmpty(ToLower(workflowName));
  }

  /** Relevance descending, then name ascending by character codes. */
  function WorkflowKey(appName: string): Workflow -> Key {
    (w: Workflow) => [-Relevance(w.name, appName)] + Codes(w.name)
  }

  /** `workflowsSorted`: the fetched workflows (none when nothing was fetched) in picker order. */
  function WorkflowsSorted(workflows: seq<Workflow>, appName: string): (r: seq<Workflow>)
    ensures multiset(r) == multiset(workflows)
    ensures forall i, j :: 0 <= i < j < |r| ==>
              Relevance(r[i].name, appName) >= Relevance(r[j].name, appName) &&
              (Relevance(r[i].name, appName) == Relevance(r[j].name, appName) ==> KeyLe(Codes(r[i].name), Codes(r[j].name)))
  {
    var r := SortBy(workflows, WorkflowKey(appName));
    forall i, j | 0 <= i < j < |r|
      ensures Relevance(r[i].name, appName) >= Relevance(r[j].name, appName)
      ensures Relevance(r[i].name, appName) == Relevance(r[j].name, appName) ==> KeyLe(Codes(r[i].name), Codes(r[j].name))
    {
      KeyLeCons(-Relevance(r[i].name, appName), Codes(r[i].name), -Relevance(r[j].name, appName), Codes(r[j].name));
    }
    r
  }

  /** A value the select reports. */
  datatype SelectValue = NumberValue(n: int) | TextValue(s: string)

  /** The `onChange` handler: a number is the workflow id; anything else selects none (0). */
  function SelectedWorkflowId(v: SelectValue): (id: int)
    ensures v.NumberValue? ==> id == v.n
    ensures v.TextValue? ==> id == 0
  {
    if v.NumberValue? then v.n else 0
  }

  /** What the picker shows. */
  datatype Picker = NoPicker | LoadError | Loading | Options(workflows: seq<Workflow>) | Blank

  /**
   * Nothing without an application, an alert on error, a spinner while
   * loading, the ranked workflows once fetched.
   */
  function WorkflowPicker(appName: Option<string>, error: bool, isLoading: bool, fetched: Option<seq<Workflow>>): (p: Picker)
    ensures p.NoPicker? <==> appName.None?
    ensures p.LoadError? <==> appName.Some? && error
    ensures p.Loading? <==> appName.Some? && !error && isLoading
    ensures p.Options? <==> appName.Some? && !error && !isLoading && fetched.Some?
    ensures p.Options? ==> p.workflows == WorkflowsSorted(fetched.value, appName.value)
  {
    if appName.None? then NoPicker
    else if error then LoadError
    else if isLoading then Loading
    else if fetched.Some? then Options(WorkflowsSorted(fetched.value, appName.value))
    else Blank
  }
}
