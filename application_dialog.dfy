/**
 * The new/edit application dialog of `src/components/ApplicationDialog.tsx`:
 * the release filter the user types (stored lowercased) or derives from the
 * application name, the repositories offered ordered by owner, and when the
 * dialog may be saved.
 */
module ApplicationDialog {
  import opened Wrappers
  import opened Text
  import opened Sorting
  import opened Schemas
  import opened Models
  import ReleasesTable

  /** No letter of `s` is upper case. */
  predicate LowerCase(s: string) {
    forall i :: 0 <= i < |s| ==> !('A' <= s[i] <= 'Z')
  }

  /** Typing into the release filter stores the text lowercased. */
  function TypedReleaseFilter(input: string): (filter: string)
    ensures |filter| == |input| && LowerCase(filter)
    ensures forall i :: 0 <= i < |input| ==> filter[i] == LowerChar(input[i])
    ensures forall i :: 0 <= i < |input| && !('A' <= input[i] <= 'Z') ==> filter[i] == input[i]
    ensures ToLower(filter) == filter
  {
    ToLowerIdempotent(input);
    ToLower(input)
  }

  /** "Set filter from name": the lowercased name with every space turned into `-`, then `-v`. */
  function FilterFromName(name: string): (filter: string)
    ensures |filter| == |name| + 2
    ensures filter[|name|..] == "-v"
    ensures ' ' !in filter && LowerCase(filter)
    ensures forall i :: 0 <= i < |name| ==> filter[i] == if name[i] == ' ' then '-' else LowerChar(name[i])
  {
    ReplaceChar(ToLower(name), ' ', '-') + "-v"
  }

  /**
   * The derived filter does what it is for: it lets through every release
   * whose name is the derived filter followed by anything (a version).
   */
  lemma FilterFromNameMatches(name: string, version: string, r: Release)
    requires r.name == FilterFromName(name) + version
    ensures ReleasesTable.MatchesFilter(FilterFromName(name), r)
  {
    var f := FilterFromName(name);
    ToLowerAppend(f, version);
    LowerCaseFixed(f);
    assert ToLower(r.name)[..|f|] == ToLower(f);
  }

  /** Lowercasing leaves lower-case text unchanged. */
  lemma LowerCaseFixed(s: string)
    requires LowerCase(s)
    ensures ToLower(s) == s
  {
  }

  function OwnerKey(r: Repo): Key {
    Codes(ToLower(r.owner))
  }

  /** `orderBy(data ?? [], d => d.owner.toLowerCase())`: the fetched repositories ordered by lowercased owner. */
  function RepoOptions(fetched: Option<seq<Repo>>): (options: seq<Repo>)
    ensures multiset(options) == multiset(fetched.GetOr([]))
    ensures forall i, j :: 0 <= i < j < |options| ==> KeyLe(Codes(ToLower(options[i].owner)), Codes(ToLower(options[j].owner)))
  {
    SortBy(fetched.GetOr([]), OwnerKey)
  }

  /** The Save button is disabled without a repository or while a (non-empty) warning is shown. */
  function SaveDisabled(dialog: ApplicationDialogState): (disabled: bool)
    ensures !disabled <==> dialog.repo.Some? && (dialog.warning.None? || dialog.warning.value == "")
  {
    dialog.repo.None? || (dialog.warning.Some? && dialog.warning.value != "")
  }

  datatype SaveRequest = SaveRequest(repo: Repo, name: string, releaseFilter: string)

  /** Submitting hands repository, name and filter to `onSave` only when a repository is set. */
  function Submit(dialog: ApplicationDialogState): (request: Option<SaveRequest>)
    ensures request.Some? <==> dialog.repo.Some?
    ensures request.Some? ==> request.value == SaveRequest(dialog.repo.value, dialog.name, dialog.releaseFilter)
  {
    if dialog.repo.Some? then Some(SaveRequest(dialog.repo.value, dialog.name, dialog.releaseFilter)) else None
  }

  /** An enabled Save button always submits something. */
  lemma EnabledSaveSubmits(dialog: ApplicationDialogState)
    requires !SaveDisabled(dialog)
    ensures Submit(dialog).Some?
  {
  }

  datatype Mode = New | Edit

  /** The Delete button is offered only when editing. */
  function ShowsDelete(mode: Mode): (shown: bool)
    ensures shown <==> mode == Edit
  {
    mode == Edit
  }
}
