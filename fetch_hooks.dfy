/**
 * The data hooks of `src/api/fetchHooks.ts`, minus the network: how GitHub's
 * ref fragments become releases with their deployments, how workflows are
 * ordered, and the two paginating loops (environments and repositories) over
 * the sequence of responses the API gives them.
 */
module FetchHooks {
  import opened Wrappers
  import opened Seqs
  import opened Sorting
  import opened Text
  import opened Json
  import opened Schemas
  import opened Models
  import ReleasesTable

  // ---- useFetchReleases

  /** A deployment node of the GraphQL answer; absent fields are `None`. */
  datatype DeployFragment = DeployFragment(
    id: string,
    createdAt: int,
    environment: Option<string>,
    state: Option<DeploymentState>,
    latestStatusCreatedAt: Option<int>)

  /** The target of a ref: a commit (with its deployment nodes, which may be null) or anything else. */
  datatype Target =
    | CommitTarget(pushedDate: Option<int>, committedDate: int, oid: string, deploymentNodes: Option<seq<Option<DeployFragment>>>)
    | OtherTarget

  datatype RefFragment = RefFragment(id: string, name: string, target: Option<Target>)

  /**
   * A deployment node as a model: no environment reads as `''`, no state as
   * Inactive, and with no latest status `dayjs(undefined)` makes `modifiedAt` now.
   */
  function ToDeployment(f: DeployFragment, now: int): (d: Deployment)
    ensures d.id == f.id && d.createdAt == f.createdAt
    ensures d.environment == f.environment.GetOr("")
    ensures d.state == f.state.GetOr(Inactive)
    ensures d.modifiedAt == Some(f.latestStatusCreatedAt.GetOr(now))
    ensures d.workflowRunId.None?
  {
    Deployment(f.id, f.createdAt, f.environment.GetOr(""), f.state.GetOr(Inactive),
      Some(f.latestStatusCreatedAt.GetOr(now)), None)
  }

  /** `!!x` on a possibly null value. */
  predicate IsPresent<T>(x: Option<T>) {
    x.Some?
  }

  function Wrap<T>(x: T): Option<T> {
    Some(x)
  }

  /** The non-null nodes (`PresentNodesInOrder` states their order). */
  function PresentNodes(nodes: seq<Option<DeployFragment>>): (r: seq<DeployFragment>)
    ensures forall f :: f in r <==> Some(f) in nodes
    decreases |nodes|
  {
    if |nodes| == 0 then []
    else
      assert nodes == [nodes[0]] + nodes[1..];
      (if nodes[0].Some? then [nodes[0].value] else []) + PresentNodes(nodes[1..])
  }

  /**
   * The non-null nodes keep their order and their repeats: wrapped again,
   * they are exactly what `filter(node => !!node)` keeps.
   */
  lemma {:induction false} PresentNodesInOrder(nodes: seq<Option<DeployFragment>>)
    ensures MapSeq(PresentNodes(nodes), Wrap) == Filter(nodes, IsPresent)
    decreases |nodes|
  {
    if |nodes| > 0 {
      var head := if nodes[0].Some? then [nodes[0].value] else [];
      PresentNodesInOrder(nodes[1..]);
      MapSeqAppend(head, PresentNodes(nodes[1..]), Wrap);
      assert MapSeq(head, Wrap) == if IsPresent(nodes[0]) then [nodes[0]] else [];
    }
  }

  function DeploymentNewestFirst(d: Deployment): Key {
    [-d.createdAt]
  }

  /** The deployments of a commit: null nodes skipped, mapped, ordered by `createdAt` descending. */
  function CommitDeployments(nodes: Option<seq<Option<DeployFragment>>>, now: int): (r: seq<Deployment>)
    ensures multiset(r) == multiset(MapSeq(PresentNodes(nodes.GetOr([])), f => ToDeployment(f, now)))
    ensures forall i, j :: 0 <= i < j < |r| ==> r[i].createdAt >= r[j].createdAt
  {
    var r := SortBy(MapSeq(PresentNodes(nodes.GetOr([])), f => ToDeployment(f, now)), DeploymentNewestFirst);
    forall i, j | 0 <= i < j < |r| ensures r[i].createdAt >= r[j].createdAt {
      KeyLeSingle(-r[i].createdAt, -r[j].createdAt);
    }
    r
  }

  /** A ref as a release: only a commit target makes one; the tag is the ref name, the date the push date if any. */
  function ToRelease(f: RefFragment, now: int): (r: Option<Release>)
    ensures r.Some? <==> f.target.Some? && f.target.value.CommitTarget?
    ensures r.Some? ==> r.value.id == f.id && r.value.name == f.name && r.value.tagName == f.name &&
                        r.value.createdAt == f.target.value.pushedDate.GetOr(f.target.value.committedDate) &&
                        r.value.commit == f.target.value.oid &&
                        r.value.deployments == CommitDeployments(f.target.value.deploymentNodes, now)
  {
    match f.target
    case Some(CommitTarget(pushed, committed, oid, nodes)) =>
      Some(Release(f.id, f.name, f.name, pushed.GetOr(committed), oid, CommitDeployments(nodes, now)))
    case _ => None
  }

  /** The releases of the refs with a commit target (`CommitReleasesInOrder` states their order). */
  function CommitReleases(refs: seq<RefFragment>, now: int): (r: seq<Release>)
    ensures |r| <= |refs|
    ensures forall x :: x in r <==> exists f :: f in refs && ToRelease(f, now) == Some(x)
    decreases |refs|
  {
    if |refs| == 0 then []
    else
      var rest := CommitReleases(refs[1..], now);
      var head := ToRelease(refs[0], now);
      var r := if head.Some? then [head.value] + rest else rest;
      forall x ensures x in r <==> exists f :: f in refs && ToRelease(f, now) == Some(x) {
        if x in r && !(x in rest) {
          assert ToRelease(refs[0], now) == Some(x);
        }
        if exists f :: f in refs && ToRelease(f, now) == Some(x) {
          var f :| f in refs && ToRelease(f, now) == Some(x);
          if f != refs[0] {
            assert f in refs[1..];
          }
        }
      }
      r
  }

  /**
   * The releases keep the refs' order and repeats: wrapped again, they are
   * exactly what `.map(toRelease).filter(n => !!n)` keeps.
   */
  lemma {:induction false} CommitReleasesInOrder(refs: seq<RefFragment>, now: int)
    ensures MapSeq(CommitReleases(refs, now), Wrap) == Filter(MapSeq(refs, f => ToRelease(f, now)), IsPresent)
    decreases |refs|
  {
    if |refs| > 0 {
      var mapped := MapSeq(refs, f => ToRelease(f, now));
      var head := ToRelease(refs[0], now);
      var released := if head.Some? then [head.value] else [];
      CommitReleasesInOrder(refs[1..], now);
      assert mapped[1..] == MapSeq(refs[1..], f => ToRelease(f, now));
      MapSeqAppend(released, CommitReleases(refs[1..], now), Wrap);
      assert MapSeq(released, Wrap) == if IsPresent(mapped[0]) then [mapped[0]] else [];
    }
  }

  /** `useFetchReleases`'s query: nothing without a repository, else the commit refs' releases. */
  function FetchReleases(repo: Option<Repo>, refs: Option<seq<RefFragment>>, now: int): (r: seq<Release>)
    ensures repo.None? ==> r == []
    ensures repo.Some? ==> r == CommitReleases(refs.GetOr([]), now)
  {
    if repo.None? then [] else CommitReleases(refs.GetOr([]), now)
  }

  /**
   * Every fetched release lists its deployments newest first, so the grid's
   * first matching deployment is the newest one to that environment.
   */
  lemma FetchedLatestIsNewest(repo: Option<Repo>, refs: Option<seq<RefFragment>>, now: int, r: Release, environment: string)
    requires r in FetchReleases(repo, refs, now)
    ensures var d := ReleasesTable.LatestDeployment(r.deployments, environment);
            d.Some? ==> forall k :: 0 <= k < |r.deployments| && r.deployments[k].environment == environment ==>
                          d.value.createdAt >= r.deployments[k].createdAt
  {
    var f :| f in refs.GetOr([]) && ToRelease(f, now) == Some(r);
    ReleasesTable.LatestDeploymentIsNewest(r.deployments, environment);
  }

  // ---- useFetchWorkflows

  function WorkflowName(w: Workflow): Key {
    Codes(w.name)
  }

  /** Nothing without a token or a repository; else the listed workflows ordered by name. */
  function FetchWorkflows(token: string, repo: Option<Repo>, listed: Option<seq<Workflow>>): (r: seq<Workflow>)
    ensures token == "" || repo.None? ==> r == []
    ensures token != "" && repo.Some? ==> multiset(r) == multiset(listed.GetOr([]))
    ensures forall i, j :: 0 <= i < j < |r| ==> KeyLe(Codes(r[i].name), Codes(r[j].name))
  {
    if token == "" || repo.None? then [] else SortBy(listed.GetOr([]), WorkflowName)
  }

  // ---- useFetchEnvironments

  /** One response of the environments endpoint: the `environments` payload and `total_count`, if present. */
  datatype EnvironmentsResponse = EnvironmentsResponse(environments: Option<Json>, totalCount: Option<int>)

  /** The environments a response contributes: its payload decoded, or none when it is absent or fails to decode. */
  function PageEnvironments(p: EnvironmentsResponse): (r: seq<GitHubEnvironment>)
    ensures p.environments.None? ==> r == []
    ensures p.environments.Some? && DecodeGitHubEnvironments(p.environments.value).Some? ==>
              r == DecodeGitHubEnvironments(p.environments.value).value
    ensures p.environments.Some? && DecodeGitHubEnvironments(p.environments.value).None? ==> r == []
  {
    if p.environments.Some? && Truthy(p.environments.value) then
      var decoded := DecodeGitHubEnvironments(p.environments.value);
      if decoded.Some? then decoded.value else []
    else []
  }

  /** The environments accumulated over some responses, in order. */
  function Accumulated(pages: seq<EnvironmentsResponse>): seq<GitHubEnvironment>
    decreases |pages|
  {
    if |pages| == 0 then [] else Accumulated(pages[..|pages| - 1]) + PageEnvironments(pages[|pages| - 1])
  }

  lemma AccumulatedStep(pages: seq<EnvironmentsResponse>, n: nat)
    requires n < |pages|
    ensures Accumulated(pages[..n + 1]) == Accumulated(pages[..n]) + PageEnvironments(pages[n])
  {
    assert pages[..n + 1][..n] == pages[..n];
  }

  /** `keepFetching = !!total_count && environments.length < total_count`. */
  predicate KeepFetching(p: EnvironmentsResponse, accumulated: nat) {
    p.totalCount.Some? && p.totalCount.value != 0 && accumulated < p.totalCount.value
  }

  /** Every response before the `calls`-th let the loop go on. */
  predicate ContinuedAfterEach(responses: seq<EnvironmentsResponse>, calls: nat) {
    forall k :: 1 <= k < calls && k <= |responses| ==> KeepFetching(responses[k - 1], |Accumulated(responses[..k])|)
  }

  lemma ContinuedStep(responses: seq<EnvironmentsResponse>, calls: nat)
    requires ContinuedAfterEach(responses, calls)
    requires calls == 0 || (calls <= |responses| && KeepFetching(responses[calls - 1], |Accumulated(responses[..calls])|))
    ensures ContinuedAfterEach(responses, calls + 1)
  {
  }

  /**
   * The query of `useFetchEnvironments`, over the responses the endpoint would
   * give in turn. Without a token or a repository nothing is requested. Else
   * requests go on while `KeepFetching` holds; `complete` is false when the
   * given responses ran out first.
   */
  method FetchEnvironments(token: string, repo: Option<Repo>, responses: seq<EnvironmentsResponse>)
    returns (environments: seq<GitHubEnvironment>, calls: nat, complete: bool)
    ensures token == "" || repo.None? ==> environments == [] && calls == 0 && complete
    ensures calls <= |responses|
    ensures token != "" && repo.Some? ==> environments == Accumulated(responses[..calls])
    ensures token != "" && repo.Some? && |responses| > 0 ==> calls >= 1
    ensures ContinuedAfterEach(responses, calls)
    ensures token != "" && repo.Some? ==> (complete <==> calls >= 1 && !KeepFetching(responses[calls - 1], |environments|))
    ensures !complete ==> calls == |responses|
  {
    if token == "" || repo.None? {
      return [], 0, true;
    }
    environments := [];
    calls := 0;
    var keepFetching := true;
    while keepFetching && calls < |responses|
      invariant calls <= |responses|
      invariant environments == Accumulated(responses[..calls])
      invariant ContinuedAfterEach(responses, calls)
      invariant keepFetching <==> calls == 0 || KeepFetching(responses[calls - 1], |environments|)
      decreases |responses| - calls
    {
      var response := responses[calls];
      environments := environments + PageEnvironments(response);
      AccumulatedStep(responses, calls);
      ContinuedStep(responses, calls);
      calls := calls + 1;
      keepFetching := KeepFetching(response, |environments|);
    }
    complete := !keepFetching;
  }

  // ---- useFetchRepos

  /** A repository node: id, name, owner login, and the default branch name when there is one. */
  datatype RepoFragment = RepoFragment(id: string, name: string, ownerLogin: string, defaultBranch: Option<string>)

  /** One page of the repositories query. */
  datatype ReposPage = ReposPage(nodes: Option<seq<RepoFragment>>, hasNextPage: bool, endCursor: Option<string>)

  /** `{id, name, owner: owner.login, defaultBranch: defaultBranchRef?.name ?? ''}`. */
  function ToRepo(f: RepoFragment): (r: Repo)
    ensures r.id == f.id && r.name == f.name && r.owner == f.ownerLogin
    ensures r.defaultBranch == f.defaultBranch.GetOr("")
  {
    Repo(f.id, f.name, f.ownerLogin, f.defaultBranch.GetOr(""))
  }

  function PageNodes(p: ReposPage): seq<RepoFragment> {
    p.nodes.GetOr([])
  }

  /** The nodes of some pages, one page after the other. */
  function AllNodes(pages: seq<ReposPage>): seq<RepoFragment>
    decreases |pages|
  {
    if |pages| == 0 then [] else AllNodes(pages[..|pages| - 1]) + PageNodes(pages[|pages| - 1])
  }

  /**
   * The query of `useFetchRepos`, over the pages the API would give in turn:
   * the first request has no cursor, each next one the previous page's end
   * cursor, and requests stop after a page without a next page; `complete` is
   * false when the given pages ran out first. `cursors` are the `after`
   * arguments sent.
   */
  method FetchRepos(pages: seq<ReposPage>) returns (repos: seq<Repo>, cursors: seq<Option<string>>, complete: bool)
    ensures |cursors| <= |pages|
    ensures |pages| > 0 ==> |cursors| >= 1 && cursors[0].None?
    ensures forall k :: 1 <= k < |cursors| ==> cursors[k] == pages[k - 1].endCursor && pages[k - 1].hasNextPage
    ensures repos == MapSeq(AllNodes(pages[..|cursors|]), ToRepo)
    ensures complete <==> |cursors| >= 1 && !pages[|cursors| - 1].hasNextPage
    ensures !complete ==> |cursors| == |pages|
  {
    var after: Option<string> := None;
    var keepFetching := true;
    var nodes: seq<RepoFragment> := [];
    cursors := [];
    while keepFetching && |cursors| < |pages|
      invariant |cursors| <= |pages|
      invariant |cursors| >= 1 ==> cursors[0].None?
      invariant forall k :: 1 <= k < |cursors| ==> cursors[k] == pages[k - 1].endCursor && pages[k - 1].hasNextPage
      invariant nodes == AllNodes(pages[..|cursors|])
      invariant keepFetching <==> |cursors| == 0 || pages[|cursors| - 1].hasNextPage
      invariant |cursors| >= 1 ==> after == pages[|cursors| - 1].endCursor
      invariant |cursors| == 0 ==> after.None?
      decreases |pages| - |cursors|
    {
      var page := pages[|cursors|];
      assert pages[..|cursors| + 1][..|cursors|] == pages[..|cursors|];
      cursors := cursors + [after];
      nodes := nodes + PageNodes(page);
      keepFetching := page.hasNextPage;
      after := page.endCursor;
    }
    repos := MapSeq(nodes, ToRepo);
    complete := !keepFetching;
  }
}
