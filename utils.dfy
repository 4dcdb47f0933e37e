/** `src/overmind/utils.ts`: the key of a pending deployment and the identity `createConfig`. */
module Utils {
  import opened Text

  /**
   * `getDeploymentId`: owner, repository, environment and release joined by `/`.
   * It starts with the owner and ends with the release.
   */
  function DeploymentId(owner: string, repo: string, environment: string, release: string): (id: string)
    ensures |id| == |owner| + |repo| + |environment| + |release| + 3
    ensures StartsWith(id, owner) && id[|owner|] == '/'
    ensures id[|id| - |release|..] == release && id[|id| - |release| - 1] == '/'
  {
    owner + "/" + repo + "/" + environment + "/" + release
  }

  /** The id is the `/`-join of its four parts. */
  lemma DeploymentIdIsJoin(owner: string, repo: string, environment: string, release: string)
    ensures DeploymentId(owner, repo, environment, release) == Join([owner, repo, environment, release], '/')
  {
    var parts := [owner, repo, environment, release];
    assert parts[1..] == [repo, environment, release];
    assert parts[1..][1..] == [environment, release];
    assert parts[1..][1..][1..] == [release];
    assert Join([release], '/') == release;
    assert Join([environment, release], '/') == environment + "/" + release;
    assert Join([repo, environment, release], '/') == repo + "/" + (environment + "/" + release);
  }

  /** When no part contains `/`, splitting the id on `/` gives back exactly the four parts. */
  lemma {:induction false} DeploymentIdSplit(owner: string, repo: string, environment: string, release: string)
    requires '/' !in owner && '/' !in repo && '/' !in environment && '/' !in release
    ensures Split(DeploymentId(owner, repo, environment, release), '/') == [owner, repo, environment, release]
  {
    DeploymentIdIsJoin(owner, repo, environment, release);
    SplitJoin([owner, repo, environment, release], '/');
  }

  /** Hence the id tells `/`-free arguments apart. */
  lemma DeploymentIdInjective(
    owner: string, repo: string, environment: string, release: string,
    owner': string, repo': string, environment': string, release': string)
    requires '/' !in owner && '/' !in repo && '/' !in environment && '/' !in release
    requires '/' !in owner' && '/' !in repo' && '/' !in environment' && '/' !in release'
    requires DeploymentId(owner, repo, environment, release) == DeploymentId(owner', repo', environment', release')
    ensures owner == owner' && repo == repo' && environment == environment' && release == release'
  {
    DeploymentIdSplit(owner, repo, environment, release);
    DeploymentIdSplit(owner', repo', environment', release');
  }

  /** `createConfig`: the configuration itself. */
  function CreateConfig<C>(config: C): (r: C)
    ensures r == config
  {
    config
  }
}
