/**
 * `src/overmind/onInitialize.ts`: four state values are synced with browser
 * storage. At start each one stored (and truthy) is loaded into the state:
 * the token as it is, the applications and the pending deployments decoded
 * (an empty map when they fail the schema), the pending deployments then
 * pruned to those created before one minute from now. On every change a
 * reaction runs the value's hook and then saves the value under the key
 * derived from the selector's source text.
 */
module OnInitialize {
  import opened Wrappers
  import opened Text
  import opened Json
  import opened Dates
  import opened Schemas
  import opened Actions

  /** The key `sync` saves a value under: `getState.toString().replace(/^.*?\./, 'gdc.')`. */
  function StorageKey(selector: string): (key: string)
    ensures forall i :: 0 <= i < |selector| && selector[i] == '.' &&
                        (forall j :: 0 <= j < i ==> selector[j] != '.' && !LineTerminator(selector[j])) ==>
              key == "gdc." + selector[i + 1..]
    ensures '.' !in selector ==> key == selector
  {
    ReplaceLeadingDot(selector, "gdc.")
  }

  /** The source text of the four synced selectors. */
  const TokenSelector := StateFieldSelector("token")
  const ApplicationsSelector := StateFieldSelector("applicationsById")
  const SelectedIdSelector := StateFieldSelector("selectedApplicationId")
  const PendingSelector := StateFieldSelector("pendingDeployments")

  const TokenKey := "gdc." + "token"
  const ApplicationsKey := "gdc." + "applicationsById"
  const SelectedIdKey := "gdc." + "selectedApplicationId"
  const PendingKey := "gdc." + "pendingDeployments"

  /** The selectors' texts give these keys, one per synced value. */
  lemma SyncKeys()
    ensures StorageKey(TokenSelector) == TokenKey
    ensures StorageKey(ApplicationsSelector) == ApplicationsKey
    ensures StorageKey(SelectedIdSelector) == SelectedIdKey
    ensures StorageKey(PendingSelector) == PendingKey
    ensures TokenKey != ApplicationsKey && TokenKey != SelectedIdKey && TokenKey != PendingKey
    ensures ApplicationsKey != SelectedIdKey && ApplicationsKey != PendingKey && SelectedIdKey != PendingKey
  {
    KeyOfStateField("token");
    KeyOfStateField("applicationsById");
    KeyOfStateField("selectedApplicationId");
    KeyOfStateField("pendingDeployments");
    assert |TokenKey| == 9 && |ApplicationsKey| == 20 && |SelectedIdKey| == 25 && |PendingKey| == 22;
  }

  /** The source text of the selector of a state field. */
  function StateFieldSelector(field: string): string {
    "(state) => state." + field
  }

  /** The selector of a state field gives the key `gdc.<field>`. */
  lemma KeyOfStateField(field: string)
    ensures StorageKey(StateFieldSelector(field)) == "gdc." + field
  {
    var selector := StateFieldSelector(field);
    var p := "(state) => state";
    assert selector[..16] == p && selector[16] == '.' && selector[17..] == field;
    forall j | 0 <= j < 16 ensures selector[j] != '.' && !LineTerminator(selector[j]) {
      assert selector[j] == p[j];
      assert j == 0 || j == 1 || j == 2 || j == 3 || j == 4 || j == 5 || j == 6 || j == 7 ||
             j == 8 || j == 9 || j == 10 || j == 11 || j == 12 || j == 13 || j == 14 || j == 15;
    }
  }

  /** `if (value)`: a value is loaded only when one is stored and it is truthy. */
  function Loaded(stored: Option<Json>): (value: Option<Json>)
    ensures value.Some? <==> stored.Some? && Truthy(stored.value)
    ensures value.Some? ==> value == stored
  {
    if stored.Some? && Truthy(stored.value) then stored else None
  }

  /** `state.token = token || ''` for a loaded value: a stored string is the token. */
  function TokenOnLoad(value: Json): (token: string)
    ensures value.JStr? ==> token == value.s
    ensures !Truthy(value) ==> token == ""
  {
    if value.JStr? then value.s else ""
  }

  /** The stored applications, or none when they fail the schema. */
  function ApplicationsOnLoad(value: Json): (apps: map<string, ApplicationConfig>)
    ensures DecodeApplicationsById(value).Some? ==> apps == DecodeApplicationsById(value).value
    ensures DecodeApplicationsById(value).None? ==> apps == map[]
  {
    DecodeApplicationsById(value).GetOr(map[])
  }

  /** The stored selected id: a stored string. */
  function SelectedIdOnLoad(value: Json): (id: string)
    ensures value.JStr? ==> id == value.s
  {
    if value.JStr? then value.s else ""
  }

  /** The prune's test: `dayjs(createdAt).isBefore(now + 60 seconds)`; an invalid date fails it. */
  predicate Kept(p: PendingDeployment, now: int) {
    ParseDate(p.createdAt).Some? && ParseDate(p.createdAt).value < now + 60000
  }

  /** `pickBy`: the entries that pass the test, unchanged. */
  function Prune(pending: map<string, PendingDeployment>, now: int): (kept: map<string, PendingDeployment>)
    ensures forall k :: k in kept <==> k in pending && Kept(pending[k], now)
    ensures forall k :: k in kept ==> kept[k] == pending[k]
  {
    map k | k in pending && Kept(pending[k], now) :: pending[k]
  }

  /** The stored pending deployments, decoded (none when they fail the schema), then pruned. */
  function PendingOnLoad(value: Json, now: int): (pending: map<string, PendingDeployment>)
    ensures DecodePendingDeployments(value).None? ==> pending == map[]
    ensures DecodePendingDeployments(value).Some? ==> pending == Prune(DecodePendingDeployments(value).value, now)
  {
    Prune(DecodePendingDeployments(value).GetOr(map[]), now)
  }

  /** Pruning twice at the same instant prunes nothing more. */
  lemma PruneIdempotent(pending: map<string, PendingDeployment>, now: int)
    ensures Prune(Prune(pending, now), now) == Prune(pending, now)
  {
  }

  /**
   * The prune is no expiry: a deployment recorded at any instant before one
   * minute from now is kept, however long ago that was; one recorded a
   * minute or more ahead is dropped.
   */
  lemma PruneByRecordedInstant(pending: map<string, PendingDeployment>, now: int, k: string, recordedAt: nat)
    requires k in pending && pending[k].createdAt == FormatDate(recordedAt)
    ensures k in Prune(pending, now) <==> recordedAt < now + 60000
  {
    ParseFormat(recordedAt);
  }

  /** A dispatch recorded at `recordedAt` and saved is still pending when the application starts again within the minute after it, or at any later start. */
  lemma RecordedPendingSurvivesReload(
    pending: map<string, PendingDeployment>, repo: Repo, environmentName: string, release: string,
    recordedAt: nat, now: int)
    requires recordedAt < now + 60000
    ensures var recorded := RecordPending(pending, repo, environmentName, release, recordedAt);
            var reloaded := PendingOnLoad(EncodePendingDeployments(recorded), now);
            Utils.DeploymentId(repo.owner, repo.name, environmentName, release) in reloaded &&
            reloaded[Utils.DeploymentId(repo.owner, repo.name, environmentName, release)] == PendingDeployment(FormatDate(recordedAt), None)
  {
    var recorded := RecordPending(pending, repo, environmentName, release, recordedAt);
    PruneByRecordedInstant(recorded, now, Utils.DeploymentId(repo.owner, repo.name, environmentName, release), recordedAt);
  }

  /** Saved workflow applications load back as they were. */
  lemma ApplicationsSurviveReload(apps: map<string, ApplicationConfig>)
    requires AllWorkflow(apps)
    ensures Loaded(Some(EncodeApplicationsById(apps))).Some?
    ensures ApplicationsOnLoad(EncodeApplicationsById(apps)) == apps
  {
  }

  /** What the reactions did, in order: hand the token to the API clients, or save a value. */
  datatype Effect = TokenToClients(token: string) | Saved(key: string, value: Json)

  /** The storage effect: the values saved by key, and the log of effects. */
  class Storage {
    var values: map<string, Json>
    var log: seq<Effect>

    /** `storage.load(key)`: `None` when nothing is stored. */
    function Load(key: string): Option<Json>
      reads this
    {
      if key in values then Some(values[key]) else None
    }

    method Save(key: string, value: Json)
      modifies this
      ensures values == old(values)[key := value]
      ensures log == old(log) + [Saved(key, value)]
    {
      values := values[key := value];
      log := log + [Saved(key, value)];
    }
  }

  /**
   * The loads of `onInitializeOvermind`: every synced value stored and truthy
   * replaces the state's; nothing else in the state changes.
   */
  method LoadState(state: AppState, storage: Storage, now: int)
    modifies state
    ensures var v := Loaded(storage.Load(TokenKey));
            state.token == if v.Some? then TokenOnLoad(v.value) else old(state.token)
    ensures var v := Loaded(storage.Load(ApplicationsKey));
            state.applicationsById == if v.Some? then ApplicationsOnLoad(v.value) else old(state.applicationsById)
    ensures var v := Loaded(storage.Load(SelectedIdKey));
            state.selectedApplicationId == if v.Some? then SelectedIdOnLoad(v.value) else old(state.selectedApplicationId)
    ensures var v := Loaded(storage.Load(PendingKey));
            state.pendingDeployments == if v.Some? then PendingOnLoad(v.value, now) else old(state.pendingDeployments)
    ensures state.Value() == old(state.Value()).(
              token := state.token,
              applicationsById := state.applicationsById,
              selectedApplicationId := state.selectedApplicationId,
              pendingDeployments := state.pendingDeployments)
  {
    var token := Loaded(storage.Load(TokenKey));
    if token.Some? {
      state.token := TokenOnLoad(token.value);
    }
    var apps := Loaded(storage.Load(ApplicationsKey));
    if apps.Some? {
      state.applicationsById := ApplicationsOnLoad(apps.value);
    }
    var id := Loaded(storage.Load(SelectedIdKey));
    if id.Some? {
      state.selectedApplicationId := SelectedIdOnLoad(id.value);
    }
    var pending := Loaded(storage.Load(PendingKey));
    if pending.Some? {
      state.pendingDeployments := PendingOnLoad(pending.value, now);
    }
  }

  /** The token's reaction: the API clients get the new token, then it is saved. */
  method TokenChanged(state: AppState, storage: Storage)
    modifies storage
    ensures storage.values == old(storage.values)[TokenKey := JStr(state.token)]
    ensures storage.log == old(storage.log) + [TokenToClients(state.token), Saved(TokenKey, JStr(state.token))]
  {
    storage.log := storage.log + [TokenToClients(state.token)];
    storage.Save(TokenKey, JStr(state.token));
  }

  /** The applications' reaction: save them. */
  method ApplicationsChanged(state: AppState, storage: Storage)
    modifies storage
    ensures storage.values == old(storage.values)[ApplicationsKey := EncodeApplicationsById(state.applicationsById)]
    ensures storage.log == old(storage.log) + [Saved(ApplicationsKey, EncodeApplicationsById(state.applicationsById))]
  {
    storage.Save(ApplicationsKey, EncodeApplicationsById(state.applicationsById));
  }

  /** The selected id's reaction: save it. */
  method SelectedIdChanged(state: AppState, storage: Storage)
    modifies storage
    ensures storage.values == old(storage.values)[SelectedIdKey := JStr(state.selectedApplicationId)]
    ensures storage.log == old(storage.log) + [Saved(SelectedIdKey, JStr(state.selectedApplicationId))]
  {
    storage.Save(SelectedIdKey, JStr(state.selectedApplicationId));
  }

  /** The pending deployments' reaction: save them. */
  method PendingChanged(state: AppState, storage: Storage)
    modifies storage
    ensures storage.values == old(storage.values)[PendingKey := EncodePendingDeployments(state.pendingDeployments)]
    ensures storage.log == old(storage.log) + [Saved(PendingKey, EncodePendingDeployments(state.pendingDeployments))]
  {
    storage.Save(PendingKey, EncodePendingDeployments(state.pendingDeployments));
  }
}
