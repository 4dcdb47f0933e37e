/**
 * The application settings of `src/state/index.ts`: their defaults and
 * descriptions, the per-key selectors that read and replace one field, and
 * the settings atom that starts from what browser storage holds and writes
 * every new value back.
 */
module SettingsState {
  import opened Wrappers
  import opened Json
  import opened Schemas

  /** `defaultAppSettings`. */
  const DefaultAppSettings := AppSettings(60, 60, 100)

  /** The storage key the atom reads and writes. */
  const StorageKey := "appSettings"

  /** The keys of the settings record. */
  datatype SettingsKey = DeployTimeoutSecs | RefreshIntervalSecs | WorkflowRuns

  /** `appSettingsDescription`: the form label of every key. */
  function Description(key: SettingsKey): (text: string)
    ensures text != ""
  {
    match key
    case DeployTimeoutSecs => "Deploy timeout (seconds)"
    case RefreshIntervalSecs => "Status refresh interval (seconds)"
    case WorkflowRuns => "Number of deploy runs to fetch (max 100)"
  }

  /** No two keys share a description. */
  lemma DescriptionsDistinct(a: SettingsKey, b: SettingsKey)
    requires a != b
    ensures Description(a) != Description(b)
  {
    assert Description(DeployTimeoutSecs)[0] == 'D';
    assert Description(RefreshIntervalSecs)[0] == 'S';
    assert Description(WorkflowRuns)[0] == 'N';
  }

  /** A per-key selector's `get`: that field of the settings. */
  function Get(s: AppSettings, key: SettingsKey): int {
    match key
    case DeployTimeoutSecs => s.deployTimeoutSecs
    case RefreshIntervalSecs => s.refreshIntervalSecs
    case WorkflowRuns => s.workflowRuns
  }

  /** A per-key selector's `set`: `{...settings, [key]: value}`. */
  function Set(s: AppSettings, key: SettingsKey, value: int): (r: AppSettings)
    ensures Get(r, key) == value
    ensures forall k :: k != key ==> Get(r, k) == Get(s, k)
  {
    match key
    case DeployTimeoutSecs => s.(deployTimeoutSecs := value)
    case RefreshIntervalSecs => s.(refreshIntervalSecs := value)
    case WorkflowRuns => s.(workflowRuns := value)
  }

  /** Settings that agree on every key are the same settings. */
  lemma SettingsExtensionality(s: AppSettings, t: AppSettings)
    requires forall k :: Get(s, k) == Get(t, k)
    ensures s == t
  {
    assert Get(s, DeployTimeoutSecs) == Get(t, DeployTimeoutSecs);
    assert Get(s, RefreshIntervalSecs) == Get(t, RefreshIntervalSecs);
    assert Get(s, WorkflowRuns) == Get(t, WorkflowRuns);
  }

  /** Setting a key to what it reads changes nothing; a second set of the same key wins over the first. */
  lemma SetGet(s: AppSettings, key: SettingsKey, a: int, b: int)
    ensures Set(s, key, Get(s, key)) == s
    ensures Set(Set(s, key, a), key, b) == Set(s, key, b)
  {
    SettingsExtensionality(Set(s, key, Get(s, key)), s);
    SettingsExtensionality(Set(Set(s, key, a), key, b), Set(s, key, b));
  }

  /**
   * The atom's initial value: what storage holds under `appSettings`, when
   * that is a non-empty string that parses as JSON and passes the settings
   * schema; the defaults in every other case.
   */
  function StoredSettings(stored: Option<JsonText>): (s: AppSettings)
    ensures stored.None? || !TextTruthy(stored.value) ==> s == DefaultAppSettings
    ensures stored.Some? && stored.value.Malformed? ==> s == DefaultAppSettings
    ensures stored.Some? && stored.value.Serialized? && DecodeAppSettings(stored.value.value).None? ==> s == DefaultAppSettings
    ensures stored.Some? && stored.value.Serialized? && DecodeAppSettings(stored.value.value).Some? ==>
              s == DecodeAppSettings(stored.value.value).value
  {
    if stored.Some? && TextTruthy(stored.value) then
      var parsed := ParseText(stored.value);
      if parsed.Some? then DecodeAppSettings(parsed.value).GetOr(DefaultAppSettings) else DefaultAppSettings
    else DefaultAppSettings
  }

  /** What `onSet` writes: the settings as JSON text. */
  function Written(s: AppSettings): JsonText {
    Serialized(EncodeAppSettings(s))
  }

  /** Settings written back are read back unchanged by the next start. */
  lemma WrittenSettingsReload(s: AppSettings)
    ensures StoredSettings(Some(Written(s))) == s
  {
  }

  /**
   * The `appSettingsState` atom over browser storage: `value` is the current
   * settings and `localStorage` the texts stored by key.
   */
  class SettingsAtom {
    var value: AppSettings
    var localStorage: map<string, JsonText>

    /** The atom effect at start: load what is stored, if it is usable. */
    constructor (localStorage: map<string, JsonText>)
      ensures this.localStorage == localStorage
      ensures value == StoredSettings(if StorageKey in localStorage then Some(localStorage[StorageKey]) else None)
    {
      this.localStorage := localStorage;
      value := StoredSettings(if StorageKey in localStorage then Some(localStorage[StorageKey]) else None);
    }

    /** Setting the atom; `onSet` writes the new value to storage. */
    method SetValue(newValue: AppSettings)
      modifies this
      ensures value == newValue
      ensures localStorage == old(localStorage)[StorageKey := Written(newValue)]
    {
      value := newValue;
      localStorage := localStorage[StorageKey := Written(newValue)];
    }

    /** A per-key selector's `get`. */
    function GetKey(key: SettingsKey): int
      reads this
    {
      Get(value, key)
    }

    /** A per-key selector's `set`: only that field changes, and the whole record is written back. */
    method SetKey(key: SettingsKey, newValue: int)
      modifies this
      ensures GetKey(key) == newValue
      ensures forall k :: k != key ==> GetKey(k) == old(GetKey(k))
      ensures localStorage == old(localStorage)[StorageKey := Written(value)]
    {
      SetValue(Set(value, key, newValue));
    }
  }
}
