/**
 * The sound preference: a boolean that starts enabled, is restored from and
 * persisted to browser storage under one key as "true"/"false", and is
 * mirrored into a global mute flag (the mute function itself lives outside
 * this model, so its calls are recorded, not interpreted).
 */
module SoundPreference {
  import opened Base

  /** The storage key. */
  const StorageKey: string := "isSoundEnabled"

  /** Browser storage as a map from keys to strings. */
  type Storage = map<string, string>

  /** `String(b)` for a boolean. */
  function Serialise(b: bool): (s: string)
    ensures s == "true" || s == "false"
    ensures Parse(s) == b
  {
    if b then "true" else "false"
  }

  /** The stored string means "enabled" only when it is exactly "true". */
  predicate Parse(s: string) {
    s == "true"
  }

  /** Distinct preferences are stored as distinct strings. */
  lemma SerialiseInjective(a: bool, b: bool)
    requires Serialise(a) == Serialise(b)
    ensures a == b
  {
    assert Parse(Serialise(a)) == a && Parse(Serialise(b)) == b;
  }

  /** The provider's state: the flag, the mounted flag, storage and the global-mute calls issued. */
  datatype Provider = Provider(enabled: bool, mounted: bool, storage: Storage, muteCalls: seq<bool>)

  /** A freshly rendered provider over the given storage: enabled, not yet mounted. */
  function Fresh(storage: Storage): (p: Provider)
    ensures p.enabled && !p.mounted && p.storage == storage && p.muteCalls == []
  {
    Provider(true, false, storage, [])
  }

  /** The mount effect: adopt a stored preference if there is one, then mark the provider mounted. */
  function Load(p: Provider): (r: Provider)
    ensures r.mounted && r.storage == p.storage
    ensures StorageKey !in p.storage ==> r.enabled == p.enabled && r.muteCalls == p.muteCalls
    ensures StorageKey in p.storage ==> r.enabled == (p.storage[StorageKey] == "true")
    ensures StorageKey in p.storage ==> r.muteCalls == p.muteCalls + [!r.enabled]
  {
    if StorageKey in p.storage then
      var enabled := Parse(p.storage[StorageKey]);
      Provider(enabled, true, p.storage, p.muteCalls + [!enabled])
    else
      p.(mounted := true)
  }

  /** The persist effect: once mounted, write the flag and mirror it into the global mute. */
  function Persist(p: Provider): (r: Provider)
    ensures r.enabled == p.enabled && r.mounted == p.mounted
    ensures !p.mounted ==> r == p
    ensures p.mounted ==> r.storage == p.storage[StorageKey := Serialise(p.enabled)]
    ensures p.mounted ==> StorageKey in r.storage && Parse(r.storage[StorageKey]) == p.enabled
    ensures p.mounted ==> r.muteCalls == p.muteCalls + [!p.enabled]
    ensures forall k :: k in p.storage && k != StorageKey ==> k in r.storage && r.storage[k] == p.storage[k]
  {
    if !p.mounted then p
    else Provider(p.enabled, true, p.storage[StorageKey := Serialise(p.enabled)], p.muteCalls + [!p.enabled])
  }

  /** `setIsSoundEnabled(prev => !prev)`. */
  function Toggle(p: Provider): (r: Provider)
    ensures r.enabled != p.enabled
    ensures r.(enabled := p.enabled) == p
  {
    p.(enabled := !p.enabled)
  }

  /** Toggling twice restores the provider. */
  lemma ToggleTwice(p: Provider)
    ensures Toggle(Toggle(p)) == p
  {
    assert Toggle(p).(enabled := p.enabled) == p;
  }

  /** After every load that read a value, and after every persist, the last mute call negates the flag. */
  lemma MuteMirrorsFlag(p: Provider)
    ensures StorageKey in p.storage ==> Last(Load(p).muteCalls) == !Load(p).enabled
    ensures p.mounted ==> Last(Persist(p).muteCalls) == !Persist(p).enabled
  {
  }

  function Last(s: seq<bool>): bool {
    if s == [] then false else s[|s| - 1]
  }

  /** A preference persisted by a mounted provider is restored by the next page load. */
  lemma PreferenceSurvivesReload(p: Provider)
    requires p.mounted
    ensures Load(Fresh(Persist(p).storage)).enabled == p.enabled
  {
  }

  /** With nothing stored, the provider stays enabled after mounting and persists "true". */
  lemma DefaultIsEnabled(storage: Storage)
    requires StorageKey !in storage
    ensures Load(Fresh(storage)).enabled
    ensures Persist(Load(Fresh(storage))).storage[StorageKey] == "true"
  {
  }

  /** `n` clicks on the sound button, each followed by its persist effect. */
  function Clicks(p: Provider, n: nat): Provider
    decreases n
  {
    if n == 0 then p else Clicks(Persist(Toggle(p)), n - 1)
  }

  /**
   * After any number of clicks on a mounted provider the flag has flipped
   * once per click, storage holds it, and the global mute mirrors it.
   */
  lemma {:induction false} ClicksKeepStorageInSync(p: Provider, n: nat)
    requires p.mounted && n > 0
    ensures Clicks(p, n).mounted
    ensures Clicks(p, n).enabled == (if n % 2 == 0 then p.enabled else !p.enabled)
    ensures StorageKey in Clicks(p, n).storage && Parse(Clicks(p, n).storage[StorageKey]) == Clicks(p, n).enabled
    ensures Last(Clicks(p, n).muteCalls) == !Clicks(p, n).enabled
    decreases n
  {
    var q := Persist(Toggle(p));
    if n > 1 {
      ClicksKeepStorageInSync(q, n - 1);
    }
  }

  /** The value handed to consumers: the flag and its toggle. */
  datatype SoundContextValue = SoundContextValue(isSoundEnabled: bool)

  const OutsideProvider: string := "useSound must be used within a SoundProvider"

  /** `useSound`: the context value, or the error thrown outside a provider. */
  function UseSound(context: Option<SoundContextValue>): (r: Result<SoundContextValue>)
    ensures r.Err? <==> context.None?
    ensures r.Err? ==> r.message == OutsideProvider
    ensures r.Ok? ==> r.value == context.value
  {
    match context
    case None => Err(OutsideProvider)
    case Some(v) => Ok(v)
  }

  /** The provider component, its state updated in place by its effects and by the toggle. */
  class SoundProvider {
    var isSoundEnabled: bool
    var mounted: bool
    var storage: Storage
    /** Arguments passed to the global mute, in order. */
    var muteCalls: seq<bool>

    function State(): Provider
      reads this
    {
      Provider(isSoundEnabled, mounted, storage, muteCalls)
    }

    constructor (storage: Storage)
      ensures State() == Fresh(storage)
    {
      isSoundEnabled := true;
      mounted := false;
      this.storage := storage;
      muteCalls := [];
    }

    /** The mount effect. */
    method LoadEffect()
      modifies this
      ensures State() == Load(old(State()))
    {
      if StorageKey in storage {
        var stored := storage[StorageKey];
        var enabled := stored == "true";
        isSoundEnabled := enabled;
        muteCalls := muteCalls + [!enabled];
      }
      mounted := true;
    }

    /** The persist effect, re-run whenever the flag or the mounted flag changes. */
    method PersistEffect()
      modifies this
      ensures State() == Persist(old(State()))
    {
      if !mounted {
        return;
      }
      storage := storage[StorageKey := Serialise(isSoundEnabled)];
      muteCalls := muteCalls + [!isSoundEnabled];
    }

    /** `toggleSound`. */
    method ToggleSound()
      modifies this
      ensures State() == Toggle(old(State()))
    {
      isSoundEnabled := !isSoundEnabled;
    }
  }
}
