/** The storage selector: which adapter the app talks to. Remote availability
    is an input, and the persisted preference is the optional string stored
    under the preference key. */
module Provider {
  import opened Wrappers

  const PreferenceKey: string := "storage-mode"

  datatype Mode = Local | Supabase

  /** The adapters differ only in the mode they serve. */
  datatype Adapter = LocalStorageAdapter | SupabaseAdapter

  function AdapterMode(a: Adapter): Mode {
    match a
    case LocalStorageAdapter => Local
    case SupabaseAdapter => Supabase
  }

  function ModeName(m: Mode): string {
    match m
    case Local => "local"
    case Supabase => "supabase"
  }

  datatype Context = Context(adapter: Adapter, mode: Mode, isReady: bool)

  /** The state on mount, before detection has run. */
  const Mounted: Context := Context(LocalStorageAdapter, Local, false)

  /** The effect of `detectStorageMode`: the remote backend is used when it is
      available and the stored preference is anything but "local". */
  function Detect(remoteAvailable: bool, preference: Option<string>): (c: Context)
    ensures c.isReady
    ensures AdapterMode(c.adapter) == c.mode
    ensures !remoteAvailable ==> c.mode == Local
    ensures remoteAvailable ==> (c.mode == Local <==> preference == Some("local"))
  {
    if remoteAvailable && preference != Some("local") then Context(SupabaseAdapter, Supabase, true)
    else Context(LocalStorageAdapter, Local, true)
  }

  /** `switchMode`: refused (nothing changes, nothing persisted) when asked
      for the remote backend while it is unavailable; otherwise the mode and
      its adapter are set and the mode's name is persisted. Returns the new
      context and the new preference. */
  function SwitchMode(c: Context, preference: Option<string>, newMode: Mode, remoteAvailable: bool): (res: (Context, Option<string>))
    ensures newMode == Supabase && !remoteAvailable ==> res == (c, preference)
    ensures !(newMode == Supabase && !remoteAvailable) ==>
      && res.0.mode == newMode && AdapterMode(res.0.adapter) == newMode
      && res.0.isReady == c.isReady
      && res.1 == Some(ModeName(newMode))
  {
    if newMode == Supabase && !remoteAvailable then (c, preference)
    else
      var adapter := if newMode == Local then LocalStorageAdapter else SupabaseAdapter;
      (Context(adapter, newMode, c.isReady), Some(ModeName(newMode)))
  }

  /** A mode chosen by a successful switch survives a reload with the same
      availability: detection reads back the persisted preference and picks
      that mode again. */
  lemma SwitchThenDetect(c: Context, preference: Option<string>, newMode: Mode, remoteAvailable: bool)
    requires !(newMode == Supabase && !remoteAvailable)
    ensures var (c', pref') := SwitchMode(c, preference, newMode, remoteAvailable);
      Detect(remoteAvailable, pref').mode == c'.mode
  {
  }

  /** Before detection the local adapter is in use and the context is not
      ready; after it, the context is ready. */
  lemma MountedThenDetected(remoteAvailable: bool, preference: Option<string>)
    ensures Mounted.adapter == LocalStorageAdapter && !Mounted.isReady
    ensures Detect(remoteAvailable, preference).isReady
  {
  }
}
