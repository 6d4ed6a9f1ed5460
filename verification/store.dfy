/** The persisted application store of the local-first dashboard: a PIN lock
    and four collections, with every action as a pure state transition.
    Identifiers and clock readings, which the store draws from `Date.now()`
    and `Math.random()`, are parameters. */
module Store {
  import opened Wrappers
  import opened Types
  import Seqs

  datatype AppState = AppState(
    pin: Option<string>,
    isAuthenticated: bool,
    compounds: seq<Compound>,
    stackPresets: seq<StackPreset>,
    logEntries: seq<LogEntry>,
    settings: AppSettings)

  const InitialState: AppState :=
    AppState(None, false, [], [], [], AppSettings("", Cyberpunk))

  /** The four data collections agree (the PIN lock may differ). */
  predicate SameData(a: AppState, b: AppState) {
    && a.compounds == b.compounds
    && a.stackPresets == b.stackPresets
    && a.logEntries == b.logEntries
    && a.settings == b.settings
  }

  // ---------------------------------------------------------------- auth

  function SetPin(s: AppState, pin: string): (r: AppState)
    ensures r.pin == Some(pin) && r.isAuthenticated
    ensures SameData(r, s)
  {
    s.(pin := Some(pin), isAuthenticated := true)
  }

  /** Unlocks exactly when `pin` equals the stored PIN; a missing PIN never
      matches. A failed attempt changes nothing. */
  function Authenticate(s: AppState, pin: string): (res: (bool, AppState))
    ensures res.0 <==> s.pin == Some(pin)
    ensures res.0 ==> res.1.isAuthenticated && res.1.pin == s.pin && SameData(res.1, s)
    ensures !res.0 ==> res.1 == s
  {
    if s.pin == Some(pin) then (true, s.(isAuthenticated := true)) else (false, s)
  }

  /** Locks the app again; the PIN and all data stay. */
  function Logout(s: AppState): (r: AppState)
    ensures !r.isAuthenticated && r.pin == s.pin && SameData(r, s)
  {
    s.(isAuthenticated := false)
  }

  /** After setting a PIN, exactly that PIN unlocks the store again. */
  lemma PinRoundTrip(s: AppState, pin: string, attempt: string)
    ensures Authenticate(Logout(SetPin(s, pin)), attempt).0 <==> attempt == pin
  {
  }

  // ----------------------------------------------------------- compounds

  function AddCompound(s: AppState, draft: CompoundDraft, id: string, now: int): (r: AppState)
    ensures |r.compounds| == |s.compounds| + 1
    ensures r.compounds[..|s.compounds|] == s.compounds
    ensures var c := r.compounds[|s.compounds|];
      && c.id == id && c.createdAt == now
      && c.name == draft.name && c.defaultDose == draft.defaultDose && c.unit == draft.unit
      && c.colorHex == draft.colorHex && c.isActive == draft.isActive
    ensures r == s.(compounds := r.compounds)
  {
    var c := Compound(id, draft.name, draft.defaultDose, draft.unit, draft.colorHex, draft.isActive, now);
    s.(compounds := s.compounds + [c])
  }

  function UpdateCompound(s: AppState, id: string, patch: CompoundPatch): (r: AppState)
    ensures |r.compounds| == |s.compounds|
    ensures forall i :: 0 <= i < |s.compounds| && s.compounds[i].id == id ==>
      r.compounds[i] == MergeCompound(s.compounds[i], patch)
    ensures forall i :: 0 <= i < |s.compounds| && s.compounds[i].id != id ==>
      r.compounds[i] == s.compounds[i]
    ensures r == s.(compounds := r.compounds)
  {
    s.(compounds := Seqs.ReplaceWhere(s.compounds, (c: Compound) => c.id == id,
                                       (c: Compound) => MergeCompound(c, patch)))
  }

  /** Drops the dose items that refer to compound `id` from a preset. */
  function StripPreset(p: StackPreset, id: string): StackPreset {
    p.(doseItems := Seqs.Filter(p.doseItems, (it: PresetItem) => it.compoundId != id))
  }

  /** Drops the dose items that refer to compound `id` from a log entry. */
  function StripLog(l: LogEntry, id: string): LogEntry {
    l.(doseItems := Seqs.Filter(l.doseItems, (it: DoseItem) => it.compoundId != id))
  }

  /** Removes a compound and every reference to it: presets and logs are all
      kept, each losing exactly its dose items for that compound, with the
      remaining items in their order. */
  function DeleteCompound(s: AppState, id: string): (r: AppState)
    ensures forall c :: c in r.compounds <==> c in s.compounds && c.id != id
    ensures forall c: Compound :: c.id != id ==> multiset(r.compounds)[c] == multiset(s.compounds)[c]
    ensures Seqs.IsSubseq(r.compounds, s.compounds)
    ensures |r.stackPresets| == |s.stackPresets|
    ensures forall i :: 0 <= i < |s.stackPresets| ==>
      && r.stackPresets[i] == s.stackPresets[i].(doseItems := r.stackPresets[i].doseItems)
      && (forall it :: it in r.stackPresets[i].doseItems <==>
            it in s.stackPresets[i].doseItems && it.compoundId != id)
      && (forall it: PresetItem :: it.compoundId != id ==>
            multiset(r.stackPresets[i].doseItems)[it] == multiset(s.stackPresets[i].doseItems)[it])
      && Seqs.IsSubseq(r.stackPresets[i].doseItems, s.stackPresets[i].doseItems)
    ensures |r.logEntries| == |s.logEntries|
    ensures forall i :: 0 <= i < |s.logEntries| ==>
      && r.logEntries[i] == s.logEntries[i].(doseItems := r.logEntries[i].doseItems)
      && (forall it :: it in r.logEntries[i].doseItems <==>
            it in s.logEntries[i].doseItems && it.compoundId != id)
      && (forall it: DoseItem :: it.compoundId != id ==>
            multiset(r.logEntries[i].doseItems)[it] == multiset(s.logEntries[i].doseItems)[it])
      && Seqs.IsSubseq(r.logEntries[i].doseItems, s.logEntries[i].doseItems)
    ensures r.pin == s.pin && r.isAuthenticated == s.isAuthenticated && r.settings == s.settings
  {
    s.(compounds := Seqs.Filter(s.compounds, (c: Compound) => c.id != id),
       stackPresets := seq(|s.stackPresets|, i requires 0 <= i < |s.stackPresets| => StripPreset(s.stackPresets[i], id)),
       logEntries := seq(|s.logEntries|, i requires 0 <= i < |s.logEntries| => StripLog(s.logEntries[i], id)))
  }

  /** After the cascade no preset and no log mentions the deleted compound. */
  lemma DeleteCompoundLeavesNoReference(s: AppState, id: string)
    ensures var r := DeleteCompound(s, id);
      && (forall c :: c in r.compounds ==> c.id != id)
      && (forall p, it :: p in r.stackPresets && it in p.doseItems ==> it.compoundId != id)
      && (forall l, it :: l in r.logEntries && it in l.doseItems ==> it.compoundId != id)
  {
    var r := DeleteCompound(s, id);
    forall p, it | p in r.stackPresets && it in p.doseItems
      ensures it.compoundId != id
    {
      var i :| 0 <= i < |r.stackPresets| && r.stackPresets[i] == p;
    }
    forall l, it | l in r.logEntries && it in l.doseItems
      ensures it.compoundId != id
    {
      var i :| 0 <= i < |r.logEntries| && r.logEntries[i] == l;
    }
  }

  // -------------------------------------------------------------- presets

  function AddPreset(s: AppState, draft: PresetDraft, id: string, now: int): (r: AppState)
    ensures |r.stackPresets| == |s.stackPresets| + 1
    ensures r.stackPresets[..|s.stackPresets|] == s.stackPresets
    ensures var p := r.stackPresets[|s.stackPresets|];
      && p.id == id && p.createdAt == now && p.name == draft.name
      && p.doseItems == draft.doseItems && p.colorHex == draft.colorHex
    ensures r == s.(stackPresets := r.stackPresets)
  {
    s.(stackPresets := s.stackPresets + [StackPreset(id, draft.name, draft.doseItems, draft.colorHex, now)])
  }

  function UpdatePreset(s: AppState, id: string, patch: PresetPatch): (r: AppState)
    ensures |r.stackPresets| == |s.stackPresets|
    ensures forall i :: 0 <= i < |s.stackPresets| && s.stackPresets[i].id == id ==>
      r.stackPresets[i] == MergePreset(s.stackPresets[i], patch)
    ensures forall i :: 0 <= i < |s.stackPresets| && s.stackPresets[i].id != id ==>
      r.stackPresets[i] == s.stackPresets[i]
    ensures r == s.(stackPresets := r.stackPresets)
  {
    s.(stackPresets := Seqs.ReplaceWhere(s.stackPresets, (p: StackPreset) => p.id == id,
                                          (p: StackPreset) => MergePreset(p, patch)))
  }

  function DeletePreset(s: AppState, id: string): (r: AppState)
    ensures forall p :: p in r.stackPresets <==> p in s.stackPresets && p.id != id
    ensures forall p: StackPreset :: p.id != id ==> multiset(r.stackPresets)[p] == multiset(s.stackPresets)[p]
    ensures Seqs.IsSubseq(r.stackPresets, s.stackPresets)
    ensures r == s.(stackPresets := r.stackPresets)
  {
    s.(stackPresets := Seqs.Filter(s.stackPresets, (p: StackPreset) => p.id != id))
  }

  // ----------------------------------------------------------------- logs

  function AddLog(s: AppState, draft: LogDraft, id: string, now: int): (r: AppState)
    ensures |r.logEntries| == |s.logEntries| + 1
    ensures r.logEntries[..|s.logEntries|] == s.logEntries
    ensures var l := r.logEntries[|s.logEntries|];
      && l.id == id && l.timestamp == now && l.date == draft.date
      && l.doseItems == draft.doseItems && l.anxiety == draft.anxiety
      && l.functionality == draft.functionality && l.notes == draft.notes
      && l.presetId == draft.presetId
    ensures r == s.(logEntries := r.logEntries)
  {
    var l := LogEntry(id, draft.date, now, draft.doseItems, draft.anxiety, draft.functionality,
                      draft.notes, draft.presetId);
    s.(logEntries := s.logEntries + [l])
  }

  function UpdateLog(s: AppState, id: string, patch: LogPatch): (r: AppState)
    ensures |r.logEntries| == |s.logEntries|
    ensures forall i :: 0 <= i < |s.logEntries| && s.logEntries[i].id == id ==>
      r.logEntries[i] == MergeLog(s.logEntries[i], patch)
    ensures forall i :: 0 <= i < |s.logEntries| && s.logEntries[i].id != id ==>
      r.logEntries[i] == s.logEntries[i]
    ensures r == s.(logEntries := r.logEntries)
  {
    s.(logEntries := Seqs.ReplaceWhere(s.logEntries, (l: LogEntry) => l.id == id,
                                        (l: LogEntry) => MergeLog(l, patch)))
  }

  function DeleteLog(s: AppState, id: string): (r: AppState)
    ensures forall l :: l in r.logEntries <==> l in s.logEntries && l.id != id
    ensures forall l: LogEntry :: l.id != id ==> multiset(r.logEntries)[l] == multiset(s.logEntries)[l]
    ensures Seqs.IsSubseq(r.logEntries, s.logEntries)
    ensures r == s.(logEntries := r.logEntries)
  {
    s.(logEntries := Seqs.Filter(s.logEntries, (l: LogEntry) => l.id != id))
  }

  /** `k` is the position `find` stops at: the first preset with that id. */
  predicate FirstWithId(ps: seq<StackPreset>, id: string, k: int) {
    && 0 <= k < |ps| && ps[k].id == id
    && forall j :: 0 <= j < k ==> ps[j].id != id
  }

  /** Logs the first preset with the given id: one new entry whose dose items
      copy the preset's compounds and doses in order, all stamped `now`. An
      unknown preset id changes nothing. */
  function LogPreset(s: AppState, presetId: string, anxiety: real, functionality: real,
                     notes: string, now: int, date: int, logId: string): (r: AppState)
    ensures (forall k :: 0 <= k < |s.stackPresets| ==> s.stackPresets[k].id != presetId) ==> r == s
    ensures forall k :: FirstWithId(s.stackPresets, presetId, k) ==>
      && r == s.(logEntries := r.logEntries)
      && |r.logEntries| == |s.logEntries| + 1
      && r.logEntries[..|s.logEntries|] == s.logEntries
      && var l := r.logEntries[|s.logEntries|];
      && var items := s.stackPresets[k].doseItems;
      && l.id == logId && l.date == date && l.timestamp == now
      && l.anxiety == anxiety && l.functionality == functionality && l.notes == notes
      && l.presetId == Some(presetId)
      && |l.doseItems| == |items|
      && (forall i :: 0 <= i < |items| ==>
            l.doseItems[i] == DoseItem(items[i].compoundId, items[i].dose, now))
  {
    match Seqs.IndexOf(s.stackPresets, (p: StackPreset) => p.id == presetId)
    case None => s
    case Some(k) =>
      var items := s.stackPresets[k].doseItems;
      var doses := seq(|items|, i requires 0 <= i < |items| => DoseItem(items[i].compoundId, items[i].dose, now));
      s.(logEntries := s.logEntries + [LogEntry(logId, date, now, doses, anxiety, functionality, notes, Some(presetId))])
  }

  // ------------------------------------------------------ data management

  /** A parsed backup: each key the object carries. Besides the four data
      collections, a file may carry `pin` and `isAuthenticated`, which the
      spread copies just the same. */
  datatype Bundle = Bundle(
    compounds: Option<seq<Compound>>,
    stackPresets: Option<seq<StackPreset>>,
    logEntries: Option<seq<LogEntry>>,
    settings: Option<AppSettings>,
    pin: Option<Option<string>>,
    isAuthenticated: Option<bool>)

  /** The object `exportData` returns. */
  datatype Backup = Backup(
    compounds: seq<Compound>,
    stackPresets: seq<StackPreset>,
    logEntries: seq<LogEntry>,
    settings: AppSettings)
  {
    /** The backup read back: exactly its four keys are present. */
    function AsBundle(): Bundle {
      Bundle(Some(compounds), Some(stackPresets), Some(logEntries), Some(settings), None, None)
    }
  }

  /** `{ ...state, ...data }`: each key present in the bundle overwrites the
      state's; every absent key keeps its value. */
  function ImportData(s: AppState, b: Bundle): (r: AppState)
    ensures b.compounds.Some? ==> r.compounds == b.compounds.value
    ensures b.compounds.None? ==> r.compounds == s.compounds
    ensures b.stackPresets.Some? ==> r.stackPresets == b.stackPresets.value
    ensures b.stackPresets.None? ==> r.stackPresets == s.stackPresets
    ensures b.logEntries.Some? ==> r.logEntries == b.logEntries.value
    ensures b.logEntries.None? ==> r.logEntries == s.logEntries
    ensures b.settings.Some? ==> r.settings == b.settings.value
    ensures b.settings.None? ==> r.settings == s.settings
    ensures b.pin.Some? ==> r.pin == b.pin.value
    ensures b.pin.None? ==> r.pin == s.pin
    ensures b.isAuthenticated.Some? ==> r.isAuthenticated == b.isAuthenticated.value
    ensures b.isAuthenticated.None? ==> r.isAuthenticated == s.isAuthenticated
  {
    AppState(b.pin.GetOr(s.pin), b.isAuthenticated.GetOr(s.isAuthenticated),
             b.compounds.GetOr(s.compounds), b.stackPresets.GetOr(s.stackPresets),
             b.logEntries.GetOr(s.logEntries), b.settings.GetOr(s.settings))
  }

  function ExportData(s: AppState): (b: Backup)
    ensures b.compounds == s.compounds && b.stackPresets == s.stackPresets
    ensures b.logEntries == s.logEntries && b.settings == s.settings
  {
    Backup(s.compounds, s.stackPresets, s.logEntries, s.settings)
  }

  /** Importing an export restores its four collections and leaves the PIN
      lock of the importing state alone; importing one's own export is the
      identity. */
  lemma ExportImportRoundTrip(s: AppState, t: AppState)
    ensures SameData(ImportData(t, ExportData(s).AsBundle()), s)
    ensures ImportData(t, ExportData(s).AsBundle()).pin == t.pin
    ensures ImportData(t, ExportData(s).AsBundle()).isAuthenticated == t.isAuthenticated
    ensures ImportData(s, ExportData(s).AsBundle()) == s
  {
  }

  /** `{ ...settings, ...patch }`: only the given fields change. */
  function UpdateSettings(s: AppState, patch: SettingsPatch): (r: AppState)
    ensures patch.geminiApiKey.Some? ==> r.settings.geminiApiKey == patch.geminiApiKey.value
    ensures patch.geminiApiKey.None? ==> r.settings.geminiApiKey == s.settings.geminiApiKey
    ensures patch.theme.Some? ==> r.settings.theme == patch.theme.value
    ensures patch.theme.None? ==> r.settings.theme == s.settings.theme
    ensures r == s.(settings := r.settings)
  {
    s.(settings := MergeSettings(s.settings, patch))
  }
}
