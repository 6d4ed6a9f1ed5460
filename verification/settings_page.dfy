/** The settings page's handlers: the compound and preset forms, the backup
    import, the sample catalogue, the active switch and the API key. Each
    acts on the store through its actions. */
module SettingsPage {
  import opened Wrappers
  import opened Types
  import Seqs
  import Text
  import Store
  import SeedData

  // ------------------------------------------------------- compound form

  datatype CompoundForm = CompoundForm(name: string, defaultDose: real, unit: Unit, colorHex: string, open: bool)

  /** The form's defaults, with its dialog closed. */
  const DefaultCompoundForm: CompoundForm := CompoundForm("", 100.0, Mg, "#3b82f6", false)

  /** `handleAddCompound`: a name that is blank once trimmed adds nothing and
      keeps the form; otherwise the compound is added active, under the name
      as typed, and the form returns to its defaults. */
  function HandleAddCompound(f: CompoundForm, s: Store.AppState, id: string, now: int): (res: (CompoundForm, Store.AppState))
    ensures Text.AllWhitespace(f.name) ==> res == (f, s)
    ensures !Text.AllWhitespace(f.name) ==>
      && res.0 == DefaultCompoundForm
      && res.1.compounds == s.compounds + [Compound(id, f.name, f.defaultDose, f.unit, f.colorHex, true, now)]
      && res.1 == s.(compounds := res.1.compounds)
  {
    Text.TrimEmptyIffBlank(f.name);
    if Text.Trim(f.name) == "" then (f, s)
    else
      var s' := Store.AddCompound(s, CompoundDraft(f.name, f.defaultDose, f.unit, f.colorHex, true), id, now);
      assert s'.compounds == s'.compounds[..|s.compounds|] + [s'.compounds[|s.compounds|]];
      (DefaultCompoundForm, s')
  }

  // --------------------------------------------------------- preset form

  datatype PresetForm = PresetForm(name: string, colorHex: string, selected: seq<PresetItem>, open: bool)

  const DefaultPresetForm: PresetForm := PresetForm("", "#10b981", [], false)

  /** `handleAddPreset`: nothing happens unless the name is non-blank and at
      least one compound is selected; then the preset is added with the
      selection in order and the form resets. */
  function HandleAddPreset(f: PresetForm, s: Store.AppState, id: string, now: int): (res: (PresetForm, Store.AppState))
    ensures Text.AllWhitespace(f.name) || f.selected == [] ==> res == (f, s)
    ensures !Text.AllWhitespace(f.name) && f.selected != [] ==>
      && res.0 == DefaultPresetForm
      && res.1.stackPresets == s.stackPresets + [StackPreset(id, f.name, f.selected, f.colorHex, now)]
      && res.1 == s.(stackPresets := res.1.stackPresets)
  {
    Text.TrimEmptyIffBlank(f.name);
    if Text.Trim(f.name) == "" || f.selected == [] then (f, s)
    else
      var s' := Store.AddPreset(s, PresetDraft(f.name, f.selected, f.colorHex), id, now);
      assert s'.stackPresets == s'.stackPresets[..|s.stackPresets|] + [s'.stackPresets[|s.stackPresets|]];
      (DefaultPresetForm, s')
  }

  function NotFor(compoundId: string): PresetItem -> bool {
    (it: PresetItem) => it.compoundId != compoundId
  }

  /** A compound's switch in the preset form: on appends it at its default
      dose, off removes every entry for it. */
  function SwitchCompound(f: PresetForm, c: Compound, checked: bool): (r: PresetForm)
    ensures checked ==> r.selected == f.selected + [PresetItem(c.id, c.defaultDose)]
    ensures !checked ==> forall it :: it in r.selected <==> it in f.selected && it.compoundId != c.id
    ensures !checked ==> forall it: PresetItem :: it.compoundId != c.id ==>
      multiset(r.selected)[it] == multiset(f.selected)[it]
    ensures !checked ==> Seqs.IsSubseq(r.selected, f.selected)
    ensures r == f.(selected := r.selected)
  {
    if checked then f.(selected := f.selected + [PresetItem(c.id, c.defaultDose)])
    else f.(selected := Seqs.Filter(f.selected, NotFor(c.id)))
  }

  /** Switching a compound on and off again restores the selection when it
      was not selected before. */
  lemma SwitchOnOff(f: PresetForm, c: Compound)
    requires forall it :: it in f.selected ==> it.compoundId != c.id
    ensures SwitchCompound(SwitchCompound(f, c, true), c, false) == f
  {
    Seqs.FilterConcat(f.selected, [PresetItem(c.id, c.defaultDose)], NotFor(c.id));
    Seqs.FilterAll(f.selected, NotFor(c.id));
    assert Seqs.Filter([PresetItem(c.id, c.defaultDose)], NotFor(c.id)) == [] by {
      assert [PresetItem(c.id, c.defaultDose)][1..] == [];
    }
  }

  /** The dose field of a selected compound: only that compound's entries
      take the typed number. */
  function EditPresetDose(f: PresetForm, compoundId: string, dose: real): (r: PresetForm)
    ensures |r.selected| == |f.selected|
    ensures forall i :: 0 <= i < |f.selected| && f.selected[i].compoundId == compoundId ==>
      r.selected[i] == PresetItem(compoundId, dose)
    ensures forall i :: 0 <= i < |f.selected| && f.selected[i].compoundId != compoundId ==>
      r.selected[i] == f.selected[i]
    ensures r == f.(selected := r.selected)
  {
    f.(selected := Seqs.ReplaceWhere(f.selected, (it: PresetItem) => it.compoundId == compoundId,
                                     (it: PresetItem) => it.(dose := dose)))
  }

  // -------------------------------------------------------------- import

  /** The chosen backup file as read: no file, text that does not parse,
      the JSON `null` (whose property access throws), or a parsed value seen
      through the keys the store knows. */
  datatype BackupFile = NoFile | Unparseable | NullValue | Value(bundle: Store.Bundle)

  const ParseError: string := "Failed to parse backup file"
  const FormatError: string := "Invalid backup file format"

  /** A parsed value counts as a backup when it carries compounds, presets or
      log entries (any array is truthy, even an empty one). */
  predicate LooksLikeBackup(b: Store.Bundle) {
    b.compounds.Some? || b.stackPresets.Some? || b.logEntries.Some?
  }

  /** `handleImport`, returning the new state and the shown import error. */
  function HandleImport(s: Store.AppState, error: string, f: BackupFile): (res: (Store.AppState, string))
    ensures f.NoFile? ==> res == (s, error)
    ensures f.Unparseable? || f.NullValue? ==> res == (s, ParseError)
    ensures f.Value? && !LooksLikeBackup(f.bundle) ==> res == (s, FormatError)
    ensures f.Value? && LooksLikeBackup(f.bundle) ==> res == (Store.ImportData(s, f.bundle), "")
    ensures res.1 == "" <==> (f.NoFile? && error == "") || (f.Value? && LooksLikeBackup(f.bundle))
  {
    match f
    case NoFile => (s, error)
    case Unparseable => (s, ParseError)
    case NullValue => (s, ParseError)
    case Value(b) => if LooksLikeBackup(b) then (Store.ImportData(s, b), "") else (s, FormatError)
  }

  /** A file written by the export is accepted and restores the exported
      collections, whatever state it is imported into. */
  lemma ExportedFileImports(s: Store.AppState, t: Store.AppState, error: string)
    ensures var (t', err) := HandleImport(t, error, Value(Store.ExportData(s).AsBundle()));
      err == "" && Store.SameData(t', s) && t'.pin == t.pin
  {
  }

  // ---------------------------------------------------------- samples

  function Built(d: CompoundDraft, id: string, now: int): Compound {
    Compound(id, d.name, d.defaultDose, d.unit, d.colorHex, d.isActive, now)
  }

  /** `addCompound` for each draft in turn, with the ids and clock readings
      each call draws. */
  function AddAll(s: Store.AppState, drafts: seq<CompoundDraft>, ids: seq<string>, stamps: seq<int>): (r: Store.AppState)
    requires |ids| == |drafts| && |stamps| == |drafts|
    ensures |r.compounds| == |s.compounds| + |drafts|
    ensures r.compounds[..|s.compounds|] == s.compounds
    ensures forall i :: 0 <= i < |drafts| ==> r.compounds[|s.compounds| + i] == Built(drafts[i], ids[i], stamps[i])
    ensures r == s.(compounds := r.compounds)
    decreases |drafts|
  {
    if |drafts| == 0 then s
    else
      var n := |drafts| - 1;
      var mid := AddAll(s, drafts[..n], ids[..n], stamps[..n]);
      var r := Store.AddCompound(mid, drafts[n], ids[n], stamps[n]);
      assert r.compounds[..|mid.compounds|] == mid.compounds;
      r
  }

  /** `handleLoadSampleData`: without confirmation nothing changes; with it
      the sixteen sample compounds are appended, in order, all active. */
  function HandleLoadSampleData(s: Store.AppState, confirmed: bool, ids: seq<string>, stamps: seq<int>): (r: Store.AppState)
    requires |ids| == |SeedData.SeedCompounds| && |stamps| == |SeedData.SeedCompounds|
    ensures !confirmed ==> r == s
    ensures confirmed ==>
      && |r.compounds| == |s.compounds| + 16
      && r.compounds[..|s.compounds|] == s.compounds
      && (forall i :: 0 <= i < 16 ==>
            r.compounds[|s.compounds| + i] == Built(SeedData.SeedCompounds[i], ids[i], stamps[i]))
      && (forall i :: |s.compounds| <= i < |r.compounds| ==> r.compounds[i].isActive)
      && r == s.(compounds := r.compounds)
  {
    if !confirmed then s
    else
      var r := AddAll(s, SeedData.SeedCompounds, ids, stamps);
      SeedData.SeedCompoundsWellFormed();
      assert forall i :: |s.compounds| <= i < |r.compounds| ==> r.compounds[i] == Built(SeedData.SeedCompounds[i - |s.compounds|], ids[i - |s.compounds|], stamps[i - |s.compounds|]);
      r
  }

  // ------------------------------------------------------ toggles, key

  /** `handleToggleCompound`: the compounds with the id change their active
      flag and nothing else; everything else stays. */
  function HandleToggleCompound(s: Store.AppState, id: string, isActive: bool): (r: Store.AppState)
    ensures |r.compounds| == |s.compounds|
    ensures forall i :: 0 <= i < |s.compounds| && s.compounds[i].id == id ==>
      r.compounds[i] == s.compounds[i].(isActive := isActive)
    ensures forall i :: 0 <= i < |s.compounds| && s.compounds[i].id != id ==>
      r.compounds[i] == s.compounds[i]
    ensures r == s.(compounds := r.compounds)
  {
    Store.UpdateCompound(s, id, ActivePatch(isActive))
  }

  /** `handleSaveApiKey`: sets the key and keeps the theme and all data. */
  function HandleSaveApiKey(s: Store.AppState, apiKey: string): (r: Store.AppState)
    ensures r.settings == s.settings.(geminiApiKey := apiKey)
    ensures r == s.(settings := r.settings)
  {
    Store.UpdateSettings(s, SettingsPatch(Some(apiKey), None))
  }
}
