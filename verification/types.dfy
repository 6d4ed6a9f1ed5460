/** Records of the local-first dashboard: the pharmacy catalogue, stack
    presets, dose-item logs and settings. Numbers that are not clocks are
    JavaScript numbers, hence `real`; `date` is a day number standing for the
    `YYYY-MM-DD` string. */
module Types {
  import opened Wrappers

  datatype Unit = Mg | Ml | G | Pills | Mcg | IU

  datatype Compound = Compound(
    id: string,
    name: string,
    defaultDose: real,
    unit: Unit,
    colorHex: string,
    isActive: bool,
    createdAt: int)

  datatype DoseItem = DoseItem(compoundId: string, dose: real, timestamp: int)

  /** A dose inside a preset: a dose item without a timestamp. */
  datatype PresetItem = PresetItem(compoundId: string, dose: real)

  datatype StackPreset = StackPreset(
    id: string,
    name: string,
    doseItems: seq<PresetItem>,
    colorHex: string,
    createdAt: int)

  datatype LogEntry = LogEntry(
    id: string,
    date: int,
    timestamp: int,
    doseItems: seq<DoseItem>,
    anxiety: real,
    functionality: real,
    notes: string,
    presetId: Option<string>)

  datatype Theme = Cyberpunk | Clinical

  datatype AppSettings = AppSettings(geminiApiKey: string, theme: Theme)

  /** The argument of `addCompound`: a compound without `id` and `createdAt`. */
  datatype CompoundDraft = CompoundDraft(
    name: string,
    defaultDose: real,
    unit: Unit,
    colorHex: string,
    isActive: bool)

  /** The argument of `addPreset`: a preset without `id` and `createdAt`. */
  datatype PresetDraft = PresetDraft(name: string, doseItems: seq<PresetItem>, colorHex: string)

  /** The argument of `addLog`: a log entry without `id` and `timestamp`. */
  datatype LogDraft = LogDraft(
    date: int,
    doseItems: seq<DoseItem>,
    anxiety: real,
    functionality: real,
    notes: string,
    presetId: Option<string>)

  /** `Partial<Compound>`: each field present (`Some`) or absent. */
  datatype CompoundPatch = CompoundPatch(
    id: Option<string>,
    name: Option<string>,
    defaultDose: Option<real>,
    unit: Option<Unit>,
    colorHex: Option<string>,
    isActive: Option<bool>,
    createdAt: Option<int>)

  datatype PresetPatch = PresetPatch(
    id: Option<string>,
    name: Option<string>,
    doseItems: Option<seq<PresetItem>>,
    colorHex: Option<string>,
    createdAt: Option<int>)

  datatype LogPatch = LogPatch(
    id: Option<string>,
    date: Option<int>,
    timestamp: Option<int>,
    doseItems: Option<seq<DoseItem>>,
    anxiety: Option<real>,
    functionality: Option<real>,
    notes: Option<string>,
    presetId: Option<Option<string>>)

  datatype SettingsPatch = SettingsPatch(geminiApiKey: Option<string>, theme: Option<Theme>)

  /** `{ ...c, ...p }` for compounds. */
  function MergeCompound(c: Compound, p: CompoundPatch): Compound {
    Compound(p.id.GetOr(c.id), p.name.GetOr(c.name), p.defaultDose.GetOr(c.defaultDose),
             p.unit.GetOr(c.unit), p.colorHex.GetOr(c.colorHex), p.isActive.GetOr(c.isActive),
             p.createdAt.GetOr(c.createdAt))
  }

  function MergePreset(s: StackPreset, p: PresetPatch): StackPreset {
    StackPreset(p.id.GetOr(s.id), p.name.GetOr(s.name), p.doseItems.GetOr(s.doseItems),
                p.colorHex.GetOr(s.colorHex), p.createdAt.GetOr(s.createdAt))
  }

  function MergeLog(l: LogEntry, p: LogPatch): LogEntry {
    LogEntry(p.id.GetOr(l.id), p.date.GetOr(l.date), p.timestamp.GetOr(l.timestamp),
             p.doseItems.GetOr(l.doseItems), p.anxiety.GetOr(l.anxiety),
             p.functionality.GetOr(l.functionality), p.notes.GetOr(l.notes),
             p.presetId.GetOr(l.presetId))
  }

  function MergeSettings(s: AppSettings, p: SettingsPatch): AppSettings {
    AppSettings(p.geminiApiKey.GetOr(s.geminiApiKey), p.theme.GetOr(s.theme))
  }

  /** The patch that only sets `isActive`. */
  function ActivePatch(isActive: bool): CompoundPatch {
    CompoundPatch(None, None, None, None, None, Some(isActive), None)
  }
}
