/** The sample catalogue and the sample presets shipped with the app. */
module SeedData {
  import opened Types

  function Active(name: string, dose: real, unit: Unit, color: string): CompoundDraft {
    CompoundDraft(name, dose, unit, color, true)
  }

  const SeedCompounds: seq<CompoundDraft> := [
    Active("Bupropion (Voxra)", 150.0, Mg, "#3b82f6"),
    Active("Escitalopram", 10.0, Mg, "#8b5cf6"),
    Active("Buspirone", 10.0, Mg, "#ec4899"),
    Active("Silexan", 160.0, Mg, "#a855f7"),
    Active("Mirtazapine", 7.5, Mg, "#6366f1"),
    Active("Hydroxyzine", 25.0, Mg, "#14b8a6"),
    Active("Alimemazine", 10.0, Mg, "#06b6d4"),
    Active("Inderal (Propranolol)", 30.0, Mg, "#0ea5e9"),
    Active("Pregabalin", 150.0, Mg, "#3b82f6"),
    Active("Bromantane", 75.0, Mg, "#10b981"),
    Active("Temgicoluril (Mebicar)", 300.0, Mg, "#22c55e"),
    Active("Emoxypine Succinate", 125.0, Mg, "#84cc16"),
    Active("Aniracetam", 750.0, Mg, "#eab308"),
    Active("L-Tyrosine", 500.0, Mg, "#f59e0b"),
    Active("Huperzine-A", 150.0, Mcg, "#f97316"),
    Active("Vitamin D", 1000.0, IU, "#fbbf24")
  ]

  const SeedPresets: seq<PresetDraft> := [
    PresetDraft("Morning Stack", [
      PresetItem("bupropion", 150.0), PresetItem("escitalopram", 10.0),
      PresetItem("buspirone", 10.0), PresetItem("silexan", 160.0),
      PresetItem("bromantane", 75.0), PresetItem("temgicoluril", 300.0),
      PresetItem("emoxypine", 125.0), PresetItem("vitamin-d", 1000.0)], "#3b82f6"),
    PresetDraft("Midday Stack", [
      PresetItem("buspirone", 10.0), PresetItem("temgicoluril", 300.0),
      PresetItem("emoxypine", 125.0), PresetItem("pregabalin", 150.0)], "#10b981"),
    PresetDraft("Evening/Night Stack", [
      PresetItem("buspirone", 10.0), PresetItem("mirtazapine", 7.5),
      PresetItem("pregabalin", 150.0)], "#6366f1"),
    PresetDraft("PRN Anxiety Relief", [
      PresetItem("hydroxyzine", 25.0), PresetItem("alimemazine", 10.0),
      PresetItem("inderal", 30.0)], "#ec4899"),
    PresetDraft("Nootropic Boost", [
      PresetItem("aniracetam", 750.0), PresetItem("l-tyrosine", 500.0)], "#eab308")
  ]

  /** Sixteen compounds, as the sample button's label announces; each is
      active, named, and has a positive default dose. */
  lemma SeedCompoundsWellFormed()
    ensures |SeedCompounds| == 16
    ensures forall i :: 0 <= i < |SeedCompounds| ==>
      SeedCompounds[i].isActive && SeedCompounds[i].defaultDose > 0.0 && SeedCompounds[i].name != ""
  {
  }

  /** Five presets, each with at least one dose item and every dose
      positive. */
  lemma SeedPresetsWellFormed()
    ensures |SeedPresets| == 5
    ensures forall i :: 0 <= i < |SeedPresets| ==> |SeedPresets[i].doseItems| > 0
    ensures forall i, j :: 0 <= i < |SeedPresets| && 0 <= j < |SeedPresets[i].doseItems| ==>
      SeedPresets[i].doseItems[j].dose > 0.0
  {
  }
}
