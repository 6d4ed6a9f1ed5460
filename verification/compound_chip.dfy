/** One compound chip of the logger and its dose popover. A dose change is
    handed to the parent as the updated compound (`Some`), or not at all. */
module CompoundChip {
  import opened Wrappers
  import opened Schemas
  import Text

  const DosePresets: seq<string> := ["25mg", "50mg", "100mg", "200mg", "500mg", "1g"]

  datatype Chip = Chip(compound: Compound, isOpen: bool, customDose: string)

  /** A chip as first rendered: closed, its custom field holding the dose. */
  function Init(c: Compound): Chip {
    Chip(c, false, c.dose)
  }

  function EditCustom(chip: Chip, text: string): Chip {
    chip.(customDose := text)
  }

  /** A quick-select button: the dose becomes exactly the chosen string and
      the popover closes. */
  function SelectDose(chip: Chip, dose: string): (res: (Chip, Option<Compound>))
    ensures res.1 == Some(Compound(chip.compound.name, dose))
    ensures res.0 == chip.(isOpen := false)
  {
    (chip.(isOpen := false), Some(chip.compound.(dose := dose)))
  }

  /** The custom-dose button: a blank entry does nothing; otherwise the dose
      becomes the trimmed entry and the popover closes. */
  function CustomDose(chip: Chip): (res: (Chip, Option<Compound>))
    ensures Text.AllWhitespace(chip.customDose) ==> res == (chip, None)
    ensures !Text.AllWhitespace(chip.customDose) ==>
      && res.0 == chip.(isOpen := false)
      && res.1 == Some(Compound(chip.compound.name, Text.Trim(chip.customDose)))
    ensures res.1.Some? ==> res.1.value.dose != [] && Text.Stripped(chip.customDose, res.1.value.dose)
  {
    Text.TrimEmptyIffBlank(chip.customDose);
    var dose := Text.Trim(chip.customDose);
    if dose != "" then (chip.(isOpen := false), Some(chip.compound.(dose := dose))) else (chip, None)
  }

  /** Whatever the popover hands up keeps the compound's name, and with a
      named compound it satisfies the compound schema (a preset button or a
      non-blank custom dose is never empty). */
  lemma UpdatesAreValid(chip: Chip, i: nat)
    requires chip.compound.name != [] && i < |DosePresets|
    ensures var u := SelectDose(chip, DosePresets[i]).1.value;
      u.name == chip.compound.name && ValidCompound(u)
    ensures CustomDose(chip).1.Some? ==>
      CustomDose(chip).1.value.name == chip.compound.name && ValidCompound(CustomDose(chip).1.value)
  {
  }
}
