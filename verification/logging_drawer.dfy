/** The manual log dialog: one dose input per active compound, stepped by
    buttons or edited directly, and a save that records the positive doses
    through the store. */
module LoggingDrawer {
  import opened Wrappers
  import opened Types
  import Seqs
  import Store

  datatype DoseInput = DoseInput(compoundId: string, dose: real)

  datatype Drawer = Drawer(inputs: seq<DoseInput>, anxiety: real, functionality: real, notes: string)

  const Fresh: Drawer := Drawer([], 5.0, 5.0, "")

  function InputFor(c: Compound): DoseInput {
    DoseInput(c.id, c.defaultDose)
  }

  /** One input per active compound, in catalogue order, at its default
      dose. */
  function ActiveInputs(cs: seq<Compound>): (r: seq<DoseInput>)
    ensures |r| == Seqs.CountWhere(cs, (c: Compound) => c.isActive)
    ensures forall x :: x in r <==> exists i :: 0 <= i < |cs| && cs[i].isActive && x == InputFor(cs[i])
    decreases |cs|
  {
    if |cs| == 0 then []
    else
      var init := cs[..|cs| - 1];
      var last := cs[|cs| - 1];
      var rest := ActiveInputs(init);
      assert forall i :: 0 <= i < |init| ==> init[i] == cs[i];
      if last.isActive then rest + [InputFor(last)] else rest
  }

  /** Catalogue order is kept: the inputs of two catalogue parts are the
      inputs of each part, in order. */
  lemma {:induction false} ActiveInputsConcat(a: seq<Compound>, b: seq<Compound>)
    ensures ActiveInputs(a + b) == ActiveInputs(a) + ActiveInputs(b)
    decreases |b|
  {
    if |b| == 0 {
      assert a + b == a;
    } else {
      var b' := b[..|b| - 1];
      assert (a + b)[..|a + b| - 1] == a + b';
      assert (a + b)[|a + b| - 1] == b[|b| - 1];
      ActiveInputsConcat(a, b');
    }
  }

  /** The initialising effect: inputs are filled from the catalogue only while
      they are empty and the catalogue is not. */
  function InitInputs(d: Drawer, cs: seq<Compound>): (r: Drawer)
    ensures |cs| > 0 && d.inputs == [] ==> r == d.(inputs := ActiveInputs(cs))
    ensures !(|cs| > 0 && d.inputs == []) ==> r == d
  {
    if |cs| > 0 && d.inputs == [] then d.(inputs := ActiveInputs(cs)) else d
  }

  function Max0(x: real): (m: real)
    ensures m >= 0.0 && m >= x && (m == x || m == 0.0)
  {
    if x > 0.0 then x else 0.0
  }

  /** The minus and plus buttons: the matching inputs move by `delta` but
      never below zero; the others are untouched. */
  function DoseChange(inputs: seq<DoseInput>, compoundId: string, delta: real): (r: seq<DoseInput>)
    ensures |r| == |inputs|
    ensures forall i :: 0 <= i < |inputs| && inputs[i].compoundId == compoundId ==>
      r[i] == DoseInput(compoundId, Max0(inputs[i].dose + delta))
    ensures forall i :: 0 <= i < |inputs| && inputs[i].compoundId != compoundId ==> r[i] == inputs[i]
  {
    Seqs.ReplaceWhere(inputs, (x: DoseInput) => x.compoundId == compoundId,
                      (x: DoseInput) => x.(dose := Max0(x.dose + delta)))
  }

  /** A typed-in value: `Number(text) || 0`, where `parsed` is the number the
      text denotes (`None` for text that is not a number). */
  function DirectEdit(inputs: seq<DoseInput>, compoundId: string, parsed: Option<real>): (r: seq<DoseInput>)
    ensures |r| == |inputs|
    ensures forall i :: 0 <= i < |inputs| && inputs[i].compoundId == compoundId ==>
      r[i] == DoseInput(compoundId, if parsed.Some? then parsed.value else 0.0)
    ensures forall i :: 0 <= i < |inputs| && inputs[i].compoundId != compoundId ==> r[i] == inputs[i]
  {
    Seqs.ReplaceWhere(inputs, (x: DoseInput) => x.compoundId == compoundId,
                      (x: DoseInput) => x.(dose := parsed.GetOr(0.0)))
  }

  /** Stepping any number of times never leaves a stepped input negative,
      whatever the deltas and even from a negative typed-in value. */
  lemma StepNeverNegative(inputs: seq<DoseInput>, compoundId: string, delta: real, i: nat)
    requires i < |inputs| && inputs[i].compoundId == compoundId
    ensures DoseChange(inputs, compoundId, delta)[i].dose >= 0.0
    ensures delta >= 0.0 && inputs[i].dose >= 0.0 ==>
      DoseChange(inputs, compoundId, delta)[i].dose == inputs[i].dose + delta
  {
  }

  function Positive(x: DoseInput): bool {
    x.dose > 0.0
  }

  function ToItem(x: DoseInput, now: int): DoseItem {
    DoseItem(x.compoundId, x.dose, now)
  }

  /** The saved dose items: the positive inputs, in order, stamped `now`. */
  function SavedItems(inputs: seq<DoseInput>, now: int): (r: seq<DoseItem>)
    ensures |r| == |Seqs.Filter(inputs, Positive)|
    ensures forall k :: 0 <= k < |r| ==> r[k] == ToItem(Seqs.Filter(inputs, Positive)[k], now)
    ensures forall k :: 0 <= k < |r| ==> r[k].dose > 0.0
  {
    var kept := Seqs.Filter(inputs, Positive);
    assert forall k :: 0 <= k < |kept| ==> kept[k] in kept;
    seq(|kept|, k requires 0 <= k < |kept| => ToItem(kept[k], now))
  }

  /** `handleSave`: one log appended through the store with today's date and
      the positive doses; the scores reset to 5 and the notes to empty,
      while the dose inputs stay as they were. */
  function Save(d: Drawer, s: Store.AppState, date: int, logId: string, now: int): (res: (Drawer, Store.AppState))
    ensures res.0 == d.(anxiety := 5.0, functionality := 5.0, notes := "")
    ensures |res.1.logEntries| == |s.logEntries| + 1
    ensures res.1.logEntries[..|s.logEntries|] == s.logEntries
    ensures var l := res.1.logEntries[|s.logEntries|];
      && l.id == logId && l.date == date && l.timestamp == now
      && l.doseItems == SavedItems(d.inputs, now)
      && l.anxiety == d.anxiety && l.functionality == d.functionality && l.notes == d.notes
      && l.presetId.None?
    ensures res.1 == s.(logEntries := res.1.logEntries)
  {
    var draft := LogDraft(date, SavedItems(d.inputs, now), d.anxiety, d.functionality, d.notes, None);
    (d.(anxiety := 5.0, functionality := 5.0, notes := ""), Store.AddLog(s, draft, logId, now))
  }

  /** A saved log records an input exactly when its dose is positive: zero
      and negative doses never reach the store. */
  lemma SavedIffPositive(inputs: seq<DoseInput>, now: int, x: DoseInput)
    ensures ToItem(x, now) in SavedItems(inputs, now) <==> x in inputs && x.dose > 0.0
  {
    var kept := Seqs.Filter(inputs, Positive);
    var r := SavedItems(inputs, now);
    if ToItem(x, now) in r {
      var k :| 0 <= k < |r| && r[k] == ToItem(x, now);
      assert kept[k] == x;
      assert kept[k] in kept;
    }
    if x in inputs && x.dose > 0.0 {
      assert x in kept;
      var k :| 0 <= k < |kept| && kept[k] == x;
      assert r[k] == ToItem(x, now);
    }
  }
}
