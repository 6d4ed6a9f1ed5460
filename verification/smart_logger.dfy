/** The logger form: editing its compound list, copying the previous entry,
    and the auto-save that creates a record once and updates that same record
    afterwards. A save is one atomic step; the debounce timer and the
    transient "saving" state in between are not modelled. */
module SmartLogger {
  import opened Wrappers
  import opened Schemas
  import Seqs
  import LocalAdapter

  datatype SaveStatus = Idle | Saving | Saved

  datatype Form = Form(
    compounds: seq<Compound>,
    cognitive: seq<string>,
    physical: seq<string>,
    mood: seq<string>,
    sentiment: Option<real>,
    notes: string,
    occurredAt: int,
    saving: bool,
    status: SaveStatus,
    currentLogId: Option<string>)

  /** A fresh form, its time field set to `now`. */
  function Initial(now: int): Form {
    Form([], [], [], [], None, "", now, false, Idle, None)
  }

  /** `notes || null`: an empty notes field is sent as null. */
  function NotesValue(notes: string): (n: Notes)
    ensures n == Null <==> notes == ""
    ensures n != Null ==> n == Text(notes)
  {
    if notes == "" then Null else Text(notes)
  }

  /** The record a save sends: the form's fields, without identifiers. */
  function Payload(f: Form): (e: LogEntry)
    ensures e.id.None? && e.userId.None?
    ensures e.occurredAt == f.occurredAt && e.compounds == f.compounds && e.sentiment == f.sentiment
    ensures e.tagsCognitive == f.cognitive && e.tagsPhysical == f.physical && e.tagsMood == f.mood
    ensures e.notes == NotesValue(f.notes) && e.notes != Absent
  {
    LogEntry(None, None, f.occurredAt, f.compounds, f.sentiment, f.cognitive, f.physical, f.mood,
             NotesValue(f.notes))
  }

  /** The adapter call a save makes. */
  datatype Call = NoCall | CreateCall(input: LogEntry) | UpdateCall(id: string, patch: EntryPatch)

  /** Nothing is saved without a compound; a truthy remembered id means the
      record exists and is updated, otherwise a new one is created. */
  function PlanSave(f: Form): (c: Call)
    ensures c.NoCall? <==> f.compounds == []
    ensures c.UpdateCall? <==> f.compounds != [] && f.currentLogId.Some? && f.currentLogId.value != ""
    ensures c.CreateCall? ==> c.input == Payload(f)
    ensures c.UpdateCall? ==> c.id == f.currentLogId.value
    ensures c.UpdateCall? ==> forall x :: Merge(x, c.patch) == Payload(f).(id := x.id, userId := x.userId)
  {
    if f.compounds == [] then NoCall
    else if f.currentLogId.Some? && f.currentLogId.value != "" then UpdateCall(f.currentLogId.value, AsPatch(Payload(f)))
    else CreateCall(Payload(f))
  }

  /** What the adapter call came back with. */
  datatype Outcome = Created(record: LogEntry) | Updated(record: LogEntry) | Failed

  /** The form after the call settles: a created record's id is remembered,
      success shows "saved", and a failure returns to idle and forgets
      nothing. */
  function FinishSave(f: Form, o: Outcome): (r: Form)
    ensures !r.saving
    ensures r.status == (if o.Failed? then Idle else Saved)
    ensures r.currentLogId == (if o.Created? then o.record.id else f.currentLogId)
    ensures r.(saving := f.saving, status := f.status, currentLogId := f.currentLogId) == f
  {
    match o
    case Created(record) => f.(saving := false, status := Saved, currentLogId := record.id)
    case Updated(_) => f.(saving := false, status := Saved)
    case Failed => f.(saving := false, status := Idle)
  }

  /** One save against the on-device adapter, which mints `freshId` when it
      creates a record. */
  function SaveLocal(f: Form, d: LocalAdapter.Device, freshId: string): (res: (Form, LocalAdapter.Device))
    ensures f.compounds == [] ==> res == (f, d)
  {
    match PlanSave(f)
    case NoCall => (f, d)
    case CreateCall(input) =>
      var (record, d') := LocalAdapter.CreateLog(d, input, freshId);
      (FinishSave(f, Created(record)), d')
    case UpdateCall(id, patch) =>
      var (res, d') := LocalAdapter.UpdateLog(d, id, patch);
      if res.Err? then (FinishSave(f, Failed), d') else (FinishSave(f, Updated(res.value)), d')
  }

  /** The first save creates one record and remembers its id; a later save of
      the edited form (same remembered id) updates that record in place, so
      the store ends with a single record holding the latest form. */
  lemma CreateThenUpdate(f: Form, d: LocalAdapter.Device, freshId: string, g: Form, otherId: string)
    requires d.Some? && f.compounds != [] && f.currentLogId.None? && freshId != ""
    requires forall l :: l in LocalAdapter.StoredLogs(d) ==> l.id != Some(freshId)
    requires g.compounds != []
    ensures var (f1, d1) := SaveLocal(f, d, freshId);
      && f1.currentLogId == Some(freshId) && f1.status == Saved
      && LocalAdapter.StoredLogs(d1) == LocalAdapter.StoredLogs(d) + [Payload(f).(id := Some(freshId))]
      && var (g1, d2) := SaveLocal(g.(currentLogId := f1.currentLogId), d1, otherId);
         && g1.currentLogId == Some(freshId) && g1.status == Saved
         && LocalAdapter.StoredLogs(d2) == LocalAdapter.StoredLogs(d) + [Payload(g).(id := Some(freshId))]
  {
    var logs := LocalAdapter.StoredLogs(d);
    var (f1, d1) := SaveLocal(f, d, freshId);
    var k := |logs|;
    assert LocalAdapter.FirstWithId(LocalAdapter.StoredLogs(d1), freshId, k);
  }

  /** A failed update (the remembered record is gone) keeps the remembered id
      and the store as they were and returns the status to idle. */
  lemma FailedSaveKeepsId(f: Form, d: LocalAdapter.Device, freshId: string)
    requires f.compounds != [] && f.currentLogId.Some? && f.currentLogId.value != ""
    requires forall l :: l in LocalAdapter.StoredLogs(d) ==> l.id != f.currentLogId
    ensures SaveLocal(f, d, freshId).0.currentLogId == f.currentLogId
    ensures SaveLocal(f, d, freshId).0.status == Idle
    ensures SaveLocal(f, d, freshId).1 == d
  {
  }

  /** Pre-fills the form from the previous entry: compounds, tags and score
      are copied, notes cleared and the time reset; with no previous entry
      the form is unchanged. */
  function CopyYesterday(f: Form, last: Option<LogEntry>, now: int): (r: Form)
    ensures last.None? ==> r == f
    ensures last.Some? ==>
      && r.compounds == last.value.compounds && r.sentiment == last.value.sentiment
      && r.cognitive == last.value.tagsCognitive && r.physical == last.value.tagsPhysical
      && r.mood == last.value.tagsMood
      && r.notes == "" && r.occurredAt == now
      && r.currentLogId == f.currentLogId && r.status == f.status && r.saving == f.saving
  {
    match last
    case None => f
    case Some(l) =>
      f.(compounds := l.compounds, cognitive := l.tagsCognitive, physical := l.tagsPhysical,
         mood := l.tagsMood, sentiment := l.sentiment, notes := "", occurredAt := now)
  }

  /** Copying the newest stored entry and saving a fresh form stores a new
      record whose compounds, tags and score repeat that entry and whose
      notes are null. */
  lemma CopyThenSave(f: Form, d: LocalAdapter.Device, now: int, freshId: string)
    requires d.Some? && f.currentLogId.None?
    requires LocalAdapter.GetLastLog(d).Some? && LocalAdapter.GetLastLog(d).value.compounds != []
    ensures var last := LocalAdapter.GetLastLog(d).value;
      var (_, d1) := SaveLocal(CopyYesterday(f, Some(last), now), d, freshId);
      var saved := LocalAdapter.StoredLogs(d1)[|LocalAdapter.StoredLogs(d)|];
      && |LocalAdapter.StoredLogs(d1)| == |LocalAdapter.StoredLogs(d)| + 1
      && saved.compounds == last.compounds && saved.sentiment == last.sentiment
      && saved.tagsCognitive == last.tagsCognitive && saved.tagsPhysical == last.tagsPhysical
      && saved.tagsMood == last.tagsMood && saved.notes == Null && saved.occurredAt == now
  {
  }

  function AddCompound(f: Form, c: Compound): (r: Form)
    ensures r.compounds == f.compounds + [c]
    ensures r == f.(compounds := r.compounds)
  {
    f.(compounds := f.compounds + [c])
  }

  /** Drops the chip at `index`; any other index leaves the list as it is. */
  function RemoveCompound(f: Form, index: int): (r: Form)
    ensures 0 <= index < |f.compounds| ==> r.compounds == f.compounds[..index] + f.compounds[index + 1..]
    ensures !(0 <= index < |f.compounds|) ==> r == f
    ensures r == f.(compounds := r.compounds)
  {
    var cs := Seqs.RemoveAt(f.compounds, index);
    if 0 <= index < |f.compounds| then
      assert cs == f.compounds[..index] + f.compounds[index + 1..];
      f.(compounds := cs)
    else f.(compounds := cs)
  }

  function UpdateCompound(f: Form, index: int, c: Compound): (r: Form)
    ensures |r.compounds| == |f.compounds|
    ensures 0 <= index < |f.compounds| ==> r.compounds == f.compounds[index := c]
    ensures !(0 <= index < |f.compounds|) ==> r == f
    ensures r == f.(compounds := r.compounds)
  {
    f.(compounds := Seqs.ReplaceAt(f.compounds, index, c))
  }

  /** Adding a chip and removing it again restores the list. */
  lemma AddThenRemove(f: Form, c: Compound)
    ensures RemoveCompound(AddCompound(f, c), |f.compounds|) == f
  {
    assert (f.compounds + [c])[..|f.compounds|] == f.compounds;
  }
}
