/** The log-entry schema of the logging flow: the record every storage adapter
    persists, the rules a well-formed entry obeys, and the field-level issue
    list a failed validation reports. */
module Schemas {
  import opened Wrappers

  /** One compound taken, as the logger records it: free-text name and dose. */
  datatype Compound = Compound(name: string, dose: string)

  /** `notes` is optional and nullable: absent, `null`, or a string. */
  datatype Notes = Absent | Null | Text(text: string)

  /** A log entry. `occurredAt` is the caller-supplied time of the event, as
      milliseconds; scores are JavaScript numbers, hence `real`. */
  datatype LogEntry = LogEntry(
    id: Option<string>,
    userId: Option<string>,
    occurredAt: int,
    compounds: seq<Compound>,
    sentiment: Option<real>,
    tagsCognitive: seq<string>,
    tagsPhysical: seq<string>,
    tagsMood: seq<string>,
    notes: Notes)

  const CognitiveTags: seq<string> :=
    ["Flow State", "Brain Fog", "Sharp", "Distracted", "Motivation", "Creative"]
  const PhysicalTags: seq<string> :=
    ["High Energy", "Jittery", "Headache", "Nausea", "Insomnia", "Muscle Tension"]
  const MoodTags: seq<string> :=
    ["Anxious", "Calm", "Irritable", "Euphoric", "Social", "Numb"]

  /** The compound schema: both strings at least one character long. */
  predicate ValidCompound(c: Compound) {
    |c.name| >= 1 && |c.dose| >= 1
  }

  predicate IsInteger(x: real) {
    x.Floor as real == x
  }

  /** `number().int().min(1).max(5).nullable()`. */
  predicate ValidSentiment(s: Option<real>) {
    s.None? || (IsInteger(s.value) && 1.0 <= s.value <= 5.0)
  }

  /** An array of a fixed enumeration: every element is a member; repeats are
      allowed. */
  predicate ValidTags(tags: seq<string>, allowed: seq<string>) {
    forall i :: 0 <= i < |tags| ==> tags[i] in allowed
  }

  predicate IsHexDigit(c: char) {
    ('0' <= c <= '9') || ('a' <= c <= 'f') || ('A' <= c <= 'F')
  }

  /** The UUID shape: five groups of 8-4-4-4-12 hexadecimal digits separated
      by hyphens. */
  predicate IsUuid(s: string) {
    && |s| == 36
    && forall i :: 0 <= i < 36 ==>
         if i == 8 || i == 13 || i == 18 || i == 23 then s[i] == '-' else IsHexDigit(s[i])
  }

  /** The insert schema: the entry schema without `id` and `user_id`. */
  predicate ValidInsert(e: LogEntry) {
    && (forall i :: 0 <= i < |e.compounds| ==> ValidCompound(e.compounds[i]))
    && ValidSentiment(e.sentiment)
    && ValidTags(e.tagsCognitive, CognitiveTags)
    && ValidTags(e.tagsPhysical, PhysicalTags)
    && ValidTags(e.tagsMood, MoodTags)
  }

  /** The entry schema. `occurredAt` is already a timestamp here, and `notes`
      may be anything its type allows. */
  predicate ValidEntry(e: LogEntry) {
    && (e.id.None? || IsUuid(e.id.value))
    && (e.userId.None? || IsUuid(e.userId.value))
    && ValidInsert(e)
  }

  datatype TagGroup = Cognitive | Physical | Mood

  /** One field-level validation issue. */
  datatype Issue =
    | BadId
    | BadUserId
    | MissingName(compound: nat)
    | MissingDose(compound: nat)
    | BadSentiment
    | BadTag(group: TagGroup, index: nat)

  /** The custom messages the schema attaches; the other issues carry the
      validation library's default wording. */
  function Message(issue: Issue): Option<string> {
    match issue
    case MissingName(_) => Some("Compound name is required")
    case MissingDose(_) => Some("Dose is required")
    case _ => None
  }

  function CompoundIssues(cs: seq<Compound>, i: nat): seq<Issue>
    requires i <= |cs|
    decreases |cs| - i
  {
    if i == |cs| then []
    else
      (if |cs[i].name| >= 1 then [] else [MissingName(i)])
      + (if |cs[i].dose| >= 1 then [] else [MissingDose(i)])
      + CompoundIssues(cs, i + 1)
  }

  function TagIssues(tags: seq<string>, allowed: seq<string>, group: TagGroup, i: nat): seq<Issue>
    requires i <= |tags|
    decreases |tags| - i
  {
    if i == |tags| then []
    else (if tags[i] in allowed then [] else [BadTag(group, i)]) + TagIssues(tags, allowed, group, i + 1)
  }

  /** Every issue a validation of `e` reports, field by field. */
  function Issues(e: LogEntry): seq<Issue> {
    (if e.id.None? || IsUuid(e.id.value) then [] else [BadId])
    + (if e.userId.None? || IsUuid(e.userId.value) then [] else [BadUserId])
    + CompoundIssues(e.compounds, 0)
    + (if ValidSentiment(e.sentiment) then [] else [BadSentiment])
    + TagIssues(e.tagsCognitive, CognitiveTags, Cognitive, 0)
    + TagIssues(e.tagsPhysical, PhysicalTags, Physical, 0)
    + TagIssues(e.tagsMood, MoodTags, Mood, 0)
  }

  lemma {:induction false} CompoundIssuesEmptyIff(cs: seq<Compound>, i: nat)
    requires i <= |cs|
    ensures CompoundIssues(cs, i) == [] <==> forall j :: i <= j < |cs| ==> ValidCompound(cs[j])
    decreases |cs| - i
  {
    if i < |cs| {
      CompoundIssuesEmptyIff(cs, i + 1);
    }
  }

  lemma {:induction false} TagIssuesEmptyIff(tags: seq<string>, allowed: seq<string>, group: TagGroup, i: nat)
    requires i <= |tags|
    ensures TagIssues(tags, allowed, group, i) == [] <==> forall j :: i <= j < |tags| ==> tags[j] in allowed
    decreases |tags| - i
  {
    if i < |tags| {
      TagIssuesEmptyIff(tags, allowed, group, i + 1);
    }
  }

  /** Validation reports no issue exactly when the entry satisfies the schema:
      the issue list and the predicate are two readings of the same rules. */
  lemma IssuesEmptyIffValid(e: LogEntry)
    ensures Issues(e) == [] <==> ValidEntry(e)
  {
    CompoundIssuesEmptyIff(e.compounds, 0);
    TagIssuesEmptyIff(e.tagsCognitive, CognitiveTags, Cognitive, 0);
    TagIssuesEmptyIff(e.tagsPhysical, PhysicalTags, Physical, 0);
    TagIssuesEmptyIff(e.tagsMood, MoodTags, Mood, 0);
  }

  /** An empty compound name is reported with the schema's own message. */
  lemma {:induction false} MissingNameReported(cs: seq<Compound>, i: nat, k: nat)
    requires i <= k < |cs| && cs[k].name == ""
    ensures MissingName(k) in CompoundIssues(cs, i)
    ensures Message(MissingName(k)) == Some("Compound name is required")
    decreases |cs| - i
  {
    if i < k {
      MissingNameReported(cs, i + 1, k);
    }
  }

  /** The insert schema is the entry schema with `id` and `user_id` left out. */
  lemma InsertIsEntryWithoutIds(e: LogEntry)
    ensures ValidInsert(e) <==> ValidEntry(e.(id := None, userId := None))
    ensures ValidEntry(e) ==> ValidInsert(e)
  {
  }

  /** The schema does not demand any compound and places no rule on `notes`:
      an empty compound list and any notes value keep a valid entry valid. */
  lemma CompoundsAndNotesUnconstrained(e: LogEntry, n: Notes)
    requires ValidEntry(e)
    ensures ValidEntry(e.(compounds := []))
    ensures ValidEntry(e.(notes := n))
  {
  }

  /** A score of 6 is rejected, as is a fractional one. */
  lemma SentimentBounds()
    ensures !ValidSentiment(Some(6.0)) && !ValidSentiment(Some(0.0))
    ensures !ValidSentiment(Some(2.5))
    ensures ValidSentiment(None) && ValidSentiment(Some(3.0))
  {
    assert (2.5).Floor == 2;
  }

  /** `Partial<LogEntry>`: each key present (`Some`) or absent. */
  datatype EntryPatch = EntryPatch(
    id: Option<Option<string>>,
    userId: Option<Option<string>>,
    occurredAt: Option<int>,
    compounds: Option<seq<Compound>>,
    sentiment: Option<Option<real>>,
    tagsCognitive: Option<seq<string>>,
    tagsPhysical: Option<seq<string>>,
    tagsMood: Option<seq<string>>,
    notes: Option<Notes>)

  /** `{ ...e, ...p }`. */
  function Merge(e: LogEntry, p: EntryPatch): LogEntry {
    LogEntry(p.id.GetOr(e.id), p.userId.GetOr(e.userId), p.occurredAt.GetOr(e.occurredAt),
             p.compounds.GetOr(e.compounds), p.sentiment.GetOr(e.sentiment),
             p.tagsCognitive.GetOr(e.tagsCognitive), p.tagsPhysical.GetOr(e.tagsPhysical),
             p.tagsMood.GetOr(e.tagsMood), p.notes.GetOr(e.notes))
  }

  function Latest<T>(first: Option<T>, second: Option<T>): Option<T> {
    if second.Some? then second else first
  }

  /** The patch equivalent to applying `p1` and then `p2`: for each key, the
      later patch wins when it carries the key. */
  function Then(p1: EntryPatch, p2: EntryPatch): EntryPatch {
    EntryPatch(Latest(p1.id, p2.id), Latest(p1.userId, p2.userId),
               Latest(p1.occurredAt, p2.occurredAt), Latest(p1.compounds, p2.compounds),
               Latest(p1.sentiment, p2.sentiment), Latest(p1.tagsCognitive, p2.tagsCognitive),
               Latest(p1.tagsPhysical, p2.tagsPhysical), Latest(p1.tagsMood, p2.tagsMood),
               Latest(p1.notes, p2.notes))
  }

  /** Two successive merges lose nothing: the result is the later patch merged
      over the earlier one, merged over the original; keys neither patch
      carries keep their original value. */
  lemma MergeTwice(e: LogEntry, p1: EntryPatch, p2: EntryPatch)
    ensures Merge(Merge(e, p1), p2) == Merge(e, Then(p1, p2))
    ensures p1.notes.None? && p2.notes.None? ==> Merge(Merge(e, p1), p2).notes == e.notes
    ensures p2.compounds.Some? ==> Merge(Merge(e, p1), p2).compounds == p2.compounds.value
  {
  }

  /** The patch that carries every key of `e` except the two identifiers. */
  function AsPatch(e: LogEntry): (p: EntryPatch)
    ensures p.id.None? && p.userId.None?
    ensures forall x :: Merge(x, p) == e.(id := x.id, userId := x.userId)
  {
    EntryPatch(None, None, Some(e.occurredAt), Some(e.compounds), Some(e.sentiment),
               Some(e.tagsCognitive), Some(e.tagsPhysical), Some(e.tagsMood), Some(e.notes))
  }

  datatype SentimentOption = SentimentOption(value: int, emoji: string, caption: string)

  const SentimentOptions: seq<SentimentOption> := [
    SentimentOption(1, "\U{1F621}", "Terrible"),
    SentimentOption(2, "\U{1F615}", "Bad"),
    SentimentOption(3, "\U{1F610}", "Okay"),
    SentimentOption(4, "\U{1F642}", "Good"),
    SentimentOption(5, "\U{1F929}", "Excellent")
  ]

  /** The rating options are 1..5 in order, each once, and a score is valid
      and present exactly when some option carries it. */
  lemma SentimentOptionsMatchRange(v: real)
    ensures |SentimentOptions| == 5
    ensures forall i :: 0 <= i < 5 ==> SentimentOptions[i].value == i + 1
    ensures ValidSentiment(Some(v)) <==> exists i :: 0 <= i < 5 && SentimentOptions[i].value as real == v
  {
    if ValidSentiment(Some(v)) {
      var i := v.Floor - 1;
      assert SentimentOptions[i].value as real == v;
    }
  }
}
