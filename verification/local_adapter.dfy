/** The on-device storage adapter: a flat list of log entries, a user record
    and a PIN, kept under three keys of the browser's key-value store. The
    store is `None` when it is unavailable, and every operation then degrades
    to an error, an empty read or a no-op. Identifiers and clock readings are
    parameters. */
module LocalAdapter {
  import opened Wrappers
  import opened Schemas
  import Seqs

  const LogsKey: string := "neurostack-logs"
  const UserKey: string := "neurostack-user"
  const PinKey: string := "neurostack-pin"
  const ExportVersion: string := "2.0.0"

  /** A serialised value as read back: it parses, or it does not. */
  datatype Blob<T> = Parsed(value: T) | Corrupt

  datatype User = User(id: string, email: string, createdAt: int)

  /** What is stored under each of the adapter's three keys (`None`: no
      item under that key). */
  datatype Slots = Slots(
    logs: Option<Blob<seq<LogEntry>>>,
    user: Option<Blob<User>>,
    pin: Option<string>)

  /** The device store; `None` when the host disables it. */
  type Device = Option<Slots>

  datatype Session = Session(id: string, email: string)

  datatype AuthError = StorageUnavailable | NoAccount | IncorrectPassword

  function AuthMessage(e: AuthError): string {
    match e
    case StorageUnavailable => "LocalStorage not available"
    case NoAccount => "No account found. Please sign up first."
    case IncorrectPassword => "Incorrect password"
  }

  datatype LogError = LogNotFound

  function LogMessage(e: LogError): string {
    "Log not found"
  }

  predicate IsAvailable(d: Device) {
    d.Some?
  }

  // ---------------------------------------------------------------- auth

  /** `password.slice(-4)`: the last four characters, or all of a shorter
      password. */
  function PinOf(password: string): (pin: string)
    ensures |pin| == if |password| < 4 then |password| else 4
    ensures pin == password[|password| - |pin|..]
  {
    if |password| <= 4 then password else password[|password| - 4..]
  }

  /** Stores the PIN derived from the password and a user record for the
      email; nothing else is touched. */
  function SignUp(d: Device, email: string, password: string, userId: string, now: int): (res: (Option<AuthError>, Device))
    ensures d.None? ==> res == (Some(StorageUnavailable), d)
    ensures d.Some? ==> res.0.None? && res.1.Some?
    ensures d.Some? ==> res.1.value.pin == Some(PinOf(password))
    ensures d.Some? ==> res.1.value.user == Some(Parsed(User(userId, email, now)))
    ensures d.Some? ==> res.1.value.logs == d.value.logs
  {
    match d
    case None => (Some(StorageUnavailable), d)
    case Some(slots) =>
      (None, Some(slots.(pin := Some(PinOf(password)), user := Some(Parsed(User(userId, email, now))))))
  }

  /** The stored PIN as a truthiness test sees it: a missing item and an
      empty string both count as no account. */
  predicate HasAccount(d: Device) {
    d.Some? && d.value.pin.Some? && d.value.pin.value != ""
  }

  /** Checks the password's last four characters against the stored PIN. The
      email is not consulted and nothing is written. */
  function SignIn(d: Device, email: string, password: string): (err: Option<AuthError>)
    ensures d.None? <==> err == Some(StorageUnavailable)
    ensures d.Some? && !HasAccount(d) <==> err == Some(NoAccount)
    ensures err.None? <==> HasAccount(d) && d.value.pin.value == PinOf(password)
  {
    match d
    case None => Some(StorageUnavailable)
    case Some(slots) =>
      if slots.pin.None? || slots.pin.value == "" then Some(NoAccount)
      else if slots.pin.value != PinOf(password) then Some(IncorrectPassword)
      else None
  }

  /** The session of the stored user; none when storage is unavailable or the
      user record is missing or unreadable. */
  function GetUser(d: Device): (u: Option<Session>)
    ensures u.Some? <==> d.Some? && d.value.user.Some? && d.value.user.value.Parsed?
    ensures u.Some? ==>
      u.value.id == d.value.user.value.value.id && u.value.email == d.value.user.value.value.email
  {
    match d
    case None => None
    case Some(slots) =>
      match slots.user
      case Some(Parsed(user)) => Some(Session(user.id, user.email))
      case _ => None
  }

  /** Signing up and then in with any password that ends like the first one
      succeeds; the email plays no part. */
  lemma SignUpThenSignIn(d: Device, email: string, password: string, userId: string, now: int,
                         otherEmail: string, attempt: string)
    requires d.Some? && password != ""
    ensures SignIn(SignUp(d, email, password, userId, now).1, otherEmail, attempt).None?
      <==> PinOf(attempt) == PinOf(password)
    ensures GetUser(SignUp(d, email, password, userId, now).1) == Some(Session(userId, email))
  {
    assert PinOf(password) != "";
  }

  /** An empty password stores an empty PIN, which later reads as no account. */
  lemma EmptyPasswordLocksOut(d: Device, email: string, userId: string, now: int, attempt: string)
    requires d.Some?
    ensures SignIn(SignUp(d, email, "", userId, now).1, email, attempt) == Some(NoAccount)
  {
  }

  /** The worked example: secret "abcd1234" gives PIN "1234". */
  lemma PinScenario(d: Device)
    requires d.Some?
    ensures var d' := SignUp(d, "a@b.c", "abcd1234", "local-1", 1).1;
      && d'.value.pin == Some("1234")
      && SignIn(d', "a@b.c", "zzzz9999") == Some(IncorrectPassword)
      && SignIn(d', "x@y.z", "xyz1234") == None
  {
    assert "abcd1234"[4..] == "1234";
    assert "zzzz9999"[4..] == "9999";
    assert "xyz1234"[3..] == "1234";
  }

  // ----------------------------------------------------------------- logs

  /** The list under the logs key; empty when storage is unavailable, the
      item is missing, or it does not parse. */
  function StoredLogs(d: Device): seq<LogEntry> {
    match d
    case None => []
    case Some(slots) =>
      match slots.logs
      case Some(Parsed(logs)) => logs
      case _ => []
  }

  /** Writes the list back; a no-op when storage is unavailable. */
  function SaveLogs(d: Device, logs: seq<LogEntry>): (r: Device)
    ensures d.Some? ==> StoredLogs(r) == logs
    ensures d.None? ==> r == d
    ensures d.Some? ==> r.Some? && r.value.user == d.value.user && r.value.pin == d.value.pin
  {
    match d
    case None => d
    case Some(slots) => Some(slots.(logs := Some(Parsed(logs))))
  }

  /** Appends the input with a fresh id and returns that record. On
      unavailable storage the record is still returned but nothing is kept. */
  function CreateLog(d: Device, input: LogEntry, freshId: string): (res: (LogEntry, Device))
    ensures res.0 == input.(id := Some(freshId))
    ensures d.Some? ==> StoredLogs(res.1) == StoredLogs(d) + [res.0]
    ensures d.Some? ==> res.1.Some? && res.1.value.user == d.value.user && res.1.value.pin == d.value.pin
    ensures d.None? ==> res.1 == d
  {
    var record := input.(id := Some(freshId));
    (record, SaveLogs(d, StoredLogs(d) + [record]))
  }

  predicate FirstWithId(logs: seq<LogEntry>, id: string, k: int) {
    && 0 <= k < |logs| && logs[k].id == Some(id)
    && forall j :: 0 <= j < k ==> logs[j].id != Some(id)
  }

  /** Merges the patch into the first stored record with the id, in place,
      and returns it; throws "Log not found" and writes nothing when no
      record has the id. */
  function UpdateLog(d: Device, id: string, patch: EntryPatch): (res: (Result<LogEntry, LogError>, Device))
    ensures res.0.Err? <==> forall k :: 0 <= k < |StoredLogs(d)| ==> StoredLogs(d)[k].id != Some(id)
    ensures res.0.Err? ==> res.1 == d
    ensures forall k :: FirstWithId(StoredLogs(d), id, k) ==>
      && res.0 == Ok(Merge(StoredLogs(d)[k], patch))
      && StoredLogs(res.1) == StoredLogs(d)[k := res.0.value]
      && res.1.Some? && res.1.value.user == d.value.user && res.1.value.pin == d.value.pin
    ensures res.0.Ok? && patch.id.None? ==> res.0.value.id == Some(id)
  {
    var logs := StoredLogs(d);
    match Seqs.IndexOf(logs, (l: LogEntry) => l.id == Some(id))
    case None => (Err(LogNotFound), d)
    case Some(k) =>
      var updated := Merge(logs[k], patch);
      (Ok(updated), SaveLogs(d, logs[k := updated]))
  }

  /** Most recent first. */
  predicate SortedDesc(logs: seq<LogEntry>) {
    forall i, j :: 0 <= i < j < |logs| ==> logs[i].occurredAt >= logs[j].occurredAt
  }

  function InsertDesc(x: LogEntry, s: seq<LogEntry>): (r: seq<LogEntry>)
    requires SortedDesc(s)
    ensures SortedDesc(r)
    ensures multiset(r) == multiset(s) + multiset{x}
    ensures |r| == |s| + 1
    ensures r[0] == x || (|s| > 0 && r[0] == s[0])
    decreases |s|
  {
    if |s| == 0 || x.occurredAt >= s[0].occurredAt then [x] + s
    else
      var rest := InsertDesc(x, s[1..]);
      assert s == [s[0]] + s[1..];
      assert forall i :: 0 <= i < |rest| ==> rest[0].occurredAt >= rest[i].occurredAt;
      [s[0]] + rest
  }

  /** The comparator sort of `getLogs`: by `occurredAt`, most recent first. */
  function SortDesc(s: seq<LogEntry>): (r: seq<LogEntry>)
    ensures SortedDesc(r)
    ensures multiset(r) == multiset(s)
    ensures |r| == |s|
    decreases |s|
  {
    if |s| == 0 then []
    else
      assert s == [s[0]] + s[1..];
      InsertDesc(s[0], SortDesc(s[1..]))
  }

  /** `if (limit) sorted.slice(0, limit)`: no limit or 0 keeps everything, a
      positive limit keeps at most that many, and a negative one drops that
      many from the end. */
  function ApplyLimit(s: seq<LogEntry>, limit: Option<int>): (r: seq<LogEntry>)
    ensures |r| <= |s| && r == s[..|r|]
    ensures limit.None? || limit.value == 0 ==> r == s
    ensures limit.Some? && limit.value > 0 ==> |r| == if limit.value < |s| then limit.value else |s|
    ensures limit.Some? && limit.value < 0 ==> |r| == if |s| + limit.value > 0 then |s| + limit.value else 0
  {
    if limit.None? || limit.value == 0 then s
    else if limit.value > 0 then (if limit.value < |s| then s[..limit.value] else s)
    else (if |s| + limit.value > 0 then s[..|s| + limit.value] else [])
  }

  /** A prefix of a most-recent-first list is sorted the same way, is part
      of the list, and holds its most recent records: anything left out is no
      newer than anything kept. */
  lemma PrefixIsNewest(s: seq<LogEntry>, k: nat)
    requires SortedDesc(s) && k <= |s|
    ensures SortedDesc(s[..k])
    ensures multiset(s[..k]) <= multiset(s)
    ensures forall l :: multiset(s[..k])[l] < multiset(s)[l] ==>
      forall i :: 0 <= i < k ==> s[..k][i].occurredAt >= l.occurredAt
  {
    assert s == s[..k] + s[k..];
    forall l | multiset(s[..k])[l] < multiset(s)[l]
      ensures forall i :: 0 <= i < k ==> s[..k][i].occurredAt >= l.occurredAt
    {
      assert l in multiset(s[k..]);
      var j :| 0 <= j < |s[k..]| && s[k..][j] == l;
      assert s[k + j] == l;
    }
  }

  /** The stored records, most recent first, cut to the limit. */
  function GetLogs(d: Device, limit: Option<int>): (r: seq<LogEntry>)
    ensures SortedDesc(r)
    ensures multiset(r) <= multiset(StoredLogs(d))
    ensures limit.None? || limit.value == 0 ==> multiset(r) == multiset(StoredLogs(d))
    ensures limit.Some? && limit.value > 0 ==>
      |r| == if limit.value < |StoredLogs(d)| then limit.value else |StoredLogs(d)|
    ensures forall l :: multiset(r)[l] < multiset(StoredLogs(d))[l] ==>
      forall i :: 0 <= i < |r| ==> r[i].occurredAt >= l.occurredAt
  {
    var sorted := SortDesc(StoredLogs(d));
    var r := ApplyLimit(sorted, limit);
    PrefixIsNewest(sorted, |r|);
    r
  }

  /** The most recent stored record, or none when nothing is stored. */
  function GetLastLog(d: Device): (r: Option<LogEntry>)
    ensures r.None? <==> StoredLogs(d) == []
    ensures r.Some? ==> r.value in StoredLogs(d)
    ensures r.Some? ==> forall l :: l in StoredLogs(d) ==> l.occurredAt <= r.value.occurredAt
  {
    var logs := GetLogs(d, Some(1));
    if |logs| > 0 then
      assert logs == [logs[0]];
      assert multiset(logs)[logs[0]] > 0;
      assert forall l :: l in StoredLogs(d) && l != logs[0] ==> multiset(logs)[l] < multiset(StoredLogs(d))[l];
      Some(logs[0])
    else
      None
  }

  /** Removes every record with the id; an absent id is not an error. */
  function DeleteLog(d: Device, id: string): (r: Device)
    ensures forall l :: l in StoredLogs(r) ==> l.id != Some(id)
    ensures d.Some? ==> forall l: LogEntry :: l.id != Some(id) ==>
      multiset(StoredLogs(r))[l] == multiset(StoredLogs(d))[l]
    ensures Seqs.IsSubseq(StoredLogs(r), StoredLogs(d))
    ensures d.Some? ==> r.Some? && r.value.user == d.value.user && r.value.pin == d.value.pin
    ensures d.None? ==> r == d
  {
    SaveLogs(d, Seqs.Filter(StoredLogs(d), (l: LogEntry) => l.id != Some(id)))
  }

  // ------------------------------------------------------------- backup

  datatype Backup = Backup(logs: seq<LogEntry>, user: Option<Session>, exportedAt: int, version: string)

  /** A parsed backup as `importData` sees it: `logs` is an array, or is
      missing or of some other type (`None`). */
  datatype ImportPayload = ImportPayload(logs: Option<seq<LogEntry>>)

  function ExportData(d: Device, now: int): (b: Backup)
    ensures b.logs == StoredLogs(d) && b.user == GetUser(d)
    ensures b.exportedAt == now && b.version == "2.0.0"
  {
    Backup(StoredLogs(d), GetUser(d), now, ExportVersion)
  }

  /** Replaces the stored list when the payload carries a `logs` array, and
      otherwise changes nothing. */
  function ImportData(d: Device, payload: ImportPayload): (r: Device)
    ensures payload.logs.None? ==> r == d
    ensures payload.logs.Some? && d.Some? ==> StoredLogs(r) == payload.logs.value
    ensures d.Some? ==> r.Some? && r.value.user == d.value.user && r.value.pin == d.value.pin
    ensures d.None? ==> r == d
  {
    if payload.logs.Some? then SaveLogs(d, payload.logs.value) else d
  }

  /** Importing an export of the same store leaves the stored records, the
      user and the PIN as they were. */
  lemma ExportImportRoundTrip(d: Device, now: int)
    ensures var r := ImportData(d, ImportPayload(Some(ExportData(d, now).logs)));
      && StoredLogs(r) == StoredLogs(d)
      && GetUser(r) == GetUser(d)
      && (d.Some? ==> r.value.pin == d.value.pin)
  {
  }

  /** With storage unavailable, sign-up and sign-in fail, there is no user,
      reads are empty and writes change nothing. */
  lemma UnavailableDegrades(email: string, password: string, userId: string, now: int,
                            input: LogEntry, freshId: string, id: string, patch: EntryPatch,
                            limit: Option<int>, payload: ImportPayload)
    ensures SignUp(None, email, password, userId, now).0 == Some(StorageUnavailable)
    ensures SignIn(None, email, password) == Some(StorageUnavailable)
    ensures GetUser(None).None?
    ensures GetLogs(None, limit) == [] && GetLastLog(None).None?
    ensures CreateLog(None, input, freshId).1.None?
    ensures UpdateLog(None, id, patch) == (Err(LogNotFound), None)
    ensures DeleteLog(None, id).None? && ImportData(None, payload).None?
  {
  }

  /** Creating a record and reading back one record returns the input with
      its new id when it is the newest. */
  lemma CreateThenReadBack(d: Device, input: LogEntry, freshId: string)
    requires d.Some?
    requires forall l :: l in StoredLogs(d) ==> l.occurredAt < input.occurredAt
    ensures GetLastLog(CreateLog(d, input, freshId).1) == Some(input.(id := Some(freshId)))
  {
    var (rec, d') := CreateLog(d, input, freshId);
    var last := GetLastLog(d');
    assert rec in StoredLogs(d');
    assert last.Some?;
  }

  /** Two successive updates of the same record keep both: the record ends as
      the later patch merged over the earlier, merged over the original. */
  lemma UpdateTwice(d: Device, id: string, p1: EntryPatch, p2: EntryPatch, k: nat)
    requires FirstWithId(StoredLogs(d), id, k)
    requires p1.id.None?
    ensures var d1 := UpdateLog(d, id, p1).1;
      var res := UpdateLog(d1, id, p2);
      && res.0 == Ok(Merge(StoredLogs(d)[k], Then(p1, p2)))
      && StoredLogs(res.1) == StoredLogs(d)[k := res.0.value]
  {
    var logs := StoredLogs(d);
    var d1 := UpdateLog(d, id, p1).1;
    var m1 := Merge(logs[k], p1);
    assert StoredLogs(d1) == logs[k := m1];
    assert FirstWithId(StoredLogs(d1), id, k);
    MergeTwice(logs[k], p1, p2);
  }
}
