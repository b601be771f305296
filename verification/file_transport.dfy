/**
 * The file transport: a directory per run, named after the construction
 * time, holding `app.log` (every record) and `error.log` (ERROR records
 * only). Each record is written as its JSON serialization followed by one
 * line feed. The file system is modelled by the two files' contents and
 * by the outcome of each `appendFile` call, passed in; an append either
 * adds the whole entry or nothing.
 */
module FileLog {
  import opened Common
  import opened Strings
  import opened LogInterfaces
  import opened JsonText

  const DefaultBaseDir := "logs"
  const AppLogName := "app.log"
  const ErrorLogName := "error.log"
  const DirectoryFailure := "Failed to create log directory:"
  const WriteFailure := "Failed to write to log file:"

  // ---------------------------------------------------------------------
  // Run directory
  // ---------------------------------------------------------------------

  /** `iso.replace(/[:.]/g, '-')`: every colon and every full stop becomes a hyphen. */
  function RunStamp(iso: string): (r: string)
    ensures |r| == |iso|
    ensures forall i :: 0 <= i < |iso| ==> r[i] == (if iso[i] == ':' || iso[i] == '.' then '-' else iso[i])
  {
    if |iso| == 0 then ""
    else [if iso[0] == ':' || iso[0] == '.' then '-' else iso[0]] + RunStamp(iso[1..])
  }

  /** The stamp contains no colon and no full stop, and nothing else of the timestamp changes. */
  lemma {:induction false} RunStampClean(iso: string)
    ensures ':' !in RunStamp(iso) && '.' !in RunStamp(iso)
    ensures ':' !in iso && '.' !in iso ==> RunStamp(iso) == iso
  {
    var r := RunStamp(iso);
    assert forall i :: 0 <= i < |r| ==> r[i] != ':' && r[i] != '.';
  }

  /** The shape of `Date.prototype.toISOString()`: `YYYY-MM-DDTHH:mm:ss.sssZ`. */
  predicate IsIsoTimestamp(s: string) {
    |s| == 24
    && s[4] == '-' && s[7] == '-' && s[10] == 'T' && s[13] == ':' && s[16] == ':' && s[19] == '.' && s[23] == 'Z'
    && forall i :: 0 <= i < 23 && i !in {4, 7, 10, 13, 16, 19} ==> IsDigit(s[i])
  }

  /**
   * Distinct construction instants give distinct run directories: on ISO
   * timestamps the substitution loses nothing, because the replaced
   * characters sit at fixed positions.
   */
  lemma {:induction false} RunStampInjective(a: string, b: string)
    requires IsIsoTimestamp(a) && IsIsoTimestamp(b)
    requires RunStamp(a) == RunStamp(b)
    ensures a == b
  {
    forall i | 0 <= i < 24
      ensures a[i] == b[i]
    {
      assert RunStamp(a)[i] == RunStamp(b)[i];
    }
  }

  /** An ISO timestamp's stamp has no `/`, so the run directory is a single path segment. */
  lemma {:induction false} RunStampSegment(iso: string)
    requires IsIsoTimestamp(iso)
    ensures '/' !in RunStamp(iso)
  {
    var r := RunStamp(iso);
    forall i | 0 <= i < |r|
      ensures r[i] != '/'
    {
      if i !in {4, 7, 10, 13, 16, 19, 23} {
        assert IsDigit(iso[i]);
      }
    }
  }

  /** `path.join` of already normal segments: joined with `/`. */
  function PathJoin(a: string, b: string): string {
    a + "/" + b
  }

  // ---------------------------------------------------------------------
  // Entries and files
  // ---------------------------------------------------------------------

  /** `JSON.stringify(data) + '\n'`. */
  function Entry(d: LogData): string {
    SerializeRecord(d) + "\n"
  }

  /** The contents of a file to which the entries of `records` were appended, in order. */
  function Journal(records: seq<LogData>): string {
    if |records| == 0 then "" else Entry(records[0]) + Journal(records[1..])
  }

  /** The serialized records, one per line. */
  function Lines(records: seq<LogData>): (lines: seq<string>)
    ensures |lines| == |records|
  {
    seq(|records|, i requires 0 <= i < |records| => SerializeRecord(records[i]))
  }

  /** Appending an entry extends the journal by one record. */
  lemma {:induction false} JournalSnoc(records: seq<LogData>, d: LogData)
    ensures Journal(records + [d]) == Journal(records) + Entry(d)
  {
    if |records| == 0 {
      assert records + [d] == [d];
      assert Journal([d]) == Entry(d) + Journal([]);
    } else {
      assert (records + [d])[1..] == records[1..] + [d];
      JournalSnoc(records[1..], d);
    }
  }

  /**
   * A file of N entries has exactly N line feeds, and splitting it on line
   * feeds gives the N serialized records followed by the empty text after
   * the last line feed.
   */
  lemma {:induction false} JournalLines(records: seq<LogData>)
    ensures Split(Journal(records), '\n') == Lines(records) + [""]
    ensures Count(Journal(records), '\n') == |records|
  {
    if |records| == 0 {
      assert Split("", '\n') == [""];
    } else {
      var head := SerializeRecord(records[0]);
      RecordLineRoundTrip(records[0]);
      JournalLines(records[1..]);
      assert Journal(records) == head + ['\n'] + Journal(records[1..]);
      SplitPrefix(head, Journal(records[1..]), '\n');
      assert [head] + Lines(records[1..]) == Lines(records);
    }
  }

  /** Reading a log file back line by line gives exactly the records written to it, in order. */
  lemma {:induction false} JournalDecodes(records: seq<LogData>)
    ensures |Split(Journal(records), '\n')| == |records| + 1
    ensures forall i :: 0 <= i < |records| ==>
      ParseValue(Split(Journal(records), '\n')[i]) == Some((RecordToJson(records[i]), ""))
      && RecordFromJson(RecordToJson(records[i])) == Some(records[i])
  {
    JournalLines(records);
    forall i | 0 <= i < |records|
      ensures ParseValue(Split(Journal(records), '\n')[i]) == Some((RecordToJson(records[i]), ""))
      ensures RecordFromJson(RecordToJson(records[i])) == Some(records[i])
    {
      RecordLineRoundTrip(records[i]);
    }
  }

  /** The records of a sequence that have level ERROR, in order. */
  function ErrorRecords(records: seq<LogData>): (r: seq<LogData>)
    ensures |r| <= |records|
    ensures forall x :: x in r ==> x in records && x.level == ERROR
    ensures forall x :: x in records && x.level == ERROR ==> x in r
  {
    if |records| == 0 then []
    else (if records[0].level == ERROR then [records[0]] else []) + ErrorRecords(records[1..])
  }

  lemma {:induction false} ErrorRecordsSnoc(records: seq<LogData>, d: LogData)
    ensures ErrorRecords(records + [d]) == ErrorRecords(records) + (if d.level == ERROR then [d] else [])
  {
    if |records| == 0 {
      assert records + [d] == [d];
    } else {
      assert (records + [d])[1..] == records[1..] + [d];
      ErrorRecordsSnoc(records[1..], d);
    }
  }

  // ---------------------------------------------------------------------
  // The transport
  // ---------------------------------------------------------------------

  /** The state the transport keeps, on the two files' contents and records. */
  ghost predicate Consistent(appLog: string, errorLog: string, app: seq<LogData>, errs: seq<LogData>, clean: bool) {
    appLog == Journal(app)
    && errorLog == Journal(errs)
    && (forall x :: x in errs ==> x.level == ERROR && x in app)
    && (clean ==> errs == ErrorRecords(app))
  }

  /** A successful append to `app.log` alone keeps the state consistent, and clean unless the record is an ERROR. */
  lemma {:induction false} AppendApp(appLog: string, errorLog: string, app: seq<LogData>, errs: seq<LogData>, clean: bool, d: LogData)
    requires Consistent(appLog, errorLog, app, errs, clean)
    ensures Consistent(appLog + Entry(d), errorLog, app + [d], errs, clean && d.level != ERROR)
  {
    JournalSnoc(app, d);
    ErrorRecordsSnoc(app, d);
    assert forall x :: x in errs ==> x in app + [d];
  }

  /** Successful appends of an ERROR record to both files keep the state consistent. */
  lemma {:induction false} AppendBoth(appLog: string, errorLog: string, app: seq<LogData>, errs: seq<LogData>, clean: bool, d: LogData)
    requires Consistent(appLog, errorLog, app, errs, clean) && d.level == ERROR
    ensures Consistent(appLog + Entry(d), errorLog + Entry(d), app + [d], errs + [d], clean)
  {
    JournalSnoc(app, d);
    JournalSnoc(errs, d);
    ErrorRecordsSnoc(app, d);
    assert forall x :: x in errs ==> x in app + [d];
  }

  class FileTransport {
    const logDirectory: string
    const appLogPath: string
    const errorLogPath: string

    /** The contents of `app.log` and `error.log`. */
    var appLog: string
    var errorLog: string
    /** The `console.error` reports made so far. */
    var reports: seq<string>

    /** The records whose entries each file holds. */
    ghost var appRecords: seq<LogData>
    ghost var errorRecords: seq<LogData>
    /** Whether every append so far has succeeded. */
    ghost var clean: bool

    /**
     * Each file holds its records' entries; `error.log` only ERROR records,
     * each also in `app.log`; and while no append has failed, `error.log`
     * holds exactly the ERROR records of `app.log`.
     */
    ghost predicate Valid()
      reads this
    {
      Consistent(appLog, errorLog, appRecords, errorRecords, clean)
    }

    /**
     * Derives the run directory from the working directory, the base
     * directory (`"logs"` when not given) and the construction time, and
     * starts creating it; `mkdirOk` is whether that succeeds.
     */
    constructor(cwd: string, baseDir: Option<string>, nowIso: string, mkdirOk: bool)
      ensures logDirectory == PathJoin(PathJoin(cwd, baseDir.GetOr(DefaultBaseDir)), RunStamp(nowIso))
      ensures appLogPath == PathJoin(logDirectory, AppLogName)
      ensures errorLogPath == PathJoin(logDirectory, ErrorLogName)
      ensures appLog == "" && errorLog == "" && appRecords == [] && errorRecords == [] && clean
      ensures reports == (if mkdirOk then [] else [DirectoryFailure])
      ensures Valid()
    {
      var runTimestamp := RunStamp(nowIso);
      logDirectory := PathJoin(PathJoin(cwd, baseDir.GetOr(DefaultBaseDir)), runTimestamp);
      appLogPath := PathJoin(PathJoin(PathJoin(cwd, baseDir.GetOr(DefaultBaseDir)), runTimestamp), AppLogName);
      errorLogPath := PathJoin(PathJoin(PathJoin(cwd, baseDir.GetOr(DefaultBaseDir)), runTimestamp), ErrorLogName);
      appLog, errorLog := "", "";
      appRecords, errorRecords, clean := [], [], true;
      reports := if mkdirOk then [] else [DirectoryFailure];
    }

    /**
     * Appends the record's entry to `app.log` and, for an ERROR record and
     * only once that append has succeeded, to `error.log`. `appOk` and
     * `errorOk` are the outcomes of the two appends; a failure is reported,
     * never thrown, and stops the rest.
     */
    method Log(d: LogData, appOk: bool, errorOk: bool)
      requires Valid()
      modifies this
      ensures Valid()
      ensures appRecords == old(appRecords) + (if appOk then [d] else [])
      ensures errorRecords == old(errorRecords) + (if appOk && errorOk && d.level == ERROR then [d] else [])
      ensures reports == old(reports) + (if !appOk || (d.level == ERROR && !errorOk) then [WriteFailure] else [])
      ensures appLog == old(appLog) + (if appOk then Entry(d) else "")
      ensures errorLog == old(errorLog) + (if appOk && errorOk && d.level == ERROR then Entry(d) else "")
      ensures clean == (old(clean) && appOk && (d.level == ERROR ==> errorOk))
    {
      var logEntry := SerializeRecord(d) + "\n";
      if !appOk {
        reports, clean := reports + [WriteFailure], false;
        return;
      }
      if d.level == ERROR && errorOk {
        AppendBoth(appLog, errorLog, appRecords, errorRecords, clean, d);
      } else {
        AppendApp(appLog, errorLog, appRecords, errorRecords, clean, d);
      }
      appLog, appRecords := appLog + logEntry, appRecords + [d];
      if d.level == ERROR {
        if !errorOk {
          reports, clean := reports + [WriteFailure], false;
          return;
        }
        errorLog, errorRecords := errorLog + logEntry, errorRecords + [d];
      }
    }
  }

  /**
   * When every append of a run has succeeded, `app.log` holds one line per
   * record logged, in order, and `error.log` one line per ERROR record among
   * them, in order: after N ERROR and M other records the files have N + M
   * and N lines.
   */
  lemma {:induction false} AllWritten(t: FileTransport)
    requires t.Valid() && t.clean
    ensures t.errorRecords == ErrorRecords(t.appRecords)
    ensures Split(t.appLog, '\n') == Lines(t.appRecords) + [""]
    ensures Split(t.errorLog, '\n') == Lines(ErrorRecords(t.appRecords)) + [""]
    ensures Count(t.appLog, '\n') == |t.appRecords|
    ensures Count(t.errorLog, '\n') == |ErrorRecords(t.appRecords)|
  {
    JournalLines(t.appRecords);
    JournalLines(t.errorRecords);
  }
}
