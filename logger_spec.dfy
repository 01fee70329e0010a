/**
 * The logger as a value: its fields and the file system it writes, and one
 * function per operation giving the state after it. The `Logger` class is
 * proved against these functions; the lemmas below state what the
 * operations promise (FIFO draining, routing, hour rotation, the switch and
 * the lifecycle markers).
 *
 * The file system is a map from path to the records written to it, one
 * record per `WriteLine`; the file's text is those records' formatted
 * lines (`FileText`). Directories are a set of paths. "now" is a
 * parameter, and so is whether a write throws an `IOException`.
 */
module LoggerSpec {
  import opened Wrappers
  import opened Levels
  import opened Timestamps
  import opened Format
  import opened Paths
  import opened Seqs

  const StartupMarker: string := "--------------------------程序启动--------------------------"
  /** The host's line break (Windows' CR LF). */
  const NewLine: string := "\r\n"
  const ShutdownMarker: string := "--------------------------程序关闭--------------------------" + NewLine + NewLine

  type FileSystem = map<string, seq<LogItem>>

  /**
   * The logger's fields: the switch, the queue (`None` until `Init` creates
   * it), the current file of each stream (`None` until `Init`), the time of
   * the last rotation, and how many times the host callback is registered;
   * plus the files and directories on disk.
   */
  datatype LoggerState = LoggerState(
    logSwitch: bool,
    logQueue: Option<seq<LogItem>>,
    systemLogFile: Option<string>,
    webServerLogFile: Option<string>,
    webSocketLogFile: Option<string>,
    lastCreateFileTime: Time,
    files: FileSystem,
    dirs: set<string>,
    callbacks: nat)

  function CurrentFile(st: LoggerState, s: Stream): Option<string> {
    match s
    case SystemStream => st.systemLogFile
    case WebServerStream => st.webServerLogFile
    case SocketStream => st.webSocketLogFile
  }

  function SetCurrentFile(st: LoggerState, s: Stream, path: string): (r: LoggerState)
    ensures CurrentFile(r, s) == Some(path)
    ensures forall s' :: s' != s ==> CurrentFile(r, s') == CurrentFile(st, s')
  {
    match s
    case SystemStream => st.(systemLogFile := Some(path))
    case WebServerStream => st.(webServerLogFile := Some(path))
    case SocketStream => st.(webSocketLogFile := Some(path))
  }

  /** A stream's current file, once set, exists and lies in that stream's own series. */
  predicate StreamFileValid(st: LoggerState, s: Stream) {
    CurrentFile(st, s).Some? ==> InStream(s, CurrentFile(st, s).value) && CurrentFile(st, s).value in st.files
  }

  predicate FilesValid(st: LoggerState) {
    StreamFileValid(st, SystemStream) && StreamFileValid(st, WebServerStream) && StreamFileValid(st, SocketStream)
  }

  /** All three current files are set, as `Init` leaves them. */
  predicate FilesSet(st: LoggerState) {
    st.systemLogFile.Some? && st.webServerLogFile.Some? && st.webSocketLogFile.Some?
  }

  /**
   * The invariant every operation keeps: once the queue exists, `Init` has
   * set all three current files and created the folders; a registered
   * callback implies the queue exists.
   */
  predicate Valid(st: LoggerState) {
    && FilesValid(st)
    && (st.logQueue.Some? ==>
          FilesSet(st)
          && {SystemLogFolder, WebServerLogFolder, WebSocketLogFolder} <= st.dirs)
    && (st.callbacks > 0 ==> st.logQueue.Some?)
  }

  /** The state before `Awake`: the switch as configured, no queue, no current files. */
  function Initial(logSwitch: bool, files: FileSystem, dirs: set<string>): (r: LoggerState)
    ensures Valid(r)
  {
    LoggerState(logSwitch, None, None, None, None, MinValue, files, dirs, 0)
  }

  // ---------------------------------------------------------------- files

  /** The records in a file; an absent file has none. */
  function Content(files: FileSystem, path: string): seq<LogItem> {
    if path in files then files[path] else []
  }

  /** A file's text: one formatted line per record written to it, in order. */
  function FileText(files: FileSystem, path: string): (r: seq<string>)
    ensures |r| == |Content(files, path)|
  {
    Lines(Content(files, path))
  }

  /** `File.Exists(p) ? info.AppendText() : info.CreateText()`: opening creates an absent file, empty. */
  function OpenWriter(files: FileSystem, path: string): (r: FileSystem)
  {
    files[path := Content(files, path)]
  }

  /**
   * `WriteLog`: with a writer, one record is appended to its file;
   * a null writer or an `IOException` (caught) leaves the files as they are.
   */
  function WriteLog(files: FileSystem, writer: Option<string>, t: Time, level: LogLevel,
                    message: string, stackTrace: Option<string>, ioFailure: bool): (r: FileSystem)
  {
    if writer.None? || ioFailure then files
    else files[writer.value := Content(files, writer.value) + [LogItem(message, stackTrace, level, t)]]
  }

  /** Open a file's writer and write one entry through it. */
  function OpenAndWrite(files: FileSystem, path: string, t: Time, level: LogLevel,
                        message: string, stackTrace: Option<string>, ioFailure: bool): FileSystem
  {
    WriteLog(OpenWriter(files, path), Some(path), t, level, message, stackTrace, ioFailure)
  }

  /**
   * A write touches exactly one file: the target gains the record, so its
   * text gains the record's formatted line (or, if the write throws, the
   * file only exists); every other file is as before.
   */
  lemma WriteAppendsOneEntry(files: FileSystem, path: string, t: Time, level: LogLevel,
                             message: string, stackTrace: Option<string>, ioFailure: bool)
    ensures var r := OpenAndWrite(files, path, t, level, message, stackTrace, ioFailure);
      && r.Keys == files.Keys + {path}
      && Content(r, path) == Content(files, path) + (if ioFailure then [] else [LogItem(message, stackTrace, level, t)])
      && FileText(r, path) == FileText(files, path) + (if ioFailure then [] else [FormatLine(t, level, message, stackTrace)])
      && forall q :: q in files && q != path ==> r[q] == files[q]
  {
    var r := OpenAndWrite(files, path, t, level, message, stackTrace, ioFailure);
    var added := if ioFailure then [] else [LogItem(message, stackTrace, level, t)];
    OpenAndWriteRecords(files, path, t, level, message, stackTrace, ioFailure);
    MapAppend(ItemLine, Content(files, path), added);
    if !ioFailure {
      assert Lines(added) == [ItemLine(added[0])] + Lines([]);
    }
  }

  /** The records after one write: the target gains the entry unless the write throws; no other file changes. */
  lemma OpenAndWriteRecords(files: FileSystem, path: string, t: Time, level: LogLevel,
                            message: string, stackTrace: Option<string>, ioFailure: bool)
    ensures var r := OpenAndWrite(files, path, t, level, message, stackTrace, ioFailure);
      && r.Keys == files.Keys + {path}
      && Content(r, path) == Content(files, path) + (if ioFailure then [] else [LogItem(message, stackTrace, level, t)])
      && forall q :: q in files && q != path ==> r[q] == files[q]
  {
  }

  /** The same, file by file: only the target can gain a record. */
  lemma OpenAndWriteContent(files: FileSystem, path: string, t: Time, level: LogLevel,
                            message: string, stackTrace: Option<string>, ioFailure: bool, p: string)
    ensures Content(OpenAndWrite(files, path, t, level, message, stackTrace, ioFailure), p)
            == Content(files, p) + (if p == path && !ioFailure then [LogItem(message, stackTrace, level, t)] else [])
  {
    OpenAndWriteRecords(files, path, t, level, message, stackTrace, ioFailure);
  }

  /** Opening a writer never changes a file's records: an existing file is kept, an absent one created empty. */
  lemma OpenWriterKeepsRecords(files: FileSystem, path: string)
    ensures var r := OpenWriter(files, path);
      && r.Keys == files.Keys + {path}
      && (path in files ==> r == files)
      && forall p :: Content(r, p) == Content(files, p)
  {
  }

  /** A write through an open writer that does not throw appends one record to that file and to no other. */
  lemma WriteLogAppendsToWriter(files: FileSystem, path: string, t: Time, level: LogLevel,
                                message: string, stackTrace: Option<string>)
    ensures var r := WriteLog(files, Some(path), t, level, message, stackTrace, false);
      && r.Keys == files.Keys + {path}
      && Content(r, path) == Content(files, path) + [LogItem(message, stackTrace, level, t)]
      && forall p :: p != path ==> Content(r, p) == Content(files, p)
  {
  }

  /** A null writer changes nothing, and neither does a write that throws: the exception is swallowed. */
  lemma WriteLogFailsQuietly(files: FileSystem, writer: Option<string>, t: Time, level: LogLevel,
                             message: string, stackTrace: Option<string>, ioFailure: bool)
    ensures WriteLog(files, None, t, level, message, stackTrace, ioFailure) == files
    ensures WriteLog(files, writer, t, level, message, stackTrace, true) == files
  {
  }

  // ---------------------------------------------------------------- queue

  /**
   * `LogEnqueue`: the item, stamped with `now`, goes to the tail. Before
   * `Init` the queue is null and the call throws (`None`), changing nothing.
   */
  function LogEnqueue(st: LoggerState, message: string, level: LogLevel, stackTrace: Option<string>, now: Time)
    : (r: Option<LoggerState>)
    requires Valid(st)
    ensures r.Some? <==> st.logQueue.Some?
    ensures r.Some? ==>
      && Valid(r.value)
      && r.value.logQueue == Some(st.logQueue.value + [LogItem(message, stackTrace, level, now)])
      && r.value == st.(logQueue := r.value.logQueue)
  {
    match st.logQueue
    case None => None
    case Some(q) => Some(st.(logQueue := Some(q + [LogItem(message, stackTrace, level, now)])))
  }

  /**
   * `GetLogItemFromQueue`: the head item and the state without it, or
   * nothing (and no change) when the queue is empty or not yet created.
   */
  function GetLogItemFromQueue(st: LoggerState): (r: (Option<LogItem>, LoggerState))
    requires Valid(st)
    ensures Valid(r.1)
    ensures r.0.Some? <==> st.logQueue.Some? && st.logQueue.value != []
    ensures r.0.Some? ==>
      && r.0.value == st.logQueue.value[0]
      && r.1 == st.(logQueue := Some(st.logQueue.value[1..]))
    ensures r.0.None? ==> r.1 == st
  {
    match st.logQueue
    case Some(q) =>
      if |q| > 0 then (Some(q[0]), st.(logQueue := Some(q[1..]))) else (None, st)
    case None => (None, st)
  }

  // ---------------------------------------------------------------- rotation

  /** One of the three `if (!File.Exists(path))` blocks of `CreateLogFileByTime`. */
  function CreateStreamFile(st: LoggerState, s: Stream, t: Time): (r: LoggerState)
    requires FilesValid(st)
    ensures FilesValid(r)
    ensures r == st.(files := r.files, systemLogFile := r.systemLogFile,
                     webServerLogFile := r.webServerLogFile, webSocketLogFile := r.webSocketLogFile)
  {
    var path := StreamPath(s, t);
    StreamPathInStream(s, t);
    if path in st.files then st else SetCurrentFile(st.(files := st.files[path := []]), s, path)
  }

  /** `CreateLogFileByTime`: each stream whose file for the hour of `t` is absent gets it, empty, as its current file. */
  function CreateLogFileByTime(st: LoggerState, t: Time): (r: LoggerState)
    requires FilesValid(st)
    ensures FilesValid(r)
  {
    CreateStreamFile(CreateStreamFile(CreateStreamFile(st, SystemStream, t), WebServerStream, t), SocketStream, t)
  }

  /** `IsNeedCreateAnotherFile`: rotate all three streams when the `yyyyMMddHH` key of now differs from the last rotation's. */
  function IsNeedCreateAnotherFile(st: LoggerState, now: Time): (r: LoggerState)
    requires Valid(st)
    ensures Valid(r)
    ensures r.logSwitch == st.logSwitch && r.logQueue == st.logQueue
         && r.dirs == st.dirs && r.callbacks == st.callbacks
  {
    if CompactHourKey(st.lastCreateFileTime) != CompactHourKey(now) then
      CreateLogFileByTime(st, now).(lastCreateFileTime := now)
    else st
  }

  // ---------------------------------------------------------------- draining

  /**
   * `RecordLog(LogItem)`: with the switch on, rotate if the hour changed,
   * then write the item's line to the current file of the stream its level
   * routes to. With the switch off nothing happens.
   */
  function RecordLog(st: LoggerState, item: LogItem, now: Time, ioFailure: bool): (r: LoggerState)
    requires Valid(st) && st.logQueue.Some?
    ensures Valid(r)
    ensures r.logSwitch == st.logSwitch && r.logQueue == st.logQueue
         && r.dirs == st.dirs && r.callbacks == st.callbacks
    ensures !st.logSwitch ==> r == st
  {
    if !st.logSwitch then st
    else
      var st1 := IsNeedCreateAnotherFile(st, now);
      var path := CurrentFile(st1, Route(item.level)).value;
      st1.(files := OpenAndWrite(st1.files, path, item.time, item.level, item.message, item.stackTrace, ioFailure))
  }

  /** `Update`: one tick drains at most one item. */
  function Update(st: LoggerState, now: Time, ioFailure: bool): (r: LoggerState)
    requires Valid(st)
    ensures Valid(r)
    ensures r.logSwitch == st.logSwitch && r.dirs == st.dirs && r.callbacks == st.callbacks
    ensures st.logQueue.Some? && st.logQueue.value != [] ==> r.logQueue == Some(st.logQueue.value[1..])
    ensures st.logQueue.None? || st.logQueue.value == [] ==> r == st
  {
    var (item, st1) := GetLogItemFromQueue(st);
    if item.None? then st1 else RecordLog(st1, item.value, now, ioFailure)
  }

  // ---------------------------------------------------------------- lifecycle

  /** One stream's part of `InitLogFiles`: point it at the file for now's hour and write the startup marker. */
  function InitStreamFile(st: LoggerState, s: Stream, now: Time, ioFailure: bool): (r: LoggerState)
    requires FilesValid(st)
    ensures FilesValid(r)
  {
    var path := StreamPath(s, now);
    StreamPathInStream(s, now);
    var st1 := SetCurrentFile(st, s, path);
    st1.(files := OpenAndWrite(st1.files, path, now, Info, StartupMarker, None, ioFailure))
  }

  /**
   * One stream's initialisation points the stream at now's file, creates
   * that file if absent and appends the startup marker to it (nothing, if
   * the write throws); no other file, stream or field changes.
   */
  lemma InitStreamFileEffect(st: LoggerState, s: Stream, now: Time, ioFailure: bool)
    requires FilesValid(st)
    ensures var r := InitStreamFile(st, s, now, ioFailure);
      var path := StreamPath(s, now);
      && CurrentFile(r, s) == Some(path)
      && (forall s' :: s' != s ==> CurrentFile(r, s') == CurrentFile(st, s'))
      && r.files.Keys == st.files.Keys + {path}
      && (forall p :: Content(r.files, p) == Content(st.files, p)
           + (if p == path && !ioFailure then [LogItem(StartupMarker, None, Info, now)] else []))
      && r.logSwitch == st.logSwitch && r.logQueue == st.logQueue && r.lastCreateFileTime == st.lastCreateFileTime
      && r.dirs == st.dirs && r.callbacks == st.callbacks
  {
  }

  /** `InitLogFiles`: create the three folders, then initialise the three streams in order. */
  function InitLogFiles(st: LoggerState, now: Time, failed: set<Stream>): (r: LoggerState)
    requires FilesValid(st)
    ensures FilesValid(r)
  {
    var st0 := st.(dirs := st.dirs + {SystemLogFolder, WebServerLogFolder, WebSocketLogFolder});
    var st1 := InitStreamFile(st0, SystemStream, now, SystemStream in failed);
    var st2 := InitStreamFile(st1, WebServerStream, now, WebServerStream in failed);
    InitStreamFile(st2, SocketStream, now, SocketStream in failed)
  }

  /** `Init`: a fresh empty queue, the log files, and one more callback registration. */
  function Init(st: LoggerState, now: Time, failed: set<Stream>): (r: LoggerState)
    requires Valid(st)
    ensures Valid(r)
  {
    InitLogFiles(st.(logQueue := Some([])), now, failed).(callbacks := st.callbacks + 1)
  }

  /** `Awake`: initialise only when the switch is configured on. */
  function Awake(st: LoggerState, now: Time, failed: set<Stream>): (r: LoggerState)
    requires Valid(st)
    ensures Valid(r)
  {
    if st.logSwitch then Init(st, now, failed) else st
  }

  /** One stream's part of `OnDisable`: the shutdown marker, written directly, if the stream has a file. */
  function DisableStreamFile(st: LoggerState, s: Stream, now: Time, ioFailure: bool): (r: LoggerState)
    requires FilesValid(st)
    ensures FilesValid(r)
    ensures CurrentFile(st, s).None? || ioFailure ==> r == st
    ensures CurrentFile(st, s).Some? ==>
      var path := CurrentFile(st, s).value;
      && r == st.(files := r.files)
      && r.files.Keys == st.files.Keys
      && Content(r.files, path) == Content(st.files, path) + (if ioFailure then [] else [LogItem(ShutdownMarker, None, Info, now)])
      && r.files - {path} == st.files - {path}
  {
    match CurrentFile(st, s)
    case None => st
    case Some(path) =>
      st.(files := OpenAndWrite(st.files, path, now, Info, ShutdownMarker, None, ioFailure))
  }

  /** `OnDisable`: shutdown markers to the three streams in order, bypassing the queue. */
  function OnDisable(st: LoggerState, now: Time, failed: set<Stream>): (r: LoggerState)
    requires Valid(st)
    ensures Valid(r)
  {
    var st1 := DisableStreamFile(st, SystemStream, now, SystemStream in failed);
    var st2 := DisableStreamFile(st1, WebServerStream, now, WebServerStream in failed);
    DisableStreamFile(st2, SocketStream, now, SocketStream in failed)
  }

  /**
   * `OpenOffLog`: turning on when off runs `Init` (and leaves the switch
   * off); turning off when on clears the switch and removes one callback
   * registration; otherwise nothing happens.
   */
  function OpenOffLog(st: LoggerState, openOff: bool, now: Time, failed: set<Stream>): (r: LoggerState)
    requires Valid(st)
    ensures Valid(r)
  {
    if openOff then
      if !st.logSwitch then Init(st, now, failed) else st
    else if st.logSwitch then
      st.(logSwitch := false, callbacks := if st.callbacks > 0 then st.callbacks - 1 else 0)
    else st
  }

  /** `UnityBuiltInLogCallback`, as the host invokes it while registered: enqueue with the mapped level. */
  function UnityBuiltInLogCallback(st: LoggerState, condition: string, stackTrace: string, t: LogType, now: Time)
    : (r: LoggerState)
    requires Valid(st) && st.callbacks > 0
    ensures Valid(r)
  {
    LogEnqueue(st, condition, HostLevel(t), Some(stackTrace), now).value
  }

  /** The public `RecordLog(context, level)`: enqueue without a stack trace; throws (`None`) before `Init`. */
  function RecordMessage(st: LoggerState, context: string, level: LogLevel, now: Time): (r: Option<LoggerState>)
    requires Valid(st)
    ensures r.Some? ==> Valid(r.value)
  {
    LogEnqueue(st, context, level, None, now)
  }
}
