/**
 * The `Logger` component itself: its fields are updated in place by the
 * host's lifecycle calls (`Awake`, `Update`, `OnDisable`) and by the public
 * `OpenOffLog` and `RecordLog`. Every method is proved to leave the object
 * in the state the matching `LoggerSpec` function computes from the state
 * before the call; what those functions promise is proved in
 * `LoggerProperties`.
 *
 * The file system the logger writes is a field as well (`files`, `dirs`).
 * "now" (`DateTime.Now`) and whether a write throws an `IOException` are
 * parameters.
 */
module UnityLogger {
  import opened Wrappers
  import opened Levels
  import opened Timestamps
  import opened Format
  import opened Paths
  import LoggerSpec

  class Logger {
    /** `LogSwitch`: the public on/off switch. */
    var logSwitch: bool
    /** `_logQueue`: `None` while the field is null, i.e. before `Init`. */
    var logQueue: Option<seq<LogItem>>
    /** `_systemLogFileInfo`, `_webServerFilelInfo`, `_webSocketFileInfo`, as paths. */
    var systemLogFile: Option<string>
    var webServerLogFile: Option<string>
    var webSocketLogFile: Option<string>
    var lastCreateFileTime: Time
    /** How many times `UnityBuiltInLogCallback` is registered with the host. */
    var callbacks: nat
    /** The files on disk, one entry per written line, and the directories. */
    var files: LoggerSpec.FileSystem
    var dirs: set<string>

    function State(): LoggerSpec.LoggerState
      reads this
    {
      LoggerSpec.LoggerState(logSwitch, logQueue, systemLogFile, webServerLogFile, webSocketLogFile,
                             lastCreateFileTime, files, dirs, callbacks)
    }

    ghost predicate Valid()
      reads this
    {
      LoggerSpec.Valid(State())
    }

    /** The component as the host creates it: the switch as configured, every other field at its default. */
    constructor(logSwitch: bool, files: LoggerSpec.FileSystem, dirs: set<string>)
      ensures State() == LoggerSpec.Initial(logSwitch, files, dirs)
      ensures Valid()
    {
      this.logSwitch := logSwitch;
      logQueue := None;
      systemLogFile := None;
      webServerLogFile := None;
      webSocketLogFile := None;
      lastCreateFileTime := MinValue;
      callbacks := 0;
      this.files := files;
      this.dirs := dirs;
    }

    // ------------------------------------------------------------ files

    /** `File.Exists(p) ? info.AppendText() : info.CreateText()`: the writer, with the file created if absent. */
    method OpenWriter(path: string) returns (writer: Option<string>)
      modifies this
      ensures writer == Some(path)
      ensures State() == old(State()).(files := LoggerSpec.OpenWriter(old(files), path))
    {
      if path !in files {
        files := files[path := []];
      }
      writer := Some(path);
    }

    /**
     * `WriteLog`: write one line through the writer, unless it is null or
     * the write throws. The file records what was written; its text line is
     * `FormatLine` of the record (see `LoggerSpec.FileText`).
     */
    method WriteLog(writer: Option<string>, t: Time, level: LogLevel, message: string,
                    stackTrace: Option<string>, ioFailure: bool)
      modifies this
      ensures State() == old(State()).(files := LoggerSpec.WriteLog(old(files), writer, t, level, message, stackTrace, ioFailure))
    {
      if writer.Some? && !ioFailure {
        files := files[writer.value := LoggerSpec.Content(files, writer.value) + [LogItem(message, stackTrace, level, t)]];
      }
    }

    /** `if (!Directory.Exists(folder)) Directory.CreateDirectory(folder)`. */
    method CreateFolderIfAbsent(folder: string)
      modifies this
      ensures State() == old(State()).(dirs := old(dirs) + {folder})
    {
      if folder !in dirs {
        dirs := dirs + {folder};
      }
    }

    // ------------------------------------------------------------ queue

    /**
     * `LogEnqueue`: append an item stamped with `now`. With the queue still
     * null the call throws (`thrown`) and nothing changes.
     */
    method LogEnqueue(message: string, level: LogLevel, stackTrace: Option<string>, now: Time)
      returns (thrown: bool)
      requires Valid()
      modifies this
      ensures Valid()
      ensures thrown <==> LoggerSpec.LogEnqueue(old(State()), message, level, stackTrace, now).None?
      ensures State() == if thrown then old(State())
                         else LoggerSpec.LogEnqueue(old(State()), message, level, stackTrace, now).value
    {
      if logQueue.None? {
        return true;
      }
      logQueue := Some(logQueue.value + [LogItem(message, stackTrace, level, now)]);
      thrown := false;
    }

    /** `GetLogItemFromQueue`: dequeue the head, or nothing when the queue is empty or null. */
    method GetLogItemFromQueue() returns (item: Option<LogItem>)
      requires Valid()
      modifies this
      ensures Valid()
      ensures (item, State()) == LoggerSpec.GetLogItemFromQueue(old(State()))
    {
      item := None;
      if logQueue.Some? {
        if |logQueue.value| > 0 {
          item := Some(logQueue.value[0]);
          logQueue := Some(logQueue.value[1..]);
        }
      }
    }

    // ------------------------------------------------------------ rotation

    /** `CreateLogFileByTime`: each stream whose file for the hour of `t` is absent gets it, empty, as its current file. */
    method CreateLogFileByTime(t: Time)
      requires LoggerSpec.FilesValid(State())
      modifies this
      ensures State() == LoggerSpec.CreateLogFileByTime(old(State()), t)
    {
      var systemLogPath := StreamPath(SystemStream, t);
      var webServerLogPath := StreamPath(WebServerStream, t);
      var webSocketLogPath := StreamPath(SocketStream, t);
      if systemLogPath !in files {
        files := files[systemLogPath := []];
        systemLogFile := Some(systemLogPath);
      }
      if webServerLogPath !in files {
        files := files[webServerLogPath := []];
        webServerLogFile := Some(webServerLogPath);
      }
      if webSocketLogPath !in files {
        files := files[webSocketLogPath := []];
        webSocketLogFile := Some(webSocketLogPath);
      }
    }

    /** `IsNeedCreateAnotherFile`: rotate when the `yyyyMMddHH` key of now differs from the last rotation's. */
    method IsNeedCreateAnotherFile(now: Time)
      requires Valid()
      modifies this
      ensures State() == LoggerSpec.IsNeedCreateAnotherFile(old(State()), now)
      ensures Valid()
    {
      if CompactHourKey(lastCreateFileTime) != CompactHourKey(now) {
        CreateLogFileByTime(now);
        lastCreateFileTime := now;
      }
    }

    // ------------------------------------------------------------ draining

    /**
     * `RecordLog(LogItem)`: with the switch on, rotate if needed, open the
     * writer of the stream the item's level belongs to and write the item.
     */
    method RecordLog(item: LogItem, now: Time, ioFailure: bool)
      requires Valid() && logQueue.Some?
      modifies this
      ensures State() == LoggerSpec.RecordLog(old(State()), item, now, ioFailure)
      ensures Valid()
    {
      if logSwitch {
        IsNeedCreateAnotherFile(now);
        ghost var st1 := State();
        var logStreamWriter: Option<string>;
        match item.level {
          case Debug | Info | WARNING | ERROR | Exception =>
            logStreamWriter := OpenWriter(systemLogFile.value);
          case Request | Response =>
            logStreamWriter := OpenWriter(webServerLogFile.value);
          case Socket =>
            logStreamWriter := OpenWriter(webSocketLogFile.value);
        }
        ghost var path := LoggerSpec.CurrentFile(st1, Route(item.level)).value;
        assert logStreamWriter == Some(path);
        assert State() == st1.(files := LoggerSpec.OpenWriter(st1.files, path));
        WriteLog(logStreamWriter, item.time, item.level, item.message, item.stackTrace, ioFailure);
      }
    }

    /** `Update`: each frame, dequeue at most one item and record it. */
    method Update(now: Time, ioFailure: bool)
      requires Valid()
      modifies this
      ensures State() == LoggerSpec.Update(old(State()), now, ioFailure)
      ensures Valid()
    {
      var logItemToRecord := GetLogItemFromQueue();
      if logItemToRecord.Some? {
        RecordLog(logItemToRecord.value, now, ioFailure);
      }
    }

    // ------------------------------------------------------------ lifecycle

    /**
     * One stream's block of `InitLogFiles`: point the stream at its file for
     * now's hour, open that file's writer and write the startup marker.
     */
    method InitStreamFile(s: Stream, now: Time, ioFailure: bool)
      requires LoggerSpec.FilesValid(State())
      modifies this
      ensures State() == LoggerSpec.InitStreamFile(old(State()), s, now, ioFailure)
    {
      var path := StreamPath(s, now);
      match s {
        case SystemStream => systemLogFile := Some(path);
        case WebServerStream => webServerLogFile := Some(path);
        case SocketStream => webSocketLogFile := Some(path);
      }
      ghost var st1 := State();
      assert st1 == LoggerSpec.SetCurrentFile(old(State()), s, path);
      var streamWriter := OpenWriter(path);
      WriteLog(streamWriter, now, Info, LoggerSpec.StartupMarker, None, ioFailure);
    }

    /** `InitLogFiles`: create the folders, then initialise the System, WebServer and WebSocket streams in turn. */
    method InitLogFiles(now: Time, failed: set<Stream>)
      requires LoggerSpec.FilesValid(State())
      modifies this
      ensures State() == LoggerSpec.InitLogFiles(old(State()), now, failed)
    {
      CreateFolderIfAbsent(SystemLogFolder);
      CreateFolderIfAbsent(WebServerLogFolder);
      CreateFolderIfAbsent(WebSocketLogFolder);
      ghost var st0 := State();
      assert st0 == old(State()).(dirs := old(dirs) + {SystemLogFolder, WebServerLogFolder, WebSocketLogFolder});
      InitStreamFile(SystemStream, now, SystemStream in failed);
      InitStreamFile(WebServerStream, now, WebServerStream in failed);
      InitStreamFile(SocketStream, now, SocketStream in failed);
    }

    /** `Init`: a new empty queue, the log files, and one more registration of the host callback. */
    method Init(now: Time, failed: set<Stream>)
      requires Valid()
      modifies this
      ensures State() == LoggerSpec.Init(old(State()), now, failed)
      ensures Valid()
    {
      logQueue := Some([]);
      ghost var st0 := State();
      assert st0 == old(State()).(logQueue := Some([]));
      InitLogFiles(now, failed);
      assert State() == LoggerSpec.InitLogFiles(st0, now, failed);
      callbacks := callbacks + 1;
    }

    /** `Awake`: initialise only when the switch is configured on. */
    method Awake(now: Time, failed: set<Stream>)
      requires Valid()
      modifies this
      ensures State() == LoggerSpec.Awake(old(State()), now, failed)
      ensures Valid()
    {
      if !logSwitch {
        return;
      }
      Init(now, failed);
    }

    /** One stream's block of `OnDisable`: if the stream has a file, open its writer and write the shutdown marker. */
    method DisableStreamFile(s: Stream, now: Time, ioFailure: bool)
      requires LoggerSpec.FilesValid(State())
      modifies this
      ensures State() == LoggerSpec.DisableStreamFile(old(State()), s, now, ioFailure)
    {
      var file := LoggerSpec.CurrentFile(State(), s);
      if file.Some? {
        var sw := OpenWriter(file.value);
        WriteLog(sw, now, Info, LoggerSpec.ShutdownMarker, None, ioFailure);
      }
    }

    /** `OnDisable`: the shutdown marker, written directly, to each stream that has a file, in stream order. */
    method OnDisable(now: Time, failed: set<Stream>)
      requires Valid()
      modifies this
      ensures State() == LoggerSpec.OnDisable(old(State()), now, failed)
      ensures Valid()
    {
      DisableStreamFile(SystemStream, now, SystemStream in failed);
      DisableStreamFile(WebServerStream, now, WebServerStream in failed);
      DisableStreamFile(SocketStream, now, SocketStream in failed);
    }

    // ------------------------------------------------------------ public interface

    /** `OpenOffLog`: on when off runs `Init` (the switch itself stays off); off when on clears the switch and unregisters the callback. */
    method OpenOffLog(openOff: bool, now: Time, failed: set<Stream>)
      requires Valid()
      modifies this
      ensures State() == LoggerSpec.OpenOffLog(old(State()), openOff, now, failed)
      ensures Valid()
    {
      if openOff {
        if !logSwitch {
          Init(now, failed);
        }
      } else {
        if logSwitch {
          logSwitch := false;
          if callbacks > 0 {
            callbacks := callbacks - 1;
          }
        }
      }
    }

    /** `UnityBuiltInLogCallback`, invoked by the host while registered: enqueue with the level the host's type maps to. */
    method UnityBuiltInLogCallback(condition: string, stackTrace: string, t: LogType, now: Time)
      requires Valid() && callbacks > 0
      modifies this
      ensures State() == LoggerSpec.UnityBuiltInLogCallback(old(State()), condition, stackTrace, t, now)
      ensures Valid()
    {
      var _ := LogEnqueue(condition, HostLevel(t), Some(stackTrace), now);
    }

    /** The public `RecordLog(context, level)`: enqueue without a stack trace; throws before `Init`. */
    method RecordMessage(context: string, level: LogLevel, now: Time) returns (thrown: bool)
      requires Valid()
      modifies this
      ensures Valid()
      ensures thrown <==> LoggerSpec.RecordMessage(old(State()), context, level, now).None?
      ensures State() == if thrown then old(State()) else LoggerSpec.RecordMessage(old(State()), context, level, now).value
    {
      thrown := LogEnqueue(context, level, None, now);
    }
  }
}
