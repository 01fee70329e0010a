# Unity file logger, modelled in Dafny

This project models the `Logger` component of a Unity application (`Assets/Scenes/Logger.cs`). The component is an in-process log sink. Producers put log items on a queue: the host engine through its log callback, or code through the public `RecordLog(context, level)`. Once per frame, `Update` takes at most one item off the queue. It writes that item as one text line to one of three hourly files, routed by the item's level:

- the System log;
- the WebServer log;
- the WebSocket log.

A shared "last rotation" time decides when a new hour starts. At that point, every stream whose file for the new hour does not exist yet is moved to a newly created, empty file. `Init` writes a startup marker to the three files. `OnDisable` writes a shutdown marker to them. `OpenOffLog` is the public switch.

The modules:

- `Levels`: the `LogLevel` and host `LogType` enums, the level names as printed, the level → stream routing and the host type → level table.
- `Timestamps`: a broken-down date and time, fixed-width zero-padded digit rendering, the `yyyy-MM-dd`, `HH:mm:ss.ff`, `yyyyMMdd_HH` and `yyyyMMddHH` keys.
- `Text`: the host runtime's `Trim` and left-aligned padding.
- `Format`: `LogItem` and the line `WriteLog` writes for it.
- `Paths`: the three folders and the hourly file names.
- `LoggerSpec`: the logger's state as a value, plus one function per operation giving the state after it. The state holds the fields and the file system the logger writes. A file is the sequence of records written to it, one per `WriteLine`. Its text (`FileText`) is those records' formatted lines.
- `LoggerProperties`: lemmas about those functions, namely:
  - FIFO order per stream, within an hour and across rotations;
  - routing;
  - hour rotation;
  - the switch;
  - the markers.
- `UnityLogger`: the `Logger` class. Its fields are updated in place by methods that follow the source statement by statement. Each method is proved to leave the object in the state the matching `LoggerSpec` function gives.
- `Seqs`, `Wrappers`: `Map` over a sequence, subsequences, and `Option`.

"Now" (`DateTime.Now`) is a parameter of every operation that reads the clock. Whether a file write throws an `IOException` is also a parameter: a flag per write, or the set of streams whose write fails.

Behaviour of the code worth knowing:

- **Enabling is not idempotent.** `OpenOffLog(true)` never sets `LogSwitch`, so every call made while the switch is off runs `Init` again. Each call means another empty queue, another startup marker in each file and another callback registration. With two registrations, the host hands every message to the callback twice. See `SwitchOnTwiceInitsTwice` and `SwitchOnTwiceQueuesHostMessagesTwice`.
- **Rotation state is shared.** One `_lastCreateFileTime` is used for all streams, not one per stream. The hour is compared against "now", not against the item's time. A rotation creates the new-hour file of every stream, including streams that get no traffic.
- **The first rotation starts from `DateTime.MinValue`.** `Init` never sets `_lastCreateFileTime`, so the first item written after `Init` always triggers a rotation check that fires. It re-points no stream if the files for the current hour already exist.

## Model

| member | source | states |
|---|---|---|
| Levels.LevelName | Assets/Scenes/Logger.cs:358-393 | a level prints as its declared name, 4 to 9 letters long |
| Levels.LevelNameInjective | Assets/Scenes/Logger.cs:358-393 | two levels print the same name exactly when they are the same level |
| Levels.Route | Assets/Scenes/Logger.cs:211-233 | a level is written to the WebServer stream iff it is Request or Response, to the WebSocket stream iff it is Socket, and otherwise to the System stream |
| Levels.RouteTable | Assets/Scenes/Logger.cs:211-233 | Debug, Info, WARNING, ERROR and Exception go to the System stream, Request and Response to WebServer, Socket to WebSocket, each iff |
| Levels.HostLevel | Assets/Scenes/Logger.cs:112-118 | the host table only yields Info, WARNING, ERROR and Exception, and yields ERROR exactly for Assert and Error |
| Levels.HostLevelRoutesToSystem | Assets/Scenes/Logger.cs:112-118 | every host log type maps to a level routed to the System stream |
| Levels.HostLevelKeepsTrace | Assets/Scenes/Logger.cs:112-118 | a host message's level keeps its stack trace in the file exactly for Assert, Error and Exception |
| Timestamps.Digits | Assets/Scenes/Logger.cs:255 | a number renders as exactly `width` decimal digits |
| Timestamps.DigitsRoundTrip | Assets/Scenes/Logger.cs:255 | reading the rendered digits back gives the number |
| Timestamps.HourKey | Assets/Scenes/Logger.cs:154 | the `yyyyMMdd_HH` key has a fixed width of 11 characters |
| Timestamps.CompactHourKey | Assets/Scenes/Logger.cs:310 | the `yyyyMMddHH` key has a fixed width of 10 characters |
| Timestamps.HourKeyLayout | Assets/Scenes/Logger.cs:154 | the file-name key is ten digits with `_` at position 8, and the rotation key is the same digits without it |
| Timestamps.HourKeyIdentifiesHour | Assets/Scenes/Logger.cs:154-156 | two times have equal `yyyyMMdd_HH` keys iff they fall in the same hour of the same day |
| Timestamps.CompactHourKeyIdentifiesHour | Assets/Scenes/Logger.cs:310 | the `yyyyMMddHH` keys compared for rotation are equal iff the hour is the same |
| Text.Trim | Assets/Scenes/Logger.cs:255 | the trimmed trace is an infix of the trace, only white space lies outside it, and it neither starts nor ends with white space |
| Text.TrimIdempotent | Assets/Scenes/Logger.cs:255 | trimming twice gives the same result as trimming once |
| Text.TrimUnique | Assets/Scenes/Logger.cs:255 | any white-space-framed infix with non-space ends is the trimmed text |
| Text.PadRight | Assets/Scenes/Logger.cs:255 | `{2,-12}`: the text is kept whole and padded on the right with spaces to 12 characters |
| Format.Stamp | Assets/Scenes/Logger.cs:255 | the `[yyyy-MM-dd] [HH:mm:ss.ff] ` stamp is 27 characters long |
| Format.LevelFieldLayout | Assets/Scenes/Logger.cs:255 | the level field is exactly 12 characters: `[` name `]` followed by at least one space |
| Format.LevelFieldInjective | Assets/Scenes/Logger.cs:255 | the level field identifies the level |
| Format.FormatLineLayout | Assets/Scenes/Logger.cs:253-260 | a line is the stamp (0..27), the level field (27..39), ` - `, the message, then the trace suffix only when the gate holds |
| Format.TraceSuffixGate | Assets/Scenes/Logger.cs:253 | the line differs from the base line iff the trace is non-null and non-empty and the level is ERROR or Exception |
| Format.StampRoundTrip | Assets/Scenes/Logger.cs:255 | the seven time fields can be read back from the line's stamp |
| Format.TraceTrimmedOnErrorOnly | Assets/Scenes/Logger.cs:253-260 | a padded trace on an ERROR item is written trimmed after the separator; on an Info item it is not written |
| Paths.LogPathIdentifiesHour | Assets/Scenes/Logger.cs:182-184 | a folder and stem name the same file for two times iff they are in the same hour |
| Paths.StreamPathInStream | Assets/Scenes/Logger.cs:154-156 | a stream's file path starts with that stream's folder and stem |
| Paths.StreamPathLayout | Assets/Scenes/Logger.cs:154-156 | a stream's file path is its folder, `/`, its stem, the `yyyyMMdd_HH` key and `.txt` |
| Paths.DifferentStreamsDifferentFiles | Assets/Scenes/Logger.cs:137-139 | no path belongs to two streams |
| Paths.StreamPathsDistinct | Assets/Scenes/Logger.cs:182-184 | two stream files coincide iff same stream and same hour |
| LoggerSpec.Initial | Assets/Scenes/Logger.cs:16-27 | the new component has the configured switch, no queue, no current files, `MinValue` as last rotation and no registration, and satisfies the invariant |
| LoggerSpec.FileText | Assets/Scenes/Logger.cs:261 | a file's text has one line per record written to it |
| LoggerSpec.OpenWriterKeepsRecords | Assets/Scenes/Logger.cs:219 | opening a writer (`AppendText` if the file exists, else `CreateText`) creates an absent file empty and changes no file's records |
| LoggerSpec.WriteLogAppendsToWriter | Assets/Scenes/Logger.cs:246-269 | a write that does not throw appends the one record to the writer's file and to no other |
| LoggerSpec.WriteAppendsOneEntry | Assets/Scenes/Logger.cs:246-268 | opening and writing creates the file if absent and appends exactly one record, whose formatted line is appended to the text (nothing if the write throws); every other file is unchanged |
| LoggerSpec.WriteLogFailsQuietly | Assets/Scenes/Logger.cs:248-267 | a null writer, or a write that throws, leaves every file unchanged |
| LoggerSpec.LogEnqueue | Assets/Scenes/Logger.cs:288-300 | the item stamped now goes to the tail and nothing else changes; with a null queue the call throws (`None`) |
| LoggerSpec.GetLogItemFromQueue | Assets/Scenes/Logger.cs:91-104 | returns and removes the head iff the queue exists and is non-empty; otherwise returns nothing and changes nothing |
| LoggerSpec.CreateStreamFile | Assets/Scenes/Logger.cs:185-189 | creating one stream's new-hour file keeps the current files valid and changes only the files and current-file fields |
| LoggerSpec.CreateLogFileByTime | Assets/Scenes/Logger.cs:180-200 | rotation keeps each current file existing and in its own stream's series |
| LoggerSpec.IsNeedCreateAnotherFile | Assets/Scenes/Logger.cs:305-317 | the rotation check keeps the invariant and never changes the switch, queue, folders or registrations |
| LoggerSpec.RecordLog | Assets/Scenes/Logger.cs:206-236 | writing an item keeps the invariant and leaves switch, queue, folders and registrations alone; with the switch off it changes nothing |
| LoggerSpec.Update | Assets/Scenes/Logger.cs:54-62 | a tick removes exactly the head of a non-empty queue and keeps the invariant; with no item it changes nothing |
| LoggerSpec.InitStreamFileEffect | Assets/Scenes/Logger.cs:160-173 | one stream's initialisation points it at now's file, creates that file if absent and appends the startup marker to it, unless the write throws; nothing else changes |
| LoggerSpec.InitLogFiles | Assets/Scenes/Logger.cs:129-174 | after initialising the files every stream's current file exists in its own series |
| LoggerSpec.Init | Assets/Scenes/Logger.cs:109-124 | `Init` establishes the invariant: queue, all three current files, all three folders |
| LoggerSpec.Awake | Assets/Scenes/Logger.cs:45-52 | `Awake` keeps the invariant |
| LoggerSpec.DisableStreamFile | Assets/Scenes/Logger.cs:69-83 | with no current file, or a write that throws, nothing changes; otherwise the current file gains the shutdown marker and nothing else changes |
| LoggerSpec.OnDisable | Assets/Scenes/Logger.cs:64-84 | the shutdown writes keep the invariant |
| LoggerSpec.OpenOffLog | Assets/Scenes/Logger.cs:324-341 | the switch keeps the invariant |
| LoggerSpec.UnityBuiltInLogCallback | Assets/Scenes/Logger.cs:277-280 | the callback keeps the invariant |
| LoggerSpec.RecordMessage | Assets/Scenes/Logger.cs:348-351 | the public `RecordLog` keeps the invariant when it does not throw |
| LoggerProperties.EnqueueKeepsOrder | Assets/Scenes/Logger.cs:288-300 | enqueueing items one by one appends exactly them to the queue, in order |
| LoggerProperties.RecordBeforeInitThrows | Assets/Scenes/Logger.cs:348-351 | the public `RecordLog` before `Init` throws |
| LoggerProperties.RecordMessageEnqueues | Assets/Scenes/Logger.cs:348-351 | after `Init` the public `RecordLog` succeeds and queues exactly the context at that level, with no stack trace, stamped now; nothing else changes |
| LoggerProperties.CallbackEnqueuesOne | Assets/Scenes/Logger.cs:277-280 | a callback enqueues exactly one item: the host's message and trace, the mapped level, stamped now; nothing else changes |
| LoggerProperties.HostMessageQueuedPerRegistration | Assets/Scenes/Logger.cs:122 | one host message dispatched to n registrations adds n copies of the item |
| LoggerProperties.UpdateWhileOffDiscardsHead | Assets/Scenes/Logger.cs:57-60 | with the switch off a tick still dequeues the head, and writes nothing |
| LoggerProperties.RotationFiresOnHourChange | Assets/Scenes/Logger.cs:305-317 | the rotation check changes the state iff now's hour differs from the last rotation's |
| LoggerProperties.RotationSettlesHour | Assets/Scenes/Logger.cs:310-314 | after the check the last rotation is in now's hour and an immediate second check changes nothing |
| LoggerProperties.CreateStreamFileEffect | Assets/Scenes/Logger.cs:185-189 | one stream's block creates its new-hour file if absent and then re-points only that stream |
| LoggerProperties.CreateLogFileByTimeEffect | Assets/Scenes/Logger.cs:180-200 | `CreateLogFileByTime` creates each stream's file for the hour where absent, keeps every existing file, and re-points a stream exactly when its file was absent |
| LoggerProperties.RotationRepointsOnlyAbsentFiles | Assets/Scenes/Logger.cs:180-200 | on an hour change, every stream moves to its new-hour file exactly when that file was absent; the three new-hour files are created empty, all existing files keep their records, and the last rotation becomes now |
| LoggerProperties.SettledRotationKeepsFiles | Assets/Scenes/Logger.cs:305-317 | when no rotation is due, or every new-hour file exists, the check changes nothing but the last rotation time |
| LoggerProperties.RecordLogWritesRoutedFile | Assets/Scenes/Logger.cs:206-236 | with the switch on and no rotation due, the item is appended to the current file of the stream its level routes to, and no other file changes |
| LoggerProperties.RecordLogWhileOffWritesNothing | Assets/Scenes/Logger.cs:208 | with the switch off, recording changes nothing |
| LoggerProperties.UpdateStep | Assets/Scenes/Logger.cs:54-62 | for a tick that re-points no stream (same hour, or every new-hour file already exists): the head item is appended to stream s's file iff it routes to s and the write succeeds, and the head leaves the queue |
| LoggerProperties.RotationKeepsContents | Assets/Scenes/Logger.cs:305-317 | the rotation check, whether it fires or not, changes no file's records |
| LoggerProperties.RecordTarget | Assets/Scenes/Logger.cs:210-233 | the file an item is written to after the rotation check belongs to the stream its level routes to |
| LoggerProperties.UpdateWritesHeadToTarget | Assets/Scenes/Logger.cs:54-62 | any tick, rotating or not: the head leaves the queue, and with the switch on and a write that does not throw it is appended to the routed stream's file after the rotation check; no other file's records change |
| LoggerProperties.RotatingTickWritesNewFile | Assets/Scenes/Logger.cs:305-317 | a tick in a new hour whose file for the head's stream is absent re-points that stream to the new file and makes the head its only record (none if the write throws) |
| LoggerProperties.DrainKeepsStreamOrder | Assets/Scenes/Logger.cs:54-62 | for n ticks all within the hour of a state that needs no re-pointing: each stream's file has gained exactly the first n queued items routed to it, in enqueue order, less the failed writes; the queue lost exactly those n items |
| LoggerProperties.DrainWritesLinesInOrder | Assets/Scenes/Logger.cs:54-62 | under the same one-hour condition, the same for the file text: the formatted lines of those items, in enqueue order |
| LoggerProperties.DrainKeepsOrderAcrossHours | Assets/Scenes/Logger.cs:54-62 | for n ticks at any times, rotations included: every file keeps its old records as a prefix, and what it gains is a subsequence, in enqueue order, of the n dequeued items, each routed to the file's stream; the queue lost exactly those n items |
| LoggerProperties.InitFilesEffect | Assets/Scenes/Logger.cs:109-174 | `Init` is: a fresh queue, the three folders, the streams pointed at now's three files, one startup marker appended to each (none where the write throws), one more registration; no other file changes |
| LoggerProperties.InitWritesStartupMarker | Assets/Scenes/Logger.cs:157-173 | `Init` gives an empty queue and one more registration, leaves the switch and the last rotation time alone, points each stream at its file for now's hour and appends one startup marker to it |
| LoggerProperties.AwakeRunsInitIffOn | Assets/Scenes/Logger.cs:45-52 | `Awake` is exactly `Init` when the switch is on and changes nothing when it is off; the queue exists afterwards iff the switch was on or it existed before |
| LoggerProperties.InitTouchesOnlyHourFiles | Assets/Scenes/Logger.cs:129-174 | `Init` creates or changes only the three files of now's hour |
| LoggerProperties.SwitchOnWhenOffRunsInit | Assets/Scenes/Logger.cs:326-332 | switching on while off is exactly `Init`, and the switch stays off |
| LoggerProperties.SwitchOnWhenOnIsNoOp | Assets/Scenes/Logger.cs:326-332 | switching on while on changes nothing |
| LoggerProperties.SwitchOnTwiceInitsTwice | Assets/Scenes/Logger.cs:324-332 | switching on twice from off gives two more registrations and two startup markers in each file |
| LoggerProperties.SwitchOnTwiceQueuesHostMessagesTwice | Assets/Scenes/Logger.cs:122 | after switching on twice, a host message is queued twice |
| LoggerProperties.SwitchOff | Assets/Scenes/Logger.cs:333-340 | switching off while on clears the switch and removes one registration and nothing else; while off it changes nothing |
| LoggerProperties.SwitchedOffTickWritesNothing | Assets/Scenes/Logger.cs:337 | after switching off, a tick writes no file |
| LoggerProperties.OnDisableWritesShutdownMarkers | Assets/Scenes/Logger.cs:64-84 | `OnDisable` appends one shutdown marker to each current file and changes nothing else |
| LoggerProperties.OnDisableBeforeInitDoesNothing | Assets/Scenes/Logger.cs:69-83 | with no current files, `OnDisable` changes nothing |
| LoggerProperties.DistinctCurrentFiles | Assets/Scenes/Logger.cs:154-156 | the three current files are three different files |
| UnityLogger.Logger.constructor | Assets/Scenes/Logger.cs:16-27 | the object starts in `LoggerSpec.Initial` |
| UnityLogger.Logger.OpenWriter | Assets/Scenes/Logger.cs:219 | opening a writer creates the file if absent and returns its writer |
| UnityLogger.Logger.WriteLog | Assets/Scenes/Logger.cs:246-269 | the files become `LoggerSpec.WriteLog` of the old files |
| UnityLogger.Logger.CreateFolderIfAbsent | Assets/Scenes/Logger.cs:142-145 | the folder is added to the directories |
| UnityLogger.Logger.LogEnqueue | Assets/Scenes/Logger.cs:288-300 | the new state is `LoggerSpec.LogEnqueue` of the old, or unchanged with `thrown` when the queue is null |
| UnityLogger.Logger.GetLogItemFromQueue | Assets/Scenes/Logger.cs:91-104 | item and new state are `LoggerSpec.GetLogItemFromQueue` of the old state |
| UnityLogger.Logger.CreateLogFileByTime | Assets/Scenes/Logger.cs:180-200 | the new state is `LoggerSpec.CreateLogFileByTime` of the old |
| UnityLogger.Logger.IsNeedCreateAnotherFile | Assets/Scenes/Logger.cs:305-317 | the new state is `LoggerSpec.IsNeedCreateAnotherFile` of the old |
| UnityLogger.Logger.RecordLog | Assets/Scenes/Logger.cs:206-236 | the new state is `LoggerSpec.RecordLog` of the old |
| UnityLogger.Logger.Update | Assets/Scenes/Logger.cs:54-62 | the new state is `LoggerSpec.Update` of the old |
| UnityLogger.Logger.InitLogFiles | Assets/Scenes/Logger.cs:129-174 | the new state is `LoggerSpec.InitLogFiles` of the old |
| UnityLogger.Logger.Init | Assets/Scenes/Logger.cs:109-124 | the new state is `LoggerSpec.Init` of the old |
| UnityLogger.Logger.Awake | Assets/Scenes/Logger.cs:45-52 | the new state is `LoggerSpec.Awake` of the old |
| UnityLogger.Logger.OnDisable | Assets/Scenes/Logger.cs:64-84 | the new state is `LoggerSpec.OnDisable` of the old |
| UnityLogger.Logger.OpenOffLog | Assets/Scenes/Logger.cs:324-341 | the new state is `LoggerSpec.OpenOffLog` of the old |
| UnityLogger.Logger.UnityBuiltInLogCallback | Assets/Scenes/Logger.cs:277-280 | the new state is `LoggerSpec.UnityBuiltInLogCallback` of the old |
| UnityLogger.Logger.RecordMessage | Assets/Scenes/Logger.cs:348-351 | the public `RecordLog(context, level)`: the new state is `LoggerSpec.RecordMessage` of the old, or unchanged with `thrown` before `Init` |

## Left out

- Locking: the `lock` blocks on `_enqueneLocker` and `_dequeneLocker` exist only for thread safety. Enqueue and dequeue are modelled as atomic steps of one sequential state machine.
- Real file I/O (`FileInfo`, `StreamWriter`, `File.Create`, `Directory.CreateDirectory`) is replaced by the map of files and the set of directories. A file holds the records written to it, and `LoggerSpec.FileText` renders them into its lines. Closing writers is not modelled.
- The `FileStream` that `File.Create` (line 187) leaves open is not modelled. On a real disk it can make the next `AppendText` on that file throw.
- `IOException` is modelled only for the `WriteLine` inside `WriteLog`'s `try`, where it is swallowed. An exception from `AppendText`/`CreateText`, which run outside that `try` (lines 71-81, 161-171, 219-230), is not modelled: opening a writer always succeeds and creates the file.
- Unity glue is not modelled: `Singleton<Logger>`, `MonoBehaviour`, and `Application.logMessageReceived`. Registration is a counter, and a host message reaches the callback once per registration (`LoggerProperties.Dispatch`).
- The self-log `Debug.Log` at line 123 is not modelled. It reaches the logger only through the host's dispatch, as any other host message would.
- `DateTime.Now` is a parameter. The source reads the clock separately for each path and for the marker time (lines 154-158, 309-313), while the model uses a single "now" per operation.
- The time type checks only field ranges (days 1 to 31). The number of days in each month is not checked.
- `Environment.NewLine` is taken to be CR LF, and no culture-specific formatting is modelled.
- The `#if UNITY_EDITOR` folder choice and `Environment.CurrentDirectory` are not modelled. The player-build folders `/Logs/`, `/Logs/WebServer/` and `/Logs/WebSocket/` are constants.
- A null message is not modelled: messages are strings, and a null message would print as empty. A null stack trace is `None`.
- `_logItemToRecord` and `_logStreamWriter` are locals of `Update` and `RecordLog` in the model. The source keeps them in fields. For the eight declared levels the routing `switch` (lines 211-233) always assigns `_logStreamWriter` before line 234 reads it, so no earlier value is ever used.
- `LogLevel` values outside the eight declared members are not modelled: `LogLevel` is a closed datatype. A C# enum holds any `int`, so `RecordLog("x", (LogLevel)8)` is accepted. For such a level the switch at lines 211-233 matches no case, and line 234 writes through whatever `_logStreamWriter` an earlier call left in the field. If that field is null, nothing is written. If it holds a writer that line 262 already closed, `WriteLine` throws `ObjectDisposedException`, which the `IOException` handler does not catch, so the exception escapes `Update`.
- The `_lastCreateFileTime != null` test (line 307) is always true for the date type, so it has no branch in the model.
- The `logItem != null` test (line 208) always holds on the one call path, because `Update` calls `RecordLog` only with a dequeued item.
- The `StringBuilder` field and the `_logTypeLevelDict` field are left out. The dictionary is built by `Init` before the callback is registered, so it is modelled as the fixed table `Levels.HostLevel`.
- `LoggerSpec.CreateLogFileByTime`, `LoggerSpec.InitLogFiles`, `LoggerSpec.Init`, `LoggerSpec.Awake`, `LoggerSpec.OnDisable`, `LoggerSpec.OpenOffLog`, `LoggerSpec.UnityBuiltInLogCallback`, `LoggerSpec.RecordMessage`: their own contracts state only that the invariant is kept. What they do is stated by lemmas in the table above: `RotationRepointsOnlyAbsentFiles`, `InitWritesStartupMarker`, `InitTouchesOnlyHourFiles`, `AwakeRunsInitIffOn`, `OnDisableWritesShutdownMarkers`, the `SwitchOn…`/`SwitchOff` lemmas, `CallbackEnqueuesOne`, `RecordMessageEnqueues` and `RecordBeforeInitThrows`.
- `LoggerSpec.OpenWriter`, `LoggerSpec.WriteLog`, `LoggerSpec.InitStreamFile`, `Format.FormatLine`, `Paths.StreamPath`: they carry no contract of their own, because one would enter every proof that uses them. `OpenWriterKeepsRecords`, `WriteLogAppendsToWriter`, `WriteLogFailsQuietly`, `InitStreamFileEffect`, `FormatLineLayout`, `TraceSuffixGate`, `StreamPathInStream` and `StreamPathLayout` state what they do.
- `LoggerProperties.UpdateStep`, `LoggerProperties.DrainKeepsStreamOrder`, `LoggerProperties.DrainWritesLinesInOrder`: exact per-stream contents are stated only for ticks within one hour, starting from a state that needs no re-pointing. Across rotations, `DrainKeepsOrderAcrossHours` states order per file as a subsequence, and `UpdateWritesHeadToTarget` and `RotatingTickWritesNewFile` state a single rotating tick.
