/**
 * What the logger's operations promise, stated over the state functions of
 * `LoggerSpec`: FIFO queueing, one drain per tick, routing of each line to
 * exactly one stream file, lazy hour rotation, the switch, and the startup
 * and shutdown markers.
 */
module LoggerProperties {
  import opened Wrappers
  import opened Levels
  import opened Timestamps
  import opened Format
  import opened Paths
  import opened LoggerSpec
  import opened Seqs

  // ---------------------------------------------------------------- queue

  /** Enqueue a sequence of items one after another, each with its own time. */
  function EnqueueItems(st: LoggerState, items: seq<LogItem>): (r: LoggerState)
    requires Valid(st) && st.logQueue.Some?
    ensures Valid(r) && r.logQueue.Some?
    decreases |items|
  {
    if items == [] then st
    else
      var it := items[0];
      EnqueueItems(LogEnqueue(st, it.message, it.level, it.stackTrace, it.time).value, items[1..])
  }

  /** Enqueueing keeps arrival order: the queue grows by exactly the items, at the tail, in order. */
  lemma {:induction false} EnqueueKeepsOrder(st: LoggerState, items: seq<LogItem>)
    requires Valid(st) && st.logQueue.Some?
    ensures EnqueueItems(st, items) == st.(logQueue := Some(st.logQueue.value + items))
    decreases |items|
  {
    if items == [] {
      assert st.logQueue.value + items == st.logQueue.value;
    } else {
      var it := items[0];
      var st1 := LogEnqueue(st, it.message, it.level, it.stackTrace, it.time).value;
      assert it == LogItem(it.message, it.stackTrace, it.level, it.time);
      assert st1 == st.(logQueue := Some(st.logQueue.value + [it]));
      assert EnqueueItems(st, items) == EnqueueItems(st1, items[1..]);
      EnqueueKeepsOrder(st1, items[1..]);
      assert st.logQueue.value + [it] + items[1..] == st.logQueue.value + items;
    }
  }

  /** The public `RecordLog(context, level)` before `Init` finds no queue: it throws and nothing changes. */
  lemma RecordBeforeInitThrows(st: LoggerState, context: string, level: LogLevel, now: Time)
    requires Valid(st) && st.logQueue.None?
    ensures RecordMessage(st, context, level, now).None?
  {
  }

  /**
   * After `Init`, the public `RecordLog(context, level)` succeeds and
   * queues exactly one item: the context at that level, with no stack
   * trace, stamped now; nothing else changes.
   */
  lemma RecordMessageEnqueues(st: LoggerState, context: string, level: LogLevel, now: Time)
    requires Valid(st) && st.logQueue.Some?
    ensures var r := RecordMessage(st, context, level, now);
      && r.Some?
      && r.value.logQueue == Some(st.logQueue.value + [LogItem(context, None, level, now)])
      && r.value == st.(logQueue := r.value.logQueue)
  {
  }

  /**
   * A host callback enqueues exactly one item: the host's message and
   * trace, the level from the host table, stamped now.
   */
  lemma CallbackEnqueuesOne(st: LoggerState, condition: string, stackTrace: string, t: LogType, now: Time)
    requires Valid(st) && st.callbacks > 0
    ensures var r := UnityBuiltInLogCallback(st, condition, stackTrace, t, now);
      && r.logQueue == Some(st.logQueue.value + [LogItem(condition, Some(stackTrace), HostLevel(t), now)])
      && r == st.(logQueue := r.logQueue)
  {
  }

  /**
   * The host invokes every registered handler once per message: `n`
   * invocations of the callback for one host message.
   */
  function Dispatch(st: LoggerState, condition: string, stackTrace: string, t: LogType, now: Time, n: nat)
    : (r: LoggerState)
    requires Valid(st) && st.callbacks > 0
    ensures Valid(r) && r.callbacks == st.callbacks
    decreases n
  {
    if n == 0 then st
    else Dispatch(UnityBuiltInLogCallback(st, condition, stackTrace, t, now), condition, stackTrace, t, now, n - 1)
  }

  /**
   * One host message is queued once per registration: with the callback
   * registered n times, the queue gains n copies of the item.
   */
  lemma {:induction false} HostMessageQueuedPerRegistration(st: LoggerState, condition: string, stackTrace: string,
                                                            t: LogType, now: Time, n: nat)
    requires Valid(st) && st.callbacks > 0
    ensures var item := LogItem(condition, Some(stackTrace), HostLevel(t), now);
      Dispatch(st, condition, stackTrace, t, now, n)
        == st.(logQueue := Some(st.logQueue.value + seq(n, _ => item)))
    decreases n
  {
    var item := LogItem(condition, Some(stackTrace), HostLevel(t), now);
    if n == 0 {
      assert st.logQueue.value + seq(0, _ => item) == st.logQueue.value;
    } else {
      var st1 := UnityBuiltInLogCallback(st, condition, stackTrace, t, now);
      CallbackEnqueuesOne(st, condition, stackTrace, t, now);
      HostMessageQueuedPerRegistration(st1, condition, stackTrace, t, now, n - 1);
      assert st.logQueue.value + [item] + seq(n - 1, _ => item) == st.logQueue.value + seq(n, _ => item);
    }
  }

  /** With the switch off a tick still takes the head item, and throws it away. */
  lemma UpdateWhileOffDiscardsHead(st: LoggerState, now: Time, ioFailure: bool)
    requires Valid(st) && !st.logSwitch && st.logQueue.Some? && st.logQueue.value != []
    ensures Update(st, now, ioFailure) == st.(logQueue := Some(st.logQueue.value[1..]))
  {
  }

  // ---------------------------------------------------------------- rotation

  /** Rotation happens exactly when the clock hour differs from the last rotation's. */
  lemma RotationFiresOnHourChange(st: LoggerState, now: Time)
    requires Valid(st)
    ensures IsNeedCreateAnotherFile(st, now) == st <==> SameHour(st.lastCreateFileTime, now)
  {
    CompactHourKeyIdentifiesHour(st.lastCreateFileTime, now);
  }

  /** After a rotation check the last rotation is in now's hour, so checking again at once does nothing. */
  lemma RotationSettlesHour(st: LoggerState, now: Time)
    requires Valid(st)
    ensures var r := IsNeedCreateAnotherFile(st, now);
      SameHour(r.lastCreateFileTime, now) && IsNeedCreateAnotherFile(r, now) == r
  {
    CompactHourKeyIdentifiesHour(st.lastCreateFileTime, now);
    var r := IsNeedCreateAnotherFile(st, now);
    CompactHourKeyIdentifiesHour(r.lastCreateFileTime, now);
  }

  /** The three new-hour files: the ones a rotation may create. */
  function HourFiles(t: Time): set<string> {
    {StreamPath(SystemStream, t), StreamPath(WebServerStream, t), StreamPath(SocketStream, t)}
  }

  /** The file system after `File.Create(path)` for a path found absent. */
  function CreateIfAbsent(files: FileSystem, path: string): FileSystem {
    if path in files then files else files[path := []]
  }

  lemma CreateStreamFileEffect(st: LoggerState, s: Stream, t: Time)
    requires FilesValid(st)
    ensures var r := CreateStreamFile(st, s, t);
      var path := StreamPath(s, t);
      && r.files == CreateIfAbsent(st.files, path)
      && CurrentFile(r, s) == (if path in st.files then CurrentFile(st, s) else Some(path))
      && (forall s' :: s' != s ==> CurrentFile(r, s') == CurrentFile(st, s'))
      && r.lastCreateFileTime == st.lastCreateFileTime
  {
  }

  /**
   * When the hour has changed, all three streams are considered together:
   * a stream moves to its new-hour file only if that file did not exist
   * yet, in which case it is created empty; existing files keep their
   * content.
   */
  lemma RotationRepointsOnlyAbsentFiles(st: LoggerState, now: Time, s: Stream)
    requires Valid(st) && !SameHour(st.lastCreateFileTime, now)
    ensures var r := IsNeedCreateAnotherFile(st, now);
      var path := StreamPath(s, now);
      && CurrentFile(r, s) == (if path in st.files then CurrentFile(st, s) else Some(path))
      && r.files.Keys == st.files.Keys + HourFiles(now)
      && (forall p :: p in st.files ==> r.files[p] == st.files[p])
      && (forall p :: p in HourFiles(now) && p !in st.files ==> r.files[p] == [])
      && r.lastCreateFileTime == now
  {
    CompactHourKeyIdentifiesHour(st.lastCreateFileTime, now);
    assert IsNeedCreateAnotherFile(st, now) == CreateLogFileByTime(st, now).(lastCreateFileTime := now);
    CreateLogFileByTimeEffect(st, now, s);
    CreateThreeIfAbsent(st.files, StreamPath(SystemStream, now), StreamPath(WebServerStream, now), StreamPath(SocketStream, now));
  }

  /** `CreateLogFileByTime` creates the three hour files where absent and re-points exactly the streams whose file was absent. */
  lemma CreateLogFileByTimeEffect(st: LoggerState, t: Time, s: Stream)
    requires FilesValid(st)
    ensures var r := CreateLogFileByTime(st, t);
      var path := StreamPath(s, t);
      && r.files == CreateIfAbsent(CreateIfAbsent(CreateIfAbsent(st.files, StreamPath(SystemStream, t)), StreamPath(WebServerStream, t)), StreamPath(SocketStream, t))
      && CurrentFile(r, s) == (if path in st.files then CurrentFile(st, s) else Some(path))
  {
    var p1, p2, p3 := StreamPath(SystemStream, t), StreamPath(WebServerStream, t), StreamPath(SocketStream, t);
    var st1 := CreateStreamFile(st, SystemStream, t);
    var st2 := CreateStreamFile(st1, WebServerStream, t);
    CreateStreamFileEffect(st, SystemStream, t);
    CreateStreamFileEffect(st1, WebServerStream, t);
    CreateStreamFileEffect(st2, SocketStream, t);
    StreamPathsDistinct(SystemStream, WebServerStream, t, t);
    StreamPathsDistinct(SystemStream, SocketStream, t, t);
    StreamPathsDistinct(WebServerStream, SocketStream, t, t);
    assert p2 in st1.files <==> p2 in st.files;
    assert p3 in st2.files <==> p3 in st.files;
  }

  /** Creating three paths where absent adds them, empty, and keeps every existing file. */
  lemma CreateThreeIfAbsent(files: FileSystem, p1: string, p2: string, p3: string)
    ensures var r := CreateIfAbsent(CreateIfAbsent(CreateIfAbsent(files, p1), p2), p3);
      && r.Keys == files.Keys + {p1, p2, p3}
      && (forall p :: p in files ==> r[p] == files[p])
      && (forall p :: p in {p1, p2, p3} && p !in files ==> r[p] == [])
  {
  }

  /**
   * A rotation need not move anything: either the hour is unchanged, or
   * every stream's new-hour file already exists.
   */
  predicate RotationSettled(st: LoggerState, now: Time) {
    SameHour(st.lastCreateFileTime, now) || HourFiles(now) <= st.files.Keys
  }

  lemma SettledRotationKeepsFiles(st: LoggerState, now: Time)
    requires Valid(st) && RotationSettled(st, now)
    ensures var r := IsNeedCreateAnotherFile(st, now);
      r == st.(lastCreateFileTime := r.lastCreateFileTime) && SameHour(r.lastCreateFileTime, now)
  {
    CompactHourKeyIdentifiesHour(st.lastCreateFileTime, now);
  }

  // ---------------------------------------------------------------- routing and draining

  /**
   * With the switch on and no rotation due, recording an item appends its
   * line to the current file of the stream its level routes to (nothing,
   * if the write throws) and leaves every other file and field as it was.
   */
  lemma RecordLogWritesRoutedFile(st: LoggerState, item: LogItem, now: Time, ioFailure: bool)
    requires Valid(st) && st.logQueue.Some? && st.logSwitch && SameHour(st.lastCreateFileTime, now)
    ensures var r := RecordLog(st, item, now, ioFailure);
      var path := CurrentFile(st, Route(item.level)).value;
      && r == st.(files := r.files)
      && r.files.Keys == st.files.Keys
      && r.files[path] == st.files[path] + (if ioFailure then [] else [item])
      && forall p :: p in st.files && p != path ==> r.files[p] == st.files[p]
  {
    CompactHourKeyIdentifiesHour(st.lastCreateFileTime, now);
  }

  /** With the switch off, recording changes nothing at all. */
  lemma RecordLogWhileOffWritesNothing(st: LoggerState, item: LogItem, now: Time, ioFailure: bool)
    requires Valid(st) && st.logQueue.Some? && !st.logSwitch
    ensures RecordLog(st, item, now, ioFailure) == st
  {
  }

  /** Drain one tick after another, the i-th at time `nows[i]` and failing as `failures[i]` says. */
  function Drain(st: LoggerState, nows: seq<Time>, failures: seq<bool>): (r: LoggerState)
    requires Valid(st) && |nows| == |failures|
    ensures Valid(r)
    decreases |failures|
  {
    if failures == [] then st else Drain(Update(st, nows[0], failures[0]), nows[1..], failures[1..])
  }

  /** The items routed to `s` whose writes succeed, in queue order. */
  function Delivered(items: seq<LogItem>, failures: seq<bool>, s: Stream): seq<LogItem>
    requires |items| == |failures|
  {
    if items == [] then []
    else
      (if !failures[0] && Route(items[0].level) == s then [items[0]] else [])
      + Delivered(items[1..], failures[1..], s)
  }

  lemma DeliveredSplit(q: seq<LogItem>, failures: seq<bool>, s: Stream)
    requires 0 < |failures| <= |q|
    ensures Delivered(q[..|failures|], failures, s)
         == Delivered([q[0]], [failures[0]], s) + Delivered(q[1..][..|failures| - 1], failures[1..], s)
  {
    var n := |failures|;
    assert q[..n][1..] == q[1..][..n - 1];
    assert Delivered([q[0]], [failures[0]], s)
        == (if !failures[0] && Route(q[0].level) == s then [q[0]] else []);
  }

  lemma {:induction false} UpdateStep(st: LoggerState, now: Time, ioFailure: bool, s: Stream)
    requires Valid(st) && st.logSwitch && st.logQueue.Some? && st.logQueue.value != []
    requires RotationSettled(st, now)
    ensures var q := st.logQueue.value;
      var r := Update(st, now, ioFailure);
      var path := CurrentFile(st, s).value;
      && r.logSwitch && r.logQueue == Some(q[1..])
      && SameHour(r.lastCreateFileTime, now)
      && CurrentFile(r, s) == CurrentFile(st, s)
      && Content(r.files, path) == Content(st.files, path) + Delivered([q[0]], [ioFailure], s)
  {
    var q := st.logQueue.value;
    var st1 := st.(logQueue := Some(q[1..]));
    assert Update(st, now, ioFailure) == RecordLog(st1, q[0], now, ioFailure);
    SettledRotationKeepsFiles(st1, now);
    UpdateWritesHeadToTarget(st, now, ioFailure);
    var target := RecordTarget(st1, q[0].level, now);
    assert target == CurrentFile(st, Route(q[0].level)).value;
    var path := CurrentFile(st, s).value;
    if Route(q[0].level) != s {
      DifferentStreamsDifferentFiles(s, Route(q[0].level), path, target);
    }
    assert Delivered([q[0]], [ioFailure], s) == (if !ioFailure && Route(q[0].level) == s then [q[0]] else []);
  }

  /** Within one hour a settled rotation stays settled: the hour's files are the same files. */
  lemma SettledWithinHour(st: LoggerState, now: Time, t: Time)
    requires RotationSettled(st, now) && SameHour(t, now)
    ensures RotationSettled(st, t)
  {
    HourKeyIdentifiesHour(t, now);
  }

  /** Every tick time falls in the hour of `now`. */
  predicate InHourOf(nows: seq<Time>, now: Time) {
    forall i :: 0 <= i < |nows| ==> SameHour(nows[i], now)
  }

  lemma InHourOfTail(nows: seq<Time>, now: Time)
    requires InHourOf(nows, now) && nows != []
    ensures SameHour(nows[0], now) && InHourOf(nows[1..], now)
  {
    forall i | 0 <= i < |nows[1..]|
      ensures SameHour(nows[1..][i], now)
    {
      assert nows[1..][i] == nows[i + 1];
    }
  }

  /**
   * Draining keeps order per stream: after n ticks within the hour of
   * `now`, starting where no stream is re-pointed, each stream's current
   * file holds its old records followed by the first n queued items routed
   * to it, in enqueue order, less only the writes that failed; the queue
   * has lost exactly those n items.
   */
  lemma {:induction false} DrainKeepsStreamOrder(st: LoggerState, now: Time, nows: seq<Time>, failures: seq<bool>,
                                                 s: Stream)
    requires Valid(st) && st.logSwitch && st.logQueue.Some?
    requires |nows| == |failures| <= |st.logQueue.value|
    requires RotationSettled(st, now) && InHourOf(nows, now)
    ensures var q := st.logQueue.value;
      var r := Drain(st, nows, failures);
      var path := CurrentFile(st, s).value;
      && r.logQueue == Some(q[|failures|..])
      && CurrentFile(r, s) == CurrentFile(st, s)
      && Content(r.files, path) == Content(st.files, path) + Delivered(q[..|failures|], failures, s)
    decreases |failures|
  {
    var q := st.logQueue.value;
    if failures == [] {
      assert q[..0] == [];
    } else {
      var n := |failures|;
      var st1 := Update(st, nows[0], failures[0]);
      var r := Drain(st1, nows[1..], failures[1..]);
      var path := CurrentFile(st, s).value;
      var first := Delivered([q[0]], [failures[0]], s);
      var rest := Delivered(q[1..][..n - 1], failures[1..], s);
      var c0, c1, c2 := Content(st.files, path), Content(st1.files, path), Content(r.files, path);
      assert Drain(st, nows, failures) == r;
      assert st1.logQueue == Some(q[1..]) && CurrentFile(st1, s) == CurrentFile(st, s)
                   && c1 == c0 + first && Valid(st1) && st1.logSwitch && RotationSettled(st1, now) by {
        InHourOfTail(nows, now);
        SettledWithinHour(st, now, nows[0]);
        UpdateStep(st, nows[0], failures[0], s);
      }
      assert r.logQueue == Some(q[n..]) && CurrentFile(r, s) == CurrentFile(st, s) && c2 == c1 + rest by {
        InHourOfTail(nows, now);
        PrefixCons(q, n);
        DrainKeepsStreamOrder(st1, now, nows[1..], failures[1..], s);
      }
      assert c2 == c0 + Delivered(q[..n], failures, s) by {
        DeliveredSplit(q, failures, s);
        AppendTwice(c0, c1, c2, first, rest);
      }
    }
  }

  /**
   * The same in the files' text: each stream's file gains the formatted
   * lines of the delivered items, in enqueue order.
   */
  lemma DrainWritesLinesInOrder(st: LoggerState, now: Time, nows: seq<Time>, failures: seq<bool>, s: Stream)
    requires Valid(st) && st.logSwitch && st.logQueue.Some?
    requires |nows| == |failures| <= |st.logQueue.value|
    requires RotationSettled(st, now) && InHourOf(nows, now)
    ensures var q := st.logQueue.value;
      var path := CurrentFile(st, s).value;
      FileText(Drain(st, nows, failures).files, path)
        == FileText(st.files, path) + Lines(Delivered(q[..|failures|], failures, s))
  {
    var q := st.logQueue.value;
    var path := CurrentFile(st, s).value;
    DrainKeepsStreamOrder(st, now, nows, failures, s);
    MapAppend(ItemLine, Content(st.files, path), Delivered(q[..|failures|], failures, s));
  }

  /** Creating an absent file adds an empty one, so no path's records change. */
  lemma CreateIfAbsentKeepsContent(files: FileSystem, path: string)
    ensures forall p :: Content(CreateIfAbsent(files, path), p) == Content(files, p)
  {
  }

  /** A rotation check, whether it fires or not, leaves every file's records as they were. */
  lemma RotationKeepsContents(st: LoggerState, now: Time)
    requires Valid(st)
    ensures forall p :: Content(IsNeedCreateAnotherFile(st, now).files, p) == Content(st.files, p)
  {
    if CompactHourKey(st.lastCreateFileTime) != CompactHourKey(now) {
      var st1 := CreateStreamFile(st, SystemStream, now);
      CreateStreamFileEffect(st, SystemStream, now);
      CreateIfAbsentKeepsContent(st.files, StreamPath(SystemStream, now));
      var st2 := CreateStreamFile(st1, WebServerStream, now);
      CreateStreamFileEffect(st1, WebServerStream, now);
      CreateIfAbsentKeepsContent(st1.files, StreamPath(WebServerStream, now));
      CreateStreamFileEffect(st2, SocketStream, now);
      CreateIfAbsentKeepsContent(st2.files, StreamPath(SocketStream, now));
    }
  }

  /** The file a record of `level` goes to at `now`: its stream's current file after the rotation check. */
  function RecordTarget(st: LoggerState, level: LogLevel, now: Time): (r: string)
    requires Valid(st) && st.logQueue.Some?
    ensures InStream(Route(level), r)
  {
    CurrentFile(IsNeedCreateAnotherFile(st, now), Route(level)).value
  }

  /**
   * One tick at any time, rotating or not: the queue loses its head, and
   * the head's record is appended to the routed stream's file after the
   * rotation check, unless the switch is off or the write throws; no other
   * file's records change.
   */
  lemma UpdateWritesHeadToTarget(st: LoggerState, now: Time, ioFailure: bool)
    requires Valid(st) && st.logQueue.Some? && st.logQueue.value != []
    ensures var q := st.logQueue.value;
      var r := Update(st, now, ioFailure);
      var target := RecordTarget(st.(logQueue := Some(q[1..])), q[0].level, now);
      && r.logQueue == Some(q[1..])
      && forall p :: Content(r.files, p)
                       == Content(st.files, p) + (if st.logSwitch && !ioFailure && p == target then [q[0]] else [])
  {
    var q := st.logQueue.value;
    var st1 := st.(logQueue := Some(q[1..]));
    assert Update(st, now, ioFailure) == RecordLog(st1, q[0], now, ioFailure);
    if st.logSwitch {
      var st2 := IsNeedCreateAnotherFile(st1, now);
      var target := RecordTarget(st1, q[0].level, now);
      var files := OpenAndWrite(st2.files, target, q[0].time, q[0].level, q[0].message, q[0].stackTrace, ioFailure);
      assert Update(st, now, ioFailure).files == files;
      RotationKeepsContents(st1, now);
      forall p
        ensures Content(files, p) == Content(st.files, p) + (if !ioFailure && p == target then [q[0]] else [])
      {
        OpenAndWriteContent(st2.files, target, q[0].time, q[0].level, q[0].message, q[0].stackTrace, ioFailure, p);
      }
    }
  }

  /**
   * A tick in a new hour whose file for the head's stream does not exist
   * yet re-points that stream to the new file, created empty, and the head
   * becomes its first record (none, if the write throws).
   */
  lemma RotatingTickWritesNewFile(st: LoggerState, now: Time, ioFailure: bool)
    requires Valid(st) && st.logSwitch && st.logQueue.Some? && st.logQueue.value != []
    requires !SameHour(st.lastCreateFileTime, now)
    requires StreamPath(Route(st.logQueue.value[0].level), now) !in st.files
    ensures var q := st.logQueue.value;
      var r := Update(st, now, ioFailure);
      var path := StreamPath(Route(q[0].level), now);
      && r.logQueue == Some(q[1..])
      && r.lastCreateFileTime == now
      && CurrentFile(r, Route(q[0].level)) == Some(path)
      && Content(r.files, path) == (if ioFailure then [] else [q[0]])
  {
    var q := st.logQueue.value;
    var st1 := st.(logQueue := Some(q[1..]));
    RotationRepointsOnlyAbsentFiles(st1, now, Route(q[0].level));
    UpdateWritesHeadToTarget(st, now, ioFailure);
    assert Update(st, now, ioFailure) == RecordLog(st1, q[0], now, ioFailure);
  }

  /** What draining promises for file `p`: its old records are a prefix, and it gains, in order, drained items routed to it. */
  predicate GainsInOrder(c0: seq<LogItem>, c: seq<LogItem>, drained: seq<LogItem>, p: string) {
    && c0 <= c
    && Subseq(c[|c0|..], drained)
    && forall x :: x in c[|c0|..] ==> InStream(Route(x.level), p)
  }

  /**
   * The inductive step of `DrainKeepsOrderAcrossHours`: a tick that adds
   * nothing, or the head `x` routed to `p`, followed by an in-order gain
   * from `rest`, is an in-order gain from `[x] + rest`.
   */
  lemma GainStep(x: LogItem, rest: seq<LogItem>, c0: seq<LogItem>, c1: seq<LogItem>, c: seq<LogItem>,
                 e: seq<LogItem>, p: string)
    requires c1 == c0 + e && (e == [] || (e == [x] && InStream(Route(x.level), p)))
    requires GainsInOrder(c1, c, rest, p)
    ensures GainsInOrder(c0, c, [x] + rest, p)
  {
    SubseqStep(x, rest, c0, c1, c, e);
  }

  /**
   * Draining across any ticks, rotations included: every file keeps its
   * old records as a prefix, and what it gains is a subsequence of the
   * drained items in enqueue order, every one of them routed to the stream
   * the file belongs to.
   */
  lemma {:induction false} DrainKeepsOrderAcrossHours(st: LoggerState, nows: seq<Time>, failures: seq<bool>,
                                                      p: string)
    requires Valid(st) && st.logQueue.Some?
    requires |nows| == |failures| <= |st.logQueue.value|
    ensures var q := st.logQueue.value;
      var r := Drain(st, nows, failures);
      && r.logQueue == Some(q[|failures|..])
      && GainsInOrder(Content(st.files, p), Content(r.files, p), q[..|failures|], p)
    decreases |failures|
  {
    var q := st.logQueue.value;
    if failures == [] {
      assert q[..0] == [];
      SubseqEmpty(q[..0]);
    } else {
      var n := |failures|;
      var st1 := Update(st, nows[0], failures[0]);
      var r := Drain(st1, nows[1..], failures[1..]);
      assert Drain(st, nows, failures) == r;
      DrainKeepsOrderAcrossHours(st1, nows[1..], failures[1..], p);
      PrefixCons(q, n);
      var target := RecordTarget(st.(logQueue := Some(q[1..])), q[0].level, nows[0]);
      var e := if st.logSwitch && !failures[0] && p == target then [q[0]] else [];
      assert st1.logQueue == Some(q[1..]) && Content(st1.files, p) == Content(st.files, p) + e by {
        UpdateWritesHeadToTarget(st, nows[0], failures[0]);
      }
      GainStep(q[0], q[1..][..n - 1], Content(st.files, p), Content(st1.files, p), Content(r.files, p), e, p);
    }
  }

  // ---------------------------------------------------------------- lifecycle and switch

  /**
   * `Init` gives a fresh empty queue and one more callback registration,
   * points every stream at its file for now's hour, and appends exactly one
   * startup entry to each of the three (unless that write throws); the
   * switch is left as it was.
   */
  lemma InitWritesStartupMarker(st: LoggerState, now: Time, failed: set<Stream>, s: Stream)
    requires Valid(st)
    ensures var r := Init(st, now, failed);
      var path := StreamPath(s, now);
      && r.logQueue == Some([]) && r.callbacks == st.callbacks + 1 && r.logSwitch == st.logSwitch
      && r.lastCreateFileTime == st.lastCreateFileTime
      && CurrentFile(r, s) == Some(path)
      && Content(r.files, path) == Content(st.files, path)
           + (if s in failed then [] else [LogItem(StartupMarker, None, Info, now)])
  {
    InitFilesEffect(st, now, failed);
  }

  /** `Init` as three marker writes to the hour's three files, with the streams pointed at them. */
  lemma InitFilesEffect(st: LoggerState, now: Time, failed: set<Stream>)
    requires Valid(st)
    ensures var a, b, c := StreamPath(SystemStream, now), StreamPath(WebServerStream, now), StreamPath(SocketStream, now);
      var f1 := OpenAndWrite(st.files, a, now, Info, StartupMarker, None, SystemStream in failed);
      var f2 := OpenAndWrite(f1, b, now, Info, StartupMarker, None, WebServerStream in failed);
      var f3 := OpenAndWrite(f2, c, now, Info, StartupMarker, None, SocketStream in failed);
      && Init(st, now, failed) == st.(logQueue := Some([]), systemLogFile := Some(a), webServerLogFile := Some(b),
                                      webSocketLogFile := Some(c), files := f3, callbacks := st.callbacks + 1,
                                      dirs := st.dirs + {SystemLogFolder, WebServerLogFolder, WebSocketLogFolder})
      && f3.Keys == st.files.Keys + {a, b, c}
      && Content(f3, a) == Content(st.files, a) + Marker(StartupMarker, now, SystemStream in failed)
      && Content(f3, b) == Content(st.files, b) + Marker(StartupMarker, now, WebServerStream in failed)
      && Content(f3, c) == Content(st.files, c) + Marker(StartupMarker, now, SocketStream in failed)
      && (forall p :: p in st.files && p !in {a, b, c} ==> f3[p] == st.files[p])
  {
    var a, b, c := StreamPath(SystemStream, now), StreamPath(WebServerStream, now), StreamPath(SocketStream, now);
    StreamPathsDistinct(SystemStream, WebServerStream, now, now);
    StreamPathsDistinct(SystemStream, SocketStream, now, now);
    StreamPathsDistinct(WebServerStream, SocketStream, now, now);
    MarksThreeFiles(st.files, a, b, c, StartupMarker, now, SystemStream in failed, WebServerStream in failed, SocketStream in failed);
  }

  /** `Awake` runs `Init` exactly when the switch is configured on, and otherwise changes nothing. */
  lemma AwakeRunsInitIffOn(st: LoggerState, now: Time, failed: set<Stream>)
    requires Valid(st)
    ensures st.logSwitch ==> Awake(st, now, failed) == Init(st, now, failed)
    ensures !st.logSwitch ==> Awake(st, now, failed) == st
    ensures Awake(st, now, failed).logQueue.Some? <==> st.logSwitch || st.logQueue.Some?
  {
    if st.logSwitch {
      InitWritesStartupMarker(st, now, failed, SystemStream);
    }
  }

  /** `Init` touches only the three files of now's hour. */
  lemma InitTouchesOnlyHourFiles(st: LoggerState, now: Time, failed: set<Stream>)
    requires Valid(st)
    ensures var r := Init(st, now, failed);
      && r.files.Keys == st.files.Keys + HourFiles(now)
      && (forall p :: p in st.files && p !in HourFiles(now) ==> r.files[p] == st.files[p])
  {
    InitFilesEffect(st, now, failed);
  }

  /** `OpenOffLog(true)` when off runs `Init` and leaves the switch off. */
  lemma SwitchOnWhenOffRunsInit(st: LoggerState, now: Time, failed: set<Stream>)
    requires Valid(st) && !st.logSwitch
    ensures OpenOffLog(st, true, now, failed) == Init(st, now, failed)
    ensures !OpenOffLog(st, true, now, failed).logSwitch
  {
    InitWritesStartupMarker(st, now, failed, SystemStream);
  }

  /** `OpenOffLog(true)` when on does nothing. */
  lemma SwitchOnWhenOnIsNoOp(st: LoggerState, now: Time, failed: set<Stream>)
    requires Valid(st) && st.logSwitch
    ensures OpenOffLog(st, true, now, failed) == st
  {
  }

  /**
   * Because `OpenOffLog(true)` never sets the switch, calling it twice
   * runs `Init` twice: two startup entries in each file and two more
   * callback registrations.
   */
  lemma SwitchOnTwiceInitsTwice(st: LoggerState, now: Time, s: Stream)
    requires Valid(st) && !st.logSwitch
    ensures var r := OpenOffLog(OpenOffLog(st, true, now, {}), true, now, {});
      var path := StreamPath(s, now);
      var marker := LogItem(StartupMarker, None, Info, now);
      && !r.logSwitch
      && r.callbacks == st.callbacks + 2
      && Content(r.files, path) == Content(st.files, path) + [marker, marker]
  {
    var st1 := OpenOffLog(st, true, now, {});
    var r := OpenOffLog(st1, true, now, {});
    var path := StreamPath(s, now);
    var marker := LogItem(StartupMarker, None, Info, now);
    var c0, c1, c2 := Content(st.files, path), Content(st1.files, path), Content(r.files, path);
    assert !st1.logSwitch && st1.callbacks == st.callbacks + 1 && c1 == c0 + [marker] by {
      SwitchOnWhenOffRunsInit(st, now, {});
      InitWritesStartupMarker(st, now, {}, s);
    }
    assert !r.logSwitch && r.callbacks == st1.callbacks + 1 && c2 == c1 + [marker] by {
      SwitchOnWhenOffRunsInit(st1, now, {});
      InitWritesStartupMarker(st1, now, {}, s);
    }
    AppendTwice(c0, c1, c2, [marker], [marker]);
    PairAppend(marker, marker);
  }

  /**
   * The double registration shows: after switching on twice from a fresh
   * state, every host message is queued twice.
   */
  lemma SwitchOnTwiceQueuesHostMessagesTwice(st: LoggerState, now: Time, condition: string, stackTrace: string,
                                             t: LogType, later: Time)
    requires Valid(st) && !st.logSwitch && st.callbacks == 0
    ensures var r := OpenOffLog(OpenOffLog(st, true, now, {}), true, now, {});
      var item := LogItem(condition, Some(stackTrace), HostLevel(t), later);
      r.callbacks == 2 && Dispatch(r, condition, stackTrace, t, later, r.callbacks).logQueue == Some([item, item])
  {
    var st1 := OpenOffLog(st, true, now, {});
    var r := OpenOffLog(st1, true, now, {});
    assert Valid(st1) && !st1.logSwitch && st1.callbacks == 1 by {
      SwitchOnWhenOffRunsInit(st, now, {});
      InitWritesStartupMarker(st, now, {}, SystemStream);
    }
    assert r.logQueue == Some([]) && r.callbacks == 2 by {
      SwitchOnWhenOffRunsInit(st1, now, {});
      InitWritesStartupMarker(st1, now, {}, SystemStream);
    }
    HostMessageQueuedPerRegistration(r, condition, stackTrace, t, later, 2);
    var item := LogItem(condition, Some(stackTrace), HostLevel(t), later);
    TwoCopies(item);
  }

  /**
   * `OpenOffLog(false)` when on clears the switch and removes one callback
   * registration, changing nothing else; when off it does nothing.
   */
  lemma SwitchOff(st: LoggerState, now: Time, failed: set<Stream>)
    requires Valid(st)
    ensures var r := OpenOffLog(st, false, now, failed);
      && !r.logSwitch
      && (st.logSwitch ==> r == st.(logSwitch := false, callbacks := if st.callbacks > 0 then st.callbacks - 1 else 0))
      && (!st.logSwitch ==> r == st)
  {
  }

  /** Once switched off, a tick writes no file, whatever it dequeues. */
  lemma SwitchedOffTickWritesNothing(st: LoggerState, now: Time, failed: set<Stream>, ioFailure: bool)
    requires Valid(st)
    ensures var off := OpenOffLog(st, false, now, failed);
      Update(off, now, ioFailure).files == off.files
  {
  }

  /**
   * `OnDisable` appends exactly one shutdown entry to the current file of
   * each stream that has one (unless that write throws), touching nothing
   * else; before `Init` there are no current files and nothing happens.
   */
  lemma OnDisableWritesShutdownMarkers(st: LoggerState, now: Time, failed: set<Stream>, s: Stream)
    requires Valid(st) && FilesSet(st)
    ensures var r := OnDisable(st, now, failed);
      var path := CurrentFile(st, s).value;
      && r == st.(files := r.files)
      && r.files.Keys == st.files.Keys
      && r.files[path] == st.files[path]
           + (if s in failed then [] else [LogItem(ShutdownMarker, None, Info, now)])
      && (forall p :: p in st.files && p !in CurrentFiles(st) ==> r.files[p] == st.files[p])
  {
    DistinctCurrentFiles(st);
    var a, b, c := st.systemLogFile.value, st.webServerLogFile.value, st.webSocketLogFile.value;
    var f1 := OpenAndWrite(st.files, a, now, Info, ShutdownMarker, None, SystemStream in failed);
    var f2 := OpenAndWrite(f1, b, now, Info, ShutdownMarker, None, WebServerStream in failed);
    var f3 := OpenAndWrite(f2, c, now, Info, ShutdownMarker, None, SocketStream in failed);
    assert OnDisable(st, now, failed) == st.(files := f3);
    MarksThreeFiles(st.files, a, b, c, ShutdownMarker, now, SystemStream in failed, WebServerStream in failed, SocketStream in failed);
  }

  /** The lifecycle marker `message` as one file gains it: nothing if the write throws. */
  function Marker(message: string, now: Time, ioFailure: bool): seq<LogItem> {
    if ioFailure then [] else [LogItem(message, None, Info, now)]
  }

  /**
   * A lifecycle marker written to three distinct files lands once in each
   * (creating the file if absent), and nothing else changes.
   */
  lemma MarksThreeFiles(files: FileSystem, a: string, b: string, c: string, message: string, now: Time,
                        failA: bool, failB: bool, failC: bool)
    requires a != b && a != c && b != c
    ensures var f1 := OpenAndWrite(files, a, now, Info, message, None, failA);
      var f2 := OpenAndWrite(f1, b, now, Info, message, None, failB);
      var r := OpenAndWrite(f2, c, now, Info, message, None, failC);
      && r.Keys == files.Keys + {a, b, c}
      && Content(r, a) == Content(files, a) + Marker(message, now, failA)
      && Content(r, b) == Content(files, b) + Marker(message, now, failB)
      && Content(r, c) == Content(files, c) + Marker(message, now, failC)
      && (forall p :: p in files && p !in {a, b, c} ==> r[p] == files[p])
  {
    var f1 := OpenAndWrite(files, a, now, Info, message, None, failA);
    var f2 := OpenAndWrite(f1, b, now, Info, message, None, failB);
    OpenAndWriteRecords(files, a, now, Info, message, None, failA);
    OpenAndWriteRecords(f1, b, now, Info, message, None, failB);
    OpenAndWriteRecords(f2, c, now, Info, message, None, failC);
  }

  lemma OnDisableBeforeInitDoesNothing(st: LoggerState, now: Time, failed: set<Stream>)
    requires Valid(st) && st.systemLogFile.None? && st.webServerLogFile.None? && st.webSocketLogFile.None?
    ensures OnDisable(st, now, failed) == st
  {
  }

  function CurrentFiles(st: LoggerState): set<string>
    requires FilesSet(st)
  {
    {st.systemLogFile.value, st.webServerLogFile.value, st.webSocketLogFile.value}
  }

  /** The three current files are three different files. */
  lemma DistinctCurrentFiles(st: LoggerState)
    requires Valid(st) && FilesSet(st)
    ensures st.systemLogFile.value != st.webServerLogFile.value
    ensures st.systemLogFile.value != st.webSocketLogFile.value
    ensures st.webServerLogFile.value != st.webSocketLogFile.value
  {
    DifferentStreamsDifferentFiles(SystemStream, WebServerStream, st.systemLogFile.value, st.webServerLogFile.value);
    DifferentStreamsDifferentFiles(SystemStream, SocketStream, st.systemLogFile.value, st.webSocketLogFile.value);
    DifferentStreamsDifferentFiles(WebServerStream, SocketStream, st.webServerLogFile.value, st.webSocketLogFile.value);
  }
}
