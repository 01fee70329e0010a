/**
 * The logger's severities, the host engine's log types, and the three
 * output streams, with the two fixed tables between them: the routing
 * switch of `RecordLog` and the host type -> level dictionary built by `Init`.
 */
module Levels {

  /** The logger's severity scale, in declaration order (Debug = 0 ... Exception = 7). */
  datatype LogLevel = Debug | Info | Request | Response | Socket | WARNING | ERROR | Exception

  /** The host engine's log types (Unity's `LogType`). */
  datatype LogType = Error | Assert | Warning | Log | Exception

  /** The three log streams, each with its own folder and file series. */
  datatype Stream = SystemStream | WebServerStream | SocketStream

  /** The member's name as written, which is what `"[" + level + "]"` prints. */
  function LevelName(level: LogLevel): (name: string)
    ensures 4 <= |name| <= 9
    ensures forall i :: 0 <= i < |name| ==> 'A' <= name[i] <= 'Z' || 'a' <= name[i] <= 'z'
  {
    match level
    case Debug => "Debug"
    case Info => "Info"
    case Request => "Request"
    case Response => "Response"
    case Socket => "Socket"
    case WARNING => "WARNING"
    case ERROR => "ERROR"
    case Exception => "Exception"
  }

  /** Distinct levels print distinct names, so a printed name identifies its level. */
  lemma LevelNameInjective(a: LogLevel, b: LogLevel)
    ensures LevelName(a) == LevelName(b) <==> a == b
  {
  }

  /** The levels whose stack trace is written after the message. */
  predicate IsTraceLevel(level: LogLevel) {
    level == ERROR || level == LogLevel.Exception
  }

  /** The stream a level is written to: the `switch` of `RecordLog`. */
  function Route(level: LogLevel): (s: Stream)
    ensures s == WebServerStream <==> level == Request || level == Response
    ensures s == SocketStream <==> level == Socket
  {
    match level
    case Debug => SystemStream
    case Info => SystemStream
    case WARNING => SystemStream
    case ERROR => SystemStream
    case Exception => SystemStream
    case Request => WebServerStream
    case Response => WebServerStream
    case Socket => SocketStream
  }

  /** Every level reaches exactly one stream, as the routing table lays out. */
  lemma RouteTable(level: LogLevel)
    ensures Route(level) == SystemStream <==> level in {Debug, Info, WARNING, ERROR, LogLevel.Exception}
    ensures Route(level) == WebServerStream <==> level in {Request, Response}
    ensures Route(level) == SocketStream <==> level == Socket
  {
  }

  /** The host type -> level dictionary that `Init` builds; it has all five keys. */
  function HostLevel(t: LogType): (level: LogLevel)
    ensures level in {Info, WARNING, ERROR, LogLevel.Exception}
    ensures level == ERROR <==> t == Assert || t == Error
  {
    match t
    case Log => Info
    case Warning => WARNING
    case Assert => ERROR
    case Error => ERROR
    case Exception => LogLevel.Exception
  }

  /** Everything the host engine reports lands in the System stream. */
  lemma HostLevelRoutesToSystem(t: LogType)
    ensures Route(HostLevel(t)) == SystemStream
  {
  }

  /** The host's stack trace is kept exactly for asserts, errors and exceptions. */
  lemma HostLevelKeepsTrace(t: LogType)
    ensures IsTraceLevel(HostLevel(t)) <==> t in {Assert, Error, LogType.Exception}
  {
  }
}
