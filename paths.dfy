/**
 * Where each stream's files live: one folder per stream and one file per
 * clock hour, named `<folder>/<Stem><yyyyMMdd_HH>.txt`.
 */
module Paths {
  import opened Levels
  import opened Timestamps

  /** The player-build folders (the editor build puts them under the working directory). */
  const SystemLogFolder: string := "/Logs/"
  const WebServerLogFolder: string := "/Logs/WebServer/"
  const WebSocketLogFolder: string := "/Logs/WebSocket/"

  function Folder(s: Stream): string {
    match s
    case SystemStream => SystemLogFolder
    case WebServerStream => WebServerLogFolder
    case SocketStream => WebSocketLogFolder
  }

  function FileStem(s: Stream): string {
    match s
    case SystemStream => "SystemLog_"
    case WebServerStream => "WebServerLog_"
    case SocketStream => "WebSocketLog_"
  }

  /** The file for the hour of `t`: a function of the folder, the stem and the hour key alone. */
  function LogPath(folder: string, stem: string, t: Time): string {
    folder + "/" + stem + HourKey(t) + ".txt"
  }

  function StreamPath(s: Stream, t: Time): string {
    LogPath(Folder(s), FileStem(s), t)
  }

  /** Everything a stream's file names share: folder, separator and stem. */
  function StreamPrefix(s: Stream): string {
    Folder(s) + "/" + FileStem(s)
  }

  predicate InStream(s: Stream, path: string) {
    StreamPrefix(s) <= path
  }

  /** Two instants name the same file exactly when they fall in the same hour. */
  lemma LogPathIdentifiesHour(folder: string, stem: string, a: Time, b: Time)
    ensures LogPath(folder, stem, a) == LogPath(folder, stem, b) <==> SameHour(a, b)
  {
    HourKeyIdentifiesHour(a, b);
    var n := |folder + "/" + stem|;
    if LogPath(folder, stem, a) == LogPath(folder, stem, b) {
      assert LogPath(folder, stem, a)[n..n + 11] == HourKey(a);
      assert LogPath(folder, stem, b)[n..n + 11] == HourKey(b);
    }
  }

  lemma StreamPathInStream(s: Stream, t: Time)
    ensures InStream(s, StreamPath(s, t))
  {
    var p := StreamPrefix(s);
    assert StreamPath(s, t) == p + (HourKey(t) + ".txt");
  }

  /** A stream's file is its folder, separator and stem, then the hour key and `.txt`. */
  lemma StreamPathLayout(s: Stream, t: Time)
    ensures StreamPath(s, t) == StreamPrefix(s) + HourKey(t) + ".txt"
  {
  }

  /** No path belongs to two streams: the prefixes already differ at character 10. */
  lemma DifferentStreamsDifferentFiles(a: Stream, b: Stream, x: string, y: string)
    requires a != b && InStream(a, x) && InStream(b, y)
    ensures x != y
  {
    assert x[10] == StreamPrefix(a)[10] && y[10] == StreamPrefix(b)[10];
  }

  /** Files of different streams never coincide; files of one stream coincide only within an hour. */
  lemma StreamPathsDistinct(a: Stream, b: Stream, ta: Time, tb: Time)
    ensures StreamPath(a, ta) == StreamPath(b, tb) <==> a == b && SameHour(ta, tb)
  {
    StreamPathInStream(a, ta);
    StreamPathInStream(b, tb);
    if a != b {
      DifferentStreamsDifferentFiles(a, b, StreamPath(a, ta), StreamPath(b, tb));
    } else {
      LogPathIdentifiesHour(Folder(a), FileStem(a), ta, tb);
    }
  }
}
