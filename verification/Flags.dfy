/** The flags of the rclone command line (protocol/kodo_cmd.go:60-136). */
module Flags {
  import opened Wrappers
  import opened Text

  datatype Flag =
    | AutoConfirm | Config | UserAgent | LogFile | BufferSize | Transfers | Verbose | Dump
    | Daemon | CacheDir | DirCacheTime | VfsCacheMode | VfsCacheMaxAge | VfsCacheMaxSize | VfsCachePollInterval
    | VfsReadAhead | VfsFastFingerprint | VfsWriteBack | VfsReadChunkSize | VfsReadChunkSizeLimit | NoChecksum
    | NoModtime | NoSeek | ReadOnly | VfsReadWait | VfsWriteWait | VfsDiskSpaceTotalSize | WriteBackCache | DebugFuse

  /** The only flag that a token can name, told by its length and one or two of its characters. */
  function Candidate(token: string): Flag {
    match |token|
    case 6 => Dump
    case 8 => if token[2] == 'c' then Config else Daemon
    case 9 => if token[2] == 'v' then Verbose else NoSeek
    case 10 => LogFile
    case 11 => if token[2] == 't' then Transfers else if token[2] == 'c' then CacheDir else ReadOnly
    case 12 => if token[2] == 'u' then UserAgent else if token[2] == 'n' then NoModtime else DebugFuse
    case 13 => if token[2] == 'b' then BufferSize else NoChecksum
    case 14 => AutoConfirm
    case 15 => VfsReadWait
    case 16 =>
      if token[12] == 't' then DirCacheTime
      else if token[12] == 'm' then VfsCacheMode
      else if token[12] == 'h' then VfsReadAhead
      else if token[12] == 'b' then VfsWriteBack
      else VfsWriteWait
    case 18 => WriteBackCache
    case 19 => VfsCacheMaxAge
    case 20 => VfsCacheMaxSize
    case 21 => VfsReadChunkSize
    case 22 => VfsFastFingerprint
    case 25 => VfsCachePollInterval
    case 27 => if token[6] == 'r' then VfsReadChunkSizeLimit else VfsDiskSpaceTotalSize
    case _ => AutoConfirm
  }

  const COMMAND: string := "mount"

  function Name(f: Flag): (name: string)
    ensures Candidate(name) == f && name != COMMAND
  {
    match f
    case AutoConfirm => "--auto-confirm"
    case Config => "--config"
    case UserAgent => "--user-agent"
    case LogFile => "--log-file"
    case BufferSize => "--buffer-size"
    case Transfers => "--transfers"
    case Verbose => "--verbose"
    case Dump => "--dump"
    case Daemon => "--daemon"
    case CacheDir => "--cache-dir"
    case DirCacheTime => "--dir-cache-time"
    case VfsCacheMode => "--vfs-cache-mode"
    case VfsCacheMaxAge => "--vfs-cache-max-age"
    case VfsCacheMaxSize => "--vfs-cache-max-size"
    case VfsCachePollInterval => "--vfs-cache-poll-interval"
    case VfsReadAhead => "--vfs-read-ahead"
    case VfsFastFingerprint => "--vfs-fast-fingerprint"
    case VfsWriteBack => "--vfs-write-back"
    case VfsReadChunkSize => "--vfs-read-chunk-size"
    case VfsReadChunkSizeLimit => "--vfs-read-chunk-size-limit"
    case NoChecksum => "--no-checksum"
    case NoModtime => "--no-modtime"
    case NoSeek => "--no-seek"
    case ReadOnly => "--read-only"
    case VfsReadWait => "--vfs-read-wait"
    case VfsWriteWait => "--vfs-write-wait"
    case VfsDiskSpaceTotalSize => "--vfs-disk-space-total-size"
    case WriteBackCache => "--write-back-cache"
    case DebugFuse => "--debug-fuse"
  }

  /** Whether the token after the flag is its value. */
  predicate TakesValue(f: Flag) {
    match f
    case AutoConfirm | Verbose | Daemon | VfsFastFingerprint | NoChecksum | NoModtime | NoSeek | ReadOnly => false
    case WriteBackCache | DebugFuse => false
    case _ => true
  }

  /** The flags that rclone takes before the command. */
  predicate IsGlobal(f: Flag) {
    match f
    case AutoConfirm | Config | UserAgent | LogFile | BufferSize | Transfers | Verbose | Dump => true
    case _ => false
  }

  /** The flag that a token names. */
  function FlagOf(token: string): Option<Flag> {
    var f := Candidate(token);
    if Name(f) == token then Some(f) else None
  }
}
