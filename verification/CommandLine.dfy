/** The rclone command line for mounting a bucket, and a reader that takes it apart again
    (protocol/kodo_cmd.go:12-159, protocol/utils.go:31-52). */
module CommandLine {
  import opened Wrappers
  import opened Text
  import opened Flags

  /** InitKodoMountCmd, without the fields that only go to the config file. */
  datatype MountCmd = MountCmd(
    volumeId: string, mountPath: string, subDir: string, bucketId: string, vfsCacheMode: string,
    dirCacheDuration: string, bufferSize: Option<nat>, vfsCacheMaxAge: string, vfsCachePollInterval: string,
    vfsWriteBack: string, vfsCacheMaxSize: Option<nat>, vfsReadAhead: Option<nat>, vfsFastFingerPrint: bool,
    vfsReadChunkSize: Option<nat>, vfsReadChunkSizeLimit: Option<nat>, noCheckSum: bool, noModTime: bool,
    noSeek: bool, readOnly: bool, vfsReadWait: string, vfsWriteWait: string, transfers: Option<nat>,
    vfsDiskSpaceTotalSize: Option<nat>, writeBackCache: bool, debugHttp: bool, debugFuse: bool)

  /** The values that the connector puts into the context. */
  datatype Env = Env(configPath: string, userAgent: string, logPath: string, cacheDir: string)

  function FormatByteSize(n: nat): string { FormatUint(n) + "b" }

  /** Not quite what the name says: see NormalizeDirExactly. */
  function NormalizeDir(key: string): string {
    var k := if key != "" && key[0] == '/' then key[1..] else key;
    if k == "" || k[|k| - 1] != '/' then k + "/" else k
  }

  // -- what each flag should say -----------------------------------------------------------------

  /** How a flag appears on the command line. */
  datatype Use = Absent | Alone | With(value: string)

  function UseText(t: string): Use { if t == "" then Absent else With(t) }
  function UseSize(n: Option<nat>): Use { if n.None? then Absent else With(FormatByteSize(n.value)) }
  function UseCount(n: Option<nat>): Use { if n.None? then Absent else With(FormatUint(n.value)) }
  function UseSwitch(b: bool): Use { if b then Alone else Absent }

  /** The meaning of a mount command, flag by flag. */
  function Wanted(c: MountCmd, env: Env, f: Flag): Use {
    match f
    case AutoConfirm => Alone
    case Config => With(env.configPath)
    case UserAgent => With(env.userAgent + "/" + c.volumeId)
    case LogFile => With(env.logPath)
    case BufferSize => UseSize(c.bufferSize)
    case Transfers => UseCount(c.transfers)
    case Verbose => UseSwitch(c.debugHttp)
    case Dump => if c.debugHttp then With("headers") else Absent
    case Daemon => Alone
    case CacheDir => With(env.cacheDir)
    case DirCacheTime => UseText(c.dirCacheDuration)
    case VfsCacheMode => UseText(c.vfsCacheMode)
    case VfsCacheMaxAge => UseText(c.vfsCacheMaxAge)
    case VfsCacheMaxSize => UseSize(c.vfsCacheMaxSize)
    case VfsCachePollInterval => UseText(c.vfsCachePollInterval)
    case VfsReadAhead => UseSize(c.vfsReadAhead)
    case VfsFastFingerprint => UseSwitch(c.vfsFastFingerPrint)
    case VfsWriteBack => UseText(c.vfsWriteBack)
    case VfsReadChunkSize => UseSize(c.vfsReadChunkSize)
    case VfsReadChunkSizeLimit => UseSize(c.vfsReadChunkSizeLimit)
    case NoChecksum => UseSwitch(c.noCheckSum)
    case NoModtime => UseSwitch(c.noModTime)
    case NoSeek => UseSwitch(c.noSeek)
    case ReadOnly => UseSwitch(c.readOnly)
    case VfsReadWait => UseText(c.vfsReadWait)
    case VfsWriteWait => UseText(c.vfsWriteWait)
    case VfsDiskSpaceTotalSize => UseSize(c.vfsDiskSpaceTotalSize)
    case WriteBackCache => UseSwitch(c.writeBackCache)
    case DebugFuse => UseSwitch(c.debugFuse)
  }

  function Source(c: MountCmd): string { c.volumeId + ":" + c.bucketId + "/" + NormalizeDir(c.subDir) }

  // -- reading a command line --------------------------------------------------------------------

  /** How flags are spelled. */
  datatype Syntax = Syntax(
    name: Flag -> string, flagOf: string -> Option<Flag>, takesValue: Flag -> bool, command: string)

  function Rclone(): Syntax { Syntax(f => Name(f), t => FlagOf(t), f => TakesValue(f), COMMAND) }

  /** Flags can be told apart from each other and from the command. */
  ghost predicate Clear(x: Syntax) {
    forall f: Flag :: x.flagOf(x.name(f)) == Some(f) && x.name(f) != x.command
  }

  lemma RcloneIsClear()
    ensures Clear(Rclone())
  {
  }

  /** A flag with its use. */
  datatype Setting = Setting(flag: Flag, use: Use)

  datatype Line = Line(globals: seq<Setting>, mounts: seq<Setting>, source: string, target: string)

  /** Reads flags up to the end of the tokens. */
  function ReadFlags(x: Syntax, tokens: seq<string>): Option<seq<Setting>> {
    if tokens == [] then Some([])
    else
      var f := x.flagOf(tokens[0]);
      if f.None? then None
      else if !x.takesValue(f.value) then
        var rest := ReadFlags(x, tokens[1..]);
        if rest.None? then None else Some([Setting(f.value, Alone)] + rest.value)
      else if |tokens| == 1 then None
      else
        var rest := ReadFlags(x, tokens[2..]);
        if rest.None? then None else Some([Setting(f.value, With(tokens[1]))] + rest.value)
  }

  /** Where the command stands: the first token spelled like it that is not the value of a flag. */
  function FindCommand(x: Syntax, tokens: seq<string>): Option<nat> {
    if tokens == [] then None
    else if tokens[0] == x.command then Some(0)
    else
      var f := x.flagOf(tokens[0]);
      var width := if f.Some? && x.takesValue(f.value) then 2 else 1;
      if |tokens| < width then None
      else
        var n := FindCommand(x, tokens[width..]);
        if n.None? then None else Some(n.value + width)
  }

  /** Reads "global flags, mount, mount flags, source, target". */
  function ReadLine(x: Syntax, tokens: seq<string>): Option<Line> {
    var n := FindCommand(x, tokens);
    if n.None? || |tokens| < n.value + 3 then None
    else
      var globals := ReadFlags(x, tokens[..n.value]);
      var mounts := ReadFlags(x, tokens[n.value + 1..|tokens| - 2]);
      if globals.None? || mounts.None? then None
      else Some(Line(globals.value, mounts.value, tokens[|tokens| - 2], tokens[|tokens| - 1]))
  }

  // -- printing ----------------------------------------------------------------------------------

  predicate Fits(x: Syntax, o: Setting) { if x.takesValue(o.flag) then o.use.With? else o.use.Alone? }

  function UseTokens(x: Syntax, f: Flag, u: Use): seq<string> {
    match u
    case Absent => []
    case Alone => [x.name(f)]
    case With(v) => [x.name(f), v]
  }

  function Tokens(x: Syntax, o: Setting): seq<string> { UseTokens(x, o.flag, o.use) }

  function Print(x: Syntax, options: seq<Setting>): seq<string> {
    if options == [] then [] else Tokens(x, options[0]) + Print(x, options[1..])
  }

  ghost predicate AllFit(x: Syntax, options: seq<Setting>) { forall i :: 0 <= i < |options| ==> Fits(x, options[i]) }

  /** Printed flags are read back. */
  lemma {:induction false} FlagsRoundTrip(x: Syntax, options: seq<Setting>)
    requires Clear(x) && AllFit(x, options)
    ensures ReadFlags(x, Print(x, options)) == Some(options)
  {
    if options != [] {
      FlagsRoundTrip(x, options[1..]);
      var t, rest := Print(x, options), Print(x, options[1..]);
      assert Fits(x, options[0]);
      assert t[|Tokens(x, options[0])|..] == rest;
      assert options == [options[0]] + options[1..];
    }
  }

  lemma DropFront(a: seq<string>, b: seq<string>, c: seq<string>, d: seq<string>)
    ensures var t := (a + b) + c + d; t[|a|..] == b + c + d && forall i :: 0 <= i < |a| ==> t[i] == a[i]
  {
  }

  lemma Cut(g: seq<string>, c: string, m: seq<string>, a: string, b: string)
    ensures var t := g + [c] + (m + [a, b]);
            && |t| == |g| + |m| + 3 && t[..|g|] == g && t[|g| + 1..|t| - 2] == m
            && t[|t| - 2] == a && t[|t| - 1] == b
  {
  }

  lemma {:induction false} CommandFound(x: Syntax, options: seq<Setting>, tail: seq<string>)
    requires Clear(x) && AllFit(x, options)
    ensures FindCommand(x, Print(x, options) + [x.command] + tail) == Some(|Print(x, options)|)
  {
    var t := Print(x, options) + [x.command] + tail;
    if options == [] {
      assert t[0] == x.command;
    } else {
      CommandFound(x, options[1..], tail);
      assert Fits(x, options[0]);
      DropFront(Tokens(x, options[0]), Print(x, options[1..]), [x.command], tail);
    }
  }

  function Argv(x: Syntax, line: Line): seq<string> {
    Print(x, line.globals) + [x.command] + (Print(x, line.mounts) + [line.source, line.target])
  }

  /** A printed command line is read back, whatever its values are. */
  lemma LineRoundTrip(x: Syntax, line: Line)
    requires Clear(x) && AllFit(x, line.globals) && AllFit(x, line.mounts)
    ensures ReadLine(x, Argv(x, line)) == Some(line)
  {
    var m := Print(x, line.mounts);
    CommandFound(x, line.globals, m + [line.source, line.target]);
    Cut(Print(x, line.globals), x.command, m, line.source, line.target);
    FlagsRoundTrip(x, line.globals);
    FlagsRoundTrip(x, line.mounts);
  }
}
