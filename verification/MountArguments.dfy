/** rclone's arguments token by token, as they are spelled (protocol/kodo_cmd.go:60-149). */
module MountArguments {
  import opened Wrappers
  import opened Text
  import opened Flags
  import opened CommandLine
  import opened MountCommand

  function TextTokens(flag: string, text: string): seq<string> { if text == "" then [] else [flag, text] }

  function SizeTokens(flag: string, n: Option<nat>): seq<string> {
    if n.None? then [] else [flag, FormatUint(n.value) + "b"]
  }

  function CountTokens(flag: string, n: Option<nat>): seq<string> {
    if n.None? then [] else [flag, FormatUint(n.value)]
  }

  function SwitchTokens(flag: string, on: bool): seq<string> { if on then [flag] else [] }

  /** What the command puts on rclone's command line for each flag. */
  function FlagTokens(c: MountCmd, env: Env, f: Flag): seq<string> {
    match f
    case AutoConfirm => ["--auto-confirm"]
    case Config => ["--config", env.configPath]
    case UserAgent => ["--user-agent", env.userAgent + "/" + c.volumeId]
    case LogFile => ["--log-file", env.logPath]
    case BufferSize => SizeTokens("--buffer-size", c.bufferSize)
    case Transfers => CountTokens("--transfers", c.transfers)
    case Verbose => SwitchTokens("--verbose", c.debugHttp)
    case Dump => if c.debugHttp then ["--dump", "headers"] else []
    case Daemon => ["--daemon"]
    case CacheDir => ["--cache-dir", env.cacheDir]
    case DirCacheTime => TextTokens("--dir-cache-time", c.dirCacheDuration)
    case VfsCacheMode => TextTokens("--vfs-cache-mode", c.vfsCacheMode)
    case VfsCacheMaxAge => TextTokens("--vfs-cache-max-age", c.vfsCacheMaxAge)
    case VfsCacheMaxSize => SizeTokens("--vfs-cache-max-size", c.vfsCacheMaxSize)
    case VfsCachePollInterval => TextTokens("--vfs-cache-poll-interval", c.vfsCachePollInterval)
    case VfsReadAhead => SizeTokens("--vfs-read-ahead", c.vfsReadAhead)
    case VfsFastFingerprint => SwitchTokens("--vfs-fast-fingerprint", c.vfsFastFingerPrint)
    case VfsWriteBack => TextTokens("--vfs-write-back", c.vfsWriteBack)
    case VfsReadChunkSize => SizeTokens("--vfs-read-chunk-size", c.vfsReadChunkSize)
    case VfsReadChunkSizeLimit => SizeTokens("--vfs-read-chunk-size-limit", c.vfsReadChunkSizeLimit)
    case NoChecksum => SwitchTokens("--no-checksum", c.noCheckSum)
    case NoModtime => SwitchTokens("--no-modtime", c.noModTime)
    case NoSeek => SwitchTokens("--no-seek", c.noSeek)
    case ReadOnly => SwitchTokens("--read-only", c.readOnly)
    case VfsReadWait => TextTokens("--vfs-read-wait", c.vfsReadWait)
    case VfsWriteWait => TextTokens("--vfs-write-wait", c.vfsWriteWait)
    case VfsDiskSpaceTotalSize => SizeTokens("--vfs-disk-space-total-size", c.vfsDiskSpaceTotalSize)
    case WriteBackCache => SwitchTokens("--write-back-cache", c.writeBackCache)
    case DebugFuse => SwitchTokens("--debug-fuse", c.debugFuse)
  }

  type Tokenizer = Flag -> seq<string>

  function TokensOf(c: MountCmd, env: Env): Tokenizer { f => FlagTokens(c, env, f) }

  function Joined(tokens: Tokenizer, order: seq<Flag>): seq<string> {
    if order == [] then [] else tokens(order[0]) + Joined(tokens, order[1..])
  }

  lemma {:induction false} PrintedIsJoined(x: Syntax, use: Meaning, tokens: Tokenizer, order: seq<Flag>)
    requires forall f :: UseTokens(x, f, use(f)) == tokens(f)
    ensures Printed(x, use, order) == Joined(tokens, order)
  {
    if order != [] {
      PrintedIsJoined(x, use, tokens, order[1..]);
      PrintedCons(x, use, order);
    }
  }

  lemma TokensAreSpelled(c: MountCmd, env: Env, f: Flag)
    ensures UseTokens(Rclone(), f, Wanted(c, env, f)) == FlagTokens(c, env, f)
  {
  }

  lemma AllAreSpelled(c: MountCmd, env: Env)
    ensures forall f :: UseTokens(Rclone(), f, MeaningOf(c, env)(f)) == TokensOf(c, env)(f)
  {
    forall f ensures UseTokens(Rclone(), f, MeaningOf(c, env)(f)) == TokensOf(c, env)(f) {
      TokensAreSpelled(c, env, f);
    }
  }

  /** The tokens stand in the arguments, one after the other. */
  ghost predicate Stands(args: seq<string>, tokens: seq<string>) {
    exists i :: 0 <= i <= |args| && tokens <= args[i..]
  }

  lemma {:induction false} JoinedHas(tokens: Tokenizer, order: seq<Flag>, f: Flag) returns (i: nat)
    requires f in order
    ensures i <= |Joined(tokens, order)| && tokens(f) <= Joined(tokens, order)[i..]
  {
    if order[0] == f {
      i := 0;
    } else {
      i := JoinedHas(tokens, order[1..], f);
      var front, rest := tokens(order[0]), Joined(tokens, order[1..]);
      assert (front + rest)[|front| + i..] == rest[i..];
      i := |front| + i;
    }
  }

  lemma Inside(a: seq<string>, b: seq<string>, c: seq<string>, tokens: seq<string>, i: nat)
    requires i <= |b| && tokens <= b[i..]
    ensures Stands(a + b + c, tokens)
  {
    var all := a + b + c;
    assert tokens <= all[|a| + i..] by {
      assert all[|a| + i..] == b[i..] + c;
    }
  }

  /** The whole command line, token by token. */
  lemma ArgvIsSpelled(c: MountCmd, env: Env)
    ensures Argv(Rclone(), LineOf(c, env)) ==
            Joined(TokensOf(c, env), GLOBAL_ORDER) + ["mount"] +
            (Joined(TokensOf(c, env), MOUNT_ORDER)
             + [c.volumeId + ":" + c.bucketId + "/" + NormalizeDir(c.subDir), c.mountPath])
  {
    AllAreSpelled(c, env);
    PrintedIsJoined(Rclone(), MeaningOf(c, env), TokensOf(c, env), GLOBAL_ORDER);
    PrintedIsJoined(Rclone(), MeaningOf(c, env), TokensOf(c, env), MOUNT_ORDER);
  }

  lemma SectionStands(tokens: Tokenizer, g: seq<Flag>, m: seq<Flag>, end: seq<string>, f: Flag)
    requires f in g || f in m
    ensures Stands(Joined(tokens, g) + ["mount"] + (Joined(tokens, m) + end), tokens(f))
  {
    var globals, mounts := Joined(tokens, g), Joined(tokens, m);
    if f in g {
      var i := JoinedHas(tokens, g, f);
      Inside([], globals, ["mount"] + (mounts + end), tokens(f), i);
      assert [] + globals + (["mount"] + (mounts + end)) == globals + ["mount"] + (mounts + end);
    } else {
      var i := JoinedHas(tokens, m, f);
      Inside(globals + ["mount"], mounts, end, tokens(f), i);
      assert globals + ["mount"] + mounts + end == globals + ["mount"] + (mounts + end);
    }
  }

  /** Each flag stands in the arguments as it is spelled, followed by its value. */
  lemma FlagStands(c: MountCmd, env: Env, f: Flag)
    ensures Stands(Argv(Rclone(), LineOf(c, env)), FlagTokens(c, env, f))
  {
    ArgvIsSpelled(c, env);
    GlobalPlaces();
    MountPlaces();
    SectionStands(TokensOf(c, env), GLOBAL_ORDER, MOUNT_ORDER,
                  [c.volumeId + ":" + c.bucketId + "/" + NormalizeDir(c.subDir), c.mountPath], f);
  }
}
