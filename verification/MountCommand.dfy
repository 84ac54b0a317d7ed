/** ExecCommand turns a mount command into rclone's arguments, and they tell everything that the
    command said (protocol/kodo_cmd.go:54-159). */
module MountCommand {
  import opened Wrappers
  import opened Text
  import opened Flags
  import opened CommandLine

  type Meaning = Flag -> Use

  function MeaningOf(c: MountCmd, env: Env): Meaning { f => Wanted(c, env, f) }

  /** The order in which flags are printed. */
  const GLOBAL_ORDER: seq<Flag> := [AutoConfirm, Config, UserAgent, LogFile, BufferSize, Transfers, Verbose] + [Dump]

  const FIRST_SEVEN: seq<Flag> := [
    Daemon, CacheDir, DirCacheTime, VfsCacheMode, VfsCacheMaxAge, VfsCacheMaxSize, VfsCachePollInterval
  ]

  const SECOND_SEVEN: seq<Flag> := [
    VfsReadAhead, VfsFastFingerprint, VfsWriteBack, VfsReadChunkSize, VfsReadChunkSizeLimit, NoChecksum, NoModtime
  ]

  const THIRD_SEVEN: seq<Flag> := [
    NoSeek, ReadOnly, VfsReadWait, VfsWriteWait, VfsDiskSpaceTotalSize, WriteBackCache, DebugFuse
  ]

  const MOUNT_ORDER: seq<Flag> := FIRST_SEVEN + SECOND_SEVEN + THIRD_SEVEN

  /** The flags in use, in order. */
  function Options(use: Meaning, order: seq<Flag>): seq<Setting> {
    if order == [] then []
    else if use(order[0]).Absent? then Options(use, order[1..])
    else [Setting(order[0], use(order[0]))] + Options(use, order[1..])
  }

  function LineOf(c: MountCmd, env: Env): Line {
    Line(Options(MeaningOf(c, env), GLOBAL_ORDER), Options(MeaningOf(c, env), MOUNT_ORDER), Source(c), c.mountPath)
  }

  // -- the printer -------------------------------------------------------------------------------

  method AppendText(x: Syntax, flags: seq<string>, f: Flag, t: string) returns (r: seq<string>)
    ensures r == flags + UseTokens(x, f, UseText(t))
  {
    r := flags;
    if t != "" {
      r := r + [x.name(f), t];
    }
  }

  method AppendSize(x: Syntax, flags: seq<string>, f: Flag, n: Option<nat>) returns (r: seq<string>)
    ensures r == flags + UseTokens(x, f, UseSize(n))
  {
    r := flags;
    if n.Some? {
      r := r + [x.name(f), FormatByteSize(n.value)];
    }
  }

  method AppendCount(x: Syntax, flags: seq<string>, f: Flag, n: Option<nat>) returns (r: seq<string>)
    ensures r == flags + UseTokens(x, f, UseCount(n))
  {
    r := flags;
    if n.Some? {
      r := r + [x.name(f), FormatUint(n.value)];
    }
  }

  method AppendSwitch(x: Syntax, flags: seq<string>, f: Flag, b: bool) returns (r: seq<string>)
    ensures r == flags + UseTokens(x, f, UseSwitch(b))
  {
    r := flags;
    if b {
      r := r + [x.name(f)];
    }
  }

  ghost function Printed(x: Syntax, use: Meaning, order: seq<Flag>): seq<string> { Print(x, Options(use, order)) }

  lemma {:induction false} PrintedSnoc(x: Syntax, use: Meaning, order: seq<Flag>, f: Flag)
    ensures Printed(x, use, order + [f]) == Printed(x, use, order) + UseTokens(x, f, use(f))
  {
    var longer := order + [f];
    if order == [] {
      assert longer[1..] == [];
    } else {
      assert longer[0] == order[0] && longer[1..] == order[1..] + [f];
      PrintedSnoc(x, use, order[1..], f);
      PrintedCons(x, use, order);
      PrintedCons(x, use, longer);
    }
  }

  lemma PrintedCons(x: Syntax, use: Meaning, order: seq<Flag>)
    requires order != []
    ensures Printed(x, use, order) == UseTokens(x, order[0], use(order[0])) + Printed(x, use, order[1..])
  {
    if !use(order[0]).Absent? {
      assert Options(use, order)[1..] == Options(use, order[1..]);
    }
  }

  function At(x: Syntax, use: Meaning, f: Flag): seq<string> { UseTokens(x, f, use(f)) }

  /** Seven more flags. */
  function Seven(x: Syntax, use: Meaning, flags: seq<string>, a: Flag, b: Flag, c: Flag, d: Flag, e: Flag, f: Flag,
                 g: Flag): seq<string> {
    flags + At(x, use, a) + At(x, use, b) + At(x, use, c) + At(x, use, d) + At(x, use, e) + At(x, use, f)
    + At(x, use, g)
  }

  function FirstSeven(x: Syntax, use: Meaning, flags: seq<string>): seq<string> {
    Seven(x, use, flags, Daemon, CacheDir, DirCacheTime, VfsCacheMode, VfsCacheMaxAge, VfsCacheMaxSize,
          VfsCachePollInterval)
  }

  function SecondSeven(x: Syntax, use: Meaning, flags: seq<string>): seq<string> {
    Seven(x, use, flags, VfsReadAhead, VfsFastFingerprint, VfsWriteBack, VfsReadChunkSize, VfsReadChunkSizeLimit,
          NoChecksum, NoModtime)
  }

  function ThirdSeven(x: Syntax, use: Meaning, flags: seq<string>): seq<string> {
    Seven(x, use, flags, NoSeek, ReadOnly, VfsReadWait, VfsWriteWait, VfsDiskSpaceTotalSize, WriteBackCache,
          DebugFuse)
  }

  lemma SevenPrinted(x: Syntax, use: Meaning, order: seq<Flag>, flags: seq<string>,
                     a: Flag, b: Flag, c: Flag, d: Flag, e: Flag, f: Flag, g: Flag)
    requires flags == Printed(x, use, order)
    ensures Seven(x, use, flags, a, b, c, d, e, f, g) == Printed(x, use, order + [a, b, c, d, e, f, g])
  {
    Three(x, use, order, flags, a, b, c);
    var more := flags + At(x, use, a) + At(x, use, b) + At(x, use, c);
    Three(x, use, order + [a, b, c], more, d, e, f);
    PrintedSnoc(x, use, order + [a, b, c] + [d, e, f], g);
    Regroup(order, a, b, c, d, e, f, g);
  }

  lemma Regroup(order: seq<Flag>, a: Flag, b: Flag, c: Flag, d: Flag, e: Flag, f: Flag, g: Flag)
    ensures order + [a, b, c] + [d, e, f] + [g] == order + [a, b, c, d, e, f, g]
  {
  }

  lemma Three(x: Syntax, use: Meaning, order: seq<Flag>, flags: seq<string>, a: Flag, b: Flag, c: Flag)
    requires flags == Printed(x, use, order)
    ensures flags + At(x, use, a) + At(x, use, b) + At(x, use, c) == Printed(x, use, order + [a, b, c])
  {
    PrintedSnoc(x, use, order, a);
    PrintedSnoc(x, use, order + [a], b);
    PrintedSnoc(x, use, order + [a] + [b], c);
    assert order + [a] + [b] + [c] == order + [a, b, c];
  }

  method StartMountFlags(x: Syntax, c: MountCmd, env: Env) returns (mountFlags: seq<string>)
    ensures mountFlags == FirstSeven(x, MeaningOf(c, env), [])
  {
    mountFlags := [x.name(Daemon), x.name(CacheDir), env.cacheDir];
    assert mountFlags == [] + UseTokens(x, Daemon, Alone) + UseTokens(x, CacheDir, With(env.cacheDir));
    mountFlags := AppendText(x, mountFlags, DirCacheTime, c.dirCacheDuration);
    mountFlags := AppendText(x, mountFlags, VfsCacheMode, c.vfsCacheMode);
    mountFlags := AppendText(x, mountFlags, VfsCacheMaxAge, c.vfsCacheMaxAge);
    mountFlags := AppendSize(x, mountFlags, VfsCacheMaxSize, c.vfsCacheMaxSize);
    mountFlags := AppendText(x, mountFlags, VfsCachePollInterval, c.vfsCachePollInterval);
  }

  method MoreMountFlags(x: Syntax, c: MountCmd, env: Env, before: seq<string>) returns (mountFlags: seq<string>)
    ensures mountFlags == SecondSeven(x, MeaningOf(c, env), before)
  {
    mountFlags := before;
    mountFlags := AppendSize(x, mountFlags, VfsReadAhead, c.vfsReadAhead);
    mountFlags := AppendSwitch(x, mountFlags, VfsFastFingerprint, c.vfsFastFingerPrint);
    mountFlags := AppendText(x, mountFlags, VfsWriteBack, c.vfsWriteBack);
    mountFlags := AppendSize(x, mountFlags, VfsReadChunkSize, c.vfsReadChunkSize);
    mountFlags := AppendSize(x, mountFlags, VfsReadChunkSizeLimit, c.vfsReadChunkSizeLimit);
    mountFlags := AppendSwitch(x, mountFlags, NoChecksum, c.noCheckSum);
    mountFlags := AppendSwitch(x, mountFlags, NoModtime, c.noModTime);
  }

  lemma AccessMeaning(c: MountCmd, env: Env)
    ensures var use := MeaningOf(c, env);
            && use(NoSeek) == UseSwitch(c.noSeek)
            && use(ReadOnly) == UseSwitch(c.readOnly)
            && use(VfsReadWait) == UseText(c.vfsReadWait)
  {
  }

  lemma LastMeaning(c: MountCmd, env: Env)
    ensures var use := MeaningOf(c, env);
            && use(VfsWriteWait) == UseText(c.vfsWriteWait)
            && use(VfsDiskSpaceTotalSize) == UseSize(c.vfsDiskSpaceTotalSize)
            && use(WriteBackCache) == UseSwitch(c.writeBackCache)
            && use(DebugFuse) == UseSwitch(c.debugFuse)
  {
  }

  method LastMountFlags(x: Syntax, c: MountCmd, env: Env, before: seq<string>) returns (mountFlags: seq<string>)
    ensures mountFlags == ThirdSeven(x, MeaningOf(c, env), before)
  {
    ghost var use := MeaningOf(c, env);
    AccessMeaning(c, env);
    LastMeaning(c, env);
    mountFlags := AppendSwitch(x, before, NoSeek, c.noSeek);
    mountFlags := AppendSwitch(x, mountFlags, ReadOnly, c.readOnly);
    mountFlags := AppendText(x, mountFlags, VfsReadWait, c.vfsReadWait);
    mountFlags := AppendText(x, mountFlags, VfsWriteWait, c.vfsWriteWait);
    ghost var half :=
      before + At(x, use, NoSeek) + At(x, use, ReadOnly) + At(x, use, VfsReadWait) + At(x, use, VfsWriteWait);
    assert mountFlags == half;
    mountFlags := AppendSize(x, mountFlags, VfsDiskSpaceTotalSize, c.vfsDiskSpaceTotalSize);
    mountFlags := AppendSwitch(x, mountFlags, WriteBackCache, c.writeBackCache);
    mountFlags := AppendSwitch(x, mountFlags, DebugFuse, c.debugFuse);
  }

  method MountFlags(x: Syntax, c: MountCmd, env: Env) returns (mountFlags: seq<string>)
    ensures mountFlags == Printed(x, MeaningOf(c, env), MOUNT_ORDER)
  {
    mountFlags := StartMountFlags(x, c, env);
    mountFlags := MoreMountFlags(x, c, env, mountFlags);
    mountFlags := LastMountFlags(x, c, env, mountFlags);
    MountPrinted(x, MeaningOf(c, env));
  }

  lemma MountPrinted(x: Syntax, use: Meaning)
    ensures ThirdSeven(x, use, SecondSeven(x, use, FirstSeven(x, use, []))) == Printed(x, use, MOUNT_ORDER)
  {
    var first := FirstSeven(x, use, []);
    SevenPrinted(x, use, [], [], Daemon, CacheDir, DirCacheTime, VfsCacheMode, VfsCacheMaxAge, VfsCacheMaxSize,
                 VfsCachePollInterval);
    assert [] + FIRST_SEVEN == FIRST_SEVEN;
    var second := SecondSeven(x, use, first);
    SevenPrinted(x, use, FIRST_SEVEN, first, VfsReadAhead, VfsFastFingerprint, VfsWriteBack, VfsReadChunkSize,
                 VfsReadChunkSizeLimit, NoChecksum, NoModtime);
    SevenPrinted(x, use, FIRST_SEVEN + SECOND_SEVEN, second, NoSeek, ReadOnly, VfsReadWait, VfsWriteWait,
                 VfsDiskSpaceTotalSize, WriteBackCache, DebugFuse);
  }

  method GlobalFlags(x: Syntax, c: MountCmd, env: Env) returns (cmdFlags: seq<string>)
    ensures cmdFlags == Printed(x, MeaningOf(c, env), GLOBAL_ORDER)
  {
    cmdFlags := StartGlobalFlags(x, c, env);
    if c.debugHttp {
      cmdFlags := cmdFlags + [x.name(Verbose), x.name(Dump), "headers"];
    }
    GlobalPrinted(x, MeaningOf(c, env));
    DebugFlags(x, c, env, Six(x, MeaningOf(c, env)));
  }

  ghost function Six(x: Syntax, use: Meaning): seq<string> {
    [] + At(x, use, AutoConfirm) + At(x, use, Config) + At(x, use, UserAgent) + At(x, use, LogFile)
    + At(x, use, BufferSize) + At(x, use, Transfers)
  }

  lemma DebugFlags(x: Syntax, c: MountCmd, env: Env, before: seq<string>)
    ensures before + At(x, MeaningOf(c, env), Verbose) + At(x, MeaningOf(c, env), Dump) ==
            if c.debugHttp then before + [x.name(Verbose), x.name(Dump), "headers"] else before
  {
  }

  lemma GlobalPrinted(x: Syntax, use: Meaning)
    ensures Six(x, use) + At(x, use, Verbose) + At(x, use, Dump) == Printed(x, use, GLOBAL_ORDER)
  {
    SevenPrinted(x, use, [], [], AutoConfirm, Config, UserAgent, LogFile, BufferSize, Transfers, Verbose);
    var o := [AutoConfirm, Config, UserAgent, LogFile, BufferSize, Transfers, Verbose];
    assert [] + o == o;
    PrintedSnoc(x, use, o, Dump);
  }

  method StartGlobalFlags(x: Syntax, c: MountCmd, env: Env) returns (cmdFlags: seq<string>)
    ensures cmdFlags == Six(x, MeaningOf(c, env))
  {
    cmdFlags := [
      x.name(AutoConfirm),
      x.name(Config), env.configPath,
      x.name(UserAgent), env.userAgent + "/" + c.volumeId,
      x.name(LogFile), env.logPath
    ];
    assert cmdFlags == [] + UseTokens(x, AutoConfirm, Alone) + UseTokens(x, Config, With(env.configPath)) +
                       UseTokens(x, UserAgent, With(env.userAgent + "/" + c.volumeId))
                         + UseTokens(x, LogFile, With(env.logPath));
    cmdFlags := AppendSize(x, cmdFlags, BufferSize, c.bufferSize);
    cmdFlags := AppendCount(x, cmdFlags, Transfers, c.transfers);
  }

  const RCLONE: string := "/usr/local/bin/rclone"

  /** The arguments of rclone. The reader gets exactly the command's options back from them. */
  method RcloneArguments(c: MountCmd, env: Env) returns (args: seq<string>)
    ensures args == Argv(Rclone(), LineOf(c, env))
    ensures ReadLine(Rclone(), args) == Some(LineOf(c, env))
  {
    var x := Rclone();
    args := GlobalFlags(x, c, env);
    args := args + [x.command];
    var mountFlags := MountFlags(x, c, env);
    args := args + mountFlags;
    args := args + [Source(c)];
    args := args + [c.mountPath];
    ArgvReads(c, env);
  }

  /** What execOnSystemd puts in front of a command. */
  function OnSystemd(unit: string, program: string): seq<string> {
    ["--no-ask-password", "--unit=" + unit, "--pipe", "--service-type=forking", "--collect", program]
  }

  /** The command to run: rclone, or, when it may run on systemd, systemd-run with a unit named after
      the volume and a random suffix.  Either way rclone gets exactly the command's options. */
  method ExecCommand(c: MountCmd, env: Env, systemd: Option<string>) returns (program: string, args: seq<string>)
    ensures systemd.None? ==> program == "/usr/local/bin/rclone" && ReadLine(Rclone(), args) == Some(LineOf(c, env))
    ensures systemd.Some? ==>
              && program == "systemd-run" && |args| >= 6
              && args[0] == "--no-ask-password"
              && args[1] == "--unit=run-kodo-rclone-" + c.volumeId + "-" + systemd.value + ".service"
              && args[2] == "--pipe" && args[3] == "--service-type=forking" && args[4] == "--collect"
              && args[5] == "/usr/local/bin/rclone"
              && ReadLine(Rclone(), args[6..]) == Some(LineOf(c, env))
  {
    program := RCLONE;
    args := RcloneArguments(c, env);
    if systemd.Some? {
      var front := OnSystemd("run-kodo-rclone-" + c.volumeId + "-" + systemd.value + ".service", program);
      UnitName(c.volumeId, systemd.value);
      assert (front + args)[6..] == args;
      program, args := "systemd-run", front + args;
    }
  }

  lemma UnitName(volumeId: string, suffix: string)
    ensures "--unit=" + ("run-kodo-rclone-" + volumeId + "-" + suffix + ".service") ==
            "--unit=run-kodo-rclone-" + volumeId + "-" + suffix + ".service"
  {
  }

  // -- nothing is lost ---------------------------------------------------------------------------

  lemma WantedFits(c: MountCmd, env: Env, f: Flag)
    ensures TakesValue(f) ==> !Wanted(c, env, f).Alone?
    ensures !TakesValue(f) ==> !Wanted(c, env, f).With?
  {
  }

  lemma {:induction false} OptionsFit(c: MountCmd, env: Env, order: seq<Flag>)
    ensures AllFit(Rclone(), Options(MeaningOf(c, env), order))
  {
    if order != [] {
      OptionsFit(c, env, order[1..]);
      WantedFits(c, env, order[0]);
    }
  }

  lemma ArgvReads(c: MountCmd, env: Env)
    ensures ReadLine(Rclone(), Argv(Rclone(), LineOf(c, env))) == Some(LineOf(c, env))
  {
    RcloneIsClear();
    OptionsFit(c, env, GLOBAL_ORDER);
    OptionsFit(c, env, MOUNT_ORDER);
    LineRoundTrip(Rclone(), LineOf(c, env));
  }

  /** All uses of a flag among some settings. */
  function UsesOf(options: seq<Setting>, f: Flag): seq<Use> {
    if options == [] then []
    else if options[0].flag == f then [options[0].use] + UsesOf(options[1..], f)
    else UsesOf(options[1..], f)
  }

  function Once(u: Use): seq<Use> { if u.Absent? then [] else [u] }

  ghost predicate NoRepeats(order: seq<Flag>) { forall i, j :: 0 <= i < j < |order| ==> order[i] != order[j] }

  lemma {:induction false} OptionsExactly(use: Meaning, order: seq<Flag>, f: Flag)
    requires NoRepeats(order)
    ensures UsesOf(Options(use, order), f) == if f in order then Once(use(f)) else []
  {
    if order != [] {
      var rest := order[1..];
      assert forall i :: 0 <= i < |rest| ==> rest[i] == order[i + 1];
      OptionsExactly(use, rest, f);
      var options := Options(use, order);
      if !use(order[0]).Absent? {
        assert options[1..] == Options(use, rest);
      }
    }
  }

  /** The rank of a flag in its section. */
  function Rank(f: Flag): nat {
    match f
    case AutoConfirm => 0 case Config => 1 case UserAgent => 2 case LogFile => 3
    case BufferSize => 4 case Transfers => 5 case Verbose => 6 case Dump => 7 case Daemon => 0
    case CacheDir => 1 case DirCacheTime => 2 case VfsCacheMode => 3 case VfsCacheMaxAge => 4
    case VfsCacheMaxSize => 5 case VfsCachePollInterval => 6 case VfsReadAhead => 7
    case VfsFastFingerprint => 8 case VfsWriteBack => 9 case VfsReadChunkSize => 10
    case VfsReadChunkSizeLimit => 11 case NoChecksum => 12 case NoModtime => 13 case NoSeek => 14
    case ReadOnly => 15 case VfsReadWait => 16 case VfsWriteWait => 17
    case VfsDiskSpaceTotalSize => 18 case WriteBackCache => 19 case DebugFuse => 20
  }

  lemma GlobalPlaces()
    ensures NoRepeats(GLOBAL_ORDER) && forall f :: f in GLOBAL_ORDER <==> IsGlobal(f)
  {
    var o := GLOBAL_ORDER;
    assert forall i :: 0 <= i < |o| ==> Rank(o[i]) == i && IsGlobal(o[i]);
    forall f | IsGlobal(f) ensures f in o {
      assert o[Rank(f)] == f;
    }
  }

  lemma MountPlaces()
    ensures NoRepeats(MOUNT_ORDER) && forall f :: f in MOUNT_ORDER <==> !IsGlobal(f)
  {
    var o := MOUNT_ORDER;
    assert forall i :: 0 <= i < |o| ==> Rank(o[i]) == i && !IsGlobal(o[i]);
    forall f | !IsGlobal(f) ensures f in o {
      assert o[Rank(f)] == f;
    }
  }

  /** Every flag stands in its own section only, once if the command asks for it, with the value
      that the command asks for, and otherwise not at all. */
  lemma EachFlagOnce(c: MountCmd, env: Env, f: Flag)
    ensures UsesOf(LineOf(c, env).globals, f) == if IsGlobal(f) then Once(Wanted(c, env, f)) else []
    ensures UsesOf(LineOf(c, env).mounts, f) == if IsGlobal(f) then [] else Once(Wanted(c, env, f))
  {
    GlobalPlaces();
    MountPlaces();
    OptionsExactly(MeaningOf(c, env), GLOBAL_ORDER, f);
    OptionsExactly(MeaningOf(c, env), MOUNT_ORDER, f);
  }

  /** What a line says about a flag. */
  function UseIn(line: Line, f: Flag): Use {
    var all := UsesOf(line.globals, f) + UsesOf(line.mounts, f);
    if |all| == 0 then Absent else all[0]
  }

  lemma LineMeans(c: MountCmd, env: Env, f: Flag)
    ensures UseIn(LineOf(c, env), f) == Wanted(c, env, f)
  {
    EachFlagOnce(c, env, f);
  }

  lemma UseTextInjective(s: string, t: string)
    requires UseText(s) == UseText(t)
    ensures s == t
  {
  }

  lemma UseSizeInjective(m: Option<nat>, n: Option<nat>)
    requires UseSize(m) == UseSize(n)
    ensures m == n
  {
    if m.Some? {
      var s, t := FormatUint(m.value), FormatUint(n.value);
      assert s + "b" == t + "b";
      assert s == (s + "b")[..|s + "b"| - 1] && t == (t + "b")[..|t + "b"| - 1];
      FormatUintInjective(m.value, n.value);
    }
  }

  lemma UseCountInjective(m: Option<nat>, n: Option<nat>)
    requires UseCount(m) == UseCount(n)
    ensures m == n
  {
    if m.Some? {
      FormatUintInjective(m.value, n.value);
    }
  }

  ghost predicate SameMeaning(c: MountCmd, d: MountCmd, env: Env) { forall f :: Wanted(c, env, f) == Wanted(d, env, f) }

  lemma MeaningGivesCacheTexts(c: MountCmd, d: MountCmd, env: Env)
    requires SameMeaning(c, d, env)
    ensures c.dirCacheDuration == d.dirCacheDuration && c.vfsCacheMode == d.vfsCacheMode
    ensures c.vfsCacheMaxAge == d.vfsCacheMaxAge && c.vfsCachePollInterval == d.vfsCachePollInterval
  {
    assert Wanted(c, env, DirCacheTime) == Wanted(d, env, DirCacheTime);
    UseTextInjective(c.dirCacheDuration, d.dirCacheDuration);
    assert Wanted(c, env, VfsCacheMode) == Wanted(d, env, VfsCacheMode);
    UseTextInjective(c.vfsCacheMode, d.vfsCacheMode);
    assert Wanted(c, env, VfsCacheMaxAge) == Wanted(d, env, VfsCacheMaxAge);
    UseTextInjective(c.vfsCacheMaxAge, d.vfsCacheMaxAge);
    assert Wanted(c, env, VfsCachePollInterval) == Wanted(d, env, VfsCachePollInterval);
    UseTextInjective(c.vfsCachePollInterval, d.vfsCachePollInterval);
  }

  lemma MeaningGivesWaitTexts(c: MountCmd, d: MountCmd, env: Env)
    requires SameMeaning(c, d, env)
    ensures c.vfsWriteBack == d.vfsWriteBack && c.vfsReadWait == d.vfsReadWait && c.vfsWriteWait == d.vfsWriteWait
  {
    assert Wanted(c, env, VfsWriteBack) == Wanted(d, env, VfsWriteBack);
    UseTextInjective(c.vfsWriteBack, d.vfsWriteBack);
    assert Wanted(c, env, VfsReadWait) == Wanted(d, env, VfsReadWait);
    UseTextInjective(c.vfsReadWait, d.vfsReadWait);
    assert Wanted(c, env, VfsWriteWait) == Wanted(d, env, VfsWriteWait);
    UseTextInjective(c.vfsWriteWait, d.vfsWriteWait);
  }

  lemma MeaningGivesVolume(c: MountCmd, d: MountCmd, env: Env)
    requires SameMeaning(c, d, env)
    ensures c.volumeId == d.volumeId
  {
    assert Wanted(c, env, UserAgent) == Wanted(d, env, UserAgent);
    var u := env.userAgent + "/";
    assert c.volumeId == (u + c.volumeId)[|u|..] && d.volumeId == (u + d.volumeId)[|u|..];
  }

  lemma MeaningGivesSizes(c: MountCmd, d: MountCmd, env: Env)
    requires SameMeaning(c, d, env)
    ensures c.bufferSize == d.bufferSize && c.vfsCacheMaxSize == d.vfsCacheMaxSize && c.vfsReadAhead == d.vfsReadAhead
  {
    assert Wanted(c, env, BufferSize) == Wanted(d, env, BufferSize);
    UseSizeInjective(c.bufferSize, d.bufferSize);
    assert Wanted(c, env, VfsCacheMaxSize) == Wanted(d, env, VfsCacheMaxSize);
    UseSizeInjective(c.vfsCacheMaxSize, d.vfsCacheMaxSize);
    assert Wanted(c, env, VfsReadAhead) == Wanted(d, env, VfsReadAhead);
    UseSizeInjective(c.vfsReadAhead, d.vfsReadAhead);
  }

  lemma MeaningGivesMoreSizes(c: MountCmd, d: MountCmd, env: Env)
    requires SameMeaning(c, d, env)
    ensures c.vfsReadChunkSize == d.vfsReadChunkSize && c.vfsReadChunkSizeLimit == d.vfsReadChunkSizeLimit
    ensures c.vfsDiskSpaceTotalSize == d.vfsDiskSpaceTotalSize && c.transfers == d.transfers
  {
    assert Wanted(c, env, VfsReadChunkSize) == Wanted(d, env, VfsReadChunkSize);
    UseSizeInjective(c.vfsReadChunkSize, d.vfsReadChunkSize);
    assert Wanted(c, env, VfsReadChunkSizeLimit) == Wanted(d, env, VfsReadChunkSizeLimit);
    UseSizeInjective(c.vfsReadChunkSizeLimit, d.vfsReadChunkSizeLimit);
    assert Wanted(c, env, VfsDiskSpaceTotalSize) == Wanted(d, env, VfsDiskSpaceTotalSize);
    UseSizeInjective(c.vfsDiskSpaceTotalSize, d.vfsDiskSpaceTotalSize);
    assert Wanted(c, env, Transfers) == Wanted(d, env, Transfers);
    UseCountInjective(c.transfers, d.transfers);
  }

  lemma MeaningGivesSwitches(c: MountCmd, d: MountCmd, env: Env)
    requires SameMeaning(c, d, env)
    ensures c.vfsFastFingerPrint == d.vfsFastFingerPrint && c.noCheckSum == d.noCheckSum && c.noModTime == d.noModTime
    ensures c.noSeek == d.noSeek
  {
    assert Wanted(c, env, VfsFastFingerprint) == Wanted(d, env, VfsFastFingerprint);
    assert Wanted(c, env, NoChecksum) == Wanted(d, env, NoChecksum);
    assert Wanted(c, env, NoModtime) == Wanted(d, env, NoModtime);
    assert Wanted(c, env, NoSeek) == Wanted(d, env, NoSeek);
  }

  lemma MeaningGivesMoreSwitches(c: MountCmd, d: MountCmd, env: Env)
    requires SameMeaning(c, d, env)
    ensures c.readOnly == d.readOnly && c.writeBackCache == d.writeBackCache && c.debugHttp == d.debugHttp
    ensures c.debugFuse == d.debugFuse
  {
    assert Wanted(c, env, ReadOnly) == Wanted(d, env, ReadOnly);
    assert Wanted(c, env, WriteBackCache) == Wanted(d, env, WriteBackCache);
    assert Wanted(c, env, Verbose) == Wanted(d, env, Verbose);
    assert Wanted(c, env, DebugFuse) == Wanted(d, env, DebugFuse);
  }

  /** The place in the account: the bucket and the directory in it. */
  function Place(c: MountCmd): string { c.bucketId + "/" + NormalizeDir(c.subDir) }

  /** A command with its bucket and directory merged into one text, as the source argument has them. */
  function Shown(c: MountCmd): MountCmd { c.(bucketId := Place(c), subDir := "") }

  /** The directory is turned into the form that the source argument uses. */
  function Normal(c: MountCmd): MountCmd { c.(subDir := NormalizeDir(c.subDir)) }

  lemma FirstSlash(a: string, b: string, s: string, t: string)
    requires '/' !in a && '/' !in b && a + "/" + s == b + "/" + t
    ensures a == b && s == t
  {
    var u, v := a + "/" + s, b + "/" + t;
    assert u[|a|] == '/' && v[|b|] == '/';
    assert |a| == |b|;
    assert a == u[..|a|] && b == v[..|b|] && s == u[|a| + 1..] && t == v[|b| + 1..];
  }

  lemma SourceTells(c: MountCmd, d: MountCmd)
    requires c.volumeId == d.volumeId
    ensures Source(c) == Source(d) <==> Place(c) == Place(d)
  {
    var v := c.volumeId + ":";
    assert Source(c) == v + Place(c) && Source(d) == v + Place(d);
    assert Place(c) == (v + Place(c))[|v|..] && Place(d) == (v + Place(d))[|v|..];
  }

  lemma SameArgvSameMeaning(c: MountCmd, d: MountCmd, env: Env)
    requires Argv(Rclone(), LineOf(c, env)) == Argv(Rclone(), LineOf(d, env))
    ensures SameMeaning(c, d, env) && Source(c) == Source(d) && c.mountPath == d.mountPath
  {
    ArgvReads(c, env);
    ArgvReads(d, env);
    assert LineOf(c, env) == LineOf(d, env);
    forall f ensures Wanted(c, env, f) == Wanted(d, env, f) {
      LineMeans(c, env, f);
      LineMeans(d, env, f);
    }
  }

  lemma WantedIgnoresPlace(c: MountCmd, d: MountCmd, env: Env, f: Flag)
    requires Shown(c) == Shown(d)
    ensures Wanted(c, env, f) == Wanted(d, env, f)
  {
    assert Wanted(c, env, f) == Wanted(Shown(c), env, f) && Wanted(d, env, f) == Wanted(Shown(d), env, f);
  }

  lemma {:induction false} SameOptions(use: Meaning, like: Meaning, order: seq<Flag>)
    requires forall f :: use(f) == like(f)
    ensures Options(use, order) == Options(like, order)
  {
    if order != [] {
      SameOptions(use, like, order[1..]);
    }
  }

  lemma SameShownSameArgv(c: MountCmd, d: MountCmd, env: Env)
    requires Shown(c) == Shown(d)
    ensures LineOf(c, env) == LineOf(d, env)
  {
    forall f ensures MeaningOf(c, env)(f) == MeaningOf(d, env)(f) {
      WantedIgnoresPlace(c, d, env, f);
    }
    SameOptions(MeaningOf(c, env), MeaningOf(d, env), GLOBAL_ORDER);
    SameOptions(MeaningOf(c, env), MeaningOf(d, env), MOUNT_ORDER);
    assert Shown(c).volumeId == Shown(d).volumeId && Shown(c).bucketId == Shown(d).bucketId;
    SourceTells(c, d);
  }

  lemma SameArgvSameShown(c: MountCmd, d: MountCmd, env: Env)
    requires Argv(Rclone(), LineOf(c, env)) == Argv(Rclone(), LineOf(d, env))
    ensures Shown(c) == Shown(d)
  {
    SameArgvSameMeaning(c, d, env);
    MeaningGivesVolume(c, d, env);
    MeaningGivesCacheTexts(c, d, env);
    MeaningGivesWaitTexts(c, d, env);
    MeaningGivesSizes(c, d, env);
    MeaningGivesMoreSizes(c, d, env);
    MeaningGivesSwitches(c, d, env);
    MeaningGivesMoreSwitches(c, d, env);
    SourceTells(c, d);
  }

  /** Commands have the same arguments exactly when they agree on every option, on the mount point and
      on the place in the account. */
  lemma SameArgvExactly(c: MountCmd, d: MountCmd, env: Env)
    ensures Argv(Rclone(), LineOf(c, env)) == Argv(Rclone(), LineOf(d, env)) <==> Shown(c) == Shown(d)
  {
    if Argv(Rclone(), LineOf(c, env)) == Argv(Rclone(), LineOf(d, env)) {
      SameArgvSameShown(c, d, env);
    }
    if Shown(c) == Shown(d) {
      SameShownSameArgv(c, d, env);
    }
  }

  /** For bucket ids without a slash the arguments lose nothing: commands with the same arguments
      agree on every field, up to the normal form of the directory. */
  lemma ArgvLosesNothing(c: MountCmd, d: MountCmd, env: Env)
    requires Argv(Rclone(), LineOf(c, env)) == Argv(Rclone(), LineOf(d, env))
    requires '/' !in c.bucketId && '/' !in d.bucketId
    ensures Normal(c) == Normal(d)
  {
    SameArgvSameShown(c, d, env);
    assert Shown(c).bucketId == Shown(d).bucketId;
    FirstSlash(c.bucketId, d.bucketId, NormalizeDir(c.subDir), NormalizeDir(d.subDir));
    assert c == Shown(c).(bucketId := c.bucketId, subDir := c.subDir);
    assert d == Shown(d).(bucketId := d.bucketId, subDir := d.subDir);
  }

  /** With slashes, a part of the bucket id can pass for a directory. */
  lemma SlashedBucketsCollide(c: MountCmd, env: Env)
    ensures var d, e := c.(bucketId := "a/b", subDir := "c"), c.(bucketId := "a", subDir := "b/c");
            Normal(d) != Normal(e) && Argv(Rclone(), LineOf(d, env)) == Argv(Rclone(), LineOf(e, env))
  {
    var d, e := c.(bucketId := "a/b", subDir := "c"), c.(bucketId := "a", subDir := "b/c");
    assert Normal(d).bucketId != Normal(e).bucketId;
    assert Place(d) == "a/b/c/" == Place(e);
    SameArgvExactly(d, e, env);
  }

  /** A directory always gets its final slash; it keeps a leading one exactly when it is empty, a
      single slash, or starts with two. */
  lemma NormalizeDirExactly(key: string)
    ensures var r := NormalizeDir(key);
            && r != "" && r[|r| - 1] == '/'
            && (r[0] == '/' <==> key == "" || key == "/" || (|key| >= 2 && key[0] == '/' && key[1] == '/'))
  {
  }

  /** A directory without slashes at its ends comes out the same however it is written, and what has its
      normal form keeps it. */
  lemma NormalizeDirForms(dir: string)
    requires dir != "" && dir[0] != '/' && dir[|dir| - 1] != '/'
    ensures NormalizeDir(dir) == dir + "/" && NormalizeDir("/" + dir) == dir + "/"
    ensures NormalizeDir(dir + "/") == dir + "/" && NormalizeDir("/" + dir + "/") == dir + "/"
  {
    assert ("/" + dir)[1..] == dir && ("/" + dir + "/")[1..] == dir + "/";
  }
}
