/** From the parameters of a volume to rclone's arguments: the command that the node server sends
    (plugin/kodo_node_server.go:43-50, plugin/utils.go:295-365), and the whole way of an option. */
module MountOptions {
  import opened Wrappers
  import opened Text
  import S = Fields
  import F = Flags
  import opened Parameters
  import P = VolumeParameters
  import V = VolumeContext
  import opened CommandLine
  import opened MountCommand

  function ModeOf(v: Val): string { if v.Mode? then v.mode else "" }
  function SpanOf(lib: Lib, v: Val): string { if v.Span? then lib.printDuration(v.nanos) else "" }
  function NumOf(v: Val): Option<nat> { if v.Num? then Some(v.num) else None }
  function BitOf(v: Val): bool { v.Bit? && v.bit }

  /** The command for mounting a volume with the given parameters. */
  function Copy(lib: Lib, volumeId: string, mountPath: string, r: Rec): MountCmd {
    MountCmd(
      volumeId, mountPath, P.TextOf(Get(r, S.SubDir)), P.TextOf(Get(r, S.BucketId)), ModeOf(Get(r, S.VfsCacheMode)),
      SpanOf(lib, Get(r, S.DirCacheDuration)), NumOf(Get(r, S.BufferSize)), SpanOf(lib, Get(r, S.VfsCacheMaxAge)),
      SpanOf(lib, Get(r, S.VfsCachePollInterval)), SpanOf(lib, Get(r, S.VfsWriteBack)),
      NumOf(Get(r, S.VfsCacheMaxSize)),
      NumOf(Get(r, S.VfsReadAhead)), BitOf(Get(r, S.VfsFastFingerprint)), NumOf(Get(r, S.VfsReadChunkSize)),
      NumOf(Get(r, S.VfsReadChunkSizeLimit)), BitOf(Get(r, S.NoCheckSum)), BitOf(Get(r, S.NoModTime)),
      BitOf(Get(r, S.NoSeek)), BitOf(Get(r, S.ReadOnly)), SpanOf(lib, Get(r, S.VfsReadWait)),
      SpanOf(lib, Get(r, S.VfsWriteWait)), NumOf(Get(r, S.Transfers)), NumOf(Get(r, S.VfsDiskSpaceTotalSize)),
      BitOf(Get(r, S.WriteBackCache)), BitOf(Get(r, S.DebugHttp)), BitOf(Get(r, S.DebugFuse)))
  }

  /** The flag that carries a parameter. */
  function FlagFor(s: S.Slot): Option<F.Flag> {
    match s
    case VfsCacheMode => Some(F.VfsCacheMode)
    case DirCacheDuration => Some(F.DirCacheTime)
    case BufferSize => Some(F.BufferSize)
    case VfsCacheMaxAge => Some(F.VfsCacheMaxAge)
    case VfsCachePollInterval => Some(F.VfsCachePollInterval)
    case VfsWriteBack => Some(F.VfsWriteBack)
    case VfsCacheMaxSize => Some(F.VfsCacheMaxSize)
    case VfsReadAhead => Some(F.VfsReadAhead)
    case VfsFastFingerprint => Some(F.VfsFastFingerprint)
    case VfsReadChunkSize => Some(F.VfsReadChunkSize)
    case VfsReadChunkSizeLimit => Some(F.VfsReadChunkSizeLimit)
    case NoCheckSum => Some(F.NoChecksum)
    case NoModTime => Some(F.NoModtime)
    case NoSeek => Some(F.NoSeek)
    case ReadOnly => Some(F.ReadOnly)
    case VfsReadWait => Some(F.VfsReadWait)
    case VfsWriteWait => Some(F.VfsWriteWait)
    case Transfers => Some(F.Transfers)
    case VfsDiskSpaceTotalSize => Some(F.VfsDiskSpaceTotalSize)
    case WriteBackCache => Some(F.WriteBackCache)
    case DebugHttp => Some(F.Verbose)
    case DebugFuse => Some(F.DebugFuse)
    case _ => None
  }

  /** How a value should be written after its flag. */
  function UseOfVal(lib: Lib, s: S.Slot, v: Val): Use {
    match v
    case Mode(m) => UseText(m)
    case Span(d) => UseText(lib.printDuration(d))
    case Num(n) => if s.Transfers? then UseCount(Some(n)) else UseSize(Some(n))
    case Bit(b) => UseSwitch(b)
    case _ => Absent
  }

  /** The value that rclone finds: sizes in bytes, counts, durations, modes and switches. */
  function Back(lib: Lib, s: S.Slot, u: Use): Option<Val> {
    match S.KindOf(s)
    case ModeKind => Some(Mode(if u.With? then u.value else ""))
    case DurationKind =>
      if u.Absent? then Some(Nil)
      else if u.Alone? then None
      else MapOption(lib.parseDuration(TrimSpace(u.value)), d => Span(d))
    case UintKind =>
      if u.Absent? then Some(Nil)
      else if u.Alone? || u.value == "" then None
      else MapOption(ParseUint(if s.Transfers? then u.value else ByteSize(u.value)), n => Num(n))
    case FlagKind => Some(Bit(u.Alone?))
    case _ => None
  }

  /** A size without its unit "b". */
  function ByteSize(t: string): string
    requires t != ""
  {
    if t[|t| - 1] == 'b' then t[..|t| - 1] else t
  }

  function SpanField(c: MountCmd, s: S.Slot): string {
    match s
    case DirCacheDuration => c.dirCacheDuration
    case VfsCacheMaxAge => c.vfsCacheMaxAge
    case VfsCachePollInterval => c.vfsCachePollInterval
    case VfsWriteBack => c.vfsWriteBack
    case VfsReadWait => c.vfsReadWait
    case VfsWriteWait => c.vfsWriteWait
    case _ => ""
  }

  lemma SpanCopied(lib: Lib, volumeId: string, mountPath: string, r: Rec, s: S.Slot)
    requires FlagFor(s).Some? && S.KindOf(s).DurationKind?
    ensures SpanField(Copy(lib, volumeId, mountPath, r), s) == SpanOf(lib, Get(r, s))
  {
  }

  lemma SpanWanted(c: MountCmd, env: Env, s: S.Slot)
    requires FlagFor(s).Some? && S.KindOf(s).DurationKind?
    ensures Wanted(c, env, FlagFor(s).value) == UseText(SpanField(c, s))
  {
  }

  function NumberField(c: MountCmd, s: S.Slot): Option<nat> {
    match s
    case BufferSize => c.bufferSize
    case VfsCacheMaxSize => c.vfsCacheMaxSize
    case VfsReadAhead => c.vfsReadAhead
    case VfsReadChunkSize => c.vfsReadChunkSize
    case VfsReadChunkSizeLimit => c.vfsReadChunkSizeLimit
    case Transfers => c.transfers
    case VfsDiskSpaceTotalSize => c.vfsDiskSpaceTotalSize
    case _ => None
  }

  lemma NumberCopied(lib: Lib, volumeId: string, mountPath: string, r: Rec, s: S.Slot)
    requires FlagFor(s).Some? && S.KindOf(s).UintKind?
    ensures NumberField(Copy(lib, volumeId, mountPath, r), s) == NumOf(Get(r, s))
  {
  }

  lemma NumberWanted(c: MountCmd, env: Env, s: S.Slot)
    requires FlagFor(s).Some? && S.KindOf(s).UintKind?
    ensures Wanted(c, env, FlagFor(s).value) ==
            if s.Transfers? then UseCount(NumberField(c, s)) else UseSize(NumberField(c, s))
  {
  }

  function SwitchField(c: MountCmd, s: S.Slot): bool {
    match s
    case VfsFastFingerprint => c.vfsFastFingerPrint
    case NoCheckSum => c.noCheckSum
    case NoModTime => c.noModTime
    case NoSeek => c.noSeek
    case ReadOnly => c.readOnly
    case WriteBackCache => c.writeBackCache
    case DebugHttp => c.debugHttp
    case DebugFuse => c.debugFuse
    case _ => false
  }

  lemma SwitchCopied(lib: Lib, volumeId: string, mountPath: string, r: Rec, s: S.Slot)
    requires FlagFor(s).Some? && S.KindOf(s).FlagKind?
    ensures SwitchField(Copy(lib, volumeId, mountPath, r), s) == BitOf(Get(r, s))
  {
  }

  lemma SwitchWanted(c: MountCmd, env: Env, s: S.Slot)
    requires FlagFor(s).Some? && S.KindOf(s).FlagKind?
    ensures Wanted(c, env, FlagFor(s).value) == UseSwitch(SwitchField(c, s))
  {
  }

  lemma SpanArrives(lib: Lib, c: MountCmd, env: Env, s: S.Slot, v: Val)
    requires FlagFor(s).Some? && S.KindOf(s).DurationKind? && (v.Nil? || v.Span?) && SpanField(c, s) == SpanOf(lib, v)
    ensures Wanted(c, env, FlagFor(s).value) == UseOfVal(lib, s, v)
  {
    SpanWanted(c, env, s);
  }

  lemma NumberArrives(lib: Lib, c: MountCmd, env: Env, s: S.Slot, v: Val)
    requires FlagFor(s).Some? && S.KindOf(s).UintKind? && (v.Nil? || v.Num?) && NumberField(c, s) == NumOf(v)
    ensures Wanted(c, env, FlagFor(s).value) == UseOfVal(lib, s, v)
  {
    NumberWanted(c, env, s);
  }

  lemma SwitchArrives(lib: Lib, c: MountCmd, env: Env, s: S.Slot, v: Val)
    requires FlagFor(s).Some? && S.KindOf(s).FlagKind? && v.Bit? && SwitchField(c, s) == BitOf(v)
    ensures Wanted(c, env, FlagFor(s).value) == UseOfVal(lib, s, v)
  {
    SwitchWanted(c, env, s);
  }

  lemma ModeArrives(lib: Lib, c: MountCmd, env: Env, v: Val)
    requires v.Mode? && c.vfsCacheMode == v.mode
    ensures Wanted(c, env, F.VfsCacheMode) == UseOfVal(lib, S.VfsCacheMode, v)
  {
  }

  lemma ModeCopied(lib: Lib, volumeId: string, mountPath: string, r: Rec)
    ensures Copy(lib, volumeId, mountPath, r).vfsCacheMode == ModeOf(Get(r, S.VfsCacheMode))
  {
  }

  lemma FlagKinds(s: S.Slot)
    requires FlagFor(s).Some?
    ensures S.KindOf(s).DurationKind? || S.KindOf(s).UintKind? || S.KindOf(s).FlagKind? || s.VfsCacheMode?
  {
  }

  lemma CopyKeeps(lib: Lib, volumeId: string, mountPath: string, r: Rec, env: Env, s: S.Slot)
    requires FlagFor(s).Some? && V.Proper(s, Get(r, s))
    ensures Wanted(Copy(lib, volumeId, mountPath, r), env, FlagFor(s).value) == UseOfVal(lib, s, Get(r, s))
  {
    var c, v := Copy(lib, volumeId, mountPath, r), Get(r, s);
    FlagKinds(s);
    if s.VfsCacheMode? {
      ModeCopied(lib, volumeId, mountPath, r);
      ModeArrives(lib, c, env, v);
    } else if S.KindOf(s).DurationKind? {
      SpanCopied(lib, volumeId, mountPath, r, s);
      SpanArrives(lib, c, env, s, v);
    } else if S.KindOf(s).UintKind? {
      NumberCopied(lib, volumeId, mountPath, r, s);
      NumberArrives(lib, c, env, s, v);
    } else {
      SwitchCopied(lib, volumeId, mountPath, r, s);
      SwitchArrives(lib, c, env, s, v);
    }
  }

  lemma SizeBack(n: nat)
    requires n < UINT64_LIMIT
    ensures FormatByteSize(n) != "" && ParseUint(ByteSize(FormatByteSize(n))) == Some(n)
    ensures FormatUint(n) != "" && ParseUint(FormatUint(n)) == Some(n)
  {
    UintRoundTrip(n);
    assert FormatByteSize(n)[..|FormatUint(n)|] == FormatUint(n);
  }

  lemma UseBack(lib: Lib, s: S.Slot, v: Val)
    requires FlagFor(s).Some? && V.Proper(s, v) && V.Reprints(lib, v) && (v.Span? ==> lib.printDuration(v.nanos) != "")
    ensures Back(lib, s, UseOfVal(lib, s, v)) == Some(v)
  {
    if v.Num? {
      SizeBack(v.num);
    }
  }

  /** Every option of the record can be read off the arguments, with its own value. */
  lemma OptionArrives(lib: Lib, volumeId: string, mountPath: string, r: Rec, env: Env, s: S.Slot)
    requires FlagFor(s).Some? && V.Proper(s, Get(r, s)) && V.Reprints(lib, Get(r, s))
    requires Get(r, s).Span? ==> lib.printDuration(Get(r, s).nanos) != ""
    ensures var line := ReadLine(Rclone(), Argv(Rclone(), LineOf(Copy(lib, volumeId, mountPath, r), env)));
            line.Some? && Back(lib, s, UseIn(line.value, FlagFor(s).value)) == Some(Get(r, s))
  {
    var c := Copy(lib, volumeId, mountPath, r);
    ArgvReads(c, env);
    LineMeans(c, env, FlagFor(s).value);
    CopyKeeps(lib, volumeId, mountPath, r, env, s);
    UseBack(lib, s, Get(r, s));
  }

  function SourceOf(volumeId: string, bucketId: string, dir: string): string {
    volumeId + ":" + bucketId + "/" + NormalizeDir(dir)
  }

  /** From the storage class to rclone: every option that CreateVolume accepted is published, read
      back by the node, and handed to rclone with its own value, an unset cache mode as "off"; and
      rclone mounts the accepted sub-directory of the bucket that was created. */
  lemma OptionReachesRclone(lib: Lib, ctx: map<string, string>, secrets: map<string, string>, order: seq<string>,
                            served: V.Served, remote: P.Remote, first: seq<string>, second: seq<string>,
                            volumeId: string, mountPath: string, env: Env, s: S.Slot)
    requires (forall k :: k in order ==> k in ctx) && P.ParseClass(lib, ctx, secrets, order).Some?
    requires var p := P.ParseClass(lib, ctx, secrets, order).value;
             && V.Usable(p, served) && V.AllReprint(lib, p)
             && IsOrder(V.Context(lib, V.Published(p, served)), first)
             && IsOrder(V.Context(lib, V.Published(p, served)), second)
             && (Get(p, s).Span? ==> lib.printDuration(Get(p, s).nanos) != "")
    requires KeepsLower(lib.lower) && V.Reprints(lib, Link(served.s3Endpoint)) && FlagFor(s).Some?
    ensures var p := P.ParseClass(lib, ctx, secrets, order).value;
            var r := P.ParseVolume(lib, remote, V.Context(lib, V.Published(p, served)), secrets, first, second);
            r.Some? &&
            var line := ReadLine(Rclone(), Argv(Rclone(), LineOf(Copy(lib, volumeId, mountPath, r.value), env)));
            && line.Some? && Back(lib, s, UseIn(line.value, FlagFor(s).value)) == Some(V.Reread(Get(p, s)))
            && line.value.source == SourceOf(volumeId, served.bucketId, P.TextOf(Get(p, S.SubDir)))
            && line.value.target == mountPath
  {
    var p := P.ParseClass(lib, ctx, secrets, order).value;
    V.ContextRoundTrip(lib, ctx, secrets, order, served, remote, first, second);
    V.ClassIsProper(lib, ctx, secrets, order);
    var r := P.ParseVolume(lib, remote, V.Context(lib, V.Published(p, served)), secrets, first, second).value;
    RereadArrives(lib, volumeId, mountPath, p, served, r, env, s);
  }

  lemma RereadArrives(lib: Lib, volumeId: string, mountPath: string, p: Rec, served: V.Served, r: Rec, env: Env,
                      s: S.Slot)
    requires FlagFor(s).Some? && V.AllProper(p) && V.AllReprint(lib, p) && V.Returned(p, served, r)
    requires Get(p, s).Span? ==> lib.printDuration(Get(p, s).nanos) != ""
    ensures var line := ReadLine(Rclone(), Argv(Rclone(), LineOf(Copy(lib, volumeId, mountPath, r), env)));
            && line.Some? && Back(lib, s, UseIn(line.value, FlagFor(s).value)) == Some(V.Reread(Get(p, s)))
            && line.value.source == SourceOf(volumeId, served.bucketId, P.TextOf(Get(p, S.SubDir)))
            && line.value.target == mountPath
  {
    OptionUnserved(s);
    RereadIsProper(lib, s, Get(p, s));
    OptionArrives(lib, volumeId, mountPath, r, env, s);
    ArgvReads(Copy(lib, volumeId, mountPath, r), env);
    SourceCopied(lib, volumeId, mountPath, p, served, r);
  }

  lemma SourceCopied(lib: Lib, volumeId: string, mountPath: string, p: Rec, served: V.Served, r: Rec)
    requires V.AllProper(p) && V.Returned(p, served, r)
    ensures var c := Copy(lib, volumeId, mountPath, r);
            Source(c) == SourceOf(volumeId, served.bucketId, P.TextOf(Get(p, S.SubDir))) && c.mountPath == mountPath
  {
    assert V.Proper(S.SubDir, Get(p, S.SubDir));
    assert Get(r, S.SubDir) == V.Reread(Get(p, S.SubDir));
  }

  /** Options that become flags are never replaced by an answer of the server. */
  lemma OptionUnserved(s: S.Slot)
    requires FlagFor(s).Some?
    ensures !S.IsVolumeSlot(s) && !s.AccessKey? && !s.SecretKey? && !s.Region?
  {
  }

  lemma RereadIsProper(lib: Lib, s: S.Slot, v: Val)
    requires V.Proper(s, v) && V.Reprints(lib, v)
    ensures V.Proper(s, V.Reread(v)) && V.Reprints(lib, V.Reread(v))
  {
  }
}
