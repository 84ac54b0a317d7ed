/** The parameters of a Kodo volume: their record fields, their published names, and the two
    switches that recognise a name (plugin/kodo_parameters.go:14-50, 84-102, 175-407). */
module Fields {
  import opened Wrappers
  import opened Text

  /** The fields of kodoStorageClassParameter, and then those that kodoPvParameter adds. */
  datatype Slot =
    | AccessKey | SecretKey | UcEndpoint | Region | StorageClass | SubDir | S3ForcePathStyle | VfsCacheMode
    | DirCacheDuration | BufferSize | VfsCacheMaxAge | VfsCachePollInterval | VfsWriteBack | VfsCacheMaxSize
    | VfsReadAhead | VfsFastFingerprint | VfsReadChunkSize | VfsReadChunkSizeLimit | NoCheckSum | NoModTime
    | NoSeek | ReadOnly | VfsReadWait | VfsWriteWait | Transfers | VfsDiskSpaceTotalSize | WriteBackCache
    | UploadChunkSize | UploadCutoff | UploadConcurrency | DebugHttp | DebugFuse
    | OriginalAccessKey | OriginalSecretKey | BucketId | BucketName | S3Endpoint | S3Region

  datatype Kind = TextKind | UrlKind | BoolKind | FlagKind | UintKind | DurationKind | ModeKind

  /** The Go type of a field: a string, a *url.URL, a *bool, a bool, a *uint64, a *time.Duration or
      a VfsCacheMode. */
  function KindOf(s: Slot): Kind {
    match s
    case UcEndpoint => UrlKind
    case S3ForcePathStyle => BoolKind
    case VfsCacheMode => ModeKind
    case DirCacheDuration => DurationKind
    case BufferSize => UintKind
    case VfsCacheMaxAge => DurationKind
    case VfsCachePollInterval => DurationKind
    case VfsWriteBack => DurationKind
    case VfsCacheMaxSize => UintKind
    case VfsReadAhead => UintKind
    case VfsFastFingerprint => FlagKind
    case VfsReadChunkSize => UintKind
    case VfsReadChunkSizeLimit => UintKind
    case NoCheckSum => FlagKind
    case NoModTime => FlagKind
    case NoSeek => FlagKind
    case ReadOnly => FlagKind
    case VfsReadWait => DurationKind
    case VfsWriteWait => DurationKind
    case Transfers => UintKind
    case VfsDiskSpaceTotalSize => UintKind
    case WriteBackCache => FlagKind
    case UploadChunkSize => UintKind
    case UploadCutoff => UintKind
    case UploadConcurrency => UintKind
    case DebugHttp => FlagKind
    case DebugFuse => FlagKind
    case S3Endpoint => UrlKind
    case _ => TextKind
  }

  /** The only field that a key can stand for, told by its length and one or two of its characters. */
  function Candidate(key: string): Slot {
    match |key|
    case 6 => if key[0] == 'r' then Region else if key[0] == 's' then SubDir else NoSeek
    case 8 => if key[0] == 'r' then ReadOnly else if key[0] == 'b' then BucketId else S3Region
    case 9 =>
      if key[0] == 'a' then AccessKey
      else if key[0] == 's' then SecretKey
      else if key[0] == 'n' then NoModTime
      else if key[0] == 't' then Transfers
      else if key[5] == 'h' then DebugHttp
      else DebugFuse
    case 10 =>
      if key[0] == 'u' then UcEndpoint
      else if key[0] == 'b' then (if key[2] == 'f' then BufferSize else BucketName)
      else if key[0] == 'n' then NoCheckSum
      else S3Endpoint
    case 11 => VfsReadWait
    case 12 =>
      if key[8] == 'l' then StorageClass
      else if key[8] == 'm' then VfsCacheMode
      else if key[8] == 'b' then VfsWriteBack
      else if key[8] == 'h' then VfsReadAhead
      else if key[8] == 'w' then VfsWriteWait
      else UploadCutoff
    case 14 => if key[0] == 'v' then VfsCacheMaxAge else WriteBackCache
    case 15 => if key[0] == 'v' then VfsCacheMaxSize else UploadChunkSize
    case 16 =>
      if key[0] == 's' then S3ForcePathStyle
      else if key[0] == 'd' then DirCacheDuration
      else VfsReadChunkSize
    case 17 =>
      if key[8] == 'n' then UploadConcurrency
      else if key[8] == 'a' then OriginalAccessKey
      else OriginalSecretKey
    case 18 => VfsFastFingerprint
    case 20 => VfsCachePollInterval
    case 21 => if key[3] == 'r' then VfsReadChunkSizeLimit else VfsDiskSpaceTotalSize
    case _ => AccessKey
  }

  /** The name under which a field is published. */
  function FieldOf(s: Slot): (name: string)
    ensures Candidate(name) == s
  {
    match s
    case AccessKey => "accesskey"
    case SecretKey => "secretkey"
    case UcEndpoint => "ucendpoint"
    case Region => "region"
    case StorageClass => "storageclass"
    case SubDir => "subdir"
    case S3ForcePathStyle => "s3forcepathstyle"
    case VfsCacheMode => "vfscachemode"
    case DirCacheDuration => "dircacheduration"
    case BufferSize => "buffersize"
    case VfsCacheMaxAge => "vfscachemaxage"
    case VfsCachePollInterval => "vfscachepollinterval"
    case VfsWriteBack => "vfswriteback"
    case VfsCacheMaxSize => "vfscachemaxsize"
    case VfsReadAhead => "vfsreadahead"
    case VfsFastFingerprint => "vfsfastfingerprint"
    case VfsReadChunkSize => "vfsreadchunksize"
    case VfsReadChunkSizeLimit => "vfsreadchunksizelimit"
    case NoCheckSum => "nochecksum"
    case NoModTime => "nomodtime"
    case NoSeek => "noseek"
    case ReadOnly => "readonly"
    case VfsReadWait => "vfsreadwait"
    case VfsWriteWait => "vfswritewait"
    case Transfers => "transfers"
    case VfsDiskSpaceTotalSize => "vfsdiskspacetotalsize"
    case WriteBackCache => "writebackcache"
    case UploadChunkSize => "uploadchunksize"
    case UploadCutoff => "uploadcutoff"
    case UploadConcurrency => "uploadconcurrency"
    case DebugHttp => "debughttp"
    case DebugFuse => "debugfuse"
    case OriginalAccessKey => "originalaccesskey"
    case OriginalSecretKey => "originalsecretkey"
    case BucketId => "bucketid"
    case BucketName => "bucketname"
    case S3Endpoint => "s3endpoint"
    case S3Region => "s3region"
  }

  lemma LowerShortNames(s: Slot)
    requires |FieldOf(s)| <= 9
    ensures AllLowerAscii(FieldOf(s))
  {
  }

  lemma LowerMiddleNames(s: Slot)
    requires 9 < |FieldOf(s)| <= 12
    ensures AllLowerAscii(FieldOf(s))
  {
  }

  lemma LowerLongNames(s: Slot)
    requires 12 < |FieldOf(s)| <= 16
    ensures AllLowerAscii(FieldOf(s))
  {
  }

  lemma LowerLongestNames(s: Slot)
    requires |FieldOf(s)| > 16
    ensures AllLowerAscii(FieldOf(s))
  {
  }

  lemma LowerNames(s: Slot)
    ensures AllLowerAscii(FieldOf(s))
  {
    if |FieldOf(s)| <= 9 {
      LowerShortNames(s);
    } else if |FieldOf(s)| <= 12 {
      LowerMiddleNames(s);
    } else if |FieldOf(s)| <= 16 {
      LowerLongNames(s);
    } else {
      LowerLongestNames(s);
    }
  }

  predicate IsVolumeSlot(s: Slot) {
    s.OriginalAccessKey? || s.OriginalSecretKey? || s.BucketId? || s.BucketName? || s.S3Endpoint? || s.S3Region?
  }

  datatype Stage = ClassStage | VolumeStage

  predicate Belongs(stage: Stage, s: Slot) { stage.VolumeStage? == IsVolumeSlot(s) }

  /** The field that a stage of parsing assigns for a lower-case key: parseKodoStorageClassParameter
      has a case for each of its own fields, parseKodoPvParameter for each of those that it adds. */
  function Recognise(stage: Stage, key: string): Option<Slot> {
    var s := Candidate(key);
    if FieldOf(s) == key && Belongs(stage, s) then Some(s) else None
  }

  /** Each stage recognises exactly its own published names, each as the field it stands for. */
  lemma RecogniseExactly(stage: Stage, key: string, s: Slot)
    ensures Recognise(stage, key) == Some(s) <==> FieldOf(s) == key && Belongs(stage, s)
  {
  }

  /** No two fields are published under the same name. */
  lemma FieldInjective(s: Slot, t: Slot)
    requires FieldOf(s) == FieldOf(t)
    ensures s == t
  {
  }

  /** The names as they are published, and as the parsers know them. */
  lemma NamesAreSpelled(s: Slot)
    ensures
      match s
      case AccessKey => FieldOf(s) == "accesskey"
      case SecretKey => FieldOf(s) == "secretkey"
      case UcEndpoint => FieldOf(s) == "ucendpoint"
      case Region => FieldOf(s) == "region"
      case StorageClass => FieldOf(s) == "storageclass"
      case SubDir => FieldOf(s) == "subdir"
      case S3ForcePathStyle => FieldOf(s) == "s3forcepathstyle"
      case VfsCacheMode => FieldOf(s) == "vfscachemode"
      case DirCacheDuration => FieldOf(s) == "dircacheduration"
      case VfsCacheMaxAge => FieldOf(s) == "vfscachemaxage"
      case VfsCachePollInterval => FieldOf(s) == "vfscachepollinterval"
      case VfsWriteBack => FieldOf(s) == "vfswriteback"
      case VfsCacheMaxSize => FieldOf(s) == "vfscachemaxsize"
      case VfsFastFingerprint => FieldOf(s) == "vfsfastfingerprint"
      case WriteBackCache => FieldOf(s) == "writebackcache"
      case BufferSize => FieldOf(s) == "buffersize"
      case VfsReadAhead => FieldOf(s) == "vfsreadahead"
      case VfsReadChunkSize => FieldOf(s) == "vfsreadchunksize"
      case VfsReadChunkSizeLimit => FieldOf(s) == "vfsreadchunksizelimit"
      case VfsReadWait => FieldOf(s) == "vfsreadwait"
      case VfsWriteWait => FieldOf(s) == "vfswritewait"
      case Transfers => FieldOf(s) == "transfers"
      case VfsDiskSpaceTotalSize => FieldOf(s) == "vfsdiskspacetotalsize"
      case NoCheckSum => FieldOf(s) == "nochecksum"
      case NoModTime => FieldOf(s) == "nomodtime"
      case NoSeek => FieldOf(s) == "noseek"
      case ReadOnly => FieldOf(s) == "readonly"
      case UploadChunkSize => FieldOf(s) == "uploadchunksize"
      case UploadCutoff => FieldOf(s) == "uploadcutoff"
      case UploadConcurrency => FieldOf(s) == "uploadconcurrency"
      case DebugHttp => FieldOf(s) == "debughttp"
      case DebugFuse => FieldOf(s) == "debugfuse"
      case OriginalAccessKey => FieldOf(s) == "originalaccesskey"
      case OriginalSecretKey => FieldOf(s) == "originalsecretkey"
      case BucketId => FieldOf(s) == "bucketid"
      case BucketName => FieldOf(s) == "bucketname"
      case S3Endpoint => FieldOf(s) == "s3endpoint"
      case S3Region => FieldOf(s) == "s3region"
  {
  }
}
