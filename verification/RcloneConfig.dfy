/** The rclone config section of a mount (connector/utils.go:131-158), where the credentials, the
    endpoint, the path style and the upload options of a volume go. */
module RcloneConfig {
  import opened Wrappers
  import opened Text
  import S = Fields
  import opened Parameters
  import P = VolumeParameters
  import V = VolumeContext
  import C = CommandLine
  import M = MountOptions

  /** The entries of a section. */
  datatype Key =
    | Type | Provider | AccessKeyId | SecretAccessKey | Region | Endpoint | LocationConstraint | Acl | StorageClass
    | NoCheckBucket | ForcePathStyle | ChunkSize | UploadCutoff | UploadConcurrency

  /** The fields of InitKodoMountCmd that go to the config file. */
  datatype Cmd = Cmd(
    accessKey: string, secretKey: string, s3Region: string, s3Endpoint: string, storageClass: string,
    s3ForcePathStyle: bool, uploadChunkSize: Option<nat>, uploadCutoff: Option<nat>, uploadConcurrency: Option<nat>)

  /** The node server's copy of the parameters; a nil path style leaves the field false. */
  function Copy(lib: Lib, r: Rec): Cmd {
    var link := Get(r, S.S3Endpoint);
    Cmd(P.TextOf(Get(r, S.AccessKey)), P.TextOf(Get(r, S.SecretKey)), P.TextOf(Get(r, S.S3Region)),
        if link.Link? then lib.printUrl(link.url) else "", P.TextOf(Get(r, S.StorageClass)),
        M.BitOf(Get(r, S.S3ForcePathStyle)), M.NumOf(Get(r, S.UploadChunkSize)), M.NumOf(Get(r, S.UploadCutoff)),
        M.NumOf(Get(r, S.UploadConcurrency)))
  }

  /** What a section should hold. */
  function Wanted(c: Cmd, k: Key): Option<string> {
    match k
    case Type => Some("s3")
    case Provider => Some("Qiniu")
    case AccessKeyId => Some(c.accessKey)
    case SecretAccessKey => Some(c.secretKey)
    case Region => Some(c.s3Region)
    case Endpoint => Some(c.s3Endpoint)
    case LocationConstraint => Some(c.s3Region)
    case Acl => Some("public-read-write")
    case StorageClass => Some(c.storageClass)
    case NoCheckBucket => Some("true")
    case ForcePathStyle => Some(FormatBool(c.s3ForcePathStyle))
    case ChunkSize => MapOption(c.uploadChunkSize, n => C.FormatByteSize(n))
    case UploadCutoff => MapOption(c.uploadCutoff, n => C.FormatByteSize(n))
    case UploadConcurrency => MapOption(c.uploadConcurrency, n => FormatUint(n))
  }

  ghost predicate Holds(c: Cmd, config: map<Key, string>) {
    forall k: Key :: Wanted(c, k) == if k in config then Some(config[k]) else None
  }

  predicate IsUpload(k: Key) { k.ChunkSize? || k.UploadCutoff? || k.UploadConcurrency? }

  method SetFixed(c: Cmd) returns (config: map<Key, string>)
    ensures forall k: Key :: k in config <==> !IsUpload(k)
    ensures forall k: Key :: k in config ==> Wanted(c, k) == Some(config[k])
  {
    config := map[Type := "s3", Provider := "Qiniu"];
    config := config[AccessKeyId := c.accessKey][SecretAccessKey := c.secretKey][Region := c.s3Region];
    config := config[Endpoint := c.s3Endpoint][LocationConstraint := c.s3Region][Acl := "public-read-write"];
    config := config[StorageClass := c.storageClass][NoCheckBucket := "true"];
    config := config[ForcePathStyle := FormatBool(c.s3ForcePathStyle)];
  }

  method WriteConfig(c: Cmd) returns (config: map<Key, string>)
    ensures Holds(c, config)
  {
    config := SetFixed(c);
    if c.uploadChunkSize.Some? {
      config := config[ChunkSize := C.FormatByteSize(c.uploadChunkSize.value)];
    }
    if c.uploadCutoff.Some? {
      config := config[UploadCutoff := C.FormatByteSize(c.uploadCutoff.value)];
    }
    if c.uploadConcurrency.Some? {
      config := config[UploadConcurrency := FormatUint(c.uploadConcurrency.value)];
    }
  }

  /** The number that rclone finds under a key: a size in bytes, or a count. */
  function NumberIn(config: map<Key, string>, k: Key): Option<Val> {
    if k !in config then Some(Nil)
    else if config[k] == "" then None
    else MapOption(ParseUint(if k.UploadConcurrency? then config[k] else M.ByteSize(config[k])), n => Num(n))
  }

  lemma NumberBack(c: Cmd, config: map<Key, string>, k: Key, v: Val, n: Option<nat>)
    requires Holds(c, config) && (v.Nil? || (v.Num? && v.num < UINT64_LIMIT)) && n == M.NumOf(v)
    requires Wanted(c, k) == MapOption(n, m => if k.UploadConcurrency? then FormatUint(m) else C.FormatByteSize(m))
    ensures NumberIn(config, k) == Some(v)
  {
    if v.Num? {
      M.SizeBack(v.num);
    }
  }

  /** A field that is neither answered by the server nor the cache mode comes back as accepted. */
  lemma FieldKept(p: Rec, served: V.Served, r: Rec, s: S.Slot)
    requires V.AllProper(p) && V.Returned(p, served, r)
    requires !S.IsVolumeSlot(s) && !s.AccessKey? && !s.SecretKey? && !s.Region? && !s.VfsCacheMode?
    ensures Get(r, s) == Get(p, s) && V.Proper(s, Get(p, s))
  {
    assert V.Proper(s, Get(p, s));
  }

  lemma NumberKept(p: Rec, served: V.Served, r: Rec, s: S.Slot)
    requires V.AllProper(p) && V.Returned(p, served, r) && S.KindOf(s).UintKind?
    ensures Get(r, s) == Get(p, s) && IsNumber(Get(p, s))
  {
    NumbersAreOptions(s);
    FieldKept(p, served, r, s);
  }

  lemma NumbersAreOptions(s: S.Slot)
    requires S.KindOf(s).UintKind?
    ensures !S.IsVolumeSlot(s) && !s.AccessKey? && !s.SecretKey? && !s.Region? && !s.VfsCacheMode?
  {
  }

  lemma AnswersCopied(lib: Lib, p: Rec, served: V.Served, r: Rec)
    requires V.Returned(p, served, r)
    ensures var c := Copy(lib, r);
            && c.accessKey == served.iamAccessKey && c.secretKey == served.iamSecretKey
            && c.s3Region == served.s3Region && c.s3Endpoint == lib.printUrl(served.s3Endpoint)
  {
  }

  lemma TextsCopied(lib: Lib, p: Rec, served: V.Served, r: Rec)
    requires V.AllProper(p) && V.Returned(p, served, r)
    ensures Txt(Copy(lib, r).storageClass) == Get(p, S.StorageClass)
    ensures Copy(lib, r).s3ForcePathStyle == PathStyle(p)
  {
    FieldKept(p, served, r, S.StorageClass);
    FieldKept(p, served, r, S.S3ForcePathStyle);
  }

  predicate IsNumber(v: Val) { v.Nil? || (v.Num? && v.num < UINT64_LIMIT) }

  function TextIn(config: map<Key, string>, k: Key): string { if k in config then config[k] else "" }

  /** The accepted path style; one that was not given counts as false. */
  predicate PathStyle(p: Rec) { Get(p, S.S3ForcePathStyle) == Bit(true) }

  lemma TextsHeld(c: Cmd, config: map<Key, string>)
    requires Holds(c, config)
    ensures TextIn(config, AccessKeyId) == c.accessKey && TextIn(config, SecretAccessKey) == c.secretKey
    ensures TextIn(config, Region) == c.s3Region && TextIn(config, Endpoint) == c.s3Endpoint
    ensures TextIn(config, StorageClass) == c.storageClass
    ensures TextIn(config, ForcePathStyle) == FormatBool(c.s3ForcePathStyle)
  {
    assert Wanted(c, AccessKeyId).Some? && Wanted(c, SecretAccessKey).Some? && Wanted(c, Region).Some?;
    assert Wanted(c, Endpoint).Some? && Wanted(c, StorageClass).Some? && Wanted(c, ForcePathStyle).Some?;
  }

  lemma ConstantsHeld(c: Cmd, config: map<Key, string>)
    requires Holds(c, config)
    ensures TextIn(config, LocationConstraint) == c.s3Region
    ensures TextIn(config, Type) == "s3" && TextIn(config, Provider) == "Qiniu"
    ensures TextIn(config, Acl) == "public-read-write" && TextIn(config, NoCheckBucket) == "true"
  {
    assert Wanted(c, Type).Some? && Wanted(c, Provider).Some? && Wanted(c, LocationConstraint).Some?;
    assert Wanted(c, Acl).Some? && Wanted(c, NoCheckBucket).Some?;
  }

  /** What reaches rclone through the config file when a published volume is mounted: the IAM keys,
      the S3 region and endpoint that the server gave, the accepted storage class and upload options
      with their own values, and the accepted path style, or "false" if none was given. */
  lemma ConfigHolds(lib: Lib, p: Rec, served: V.Served, r: Rec, config: map<Key, string>)
    requires V.AllProper(p) && V.Returned(p, served, r) && Holds(Copy(lib, r), config)
    ensures TextIn(config, AccessKeyId) == served.iamAccessKey && TextIn(config, SecretAccessKey) == served.iamSecretKey
    ensures TextIn(config, Region) == served.s3Region && TextIn(config, Endpoint) == lib.printUrl(served.s3Endpoint)
    ensures TextIn(config, LocationConstraint) == served.s3Region
    ensures TextIn(config, Type) == "s3" && TextIn(config, Provider) == "Qiniu"
    ensures TextIn(config, Acl) == "public-read-write" && TextIn(config, NoCheckBucket) == "true"
    ensures Txt(TextIn(config, StorageClass)) == Get(p, S.StorageClass)
    ensures TextIn(config, ForcePathStyle) == if PathStyle(p) then "true" else "false"
    ensures NumberIn(config, ChunkSize) == Some(Get(p, S.UploadChunkSize))
    ensures NumberIn(config, UploadCutoff) == Some(Get(p, S.UploadCutoff))
    ensures NumberIn(config, UploadConcurrency) == Some(Get(p, S.UploadConcurrency))
  {
    AnswersCopied(lib, p, served, r);
    TextsCopied(lib, p, served, r);
    TextsHeld(Copy(lib, r), config);
    ConstantsHeld(Copy(lib, r), config);
    NumbersKept(p, served, r);
    UploadsHeld(lib, p, r, config);
  }

  ghost predicate NumbersAgree(p: Rec, r: Rec) {
    forall s: S.Slot :: S.KindOf(s).UintKind? ==> Get(r, s) == Get(p, s) && IsNumber(Get(r, s))
  }

  lemma NumbersKept(p: Rec, served: V.Served, r: Rec)
    requires V.AllProper(p) && V.Returned(p, served, r)
    ensures NumbersAgree(p, r)
  {
    forall s: S.Slot | S.KindOf(s).UintKind? ensures Get(r, s) == Get(p, s) && IsNumber(Get(r, s)) {
      NumberKept(p, served, r, s);
    }
  }

  lemma UploadsHeld(lib: Lib, p: Rec, r: Rec, config: map<Key, string>)
    requires Holds(Copy(lib, r), config) && NumbersAgree(p, r)
    ensures NumberIn(config, ChunkSize) == Some(Get(p, S.UploadChunkSize))
    ensures NumberIn(config, UploadCutoff) == Some(Get(p, S.UploadCutoff))
    ensures NumberIn(config, UploadConcurrency) == Some(Get(p, S.UploadConcurrency))
  {
    CopiedNumbers(lib, r);
    NumbersHeld(Copy(lib, r), config, Get(r, S.UploadChunkSize), Get(r, S.UploadCutoff), Get(r, S.UploadConcurrency));
  }

  lemma CopiedNumbers(lib: Lib, r: Rec)
    ensures var c := Copy(lib, r);
            && c.uploadChunkSize == M.NumOf(Get(r, S.UploadChunkSize))
            && c.uploadCutoff == M.NumOf(Get(r, S.UploadCutoff))
            && c.uploadConcurrency == M.NumOf(Get(r, S.UploadConcurrency))
  {
  }

  lemma NumbersHeld(c: Cmd, config: map<Key, string>, chunk: Val, cutoff: Val, concurrency: Val)
    requires Holds(c, config) && IsNumber(chunk) && IsNumber(cutoff) && IsNumber(concurrency)
    requires c.uploadChunkSize == M.NumOf(chunk) && c.uploadCutoff == M.NumOf(cutoff)
    requires c.uploadConcurrency == M.NumOf(concurrency)
    ensures NumberIn(config, ChunkSize) == Some(chunk) && NumberIn(config, UploadCutoff) == Some(cutoff)
    ensures NumberIn(config, UploadConcurrency) == Some(concurrency)
  {
    NumberBack(c, config, ChunkSize, chunk, c.uploadChunkSize);
    NumberBack(c, config, UploadCutoff, cutoff, c.uploadCutoff);
    NumberBack(c, config, UploadConcurrency, concurrency, c.uploadConcurrency);
  }
}
