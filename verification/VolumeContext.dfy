/** The context that CreateVolume publishes for a new volume, and what reading it back gives
    (plugin/kodo_controller_server.go:96-200, plugin/kodo_parameters.go:73-173). */
module VolumeContext {
  import opened Wrappers
  import opened Text
  import opened Fields
  import opened Parameters
  import opened VolumeParameters

  /** What the server answered while the volume was created. */
  datatype Served = Served(
    bucketId: string, bucketName: string, s3Endpoint: string, s3Region: string,
    region: string, iamAccessKey: string, iamSecretKey: string)

  /** The fields that CreateVolume sets: what the server answered, and the account's keys, kept
      beside the IAM key pair that replaces them. */
  function Answers(p: Rec, served: Served): Rec {
    map[
      BucketId := Txt(served.bucketId),
      BucketName := Txt(served.bucketName),
      S3Endpoint := Link(served.s3Endpoint),
      S3Region := Txt(served.s3Region),
      AccessKey := Txt(served.iamAccessKey),
      SecretKey := Txt(served.iamSecretKey),
      OriginalAccessKey := Get(p, AccessKey),
      OriginalSecretKey := Get(p, SecretKey),
      Region := Txt(served.region)
    ]
  }

  /** The published record. */
  function Published(p: Rec, served: Served): Rec { p + Answers(p, served) }

  /** The text published for a field, if it is published: unset pointers and false flags are not. */
  function Print(lib: Lib, s: Slot, v: Val): Option<string> {
    match v
    case Nil => None
    case Txt(t) => Some(t)
    case Link(u) => Some(lib.printUrl(u))
    case Bit(b) => if KindOf(s).BoolKind? || b then Some(FormatBool(b)) else None
    case Num(n) => Some(FormatUint(n))
    case Span(d) => Some(lib.printDuration(d))
    case Mode(m) => Some(m)
  }

  /** A numbering of the fields. */
  function SlotAt(i: nat): Slot {
    match i
    case 0 => AccessKey case 1 => SecretKey case 2 => UcEndpoint case 3 => Region
    case 4 => StorageClass case 5 => SubDir case 6 => S3ForcePathStyle case 7 => VfsCacheMode
    case 8 => DirCacheDuration case 9 => BufferSize case 10 => VfsCacheMaxAge
    case 11 => VfsCachePollInterval case 12 => VfsWriteBack case 13 => VfsCacheMaxSize
    case 14 => VfsReadAhead case 15 => VfsFastFingerprint case 16 => VfsReadChunkSize
    case 17 => VfsReadChunkSizeLimit case 18 => NoCheckSum case 19 => NoModTime case 20 => NoSeek
    case 21 => ReadOnly case 22 => VfsReadWait case 23 => VfsWriteWait case 24 => Transfers
    case 25 => VfsDiskSpaceTotalSize case 26 => WriteBackCache case 27 => UploadChunkSize
    case 28 => UploadCutoff case 29 => UploadConcurrency case 30 => DebugHttp case 31 => DebugFuse
    case 32 => OriginalAccessKey case 33 => OriginalSecretKey case 34 => BucketId
    case 35 => BucketName case 36 => S3Endpoint case _ => S3Region
  }

  function NumberOf(s: Slot): nat {
    match s
    case AccessKey => 0 case SecretKey => 1 case UcEndpoint => 2 case Region => 3
    case StorageClass => 4 case SubDir => 5 case S3ForcePathStyle => 6 case VfsCacheMode => 7
    case DirCacheDuration => 8 case BufferSize => 9 case VfsCacheMaxAge => 10
    case VfsCachePollInterval => 11 case VfsWriteBack => 12 case VfsCacheMaxSize => 13
    case VfsReadAhead => 14 case VfsFastFingerprint => 15 case VfsReadChunkSize => 16
    case VfsReadChunkSizeLimit => 17 case NoCheckSum => 18 case NoModTime => 19 case NoSeek => 20
    case ReadOnly => 21 case VfsReadWait => 22 case VfsWriteWait => 23 case Transfers => 24
    case VfsDiskSpaceTotalSize => 25 case WriteBackCache => 26 case UploadChunkSize => 27
    case UploadCutoff => 28 case UploadConcurrency => 29 case DebugHttp => 30 case DebugFuse => 31
    case OriginalAccessKey => 32 case OriginalSecretKey => 33 case BucketId => 34
    case BucketName => 35 case S3Endpoint => 36 case S3Region => 37
  }

  function SlotCount(): nat { NumberOf(S3Region) + 1 }

  lemma Numbering(s: Slot)
    ensures NumberOf(s) < SlotCount() && SlotAt(NumberOf(s)) == s
  {
  }

  ghost predicate Injective(name: Slot -> string) { forall s: Slot, t: Slot :: name(s) == name(t) ==> s == t }

  /** The map that has the text of each of the first `n` fields, if it has one, under its name. */
  function Named(name: Slot -> string, text: Slot -> Option<string>, n: nat): map<string, string> {
    if n == 0 then map[]
    else
      var before, s := Named(name, text, n - 1), SlotAt(n - 1);
      if text(s).None? then before else before[name(s) := text(s).value]
  }

  /** The published context. */
  function Context(lib: Lib, r: Rec): map<string, string> {
    Named(s => FieldOf(s), s => Print(lib, s, Get(r, s)), SlotCount())
  }

  lemma {:induction false} NamedHas(name: Slot -> string, text: Slot -> Option<string>, n: nat, i: nat)
    requires Injective(name) && i < n && text(SlotAt(i)).Some?
    ensures var key := name(SlotAt(i));
            key in Named(name, text, n) && Named(name, text, n)[key] == text(SlotAt(i)).value
  {
    if i < n - 1 {
      NamedHas(name, text, n - 1, i);
    }
  }

  lemma {:induction false} NamedOnly(name: Slot -> string, text: Slot -> Option<string>, n: nat, key: string)
    returns (s: Slot)
    requires key in Named(name, text, n)
    ensures name(s) == key && text(s).Some?
  {
    s := SlotAt(n - 1);
    if text(s).None? || name(s) != key {
      s := NamedOnly(name, text, n - 1, key);
    }
  }

  lemma NamesDiffer()
    ensures Injective(s => FieldOf(s))
  {
    forall s: Slot, t: Slot | FieldOf(s) == FieldOf(t) ensures s == t {
      FieldInjective(s, t);
    }
  }

  // -- values that survive -----------------------------------------------------------------------

  /** The shape of an accepted value. */
  predicate ModeOk(m: string) { m == "" || m == "off" || m == "minimal" || m == "writes" || m == "full" }

  predicate Proper(s: Slot, v: Val) {
    match KindOf(s)
    case TextKind => v.Txt? && Trimmed(v.text)
    case UrlKind => v.Nil? || v.Link?
    case BoolKind => v.Nil? || v.Bit?
    case FlagKind => v.Bit?
    case UintKind => v.Nil? || (v.Num? && v.num < UINT64_LIMIT)
    case DurationKind => v.Nil? || v.Span?
    case ModeKind => v.Mode? && ModeOk(v.mode)
  }

  /** The URL and duration libraries read back what they print for this value. */
  predicate Reprints(lib: Lib, v: Val) {
    match v
    case Link(u) => lib.parseUrl(TrimSpace(lib.printUrl(u))) == Some(u)
    case Span(d) => lib.parseDuration(TrimSpace(lib.printDuration(d))) == Some(d)
    case _ => true
  }

  /** An unset cache mode is read back as "off"; everything else as itself. */
  function Reread(v: Val): Val { if v == Mode("") then Mode("off") else v }

  lemma ModeReads(lib: Lib, m: string)
    requires KeepsLower(lib.lower) && ModeOk(m)
    ensures ParseMode(lib, m) == Some(if m == "" then "off" else m)
  {
    LowerAsciiTrimmed(m);
    LowerStays(lib.lower, m);
    TrimmedStays(m);
  }

  lemma BoolReads(lib: Lib, b: bool)
    requires KeepsLower(lib.lower)
    ensures ParseBool(lib, FormatBool(b)) == Some(b)
  {
    var t := FormatBool(b);
    LowerAsciiTrimmed(t);
    LowerStays(lib.lower, t);
    TrimmedStays(t);
  }

  lemma NumReads(n: nat)
    requires n < UINT64_LIMIT
    ensures ParseUint(TrimSpace(FormatUint(n))) == Some(n)
  {
    DigitsTrimmed(n);
    TrimmedStays(FormatUint(n));
    UintRoundTrip(n);
  }

  lemma ModeValueReads(lib: Lib, s: Slot, m: string)
    requires KeepsLower(lib.lower) && ModeOk(m) && KindOf(s) == ModeKind
    ensures ParseValue(lib, s, m) == Some(Reread(Mode(m)))
  {
    ModeReads(lib, m);
  }

  lemma BoolValueReads(lib: Lib, s: Slot, b: bool)
    requires KeepsLower(lib.lower) && (KindOf(s) == BoolKind || KindOf(s) == FlagKind)
    ensures ParseValue(lib, s, FormatBool(b)) == Some(Bit(b))
  {
    BoolReads(lib, b);
  }

  lemma PlainValueReads(lib: Lib, s: Slot, v: Val)
    requires Proper(s, v) && Reprints(lib, v) && !v.Bit? && !v.Mode? && !v.Nil?
    ensures Print(lib, s, v).Some? && ParseValue(lib, s, Print(lib, s, v).value) == Some(v)
  {
    match v
    case Txt(t) => TrimmedStays(t);
    case Num(n) => NumReads(n);
    case _ =>
  }

  /** A printed value is read back. */
  lemma ValueReads(lib: Lib, s: Slot, v: Val)
    requires KeepsLower(lib.lower) && Proper(s, v) && Reprints(lib, v) && Print(lib, s, v).Some?
    ensures ParseValue(lib, s, Print(lib, s, v).value) == Some(Reread(v))
  {
    if v.Bit? {
      BoolValueReads(lib, s, v.bit);
    } else if v.Mode? {
      ModeValueReads(lib, s, v.mode);
    } else {
      PlainValueReads(lib, s, v);
    }
  }

  lemma EntryReads(lib: Lib, stage: Stage, s: Slot, v: Val)
    requires KeepsLower(lib.lower) && Proper(s, v) && Reprints(lib, v) && Print(lib, s, v).Some?
    ensures ReaderOf(lib, stage)(FieldOf(s), Print(lib, s, v).value) ==
            if Belongs(stage, s) then Good(s, Reread(v)) else Ignored
  {
    LowerNames(s);
    LowerStays(lib.lower, FieldOf(s));
    RecogniseExactly(stage, FieldOf(s), s);
    ValueReads(lib, s, v);
  }

  lemma UnprintedIsZero(lib: Lib, s: Slot, v: Val)
    requires Proper(s, v) && Print(lib, s, v).None?
    ensures v == Zero(s) == Reread(v)
  {
  }

  // -- parsed values are proper ------------------------------------------------------------------

  lemma ParsedIsProper(lib: Lib, s: Slot, text: string)
    requires ParseValue(lib, s, text).Some?
    ensures Proper(s, ParseValue(lib, s, text).value)
  {
    TrimSpaceTrims(text);
  }

  lemma ZeroIsProper(s: Slot)
    ensures Proper(s, Zero(s))
  {
  }

  ghost predicate AllProper(r: Rec) { forall s :: Proper(s, Get(r, s)) }

  lemma SetKeepsProper(r: Rec, s: Slot, v: Val)
    requires AllProper(r) && Proper(s, v)
    ensures AllProper(r[s := v])
  {
    var q := r[s := v];
    forall t ensures Proper(t, Get(q, t)) {
      assert Proper(t, Get(r, t));
    }
  }

  ghost predicate ReadsProper(read: Reader) {
    forall key, text :: read(key, text).Good? ==> Proper(read(key, text).slot, read(key, text).val)
  }

  ghost predicate FillsProper(fill: Filler, steps: seq<Slot>) {
    forall i, v :: 0 <= i < |steps| && Proper(steps[i], v) && fill(steps[i], v).Some? ==>
                     Proper(steps[i], fill(steps[i], v).value)
  }

  lemma ReaderIsProper(lib: Lib, stage: Stage)
    ensures ReadsProper(ReaderOf(lib, stage))
  {
    var read := ReaderOf(lib, stage);
    forall key, text | read(key, text).Good? ensures Proper(read(key, text).slot, read(key, text).val) {
      ParsedIsProper(lib, read(key, text).slot, text);
    }
  }

  lemma DefaultIsProper(s: Slot)
    ensures Default(s).Some? ==> Proper(s, Default(s).value)
  {
  }

  lemma FillerIsProper(lib: Lib, secrets: map<string, string>, steps: seq<Slot>)
    ensures FillsProper(FillerOf(lib, secrets), steps)
  {
    var fill := FillerOf(lib, secrets);
    forall i, v | 0 <= i < |steps| && Proper(steps[i], v) && fill(steps[i], v).Some?
      ensures Proper(steps[i], fill(steps[i], v).value)
    {
      DefaultIsProper(steps[i]);
      if FieldOf(steps[i]) in secrets {
        var t := secrets[FieldOf(steps[i])];
        if ParseValue(lib, steps[i], t).Some? {
          ParsedIsProper(lib, steps[i], t);
        }
      }
    }
  }

  lemma {:induction false} LoopIsProper(read: Reader, ctx: map<string, string>, order: seq<string>)
    requires (forall k :: k in order ==> k in ctx) && ReadsProper(read)
    ensures var r := Loop(read, ctx, order); r.Some? ==> AllProper(r.value)
  {
    if order == [] {
      forall s ensures Proper(s, Zero(s)) {
        ZeroIsProper(s);
      }
    } else {
      var n := |order| - 1;
      LoopIsProper(read, ctx, order[..n]);
      var r, g := Loop(read, ctx, order[..n]), read(order[n], ctx[order[n]]);
      if r.Some? && g.Good? {
        SetKeepsProper(r.value, g.slot, g.val);
      }
    }
  }

  lemma {:induction false} CompleteIsProper(fill: Filler, r: Rec, steps: seq<Slot>)
    requires AllProper(r) && FillsProper(fill, steps)
    ensures var q := Complete(fill, r, steps); q.Some? ==> AllProper(q.value)
  {
    if steps != [] {
      var n := |steps| - 1;
      var before := steps[..n];
      assert forall i :: 0 <= i < n ==> before[i] == steps[i];
      CompleteIsProper(fill, r, before);
      var q := Complete(fill, r, before);
      if q.Some? && fill(steps[n], Get(q.value, steps[n])).Some? {
        assert Proper(steps[n], Get(q.value, steps[n]));
        SetKeepsProper(q.value, steps[n], fill(steps[n], Get(q.value, steps[n])).value);
      }
    }
  }

  lemma ClassFillerIsProper(lib: Lib, secrets: map<string, string>)
    ensures FillsProper(FillerOf(lib, secrets), CLASS_FALLBACKS)
  {
    FillerIsProper(lib, secrets, CLASS_FALLBACKS);
  }

  /** Every accepted record holds proper values only. */
  lemma ClassIsProper(lib: Lib, ctx: map<string, string>, secrets: map<string, string>, order: seq<string>)
    requires forall k :: k in order ==> k in ctx
    ensures var r := ParseClass(lib, ctx, secrets, order); r.Some? ==> AllProper(r.value)
  {
    ReaderIsProper(lib, ClassStage);
    LoopIsProper(ReaderOf(lib, ClassStage), ctx, order);
    ClassFillerIsProper(lib, secrets);
    var r := Loop(ReaderOf(lib, ClassStage), ctx, order);
    if r.Some? {
      CompleteIsProper(FillerOf(lib, secrets), r.value, CLASS_FALLBACKS);
    }
  }

  // -- reading the context back ------------------------------------------------------------------

  ghost predicate AllReprint(lib: Lib, r: Rec) { forall s :: Reprints(lib, Get(r, s)) }

  /** The fields of one stage as they are read back. */
  ghost function Part(lib: Lib, stage: Stage, r: Rec): Rec {
    map s: Slot | Belongs(stage, s) && Print(lib, s, Get(r, s)).Some? :: Reread(Get(r, s))
  }

  lemma PartHas(lib: Lib, stage: Stage, r: Rec, s: Slot)
    requires AllProper(r)
    ensures Get(Part(lib, stage, r), s) == if Belongs(stage, s) then Reread(Get(r, s)) else Zero(s)
    ensures s in Part(lib, stage, r) <==> Belongs(stage, s) && Print(lib, s, Get(r, s)).Some?
  {
    if Print(lib, s, Get(r, s)).None? {
      UnprintedIsZero(lib, s, Get(r, s));
    }
  }

  lemma ContextHas(lib: Lib, r: Rec, s: Slot)
    requires Print(lib, s, Get(r, s)).Some?
    ensures FieldOf(s) in Context(lib, r) && Context(lib, r)[FieldOf(s)] == Print(lib, s, Get(r, s)).value
  {
    NamesDiffer();
    Numbering(s);
    NamedHas(s => FieldOf(s), s => Print(lib, s, Get(r, s)), SlotCount(), NumberOf(s));
  }

  lemma ContextOnly(lib: Lib, r: Rec, key: string) returns (s: Slot)
    requires key in Context(lib, r)
    ensures FieldOf(s) == key && Print(lib, s, Get(r, s)).Some?
  {
    s := NamedOnly(s => FieldOf(s), s => Print(lib, s, Get(r, s)), SlotCount(), key);
  }

  /** One entry of the context, read by one stage. */
  lemma ContextEntry(lib: Lib, stage: Stage, r: Rec, key: string) returns (s: Slot)
    requires KeepsLower(lib.lower) && AllProper(r) && AllReprint(lib, r) && key in Context(lib, r)
    ensures FieldOf(s) == key && Print(lib, s, Get(r, s)).Some?
    ensures ReaderOf(lib, stage)(key, Context(lib, r)[key]) ==
            if Belongs(stage, s) then Good(s, Reread(Get(r, s))) else Ignored
  {
    s := ContextOnly(lib, r, key);
    ContextHas(lib, r, s);
    EntryReads(lib, stage, s, Get(r, s));
  }

  lemma ContextAgrees(lib: Lib, stage: Stage, r: Rec)
    requires KeepsLower(lib.lower) && AllProper(r) && AllReprint(lib, r)
    ensures AllValid(ReaderOf(lib, stage), Context(lib, r)) && Agree(ReaderOf(lib, stage), Context(lib, r))
  {
    var read, ctx := ReaderOf(lib, stage), Context(lib, r);
    forall k | k in ctx ensures read(k, ctx[k]) != Bad {
      var s := ContextEntry(lib, stage, r, k);
    }
    forall k, l | k in ctx && l in ctx && SameField(read(k, ctx[k]), read(l, ctx[l])) ensures k == l {
      var s := ContextEntry(lib, stage, r, k);
      var t := ContextEntry(lib, stage, r, l);
    }
  }

  lemma ContextHolds(lib: Lib, stage: Stage, r: Rec, s: Slot)
    requires KeepsLower(lib.lower) && AllProper(r) && AllReprint(lib, r)
    requires Belongs(stage, s) && Print(lib, s, Get(r, s)).Some?
    ensures FieldOf(s) in Context(lib, r)
    ensures ReaderOf(lib, stage)(FieldOf(s), Context(lib, r)[FieldOf(s)]) == Good(s, Reread(Get(r, s)))
  {
    ContextHas(lib, r, s);
    EntryReads(lib, stage, s, Get(r, s));
  }

  lemma ContextSays(lib: Lib, stage: Stage, r: Rec)
    requires KeepsLower(lib.lower) && AllProper(r) && AllReprint(lib, r)
    ensures Says(ReaderOf(lib, stage), Context(lib, r), Part(lib, stage, r))
  {
    var read, ctx, q := ReaderOf(lib, stage), Context(lib, r), Part(lib, stage, r);
    forall s | s in q ensures exists k :: k in ctx && read(k, ctx[k]) == Good(s, q[s]) {
      PartHas(lib, stage, r, s);
      ContextHolds(lib, stage, r, s);
    }
    forall k | k in ctx && read(k, ctx[k]).Good? ensures read(k, ctx[k]).slot in q {
      var s := ContextEntry(lib, stage, r, k);
      PartHas(lib, stage, r, s);
    }
  }

  /** In every order, the loop over the context reads back the fields of its stage. */
  lemma LoopReadsBack(lib: Lib, stage: Stage, r: Rec, order: seq<string>)
    requires KeepsLower(lib.lower) && AllProper(r) && AllReprint(lib, r) && IsOrder(Context(lib, r), order)
    ensures Loop(ReaderOf(lib, stage), Context(lib, r), order) == Some(Part(lib, stage, r))
  {
    ContextAgrees(lib, stage, r);
    ContextSays(lib, stage, r);
    LoopExactly(ReaderOf(lib, stage), Context(lib, r), order);
    SaysUnique(ReaderOf(lib, stage), Context(lib, r), Loop(ReaderOf(lib, stage), Context(lib, r), order).value,
               Part(lib, stage, r));
  }

  // -- completion leaves a published record alone ------------------------------------------------

  ghost predicate Stable(fill: Filler, r: Rec, steps: seq<Slot>) {
    forall i :: 0 <= i < |steps| ==> fill(steps[i], Get(r, steps[i])) == Some(Get(r, steps[i]))
  }

  ghost predicate SameFields(r: Rec, q: Rec) { forall s :: Get(r, s) == Get(q, s) }

  lemma CompleteStable(fill: Filler, r: Rec, steps: seq<Slot>)
    requires DistinctSlots(steps) && Stable(fill, r, steps)
    ensures Complete(fill, r, steps).Some? && SameFields(Complete(fill, r, steps).value, r)
  {
    CompleteExactly(fill, r, steps);
    var q := Complete(fill, r, steps).value;
    forall s ensures Get(q, s) == Get(r, s) {
      if exists i :: 0 <= i < |steps| && steps[i] == s {
        var i :| 0 <= i < |steps| && steps[i] == s;
        assert fill(steps[i], Get(r, steps[i])) == Some(Get(q, steps[i]));
      }
    }
  }

  /** What the server must answer for the context to be read back as published. */
  predicate Usable(p: Rec, served: Served) {
    && NonBlank(served.bucketId) && NonBlank(served.bucketName) && NonBlank(served.s3Region)
    && NonBlank(served.iamAccessKey) && NonBlank(served.iamSecretKey)
    && (Txt(served.region) == Get(p, Region) || NonBlank(served.region))
  }

  predicate NonBlank(s: string) { s != "" && Trimmed(s) }

  /** An accepted record is a fixed point of completion with the same secrets. */
  lemma AcceptedIsStable(lib: Lib, ctx: map<string, string>, secrets: map<string, string>, order: seq<string>)
    requires (forall k :: k in order ==> k in ctx) && ParseClass(lib, ctx, secrets, order).Some?
    ensures Stable(FillerOf(lib, secrets), ParseClass(lib, ctx, secrets, order).value, CLASS_FALLBACKS)
  {
    var fill := FillerOf(lib, secrets);
    var r := Loop(ReaderOf(lib, ClassStage), ctx, order).value;
    ClassSteps(fill, r);
    CompleteExactly(fill, r, CLASS_FALLBACKS);
    FilledIsStable(lib, secrets, r, CLASS_FALLBACKS, ParseClass(lib, ctx, secrets, order).value);
  }

  lemma FilledIsStable(lib: Lib, secrets: map<string, string>, r: Rec, steps: seq<Slot>, q: Rec)
    requires Filled(FillerOf(lib, secrets), r, steps, q)
    ensures Stable(FillerOf(lib, secrets), q, steps)
  {
    forall i | 0 <= i < |steps|
      ensures FillerOf(lib, secrets)(steps[i], Get(q, steps[i])) == Some(Get(q, steps[i]))
    {
      FillAgain(lib, secrets, steps[i], Get(r, steps[i]));
    }
  }

  lemma AnswerOf(p: Rec, served: Served, s: Slot)
    requires s in Answers(p, served)
    ensures
      var v := Answers(p, served)[s];
      match s
      case BucketId => v == Txt(served.bucketId)
      case BucketName => v == Txt(served.bucketName)
      case S3Endpoint => v == Link(served.s3Endpoint)
      case S3Region => v == Txt(served.s3Region)
      case AccessKey => v == Txt(served.iamAccessKey)
      case SecretKey => v == Txt(served.iamSecretKey)
      case OriginalAccessKey => v == Get(p, AccessKey)
      case OriginalSecretKey => v == Get(p, SecretKey)
      case _ => s == Region && v == Txt(served.region)
  {
  }

  /** The answers that are texts. */
  predicate AllTrimmed(p: Rec, served: Served) {
    && Trimmed(served.bucketId) && Trimmed(served.bucketName) && Trimmed(served.s3Region)
    && Trimmed(served.iamAccessKey) && Trimmed(served.iamSecretKey) && Trimmed(served.region)
    && Proper(AccessKey, Get(p, AccessKey)) && Proper(SecretKey, Get(p, SecretKey))
  }

  lemma AnswersAreProper(lib: Lib, p: Rec, served: Served, s: Slot)
    requires AllTrimmed(p, served) && Reprints(lib, Link(served.s3Endpoint)) && s in Answers(p, served)
    ensures Proper(s, Answers(p, served)[s]) && Reprints(lib, Answers(p, served)[s])
  {
    AnswerOf(p, served, s);
  }

  lemma PublishedIsProper(lib: Lib, p: Rec, served: Served)
    requires AllProper(p) && AllReprint(lib, p) && Usable(p, served) && Reprints(lib, Link(served.s3Endpoint))
    ensures AllProper(Published(p, served)) && AllReprint(lib, Published(p, served))
  {
    assert AllTrimmed(p, served) by {
      assert Proper(AccessKey, Get(p, AccessKey));
      assert Proper(SecretKey, Get(p, SecretKey)) && Proper(Region, Get(p, Region));
    }
    var q := Published(p, served);
    forall s ensures Proper(s, Get(q, s)) && Reprints(lib, Get(q, s)) {
      if s in Answers(p, served) {
        AnswersAreProper(lib, p, served, s);
      } else {
        assert Proper(s, Get(p, s)) && Reprints(lib, Get(p, s));
      }
    }
  }

  /** What the class stage reads back stays as it is under completion. */
  lemma ClassPartIsStable(lib: Lib, secrets: map<string, string>, p: Rec, served: Served)
    requires AllProper(p) && AllProper(Published(p, served)) && Usable(p, served)
    requires Stable(FillerOf(lib, secrets), p, CLASS_FALLBACKS)
    ensures Stable(FillerOf(lib, secrets), Part(lib, ClassStage, Published(p, served)), CLASS_FALLBACKS)
  {
    var pub := Published(p, served);
    var q, fill := Part(lib, ClassStage, pub), FillerOf(lib, secrets);
    forall i | 0 <= i < |CLASS_FALLBACKS|
      ensures fill(CLASS_FALLBACKS[i], Get(q, CLASS_FALLBACKS[i])) == Some(Get(q, CLASS_FALLBACKS[i]))
    {
      var f := CLASS_FALLBACKS[i];
      assert fill(f, Get(p, f)) == Some(Get(p, f));
      PartHas(lib, ClassStage, pub, f);
      ClassSlotPublished(p, served, i);
    }
  }

  lemma ClassSlotPublished(p: Rec, served: Served, i: nat)
    requires i < |CLASS_FALLBACKS| && AllProper(p) && Usable(p, served)
    ensures var s := CLASS_FALLBACKS[i]; var v := Reread(Get(Published(p, served), s));
            Belongs(ClassStage, s) && (v == Get(p, s) || v != Zero(s))
  {
    var s := CLASS_FALLBACKS[i];
    assert Proper(s, Get(p, s));
    if s in Answers(p, served) {
      AnswerOf(p, served, s);
    }
  }

  /** Everything that a lookup could be needed for is there. */
  predicate Located(r: Rec) { IsSet(r, BucketId) && IsSet(r, BucketName) && IsSet(r, S3Endpoint) && IsSet(r, S3Region) }

  predicate IsSet(r: Rec, s: Slot) { Get(r, s) != Zero(s) }

  function NonZero(r: Rec): Slot -> bool { s => IsSet(r, s) }

  lemma NonZeroIsStable(lib: Lib, secrets: map<string, string>, r: Rec, steps: seq<Slot>)
    requires AllOf(NonZero(r), steps)
    ensures Stable(FillerOf(lib, secrets), r, steps)
  {
  }

  ghost predicate AllOf(p: Slot -> bool, steps: seq<Slot>) { forall i :: 0 <= i < |steps| ==> p(steps[i]) }

  lemma FourSlots(p: Slot -> bool, a: Slot, b: Slot, c: Slot, d: Slot)
    requires p(a) && p(b) && p(c) && p(d) && a != b && a != c && a != d && b != c && b != d && c != d
    ensures DistinctSlots([a, b, c, d]) && AllOf(p, [a, b, c, d])
  {
  }

  lemma LocatedIsNonZero(r: Rec)
    requires Located(r)
    ensures NonZero(r)(S3Endpoint) && NonZero(r)(S3Region) && NonZero(r)(BucketId) && NonZero(r)(BucketName)
  {
  }

  lemma VolumeIsStable(lib: Lib, secrets: map<string, string>, r: Rec)
    requires Located(r)
    ensures DistinctSlots(VOLUME_FALLBACKS) && Stable(FillerOf(lib, secrets), r, VOLUME_FALLBACKS)
  {
    LocatedIsNonZero(r);
    FourSlots(NonZero(r), S3Endpoint, S3Region, BucketId, BucketName);
    NonZeroIsStable(lib, secrets, r, VOLUME_FALLBACKS);
  }

  lemma TextIsSet(r: Rec, s: Slot)
    requires KindOf(s) == TextKind
    ensures IsSet(r, s) <==> Get(r, s) != Txt("")
  {
  }

  lemma LinkIsSet(r: Rec, s: Slot)
    requires KindOf(s) == UrlKind
    ensures IsSet(r, s) <==> Get(r, s) != Nil
  {
  }

  lemma LocatedExactly(r: Rec)
    ensures Located(r) <==>
            && Get(r, BucketId) != Txt("") && Get(r, BucketName) != Txt("")
            && Get(r, S3Endpoint) != Nil && Get(r, S3Region) != Txt("")
  {
    TextIsSet(r, BucketId);
    TextIsSet(r, BucketName);
    LinkIsSet(r, S3Endpoint);
    TextIsSet(r, S3Region);
  }

  lemma NothingToResolve(remote: Remote, r: Rec)
    requires Located(r)
    ensures Resolve(remote, r) == Some(r)
  {
    LocatedExactly(r);
  }

  lemma PublishedIsLocated(p: Rec, served: Served)
    requires Usable(p, served)
    ensures Located(Published(p, served))
  {
    LocatedExactly(Published(p, served));
    AnswerOf(p, served, BucketId);
    AnswerOf(p, served, BucketName);
    AnswerOf(p, served, S3Endpoint);
    AnswerOf(p, served, S3Region);
  }

  lemma RereadIsLocated(pub: Rec, r: Rec)
    requires Located(pub) && ReadBack(r, pub)
    ensures Located(r)
  {
    assert Get(r, BucketId) == Reread(Get(pub, BucketId)) && Get(r, BucketName) == Reread(Get(pub, BucketName));
    assert Get(r, S3Endpoint) == Reread(Get(pub, S3Endpoint)) && Get(r, S3Region) == Reread(Get(pub, S3Region));
  }

  /** The two stages together give every field back. */
  lemma PartsJoin(lib: Lib, r: Rec, c: Rec, s: Slot)
    requires AllProper(r) && SameFields(c, Part(lib, ClassStage, r))
    ensures Get(c + Part(lib, VolumeStage, r), s) == Reread(Get(r, s))
  {
    PartHas(lib, ClassStage, r, s);
    PartHas(lib, VolumeStage, r, s);
    assert Get(c, s) == Get(Part(lib, ClassStage, r), s);
  }

  ghost predicate ReadBack(r: Rec, pub: Rec) { forall s :: Get(r, s) == Reread(Get(pub, s)) }

  lemma ClassReadsBack(lib: Lib, secrets: map<string, string>, pub: Rec, first: seq<string>)
    requires KeepsLower(lib.lower) && AllProper(pub) && AllReprint(lib, pub) && IsOrder(Context(lib, pub), first)
    requires Stable(FillerOf(lib, secrets), Part(lib, ClassStage, pub), CLASS_FALLBACKS)
    ensures var c := ParseClass(lib, Context(lib, pub), secrets, first);
            c.Some? && SameFields(c.value, Part(lib, ClassStage, pub))
  {
    LoopReadsBack(lib, ClassStage, pub, first);
    ClassSteps(FillerOf(lib, secrets), pub);
    var part := Part(lib, ClassStage, pub);
    CompleteStable(FillerOf(lib, secrets), part, CLASS_FALLBACKS);
    ClassParses(lib, Context(lib, pub), secrets, first, part,
                Complete(FillerOf(lib, secrets), part, CLASS_FALLBACKS).value);
  }

  lemma VolumeReadsBack(lib: Lib, remote: Remote, secrets: map<string, string>, pub: Rec, c: Rec)
    requires AllProper(pub) && Located(pub) && SameFields(c, Part(lib, ClassStage, pub))
    ensures var r := Complete(FillerOf(lib, secrets), c + Part(lib, VolumeStage, pub), VOLUME_FALLBACKS);
            r.Some? && Resolve(remote, r.value) == r && ReadBack(r.value, pub)
  {
    var fill := FillerOf(lib, secrets);
    var joined := c + Part(lib, VolumeStage, pub);
    forall s ensures Get(joined, s) == Reread(Get(pub, s)) {
      PartsJoin(lib, pub, c, s);
    }
    RereadIsLocated(pub, joined);
    VolumeIsStable(lib, secrets, joined);
    CompleteStable(fill, joined, VOLUME_FALLBACKS);
    NothingToResolve(remote, Complete(fill, joined, VOLUME_FALLBACKS).value);
  }

  /** A proper and complete record is read back from its context. */
  lemma ContextReadsBack(lib: Lib, remote: Remote, secrets: map<string, string>, pub: Rec, first: seq<string>,
                         second: seq<string>)
    requires KeepsLower(lib.lower) && AllProper(pub) && AllReprint(lib, pub) && Located(pub)
    requires Stable(FillerOf(lib, secrets), Part(lib, ClassStage, pub), CLASS_FALLBACKS)
    requires IsOrder(Context(lib, pub), first) && IsOrder(Context(lib, pub), second)
    ensures var r := ParseVolume(lib, remote, Context(lib, pub), secrets, first, second);
            r.Some? && ReadBack(r.value, pub)
  {
    ClassReadsBack(lib, secrets, pub, first);
    LoopReadsBack(lib, VolumeStage, pub, second);
    var c := ParseClass(lib, Context(lib, pub), secrets, first).value;
    VolumeReadsBack(lib, remote, secrets, pub, c);
    var r := Complete(FillerOf(lib, secrets), c + Part(lib, VolumeStage, pub), VOLUME_FALLBACKS).value;
    VolumeParses(lib, remote, Context(lib, pub), secrets, first, second, c, Part(lib, VolumeStage, pub), r);
  }

  /** Publishing and reading back: for every accepted record, the context that CreateVolume
      publishes is parsed, in every order, with the same secrets, and without any remote lookup,
      into the published record. */
  lemma ContextRoundTrip(lib: Lib, ctx: map<string, string>, secrets: map<string, string>, order: seq<string>,
                         served: Served, remote: Remote, first: seq<string>, second: seq<string>)
    requires (forall k :: k in order ==> k in ctx) && ParseClass(lib, ctx, secrets, order).Some?
    requires var p := ParseClass(lib, ctx, secrets, order).value;
             && Usable(p, served) && AllReprint(lib, p)
             && IsOrder(Context(lib, Published(p, served)), first)
             && IsOrder(Context(lib, Published(p, served)), second)
    requires KeepsLower(lib.lower) && Reprints(lib, Link(served.s3Endpoint))
    ensures var pub := Published(ParseClass(lib, ctx, secrets, order).value, served);
            var r := ParseVolume(lib, remote, Context(lib, pub), secrets, first, second);
            r.Some? && ReadBack(r.value, pub) && Returned(ParseClass(lib, ctx, secrets, order).value, served, r.value)
  {
    var p := ParseClass(lib, ctx, secrets, order).value;
    ClassIsProper(lib, ctx, secrets, order);
    AcceptedIsStable(lib, ctx, secrets, order);
    AcceptedReadsBack(lib, remote, secrets, p, served, first, second);
    var r := ParseVolume(lib, remote, Context(lib, Published(p, served)), secrets, first, second).value;
    ReadBackIsReturned(p, served, r);
  }

  /** What reading back has to give: the server's answers, the account's own keys under their
      original names, and every other field as it was accepted. */
  ghost predicate Returned(p: Rec, served: Served, r: Rec) {
    && Get(r, BucketId) == Txt(served.bucketId) && Get(r, BucketName) == Txt(served.bucketName)
    && Get(r, S3Endpoint) == Link(served.s3Endpoint) && Get(r, S3Region) == Txt(served.s3Region)
    && Get(r, Region) == Txt(served.region)
    && Get(r, AccessKey) == Txt(served.iamAccessKey) && Get(r, SecretKey) == Txt(served.iamSecretKey)
    && Get(r, OriginalAccessKey) == Get(p, AccessKey) && Get(r, OriginalSecretKey) == Get(p, SecretKey)
    && forall s: Slot :: !IsVolumeSlot(s) && !s.AccessKey? && !s.SecretKey? && !s.Region? ==>
         Get(r, s) == Reread(Get(p, s))
  }

  lemma ReadBackAt(p: Rec, served: Served, r: Rec, s: Slot)
    requires ReadBack(r, Published(p, served))
    ensures Get(r, s) == Reread(if s in Answers(p, served) then Answers(p, served)[s] else Get(p, s))
  {
  }

  lemma AnswersOnly(p: Rec, served: Served, s: Slot)
    ensures s in Answers(p, served) <==> IsVolumeSlot(s) || s.AccessKey? || s.SecretKey? || s.Region?
  {
  }

  lemma ReadBackAnswer(p: Rec, served: Served, r: Rec, s: Slot)
    requires ReadBack(r, Published(p, served)) && (IsVolumeSlot(s) || s.AccessKey? || s.SecretKey? || s.Region?)
    ensures s in Answers(p, served) && Get(r, s) == Reread(Answers(p, served)[s])
  {
    AnswersOnly(p, served, s);
    ReadBackAt(p, served, r, s);
  }

  lemma ReadBackIsReturned(p: Rec, served: Served, r: Rec)
    requires ReadBack(r, Published(p, served)) && Get(p, AccessKey).Txt? && Get(p, SecretKey).Txt?
    ensures Returned(p, served, r)
  {
    forall s: Slot | IsVolumeSlot(s) || s.AccessKey? || s.SecretKey? || s.Region?
      ensures s in Answers(p, served) && Get(r, s) == Reread(Answers(p, served)[s])
    {
      ReadBackAnswer(p, served, r, s);
    }
    forall s: Slot | !IsVolumeSlot(s) && !s.AccessKey? && !s.SecretKey? && !s.Region?
      ensures Get(r, s) == Reread(Get(p, s))
    {
      AnswersOnly(p, served, s);
      ReadBackAt(p, served, r, s);
    }
    AnswerOf(p, served, BucketId);
    AnswerOf(p, served, BucketName);
    AnswerOf(p, served, S3Endpoint);
    AnswerOf(p, served, S3Region);
    AnswerOf(p, served, AccessKey);
    AnswerOf(p, served, SecretKey);
    AnswerOf(p, served, OriginalAccessKey);
    AnswerOf(p, served, OriginalSecretKey);
    AnswerOf(p, served, Region);
  }

  lemma AcceptedReadsBack(lib: Lib, remote: Remote, secrets: map<string, string>, p: Rec, served: Served,
                          first: seq<string>, second: seq<string>)
    requires KeepsLower(lib.lower) && Reprints(lib, Link(served.s3Endpoint)) && Usable(p, served)
    requires AllProper(p) && AllReprint(lib, p) && Stable(FillerOf(lib, secrets), p, CLASS_FALLBACKS)
    requires IsOrder(Context(lib, Published(p, served)), first) && IsOrder(Context(lib, Published(p, served)), second)
    ensures var r := ParseVolume(lib, remote, Context(lib, Published(p, served)), secrets, first, second);
            r.Some? && ReadBack(r.value, Published(p, served))
  {
    PublishedIsProper(lib, p, served);
    ClassPartIsStable(lib, secrets, p, served);
    PublishedIsLocated(p, served);
    ContextReadsBack(lib, remote, secrets, Published(p, served), first, second);
  }
}
