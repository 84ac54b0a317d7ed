/** The context that CreateVolume publishes, entry by entry (plugin/kodo_controller_server.go:111-200). */
module PublishedContext {
  import opened Wrappers
  import opened Text
  import opened Fields
  import opened Parameters
  import V = VolumeContext

  function EntryOf(ctx: map<string, string>, key: string): Option<string> {
    if key in ctx then Some(ctx[key]) else None
  }

  /** How a value is published, if it is: a switch only when it is on, an option only when it is set. */
  ghost predicate Publishes(lib: Lib, kind: Kind, v: Val, entry: Option<string>) {
    match kind
    case TextKind => v.Txt? ==> entry == Some(v.text)
    case ModeKind => v.Mode? ==> entry == Some(v.mode)
    case FlagKind =>
      && (v == Bit(true) ==> entry == Some("true"))
      && (v == Bit(false) ==> entry == None)
    case BoolKind =>
      && (v == Bit(true) ==> entry == Some("true"))
      && (v == Bit(false) ==> entry == Some("false"))
      && (v == Nil ==> entry == None)
    case UintKind =>
      && (v == Nil ==> entry == None)
      && (v.Num? ==> entry.Some? && AllDigits(entry.value) && DecimalValue(entry.value) == v.num)
    case DurationKind =>
      && (v == Nil ==> entry == None)
      && (v.Span? ==> entry == Some(lib.printDuration(v.nanos)))
    case UrlKind =>
      && (v == Nil ==> entry == None)
      && (v.Link? ==> entry == Some(lib.printUrl(v.url)))
  }

  lemma EntryIsPrinted(lib: Lib, r: Rec, s: Slot)
    ensures EntryOf(V.Context(lib, r), FieldOf(s)) == V.Print(lib, s, Get(r, s))
  {
    if V.Print(lib, s, Get(r, s)).Some? {
      V.ContextHas(lib, r, s);
    } else if FieldOf(s) in V.Context(lib, r) {
      var t := V.ContextOnly(lib, r, FieldOf(s));
      FieldInjective(s, t);
    }
  }

  lemma PrintPublishes(lib: Lib, s: Slot, v: Val)
    requires V.Proper(s, v)
    ensures Publishes(lib, KindOf(s), v, V.Print(lib, s, v))
  {
    if v.Num? {
      FormatUintDigits(v.num);
    }
  }

  /** Every option of an accepted record is published under its own name as it should be. */
  lemma OptionPublished(lib: Lib, p: Rec, served: V.Served, s: Slot)
    requires V.Proper(s, Get(p, s)) && !IsVolumeSlot(s) && !s.AccessKey? && !s.SecretKey? && !s.Region?
    ensures Publishes(lib, KindOf(s), Get(p, s), EntryOf(V.Context(lib, V.Published(p, served)), FieldOf(s)))
  {
    V.AnswersOnly(p, served, s);
    EntryIsPrinted(lib, V.Published(p, served), s);
    PrintPublishes(lib, s, Get(p, s));
  }

  lemma AnswerPublished(lib: Lib, p: Rec, served: V.Served, s: Slot, v: Val)
    requires s in V.Answers(p, served) && V.Answers(p, served)[s] == v
    ensures EntryOf(V.Context(lib, V.Published(p, served)), FieldOf(s)) == V.Print(lib, s, v)
  {
    EntryIsPrinted(lib, V.Published(p, served), s);
  }

  function EntryAt(lib: Lib, p: Rec, served: V.Served, s: Slot): Option<string> {
    EntryOf(V.Context(lib, V.Published(p, served)), FieldOf(s))
  }

  lemma AnswerAt(lib: Lib, p: Rec, served: V.Served, s: Slot)
    requires Get(p, AccessKey).Txt? && Get(p, SecretKey).Txt?
    ensures
      match s
      case BucketId => EntryAt(lib, p, served, s) == Some(served.bucketId)
      case BucketName => EntryAt(lib, p, served, s) == Some(served.bucketName)
      case S3Endpoint => EntryAt(lib, p, served, s) == Some(lib.printUrl(served.s3Endpoint))
      case S3Region => EntryAt(lib, p, served, s) == Some(served.s3Region)
      case Region => EntryAt(lib, p, served, s) == Some(served.region)
      case AccessKey => EntryAt(lib, p, served, s) == Some(served.iamAccessKey)
      case SecretKey => EntryAt(lib, p, served, s) == Some(served.iamSecretKey)
      case OriginalAccessKey => EntryAt(lib, p, served, s) == Some(Get(p, AccessKey).text)
      case OriginalSecretKey => EntryAt(lib, p, served, s) == Some(Get(p, SecretKey).text)
      case _ => true
  {
    V.AnswersOnly(p, served, s);
    if s in V.Answers(p, served) {
      V.AnswerOf(p, served, s);
      AnswerPublished(lib, p, served, s, V.Answers(p, served)[s]);
    }
  }

  /** What the server answered is published for the volume, with the key pair of the IAM user as its keys
      and the account's own keys under the original names. */
  lemma AnswersPublished(lib: Lib, p: Rec, served: V.Served, s: Slot)
    requires Get(p, AccessKey).Txt? && Get(p, SecretKey).Txt?
    ensures
      var ctx := V.Context(lib, V.Published(p, served));
      match s
      case BucketId => EntryOf(ctx, "bucketid") == Some(served.bucketId)
      case BucketName => EntryOf(ctx, "bucketname") == Some(served.bucketName)
      case S3Endpoint => EntryOf(ctx, "s3endpoint") == Some(lib.printUrl(served.s3Endpoint))
      case S3Region => EntryOf(ctx, "s3region") == Some(served.s3Region)
      case Region => EntryOf(ctx, "region") == Some(served.region)
      case AccessKey => EntryOf(ctx, "accesskey") == Some(served.iamAccessKey)
      case SecretKey => EntryOf(ctx, "secretkey") == Some(served.iamSecretKey)
      case OriginalAccessKey => EntryOf(ctx, "originalaccesskey") == Some(Get(p, AccessKey).text)
      case OriginalSecretKey => EntryOf(ctx, "originalsecretkey") == Some(Get(p, SecretKey).text)
      case _ => true
  {
    NamesAreSpelled(s);
    AnswerAt(lib, p, served, s);
  }

  /** Nothing else is published. */
  lemma OnlyFieldsPublished(lib: Lib, p: Rec, served: V.Served, key: string)
    requires key in V.Context(lib, V.Published(p, served))
    ensures exists s: Slot :: FieldOf(s) == key
  {
    var s := V.ContextOnly(lib, V.Published(p, served), key);
  }
}
