/** The cache keys of the Kodo client (qiniu/kodo.go:696-945).  All cached lookups of all clients share
    one map, and a cached value is cast to the type its lookup expects, so everything rests on which
    keys can be equal. */
module CacheKeys {

  datatype Client = Client(accessKey: string, secretKey: string, ucUrl: string)

  datatype Lookup =
    | S3Endpoint(region: string)
    | RsEndpoint(region: string)
    | RsfEndpoint(region: string)
    | CentralApiEndpoint
    | S3RegionId(region: string)
    | Regions
    | BucketByName(bucket: string)
    | Buckets

  /** The Go type stored under a lookup's key. */
  datatype Kind = UrlKind | TextKind | RegionsKind | BucketKind | BucketsKind

  function KindOf(l: Lookup): Kind {
    match l
    case S3Endpoint(_) => UrlKind
    case RsEndpoint(_) => UrlKind
    case RsfEndpoint(_) => UrlKind
    case CentralApiEndpoint => UrlKind
    case S3RegionId(_) => TextKind
    case Regions => RegionsKind
    case BucketByName(_) => BucketKind
    case Buckets => BucketsKind
  }

  function Prefix(c: Client): string {
    "cacheKey-" + c.accessKey + "-" + c.secretKey + "-" + c.ucUrl + "-"
  }

  const S3_TAG := "s3Endpoint-"
  const RS_TAG := "rsEndpoint-"
  const RSF_TAG := "rsfEndpoint-"
  const S3_REGION_TAG := "s3RegionId-"
  const BUCKET_TAG := "bucketName-"

  function Suffix(l: Lookup): string {
    match l
    case S3Endpoint(r) => S3_TAG + r
    case RsEndpoint(r) => RS_TAG + r
    case RsfEndpoint(r) => RSF_TAG + r
    case CentralApiEndpoint => "centralApiEndpoint"
    case S3RegionId(r) => S3_REGION_TAG + r
    case Regions => "regions"
    case BucketByName(b) => BUCKET_TAG + b
    case Buckets => "buckets"
  }

  function Key(c: Client, l: Lookup): string { Prefix(c) + Suffix(l) }

  lemma Spell(p: string, tag: string, arg: string, text: string)
    requires "-" + tag == text
    ensures p + "-" + (tag + arg) == p + text + arg && p + "-" + tag == p + text
  {
    assert p + "-" + tag == p + ("-" + tag);
  }

  lemma Spellings()
    ensures "-" + S3_TAG == "-s3Endpoint-" && "-" + RS_TAG == "-rsEndpoint-" && "-" + RSF_TAG == "-rsfEndpoint-"
    ensures "-" + S3_REGION_TAG == "-s3RegionId-" && "-" + BUCKET_TAG == "-bucketName-"
    ensures "-" + Suffix(CentralApiEndpoint) == "-centralApiEndpoint"
    ensures "-" + Suffix(Regions) == "-regions" && "-" + Suffix(Buckets) == "-buckets"
  {
  }

  /** The keys as they are formatted. */
  lemma KeysAreFormatted(c: Client, x: string)
    ensures var p := "cacheKey-" + c.accessKey + "-" + c.secretKey + "-" + c.ucUrl;
            && Key(c, S3Endpoint(x)) == p + "-s3Endpoint-" + x
            && Key(c, RsEndpoint(x)) == p + "-rsEndpoint-" + x
            && Key(c, RsfEndpoint(x)) == p + "-rsfEndpoint-" + x
            && Key(c, CentralApiEndpoint) == p + "-centralApiEndpoint"
            && Key(c, S3RegionId(x)) == p + "-s3RegionId-" + x
            && Key(c, Regions) == p + "-regions"
            && Key(c, BucketByName(x)) == p + "-bucketName-" + x
            && Key(c, Buckets) == p + "-buckets"
  {
    var p := "cacheKey-" + c.accessKey + "-" + c.secretKey + "-" + c.ucUrl;
    Spellings();
    Spell(p, S3_TAG, x, "-s3Endpoint-");
    Spell(p, RS_TAG, x, "-rsEndpoint-");
    Spell(p, RSF_TAG, x, "-rsfEndpoint-");
    Spell(p, Suffix(CentralApiEndpoint), "", "-centralApiEndpoint");
    Spell(p, S3_REGION_TAG, x, "-s3RegionId-");
    Spell(p, Suffix(Regions), "", "-regions");
    Spell(p, BUCKET_TAG, x, "-bucketName-");
    Spell(p, Suffix(Buckets), "", "-buckets");
  }

  predicate Tagged(l: Lookup) { !l.CentralApiEndpoint? && !l.Regions? && !l.Buckets? }

  function Tag(l: Lookup): string
    requires Tagged(l)
  {
    match l
    case S3Endpoint(_) => S3_TAG
    case RsEndpoint(_) => RS_TAG
    case RsfEndpoint(_) => RSF_TAG
    case S3RegionId(_) => S3_REGION_TAG
    case BucketByName(_) => BUCKET_TAG
  }

  function Argument(l: Lookup): string
    requires Tagged(l)
  {
    if l.BucketByName? then l.bucket else l.region
  }

  function WithArgument(l: Lookup, arg: string): Lookup
    requires Tagged(l)
  {
    if l.BucketByName? then BucketByName(arg) else l.(region := arg)
  }

  /** Within one client, different lookups have different keys, for all region and bucket names. */
  lemma SuffixInjective(a: Lookup, b: Lookup)
    requires Suffix(a) == Suffix(b)
    ensures a == b
  {
    var s, t := Suffix(a), Suffix(b);
    assert s[0] == t[0] && s[1] == t[1] && s[2] == t[2] && s[6] == t[6];
    if Tagged(a) {
      assert Argument(a) == s[|Tag(a)|..];
    }
    if Tagged(b) {
      assert Argument(b) == t[|Tag(b)|..];
    }
  }

  lemma TagShape(l: Lookup)
    requires Tagged(l)
    ensures Suffix(l) == Tag(l) + Argument(l)
    ensures |Tag(l)| > 0 && Tag(l)[|Tag(l)| - 1] == '-'
    ensures forall i :: 0 <= i < |Tag(l)| - 1 ==> Tag(l)[i] != '-'
  {
  }

  lemma NoDash(l: Lookup)
    requires !Tagged(l)
    ensures forall i :: 0 <= i < |Suffix(l)| ==> Suffix(l)[i] != '-'
  {
  }

  ghost predicate StartsWithTag(d: string) {
    exists l :: Tagged(l) && Tag(l) <= d
  }

  /** One key prefix continues another one with the text of a lookup. */
  ghost predicate Extends(p: string, q: string) {
    p <= q && StartsWithTag(q[|p|..])
  }

  ghost predicate EndsWithDash(p: string) { p != "" && p[|p| - 1] == '-' }

  ghost predicate Clash(p: string, a: Lookup, q: string, b: Lookup) { p + Suffix(a) == q + Suffix(b) }

  lemma Align(p: string, x: string, q: string, y: string)
    requires p + x == q + y && |p| <= |q|
    ensures p <= q && x == q[|p|..] + y
  {
    var k := p + x;
    assert p == k[..|p|] && q == k[..|q|];
    assert x == k[|p|..] && y == k[|q|..];
  }

  lemma DashFindsTag(x: string, t: string, d: string, y: string)
    requires x == d + y && EndsWithDash(d)
    requires t <= x && (forall i :: 0 <= i < |t| - 1 ==> t[i] != '-')
    ensures t <= d
  {
    assert x[|d| - 1] == '-';
    assert t == x[..|t|];
    assert |t| <= |d| ==> t == d[..|t|];
  }

  lemma SuffixContinues(a: Lookup, d: string, y: string)
    requires Suffix(a) == d + y && EndsWithDash(d)
    ensures Tagged(a) && Tag(a) <= d
  {
    assert Suffix(a)[|d| - 1] == '-';
    if Tagged(a) {
      TagShape(a);
      DashFindsTag(Suffix(a), Tag(a), d, y);
    } else {
      NoDash(a);
    }
  }

  lemma ClashOneWay(p: string, a: Lookup, q: string, b: Lookup)
    requires EndsWithDash(p) && EndsWithDash(q) && |p| <= |q| && Clash(p, a, q, b)
    ensures (p == q && a == b) || (Extends(p, q) && Tagged(a))
  {
    var d := q[|p|..];
    Align(p, Suffix(a), q, Suffix(b));
    if d == "" {
      assert Suffix(a) == Suffix(b);
      SuffixInjective(a, b);
    } else {
      SuffixContinues(a, d, Suffix(b));
    }
  }

  /** Two prefixes share a key exactly when they are equal or one extends the other. */
  lemma ClashExactly(p: string, q: string)
    requires EndsWithDash(p) && EndsWithDash(q)
    ensures (exists a, b :: Clash(p, a, q, b)) <==> p == q || Extends(p, q) || Extends(q, p)
  {
    if a, b :| Clash(p, a, q, b) {
      if |p| <= |q| {
        ClashOneWay(p, a, q, b);
      } else {
        ClashOneWay(q, b, p, a);
      }
    }
    if p == q {
      assert Clash(p, Regions, q, Regions);
    }
    if Extends(p, q) {
      var a := ExtensionClashes(p, q, Regions);
      assert Clash(p, a, q, Regions);
    }
    if Extends(q, p) {
      var a := ExtensionClashes(q, p, Regions);
      assert Clash(p, Regions, q, a);
    }
  }

  /** An extended prefix clashes with a lookup of any kind, hence of a different type. */
  lemma ExtensionClashes(p: string, q: string, b: Lookup) returns (a: Lookup)
    requires Extends(p, q)
    ensures Tagged(a) && Clash(p, a, q, b)
  {
    var d := q[|p|..];
    var l :| Tagged(l) && Tag(l) <= d;
    var e := d[|Tag(l)|..];
    a := WithArgument(l, e + Suffix(b));
    TagShape(a);
    assert Tag(a) == Tag(l) && Argument(a) == e + Suffix(b);
    Reassociate(p, Tag(l), e, Suffix(b));
    assert q == p + (Tag(l) + e);
  }

  lemma Reassociate(p: string, t: string, e: string, y: string)
    ensures p + (t + (e + y)) == (p + (t + e)) + y
  {
  }

  ghost predicate Compatible(p: string, q: string) { !Extends(p, q) && !Extends(q, p) }

  lemma PrefixEndsWithDash(c: Client)
    ensures EndsWithDash(Prefix(c))
  {
  }

  lemma CompatibleInjective(p: string, a: Lookup, q: string, b: Lookup)
    requires EndsWithDash(p) && EndsWithDash(q) && Compatible(p, q) && Clash(p, a, q, b)
    ensures a == b && p == q
  {
    if |p| <= |q| {
      ClashOneWay(p, a, q, b);
    } else {
      ClashOneWay(q, b, p, a);
    }
  }

  lemma IncompatibleMixes(p: string, q: string) returns (a: Lookup, b: Lookup)
    requires !Compatible(p, q)
    ensures Clash(p, a, q, b) && KindOf(a) != KindOf(b)
  {
    if Extends(p, q) {
      a := ExtensionClashes(p, q, Regions);
      b := Regions;
    } else {
      b := ExtensionClashes(q, p, Regions);
      a := Regions;
    }
  }

  ghost predicate NeverMixed(p: string, q: string) {
    forall a, b :: Clash(p, a, q, b) ==> KindOf(a) == KindOf(b)
  }

  /** No type assertion on a cached value can fail between two clients exactly when neither key
      prefix extends the other. */
  lemma TypeSafeExactly(c: Client, d: Client)
    ensures NeverMixed(Prefix(c), Prefix(d)) <==> Compatible(Prefix(c), Prefix(d))
  {
    var p, q := Prefix(c), Prefix(d);
    PrefixEndsWithDash(c);
    PrefixEndsWithDash(d);
    if Compatible(p, q) {
      forall a, b | Clash(p, a, q, b)
        ensures KindOf(a) == KindOf(b)
      {
        CompatibleInjective(p, a, q, b);
      }
    } else {
      var a, b := IncompatibleMixes(p, q);
    }
  }

  /** The keys of compatible clients are equal only for the same lookup of the same prefix. */
  lemma KeysInjective(c: Client, a: Lookup, d: Client, b: Lookup)
    requires Compatible(Prefix(c), Prefix(d)) && Key(c, a) == Key(d, b)
    ensures a == b && Prefix(c) == Prefix(d)
  {
    PrefixEndsWithDash(c);
    PrefixEndsWithDash(d);
    CompatibleInjective(Prefix(c), a, Prefix(d), b);
  }

  /** Clients with the same credentials and endpoint are always compatible. */
  lemma SameClientCompatible(c: Client)
    ensures Compatible(Prefix(c), Prefix(c))
  {
    assert Prefix(c)[|Prefix(c)|..] == "";
  }

  /** Different clients need not be: here a region list is found where a URL is expected. */
  lemma ClientsMayClash()
    ensures var c := Client("ak", "sk", "http://uc");
            var d := Client("ak", "sk", "http://uc-s3Endpoint-x");
            && Key(c, S3Endpoint("x-regions")) == Key(d, Regions)
            && KindOf(S3Endpoint("x-regions")) != KindOf(Regions)
  {
  }

  /** And two accounts may even share all their keys. */
  lemma AccountsMayShareKeys(l: Lookup)
    ensures Key(Client("a-b", "c", "u"), l) == Key(Client("a", "b-c", "u"), l)
  {
    assert Prefix(Client("a-b", "c", "u")) == Prefix(Client("a", "b-c", "u"));
  }
}
