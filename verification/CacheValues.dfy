/** What the Kodo client looks up, and how endpoints, S3 regions and buckets are derived from the
    region list and the bucket list (qiniu/kodo.go:706-860, 920-942). */
module CacheValues {
  import opened Wrappers
  import opened CacheKeys

  datatype Service = Service(s3RegionId: string, domains: seq<string>)

  datatype Region = Region(
    id: string, s3: Option<Service>, rs: Option<Service>, rsf: Option<Service>, api: Option<Service>)

  datatype Bucket = Bucket(id: string, name: string, region: string)

  /** A cached value; a nil pointer of its type is None. */
  datatype Value =
    | Url(url: Option<string>)
    | Text(text: Option<string>)
    | RegionList(regions: seq<Region>)
    | FoundBucket(found: Option<Bucket>)
    | BucketList(buckets: seq<Bucket>)

  function KindOfValue(v: Value): Kind {
    match v
    case Url(_) => UrlKind
    case Text(_) => TextKind
    case RegionList(_) => RegionsKind
    case FoundBucket(_) => BucketKind
    case BucketList(_) => BucketsKind
  }

  datatype Result = Ok(value: Value) | Err

  /** The parts of the URL library that matter: whether a text is a URL, and its scheme. */
  datatype UrlLib = UrlLib(valid: string -> bool, scheme: string -> string)

  function FindRegion(regions: seq<Region>, id: string): Option<Region> {
    if regions == [] then None
    else if regions[0].id == id then Some(regions[0])
    else FindRegion(regions[1..], id)
  }

  function FindBucket(buckets: seq<Bucket>, name: string): Option<Bucket> {
    if buckets == [] then None
    else if buckets[0].name == name then Some(buckets[0])
    else FindBucket(buckets[1..], name)
  }

  predicate HasScheme(s: string) {
    |s| >= 3 && (s[..3] == "://" || HasScheme(s[1..]))
  }

  /** The first domain of a service as a URL. */
  function Endpoint(lib: UrlLib, c: Client, service: Option<Service>): Result {
    if service.None? || service.value.domains == [] then Err
    else
      var domain := service.value.domains[0];
      var text := if HasScheme(domain) then domain else lib.scheme(c.ucUrl) + "://" + domain;
      if lib.valid(text) then Ok(Url(Some(text))) else Err
  }

  function RegionEndpoint(lib: UrlLib, c: Client, regions: seq<Region>, id: string,
                          pick: Region -> Option<Service>): Result {
    var r := FindRegion(regions, id);
    if r.None? then Ok(Url(None)) else Endpoint(lib, c, pick(r.value))
  }

  /** The list a lookup is derived from; None for the two lists themselves. */
  function BaseOf(l: Lookup): Option<Lookup> {
    match l
    case Regions => None
    case Buckets => None
    case BucketByName(_) => Some(Buckets)
    case _ => Some(Regions)
  }

  function Derive(lib: UrlLib, c: Client, l: Lookup, base: Value): Result {
    match l
    case Regions => Err
    case Buckets => Err
    case BucketByName(n) => if base.BucketList? then Ok(FoundBucket(FindBucket(base.buckets, n))) else Err
    case _ => if base.RegionList? then DeriveFromRegions(lib, c, l, base.regions) else Err
  }

  function DeriveFromRegions(lib: UrlLib, c: Client, l: Lookup, regions: seq<Region>): Result {
    match l
    case S3Endpoint(id) => RegionEndpoint(lib, c, regions, id, (r: Region) => r.s3)
    case RsEndpoint(id) => RegionEndpoint(lib, c, regions, id, (r: Region) => r.rs)
    case RsfEndpoint(id) => RegionEndpoint(lib, c, regions, id, (r: Region) => r.rsf)
    case CentralApiEndpoint => if regions == [] then Ok(Url(None)) else Endpoint(lib, c, regions[0].api)
    case S3RegionId(id) =>
      var r := FindRegion(regions, id);
      Ok(Text(if r.Some? && r.value.s3.Some? then Some(r.value.s3.value.s3RegionId) else None))
    case _ => Err
  }

  /** The seconds for which a lookup is cached. */
  function Ttl(l: Lookup): nat { if l.Buckets? then 1 else 24 * 3600 }

  lemma DeriveKeepsKind(lib: UrlLib, c: Client, l: Lookup, base: Value)
    ensures Derive(lib, c, l, base).Ok? ==> KindOfValue(Derive(lib, c, l, base).value) == KindOf(l)
  {
  }

  /** What one account's server holds. */
  datatype World = World(regions: seq<Region>, buckets: seq<Bucket>)

  /** The lookup without any cache. */
  function Uncached(lib: UrlLib, c: Client, w: World, l: Lookup): Result {
    match BaseOf(l)
    case Some(b) => Derive(lib, c, l, if b.Buckets? then BucketList(w.buckets) else RegionList(w.regions))
    case None => Ok(if l.Buckets? then BucketList(w.buckets) else RegionList(w.regions))
  }
}
