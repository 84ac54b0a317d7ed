/** What each lookup answers, told from the server's two lists alone (qiniu/kodo.go:706-942), and hence
    what cached lookups return. */
module CacheDerived {
  import opened Wrappers
  import opened Text
  import opened CacheKeys
  import opened CacheValues
  import opened Cache
  import A = CacheAnswers

  ghost predicate FirstRegion(regions: seq<Region>, id: string, i: nat) {
    i < |regions| && regions[i].id == id && forall j :: 0 <= j < i ==> regions[j].id != id
  }

  ghost predicate NoRegion(regions: seq<Region>, id: string) {
    forall j :: 0 <= j < |regions| ==> regions[j].id != id
  }

  ghost predicate FirstBucket(buckets: seq<Bucket>, name: string, i: nat) {
    i < |buckets| && buckets[i].name == name && forall j :: 0 <= j < i ==> buckets[j].name != name
  }

  ghost predicate NoBucket(buckets: seq<Bucket>, name: string) {
    forall j :: 0 <= j < |buckets| ==> buckets[j].name != name
  }

  /** A service answers with its first domain, under the scheme of the UC endpoint unless it has its
      own; without a domain, or when this is not a URL, the lookup fails. */
  ghost predicate ServiceAnswer(lib: UrlLib, c: Client, service: Option<Service>, r: Result) {
    if service.Some? && |service.value.domains| > 0 then
      exists text ::
        && (if Contains(service.value.domains[0], "://") then text == service.value.domains[0]
            else text == lib.scheme(c.ucUrl) + "://" + service.value.domains[0])
        && (if lib.valid(text) then r == Ok(Url(Some(text))) else r == Err)
    else r == Err
  }

  /** The answer to a lookup, from the lists that the server holds: regions and buckets are the first
      of that id or name, and one that is missing is not an error. */
  ghost predicate IsAnswer(lib: UrlLib, c: Client, w: World, l: Lookup, r: Result) {
    match l
    case S3Endpoint(id) =>
      && (NoRegion(w.regions, id) ==> r == Ok(Url(None)))
      && (forall i: nat :: FirstRegion(w.regions, id, i) ==> ServiceAnswer(lib, c, w.regions[i].s3, r))
    case RsEndpoint(id) =>
      && (NoRegion(w.regions, id) ==> r == Ok(Url(None)))
      && (forall i: nat :: FirstRegion(w.regions, id, i) ==> ServiceAnswer(lib, c, w.regions[i].rs, r))
    case RsfEndpoint(id) =>
      && (NoRegion(w.regions, id) ==> r == Ok(Url(None)))
      && (forall i: nat :: FirstRegion(w.regions, id, i) ==> ServiceAnswer(lib, c, w.regions[i].rsf, r))
    case CentralApiEndpoint =>
      if |w.regions| == 0 then r == Ok(Url(None)) else ServiceAnswer(lib, c, w.regions[0].api, r)
    case S3RegionId(id) =>
      && (NoRegion(w.regions, id) ==> r == Ok(Text(None)))
      && (forall i: nat :: FirstRegion(w.regions, id, i) ==>
            if w.regions[i].s3.None? then r == Ok(Text(None))
            else r == Ok(Text(Some(w.regions[i].s3.value.s3RegionId))))
    case Regions => r == Ok(RegionList(w.regions))
    case BucketByName(name) =>
      && (NoBucket(w.buckets, name) ==> r == Ok(FoundBucket(None)))
      && (forall i: nat :: FirstBucket(w.buckets, name, i) ==> r == Ok(FoundBucket(Some(w.buckets[i]))))
    case Buckets => r == Ok(BucketList(w.buckets))
  }

  // -- searching ---------------------------------------------------------------------------------

  lemma {:induction false} RegionSearch(regions: seq<Region>, id: string) returns (i: nat)
    ensures if FindRegion(regions, id).None? then NoRegion(regions, id)
            else FirstRegion(regions, id, i) && FindRegion(regions, id) == Some(regions[i])
  {
    i := 0;
    if regions != [] && regions[0].id != id {
      var rest := regions[1..];
      assert forall k :: 0 < k < |regions| ==> regions[k] == rest[k - 1];
      i := RegionSearch(rest, id);
      i := i + 1;
    }
  }

  lemma {:induction false} BucketSearch(buckets: seq<Bucket>, name: string) returns (i: nat)
    ensures if FindBucket(buckets, name).None? then NoBucket(buckets, name)
            else FirstBucket(buckets, name, i) && FindBucket(buckets, name) == Some(buckets[i])
  {
    i := 0;
    if buckets != [] && buckets[0].name != name {
      var rest := buckets[1..];
      assert forall k :: 0 < k < |buckets| ==> buckets[k] == rest[k - 1];
      i := BucketSearch(rest, name);
      i := i + 1;
    }
  }

  lemma OneFirst(regions: seq<Region>, id: string, i: nat, j: nat)
    requires FirstRegion(regions, id, i) && FirstRegion(regions, id, j)
    ensures i == j
  {
  }

  lemma OneFirstBucket(buckets: seq<Bucket>, name: string, i: nat, j: nat)
    requires FirstBucket(buckets, name, i) && FirstBucket(buckets, name, j)
    ensures i == j
  {
  }

  lemma {:induction false} SchemeIsContained(s: string)
    ensures HasScheme(s) <==> Contains(s, "://")
  {
    if |s| < 3 {
      assert forall i :: 0 <= i <= |s| ==> |s[i..]| < 3;
    } else if s[..3] == "://" {
      assert "://" <= s[0..];
    } else {
      SchemeIsContained(s[1..]);
      if Contains(s, "://") {
        var i :| 0 <= i <= |s| && "://" <= s[i..];
        assert i > 0;
        assert s[1..][i - 1..] == s[i..];
      }
      if Contains(s[1..], "://") {
        var i :| 0 <= i <= |s[1..]| && "://" <= s[1..][i..];
        assert s[1..][i..] == s[i + 1..];
      }
    }
  }

  lemma EndpointAnswers(lib: UrlLib, c: Client, service: Option<Service>)
    ensures ServiceAnswer(lib, c, service, Endpoint(lib, c, service))
  {
    if service.Some? && service.value.domains != [] {
      SchemeIsContained(service.value.domains[0]);
    }
  }

  lemma ServiceAnswersOnce(lib: UrlLib, c: Client, service: Option<Service>, r: Result)
    requires ServiceAnswer(lib, c, service, r)
    ensures r == Endpoint(lib, c, service)
  {
    EndpointAnswers(lib, c, service);
  }

  // -- the answers -------------------------------------------------------------------------------

  lemma RegionAnswers(lib: UrlLib, c: Client, w: World, id: string)
    ensures IsAnswer(lib, c, w, S3Endpoint(id), Uncached(lib, c, w, S3Endpoint(id)))
    ensures IsAnswer(lib, c, w, RsEndpoint(id), Uncached(lib, c, w, RsEndpoint(id)))
    ensures IsAnswer(lib, c, w, RsfEndpoint(id), Uncached(lib, c, w, RsfEndpoint(id)))
    ensures IsAnswer(lib, c, w, S3RegionId(id), Uncached(lib, c, w, S3RegionId(id)))
  {
    var i := RegionSearch(w.regions, id);
    if FindRegion(w.regions, id).Some? {
      EndpointAnswers(lib, c, w.regions[i].s3);
      EndpointAnswers(lib, c, w.regions[i].rs);
      EndpointAnswers(lib, c, w.regions[i].rsf);
      forall j: nat | FirstRegion(w.regions, id, j) ensures i == j {
        OneFirst(w.regions, id, i, j);
      }
    }
  }

  lemma UncachedAnswers(lib: UrlLib, c: Client, w: World, l: Lookup)
    ensures IsAnswer(lib, c, w, l, Uncached(lib, c, w, l))
  {
    match l
    case CentralApiEndpoint =>
      if w.regions != [] {
        EndpointAnswers(lib, c, w.regions[0].api);
      }
    case BucketByName(name) =>
      var i := BucketSearch(w.buckets, name);
      if FindBucket(w.buckets, name).Some? {
        forall j: nat | FirstBucket(w.buckets, name, j) ensures i == j {
          OneFirstBucket(w.buckets, name, i, j);
        }
      }
    case Regions =>
    case Buckets =>
    case _ => RegionAnswers(lib, c, w, l.region);
  }

  lemma AnswerIsUnique(lib: UrlLib, c: Client, w: World, l: Lookup, r: Result)
    requires IsAnswer(lib, c, w, l, r)
    ensures r == Uncached(lib, c, w, l)
  {
    match l
    case CentralApiEndpoint =>
      if w.regions != [] {
        ServiceAnswersOnce(lib, c, w.regions[0].api, r);
      }
    case BucketByName(name) => var i := BucketSearch(w.buckets, name);
    case Regions =>
    case Buckets =>
    case _ =>
      var i := RegionSearch(w.regions, l.region);
      if FindRegion(w.regions, l.region).Some? {
        RegionAnswerIsUnique(lib, c, w, l, r, i);
      }
  }

  lemma RegionAnswerIsUnique(lib: UrlLib, c: Client, w: World, l: Lookup, r: Result, i: nat)
    requires !l.CentralApiEndpoint? && !l.BucketByName? && !l.Regions? && !l.Buckets? && IsAnswer(lib, c, w, l, r)
    requires FirstRegion(w.regions, l.region, i) && FindRegion(w.regions, l.region) == Some(w.regions[i])
    ensures r == Uncached(lib, c, w, l)
  {
    match l
    case S3Endpoint(_) => ServiceAnswersOnce(lib, c, w.regions[i].s3, r);
    case RsEndpoint(_) => ServiceAnswersOnce(lib, c, w.regions[i].rs, r);
    case RsfEndpoint(_) => ServiceAnswersOnce(lib, c, w.regions[i].rsf, r);
    case S3RegionId(_) =>
  }

  /** The uncached lookups give exactly these answers. */
  lemma AnswersExactly(lib: UrlLib, c: Client, w: World, l: Lookup, r: Result)
    ensures Uncached(lib, c, w, l) == r <==> IsAnswer(lib, c, w, l, r)
  {
    UncachedAnswers(lib, c, w, l);
    if IsAnswer(lib, c, w, l, r) {
      AnswerIsUnique(lib, c, w, l, r);
    }
  }

  /** And so do the cached ones, in every run, when the servers do not change and clients do not share
      keys. */
  lemma CachedAnswers(cfg: Config, w: Client -> World, s: State, i: nat)
    requires RealKeys(cfg) && Separate(cfg.clients) && Reachable(A.Fixed(cfg, w), s)
    requires i < |s.actors| && s.actors[i].Done? && s.actors[i].outcome.Got?
    ensures var r := s.actors[i].req;
            IsAnswer(cfg.lib, r.client, w(r.client), r.lookup, Ok(s.actors[i].outcome.item.value))
  {
    A.SeparateIsInvisible(cfg, w, s);
    var r := s.actors[i].req;
    UncachedAnswers(cfg.lib, r.client, w(r.client), r.lookup);
  }
}
