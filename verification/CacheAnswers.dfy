/** What a caller of a cached lookup gets: a value of the right type, not too old, and its own; and for
    which sets of clients that is so. */
module CacheAnswers {
  import opened Wrappers
  import opened CacheKeys
  import opened CacheValues
  import opened Cache
  import opened CacheItems
  import Flights = CacheFlights

  // -- types and ages ----------------------------------------------------------------------------

  /** No key prefix of a client continues that of another one. */
  ghost predicate AllCompatible(clients: set<Client>) {
    forall c, d :: c in clients && d in clients ==> Compatible(Prefix(c), Prefix(d))
  }

  lemma CompatibleIsKeyed(cfg: Config)
    requires RealKeys(cfg) && AllCompatible(cfg.clients)
    ensures LookupKeyed(cfg)
  {
    forall a: Req, b: Req | a.client in cfg.clients && b.client in cfg.clients && cfg.key(a) == cfg.key(b)
      ensures a.lookup == b.lookup
    {
      KeysInjective(a.client, a.lookup, b.client, b.lookup);
    }
  }

  /** The judge of types. */
  function Typed(): Judge { (r: Req, v: Value) => KindOfValue(v) == KindOf(r.lookup) }

  lemma TypesAreSound(cfg: Config)
    requires RealKeys(cfg) && AllCompatible(cfg.clients)
    ensures Sound(cfg, Typed())
  {
    CompatibleIsKeyed(cfg);
    forall r: Req, v: Value | r.client in cfg.clients && Base(r).Some? && Typed()(Base(r).value, v)
      ensures DerivesGood(cfg, Typed(), r, v)
    {
      DeriveKeepsKind(cfg.lib, r.client, r.lookup, v);
    }
  }

  lemma ReachableTyped(cfg: Config, s: State)
    requires Reachable(cfg, s) && RealKeys(cfg) && AllCompatible(cfg.clients)
    ensures LookupKeyed(cfg) && AllGood(cfg, Typed(), s)
  {
    TypesAreSound(cfg);
    ReachableGood(cfg, Typed(), s);
  }

  /** Every value that a caller gets has the type the caller casts it to, was stored by a successful
      fetch under the caller's key, and had not expired when it was last checked.  The clients may
      share keys: those with different credentials but equal prefixes do. */
  lemma ReturnedValueIsGenuine(cfg: Config, s: State, i: nat)
    requires Reachable(cfg, s) && RealKeys(cfg) && AllCompatible(cfg.clients)
    requires i < |s.actors| && s.actors[i].Done? && s.actors[i].outcome.Got?
    ensures var r, o := s.actors[i].req, s.actors[i].outcome;
            && KindOfValue(o.item.value) == KindOf(r.lookup)
            && o.item.store < |s.log|
            && s.log[o.item.store].key == cfg.key(r) && s.log[o.item.store].value == o.item.value
            && s.log[o.item.store].at <= o.seen < s.log[o.item.store].at + TtlOf(r)
            && o.seen <= s.now
  {
    ReachableTyped(cfg, s);
    assert ActorOk(cfg, Typed(), s, s.actors[i]);
  }

  /** Every store under a lookup's key holds for the lookup's time to live. */
  lemma StoresHold(cfg: Config, s: State, r: Req, j: nat)
    requires Reachable(cfg, s) && RealKeys(cfg) && AllCompatible(cfg.clients)
    requires r.client in cfg.clients && j < |s.log| && s.log[j].key == cfg.key(r)
    ensures s.log[j].ttl == TtlOf(r)
  {
    ReachableTyped(cfg, s);
  }

  /** The seconds for which a value is kept: a day, and a second for the list of buckets. */
  function Seconds(l: Lookup): nat {
    match l
    case Buckets => 1
    case _ => 86400
  }

  /** A lookup is answered from the cache exactly as long as a value was stored under its key less
      than a day ago, or less than a second ago for the list of buckets. */
  lemma FreshExactly(cfg: Config, s: State, r: Req)
    requires Reachable(cfg, s) && RealKeys(cfg) && AllCompatible(cfg.clients) && r.client in cfg.clients
    ensures Fresh(cfg, s, r) <==>
            exists j :: 0 <= j < |s.log| && s.log[j].key == cfg.key(r) && s.now < s.log[j].at + Seconds(r.lookup)
  {
    var k := cfg.key(r);
    LogIsOk(cfg, s);
    if k in s.cache {
      var last := LatestStore(s, k);
      StoresHold(cfg, s, r, last);
    }
  }

  lemma LogIsOk(cfg: Config, s: State)
    requires Reachable(cfg, s) && RealKeys(cfg)
    ensures Flights.LogOk(s)
  {
    Flights.ReachableInv(cfg, s);
  }

  /** An entry is that of the latest store under its key. */
  lemma LatestStore(s: State, k: string) returns (last: nat)
    requires Flights.LogOk(s) && k in s.cache
    ensures last < |s.log| && s.log[last].key == k && s.cache[k].deadline == s.log[last].at + s.log[last].ttl
    ensures forall j :: 0 <= j < |s.log| && s.log[j].key == k ==> s.log[j].at <= s.log[last].at
  {
    last := s.cache[k].item.store;
    assert Flights.LastStore(s, k);
    forall j | 0 <= j < |s.log| && s.log[j].key == k ensures s.log[j].at <= s.log[last].at {
      assert j <= last;
    }
  }

  /** Staleness adds up: a derived entry that is still fresh rests on a list stored less than both
      times to live ago, plus the time spent inside the flights that built the entry. */
  lemma StalenessBound(cfg: Config, s: State, r: Req)
    requires Reachable(cfg, s) && RealKeys(cfg) && AllCompatible(cfg.clients)
    requires r.client in cfg.clients && Fresh(cfg, s, r) && Base(r).Some?
    ensures var item := s.cache[cfg.key(r)].item;
            && item.since <= item.at
            && s.now < item.basis + TtlOf(r) + TtlOf(Base(r).value) + (item.at - item.since)
  {
    ReachableTyped(cfg, s);
    assert EntryOk(cfg, Typed(), s, cfg.key(r));
    assert s.cache[cfg.key(r)].req.lookup == r.lookup;
  }

  /** In numbers: 48 hours for endpoints and S3 regions, 24 hours and one second for buckets. */
  lemma StalenessInSeconds(cfg: Config, s: State, r: Req)
    requires Reachable(cfg, s) && RealKeys(cfg) && AllCompatible(cfg.clients)
    requires r.client in cfg.clients && Fresh(cfg, s, r) && Base(r).Some?
    ensures var item := s.cache[cfg.key(r)].item;
            && item.since <= item.at
            && s.now - item.basis < (if r.lookup.BucketByName? then 86401 else 172800) + (item.at - item.since)
  {
    StalenessBound(cfg, s, r);
  }

  // -- type assertions ---------------------------------------------------------------------------

  ghost predicate Rejects(r: Req, o: Outcome) { o.Got? && KindOfValue(o.item.value) != KindOf(r.lookup) }

  /** A type assertion on a cached value fails: that of a caller, or that on the list inside the fetch of
      a derived lookup. */
  ghost predicate Mistyped(s: State) {
    exists i :: 0 <= i < |s.actors| && MistypedActor(s.actors[i])
  }

  ghost predicate MistypedActor(a: Actor) {
    || (a.Done? && Rejects(a.req, a.outcome))
    || (a.Active? && a.pc.Resumed? && Base(a.req).Some? && Rejects(Base(a.req).value, a.pc.inner))
  }

  /** One goroutine is about to fetch a client's region list. */
  lemma StartFetch(cfg: Config, c: Client) returns (s: State)
    requires c in cfg.clients
    ensures Reachable(cfg, s) && |s.flights| == 1
    ensures |s.actors| == 1 && s.actors[0] == Active(Req(c, Regions), Fetching(0, s.now))
  {
    ReachInit(cfg, 1);
    var s0 := Init(1);
    ReachStep(cfg, s0, Call(0, Req(c, Regions)));
    var s1 := Do(cfg, s0, Call(0, Req(c, Regions)));
    ReachStep(cfg, s1, Check(0));
    var s2 := Do(cfg, s1, Check(0));
    ReachStep(cfg, s2, Join(0));
    var s3 := Do(cfg, s2, Join(0));
    ReachStep(cfg, s3, Recheck(0));
    s := Do(cfg, s3, Recheck(0));
  }

  function RegionsOf(cfg: Config, c: Client): seq<Region> {
    if cfg.worlds.Some? then cfg.worlds.value(c).regions else []
  }

  /** The list has been fetched and stored. */
  lemma FetchRegions(cfg: Config, c: Client) returns (s: State)
    requires c in cfg.clients
    ensures Reachable(cfg, s) && |s.actors| == 1 && !Inside(s.actors[0])
    ensures var k := cfg.key(Req(c, Regions));
            k in s.cache && s.now < s.cache[k].deadline && s.cache[k].item.value == RegionList(RegionsOf(cfg, c))
  {
    var list := RegionList(RegionsOf(cfg, c));
    var s4 := StartFetch(cfg, c);
    ReachStep(cfg, s4, Answer(0, Ok(list)));
    var s5 := Do(cfg, s4, Answer(0, Ok(list)));
    ReachStep(cfg, s5, Store(0));
    s := Do(cfg, s5, Store(0));
  }

  /** Another client with a clashing key is handed that list. */
  lemma HandedOver(cfg: Config, c: Client, l: Lookup, d: Client) returns (u: State)
    requires c in cfg.clients && d in cfg.clients && cfg.key(Req(c, l)) == cfg.key(Req(d, Regions))
    ensures Reachable(cfg, u) && |u.actors| == 1 && u.actors[0].Done? && u.actors[0].req == Req(c, l)
    ensures u.actors[0].outcome.Got? && u.actors[0].outcome.item.value == RegionList(RegionsOf(cfg, d))
  {
    var s := FetchRegions(cfg, d);
    ReachStep(cfg, s, Call(0, Req(c, l)));
    var t := Do(cfg, s, Call(0, Req(c, l)));
    ReachStep(cfg, t, Check(0));
    u := Do(cfg, t, Check(0));
  }

  /** Where a prefix continues another one, some derived lookup finds a region list. */
  lemma ClashFinds(cfg: Config, c: Client, d: Client) returns (x: Client, l: Lookup, y: Client)
    requires RealKeys(cfg) && c in cfg.clients && d in cfg.clients && !Compatible(Prefix(c), Prefix(d))
    ensures x in cfg.clients && y in cfg.clients && cfg.key(Req(x, l)) == cfg.key(Req(y, Regions)) && Tagged(l)
  {
    if Extends(Prefix(c), Prefix(d)) {
      x, y := c, d;
      l := ExtensionClashes(Prefix(c), Prefix(d), Regions);
    } else {
      x, y := d, c;
      l := ExtensionClashes(Prefix(d), Prefix(c), Regions);
    }
  }

  /** Type safety of whole runs: in no reachable state does a type assertion fail exactly when all pairs
      of clients are compatible. */
  lemma TypeSafeRunsExactly(cfg: Config)
    requires RealKeys(cfg)
    ensures (forall s :: Reachable(cfg, s) ==> !Mistyped(s)) <==> AllCompatible(cfg.clients)
  {
    if AllCompatible(cfg.clients) {
      forall s | Reachable(cfg, s) ensures !Mistyped(s) {
        ReachableTyped(cfg, s);
        forall i | 0 <= i < |s.actors| ensures !MistypedActor(s.actors[i]) {
          assert ActorOk(cfg, Typed(), s, s.actors[i]);
        }
      }
    } else {
      var c, d :| c in cfg.clients && d in cfg.clients && !Compatible(Prefix(c), Prefix(d));
      var x, l, y := ClashFinds(cfg, c, d);
      var u := HandedOver(cfg, x, l, y);
      assert MistypedActor(u.actors[0]);
    }
  }

  // -- cached and uncached -----------------------------------------------------------------------

  /** The judge of values, when the servers do not change. */
  ghost function Truthful(cfg: Config): Judge { (r: Req, v: Value) => Good(cfg, r, v) }

  lemma TruthIsSound(cfg: Config)
    requires WellKeyed(cfg)
    ensures Sound(cfg, Truthful(cfg))
  {
    forall r: Req, v: Value | r.client in cfg.clients && Base(r).Some? && Truthful(cfg)(Base(r).value, v)
      ensures DerivesGood(cfg, Truthful(cfg), r, v)
    {
      DeriveKeepsKind(cfg.lib, r.client, r.lookup, v);
    }
  }

  /** Every value that a caller got is what the uncached lookup returns. */
  ghost predicate AsUncached(cfg: Config, w: Client -> World, s: State) {
    forall i :: 0 <= i < |s.actors| && s.actors[i].Done? && s.actors[i].outcome.Got? ==>
                  var r := s.actors[i].req;
                  Uncached(cfg.lib, r.client, w(r.client), r.lookup) == Ok(s.actors[i].outcome.item.value)
  }

  function Fixed(cfg: Config, w: Client -> World): Config { cfg.(worlds := Some(w)) }

  /** With servers that do not change, cached lookups of these clients always return what the uncached
      ones return. */
  ghost predicate CacheIsInvisible(cfg: Config) {
    forall w, s :: Reachable(Fixed(cfg, w), s) ==> AsUncached(cfg, w, s)
  }

  lemma SeparateIsInvisible(cfg: Config, w: Client -> World, s: State)
    requires RealKeys(cfg) && Separate(cfg.clients) && Reachable(Fixed(cfg, w), s)
    ensures AsUncached(cfg, w, s)
  {
    var fixed := Fixed(cfg, w);
    SeparateIsWellKeyed(fixed);
    TruthIsSound(fixed);
    ReachableGood(fixed, Truthful(fixed), s);
    forall i | 0 <= i < |s.actors| && s.actors[i].Done? && s.actors[i].outcome.Got?
      ensures var r := s.actors[i].req;
              Uncached(cfg.lib, r.client, w(r.client), r.lookup) == Ok(s.actors[i].outcome.item.value)
    {
      assert ActorOk(fixed, Truthful(fixed), s, s.actors[i]);
    }
  }

  /** Two accounts with different lists and the same keys: one is handed the list of the other. */
  lemma SharedKeysShow(cfg: Config, c: Client, d: Client)
    requires RealKeys(cfg) && c in cfg.clients && d in cfg.clients && c != d && Prefix(c) == Prefix(d)
    ensures !CacheIsInvisible(cfg)
  {
    var one := [Region("", None, None, None, None)];
    var w := (x: Client) => if x == d then World(one, []) else World([], []);
    var u := HandedOver(Fixed(cfg, w), c, Regions, d);
    assert !AsUncached(cfg, w, u);
  }

  lemma ClashShows(cfg: Config, c: Client, d: Client)
    requires RealKeys(cfg) && c in cfg.clients && d in cfg.clients && !Compatible(Prefix(c), Prefix(d))
    ensures !CacheIsInvisible(cfg)
  {
    var w := (x: Client) => World([], []);
    var x, l, y := ClashFinds(cfg, c, d);
    var u := HandedOver(Fixed(cfg, w), x, l, y);
    assert !AsUncached(cfg, w, u);
  }

  /** The cache is invisible, with servers that do not change, exactly when different clients have
      compatible and different key prefixes. */
  lemma CacheIsInvisibleExactly(cfg: Config)
    requires RealKeys(cfg)
    ensures CacheIsInvisible(cfg) <==> Separate(cfg.clients)
  {
    if Separate(cfg.clients) {
      forall w, s | Reachable(Fixed(cfg, w), s) ensures AsUncached(cfg, w, s) {
        SeparateIsInvisible(cfg, w, s);
      }
    } else {
      var c, d :| c in cfg.clients && d in cfg.clients && c != d &&
                  !(Compatible(Prefix(c), Prefix(d)) && Prefix(c) != Prefix(d));
      if Prefix(c) == Prefix(d) {
        SharedKeysShow(cfg, c, d);
      } else {
        ClashShows(cfg, c, d);
      }
    }
  }
}
