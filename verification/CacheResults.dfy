/** The results about the cache, for the keys that the clients really format. */
module CacheResults {
  import opened Wrappers
  import opened CacheKeys
  import opened CacheValues
  import opened Cache
  import Flights = CacheFlights
  import opened CacheItems

  // -- all clients -------------------------------------------------------------------------------

  /** Single flight: at any time at most one goroutine fetches for a key, whichever clients use it. */
  lemma OneFetchPerKey(cfg: Config, s: State, i: nat, r: Req, f: nat, j: nat, q: Req, g: nat)
    requires Reachable(cfg, s) && RealKeys(cfg) && i < |s.actors| && j < |s.actors|
    requires Flights.Leads(s.actors[i], r, f) && Flights.Leads(s.actors[j], q, g) && cfg.key(r) == cfg.key(q)
    ensures i == j && f == g && r == q
  {
    Flights.ReachableInv(cfg, s);
    Flights.LeadsOk(cfg, s, i, r, f);
    Flights.LeadsOk(cfg, s, j, q, g);
  }

  /** A new fetch for a key starts no earlier than the previous store plus its time to live. */
  lemma FetchesAreApart(cfg: Config, s: State, i: nat, j: nat)
    requires Reachable(cfg, s) && RealKeys(cfg) && i < j < |s.log| && s.log[i].key == s.log[j].key
    ensures s.log[i].at + s.log[i].ttl <= s.log[j].from <= s.log[j].at
  {
    Flights.ReachableInv(cfg, s);
  }

  /** `picks` are positions of stores of one key, in order, each with at least this time to live. */
  ghost predicate StoresOf(s: State, k: string, ttl: nat, picks: seq<nat>) {
    && (forall m :: 0 <= m < |picks| ==> picks[m] < |s.log| && s.log[picks[m]].key == k && ttl <= s.log[picks[m]].ttl)
    && (forall m, n :: 0 <= m < n < |picks| ==> picks[m] < picks[n])
  }

  lemma {:induction false} StoresSpread(cfg: Config, s: State, k: string, ttl: nat, picks: seq<nat>)
    requires Reachable(cfg, s) && RealKeys(cfg) && StoresOf(s, k, ttl, picks) && picks != []
    ensures s.log[picks[0]].at + (|picks| - 1) * ttl <= s.log[picks[|picks| - 1]].at
  {
    var n := |picks|;
    if n > 1 {
      StoresSpread(cfg, s, k, ttl, picks[..n - 1]);
      FetchesAreApart(cfg, s, picks[n - 2], picks[n - 1]);
      assert (n - 1) * ttl == (n - 2) * ttl + ttl;
    }
  }

  /** In any window of `length` seconds at most one more store of a key happens than times to live fit
      in. */
  lemma StoresInWindow(cfg: Config, s: State, k: string, ttl: nat, picks: seq<nat>, start: nat, length: nat)
    requires Reachable(cfg, s) && RealKeys(cfg) && StoresOf(s, k, ttl, picks) && ttl > 0
    requires forall m :: 0 <= m < |picks| ==> start <= s.log[picks[m]].at <= start + length
    ensures |picks| <= 1 + length / ttl
  {
    if picks != [] {
      StoresSpread(cfg, s, k, ttl, picks);
      FitsIn(|picks| - 1, ttl, length);
    }
  }

  lemma FitsIn(n: nat, ttl: nat, length: nat)
    requires ttl > 0 && n * ttl <= length
    ensures n <= length / ttl
  {
    var q := length / ttl;
    assert length < (q + 1) * ttl;
    assert (n - (q + 1)) * ttl < 0;
  }

  // -- nobody waits for ever ---------------------------------------------------------------------

  predicate IsStep(a: Action) { !a.Tick? && !a.Call? }

  /** A goroutine that does not wait can move. */
  lemma OwnMove(cfg: Config, s: State, i: nat) returns (a: Action)
    requires Flights.Inv(cfg, s) && At(s, i) && !s.actors[i].pc.Waiting?
    ensures IsStep(a) && Enabled(cfg, s, a)
  {
    var x := s.actors[i];
    assert Flights.ActorOk(cfg, s, i, x);
    match x.pc {
      case Checking => a := Check(i);
      case Joining => a := Join(i);
      case Rechecking(_) => a := Recheck(i);
      case Fetching(_, _) =>
        if Base(x.req).Some? {
          ListsAreBases(x);
          a := Descend(i);
        } else {
          a := Answer(i, Err);
        }
      case Resumed(_, _, _) => a := Resume(i);
      case Storing(_, _, _, _) => a := Store(i);
    }
  }

  lemma ListsAreBases(x: Actor)
    requires Inside(x) && Base(x.req).Some? && (x.Nested? ==> Base(x.outer) == Some(x.req))
    ensures x.Active?
  {
  }

  /** A key of a list that is also the key of a derived lookup is so for a client with a shorter prefix. */
  lemma ShorterPrefix(cfg: Config, list: Req, r: Req)
    requires RealKeys(cfg) && cfg.key(list) == cfg.key(r) && Base(list).None? && Base(r).Some?
    ensures |Prefix(r.client)| < |Prefix(list.client)|
  {
    var p, q := Prefix(list.client), Prefix(r.client);
    PrefixEndsWithDash(list.client);
    PrefixEndsWithDash(r.client);
    assert Clash(p, list.lookup, q, r.lookup);
    if |p| <= |q| {
      ClashOneWay(p, list.lookup, q, r.lookup);
    }
  }

  /** Whoever waits waits for someone who can move, or who waits for a list of a client with a shorter
      key prefix. */
  lemma {:induction false} WaitEnds(cfg: Config, s: State, i: nat) returns (a: Action)
    requires RealKeys(cfg) && Flights.Inv(cfg, s) && At(s, i) && Base(s.actors[i].req).None?
    ensures IsStep(a) && Enabled(cfg, s, a)
    decreases |Prefix(s.actors[i].req.client)|
  {
    var x := s.actors[i];
    assert Flights.ActorOk(cfg, s, i, x);
    if !x.pc.Waiting? {
      a := OwnMove(cfg, s, i);
    } else if s.flights[x.pc.flight].result.Some? {
      a := Wake(i);
    } else {
      var k := cfg.key(x.req);
      assert Flights.OpenOk(cfg, s, k);
      var r, j := s.flights[x.pc.flight].req, s.flights[x.pc.flight].leader;
      assert Flights.Leads(s.actors[j], r, x.pc.flight);
      if s.actors[j].pc.Waiting? {
        assert Flights.ActorOk(cfg, s, j, s.actors[j]);
        ShorterPrefix(cfg, x.req, r);
        a := WaitEnds(cfg, s, j);
      } else {
        a := OwnMove(cfg, s, j);
      }
    }
  }

  /** As long as some goroutine is inside a lookup, some goroutine can take a step: flights never
      wait for each other in a circle, whichever keys the clients share. */
  lemma NobodyWaitsForEver(cfg: Config, s: State, i: nat) returns (a: Action)
    requires Reachable(cfg, s) && RealKeys(cfg) && At(s, i)
    ensures IsStep(a) && Enabled(cfg, s, a)
  {
    Flights.ReachableInv(cfg, s);
    var x := s.actors[i];
    assert Flights.ActorOk(cfg, s, i, x);
    if !x.pc.Waiting? {
      a := OwnMove(cfg, s, i);
    } else if s.flights[x.pc.flight].result.Some? {
      a := Wake(i);
    } else {
      assert Flights.OpenOk(cfg, s, cfg.key(x.req));
      var j := s.flights[x.pc.flight].leader;
      if s.actors[j].pc.Waiting? {
        assert Flights.ActorOk(cfg, s, j, s.actors[j]);
        a := WaitEnds(cfg, s, j);
      } else {
        a := OwnMove(cfg, s, j);
      }
    }
  }
}
