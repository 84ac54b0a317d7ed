/** What cached values are good for.  A judge says which values may be returned for a lookup; if it
    treats lookups with the same key alike, accepts what the server answers, and lets good lists make
    good derived values, then in every run every cached, published and returned value is good. */
module CacheItems {
  import opened Wrappers
  import opened CacheKeys
  import opened CacheValues
  import opened Cache

  type Judge = (Req, Value) -> bool

  /** Equal keys belong to the same lookup, though perhaps of different clients. */
  ghost predicate LookupKeyed(cfg: Config) {
    forall a: Req, b: Req ::
      a.client in cfg.clients && b.client in cfg.clients && cfg.key(a) == cfg.key(b) ==> a.lookup == b.lookup
  }

  ghost predicate Sound(cfg: Config, good: Judge) {
    && LookupKeyed(cfg)
    && (forall a: Req, b: Req, v: Value ::
          a.client in cfg.clients && b.client in cfg.clients && cfg.key(a) == cfg.key(b) ==> good(a, v) == good(b, v))
    && (forall r: Req, v: Value :: r.client in cfg.clients && Base(r).None? && Good(cfg, r, v) ==> good(r, v))
    && (forall r: Req, v: Value ::
          r.client in cfg.clients && Base(r).Some? && good(Base(r).value, v) ==> DerivesGood(cfg, good, r, v))
  }

  ghost predicate DerivesGood(cfg: Config, good: Judge, r: Req, base: Value) {
    var d := Derive(cfg.lib, r.client, r.lookup, base);
    d.Ok? ==> good(r, d.value)
  }

  // -- what every step keeps ---------------------------------------------------------------------

  /** The item is good, is the one that was stored under the key, and, when derived, rests on a list
      that was fresh. */
  ghost predicate ItemOk(cfg: Config, good: Judge, s: State, r: Req, item: Item) {
    && good(r, item.value)
    && item.store < |s.log| && s.log[item.store].key == cfg.key(r) && s.log[item.store].value == item.value
    && s.log[item.store].at == item.at && item.at <= s.now
    && match Base(r)
       case None => item.basis == item.at
       case Some(b) =>
         && item.basis <= item.checked <= item.at
         && item.checked < item.basis + TtlOf(b) && item.since <= item.checked
  }

  /** The item was unexpired when it was last checked. */
  ghost predicate OutcomeOk(cfg: Config, good: Judge, s: State, r: Req, o: Outcome) {
    o.Got? ==>
      && ItemOk(cfg, good, s, r, o.item)
      && o.item.at <= o.seen <= s.now && o.seen < o.item.at + TtlOf(r) && o.joined <= o.seen
  }

  ghost predicate EntryOk(cfg: Config, good: Judge, s: State, k: string)
    requires k in s.cache
  {
    var e := s.cache[k];
    && cfg.key(e.req) == k && e.req.client in cfg.clients
    && ItemOk(cfg, good, s, e.req, e.item) && e.deadline == e.item.at + TtlOf(e.req)
  }

  ghost predicate FlightOk(cfg: Config, good: Judge, s: State, f: Flight) {
    && f.req.client in cfg.clients && f.started <= s.now
    && (f.result.Some? ==> OutcomeOk(cfg, good, s, f.req, f.result.value))
  }

  /** The value rests on a good list if it is derived. */
  ghost predicate InnerOk(cfg: Config, good: Judge, s: State, r: Req, inner: Outcome) {
    match Base(r)
    case None => inner.Failed?
    case Some(b) => inner.Got? && OutcomeOk(cfg, good, s, b, inner)
  }

  ghost predicate PcOk(cfg: Config, good: Judge, s: State, r: Req, pc: Pc) {
    match pc
    case Checking => true
    case Joining => true
    case Waiting(f) => Boards(cfg, s, r, f)
    case Rechecking(f) => Boards(cfg, s, r, f)
    case Fetching(f, _) => Boards(cfg, s, r, f)
    case Resumed(f, _, inner) =>
      Boards(cfg, s, r, f) && Base(r).Some? && OutcomeOk(cfg, good, s, Base(r).value, inner)
    case Storing(f, _, v, inner) => Boards(cfg, s, r, f) && good(r, v) && InnerOk(cfg, good, s, r, inner)
  }

  ghost predicate ActorOk(cfg: Config, good: Judge, s: State, a: Actor) {
    match a
    case Outside => true
    case Done(r, o) => r.client in cfg.clients && OutcomeOk(cfg, good, s, r, o)
    case Active(r, pc) => r.client in cfg.clients && PcOk(cfg, good, s, r, pc)
    case Nested(outer, f, _, r, pc) =>
      && outer.client in cfg.clients && Base(outer) == Some(r) && Boards(cfg, s, outer, f)
      && PcOk(cfg, good, s, r, pc)
  }

  ghost predicate CacheOk(cfg: Config, good: Judge, s: State) {
    forall k :: k in s.cache ==> EntryOk(cfg, good, s, k)
  }

  ghost predicate FlightsOk(cfg: Config, good: Judge, s: State) {
    forall f :: 0 <= f < |s.flights| ==> FlightOk(cfg, good, s, s.flights[f])
  }

  ghost predicate OpensOk(cfg: Config, s: State) {
    forall k :: k in s.open ==> s.open[k] < |s.flights| && cfg.key(s.flights[s.open[k]].req) == k
  }

  ghost predicate ActorsOk(cfg: Config, good: Judge, s: State) {
    forall i :: 0 <= i < |s.actors| ==> ActorOk(cfg, good, s, s.actors[i])
  }

  /** Stores hold for as long as their lookup says. */
  ghost predicate TtlsOk(cfg: Config, s: State) {
    forall j, r: Req :: 0 <= j < |s.log| && r.client in cfg.clients && cfg.key(r) == s.log[j].key ==>
                          s.log[j].ttl == TtlOf(r)
  }

  ghost predicate AllGood(cfg: Config, good: Judge, s: State) {
    && CacheOk(cfg, good, s) && FlightsOk(cfg, good, s) && OpensOk(cfg, s) && ActorsOk(cfg, good, s)
    && TtlsOk(cfg, s)
  }

  /** Time passes, stores are recorded, and flights keep their requests. */
  ghost predicate Later(s: State, t: State) {
    && s.now <= t.now && s.log <= t.log && |s.flights| <= |t.flights|
    && forall f :: 0 <= f < |s.flights| ==> t.flights[f].req == s.flights[f].req
  }

  lemma OutcomeLater(cfg: Config, good: Judge, s: State, t: State, r: Req, o: Outcome)
    requires OutcomeOk(cfg, good, s, r, o) && s.now <= t.now && s.log <= t.log
    ensures OutcomeOk(cfg, good, t, r, o)
  {
  }

  /** Whoever has the same key gets as good an outcome. */
  lemma OutcomeShared(cfg: Config, good: Judge, s: State, a: Req, b: Req, o: Outcome)
    requires Sound(cfg, good) && a.client in cfg.clients && b.client in cfg.clients && cfg.key(a) == cfg.key(b)
    requires OutcomeOk(cfg, good, s, a, o)
    ensures OutcomeOk(cfg, good, s, b, o)
  {
    assert a.lookup == b.lookup;
    if o.Got? {
      assert good(a, o.item.value) == good(b, o.item.value);
    }
  }

  lemma PcLater(cfg: Config, good: Judge, s: State, t: State, r: Req, pc: Pc)
    requires PcOk(cfg, good, s, r, pc) && Later(s, t)
    ensures PcOk(cfg, good, t, r, pc)
  {
    if pc.Resumed? {
      OutcomeLater(cfg, good, s, t, Base(r).value, pc.inner);
    } else if pc.Storing? && Base(r).Some? {
      OutcomeLater(cfg, good, s, t, Base(r).value, pc.inner);
    }
  }

  lemma ActorLater(cfg: Config, good: Judge, s: State, t: State, a: Actor)
    requires ActorOk(cfg, good, s, a) && Later(s, t)
    ensures ActorOk(cfg, good, t, a)
  {
    if a.Done? {
      OutcomeLater(cfg, good, s, t, a.req, a.outcome);
    } else if Inside(a) {
      PcLater(cfg, good, s, t, a.req, a.pc);
    }
  }

  /** One actor changes, and a flight may end or begin. */
  lemma ActorsStep(cfg: Config, good: Judge, s: State, t: State, i: nat)
    requires ActorsOk(cfg, good, s) && Later(s, t) && i < |s.actors| == |t.actors|
    requires ActorOk(cfg, good, t, t.actors[i])
    requires forall j :: 0 <= j < |s.actors| && j != i ==> t.actors[j] == s.actors[j]
    ensures ActorsOk(cfg, good, t)
  {
    forall j | 0 <= j < |t.actors| ensures ActorOk(cfg, good, t, t.actors[j]) {
      if j != i {
        ActorLater(cfg, good, s, t, s.actors[j]);
      }
    }
  }

  lemma CacheLater(cfg: Config, good: Judge, s: State, t: State)
    requires CacheOk(cfg, good, s) && Later(s, t) && t.cache == s.cache
    ensures CacheOk(cfg, good, t)
  {
    forall k | k in t.cache ensures EntryOk(cfg, good, t, k) {
      assert EntryOk(cfg, good, s, k);
    }
  }

  lemma FlightsLater(cfg: Config, good: Judge, s: State, t: State)
    requires FlightsOk(cfg, good, s) && Later(s, t) && t.flights == s.flights
    ensures FlightsOk(cfg, good, t)
  {
    forall f | 0 <= f < |t.flights| ensures FlightOk(cfg, good, t, t.flights[f]) {
      assert FlightOk(cfg, good, s, s.flights[f]);
    }
  }

  /** A fresh entry is a good outcome for everyone who has its key. */
  lemma HitIsOk(cfg: Config, good: Judge, s: State, r: Req, joined: nat)
    requires Sound(cfg, good) && CacheOk(cfg, good, s) && r.client in cfg.clients && Fresh(cfg, s, r)
    requires joined <= s.now
    ensures OutcomeOk(cfg, good, s, r, Got(s.cache[cfg.key(r)].item, s.now, joined))
  {
    assert EntryOk(cfg, good, s, cfg.key(r));
    OutcomeShared(cfg, good, s, s.cache[cfg.key(r)].req, r, Got(s.cache[cfg.key(r)].item, s.now, joined));
  }

  lemma ReturnIsOk(cfg: Config, good: Judge, s: State, a: Actor, o: Outcome)
    requires Inside(a) && ActorOk(cfg, good, s, a) && OutcomeOk(cfg, good, s, a.req, o)
    ensures ActorOk(cfg, good, s, Return(a, o))
  {
  }

  // -- steps -------------------------------------------------------------------------------------

  /** Nothing but one actor changes. */
  lemma QuietStep(cfg: Config, good: Judge, s: State, i: nat, a: Actor)
    requires AllGood(cfg, good, s) && i < |s.actors| && ActorOk(cfg, good, s, a)
    ensures AllGood(cfg, good, s.(actors := s.actors[i := a]))
  {
    var t := s.(actors := s.actors[i := a]);
    assert ActorOk(cfg, good, t, a) by {
      ActorLater(cfg, good, s, t, a);
    }
    ActorsStep(cfg, good, s, t, i);
    CacheLater(cfg, good, s, t);
    FlightsLater(cfg, good, s, t);
  }

  lemma TickStep(cfg: Config, good: Judge, s: State, seconds: nat)
    requires AllGood(cfg, good, s)
    ensures AllGood(cfg, good, s.(now := s.now + seconds))
  {
    var t := s.(now := s.now + seconds);
    CacheLater(cfg, good, s, t);
    FlightsLater(cfg, good, s, t);
    forall i | 0 <= i < |t.actors| ensures ActorOk(cfg, good, t, t.actors[i]) {
      ActorLater(cfg, good, s, t, s.actors[i]);
    }
  }

  lemma TakeOff(cfg: Config, good: Judge, s: State, i: nat)
    requires AllGood(cfg, good, s) && At(s, i) && s.actors[i].pc.Joining? && cfg.key(s.actors[i].req) !in s.open
    ensures AllGood(cfg, good, Do(cfg, s, Join(i)))
  {
    var t := Do(cfg, s, Join(i));
    var r := s.actors[i].req;
    assert ActorOk(cfg, good, s, s.actors[i]);
    assert Later(s, t) && Boards(cfg, t, r, |s.flights|);
    ActorsStep(cfg, good, s, t, i);
    CacheLater(cfg, good, s, t);
    forall f | 0 <= f < |t.flights| ensures FlightOk(cfg, good, t, t.flights[f]) {
      assert f < |s.flights| ==> FlightOk(cfg, good, s, s.flights[f]);
    }
  }

  lemma LandFlights(cfg: Config, good: Judge, s: State, t: State, f: nat, o: Outcome)
    requires FlightsOk(cfg, good, s) && f < |s.flights| && Later(s, t)
    requires t.flights == s.flights[f := s.flights[f].(result := Some(o))]
    requires OutcomeOk(cfg, good, t, s.flights[f].req, o)
    ensures FlightsOk(cfg, good, t)
  {
    forall g | 0 <= g < |t.flights| ensures FlightOk(cfg, good, t, t.flights[g]) {
      assert FlightOk(cfg, good, s, s.flights[g]);
      if g != f && s.flights[g].result.Some? {
        OutcomeLater(cfg, good, s, t, s.flights[g].req, s.flights[g].result.value);
      }
    }
  }

  /** The leader's function returns. */
  lemma LandStep(cfg: Config, good: Judge, s: State, i: nat, o: Outcome)
    requires Sound(cfg, good) && AllGood(cfg, good, s) && At(s, i) && Leading(s.actors[i].pc)
    requires s.actors[i].pc.flight < |s.flights| && OutcomeOk(cfg, good, s, s.actors[i].req, o)
    ensures AllGood(cfg, good, Finish(cfg, s, i, o))
  {
    var t, a := Finish(cfg, s, i, o), s.actors[i];
    var f := a.pc.flight;
    assert ActorOk(cfg, good, s, a) && FlightOk(cfg, good, s, s.flights[f]);
    assert Later(s, t);
    LandActor(cfg, good, s, t, i, o);
    CacheLater(cfg, good, s, t);
    OutcomeShared(cfg, good, s, a.req, s.flights[f].req, o);
    OutcomeLater(cfg, good, s, t, s.flights[f].req, o);
    LandFlights(cfg, good, s, t, f, o);
  }

  lemma LandActor(cfg: Config, good: Judge, s: State, t: State, i: nat, o: Outcome)
    requires ActorsOk(cfg, good, s) && Later(s, t) && At(s, i) && OutcomeOk(cfg, good, s, s.actors[i].req, o)
    requires t.actors == s.actors[i := Return(s.actors[i], o)]
    ensures ActorsOk(cfg, good, t)
  {
    var a := s.actors[i];
    assert ActorOk(cfg, good, s, a);
    ReturnIsOk(cfg, good, s, a, o);
    ActorLater(cfg, good, s, t, Return(a, o));
    ActorsStep(cfg, good, s, t, i);
  }

  lemma PutStep(cfg: Config, good: Judge, s: State, i: nat)
    requires Sound(cfg, good) && AllGood(cfg, good, s) && At(s, i) && s.actors[i].pc.Storing?
    requires s.actors[i].pc.flight < |s.flights|
    ensures var t := Put(cfg, s, s.actors[i].req, s.actors[i].pc);
            && AllGood(cfg, good, t)
            && OutcomeOk(cfg, good, t, s.actors[i].req,
                         Got(NewItem(s, s.actors[i].pc), s.now, s.flights[s.actors[i].pc.flight].started))
  {
    var r, pc := s.actors[i].req, s.actors[i].pc;
    var t := Put(cfg, s, r, pc);
    assert ActorOk(cfg, good, s, s.actors[i]);
    assert t.log[|s.log|] == StoreRec(cfg.key(r), pc.value, pc.from, s.now, TtlOf(r));
    forall k | k in t.cache ensures EntryOk(cfg, good, t, k) {
      assert k != cfg.key(r) ==> EntryOk(cfg, good, s, k);
    }
    FlightsLater(cfg, good, s, t);
    forall j | 0 <= j < |t.actors| ensures ActorOk(cfg, good, t, t.actors[j]) {
      ActorLater(cfg, good, s, t, s.actors[j]);
    }
  }

  lemma WakeStep(cfg: Config, good: Judge, s: State, i: nat)
    requires Sound(cfg, good) && AllGood(cfg, good, s) && Enabled(cfg, s, Wake(i))
    ensures AllGood(cfg, good, Do(cfg, s, Wake(i)))
  {
    var a := s.actors[i];
    assert ActorOk(cfg, good, s, a);
    var f := s.flights[a.pc.flight];
    assert FlightOk(cfg, good, s, f);
    ReturnIsOk(cfg, good, s, a, f.result.value);
    QuietStep(cfg, good, s, i, Return(a, f.result.value));
  }

  lemma CheckStep(cfg: Config, good: Judge, s: State, i: nat)
    requires Sound(cfg, good) && AllGood(cfg, good, s) && Enabled(cfg, s, Check(i))
    ensures AllGood(cfg, good, Do(cfg, s, Check(i)))
  {
    var a := s.actors[i];
    assert ActorOk(cfg, good, s, a);
    if Fresh(cfg, s, a.req) {
      var o := Got(s.cache[cfg.key(a.req)].item, s.now, s.now);
      HitIsOk(cfg, good, s, a.req, s.now);
      ReturnIsOk(cfg, good, s, a, o);
      QuietStep(cfg, good, s, i, Return(a, o));
    } else {
      QuietStep(cfg, good, s, i, WithPc(a, Joining));
    }
  }

  lemma RecheckStep(cfg: Config, good: Judge, s: State, i: nat)
    requires Sound(cfg, good) && AllGood(cfg, good, s) && Enabled(cfg, s, Recheck(i))
    ensures AllGood(cfg, good, Do(cfg, s, Recheck(i)))
  {
    var a := s.actors[i];
    assert ActorOk(cfg, good, s, a);
    var f := a.pc.flight;
    if Fresh(cfg, s, a.req) {
      HitIsOk(cfg, good, s, a.req, s.flights[f].started);
      LandStep(cfg, good, s, i, Got(s.cache[cfg.key(a.req)].item, s.now, s.flights[f].started));
    } else {
      QuietStep(cfg, good, s, i, WithPc(a, Fetching(f, s.now)));
    }
  }

  lemma AnswerStep(cfg: Config, good: Judge, s: State, i: nat, reply: Result)
    requires Sound(cfg, good) && AllGood(cfg, good, s) && Enabled(cfg, s, Answer(i, reply))
    ensures AllGood(cfg, good, Do(cfg, s, Answer(i, reply)))
  {
    var a := s.actors[i];
    assert ActorOk(cfg, good, s, a);
    if reply.Err? {
      LandStep(cfg, good, s, i, Failed);
    } else {
      QuietStep(cfg, good, s, i, WithPc(a, Storing(a.pc.flight, a.pc.from, reply.value, Failed)));
    }
  }

  lemma ResumeStep(cfg: Config, good: Judge, s: State, i: nat)
    requires Sound(cfg, good) && AllGood(cfg, good, s) && Enabled(cfg, s, Resume(i))
    ensures AllGood(cfg, good, Do(cfg, s, Resume(i)))
  {
    var a := s.actors[i];
    assert ActorOk(cfg, good, s, a);
    if a.pc.inner.Failed? {
      LandStep(cfg, good, s, i, Failed);
    } else {
      var d := Derive(cfg.lib, a.req.client, a.req.lookup, a.pc.inner.item.value);
      DeriveKeepsKind(cfg.lib, a.req.client, a.req.lookup, a.pc.inner.item.value);
      if d.Err? {
        LandStep(cfg, good, s, i, Failed);
      } else {
        QuietStep(cfg, good, s, i, WithPc(a, Storing(a.pc.flight, a.pc.from, d.value, a.pc.inner)));
      }
    }
  }

  lemma JoinStep(cfg: Config, good: Judge, s: State, i: nat)
    requires AllGood(cfg, good, s) && Enabled(cfg, s, Join(i))
    ensures AllGood(cfg, good, Do(cfg, s, Join(i)))
  {
    var a := s.actors[i];
    assert ActorOk(cfg, good, s, a);
    var k := cfg.key(a.req);
    if k in s.open {
      QuietStep(cfg, good, s, i, WithPc(a, Waiting(s.open[k])));
    } else {
      TakeOff(cfg, good, s, i);
    }
  }

  lemma StoreStep(cfg: Config, good: Judge, s: State, i: nat)
    requires Sound(cfg, good) && AllGood(cfg, good, s) && Enabled(cfg, s, Store(i))
    ensures AllGood(cfg, good, Do(cfg, s, Store(i)))
  {
    var a := s.actors[i];
    PutStep(cfg, good, s, i);
    LandStep(cfg, good, Put(cfg, s, a.req, a.pc), i, Got(NewItem(s, a.pc), s.now, s.flights[a.pc.flight].started));
  }

  lemma StepGood(cfg: Config, good: Judge, s: State, a: Action)
    requires Sound(cfg, good) && AllGood(cfg, good, s) && Enabled(cfg, s, a)
    ensures AllGood(cfg, good, Do(cfg, s, a))
  {
    match a
    case Tick(d) => TickStep(cfg, good, s, d);
    case Call(i, r) => QuietStep(cfg, good, s, i, Active(r, Checking));
    case Check(i) => CheckStep(cfg, good, s, i);
    case Join(i) => JoinStep(cfg, good, s, i);
    case Wake(i) => WakeStep(cfg, good, s, i);
    case Recheck(i) => RecheckStep(cfg, good, s, i);
    case Descend(i) =>
      var x := s.actors[i];
      assert ActorOk(cfg, good, s, x);
      QuietStep(cfg, good, s, i, Nested(x.req, x.pc.flight, x.pc.from, Base(x.req).value, Checking));
    case Answer(i, reply) => AnswerStep(cfg, good, s, i, reply);
    case Resume(i) => ResumeStep(cfg, good, s, i);
    case Store(i) => StoreStep(cfg, good, s, i);
  }

  lemma {:induction false} RunGood(cfg: Config, good: Judge, n: nat, states: seq<State>, actions: seq<Action>, i: nat)
    requires Sound(cfg, good) && IsRun(cfg, n, states, actions) && i < |states|
    ensures AllGood(cfg, good, states[i])
  {
    if i > 0 {
      RunGood(cfg, good, n, states, actions, i - 1);
      assert Enabled(cfg, states[i - 1], actions[i - 1]);
      StepGood(cfg, good, states[i - 1], actions[i - 1]);
    }
  }

  lemma ReachableGood(cfg: Config, good: Judge, s: State)
    requires Sound(cfg, good) && Reachable(cfg, s)
    ensures AllGood(cfg, good, s)
  {
    var n, states, actions :| IsRun(cfg, n, states, actions) && states[|actions|] == s;
    RunGood(cfg, good, n, states, actions, |actions|);
  }
}
