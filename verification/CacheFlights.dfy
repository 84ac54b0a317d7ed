/** Flights and stores, for any clients at all, whether or not they share keys: who leads a flight,
    who waits for it, and how far the stores of a key are apart. */
module CacheFlights {
  import opened Wrappers
  import opened CacheKeys
  import opened CacheValues
  import opened Cache

  /** A derived lookup and its list have different keys. */
  ghost predicate BaseDiffers(cfg: Config) {
    forall r: Req :: Base(r).Some? ==> cfg.key(r) != cfg.key(Base(r).value)
  }

  lemma RealKeysDiffer(cfg: Config)
    requires RealKeys(cfg)
    ensures BaseDiffers(cfg)
  {
    forall r: Req | Base(r).Some? ensures cfg.key(r) != cfg.key(Base(r).value) {
      var p, a, b := Prefix(r.client), Suffix(r.lookup), Suffix(Base(r).value.lookup);
      if p + a == p + b {
        assert a == (p + a)[|p|..] && b == (p + b)[|p|..];
        SuffixInjective(r.lookup, Base(r).value.lookup);
      }
    }
  }

  // -- the invariant -----------------------------------------------------------------------------

  /** Actor `i` leads the one open flight for the key of this lookup. */
  ghost predicate LeadOk(cfg: Config, s: State, i: nat, r: Req, f: nat) {
    && f < |s.flights| && s.flights[f].req == r && s.flights[f].leader == i && s.flights[f].result.None?
    && cfg.key(r) in s.open && s.open[cfg.key(r)] == f
  }

  /** A fetch begun at `from` found no fresh entry, and none was stored since. */
  ghost predicate FetchOk(cfg: Config, s: State, i: nat, r: Req, f: nat, from: nat) {
    && LeadOk(cfg, s, i, r, f) && from <= s.now
    && (cfg.key(r) in s.cache ==> s.cache[cfg.key(r)].deadline <= from)
  }

  ghost predicate FrameOk(cfg: Config, s: State, i: nat, r: Req, pc: Pc) {
    match pc
    case Checking => true
    case Joining => true
    case Waiting(f) => Boards(cfg, s, r, f)
    case Rechecking(f) => LeadOk(cfg, s, i, r, f)
    case Fetching(f, from) => FetchOk(cfg, s, i, r, f, from)
    case Resumed(f, from, _) => FetchOk(cfg, s, i, r, f, from) && Base(r).Some?
    case Storing(f, from, _, _) => FetchOk(cfg, s, i, r, f, from)
  }

  ghost predicate ActorOk(cfg: Config, s: State, i: nat, a: Actor) {
    match a
    case Outside => true
    case Done(_, _) => true
    case Active(r, pc) => FrameOk(cfg, s, i, r, pc)
    case Nested(outer, f, from, r, pc) =>
      FrameOk(cfg, s, i, r, pc) && Base(outer) == Some(r) && FetchOk(cfg, s, i, outer, f, from)
  }

  /** The actor is the leader of the flight for this lookup. */
  ghost predicate Leads(a: Actor, r: Req, f: nat) {
    || (Inside(a) && a.req == r && Leading(a.pc) && a.pc.flight == f)
    || (a.Nested? && a.outer == r && a.flight == f)
  }

  ghost predicate OpenOk(cfg: Config, s: State, k: string)
    requires k in s.open
  {
    && s.open[k] < |s.flights| && cfg.key(s.flights[s.open[k]].req) == k && s.flights[s.open[k]].result.None?
    && s.flights[s.open[k]].leader < |s.actors|
    && Leads(s.actors[s.flights[s.open[k]].leader], s.flights[s.open[k]].req, s.open[k])
  }

  ghost predicate ActorsOk(cfg: Config, s: State) {
    forall i :: 0 <= i < |s.actors| ==> ActorOk(cfg, s, i, s.actors[i])
  }

  ghost predicate OpensOk(cfg: Config, s: State) { forall k :: k in s.open ==> OpenOk(cfg, s, k) }

  /** A flight without a result is the open one of its key. */
  ghost predicate PendingOk(cfg: Config, s: State) {
    forall f :: 0 <= f < |s.flights| && s.flights[f].result.None? ==>
                  cfg.key(s.flights[f].req) in s.open && s.open[cfg.key(s.flights[f].req)] == f
  }

  /** The entry of a key is its last store. */
  ghost predicate LastStore(s: State, k: string)
    requires k in s.cache
  {
    var e := s.cache[k];
    && e.item.store < |s.log| && s.log[e.item.store].key == k
    && e.deadline == s.log[e.item.store].at + s.log[e.item.store].ttl
    && forall j :: e.item.store < j < |s.log| ==> s.log[j].key != k
  }

  /** A fetch for a key begins only after its previous store has expired. */
  ghost predicate Spaced(log: seq<StoreRec>) {
    && (forall j :: 0 <= j < |log| ==> log[j].from <= log[j].at)
    && (forall i, j :: 0 <= i < j < |log| && log[i].key == log[j].key ==> log[i].at + log[i].ttl <= log[j].from)
  }

  ghost predicate LogOk(s: State) {
    && Spaced(s.log)
    && (forall j :: 0 <= j < |s.log| ==> s.log[j].key in s.cache)
    && (forall k :: k in s.cache ==> LastStore(s, k))
  }

  ghost predicate Inv(cfg: Config, s: State) {
    ActorsOk(cfg, s) && OpensOk(cfg, s) && PendingOk(cfg, s) && LogOk(s)
  }

  // -- what a step leaves alone ------------------------------------------------------------------

  /** Time passes, and flights keep their requests. */
  ghost predicate Later(s: State, t: State) {
    && s.now <= t.now && |s.flights| <= |t.flights|
    && forall f :: 0 <= f < |s.flights| ==> t.flights[f].req == s.flights[f].req
  }

  /** The flight, the open entry and the cache entry of this lookup are untouched. */
  ghost predicate Untouched(cfg: Config, s: State, t: State, r: Req, f: nat) {
    && (f < |s.flights| <= |t.flights| ==> t.flights[f] == s.flights[f])
    && (cfg.key(r) in s.open ==> cfg.key(r) in t.open && t.open[cfg.key(r)] == s.open[cfg.key(r)])
    && (cfg.key(r) in t.cache ==> cfg.key(r) in s.cache && t.cache[cfg.key(r)] == s.cache[cfg.key(r)])
  }

  lemma FrameLater(cfg: Config, s: State, t: State, i: nat, r: Req, pc: Pc)
    requires FrameOk(cfg, s, i, r, pc) && Later(s, t) && (Leading(pc) ==> Untouched(cfg, s, t, r, pc.flight))
    ensures FrameOk(cfg, t, i, r, pc)
  {
  }

  lemma ActorLater(cfg: Config, s: State, t: State, i: nat, a: Actor)
    requires ActorOk(cfg, s, i, a) && Later(s, t)
    requires forall r, f :: Leads(a, r, f) ==> Untouched(cfg, s, t, r, f)
    ensures ActorOk(cfg, t, i, a)
  {
    if Inside(a) {
      if Leading(a.pc) {
        assert Leads(a, a.req, a.pc.flight);
      }
      FrameLater(cfg, s, t, i, a.req, a.pc);
    }
    if a.Nested? {
      assert Leads(a, a.outer, a.flight);
    }
  }

  /** Whoever leads a flight for a lookup is named in that flight, and the flight is the open one. */
  lemma LeadsOk(cfg: Config, s: State, i: nat, r: Req, f: nat)
    requires i < |s.actors| && ActorOk(cfg, s, i, s.actors[i]) && Leads(s.actors[i], r, f)
    ensures LeadOk(cfg, s, i, r, f)
  {
  }

  /** Only actor `i` moves, and it keeps the flights it leads. */
  lemma QuietStep(cfg: Config, s: State, i: nat, a: Actor)
    requires Inv(cfg, s) && i < |s.actors| && ActorOk(cfg, s, i, a)
    requires forall r, f :: Leads(s.actors[i], r, f) ==> Leads(a, r, f)
    ensures Inv(cfg, s.(actors := s.actors[i := a]))
  {
    var t := s.(actors := s.actors[i := a]);
    forall j | 0 <= j < |t.actors| ensures ActorOk(cfg, t, j, t.actors[j]) {
      ActorLater(cfg, s, t, j, t.actors[j]);
    }
    forall k | k in t.open ensures OpenOk(cfg, t, k) {
      assert OpenOk(cfg, s, k);
    }
    assert forall k :: k in t.cache ==> LastStore(s, k) ==> LastStore(t, k);
  }

  lemma TickStep(cfg: Config, s: State, d: nat)
    requires Inv(cfg, s)
    ensures Inv(cfg, s.(now := s.now + d))
  {
    var t := s.(now := s.now + d);
    forall j | 0 <= j < |t.actors| ensures ActorOk(cfg, t, j, t.actors[j]) {
      ActorLater(cfg, s, t, j, s.actors[j]);
    }
    forall k | k in t.open ensures OpenOk(cfg, t, k) {
      assert OpenOk(cfg, s, k);
    }
    assert forall k :: k in t.cache ==> LastStore(s, k) ==> LastStore(t, k);
  }

  // -- a flight begins ---------------------------------------------------------------------------

  /** `t` is `s` with a new flight for a key that had none, led by actor `i`. */
  ghost predicate Opened(cfg: Config, s: State, t: State, i: nat, r: Req) {
    && t.now == s.now && t.cache == s.cache && t.log == s.log && |t.actors| == |s.actors|
    && i < |t.actors| && Leads(t.actors[i], r, |s.flights|)
    && t.flights == s.flights + [Flight(r, i, s.now, None)]
    && cfg.key(r) !in s.open && t.open == s.open[cfg.key(r) := |s.flights|]
    && (forall j :: 0 <= j < |s.actors| && j != i ==> t.actors[j] == s.actors[j])
    && (forall q, f :: Leads(s.actors[i], q, f) ==> Leads(t.actors[i], q, f))
  }

  lemma OpenActor(cfg: Config, s: State, t: State, i: nat, r: Req, j: nat)
    requires Opened(cfg, s, t, i, r) && j < |s.actors| && ActorOk(cfg, s, j, s.actors[j])
    ensures ActorOk(cfg, t, j, s.actors[j])
  {
    forall q, f | Leads(s.actors[j], q, f) ensures Untouched(cfg, s, t, q, f) {
      LeadsOk(cfg, s, j, q, f);
    }
    ActorLater(cfg, s, t, j, s.actors[j]);
  }

  lemma OpenOpens(cfg: Config, s: State, t: State, i: nat, r: Req)
    requires Opened(cfg, s, t, i, r) && OpensOk(cfg, s) && PendingOk(cfg, s)
    ensures OpensOk(cfg, t) && PendingOk(cfg, t)
  {
    forall l | l in t.open ensures OpenOk(cfg, t, l) {
      if l != cfg.key(r) {
        assert OpenOk(cfg, s, l);
      }
    }
  }

  lemma JoinOpens(cfg: Config, s: State, i: nat)
    requires At(s, i) && s.actors[i].pc.Joining? && cfg.key(s.actors[i].req) !in s.open
    ensures Opened(cfg, s, Do(cfg, s, Join(i)), i, s.actors[i].req)
    ensures Do(cfg, s, Join(i)).actors[i] == WithPc(s.actors[i], Rechecking(|s.flights|))
  {
  }

  lemma OpenStep(cfg: Config, s: State, i: nat)
    requires Inv(cfg, s) && At(s, i) && s.actors[i].pc.Joining? && cfg.key(s.actors[i].req) !in s.open
    ensures Inv(cfg, Do(cfg, s, Join(i)))
  {
    var t, r := Do(cfg, s, Join(i)), s.actors[i].req;
    JoinOpens(cfg, s, i);
    OpenActors(cfg, s, t, i);
    OpenOpens(cfg, s, t, i, r);
    assert forall k :: k in t.cache ==> LastStore(s, k) ==> LastStore(t, k);
  }

  lemma OpenActors(cfg: Config, s: State, t: State, i: nat)
    requires ActorsOk(cfg, s) && At(s, i) && s.actors[i].pc.Joining? && Opened(cfg, s, t, i, s.actors[i].req)
    requires t.actors[i] == WithPc(s.actors[i], Rechecking(|s.flights|))
    ensures ActorsOk(cfg, t)
  {
    forall j | 0 <= j < |t.actors| ensures ActorOk(cfg, t, j, t.actors[j]) {
      assert ActorOk(cfg, s, j, s.actors[j]);
      OpenActor(cfg, s, t, i, s.actors[i].req, j);
    }
  }

  // -- a flight ends -----------------------------------------------------------------------------

  /** What a finished flight `f` for key `k` changes, seen from outside. */
  ghost predicate Finished(s: State, t: State, k: string, f: nat) {
    && t.now == s.now && |t.flights| == |s.flights| && |t.actors| == |s.actors| && f < |s.flights|
    && (forall g :: 0 <= g < |s.flights| && g != f ==> t.flights[g] == s.flights[g])
    && t.flights[f].req == s.flights[f].req && t.flights[f].result.Some? && t.open == s.open - {k}
    && forall l :: l != k ==> (l in t.cache <==> l in s.cache) && (l in s.cache ==> t.cache[l] == s.cache[l])
  }

  lemma FinishOther(cfg: Config, s: State, t: State, i: nat, j: nat, k: string, f: nat)
    requires ActorsOk(cfg, s) && Finished(s, t, k, f) && j < |s.actors| && j != i
    requires s.flights[f].leader == i && k in s.open && s.open[k] == f
    ensures ActorOk(cfg, t, j, s.actors[j])
  {
    assert ActorOk(cfg, s, j, s.actors[j]);
    forall r, g | Leads(s.actors[j], r, g) ensures Untouched(cfg, s, t, r, g) {
      LeadsOk(cfg, s, j, r, g);
    }
    ActorLater(cfg, s, t, j, s.actors[j]);
  }

  lemma FinishOwn(cfg: Config, s: State, t: State, i: nat, o: Outcome)
    requires ActorsOk(cfg, s) && BaseDiffers(cfg) && At(s, i) && Leading(s.actors[i].pc)
    requires Finished(s, t, cfg.key(s.actors[i].req), s.actors[i].pc.flight)
    ensures ActorOk(cfg, t, i, Return(s.actors[i], o))
  {
    var x := s.actors[i];
    assert ActorOk(cfg, s, i, x);
    LeadsOk(cfg, s, i, x.req, x.pc.flight);
    if x.Nested? {
      assert cfg.key(x.outer) != cfg.key(Base(x.outer).value);
    }
  }

  lemma FinishActors(cfg: Config, s: State, t: State, i: nat, o: Outcome)
    requires ActorsOk(cfg, s) && BaseDiffers(cfg) && At(s, i) && Leading(s.actors[i].pc)
    requires Finished(s, t, cfg.key(s.actors[i].req), s.actors[i].pc.flight)
    requires t.actors == s.actors[i := Return(s.actors[i], o)]
    ensures ActorsOk(cfg, t)
  {
    var x := s.actors[i];
    assert ActorOk(cfg, s, i, x);
    LeadsOk(cfg, s, i, x.req, x.pc.flight);
    forall j | 0 <= j < |t.actors| ensures ActorOk(cfg, t, j, t.actors[j]) {
      if j != i {
        FinishOther(cfg, s, t, i, j, cfg.key(x.req), x.pc.flight);
      } else {
        FinishOwn(cfg, s, t, i, o);
      }
    }
  }

  lemma ReturnLeads(a: Actor, o: Outcome, r: Req, f: nat)
    requires Inside(a) && Leads(a, r, f)
    ensures Leads(Return(a, o), r, f) || (Leading(a.pc) && r == a.req && f == a.pc.flight)
  {
  }

  lemma FinishOpens(cfg: Config, s: State, t: State, i: nat, o: Outcome)
    requires ActorsOk(cfg, s) && OpensOk(cfg, s) && PendingOk(cfg, s) && At(s, i) && Leading(s.actors[i].pc)
    requires Finished(s, t, cfg.key(s.actors[i].req), s.actors[i].pc.flight)
    requires t.actors == s.actors[i := Return(s.actors[i], o)]
    ensures OpensOk(cfg, t) && PendingOk(cfg, t)
  {
    var x := s.actors[i];
    assert ActorOk(cfg, s, i, x);
    LeadsOk(cfg, s, i, x.req, x.pc.flight);
    forall l | l in t.open ensures OpenOk(cfg, t, l) {
      assert OpenOk(cfg, s, l);
      var g := s.open[l];
      if s.flights[g].leader == i {
        ReturnLeads(x, o, s.flights[g].req, g);
      }
    }
  }

  lemma FinishStep(cfg: Config, s: State, u: State, i: nat, o: Outcome)
    requires Inv(cfg, s) && BaseDiffers(cfg)
    requires At(s, i) && Leading(s.actors[i].pc) && s.actors[i].pc.flight < |s.flights|
    requires u == s.(cache := u.cache, log := u.log) && LogOk(u)
    requires forall l :: l != cfg.key(s.actors[i].req) ==>
                           (l in u.cache <==> l in s.cache) && (l in s.cache ==> u.cache[l] == s.cache[l])
    ensures Inv(cfg, Finish(cfg, u, i, o))
  {
    var t := Finish(cfg, u, i, o);
    FinishFinishes(cfg, s, u, i, o);
    FinishActors(cfg, s, t, i, o);
    FinishOpens(cfg, s, t, i, o);
    SameLog(u, t);
  }

  lemma FinishFinishes(cfg: Config, s: State, u: State, i: nat, o: Outcome)
    requires At(s, i) && Leading(s.actors[i].pc) && s.actors[i].pc.flight < |s.flights|
    requires u == s.(cache := u.cache, log := u.log)
    requires forall l :: l != cfg.key(s.actors[i].req) ==>
                           (l in u.cache <==> l in s.cache) && (l in s.cache ==> u.cache[l] == s.cache[l])
    ensures var t := Finish(cfg, u, i, o);
            && Finished(s, t, cfg.key(s.actors[i].req), s.actors[i].pc.flight)
            && t.actors == s.actors[i := Return(s.actors[i], o)] && t.cache == u.cache && t.log == u.log
            && t.now == u.now
  {
  }

  lemma SameLog(u: State, t: State)
    requires LogOk(u) && t.cache == u.cache && t.log == u.log && t.now == u.now
    ensures LogOk(t)
  {
    forall k | k in t.cache ensures LastStore(t, k) {
      assert LastStore(u, k);
    }
  }

  /** A store that follows the expiry of the previous entry keeps the stores apart. */
  lemma SpacedSnoc(s: State, rec: StoreRec)
    requires LogOk(s) && rec.from <= rec.at && (rec.key in s.cache ==> s.cache[rec.key].deadline <= rec.from)
    ensures Spaced(s.log + [rec])
  {
    forall i | 0 <= i < |s.log| && s.log[i].key == rec.key ensures s.log[i].at + s.log[i].ttl <= rec.from {
      assert LastStore(s, rec.key);
      var last := s.cache[rec.key].item.store;
      assert i <= last;
    }
  }

  lemma PutLogOk(cfg: Config, s: State, i: nat, r: Req, pc: Pc)
    requires LogOk(s) && pc.Storing? && pc.flight < |s.flights| && FetchOk(cfg, s, i, r, pc.flight, pc.from)
    ensures LogOk(Put(cfg, s, r, pc))
  {
    var u := Put(cfg, s, r, pc);
    SpacedSnoc(s, u.log[|s.log|]);
    forall k | k in u.cache ensures LastStore(u, k) {
      if k != cfg.key(r) {
        assert LastStore(s, k);
      }
    }
  }

  // -- steps -------------------------------------------------------------------------------------

  lemma CheckStep(cfg: Config, s: State, i: nat)
    requires Inv(cfg, s) && Enabled(cfg, s, Check(i))
    ensures Inv(cfg, Do(cfg, s, Check(i)))
  {
    var x := s.actors[i];
    assert ActorOk(cfg, s, i, x);
    if Fresh(cfg, s, x.req) {
      QuietStep(cfg, s, i, Return(x, Got(s.cache[cfg.key(x.req)].item, s.now, s.now)));
    } else {
      QuietStep(cfg, s, i, WithPc(x, Joining));
    }
  }

  lemma JoinStep(cfg: Config, s: State, i: nat)
    requires Inv(cfg, s) && Enabled(cfg, s, Join(i))
    ensures Inv(cfg, Do(cfg, s, Join(i)))
  {
    var x := s.actors[i];
    var k := cfg.key(x.req);
    assert ActorOk(cfg, s, i, x);
    if k in s.open {
      assert OpenOk(cfg, s, k);
      QuietStep(cfg, s, i, WithPc(x, Waiting(s.open[k])));
    } else {
      OpenStep(cfg, s, i);
    }
  }

  lemma RecheckStep(cfg: Config, s: State, i: nat)
    requires Inv(cfg, s) && BaseDiffers(cfg) && Enabled(cfg, s, Recheck(i))
    ensures Inv(cfg, Do(cfg, s, Recheck(i)))
  {
    var x := s.actors[i];
    assert ActorOk(cfg, s, i, x);
    if Fresh(cfg, s, x.req) {
      FinishStep(cfg, s, s, i, Got(s.cache[cfg.key(x.req)].item, s.now, s.flights[x.pc.flight].started));
    } else {
      QuietStep(cfg, s, i, WithPc(x, Fetching(x.pc.flight, s.now)));
    }
  }

  /** The leader has a value and is about to store it, or has none and ends the flight. */
  lemma HoldStep(cfg: Config, s: State, i: nat, d: Result, inner: Outcome)
    requires Inv(cfg, s) && BaseDiffers(cfg) && At(s, i) && (s.actors[i].pc.Fetching? || s.actors[i].pc.Resumed?)
    requires s.actors[i].pc.flight < |s.flights|
    ensures Inv(cfg, if d.Err? then Finish(cfg, s, i, Failed)
                     else Step(s, i, Storing(s.actors[i].pc.flight, s.actors[i].pc.from, d.value, inner)))
  {
    var x := s.actors[i];
    assert ActorOk(cfg, s, i, x);
    if d.Err? {
      FinishStep(cfg, s, s, i, Failed);
    } else {
      QuietStep(cfg, s, i, WithPc(x, Storing(x.pc.flight, x.pc.from, d.value, inner)));
    }
  }

  lemma ResumeStep(cfg: Config, s: State, i: nat)
    requires Inv(cfg, s) && BaseDiffers(cfg) && Enabled(cfg, s, Resume(i))
    ensures Inv(cfg, Do(cfg, s, Resume(i)))
  {
    var x := s.actors[i];
    if x.pc.inner.Failed? {
      FinishStep(cfg, s, s, i, Failed);
    } else {
      HoldStep(cfg, s, i, Derive(cfg.lib, x.req.client, x.req.lookup, x.pc.inner.item.value), x.pc.inner);
    }
  }

  lemma StoreStep(cfg: Config, s: State, i: nat)
    requires Inv(cfg, s) && BaseDiffers(cfg) && Enabled(cfg, s, Store(i))
    ensures Inv(cfg, Do(cfg, s, Store(i)))
  {
    var x := s.actors[i];
    assert ActorOk(cfg, s, i, x);
    PutLogOk(cfg, s, i, x.req, x.pc);
    FinishStep(cfg, s, Put(cfg, s, x.req, x.pc), i, Got(NewItem(s, x.pc), s.now, s.flights[x.pc.flight].started));
  }

  lemma WakeStep(cfg: Config, s: State, i: nat)
    requires Inv(cfg, s) && Enabled(cfg, s, Wake(i))
    ensures Inv(cfg, Do(cfg, s, Wake(i)))
  {
    assert ActorOk(cfg, s, i, s.actors[i]);
    QuietStep(cfg, s, i, Return(s.actors[i], s.flights[s.actors[i].pc.flight].result.value));
  }

  lemma DescendStep(cfg: Config, s: State, i: nat)
    requires Inv(cfg, s) && Enabled(cfg, s, Descend(i))
    ensures Inv(cfg, Do(cfg, s, Descend(i)))
  {
    var x := s.actors[i];
    assert ActorOk(cfg, s, i, x);
    QuietStep(cfg, s, i, Nested(x.req, x.pc.flight, x.pc.from, Base(x.req).value, Checking));
  }

  lemma StepInv(cfg: Config, s: State, a: Action)
    requires Inv(cfg, s) && BaseDiffers(cfg) && Enabled(cfg, s, a)
    ensures Inv(cfg, Do(cfg, s, a))
  {
    match a
    case Tick(d) => TickStep(cfg, s, d);
    case Call(i, r) => QuietStep(cfg, s, i, Active(r, Checking));
    case Check(i) => CheckStep(cfg, s, i);
    case Join(i) => JoinStep(cfg, s, i);
    case Wake(i) => WakeStep(cfg, s, i);
    case Recheck(i) => RecheckStep(cfg, s, i);
    case Descend(i) => DescendStep(cfg, s, i);
    case Answer(i, reply) => HoldStep(cfg, s, i, reply, Failed);
    case Resume(i) => ResumeStep(cfg, s, i);
    case Store(i) => StoreStep(cfg, s, i);
  }

  lemma {:induction false} RunInv(cfg: Config, n: nat, states: seq<State>, actions: seq<Action>, i: nat)
    requires BaseDiffers(cfg) && IsRun(cfg, n, states, actions) && i < |states|
    ensures Inv(cfg, states[i])
  {
    if i > 0 {
      RunInv(cfg, n, states, actions, i - 1);
      assert Enabled(cfg, states[i - 1], actions[i - 1]);
      StepInv(cfg, states[i - 1], actions[i - 1]);
    }
  }

  /** The invariant holds in every reachable state, whatever keys the clients share. */
  lemma ReachableInv(cfg: Config, s: State)
    requires Reachable(cfg, s) && RealKeys(cfg)
    ensures Inv(cfg, s)
  {
    RealKeysDiffer(cfg);
    var n, states, actions :| IsRun(cfg, n, states, actions) && states[|actions|] == s;
    RunInv(cfg, n, states, actions, |actions|);
  }
}
