/** The TTL cache with single flight of `getCacheValueByKey` (qiniu/kodo.go:982-1006) under every
    schedule of concurrent callers, with the lookups that are cached on top of other cached lookups. */
module Cache {
  import opened Wrappers
  import opened CacheKeys
  import opened CacheValues

  datatype Req = Req(client: Client, lookup: Lookup)

  function TtlOf(r: Req): nat { Ttl(r.lookup) }

  function Base(r: Req): Option<Req> {
    match BaseOf(r.lookup)
    case None => None
    case Some(l) => Some(Req(r.client, l))
  }

  /** The clients of a run, the cache key of a lookup, and the URL library; `worlds` fixes what the
      servers hold, and None leaves them free to change. */
  datatype Config = Config(clients: set<Client>, key: Req -> string, lib: UrlLib, worlds: Option<Client -> World>)

  /** Equal keys belong to equal lookups. */
  ghost predicate WellKeyed(cfg: Config) {
    forall a: Req, b: Req :: a.client in cfg.clients && b.client in cfg.clients && cfg.key(a) == cfg.key(b) ==> a == b
  }

  /** The keys are those that the client formats. */
  ghost predicate RealKeys(cfg: Config) {
    forall r: Req :: cfg.key(r) == Key(r.client, r.lookup)
  }

  /** Different clients of a run have compatible and different key prefixes. */
  ghost predicate Separate(clients: set<Client>) {
    forall c, d :: c in clients && d in clients && c != d ==> Compatible(Prefix(c), Prefix(d)) && Prefix(c) != Prefix(d)
  }

  lemma SeparateIsWellKeyed(cfg: Config)
    requires RealKeys(cfg) && Separate(cfg.clients)
    ensures WellKeyed(cfg)
  {
    forall a: Req, b: Req | a.client in cfg.clients && b.client in cfg.clients && cfg.key(a) == cfg.key(b)
      ensures a == b
    {
      SameClientCompatible(a.client);
      KeysInjective(a.client, a.lookup, b.client, b.lookup);
    }
  }

  /** A value that a lookup may yield. */
  ghost predicate Good(cfg: Config, r: Req, v: Value) {
    && KindOfValue(v) == KindOf(r.lookup)
    && (cfg.worlds.Some? ==> Uncached(cfg.lib, r.client, cfg.worlds.value(r.client), r.lookup) == Ok(v))
  }

  /** A stored value.  `store` is its number among all stores and `at` their time.  A derived value
      rests on a list stored at `basis`, which was last found fresh at `checked`; `since` is when
      the earliest flight began in which that happened. */
  datatype Item = Item(value: Value, store: nat, at: nat, basis: nat, checked: nat, since: nat)

  /** The result of a lookup: an item last found fresh at `seen`, in a flight begun at `joined`. */
  datatype Outcome = Got(item: Item, seen: nat, joined: nat) | Failed

  datatype Entry = Entry(req: Req, item: Item, deadline: nat)

  datatype Flight = Flight(req: Req, leader: nat, started: nat, result: Option<Outcome>)

  datatype Pc =
    | Checking
    | Joining
    | Waiting(flight: nat)
    | Rechecking(flight: nat)
    | Fetching(flight: nat, from: nat)
    | Resumed(flight: nat, from: nat, inner: Outcome)
    | Storing(flight: nat, from: nat, value: Value, inner: Outcome)

  /** A goroutine: outside, back from a lookup, inside one, or inside the list lookup of a derived one. */
  datatype Actor =
    | Outside
    | Done(req: Req, outcome: Outcome)
    | Active(req: Req, pc: Pc)
    | Nested(outer: Req, flight: nat, from: nat, req: Req, pc: Pc)

  /** A store: the key and the value, when its fetch began, when it happened, and for how long it holds. */
  datatype StoreRec = StoreRec(key: string, value: Value, from: nat, at: nat, ttl: nat)

  datatype State = State(
    now: nat,
    cache: map<string, Entry>,
    open: map<string, nat>,
    flights: seq<Flight>,
    actors: seq<Actor>,
    log: seq<StoreRec>)

  function Init(actors: nat): State {
    State(0, map[], map[], [], seq(actors, _ => Outside), [])
  }

  datatype Action =
    | Tick(seconds: nat)
    | Call(i: nat, req: Req)
    | Check(i: nat)
    | Join(i: nat)
    | Wake(i: nat)
    | Recheck(i: nat)
    | Descend(i: nat)
    | Answer(i: nat, reply: Result)
    | Resume(i: nat)
    | Store(i: nat)

  predicate Leading(pc: Pc) { pc.Rechecking? || pc.Fetching? || pc.Resumed? || pc.Storing? }

  predicate Fresh(cfg: Config, s: State, r: Req) { cfg.key(r) in s.cache && s.now < s.cache[cfg.key(r)].deadline }

  predicate Inside(a: Actor) { a.Active? || a.Nested? }

  predicate At(s: State, i: nat) { i < |s.actors| && Inside(s.actors[i]) }

  ghost predicate Enabled(cfg: Config, s: State, a: Action) {
    match a
    case Tick(_) => true
    case Call(i, r) => i < |s.actors| && !Inside(s.actors[i]) && r.client in cfg.clients
    case Check(i) => At(s, i) && s.actors[i].pc.Checking?
    case Join(i) => At(s, i) && s.actors[i].pc.Joining?
    case Wake(i) =>
      At(s, i) && s.actors[i].pc.Waiting? &&
      s.actors[i].pc.flight < |s.flights| && s.flights[s.actors[i].pc.flight].result.Some?
    case Recheck(i) => At(s, i) && s.actors[i].pc.Rechecking? && s.actors[i].pc.flight < |s.flights|
    case Descend(i) => At(s, i) && s.actors[i].Active? && s.actors[i].pc.Fetching? && Base(s.actors[i].req).Some?
    case Answer(i, reply) =>
      At(s, i) && s.actors[i].pc.Fetching? && Base(s.actors[i].req).None? && s.actors[i].pc.flight < |s.flights| &&
      (reply.Ok? ==> Good(cfg, s.actors[i].req, reply.value))
    case Resume(i) => At(s, i) && s.actors[i].pc.Resumed? && s.actors[i].pc.flight < |s.flights|
    case Store(i) => At(s, i) && s.actors[i].pc.Storing? && s.actors[i].pc.flight < |s.flights|
  }

  function WithPc(a: Actor, pc: Pc): Actor
    requires Inside(a)
  {
    if a.Active? then Active(a.req, pc) else Nested(a.outer, a.flight, a.from, a.req, pc)
  }

  /** The lookup returns: to the user, or to the fetch of the derived lookup. */
  function Return(a: Actor, o: Outcome): Actor
    requires Inside(a)
  {
    if a.Active? then Done(a.req, o) else Active(a.outer, Resumed(a.flight, a.from, o))
  }

  function Step(s: State, i: nat, pc: Pc): State
    requires At(s, i)
  {
    s.(actors := s.actors[i := WithPc(s.actors[i], pc)])
  }

  /** The leader's function returns: the flight ends and its result is published. */
  function Finish(cfg: Config, s: State, i: nat, o: Outcome): State
    requires At(s, i) && Leading(s.actors[i].pc) && s.actors[i].pc.flight < |s.flights|
  {
    var f := s.actors[i].pc.flight;
    s.(flights := s.flights[f := s.flights[f].(result := Some(o))],
    open := s.open - {cfg.key(s.actors[i].req)},
    actors := s.actors[i := Return(s.actors[i], o)])
  }

  /** The item that a store at the current time would put into the cache. */
  function NewItem(s: State, pc: Pc): Item
    requires pc.Storing? && pc.flight < |s.flights|
  {
    match pc.inner
    case Failed => Item(pc.value, |s.log|, s.now, s.now, s.now, s.now)
    case Got(base, seen, joined) =>
      var started := s.flights[pc.flight].started;
      Item(pc.value, |s.log|, s.now, base.at, seen, if started < joined then started else joined)
  }

  function Put(cfg: Config, s: State, r: Req, pc: Pc): State
    requires pc.Storing? && pc.flight < |s.flights|
  {
    s.(cache := s.cache[cfg.key(r) := Entry(r, NewItem(s, pc), s.now + TtlOf(r))],
    log := s.log + [StoreRec(cfg.key(r), pc.value, pc.from, s.now, TtlOf(r))])
  }

  function Do(cfg: Config, s: State, a: Action): State
    requires Enabled(cfg, s, a)
  {
    match a
    case Tick(d) => s.(now := s.now + d)
    case Call(i, r) => s.(actors := s.actors[i := Active(r, Checking)])
    case Check(i) =>
      var x := s.actors[i];
      if Fresh(cfg, s, x.req)
      then s.(actors := s.actors[i := Return(x, Got(s.cache[cfg.key(x.req)].item, s.now, s.now))])
      else Step(s, i, Joining)
    case Join(i) =>
      var k := cfg.key(s.actors[i].req);
      if k in s.open then Step(s, i, Waiting(s.open[k]))
      else
        Step(s, i, Rechecking(|s.flights|)).(
        flights := s.flights + [Flight(s.actors[i].req, i, s.now, None)],
        open := s.open[k := |s.flights|])
    case Wake(i) => s.(actors := s.actors[i := Return(s.actors[i], s.flights[s.actors[i].pc.flight].result.value)])
    case Recheck(i) =>
      var x := s.actors[i];
      if Fresh(cfg, s, x.req)
      then Finish(cfg, s, i, Got(s.cache[cfg.key(x.req)].item, s.now, s.flights[x.pc.flight].started))
      else Step(s, i, Fetching(x.pc.flight, s.now))
    case Descend(i) =>
      var x := s.actors[i];
      s.(actors := s.actors[i := Nested(x.req, x.pc.flight, x.pc.from, Base(x.req).value, Checking)])
    case Answer(i, reply) =>
      var pc := s.actors[i].pc;
      if reply.Err? then Finish(cfg, s, i, Failed) else Step(s, i, Storing(pc.flight, pc.from, reply.value, Failed))
    case Resume(i) =>
      var x := s.actors[i];
      if x.pc.inner.Failed? then Finish(cfg, s, i, Failed)
      else
        var d := Derive(cfg.lib, x.req.client, x.req.lookup, x.pc.inner.item.value);
        if d.Err? then Finish(cfg, s, i, Failed) else Step(s, i, Storing(x.pc.flight, x.pc.from, d.value, x.pc.inner))
    case Store(i) =>
      var x := s.actors[i];
      Finish(cfg, Put(cfg, s, x.req, x.pc), i, Got(NewItem(s, x.pc), s.now, s.flights[x.pc.flight].started))
  }

  /** The flight is one for the key of this lookup. */
  ghost predicate Boards(cfg: Config, s: State, r: Req, f: nat) {
    f < |s.flights| && cfg.key(s.flights[f].req) == cfg.key(r)
  }

  /** A run: the states passed through, and the actions between them. */
  ghost predicate IsRun(cfg: Config, n: nat, states: seq<State>, actions: seq<Action>) {
    && |states| == |actions| + 1
    && states[0] == Init(n)
    && forall i {:trigger actions[i]} :: 0 <= i < |actions| ==>
         Enabled(cfg, states[i], actions[i]) && states[i + 1] == Do(cfg, states[i], actions[i])
  }

  ghost predicate Reachable(cfg: Config, s: State) {
    exists n, states, actions :: IsRun(cfg, n, states, actions) && states[|actions|] == s
  }

  lemma ReachInit(cfg: Config, n: nat)
    ensures Reachable(cfg, Init(n))
  {
    assert IsRun(cfg, n, [Init(n)], []);
  }

  lemma ReachStep(cfg: Config, s: State, a: Action)
    requires Reachable(cfg, s) && Enabled(cfg, s, a)
    ensures Reachable(cfg, Do(cfg, s, a))
  {
    var n, states, actions :| IsRun(cfg, n, states, actions) && states[|actions|] == s;
    assert IsRun(cfg, n, states + [Do(cfg, s, a)], actions + [a]);
  }
}
