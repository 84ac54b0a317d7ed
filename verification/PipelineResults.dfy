/** The results about `CleanObjects`: nothing is lost, what a nil return means, error sends never
    block, every run ends, and exactly when it ends without returning. */
module PipelineResults {
  import opened Batching
  import opened Pipeline
  import opened PipelineInvariant

  /** Conservation.  In every reachable state a listed name waits in the results channel, is held by
      the forwarder, or was forwarded; a forwarded name is in a batch handed over, in the buffer,
      given up on cancellation, or in the names channel, always in listing order; and a batch handed
      over is in the batch channel or has exactly one outcome, where an undecided batch is in the
      hands of exactly one worker. */
  lemma NothingIsLost(cfg: Config, s: State)
    requires Reachable(cfg, s)
    ensures s.list.emitted <= cfg.names
    ensures s.list.emitted == s.fwd.forwarded + (Held(s.fwd.forwarder) + NamesOf(s.list.results))
    ensures s.fwd.forwarded == Flatten(s.bat.handed) + (s.bat.buffer + s.bat.dropped + s.fwd.names)
    ensures |s.wrk.outcomes| <= |s.bat.handed| && s.bat.batches == s.bat.handed[|s.wrk.outcomes|..]
    ensures forall k, i :: 0 <= k < |s.wrk.outcomes| && 0 <= i < |s.wrk.workers| ==>
                             (s.wrk.outcomes[k] == Pending(i) <==> s.wrk.workers[i] == WrkRequests(k))
    ensures forall k :: 0 <= k < |s.wrk.outcomes| && s.wrk.outcomes[k].Pending? ==>
              s.wrk.outcomes[k].worker < |s.wrk.workers|
    ensures s.bat.dropped != [] ==> s.cancelled
  {
    ReachableInv(cfg, s);
    var p := s.list;
    assert p.lister.Listing? ==> p.emitted <= p.emitted + p.lister.rest;
  }

  /** What nil means: all goroutines have ended, the server accepted every batch, the batches are
      the listing divided into hundreds, and the listing is complete; the one exception is a
      listing that was cut off before its first item. */
  lemma NilReturn(cfg: Config, s: State)
    requires Reachable(cfg, s) && s.call.caller == CallReturned(true)
    ensures |s.wrk.outcomes| == |s.bat.handed|
    ensures forall k :: 0 <= k < |s.wrk.outcomes| ==> s.wrk.outcomes[k] == Accepted
    ensures BatchesOf(s.bat.handed, s.list.emitted)
    ensures (s.list.emitted == cfg.names && !cfg.fails) || ((s.cancelled || cfg.breaks) && s.list.emitted == [])
    ensures s.fwd.forwarder.FwdDone? && AllDone(s.bat.batcher, s.wrk.workers)
  {
    ReachableInv(cfg, s);
    var ws := s.wrk.workers;
    CountBounds(ws);
    NobodyErrored(ws);
    RefusedBounds(s.wrk.outcomes);
    assert ws[0] == WrkDone(false);
    var f, b := s.fwd, s.bat;
    assert Flatten(b.handed) + (b.buffer + b.dropped + f.names) == Flatten(b.handed);
  }

  /** Without cancellation, a started pipeline that returns returns nil exactly when the lister
      reported no error and no delete request was refused; and, unless the first page breaks off,
      exactly when the listing does not fail and no request was refused. */
  lemma NilExactly(cfg: Config, s: State)
    requires Reachable(cfg, s) && !s.cancelled
    requires s.call.caller.CallReturned? && !NoneStarted(s.bat.batcher, s.wrk.workers)
    ensures s.call.caller.ok <==> !ListFailed(s.list.lister) && NoneRefused(s.wrk.outcomes)
    ensures !cfg.breaks ==> (s.call.caller.ok <==> !cfg.fails && NoneRefused(s.wrk.outcomes))
  {
    ReachableInv(cfg, s);
    RefusedBounds(s.wrk.outcomes);
    CountBounds(s.wrk.workers);
    if s.call.caller.ok {
      NilReturn(cfg, s);
    }
  }

  ghost predicate NoneRefused(os: seq<Outcome>) { forall k :: 0 <= k < |os| ==> !os[k].Refused? }

  /** Every send on an error channel finds room, so no goroutine blocks on reporting its error; and
      the workers' error channel is closed only after everyone who sends on it has ended. */
  lemma ErrorSendsFindRoom(cfg: Config, s: State)
    requires Reachable(cfg, s)
    ensures s.fwd.forwarder.FwdSendsError? ==> s.fwd.errors < FORWARD_ERRORS_CAP
    ensures s.bat.batcher.BatSendsError? ==> s.call.errors < ERRORS_CAP
    ensures forall i :: 0 <= i < |s.wrk.workers| && s.wrk.workers[i].WrkSendsError? ==> s.call.errors < ERRORS_CAP
    ensures s.call.errorsClosed ==>
              s.bat.batcher.BatDone? && forall i :: 0 <= i < |s.wrk.workers| ==> s.wrk.workers[i].WrkDone?
  {
    ReachableInv(cfg, s);
    CountBounds(s.wrk.workers);
  }

  // -- every run ends ----------------------------------------------------------------------------

  function ListRank(l: Lister): nat {
    match l
    case Listing(rest) => 14 + 8 * |rest|
    case ListSendsError => 12
    case ListCloses(_) => 2
    case ListClosed(_) => 0
  }

  function FwdRank(f: Forwarder): nat {
    match f
    case FwdReceives => 6
    case FwdSends(_) => 12
    case FwdSendsError => 5
    case FwdClosesNames(_) => 4
    case FwdClosesErrors(_) => 3
    case FwdDone(_) => 0
  }

  function BatRank(b: Batcher): nat {
    match b
    case BatNew => 6
    case BatSelects => 5
    case BatSendsFull => 5
    case BatSendsLast => 4
    case BatSendsError => 4
    case BatCloses(_) => 3
    case BatDone(_) => 0
  }

  function WrkRank(w: Worker): nat {
    match w
    case WrkNew => 4
    case WrkSelects => 3
    case WrkRequests(_) => 5
    case WrkSendsError => 2
    case WrkDone(_) => 0
  }

  function WrkRanks(ws: seq<Worker>): nat {
    if ws == [] then 0 else WrkRank(ws[0]) + WrkRanks(ws[1..])
  }

  function CallRank(c: Caller): nat {
    match c
    case CallLooksUp => 20
    case CallSpawns(k) => if k <= WORKER_COUNT then 19 - k else 9
    case CallWaits => 8
    case CallSelects => 7
    case CallClosesErrors(_) => 6
    case CallWaitsForwarder => 5
    case CallReadsForwarder => 4
    case CallReturned(_) => 0
  }

  function ListBudget(p: ListPart): nat { ListRank(p.lister) + 7 * |p.results| }
  function FwdBudget(p: FwdPart): nat { FwdRank(p.forwarder) + 5 * |p.names| }
  function BatBudget(p: BatPart): nat { BatRank(p.batcher) + 4 * |p.buffer| + 3 * |p.batches| }

  /** An upper bound on the number of steps still to come. */
  function Budget(s: State): nat {
    (if s.cancelled then 0 else 1) + ListBudget(s.list) + FwdBudget(s.fwd) + BatBudget(s.bat)
    + WrkRanks(s.wrk.workers) + CallRank(s.call.caller)
  }

  lemma {:induction false} UpdateRanks(ws: seq<Worker>, i: nat, w: Worker)
    requires i < |ws|
    ensures WrkRanks(ws[i := w]) + WrkRank(ws[i]) == WrkRanks(ws) + WrkRank(w)
  {
    if i == 0 {
      assert ws[i := w][1..] == ws[1..];
    } else {
      assert ws[i := w][1..] == ws[1..][i - 1 := w];
      UpdateRanks(ws[1..], i - 1, w);
    }
  }

  lemma ListPays(cfg: Config, c: bool, p: ListPart, a: ListAction)
    requires ListEnabled(cfg, c, p, a)
    ensures ListBudget(ListDo(cfg, c, p, a)) < ListBudget(p)
  {
  }

  lemma FwdPays(l: ListPart, p: FwdPart, a: FwdAction)
    requires FwdEnabled(l, p, a)
    ensures FwdBudget(FwdDo(l, p, a)) + ListBudget(Consumed(l, p, a)) < FwdBudget(p) + ListBudget(l)
  {
  }

  lemma BatPays(c: bool, f: FwdPart, p: BatPart, e: nat, a: BatAction)
    requires BatEnabled(c, f, p, e, a) && BufferFits(p.batcher, p.buffer)
    ensures BatBudget(BatDo(c, f, p, e, a)) + FwdBudget(Drained(c, f, p, e, a)) < BatBudget(p) + FwdBudget(f)
  {
  }

  lemma WrkPays(c: bool, b: BatPart, p: WrkPart, e: nat, i: nat, a: WrkAction)
    requires i < |p.workers| && WrkEnabled(c, b, p.workers[i], e, a)
    ensures WrkRanks(WrkDo(p, i, a).workers) + (if a.Take? then 3 * |b.batches[1..]| else 3 * |b.batches|)
          < WrkRanks(p.workers) + 3 * |b.batches|
  {
    UpdateRanks(p.workers, i, WrkNext(p.workers[i], |p.outcomes|, a));
  }

  lemma CallPays(s: State, a: CallAction)
    requires CallEnabled(s, a) && Progress(s.call.caller, s.bat.batcher, s.wrk.workers)
    requires |s.wrk.workers| == WORKER_COUNT
    requires BufferFits(s.bat.batcher, s.bat.buffer)
    ensures Budget(CallDo(s, a)) < Budget(s)
  {
    if a.Spawn? && s.call.caller.started < |s.wrk.workers| {
      UpdateRanks(s.wrk.workers, s.call.caller.started, WrkSelects);
    }
  }

  lemma BudgetDecreases(cfg: Config, s: State, a: Action)
    requires Inv(cfg, s) && Enabled(cfg, s, a)
    ensures Budget(Do(cfg, s, a)) < Budget(s)
  {
    match a {
      case Cancel =>
      case L(l) => ListPays(cfg, s.cancelled, s.list, l);
      case F(f) => FwdPays(s.list, s.fwd, f);
      case B(b) => BatPays(s.cancelled, s.fwd, s.bat, s.call.errors, b);
      case W(i, w) => WrkPays(s.cancelled, s.bat, s.wrk, s.call.errors, i, w);
      case C(c) => CallPays(s, c);
    }
  }

  lemma RunStepPays(cfg: Config, states: seq<State>, actions: seq<Action>, i: nat)
    requires IsRun(cfg, states, actions) && i < |actions|
    ensures Budget(states[i + 1]) < Budget(states[i])
  {
    RunInv(cfg, states, actions, i);
    BudgetDecreases(cfg, states[i], actions[i]);
  }

  lemma {:induction false} RunPays(cfg: Config, states: seq<State>, actions: seq<Action>, i: nat)
    requires IsRun(cfg, states, actions) && i <= |actions|
    ensures i + Budget(states[i]) <= Budget(states[0])
  {
    if i > 0 {
      RunPays(cfg, states, actions, i - 1);
      RunStepPays(cfg, states, actions, i - 1);
    }
  }

  lemma {:induction false} NewRanks(ws: seq<Worker>)
    requires forall i :: 0 <= i < |ws| ==> ws[i].WrkNew?
    ensures WrkRanks(ws) == 4 * |ws|
  {
    if ws != [] {
      NewRanks(ws[1..]);
    }
  }

  /** Under every schedule and with any failures, a run has at most this many steps. */
  lemma RunsEnd(cfg: Config, states: seq<State>, actions: seq<Action>)
    requires IsRun(cfg, states, actions)
    ensures |actions| <= 8 * |cfg.names| + 87
  {
    RunPays(cfg, states, actions, |actions|);
    NewRanks(Init(cfg).wrk.workers);
  }
}
