/** The bucket-emptying pipeline of `CleanObjects`: a lister, a forwarder, a batcher and ten delete
    workers joined by bounded channels (qiniu/kodo.go:84-120, 532-555, 605-670).

    One action is one step of one goroutine, so a run is any interleaving.  Starting a goroutine
    and the `wg.Add` that follows it are one step.  A remote call is a step whose outcome is
    chosen by the environment. */
module Pipeline {
  import opened Batching

  const RESULTS_CAP: nat := 1024
  const NAMES_CAP: nat := 10
  const FORWARD_ERRORS_CAP: nat := 1
  const WORKER_COUNT: nat := 10
  const BATCHES_CAP: nat := WORKER_COUNT
  const ERRORS_CAP: nat := WORKER_COUNT + 1

  /** What the listing yields when nobody cancels: these names, and then an error or the end; and
      whether the first page may break off before its first line. */
  datatype Config = Config(names: seq<string>, fails: bool, breaks: bool)

  datatype Item = Name(name: string) | ListError

  datatype Lister =
    | Listing(rest: seq<string>)   // sending names; `rest` has not been sent yet
    | ListSendsError               // blocked on sending its error
    | ListCloses(err: bool)        // about to close the results channel
    | ListClosed(err: bool)

  datatype Forwarder =
    | FwdReceives
    | FwdSends(name: string)
    | FwdSendsError
    | FwdClosesNames(err: bool)
    | FwdClosesErrors(err: bool)
    | FwdDone(err: bool)

  datatype Batcher =
    | BatNew
    | BatSelects
    | BatSendsFull                 // blocked on handing over a full buffer
    | BatSendsLast                 // blocked on handing over what is left
    | BatSendsError
    | BatCloses(err: bool)
    | BatDone(err: bool)

  datatype Worker =
    | WrkNew
    | WrkSelects
    | WrkRequests(number: nat)     // the request for the batch with this number is in flight
    | WrkSendsError
    | WrkDone(err: bool)

  datatype Caller =
    | CallLooksUp                  // bucket and endpoint lookups of deleteObjects
    | CallSpawns(started: nat)
    | CallWaits                    // wg.Wait of deleteObjects
    | CallSelects
    | CallClosesErrors(ok: bool)
    | CallWaitsForwarder
    | CallReadsForwarder
    | CallReturned(ok: bool)

  /** The lister, the results channel, and the names that ever entered it. */
  datatype ListPart = ListPart(lister: Lister, results: seq<Item>, emitted: seq<string>)

  /** The forwarder, the names channel, its error channel, and the names that ever entered the
      names channel. */
  datatype FwdPart = FwdPart(forwarder: Forwarder, names: seq<string>, errors: nat, forwarded: seq<string>)

  /** The batcher and its buffer, the batch channel, the batches that ever entered it, and the
      names given up on cancellation. */
  datatype BatPart = BatPart(
    batcher: Batcher, buffer: Batch, batches: seq<Batch>, handed: seq<Batch>, dropped: seq<string>)

  /** What became of a batch that left the batch channel.  Batches are numbered from zero in the
      order in which they were handed over. */
  datatype Outcome = Pending(worker: nat) | Accepted | Refused

  /** The workers, and the outcome of each batch that ever left the batch channel. */
  datatype WrkPart = WrkPart(workers: seq<Worker>, outcomes: seq<Outcome>)

  /** The goroutine that called `CleanObjects`, and the error channel it reads. */
  datatype CallPart = CallPart(caller: Caller, errors: nat, errorsClosed: bool)

  datatype State = State(
    cancelled: bool, list: ListPart, fwd: FwdPart, bat: BatPart, wrk: WrkPart, call: CallPart)

  predicate NamesClosed(f: Forwarder) { f.FwdClosesErrors? || f.FwdDone? }

  function Init(cfg: Config): State {
    State(false,
          ListPart(Listing(cfg.names), [], []),
          FwdPart(FwdReceives, [], 0, []),
          BatPart(BatNew, [], [], [], []),
          WrkPart(seq(WORKER_COUNT, _ => WrkNew), []),
          CallPart(CallLooksUp, 0, false))
  }

  datatype ListAction = Emit | End | Fail | Cancelled | Cut | SendListError | CloseResults
  datatype FwdAction = Receive | RangeEnds | SendName | SendFwdError | CloseNames | CloseFwdErrors
  datatype BatAction = Abandon | Collect | StreamEnds | HandOver | SendBatError | CloseBatches
  datatype WrkAction = Quit | Take | Finish | Reply(ok: bool) | SendWrkError
  datatype CallAction =
    | Lookup(ok: bool) | Spawn | AllJoined | Select | CloseErrors | ForwarderJoined | ReadForwarder

  datatype Action =
    | Cancel
    | L(l: ListAction)
    | F(f: FwdAction)
    | B(b: BatAction)
    | W(i: nat, w: WrkAction)
    | C(c: CallAction)

  /** `Cancelled` is the context's error, from the `select` or from a list request.  `Cut` is the page
      reader giving up before the first item, on cancellation or because the body does not decode,
      which is only logged: the last marker is still empty, so the lister ends without an error. */
  predicate ListEnabled(cfg: Config, cancelled: bool, p: ListPart, a: ListAction) {
    match a
    case Emit => p.lister.Listing? && p.lister.rest != [] && |p.results| < RESULTS_CAP
    case End => p.lister == Listing([]) && !cfg.fails
    case Fail => p.lister == Listing([]) && cfg.fails
    case Cancelled => cancelled && p.lister.Listing? && (p.lister.rest != [] || p.emitted == [])
    case Cut => (cancelled || cfg.breaks) && p.lister.Listing? && p.emitted == []
    case SendListError => p.lister.ListSendsError? && |p.results| < RESULTS_CAP
    case CloseResults => p.lister.ListCloses?
  }

  function ListDo(cfg: Config, cancelled: bool, p: ListPart, a: ListAction): ListPart
    requires ListEnabled(cfg, cancelled, p, a)
  {
    match a
    case Emit =>
      var x := p.lister.rest[0];
      ListPart(Listing(p.lister.rest[1..]), p.results + [Name(x)], p.emitted + [x])
    case End => p.(lister := ListCloses(false))
    case Fail => p.(lister := ListSendsError)
    case Cancelled => p.(lister := ListSendsError)
    case Cut => p.(lister := ListCloses(false))
    case SendListError => p.(lister := ListCloses(true), results := p.results + [ListError])
    case CloseResults => p.(lister := ListClosed(p.lister.err))
  }

  predicate FwdEnabled(l: ListPart, p: FwdPart, a: FwdAction) {
    match a
    case Receive => p.forwarder.FwdReceives? && l.results != []
    case RangeEnds => p.forwarder.FwdReceives? && l.results == [] && l.lister.ListClosed?
    case SendName => p.forwarder.FwdSends? && |p.names| < NAMES_CAP
    case SendFwdError => p.forwarder.FwdSendsError? && p.errors < FORWARD_ERRORS_CAP
    case CloseNames => p.forwarder.FwdClosesNames?
    case CloseFwdErrors => p.forwarder.FwdClosesErrors?
  }

  function FwdDo(l: ListPart, p: FwdPart, a: FwdAction): FwdPart
    requires FwdEnabled(l, p, a)
  {
    match a
    case Receive => p.(forwarder := if l.results[0].Name? then FwdSends(l.results[0].name) else FwdSendsError)
    case RangeEnds => p.(forwarder := FwdClosesNames(false))
    case SendName =>
      var x := p.forwarder.name;
      FwdPart(FwdReceives, p.names + [x], p.errors, p.forwarded + [x])
    case SendFwdError => p.(forwarder := FwdClosesNames(true), errors := p.errors + 1)
    case CloseNames => p.(forwarder := FwdClosesErrors(p.forwarder.err))
    case CloseFwdErrors => p.(forwarder := FwdDone(p.forwarder.err))
  }

  predicate BatEnabled(cancelled: bool, f: FwdPart, p: BatPart, errors: nat, a: BatAction) {
    match a
    case Abandon => p.batcher.BatSelects? && cancelled
    case Collect => p.batcher.BatSelects? && f.names != []
    case StreamEnds => p.batcher.BatSelects? && f.names == [] && NamesClosed(f.forwarder)
    case HandOver => (p.batcher.BatSendsFull? || p.batcher.BatSendsLast?) && |p.batches| < BATCHES_CAP
    case SendBatError => p.batcher.BatSendsError? && errors < ERRORS_CAP
    case CloseBatches => p.batcher.BatCloses?
  }

  function BatDo(cancelled: bool, f: FwdPart, p: BatPart, errors: nat, a: BatAction): BatPart
    requires BatEnabled(cancelled, f, p, errors, a)
  {
    match a
    case Abandon => p.(batcher := BatSendsError, buffer := [], dropped := p.buffer)
    case Collect =>
      var b := p.buffer + [f.names[0]];
      p.(buffer := b, batcher := if |b| >= MAX_BATCH_SIZE then BatSendsFull else BatSelects)
    case StreamEnds => p.(batcher := if |p.buffer| > 0 then BatSendsLast else BatCloses(false))
    case HandOver =>
      p.(batches := p.batches + [p.buffer], handed := p.handed + [p.buffer], buffer := [],
      batcher := if p.batcher.BatSendsFull? then BatSelects else BatCloses(false))
    case SendBatError => p.(batcher := BatCloses(true))
    case CloseBatches => p.(batcher := BatDone(p.batcher.err))
  }

  predicate WrkEnabled(cancelled: bool, b: BatPart, w: Worker, errors: nat, a: WrkAction) {
    match a
    case Quit => w.WrkSelects? && cancelled
    case Take => w.WrkSelects? && b.batches != []
    case Finish => w.WrkSelects? && b.batches == [] && b.batcher.BatDone?
    case Reply(_) => w.WrkRequests?
    case SendWrkError => w.WrkSendsError? && errors < ERRORS_CAP
  }

  /** The worker's own next state; `number` is the number of the batch at the head of the channel. */
  function WrkNext(w: Worker, number: nat, a: WrkAction): Worker {
    match a
    case Quit => WrkSendsError
    case Take => WrkRequests(number)
    case Finish => WrkDone(false)
    case Reply(ok) => if ok then WrkSelects else WrkSendsError
    case SendWrkError => WrkDone(true)
  }

  /** A worker step.  A reply settles the batch the worker carries. */
  function WrkDo(p: WrkPart, i: nat, a: WrkAction): WrkPart
    requires i < |p.workers| && (a.Reply? ==> p.workers[i].WrkRequests?)
  {
    var w := p.workers[i];
    WrkPart(p.workers[i := WrkNext(w, |p.outcomes|, a)],
            match a
            case Take => p.outcomes + [Pending(i)]
            case Reply(ok) =>
              if w.number < |p.outcomes| then p.outcomes[w.number := if ok then Accepted else Refused] else p.outcomes
            case _ => p.outcomes)
  }

  predicate CallEnabled(s: State, a: CallAction) {
    match a
    case Lookup(_) => s.call.caller.CallLooksUp?
    case Spawn => s.call.caller.CallSpawns?
    case AllJoined =>
      s.call.caller.CallWaits? && s.bat.batcher.BatDone? && forall w :: w in s.wrk.workers ==> w.WrkDone?
    case Select => s.call.caller.CallSelects?
    case CloseErrors => s.call.caller.CallClosesErrors?
    case ForwarderJoined => s.call.caller.CallWaitsForwarder? && s.fwd.forwarder.FwdDone?
    case ReadForwarder => s.call.caller.CallReadsForwarder? && (s.fwd.errors > 0 || s.fwd.forwarder.FwdDone?)
  }

  function CallNext(p: CallPart, workers: nat, fwdErrors: nat, a: CallAction): CallPart {
    match a
    case Lookup(ok) => p.(caller := if ok then CallSpawns(0) else CallReturned(false))
    case Spawn =>
      if p.caller.CallSpawns? && p.caller.started < workers
      then p.(caller := CallSpawns(p.caller.started + 1)) else p.(caller := CallWaits)
    case AllJoined => p.(caller := CallSelects)
    case Select =>
      if p.errors > 0 then p.(caller := CallClosesErrors(false), errors := p.errors - 1)
      else p.(caller := CallClosesErrors(true))
    case CloseErrors =>
      p.(errorsClosed := true,
      caller := if p.caller == CallClosesErrors(true) then CallWaitsForwarder else CallReturned(false))
    case ForwarderJoined => p.(caller := CallReadsForwarder)
    case ReadForwarder => p.(caller := CallReturned(fwdErrors == 0))
  }

  function CallDo(s: State, a: CallAction): State
    requires CallEnabled(s, a)
  {
    var t := s.(call := CallNext(s.call, |s.wrk.workers|, s.fwd.errors, a));
    match a
    case Spawn =>
      var k := s.call.caller.started;
      if k < |s.wrk.workers| then t.(wrk := s.wrk.(workers := s.wrk.workers[k := WrkSelects]))
      else t.(bat := s.bat.(batcher := BatSelects))
    case ReadForwarder => if s.fwd.errors > 0 then t.(fwd := s.fwd.(errors := s.fwd.errors - 1)) else t
    case _ => t
  }

  /** When an action can happen. */
  predicate Enabled(cfg: Config, s: State, a: Action) {
    match a
    case Cancel => !s.cancelled
    case L(l) => ListEnabled(cfg, s.cancelled, s.list, l)
    case F(f) => FwdEnabled(s.list, s.fwd, f)
    case B(b) => BatEnabled(s.cancelled, s.fwd, s.bat, s.call.errors, b)
    case W(i, w) => i < |s.wrk.workers| && WrkEnabled(s.cancelled, s.bat, s.wrk.workers[i], s.call.errors, w)
    case C(c) => CallEnabled(s, c)
  }

  /** The state after an action. */
  function Do(cfg: Config, s: State, a: Action): State
    requires Enabled(cfg, s, a)
  {
    match a
    case Cancel => s.(cancelled := true)
    case L(l) => s.(list := ListDo(cfg, s.cancelled, s.list, l))
    case F(f) =>
      s.(fwd := FwdDo(s.list, s.fwd, f),
      list := if f.Receive? then s.list.(results := s.list.results[1..]) else s.list)
    case B(b) =>
      s.(bat := BatDo(s.cancelled, s.fwd, s.bat, s.call.errors, b),
      fwd := if b.Collect? then s.fwd.(names := s.fwd.names[1..]) else s.fwd,
      call := if b.SendBatError? then s.call.(errors := s.call.errors + 1) else s.call)
    case W(i, w) =>
      s.(wrk := WrkDo(s.wrk, i, w),
      bat := if w.Take? then s.bat.(batches := s.bat.batches[1..]) else s.bat,
      call := if w.SendWrkError? then s.call.(errors := s.call.errors + 1) else s.call)
    case C(c) => CallDo(s, c)
  }

  /** A run: the states passed through, and the actions between them. */
  ghost predicate IsRun(cfg: Config, states: seq<State>, actions: seq<Action>) {
    && |states| == |actions| + 1
    && states[0] == Init(cfg)
    && forall i {:trigger actions[i]} :: 0 <= i < |actions| ==>
         Enabled(cfg, states[i], actions[i]) && states[i + 1] == Do(cfg, states[i], actions[i])
  }

  ghost predicate Reachable(cfg: Config, s: State) {
    exists states, actions :: IsRun(cfg, states, actions) && states[|actions|] == s
  }

  /** No goroutine can move although `CleanObjects` has not returned. */
  ghost predicate Stuck(cfg: Config, s: State) {
    !s.call.caller.CallReturned? && forall a :: a != Cancel ==> !Enabled(cfg, s, a)
  }

  lemma ReachInit(cfg: Config)
    ensures Reachable(cfg, Init(cfg))
  {
    assert IsRun(cfg, [Init(cfg)], []);
  }

  lemma ReachStep(cfg: Config, s: State, a: Action)
    requires Reachable(cfg, s) && Enabled(cfg, s, a)
    ensures Reachable(cfg, Do(cfg, s, a))
  {
    var states, actions :| IsRun(cfg, states, actions) && states[|actions|] == s;
    assert IsRun(cfg, states + [Do(cfg, s, a)], actions + [a]);
  }
}
