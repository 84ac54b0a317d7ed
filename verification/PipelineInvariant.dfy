/** What every step of the bucket-emptying pipeline keeps. */
module PipelineInvariant {
  import opened Batching
  import opened Pipeline

  /** How many workers have put their error into the error channel. */
  function ErrorsSent(ws: seq<Worker>): nat {
    if ws == [] then 0 else Reported(ws[0]) + ErrorsSent(ws[1..])
  }

  function Reported(w: Worker): nat { if w == WrkDone(true) then 1 else 0 }

  /** How many workers have stopped working because of an error. */
  function Errored(ws: seq<Worker>): nat {
    if ws == [] then 0 else GaveUp(ws[0]) + Errored(ws[1..])
  }

  function GaveUp(w: Worker): nat { if w == WrkDone(true) || w.WrkSendsError? then 1 else 0 }

  lemma {:induction false} UpdateCounts(ws: seq<Worker>, i: nat, w: Worker)
    requires i < |ws|
    ensures ErrorsSent(ws[i := w]) + Reported(ws[i]) == ErrorsSent(ws) + Reported(w)
    ensures Errored(ws[i := w]) + GaveUp(ws[i]) == Errored(ws) + GaveUp(w)
  {
    if i == 0 {
      assert ws[i := w][1..] == ws[1..];
    } else {
      assert ws[i := w][1..] == ws[1..][i - 1 := w];
      UpdateCounts(ws[1..], i - 1, w);
    }
  }

  lemma {:induction false} CountBounds(ws: seq<Worker>)
    ensures ErrorsSent(ws) <= Errored(ws) <= |ws|
    ensures Errored(ws) == |ws| <==> forall i :: 0 <= i < |ws| ==> GaveUp(ws[i]) == 1
    ensures ErrorsSent(ws) == |ws| <==> forall i :: 0 <= i < |ws| ==> Reported(ws[i]) == 1
    ensures ErrorsSent(ws) == 0 <==> forall i :: 0 <= i < |ws| ==> Reported(ws[i]) == 0
  {
    if ws != [] {
      CountBounds(ws[1..]);
      forall i | 0 < i < |ws| ensures ws[i] == ws[1..][i - 1] {}
    }
  }

  /** How many delete requests have been refused. */
  function RefusedCount(os: seq<Outcome>): nat {
    if os == [] then 0 else (if os[0].Refused? then 1 else 0) + RefusedCount(os[1..])
  }

  lemma {:induction false} UpdateRefused(os: seq<Outcome>, i: nat, o: Outcome)
    requires i < |os|
    ensures RefusedCount(os[i := o]) + (if os[i].Refused? then 1 else 0)
         == RefusedCount(os) + (if o.Refused? then 1 else 0)
  {
    if i == 0 {
      assert os[i := o][1..] == os[1..];
    } else {
      assert os[i := o][1..] == os[1..][i - 1 := o];
      UpdateRefused(os[1..], i - 1, o);
    }
  }

  lemma {:induction false} RefusedSnoc(os: seq<Outcome>, o: Outcome)
    ensures RefusedCount(os + [o]) == RefusedCount(os) + (if o.Refused? then 1 else 0)
  {
    if os == [] {
      assert os + [o] == [o];
    } else {
      assert (os + [o])[1..] == os[1..] + [o];
      RefusedSnoc(os[1..], o);
    }
  }

  lemma {:induction false} RefusedBounds(os: seq<Outcome>)
    ensures RefusedCount(os) <= |os|
    ensures RefusedCount(os) == 0 <==> forall i :: 0 <= i < |os| ==> !os[i].Refused?
  {
    if os != [] {
      RefusedBounds(os[1..]);
      forall i | 0 < i < |os| ensures os[i] == os[1..][i - 1] {}
    }
  }

  function NamesOf(items: seq<Item>): seq<string> {
    if items == [] then []
    else (if items[0].Name? then [items[0].name] else []) + NamesOf(items[1..])
  }

  lemma {:induction false} NamesOfSnoc(items: seq<Item>, x: Item)
    ensures NamesOf(items + [x]) == NamesOf(items) + (if x.Name? then [x.name] else [])
  {
    if items == [] {
      assert items + [x] == [x];
    } else {
      assert (items + [x])[1..] == items[1..] + [x];
      NamesOfSnoc(items[1..], x);
    }
  }

  predicate ListFailed(l: Lister) { (l.ListCloses? || l.ListClosed?) && l.err }
  predicate ListEnded(l: Lister) { (l.ListCloses? || l.ListClosed?) && !l.err }

  function Held(f: Forwarder): seq<string> { if f.FwdSends? then [f.name] else [] }
  predicate FwdEnds(f: Forwarder) { f.FwdClosesNames? || f.FwdClosesErrors? || f.FwdDone? }
  predicate FwdFailed(f: Forwarder) { FwdEnds(f) && f.err }
  predicate BatFailed(b: Batcher) { (b.BatCloses? || b.BatDone?) && b.err }
  predicate BatEnded(b: Batcher) { (b.BatCloses? || b.BatDone?) && !b.err }

  /** The listing so far is a prefix of what the server holds; it ends early only through
      cancellation, an error or a broken first page, and an error is the last item of the results channel. */
  ghost predicate ListInv(cfg: Config, cancelled: bool, p: ListPart, f: Forwarder) {
    && (if p.lister.Listing? then p.emitted + p.lister.rest == cfg.names else p.emitted <= cfg.names)
    && (ListEnded(p.lister) ==>
          (p.emitted == cfg.names && !cfg.fails) || ((cancelled || cfg.breaks) && p.emitted == []))
    && (p.lister.ListSendsError? || ListFailed(p.lister) ==> cancelled || cfg.fails)
    && |p.results| <= RESULTS_CAP
    && (forall i :: 0 <= i < |p.results| && p.results[i].ListError? ==> i == |p.results| - 1 && ListFailed(p.lister))
    && (ListFailed(p.lister) && !f.FwdSendsError? && !FwdFailed(f) ==>
          p.results != [] && p.results[|p.results| - 1].ListError?)
    && (f.FwdSendsError? || FwdFailed(f) ==> ListFailed(p.lister))
  }

  /** The results channel holds exactly what was listed and not yet forwarded, in order. */
  ghost predicate FwdInv(l: ListPart, p: FwdPart, returned: bool) {
    && l.emitted == p.forwarded + (Held(p.forwarder) + NamesOf(l.results))
    && (FwdEnds(p.forwarder) && !p.forwarder.err ==> l.results == [] && l.lister == ListClosed(false))
    && |p.names| <= NAMES_CAP
    && (if FwdFailed(p.forwarder) then p.errors <= 1 && (!returned ==> p.errors == 1) else p.errors == 0)
  }

  /** Every forwarded name is in a batch handed over, in the buffer, given up, or still in the
      names channel, in this order; batches are full except the last one of a finished stream. */
  ghost predicate BatInv(f: FwdPart, p: BatPart) {
    && f.forwarded == Flatten(p.handed) + (p.buffer + p.dropped + f.names)
    && BufferFits(p.batcher, p.buffer)
    && (p.batcher.BatNew? ==> p.handed == [])
    && (p.dropped != [] ==> p.batcher.BatSendsError? || BatFailed(p.batcher))
    && (if BatEnded(p.batcher) then AllFullButLast(p.handed) else AllFull(p.handed))
    && (p.batcher.BatSendsLast? || BatEnded(p.batcher) ==> f.names == [] && NamesClosed(f.forwarder))
  }

  ghost predicate BufferFits(b: Batcher, buffer: Batch) {
    match b
    case BatSelects => |buffer| < MAX_BATCH_SIZE
    case BatSendsFull => |buffer| == MAX_BATCH_SIZE
    case BatSendsLast => 0 < |buffer| < MAX_BATCH_SIZE
    case _ => buffer == []
  }

  /** Every batch handed over is in the batch channel, in flight with exactly one worker, accepted
      or refused, and the channel keeps their order. */
  ghost predicate WrkInv(cancelled: bool, b: BatPart, p: WrkPart) {
    && |p.workers| == WORKER_COUNT
    && |b.batches| <= BATCHES_CAP
    && |p.outcomes| + |b.batches| == |b.handed|
    && b.batches == b.handed[|p.outcomes|..]
    && Carried(p.workers, p.outcomes)
    && RefusedCount(p.outcomes) <= Errored(p.workers)
    && (!cancelled ==> RefusedCount(p.outcomes) == Errored(p.workers))
    && (forall i :: 0 <= i < |p.workers| && p.workers[i] == WrkDone(false) ==> b.batches == [] && b.batcher.BatDone?)
    && (b.batcher.BatSendsError? || BatFailed(b.batcher) ==> cancelled)
  }

  ghost predicate Carried(ws: seq<Worker>, os: seq<Outcome>) {
    && (forall i :: 0 <= i < |ws| && ws[i].WrkRequests? ==> ws[i].number < |os| && os[ws[i].number] == Pending(i))
    && (forall k :: 0 <= k < |os| && os[k].Pending? ==> os[k].worker < |ws| && ws[os[k].worker] == WrkRequests(k))
  }

  /** The caller's `select` has not consumed an error yet. */
  predicate BeforeSelect(c: Caller) { c.CallLooksUp? || c.CallSpawns? || c.CallWaits? || c.CallSelects? }
  predicate AfterNoError(c: Caller) {
    c == CallClosesErrors(true) || c.CallWaitsForwarder? || c.CallReadsForwarder? || c == CallReturned(true)
  }

  ghost predicate AllDone(b: Batcher, ws: seq<Worker>) {
    b.BatDone? && forall i :: 0 <= i < |ws| ==> ws[i].WrkDone?
  }

  ghost predicate NoneStarted(b: Batcher, ws: seq<Worker>) {
    b.BatNew? && forall i :: 0 <= i < |ws| ==> ws[i].WrkNew?
  }

  ghost predicate Progress(c: Caller, b: Batcher, ws: seq<Worker>) {
    match c
    case CallLooksUp => NoneStarted(b, ws)
    case CallSpawns(k) => k <= |ws| && b.BatNew? && forall i :: 0 <= i < |ws| ==> (ws[i].WrkNew? <==> k <= i)
    case CallWaits => !b.BatNew? && forall i :: 0 <= i < |ws| ==> !ws[i].WrkNew?
    case CallReturned(ok) => AllDone(b, ws) || (!ok && NoneStarted(b, ws))
    case _ => AllDone(b, ws)
  }

  /** The error channel holds one error per failed goroutine until the caller reads it, and is
      closed only when nobody is left to send. */
  ghost predicate CallInv(f: Forwarder, b: Batcher, ws: seq<Worker>, p: CallPart) {
    && (BeforeSelect(p.caller) ==> p.errors == ErrorsSent(ws) + (if BatFailed(b) then 1 else 0))
    && (AfterNoError(p.caller) ==> ErrorsSent(ws) == 0 && !BatFailed(b))
    && Progress(p.caller, b, ws)
    && (p.errorsClosed ==> AllDone(b, ws))
    && (p.caller.CallReadsForwarder? ==> f.FwdDone?)
    && (p.caller == CallReturned(true) ==> f == FwdDone(false))
    && (p.caller == CallClosesErrors(false) || p.caller == CallReturned(false) ==>
          NoneStarted(b, ws) || ErrorsSent(ws) > 0 || BatFailed(b) || FwdFailed(f))
  }

  ghost predicate Inv(cfg: Config, s: State) {
    && ListInv(cfg, s.cancelled, s.list, s.fwd.forwarder)
    && FwdInv(s.list, s.fwd, s.call.caller.CallReturned?)
    && BatInv(s.fwd, s.bat)
    && WrkInv(s.cancelled, s.bat, s.wrk)
    && CallInv(s.fwd.forwarder, s.bat.batcher, s.wrk.workers, s.call)
  }

  lemma {:induction false} NobodyErrored(ws: seq<Worker>)
    requires forall i :: 0 <= i < |ws| ==> GaveUp(ws[i]) == 0
    ensures Errored(ws) == 0
  {
    if ws != [] {
      NobodyErrored(ws[1..]);
    }
  }

  lemma InitInv(cfg: Config)
    ensures Inv(cfg, Init(cfg))
  {
    var ws := Init(cfg).wrk.workers;
    CountBounds(ws);
    NobodyErrored(ws);
  }

  lemma CancelStep(cfg: Config, s: State)
    requires Inv(cfg, s)
    ensures Inv(cfg, s.(cancelled := true))
  {
  }

  // -- lister ------------------------------------------------------------------------------------

  lemma ListStepList(cfg: Config, c: bool, p: ListPart, f: Forwarder, a: ListAction)
    requires ListInv(cfg, c, p, f) && ListEnabled(cfg, c, p, a)
    ensures ListInv(cfg, c, ListDo(cfg, c, p, a), f)
  {
    if a.Emit? {
      var q := ListDo(cfg, c, p, a);
      assert p.lister.rest == [p.lister.rest[0]] + q.lister.rest;
    }
  }

  lemma ListStepFwd(cfg: Config, c: bool, l: ListPart, p: FwdPart, returned: bool, a: ListAction)
    requires ListEnabled(cfg, c, l, a) && FwdInv(l, p, returned)
    ensures FwdInv(ListDo(cfg, c, l, a), p, returned)
  {
    if a.Emit? {
      NamesOfSnoc(l.results, Name(l.lister.rest[0]));
    } else if a.SendListError? {
      NamesOfSnoc(l.results, ListError);
    }
  }

  lemma ListStep(cfg: Config, s: State, a: ListAction)
    requires Inv(cfg, s) && Enabled(cfg, s, L(a))
    ensures Inv(cfg, Do(cfg, s, L(a)))
  {
    ListStepList(cfg, s.cancelled, s.list, s.fwd.forwarder, a);
    ListStepFwd(cfg, s.cancelled, s.list, s.fwd, s.call.caller.CallReturned?, a);
  }

  // -- forwarder ---------------------------------------------------------------------------------

  /** The results channel after a forwarder step. */
  function Consumed(l: ListPart, p: FwdPart, a: FwdAction): ListPart
    requires FwdEnabled(l, p, a)
  {
    if a.Receive? then l.(results := l.results[1..]) else l
  }

  lemma FwdStepList(cfg: Config, c: bool, l: ListPart, p: FwdPart, a: FwdAction)
    requires ListInv(cfg, c, l, p.forwarder) && FwdEnabled(l, p, a)
    ensures ListInv(cfg, c, Consumed(l, p, a), FwdDo(l, p, a).forwarder)
  {
  }

  lemma FwdStepFwd(cfg: Config, c: bool, l: ListPart, p: FwdPart, returned: bool, a: FwdAction)
    requires ListInv(cfg, c, l, p.forwarder) && FwdInv(l, p, returned) && FwdEnabled(l, p, a)
    ensures FwdInv(Consumed(l, p, a), FwdDo(l, p, a), returned)
  {
    if a.SendName? {
      PassOn(p.forwarded, p.forwarder.name, NamesOf(l.results));
    } else if a.Receive? {
      ReceiveOne(l.results);
    }
  }

  lemma ReceiveOne(items: seq<Item>)
    requires items != []
    ensures NamesOf(items) == (if items[0].Name? then [items[0].name] else []) + NamesOf(items[1..])
  {
  }

  lemma PassOn(a: seq<string>, x: string, b: seq<string>)
    ensures a + ([x] + b) == (a + [x]) + ([] + b)
  {
  }

  lemma FwdStepBat(l: ListPart, p: FwdPart, b: BatPart, a: FwdAction)
    requires BatInv(p, b) && FwdEnabled(l, p, a)
    requires b.batcher.BatSendsLast? || BatEnded(b.batcher) ==> !a.SendName?
    ensures BatInv(FwdDo(l, p, a), b)
  {
    if a.SendName? {
      Regroup(Flatten(b.handed), b.buffer + b.dropped, p.names, p.forwarder.name);
    }
  }

  lemma Regroup(a: seq<string>, b: seq<string>, c: seq<string>, x: string)
    ensures a + (b + c) + [x] == a + (b + (c + [x]))
  {
  }

  lemma FwdStep(cfg: Config, s: State, a: FwdAction)
    requires Inv(cfg, s) && Enabled(cfg, s, F(a))
    ensures Inv(cfg, Do(cfg, s, F(a)))
  {
    FwdStepList(cfg, s.cancelled, s.list, s.fwd, a);
    FwdStepFwd(cfg, s.cancelled, s.list, s.fwd, s.call.caller.CallReturned?, a);
    FwdStepBat(s.list, s.fwd, s.bat, a);
  }

  // -- batcher -----------------------------------------------------------------------------------

  /** The names channel after a batcher step. */
  function Drained(c: bool, f: FwdPart, p: BatPart, e: nat, a: BatAction): FwdPart
    requires BatEnabled(c, f, p, e, a)
  {
    if a.Collect? then f.(names := f.names[1..]) else f
  }

  lemma BatStepBat(c: bool, f: FwdPart, p: BatPart, e: nat, a: BatAction)
    requires BatInv(f, p) && BatEnabled(c, f, p, e, a)
    ensures BatInv(Drained(c, f, p, e, a), BatDo(c, f, p, e, a))
  {
    match a {
      case Collect => MoveOne(p.buffer, f.names);
      case HandOver =>
        FlattenSnoc(p.handed, p.buffer);
        MoveBatch(Flatten(p.handed), p.buffer, f.names);
      case Abandon => assert p.buffer + [] == [] + p.buffer;
      case _ =>
    }
  }

  lemma MoveOne(a: seq<string>, b: seq<string>)
    requires b != []
    ensures a + [] + b == (a + [b[0]]) + [] + b[1..]
  {
  }

  lemma MoveBatch(a: seq<string>, b: seq<string>, c: seq<string>)
    ensures a + (b + [] + c) == (a + b) + ([] + [] + c)
  {
  }

  lemma BatStepWrk(c: bool, f: FwdPart, p: BatPart, e: nat, w: WrkPart, a: BatAction)
    requires WrkInv(c, p, w) && BatEnabled(c, f, p, e, a)
    ensures WrkInv(c, BatDo(c, f, p, e, a), w)
  {
    if a.HandOver? {
      assert (p.handed + [p.buffer])[|w.outcomes|..] == p.handed[|w.outcomes|..] + [p.buffer];
    }
  }

  lemma BatStepCall(c: bool, f: FwdPart, p: BatPart, ws: seq<Worker>, q: CallPart, a: BatAction)
    requires CallInv(f.forwarder, p.batcher, ws, q) && BatEnabled(c, f, p, q.errors, a)
    ensures CallInv(f.forwarder, BatDo(c, f, p, q.errors, a).batcher, ws,
                    if a.SendBatError? then q.(errors := q.errors + 1) else q)
  {
  }

  lemma BatStep(cfg: Config, s: State, a: BatAction)
    requires Inv(cfg, s) && Enabled(cfg, s, B(a))
    ensures Inv(cfg, Do(cfg, s, B(a)))
  {
    BatStepBat(s.cancelled, s.fwd, s.bat, s.call.errors, a);
    BatStepWrk(s.cancelled, s.fwd, s.bat, s.call.errors, s.wrk, a);
    BatStepCall(s.cancelled, s.fwd, s.bat, s.wrk.workers, s.call, a);
  }

  // -- workers -----------------------------------------------------------------------------------

  lemma WrkStepCarried(c: bool, b: BatPart, p: WrkPart, e: nat, i: nat, a: WrkAction)
    requires Carried(p.workers, p.outcomes) && i < |p.workers| && WrkEnabled(c, b, p.workers[i], e, a)
    ensures Carried(WrkDo(p, i, a).workers, WrkDo(p, i, a).outcomes)
  {
  }

  lemma WrkStepWrk(c: bool, b: BatPart, p: WrkPart, e: nat, i: nat, a: WrkAction)
    requires WrkInv(c, b, p) && i < |p.workers| && WrkEnabled(c, b, p.workers[i], e, a)
    ensures WrkInv(c, if a.Take? then b.(batches := b.batches[1..]) else b, WrkDo(p, i, a))
  {
    WrkStepCarried(c, b, p, e, i, a);
    UpdateCounts(p.workers, i, WrkNext(p.workers[i], |p.outcomes|, a));
    if a.Take? {
      RefusedSnoc(p.outcomes, Pending(i));
      assert b.batches[1..] == b.handed[|p.outcomes| + 1..];
    } else if a.Reply? {
      UpdateRefused(p.outcomes, p.workers[i].number, if a.ok then Accepted else Refused);
    }
  }

  lemma WrkStepCall(c: bool, f: Forwarder, b: BatPart, ws: seq<Worker>, q: CallPart, i: nat, n: nat, a: WrkAction)
    requires CallInv(f, b.batcher, ws, q) && i < |ws| && WrkEnabled(c, b, ws[i], q.errors, a)
    ensures CallInv(f, b.batcher, ws[i := WrkNext(ws[i], n, a)],
                    if a.SendWrkError? then q.(errors := q.errors + 1) else q)
  {
    UpdateCounts(ws, i, WrkNext(ws[i], n, a));
  }

  lemma WrkStep(cfg: Config, s: State, i: nat, a: WrkAction)
    requires Inv(cfg, s) && Enabled(cfg, s, W(i, a))
    ensures Inv(cfg, Do(cfg, s, W(i, a)))
  {
    WrkStepWrk(s.cancelled, s.bat, s.wrk, s.call.errors, i, a);
    WrkStepCall(s.cancelled, s.fwd.forwarder, s.bat, s.wrk.workers, s.call, i, |s.wrk.outcomes|, a);
  }

  // -- caller ------------------------------------------------------------------------------------

  lemma CallStepSpawn(c: bool, f: Forwarder, b: BatPart, p: WrkPart, q: CallPart)
    requires WrkInv(c, b, p) && CallInv(f, b.batcher, p.workers, q)
    requires q.caller.CallSpawns? && q.caller.started < |p.workers|
    ensures var k := q.caller.started; var ws := p.workers[k := WrkSelects];
            && WrkInv(c, b, p.(workers := ws))
            && CallInv(f, b.batcher, ws, q.(caller := CallSpawns(k + 1)))
  {
    UpdateCounts(p.workers, q.caller.started, WrkSelects);
  }

  lemma CallStepCall(s: State, a: CallAction)
    requires FwdInv(s.list, s.fwd, s.call.caller.CallReturned?)
    requires CallInv(s.fwd.forwarder, s.bat.batcher, s.wrk.workers, s.call)
    requires CallEnabled(s, a) && !a.Spawn?
    ensures CallInv(s.fwd.forwarder, s.bat.batcher, s.wrk.workers, CallNext(s.call, |s.wrk.workers|, s.fwd.errors, a))
  {
    if a.AllJoined? {
      forall i | 0 <= i < |s.wrk.workers| ensures s.wrk.workers[i].WrkDone? {
        assert s.wrk.workers[i] in s.wrk.workers;
      }
    }
  }

  /** After the workers the batcher is started. */
  lemma CallStepStart(c: bool, f: FwdPart, b: BatPart, p: WrkPart, q: CallPart)
    requires BatInv(f, b) && WrkInv(c, b, p) && CallInv(f.forwarder, b.batcher, p.workers, q)
    requires q.caller.CallSpawns? && q.caller.started >= |p.workers|
    ensures var d := b.(batcher := BatSelects);
            BatInv(f, d) && WrkInv(c, d, p) && CallInv(f.forwarder, BatSelects, p.workers, q.(caller := CallWaits))
  {
  }

  lemma SpawnStep(cfg: Config, s: State)
    requires Inv(cfg, s) && Enabled(cfg, s, C(Spawn))
    ensures Inv(cfg, Do(cfg, s, C(Spawn)))
  {
    if s.call.caller.started < |s.wrk.workers| {
      CallStepSpawn(s.cancelled, s.fwd.forwarder, s.bat, s.wrk, s.call);
    } else {
      CallStepStart(s.cancelled, s.fwd, s.bat, s.wrk, s.call);
    }
  }

  lemma CallStep(cfg: Config, s: State, a: CallAction)
    requires Inv(cfg, s) && Enabled(cfg, s, C(a))
    ensures Inv(cfg, Do(cfg, s, C(a)))
  {
    if a.Spawn? {
      SpawnStep(cfg, s);
    } else {
      CallStepCall(s, a);
    }
  }

  // -- runs --------------------------------------------------------------------------------------

  lemma StepInv(cfg: Config, s: State, a: Action)
    requires Inv(cfg, s) && Enabled(cfg, s, a)
    ensures Inv(cfg, Do(cfg, s, a))
  {
    match a {
      case Cancel => CancelStep(cfg, s);
      case L(l) => ListStep(cfg, s, l);
      case F(f) => FwdStep(cfg, s, f);
      case B(b) => BatStep(cfg, s, b);
      case W(i, w) => WrkStep(cfg, s, i, w);
      case C(c) => CallStep(cfg, s, c);
    }
  }

  lemma RunStepInv(cfg: Config, states: seq<State>, actions: seq<Action>, i: nat)
    requires IsRun(cfg, states, actions) && i < |actions| && Inv(cfg, states[i])
    ensures Inv(cfg, states[i + 1])
  {
    StepInv(cfg, states[i], actions[i]);
  }

  lemma {:induction false} RunInv(cfg: Config, states: seq<State>, actions: seq<Action>, i: nat)
    requires IsRun(cfg, states, actions) && i <= |actions|
    ensures Inv(cfg, states[i])
  {
    if i == 0 {
      InitInv(cfg);
    } else {
      RunInv(cfg, states, actions, i - 1);
      RunStepInv(cfg, states, actions, i - 1);
    }
  }

  lemma ReachableInv(cfg: Config, s: State)
    requires Reachable(cfg, s)
    ensures Inv(cfg, s)
  {
    var states, actions :| IsRun(cfg, states, actions) && states[|actions|] == s;
    RunInv(cfg, states, actions, |actions|);
  }
}
