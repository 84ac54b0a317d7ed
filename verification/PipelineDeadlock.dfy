/** When `CleanObjects` hangs.  The batcher hands batches over with a plain send, so it waits for
    ever once all ten workers have given up and the batch channel is full.  This is the only way in
    which the pipeline can fail to return, and it can happen exactly for large enough buckets. */
module PipelineDeadlock {
  import opened Batching
  import opened Pipeline
  import opened PipelineInvariant

  /** All workers have ended with an error, and the batcher waits for room in a full channel. */
  ghost predicate Deadlocked(s: State) {
    && s.call.caller.CallWaits?
    && (s.bat.batcher.BatSendsFull? || s.bat.batcher.BatSendsLast?)
    && |s.bat.batches| == BATCHES_CAP
    && |s.wrk.workers| == WORKER_COUNT
    && forall i :: 0 <= i < |s.wrk.workers| ==> s.wrk.workers[i] == WrkDone(true)
  }

  /** A deadlock is final: no step of anyone, and no cancellation, resolves it. */
  lemma DeadlockIsFinal(cfg: Config, s: State, a: Action)
    requires Deadlocked(s) && Enabled(cfg, s, a)
    ensures Deadlocked(Do(cfg, s, a))
  {
  }

  // -- nothing else blocks -----------------------------------------------------------------------

  lemma FeederMoves(cfg: Config, s: State) returns (a: Action)
    requires ListInv(cfg, s.cancelled, s.list, s.fwd.forwarder) && FwdInv(s.list, s.fwd, s.call.caller.CallReturned?)
    requires |s.fwd.names| < NAMES_CAP && !s.fwd.forwarder.FwdDone?
    ensures a != Cancel && Enabled(cfg, s, a)
  {
    match s.fwd.forwarder {
      case FwdReceives =>
        if s.list.results != [] {
          a := F(Receive);
        } else {
          match s.list.lister {
            case Listing(rest) => a := L(if rest != [] then Emit else if cfg.fails then Fail else End);
            case ListSendsError => a := L(SendListError);
            case ListCloses(_) => a := L(CloseResults);
            case ListClosed(_) => a := F(RangeEnds);
          }
        }
      case FwdSends(_) => a := F(SendName);
      case FwdSendsError => a := F(SendFwdError);
      case FwdClosesNames(_) => a := F(CloseNames);
      case FwdClosesErrors(_) => a := F(CloseFwdErrors);
    }
  }

  predicate Idle(w: Worker) { w.WrkSelects? || w.WrkDone? }

  /** With every worker idle or done, and the caller waiting for them. */
  lemma BatcherMoves(cfg: Config, s: State) returns (a: Action)
    requires Inv(cfg, s) && s.call.caller.CallWaits? && !Deadlocked(s)
    requires forall i :: 0 <= i < |s.wrk.workers| ==> Idle(s.wrk.workers[i])
    ensures a != Cancel && Enabled(cfg, s, a)
  {
    var b := s.bat.batcher;
    CountBounds(s.wrk.workers);
    if b.BatSelects? {
      a := SelectorMoves(cfg, s);
    } else if b.BatSendsError? {
      a := B(SendBatError);
    } else if b.BatCloses? {
      a := B(CloseBatches);
    } else if b.BatDone? {
      a := LastWorkerMoves(cfg, s);
    } else {
      a := SenderMoves(cfg, s);
    }
  }

  /** When the batcher is done, a worker takes what is left, or ends, or all have ended. */
  lemma LastWorkerMoves(cfg: Config, s: State) returns (a: Action)
    requires Inv(cfg, s) && s.call.caller.CallWaits? && s.bat.batcher.BatDone?
    requires forall i :: 0 <= i < |s.wrk.workers| ==> Idle(s.wrk.workers[i])
    ensures a != Cancel && Enabled(cfg, s, a)
  {
    var ws := s.wrk.workers;
    CountBounds(ws);
    if i :| 0 <= i < |ws| && ws[i].WrkSelects? {
      a := W(i, if s.bat.batches != [] then Take else Finish);
    } else {
      a := C(AllJoined);
    }
  }

  /** A batcher with a batch to send can, or some worker takes one, unless it is deadlocked. */
  lemma SenderMoves(cfg: Config, s: State) returns (a: Action)
    requires Inv(cfg, s) && s.call.caller.CallWaits? && !Deadlocked(s)
    requires s.bat.batcher.BatSendsFull? || s.bat.batcher.BatSendsLast?
    requires forall i :: 0 <= i < |s.wrk.workers| ==> Idle(s.wrk.workers[i])
    ensures a != Cancel && Enabled(cfg, s, a)
  {
    var ws := s.wrk.workers;
    CountBounds(ws);
    if i :| 0 <= i < |ws| && ws[i].WrkSelects? && s.bat.batches != [] {
      a := W(i, Take);
    } else {
      a := B(HandOver);
    }
  }

  /** A batcher that waits for names gets one, or their end, or the forwarder can go on. */
  lemma SelectorMoves(cfg: Config, s: State) returns (a: Action)
    requires Inv(cfg, s) && s.call.caller.CallWaits? && s.bat.batcher.BatSelects?
    ensures a != Cancel && Enabled(cfg, s, a)
  {
    if s.fwd.names != [] {
      a := B(Collect);
    } else if NamesClosed(s.fwd.forwarder) {
      a := B(StreamEnds);
    } else {
      a := FeederMoves(cfg, s);
    }
  }

  /** Unless it is deadlocked or has returned, the pipeline can always take a step by itself. */
  lemma SomeoneMoves(cfg: Config, s: State) returns (a: Action)
    requires Inv(cfg, s) && !s.call.caller.CallReturned? && !Deadlocked(s)
    ensures a != Cancel && Enabled(cfg, s, a)
  {
    match s.call.caller {
      case CallLooksUp => a := C(Lookup(true));
      case CallSpawns(_) => a := C(Spawn);
      case CallSelects => a := C(Select);
      case CallClosesErrors(_) => a := C(CloseErrors);
      case CallReadsForwarder => a := C(ReadForwarder);
      case CallWaitsForwarder =>
        if s.fwd.forwarder.FwdDone? {
          a := C(ForwarderJoined);
        } else {
          a := FeederMoves(cfg, s);
        }
      case CallWaits =>
        var ws := s.wrk.workers;
        if i :| 0 <= i < |ws| && !Idle(ws[i]) {
          a := WorkerMoves(cfg, s, i);
        } else {
          a := BatcherMoves(cfg, s);
        }
    }
  }

  /** A worker at a request or with an error to send can go on. */
  lemma WorkerMoves(cfg: Config, s: State, i: nat) returns (a: Action)
    requires Inv(cfg, s) && s.call.caller.CallWaits? && i < |s.wrk.workers| && !Idle(s.wrk.workers[i])
    ensures a != Cancel && Enabled(cfg, s, a)
  {
    CountBounds(s.wrk.workers);
    a := W(i, if s.wrk.workers[i].WrkRequests? then Reply(true) else SendWrkError);
  }

  /** A state in which nobody can move is a return or a deadlock. */
  lemma StuckMeansDeadlocked(cfg: Config, s: State)
    requires Reachable(cfg, s) && Stuck(cfg, s)
    ensures Deadlocked(s)
  {
    ReachableInv(cfg, s);
    if !Deadlocked(s) {
      var a := SomeoneMoves(cfg, s);
      assert false;
    }
  }

  // -- how many names a deadlock needs -----------------------------------------------------------

  /** A deadlock needs more than a thousand names; without cancellation it needs ten refused
      requests and more than two thousand names. */
  lemma DeadlockNeeds(cfg: Config, s: State)
    requires Reachable(cfg, s) && Deadlocked(s)
    ensures |cfg.names| > MAX_BATCH_SIZE * BATCHES_CAP
    ensures !s.cancelled ==> RefusedCount(s.wrk.outcomes) == WORKER_COUNT
    ensures !s.cancelled ==> |cfg.names| > MAX_BATCH_SIZE * (WORKER_COUNT + BATCHES_CAP)
  {
    ReachableInv(cfg, s);
    CountBounds(s.wrk.workers);
    RefusedBounds(s.wrk.outcomes);
    FlattenFullLength(s.bat.handed);
    assert |s.fwd.forwarded| <= |s.list.emitted| <= |cfg.names|;
  }

  // -- runs that deadlock ------------------------------------------------------------------------

  /** Everything forwarded so far has been collected, and the batcher waits for the next name. */
  ghost predicate Flowing(cfg: Config, s: State) {
    && Reachable(cfg, s)
    && s.list.lister.Listing? && s.list.results == []
    && s.fwd.forwarder.FwdReceives? && s.fwd.names == [] && s.fwd.errors == 0
    && s.bat.batcher.BatSelects? && |s.bat.buffer| < MAX_BATCH_SIZE
  }

  /** The workers, the caller, the batch channel and the context are as before. */
  ghost predicate SameRest(s: State, t: State) {
    t.wrk == s.wrk && t.call == s.call && t.cancelled == s.cancelled && t.bat.batches == s.bat.batches
  }

  lemma PumpOne(cfg: Config, s: State) returns (t: State)
    requires Flowing(cfg, s) && s.list.lister.rest != []
    ensures Reachable(cfg, t) && SameRest(s, t)
    ensures |t.bat.buffer| == |s.bat.buffer| + 1
    ensures t.list.lister == Listing(s.list.lister.rest[1..])
    ensures if |t.bat.buffer| == MAX_BATCH_SIZE then t.bat.batcher.BatSendsFull? else Flowing(cfg, t)
    ensures t.list.results == [] && t.fwd.forwarder.FwdReceives? && t.fwd.names == [] && t.fwd.errors == 0
  {
    ReachStep(cfg, s, L(Emit));
    var s1 := Do(cfg, s, L(Emit));
    ReachStep(cfg, s1, F(Receive));
    var s2 := Do(cfg, s1, F(Receive));
    ReachStep(cfg, s2, F(SendName));
    var s3 := Do(cfg, s2, F(SendName));
    ReachStep(cfg, s3, B(Collect));
    t := Do(cfg, s3, B(Collect));
  }

  /** Let `k` more names flow into the buffer. */
  lemma {:induction false} Pump(cfg: Config, s: State, k: nat) returns (t: State)
    requires Flowing(cfg, s) && k <= |s.list.lister.rest| && |s.bat.buffer| + k <= MAX_BATCH_SIZE
    ensures Reachable(cfg, t) && SameRest(s, t)
    ensures |t.bat.buffer| == |s.bat.buffer| + k
    ensures t.list.lister.Listing? && |t.list.lister.rest| == |s.list.lister.rest| - k
    ensures if |t.bat.buffer| == MAX_BATCH_SIZE then t.bat.batcher.BatSendsFull? else Flowing(cfg, t)
    ensures t.list.results == [] && t.fwd.forwarder.FwdReceives? && t.fwd.names == [] && t.fwd.errors == 0
    decreases k
  {
    if k == 0 {
      t := s;
    } else {
      var u := PumpOne(cfg, s);
      if k == 1 {
        t := u;
      } else {
        t := Pump(cfg, u, k - 1);
      }
    }
  }

  /** Hand one full batch over. */
  lemma HandOne(cfg: Config, s: State) returns (t: State)
    requires Flowing(cfg, s) && s.bat.buffer == [] && |s.bat.batches| < BATCHES_CAP
    requires |s.list.lister.rest| >= MAX_BATCH_SIZE
    ensures Flowing(cfg, t) && t.bat.buffer == [] && t.wrk == s.wrk && t.call == s.call && t.cancelled == s.cancelled
    ensures |t.bat.batches| == |s.bat.batches| + 1
    ensures |t.list.lister.rest| == |s.list.lister.rest| - MAX_BATCH_SIZE
  {
    var u := Pump(cfg, s, MAX_BATCH_SIZE);
    ReachStep(cfg, u, B(HandOver));
    t := Do(cfg, u, B(HandOver));
  }

  /** Fill the batch channel while no worker looks at it. */
  lemma {:induction false} FillChannel(cfg: Config, s: State) returns (t: State)
    requires Flowing(cfg, s) && s.bat.buffer == [] && |s.bat.batches| <= BATCHES_CAP
    requires |s.list.lister.rest| >= MAX_BATCH_SIZE * (BATCHES_CAP - |s.bat.batches|)
    ensures Flowing(cfg, t) && t.bat.buffer == [] && t.wrk == s.wrk && t.call == s.call && t.cancelled == s.cancelled
    ensures |t.bat.batches| == BATCHES_CAP
    ensures |t.list.lister.rest| == |s.list.lister.rest| - MAX_BATCH_SIZE * (BATCHES_CAP - |s.bat.batches|)
    decreases BATCHES_CAP - |s.bat.batches|
  {
    if |s.bat.batches| == BATCHES_CAP {
      t := s;
    } else {
      var u := HandOne(cfg, s);
      t := FillChannel(cfg, u);
    }
  }

  /** The listing ends, with or without an error, and the names channel is closed. */
  lemma EndListing(cfg: Config, s: State) returns (t: State)
    requires Flowing(cfg, s) && s.list.lister == Listing([])
    ensures Reachable(cfg, t) && SameRest(s, t) && t.bat == s.bat
    ensures t.fwd.names == [] && NamesClosed(t.fwd.forwarder) && t.list.emitted == s.list.emitted
    ensures !cfg.fails ==> t.fwd.forwarder == FwdClosesErrors(false) && t.fwd.errors == 0
  {
    var a, b := if cfg.fails then L(Fail) else L(End), if cfg.fails then L(SendListError) else L(CloseResults);
    ReachStep(cfg, s, a);
    var s1 := Do(cfg, s, a);
    ReachStep(cfg, s1, b);
    var s2 := Do(cfg, s1, b);
    var s3 := s2;
    if cfg.fails {
      ReachStep(cfg, s2, F(Receive));
      s3 := Do(cfg, s2, F(Receive));
    }
    var d := if cfg.fails then F(SendFwdError) else F(RangeEnds);
    ReachStep(cfg, s3, d);
    var s4 := Do(cfg, s3, d);
    ReachStep(cfg, s4, F(CloseNames));
    t := Do(cfg, s4, F(CloseNames));
  }

  /** With one more name to come, the batcher gets stuck in front of a full channel. */
  lemma BlockBatcher(cfg: Config, s: State) returns (t: State)
    requires Flowing(cfg, s) && s.bat.buffer == [] && s.list.lister.rest != []
    ensures Reachable(cfg, t) && SameRest(s, t)
    ensures t.bat.batcher.BatSendsFull? || t.bat.batcher.BatSendsLast?
  {
    if |s.list.lister.rest| >= MAX_BATCH_SIZE {
      t := Pump(cfg, s, MAX_BATCH_SIZE);
    } else {
      var u := Pump(cfg, s, |s.list.lister.rest|);
      var v := EndListing(cfg, u);
      ReachStep(cfg, v, B(StreamEnds));
      t := Do(cfg, v, B(StreamEnds));
    }
  }

  lemma {:induction false} SpawnRest(cfg: Config, s: State) returns (t: State)
    requires Reachable(cfg, s) && s.call.caller.CallSpawns? && s.call.caller.started <= |s.wrk.workers|
    requires forall i :: 0 <= i < s.call.caller.started ==> s.wrk.workers[i].WrkSelects?
    ensures Reachable(cfg, t) && t.cancelled == s.cancelled && t.list == s.list && t.fwd == s.fwd
    ensures t.bat == s.bat.(batcher := BatSelects) && t.call == s.call.(caller := CallWaits)
    ensures |t.wrk.workers| == |s.wrk.workers|
    ensures forall i :: 0 <= i < |t.wrk.workers| ==> t.wrk.workers[i].WrkSelects?
    decreases |s.wrk.workers| - s.call.caller.started
  {
    ReachStep(cfg, s, C(Spawn));
    var u := Do(cfg, s, C(Spawn));
    if s.call.caller.started < |s.wrk.workers| {
      t := SpawnRest(cfg, u);
    } else {
      t := u;
    }
  }

  /** The pipeline has started and all workers look for work. */
  lemma Start(cfg: Config) returns (t: State)
    ensures Flowing(cfg, t) && !t.cancelled && t.list.lister.rest == cfg.names
    ensures t.bat.buffer == [] && t.bat.batches == [] && t.call == CallPart(CallWaits, 0, false)
    ensures |t.wrk.workers| == WORKER_COUNT && forall i :: 0 <= i < WORKER_COUNT ==> t.wrk.workers[i].WrkSelects?
  {
    ReachInit(cfg);
    ReachStep(cfg, Init(cfg), C(Lookup(true)));
    t := SpawnRest(cfg, Do(cfg, Init(cfg), C(Lookup(true))));
  }

  /** The first `k` workers have ended with an error, the others look for work. */
  ghost predicate GivenUp(s: State, k: nat) {
    && k <= |s.wrk.workers| == WORKER_COUNT
    && s.call.caller.CallWaits? && s.call.errors == k
    && forall i :: 0 <= i < |s.wrk.workers| ==> s.wrk.workers[i] == if i < k then WrkDone(true) else WrkSelects
  }

  /** The server refuses one batch after the other, until all workers have given up. */
  lemma {:induction false} RefuseAll(cfg: Config, s: State, k: nat) returns (t: State)
    requires Flowing(cfg, s) && !s.cancelled && s.bat.buffer == [] && s.bat.batches == [] && GivenUp(s, k)
    requires |s.list.lister.rest| >= MAX_BATCH_SIZE * (WORKER_COUNT - k)
    ensures Flowing(cfg, t) && !t.cancelled && t.bat.buffer == [] && t.bat.batches == [] && GivenUp(t, WORKER_COUNT)
    ensures |t.list.lister.rest| == |s.list.lister.rest| - MAX_BATCH_SIZE * (WORKER_COUNT - k)
    decreases WORKER_COUNT - k
  {
    if k == WORKER_COUNT {
      t := s;
    } else {
      var u := HandOne(cfg, s);
      var v := Refuse(cfg, u, k);
      t := RefuseAll(cfg, v, k + 1);
    }
  }

  lemma Refuse(cfg: Config, s: State, k: nat) returns (t: State)
    requires Flowing(cfg, s) && |s.bat.batches| == 1 && k < WORKER_COUNT && GivenUp(s, k)
    ensures Flowing(cfg, t) && t.cancelled == s.cancelled && t.bat.batches == [] && t.bat.buffer == s.bat.buffer
    ensures GivenUp(t, k + 1) && t.list == s.list
  {
    ReachStep(cfg, s, W(k, Take));
    var s1 := Do(cfg, s, W(k, Take));
    ReachStep(cfg, s1, W(k, Reply(false)));
    var s2 := Do(cfg, s1, W(k, Reply(false)));
    ReachStep(cfg, s2, W(k, SendWrkError));
    t := Do(cfg, s2, W(k, SendWrkError));
  }

  /** After a cancellation the workers quit one after the other. */
  lemma {:induction false} QuitAll(cfg: Config, s: State, k: nat) returns (t: State)
    requires Reachable(cfg, s) && s.cancelled && GivenUp(s, k)
    ensures Reachable(cfg, t) && t.bat == s.bat && GivenUp(t, WORKER_COUNT)
    decreases WORKER_COUNT - k
  {
    if k == WORKER_COUNT {
      t := s;
    } else {
      ReachStep(cfg, s, W(k, Quit));
      var s1 := Do(cfg, s, W(k, Quit));
      ReachStep(cfg, s1, W(k, SendWrkError));
      t := QuitAll(cfg, Do(cfg, s1, W(k, SendWrkError)), k + 1);
    }
  }

  lemma HangAfterCancel(cfg: Config) returns (t: State)
    requires |cfg.names| > MAX_BATCH_SIZE * BATCHES_CAP
    ensures Reachable(cfg, t) && Deadlocked(t)
  {
    var s0 := Start(cfg);
    var s1 := FillChannel(cfg, s0);
    var s2 := BlockBatcher(cfg, s1);
    ReachStep(cfg, s2, Cancel);
    t := QuitAll(cfg, Do(cfg, s2, Cancel), 0);
  }

  lemma HangAfterRefusals(cfg: Config) returns (t: State)
    requires |cfg.names| > MAX_BATCH_SIZE * (WORKER_COUNT + BATCHES_CAP)
    ensures Reachable(cfg, t) && Deadlocked(t) && !t.cancelled
  {
    var s0 := Start(cfg);
    var s1 := RefuseAll(cfg, s0, 0);
    var s2 := FillChannel(cfg, s1);
    t := BlockBatcher(cfg, s2);
  }

  /** `CleanObjects` can hang exactly when the listing holds more than a thousand names. */
  lemma HangsExactlyAboveThousand(cfg: Config)
    ensures (exists s :: Reachable(cfg, s) && Deadlocked(s)) <==> |cfg.names| > 1000
  {
    if |cfg.names| > 1000 {
      var t := HangAfterCancel(cfg);
    } else if s :| Reachable(cfg, s) && Deadlocked(s) {
      DeadlockNeeds(cfg, s);
    }
  }

  /** Without cancellation it can hang exactly when the listing holds more than two thousand. */
  lemma HangsUncancelledExactlyAboveTwoThousand(cfg: Config)
    ensures (exists s :: Reachable(cfg, s) && Deadlocked(s) && !s.cancelled) <==> |cfg.names| > 2000
  {
    if |cfg.names| > 2000 {
      var t := HangAfterRefusals(cfg);
    } else if s :| Reachable(cfg, s) && Deadlocked(s) && !s.cancelled {
      DeadlockNeeds(cfg, s);
    }
  }

  /** Total correctness for small buckets: under every schedule, with any failures and any
      cancellation, a run that cannot go on has returned. */
  lemma SmallBucketsReturn(cfg: Config, s: State)
    requires |cfg.names| <= 1000 && Reachable(cfg, s)
    requires forall a :: a != Cancel ==> !Enabled(cfg, s, a)
    ensures s.call.caller.CallReturned?
  {
    if !s.call.caller.CallReturned? {
      StuckMeansDeadlocked(cfg, s);
      DeadlockNeeds(cfg, s);
    }
  }

  /** With at most nine refused requests and no cancellation nothing is ever stuck. */
  lemma NineRefusalsAreHarmless(cfg: Config, s: State)
    requires Reachable(cfg, s) && !s.cancelled && RefusedCount(s.wrk.outcomes) <= 9
    ensures !Stuck(cfg, s)
  {
    if Stuck(cfg, s) {
      StuckMeansDeadlocked(cfg, s);
      DeadlockNeeds(cfg, s);
    }
  }
}
