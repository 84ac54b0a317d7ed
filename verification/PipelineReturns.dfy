/** When `CleanObjects` returns nil although the bucket was not listed to its end. */
module PipelineReturns {
  import opened Batching
  import opened Pipeline
  import opened PipelineInvariant
  import opened PipelineResults
  import opened PipelineDeadlock

  /** The bucket was listed to its end. */
  predicate Complete(cfg: Config, s: State) { s.list.emitted == cfg.names && !cfg.fails }

  /** A nil return that does not mean what it says. */
  ghost predicate EmptyPromise(cfg: Config, s: State) {
    Reachable(cfg, s) && s.call.caller == CallReturned(true) && !Complete(cfg, s)
  }

  /** The first `k` workers have ended without an error, the others look for work. */
  ghost predicate Finished(s: State, k: nat) {
    && k <= |s.wrk.workers| == WORKER_COUNT
    && s.call == CallPart(CallWaits, 0, false)
    && s.bat.batches == [] && s.bat.batcher == BatDone(false)
    && forall i :: 0 <= i < |s.wrk.workers| ==> s.wrk.workers[i] == if i < k then WrkDone(false) else WrkSelects
  }

  lemma {:induction false} FinishAll(cfg: Config, s: State, k: nat) returns (t: State)
    requires Reachable(cfg, s) && Finished(s, k)
    ensures Reachable(cfg, t) && Finished(t, WORKER_COUNT) && t.list == s.list && t.fwd == s.fwd
    ensures t.cancelled == s.cancelled
    decreases WORKER_COUNT - k
  {
    if k == WORKER_COUNT {
      t := s;
    } else {
      ReachStep(cfg, s, W(k, Finish));
      t := FinishAll(cfg, Do(cfg, s, W(k, Finish)), k + 1);
    }
  }

  /** The listing is cut off before its first item, and the forwarder ends without an error. */
  lemma CutListing(cfg: Config, s: State) returns (t: State)
    requires Flowing(cfg, s) && (s.cancelled || cfg.breaks) && s.list.emitted == []
    ensures Reachable(cfg, t) && SameRest(s, t) && t.bat == s.bat && t.list.emitted == []
    ensures t.fwd.names == [] && t.fwd.forwarder == FwdDone(false) && t.fwd.errors == 0
  {
    ReachStep(cfg, s, L(Cut));
    var s1 := Do(cfg, s, L(Cut));
    ReachStep(cfg, s1, L(CloseResults));
    var s2 := Do(cfg, s1, L(CloseResults));
    ReachStep(cfg, s2, F(RangeEnds));
    var s3 := Do(cfg, s2, F(RangeEnds));
    ReachStep(cfg, s3, F(CloseNames));
    var s4 := Do(cfg, s3, F(CloseNames));
    ReachStep(cfg, s4, F(CloseFwdErrors));
    t := Do(cfg, s4, F(CloseFwdErrors));
  }

  /** The caller finds no error anywhere. */
  lemma ReturnNil(cfg: Config, s: State) returns (t: State)
    requires Reachable(cfg, s) && Finished(s, WORKER_COUNT) && s.fwd.forwarder == FwdDone(false) && s.fwd.errors == 0
    ensures Reachable(cfg, t) && t.call.caller == CallReturned(true) && t.list == s.list && t.cancelled == s.cancelled
  {
    forall w | w in s.wrk.workers ensures w.WrkDone? {
      var i :| 0 <= i < |s.wrk.workers| && s.wrk.workers[i] == w;
    }
    ReachStep(cfg, s, C(AllJoined));
    var s1 := Do(cfg, s, C(AllJoined));
    ReachStep(cfg, s1, C(Select));
    var s2 := Do(cfg, s1, C(Select));
    ReachStep(cfg, s2, C(CloseErrors));
    var s3 := Do(cfg, s2, C(CloseErrors));
    ReachStep(cfg, s3, C(ForwarderJoined));
    var s4 := Do(cfg, s3, C(ForwarderJoined));
    ReachStep(cfg, s4, C(ReadForwarder));
    t := Do(cfg, s4, C(ReadForwarder));
  }

  /** Whatever the bucket holds, a cancellation at the right moment, or a first page that breaks off,
      makes `CleanObjects` return nil without having listed anything. */
  lemma NilAfterNothing(cfg: Config, cancel: bool) returns (t: State)
    requires cancel || cfg.breaks
    ensures Reachable(cfg, t) && t.call.caller == CallReturned(true) && t.list.emitted == [] && t.cancelled == cancel
  {
    var s0 := Start(cfg);
    ReachableInv(cfg, s0);
    var s1 := s0;
    if cancel {
      ReachStep(cfg, s0, Cancel);
      s1 := Do(cfg, s0, Cancel);
    }
    var s2 := CutListing(cfg, s1);
    var s3 := CloseAll(cfg, s2);
    var s4 := FinishAll(cfg, s3, 0);
    t := ReturnNil(cfg, s4);
  }

  lemma CloseAll(cfg: Config, s: State) returns (t: State)
    requires Reachable(cfg, s) && s.bat.batcher.BatSelects? && s.bat.buffer == [] && s.bat.batches == []
    requires s.fwd.names == [] && NamesClosed(s.fwd.forwarder) && s.call == CallPart(CallWaits, 0, false)
    requires |s.wrk.workers| == WORKER_COUNT && forall i :: 0 <= i < WORKER_COUNT ==> s.wrk.workers[i].WrkSelects?
    ensures Reachable(cfg, t) && Finished(t, 0) && t.list == s.list && t.fwd == s.fwd && t.cancelled == s.cancelled
  {
    ReachStep(cfg, s, B(StreamEnds));
    var s1 := Do(cfg, s, B(StreamEnds));
    ReachStep(cfg, s1, B(CloseBatches));
    t := Do(cfg, s1, B(CloseBatches));
  }

  // -- the run that the caller hopes for ---------------------------------------------------------

  /** All workers look for work, and no error has been reported. */
  ghost predicate AllLook(s: State) {
    && s.call == CallPart(CallWaits, 0, false)
    && |s.wrk.workers| == WORKER_COUNT && forall i :: 0 <= i < WORKER_COUNT ==> s.wrk.workers[i].WrkSelects?
  }

  /** The first worker takes the batch at the head of the channel, and the server accepts it. */
  lemma AcceptOne(cfg: Config, s: State) returns (t: State)
    requires Reachable(cfg, s) && AllLook(s) && s.bat.batches != []
    ensures Reachable(cfg, t) && AllLook(t) && t.list == s.list && t.fwd == s.fwd && t.cancelled == s.cancelled
    ensures t.bat == s.bat.(batches := s.bat.batches[1..])
  {
    ReachStep(cfg, s, W(0, Take));
    var s1 := Do(cfg, s, W(0, Take));
    ReachStep(cfg, s1, W(0, Reply(true)));
    t := Do(cfg, s1, W(0, Reply(true)));
  }

  /** Full batches are handed over and accepted one after the other. */
  lemma {:induction false} AcceptAll(cfg: Config, s: State) returns (t: State)
    requires Flowing(cfg, s) && AllLook(s) && s.bat.buffer == [] && s.bat.batches == [] && !s.cancelled
    ensures Flowing(cfg, t) && AllLook(t) && t.bat.buffer == [] && t.bat.batches == [] && !t.cancelled
    ensures |t.list.lister.rest| < MAX_BATCH_SIZE
    decreases |s.list.lister.rest|
  {
    if |s.list.lister.rest| < MAX_BATCH_SIZE {
      t := s;
    } else {
      var u := HandOne(cfg, s);
      var v := AcceptOne(cfg, u);
      t := AcceptAll(cfg, v);
    }
  }

  /** The rest is listed, and the stream of names ends without an error. */
  lemma EndStream(cfg: Config, s: State) returns (t: State)
    requires Flowing(cfg, s) && AllLook(s) && s.bat.buffer == [] && s.bat.batches == [] && !s.cancelled
    requires |s.list.lister.rest| < MAX_BATCH_SIZE && !cfg.fails
    ensures Reachable(cfg, t) && AllLook(t) && t.bat.batcher.BatSelects? && t.bat.batches == [] && !t.cancelled
    ensures |t.bat.buffer| < MAX_BATCH_SIZE
    ensures t.fwd.names == [] && t.fwd.forwarder == FwdDone(false) && t.fwd.errors == 0
  {
    var u := Pump(cfg, s, |s.list.lister.rest|);
    var v := EndListing(cfg, u);
    ReachStep(cfg, v, F(CloseFwdErrors));
    t := Do(cfg, v, F(CloseFwdErrors));
  }

  /** The last batch, if there is one, is handed over and accepted. */
  lemma LastBatch(cfg: Config, s: State) returns (t: State)
    requires Reachable(cfg, s) && AllLook(s) && s.bat.batcher.BatSelects? && s.bat.batches == []
    requires s.fwd.names == [] && NamesClosed(s.fwd.forwarder)
    ensures Reachable(cfg, t) && Finished(t, 0) && t.fwd == s.fwd && t.cancelled == s.cancelled
  {
    ReachStep(cfg, s, B(StreamEnds));
    var s1 := Do(cfg, s, B(StreamEnds));
    var s2 := s1;
    if s1.bat.batcher.BatSendsLast? {
      ReachStep(cfg, s1, B(HandOver));
      s2 := Do(cfg, s1, B(HandOver));
    }
    ReachStep(cfg, s2, B(CloseBatches));
    var s3 := Do(cfg, s2, B(CloseBatches));
    if s3.bat.batches == [] {
      t := s3;
    } else {
      t := AcceptOne(cfg, s3);
    }
  }

  /** For every listing that does not fail, some run without cancellation returns nil after a complete
      listing. */
  lemma NilAfterAll(cfg: Config) returns (t: State)
    requires !cfg.fails
    ensures Reachable(cfg, t) && t.call.caller == CallReturned(true) && !t.cancelled
    ensures cfg.breaks || Complete(cfg, t)
  {
    var s0 := Start(cfg);
    var s1 := AcceptAll(cfg, s0);
    var s2 := EndStream(cfg, s1);
    var s3 := LastBatch(cfg, s2);
    var s4 := FinishAll(cfg, s3, 0);
    t := ReturnNil(cfg, s4);
    NilReturn(cfg, t);
  }

  /** A nil return can be an empty promise exactly when there was something to list or an error to
      report. */
  lemma EmptyPromiseExactly(cfg: Config)
    ensures (exists s :: EmptyPromise(cfg, s)) <==> cfg.names != [] || cfg.fails
  {
    if cfg.names != [] || cfg.fails {
      var t := NilAfterNothing(cfg, true);
      assert EmptyPromise(cfg, t);
    } else if s :| EmptyPromise(cfg, s) {
      NilReturn(cfg, s);
    }
  }

  /** Without cancellation it takes a first page that breaks off. */
  lemma UncancelledEmptyPromiseExactly(cfg: Config)
    ensures (exists s :: EmptyPromise(cfg, s) && !s.cancelled) <==> cfg.breaks && (cfg.names != [] || cfg.fails)
  {
    if cfg.breaks && (cfg.names != [] || cfg.fails) {
      var t := NilAfterNothing(cfg, false);
      assert EmptyPromise(cfg, t);
    } else if s :| EmptyPromise(cfg, s) && !s.cancelled {
      NilReturn(cfg, s);
    }
  }

  /** A nil return means a complete listing exactly when something was listed, or when there was
      nothing to list and no error; it always does if nobody cancels and the first page is whole. */
  lemma NilCompleteExactly(cfg: Config, s: State)
    requires Reachable(cfg, s) && s.call.caller == CallReturned(true)
    ensures Complete(cfg, s) <==> s.list.emitted != [] || (cfg.names == [] && !cfg.fails)
    ensures !s.cancelled && !cfg.breaks ==> Complete(cfg, s)
  {
    NilReturn(cfg, s);
  }
}
