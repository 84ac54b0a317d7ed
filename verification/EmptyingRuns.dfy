/** Every run of the pipeline happens on a bucket, so that its exact results carry over; and how long
    a run on a bucket can be. */
module EmptyingRuns {
  import opened Batching
  import opened Pipeline
  import opened PipelineInvariant
  import opened PipelineResults
  import opened PipelineDeadlock
  import opened PipelineReturns
  import opened Emptying
  import opened EmptyingResults
  import Lister

  ghost predicate Reached(objects: seq<string>, s: Site) {
    exists sites, moves :: Emptying.IsRun(objects, sites, moves) && sites[|moves|] == s
  }

  lemma Go(objects: seq<string>, s: Site, m: Move)
    requires Reached(objects, s) && Can(objects, s, m)
    ensures Reached(objects, Make(objects, s, m))
  {
    var sites, moves :| Emptying.IsRun(objects, sites, moves) && sites[|moves|] == s;
    assert Emptying.IsRun(objects, sites + [Make(objects, s, m)], moves + [m]);
  }

  // -- the pipeline on a bucket ------------------------------------------------------------------

  /** One page with everything. */
  function FullPage(n: nat): seq<Lister.Line> { seq(n, i requires 0 <= i < n => Lister.LineAt(n, i)) }

  /** The site is where the pipeline is: the lister forwards one full page, and no delete request has
      taken anything away. */
  ghost predicate Matched(objects: seq<string>, cfg: Config, s: Site, t: State) {
    && cfg.names == objects && !cfg.fails
    && |s.present| == |objects| && Lister.AllFrom(s.present, 0) && s.emitted <= objects
    && View(s, objects[|s.emitted|..]) == t
    && (Live(s.source) ==> SourceAt(s.source, |s.emitted|, |objects|))
    && (s.broken ==> cfg.breaks)
  }

  predicate SourceAt(source: Source, k: nat, n: nat) {
    if k == 0 then source == Asking(Lister.NoMarker)
    else k <= n && source == Paging(Lister.LineAt(n, k - 1).marker, FullPage(n), k)
  }

  /** The lister asks for its page. */
  lemma AskAll(objects: seq<string>, s: Site) returns (t: Site)
    requires Reached(objects, s) && |s.present| == |objects| && Lister.AllFrom(s.present, 0)
    requires s.source == Asking(Lister.NoMarker)
    ensures Reached(objects, t) && t == s.(source := Paging(Lister.NoMarker, FullPage(|objects|), 0))
  {
    var page := FullPage(|objects|);
    Lister.PageIsValid(s.present, Lister.NoMarker, page);
    Go(objects, s, Ask(page));
    t := Make(objects, s, Ask(page));
  }

  lemma MatchEmit(objects: seq<string>, cfg: Config, s: Site, t: State) returns (u: Site)
    requires Reached(objects, s) && Matched(objects, cfg, s, t) && Enabled(cfg, t, L(Emit))
    ensures Reached(objects, u) && Matched(objects, cfg, u, Do(cfg, t, L(Emit)))
  {
    var k := |s.emitted|;
    var v := s;
    if k == 0 {
      v := AskAll(objects, s);
    }
    assert v.source.page[k] == Lister.LineAt(|objects|, k);
    Go(objects, v, Forward);
    u := Make(objects, v, Forward);
    assert objects[k..][1..] == objects[k + 1..] && objects[k..][0] == objects[k];
  }

  /** The lister ends without an error, at the end of its page or before its first line. */
  lemma MatchEnd(objects: seq<string>, cfg: Config, s: Site, t: State, a: ListAction) returns (u: Site)
    requires Reached(objects, s) && Matched(objects, cfg, s, t) && (a.End? || a.Cut?) && Enabled(cfg, t, L(a))
    ensures Reached(objects, u) && Matched(objects, cfg, u, Do(cfg, t, L(a)))
  {
    var v := s;
    if s.emitted == [] {
      v := AskAll(objects, s);
    }
    var m := if |s.emitted| < |objects| then Break else EndPage;
    Go(objects, v, m);
    u := Make(objects, v, m);
  }

  lemma MatchError(objects: seq<string>, cfg: Config, s: Site, t: State) returns (u: Site)
    requires Reached(objects, s) && Matched(objects, cfg, s, t) && Enabled(cfg, t, L(Pipeline.Cancelled))
    ensures Reached(objects, u) && Matched(objects, cfg, u, Do(cfg, t, L(Pipeline.Cancelled)))
  {
    var m := if s.emitted == [] then AskFails else GiveUp;
    Go(objects, s, m);
    u := Make(objects, s, m);
  }

  lemma MatchClose(objects: seq<string>, cfg: Config, s: Site, t: State, a: ListAction) returns (u: Site)
    requires Reached(objects, s) && Matched(objects, cfg, s, t) && (a.SendListError? || a.CloseResults?)
    requires Enabled(cfg, t, L(a))
    ensures Reached(objects, u) && Matched(objects, cfg, u, Do(cfg, t, L(a)))
  {
    var m := if a.SendListError? then SendError else CloseSource;
    Go(objects, s, m);
    u := Make(objects, s, m);
  }

  lemma MatchOther(objects: seq<string>, cfg: Config, s: Site, t: State, a: Action) returns (u: Site)
    requires Reached(objects, s) && Matched(objects, cfg, s, t) && IsOther(a) && Enabled(cfg, t, a)
    ensures Reached(objects, u) && Matched(objects, cfg, u, Do(cfg, t, a))
  {
    EnabledAlike(cfg, s, objects[|s.emitted|..], a);
    Go(objects, s, Other(a, {}));
    u := Make(objects, s, Other(a, {}));
    assert Taken(s, a, {}) == {};
    WithoutNothing(objects, s.present);
    OthersLeaveSource(objects, s, a, {});
    OtherCommutes(cfg, s, a);
  }

  lemma EnabledAlike(cfg: Config, s: Site, rest: seq<string>, a: Action)
    requires IsOther(a) && Enabled(cfg, View(s, rest), a)
    ensures Enabled(Config([], false, false), View(s, []), a)
  {
  }

  lemma MatchStep(objects: seq<string>, cfg: Config, s: Site, t: State, a: Action) returns (u: Site)
    requires Reached(objects, s) && Matched(objects, cfg, s, t) && Enabled(cfg, t, a)
    ensures Reached(objects, u) && Matched(objects, cfg, u, Do(cfg, t, a))
  {
    if !a.L? {
      u := MatchOther(objects, cfg, s, t, a);
    } else if a.l.Emit? {
      u := MatchEmit(objects, cfg, s, t);
    } else if a.l.End? || a.l.Cut? {
      u := MatchEnd(objects, cfg, s, t, a.l);
    } else if a.l.Cancelled? {
      u := MatchError(objects, cfg, s, t);
    } else {
      u := MatchClose(objects, cfg, s, t, a.l);
    }
  }

  lemma {:induction false} MatchRun(objects: seq<string>, cfg: Config, states: seq<State>, actions: seq<Action>, n: nat)
    returns (u: Site)
    requires cfg.names == objects && !cfg.fails && Pipeline.IsRun(cfg, states, actions) && n < |states|
    ensures Reached(objects, u) && Matched(objects, cfg, u, states[n])
  {
    if n == 0 {
      u := First(objects);
      assert Emptying.IsRun(objects, [u], []) && [u][0] == u;
      assert objects[0..] == objects;
    } else {
      var s := MatchRun(objects, cfg, states, actions, n - 1);
      assert Enabled(cfg, states[n - 1], actions[n - 1]);
      u := MatchStep(objects, cfg, s, states[n - 1], actions[n - 1]);
    }
  }

  /** Every reachable state of the pipeline, for a listing that yields all objects, is reached on the
      bucket, even when no delete request takes anything away. */
  lemma Realise(objects: seq<string>, cfg: Config, t: State) returns (u: Site)
    requires cfg.names == objects && !cfg.fails && Pipeline.Reachable(cfg, t)
    ensures Reached(objects, u) && Matched(objects, cfg, u, t)
  {
    var states, actions :| Pipeline.IsRun(cfg, states, actions) && states[|actions|] == t;
    u := MatchRun(objects, cfg, states, actions, |actions|);
  }

  // -- exact results on the bucket ---------------------------------------------------------------

  lemma ReachedRefines(objects: seq<string>, s: Site)
    requires Distinct(objects) && Reached(objects, s)
    ensures SiteInv(objects, s) && Pipeline.Reachable(CfgOf(objects, s), Abs(CfgOf(objects, s), s))
  {
    var sites, moves :| Emptying.IsRun(objects, sites, moves) && sites[|moves|] == s;
    RunRefines(objects, sites, moves, |moves|);
    CfgIsAdmissible(objects, s);
  }

  /** `CleanObjects` hangs on the bucket. */
  ghost predicate Hangs(s: Site) { Deadlocked(View(s, [])) }

  lemma HangNeeds(objects: seq<string>, s: Site)
    requires Distinct(objects) && Reached(objects, s) && Hangs(s)
    ensures |objects| > 1000 && (!s.cancelled ==> |objects| > 2000)
  {
    ReachedRefines(objects, s);
    var cfg := CfgOf(objects, s);
    assert Deadlocked(Abs(cfg, s));
    DeadlockNeeds(cfg, Abs(cfg, s));
  }

  lemma Hang(objects: seq<string>, cfg: Config, t: State) returns (u: Site)
    requires cfg.names == objects && !cfg.fails && Pipeline.Reachable(cfg, t) && Deadlocked(t)
    ensures Reached(objects, u) && Hangs(u) && u.cancelled == t.cancelled
  {
    u := Realise(objects, cfg, t);
    assert Deadlocked(View(u, objects[|u.emitted|..]));
  }

  /** Some run on the bucket hangs exactly when it has more than a thousand objects. */
  lemma BucketHangsExactlyAboveThousand(objects: seq<string>)
    requires Distinct(objects)
    ensures (exists s :: Reached(objects, s) && Hangs(s)) <==> |objects| > 1000
  {
    if |objects| > 1000 {
      var t := HangAfterCancel(Config(objects, false, false));
      var u := Hang(objects, Config(objects, false, false), t);
    } else if s :| Reached(objects, s) && Hangs(s) {
      HangNeeds(objects, s);
    }
  }

  /** Without cancellation, exactly when it has more than two thousand. */
  lemma BucketHangsUncancelledExactlyAboveTwoThousand(objects: seq<string>)
    requires Distinct(objects)
    ensures (exists s :: Reached(objects, s) && Hangs(s) && !s.cancelled) <==> |objects| > 2000
  {
    if |objects| > 2000 {
      var t := HangAfterRefusals(Config(objects, false, false));
      var u := Hang(objects, Config(objects, false, false), t);
    } else if s :| Reached(objects, s) && Hangs(s) && !s.cancelled {
      HangNeeds(objects, s);
    }
  }

  /** A nil return that leaves objects in the bucket. */
  ghost predicate FalseNil(objects: seq<string>, s: Site) {
    Reached(objects, s) && s.call.caller == CallReturned(true) && !Empty(s.present)
  }

  lemma NonEmpty(objects: seq<string>, s: Site)
    requires |s.present| == |objects| && Lister.AllFrom(s.present, 0) && objects != []
    ensures !Empty(s.present)
  {
    assert s.present[0];
  }

  lemma NothingToLeave(objects: seq<string>, s: Site)
    requires Distinct(objects) && FalseNil(objects, s)
    ensures objects != []
  {
    ReachedRefines(objects, s);
  }

  /** A listing that is cut off: a nil return leaves objects behind, with no delete request made, in
      some run exactly when there are objects. */
  lemma CutOffLeavesExactly(objects: seq<string>)
    requires Distinct(objects)
    ensures (exists s :: FalseNil(objects, s) && s.left == {}) <==> objects != []
  {
    if objects != [] {
      var cfg := Config(objects, false, false);
      var t := NilAfterNothing(cfg, true);
      var u := Realise(objects, cfg, t);
      NonEmpty(objects, u);
      NothingLeft(objects, u);
      assert FalseNil(objects, u) && u.left == {};
    } else if s :| FalseNil(objects, s) && s.left == {} {
      NothingToLeave(objects, s);
    }
  }

  /** Only objects in accepted batches are left behind by requests. */
  lemma NothingLeft(objects: seq<string>, s: Site)
    requires Distinct(objects) && Reached(objects, s) && s.emitted == []
    ensures s.left == {}
  {
    var sites, moves :| Emptying.IsRun(objects, sites, moves) && sites[|moves|] == s;
    LeftAreEmitted(objects, sites, moves, |moves|);
  }

  lemma {:induction false} LeftAreEmitted(objects: seq<string>, sites: seq<Site>, moves: seq<Move>, n: nat)
    requires Distinct(objects) && Emptying.IsRun(objects, sites, moves) && n < |sites|
    ensures forall x :: x in sites[n].left ==> x in sites[n].emitted
  {
    if n > 0 {
      LeftAreEmitted(objects, sites, moves, n - 1);
      RunRefines(objects, sites, moves, n - 1);
      var s, m := sites[n - 1], moves[n - 1];
      assert Can(objects, s, m);
      if m.Other? {
        OthersLeaveSource(objects, s, m.action, m.gone);
        CfgIsAdmissible(objects, s);
        var cfg := CfgOf(objects, s);
        ReachableInv(cfg, Abs(cfg, s));
        forall x | x in LeftBy(s, m.action, m.gone) ensures x in s.emitted {
          BatchesAreEmitted(cfg, Abs(cfg, s), s.wrk.workers[m.action.i].number, x);
        }
      }
    }
  }

  /** A delete request that is accepted though only a part of it succeeded: without cancellation and
      with a whole first page, a nil return leaves objects behind in some run exactly when there are
      objects. */
  lemma PartialReplyLeavesExactly(objects: seq<string>)
    requires Distinct(objects)
    ensures (exists s :: FalseNil(objects, s) && !s.cancelled && !s.broken) <==> objects != []
  {
    if objects != [] {
      var cfg := Config(objects, false, false);
      var t := NilAfterAll(cfg);
      var u := Realise(objects, cfg, t);
      NonEmpty(objects, u);
      assert FalseNil(objects, u) && !u.cancelled && !u.broken;
    } else if s :| FalseNil(objects, s) && !s.cancelled && !s.broken {
      NothingToLeave(objects, s);
    }
  }

  // -- how long a run can be ---------------------------------------------------------------------

  /** How far the lister is from its next line. */
  function Stage(source: Source): nat {
    match source
    case Asking(_) => 2
    case Paging(_, _, sent) => if sent == 0 then 1 else 3
    case _ => 0
  }

  function Rank(cfg: Config, s: Site): nat
    requires |s.emitted| <= |cfg.names|
  {
    3 * Budget(Abs(cfg, s)) + Stage(s.source)
  }

  /** A page that breaks off before its first line. */
  predicate Fruitless(s: Site, m: Move) { m.Break? && s.source.Paging? && s.source.sent == 0 }

  lemma MovePays(objects: seq<string>, cfg: Config, s: Site, m: Move)
    requires SiteInv(objects, s) && Can(objects, s, m) && Admissible(objects, cfg, s) && Inv(cfg, Abs(cfg, s))
    requires Admissible(objects, cfg, Make(objects, s, m))
    ensures Rank(cfg, Make(objects, s, m)) < Rank(cfg, s) + if Fruitless(s, m) then 2 else 0
  {
    var a := Simulate(objects, cfg, s, m);
    if !Silent(s, m) {
      BudgetDecreases(cfg, Abs(cfg, s), a);
      StageStep(objects, s, m);
    }
  }

  lemma StageStep(objects: seq<string>, s: Site, m: Move)
    requires Can(objects, s, m) && !Silent(s, m)
    ensures Stage(Make(objects, s, m).source) <= Stage(s.source) + 2
  {
    if m.Other? {
      OthersLeaveSource(objects, s, m.action, m.gone);
    }
  }

  /** The pages, among the first `n` moves, that broke off before their first line. */
  function FruitlessPages(sites: seq<Site>, moves: seq<Move>, n: nat): nat
    requires n <= |moves| < |sites|
  {
    if n == 0 then 0 else FruitlessPages(sites, moves, n - 1) + if Fruitless(sites[n - 1], moves[n - 1]) then 1 else 0
  }

  lemma {:induction false} AdmissibleAll(objects: seq<string>, cfg: Config, sites: seq<Site>, moves: seq<Move>, n: nat)
    requires Distinct(objects) && Emptying.IsRun(objects, sites, moves) && n < |sites|
    requires Admissible(objects, cfg, sites[|moves|])
    ensures Admissible(objects, cfg, sites[n])
    decreases |sites| - n
  {
    if n < |moves| {
      AdmissibleAll(objects, cfg, sites, moves, n + 1);
      RunRefines(objects, sites, moves, n);
      assert Can(objects, sites[n], moves[n]);
      AdmissibleBefore(objects, cfg, sites[n], moves[n]);
    }
  }

  lemma OneMovePays(objects: seq<string>, cfg: Config, sites: seq<Site>, moves: seq<Move>, n: nat)
    requires Distinct(objects) && Emptying.IsRun(objects, sites, moves) && n < |moves|
    requires Admissible(objects, cfg, sites[|moves|])
    ensures |sites[n].emitted| <= |cfg.names| && |sites[n + 1].emitted| <= |cfg.names|
    ensures Rank(cfg, sites[n + 1]) < Rank(cfg, sites[n]) + if Fruitless(sites[n], moves[n]) then 2 else 0
  {
    AdmissibleAll(objects, cfg, sites, moves, n);
    AdmissibleAll(objects, cfg, sites, moves, n + 1);
    InvAlong(objects, cfg, sites, moves, n);
    assert Can(objects, sites[n], moves[n]);
    MovePays(objects, cfg, sites[n], moves[n]);
  }

  lemma InvAlong(objects: seq<string>, cfg: Config, sites: seq<Site>, moves: seq<Move>, n: nat)
    requires Distinct(objects) && Emptying.IsRun(objects, sites, moves) && n < |moves|
    requires Admissible(objects, cfg, sites[n])
    ensures SiteInv(objects, sites[n]) && Inv(cfg, Abs(cfg, sites[n]))
  {
    RunRefines(objects, sites, moves, n);
    ReachableInv(cfg, Abs(cfg, sites[n]));
  }

  lemma {:induction false} MovesPay(objects: seq<string>, cfg: Config, sites: seq<Site>, moves: seq<Move>, n: nat)
    requires Distinct(objects) && Emptying.IsRun(objects, sites, moves) && n < |sites|
    requires Admissible(objects, cfg, sites[|moves|])
    ensures |sites[n].emitted| <= |cfg.names| && |sites[0].emitted| <= |cfg.names|
    ensures n + Rank(cfg, sites[n]) <= Rank(cfg, sites[0]) + 2 * FruitlessPages(sites, moves, n)
  {
    if n > 0 {
      MovesPay(objects, cfg, sites, moves, n - 1);
      OneMovePays(objects, cfg, sites, moves, n - 1);
    } else {
      AdmissibleAll(objects, cfg, sites, moves, 0);
    }
  }

  /** Every run on a bucket is bounded by the number of its objects and of the pages that broke off
      before their first line; without such pages it ends. */
  lemma BucketRunsEnd(objects: seq<string>, sites: seq<Site>, moves: seq<Move>)
    requires Distinct(objects) && Emptying.IsRun(objects, sites, moves)
    ensures |moves| <= 24 * |objects| + 263 + 2 * FruitlessPages(sites, moves, |moves|)
  {
    RunRefines(objects, sites, moves, |moves|);
    var cfg := CfgOf(objects, sites[|moves|]);
    CfgIsAdmissible(objects, sites[|moves|]);
    MovesPay(objects, cfg, sites, moves, |moves|);
    assert Abs(cfg, sites[0]) == Init(cfg) by {
      assert cfg.names[0..] == cfg.names;
    }
    NewRanks(Init(cfg).wrk.workers);
  }
}
