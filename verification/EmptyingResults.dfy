/** The paging lister and the shrinking bucket refine the pipeline, and a nil return empties the
    bucket. */
module EmptyingResults {
  import opened Batching
  import opened Pipeline
  import opened PipelineInvariant
  import opened PipelineResults
  import opened Emptying
  import Lister

  // -- what every move keeps ---------------------------------------------------------------------

  ghost predicate Distinct(objects: seq<string>) {
    forall p, q :: 0 <= p < q < |objects| ==> objects[p] != objects[q]
  }

  /** A marker to ask with: the empty one at the start, or one that resumes where the listing is. */
  predicate MarkerOk(m: Lister.Marker, k: nat, n: nat) {
    match m
    case NoMarker => k == 0
    case After(p) => p + 1 == k < n
  }

  /** The page lists the objects from `base` on. */
  ghost predicate PageOk(page: seq<Lister.Line>, base: nat, n: nat) {
    base + |page| <= n && forall j :: 0 <= j < |page| ==> page[j] == Lister.LineAt(n, base + j)
  }

  /** With `k` of `n` objects emitted. */
  ghost predicate SourceOk(s: Site, k: nat, n: nat) {
    match s.source
    case Asking(m) => MarkerOk(m, k, n)
    case Paging(m, page, sent) =>
      && sent <= |page| && sent <= k && PageOk(page, k - sent, n)
      && (if sent == 0 then MarkerOk(m, k, n) && (page == [] ==> k == n) else m == page[sent - 1].marker)
    case SendsError => s.failed || s.cancelled
    case Closes(err) => EndOk(s, err, k, n)
    case Closed(err) => EndOk(s, err, k, n)
  }

  ghost predicate EndOk(s: Site, err: bool, k: nat, n: nat) {
    if err then s.failed || s.cancelled else k == n || (k == 0 && (s.cancelled || s.broken))
  }

  predicate Ended(source: Source) { (source.Closes? || source.Closed?) && !source.err }
  predicate Live(source: Source) { source.Asking? || source.Paging? }

  ghost predicate SiteInv(objects: seq<string>, s: Site) {
    && |s.present| == |objects| && s.emitted <= objects
    && Lister.AllFrom(s.present, |s.emitted|)
    && SourceOk(s, |s.emitted|, |objects|)
    && (s.failed ==> !Live(s.source) && !Ended(s.source))
  }

  /** What became of object `p` as a member of batch `j`: it is there until the reply to the batch, and
      after an accepted reply exactly if the reply left it. */
  ghost predicate InBatch(objects: seq<string>, s: Site, j: nat, p: nat)
    requires |s.present| == |objects| && p < |objects|
  {
    if j >= |s.wrk.outcomes| || s.wrk.outcomes[j].Pending? then s.present[p] && objects[p] !in s.left
    else if s.wrk.outcomes[j].Accepted? then s.present[p] <==> objects[p] in s.left
    else objects[p] !in s.left
  }

  ghost predicate ObjectOk(objects: seq<string>, s: Site, p: nat)
    requires |s.present| == |objects| && p < |objects|
  {
    && (forall j :: 0 <= j < |s.bat.handed| && objects[p] in s.bat.handed[j] ==> InBatch(objects, s, j, p))
    && (objects[p] !in Flatten(s.bat.handed) ==> s.present[p] && objects[p] !in s.left)
  }

  /** Every object is where the replies have put it. */
  ghost predicate Accounted(objects: seq<string>, s: Site) {
    |s.present| == |objects| && forall p :: 0 <= p < |objects| ==> ObjectOk(objects, s, p)
  }

  // -- refinement --------------------------------------------------------------------------------

  /** A listing that the run so far may turn out to be. */
  ghost predicate Admissible(objects: seq<string>, cfg: Config, s: Site) {
    && s.emitted <= cfg.names <= objects
    && (!cfg.fails ==> cfg.names == objects)
    && (s.failed ==> cfg.fails && cfg.names == s.emitted)
    && (Ended(s.source) ==> !cfg.fails)
    && (s.broken ==> cfg.breaks)
  }

  function Abs(cfg: Config, s: Site): State
    requires |s.emitted| <= |cfg.names|
  {
    View(s, cfg.names[|s.emitted|..])
  }

  /** The listing that the run so far has been. */
  function CfgOf(objects: seq<string>, s: Site): Config {
    if s.failed then Config(s.emitted, true, s.broken) else Config(objects, false, s.broken)
  }

  lemma CfgIsAdmissible(objects: seq<string>, s: Site)
    requires SiteInv(objects, s)
    ensures Admissible(objects, CfgOf(objects, s), s)
  {
  }

  lemma AdmissibleBefore(objects: seq<string>, cfg: Config, s: Site, m: Move)
    requires SiteInv(objects, s) && Can(objects, s, m) && Admissible(objects, cfg, Make(objects, s, m))
    ensures Admissible(objects, cfg, s)
  {
  }

  /** The action of the pipeline takes the site to another one. */
  ghost predicate Does(cfg: Config, s: Site, a: Action, t: Site)
    requires |s.emitted| <= |cfg.names| && |t.emitted| <= |cfg.names|
  {
    Enabled(cfg, Abs(cfg, s), a) && Do(cfg, Abs(cfg, s), a) == Abs(cfg, t)
  }

  /** The lister stops on an error: the context's, or the one that the listing ends with. */
  lemma ErrorStep(objects: seq<string>, cfg: Config, s: Site, t: Site) returns (a: Action)
    requires SiteInv(objects, s) && Admissible(objects, cfg, s) && Live(s.source)
    requires if s.cancelled then |s.emitted| < |objects| || s.emitted == [] else cfg.fails && cfg.names == s.emitted
    requires t == s.(source := SendsError, failed := t.failed)
    ensures Does(cfg, s, a, t)
  {
    a := if s.cancelled && (|s.emitted| < |cfg.names| || s.emitted == []) then L(Pipeline.Cancelled) else L(Fail);
  }

  lemma ForwardStep(objects: seq<string>, cfg: Config, s: Site)
    requires SiteInv(objects, s) && Can(objects, s, Forward) && Admissible(objects, cfg, s)
    requires Admissible(objects, cfg, Make(objects, s, Forward))
    ensures Does(cfg, s, L(Emit), Make(objects, s, Forward))
  {
    var t := Make(objects, s, Forward);
    var k := |s.emitted|;
    assert t.emitted[k] == cfg.names[k];
    assert cfg.names[k..][1..] == cfg.names[k + 1..];
  }

  /** A page ends, or breaks off, with the empty marker: the listing ends, or is cut off. */
  lemma PageStep(objects: seq<string>, cfg: Config, s: Site, m: Move)
    requires SiteInv(objects, s) && (m.Break? || m.EndPage?) && Can(objects, s, m) && Admissible(objects, cfg, s)
    requires Admissible(objects, cfg, Make(objects, s, m)) && s.source.marker == Lister.NoMarker
    ensures Does(cfg, s, if m.Break? then L(Cut) else L(End), Make(objects, s, m))
  {
    if m.EndPage? {
      assert cfg.names[|s.emitted|..] == [];
    }
  }

  lemma OtherCommutes(cfg: Config, s: Site, a: Action)
    requires IsOther(a) && Enabled(Config([], false, false), View(s, []), a) && |s.emitted| <= |cfg.names|
    ensures Enabled(cfg, Abs(cfg, s), a)
    ensures Do(cfg, Abs(cfg, s), a) == Abs(cfg, Rejoin(s, Do(Config([], false, false), View(s, []), a)))
  {
  }

  /** A move of which the pipeline knows nothing: asking for a page, and coming back for another one. */
  predicate Silent(s: Site, m: Move) {
    m.Ask? || ((m.Break? || m.EndPage?) && s.source.Paging? && s.source.marker != Lister.NoMarker)
  }

  /** Every move is a step of the pipeline, or none at all. */
  lemma Simulate(objects: seq<string>, cfg: Config, s: Site, m: Move) returns (a: Action)
    requires SiteInv(objects, s) && Can(objects, s, m) && Admissible(objects, cfg, s)
    requires Admissible(objects, cfg, Make(objects, s, m))
    ensures if Silent(s, m) then Abs(cfg, Make(objects, s, m)) == Abs(cfg, s) else Does(cfg, s, a, Make(objects, s, m))
  {
    a := Cancel;
    match m
    case Ask(_) =>
    case AskFails => a := ErrorStep(objects, cfg, s, Make(objects, s, m));
    case Forward =>
      a := L(Emit);
      ForwardStep(objects, cfg, s);
    case GiveUp => a := ErrorStep(objects, cfg, s, Make(objects, s, m));
    case SendError => a := L(SendListError);
    case CloseSource => a := L(CloseResults);
    case Other(b, gone) =>
      a := b;
      OtherCommutes(cfg, s, b);
    case _ =>
      a := if m.Break? then L(Cut) else L(End);
      if s.source.marker == Lister.NoMarker {
        PageStep(objects, cfg, s, m);
      }
  }

  // -- the bucket --------------------------------------------------------------------------------

  /** While nothing unlisted is gone, a valid page continues the listing. */
  lemma PageIsOk(present: seq<bool>, m: Lister.Marker, page: seq<Lister.Line>)
    requires Lister.ValidPage(present, m, page) && Lister.AllFrom(present, Lister.Start(m))
    requires Lister.Start(m) <= |present|
    ensures PageOk(page, Lister.Start(m), |present|) && (page == [] ==> Lister.Start(m) == |present|)
  {
    Lister.EmptyPage(present, m, page);
    forall j | 0 <= j < |page|
      ensures page[j] == Lister.LineAt(|present|, Lister.Start(m) + j) && page[j].pos < |present|
    {
      Lister.Consecutive(present, m, page, j);
    }
    if page != [] {
      assert page[|page| - 1].pos < |present|;
    }
  }

  lemma AskKeeps(objects: seq<string>, s: Site, page: seq<Lister.Line>)
    requires SiteInv(objects, s) && Can(objects, s, Ask(page))
    ensures SiteInv(objects, Make(objects, s, Ask(page)))
  {
    PageIsOk(s.present, s.source.marker, page);
  }

  lemma ForwardKeeps(objects: seq<string>, s: Site)
    requires SiteInv(objects, s) && Can(objects, s, Forward)
    ensures SiteInv(objects, Make(objects, s, Forward))
  {
    var k := |s.emitted|;
    assert s.source.page[s.source.sent] == Lister.LineAt(|objects|, k);
    assert s.emitted + [objects[k]] <= objects;
  }

  lemma ListerKeeps(objects: seq<string>, s: Site, m: Move)
    requires SiteInv(objects, s) && Can(objects, s, m) && !m.Other?
    ensures SiteInv(objects, Make(objects, s, m))
  {
    if m.Ask? {
      AskKeeps(objects, s, m.page);
    } else if m.Forward? {
      ForwardKeeps(objects, s);
    } else if (m.Break? || m.EndPage?) && s.source.sent > 0 {
      var k := |s.emitted|;
      assert s.source.marker == Lister.LineAt(|objects|, k - 1).marker;
    }
  }

  lemma {:induction false} InFlatten(batches: seq<Batch>, j: nat, x: string)
    requires j < |batches| && x in batches[j]
    ensures x in Flatten(batches)
  {
    if j > 0 {
      InFlatten(batches[1..], j - 1, x);
    }
  }

  lemma {:induction false} FromFlatten(batches: seq<Batch>, x: string) returns (j: nat)
    requires x in Flatten(batches)
    ensures j < |batches| && x in batches[j]
  {
    if x in batches[0] {
      j := 0;
    } else {
      j := FromFlatten(batches[1..], x);
      j := j + 1;
    }
  }

  /** Only emitted objects are in a batch. */
  lemma BatchesAreEmitted(cfg: Config, t: State, j: nat, x: string)
    requires Inv(cfg, t) && j < |t.bat.handed| && x in t.bat.handed[j]
    ensures x in t.list.emitted
  {
    InFlatten(t.bat.handed, j, x);
    assert x in t.fwd.forwarded;
  }

  lemma TakenIsEmitted(objects: seq<string>, cfg: Config, s: Site, a: Action, gone: set<string>, p: nat)
    requires Distinct(objects) && s.emitted <= objects && |s.emitted| <= |cfg.names| && Inv(cfg, Abs(cfg, s))
    requires p < |objects| && objects[p] in Taken(s, a, gone)
    ensures p < |s.emitted|
  {
    var x := objects[p];
    BatchesAreEmitted(cfg, Abs(cfg, s), s.wrk.workers[a.i].number, x);
    var q :| 0 <= q < |s.emitted| && s.emitted[q] == x;
    assert objects[q] == x;
  }

  /** The others leave the lister alone, and a cancellation is never taken back. */
  lemma OthersLeaveSource(objects: seq<string>, s: Site, a: Action, gone: set<string>)
    requires Can(objects, s, Other(a, gone))
    ensures var t := Make(objects, s, Other(a, gone));
            && t.source == s.source && t.emitted == s.emitted && t.failed == s.failed && t.broken == s.broken
            && (s.cancelled ==> t.cancelled) && t.present == Without(objects, s.present, Taken(s, a, gone))
            && t.left == s.left + LeftBy(s, a, gone)
  {
  }

  lemma SourceStays(s: Site, t: Site, k: nat, n: nat)
    requires SourceOk(s, k, n) && t.source == s.source && t.failed == s.failed && t.broken == s.broken
    requires s.cancelled ==> t.cancelled
    ensures SourceOk(t, k, n)
  {
  }

  lemma OtherKeeps(objects: seq<string>, cfg: Config, s: Site, a: Action, gone: set<string>)
    requires Distinct(objects) && SiteInv(objects, s) && Can(objects, s, Other(a, gone))
    requires |s.emitted| <= |cfg.names| && Inv(cfg, Abs(cfg, s))
    ensures SiteInv(objects, Make(objects, s, Other(a, gone)))
  {
    OthersLeaveSource(objects, s, a, gone);
    var t := Make(objects, s, Other(a, gone));
    SourceStays(s, t, |s.emitted|, |objects|);
    forall p | |s.emitted| <= p < |t.present| ensures t.present[p] {
      if objects[p] in Taken(s, a, gone) {
        TakenIsEmitted(objects, cfg, s, a, gone, p);
      }
    }
  }

  // -- the objects of a batch --------------------------------------------------------------------

  lemma {:induction false} Exclusive(batches: seq<Batch>, i: nat, j: nat, x: string)
    requires Distinct(Flatten(batches)) && i < j < |batches| && x in batches[i]
    ensures x !in batches[j]
  {
    var all, rest := Flatten(batches), Flatten(batches[1..]);
    assert all == batches[0] + rest;
    if i == 0 {
      if x in batches[j] {
        InFlatten(batches[1..], j - 1, x);
        Twice(batches[0], rest, x);
      }
    } else {
      assert Distinct(rest) by {
        assert forall p :: 0 <= p < |rest| ==> rest[p] == all[|batches[0]| + p];
      }
      Exclusive(batches[1..], i - 1, j - 1, x);
    }
  }

  lemma Twice(a: seq<string>, b: seq<string>, x: string)
    requires Distinct(a + b) && x in a
    ensures x !in b
  {
    var p :| 0 <= p < |a| && a[p] == x;
    forall q | 0 <= q < |b| ensures b[q] != x {
      assert (a + b)[p] == x && (a + b)[|a| + q] == b[q];
    }
  }

  /** The batches handed over and the buffer have no name in common. */
  lemma HandedIsDistinct(objects: seq<string>, cfg: Config, t: State)
    requires Distinct(objects) && Inv(cfg, t) && t.list.emitted <= objects
    ensures Distinct(Flatten(t.bat.handed) + t.bat.buffer)
  {
    var all, tail := Flatten(t.bat.handed) + t.bat.buffer, t.bat.dropped + t.fwd.names;
    assert t.fwd.forwarded == all + tail;
    assert all <= t.fwd.forwarded <= t.list.emitted <= objects;
    assert forall p :: 0 <= p < |all| ==> all[p] == objects[p];
  }

  /** A reply settles the objects of its own batch. */
  lemma ReplySettles(objects: seq<string>, s: Site, i: nat, ok: bool, gone: set<string>, p: nat)
    requires |s.present| == |objects| && p < |objects| && ObjectOk(objects, s, p) && Distinct(Flatten(s.bat.handed))
    requires WrkInv(s.cancelled, s.bat, s.wrk) && i < |s.wrk.workers| && s.wrk.workers[i].WrkRequests?
    ensures var t := s.(wrk := WrkDo(s.wrk, i, Reply(ok)),
                    present := Without(objects, s.present, Taken(s, W(i, Reply(ok)), gone)),
                    left := s.left + LeftBy(s, W(i, Reply(ok)), gone));
            ObjectOk(objects, t, p)
  {
    var b := s.wrk.workers[i].number;
    var x := objects[p];
    forall j | 0 <= j < |s.bat.handed| && x in s.bat.handed[j] && x in s.bat.handed[b] ensures j == b {
      if j < b {
        Exclusive(s.bat.handed, j, b, x);
      } else if b < j {
        Exclusive(s.bat.handed, b, j, x);
      }
    }
    if x in s.bat.handed[b] {
      InFlatten(s.bat.handed, b, x);
    }
  }

  lemma HandOverKeeps(objects: seq<string>, s: Site, batch: Batch, t: Site, p: nat)
    requires |s.present| == |objects| && p < |objects| && ObjectOk(objects, s, p)
    requires Distinct(Flatten(s.bat.handed) + batch) && |s.wrk.outcomes| <= |s.bat.handed|
    requires t.present == s.present && t.left == s.left && t.wrk == s.wrk && t.bat.handed == s.bat.handed + [batch]
    ensures ObjectOk(objects, t, p)
  {
    var x := objects[p];
    FlattenSnoc(s.bat.handed, batch);
    if x in Flatten(s.bat.handed) {
      Twice(Flatten(s.bat.handed), batch, x);
    }
    forall j | 0 <= j < |t.bat.handed| && x in t.bat.handed[j] ensures InBatch(objects, t, j, p) {
      if j < |s.bat.handed| {
        assert x in s.bat.handed[j] && InBatch(objects, s, j, p);
      } else {
        assert x in batch;
      }
    }
  }

  /** Any other step changes no outcome, except that a batch is taken into a worker's hands. */
  lemma QuietKeeps(objects: seq<string>, s: Site, t: Site, p: nat)
    requires |s.present| == |objects| && p < |objects| && ObjectOk(objects, s, p)
    requires t.present == s.present && t.left == s.left && t.bat.handed == s.bat.handed
    requires t.wrk.outcomes == s.wrk.outcomes ||
             exists i :: t.wrk.outcomes == s.wrk.outcomes + [Pending(i)]
    ensures ObjectOk(objects, t, p)
  {
    forall j | 0 <= j < |t.bat.handed| && objects[p] in t.bat.handed[j] ensures InBatch(objects, t, j, p) {
      assert InBatch(objects, s, j, p);
    }
  }

  lemma WithoutNothing(objects: seq<string>, present: seq<bool>)
    ensures Without(objects, present, {}) == present
  {
  }

  lemma AccountedStep(objects: seq<string>, cfg: Config, s: Site, m: Move)
    requires Distinct(objects) && Accounted(objects, s) && Can(objects, s, m) && s.emitted <= objects
    requires |s.emitted| <= |cfg.names| && Inv(cfg, Abs(cfg, s))
    ensures Accounted(objects, Make(objects, s, m))
  {
    var t := Make(objects, s, m);
    forall p | 0 <= p < |objects| ensures ObjectOk(objects, t, p) {
      if !m.Other? {
        QuietKeeps(objects, s, t, p);
      } else {
        OtherAccounts(objects, cfg, s, m.action, m.gone, p);
      }
    }
  }

  lemma OtherAccounts(objects: seq<string>, cfg: Config, s: Site, a: Action, gone: set<string>, p: nat)
    requires Distinct(objects) && Can(objects, s, Other(a, gone)) && s.emitted <= objects
    requires |s.present| == |objects| && p < |objects| && ObjectOk(objects, s, p)
    requires |s.emitted| <= |cfg.names| && Inv(cfg, Abs(cfg, s))
    ensures ObjectOk(objects, Make(objects, s, Other(a, gone)), p)
  {
    var t := Make(objects, s, Other(a, gone));
    HandedIsDistinct(objects, cfg, Abs(cfg, s));
    OthersHanded(cfg, s, a);
    OthersLeaveSource(objects, s, a, gone);
    if a.W? && a.w.Reply? {
      FrontIsDistinct(Flatten(s.bat.handed), s.bat.buffer);
      ReplySettles(objects, s, a.i, a.w.ok, gone, p);
    } else {
      WithoutNothing(objects, s.present);
      assert t.left == s.left;
      if a == B(HandOver) {
        HandOverKeeps(objects, s, s.bat.buffer, t, p);
      } else {
        QuietKeeps(objects, s, t, p);
      }
    }
  }

  lemma FrontIsDistinct(a: seq<string>, b: seq<string>)
    requires Distinct(a + b)
    ensures Distinct(a)
  {
    assert forall q :: 0 <= q < |a| ==> a[q] == (a + b)[q];
  }

  /** What the others do to batches and outcomes. */
  lemma OthersHanded(cfg: Config, s: Site, a: Action)
    requires IsOther(a) && Enabled(Config([], false, false), View(s, []), a)
    ensures var t := Do(Config([], false, false), View(s, []), a);
            && t.bat.handed == (if a == B(HandOver) then s.bat.handed + [s.bat.buffer] else s.bat.handed)
            && (a.W? ==> t.wrk == WrkDo(s.wrk, a.i, a.w)) && (!a.W? && !a.C? ==> t.wrk == s.wrk)
            && (!a.W? ==> t.wrk.outcomes == s.wrk.outcomes)
            && (a.W? && a.w.Take? ==> t.wrk.outcomes == s.wrk.outcomes + [Pending(a.i)])
            && (a.W? && !a.w.Take? && !a.w.Reply? ==> t.wrk.outcomes == s.wrk.outcomes)
  {
  }

  // -- runs --------------------------------------------------------------------------------------

  ghost predicate Refined(objects: seq<string>, s: Site) {
    forall cfg :: Admissible(objects, cfg, s) ==> Reachable(cfg, Abs(cfg, s))
  }

  lemma FirstRefines(objects: seq<string>)
    ensures SiteInv(objects, First(objects)) && Accounted(objects, First(objects)) && Refined(objects, First(objects))
  {
    forall cfg | Admissible(objects, cfg, First(objects)) ensures Reachable(cfg, Abs(cfg, First(objects))) {
      assert cfg.names[0..] == cfg.names;
      assert Abs(cfg, First(objects)) == Init(cfg);
      ReachInit(cfg);
    }
  }

  lemma MoveRefines(objects: seq<string>, s: Site, m: Move)
    requires Distinct(objects) && Can(objects, s, m)
    requires SiteInv(objects, s) && Accounted(objects, s) && Refined(objects, s)
    ensures var t := Make(objects, s, m); SiteInv(objects, t) && Accounted(objects, t) && Refined(objects, t)
  {
    var now := CfgOf(objects, s);
    CfgIsAdmissible(objects, s);
    ReachableInv(now, Abs(now, s));
    if m.Other? {
      OtherKeeps(objects, now, s, m.action, m.gone);
    } else {
      ListerKeeps(objects, s, m);
    }
    AccountedStep(objects, now, s, m);
    var t := Make(objects, s, m);
    forall cfg | Admissible(objects, cfg, t) ensures Reachable(cfg, Abs(cfg, t)) {
      AdmissibleBefore(objects, cfg, s, m);
      var a := Simulate(objects, cfg, s, m);
      if !Silent(s, m) {
        ReachStep(cfg, Abs(cfg, s), a);
      }
    }
  }

  /** Refinement: every state of the paging lister and the shrinking bucket is a reachable state of
      the pipeline, for the listing that it turns out to be. */
  lemma {:induction false} RunRefines(objects: seq<string>, sites: seq<Site>, moves: seq<Move>, n: nat)
    requires Distinct(objects) && Emptying.IsRun(objects, sites, moves) && n < |sites|
    ensures SiteInv(objects, sites[n]) && Accounted(objects, sites[n]) && Refined(objects, sites[n])
  {
    if n == 0 {
      FirstRefines(objects);
    } else {
      RunRefines(objects, sites, moves, n - 1);
      assert Can(objects, sites[n - 1], moves[n - 1]);
      MoveRefines(objects, sites[n - 1], moves[n - 1]);
    }
  }

  predicate Empty(present: seq<bool>) { forall p :: 0 <= p < |present| ==> !present[p] }

  /** The bucket holds exactly these of its objects. */
  ghost predicate Holds(objects: seq<string>, present: seq<bool>, names: set<string>) {
    |present| == |objects| && forall p :: 0 <= p < |objects| ==> (present[p] <==> objects[p] in names)
  }

  /** What a nil return says about the bucket.  If anything was listed, the objects that are left are
      exactly those that accepted delete requests left behind; otherwise all of them are there, and
      there were none or the listing was cut off before its first line, by a cancellation or a broken
      first page. */
  lemma NilLeaves(objects: seq<string>, sites: seq<Site>, moves: seq<Move>, n: nat)
    requires Distinct(objects) && Emptying.IsRun(objects, sites, moves) && n < |sites|
    requires sites[n].call.caller == CallReturned(true)
    ensures var s := sites[n];
            if s.emitted != [] then Holds(objects, s.present, s.left)
            else Lister.AllFrom(s.present, 0) && (objects == [] || s.cancelled || s.broken)
  {
    RunRefines(objects, sites, moves, n);
    var s := sites[n];
    var cfg := CfgOf(objects, s);
    CfgIsAdmissible(objects, s);
    NilReturn(cfg, Abs(cfg, s));
    if s.emitted != [] {
      forall p | 0 <= p < |objects| ensures s.present[p] <==> objects[p] in s.left {
        assert objects[p] in Flatten(s.bat.handed);
        var j := FromFlatten(s.bat.handed, objects[p]);
        assert ObjectOk(objects, s, p) && InBatch(objects, s, j, p);
      }
    }
  }

  /** A nil return empties the bucket exactly when there was nothing in it, or when something was listed
      and no accepted delete request left any of these objects behind. */
  lemma NilEmptiesExactly(objects: seq<string>, sites: seq<Site>, moves: seq<Move>, n: nat)
    requires Distinct(objects) && Emptying.IsRun(objects, sites, moves) && n < |sites|
    requires sites[n].call.caller == CallReturned(true)
    ensures var s := sites[n];
            Empty(s.present) <==> objects == [] || (s.emitted != [] && forall x :: x in objects ==> x !in s.left)
  {
    NilLeaves(objects, sites, moves, n);
    RunRefines(objects, sites, moves, n);
    var s := sites[n];
    if objects != [] && s.emitted == [] {
      assert s.present[0];
    }
    if s.emitted != [] && Empty(s.present) {
      forall x | x in objects ensures x !in s.left {
        var p :| 0 <= p < |objects| && objects[p] == x;
      }
    }
  }

  /** Without cancellation, with a first page that is whole, and when no accepted delete request left
      anything behind, nil means an empty bucket. */
  lemma CleanNilEmptiesBucket(objects: seq<string>, sites: seq<Site>, moves: seq<Move>, n: nat)
    requires Distinct(objects) && Emptying.IsRun(objects, sites, moves) && n < |sites|
    requires sites[n].call.caller == CallReturned(true) && !sites[n].cancelled && !sites[n].broken
    requires sites[n].left == {}
    ensures Empty(sites[n].present)
  {
    NilLeaves(objects, sites, moves, n);
    RunRefines(objects, sites, moves, n);
  }
}
