/** `CleanObjects` on a bucket: the pipeline with a lister that pages through the server's objects
    while accepted delete requests take them away (qiniu/kodo.go:84-120, 482-670). */
module Emptying {
  import opened Batching
  import opened Pipeline
  import Lister

  /** The lister: asking for a page, forwarding the lines of one, or past the end.  The marker is the
      last one seen. */
  datatype Source =
    | Asking(marker: Lister.Marker)
    | Paging(marker: Lister.Marker, page: seq<Lister.Line>, sent: nat)
    | SendsError
    | Closes(err: bool)
    | Closed(err: bool)

  /** Where the pipeline and the bucket are.  `failed` records that a list request failed without
      cancellation, `broken` that the first page broke off before its first line, and `left` what
      accepted delete requests left behind. */
  datatype Site = Site(
    source: Source, results: seq<Item>, emitted: seq<string>, failed: bool, broken: bool, present: seq<bool>,
    left: set<string>, cancelled: bool, fwd: FwdPart, bat: BatPart, wrk: WrkPart, call: CallPart)

  function First(objects: seq<string>): Site {
    var s := Init(Config([], false, false));
    Site(Asking(Lister.NoMarker), [], [], false, false, seq(|objects|, _ => true),
         {}, false, s.fwd, s.bat, s.wrk, s.call)
  }

  function ListerOf(source: Source, rest: seq<string>): Pipeline.Lister {
    match source
    case Asking(_) => Listing(rest)
    case Paging(_, _, _) => Listing(rest)
    case SendsError => ListSendsError
    case Closes(err) => ListCloses(err)
    case Closed(err) => ListClosed(err)
  }

  /** The state of the pipeline, when `rest` is still to be listed. */
  function View(s: Site, rest: seq<string>): State {
    State(s.cancelled, ListPart(ListerOf(s.source, rest), s.results, s.emitted), s.fwd, s.bat, s.wrk, s.call)
  }

  /** What the lister does, and what everyone else does.  A reply to a delete request takes the objects
      `gone` of its batch away: a refused request may have deleted some of them, and the status 298,
      which tells that only some operations succeeded, counts as accepted. */
  datatype Move =
    | Ask(page: seq<Lister.Line>)
    | AskFails
    | Forward
    | GiveUp
    | Break
    | EndPage
    | SendError
    | CloseSource
    | Other(action: Action, gone: set<string>)

  predicate IsOther(a: Action) { !a.L? }

  /** A cut-off page leaves the lister with its last marker. */
  function AfterPage(m: Lister.Marker): Source { if m == Lister.NoMarker then Closes(false) else Asking(m) }

  ghost predicate Can(objects: seq<string>, s: Site, m: Move) {
    match m
    case Ask(page) => s.source.Asking? && Lister.ValidPage(s.present, s.source.marker, page)
    case AskFails => s.source.Asking?
    case Forward =>
      s.source.Paging? && s.source.sent < |s.source.page| && s.source.page[s.source.sent].pos < |objects| &&
      |s.results| < RESULTS_CAP
    case GiveUp => s.source.Paging? && s.source.sent < |s.source.page| && s.cancelled
    case Break => s.source.Paging? && s.source.sent < |s.source.page|
    case EndPage => s.source.Paging? && s.source.sent == |s.source.page|
    case SendError => s.source.SendsError? && |s.results| < RESULTS_CAP
    case CloseSource => s.source.Closes?
    case Other(a, _) => IsOther(a) && Enabled(Config([], false, false), View(s, []), a)
  }

  /** The batch that worker `i` has requested to delete. */
  function BatchOf(s: Site, i: nat): Batch {
    if i < |s.wrk.workers| && s.wrk.workers[i].WrkRequests? && s.wrk.workers[i].number < |s.bat.handed|
    then s.bat.handed[s.wrk.workers[i].number] else []
  }

  function BatchSet(s: Site, i: nat): set<string> { set x | x in BatchOf(s, i) }

  /** The objects that an action takes away. */
  function Taken(s: Site, a: Action, gone: set<string>): set<string> {
    if a.W? && a.w.Reply? then BatchSet(s, a.i) * gone else {}
  }

  /** The objects that an accepted delete request leaves behind. */
  function LeftBy(s: Site, a: Action, gone: set<string>): set<string> {
    if a.W? && a.w.Reply? && a.w.ok then BatchSet(s, a.i) - gone else {}
  }

  function Without(objects: seq<string>, present: seq<bool>, taken: set<string>): seq<bool> {
    seq(|present|, p requires 0 <= p < |present| => present[p] && !(p < |objects| && objects[p] in taken))
  }

  /** The others take their step. */
  function Rejoin(s: Site, t: State): Site {
    s.(results := t.list.results, cancelled := t.cancelled, fwd := t.fwd, bat := t.bat, wrk := t.wrk, call := t.call)
  }

  ghost function Make(objects: seq<string>, s: Site, m: Move): Site
    requires Can(objects, s, m)
  {
    match m
    case Ask(page) => s.(source := Paging(s.source.marker, page, 0))
    case AskFails => s.(source := SendsError, failed := s.failed || !s.cancelled)
    case Forward =>
      var line := s.source.page[s.source.sent];
      s.(source := Paging(line.marker, s.source.page, s.source.sent + 1),
      results := s.results + [Name(objects[line.pos])], emitted := s.emitted + [objects[line.pos]])
    case GiveUp => s.(source := SendsError)
    case Break =>
      s.(source := AfterPage(s.source.marker),
      broken := s.broken || (s.source.marker == Lister.NoMarker && !s.cancelled))
    case EndPage => s.(source := AfterPage(s.source.marker))
    case SendError => s.(source := Closes(true), results := s.results + [ListError])
    case CloseSource => s.(source := Closed(s.source.err))
    case Other(a, gone) =>
      Rejoin(s, Do(Config([], false, false), View(s, []), a)).(
      present := Without(objects, s.present, Taken(s, a, gone)), left := s.left + LeftBy(s, a, gone))
  }

  ghost predicate IsRun(objects: seq<string>, sites: seq<Site>, moves: seq<Move>) {
    && |sites| == |moves| + 1
    && sites[0] == First(objects)
    && forall i {:trigger moves[i]} :: 0 <= i < |moves| ==>
         Can(objects, sites[i], moves[i]) && sites[i + 1] == Make(objects, sites[i], moves[i])
  }
}
