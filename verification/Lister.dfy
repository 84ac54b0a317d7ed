/** The marker-driven lister of `listObjects` (qiniu/kodo.go:532-555) against a server that lists in
    key order while emitted objects are being deleted. */
module Lister {
  import opened Wrappers

  /** The resume marker of a line: empty, or a token that resumes after the object at `pos`. */
  datatype Marker = NoMarker | After(pos: nat)

  /** One line of a page.  Objects are named by their position in the server's key order. */
  datatype Line = Line(marker: Marker, pos: nat)

  function Start(m: Marker): nat {
    match m
    case NoMarker => 0
    case After(p) => p + 1
  }

  ghost predicate AllFrom(present: seq<bool>, start: nat) {
    forall p :: start <= p < |present| ==> present[p]
  }

  ghost predicate NoneFrom(present: seq<bool>, start: nat) {
    forall p :: start <= p < |present| ==> !present[p]
  }

  /** Some of the emitted objects have disappeared, and nothing else has changed. */
  ghost predicate Shrunk(before: seq<bool>, after: seq<bool>, emitted: seq<nat>) {
    && |after| == |before|
    && forall p :: 0 <= p < |after| && after[p] != before[p] ==> !after[p] && p in emitted
  }

  /** A bucket, namely which of the objects of the server's key order are present. */
  class Bucket {
    var present: seq<bool>

    constructor (size: nat)
      ensures |present| == size && AllFrom(present, 0)
    {
      present := seq(size, _ => true);
    }

    /** Other goroutines delete any of the objects that were already emitted. */
    method Interfere(emitted: seq<nat>)
      modifies this
      ensures Shrunk(old(present), present, emitted)
    {
      ghost var before := present;
      for i := 0 to |emitted|
        invariant Shrunk(before, present, emitted)
      {
        var delete: bool := *;
        if delete && emitted[i] < |present| {
          present := present[emitted[i] := false];
        }
      }
    }
  }

  /** What a listing meets: which of its requests are answered, which bodies decode to their end, and
      the moment, counted in requests and lines, from which its context is cancelled. */
  datatype Weather = Weather(answered: nat -> bool, whole: nat -> bool, cancelAt: Option<nat>)

  predicate Cancelled(w: Weather, now: nat) { w.cancelAt.Some? && w.cancelAt.value <= now }

  /** What a server may answer: the objects from the marker on, in key order and cut off anywhere,
      but with at least one line as long as an object is left; each line carries the marker that
      resumes after it, and the empty marker exactly on the last object. */
  ghost predicate ValidPage(present: seq<bool>, m: Marker, page: seq<Line>) {
    && Ascending(present, Start(m), page) && NoGaps(present, Start(m), page) && Resumable(present, page)
    && (page == [] ==> NoneFrom(present, Start(m)))
  }

  /** A page lists objects in key order. */
  ghost predicate Ascending(present: seq<bool>, from: nat, page: seq<Line>) {
    && (forall i :: 0 <= i < |page| ==> from <= page[i].pos < |present| && present[page[i].pos])
    && (forall i, j :: 0 <= i < j < |page| ==> page[i].pos < page[j].pos)
  }

  /** A page leaves no object out before its last one. */
  ghost predicate NoGaps(present: seq<bool>, from: nat, page: seq<Line>) {
    forall i, p :: 0 <= i < |page| && from <= p < page[i].pos && p < |present| && present[p] ==>
                     exists j :: 0 <= j < i && page[j].pos == p
  }

  ghost predicate Resumable(present: seq<bool>, page: seq<Line>) {
    forall i :: 0 <= i < |page| ==>
                  page[i].marker == if NoneFrom(present, page[i].pos + 1) then NoMarker else After(page[i].pos)
  }

  lemma {:induction false} ConsecutivePositions(present: seq<bool>, from: nat, page: seq<Line>, i: nat)
    requires Ascending(present, from, page) && NoGaps(present, from, page) && i < |page| && AllFrom(present, from)
    ensures page[i].pos == from + i
  {
    if i > 0 {
      ConsecutivePositions(present, from, page, i - 1);
    }
    assert from + i < |present| ==> present[from + i];
  }

  /** With all objects from the marker on present, a page is a run of consecutive positions. */
  lemma Consecutive(present: seq<bool>, m: Marker, page: seq<Line>, i: nat)
    requires ValidPage(present, m, page) && i < |page| && AllFrom(present, Start(m))
    ensures page[i].pos == Start(m) + i
    ensures page[i].marker == if page[i].pos + 1 == |present| then NoMarker else After(page[i].pos)
  {
    ConsecutivePositions(present, Start(m), page, i);
    var next := page[i].pos + 1;
    assert next < |present| ==> present[next];
  }

  lemma EmptyPage(present: seq<bool>, m: Marker, page: seq<Line>)
    requires ValidPage(present, m, page) && AllFrom(present, Start(m))
    ensures page == [] ==> |present| <= Start(m)
  {
    assert Start(m) < |present| ==> present[Start(m)];
  }

  /** Exactly the first `k` objects have been emitted, in order, and none of the others is gone. */
  ghost predicate Emitted(present: seq<bool>, emitted: seq<nat>, k: nat) {
    && |emitted| == k <= |present|
    && (forall i :: 0 <= i < k ==> emitted[i] == i)
    && AllFrom(present, k)
  }

  lemma EmitOne(before: seq<bool>, after: seq<bool>, emitted: seq<nat>, k: nat)
    requires Emitted(before, emitted, k) && k < |before| && Shrunk(before, after, emitted + [k])
    ensures Emitted(after, emitted + [k], k + 1)
  {
  }

  /** How the forwarding of a page ends: at its end, because the page reader gave up, or with the
      context's error. */
  datatype PageEnd = PageDone | PageCut | PageCancelled

  /** The inner loop: forward the lines of page number `n`.  The page reader gives up on cancellation,
      or when the rest of the body does not decode.  Without cancellation and except on the first page,
      the body is taken to have at least one line that does. */
  method EmitPage(b: Bucket, w: Weather, n: nat, start: nat, asked: Marker, page: seq<Line>, before: seq<nat>)
    returns (emitted: seq<nat>, lastMarker: Marker, end: PageEnd, now: nat)
    requires ValidPage(b.present, asked, page) && Emitted(b.present, before, Start(asked))
    modifies b
    ensures |b.present| == |old(b.present)| && now == start + |emitted| - |before|
    ensures |before| <= |emitted| <= |before| + |page| && Emitted(b.present, emitted, |emitted|)
    ensures end.PageDone? ==> |emitted| == |before| + |page|
    ensures end.PageCut? ==> |emitted| < |before| + |page| && (Cancelled(w, now) || !w.whole(n))
    ensures end.PageCut? && |emitted| == |before| ==> Cancelled(w, now) || asked == NoMarker
    ensures end.PageCancelled? ==> Cancelled(w, now)
    ensures lastMarker == if |emitted| == |before| then asked else page[|emitted| - |before| - 1].marker
  {
    emitted, lastMarker, end, now := before, asked, PageDone, start;
    ghost var listed := b.present;
    for i := 0 to |page|
      invariant |b.present| == |listed| && Emitted(b.present, emitted, |before| + i) && now == start + i
      invariant lastMarker == if i == 0 then asked else page[i - 1].marker
    {
      var stop: bool := *;
      if stop && (Cancelled(w, now) || (!w.whole(n) && (i > 0 || asked == NoMarker))) {
        end := PageCut;
        return;
      }
      stop := *;
      if stop && Cancelled(w, now) {
        end := PageCancelled;
        return;
      }
      Consecutive(listed, asked, page, i);
      lastMarker := page[i].marker;
      ghost var seen, sent := b.present, emitted;
      emitted := emitted + [page[i].pos];
      now := now + 1;
      b.Interfere(emitted);
      EmitOne(seen, b.present, sent, page[i].pos);
    }
  }

  /** The lister loop.  Every initially present object is emitted exactly once and in key order,
      however the pages are cut and whichever emitted objects disappear meanwhile.  It fails only
      when the context is cancelled or one of its requests is not answered, and then it leaves a
      prefix; otherwise the listing is complete, unless the first page is cut off before its first
      line.  The loop ends because each page leaves fewer objects to list, or nothing after a
      cancellation. */
  method ListObjects(b: Bucket, w: Weather) returns (emitted: seq<nat>, err: bool)
    requires AllFrom(b.present, 0)
    modifies b
    ensures |emitted| <= |old(b.present)| && forall i :: 0 <= i < |emitted| ==> emitted[i] == i
    ensures !err ==> || |emitted| == |old(b.present)|
                     || (emitted == [] && (Cancelled(w, 1) || !w.whole(0)))
    ensures err ==> Cancelled(w, 2 * |emitted| + 1) || exists k: nat :: k <= |emitted| && !w.answered(k)
    ensures Cancelled(w, 0) || !w.answered(0) ==> err && emitted == []
  {
    emitted, err := [], false;
    var lastMarker, n, now := NoMarker, 0, 0;
    while true
      invariant |b.present| == |old(b.present)| && !err
      invariant Emitted(b.present, emitted, Start(lastMarker))
      invariant lastMarker != NoMarker ==> |emitted| < |b.present|
      invariant lastMarker == NoMarker <==> n == 0
      invariant n > 0 ==> w.answered(0) && !Cancelled(w, 0)
      invariant now == n + |emitted| && (n <= |emitted| || (Cancelled(w, now) && n == |emitted| + 1))
      decreases |b.present| - |emitted|, if Cancelled(w, now) then 0 else 1
    {
      var ok, page := Request(b, w, n, now, lastMarker);
      if !ok {
        err := true;
        return;
      }
      EmptyPage(b.present, lastMarker, page);
      forall i | 0 <= i < |page| ensures page[i] == LineAt(|b.present|, Start(lastMarker) + i) {
        Consecutive(b.present, lastMarker, page, i);
      }
      var end;
      emitted, lastMarker, end, now := EmitPage(b, w, n, now + 1, lastMarker, page, emitted);
      n := n + 1;
      if end.PageCancelled? {
        err := true;
        return;
      }
      if lastMarker == NoMarker {
        return;
      }
    }
  }

  /** The server answers with some valid page, or the request fails, as it does after a cancellation. */
  method Request(b: Bucket, w: Weather, n: nat, now: nat, m: Marker) returns (ok: bool, page: seq<Line>)
    requires AllFrom(b.present, Start(m)) && Start(m) <= |b.present|
    ensures ok == (w.answered(n) && !Cancelled(w, now))
    ensures ok ==> ValidPage(b.present, m, page)
  {
    ok := w.answered(n) && !Cancelled(w, now);
    var size, start := |b.present|, Start(m);
    var length: nat :| length <= size - start && (length == 0 ==> start == size);
    page := seq(length, i requires 0 <= i < length => LineAt(size, start + i));
    PageIsValid(b.present, m, page);
  }

  function LineAt(size: nat, p: nat): Line {
    Line(if p + 1 == size then NoMarker else After(p), p)
  }

  lemma PageIsValid(present: seq<bool>, m: Marker, page: seq<Line>)
    requires AllFrom(present, Start(m)) && Start(m) + |page| <= |present|
    requires page == [] ==> Start(m) == |present|
    requires forall i :: 0 <= i < |page| ==> page[i] == LineAt(|present|, Start(m) + i)
    ensures ValidPage(present, m, page)
  {
    var k := Start(m);
    forall i, p | 0 <= i < |page| && k <= p < page[i].pos && present[p]
      ensures exists j :: 0 <= j < i && page[j].pos == p
    {
      assert page[p - k].pos == p;
    }
    forall i | 0 <= i < |page|
      ensures page[i].marker == if NoneFrom(present, page[i].pos + 1) then NoMarker else After(page[i].pos)
    {
      assert page[i].pos + 1 < |present| ==> present[page[i].pos + 1];
    }
  }
}
