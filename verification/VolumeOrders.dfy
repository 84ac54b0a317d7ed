/** Exactly when the volume parser does not depend on Go's map order, its two loops, the completion
    from the secrets and the lookups on the server included (plugin/kodo_parameters.go:73-173). */
module VolumeOrders {
  import opened Wrappers
  import opened Text
  import opened Fields
  import opened Parameters
  import opened VolumeParameters
  import opened ParameterOrders

  // -- the two stages as one ---------------------------------------------------------------------

  lemma {:induction false} CompleteJoin(fill: Filler, r: Rec, a: seq<Slot>, b: seq<Slot>)
    ensures var q := Complete(fill, r, a);
            Complete(fill, r, a + b) == if q.None? then None else Complete(fill, q.value, b)
  {
    if b == [] {
      assert a + b == a;
    } else {
      var n := |b| - 1;
      CompleteJoin(fill, r, a, b[..n]);
      assert (a + b)[..|a + b| - 1] == a + b[..n];
    }
  }

  /** Fields beside those to be completed do not matter. */
  lemma {:induction false} CompleteBeside(fill: Filler, r: Rec, more: Rec, steps: seq<Slot>)
    requires forall i :: 0 <= i < |steps| ==> steps[i] !in more
    ensures var q := Complete(fill, r, steps);
            Complete(fill, r + more, steps) == if q.None? then None else Some(q.value + more)
  {
    if steps != [] {
      var n := |steps| - 1;
      CompleteBeside(fill, r, more, steps[..n]);
      var q := Complete(fill, r, steps[..n]);
      if q.Some? {
        GetBeside(q.value, more, steps[n]);
        var v := fill(steps[n], Get(q.value, steps[n]));
        if v.Some? {
          PutBeside(q.value, more, steps[n], v.value);
        }
      }
    }
  }

  lemma GetBeside(q: Rec, more: Rec, s: Slot)
    requires s !in more
    ensures Get(q + more, s) == Get(q, s)
  {
  }

  lemma PutBeside(q: Rec, more: Rec, s: Slot, v: Val)
    requires s !in more
    ensures (q + more)[s := v] == q[s := v] + more
  {
  }

  ghost function Either(first: Offer, second: Offer): Offer { (s: Slot, v: Val) => first(s, v) || second(s, v) }

  /** The two offers are for different fields. */
  ghost predicate Apart(first: Offer, second: Offer, later: Slot -> bool) {
    forall s: Slot, v: Val :: (first(s, v) ==> !later(s)) && (second(s, v) ==> later(s))
  }

  lemma ChoiceJoins(first: Offer, second: Offer, r: Rec, q: Rec)
    requires Choice(first, r) && Choice(second, q) && forall s :: s in r ==> s !in q
    ensures Choice(Either(first, second), r + q)
  {
  }

  lemma ChoiceSplits(first: Offer, second: Offer, later: Slot -> bool, r: Rec) returns (a: Rec, b: Rec)
    requires Apart(first, second, later) && Choice(Either(first, second), r)
    ensures Choice(first, a) && Choice(second, b) && a + b == r
  {
    a, b := map s | s in r && !later(s) :: r[s], map s | s in r && later(s) :: r[s];
    forall s: Slot, v: Val | first(s, v) ensures s in a {
      assert Either(first, second)(s, v);
    }
    forall s: Slot, v: Val | second(s, v) ensures s in b {
      assert Either(first, second)(s, v);
    }
    forall s | s in a ensures first(s, a[s]) {
      assert Either(first, second)(s, r[s]);
    }
    forall s | s in b ensures second(s, b[s]) {
      assert Either(first, second)(s, r[s]);
    }
  }

  // -- what the lookups let through --------------------------------------------------------------

  /** What the lookups can make of a record: nothing, when the bucket has neither id nor name; and
      they replace the region together with an empty id. */
  function Shown(r: Rec): Option<Rec> {
    if Get(r, BucketId) != Txt("") then Some(r)
    else if Get(r, BucketName) == Txt("") then None
    else Some(r[Region := Txt("")])
  }

  function ShownOf(c: Option<Rec>): Option<Rec> { if c.None? then None else Shown(c.value) }

  function ResolveOf(remote: Remote, c: Option<Rec>): Option<Rec> {
    if c.None? then None else Resolve(remote, c.value)
  }

  lemma ShownDecides(remote: Remote, c: Option<Rec>, d: Option<Rec>)
    requires ShownOf(c) == ShownOf(d)
    ensures ResolveOf(remote, c) == ResolveOf(remote, d)
  {
    if ShownOf(c).None? {
      NotShown(remote, c);
      NotShown(remote, d);
    } else {
      var a, b := c.value, d.value;
      assert Get(a, BucketId) == Get(Shown(a).value, BucketId) == Get(b, BucketId);
      if Get(a, BucketId) == Txt("") {
        UpToRegion(remote, a, b);
      }
    }
  }

  lemma NotShown(remote: Remote, c: Option<Rec>)
    requires ShownOf(c).None?
    ensures ResolveOf(remote, c) == None
  {
  }

  lemma PutAt(r: Rec, t: Slot, v: Val, s: Slot)
    ensures Get(r[t := v], s) == if s == t then v else Get(r, s)
  {
  }

  lemma EqualUpToRegion(a: Rec, b: Rec)
    requires Get(a, BucketId) == Txt("") == Get(b, BucketId) && Shown(a) == Shown(b) && Shown(a).Some?
    ensures a[Region := Txt("")] == b[Region := Txt("")]
    ensures forall s: Slot :: s != Region ==> Get(a, s) == Get(b, s)
  {
    forall s: Slot | s != Region ensures Get(a, s) == Get(b, s) {
      PutAt(a, Region, Txt(""), s);
      PutAt(b, Region, Txt(""), s);
    }
  }

  lemma PutHides(a: Rec, b: Rec, x: Val, id: Val, y: Val)
    requires a[Region := x] == b[Region := x]
    ensures a[BucketId := id][Region := y] == b[BucketId := id][Region := y]
  {
    assert a[BucketId := id][Region := y] == a[Region := x][BucketId := id][Region := y];
    assert b[BucketId := id][Region := y] == b[Region := x][BucketId := id][Region := y];
  }

  lemma UpToRegion(remote: Remote, a: Rec, b: Rec)
    requires Get(a, BucketId) == Txt("") == Get(b, BucketId) && Shown(a) == Shown(b) && Shown(a).Some?
    ensures Resolve(remote, a) == Resolve(remote, b)
  {
    EqualUpToRegion(a, b);
    var found := remote.findBucket(AccountOf(a), TextOf(Get(a, BucketName)));
    if found.Found? {
      PutHides(a, b, Txt(""), Txt(found.value.id), Txt(found.value.region));
    }
    assert ResolveBucket(remote, a) == ResolveBucket(remote, b);
  }

  /** A server that finds everything, except perhaps the bucket. */
  function Knowing(bucket: bool, endpoint: string, region: string): Remote {
    Remote((a, b) => if bucket then Found(BucketInfo("b", "r")) else Failed,
           (a, b) => Found(endpoint), (a, b) => Found(region))
  }

  lemma KnownBucket(remote: Remote, r: Rec, s: Slot)
    requires Shown(r).Some? && forall a, b :: remote.findBucket(a, b) == Found(BucketInfo("b", "r"))
    ensures var c := ResolveBucket(remote, r);
            && c.Some?
            && Get(c.value, s) ==
               if Get(r, BucketId) != Txt("") then Get(r, s)
               else if s == BucketId then Txt("b")
               else if s == Region then Txt("r")
               else Get(r, s)
  {
    PutAt(r, BucketId, Txt("b"), s);
    PutAt(r[BucketId := Txt("b")], Region, Txt("r"), s);
  }

  lemma KnownEndpoint(remote: Remote, endpoint: string, r: Rec, s: Slot)
    requires forall a, b :: remote.s3Endpoint(a, b) == Found(endpoint)
    ensures var c := ResolveEndpoint(remote, r);
            c.Some? && Get(c.value, s) == if s == S3Endpoint && Get(r, s) == Nil then Link(endpoint) else Get(r, s)
  {
    PutAt(r, S3Endpoint, Link(endpoint), s);
  }

  lemma KnownRegion(remote: Remote, region: string, r: Rec, s: Slot)
    requires forall a, b :: remote.s3Region(a, b) == Found(region)
    ensures var c := ResolveRegion(remote, r);
            c.Some? && Get(c.value, s) == if s == S3Region && Get(r, s) == Txt("") then Txt(region) else Get(r, s)
  {
    PutAt(r, S3Region, Txt(region), s);
  }

  /** What such a server leaves of a record. */
  function KnownValue(endpoint: string, region: string, id: Val, s: Slot, v: Val): Val {
    if s == S3Endpoint && v == Nil then Link(endpoint)
    else if s == S3Region && v == Txt("") then Txt(region)
    else if s == BucketId && id == Txt("") then Txt("b")
    else if s == Region && id == Txt("") then Txt("r")
    else v
  }

  lemma KnownAt(endpoint: string, region: string, r: Rec, s: Slot)
    requires Shown(r).Some?
    ensures var c := Resolve(Knowing(true, endpoint, region), r);
            c.Some? && Get(c.value, s) == KnownValue(endpoint, region, Get(r, BucketId), s, Get(r, s))
  {
    var remote := Knowing(true, endpoint, region);
    KnownBucket(remote, r, s);
    var a := ResolveBucket(remote, r).value;
    KnownEndpoint(remote, endpoint, a, s);
    var b := ResolveEndpoint(remote, a).value;
    KnownRegion(remote, region, b, s);
  }

  function Unlike(v: Val): (x: string)
    ensures Txt(x) != v && Link(x) != v
  {
    if v == Txt("") || v == Link("") then "0" else ""
  }

  lemma KnownDiffer(id: Val, other: Val, s: Slot, v: Val, w: Val) returns (x: string)
    requires v != w && (id == Txt("") <==> other == Txt("")) && (s == Region ==> id != Txt(""))
    requires s == BucketId ==> v == id && w == other
    ensures KnownValue(x, x, id, s, v) != KnownValue(x, x, other, s, w)
  {
    if s == S3Endpoint {
      x := Unlike(if v == Nil then w else v);
    } else if s == S3Region {
      x := Unlike(if v == Txt("") then w else v);
    } else {
      x := "";
      assert id != Txt("") || (s != BucketId && s != Region);
    }
  }

  lemma ShownAt(r: Rec, s: Slot)
    requires Shown(r).Some?
    ensures Get(Shown(r).value, s) == if s == Region && Get(r, BucketId) == Txt("") then Txt("") else Get(r, s)
  {
    PutAt(r, Region, Txt(""), s);
  }

  /** Records that show a difference are told apart by some server. */
  lemma DifferenceShows(a: Rec, b: Rec, s: Slot) returns (remote: Remote)
    requires Shown(a).Some? && Shown(b).Some? && Get(Shown(a).value, s) != Get(Shown(b).value, s)
    ensures Resolve(remote, a) != Resolve(remote, b)
  {
    if (Get(a, BucketId) == Txt("")) == (Get(b, BucketId) == Txt("")) {
      ShownAt(a, s);
      ShownAt(b, s);
      var x := KnownDiffer(Get(a, BucketId), Get(b, BucketId), s, Get(a, s), Get(b, s));
      remote := Knowing(true, x, x);
      KnownAt(x, x, a, s);
      KnownAt(x, x, b, s);
    } else if Get(a, BucketId) == Txt("") {
      remote := UnknownBucket(a, b);
    } else {
      remote := UnknownBucket(b, a);
    }
  }

  lemma UnknownBucket(a: Rec, b: Rec) returns (remote: Remote)
    requires Get(a, BucketId) == Txt("") && Get(b, BucketId) != Txt("")
    ensures Resolve(remote, a) == None && Resolve(remote, b).Some?
  {
    remote := Knowing(false, "", "");
    KnownEndpoint(remote, "", b, S3Region);
    KnownRegion(remote, "", ResolveEndpoint(remote, b).value, S3Region);
  }

  /** Exactly what the lookups can hide. */
  lemma ShownExactly(c: Option<Rec>, d: Option<Rec>)
    requires c.Some? && d.Some? ==> c.value.Keys == d.value.Keys && Region in c.value
    ensures (forall remote :: ResolveOf(remote, c) == ResolveOf(remote, d)) <==> ShownOf(c) == ShownOf(d)
  {
    if ShownOf(c) == ShownOf(d) {
      forall remote ensures ResolveOf(remote, c) == ResolveOf(remote, d) {
        ShownDecides(remote, c, d);
      }
    } else if ShownOf(c).None? {
      var remote := Knowing(true, "", "");
      NotShown(remote, c);
      KnownAt("", "", d.value, Region);
      assert ResolveOf(remote, c) != ResolveOf(remote, d);
    } else if ShownOf(d).None? {
      var remote := Knowing(true, "", "");
      NotShown(remote, d);
      KnownAt("", "", c.value, Region);
      assert ResolveOf(remote, c) != ResolveOf(remote, d);
    } else {
      var x, y := ShownOf(c).value, ShownOf(d).value;
      assert x.Keys == c.value.Keys && y.Keys == d.value.Keys;
      if forall s: Slot :: Get(x, s) == Get(y, s) {
        SameMaps(x, y);
        assert false;
      } else {
        var s: Slot :| Get(x, s) != Get(y, s);
        var remote := DifferenceShows(c.value, d.value, s);
        assert ResolveOf(remote, c) != ResolveOf(remote, d);
      }
    }
  }

  // -- choices and what is shown of them ---------------------------------------------------------

  /** Completion leaves this field empty, whatever is chosen. */
  ghost predicate EndsEmpty(fill: Filler, offer: Offer, s: Slot) {
    && (forall v: Val :: offer(s, v) ==> fill(s, v) == Some(Txt("")))
    && (!Offered(offer, s) ==> fill(s, Zero(s)) == Some(Txt("")))
  }

  /** The bucket never has an id or a name. */
  ghost predicate Nameless(fill: Filler, offer: Offer) {
    EndsEmpty(fill, offer, BucketId) && EndsEmpty(fill, offer, BucketName)
  }

  /** The values offered for each field end alike; for the region this may fail when the bucket, and
      with it the region, is always looked up. */
  ghost predicate SettledButHidden(fill: Filler, steps: seq<Slot>, offer: Offer) {
    forall s: Slot :: SettledAt(fill, steps, offer, s) || (s == Region && EndsEmpty(fill, offer, BucketId))
  }

  ghost predicate ShownAlike(fill: Filler, steps: seq<Slot>, offer: Offer) {
    forall r, q :: Choice(offer, r) && Choice(offer, q) ==>
                     ShownOf(Complete(fill, r, steps)) == ShownOf(Complete(fill, q, steps))
  }

  /** The region, the bucket's id and its name are among the fields completed, which never fails. */
  ghost predicate Suits(fill: Filler, steps: seq<Slot>) {
    && DistinctSlots(steps) && Region in steps && BucketId in steps && BucketName in steps
    && AlwaysFills(fill, Region) && AlwaysFills(fill, BucketId) && AlwaysFills(fill, BucketName)
  }

  lemma EmptyEnds(fill: Filler, steps: seq<Slot>, offer: Offer, r: Rec, s: Slot)
    requires DistinctSlots(steps) && s in steps && EndsEmpty(fill, offer, s) && Choice(offer, r)
    requires Complete(fill, r, steps).Some?
    ensures Get(Complete(fill, r, steps).value, s) == Txt("")
  {
    ChoiceGets(offer, r, s);
    CompletedAt(fill, steps, r, s);
  }

  lemma NamelessFails(fill: Filler, steps: seq<Slot>, offer: Offer, r: Rec)
    requires Suits(fill, steps) && Nameless(fill, offer) && Choice(offer, r)
    ensures ShownOf(Complete(fill, r, steps)) == None
  {
    if Complete(fill, r, steps).Some? {
      EmptyEnds(fill, steps, offer, r, BucketId);
      EmptyEnds(fill, steps, offer, r, BucketName);
    }
  }

  lemma HiddenCompletes(fill: Filler, steps: seq<Slot>, offer: Offer, r: Rec, q: Rec)
    requires Suits(fill, steps) && SettledButHidden(fill, steps, offer) && Choice(offer, r) && Choice(offer, q)
    requires Complete(fill, r, steps).Some?
    ensures Complete(fill, q, steps).Some?
  {
    CompleteExactly(fill, r, steps);
    CompleteExactly(fill, q, steps);
    forall i | 0 <= i < |steps| ensures fill(steps[i], Get(q, steps[i])).Some? {
      if steps[i] != Region {
        SameEnds(fill, steps, offer, r, q, steps[i]);
      }
    }
  }

  lemma HiddenShown(fill: Filler, steps: seq<Slot>, offer: Offer, r: Rec, q: Rec)
    requires Suits(fill, steps) && SettledButHidden(fill, steps, offer) && Choice(offer, r) && Choice(offer, q)
    requires EndsEmpty(fill, offer, BucketId)
    requires Complete(fill, r, steps).Some? && Complete(fill, q, steps).Some?
    ensures ShownOf(Complete(fill, r, steps)) == ShownOf(Complete(fill, q, steps))
  {
    var c, d := Complete(fill, r, steps).value, Complete(fill, q, steps).value;
    forall s: Slot ensures (s in c <==> s in d) && (s != Region ==> Get(c, s) == Get(d, s)) {
      ChoiceGets(offer, r, s);
      ChoiceGets(offer, q, s);
      CompletedAt(fill, steps, r, s);
      CompletedAt(fill, steps, q, s);
      if s != Region {
        SameEnds(fill, steps, offer, r, q, s);
      }
    }
    EmptyEnds(fill, steps, offer, r, BucketId);
    EmptyEnds(fill, steps, offer, q, BucketId);
    SameUpToRegion(c, d);
  }

  lemma SameUpToRegion(c: Rec, d: Rec)
    requires forall s: Slot :: (s in c <==> s in d) && (s != Region ==> Get(c, s) == Get(d, s))
    requires Get(c, BucketId) == Txt("")
    ensures Shown(c) == Shown(d)
  {
    var a, b := c[Region := Txt("")], d[Region := Txt("")];
    forall s: Slot ensures (s in a <==> s in b) && Get(a, s) == Get(b, s) {
      PutAt(c, Region, Txt(""), s);
      PutAt(d, Region, Txt(""), s);
    }
    SameMaps(a, b);
  }

  lemma SettledShown(fill: Filler, steps: seq<Slot>, offer: Offer, r: Rec, q: Rec)
    requires Suits(fill, steps) && SettledButHidden(fill, steps, offer) && Choice(offer, r) && Choice(offer, q)
    ensures ShownOf(Complete(fill, r, steps)) == ShownOf(Complete(fill, q, steps))
  {
    if EndsEmpty(fill, offer, BucketId) {
      if Complete(fill, r, steps).Some? {
        HiddenCompletes(fill, steps, offer, r, q);
        HiddenShown(fill, steps, offer, r, q);
      } else if Complete(fill, q, steps).Some? {
        HiddenCompletes(fill, steps, offer, q, r);
        assert false;
      }
    } else {
      assert forall s: Slot :: SettledAt(fill, steps, offer, s);
      SettledAgrees(fill, steps, offer, r, q);
    }
  }

  /** Prefer, for the bucket's id and name, what does not end empty. */
  ghost function Naming(fill: Filler): Wish {
    (s: Slot, v: Val) => if s == BucketId || s == BucketName then fill(s, v) != Some(Txt("")) else fill(s, v).Some?
  }

  lemma BestNamed(fill: Filler, offer: Offer, s: Slot)
    requires s == BucketId || s == BucketName
    requires !EndsEmpty(fill, offer, s)
    ensures fill(s, Get(Best(Naming(fill), offer), s)) != Some(Txt(""))
  {
    ChoiceGets(offer, Best(Naming(fill), offer), s);
    if Offered(offer, s) {
      var v: Val :| offer(s, v) && fill(s, v) != Some(Txt(""));
      assert Naming(fill)(s, v);
    }
  }

  /** The best record with one field chosen freely. */
  ghost function With(fill: Filler, offer: Offer, s: Slot, v: Val): Rec { Best(Naming(fill), offer)[s := v] }

  lemma WithNamed(fill: Filler, steps: seq<Slot>, offer: Offer, s: Slot, v: Val, t: Slot)
    requires Suits(fill, steps) && (t == BucketId || t == BucketName) && !EndsEmpty(fill, offer, t) && t != s
    requires Complete(fill, With(fill, offer, s, v), steps).Some?
    ensures Get(Complete(fill, With(fill, offer, s, v), steps).value, t) != Txt("")
  {
    BestNamed(fill, offer, t);
    PutAt(Best(Naming(fill), offer), s, v, t);
    CompletedAt(fill, steps, With(fill, offer, s, v), t);
  }

  /** A difference that the lookups cannot hide. */
  ghost predicate Visible(fill: Filler, offer: Offer, s: Slot) { s == Region ==> !EndsEmpty(fill, offer, BucketId) }

  /** What is shown of the freely chosen field. */
  lemma WithShows(fill: Filler, steps: seq<Slot>, offer: Offer, s: Slot, v: Val)
    requires Suits(fill, steps) && Visible(fill, offer, s)
    requires ShownOf(Complete(fill, With(fill, offer, s, v), steps)).Some?
    ensures Ends(fill, steps, s, v) == Some(Get(ShownOf(Complete(fill, With(fill, offer, s, v), steps)).value, s))
  {
    var r := With(fill, offer, s, v);
    CompletedAt(fill, steps, r, s);
    PutAt(Best(Naming(fill), offer), s, v, s);
    ShownAt(Complete(fill, r, steps).value, s);
    if s == Region {
      WithNamed(fill, steps, offer, s, v, BucketId);
    }
  }

  lemma NamingIsWishful(fill: Filler)
    requires AlwaysFills(fill, BucketId) && AlwaysFills(fill, BucketName)
    ensures Wishful(fill, Naming(fill))
  {
  }

  lemma WithIsShown(fill: Filler, steps: seq<Slot>, offer: Offer, s: Slot, v: Val)
    requires Suits(fill, steps) && !Hopeless(fill, steps, offer) && !Nameless(fill, offer)
    requires offer(s, v) && Ends(fill, steps, s, v).Some?
    requires s == BucketId || s == BucketName ==> Ends(fill, steps, s, v) != Some(Txt(""))
    ensures Choice(offer, With(fill, offer, s, v))
    ensures ShownOf(Complete(fill, With(fill, offer, s, v), steps)).Some?
  {
    var r := With(fill, offer, s, v);
    NamingIsWishful(fill);
    BestCompletes(fill, steps, Naming(fill), offer, s, v);
    if s == BucketId || s == BucketName {
      CompletedAt(fill, steps, r, s);
      PutAt(Best(Naming(fill), offer), s, v, s);
    } else if !EndsEmpty(fill, offer, BucketId) {
      WithNamed(fill, steps, offer, s, v, BucketId);
    } else {
      WithNamed(fill, steps, offer, s, v, BucketName);
    }
  }

  lemma DifferenceIsShown(fill: Filler, steps: seq<Slot>, offer: Offer, s: Slot, v: Val, w: Val)
    requires Suits(fill, steps) && !Hopeless(fill, steps, offer) && !Nameless(fill, offer) && Visible(fill, offer, s)
    requires offer(s, v) && offer(s, w) && Ends(fill, steps, s, v) != Ends(fill, steps, s, w)
    requires Ends(fill, steps, s, v).Some?
    requires s == BucketId || s == BucketName ==> Ends(fill, steps, s, v) != Some(Txt(""))
    ensures !ShownAlike(fill, steps, offer)
  {
    WithIsShown(fill, steps, offer, s, v);
    WithShows(fill, steps, offer, s, v);
    var r, q := With(fill, offer, s, v), With(fill, offer, s, w);
    assert Choice(offer, q);
    if ShownOf(Complete(fill, q, steps)).Some? {
      WithShows(fill, steps, offer, s, w);
    }
    assert ShownOf(Complete(fill, r, steps)) != ShownOf(Complete(fill, q, steps));
  }

  lemma UnsettledShows(fill: Filler, steps: seq<Slot>, offer: Offer)
    requires Suits(fill, steps) && !Hopeless(fill, steps, offer) && !Nameless(fill, offer)
    requires !SettledButHidden(fill, steps, offer)
    ensures !ShownAlike(fill, steps, offer)
  {
    var s: Slot :| !SettledAt(fill, steps, offer, s) && !(s == Region && EndsEmpty(fill, offer, BucketId));
    var v: Val, w: Val :| offer(s, v) && offer(s, w) && Ends(fill, steps, s, v) != Ends(fill, steps, s, w);
    var a, b := Ends(fill, steps, s, v), Ends(fill, steps, s, w);
    if a.Some? && (s == BucketId || s == BucketName ==> a != Some(Txt(""))) {
      DifferenceIsShown(fill, steps, offer, s, v, w);
    } else {
      DifferenceIsShown(fill, steps, offer, s, w, v);
    }
  }

  lemma ShownAlikeExactly(fill: Filler, steps: seq<Slot>, offer: Offer)
    requires Suits(fill, steps)
    ensures ShownAlike(fill, steps, offer) <==>
            Hopeless(fill, steps, offer) || Nameless(fill, offer) || SettledButHidden(fill, steps, offer)
  {
    if Hopeless(fill, steps, offer) || Nameless(fill, offer) || SettledButHidden(fill, steps, offer) {
      forall r, q | Choice(offer, r) && Choice(offer, q)
        ensures ShownOf(Complete(fill, r, steps)) == ShownOf(Complete(fill, q, steps))
      {
        if Hopeless(fill, steps, offer) {
          HopelessFails(fill, steps, offer, r);
          HopelessFails(fill, steps, offer, q);
        } else if Nameless(fill, offer) {
          NamelessFails(fill, steps, offer, r);
          NamelessFails(fill, steps, offer, q);
        } else {
          SettledShown(fill, steps, offer, r, q);
        }
      }
    } else {
      UnsettledShows(fill, steps, offer);
    }
  }

  // -- the volume parser -------------------------------------------------------------------------

  const ALL_FALLBACKS: seq<Slot> := CLASS_FALLBACKS + VOLUME_FALLBACKS

  ghost function VolumeOffer(lib: Lib, ctx: map<string, string>): Offer {
    Either(OfferOf(ReaderOf(lib, ClassStage), ctx), OfferOf(ReaderOf(lib, VolumeStage), ctx))
  }

  lemma StagesApart(lib: Lib, ctx: map<string, string>)
    ensures Apart(OfferOf(ReaderOf(lib, ClassStage), ctx), OfferOf(ReaderOf(lib, VolumeStage), ctx),
                  s => Belongs(VolumeStage, s))
  {
    var first, second := OfferOf(ReaderOf(lib, ClassStage), ctx), OfferOf(ReaderOf(lib, VolumeStage), ctx);
    forall s: Slot, v: Val
      ensures (first(s, v) ==> !Belongs(VolumeStage, s)) && (second(s, v) ==> Belongs(VolumeStage, s))
    {
      if first(s, v) {
        var k :| k in ctx && ReaderOf(lib, ClassStage)(k, ctx[k]) == Good(s, v);
        RecogniseExactly(ClassStage, ToLower(lib.lower, k), s);
      }
      if second(s, v) {
        var k :| k in ctx && ReaderOf(lib, VolumeStage)(k, ctx[k]) == Good(s, v);
        RecogniseExactly(VolumeStage, ToLower(lib.lower, k), s);
      }
    }
  }

  lemma StepsJoin(a: seq<Slot>, b: seq<Slot>, later: Slot -> bool)
    requires DistinctSlots(a) && DistinctSlots(b)
    requires forall i :: 0 <= i < |a| ==> !later(a[i])
    requires forall i :: 0 <= i < |b| ==> later(b[i])
    ensures DistinctSlots(a + b)
  {
  }

  lemma ClassFallbacks()
    ensures forall i :: 0 <= i < |CLASS_FALLBACKS| ==> !Belongs(VolumeStage, CLASS_FALLBACKS[i])
  {
  }

  lemma VolumeFallbacks()
    ensures DistinctSlots(VOLUME_FALLBACKS)
    ensures forall i :: 0 <= i < |VOLUME_FALLBACKS| ==> Belongs(VolumeStage, VOLUME_FALLBACKS[i])
  {
  }

  lemma AllSteps(fill: Filler)
    requires AlwaysFills(fill, Region) && AlwaysFills(fill, BucketId) && AlwaysFills(fill, BucketName)
    ensures Suits(fill, ALL_FALLBACKS)
  {
    ClassSteps(fill, map[]);
    ClassFallbacks();
    VolumeFallbacks();
    StepsJoin(CLASS_FALLBACKS, VOLUME_FALLBACKS, s => Belongs(VolumeStage, s));
    assert ALL_FALLBACKS[3] == Region && ALL_FALLBACKS[9] == BucketId && ALL_FALLBACKS[10] == BucketName;
  }

  lemma FillsAlways(lib: Lib, secrets: map<string, string>, s: Slot)
    requires s == Region || s == BucketId || s == BucketName
    ensures AlwaysFills(FillerOf(lib, secrets), s)
  {
  }

  /** The two loops of the parser read parts of one record, which is then completed in one go. */
  lemma ParsesJoin(lib: Lib, remote: Remote, ctx: map<string, string>, secrets: map<string, string>,
                   first: seq<string>, second: seq<string>, r: Rec, q: Rec)
    requires (forall k :: k in first ==> k in ctx) && (forall k :: k in second ==> k in ctx)
    requires Loop(ReaderOf(lib, ClassStage), ctx, first) == Some(r)
    requires Loop(ReaderOf(lib, VolumeStage), ctx, second) == Some(q)
    requires forall s :: s in q ==> Belongs(VolumeStage, s)
    ensures ParseVolume(lib, remote, ctx, secrets, first, second) ==
            ResolveOf(remote, Complete(FillerOf(lib, secrets), r + q, ALL_FALLBACKS))
  {
    var fill := FillerOf(lib, secrets);
    ClassFallbacks();
    CompleteBeside(fill, r, q, CLASS_FALLBACKS);
    CompleteJoin(fill, r + q, CLASS_FALLBACKS, VOLUME_FALLBACKS);
  }

  /** What the parser computes in some pair of orders. */
  lemma OrdersChoose(lib: Lib, ctx: map<string, string>, secrets: map<string, string>, first: seq<string>,
                     second: seq<string>) returns (r: Rec)
    requires IsOrder(ctx, first) && IsOrder(ctx, second)
    requires AllValid(ReaderOf(lib, ClassStage), ctx) && AllValid(ReaderOf(lib, VolumeStage), ctx)
    ensures Choice(VolumeOffer(lib, ctx), r)
    ensures forall remote :: ParseVolume(lib, remote, ctx, secrets, first, second) ==
                             ResolveOf(remote, Complete(FillerOf(lib, secrets), r, ALL_FALLBACKS))
  {
    LoopChooses(ReaderOf(lib, ClassStage), ctx, first);
    LoopChooses(ReaderOf(lib, VolumeStage), ctx, second);
    var a, b := Loop(ReaderOf(lib, ClassStage), ctx, first).value, Loop(ReaderOf(lib, VolumeStage), ctx, second).value;
    StagesApart(lib, ctx);
    ChosenApart(lib, ctx, a, b);
    ChoiceJoins(OfferOf(ReaderOf(lib, ClassStage), ctx), OfferOf(ReaderOf(lib, VolumeStage), ctx), a, b);
    r := a + b;
    forall remote ensures ParseVolume(lib, remote, ctx, secrets, first, second) ==
                          ResolveOf(remote, Complete(FillerOf(lib, secrets), r, ALL_FALLBACKS))
    {
      ParsesJoin(lib, remote, ctx, secrets, first, second, a, b);
    }
  }

  lemma ChosenApart(lib: Lib, ctx: map<string, string>, a: Rec, b: Rec)
    requires Choice(OfferOf(ReaderOf(lib, ClassStage), ctx), a)
    requires Choice(OfferOf(ReaderOf(lib, VolumeStage), ctx), b)
    ensures forall s :: s in a ==> !Belongs(VolumeStage, s)
    ensures forall s :: s in b ==> Belongs(VolumeStage, s)
  {
    StagesApart(lib, ctx);
  }

  /** Every choice is what the parser computes from in some pair of orders. */
  lemma ChoiceHasOrders(lib: Lib, ctx: map<string, string>, secrets: map<string, string>, r: Rec)
    returns (first: seq<string>, second: seq<string>)
    requires Choice(VolumeOffer(lib, ctx), r)
    requires AllValid(ReaderOf(lib, ClassStage), ctx) && AllValid(ReaderOf(lib, VolumeStage), ctx)
    ensures IsOrder(ctx, first) && IsOrder(ctx, second)
    ensures forall remote :: ParseVolume(lib, remote, ctx, secrets, first, second) ==
                             ResolveOf(remote, Complete(FillerOf(lib, secrets), r, ALL_FALLBACKS))
  {
    StagesApart(lib, ctx);
    var a, b := ChoiceSplits(OfferOf(ReaderOf(lib, ClassStage), ctx), OfferOf(ReaderOf(lib, VolumeStage), ctx),
                             s => Belongs(VolumeStage, s), r);
    ChosenApart(lib, ctx, a, b);
    first := ChoiceHasOrder(ReaderOf(lib, ClassStage), ctx, a);
    second := ChoiceHasOrder(ReaderOf(lib, VolumeStage), ctx, b);
    forall remote ensures ParseVolume(lib, remote, ctx, secrets, first, second) ==
                          ResolveOf(remote, Complete(FillerOf(lib, secrets), r, ALL_FALLBACKS))
    {
      ParsesJoin(lib, remote, ctx, secrets, first, second, a, b);
    }
  }

  /** Whatever the server answers, the parser's result is the same for all orders. */
  ghost predicate VolumeFree(lib: Lib, ctx: map<string, string>, secrets: map<string, string>) {
    forall remote, first, second, third, fourth ::
      IsOrder(ctx, first) && IsOrder(ctx, second) && IsOrder(ctx, third) && IsOrder(ctx, fourth) ==>
        ParseVolume(lib, remote, ctx, secrets, first, second) == ParseVolume(lib, remote, ctx, secrets, third, fourth)
  }

  lemma ChoicesShown(fill: Filler, steps: seq<Slot>, offer: Offer, r: Rec, q: Rec)
    requires Choice(offer, r) && Choice(offer, q) && Region in steps
    ensures var c, d := Complete(fill, r, steps), Complete(fill, q, steps);
            (forall remote :: ResolveOf(remote, c) == ResolveOf(remote, d)) <==> ShownOf(c) == ShownOf(d)
  {
    var c, d := Complete(fill, r, steps), Complete(fill, q, steps);
    CompleteKeys(fill, r, steps);
    CompleteKeys(fill, q, steps);
    assert r.Keys == q.Keys by {
      forall s: Slot ensures s in r <==> s in q {
        ChoiceGets(offer, r, s);
        ChoiceGets(offer, q, s);
      }
    }
    ShownExactly(c, d);
  }

  lemma FreeIsShownAlike(lib: Lib, ctx: map<string, string>, secrets: map<string, string>)
    requires AllValid(ReaderOf(lib, ClassStage), ctx) && AllValid(ReaderOf(lib, VolumeStage), ctx)
    requires VolumeFree(lib, ctx, secrets)
    ensures ShownAlike(FillerOf(lib, secrets), ALL_FALLBACKS, VolumeOffer(lib, ctx))
  {
    var fill, offer := FillerOf(lib, secrets), VolumeOffer(lib, ctx);
    assert ALL_FALLBACKS[3] == Region;
    forall r, q | Choice(offer, r) && Choice(offer, q)
      ensures ShownOf(Complete(fill, r, ALL_FALLBACKS)) == ShownOf(Complete(fill, q, ALL_FALLBACKS))
    {
      var first, second := ChoiceHasOrders(lib, ctx, secrets, r);
      var third, fourth := ChoiceHasOrders(lib, ctx, secrets, q);
      var c, d := Complete(fill, r, ALL_FALLBACKS), Complete(fill, q, ALL_FALLBACKS);
      forall remote ensures ResolveOf(remote, c) == ResolveOf(remote, d) {
        assert ParseVolume(lib, remote, ctx, secrets, first, second) ==
               ParseVolume(lib, remote, ctx, secrets, third, fourth);
      }
      ChoicesShown(fill, ALL_FALLBACKS, offer, r, q);
    }
  }

  lemma ShownAlikeIsFree(lib: Lib, ctx: map<string, string>, secrets: map<string, string>)
    requires AllValid(ReaderOf(lib, ClassStage), ctx) && AllValid(ReaderOf(lib, VolumeStage), ctx)
    requires ShownAlike(FillerOf(lib, secrets), ALL_FALLBACKS, VolumeOffer(lib, ctx))
    ensures VolumeFree(lib, ctx, secrets)
  {
    var fill, offer := FillerOf(lib, secrets), VolumeOffer(lib, ctx);
    assert ALL_FALLBACKS[3] == Region;
    forall remote, first, second, third, fourth |
      IsOrder(ctx, first) && IsOrder(ctx, second) && IsOrder(ctx, third) && IsOrder(ctx, fourth)
      ensures ParseVolume(lib, remote, ctx, secrets, first, second) ==
              ParseVolume(lib, remote, ctx, secrets, third, fourth)
    {
      var r := OrdersChoose(lib, ctx, secrets, first, second);
      var q := OrdersChoose(lib, ctx, secrets, third, fourth);
      ChoicesShown(fill, ALL_FALLBACKS, offer, r, q);
    }
  }

  lemma InvalidFails(lib: Lib, remote: Remote, ctx: map<string, string>, secrets: map<string, string>,
                     first: seq<string>, second: seq<string>)
    requires IsOrder(ctx, first) && IsOrder(ctx, second)
    requires !(AllValid(ReaderOf(lib, ClassStage), ctx) && AllValid(ReaderOf(lib, VolumeStage), ctx))
    ensures ParseVolume(lib, remote, ctx, secrets, first, second) == None
  {
    LoopChooses(ReaderOf(lib, ClassStage), ctx, first);
    LoopChooses(ReaderOf(lib, VolumeStage), ctx, second);
  }

  /** The volume parser does not depend on the orders of its loops, whatever the server answers,
      exactly when a recognised value is invalid; or some field to be completed fails whichever of its
      values is read last; or the bucket is left without id and name; or the values given for each
      field end alike once completed, except perhaps for a region that the lookup of the bucket
      replaces. */
  lemma VolumeFreeExactly(lib: Lib, ctx: map<string, string>, secrets: map<string, string>)
    ensures var fill, offer := FillerOf(lib, secrets), VolumeOffer(lib, ctx);
            VolumeFree(lib, ctx, secrets) <==>
            || !AllValid(ReaderOf(lib, ClassStage), ctx)
            || !AllValid(ReaderOf(lib, VolumeStage), ctx)
            || Hopeless(fill, ALL_FALLBACKS, offer)
            || Nameless(fill, offer)
            || SettledButHidden(fill, ALL_FALLBACKS, offer)
  {
    var fill, offer := FillerOf(lib, secrets), VolumeOffer(lib, ctx);
    FillsAlways(lib, secrets, Region);
    FillsAlways(lib, secrets, BucketId);
    FillsAlways(lib, secrets, BucketName);
    AllSteps(fill);
    ShownAlikeExactly(fill, ALL_FALLBACKS, offer);
    if AllValid(ReaderOf(lib, ClassStage), ctx) && AllValid(ReaderOf(lib, VolumeStage), ctx) {
      if VolumeFree(lib, ctx, secrets) {
        FreeIsShownAlike(lib, ctx, secrets);
      } else if ShownAlike(fill, ALL_FALLBACKS, offer) {
        ShownAlikeIsFree(lib, ctx, secrets);
        assert false;
      }
    } else {
      forall remote, first, second, third, fourth |
        IsOrder(ctx, first) && IsOrder(ctx, second) && IsOrder(ctx, third) && IsOrder(ctx, fourth)
        ensures ParseVolume(lib, remote, ctx, secrets, first, second) ==
                ParseVolume(lib, remote, ctx, secrets, third, fourth)
      {
        InvalidFails(lib, remote, ctx, secrets, first, second);
        InvalidFails(lib, remote, ctx, secrets, third, fourth);
      }
    }
  }
}
