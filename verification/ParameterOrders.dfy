/** Exactly when parsing does not depend on Go's map order, completion from the secrets included
    (plugin/kodo_parameters.go:73-128, 197-467). */
module ParameterOrders {
  import opened Wrappers
  import opened Text
  import opened Fields
  import opened Parameters
  import opened VolumeParameters

  // -- what one loop can yield -------------------------------------------------------------------

  lemma {:induction false} EnumerateSlots(slots: set<Slot>) returns (list: seq<Slot>)
    ensures (forall s :: s in list <==> s in slots) && DistinctSlots(list)
  {
    if slots == {} {
      list := [];
    } else {
      var s :| s in slots;
      list := EnumerateSlots(slots - {s});
      list := list + [s];
    }
  }

  /** Keys that give these fields the values that the record has. */
  ghost predicate Gives(read: Reader, ctx: map<string, string>, r: Rec, slots: seq<Slot>, keys: seq<string>) {
    && |keys| == |slots|
    && forall i :: 0 <= i < |slots| ==>
         slots[i] in r && keys[i] in ctx && read(keys[i], ctx[keys[i]]) == Good(slots[i], r[slots[i]])
  }

  lemma {:induction false} PickKeys(read: Reader, ctx: map<string, string>, r: Rec, slots: seq<Slot>)
    returns (keys: seq<string>)
    requires Says(read, ctx, r) && forall i :: 0 <= i < |slots| ==> slots[i] in r
    ensures Gives(read, ctx, r, slots, keys)
  {
    if slots == [] {
      keys := [];
    } else {
      var n := |slots| - 1;
      keys := PickKeys(read, ctx, r, slots[..n]);
      var s := slots[n];
      assert s in r;
      var k :| k in ctx && read(k, ctx[k]) == Good(s, r[s]);
      keys := keys + [k];
    }
  }

  /** Whatever was read before, the keys at the end decide their fields. */
  lemma {:induction false} EndDecides(read: Reader, ctx: map<string, string>, r: Rec, slots: seq<Slot>,
                                      keys: seq<string>, before: seq<string>)
    requires AllValid(read, ctx) && (forall k :: k in before ==> k in ctx) && Gives(read, ctx, r, slots, keys)
    requires DistinctSlots(slots)
    ensures forall k :: k in before + keys ==> k in ctx
    ensures Loop(read, ctx, before + keys).Some?
    ensures forall i :: 0 <= i < |slots| ==>
                          var q := Loop(read, ctx, before + keys).value; slots[i] in q && q[slots[i]] == r[slots[i]]
  {
    var order := before + keys;
    assert forall k :: k in keys ==> exists i :: 0 <= i < |keys| && keys[i] == k;
    LoopVerdict(read, ctx, order);
    if keys != [] {
      var n := |keys| - 1;
      EndDecides(read, ctx, r, slots[..n], keys[..n], before);
      assert order[..|order| - 1] == before + keys[..n] && order[|order| - 1] == keys[n];
    }
  }

  /** A valid map yields exactly the records that take, for each field that it gives, one of the values
      that it gives: each of them for some order. */
  lemma LoopYieldsExactly(read: Reader, ctx: map<string, string>, r: Rec)
    requires AllValid(read, ctx)
    ensures (exists order :: IsOrder(ctx, order) && Loop(read, ctx, order) == Some(r)) <==> Says(read, ctx, r)
  {
    if order :| IsOrder(ctx, order) && Loop(read, ctx, order) == Some(r) {
      VisitedAll(ctx, order);
      LoopContents(read, ctx, order);
    }
    if Says(read, ctx, r) {
      var order := OrderFor(read, ctx, r);
    }
  }

  lemma OrderFor(read: Reader, ctx: map<string, string>, r: Rec) returns (order: seq<string>)
    requires AllValid(read, ctx) && Says(read, ctx, r)
    ensures IsOrder(ctx, order) && Loop(read, ctx, order) == Some(r)
  {
    var slots := EnumerateSlots(r.Keys);
    var keys := PickKeys(read, ctx, r, slots);
    var rest := Enumerate(ctx.Keys - set k | k in keys);
    order := rest + keys;
    EndDecides(read, ctx, r, slots, keys, rest);
    KeysDiffer(read, ctx, r, slots, keys);
    JoinOrder(ctx, rest, keys);
    VisitedAll(ctx, order);
    LoopContents(read, ctx, order);
    SameRecord(read, ctx, r, Loop(read, ctx, order).value, slots);
  }

  lemma JoinOrder(ctx: map<string, string>, rest: seq<string>, keys: seq<string>)
    requires Distinct(rest) && Distinct(keys) && (forall k :: k in keys ==> k in ctx)
    requires forall k :: k in rest <==> k in ctx.Keys - set x | x in keys
    ensures IsOrder(ctx, rest + keys)
  {
    var order := rest + keys;
    forall i, j | 0 <= i < j < |order| ensures order[i] != order[j] {
      if i < |rest| <= j {
        assert rest[i] in rest && keys[j - |rest|] in keys;
      }
    }
  }

  lemma KeysDiffer(read: Reader, ctx: map<string, string>, r: Rec, slots: seq<Slot>, keys: seq<string>)
    requires Gives(read, ctx, r, slots, keys) && DistinctSlots(slots)
    ensures Distinct(keys)
  {
    forall i, j | 0 <= i < j < |keys| ensures keys[i] != keys[j] {
      assert slots[i] != slots[j];
    }
  }

  lemma SameRecord(read: Reader, ctx: map<string, string>, r: Rec, q: Rec, slots: seq<Slot>)
    requires Says(read, ctx, r) && Says(read, ctx, q) && (forall s :: s in slots <==> s in r)
    requires forall i :: 0 <= i < |slots| ==> slots[i] in q && slots[i] in r && q[slots[i]] == r[slots[i]]
    ensures q == r
  {
    forall s | s in q ensures s in r {
      var k :| k in ctx && read(k, ctx[k]) == Good(s, q[s]);
    }
    forall s | s in r ensures s in q && q[s] == r[s] {
      var i :| 0 <= i < |slots| && slots[i] == s;
    }
  }

  // -- choices and their completion --------------------------------------------------------------

  /** Which values a field may get. */
  type Offer = (Slot, Val) -> bool

  ghost predicate Offered(offer: Offer, s: Slot) { exists v: Val :: offer(s, v) }

  ghost predicate Choice(offer: Offer, r: Rec) {
    && (forall s :: s in r ==> offer(s, r[s]))
    && (forall s: Slot, v: Val :: offer(s, v) ==> s in r)
  }

  /** What completion makes of a value. */
  ghost function Ends(fill: Filler, steps: seq<Slot>, s: Slot, v: Val): Option<Val> {
    if s in steps then fill(s, v) else Some(v)
  }

  /** All values offered for the field end alike. */
  ghost predicate SettledAt(fill: Filler, steps: seq<Slot>, offer: Offer, s: Slot) {
    forall v: Val, w: Val :: offer(s, v) && offer(s, w) ==> Ends(fill, steps, s, v) == Ends(fill, steps, s, w)
  }

  ghost predicate Settled(fill: Filler, steps: seq<Slot>, offer: Offer) {
    forall s: Slot :: SettledAt(fill, steps, offer, s)
  }

  /** No offer for this field, nor its absence, can be completed. */
  ghost predicate HopelessAt(fill: Filler, offer: Offer, s: Slot) {
    && (forall v: Val :: offer(s, v) ==> fill(s, v).None?)
    && (!Offered(offer, s) ==> fill(s, Zero(s)).None?)
  }

  ghost predicate Hopeless(fill: Filler, steps: seq<Slot>, offer: Offer) {
    exists i :: 0 <= i < |steps| && HopelessAt(fill, offer, steps[i])
  }

  /** All choices are completed to the same result. */
  ghost predicate Decided(fill: Filler, steps: seq<Slot>, offer: Offer) {
    forall r, q :: Choice(offer, r) && Choice(offer, q) ==> Complete(fill, r, steps) == Complete(fill, q, steps)
  }

  lemma {:induction false} CompleteKeys(fill: Filler, r: Rec, steps: seq<Slot>)
    ensures Complete(fill, r, steps).Some? ==>
              forall s :: s in Complete(fill, r, steps).value <==> s in r || s in steps
  {
    if steps != [] {
      var n := |steps| - 1;
      CompleteKeys(fill, r, steps[..n]);
      assert steps == steps[..n] + [steps[n]];
    }
  }

  lemma ChoiceGets(offer: Offer, r: Rec, s: Slot)
    requires Choice(offer, r)
    ensures if Offered(offer, s) then s in r && offer(s, Get(r, s)) else s !in r && Get(r, s) == Zero(s)
  {
  }

  lemma HopelessFails(fill: Filler, steps: seq<Slot>, offer: Offer, r: Rec)
    requires DistinctSlots(steps) && Hopeless(fill, steps, offer) && Choice(offer, r)
    ensures Complete(fill, r, steps) == None
  {
    var i :| 0 <= i < |steps| && HopelessAt(fill, offer, steps[i]);
    ChoiceGets(offer, r, steps[i]);
    CompleteExactly(fill, r, steps);
  }

  lemma SameEnds(fill: Filler, steps: seq<Slot>, offer: Offer, r: Rec, q: Rec, s: Slot)
    requires SettledAt(fill, steps, offer, s) && Choice(offer, r) && Choice(offer, q)
    ensures Ends(fill, steps, s, Get(r, s)) == Ends(fill, steps, s, Get(q, s))
  {
    ChoiceGets(offer, r, s);
    ChoiceGets(offer, q, s);
  }

  lemma SettledAgrees(fill: Filler, steps: seq<Slot>, offer: Offer, r: Rec, q: Rec)
    requires DistinctSlots(steps) && Settled(fill, steps, offer) && Choice(offer, r) && Choice(offer, q)
    ensures Complete(fill, r, steps) == Complete(fill, q, steps)
  {
    CompleteExactly(fill, r, steps);
    CompleteExactly(fill, q, steps);
    forall s: Slot ensures Ends(fill, steps, s, Get(r, s)) == Ends(fill, steps, s, Get(q, s)) {
      SameEnds(fill, steps, offer, r, q, s);
    }
    forall i | 0 <= i < |steps| ensures fill(steps[i], Get(r, steps[i])) == fill(steps[i], Get(q, steps[i])) {
      assert Ends(fill, steps, steps[i], Get(r, steps[i])) == Ends(fill, steps, steps[i], Get(q, steps[i]));
    }
    if Complete(fill, r, steps).Some? && Complete(fill, q, steps).Some? {
      EndsDecide(fill, steps, r, q);
    }
  }

  /** Where a completed record gets a field from. */
  lemma CompletedAt(fill: Filler, steps: seq<Slot>, r: Rec, s: Slot)
    requires DistinctSlots(steps) && Complete(fill, r, steps).Some?
    ensures Ends(fill, steps, s, Get(r, s)) == Some(Get(Complete(fill, r, steps).value, s))
    ensures s in Complete(fill, r, steps).value <==> s in r || s in steps
  {
    CompleteExactly(fill, r, steps);
    CompleteKeys(fill, r, steps);
    FilledAt(fill, r, steps, Complete(fill, r, steps).value, s);
  }

  lemma EndsDecide(fill: Filler, steps: seq<Slot>, r: Rec, q: Rec)
    requires DistinctSlots(steps) && Complete(fill, r, steps).Some? && Complete(fill, q, steps).Some?
    requires r.Keys == q.Keys
    requires forall s: Slot :: Ends(fill, steps, s, Get(r, s)) == Ends(fill, steps, s, Get(q, s))
    ensures Complete(fill, r, steps) == Complete(fill, q, steps)
  {
    var c, d := Complete(fill, r, steps).value, Complete(fill, q, steps).value;
    forall s: Slot ensures (s in c <==> s in d) && Get(c, s) == Get(d, s) {
      CompletedAt(fill, steps, r, s);
      CompletedAt(fill, steps, q, s);
    }
    SameMaps(c, d);
  }

  lemma SameMaps(c: Rec, d: Rec)
    requires forall s: Slot :: (s in c <==> s in d) && Get(c, s) == Get(d, s)
    ensures c == d
  {
    forall s | s in c ensures c[s] == d[s] {
      assert c[s] == Get(c, s) == Get(d, s) == d[s];
    }
  }

  /** What to look for in a value. */
  type Wish = (Slot, Val) -> bool

  /** An offered value of the wished kind, if there is one. */
  ghost function BestPick(wish: Wish, offer: Offer, s: Slot): (v: Val)
    requires Offered(offer, s)
    ensures offer(s, v) && forall w: Val :: offer(s, w) && wish(s, w) ==> wish(s, v)
  {
    if exists v: Val :: offer(s, v) && wish(s, v)
    then var v: Val :| offer(s, v) && wish(s, v); v
    else var v: Val :| offer(s, v); v
  }

  ghost function Best(wish: Wish, offer: Offer): (r: Rec)
    ensures Choice(offer, r) && forall s :: s in r ==> r[s] == BestPick(wish, offer, s)
  {
    map s: Slot | Offered(offer, s) :: BestPick(wish, offer, s)
  }

  ghost predicate AlwaysFills(fill: Filler, s: Slot) { forall v: Val :: fill(s, v).Some? }

  /** A wish is for completion, or for anything at all where completion is certain. */
  ghost predicate Wishful(fill: Filler, wish: Wish) {
    forall s: Slot, v: Val :: !AlwaysFills(fill, s) ==> (wish(s, v) <==> fill(s, v).Some?)
  }

  ghost function Completable(fill: Filler): Wish { (s: Slot, v: Val) => fill(s, v).Some? }

  /** A completed value for one field, and the best for all others, complete the record. */
  lemma BestCompletes(fill: Filler, steps: seq<Slot>, wish: Wish, offer: Offer, s: Slot, v: Val)
    requires DistinctSlots(steps) && !Hopeless(fill, steps, offer)
    requires Wishful(fill, wish)
    requires offer(s, v) && Ends(fill, steps, s, v).Some?
    ensures Choice(offer, Best(wish, offer)[s := v])
    ensures Complete(fill, Best(wish, offer)[s := v], steps).Some?
  {
    var best := Best(wish, offer);
    var r := best[s := v];
    forall i | 0 <= i < |steps| ensures fill(steps[i], Get(r, steps[i])).Some? {
      if steps[i] != s {
        assert !HopelessAt(fill, offer, steps[i]);
        ChoiceGets(offer, best, steps[i]);
      }
    }
    CompleteExactly(fill, r, steps);
  }

  /** Two values that end differently make a difference. */
  lemma EndsDiffer(fill: Filler, steps: seq<Slot>, offer: Offer, s: Slot, v: Val, w: Val)
    requires DistinctSlots(steps) && !Hopeless(fill, steps, offer) && offer(s, v) && offer(s, w)
    requires Ends(fill, steps, s, v).Some? && Ends(fill, steps, s, v) != Ends(fill, steps, s, w)
    ensures !Decided(fill, steps, offer)
  {
    var best := Best(Completable(fill), offer);
    BestCompletes(fill, steps, Completable(fill), offer, s, v);
    var r, q := best[s := v], best[s := w];
    assert Choice(offer, q);
    if Complete(fill, r, steps) == Complete(fill, q, steps) {
      CompletedAt(fill, steps, r, s);
      CompletedAt(fill, steps, q, s);
      assert false;
    }
  }

  /** The result does not depend on the choice exactly when the values offered for each field end
      alike, or some field fails whatever is chosen. */
  lemma DecidedExactly(fill: Filler, steps: seq<Slot>, offer: Offer)
    requires DistinctSlots(steps)
    ensures Decided(fill, steps, offer) <==> Settled(fill, steps, offer) || Hopeless(fill, steps, offer)
  {
    if Hopeless(fill, steps, offer) {
      forall r, q | Choice(offer, r) && Choice(offer, q) ensures Complete(fill, r, steps) == Complete(fill, q, steps) {
        HopelessFails(fill, steps, offer, r);
        HopelessFails(fill, steps, offer, q);
      }
    } else if Settled(fill, steps, offer) {
      forall r, q | Choice(offer, r) && Choice(offer, q) ensures Complete(fill, r, steps) == Complete(fill, q, steps) {
        SettledAgrees(fill, steps, offer, r, q);
      }
    } else {
      var s: Slot :| !SettledAt(fill, steps, offer, s);
      var v: Val, w: Val :| offer(s, v) && offer(s, w) && Ends(fill, steps, s, v) != Ends(fill, steps, s, w);
      if Ends(fill, steps, s, v).Some? {
        EndsDiffer(fill, steps, offer, s, v, w);
      } else {
        EndsDiffer(fill, steps, offer, s, w, v);
      }
    }
  }

  // -- the storage class parser ------------------------------------------------------------------

  /** The values that the keys of a map give. */
  ghost function OfferOf(read: Reader, ctx: map<string, string>): Offer {
    (s: Slot, v: Val) => exists k :: k in ctx && read(k, ctx[k]) == Good(s, v)
  }

  lemma ChoiceIsSays(read: Reader, ctx: map<string, string>, r: Rec)
    ensures Choice(OfferOf(read, ctx), r) <==> Says(read, ctx, r)
  {
    if Choice(OfferOf(read, ctx), r) {
      forall k | k in ctx && read(k, ctx[k]).Good? ensures read(k, ctx[k]).slot in r {
        assert OfferOf(read, ctx)(read(k, ctx[k]).slot, read(k, ctx[k]).val);
      }
    }
  }

  /** What a loop yields in some order is a choice. */
  lemma LoopChooses(read: Reader, ctx: map<string, string>, order: seq<string>)
    requires IsOrder(ctx, order)
    ensures Loop(read, ctx, order).Some? <==> AllValid(read, ctx)
    ensures Loop(read, ctx, order).Some? ==> Choice(OfferOf(read, ctx), Loop(read, ctx, order).value)
  {
    VisitedAll(ctx, order);
    LoopVerdict(read, ctx, order);
    if Loop(read, ctx, order).Some? {
      LoopContents(read, ctx, order);
      ChoiceIsSays(read, ctx, Loop(read, ctx, order).value);
    }
  }

  lemma ChoiceHasOrder(read: Reader, ctx: map<string, string>, r: Rec) returns (order: seq<string>)
    requires AllValid(read, ctx) && Choice(OfferOf(read, ctx), r)
    ensures IsOrder(ctx, order) && Loop(read, ctx, order) == Some(r)
  {
    ChoiceIsSays(read, ctx, r);
    order := OrderFor(read, ctx, r);
  }

  ghost predicate ClassOrderFree(lib: Lib, ctx: map<string, string>, secrets: map<string, string>) {
    forall o, p :: IsOrder(ctx, o) && IsOrder(ctx, p) ==>
                     ParseClass(lib, ctx, secrets, o) == ParseClass(lib, ctx, secrets, p)
  }

  /** The storage class parser does not depend on the order exactly when a recognised value is
      invalid, or the values given for each field end alike once completed from the secrets, or some
      field to be completed fails whichever of its values is read last. */
  lemma ClassOrderFreeExactly(lib: Lib, ctx: map<string, string>, secrets: map<string, string>)
    ensures var read, fill := ReaderOf(lib, ClassStage), FillerOf(lib, secrets);
            var offer := OfferOf(read, ctx);
            ClassOrderFree(lib, ctx, secrets) <==>
            !AllValid(read, ctx) || Settled(fill, CLASS_FALLBACKS, offer) || Hopeless(fill, CLASS_FALLBACKS, offer)
  {
    var read, fill := ReaderOf(lib, ClassStage), FillerOf(lib, secrets);
    var offer := OfferOf(read, ctx);
    ClassSteps(fill, map[]);
    DecidedExactly(fill, CLASS_FALLBACKS, offer);
    if AllValid(read, ctx) {
      if ClassOrderFree(lib, ctx, secrets) {
        FreeIsDecided(lib, ctx, secrets);
      } else if Decided(fill, CLASS_FALLBACKS, offer) {
        DecidedIsFree(lib, ctx, secrets);
        assert false;
      }
    } else {
      forall o | IsOrder(ctx, o) ensures ParseClass(lib, ctx, secrets, o) == None {
        LoopChooses(read, ctx, o);
      }
    }
  }

  lemma FreeIsDecided(lib: Lib, ctx: map<string, string>, secrets: map<string, string>)
    requires AllValid(ReaderOf(lib, ClassStage), ctx) && ClassOrderFree(lib, ctx, secrets)
    ensures Decided(FillerOf(lib, secrets), CLASS_FALLBACKS, OfferOf(ReaderOf(lib, ClassStage), ctx))
  {
    var read, fill := ReaderOf(lib, ClassStage), FillerOf(lib, secrets);
    var offer := OfferOf(read, ctx);
    forall r, q | Choice(offer, r) && Choice(offer, q)
      ensures Complete(fill, r, CLASS_FALLBACKS) == Complete(fill, q, CLASS_FALLBACKS)
    {
      var o := ChoiceHasOrder(read, ctx, r);
      var p := ChoiceHasOrder(read, ctx, q);
      assert ParseClass(lib, ctx, secrets, o) == ParseClass(lib, ctx, secrets, p);
    }
  }

  lemma DecidedIsFree(lib: Lib, ctx: map<string, string>, secrets: map<string, string>)
    requires AllValid(ReaderOf(lib, ClassStage), ctx)
    requires Decided(FillerOf(lib, secrets), CLASS_FALLBACKS, OfferOf(ReaderOf(lib, ClassStage), ctx))
    ensures ClassOrderFree(lib, ctx, secrets)
  {
    var read := ReaderOf(lib, ClassStage);
    forall o, p | IsOrder(ctx, o) && IsOrder(ctx, p)
      ensures ParseClass(lib, ctx, secrets, o) == ParseClass(lib, ctx, secrets, p)
    {
      LoopChooses(read, ctx, o);
      LoopChooses(read, ctx, p);
    }
  }
}
