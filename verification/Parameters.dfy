/** Parsing the parameters of a Kodo volume (plugin/kodo_parameters.go:73-501) from maps that Go
    iterates in an arbitrary order. */
module Parameters {
  import opened Wrappers
  import opened Text
  import opened Fields

  datatype Val =
    | Nil | Txt(text: string) | Link(url: string) | Bit(bit: bool) | Num(num: nat) | Span(nanos: int)
    | Mode(mode: string)

  /** The library functions whose own behaviour does not matter here. */
  datatype Lib = Lib(
    lower: char -> char,
    parseUrl: string -> Option<string>, printUrl: string -> string,
    parseDuration: string -> Option<int>, printDuration: int -> string)

  /** A parameter record: the fields that were assigned; all others hold their zero value. */
  type Rec = map<Slot, Val>

  function Zero(s: Slot): Val {
    match KindOf(s)
    case TextKind => Txt("")
    case FlagKind => Bit(false)
    case ModeKind => Mode("")
    case _ => Nil
  }

  function Get(r: Rec, s: Slot): Val { if s in r then r[s] else Zero(s) }

  function ParseBool(lib: Lib, s: string): Option<bool> {
    var t := ToLower(lib.lower, TrimSpace(s));
    if t == "yes" || t == "true" || t == "y" || t == "on" then Some(true)
    else if t == "no" || t == "false" || t == "n" || t == "off" then Some(false)
    else None
  }

  function FormatBool(b: bool): string { if b then "true" else "false" }

  function ParseMode(lib: Lib, s: string): Option<string> {
    var t := ToLower(lib.lower, TrimSpace(s));
    if t == "off" || t == "" then Some("off")
    else if t == "min" || t == "minimal" then Some("minimal")
    else if t == "writes" || t == "full" then Some(t)
    else None
  }

  function MapOption<A, B>(o: Option<A>, f: A -> B): Option<B> {
    match o
    case None => None
    case Some(a) => Some(f(a))
  }

  /** What a field is assigned for a text; None is an error. */
  function ParseValue(lib: Lib, s: Slot, text: string): Option<Val> {
    match KindOf(s)
    case TextKind => Some(Txt(TrimSpace(text)))
    case UrlKind => MapOption(lib.parseUrl(TrimSpace(text)), u => Link(u))
    case BoolKind => MapOption(ParseBool(lib, text), b => Bit(b))
    case FlagKind => MapOption(ParseBool(lib, text), b => Bit(b))
    case UintKind => MapOption(ParseUint(TrimSpace(text)), n => Num(n))
    case DurationKind => MapOption(lib.parseDuration(TrimSpace(text)), d => Span(d))
    case ModeKind => MapOption(ParseMode(lib, text), m => Mode(m))
  }

  // -- the loop over the map ---------------------------------------------------------------------

  /** What one entry of the map does to the record. */
  datatype Reading = Ignored | Bad | Good(slot: Slot, val: Val)

  type Reader = (string, string) -> Reading

  function ReadEntry(lib: Lib, stage: Stage, key: string, text: string): Reading {
    var s := Recognise(stage, ToLower(lib.lower, key));
    if s.None? then Ignored
    else
      var v := ParseValue(lib, s.value, text);
      if v.None? then Bad else Good(s.value, v.value)
  }

  function ReaderOf(lib: Lib, stage: Stage): Reader { (key, text) => ReadEntry(lib, stage, key, text) }

  /** One iteration of the loop. */
  function Assign(reading: Reading, r: Rec): Option<Rec> {
    match reading
    case Ignored => Some(r)
    case Bad => None
    case Good(s, v) => Some(r[s := v])
  }

  /** The loop, for the iteration order `order`. */
  function Loop(read: Reader, ctx: map<string, string>, order: seq<string>): Option<Rec>
    requires forall k :: k in order ==> k in ctx
  {
    if order == [] then Some(map[])
    else
      var n := |order| - 1;
      var r := Loop(read, ctx, order[..n]);
      if r.None? then None else Assign(read(order[n], ctx[order[n]]), r.value)
  }

  ghost predicate Distinct(order: seq<string>) {
    forall i, j :: 0 <= i < j < |order| ==> order[i] != order[j]
  }

  /** An order in which Go may iterate over the map. */
  ghost predicate IsOrder(ctx: map<string, string>, order: seq<string>) {
    Distinct(order) && forall k :: k in order <==> k in ctx
  }

  /** The loop as Go runs it, picking the keys one by one. */
  method RunLoop(read: Reader, ctx: map<string, string>) returns (r: Option<Rec>)
    ensures exists order :: IsOrder(ctx, order) && r == Loop(read, ctx, order)
  {
    r := Some(map[]);
    ghost var order: seq<string> := [];
    var left := ctx.Keys;
    while left != {}
      invariant left <= ctx.Keys
      invariant Distinct(order) && forall k :: k in order <==> k in ctx && k !in left
      invariant r == Loop(read, ctx, order)
    {
      var key :| key in left;
      left := left - {key};
      ghost var longer := order + [key];
      assert longer[..|longer| - 1] == order;
      if r.Some? {
        r := Assign(read(key, ctx[key]), r.value);
      }
      order := longer;
    }
  }

  /** Every recognised value is valid. */
  ghost predicate AllValid(read: Reader, ctx: map<string, string>) {
    forall k :: k in ctx ==> read(k, ctx[k]) != Bad
  }

  predicate SameField(a: Reading, b: Reading) { a.Good? && b.Good? && a.slot == b.slot }

  /** Keys that stand for the same field carry the same value. */
  ghost predicate Agree(read: Reader, ctx: map<string, string>) {
    forall k, l :: k in ctx && l in ctx && SameField(read(k, ctx[k]), read(l, ctx[l])) ==>
                     read(k, ctx[k]) == read(l, ctx[l])
  }

  /** The record holds, for every field that the map gives, one of the values that it gives. */
  ghost predicate Says(read: Reader, ctx: map<string, string>, r: Rec) {
    && (forall s :: s in r ==> exists k :: k in ctx && read(k, ctx[k]) == Good(s, r[s]))
    && (forall k :: k in ctx && read(k, ctx[k]).Good? ==> read(k, ctx[k]).slot in r)
  }

  /** The part of the map whose keys have been visited. */
  ghost function Visited(ctx: map<string, string>, order: seq<string>): map<string, string>
    requires forall k :: k in order ==> k in ctx
  {
    map k | k in order :: ctx[k]
  }

  lemma VisitedAll(ctx: map<string, string>, order: seq<string>)
    requires IsOrder(ctx, order)
    ensures Visited(ctx, order) == ctx
  {
  }

  lemma VisitedSnoc(ctx: map<string, string>, order: seq<string>)
    requires order != [] && forall k :: k in order ==> k in ctx
    ensures var n := |order| - 1; Visited(ctx, order) == Visited(ctx, order[..n])[order[n] := ctx[order[n]]]
  {
    var n := |order| - 1;
    assert order == order[..n] + [order[n]];
  }

  /** The verdict never depends on the order: the loop fails exactly when a recognised value is
      invalid. */
  lemma {:induction false} LoopVerdict(read: Reader, ctx: map<string, string>, order: seq<string>)
    requires forall k :: k in order ==> k in ctx
    ensures Loop(read, ctx, order).Some? <==> AllValid(read, Visited(ctx, order))
  {
    if order != [] {
      var n := |order| - 1;
      LoopVerdict(read, ctx, order[..n]);
      VisitedSnoc(ctx, order);
      var before, after := Visited(ctx, order[..n]), Visited(ctx, order);
      assert order[n] in after && after[order[n]] == ctx[order[n]];
      forall k | k in before ensures k in after && after[k] == before[k] {
      }
      if AllValid(read, after) {
        assert AllValid(read, before);
      }
    }
  }

  /** What the loop assigns. */
  lemma {:induction false} LoopContents(read: Reader, ctx: map<string, string>, order: seq<string>)
    requires (forall k :: k in order ==> k in ctx) && Loop(read, ctx, order).Some?
    ensures Says(read, Visited(ctx, order), Loop(read, ctx, order).value)
  {
    if order != [] {
      var n := |order| - 1;
      LoopContents(read, ctx, order[..n]);
      VisitedSnoc(ctx, order);
      AssignSays(read, ctx, Visited(ctx, order[..n]), order[n], Loop(read, ctx, order[..n]).value);
    }
  }

  lemma AssignSays(read: Reader, ctx: map<string, string>, before: map<string, string>, key: string, r: Rec)
    requires key in ctx && (forall k :: k in before ==> k in ctx && ctx[k] == before[k])
    requires Says(read, before, r) && read(key, ctx[key]) != Bad
    ensures Says(read, before[key := ctx[key]], Assign(read(key, ctx[key]), r).value)
  {
    var after, q := before[key := ctx[key]], Assign(read(key, ctx[key]), r).value;
    forall s | s in q ensures exists k :: k in after && read(k, after[k]) == Good(s, q[s]) {
      if read(key, ctx[key]).Good? && read(key, ctx[key]).slot == s {
        assert key in after && read(key, after[key]) == Good(s, q[s]);
      } else {
        var k :| k in before && read(k, before[k]) == Good(s, r[s]);
        assert k in after && read(k, after[k]) == Good(s, q[s]);
      }
    }
  }

  /** A map whose keys agree says one thing only. */
  lemma SaysUnique(read: Reader, ctx: map<string, string>, r: Rec, q: Rec)
    requires Agree(read, ctx) && Says(read, ctx, r) && Says(read, ctx, q)
    ensures r == q
  {
    forall s | s in r ensures s in q && r[s] == q[s] {
      SaysSame(read, ctx, r, q, s);
    }
    forall s | s in q ensures s in r {
      SaysSame(read, ctx, q, r, s);
    }
  }

  lemma SaysSame(read: Reader, ctx: map<string, string>, r: Rec, q: Rec, s: Slot)
    requires Agree(read, ctx) && Says(read, ctx, r) && Says(read, ctx, q) && s in r
    ensures s in q && q[s] == r[s]
  {
    var k :| k in ctx && read(k, ctx[k]) == Good(s, r[s]);
    assert s in q;
    var l :| l in ctx && read(l, ctx[l]) == Good(s, q[s]);
  }

  /** When keys agree, the loop succeeds exactly on valid maps, and then, in every order, with
      exactly what the map says. */
  lemma LoopExactly(read: Reader, ctx: map<string, string>, order: seq<string>)
    requires IsOrder(ctx, order) && Agree(read, ctx)
    ensures Loop(read, ctx, order).Some? <==> AllValid(read, ctx)
    ensures Loop(read, ctx, order).Some? ==> Says(read, ctx, Loop(read, ctx, order).value)
  {
    VisitedAll(ctx, order);
    LoopVerdict(read, ctx, order);
    if Loop(read, ctx, order).Some? {
      LoopContents(read, ctx, order);
    }
  }

  /** The last key of a field wins. */
  lemma LastKeyWins(read: Reader, ctx: map<string, string>, order: seq<string>, key: string)
    requires forall k :: k in order + [key] ==> k in ctx
    requires key in ctx && read(key, ctx[key]).Good? && Loop(read, ctx, order + [key]).Some?
    ensures var g := read(key, ctx[key]); var r := Loop(read, ctx, order + [key]).value;
            g.slot in r && r[g.slot] == g.val
  {
    assert (order + [key])[..|order|] == order;
  }

  lemma {:induction false} Enumerate(keys: set<string>) returns (order: seq<string>)
    ensures Distinct(order) && forall k :: k in order <==> k in keys
  {
    if keys == {} {
      order := [];
    } else {
      var key :| key in keys;
      order := Enumerate(keys - {key});
      order := order + [key];
    }
  }

  lemma OrderEndingWith(ctx: map<string, string>, key: string) returns (order: seq<string>)
    requires key in ctx
    ensures IsOrder(ctx, order + [key])
  {
    order := Enumerate(ctx.Keys - {key});
  }

  ghost predicate OrderFree(read: Reader, ctx: map<string, string>) {
    forall o, p :: IsOrder(ctx, o) && IsOrder(ctx, p) ==> Loop(read, ctx, o) == Loop(read, ctx, p)
  }

  lemma AgreeingLoopsEqual(read: Reader, ctx: map<string, string>, o: seq<string>, p: seq<string>)
    requires IsOrder(ctx, o) && IsOrder(ctx, p) && (Agree(read, ctx) || !AllValid(read, ctx))
    ensures Loop(read, ctx, o) == Loop(read, ctx, p)
  {
    VisitedAll(ctx, o);
    VisitedAll(ctx, p);
    LoopVerdict(read, ctx, o);
    LoopVerdict(read, ctx, p);
    if Loop(read, ctx, o).Some? {
      LoopContents(read, ctx, o);
      LoopContents(read, ctx, p);
      SaysUnique(read, ctx, Loop(read, ctx, o).value, Loop(read, ctx, p).value);
    }
  }

  lemma DisagreeingLoopsDiffer(read: Reader, ctx: map<string, string>, k: string, l: string)
    requires k in ctx && l in ctx && AllValid(read, ctx)
    requires SameField(read(k, ctx[k]), read(l, ctx[l])) && read(k, ctx[k]) != read(l, ctx[l])
    ensures !OrderFree(read, ctx)
  {
    var o := OrderEndingWith(ctx, k);
    var p := OrderEndingWith(ctx, l);
    VisitedAll(ctx, o + [k]);
    VisitedAll(ctx, p + [l]);
    LoopVerdict(read, ctx, o + [k]);
    LoopVerdict(read, ctx, p + [l]);
    LastKeyWins(read, ctx, o, k);
    LastKeyWins(read, ctx, p, l);
  }

  /** Parsing is independent of Go's map order exactly when a recognised value is invalid (every
      order fails) or all keys that lower-case to the same field carry the same value. */
  lemma OrderFreeExactly(read: Reader, ctx: map<string, string>)
    ensures OrderFree(read, ctx) <==> !AllValid(read, ctx) || Agree(read, ctx)
  {
    if Agree(read, ctx) || !AllValid(read, ctx) {
      forall o, p | IsOrder(ctx, o) && IsOrder(ctx, p)
        ensures Loop(read, ctx, o) == Loop(read, ctx, p)
      {
        AgreeingLoopsEqual(read, ctx, o, p);
      }
    } else {
      var k, l :|
        k in ctx && l in ctx && SameField(read(k, ctx[k]), read(l, ctx[l])) && read(k, ctx[k]) != read(l, ctx[l]);
      DisagreeingLoopsDiffer(read, ctx, k, l);
    }
  }
}
