/** The two parsers of Kodo parameters (plugin/kodo_parameters.go:73-173, 197-467): the loop over
    the map, the fields completed from the secrets, and the lookups for what is still missing. */
module VolumeParameters {
  import opened Wrappers
  import opened Text
  import opened Fields
  import opened Parameters

  // -- completion from the secrets ---------------------------------------------------------------

  type Filler = (Slot, Val) -> Option<Val>

  /** What a field becomes when the secrets do not have it either (None: an error). */
  function Default(s: Slot): Option<Val> {
    match s
    case AccessKey | SecretKey | UcEndpoint => None
    case Region => Some(Txt("z0"))
    case StorageClass => Some(Txt("STANDARD"))
    case _ => Some(Zero(s))
  }

  function FillValue(lib: Lib, secrets: map<string, string>, s: Slot, v: Val): Option<Val> {
    if v != Zero(s) then Some(v)
    else if FieldOf(s) in secrets then ParseValue(lib, s, secrets[FieldOf(s)])
    else Default(s)
  }

  function FillerOf(lib: Lib, secrets: map<string, string>): Filler { (s, v) => FillValue(lib, secrets, s, v) }

  /** The fields that each parser completes, in order. */
  const CLASS_FALLBACKS: seq<Slot> := [AccessKey, SecretKey, UcEndpoint, Region, StorageClass, SubDir, S3ForcePathStyle]

  const VOLUME_FALLBACKS: seq<Slot> := [S3Endpoint, S3Region, BucketId, BucketName]

  /** Completes the fields one after the other. */
  function Complete(fill: Filler, r: Rec, steps: seq<Slot>): Option<Rec> {
    if steps == [] then Some(r)
    else
      var n := |steps| - 1;
      var q := Complete(fill, r, steps[..n]);
      if q.None? then None
      else
        var v := fill(steps[n], Get(q.value, steps[n]));
        if v.None? then None else Some(q.value[steps[n] := v.value])
  }

  ghost predicate DistinctSlots(steps: seq<Slot>) {
    forall i, j :: 0 <= i < j < |steps| ==> steps[i] != steps[j]
  }

  /** Every field of `steps` can be completed. */
  ghost predicate Fillable(fill: Filler, r: Rec, steps: seq<Slot>) {
    forall i :: 0 <= i < |steps| ==> fill(steps[i], Get(r, steps[i])).Some?
  }

  /** `q` is `r` with the fields of `steps` completed and no other field changed. */
  ghost predicate Filled(fill: Filler, r: Rec, steps: seq<Slot>, q: Rec) {
    && (forall i :: 0 <= i < |steps| ==> fill(steps[i], Get(r, steps[i])) == Some(Get(q, steps[i])))
    && (forall s :: (forall i :: 0 <= i < |steps| ==> steps[i] != s) ==> Get(q, s) == Get(r, s))
  }

  /** Completion succeeds exactly when each field can be completed, independently of the others. */
  lemma {:induction false} CompleteExactly(fill: Filler, r: Rec, steps: seq<Slot>)
    requires DistinctSlots(steps)
    ensures Complete(fill, r, steps).Some? <==> Fillable(fill, r, steps)
    ensures Complete(fill, r, steps).Some? ==> Filled(fill, r, steps, Complete(fill, r, steps).value)
  {
    if steps != [] {
      var n := |steps| - 1;
      var before := steps[..n];
      CompleteExactly(fill, r, before);
      assert forall i :: 0 <= i < n ==> before[i] == steps[i];
      if Complete(fill, r, before).None? {
        var i :| 0 <= i < n && fill(before[i], Get(r, before[i])).None?;
        assert !Fillable(fill, r, steps);
      } else {
        CompleteStep(fill, r, steps, Complete(fill, r, before).value);
      }
    }
  }

  lemma CompleteStep(fill: Filler, r: Rec, steps: seq<Slot>, q: Rec)
    requires steps != [] && DistinctSlots(steps) && Filled(fill, r, steps[..|steps| - 1], q)
    ensures var f := steps[|steps| - 1];
            var v := fill(f, Get(q, f));
            && (v.Some? <==> Fillable(fill, r, steps))
            && (v.Some? ==> Filled(fill, r, steps, q[f := v.value]))
  {
    var n := |steps| - 1;
    var f, before := steps[n], steps[..n];
    assert Get(q, f) == Get(r, f);
    assert forall i :: 0 <= i < n ==> before[i] == steps[i] && steps[i] != f;
    var v := fill(f, Get(q, f));
    if v.Some? {
      var p := q[f := v.value];
      forall s | forall i :: 0 <= i < |steps| ==> steps[i] != s ensures Get(p, s) == Get(r, s) {
        assert s != f && Get(p, s) == Get(q, s);
      }
    }
  }

  /** Completing what is already complete, from the same secrets, changes nothing. */
  lemma FillAgain(lib: Lib, secrets: map<string, string>, s: Slot, v: Val)
    requires FillValue(lib, secrets, s, v).Some?
    ensures FillValue(lib, secrets, s, FillValue(lib, secrets, s, v).value) == FillValue(lib, secrets, s, v)
  {
  }

  // -- the storage class parser ------------------------------------------------------------------

  /** parseKodoStorageClassParameter, when Go iterates over the map in the given order. */
  function ParseClass(lib: Lib, ctx: map<string, string>, secrets: map<string, string>, order: seq<string>): Option<Rec>
    requires forall k :: k in order ==> k in ctx
  {
    var r := Loop(ReaderOf(lib, ClassStage), ctx, order);
    if r.None? then None else Complete(FillerOf(lib, secrets), r.value, CLASS_FALLBACKS)
  }

  /** The entry gives the field a value other than the zero value. */
  predicate Gives(g: Reading, s: Slot) { g.Good? && g.slot == s && g.val != Zero(s) }

  /** The map gives the field a value other than the zero value. */
  ghost predicate Given(read: Reader, ctx: map<string, string>, s: Slot) {
    exists k :: k in ctx && Gives(read(k, ctx[k]), s)
  }

  lemma GivenExactly(read: Reader, ctx: map<string, string>, r: Rec, s: Slot)
    requires Agree(read, ctx) && Says(read, ctx, r)
    ensures Given(read, ctx, s) <==> Get(r, s) != Zero(s)
  {
    if Given(read, ctx, s) {
      var k :| k in ctx && Gives(read(k, ctx[k]), s);
      var l :| l in ctx && read(l, ctx[l]) == Good(s, r[s]);
      assert SameField(read(k, ctx[k]), read(l, ctx[l]));
    }
    if Get(r, s) != Zero(s) {
      var l :| l in ctx && read(l, ctx[l]) == Good(s, r[s]);
    }
  }

  /** A mandatory field is in the map, or readable in the secrets. */
  ghost predicate Supplied(lib: Lib, read: Reader, ctx: map<string, string>, secrets: map<string, string>, s: Slot) {
    || Given(read, ctx, s)
    || (FieldOf(s) in secrets && ParseValue(lib, s, secrets[FieldOf(s)]).Some?)
  }

  /** An optional field is in the map, or not in the secrets, or readable there. */
  ghost predicate NotMisgiven(lib: Lib, read: Reader, ctx: map<string, string>, secrets: map<string, string>, s: Slot) {
    || Given(read, ctx, s)
    || (FieldOf(s) in secrets ==> ParseValue(lib, s, secrets[FieldOf(s)]).Some?)
  }

  lemma ClassSteps(fill: Filler, r: Rec)
    ensures DistinctSlots(CLASS_FALLBACKS)
    ensures Fillable(fill, r, CLASS_FALLBACKS) <==>
            && fill(AccessKey, Get(r, AccessKey)).Some?
            && fill(SecretKey, Get(r, SecretKey)).Some?
            && fill(UcEndpoint, Get(r, UcEndpoint)).Some?
            && fill(Region, Get(r, Region)).Some?
            && fill(StorageClass, Get(r, StorageClass)).Some?
            && fill(SubDir, Get(r, SubDir)).Some?
            && fill(S3ForcePathStyle, Get(r, S3ForcePathStyle)).Some?
  {
    SevenSlots(s => fill(s, Get(r, s)).Some?, AccessKey, SecretKey, UcEndpoint, Region, StorageClass, SubDir,
               S3ForcePathStyle);
  }

  lemma SevenSlots(p: Slot -> bool, a: Slot, b: Slot, c: Slot, d: Slot, e: Slot, f: Slot, g: Slot)
    requires a != b && a != c && a != d && a != e && a != f && a != g && b != c && b != d && b != e && b != f && b != g
    requires c != d && c != e && c != f && c != g && d != e && d != f && d != g && e != f && e != g && f != g
    ensures var steps := [a, b, c, d, e, f, g];
            && DistinctSlots(steps)
            && ((forall i :: 0 <= i < |steps| ==> p(steps[i])) <==>
                p(a) && p(b) && p(c) && p(d) && p(e) && p(f) && p(g))
  {
    var s := [a, b, c, d, e, f, g];
    assert s[0] == a && s[1] == b && s[2] == c && s[3] == d && s[4] == e && s[5] == f && s[6] == g;
  }

  lemma FillExactly(lib: Lib, secrets: map<string, string>, s: Slot, v: Val)
    ensures FillerOf(lib, secrets)(s, v).Some? <==>
            || v != Zero(s)
            || if FieldOf(s) in secrets then ParseValue(lib, s, secrets[FieldOf(s)]).Some? else Default(s).Some?
  {
  }

  lemma FillMandatory(lib: Lib, read: Reader, ctx: map<string, string>, secrets: map<string, string>, r: Rec, s: Slot)
    requires Default(s).None?
    requires Agree(read, ctx) && Says(read, ctx, r)
    ensures FillerOf(lib, secrets)(s, Get(r, s)).Some? <==> Supplied(lib, read, ctx, secrets, s)
  {
    GivenExactly(read, ctx, r, s);
    FillExactly(lib, secrets, s, Get(r, s));
  }

  lemma FillOptional(lib: Lib, read: Reader, ctx: map<string, string>, secrets: map<string, string>, r: Rec, s: Slot)
    requires Default(s).Some?
    requires Agree(read, ctx) && Says(read, ctx, r)
    ensures FillerOf(lib, secrets)(s, Get(r, s)).Some? <==> NotMisgiven(lib, read, ctx, secrets, s)
  {
    GivenExactly(read, ctx, r, s);
    FillExactly(lib, secrets, s, Get(r, s));
  }

  lemma FillText(lib: Lib, secrets: map<string, string>, r: Rec, s: Slot)
    requires KindOf(s) == TextKind && Default(s).Some?
    ensures FillerOf(lib, secrets)(s, Get(r, s)).Some?
  {
  }

  lemma ClassFillable(lib: Lib, read: Reader, ctx: map<string, string>, secrets: map<string, string>, r: Rec)
    requires Agree(read, ctx) && Says(read, ctx, r)
    ensures DistinctSlots(CLASS_FALLBACKS)
    ensures Fillable(FillerOf(lib, secrets), r, CLASS_FALLBACKS) <==>
            && Supplied(lib, read, ctx, secrets, AccessKey)
            && Supplied(lib, read, ctx, secrets, SecretKey)
            && Supplied(lib, read, ctx, secrets, UcEndpoint)
            && NotMisgiven(lib, read, ctx, secrets, S3ForcePathStyle)
  {
    ClassSteps(FillerOf(lib, secrets), r);
    FillMandatory(lib, read, ctx, secrets, r, AccessKey);
    FillMandatory(lib, read, ctx, secrets, r, SecretKey);
    FillMandatory(lib, read, ctx, secrets, r, UcEndpoint);
    FillText(lib, secrets, r, Region);
    FillText(lib, secrets, r, StorageClass);
    FillText(lib, secrets, r, SubDir);
    FillOptional(lib, read, ctx, secrets, r, S3ForcePathStyle);
  }

  /** The storage class parser accepts exactly the maps whose recognised values are all valid,
      whose mandatory fields are supplied, and whose path style can be read; in every order. */
  lemma ClassVerdict(lib: Lib, ctx: map<string, string>, secrets: map<string, string>, order: seq<string>)
    requires IsOrder(ctx, order) && Agree(ReaderOf(lib, ClassStage), ctx)
    ensures ParseClass(lib, ctx, secrets, order).Some? <==>
            && AllValid(ReaderOf(lib, ClassStage), ctx)
            && Supplied(lib, ReaderOf(lib, ClassStage), ctx, secrets, AccessKey)
            && Supplied(lib, ReaderOf(lib, ClassStage), ctx, secrets, SecretKey)
            && Supplied(lib, ReaderOf(lib, ClassStage), ctx, secrets, UcEndpoint)
            && NotMisgiven(lib, ReaderOf(lib, ClassStage), ctx, secrets, S3ForcePathStyle)
  {
    var read, fill := ReaderOf(lib, ClassStage), FillerOf(lib, secrets);
    LoopExactly(read, ctx, order);
    if AllValid(read, ctx) {
      var r := Loop(read, ctx, order).value;
      ClassFillable(lib, read, ctx, secrets, r);
      CompleteExactly(fill, r, CLASS_FALLBACKS);
    }
  }

  /** What an accepted record holds: the value that the map gives, or else, for a field with a
      fallback, what the secrets say; a region that neither gives is "z0", a storage class is
      "STANDARD", and any other field is empty. */
  lemma ClassRecord(lib: Lib, ctx: map<string, string>, secrets: map<string, string>, order: seq<string>, s: Slot)
    requires IsOrder(ctx, order) && Agree(ReaderOf(lib, ClassStage), ctx) && ParseClass(lib, ctx, secrets, order).Some?
    ensures var p, read := ParseClass(lib, ctx, secrets, order).value, ReaderOf(lib, ClassStage);
            && (forall k :: k in ctx && Gives(read(k, ctx[k]), s) ==> Get(p, s) == read(k, ctx[k]).val)
            && (!Given(read, ctx, s) && s in CLASS_FALLBACKS && FieldOf(s) in secrets ==>
                  ParseValue(lib, s, secrets[FieldOf(s)]) == Some(Get(p, s)))
            && (!Given(read, ctx, s) && s in CLASS_FALLBACKS && FieldOf(s) !in secrets ==>
                  Get(p, s) == if s.Region? then Txt("z0") else if s.StorageClass? then Txt("STANDARD") else Zero(s))
            && (!Given(read, ctx, s) && s !in CLASS_FALLBACKS ==> Get(p, s) == Zero(s))
  {
    var read, fill := ReaderOf(lib, ClassStage), FillerOf(lib, secrets);
    LoopExactly(read, ctx, order);
    var r := Loop(read, ctx, order).value;
    GivenExactly(read, ctx, r, s);
    ClassSteps(fill, r);
    CompleteExactly(fill, r, CLASS_FALLBACKS);
    FilledAt(fill, r, CLASS_FALLBACKS, ParseClass(lib, ctx, secrets, order).value, s);
    FillFollows(lib, secrets, s, Get(r, s));
    GivenValue(read, ctx, r, s);
  }

  lemma GivenValue(read: Reader, ctx: map<string, string>, r: Rec, s: Slot)
    requires Agree(read, ctx) && Says(read, ctx, r)
    ensures forall k :: k in ctx && read(k, ctx[k]).Good? && read(k, ctx[k]).slot == s ==>
              Get(r, s) == read(k, ctx[k]).val
  {
    forall k | k in ctx && read(k, ctx[k]).Good? && read(k, ctx[k]).slot == s ensures Get(r, s) == read(k, ctx[k]).val {
      var l :| l in ctx && read(l, ctx[l]) == Good(s, r[s]);
      assert SameField(read(k, ctx[k]), read(l, ctx[l]));
    }
  }

  lemma FilledAt(fill: Filler, r: Rec, steps: seq<Slot>, q: Rec, s: Slot)
    requires Filled(fill, r, steps, q)
    ensures if s in steps then fill(s, Get(r, s)) == Some(Get(q, s)) else Get(q, s) == Get(r, s)
  {
    if s in steps {
      var i :| 0 <= i < |steps| && steps[i] == s;
      assert fill(steps[i], Get(r, steps[i])) == Some(Get(q, steps[i]));
    }
  }

  lemma FillFollows(lib: Lib, secrets: map<string, string>, s: Slot, v: Val)
    ensures FillerOf(lib, secrets)(s, v) ==
            if v != Zero(s) then Some(v)
            else if FieldOf(s) in secrets then ParseValue(lib, s, secrets[FieldOf(s)])
            else Default(s)
  {
  }

  /** Keys that stay distinct when lower-cased. */
  ghost predicate LowerDistinct(lib: Lib, ctx: map<string, string>) {
    forall k, l :: k in ctx && l in ctx && ToLower(lib.lower, k) == ToLower(lib.lower, l) ==> k == l
  }

  lemma LowerDistinctAgree(lib: Lib, stage: Stage, ctx: map<string, string>)
    requires LowerDistinct(lib, ctx)
    ensures Agree(ReaderOf(lib, stage), ctx)
  {
    var read := ReaderOf(lib, stage);
    forall k, l | k in ctx && l in ctx && SameField(read(k, ctx[k]), read(l, ctx[l])) ensures k == l {
      RecogniseExactly(stage, ToLower(lib.lower, k), read(k, ctx[k]).slot);
      RecogniseExactly(stage, ToLower(lib.lower, l), read(k, ctx[k]).slot);
    }
  }

  // -- the volume parser -------------------------------------------------------------------------

  datatype Found<T> = Failed | Missing | Found(value: T)

  datatype Account = Account(accessKey: Val, secretKey: Val, ucEndpoint: Val)

  datatype BucketInfo = BucketInfo(id: string, region: string)

  /** The lookups on the server. */
  datatype Remote = Remote(
    findBucket: (Account, string) -> Found<BucketInfo>,
    s3Endpoint: (Account, string) -> Found<string>,
    s3Region: (Account, string) -> Found<string>)

  function AccountOf(r: Rec): Account { Account(Get(r, AccessKey), Get(r, SecretKey), Get(r, UcEndpoint)) }

  function TextOf(v: Val): string { if v.Txt? then v.text else "" }

  function ResolveBucket(remote: Remote, r: Rec): Option<Rec> {
    if Get(r, BucketId) != Txt("") then Some(r)
    else if Get(r, BucketName) == Txt("") then None
    else
      match remote.findBucket(AccountOf(r), TextOf(Get(r, BucketName)))
      case Found(b) => Some(r[BucketId := Txt(b.id)][Region := Txt(b.region)])
      case _ => None
  }

  function ResolveEndpoint(remote: Remote, r: Rec): Option<Rec> {
    if Get(r, S3Endpoint) != Nil then Some(r)
    else
      match remote.s3Endpoint(AccountOf(r), TextOf(Get(r, Region)))
      case Found(u) => Some(r[S3Endpoint := Link(u)])
      case _ => None
  }

  function ResolveRegion(remote: Remote, r: Rec): Option<Rec> {
    if Get(r, S3Region) != Txt("") then Some(r)
    else
      match remote.s3Region(AccountOf(r), TextOf(Get(r, Region)))
      case Found(s) => Some(r[S3Region := Txt(s)])
      case _ => None
  }

  function Resolve(remote: Remote, r: Rec): Option<Rec> {
    var a := ResolveBucket(remote, r);
    if a.None? then None
    else
      var b := ResolveEndpoint(remote, a.value);
      if b.None? then None else ResolveRegion(remote, b.value)
  }

  /** parseKodoPvParameter, which iterates over the map twice. */
  function ParseVolume(lib: Lib, remote: Remote, ctx: map<string, string>, secrets: map<string, string>,
                       first: seq<string>, second: seq<string>): Option<Rec>
    requires (forall k :: k in first ==> k in ctx) && (forall k :: k in second ==> k in ctx)
  {
    var c := ParseClass(lib, ctx, secrets, first);
    if c.None? then None
    else
      var v := Loop(ReaderOf(lib, VolumeStage), ctx, second);
      if v.None? then None
      else
        var r := Complete(FillerOf(lib, secrets), c.value + v.value, VOLUME_FALLBACKS);
        if r.None? then None else Resolve(remote, r.value)
  }

  lemma ClassParses(lib: Lib, ctx: map<string, string>, secrets: map<string, string>, order: seq<string>, r: Rec,
                    q: Rec)
    requires (forall k :: k in order ==> k in ctx) && Loop(ReaderOf(lib, ClassStage), ctx, order) == Some(r)
    requires Complete(FillerOf(lib, secrets), r, CLASS_FALLBACKS) == Some(q)
    ensures ParseClass(lib, ctx, secrets, order) == Some(q)
  {
  }

  /** The parts of a successful parse. */
  lemma VolumeParses(lib: Lib, remote: Remote, ctx: map<string, string>, secrets: map<string, string>,
                     first: seq<string>, second: seq<string>, c: Rec, v: Rec, r: Rec)
    requires (forall k :: k in first ==> k in ctx) && (forall k :: k in second ==> k in ctx)
    requires ParseClass(lib, ctx, secrets, first) == Some(c)
    requires Loop(ReaderOf(lib, VolumeStage), ctx, second) == Some(v)
    requires Complete(FillerOf(lib, secrets), c + v, VOLUME_FALLBACKS) == Some(r)
    ensures ParseVolume(lib, remote, ctx, secrets, first, second) == Resolve(remote, r)
  {
  }

  /** With keys distinct after lower-casing, the whole parser does not depend on the two orders. */
  lemma VolumeOrderFree(lib: Lib, remote: Remote, ctx: map<string, string>, secrets: map<string, string>,
                        first: seq<string>, second: seq<string>, third: seq<string>, fourth: seq<string>)
    requires IsOrder(ctx, first) && IsOrder(ctx, second) && IsOrder(ctx, third) && IsOrder(ctx, fourth)
    requires LowerDistinct(lib, ctx)
    ensures ParseVolume(lib, remote, ctx, secrets, first, second) ==
            ParseVolume(lib, remote, ctx, secrets, third, fourth)
  {
    LowerDistinctAgree(lib, ClassStage, ctx);
    LowerDistinctAgree(lib, VolumeStage, ctx);
    AgreeingLoopsEqual(ReaderOf(lib, ClassStage), ctx, first, third);
    AgreeingLoopsEqual(ReaderOf(lib, VolumeStage), ctx, second, fourth);
  }
}
