/** What the volume parser accepts and returns, field by field: the map, the secrets, and the answers of
    the server (plugin/kodo_parameters.go:73-173). */
module VolumeRecords {
  import opened Wrappers
  import opened Text
  import opened Fields
  import opened Parameters
  import opened VolumeParameters
  import opened ParameterOrders
  import opened ParameterWords

  // -- the map and the secrets -------------------------------------------------------------------

  /** The fields that the volume parser completes from the secrets. */
  predicate VolumeCompleted(s: Slot) { s in [S3Endpoint, S3Region, BucketId, BucketName] }

  /** The record before the lookups: the fields of the storage class parser as it returns them, and the
      others as map and secrets state them. */
  ghost predicate IsBase(lib: Lib, ctx: map<string, string>, secrets: map<string, string>, c: Rec, r: Rec) {
    && (forall s: Slot :: !IsVolumeSlot(s) ==> Get(r, s) == Get(c, s))
    && (forall s: Slot :: IsVolumeSlot(s) ==> VolumeFieldOk(lib, ctx, secrets, s, Get(r, s)))
  }

  ghost predicate VolumeFieldOk(lib: Lib, ctx: map<string, string>, secrets: map<string, string>, s: Slot, v: Val) {
    if VolumeCompleted(s) then Stated(lib, ctx, secrets, s, Zero(s), v)
    else if !NotInMap(lib, ctx, s) then InMap(lib, ctx, s, v)
    else v == Zero(s)
  }

  lemma InMapIsUnique(lib: Lib, stage: Stage, ctx: map<string, string>, v: Rec, s: Slot, w: Val)
    requires Agree(ReaderOf(lib, stage), ctx) && Says(ReaderOf(lib, stage), ctx, v) && Belongs(stage, s)
    requires InMap(lib, ctx, s, w)
    ensures w == Get(v, s)
  {
    var k := InMapIsGiven(lib, stage, ctx, s, w);
    GivenValue(ReaderOf(lib, stage), ctx, v, s);
  }

  lemma ReadIsInMap(lib: Lib, stage: Stage, ctx: map<string, string>, v: Rec, s: Slot)
    requires Agree(ReaderOf(lib, stage), ctx) && Says(ReaderOf(lib, stage), ctx, v) && Belongs(stage, s)
    ensures if NotInMap(lib, ctx, s) then Get(v, s) == Zero(s) else InMap(lib, ctx, s, Get(v, s))
  {
    GivenInMap(lib, stage, ctx, s);
    GivenExactly(ReaderOf(lib, stage), ctx, v, s);
    if w: Val :| InMap(lib, ctx, s, w) {
      InMapIsUnique(lib, stage, ctx, v, s, w);
    }
  }

  lemma FillIsStated(lib: Lib, stage: Stage, ctx: map<string, string>, secrets: map<string, string>, v: Rec, s: Slot,
                     w: Val)
    requires Agree(ReaderOf(lib, stage), ctx) && Says(ReaderOf(lib, stage), ctx, v) && Belongs(stage, s)
    requires Default(s) == Some(Zero(s))
    ensures FillerOf(lib, secrets)(s, Get(v, s)) == Some(w) <==> Stated(lib, ctx, secrets, s, Zero(s), w)
  {
    ReadIsInMap(lib, stage, ctx, v, s);
    if InMap(lib, ctx, s, w) {
      InMapIsUnique(lib, stage, ctx, v, s, w);
    }
    FillCases(lib, ctx, secrets, s, Get(v, s), w);
  }

  lemma FillCases(lib: Lib, ctx: map<string, string>, secrets: map<string, string>, s: Slot, v: Val, w: Val)
    requires if NotInMap(lib, ctx, s) then v == Zero(s) else InMap(lib, ctx, s, v)
    requires InMap(lib, ctx, s, w) ==> w == v
    requires Default(s) == Some(Zero(s))
    ensures FillerOf(lib, secrets)(s, v) == Some(w) <==> Stated(lib, ctx, secrets, s, Zero(s), w)
  {
    if NotInMap(lib, ctx, s) {
      FillFromSecrets(lib, secrets, s, w);
    } else {
      FillKeeps(lib, secrets, s, v);
    }
  }

  lemma FillFromSecrets(lib: Lib, secrets: map<string, string>, s: Slot, w: Val)
    requires Default(s) == Some(Zero(s))
    ensures FillerOf(lib, secrets)(s, Zero(s)) == Some(w) <==>
            if FieldOf(s) in secrets then Reads(lib, KindOf(s), secrets[FieldOf(s)], w) else w == Zero(s)
  {
    FillFollows(lib, secrets, s, Zero(s));
    if FieldOf(s) in secrets {
      ParseValueExactly(lib, s, secrets[FieldOf(s)], w);
    }
  }

  lemma FillKeeps(lib: Lib, secrets: map<string, string>, s: Slot, v: Val)
    requires v != Zero(s)
    ensures FillerOf(lib, secrets)(s, v) == Some(v)
  {
  }

  /** The class parser assigns none of the fields that the volume parser adds. */
  lemma ClassHasNoVolumeSlot(lib: Lib, ctx: map<string, string>, secrets: map<string, string>, order: seq<string>,
                             s: Slot)
    requires IsOrder(ctx, order) && ParseClass(lib, ctx, secrets, order).Some? && IsVolumeSlot(s)
    ensures s !in ParseClass(lib, ctx, secrets, order).value
  {
    var read := ReaderOf(lib, ClassStage);
    var r := Loop(read, ctx, order).value;
    VisitedAll(ctx, order);
    LoopContents(read, ctx, order);
    CompleteKeys(FillerOf(lib, secrets), r, CLASS_FALLBACKS);
    CompletedAreFallbacks(s);
    if s in r {
      var k :| k in ctx && read(k, ctx[k]) == Good(s, r[s]);
      EntryStage(lib, ClassStage, k, ctx[k], s);
    }
  }

  lemma EntryStage(lib: Lib, stage: Stage, key: string, text: string, s: Slot)
    requires ReaderOf(lib, stage)(key, text).Good? && ReaderOf(lib, stage)(key, text).slot == s
    ensures Belongs(stage, s)
  {
    RecogniseExactly(stage, ToLower(lib.lower, key), s);
  }

  lemma VolumeLoopStage(lib: Lib, ctx: map<string, string>, v: Rec, s: Slot)
    requires Says(ReaderOf(lib, VolumeStage), ctx, v) && s in v
    ensures IsVolumeSlot(s)
  {
    var k :| k in ctx && ReaderOf(lib, VolumeStage)(k, ctx[k]) == Good(s, v[s]);
    EntryStage(lib, VolumeStage, k, ctx[k], s);
  }

  lemma JoinedAt(lib: Lib, ctx: map<string, string>, secrets: map<string, string>, order: seq<string>, v: Rec, s: Slot)
    requires IsOrder(ctx, order) && ParseClass(lib, ctx, secrets, order).Some?
    requires Says(ReaderOf(lib, VolumeStage), ctx, v)
    ensures var c := ParseClass(lib, ctx, secrets, order).value;
            Get(c + v, s) == if IsVolumeSlot(s) then Get(v, s) else Get(c, s)
  {
    if IsVolumeSlot(s) {
      ClassHasNoVolumeSlot(lib, ctx, secrets, order, s);
    } else if s in v {
      VolumeLoopStage(lib, ctx, v, s);
      assert false;
    }
  }

  lemma VolumeSteps()
    ensures DistinctSlots(VOLUME_FALLBACKS)
    ensures forall s: Slot :: s in VOLUME_FALLBACKS <==> VolumeCompleted(s)
    ensures forall s: Slot :: VolumeCompleted(s) ==> IsVolumeSlot(s) && Default(s) == Some(Zero(s))
  {
  }

  /** The completed record is the base of the lookups. */
  lemma CompletedIsBase(lib: Lib, ctx: map<string, string>, secrets: map<string, string>, order: seq<string>, v: Rec,
                        r: Rec)
    requires IsOrder(ctx, order) && ParseClass(lib, ctx, secrets, order).Some?
    requires Says(ReaderOf(lib, VolumeStage), ctx, v) && Agree(ReaderOf(lib, VolumeStage), ctx)
    requires var c := ParseClass(lib, ctx, secrets, order).value;
             Complete(FillerOf(lib, secrets), c + v, VOLUME_FALLBACKS) == Some(r)
    ensures IsBase(lib, ctx, secrets, ParseClass(lib, ctx, secrets, order).value, r)
  {
    var c, fill := ParseClass(lib, ctx, secrets, order).value, FillerOf(lib, secrets);
    VolumeSteps();
    CompleteExactly(fill, c + v, VOLUME_FALLBACKS);
    forall s: Slot
      ensures if IsVolumeSlot(s) then VolumeFieldOk(lib, ctx, secrets, s, Get(r, s)) else Get(r, s) == Get(c, s)
    {
      JoinedAt(lib, ctx, secrets, order, v, s);
      FilledAt(fill, c + v, VOLUME_FALLBACKS, r, s);
      if VolumeCompleted(s) {
        FillIsStated(lib, VolumeStage, ctx, secrets, v, s, Get(r, s));
      } else if IsVolumeSlot(s) {
        ReadIsInMap(lib, VolumeStage, ctx, v, s);
      }
    }
  }

  /** And when there is a base, completion succeeds. */
  lemma BaseCompletes(lib: Lib, ctx: map<string, string>, secrets: map<string, string>, order: seq<string>, v: Rec,
                      r: Rec)
    requires IsOrder(ctx, order) && ParseClass(lib, ctx, secrets, order).Some?
    requires Says(ReaderOf(lib, VolumeStage), ctx, v) && Agree(ReaderOf(lib, VolumeStage), ctx)
    requires IsBase(lib, ctx, secrets, ParseClass(lib, ctx, secrets, order).value, r)
    ensures Complete(FillerOf(lib, secrets), ParseClass(lib, ctx, secrets, order).value + v, VOLUME_FALLBACKS).Some?
  {
    var c, fill := ParseClass(lib, ctx, secrets, order).value, FillerOf(lib, secrets);
    VolumeSteps();
    forall i | 0 <= i < |VOLUME_FALLBACKS| ensures fill(VOLUME_FALLBACKS[i], Get(c + v, VOLUME_FALLBACKS[i])).Some? {
      var s := VOLUME_FALLBACKS[i];
      JoinedAt(lib, ctx, secrets, order, v, s);
      FillIsStated(lib, VolumeStage, ctx, secrets, v, s, Get(r, s));
    }
    CompleteExactly(fill, c + v, VOLUME_FALLBACKS);
  }

  // -- the lookups -------------------------------------------------------------------------------

  /** What the lookups make of a record: they fill in the bucket with its region, the endpoint and the S3
      region, each only if it is missing, with the keys of the account. */
  ghost predicate Resolved(remote: Remote, r: Rec, p: Rec) {
    var account := Account(Get(r, AccessKey), Get(r, SecretKey), Get(r, UcEndpoint));
    && (if Get(r, BucketId) != Txt("") then
          Get(p, BucketId) == Get(r, BucketId) && Get(p, Region) == Get(r, Region)
        else
          && Get(r, BucketName) != Txt("")
          && var found := remote.findBucket(account, TextOf(Get(r, BucketName)));
             found.Found? && Get(p, BucketId) == Txt(found.value.id) && Get(p, Region) == Txt(found.value.region))
    && (if Get(r, S3Endpoint) != Nil then Get(p, S3Endpoint) == Get(r, S3Endpoint)
        else
          var found := remote.s3Endpoint(account, TextOf(Get(p, Region)));
          found.Found? && Get(p, S3Endpoint) == Link(found.value))
    && (if Get(r, S3Region) != Txt("") then Get(p, S3Region) == Get(r, S3Region)
        else
          var found := remote.s3Region(account, TextOf(Get(p, Region)));
          found.Found? && Get(p, S3Region) == Txt(found.value))
    && (forall s: Slot :: !s.BucketId? && !s.Region? && !s.S3Endpoint? && !s.S3Region? ==> Get(p, s) == Get(r, s))
  }

  lemma BucketResolved(remote: Remote, r: Rec)
    requires ResolveBucket(remote, r).Some?
    ensures var a := ResolveBucket(remote, r).value;
            var account := Account(Get(r, AccessKey), Get(r, SecretKey), Get(r, UcEndpoint));
            && (if Get(r, BucketId) != Txt("") then
                  Get(a, BucketId) == Get(r, BucketId) && Get(a, Region) == Get(r, Region)
                else
                  && Get(r, BucketName) != Txt("")
                  && var found := remote.findBucket(account, TextOf(Get(r, BucketName)));
                     && found.Found?
                     && Get(a, BucketId) == Txt(found.value.id) && Get(a, Region) == Txt(found.value.region))
            && (forall s: Slot :: !s.BucketId? && !s.Region? ==> Get(a, s) == Get(r, s))
  {
  }

  lemma EndpointResolved(remote: Remote, a: Rec)
    requires ResolveEndpoint(remote, a).Some?
    ensures var b := ResolveEndpoint(remote, a).value;
            && (if Get(a, S3Endpoint) != Nil then Get(b, S3Endpoint) == Get(a, S3Endpoint)
                else
                  var found := remote.s3Endpoint(AccountOf(a), TextOf(Get(a, Region)));
                  found.Found? && Get(b, S3Endpoint) == Link(found.value))
            && (forall s: Slot :: !s.S3Endpoint? ==> Get(b, s) == Get(a, s))
  {
  }

  lemma RegionResolved(remote: Remote, b: Rec)
    requires ResolveRegion(remote, b).Some?
    ensures var p := ResolveRegion(remote, b).value;
            && (if Get(b, S3Region) != Txt("") then Get(p, S3Region) == Get(b, S3Region)
                else
                  var found := remote.s3Region(AccountOf(b), TextOf(Get(b, Region)));
                  found.Found? && Get(p, S3Region) == Txt(found.value))
            && (forall s: Slot :: !s.S3Region? ==> Get(p, s) == Get(b, s))
  {
  }

  lemma ResolveResolves(remote: Remote, r: Rec)
    requires Resolve(remote, r).Some?
    ensures Resolved(remote, r, Resolve(remote, r).value)
  {
    BucketResolved(remote, r);
    var a := ResolveBucket(remote, r).value;
    EndpointResolved(remote, a);
    var b := ResolveEndpoint(remote, a).value;
    RegionResolved(remote, b);
  }

  /** A record that could come out of the lookups shows that they succeed. */
  lemma ResolvedIsFound(remote: Remote, r: Rec, like: Rec, q: Rec)
    requires (forall s: Slot :: Get(r, s) == Get(like, s)) && Resolved(remote, like, q)
    ensures Resolve(remote, r).Some?
  {
    BucketIsFound(remote, r, like, q);
    var a := ResolveBucket(remote, r).value;
    EndpointIsFound(remote, a, like, q);
    var b := ResolveEndpoint(remote, a).value;
    EndpointResolved(remote, a);
    RegionIsFound(remote, b, like, q);
  }

  lemma BucketIsFound(remote: Remote, r: Rec, like: Rec, q: Rec)
    requires (forall s: Slot :: Get(r, s) == Get(like, s)) && Resolved(remote, like, q)
    ensures ResolveBucket(remote, r).Some?
    ensures var a := ResolveBucket(remote, r).value;
            && AccountOf(a) == AccountOf(like) && Get(a, Region) == Get(q, Region)
            && Get(a, S3Endpoint) == Get(like, S3Endpoint) && Get(a, S3Region) == Get(like, S3Region)
  {
    BucketResolved(remote, r);
  }

  lemma EndpointIsFound(remote: Remote, a: Rec, like: Rec, q: Rec)
    requires Resolved(remote, like, q) && AccountOf(a) == AccountOf(like)
    requires Get(a, Region) == Get(q, Region) && Get(a, S3Endpoint) == Get(like, S3Endpoint)
    ensures ResolveEndpoint(remote, a).Some?
  {
  }

  lemma RegionIsFound(remote: Remote, b: Rec, like: Rec, q: Rec)
    requires Resolved(remote, like, q) && AccountOf(b) == AccountOf(like)
    requires Get(b, Region) == Get(q, Region) && Get(b, S3Region) == Get(like, S3Region)
    ensures ResolveRegion(remote, b).Some?
  {
  }

  // -- the parser --------------------------------------------------------------------------------

  lemma {:induction false} BasesAgree(lib: Lib, ctx: map<string, string>, secrets: map<string, string>, v: Rec, c: Rec,
                                      r: Rec, q: Rec)
    requires Agree(ReaderOf(lib, VolumeStage), ctx) && Says(ReaderOf(lib, VolumeStage), ctx, v)
    requires IsBase(lib, ctx, secrets, c, r) && IsBase(lib, ctx, secrets, c, q)
    ensures forall s: Slot :: Get(r, s) == Get(q, s)
  {
    VolumeSteps();
    forall s: Slot ensures Get(r, s) == Get(q, s) {
      if VolumeCompleted(s) {
        FillIsStated(lib, VolumeStage, ctx, secrets, v, s, Get(r, s));
        FillIsStated(lib, VolumeStage, ctx, secrets, v, s, Get(q, s));
      } else if IsVolumeSlot(s) && !NotInMap(lib, ctx, s) {
        InMapIsUnique(lib, VolumeStage, ctx, v, s, Get(r, s));
        InMapIsUnique(lib, VolumeStage, ctx, v, s, Get(q, s));
      }
    }
  }

  /** A record that the map, the secrets and the server's answers give. */
  ghost predicate Describes(lib: Lib, remote: Remote, ctx: map<string, string>, secrets: map<string, string>, c: Rec,
                            p: Rec) {
    exists r :: IsBase(lib, ctx, secrets, c, r) && Resolved(remote, r, p)
  }

  /** The volume parser returns what the map, the secrets and the server say; and it accepts exactly
      when the class parser does, no recognised value is invalid, and there is something for it to
      return. */
  lemma VolumeExactly(lib: Lib, remote: Remote, ctx: map<string, string>, secrets: map<string, string>,
                      first: seq<string>, second: seq<string>)
    requires IsOrder(ctx, first) && IsOrder(ctx, second) && Agree(ReaderOf(lib, VolumeStage), ctx)
    ensures var c, p := ParseClass(lib, ctx, secrets, first), ParseVolume(lib, remote, ctx, secrets, first, second);
            && (p.Some? ==> c.Some? && Describes(lib, remote, ctx, secrets, c.value, p.value))
            && (p.Some? <==>
                && c.Some? && AllValid(ReaderOf(lib, VolumeStage), ctx)
                && exists q :: Describes(lib, remote, ctx, secrets, c.value, q))
  {
    var c, read := ParseClass(lib, ctx, secrets, first), ReaderOf(lib, VolumeStage);
    LoopExactly(read, ctx, second);
    if c.Some? && AllValid(read, ctx) {
      var v := Loop(read, ctx, second).value;
      var r := Complete(FillerOf(lib, secrets), c.value + v, VOLUME_FALLBACKS);
      if r.Some? {
        VolumeParses(lib, remote, ctx, secrets, first, second, c.value, v, r.value);
        CompletedIsBase(lib, ctx, secrets, first, v, r.value);
        FoundExactly(lib, remote, ctx, secrets, v, c.value, r.value);
      } else if q, like :| IsBase(lib, ctx, secrets, c.value, like) && Resolved(remote, like, q) {
        BaseCompletes(lib, ctx, secrets, first, v, like);
        assert false;
      }
    }
  }

  lemma FoundExactly(lib: Lib, remote: Remote, ctx: map<string, string>, secrets: map<string, string>, v: Rec, c: Rec,
                     r: Rec)
    requires Agree(ReaderOf(lib, VolumeStage), ctx) && Says(ReaderOf(lib, VolumeStage), ctx, v)
    requires IsBase(lib, ctx, secrets, c, r)
    ensures Resolve(remote, r).Some? <==> exists q :: Describes(lib, remote, ctx, secrets, c, q)
    ensures Resolve(remote, r).Some? ==> Describes(lib, remote, ctx, secrets, c, Resolve(remote, r).value)
  {
    if Resolve(remote, r).Some? {
      FoundIsDescribed(lib, remote, ctx, secrets, c, r);
    }
    if q :| Describes(lib, remote, ctx, secrets, c, q) {
      DescribedIsFound(lib, remote, ctx, secrets, v, c, r, q);
    }
  }

  lemma FoundIsDescribed(lib: Lib, remote: Remote, ctx: map<string, string>, secrets: map<string, string>, c: Rec,
                         r: Rec)
    requires IsBase(lib, ctx, secrets, c, r) && Resolve(remote, r).Some?
    ensures Describes(lib, remote, ctx, secrets, c, Resolve(remote, r).value)
  {
    ResolveResolves(remote, r);
  }

  lemma DescribedIsFound(lib: Lib, remote: Remote, ctx: map<string, string>, secrets: map<string, string>, v: Rec,
                         c: Rec, r: Rec, q: Rec)
    requires Agree(ReaderOf(lib, VolumeStage), ctx) && Says(ReaderOf(lib, VolumeStage), ctx, v)
    requires IsBase(lib, ctx, secrets, c, r) && Describes(lib, remote, ctx, secrets, c, q)
    ensures Resolve(remote, r).Some?
  {
    var like :| IsBase(lib, ctx, secrets, c, like) && Resolved(remote, like, q);
    BasesAgree(lib, ctx, secrets, v, c, r, like);
    ResolvedIsFound(remote, r, like, q);
  }
}
