/** What every volume keeps, at every step of every run of the controller, under any faults. */
module LifecycleResults {
  import opened Lifecycle

  // -- the invariant -----------------------------------------------------------------------------

  /** The resources of one volume are all there. */
  predicate Backed(v: Volume, r: Remote) {
    && v.bucket in r.buckets
    && v.id in r.users && r.users[v.id]
    && Policy(v.id) in r.policies && r.policies[Policy(v.id)] == v.bucket
    && (v.id, Policy(v.id)) in r.grants
  }

  /** Every volume in the map has its bucket, its user with keys, its policy and its grant. */
  ghost predicate Intact(s: State) {
    forall id :: id in s.volumes ==>
                   && s.volumes[id].id == id && NamedFor(s.volumes[id].bucket, id)
                   && Backed(s.volumes[id], s.remote)
  }

  /** Different volumes have different policy names. */
  ghost predicate Apart(ids: set<string>) {
    forall a, b :: a in ids && b in ids && Policy(a) == Policy(b) ==> a == b
  }

  /** What a request takes from outside: a suffix of 16 characters, and for a deletion the bucket
      that was named for the volume. */
  ghost predicate Honest(c: Rpc) {
    match c
    case Create(q) => |q.suffix| == SUFFIX_LENGTH
    case Delete(d) => NamedFor(d.bucket, d.id)
  }

  ghost predicate Requests(ids: set<string>, rpcs: seq<Rpc>) {
    forall i :: 0 <= i < |rpcs| ==> Honest(rpcs[i]) && Target(rpcs[i]) in ids
  }

  // -- names -------------------------------------------------------------------------------------

  /** Buckets of different volumes have different names. */
  lemma BucketsDiffer(bucket: string, a: string, b: string)
    requires NamedFor(bucket, a) && NamedFor(bucket, b)
    ensures a == b
  {
    var s: string :| |s| == SUFFIX_LENGTH && bucket == BucketName(a, s);
    var t: string :| |t| == SUFFIX_LENGTH && bucket == BucketName(b, t);
    assert |a| == |bucket| - SUFFIX_LENGTH - 1 == |b|;
    assert a == bucket[..|a|] && b == bucket[..|b|];
  }

  /** A policy name is the volume's name without its dashes. */
  lemma {:induction false} PolicyDropsDashes(a: string, b: string)
    ensures Policy(a + b) == Policy(a) + Policy(b) && '-' !in Policy(a) && ('-' !in a ==> Policy(a) == a)
  {
    if a == "" {
      assert a + b == b;
    } else {
      PolicyDropsDashes(a[1..], b);
      assert (a + b)[1..] == a[1..] + b;
      assert a == [a[0]] + a[1..];
    }
  }

  /** Dashes at the same places. */
  predicate SameDashes(a: string, b: string) {
    |a| == |b| && forall i :: 0 <= i < |a| ==> (a[i] == '-' <==> b[i] == '-')
  }

  /** Names with dashes at the same places, such as those made from a UUID, have different policy
      names. */
  lemma {:induction false} PolicyInjective(a: string, b: string)
    requires SameDashes(a, b) && Policy(a) == Policy(b)
    ensures a == b
  {
    if a != "" {
      assert a[0] == '-' <==> b[0] == '-';
      var p, q := a[1..], b[1..];
      assert SameDashes(p, q) by {
        assert forall i :: 0 <= i < |p| ==> p[i] == a[i + 1] && q[i] == b[i + 1];
      }
      if a[0] != '-' {
        assert Policy(a)[0] == a[0] && Policy(b)[0] == b[0];
        assert Policy(a)[1..] == Policy(p) && Policy(b)[1..] == Policy(q);
      }
      PolicyInjective(p, q);
      assert a == [a[0]] + p && b == [b[0]] + q;
    }
  }

  // -- single steps ------------------------------------------------------------------------------

  /** The operation works on nothing but the resources of the named volume. */
  ghost predicate Own(op: Op, id: string) {
    match op
    case MakeBucket(b) => NamedFor(b, id)
    case MakeUser(u) => u == id
    case MakeKeys(u) => u == id
    case MakePolicy(p, b) => p == Policy(id)
    case Grant(u, p) => u == id
    case Revoke(u, p) => u == id
    case DropPolicy(p) => p == Policy(id)
    case DropUser(u) => u == id
    case Clean(b, left) => NamedFor(b, id)
    case DropBucket(b) => NamedFor(b, id)
  }

  /** An operation on one volume leaves the resources of every other one alone. */
  lemma OthersUntouched(op: Op, id: string, v: Volume, r: Remote)
    requires Own(op, id) && v.id != id && Policy(v.id) != Policy(id) && NamedFor(v.bucket, v.id) && Backed(v, r)
    ensures Backed(v, Apply(op, r)) && Apply(op, r).buckets[v.bucket] == r.buckets[v.bucket]
  {
    if (op.MakeBucket? || op.Clean? || op.DropBucket?) && op.bucket == v.bucket {
      BucketsDiffer(v.bucket, id, v.id);
    }
  }

  /** The step belongs to an RPC on the volume `id`, and keeps the invariant. */
  ghost predicate Safe(s: State, step: Step, id: string) {
    match step
    case Call(op, outcome) => id !in s.volumes && Own(op, id)
    case Insert(v) => v.id == id && NamedFor(v.bucket, id) && Backed(v, s.remote)
    case Remove(i) => i == id
  }

  lemma StepKeeps(s: State, step: Step, id: string, ids: set<string>)
    requires Intact(s) && Safe(s, step, id) && Apart(ids) && s.volumes.Keys <= ids && id in ids
    ensures Intact(After(s, step)) && After(s, step).volumes.Keys <= ids
  {
    var q := After(s, step);
    if step.Call? && !step.outcome.Refused? {
      forall j | j in q.volumes ensures Backed(q.volumes[j], q.remote) {
        assert j in ids && j != id;
        OthersUntouched(step.op, id, s.volumes[j], s.remote);
      }
    }
  }

  /** Every step of a list is safe where it is taken. */
  ghost predicate AllSafe(s: State, steps: seq<Step>, id: string)
    decreases |steps|
  {
    steps == [] || (Safe(s, steps[0], id) && AllSafe(After(s, steps[0]), steps[1..], id))
  }

  ghost predicate AllIntact(trace: seq<State>) { forall i :: 0 <= i < |trace| ==> Intact(trace[i]) }

  lemma {:induction false} StepsKeep(s: State, steps: seq<Step>, id: string, ids: set<string>)
    requires Intact(s) && AllSafe(s, steps, id) && Apart(ids) && s.volumes.Keys <= ids && id in ids
    ensures AllIntact(Trace(s, steps)) && Intact(Final(s, steps)) && Final(s, steps).volumes.Keys <= ids
    decreases |steps|
  {
    if steps != [] {
      StepKeeps(s, steps[0], id, ids);
      StepsKeep(After(s, steps[0]), steps[1..], id, ids);
    }
  }

  // -- the two RPCs ------------------------------------------------------------------------------

  lemma LastSafe(s: State, q: CreateRequest)
    requires q.name !in s.volumes && NamedFor(BucketOf(q), q.name) && BucketOf(q) in s.remote.buckets
    requires q.name in s.remote.users && s.remote.users[q.name]
    requires Policy(q.name) in s.remote.policies && s.remote.policies[Policy(q.name)] == BucketOf(q)
    ensures AllSafe(s, LastSteps(q), q.name)
  {
    assert LastSteps(q)[1..] == if q.grant != Done then [] else [Insert(VolumeOf(q))];
    if q.grant == Done {
      var t := After(s, LastSteps(q)[0]);
      assert Backed(VolumeOf(q), t.remote);
      assert [Insert(VolumeOf(q))][1..] == [];
    }
  }

  lemma PolicySafe(s: State, q: CreateRequest)
    requires q.name !in s.volumes && NamedFor(BucketOf(q), q.name) && BucketOf(q) in s.remote.buckets
    requires q.name in s.remote.users && s.remote.users[q.name]
    ensures AllSafe(s, PolicySteps(q), q.name)
  {
    assert PolicySteps(q)[1..] == if q.policy != Done then [] else LastSteps(q);
    if q.policy == Done {
      LastSafe(After(s, PolicySteps(q)[0]), q);
    }
  }

  lemma GrantSafe(s: State, q: CreateRequest)
    requires q.name !in s.volumes && NamedFor(BucketOf(q), q.name) && BucketOf(q) in s.remote.buckets
    ensures AllSafe(s, GrantSteps(q), q.name)
  {
    assert GrantSteps(q)[1..] == if q.user != Done then [] else KeySteps(q);
    if q.user == Done {
      var t := After(s, GrantSteps(q)[0]);
      assert KeySteps(q)[1..] == if q.keys != Done then [] else PolicySteps(q);
      if q.keys == Done {
        PolicySafe(After(t, KeySteps(q)[0]), q);
      }
    }
  }

  lemma CreateSafe(s: State, q: CreateRequest)
    requires |q.suffix| == SUFFIX_LENGTH
    ensures AllSafe(s, CreateSteps(s, q), q.name)
  {
    var steps := CreateSteps(s, q);
    assert NamedFor(BucketOf(q), q.name);
    if steps != [] {
      if BucketFound(s, q) {
        GrantSafe(s, q);
      } else if steps == [Call(MakeBucket(BucketOf(q)), q.make)] {
        assert steps[1..] == [];
      } else {
        assert steps[1..] == GrantSteps(q);
        GrantSafe(After(s, steps[0]), q);
      }
    }
  }

  ghost predicate AllOwn(steps: seq<Step>, id: string) {
    forall i :: 0 <= i < |steps| ==> steps[i].Call? && Own(steps[i].op, id)
  }

  lemma OwnCons(step: Step, rest: seq<Step>, id: string)
    requires step.Call? && Own(step.op, id) && AllOwn(rest, id)
    ensures AllOwn([step] + rest, id)
  {
  }

  lemma RevokeIsOwn(d: DeleteRequest)
    requires NamedFor(d.bucket, d.id)
    ensures AllOwn(RevokeSteps(d), d.id)
  {
    var drop := [Call(DropBucket(d.bucket), d.dropBucket)];
    assert AllOwn(drop, d.id);
    OwnCons(Call(Clean(d.bucket, d.left), d.clean), if d.clean != Done then [] else drop, d.id);
    OwnCons(Call(DropUser(d.id), d.dropUser), if d.dropUser != Done || !d.reclaim then [] else ReclaimSteps(d), d.id);
    OwnCons(Call(DropPolicy(Policy(d.id)), d.dropPolicy), if d.dropPolicy != Done then [] else DropUserSteps(d), d.id);
    OwnCons(Call(Revoke(d.id, Policy(d.id)), d.revoke), if d.revoke != Done then [] else DropSteps(d), d.id);
  }

  lemma DeleteSafe(s: State, d: DeleteRequest)
    requires NamedFor(d.bucket, d.id)
    ensures AllSafe(s, DeleteSteps(d), d.id)
  {
    if d.known {
      assert DeleteSteps(d)[1..] == RevokeSteps(d);
      RevokeIsOwn(d);
      CallsSafe(After(s, Remove(d.id)), RevokeSteps(d), d.id);
    }
  }

  /** Calls on an absent volume's own resources are safe. */
  lemma {:induction false} CallsSafe(s: State, steps: seq<Step>, id: string)
    requires id !in s.volumes && AllOwn(steps, id)
    ensures AllSafe(s, steps, id)
    decreases |steps|
  {
    if steps != [] {
      assert steps[0].Call? && Own(steps[0].op, id);
      CallsSafe(After(s, steps[0]), steps[1..], id);
    }
  }

  /** Any number of RPCs, with a fault at any call: in every state on the way, each volume in the
      map still has its bucket, its IAM user, its policy naming that bucket, and its grant. */
  lemma {:induction false} VolumesStayIntact(s: State, rpcs: seq<Rpc>, ids: set<string>)
    requires Intact(s) && s.volumes.Keys <= ids && Apart(ids) && Requests(ids, rpcs)
    ensures AllIntact(RunTrace(s, rpcs)) && Intact(RunFinal(s, rpcs)) && RunFinal(s, rpcs).volumes.Keys <= ids
    decreases |rpcs|
  {
    if rpcs != [] {
      var c := rpcs[0];
      assert Honest(c) && Target(c) in ids;
      if c.Create? {
        CreateSafe(s, c.create);
      } else {
        DeleteSafe(s, c.delete);
      }
      StepsKeep(s, Steps(s, c), Target(c), ids);
      VolumesStayIntact(Final(s, Steps(s, c)), rpcs[1..], ids);
    }
  }

  /** Names with dashes at the same places satisfy the condition on policy names. */
  lemma SameDashesApart(ids: set<string>)
    requires forall a, b :: a in ids && b in ids ==> SameDashes(a, b)
    ensures Apart(ids)
  {
    forall a, b | a in ids && b in ids && Policy(a) == Policy(b) ensures a == b {
      PolicyInjective(a, b);
    }
  }

  // -- repeated requests -------------------------------------------------------------------------

  lemma {:induction false} StepsOnOthersKeep(s: State, steps: seq<Step>, id: string)
    requires id in s.volumes
    requires forall i :: 0 <= i < |steps| ==>
                           (steps[i].Insert? ==> steps[i].volume.id != id) && (steps[i].Remove? ==> steps[i].id != id)
    ensures id in Final(s, steps).volumes && Final(s, steps).volumes[id] == s.volumes[id]
    decreases |steps|
  {
    if steps != [] {
      assert (steps[0].Insert? ==> steps[0].volume.id != id) && (steps[0].Remove? ==> steps[0].id != id);
      StepsOnOthersKeep(After(s, steps[0]), steps[1..], id);
    }
  }

  lemma GrantInserts(q: CreateRequest)
    ensures forall i :: 0 <= i < |GrantSteps(q)| ==>
              !GrantSteps(q)[i].Remove? && (GrantSteps(q)[i].Insert? ==> GrantSteps(q)[i].volume.id == q.name)
  {
  }

  lemma RpcOnOtherKeeps(s: State, c: Rpc, id: string)
    requires id in s.volumes && (c.Delete? ==> c.delete.id != id)
    ensures id in Final(s, Steps(s, c)).volumes && Final(s, Steps(s, c)).volumes[id] == s.volumes[id]
  {
    if c.Create? {
      GrantInserts(c.create);
      if c.create.name != id {
        StepsOnOthersKeep(s, Steps(s, c), id);
      }
    } else {
      StepsOnOthersKeep(s, Steps(s, c), id);
    }
  }

  /** After a volume exists, and whatever else happens short of its deletion, creating it again
      returns the same volume and makes no remote call. */
  lemma {:induction false} RepeatedCreate(s: State, rpcs: seq<Rpc>, q: CreateRequest)
    requires q.name in s.volumes && forall i :: 0 <= i < |rpcs| && rpcs[i].Delete? ==> rpcs[i].delete.id != q.name
    ensures var t := RunFinal(s, rpcs);
            q.name in t.volumes && t.volumes[q.name] == s.volumes[q.name] && CreateSteps(t, q) == []
    decreases |rpcs|
  {
    if rpcs != [] {
      assert rpcs[0].Delete? ==> rpcs[0].delete.id != q.name;
      RpcOnOtherKeeps(s, rpcs[0], q.name);
      RepeatedCreate(Final(s, Steps(s, rpcs[0])), rpcs[1..], q);
    }
  }

  // -- isolation ---------------------------------------------------------------------------------

  ghost predicate AllBacked(v: Volume, trace: seq<State>) {
    forall i :: 0 <= i < |trace| ==> Backed(v, trace[i].remote)
  }

  lemma {:induction false} SafeStepsKeepOthers(s: State, steps: seq<Step>, id: string, v: Volume)
    requires AllSafe(s, steps, id) && v.id != id && Policy(v.id) != Policy(id) && NamedFor(v.bucket, v.id)
    requires Backed(v, s.remote)
    ensures AllBacked(v, Trace(s, steps))
    decreases |steps|
  {
    if steps != [] {
      if steps[0].Call? {
        OthersUntouched(steps[0].op, id, v, s.remote);
      }
      SafeStepsKeepOthers(After(s, steps[0]), steps[1..], id, v);
    }
  }

  /** In any state at all, no RPC takes a resource away from a volume with another policy name. */
  lemma OthersKept(s: State, c: Rpc, v: Volume)
    requires Honest(c) && v.id != Target(c) && Policy(v.id) != Policy(Target(c))
    requires NamedFor(v.bucket, v.id) && Backed(v, s.remote)
    ensures AllBacked(v, Trace(s, Steps(s, c)))
  {
    if c.Create? {
      CreateSafe(s, c.create);
    } else {
      DeleteSafe(s, c.delete);
    }
    SafeStepsKeepOthers(s, Steps(s, c), Target(c), v);
  }

  /** Removing dashes can make two names alike. */
  lemma SharedPolicyExample()
    ensures "a-b" != "ab" && Policy("a-b") == Policy("ab")
  {
    assert "a-b"[1..] == "-b" && "-b"[1..] == "b" && "ab"[1..] == "b";
  }

  // -- conservation ------------------------------------------------------------------------------

  /** None of the volume's names is in use. */
  predicate Fresh(s: State, q: CreateRequest) {
    && q.name !in s.volumes && BucketOf(q) !in s.remote.buckets && q.name !in s.remote.users
    && Policy(q.name) !in s.remote.policies && (q.name, Policy(q.name)) !in s.remote.grants
  }

  /** The state with the volume and its resources. */
  function With(s: State, q: CreateRequest, objects: set<string>): State {
    State(s.volumes[q.name := VolumeOf(q)],
          Remote(s.remote.buckets[BucketOf(q) := objects], s.remote.users[q.name := true],
                 s.remote.policies[Policy(q.name) := BucketOf(q)], s.remote.grants + {(q.name, Policy(q.name))}))
  }

  lemma {:induction false} FinalCons(s: State, step: Step, steps: seq<Step>)
    ensures Final(s, [step] + steps) == Final(After(s, step), steps)
  {
    assert ([step] + steps)[1..] == steps;
  }

  lemma CreateAdds(s: State, q: CreateRequest)
    requires q.name !in s.volumes && BucketOf(q) !in s.remote.buckets && q.name !in s.remote.users && FaultFree(q)
    ensures Final(s, CreateSteps(s, q)) == With(s, q, {})
  {
    var a := After(s, Call(MakeBucket(BucketOf(q)), q.make));
    FinalCons(s, Call(MakeBucket(BucketOf(q)), q.make), GrantSteps(q));
    FinalCons(a, Call(MakeUser(q.name), q.user), KeySteps(q));
    var b := After(a, Call(MakeUser(q.name), q.user));
    FinalCons(b, Call(MakeKeys(q.name), q.keys), PolicySteps(q));
    var c := After(b, Call(MakeKeys(q.name), q.keys));
    var buckets, users := s.remote.buckets[BucketOf(q) := {}], s.remote.users[q.name := true];
    assert c == State(s.volumes, s.remote.(buckets := buckets, users := users)) by {
      assert s.remote.users[q.name := false][q.name := true] == s.remote.users[q.name := true];
    }
    PolicyAdds(c, q);
  }

  lemma PolicyAdds(s: State, q: CreateRequest)
    requires q.policy == Done && q.grant == Done
    ensures Final(s, PolicySteps(q)) ==
            State(s.volumes[q.name := VolumeOf(q)],
                  s.remote.(policies := s.remote.policies[Policy(q.name) := BucketOf(q)],
                  grants := s.remote.grants + {(q.name, Policy(q.name))}))
  {
    var make := Call(MakePolicy(Policy(q.name), BucketOf(q)), q.policy);
    var grant := Call(Grant(q.name, Policy(q.name)), q.grant);
    FinalCons(s, make, LastSteps(q));
    FinalCons(After(s, make), grant, [Insert(VolumeOf(q))]);
    FinalCons(After(After(s, make), grant), Insert(VolumeOf(q)), []);
    assert [Insert(VolumeOf(q))] + [] == [Insert(VolumeOf(q))];
  }

  /** A successful deletion takes away what the volume had: all of it, or all but the bucket. */
  lemma DeleteTakes(s: State, d: DeleteRequest)
    requires Deletes(d) && d.bucket in s.remote.buckets
    ensures Final(s, DeleteSteps(d)) ==
            State(s.volumes - {d.id},
                  Remote(if d.reclaim then s.remote.buckets - {d.bucket} else s.remote.buckets, s.remote.users - {d.id},
                         s.remote.policies - {Policy(d.id)}, s.remote.grants - {(d.id, Policy(d.id))}))
  {
    var a := After(s, Remove(d.id));
    FinalCons(s, Remove(d.id), RevokeSteps(d));
    FinalCons(a, Call(Revoke(d.id, Policy(d.id)), d.revoke), DropSteps(d));
    var b := After(a, Call(Revoke(d.id, Policy(d.id)), d.revoke));
    FinalCons(b, Call(DropPolicy(Policy(d.id)), d.dropPolicy), DropUserSteps(d));
    var c := After(b, Call(DropPolicy(Policy(d.id)), d.dropPolicy));
    FinalCons(c, Call(DropUser(d.id), d.dropUser), if d.reclaim then ReclaimSteps(d) else []);
    if d.reclaim {
      ReclaimTakes(After(c, Call(DropUser(d.id), d.dropUser)), d);
    }
  }

  lemma ReclaimTakes(s: State, d: DeleteRequest)
    requires d.clean == Done && d.dropBucket == Done && d.bucket in s.remote.buckets
    ensures Final(s, ReclaimSteps(d)) == s.(remote := s.remote.(buckets := s.remote.buckets - {d.bucket}))
  {
    var clean, drop := Call(Clean(d.bucket, d.left), d.clean), Call(DropBucket(d.bucket), d.dropBucket);
    FinalCons(s, clean, [drop]);
    FinalCons(After(s, clean), drop, []);
    assert [drop] + [] == [drop];
    assert s.remote.buckets[d.bucket := s.remote.buckets[d.bucket] * d.left] - {d.bucket} ==
           s.remote.buckets - {d.bucket};
  }

  /** Creating a volume and, after any objects were written to it, deleting it restores everything,
      or everything but the bucket when it is to be retained. */
  lemma CreateThenDelete(s: State, q: CreateRequest, objects: set<string>, d: DeleteRequest)
    requires Fresh(s, q) && FaultFree(q)
    requires d.id == q.name && d.bucket == BucketOf(q) && Deletes(d)
    ensures Final(s, CreateSteps(s, q)) == With(s, q, {})
    ensures Final(With(s, q, objects), DeleteSteps(d)) ==
            if d.reclaim then s else s.(remote := s.remote.(buckets := s.remote.buckets[BucketOf(q) := objects]))
  {
    CreateAdds(s, q);
    var t := With(s, q, objects);
    DeleteTakes(t, d);
    PutAndDrop(s.volumes, q.name, VolumeOf(q));
    PutAndDrop(s.remote.buckets, BucketOf(q), objects);
    PutAndDrop(s.remote.users, q.name, true);
    PutAndDrop(s.remote.policies, Policy(q.name), BucketOf(q));
    AddAndDrop(s.remote.grants, (q.name, Policy(q.name)));
  }

  lemma PutAndDrop<V>(m: map<string, V>, key: string, value: V)
    requires key !in m
    ensures m[key := value] - {key} == m
  {
  }

  lemma AddAndDrop<T>(xs: set<T>, x: T)
    requires x !in xs
    ensures xs + {x} - {x} == xs
  {
  }

  // -- shared policy names -----------------------------------------------------------------------

  /** A controller and an account with nothing in them. */
  function Nothing(): State { State(map[], Remote(map[], map[], map[], {})) }

  function FaultFreeCreate(name: string): CreateRequest {
    CreateRequest(
      name, 0, map[], true, seq(SUFFIX_LENGTH, _ => 'x'),
      LookAnswers, Done, LookAnswers, true, true, Done, Done, Done, Done)
  }

  lemma {:induction false} TraceEndsWithFinal(s: State, steps: seq<Step>)
    requires steps != []
    ensures Trace(s, steps) != [] && Trace(s, steps)[|Trace(s, steps)| - 1] == Final(s, steps)
    decreases |steps|
  {
    if |steps| == 1 {
      assert steps[1..] == [];
    } else {
      TraceEndsWithFinal(After(s, steps[0]), steps[1..]);
    }
  }

  /** Creating `b` makes the shared policy name the bucket of `b` only. */
  lemma SecondCreateBreaks(a: string, b: string)
    requires a != b && Policy(a) == Policy(b)
    ensures var p, q := FaultFreeCreate(a), FaultFreeCreate(b);
            var s := Final(Nothing(), CreateSteps(Nothing(), p));
            && s == With(Nothing(), p, {})
            && CreateSteps(s, q) != [] && !Backed(s.volumes[a], Final(s, CreateSteps(s, q)).remote)
  {
    var p, q := FaultFreeCreate(a), FaultFreeCreate(b);
    CreateAdds(Nothing(), p);
    var s := With(Nothing(), p, {});
    assert NamedFor(BucketOf(p), a) && NamedFor(BucketOf(q), b);
    if BucketOf(p) == BucketOf(q) {
      BucketsDiffer(BucketOf(p), a, b);
    }
    CreateAdds(s, q);
    assert Final(s, CreateSteps(s, q)).remote.policies[Policy(a)] == BucketOf(q);
  }

  /** Every run over these volumes keeps every volume intact in every state. */
  ghost predicate AlwaysIntact(ids: set<string>) {
    forall rpcs :: Requests(ids, rpcs) ==> AllIntact(RunTrace(Nothing(), rpcs))
  }

  lemma TwoRpcs(s: State, c: Rpc, d: Rpc)
    ensures var t := Final(s, Steps(s, c)); RunTrace(s, [c, d]) == Trace(s, Steps(s, c)) + Trace(t, Steps(t, d))
  {
    var t := Final(s, Steps(s, c));
    assert [c, d][1..] == [d] && [d][1..] == [];
    assert RunTrace(t, [d]) == Trace(t, Steps(t, d)) + [];
  }

  lemma SharedPolicyBreaks(ids: set<string>, a: string, b: string)
    requires a in ids && b in ids && a != b && Policy(a) == Policy(b)
    ensures !AlwaysIntact(ids)
  {
    var rpcs := [Create(FaultFreeCreate(a)), Create(FaultFreeCreate(b))];
    SecondCreateEndsBroken(a, b);
    assert Requests(ids, rpcs);
    assert !AllIntact(RunTrace(Nothing(), rpcs));
  }

  lemma SecondCreateEndsBroken(a: string, b: string)
    requires a != b && Policy(a) == Policy(b)
    ensures var trace := RunTrace(Nothing(), [Create(FaultFreeCreate(a)), Create(FaultFreeCreate(b))]);
            trace != [] && !Intact(trace[|trace| - 1])
  {
    var p, q := FaultFreeCreate(a), FaultFreeCreate(b);
    SecondCreateBreaks(a, b);
    var s := With(Nothing(), p, {});
    TwoRpcsEnd(Nothing(), p, q);
    CreateKeepsOther(s, q, a);
    assert a in Final(s, CreateSteps(s, q)).volumes;
  }

  lemma TwoRpcsEnd(s: State, p: CreateRequest, q: CreateRequest)
    requires CreateSteps(Final(s, CreateSteps(s, p)), q) != []
    ensures var t, trace := Final(s, CreateSteps(s, p)), RunTrace(s, [Create(p), Create(q)]);
            trace != [] && trace[|trace| - 1] == Final(t, CreateSteps(t, q))
  {
    var t := Final(s, CreateSteps(s, p));
    TwoRpcs(s, Create(p), Create(q));
    TraceEndsWithFinal(t, CreateSteps(t, q));
  }

  lemma CreateKeepsOther(s: State, q: CreateRequest, a: string)
    requires a in s.volumes && q.name != a
    ensures a in Final(s, CreateSteps(s, q)).volumes && Final(s, CreateSteps(s, q)).volumes[a] == s.volumes[a]
  {
    RpcOnOtherKeeps(s, Create(q), a);
  }

  /** Runs keep all volumes intact exactly when no two of them share a policy name. */
  lemma AlwaysIntactExactly(ids: set<string>)
    ensures AlwaysIntact(ids) <==> Apart(ids)
  {
    if Apart(ids) {
      forall rpcs | Requests(ids, rpcs) ensures AllIntact(RunTrace(Nothing(), rpcs)) {
        VolumesStayIntact(Nothing(), rpcs, ids);
      }
    } else {
      var a, b :| a in ids && b in ids && Policy(a) == Policy(b) && a != b;
      SharedPolicyBreaks(ids, a, b);
    }
  }

  /** After any run on the two volumes, no RPC on volume `b` takes a resource away from `a`. */
  ghost predicate Isolated(a: string, b: string) {
    forall rpcs, c ::
      Requests({a, b}, rpcs) && a in RunFinal(Nothing(), rpcs).volumes && Honest(c) && Target(c) == b ==>
        KeepsFrom(RunFinal(Nothing(), rpcs), c, a)
  }

  ghost predicate KeepsFrom(s: State, c: Rpc, a: string)
    requires a in s.volumes
  {
    AllBacked(s.volumes[a], Trace(s, Steps(s, c)))
  }

  /** Volumes are isolated from each other exactly when their policy names differ. */
  lemma IsolationExactly(a: string, b: string)
    requires a != b
    ensures Isolated(a, b) <==> Policy(a) != Policy(b)
  {
    if Policy(a) == Policy(b) {
      NotIsolated(a, b);
    } else {
      forall rpcs, c | Requests({a, b}, rpcs) && a in RunFinal(Nothing(), rpcs).volumes && Honest(c) && Target(c) == b
        ensures KeepsFrom(RunFinal(Nothing(), rpcs), c, a)
      {
        VolumesStayIntact(Nothing(), rpcs, {a, b});
        OthersKept(RunFinal(Nothing(), rpcs), c, RunFinal(Nothing(), rpcs).volumes[a]);
      }
    }
  }

  lemma NotIsolated(a: string, b: string)
    requires a != b && Policy(a) == Policy(b)
    ensures !Isolated(a, b)
  {
    var p, q := FaultFreeCreate(a), FaultFreeCreate(b);
    SecondCreateBreaks(a, b);
    var rpcs := [Create(p)];
    var s := With(Nothing(), p, {});
    assert rpcs[1..] == [];
    assert RunFinal(Nothing(), rpcs) == s;
    TraceEndsWithFinal(s, CreateSteps(s, q));
    assert Requests({a, b}, rpcs) && Honest(Create(q)) && Target(Create(q)) == b;
    assert !KeepsFrom(s, Create(q), a);
  }
}
