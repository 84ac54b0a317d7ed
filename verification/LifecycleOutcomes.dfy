/** What CreateVolume and DeleteVolume leave behind, whichever of their calls fail: both stop at the
    first call that is not done (plugin/kodo_controller_server.go:45-259). */
module LifecycleOutcomes {
  import opened Lifecycle
  import opened LifecycleResults

  // -- stopping ----------------------------------------------------------------------------------

  predicate Failed(step: Step) { step.Call? && step.outcome != Done }

  /** After a failed call no further step is taken. */
  ghost predicate StopsAtFailure(steps: seq<Step>) { forall i :: 0 <= i < |steps| - 1 ==> !Failed(steps[i]) }

  /** `steps` goes through `plan` up to its first failed call, or to its end. */
  ghost predicate FollowsUntilFailure(plan: seq<Step>, steps: seq<Step>) {
    && steps <= plan && StopsAtFailure(steps)
    && (steps == plan || (steps != [] && Failed(steps[|steps| - 1])))
  }

  lemma FollowsCons(step: Step, plan: seq<Step>, steps: seq<Step>)
    requires Failed(step) ==> steps == []
    requires !Failed(step) ==> FollowsUntilFailure(plan, steps)
    ensures FollowsUntilFailure([step] + plan, [step] + steps)
  {
    var longer := [step] + steps;
    forall i | 0 <= i < |longer| - 1 ensures !Failed(longer[i]) {
      assert i > 0 ==> longer[i] == steps[i - 1];
    }
    if steps != [] {
      assert longer[|longer| - 1] == steps[|steps| - 1];
    }
  }

  /** All calls of a deletion. */
  function DeletionPlan(d: DeleteRequest): seq<Step> {
    var access := [
      Remove(d.id), Call(Revoke(d.id, Policy(d.id)), d.revoke), Call(DropPolicy(Policy(d.id)), d.dropPolicy),
      Call(DropUser(d.id), d.dropUser)
    ];
    if d.reclaim then access + [Call(Clean(d.bucket, d.left), d.clean), Call(DropBucket(d.bucket), d.dropBucket)]
    else access
  }

  /** A deletion makes its calls in this order, up to the first that fails. */
  lemma DeletionStops(d: DeleteRequest)
    ensures if d.known then FollowsUntilFailure(DeletionPlan(d), DeleteSteps(d)) else DeleteSteps(d) == []
  {
    if d.known {
      var drop := [Call(DropBucket(d.bucket), d.dropBucket)];
      var reclaim := if d.reclaim then [Call(Clean(d.bucket, d.left), d.clean)] + drop else [];
      assert FollowsUntilFailure(drop, drop);
      FollowsCons(Call(Clean(d.bucket, d.left), d.clean), drop, if d.clean != Done then [] else drop);
      FollowsCons(Call(DropUser(d.id), d.dropUser), reclaim,
                  if d.dropUser != Done || !d.reclaim then [] else ReclaimSteps(d));
      var users := [Call(DropUser(d.id), d.dropUser)] + reclaim;
      FollowsCons(Call(DropPolicy(Policy(d.id)), d.dropPolicy), users,
                  if d.dropPolicy != Done then [] else DropUserSteps(d));
      var policies := [Call(DropPolicy(Policy(d.id)), d.dropPolicy)] + users;
      FollowsCons(Call(Revoke(d.id, Policy(d.id)), d.revoke), policies, if d.revoke != Done then [] else DropSteps(d));
      FollowsCons(Remove(d.id), [Call(Revoke(d.id, Policy(d.id)), d.revoke)] + policies, RevokeSteps(d));
      assert DeletionPlan(d) == [Remove(d.id)] + ([Call(Revoke(d.id, Policy(d.id)), d.revoke)] + policies);
    }
  }

  /** All calls that give a new volume its user, and its insertion. */
  function AccessPlan(q: CreateRequest): seq<Step> {
    [
      Call(MakeUser(q.name), q.user), Call(MakeKeys(q.name), q.keys),
      Call(MakePolicy(Policy(q.name), q.name + "-" + q.suffix), q.policy), Call(Grant(q.name, Policy(q.name)), q.grant),
      Insert(Volume(q.name, q.capacity, q.name + "-" + q.suffix, q.context))
    ]
  }

  lemma AccessStops(q: CreateRequest)
    ensures FollowsUntilFailure(AccessPlan(q), GrantSteps(q))
  {
    var insert := [Insert(VolumeOf(q))];
    assert FollowsUntilFailure(insert, insert);
    FollowsCons(Call(Grant(q.name, Policy(q.name)), q.grant), insert, if q.grant != Done then [] else insert);
    var grant := [Call(Grant(q.name, Policy(q.name)), q.grant)] + insert;
    var make := Call(MakePolicy(Policy(q.name), BucketOf(q)), q.policy);
    FollowsCons(make, grant, if q.policy != Done then [] else LastSteps(q));
    var policy := [make] + grant;
    FollowsCons(Call(MakeKeys(q.name), q.keys), policy, if q.keys != Done then [] else PolicySteps(q));
    var keys := [Call(MakeKeys(q.name), q.keys)] + policy;
    FollowsCons(Call(MakeUser(q.name), q.user), keys, if q.user != Done then [] else KeySteps(q));
    assert AccessPlan(q) == [Call(MakeUser(q.name), q.user)] + keys;
  }

  /** The request is for a new volume, has acceptable parameters, and its bucket could be looked up. */
  predicate Begins(s: State, q: CreateRequest) { q.name !in s.volumes && q.accepted && !q.find.LookFails? }

  /** The bucket that the request names was there. */
  predicate Reuses(s: State, q: CreateRequest) { q.find.LookAnswers? && q.name + "-" + q.suffix in s.remote.buckets }

  /** The bucket is there, and so is all that has to be looked up for it. */
  predicate Located(s: State, q: CreateRequest) {
    (Reuses(s, q) || (q.make == Done && q.findAgain.LookAnswers?)) && q.endpoint && q.s3Region
  }

  /** A creation makes its calls in this order, up to the first that fails, unless a lookup stops it. */
  lemma CreationStops(s: State, q: CreateRequest)
    ensures StopsAtFailure(CreateSteps(s, q))
    ensures var make := [Call(MakeBucket(q.name + "-" + q.suffix), q.make)];
            var plan := if Reuses(s, q) then [] else make;
            if !Begins(s, q) then CreateSteps(s, q) == []
            else if !Located(s, q) then CreateSteps(s, q) == plan
            else FollowsUntilFailure(plan + AccessPlan(q), CreateSteps(s, q))
  {
    AccessStops(q);
    if Begins(s, q) && !Reuses(s, q) {
      FollowsCons(Call(MakeBucket(BucketOf(q)), q.make), AccessPlan(q), if q.make != Done then [] else GrantSteps(q));
    }
    if Begins(s, q) && Reuses(s, q) {
      assert [] + AccessPlan(q) == AccessPlan(q);
    }
  }

  // -- what is left ------------------------------------------------------------------------------

  function Without<K, V>(m: map<K, V>, k: K, gone: bool): map<K, V> { if gone then m - {k} else m }

  /** The deletion gets as far as cleaning the bucket. */
  predicate Reclaiming(d: DeleteRequest) {
    d.known && d.revoke == Done && d.dropPolicy == Done && d.dropUser == Done && d.reclaim
  }

  /** The buckets after a deletion: the volume's own is cleaned when all calls before were done, and
      dropped when cleaning it was done too. */
  function BucketsLeft(buckets: map<string, set<string>>, d: DeleteRequest): map<string, set<string>> {
    if !Reclaiming(d) || d.clean == Refused then buckets
    else if d.clean == Done && d.dropBucket != Refused then buckets - {d.bucket}
    else if d.bucket in buckets then buckets[d.bucket := buckets[d.bucket] * d.left]
    else buckets
  }

  lemma ReclaimLeaves(s: State, d: DeleteRequest)
    requires Reclaiming(d)
    ensures Final(s, ReclaimSteps(d)) == s.(remote := s.remote.(buckets := BucketsLeft(s.remote.buckets, d)))
  {
    var clean, drop := Call(Clean(d.bucket, d.left), d.clean), Call(DropBucket(d.bucket), d.dropBucket);
    FinalCons(s, clean, if d.clean != Done then [] else [drop]);
    FinalCons(After(s, clean), drop, []);
    assert [drop] + [] == [drop];
    if d.bucket in s.remote.buckets {
      assert s.remote.buckets[d.bucket := s.remote.buckets[d.bucket] * d.left] - {d.bucket} ==
             s.remote.buckets - {d.bucket};
    }
  }

  /** What a deletion leaves, whichever of its calls fail: each resource is taken away exactly when all
      earlier calls were done and its own was not refused. */
  lemma DeletionLeaves(s: State, d: DeleteRequest)
    ensures var t := Final(s, DeleteSteps(d));
            && t.volumes == Without(s.volumes, d.id, d.known)
            && t.remote.grants ==
               (if d.known && d.revoke != Refused then s.remote.grants - {(d.id, Policy(d.id))} else s.remote.grants)
            && t.remote.policies ==
               Without(s.remote.policies, Policy(d.id), d.known && d.revoke == Done && d.dropPolicy != Refused)
            && t.remote.users ==
               Without(s.remote.users, d.id,
                       d.known && d.revoke == Done && d.dropPolicy == Done && d.dropUser != Refused)
            && t.remote.buckets == BucketsLeft(s.remote.buckets, d)
  {
    if d.known {
      var a := After(s, Remove(d.id));
      FinalCons(s, Remove(d.id), RevokeSteps(d));
      FinalCons(a, Call(Revoke(d.id, Policy(d.id)), d.revoke), if d.revoke != Done then [] else DropSteps(d));
      var b := After(a, Call(Revoke(d.id, Policy(d.id)), d.revoke));
      FinalCons(b, Call(DropPolicy(Policy(d.id)), d.dropPolicy), if d.dropPolicy != Done then [] else DropUserSteps(d));
      var c := After(b, Call(DropPolicy(Policy(d.id)), d.dropPolicy));
      FinalCons(c, Call(DropUser(d.id), d.dropUser),
                if d.dropUser != Done || !d.reclaim then [] else ReclaimSteps(d));
      if Reclaiming(d) {
        ReclaimLeaves(After(c, Call(DropUser(d.id), d.dropUser)), d);
      }
    }
  }

  /** A bucket goes only under the reclaim policy Delete, after every other call of the deletion was
      done; before it is cleaned it keeps all its objects. */
  lemma BucketGoesExactly(s: State, d: DeleteRequest)
    requires d.bucket in s.remote.buckets
    ensures var t := Final(s, DeleteSteps(d)).remote.buckets;
            && (d.bucket !in t <==>
                && d.known && d.reclaim && d.revoke == Done && d.dropPolicy == Done && d.dropUser == Done
                && d.clean == Done && d.dropBucket != Refused)
            && (d.revoke != Done || d.dropPolicy != Done || d.dropUser != Done || d.clean == Refused ==>
                  d.bucket in t && t[d.bucket] == s.remote.buckets[d.bucket])
            && (d.bucket in t ==> s.remote.buckets[d.bucket] * d.left <= t[d.bucket] <= s.remote.buckets[d.bucket])
            && (forall b :: b in s.remote.buckets && b != d.bucket ==> b in t && t[b] == s.remote.buckets[b])
  {
    DeletionLeaves(s, d);
  }

  lemma LastLeaves(s: State, q: CreateRequest)
    ensures Final(s, LastSteps(q)) ==
            State(if q.grant == Done then s.volumes[q.name := VolumeOf(q)] else s.volumes,
                  s.remote.(grants :=
                  if q.grant != Refused then s.remote.grants + {(q.name, Policy(q.name))} else s.remote.grants))
  {
    var grant, insert := Call(Grant(q.name, Policy(q.name)), q.grant), Insert(VolumeOf(q));
    FinalCons(s, grant, if q.grant != Done then [] else [insert]);
    FinalCons(After(s, grant), insert, []);
    assert [insert] + [] == [insert];
  }

  /** What a creation leaves, whichever of its calls and lookups fail. */
  lemma CreationLeaves(s: State, q: CreateRequest)
    ensures var t, bucket := Final(s, CreateSteps(s, q)), q.name + "-" + q.suffix;
            var located := Begins(s, q) && Located(s, q);
            var keyed := located && q.user == Done && q.keys == Done;
            && t.remote.buckets ==
               (if Begins(s, q) && !Reuses(s, q) && q.make != Refused && bucket !in s.remote.buckets
                then s.remote.buckets[bucket := {}] else s.remote.buckets)
            && t.remote.users == UsersLeft(s.remote.users, q, located)
            && t.remote.policies ==
               (if keyed && q.policy != Refused then s.remote.policies[Policy(q.name) := bucket] else s.remote.policies)
            && t.remote.grants ==
               (if keyed && q.policy == Done && q.grant != Refused then s.remote.grants + {(q.name, Policy(q.name))}
                else s.remote.grants)
            && t.volumes ==
               (if keyed && q.policy == Done && q.grant == Done
                then s.volumes[q.name := Volume(q.name, q.capacity, bucket, q.context)] else s.volumes)
  {
    if Begins(s, q) {
      var make := Call(MakeBucket(BucketOf(q)), q.make);
      var a := if Reuses(s, q) then s else After(s, make);
      FinalCons(s, make, if Located(s, q) then GrantSteps(q) else []);
      assert [make] + [] == [make];
      if Located(s, q) {
        AccessLeaves(a, q);
      }
    }
  }

  /** The users after a creation: the new one has keys when making them was not refused. */
  function UsersLeft(users: map<string, bool>, q: CreateRequest, located: bool): map<string, bool> {
    if !located || q.user == Refused then users
    else if q.user == Done && q.keys != Refused then users[q.name := true]
    else if q.name in users then users
    else users[q.name := false]
  }

  lemma UserLeaves(s: State, q: CreateRequest)
    ensures var t := After(s, Call(MakeUser(q.name), q.user));
            var u := if q.user == Done then After(t, Call(MakeKeys(q.name), q.keys)) else t;
            u == s.(remote := s.remote.(users := UsersLeft(s.remote.users, q, true)))
  {
    assert s.remote.users[q.name := false][q.name := true] == s.remote.users[q.name := true];
  }

  lemma PolicyLeaves(s: State, q: CreateRequest)
    ensures var t := Final(s, PolicySteps(q));
            && t.remote.buckets == s.remote.buckets && t.remote.users == s.remote.users
            && t.remote.policies ==
               (if q.policy != Refused then s.remote.policies[Policy(q.name) := BucketOf(q)] else s.remote.policies)
            && t.remote.grants ==
               (if q.policy == Done && q.grant != Refused then s.remote.grants + {(q.name, Policy(q.name))}
                else s.remote.grants)
            && t.volumes ==
               (if q.policy == Done && q.grant == Done then s.volumes[q.name := VolumeOf(q)] else s.volumes)
  {
    var make := Call(MakePolicy(Policy(q.name), BucketOf(q)), q.policy);
    FinalCons(s, make, if q.policy != Done then [] else LastSteps(q));
    LastLeaves(After(s, make), q);
  }

  lemma AccessLeaves(s: State, q: CreateRequest)
    ensures var t, keyed := Final(s, GrantSteps(q)), q.user == Done && q.keys == Done;
            && t.remote.buckets == s.remote.buckets
            && t.remote.users == UsersLeft(s.remote.users, q, true)
            && t.remote.policies ==
               (if keyed && q.policy != Refused then s.remote.policies[Policy(q.name) := BucketOf(q)]
                else s.remote.policies)
            && t.remote.grants ==
               (if keyed && q.policy == Done && q.grant != Refused then s.remote.grants + {(q.name, Policy(q.name))}
                else s.remote.grants)
            && t.volumes ==
               (if keyed && q.policy == Done && q.grant == Done then s.volumes[q.name := VolumeOf(q)] else s.volumes)
  {
    FinalCons(s, Call(MakeUser(q.name), q.user), if q.user != Done then [] else KeySteps(q));
    var b := After(s, Call(MakeUser(q.name), q.user));
    FinalCons(b, Call(MakeKeys(q.name), q.keys), if q.keys != Done then [] else PolicySteps(q));
    UserLeaves(s, q);
    PolicyLeaves(After(b, Call(MakeKeys(q.name), q.keys)), q);
  }
}
