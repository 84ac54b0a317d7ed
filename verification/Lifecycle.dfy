/** The Kodo controller's volumes and the remote resources behind them, changed by CreateVolume and
    DeleteVolume one remote call at a time (plugin/kodo_controller_server.go:45-259). */
module Lifecycle {

  // -- the remote side ---------------------------------------------------------------------------

  /** The account: buckets with their objects, IAM users (with or without a key pair), policies with
      the bucket they name, and grants of policies to users. */
  datatype Remote = Remote(
    buckets: map<string, set<string>>, users: map<string, bool>, policies: map<string, string>,
    grants: set<(string, string)>)

  datatype Op =
    | MakeBucket(bucket: string) | MakeUser(user: string) | MakeKeys(user: string)
    | MakePolicy(policy: string, bucket: string) | Grant(user: string, policy: string)
    | Revoke(user: string, policy: string) | DropPolicy(policy: string) | DropUser(user: string)
    | Clean(bucket: string, left: set<string>) | DropBucket(bucket: string)

  /** How a call ends: done; lost, when it took effect but is reported as failed; or refused. */
  datatype Outcome = Done | Lost | Refused

  /** The effect of a call that the server carries out. Cleaning a bucket may leave objects behind, even
      when it is done without an error. */
  function Apply(op: Op, r: Remote): Remote {
    match op
    case MakeBucket(b) => if b in r.buckets then r else r.(buckets := r.buckets[b := {}])
    case MakeUser(u) => if u in r.users then r else r.(users := r.users[u := false])
    case MakeKeys(u) => if u in r.users then r.(users := r.users[u := true]) else r
    case MakePolicy(p, b) => r.(policies := r.policies[p := b])
    case Grant(u, p) => r.(grants := r.grants + {(u, p)})
    case Revoke(u, p) => r.(grants := r.grants - {(u, p)})
    case DropPolicy(p) => r.(policies := r.policies - {p})
    case DropUser(u) => r.(users := r.users - {u})
    case Clean(b, left) => if b in r.buckets then r.(buckets := r.buckets[b := r.buckets[b] * left]) else r
    case DropBucket(b) => r.(buckets := r.buckets - {b})
  }

  // -- names -------------------------------------------------------------------------------------

  /** normalizePolicyName: the name without its dashes (plugin/utils.go:499-501). */
  function Policy(name: string): string {
    if name == "" then ""
    else if name[0] == '-' then Policy(name[1..])
    else [name[0]] + Policy(name[1..])
  }

  const SUFFIX_LENGTH: nat := 16

  function BucketName(name: string, suffix: string): string { name + "-" + suffix }

  /** The bucket was named for this volume. */
  ghost predicate NamedFor(bucket: string, name: string) {
    exists suffix: string :: |suffix| == SUFFIX_LENGTH && bucket == BucketName(name, suffix)
  }

  // -- the controller's state and its steps ------------------------------------------------------

  datatype Volume = Volume(id: string, capacity: int, bucket: string, context: map<string, string>)

  datatype State = State(volumes: map<string, Volume>, remote: Remote)

  /** The smallest steps of an RPC: a remote call, or a change of the volumes map. */
  datatype Step = Call(op: Op, outcome: Outcome) | Insert(volume: Volume) | Remove(id: string)

  function After(s: State, step: Step): State {
    match step
    case Call(op, outcome) => if outcome.Refused? then s else s.(remote := Apply(op, s.remote))
    case Insert(v) => s.(volumes := s.volumes[v.id := v])
    case Remove(id) => s.(volumes := s.volumes - {id})
  }

  /** All states that an RPC goes through, the first one excluded. */
  function Trace(s: State, steps: seq<Step>): seq<State>
    decreases |steps|
  {
    if steps == [] then [] else [After(s, steps[0])] + Trace(After(s, steps[0]), steps[1..])
  }

  function Final(s: State, steps: seq<Step>): State
    decreases |steps|
  {
    if steps == [] then s else Final(After(s, steps[0]), steps[1..])
  }

  lemma {:induction false} OneMore(s: State, steps: seq<Step>, step: Step)
    ensures Final(s, steps + [step]) == After(Final(s, steps), step)
    ensures Trace(s, steps + [step]) == Trace(s, steps) + [After(Final(s, steps), step)]
    decreases |steps|
  {
    var longer := steps + [step];
    if steps == [] {
      assert longer[1..] == [];
    } else {
      assert longer[0] == steps[0] && longer[1..] == steps[1..] + [step];
      OneMore(After(s, steps[0]), steps[1..], step);
    }
  }

  // -- CreateVolume ------------------------------------------------------------------------------

  /** An answer to a lookup: an error, nothing found, or what is there. */
  datatype Look = LookFails | LookMisses | LookAnswers

  /** A request with everything that it meets on its way; `context` is what is published for the
      accepted parameters. */
  datatype CreateRequest = CreateRequest(
    name: string, capacity: int, context: map<string, string>, accepted: bool, suffix: string,
    find: Look, make: Outcome, findAgain: Look,
    endpoint: bool, s3Region: bool, user: Outcome, keys: Outcome, policy: Outcome, grant: Outcome)

  function BucketOf(q: CreateRequest): string { BucketName(q.name, q.suffix) }

  function VolumeOf(q: CreateRequest): Volume { Volume(q.name, q.capacity, BucketOf(q), q.context) }

  /** The calls that set up the IAM user, and the insertion that ends a successful RPC. */
  function GrantSteps(q: CreateRequest): seq<Step> {
    [Call(MakeUser(q.name), q.user)] + if q.user != Done then [] else KeySteps(q)
  }

  function KeySteps(q: CreateRequest): seq<Step> {
    [Call(MakeKeys(q.name), q.keys)] + if q.keys != Done then [] else PolicySteps(q)
  }

  function PolicySteps(q: CreateRequest): seq<Step> {
    [Call(MakePolicy(Policy(q.name), BucketOf(q)), q.policy)] + if q.policy != Done then [] else LastSteps(q)
  }

  function LastSteps(q: CreateRequest): seq<Step> {
    [Call(Grant(q.name, Policy(q.name)), q.grant)] + if q.grant != Done then [] else [Insert(VolumeOf(q))]
  }

  predicate BucketFound(s: State, q: CreateRequest) { q.find.LookAnswers? && BucketOf(q) in s.remote.buckets }

  function CreateSteps(s: State, q: CreateRequest): seq<Step> {
    if q.name in s.volumes || !q.accepted || q.find.LookFails? then []
    else if BucketFound(s, q) then
      if q.endpoint && q.s3Region then GrantSteps(q) else []
    else
      var make := [Call(MakeBucket(BucketOf(q)), q.make)];
      if q.make != Done || !q.findAgain.LookAnswers? || !q.endpoint || !q.s3Region then make else make + GrantSteps(q)
  }

  predicate FaultFree(q: CreateRequest) {
    && q.accepted && q.find.LookAnswers? && q.findAgain.LookAnswers? && q.endpoint && q.s3Region
    && q.make == Done && q.user == Done && q.keys == Done && q.policy == Done && q.grant == Done
  }

  // -- DeleteVolume ------------------------------------------------------------------------------

  /** `known` says that Kubernetes has the volume and its attributes parse; `bucket` is the bucket
      that they name; `reclaim` says that the reclaim policy is Delete. */
  datatype DeleteRequest = DeleteRequest(
    id: string, known: bool, bucket: string, reclaim: bool,
    revoke: Outcome, dropPolicy: Outcome, dropUser: Outcome, clean: Outcome, left: set<string>, dropBucket: Outcome)

  function RevokeSteps(d: DeleteRequest): seq<Step> {
    [Call(Revoke(d.id, Policy(d.id)), d.revoke)] + if d.revoke != Done then [] else DropSteps(d)
  }

  function DropSteps(d: DeleteRequest): seq<Step> {
    [Call(DropPolicy(Policy(d.id)), d.dropPolicy)] + if d.dropPolicy != Done then [] else DropUserSteps(d)
  }

  function DropUserSteps(d: DeleteRequest): seq<Step> {
    [Call(DropUser(d.id), d.dropUser)] + if d.dropUser != Done || !d.reclaim then [] else ReclaimSteps(d)
  }

  function ReclaimSteps(d: DeleteRequest): seq<Step> {
    [Call(Clean(d.bucket, d.left), d.clean)] +
    if d.clean != Done then [] else [Call(DropBucket(d.bucket), d.dropBucket)]
  }

  function DeleteSteps(d: DeleteRequest): seq<Step> { if !d.known then [] else [Remove(d.id)] + RevokeSteps(d) }

  predicate Reclaims(d: DeleteRequest) { d.reclaim ==> d.clean == Done && d.dropBucket == Done }

  /** The RPC reports success. */
  predicate Deletes(d: DeleteRequest) {
    d.known && d.revoke == Done && d.dropPolicy == Done && d.dropUser == Done && Reclaims(d)
  }

  // -- runs --------------------------------------------------------------------------------------

  datatype Rpc = Create(create: CreateRequest) | Delete(delete: DeleteRequest)

  function Target(c: Rpc): string { if c.Create? then c.create.name else c.delete.id }

  function Steps(s: State, c: Rpc): seq<Step> { if c.Create? then CreateSteps(s, c.create) else DeleteSteps(c.delete) }

  /** All states that a sequence of RPCs goes through. The lock lets no two of them overlap. */
  function RunTrace(s: State, rpcs: seq<Rpc>): seq<State>
    decreases |rpcs|
  {
    if rpcs == [] then []
    else Trace(s, Steps(s, rpcs[0])) + RunTrace(Final(s, Steps(s, rpcs[0])), rpcs[1..])
  }

  function RunFinal(s: State, rpcs: seq<Rpc>): State
    decreases |rpcs|
  {
    if rpcs == [] then s else RunFinal(Final(s, Steps(s, rpcs[0])), rpcs[1..])
  }

  // -- the controller ----------------------------------------------------------------------------

  datatype Response<T> = Ok(value: T) | Error

  class Controller {
    var volumes: map<string, Volume>
    var remote: Remote
    ghost var trace: seq<State>

    function Current(): State
      reads this
    {
      State(volumes, remote)
    }

    constructor (account: Remote)
      ensures volumes == map[] && remote == account && trace == []
    {
      volumes, remote, trace := map[], account, [];
    }

    /** The object went through `done` from the state `s`; its trace had been `t`. */
    ghost predicate At(s: State, t: seq<State>, done: seq<Step>)
      reads this
    {
      Current() == Final(s, done) && trace == t + Trace(s, done)
    }

    /** One remote call, reported as successful or not. */
    method Invoke(op: Op, outcome: Outcome, ghost s: State, ghost t: seq<State>, ghost done: seq<Step>)
      returns (ok: bool)
      requires At(s, t, done)
      modifies this`remote, this`trace
      ensures At(s, t, done + [Call(op, outcome)]) && ok == outcome.Done?
    {
      OneMore(s, done, Call(op, outcome));
      if !outcome.Refused? {
        remote := Apply(op, remote);
      }
      trace := trace + [Current()];
      ok := outcome.Done?;
    }

    /** A repeated request is answered from the map, without a remote call. */
    method CreateVolume(q: CreateRequest) returns (r: Response<Volume>)
      modifies this
      ensures At(old(Current()), old(trace), CreateSteps(old(Current()), q))
      ensures r == if q.name in volumes then Ok(volumes[q.name]) else Error
      ensures r.Ok? && q.name !in old(volumes) ==>
                r.value == Volume(q.name, q.capacity, q.name + "-" + q.suffix, q.context)
    {
      ghost var s, t := Current(), trace;
      if q.name in volumes {
        return Ok(volumes[q.name]);
      }
      if !q.accepted || q.find.LookFails? {
        return Error;
      }
      var bucket := BucketName(q.name, q.suffix);
      ghost var done: seq<Step> := [];
      if !(q.find.LookAnswers? && bucket in remote.buckets) {
        var made := Invoke(MakeBucket(bucket), q.make, s, t, done);
        done := Regroup([], done, Call(MakeBucket(bucket), q.make));
        assert done == [Call(MakeBucket(BucketOf(q)), q.make)];
        if !made || !q.findAgain.LookAnswers? {
          return Error;
        }
      }
      if !q.endpoint || !q.s3Region {
        return Error;
      }
      assert done + GrantSteps(q) == CreateSteps(s, q);
      r := GrantAccess(q, s, t, done);
    }

    /** The volume leaves the map before any remote resource is touched. */
    method DeleteVolume(d: DeleteRequest) returns (r: Response<()>)
      modifies this
      ensures At(old(Current()), old(trace), DeleteSteps(d))
      ensures d.known ==> d.id !in volumes
      ensures r == if Deletes(d) then Ok(()) else Error
    {
      ghost var s, t := Current(), trace;
      if !d.known {
        return Error;
      }
      OneMore(s, [], Remove(d.id));
      volumes := volumes - {d.id};
      trace := trace + [Current()];
      ghost var done := Regroup([], [], Remove(d.id));
      r := RevokeAccess(d, s, t, done);
    }

    /** The remote calls of DeleteVolume. */
    method RevokeAccess(d: DeleteRequest, ghost s: State, ghost t: seq<State>, ghost done: seq<Step>)
      returns (r: Response<()>)
      requires At(s, t, done) && d.known
      modifies this`remote, this`trace
      ensures At(s, t, done + RevokeSteps(d))
      ensures r == if Deletes(d) then Ok(()) else Error
    {
      ghost var more := [Call(Revoke(d.id, Policy(d.id)), d.revoke)];
      var ok := Invoke(Revoke(d.id, Policy(d.id)), d.revoke, s, t, done);
      if !ok {
        assert more == RevokeSteps(d);
        return Error;
      }
      ok := Invoke(DropPolicy(Policy(d.id)), d.dropPolicy, s, t, done + more);
      more := Regroup(done, more, Call(DropPolicy(Policy(d.id)), d.dropPolicy));
      if !ok {
        assert more == RevokeSteps(d);
        return Error;
      }
      ok := Invoke(DropUser(d.id), d.dropUser, s, t, done + more);
      more := Regroup(done, more, Call(DropUser(d.id), d.dropUser));
      if !ok {
        assert more == RevokeSteps(d);
        return Error;
      }
      if !d.reclaim {
        assert more == RevokeSteps(d);
        return Ok(());
      }
      assert done + more + ReclaimSteps(d) == done + RevokeSteps(d);
      r := Reclaim(d, s, t, done + more);
    }

    /** The bucket goes only under the reclaim policy Delete. */
    method Reclaim(d: DeleteRequest, ghost s: State, ghost t: seq<State>, ghost done: seq<Step>)
      returns (r: Response<()>)
      requires At(s, t, done) && d.reclaim
      modifies this`remote, this`trace
      ensures At(s, t, done + ReclaimSteps(d))
      ensures r == if Reclaims(d) then Ok(()) else Error
    {
      ghost var more := [Call(Clean(d.bucket, d.left), d.clean)];
      var ok := Invoke(Clean(d.bucket, d.left), d.clean, s, t, done);
      if !ok {
        assert more == ReclaimSteps(d);
        return Error;
      }
      ok := Invoke(DropBucket(d.bucket), d.dropBucket, s, t, done + more);
      more := Regroup(done, more, Call(DropBucket(d.bucket), d.dropBucket));
      assert more == ReclaimSteps(d);
      return if ok then Ok(()) else Error;
    }

    /** The second half of CreateVolume. */
    method GrantAccess(q: CreateRequest, ghost s: State, ghost t: seq<State>, ghost done: seq<Step>)
      returns (r: Response<Volume>)
      requires At(s, t, done) && q.name !in volumes
      modifies this
      ensures At(s, t, done + GrantSteps(q))
      ensures r == if q.name in volumes then Ok(volumes[q.name]) else Error
      ensures r.Ok? ==> r.value == Volume(q.name, q.capacity, q.name + "-" + q.suffix, q.context)
    {
      ghost var more := [Call(MakeUser(q.name), q.user)];
      var ok := Invoke(MakeUser(q.name), q.user, s, t, done);
      if !ok {
        assert more == GrantSteps(q);
        return Error;
      }
      ok := Invoke(MakeKeys(q.name), q.keys, s, t, done + more);
      more := Regroup(done, more, Call(MakeKeys(q.name), q.keys));
      if !ok {
        assert more == GrantSteps(q);
        return Error;
      }
      assert done + more + PolicySteps(q) == done + GrantSteps(q);
      r := AttachPolicy(q, s, t, done + more);
    }

    method AttachPolicy(q: CreateRequest, ghost s: State, ghost t: seq<State>, ghost done: seq<Step>)
      returns (r: Response<Volume>)
      requires At(s, t, done) && q.name !in volumes
      modifies this
      ensures At(s, t, done + PolicySteps(q))
      ensures r == if q.name in volumes then Ok(volumes[q.name]) else Error
      ensures r.Ok? ==> r.value == Volume(q.name, q.capacity, q.name + "-" + q.suffix, q.context)
    {
      ghost var more := [Call(MakePolicy(Policy(q.name), BucketOf(q)), q.policy)];
      var ok := Invoke(MakePolicy(Policy(q.name), BucketName(q.name, q.suffix)), q.policy, s, t, done);
      if !ok {
        assert more == PolicySteps(q);
        return Error;
      }
      ok := Invoke(Grant(q.name, Policy(q.name)), q.grant, s, t, done + more);
      more := Regroup(done, more, Call(Grant(q.name, Policy(q.name)), q.grant));
      if !ok {
        assert more == PolicySteps(q);
        return Error;
      }
      var volume := Volume(q.name, q.capacity, BucketName(q.name, q.suffix), q.context);
      OneMore(s, done + more, Insert(volume));
      volumes := volumes[q.name := volume];
      trace := trace + [Current()];
      more := Regroup(done, more, Insert(volume));
      assert more == PolicySteps(q);
      return Ok(volume);
    }
  }

  lemma Regroup(a: seq<Step>, b: seq<Step>, step: Step) returns (longer: seq<Step>)
    ensures longer == b + [step] && a + longer == a + b + [step]
  {
    longer := b + [step];
  }
}
