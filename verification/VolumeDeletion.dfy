/** DeleteVolume parses the attributes that CreateVolume published, so it finds the bucket that was
    created for the volume, and the keys of the account that created it
    (plugin/kodo_controller_server.go:96-206, 217-234). */
module VolumeDeletion {
  import opened Wrappers
  import opened Text
  import opened Fields
  import opened Parameters
  import opened VolumeParameters
  import opened VolumeContext
  import L = Lifecycle
  import R = LifecycleResults

  /** The request publishes what it accepted and what the server answered. */
  predicate Publishes(lib: Lib, p: Rec, served: Served, q: L.CreateRequest) {
    served.bucketName == L.BucketOf(q) && q.context == Context(lib, Published(p, served))
  }

  /** The request that deletes a volume takes the bucket from the volume's attributes. */
  function DeleteOf(lib: Lib, remote: Remote, v: L.Volume, secrets: map<string, string>, first: seq<string>,
                    second: seq<string>, d: L.DeleteRequest): L.DeleteRequest
    requires (forall k :: k in first ==> k in v.context) && (forall k :: k in second ==> k in v.context)
  {
    var r := ParseVolume(lib, remote, v.context, secrets, first, second);
    d.(id := v.id, known := r.Some?, bucket := if r.Some? then TextOf(Get(r.value, BucketName)) else "")
  }

  /** Deleting a created volume: the attributes parse, they name the bucket that was created for it,
      so the request is one that all results on deletions apply to, and they give back the keys of
      the account. */
  lemma DeletionFindsItsBucket(lib: Lib, ctx: map<string, string>, secrets: map<string, string>, order: seq<string>,
                               served: Served, q: L.CreateRequest, remote: Remote, first: seq<string>,
                               second: seq<string>, d: L.DeleteRequest)
    requires (forall k :: k in order ==> k in ctx) && ParseClass(lib, ctx, secrets, order).Some?
    requires var p := ParseClass(lib, ctx, secrets, order).value;
             Usable(p, served) && AllReprint(lib, p) && Publishes(lib, p, served, q)
    requires IsOrder(q.context, first) && IsOrder(q.context, second)
    requires KeepsLower(lib.lower) && Reprints(lib, Link(served.s3Endpoint)) && |q.suffix| == L.SUFFIX_LENGTH
    ensures var e := DeleteOf(lib, remote, L.VolumeOf(q), secrets, first, second, d);
            e.known && e.id == q.name && e.bucket == L.BucketOf(q) && R.Honest(L.Delete(e))
    ensures var p := ParseClass(lib, ctx, secrets, order).value;
            var r := ParseVolume(lib, remote, q.context, secrets, first, second).value;
            Get(r, OriginalAccessKey) == Get(p, AccessKey) && Get(r, OriginalSecretKey) == Get(p, SecretKey)
  {
    ContextRoundTrip(lib, ctx, secrets, order, served, remote, first, second);
    assert L.NamedFor(L.BucketOf(q), q.name);
  }
}
