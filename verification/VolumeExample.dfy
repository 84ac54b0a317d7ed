/** A volume to which the round trip of the published context applies: an empty storage class, and
    secrets with just the mandatory fields. */
module VolumeExample {
  import opened Wrappers
  import opened Text
  import opened Fields
  import opened Parameters
  import opened VolumeParameters
  import opened VolumeContext

  function PlainLib(): Lib { Lib(c => c, s => Some(s), s => s, s => None, d => "") }

  function MandatoryOnly(text: string): map<string, string> {
    map[FieldOf(AccessKey) := text, FieldOf(SecretKey) := text, FieldOf(UcEndpoint) := text]
  }

  predicate IsMandatory(s: Slot) { s.AccessKey? || s.SecretKey? || s.UcEndpoint? }

  lemma MandatoryNames(text: string, s: Slot)
    ensures FieldOf(s) in MandatoryOnly(text) <==> IsMandatory(s)
    ensures IsMandatory(s) ==> MandatoryOnly(text)[FieldOf(s)] == text
  {
    if FieldOf(s) == FieldOf(AccessKey) {
      FieldInjective(s, AccessKey);
    }
    if FieldOf(s) == FieldOf(SecretKey) {
      FieldInjective(s, SecretKey);
    }
    if FieldOf(s) == FieldOf(UcEndpoint) {
      FieldInjective(s, UcEndpoint);
    }
  }

  lemma MandatoryParses(text: string, s: Slot)
    requires IsMandatory(s)
    ensures ParseValue(PlainLib(), s, text) ==
            Some(if s.UcEndpoint? then Link(TrimSpace(text)) else Txt(TrimSpace(text)))
  {
  }

  lemma ExampleIsAccepted(text: string)
    ensures ParseClass(PlainLib(), map[], MandatoryOnly(text), []).Some?
  {
    var lib, secrets := PlainLib(), MandatoryOnly(text);
    ClassVerdict(lib, map[], secrets, []);
    MandatoryNames(text, AccessKey);
    MandatoryNames(text, SecretKey);
    MandatoryNames(text, UcEndpoint);
    MandatoryNames(text, S3ForcePathStyle);
    MandatoryParses(text, AccessKey);
    MandatoryParses(text, SecretKey);
    MandatoryParses(text, UcEndpoint);
  }

  lemma ExampleReprints(text: string, s: Slot)
    requires ParseClass(PlainLib(), map[], MandatoryOnly(text), []).Some?
    ensures Reprints(PlainLib(), Get(ParseClass(PlainLib(), map[], MandatoryOnly(text), []).value, s))
  {
    ClassRecord(PlainLib(), map[], MandatoryOnly(text), [], s);
    MandatoryNames(text, s);
    PlainReprints(s);
    if IsMandatory(s) {
      MandatoryParses(text, s);
      TrimSpaceTrims(text);
      TrimmedStays(TrimSpace(text));
    }
  }

  lemma PlainReprints(s: Slot)
    ensures Reprints(PlainLib(), Zero(s))
    ensures IsMandatory(s) ==> s in CLASS_FALLBACKS
  {
    assert CLASS_FALLBACKS[0] == AccessKey && CLASS_FALLBACKS[1] == SecretKey && CLASS_FALLBACKS[2] == UcEndpoint;
  }

  /** All hypotheses of ContextRoundTrip hold together. */
  lemma RoundTripApplies(text: string, served: Served) returns (first: seq<string>)
    requires NonBlank(served.bucketId) && NonBlank(served.bucketName) && NonBlank(served.s3Region)
    requires NonBlank(served.region)
    requires NonBlank(served.iamAccessKey) && NonBlank(served.iamSecretKey) && Trimmed(served.s3Endpoint)
    ensures ParseClass(PlainLib(), map[], MandatoryOnly(text), []).Some?
    ensures var lib, p := PlainLib(), ParseClass(PlainLib(), map[], MandatoryOnly(text), []).value;
            && Usable(p, served) && AllReprint(lib, p) && IsOrder(Context(lib, Published(p, served)), first)
            && KeepsLower(lib.lower) && Reprints(lib, Link(served.s3Endpoint))
  {
    ExampleIsAccepted(text);
    var lib, p := PlainLib(), ParseClass(PlainLib(), map[], MandatoryOnly(text), []).value;
    forall s ensures Reprints(lib, Get(p, s)) {
      ExampleReprints(text, s);
    }
    TrimmedStays(served.s3Endpoint);
    first := Enumerate(Context(lib, Published(p, served)).Keys);
  }
}
