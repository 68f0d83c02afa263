/**
 * The registry trust rule and the admission verdict: every container image
 * of the Pod under review, regular containers first and init containers
 * after, must start with one of the trusted registry prefixes.
 */
module Validation {
  import opened Wrappers
  import opened Json
  import opened Protocol
  import opened Pods
  import opened PolicySettings

  const BadRequest := 400
  const PodDecodePrefix := "Cannot decode Pod object: "

  /** The admission verdict; a rejection for a malformed request carries a
      status code, a rejection by policy carries none. */
  datatype Verdict = Accept | Reject(message: string, code: Option<int>)

  function ImageRejection(image: string): string
  {
    "The image '" + image + "' is not from a trusted registry"
  }

  function InitImageRejection(image: string): string
  {
    "The init container image '" + image + "' is not from a trusted registry"
  }

  /** `strings.HasPrefix(s, prefix)`: case-sensitive and element by element.
      Go compares bytes, this compares characters; the two agree on the
      valid UTF-8 strings that JSON decoding produces. */
  predicate HasPrefix(s: string, prefix: string)
  {
    |prefix| <= |s| && s[..|prefix|] == prefix
  }

  /** The trust rule: some trusted registry is a prefix of the image. */
  predicate Trusted(image: string, registries: set<string>)
  {
    exists r :: r in registries && HasPrefix(image, r)
  }

  /** The registry loop run over one fixed enumeration of the set: the first
      registry that is a prefix of the image ends it with true, so it finds a
      match iff some listed registry is a prefix. */
  function ScanRegistries(order: seq<string>, image: string): (found: bool)
    ensures found <==> exists r :: r in order && HasPrefix(image, r)
  {
    if order == [] then false
    else if HasPrefix(image, order[0]) then true
    else ScanRegistries(order[1..], image)
  }

  /** Whatever order the set is enumerated in, the scan agrees with the trust
      rule: the verdict depends on the set of registries only. */
  lemma ScanOrderIrrelevant(order: seq<string>, registries: set<string>, image: string)
    requires forall r :: r in registries <==> r in order
    ensures ScanRegistries(order, image) == Trusted(image, registries)
  {
  }

  /** `isImageTrusted`: walks the registries in an unspecified order and
      stops at the first one that is a prefix of the image. */
  method IsImageTrusted(image: string, trustedRegistries: set<string>) returns (trusted: bool)
    ensures trusted <==> Trusted(image, trustedRegistries)
  {
    var remaining := trustedRegistries;
    while remaining != {}
      invariant remaining <= trustedRegistries
      invariant forall r :: r in trustedRegistries && r !in remaining ==> !HasPrefix(image, r)
      decreases |remaining|
    {
      var registry :| registry in remaining;
      if HasPrefix(image, registry) {
        return true;
      }
      remaining := remaining - {registry};
    }
    return false;
  }

  /** No image is trusted by an empty set; every image is trusted once the
      empty string is a trusted registry. */
  lemma TrustBoundaries(image: string, registries: set<string>)
    ensures !Trusted(image, {})
    ensures "" in registries ==> Trusted(image, registries)
  {
    if "" in registries {
      assert HasPrefix(image, "");
    }
  }

  /** A `null` entry in `trusted_registries` decodes to the empty string,
      which is a prefix of every image: such settings trust every image. */
  lemma NullRegistryEntryTrustsEveryImage(items: seq<Json>, fields: map<string, Json>, i: nat, image: string)
    requires TrustedRegistriesKey in fields && fields[TrustedRegistriesKey] == JArray(items)
    requires DecodeRegistries(items).Success?
    requires i < |items| && items[i].JNull?
    ensures DecodeSettings(Value(JObject(fields))).Success?
    ensures Trusted(image, DecodeSettings(Value(JObject(fields))).value)
  {
    DecodedSetIsListElements(items, fields);
    var registries := DecodeSettings(Value(JObject(fields))).value;
    assert EntryText(items[i]) == "";
    assert "" in registries;
    TrustBoundaries(image, registries);
  }

  /** Appending anything to a trusted image (a `:tag`, an `@sha256:` digest)
      keeps it trusted. */
  lemma SuffixPreservesTrust(image: string, suffix: string, registries: set<string>)
    requires Trusted(image, registries)
    ensures Trusted(image + suffix, registries)
  {
    var r :| r in registries && HasPrefix(image, r);
    assert (image + suffix)[..|r|] == image[..|r|];
    assert HasPrefix(image + suffix, r);
  }

  /** The empty image reference, which a container without an `image` member
      carries, is trusted only when the empty string is a trusted registry. */
  lemma EmptyImageTrust(registries: set<string>)
    ensures Trusted("", registries) <==> "" in registries
  {
    if Trusted("", registries) {
      var r :| r in registries && HasPrefix("", r);
      assert r == "";
    } else {
      TrustBoundaries("", registries);
    }
  }

  /** Matching is not anchored at a path segment: `quay.io` also trusts an
      image from the unrelated host `quay.iowned.example`. */
  lemma PrefixNotAnchored()
    ensures Trusted("quay.iowned.example/evil/image", {"quay.io"})
  {
    assert HasPrefix("quay.iowned.example/evil/image", "quay.io");
  }

  /** Matching is case-sensitive. */
  lemma PrefixCaseSensitive()
    ensures !Trusted("Quay.io/some/image", {"quay.io"})
  {
    assert !HasPrefix("Quay.io/some/image", "quay.io") by {
      assert "Quay.io/some/image"[0] != "quay.io"[0];
    }
  }

  /** An entry the scan lets through: a non-nil container with a trusted image. */
  predicate Passes(c: Option<Container>, registries: set<string>)
  {
    c.Some? && Trusted(c.value.image, registries)
  }

  /** The position where a container loop stops: the first entry that is nil
      or whose image is not trusted, or the list's length when every entry
      passes. */
  function FirstFailing(cs: seq<Option<Container>>, registries: set<string>): (k: nat)
    ensures k <= |cs|
    ensures forall j :: 0 <= j < k ==> Passes(cs[j], registries)
    ensures k < |cs| ==> !Passes(cs[k], registries)
  {
    if cs == [] then 0
    else if !Passes(cs[0], registries) then 0
    else 1 + FirstFailing(cs[1..], registries)
  }

  /** A container loop stops at a nil entry, where the source dereferences a
      nil pointer. */
  predicate StopsAtNil(cs: seq<Option<Container>>, registries: set<string>)
  {
    FirstFailing(cs, registries) < |cs| && cs[FirstFailing(cs, registries)].None?
  }

  /** The scan of a Pod reaches a nil entry: in the regular containers, or in
      the init containers once every regular container has passed. Entries
      after the first failing one are never reached. */
  predicate ReachesNil(pod: Pod, registries: set<string>)
  {
    StopsAtNil(Containers(pod), registries) ||
    (FirstFailing(Containers(pod), registries) == |Containers(pod)| && StopsAtNil(InitContainers(pod), registries))
  }

  /** The scan of a decoded Pod: the first untrusted regular container
      rejects; then the first untrusted init container; otherwise accept. A
      policy rejection carries no code, and a Pod is accepted iff every
      entry of both lists is a container with a trusted image. */
  function Evaluate(pod: Pod, registries: set<string>): (r: Verdict)
    requires !ReachesNil(pod, registries)
    ensures r.Reject? ==> r.code == None
    ensures r == Accept <==>
      (forall i :: 0 <= i < |Containers(pod)| ==> Passes(Containers(pod)[i], registries)) &&
      (forall i :: 0 <= i < |InitContainers(pod)| ==> Passes(InitContainers(pod)[i], registries))
  {
    var cs := Containers(pod);
    var k := FirstFailing(cs, registries);
    if k < |cs| then Reject(ImageRejection(cs[k].value.image), None)
    else
      var ics := InitContainers(pod);
      var m := FirstFailing(ics, registries);
      if m < |ics| then Reject(InitImageRejection(ics[m].value.image), None)
      else Accept
  }

  /** The request payload decodes all the way: envelope, settings and Pod. */
  predicate Decodes(payload: RawJson)
  {
    DecodeValidationRequest(payload).Success? &&
    DecodeSettings(DecodeValidationRequest(payload).value.settings).Success? &&
    DecodePod(DecodeValidationRequest(payload).value.reviewed).Success?
  }

  /** Requests whose image scan, if it runs at all, never reaches a nil
      container entry (on one the source dereferences a nil pointer). */
  predicate ScanAvoidsNil(payload: RawJson)
  {
    Decodes(payload) ==>
      var req := DecodeValidationRequest(payload).value;
      !ReachesNil(DecodePod(req.reviewed).value, DecodeSettings(req.settings).value)
  }

  /** The verdict for a request payload: decode the envelope, the settings,
      the Pod (each failure a bad request with code 400), then scan the
      images (a policy verdict, without a code). */
  function Decision(payload: RawJson): (r: Verdict)
    requires ScanAvoidsNil(payload)
    ensures !Decodes(payload) ==> r.Reject? && r.code == Some(BadRequest)
    ensures Decodes(payload) ==> r.Accept? || r.code == None
  {
    match DecodeValidationRequest(payload)
    case Failure(e) => Reject(ErrorText(e), Some(BadRequest))
    case Success(req) =>
      match DecodeSettings(req.settings)
      case Failure(e) => Reject(ErrorText(e), Some(BadRequest))
      case Success(registries) =>
        match DecodePod(req.reviewed)
        case Failure(e) => Reject(PodDecodePrefix + ErrorText(e), Some(BadRequest))
        case Success(pod) => Evaluate(pod, registries)
  }

  /** One of the `for` loops of `validate`: walks the entries in order and
      stops at the first whose image is not trusted, returning its position
      (the list's length when every image is trusted). Reading the image of
      an entry is only possible when it is not nil. */
  method ScanImages(cs: seq<Option<Container>>, registries: set<string>) returns (k: nat)
    requires !StopsAtNil(cs, registries)
    ensures k == FirstFailing(cs, registries)
  {
    for i := 0 to |cs|
      invariant forall j :: 0 <= j < i ==> Passes(cs[j], registries)
    {
      var trusted := IsImageTrusted(cs[i].value.image, registries);
      if !trusted {
        return i;
      }
    }
    return |cs|;
  }

  /** `validate`: the verdict of one admission request. */
  method Validate(payload: RawJson) returns (r: Verdict)
    requires ScanAvoidsNil(payload)
    ensures r == Decision(payload)
  {
    var decoded := DecodeValidationRequest(payload);
    if decoded.Failure? {
      return Reject(ErrorText(decoded.error), Some(BadRequest));
    }
    var req := decoded.value;
    var settings, err := NewSettingsFromValidationReq(req);
    if err.Some? {
      return Reject(ErrorText(err.value), Some(BadRequest));
    }
    var podDecoded := DecodePod(req.reviewed);
    if podDecoded.Failure? {
      return Reject(PodDecodePrefix + ErrorText(podDecoded.error), Some(BadRequest));
    }
    var pod := podDecoded.value;
    var registries := settings.trustedRegistries;
    assert Decision(payload) == Evaluate(pod, registries);

    if pod.spec.Some? && pod.spec.value.containers.Some? {
      var cs := pod.spec.value.containers.value;
      var k := ScanImages(cs, registries);
      if k < |cs| {
        return Reject(ImageRejection(cs[k].value.image), None);
      }
    }

    if pod.spec.Some? && pod.spec.value.initContainers.Some? {
      var ics := pod.spec.value.initContainers.value;
      var m := ScanImages(ics, registries);
      if m < |ics| {
        return Reject(InitImageRejection(ics[m].value.image), None);
      }
    }
    return Accept;
  }

  /** A Pod without containers and init containers (or without a spec) is
      accepted, whatever the trusted set, the empty one included. */
  lemma NoContainersAccepted(pod: Pod, registries: set<string>)
    requires Containers(pod) == [] && InitContainers(pod) == []
    ensures !ReachesNil(pod, registries) && Evaluate(pod, registries) == Accept
  {
  }

  /** The first failing regular entry, when it is a container with an
      untrusted image, is the one the rejection names; later entries (nil
      ones included) and init containers are not consulted. */
  lemma FirstUntrustedContainerRejects(pod: Pod, registries: set<string>, i: nat)
    requires i < |Containers(pod)| && Containers(pod)[i].Some?
    requires !Trusted(Containers(pod)[i].value.image, registries)
    requires forall j :: 0 <= j < i ==> Passes(Containers(pod)[j], registries)
    ensures !ReachesNil(pod, registries)
    ensures Evaluate(pod, registries) == Reject(ImageRejection(Containers(pod)[i].value.image), None)
  {
    assert FirstFailing(Containers(pod), registries) == i;
  }

  /** Once every regular container passes, the first failing init entry,
      when it is a container with an untrusted image, is the one the
      rejection names. */
  lemma FirstUntrustedInitContainerRejects(pod: Pod, registries: set<string>, i: nat)
    requires forall j :: 0 <= j < |Containers(pod)| ==> Passes(Containers(pod)[j], registries)
    requires i < |InitContainers(pod)| && InitContainers(pod)[i].Some?
    requires !Trusted(InitContainers(pod)[i].value.image, registries)
    requires forall j :: 0 <= j < i ==> Passes(InitContainers(pod)[j], registries)
    ensures !ReachesNil(pod, registries)
    ensures Evaluate(pod, registries) == Reject(InitImageRejection(InitContainers(pod)[i].value.image), None)
  {
    assert FirstFailing(Containers(pod), registries) == |Containers(pod)|;
    assert FirstFailing(InitContainers(pod), registries) == i;
  }

  /** Conversely, a rejection of a decoded Pod names the first untrusted
      image: a regular container's, or, when all of those pass, an init
      container's. */
  lemma RejectionNamesFirstUntrusted(pod: Pod, registries: set<string>)
    requires !ReachesNil(pod, registries)
    requires Evaluate(pod, registries).Reject?
    ensures
      (exists i :: 0 <= i < |Containers(pod)| && Containers(pod)[i].Some? &&
        !Trusted(Containers(pod)[i].value.image, registries) &&
        (forall j :: 0 <= j < i ==> Passes(Containers(pod)[j], registries)) &&
        Evaluate(pod, registries).message == ImageRejection(Containers(pod)[i].value.image)) ||
      ((forall j :: 0 <= j < |Containers(pod)| ==> Passes(Containers(pod)[j], registries)) &&
       exists i :: 0 <= i < |InitContainers(pod)| && InitContainers(pod)[i].Some? &&
        !Trusted(InitContainers(pod)[i].value.image, registries) &&
        (forall j :: 0 <= j < i ==> Passes(InitContainers(pod)[j], registries)) &&
        Evaluate(pod, registries).message == InitImageRejection(InitContainers(pod)[i].value.image))
  {
    var cs, ics := Containers(pod), InitContainers(pod);
    var k := FirstFailing(cs, registries);
    if k == |cs| {
      var m := FirstFailing(ics, registries);
      assert m < |ics|;
    }
  }

  /** With an empty trusted set (the settings rule is not checked here) a Pod
      is accepted exactly when it has no containers at all; a Pod with some
      container is rejected at its first entry (or that entry is nil). */
  lemma EmptyTrustedSet(pod: Pod)
    ensures !ReachesNil(pod, {}) ==>
      (Evaluate(pod, {}) == Accept <==> Containers(pod) == [] && InitContainers(pod) == [])
  {
    if Containers(pod) != [] {
      TrustBoundaries(if Containers(pod)[0].Some? then Containers(pod)[0].value.image else "", {});
    }
    if InitContainers(pod) != [] {
      TrustBoundaries(if InitContainers(pod)[0].Some? then InitContainers(pod)[0].value.image else "", {});
    }
  }

  /** Every decode failure (request, settings, Pod) is a rejection with code
      400 and that failure's text, decided before any image is looked at;
      when all three decode, the verdict is the image scan under the decoded
      registries. */
  lemma DecodeFailuresAreBadRequests(payload: RawJson)
    requires ScanAvoidsNil(payload)
    ensures DecodeValidationRequest(payload).Failure? ==>
      Decision(payload) == Reject(ErrorText(DecodeValidationRequest(payload).error), Some(BadRequest))
    ensures DecodeValidationRequest(payload).Success? ==>
      var req := DecodeValidationRequest(payload).value;
      (DecodeSettings(req.settings).Failure? ==>
        Decision(payload) == Reject(ErrorText(DecodeSettings(req.settings).error), Some(BadRequest))) &&
      (DecodeSettings(req.settings).Success? && DecodePod(req.reviewed).Failure? ==>
        Decision(payload) == Reject(PodDecodePrefix + ErrorText(DecodePod(req.reviewed).error), Some(BadRequest))) &&
      (DecodeSettings(req.settings).Success? && DecodePod(req.reviewed).Success? ==>
        Decision(payload) == Evaluate(DecodePod(req.reviewed).value, DecodeSettings(req.settings).value))
  {
  }

  /** A rejection without a code follows a full decode and names an
      untrusted container or init container image of the Pod. */
  lemma CodeSeparatesBadRequestFromPolicy(payload: RawJson)
    requires ScanAvoidsNil(payload)
    requires Decision(payload).Reject? && Decision(payload).code.None?
    ensures Decodes(payload)
    ensures
      var req := DecodeValidationRequest(payload).value;
      var pod := DecodePod(req.reviewed).value;
      var registries := DecodeSettings(req.settings).value;
      exists c :: ((Some(c) in Containers(pod) && Decision(payload).message == ImageRejection(c.image)) ||
                   (Some(c) in InitContainers(pod) && Decision(payload).message == InitImageRejection(c.image))) &&
        !Trusted(c.image, registries)
  {
    var req := DecodeValidationRequest(payload).value;
    var pod := DecodePod(req.reviewed).value;
    var registries := DecodeSettings(req.settings).value;
    var cs, ics := Containers(pod), InitContainers(pod);
    var k := FirstFailing(cs, registries);
    if k < |cs| {
      assert cs[k] in cs;
    } else {
      var m := FirstFailing(ics, registries);
      assert ics[m] in ics;
    }
  }

  /** A Pod whose spec lists the given regular container images. */
  function PodWithImages(images: seq<string>): (pod: Pod)
    ensures |Containers(pod)| == |images| && InitContainers(pod) == []
    ensures forall i :: 0 <= i < |images| ==> Containers(pod)[i] == Some(Container(images[i]))
  {
    Pod(Some(PodSpec(Some(seq(|images|, i requires 0 <= i < |images| => Some(Container(images[i])))), None)))
  }

  /** The trusted set of the test suite. */
  const TestRegistries: set<string> := {"quay.io", "docker.io/library"}

  /** Test scenario: no containers, accepted. */
  lemma ScenarioNoContainers()
    ensures !ReachesNil(PodWithImages([]), TestRegistries)
    ensures Evaluate(PodWithImages([]), TestRegistries) == Accept
  {
    NoContainersAccepted(PodWithImages([]), TestRegistries);
  }

  /** Test scenario: images from both trusted registries, accepted. */
  lemma ScenarioTrustedImages()
    ensures !ReachesNil(PodWithImages(["quay.io/some/image", "docker.io/library/another/image"]), TestRegistries)
    ensures Evaluate(PodWithImages(["quay.io/some/image", "docker.io/library/another/image"]), TestRegistries) == Accept
  {
    var quay, docker := "quay.io/some/image", "docker.io/library/another/image";
    assert HasPrefix(quay, "quay.io") && HasPrefix(docker, "docker.io/library");
    assert Passes(Some(Container(quay)), TestRegistries) && Passes(Some(Container(docker)), TestRegistries);
  }

  /** Test scenario: the same images with tags, accepted by suffix
      monotonicity. */
  lemma ScenarioTaggedImages()
    ensures !ReachesNil(PodWithImages(["quay.io/some/image:tag", "docker.io/library/another/image:tag"]), TestRegistries)
    ensures Evaluate(PodWithImages(["quay.io/some/image:tag", "docker.io/library/another/image:tag"]), TestRegistries) == Accept
  {
    var quay, docker := "quay.io/some/image", "docker.io/library/another/image";
    assert HasPrefix(quay, "quay.io") && HasPrefix(docker, "docker.io/library");
    SuffixPreservesTrust(quay, ":tag", TestRegistries);
    SuffixPreservesTrust(docker, ":tag", TestRegistries);
    assert quay + ":tag" == "quay.io/some/image:tag";
    assert docker + ":tag" == "docker.io/library/another/image:tag";
    assert Passes(Some(Container(quay + ":tag")), TestRegistries);
    assert Passes(Some(Container(docker + ":tag")), TestRegistries);
  }

  /** Test scenario: a `gcr.io` image after a trusted one is rejected by name. */
  lemma ScenarioUntrustedImage()
    ensures !ReachesNil(PodWithImages(["quay.io/some/image", "gcr.io/some/image"]), TestRegistries)
    ensures Evaluate(PodWithImages(["quay.io/some/image", "gcr.io/some/image"]), TestRegistries) ==
            Reject(ImageRejection("gcr.io/some/image"), None)
  {
    var quay, gcr := "quay.io/some/image", "gcr.io/some/image";
    assert HasPrefix(quay, "quay.io");
    assert !Trusted(gcr, TestRegistries) by {
      assert gcr[0] != "quay.io"[0] && gcr[0] != "docker.io/library"[0];
    }
    FirstUntrustedContainerRejects(PodWithImages([quay, gcr]), TestRegistries, 1);
  }

  /** Test scenario: digest references; the untrusted `gcr.io` one is named. */
  lemma ScenarioDigestImages()
    ensures !ReachesNil(PodWithImages(["quay.io/some/image@sha256:1234567890abcdef",
                                       "gcr.io/some/image@sha256:1234567890abcdef"]), TestRegistries)
    ensures Evaluate(PodWithImages(["quay.io/some/image@sha256:1234567890abcdef",
                                    "gcr.io/some/image@sha256:1234567890abcdef"]), TestRegistries) ==
            Reject(ImageRejection("gcr.io/some/image@sha256:1234567890abcdef"), None)
  {
    var quay, gcr := "quay.io/some/image", "gcr.io/some/image@sha256:1234567890abcdef";
    assert HasPrefix(quay, "quay.io");
    SuffixPreservesTrust(quay, "@sha256:1234567890abcdef", TestRegistries);
    assert quay + "@sha256:1234567890abcdef" == "quay.io/some/image@sha256:1234567890abcdef";
    assert !Trusted(gcr, TestRegistries) by {
      assert gcr[0] != "quay.io"[0] && gcr[0] != "docker.io/library"[0];
    }
    FirstUntrustedContainerRejects(PodWithImages([quay + "@sha256:1234567890abcdef", gcr]), TestRegistries, 1);
  }

  /** A nil entry after the first untrusted container is never reached: the
      Pod with containers `gcr.io/x` and `null` is rejected for `gcr.io/x`. */
  lemma NilAfterRejectionNotReached()
    ensures !ReachesNil(Pod(Some(PodSpec(Some([Some(Container("gcr.io/x")), None]), None))), {"quay.io"})
    ensures Evaluate(Pod(Some(PodSpec(Some([Some(Container("gcr.io/x")), None]), None))), {"quay.io"}) ==
            Reject(ImageRejection("gcr.io/x"), None)
  {
    assert !Trusted("gcr.io/x", {"quay.io"}) by {
      assert "gcr.io/x"[0] != "quay.io"[0];
    }
    FirstUntrustedContainerRejects(Pod(Some(PodSpec(Some([Some(Container("gcr.io/x")), None]), None))), {"quay.io"}, 0);
  }

  /** End to end: settings without registries are not checked by `validate`,
      so a Pod without a spec is admitted under them. */
  lemma EmptySettingsAdmitPodWithoutSpec()
    ensures ScanAvoidsNil(Value(JObject(map[
      SettingsKey := JObject(map[]),
      RequestKey := JObject(map[ObjectKey := JObject(map[])])])))
    ensures Decision(Value(JObject(map[
      SettingsKey := JObject(map[]),
      RequestKey := JObject(map[ObjectKey := JObject(map[])])]))) == Accept
  {
    var payload := Value(JObject(map[
      SettingsKey := JObject(map[]),
      RequestKey := JObject(map[ObjectKey := JObject(map[])])]));
    var req := DecodeValidationRequest(payload).value;
    assert req.settings == Value(JObject(map[]));
    UnsetRegistriesDecodeEmpty(map[]);
    assert DecodePod(req.reviewed) == Success(Pod(None));
  }

  /** End to end: a request without settings is a bad request, whatever its
      Pod holds (the Pod is never decoded, so nil entries in it do not
      matter). */
  lemma MissingSettingsIsBadRequest(request: Json)
    requires request.JObject?
    ensures ScanAvoidsNil(Value(JObject(map[RequestKey := request])))
    ensures Decision(Value(JObject(map[RequestKey := request]))) ==
      Reject("unexpected end of JSON input", Some(BadRequest))
  {
    var payload := Value(JObject(map[RequestKey := request]));
    assert DecodeValidationRequest(payload).value.settings == Absent;
  }
}
