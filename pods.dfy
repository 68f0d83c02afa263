/**
 * The Kubernetes Pod, projected to what the registry rule reads: an optional
 * spec holding optional lists of regular and init containers, each reduced
 * to its image reference; and the decoding of a raw Pod document into it.
 */
module Pods {
  import opened Wrappers
  import opened Json

  const SpecKey := "spec"
  const ContainersKey := "containers"
  const InitContainersKey := "initContainers"
  const ImageKey := "image"

  datatype Container = Container(image: string)

  /** A list entry is a `*Container`: `None` stands for a nil pointer, which a
      JSON `null` entry decodes to. `None` for a list stands for a nil Go
      slice: the member was missing or `null`. */
  datatype PodSpec = PodSpec(containers: Option<seq<Option<Container>>>, initContainers: Option<seq<Option<Container>>>)

  /** `None` stands for a nil `*PodSpec`. */
  datatype Pod = Pod(spec: Option<PodSpec>)

  /** The regular container entries, in list order; none when spec or list is nil. */
  function Containers(pod: Pod): seq<Option<Container>>
  {
    if pod.spec.Some? && pod.spec.value.containers.Some? then pod.spec.value.containers.value else []
  }

  /** The init container entries, in list order; none when spec or list is nil. */
  function InitContainers(pod: Pod): seq<Option<Container>>
  {
    if pod.spec.Some? && pod.spec.value.initContainers.Some? then pod.spec.value.initContainers.value else []
  }

  /** The image a container entry carries: its `image` string, or the zero
      string when the member is missing or `null`. */
  function ImageOf(j: Json): string
  {
    if j.JObject? && ImageKey in j.fields && j.fields[ImageKey].JString? then j.fields[ImageKey].s else ""
  }

  /** Decoding one entry of the list named `key` into a `*Container`. */
  function DecodeContainer(j: Json, key: string): Result<Option<Container>, DecodeError>
  {
    if j.JNull? then
      Success(None)
    else if !j.JObject? then
      Failure(TypeMismatch(KindName(j), "PodSpec.spec." + key, "v1.Container"))
    else if IsUnset(j.fields, ImageKey) || j.fields[ImageKey].JString? then
      Success(Some(Container(ImageOf(j))))
    else
      Failure(TypeMismatch(KindName(j.fields[ImageKey]), "Container.spec." + key + ".image", "string"))
  }

  /** Decoding the entries of a container list: entry by entry, in order,
      reporting the first entry that fails. */
  function DecodeContainers(items: seq<Json>, key: string): (r: Result<seq<Option<Container>>, DecodeError>)
    ensures r.Success? <==> forall i :: 0 <= i < |items| ==> DecodeContainer(items[i], key).Success?
    ensures r.Success? ==>
      |r.value| == |items| &&
      forall i :: 0 <= i < |items| ==> DecodeContainer(items[i], key) == Success(r.value[i])
    ensures r.Failure? ==>
      exists i :: 0 <= i < |items| && DecodeContainer(items[i], key) == Failure(r.error) &&
        forall j :: 0 <= j < i ==> DecodeContainer(items[j], key).Success?
  {
    if items == [] then Success([])
    else
      match DecodeContainer(items[0], key)
      case Failure(e) => Failure(e)
      case Success(c) =>
        match DecodeContainers(items[1..], key)
        case Failure(e) => Failure(e)
        case Success(rest) => Success([c] + rest)
  }

  /** Decoding the list member `key` of a spec: nil when missing or `null`. */
  function DecodeContainerList(spec: map<string, Json>, key: string): Result<Option<seq<Option<Container>>>, DecodeError>
  {
    if IsUnset(spec, key) then Success(None)
    else if spec[key].JArray? then
      match DecodeContainers(spec[key].items, key)
      case Failure(e) => Failure(e)
      case Success(cs) => Success(Some(cs))
    else
      Failure(TypeMismatch(KindName(spec[key]), "PodSpec.spec." + key, "[]*v1.Container"))
  }

  /** Decoding a spec object; a failure in the regular containers is the one
      reported when both lists fail. */
  function DecodePodSpec(spec: map<string, Json>): Result<PodSpec, DecodeError>
  {
    match DecodeContainerList(spec, ContainersKey)
    case Failure(e) => Failure(e)
    case Success(containers) =>
      match DecodeContainerList(spec, InitContainersKey)
      case Failure(e) => Failure(e)
      case Success(initContainers) => Success(PodSpec(containers, initContainers))
  }

  /** `json.Unmarshal(podJSON, pod)`: the raw object under review, decoded
      as a Pod. */
  function DecodePod(raw: RawJson): (r: Result<Pod, DecodeError>)
    ensures raw.Absent? ==> r == Failure(UnexpectedEnd)
    ensures r.Success? ==> raw.Value? && (raw.value.JNull? || raw.value.JObject?)
    ensures raw.Value? && (raw.value.JNull? || (raw.value.JObject? && IsUnset(raw.value.fields, SpecKey))) ==>
      r == Success(Pod(None))
  {
    match raw
    case Absent => Failure(UnexpectedEnd)
    case Malformed(reason) => Failure(Syntax(reason))
    case Value(JNull) => Success(Pod(None))
    case Value(JObject(fields)) =>
      if IsUnset(fields, SpecKey) then Success(Pod(None))
      else if fields[SpecKey].JObject? then
        match DecodePodSpec(fields[SpecKey].fields)
        case Failure(e) => Failure(e)
        case Success(spec) => Success(Pod(Some(spec)))
      else
        Failure(TypeMismatch(KindName(fields[SpecKey]), "Pod.spec", "v1.PodSpec"))
    case Value(other) => Failure(TypeMismatch(KindName(other), "", "v1.Pod"))
  }

  /** A decoded container list has one entry per document entry, in
      document order: `null` gives a nil entry, and any other entry a
      container whose image is the entry's `image` member (the empty string
      when that member is missing or `null`). */
  lemma {:induction false} DecodedImagesFollowDocumentOrder(items: seq<Json>, key: string, cs: seq<Option<Container>>)
    requires DecodeContainers(items, key) == Success(cs)
    ensures |cs| == |items|
    ensures forall i :: 0 <= i < |cs| ==> (cs[i].None? <==> items[i].JNull?)
    ensures forall i :: 0 <= i < |cs| && cs[i].Some? ==> cs[i].value.image == ImageOf(items[i])
  {
    forall i | 0 <= i < |cs|
      ensures (cs[i].None? <==> items[i].JNull?) && (cs[i].Some? ==> cs[i].value.image == ImageOf(items[i]))
    {
      assert DecodeContainer(items[i], key) == Success(cs[i]);
    }
  }

  /** A Pod whose spec names its container lists as arrays decodes, when it
      decodes at all, to exactly those lists' entries, regular and init. */
  lemma PodImagesFollowDocumentOrder(raw: RawJson, pod: Pod)
    requires DecodePod(raw) == Success(pod)
    requires raw.Value? && raw.value.JObject? && SpecKey in raw.value.fields
    requires raw.value.fields[SpecKey].JObject?
    ensures var spec := raw.value.fields[SpecKey].fields;
      (ContainersKey in spec && spec[ContainersKey].JArray? ==>
        |Containers(pod)| == |spec[ContainersKey].items| &&
        forall i :: 0 <= i < |Containers(pod)| ==>
          (Containers(pod)[i].None? <==> spec[ContainersKey].items[i].JNull?) &&
          (Containers(pod)[i].Some? ==> Containers(pod)[i].value.image == ImageOf(spec[ContainersKey].items[i]))) &&
      (IsUnset(spec, ContainersKey) ==> Containers(pod) == [])
    ensures var spec := raw.value.fields[SpecKey].fields;
      (InitContainersKey in spec && spec[InitContainersKey].JArray? ==>
        |InitContainers(pod)| == |spec[InitContainersKey].items| &&
        forall i :: 0 <= i < |InitContainers(pod)| ==>
          (InitContainers(pod)[i].None? <==> spec[InitContainersKey].items[i].JNull?) &&
          (InitContainers(pod)[i].Some? ==> InitContainers(pod)[i].value.image == ImageOf(spec[InitContainersKey].items[i]))) &&
      (IsUnset(spec, InitContainersKey) ==> InitContainers(pod) == [])
  {
    var spec := raw.value.fields[SpecKey].fields;
    if ContainersKey in spec && spec[ContainersKey].JArray? {
      DecodedImagesFollowDocumentOrder(spec[ContainersKey].items, ContainersKey, Containers(pod));
    }
    if InitContainersKey in spec && spec[InitContainersKey].JArray? {
      DecodedImagesFollowDocumentOrder(spec[InitContainersKey].items, InitContainersKey, InitContainers(pod));
    }
  }
}
