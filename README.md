# Trusted-registry admission policy, modelled in Dafny

A Kubewarden admission policy that admits a Pod only when every container
image comes from a trusted registry. The policy settings hold a set of
registry prefixes (`trusted_registries`). An image is trusted when one of
those prefixes is a plain, case-sensitive string prefix of the image
reference.

`validate` works in this order:

1. It decodes the request envelope, then the settings, then the Pod. Each
   decode failure is a rejection with code 400.
2. It scans the regular containers left to right, then the init
   containers. The first untrusted image rejects, with no code and a
   message naming that image.
3. If nothing fails, it accepts.

`validateSettings` checks the settings on their own. They must decode, and
the set must not be empty.

Modules, one file each:

- `wrappers.dfy` (`Wrappers`): `Option` and `Result`.
- `json.dfy` (`Json`): the pieces of `encoding/json` the model needs:
  - decoded JSON values;
  - the three states of a byte buffer (empty, malformed, a value);
  - decode errors and their text.
- `protocol.dfy` (`Protocol`): the validation-request envelope, reduced to
  its raw `settings` and `request.object` messages.
- `pods.dfy` (`Pods`): the Pod reduced to an optional spec. The spec holds
  optional lists of regular and init containers. Each entry is a pointer to
  a container, nil for a `null` entry, and each container is reduced to its
  image. The file also decodes a raw Pod document into this shape.
- `settings.dfy` (`PolicySettings`): `Settings` is a class whose
  `UnmarshalJSON` replaces the trusted set in place. The file also holds
  `NewSettingsFromValidationReq`, `Valid` and `ValidateSettings`.
- `validation.dfy` (`Validation`): the trust rule, the `isImageTrusted` loop,
  the `validate` method and the lemmas about the verdict.

Both loops are methods proved against pure specifications:

- `ScanImages` is the early-exit container loop; it is proved equal to `FirstFailing`.
- `IsImageTrusted` walks the registry set in an order it does not choose.
  It is proved equal to the predicate `Trusted`: some registry is a prefix.
- `Validate` is proved equal to the function `Decision`. The properties
  are stated as lemmas about `Decision` and `Evaluate`.

Three behaviours of the code a reader may not expect; the model keeps them:

- A container without an `image` member is not skipped. Its image is the
  empty string, and it is checked like any other (`EmptyImageTrust`).
- `validate` never calls `Valid()`. With an empty trusted set, a Pod
  without containers is still admitted (`EmptyTrustedSet`,
  `EmptySettingsAdmitPodWithoutSpec`).
- Prefixes are not anchored at path segments (`PrefixNotAnchored`).

## Model

| member | source | states |
|---|---|---|
| `Validation.IsImageTrusted` | validate.go:96-103 | returns true iff some registry of the set is a prefix of the image, whatever order the set is walked in |
| `Validation.ScanRegistries` | validate.go:97-102 | the first-match loop over one fixed enumeration returns true iff some listed registry is a prefix of the image |
| `Validation.ScanOrderIrrelevant` | validate.go:97-102 | any enumeration of the set gives the same answer as the set-level trust rule, so iteration order never matters |
| `Validation.NullRegistryEntryTrustsEveryImage` | settings.go:19-27 | a `null` entry in `trusted_registries` decodes to the empty string, so the decoded settings trust every image |
| `Validation.TrustBoundaries` | validate.go:96-103 | an empty set trusts no image; a set containing the empty string trusts every image |
| `Validation.SuffixPreservesTrust` | validate.go:98 | a trusted image stays trusted with any suffix appended, such as `:tag` or `@sha256:...` |
| `Validation.EmptyImageTrust` | validate.go:59-61 | the empty image, which an image-less container carries, is trusted iff the empty string is a trusted registry |
| `Validation.PrefixNotAnchored` | validate.go:98 | `quay.io` trusts `quay.iowned.example/...`: matching is not anchored at a path segment |
| `Validation.PrefixCaseSensitive` | validate.go:98 | `quay.io` does not trust `Quay.io/...`: matching is case-sensitive |
| `Validation.FirstFailing` | validate.go:59-70 | the position where a container loop stops: every earlier entry is a container with a trusted image, and the entry there, if any, is nil or untrusted |
| `Validation.ScanImages` | validate.go:59-88 | the loop stops at the first untrusted image and returns its position, or the list's length when all are trusted (equal to `FirstFailing`); it reads only non-nil entries |
| `Validation.Evaluate` | validate.go:57-93 | the scan of a decoded Pod: a rejection has no code, and the Pod is accepted iff every regular and every init container entry is a container with a trusted image |
| `Validation.Decision` | validate.go:16-94 | a payload that fails to decode (envelope, settings or Pod) is rejected with code 400; one that decodes is accepted or rejected without a code |
| `Validation.Validate` | validate.go:16-94 | the verdict equals `Decision`: decode the envelope, settings and Pod (400 on failure), then scan containers and then init containers, for every request whose scan does not reach a nil entry |
| `Validation.NoContainersAccepted` | validate.go:58-93 | a Pod with no containers and no init containers, or with no spec, is accepted under any trusted set |
| `Validation.FirstUntrustedContainerRejects` | validate.go:58-70 | the first untrusted regular container gives `The image '<img>' is not from a trusted registry` with no code; init containers are not consulted |
| `Validation.FirstUntrustedInitContainerRejects` | validate.go:76-88 | when all regular containers are trusted, the first untrusted init container gives `The init container image '<img>' is not from a trusted registry` with no code |
| `Validation.RejectionNamesFirstUntrusted` | validate.go:58-88 | every rejection of a decoded Pod has no code and names the first untrusted image, a regular container's before any init container's |
| `Validation.EmptyTrustedSet` | validate.go:28-93 | because the settings rule is not checked, an empty trusted set accepts exactly the Pods without any container |
| `Validation.DecodeFailuresAreBadRequests` | validate.go:19-51 | a failure to decode the envelope, the settings or the Pod is a rejection with code 400 and that error's text; otherwise the verdict is the image scan |
| `Validation.CodeSeparatesBadRequestFromPolicy` | validate.go:22-84 | a rejection's code, when present, is 400; a rejection without a code follows a full decode and names an untrusted container or init container image |
| `Validation.ScenarioNoContainers` | validate_test.go:20-26 | no containers under {quay.io, docker.io/library}: accepted |
| `Validation.ScenarioTrustedImages` | validate_test.go:27-36 | images from both trusted registries: accepted |
| `Validation.ScenarioUntrustedImage` | validate_test.go:37-46 | a `gcr.io` image after a trusted one: rejected, naming the `gcr.io` image |
| `Validation.ScenarioTaggedImages` | validate_test.go:47-56 | tagged images from trusted registries: accepted |
| `Validation.ScenarioDigestImages` | validate_test.go:77-86 | digest references: the untrusted `gcr.io` one is rejected by name |
| `Validation.EmptySettingsAdmitPodWithoutSpec` | validate.go:28-58 | a request whose settings have no registries and whose Pod has no spec is accepted |
| `Validation.NilAfterRejectionNotReached` | validate.go:59-66 | containers `gcr.io/x` then `null` under `{quay.io}`: rejected for `gcr.io/x`, the nil entry is never reached |
| `Validation.MissingSettingsIsBadRequest` | validate.go:28-34 | a request without settings is rejected with `unexpected end of JSON input` and code 400, whatever its Pod holds |
| `Protocol.DecodeValidationRequest` | validate.go:17-25 | the envelope decodes iff the payload is `null` or an object whose `request` is unset or an object; it then carries the raw `settings` and `request.object` messages |
| `Pods.DecodeContainers` | validate.go:44-45 | container entries decode one by one, in order, to one entry each (`null` to a nil entry); the first entry that fails is the error reported |
| `Pods.DecodePod` | validate.go:42-51 | an empty buffer is `unexpected end of JSON input`; `null`, or an object without a spec, is a Pod with a nil spec; any success comes from `null` or an object |
| `Pods.DecodedImagesFollowDocumentOrder` | validate.go:44-45 | the decoded entries follow the document: nil exactly where the entry is `null`, otherwise a container whose image is the entry's `image` member (the empty string when missing or `null`) |
| `Pods.PodImagesFollowDocumentOrder` | validate.go:42-51 | a decoded Pod's container and init-container images follow the document's lists; an unset list gives no containers |
| `PolicySettings.DecodeRegistries` | settings.go:18-25 | the list decodes iff every entry is a string or `null`, giving one string per entry in order (`null` gives the empty string); otherwise the first bad entry is the error |
| `PolicySettings.DecodeRegistryList` | settings.go:17-25 | a settings document decodes iff it is `null`, or an object whose `trusted_registries` is unset or a list of strings and `null`s |
| `PolicySettings.DecodeSettings` | settings.go:17-27 | an empty buffer is `unexpected end of JSON input`; decoding succeeds iff the buffer holds a value whose registry list decodes, and the set is then no larger than the list |
| `PolicySettings.Settings.constructor` | settings.go:33 | the zero settings hold no registry |
| `PolicySettings.Settings.UnmarshalJSON` | settings.go:17-30 | on success, the trusted set becomes the set of the list's elements; on error, the receiver is unchanged and the error is returned |
| `PolicySettings.Settings.Unmarshal` | settings.go:34-37 | an empty buffer fails with `unexpected end of JSON input` before `UnmarshalJSON` runs; otherwise the trusted set is the decoded set |
| `PolicySettings.Settings.Valid` | settings.go:42-48 | valid iff the set is non-empty; when invalid the error is `no trusted registries provided`, and when valid there is none |
| `PolicySettings.NewSettingsFromValidationReq` | settings.go:32-40 | returns the decoded settings and no error, or zero settings with an empty set together with the decode error |
| `PolicySettings.ValidateSettings` | settings.go:50-65 | accepts iff the settings decode to a non-empty set; rejects with `Provided settings are not valid: ` followed by the decode error or by `no trusted registries provided` |
| `PolicySettings.UnsetRegistriesDecodeEmpty` | settings_test.go:10-28 | a settings object with no `trusted_registries` (or a `null` one) decodes without error to the empty set |
| `PolicySettings.NonArrayRegistriesRejected` | settings_test.go:50-56 | a `trusted_registries` value that is neither an array nor `null` is a type error naming the field |
| `PolicySettings.RegistryListIsEntries` | settings.go:18-25 | when `trusted_registries` is a list, the settings' other members play no part in decoding it |
| `PolicySettings.SettingsAreListSet` | settings.go:22-27 | well-formed settings decode to the set of their decoded list |
| `PolicySettings.DecodedEntries` | settings.go:19-25 | a decoded list holds each entry's string at the entry's position, the empty string for a `null` entry |
| `PolicySettings.DecodedSetIsListElements` | settings.go:17-27 | for any settings object whose `trusted_registries` list decodes, the set is exactly the set of the entries' strings (`null` giving the empty string), so duplicates collapse |
| `PolicySettings.RegistryCount` | settings.go:27 | the set's size is at most the list's length, and equal to it when the strings are distinct |
| `PolicySettings.TwoRegistriesDecoded` | settings_test.go:30-48 | `["quay.io", "docker.io/library"]` decodes to a set of exactly those two registries |

## Left out

- Byte-level JSON parsing is not modelled. A buffer is given as empty, malformed (with the parser's message) or one decoded value.
- Several `encoding/json` behaviours are not modelled: case-insensitive matching of member names, duplicate member names (objects are maps here), and the exact wording of its error messages. The error texts here follow the shape of `UnmarshalTypeError` but are not claimed to match word for word.
- `Protocol.DecodeValidationRequest` does not report type errors in the admission request's other fields (uid, kind, operation, ...). The full `protocol.ValidationRequest` type is not part of this model.
- `Pods.DecodePod` reports no type errors outside `spec`, `spec.containers`, `spec.initContainers` and the containers' `image`. It ignores `metadata`, `status` and the other container fields, where the source would reject with code 400. The full `corev1.Pod` type is not part of this model.
- `Pods.DecodePodSpec`: when both container lists have type errors, the model reports the regular list's error. The source reports whichever comes first in the document.
- `Validation.Validate`, `Validation.Decision` and `Validation.Evaluate` require that the scan never reaches a nil container entry, the one a `null` list entry decodes to. The source dereferences that pointer, which panics. A nil entry the scan never reaches is allowed: one after the first untrusted container, one in a Pod that is never decoded, or one in an init list when a regular container is already rejected.
- `PolicySettings.Settings.constructor` gives an empty set. Go's zero `Settings{}` holds a nil set instead, which only matters on paths where the source returns before reading it.
- The `mapset` set library is modelled by Dafny's `set<string>`. Its enumeration order is modelled as an unspecified choice.
- All logging (`logger.*`) is left out. It has no effect on the verdict.
- Kubewarden SDK response serialisation (`RejectRequest`, `AcceptRequest`, `RejectSettings`, `AcceptSettings`) is left out. Verdicts are the datatypes `Verdict` and `SettingsResponse`, so the serialised-response round trip is not modelled.
- The test helper `kubewarden_testing.BuildValidationRequest` is left out. The test scenarios are stated on decoded Pods.
