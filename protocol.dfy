/**
 * The Kubewarden validation request envelope, projected to the two raw
 * messages the policy reads: the policy settings and the object under review.
 */
module Protocol {
  import opened Wrappers
  import opened Json

  const SettingsKey := "settings"
  const RequestKey := "request"
  const ObjectKey := "object"

  /** `settings` and `request.object` (here `reviewed`) are `json.RawMessage` fields: raw bytes
      that are decoded later, one by the settings decoder and one as a Pod. */
  datatype ValidationRequest = ValidationRequest(settings: RawJson, reviewed: RawJson)

  /** Decoding the request payload into the envelope. A JSON `null` payload or
      `request` member leaves the zero envelope, whose raw messages are empty. */
  function DecodeValidationRequest(payload: RawJson): (r: Result<ValidationRequest, DecodeError>)
    ensures payload.Absent? ==> r == Failure(UnexpectedEnd)
    ensures r.Success? <==>
      payload.Value? &&
      (payload.value.JNull? ||
       (payload.value.JObject? &&
        (IsUnset(payload.value.fields, RequestKey) || payload.value.fields[RequestKey].JObject?)))
    ensures r.Success? && payload.value.JObject? ==>
      r.value.settings == RawField(payload.value.fields, SettingsKey)
    ensures r.Success? && payload.value.JObject? && RequestKey in payload.value.fields &&
            payload.value.fields[RequestKey].JObject? ==>
      r.value.reviewed == RawField(payload.value.fields[RequestKey].fields, ObjectKey)
  {
    match payload
    case Absent => Failure(UnexpectedEnd)
    case Malformed(reason) => Failure(Syntax(reason))
    case Value(JNull) => Success(ValidationRequest(Absent, Absent))
    case Value(JObject(fields)) =>
      var settings := RawField(fields, SettingsKey);
      if IsUnset(fields, RequestKey) then
        Success(ValidationRequest(settings, Absent))
      else if fields[RequestKey].JObject? then
        Success(ValidationRequest(settings, RawField(fields[RequestKey].fields, ObjectKey)))
      else
        Failure(TypeMismatch(KindName(fields[RequestKey]), "ValidationRequest.request",
                             "protocol.KubernetesAdmissionRequest"))
    case Value(other) =>
      Failure(TypeMismatch(KindName(other), "", "protocol.ValidationRequest"))
  }
}
