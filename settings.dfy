/**
 * Policy settings: the set of trusted registry prefixes, decoded from an
 * optional `trusted_registries` string list, and the single rule that the
 * set must not be empty.
 */
module PolicySettings {
  import opened Wrappers
  import opened Json
  import opened Protocol

  const TrustedRegistriesKey := "trusted_registries"
  const NoRegistriesMessage := "no trusted registries provided"
  const InvalidSettingsPrefix := "Provided settings are not valid: "

  /** The Go type of the intermediate value the settings document is decoded into. */
  const RawSettingsType := "struct { TrustedRegistries []string \"json:\\\"trusted_registries\\\"\" }"

  /** The answer to a settings-validation call. */
  datatype SettingsResponse = AcceptSettings | RejectSettings(message: string)

  /** One entry of `trusted_registries`: a string, or `null`, which leaves the
      zero string in the Go slice. */
  function DecodeRegistry(j: Json): Result<string, DecodeError>
  {
    match j
    case JString(s) => Success(s)
    case JNull => Success("")
    case _ => Failure(TypeMismatch(KindName(j), "." + TrustedRegistriesKey, "string"))
  }

  /** The string a string-or-`null` entry leaves in the Go slice. */
  function EntryText(j: Json): string
  {
    if j.JString? then j.s else ""
  }

  /** The entries of `trusted_registries`, decoded one by one and in order;
      the first entry of the wrong kind is the error reported. */
  function DecodeRegistries(items: seq<Json>): (r: Result<seq<string>, DecodeError>)
    ensures r.Success? <==> forall i :: 0 <= i < |items| ==> DecodeRegistry(items[i]).Success?
    ensures r.Success? ==>
      |r.value| == |items| &&
      forall i :: 0 <= i < |items| ==> DecodeRegistry(items[i]) == Success(r.value[i])
    ensures r.Failure? ==>
      exists i :: 0 <= i < |items| && DecodeRegistry(items[i]) == Failure(r.error) &&
        forall j :: 0 <= j < i ==> DecodeRegistry(items[j]).Success?
  {
    if items == [] then Success([])
    else
      match DecodeRegistry(items[0])
      case Failure(e) => Failure(e)
      case Success(s) =>
        match DecodeRegistries(items[1..])
        case Failure(e) => Failure(e)
        case Success(rest) => Success([s] + rest)
  }

  /** The list `UnmarshalJSON` reads from a well-formed settings document:
      empty when the document is `null` or has no (or a `null`)
      `trusted_registries` member; other members are ignored. */
  function DecodeRegistryList(data: Json): (r: Result<seq<string>, DecodeError>)
    ensures r.Success? <==>
      (data.JNull? ||
       (data.JObject? &&
        (IsUnset(data.fields, TrustedRegistriesKey) ||
         (data.fields[TrustedRegistriesKey].JArray? && DecodeRegistries(data.fields[TrustedRegistriesKey].items).Success?))))
  {
    match data
    case JNull => Success([])
    case JObject(fields) =>
      if IsUnset(fields, TrustedRegistriesKey) then Success([])
      else if fields[TrustedRegistriesKey].JArray? then DecodeRegistries(fields[TrustedRegistriesKey].items)
      else Failure(TypeMismatch(KindName(fields[TrustedRegistriesKey]), "." + TrustedRegistriesKey, "[]string"))
    case _ => Failure(TypeMismatch(KindName(data), "", RawSettingsType))
  }

  /** The set a successful `json.Unmarshal(raw, &settings)` leaves in
      `settings.TrustedRegistries`, or the error it returns. */
  function DecodeSettings(raw: RawJson): (r: Result<set<string>, DecodeError>)
    ensures raw.Absent? ==> r == Failure(UnexpectedEnd)
    ensures r.Success? <==> raw.Value? && DecodeRegistryList(raw.value).Success?
    ensures r.Success? ==> |r.value| <= |DecodeRegistryList(raw.value).value|
  {
    match raw
    case Absent => Failure(UnexpectedEnd)
    case Malformed(reason) => Failure(Syntax(reason))
    case Value(data) =>
      match DecodeRegistryList(data)
      case Failure(e) => Failure(e)
      case Success(list) =>
        RegistryCount(list);
        Success(set r | r in list)
  }

  class Settings {
    var trustedRegistries: set<string>

    /** The zero `Settings{}`. */
    constructor ()
      ensures trustedRegistries == {}
    {
      trustedRegistries := {};
    }

    /** Replaces the trusted set by the elements of the decoded list; on a
        decode error the receiver is left as it was. */
    method UnmarshalJSON(data: Json) returns (err: Option<DecodeError>)
      modifies this
      ensures DecodeRegistryList(data).Success? ==>
        err == None && trustedRegistries == set r | r in DecodeRegistryList(data).value
      ensures DecodeRegistryList(data).Failure? ==>
        err == Some(DecodeRegistryList(data).error) && trustedRegistries == old(trustedRegistries)
    {
      var raw := DecodeRegistryList(data);
      if raw.Failure? {
        return Some(raw.error);
      }
      trustedRegistries := set r | r in raw.value;
      return None;
    }

    /** `json.Unmarshal(raw, &s)`: an empty or malformed buffer fails before
        `UnmarshalJSON` is reached; a well-formed one is handed to it. */
    method Unmarshal(raw: RawJson) returns (err: Option<DecodeError>)
      modifies this
      ensures DecodeSettings(raw).Success? ==> err == None && trustedRegistries == DecodeSettings(raw).value
      ensures DecodeSettings(raw).Failure? ==>
        err == Some(DecodeSettings(raw).error) && trustedRegistries == old(trustedRegistries)
    {
      match raw
      case Absent => err := Some(UnexpectedEnd);
      case Malformed(reason) => err := Some(Syntax(reason));
      case Value(data) => err := UnmarshalJSON(data);
    }

    /** The settings' single rule: at least one trusted registry. */
    function Valid(): (r: (bool, Option<string>))
      reads this
      ensures r.0 <==> trustedRegistries != {}
      ensures r.1.None? <==> r.0
      ensures r.1.Some? ==> r.1.value == NoRegistriesMessage
    {
      if |trustedRegistries| == 0 then (false, Some(NoRegistriesMessage)) else (true, None)
    }
  }

  /** The settings carried by a validation request, or a zero `Settings{}`
      together with the decode error. */
  method NewSettingsFromValidationReq(req: ValidationRequest) returns (settings: Settings, err: Option<DecodeError>)
    ensures fresh(settings)
    ensures DecodeSettings(req.settings).Success? ==>
      err == None && settings.trustedRegistries == DecodeSettings(req.settings).value
    ensures DecodeSettings(req.settings).Failure? ==>
      err == Some(DecodeSettings(req.settings).error) && settings.trustedRegistries == {}
  {
    settings := new Settings();
    err := settings.Unmarshal(req.settings);
    if err.Some? {
      settings := new Settings();
    }
  }

  /** Settings validation on its own: accepts exactly the settings that
      decode to a non-empty set; every rejection message starts with the
      same prefix, followed by the decode error or the empty-set error. */
  method ValidateSettings(payload: RawJson) returns (r: SettingsResponse)
    ensures r.AcceptSettings? <==> DecodeSettings(payload).Success? && DecodeSettings(payload).value != {}
    ensures DecodeSettings(payload).Failure? ==>
      r == RejectSettings(InvalidSettingsPrefix + ErrorText(DecodeSettings(payload).error))
    ensures DecodeSettings(payload) == Success({}) ==>
      r == RejectSettings(InvalidSettingsPrefix + NoRegistriesMessage)
  {
    var settings := new Settings();
    var err := settings.Unmarshal(payload);
    if err.Some? {
      return RejectSettings(InvalidSettingsPrefix + ErrorText(err.value));
    }
    var validity := settings.Valid();
    if validity.0 {
      return AcceptSettings;
    }
    return RejectSettings(InvalidSettingsPrefix + validity.1.value);
  }

  /** A settings object without a `trusted_registries` member (or with a
      `null` one) decodes without error to the empty set, which is invalid. */
  lemma UnsetRegistriesDecodeEmpty(fields: map<string, Json>)
    requires IsUnset(fields, TrustedRegistriesKey)
    ensures DecodeSettings(Value(JObject(fields))) == Success({})
  {
    var list := DecodeRegistryList(JObject(fields)).value;
    assert list == [];
    assert (set r | r in list) == {};
  }

  /** A `trusted_registries` member that is neither an array nor `null` is a
      decode error naming the member. */
  lemma NonArrayRegistriesRejected(fields: map<string, Json>)
    requires TrustedRegistriesKey in fields
    requires !fields[TrustedRegistriesKey].JNull? && !fields[TrustedRegistriesKey].JArray?
    ensures DecodeSettings(Value(JObject(fields))) ==
      Failure(TypeMismatch(KindName(fields[TrustedRegistriesKey]), "." + TrustedRegistriesKey, "[]string"))
  {
  }

  /** A settings object whose `trusted_registries` is a list decodes as that
      list, whatever the object's other members. */
  lemma RegistryListIsEntries(items: seq<Json>, fields: map<string, Json>)
    requires TrustedRegistriesKey in fields && fields[TrustedRegistriesKey] == JArray(items)
    ensures DecodeRegistryList(JObject(fields)) == DecodeRegistries(items)
  {
  }

  /** Well-formed settings decode to the set of their list's strings. */
  lemma SettingsAreListSet(data: Json)
    requires DecodeRegistryList(data).Success?
    ensures DecodeSettings(Value(data)) == Success(set r | r in DecodeRegistryList(data).value)
  {
  }

  /** A decoded list holds, position by position, the entries' strings. */
  lemma DecodedEntries(items: seq<Json>)
    requires DecodeRegistries(items).Success?
    ensures |DecodeRegistries(items).value| == |items|
    ensures forall i :: 0 <= i < |items| ==> DecodeRegistries(items).value[i] == EntryText(items[i])
  {
    var list := DecodeRegistries(items).value;
    forall i | 0 <= i < |items|
      ensures list[i] == EntryText(items[i])
    {
      assert DecodeRegistry(items[i]) == Success(list[i]);
    }
  }

  /** A list that holds the entries' strings has the entries' strings as
      its set. */
  lemma EntriesSet(list: seq<string>, items: seq<Json>)
    requires |list| == |items|
    requires forall i :: 0 <= i < |items| ==> list[i] == EntryText(items[i])
    ensures (set r | r in list) == (set i | 0 <= i < |items| :: EntryText(items[i]))
  {
    var entries := set i | 0 <= i < |items| :: EntryText(items[i]);
    forall r | r in list
      ensures r in entries
    {
      var i :| 0 <= i < |list| && list[i] == r;
      assert EntryText(items[i]) == r;
    }
  }

  /** The decoded set is exactly the set of the list's entries, a `null`
      entry contributing the empty string; duplicates collapse. */
  lemma DecodedSetIsListElements(items: seq<Json>, fields: map<string, Json>)
    requires TrustedRegistriesKey in fields && fields[TrustedRegistriesKey] == JArray(items)
    requires DecodeRegistries(items).Success?
    ensures DecodeSettings(Value(JObject(fields))) == Success(set i | 0 <= i < |items| :: EntryText(items[i]))
  {
    var list := DecodeRegistries(items).value;
    RegistryListIsEntries(items, fields);
    SettingsAreListSet(JObject(fields));
    DecodedEntries(items);
    EntriesSet(list, items);
  }

  /** The cardinality of the decoded set is at most the list's length and
      equals it when the strings are pairwise distinct. */
  lemma {:induction false} RegistryCount(list: seq<string>)
    ensures |set r | r in list| <= |list|
    ensures (forall i, j :: 0 <= i < j < |list| ==> list[i] != list[j]) ==> |set r | r in list| == |list|
  {
    if list != [] {
      RegistryCount(list[1..]);
      var rest := set r | r in list[1..];
      assert (set r | r in list) == {list[0]} + rest;
      if forall i, j :: 0 <= i < j < |list| ==> list[i] != list[j] {
        assert forall i, j :: 0 <= i < j < |list[1..]| ==> list[1..][i] != list[1..][j] by {
          forall i, j | 0 <= i < j < |list[1..]| ensures list[1..][i] != list[1..][j] {
            assert list[1..][i] == list[i + 1] && list[1..][j] == list[j + 1];
          }
        }
        assert list[0] !in rest;
      }
    }
  }

  /** The settings document of the test suite: two distinct registries give a
      set of two, and the settings are valid. */
  lemma TwoRegistriesDecoded()
    ensures DecodeSettings(Value(JObject(map[TrustedRegistriesKey :=
      JArray([JString("quay.io"), JString("docker.io/library")])]))) == Success({"quay.io", "docker.io/library"})
    ensures |{"quay.io", "docker.io/library"}| == 2
  {
    var items := [JString("quay.io"), JString("docker.io/library")];
    DecodedSetIsListElements(items, map[TrustedRegistriesKey := JArray(items)]);
    assert (set i | 0 <= i < |items| :: EntryText(items[i])) == {"quay.io", "docker.io/library"} by {
      assert items[0].s == "quay.io" && items[1].s == "docker.io/library";
    }
  }
}
