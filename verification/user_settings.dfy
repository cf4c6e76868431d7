/**
 * A user's stored setting: the closed setting-type enumeration, the payload
 * wrapper, and the mapping between the setting record and its document.
 */
module UserSettings {
  import opened Results
  import opened Json
  import Strings

  // The setting type.

  datatype SettingType = Global | Application | Server

  function TypeName(t: SettingType): string {
    match t
    case Global => "GLOBAL"
    case Application => "APPLICATION"
    case Server => "SERVER"
  }

  /** `UserSettingType(v)`: lookup by value; anything else raises `ValueError`. */
  function ParseType(v: Value): Option<SettingType> {
    if v == Str("GLOBAL") then Some(Global)
    else if v == Str("APPLICATION") then Some(Application)
    else if v == Str("SERVER") then Some(Server)
    else None
  }

  /** Exactly the three names are accepted, each for its own member. */
  lemma ParseTypeRoundTrip(t: SettingType, v: Value)
    ensures ParseType(Str(TypeName(t))) == Some(t)
    ensures ParseType(v).Some? ==> v == Str(TypeName(ParseType(v).value))
    ensures ParseType(v).Some? <==> v in {Str("GLOBAL"), Str("APPLICATION"), Str("SERVER")}
  {
    assert "GLOBAL" != "SERVER" && "APPLICATION" != "SERVER" && "GLOBAL" != "APPLICATION" by {
      assert |"GLOBAL"| == 6 && |"APPLICATION"| == 11 && "GLOBAL"[0] != "SERVER"[0];
    }
  }

  // The payload.

  /** The setting body, kept as given. */
  datatype Payload = Payload(setting: Value)

  function PayloadFromData(data: Value): Payload {
    Payload(data)
  }

  function PayloadToDict(p: Payload): Value {
    p.setting
  }

  lemma PayloadIdentity(data: Value, p: Payload)
    ensures PayloadToDict(PayloadFromData(data)) == data
    ensures PayloadFromData(PayloadToDict(p)) == p
  {
  }

  // The setting record.

  /** `setting_time` stays whatever the document held (`None` when absent). */
  datatype Setting = Setting(identifier: Value, userId: int, payload: Payload, settingType: SettingType, settingTime: Value)

  datatype SettingError =
    | TypeError        // `int()` of `None`, a list or a dict
    | ValueError       // `int()` of text that is not an integer, or an unknown setting type
    | AttributeError   // `isoformat()` on a time that is not a datetime

  /** `int(v)` on a document value. */
  function ToInt(v: Value): Result<int, SettingError> {
    match v
    case Int(n) => Success(n)
    case Bool(b) => Success(if b then 1 else 0)
    case Str(s) =>
      (match Strings.ParseInt(s)
       case Some(n) => Success(n)
       case None => Failure(ValueError))
    case _ => Failure(TypeError)
  }

  /** The document key the payload is read from. */
  const ReadKey := "settings"

  /**
   * `from_data`: the user id through `int()`, the payload from `settings`,
   * the type through the enumeration; the identifier and time as found.
   */
  function FromDataWith(data: seq<Member>, payloadKey: string): Result<Setting, SettingError> {
    match ToInt(Get(data, "user_id").GetOr(Null))
    case Failure(e) => Failure(e)
    case Success(userId) =>
      match ParseType(Get(data, "setting_type").GetOr(Null))
      case None => Failure(ValueError)
      case Some(t) =>
        Success(Setting(Get(data, "identifier").GetOr(Null), userId,
                        PayloadFromData(Get(data, payloadKey).GetOr(Null)), t,
                        Get(data, "setting_time").GetOr(Null)))
  }

  function FromData(data: seq<Member>): Result<Setting, SettingError> {
    FromDataWith(data, ReadKey)
  }

  /** The keys `to_dict` writes, in order. */
  const DocKeys: seq<string> := ["identifier", "user_id", "setting", "setting_type", "setting_time"]

  /** `to_dict`: the time through `isoformat()`, given as a parameter that fails where the time is no datetime. */
  function ToDict(s: Setting, isoformat: Value -> Option<string>): Result<seq<Member>, SettingError> {
    if s.settingTime == Null then Failure(AttributeError)
    else
      match isoformat(s.settingTime)
      case None => Failure(AttributeError)
      case Some(iso) =>
        var vals := [s.identifier, Int(s.userId), PayloadToDict(s.payload), Str(TypeName(s.settingType)), Str(iso)];
        Success(seq(|DocKeys|, i requires 0 <= i < |DocKeys| => Member(DocKeys[i], vals[i])))
  }

  lemma DocKeysDistinct()
    ensures forall i, j :: 0 <= i < j < |DocKeys| ==> DocKeys[i] != DocKeys[j]
    ensures forall i :: 0 <= i < |DocKeys| ==> DocKeys[i] != ReadKey
  {
    assert |DocKeys[0]| == 10 && |DocKeys[1]| == 7 && |DocKeys[2]| == 7 && |DocKeys[3]| == 12 && |DocKeys[4]| == 12;
    assert |ReadKey| == 8;
    assert DocKeys[1][0] != DocKeys[2][0];
    assert DocKeys[3][9] != DocKeys[4][9];
  }

  /** In a document keyed by `DocKeys` in order, every key reads its own member and `settings` reads nothing. */
  lemma DocGet(ms: seq<Member>, p: nat)
    requires |ms| == |DocKeys| && p < |ms|
    requires forall i :: 0 <= i < |ms| ==> ms[i].key == DocKeys[i]
    ensures Get(ms, DocKeys[p]) == Some(ms[p].val)
    ensures Get(ms, ReadKey).None?
  {
    DocKeysDistinct();
    GetFirst(ms, p, DocKeys[p]);
  }

  lemma ToDictKeys(s: Setting, isoformat: Value -> Option<string>)
    requires ToDict(s, isoformat).Success?
    ensures |ToDict(s, isoformat).value| == |DocKeys|
    ensures forall i :: 0 <= i < |DocKeys| ==> ToDict(s, isoformat).value[i].key == DocKeys[i]
  {
  }

  /** What `from_data` reads from a written setting. */
  lemma ToDictGets(s: Setting, isoformat: Value -> Option<string>)
    requires ToDict(s, isoformat).Success?
    ensures var ms := ToDict(s, isoformat).value;
      && Get(ms, "identifier") == Some(s.identifier)
      && Get(ms, "user_id") == Some(Int(s.userId))
      && Get(ms, "setting") == Some(s.payload.setting)
      && Get(ms, "setting_type") == Some(Str(TypeName(s.settingType)))
      && Get(ms, "setting_time") == Some(Str(isoformat(s.settingTime).value))
      && Get(ms, ReadKey).None?
  {
    var ms := ToDict(s, isoformat).value;
    ToDictKeys(s, isoformat);
    DocGet(ms, 0);
    DocGet(ms, 1);
    DocGet(ms, 2);
    DocGet(ms, 3);
    DocGet(ms, 4);
  }

  /** `to_dict` fails on a setting whose time is missing, as `from_data` leaves it when the document has none. */
  lemma ToDictNeedsTime(data: seq<Member>, isoformat: Value -> Option<string>)
    requires FromData(data).Success?
    requires forall i :: 0 <= i < |data| ==> data[i].key != "setting_time"
    ensures ToDict(FromData(data).value, isoformat) == Failure(AttributeError)
  {
  }

  /**
   * Writing a setting and reading it back keeps its identifier, user id and
   * type, and turns the time into its ISO text; the payload is lost, since
   * the document holds it under `setting` and `from_data` reads `settings`.
   */
  lemma RoundTripLosesPayload(s: Setting, isoformat: Value -> Option<string>)
    requires ToDict(s, isoformat).Success?
    ensures var back := FromData(ToDict(s, isoformat).value);
      && back.Success?
      && back.value.identifier == s.identifier && back.value.userId == s.userId
      && back.value.settingType == s.settingType
      && back.value.settingTime == Str(isoformat(s.settingTime).value)
      && back.value.payload == Payload(Null)
  {
    ToDictGets(s, isoformat);
    ParseTypeRoundTrip(s.settingType, Null);
  }

  /** A setting with a payload is one the round trip changes. */
  lemma RoundTripCounterexample(isoformat: Value -> Option<string>)
    requires isoformat(Str("t")) == Some("2020-01-01T00:00:00")
    ensures var s := Setting(Str("id"), 1, Payload(Bool(true)), Global, Str("t"));
      FromData(ToDict(s, isoformat).value) != Success(s)
  {
    var s := Setting(Str("id"), 1, Payload(Bool(true)), Global, Str("t"));
    RoundTripLosesPayload(s, isoformat);
  }

  /** `from_data` reading the payload from `setting`, the key `to_dict` writes and the schema declares. */
  function FromDataCorrected(data: seq<Member>): Result<Setting, SettingError> {
    FromDataWith(data, "setting")
  }

  /** With the corrected key, reading back a written setting keeps everything but the time's form. */
  lemma CorrectedRoundTrip(s: Setting, isoformat: Value -> Option<string>)
    requires ToDict(s, isoformat).Success?
    ensures FromDataCorrected(ToDict(s, isoformat).value)
      == Success(s.(settingTime := Str(isoformat(s.settingTime).value)))
  {
    ToDictGets(s, isoformat);
    ParseTypeRoundTrip(s.settingType, Null);
  }

  /** `from_data` refuses an unknown setting type and a user id `int()` refuses. */
  lemma FromDataFails(data: seq<Member>)
    ensures ParseType(Get(data, "setting_type").GetOr(Null)).None? ==> FromData(data).Failure?
    ensures ToInt(Get(data, "user_id").GetOr(Null)).Failure? ==>
      FromData(data) == Failure(ToInt(Get(data, "user_id").GetOr(Null)).error)
    ensures Get(data, "user_id").None? ==> FromData(data) == Failure(TypeError)
  {
  }
}
