/** Messages as the client sees them: a type name, and of the fields only those the client itself reads. */
module Proto {
  import opened Wrappers
  import opened Bytes

  const LOGIN_REQUEST: byte := 1
  const LOGIN_RESPONSE: byte := 2
  const DEVICES_LIST_REQUEST: byte := 3
  const DEVICES_LIST_RESPONSE: byte := 4
  const CALL_EVENTS: byte := 13
  const UPDATE_DEVICE_REQUEST: byte := 24
  const UPDATE_DEVICE_RESPONSE: byte := 25
  const CURRENT_STATE_REQUEST: byte := 26
  const CURRENT_STATE_RESPONSE: byte := 27
  const DEVICE_SETTINGS_REQUEST: byte := 28
  const DEVICE_SETTINGS_RESPONSE: byte := 29
  const NETWORK_SETTINGS_REQUEST: byte := 30
  const NETWORK_SETTINGS_RESPONSE: byte := 31
  const UNKNOWN: byte := 255

  /** The message classes; `Other` stands for every class without a type code. */
  datatype TypeName =
    | LoginRequest | LoginResponse
    | DevicesListRequest | DevicesListResponse
    | DeviceSettingsRequest | DeviceSettingsResponse
    | CallEvents
    | UpdateDeviceRequest | UpdateDeviceResponse
    | CurrentStateRequest | CurrentStateResponse
    | NetworkSettingsRequest | NetworkSettingsResponse
    | Other(name: string)

  datatype SessionInformation = SessionInformation(
    userId: int, admin: bool, publicKey: bytes, privateKey: bytes, serialNumber: string)

  /** The first event of a CallEvents message: its number, and its value as the client tells it apart. */
  datatype SessionValue = SessionExpired | ExpiresIn(seconds: int) | Unreadable
  datatype FirstEvent = FirstEvent(number: int, value: SessionValue)

  const EVENT_SESSION: int := 10

  /** Serialized messages are measured with an int. */
  type Wire = b: bytes | |b| <= 0x7FFF_FFFF witness []

  /** `wire` is the serialized form; the rest are the fields the client looks at. */
  datatype Content = Content(wire: Wire, loginStatus: int, session: SessionInformation, firstEvent: Option<FirstEvent>)

  datatype Message = Message(typeName: TypeName, content: Content)

  function TypeFor(name: TypeName): (t: byte) {
    match name
    case LoginRequest => LOGIN_REQUEST
    case LoginResponse => LOGIN_RESPONSE
    case DevicesListRequest => DEVICES_LIST_REQUEST
    case DevicesListResponse => DEVICES_LIST_RESPONSE
    case DeviceSettingsRequest => DEVICE_SETTINGS_REQUEST
    case DeviceSettingsResponse => DEVICE_SETTINGS_RESPONSE
    case CallEvents => CALL_EVENTS
    case UpdateDeviceRequest => UPDATE_DEVICE_REQUEST
    case UpdateDeviceResponse => UPDATE_DEVICE_RESPONSE
    case CurrentStateRequest => CURRENT_STATE_REQUEST
    case CurrentStateResponse => CURRENT_STATE_RESPONSE
    case NetworkSettingsRequest => NETWORK_SETTINGS_REQUEST
    case NetworkSettingsResponse => NETWORK_SETTINGS_RESPONSE
    case Other(_) => UNKNOWN
  }

  function MessageTypeFor(m: Message): byte { TypeFor(m.typeName) }

  /** The class newMessageFor instantiates for a type code, if any. */
  function ClassFor(t: byte): Option<TypeName> {
    if t == LOGIN_REQUEST then Some(LoginRequest)
    else if t == LOGIN_RESPONSE then Some(LoginResponse)
    else if t == DEVICES_LIST_REQUEST then Some(DevicesListRequest)
    else if t == DEVICES_LIST_RESPONSE then Some(DevicesListResponse)
    else if t == DEVICE_SETTINGS_REQUEST then Some(DeviceSettingsRequest)
    else if t == DEVICE_SETTINGS_RESPONSE then Some(DeviceSettingsResponse)
    else if t == CALL_EVENTS then Some(CallEvents)
    else if t == UPDATE_DEVICE_REQUEST then Some(UpdateDeviceRequest)
    else if t == UPDATE_DEVICE_RESPONSE then Some(UpdateDeviceResponse)
    else if t == CURRENT_STATE_REQUEST then Some(CurrentStateRequest)
    else if t == CURRENT_STATE_RESPONSE then Some(CurrentStateResponse)
    else if t == NETWORK_SETTINGS_REQUEST then Some(NetworkSettingsRequest)
    else if t == NETWORK_SETTINGS_RESPONSE then Some(NetworkSettingsResponse)
    else None
  }

  /** The codes of MessageType.h, in both tables, and the session event of EventNumber.h. */
  lemma {:induction false} Codes(t: byte)
    ensures TypeFor(LoginRequest) == 1 && TypeFor(LoginResponse) == 2
    ensures TypeFor(DevicesListRequest) == 3 && TypeFor(DevicesListResponse) == 4 && TypeFor(CallEvents) == 13
    ensures TypeFor(UpdateDeviceRequest) == 24 && TypeFor(UpdateDeviceResponse) == 25
    ensures TypeFor(CurrentStateRequest) == 26 && TypeFor(CurrentStateResponse) == 27
    ensures TypeFor(DeviceSettingsRequest) == 28 && TypeFor(DeviceSettingsResponse) == 29
    ensures TypeFor(NetworkSettingsRequest) == 30 && TypeFor(NetworkSettingsResponse) == 31
    ensures forall name: string :: TypeFor(Other(name)) == 255
    ensures ClassFor(t).Some? <==> 1 <= t <= 4 || t == 13 || 24 <= t <= 31
    ensures ClassFor(t).Some? ==> TypeFor(ClassFor(t).value) == t
    ensures EVENT_SESSION == 10
  {
  }

  /** The two tables are inverse to each other on the known types. */
  lemma TypeTablesAgree(name: TypeName, t: byte)
    ensures ClassFor(t) == Some(name) <==> TypeFor(name) == t && t != UNKNOWN
    ensures TypeFor(name) == UNKNOWN <==> name.Other?
    ensures ClassFor(t).None? ==> TypeFor(name) != t || t == UNKNOWN
  {
  }
}
