/**
 * The broker-connection state machine of `MQTTService`, as pure functions over the
 * service's state. Each function is one thing the service does: its initialisation, a
 * preference change, the connection attempt, the ConnAck completion, an inbound
 * message, a publish and the shutdown. The transport is abstract: the state records
 * the actions requested of it, in order, in `log`.
 */
module MqttModel {
  import opened Base
  import opened KotlinText
  import opened Preferences

  /** The preference keys the service reads or listens for. */
  const ServerAddressKey := "server_address"
  const PortKey := "port"
  const UsernameKey := "username"
  const PasswordKey := "password"
  const MicTopicKey := "mic_topic_name"
  /** The key the change listener matches for the inbound topic ... */
  const DinTopicKey := "din_topic_name"
  /** ... differs from the key the inbound topic is read from. */
  const DynTopicKey := "dyn_topic_name"

  const DefaultServerAddress := "0.0.0.0"
  const DefaultPort := "1883"
  const UrlPrefix := "mqtt://"

  /** The three strings `connectionStatus` takes. */
  datatype Status = NotConnected | Connecting | Connected

  datatype Qos = AtMostOnce | AtLeastOnce | ExactlyOnce

  /** The reason codes of an MQTT 5 CONNACK packet (section 3.2.2.2 of MQTT Version 5.0). */
  datatype ConnAckReasonCode =
    | Success
    | UnspecifiedError | MalformedPacket | ProtocolError | ImplementationSpecificError
    | UnsupportedProtocolVersion | ClientIdentifierNotValid | BadUserNameOrPassword
    | NotAuthorized | ServerUnavailable | ServerBusy | Banned | BadAuthenticationMethod
    | TopicNameInvalid | PacketTooLarge | QuotaExceeded | PayloadFormatInvalid
    | RetainNotSupported | QosNotSupported | UseAnotherServer | ServerMoved
    | ConnectionRateExceeded

  datatype Credentials = Credentials(username: string, password: string)

  /**
   * A built client. `handle` stands for the random client identifier: every build
   * uses a new one.
   */
  datatype Client = Client(handle: nat, host: string, port: int, auth: Option<Credentials>)

  /** A request made of the transport through one client. */
  datatype Action =
    | ConnectReq(handle: nat)
    | Publish(handle: nat, topic: string, payload: Bytes, qos: Qos)
    | Subscribe(handle: nat, topic: string, qos: Qos)
    | Unsubscribe(handle: nat, topic: string)
    | Disconnect(handle: nat)

  /** The settings fields: `serverID`, `serverPort`, `clientID`, `password`, `micTopic`, `dynTopic`. */
  datatype Settings = Settings(
    serverId: string, serverPort: int, clientId: string, password: string,
    micTopic: string, dynTopic: string)

  datatype ServiceState = ServiceState(
    settings: Settings,
    client: Client,
    status: Status,
    dynamic: Option<Bytes>,
    log: seq<Action>)

  /** The stored port setting is a valid `Int`. */
  predicate PortSettingParses(prefs: Store)
  {
    ToIntOrNull(GetString(prefs, PortKey, DefaultPort)).Some?
  }

  function ReadPort(prefs: Store): int
    requires PortSettingParses(prefs)
  {
    ToIntOrNull(GetString(prefs, PortKey, DefaultPort)).value
  }

  /** The keys whose change rebuilds the client. */
  predicate RebuildKey(key: Option<string>)
  {
    key == Some(ServerAddressKey) || key == Some(PortKey)
    || key == Some(UsernameKey) || key == Some(PasswordKey)
  }

  /** The keys the change listener reacts to at all. */
  predicate HandledKey(key: Option<string>)
  {
    RebuildKey(key) || key == Some(MicTopicKey) || key == Some(DinTopicKey)
  }

  /** `buildClient`: a client for the given address, with simple authentication when possible. */
  function BuildClient(handle: nat, host: string, port: int, user: string, pass: string): (c: Client)
    ensures c.handle == handle && c.host == host && c.port == port
    ensures c.auth.Some? <==> !IsBlank(user) && !IsBlank(pass)
    ensures c.auth.Some? ==> c.auth.value == Credentials(user, pass)
  {
    Client(handle, host, port,
           if !IsBlank(user) && !IsBlank(pass) then Some(Credentials(user, pass)) else None)
  }

  // ---------------------------------------------------------------------------
  // The invariant of every reachable state

  /** No action names a handle that has not been built yet. */
  predicate HandlesIssued(s: ServiceState)
  {
    forall i | 0 <= i < |s.log| :: s.log[i].handle <= s.client.handle
  }

  /** Every publish and every subscription asks for exactly-once delivery. */
  predicate ExactlyOnceOnly(log: seq<Action>)
  {
    forall i | 0 <= i < |log| :: (log[i].Publish? || log[i].Subscribe?) ==> log[i].qos == ExactlyOnce
  }

  /** The current client was built from the current connection settings. */
  predicate BoundToSettings(s: ServiceState)
  {
    s.client == BuildClient(s.client.handle, s.settings.serverId, s.settings.serverPort,
                            s.settings.clientId, s.settings.password)
  }

  predicate WellFormed(s: ServiceState)
  {
    HandlesIssued(s) && ExactlyOnceOnly(s.log) && BoundToSettings(s)
  }

  // ---------------------------------------------------------------------------
  // Operations

  /** `connect()`: report "connecting" and ask the current client to connect. */
  function Connect(s: ServiceState): (r: ServiceState)
    ensures r.status == Connecting
    ensures r.log == s.log + [ConnectReq(s.client.handle)]
    ensures r.(status := s.status, log := s.log) == s
    ensures WellFormed(s) ==> WellFormed(r)
  {
    s.(status := Connecting, log := s.log + [ConnectReq(s.client.handle)])
  }

  /** `subToAudioinput()`: subscribe the current client to the inbound topic. */
  function SubscribeInbound(s: ServiceState): (r: ServiceState)
    ensures r.log == s.log + [Subscribe(s.client.handle, s.settings.dynTopic, ExactlyOnce)]
    ensures r.(log := s.log) == s
    ensures WellFormed(s) ==> WellFormed(r)
  {
    s.(log := s.log + [Subscribe(s.client.handle, s.settings.dynTopic, ExactlyOnce)])
  }

  /** Replace the client by a freshly built one for the current settings. */
  function Rebuild(s: ServiceState): ServiceState
  {
    s.(client := BuildClient(s.client.handle + 1, s.settings.serverId, s.settings.serverPort,
                             s.settings.clientId, s.settings.password))
  }

  function InitialSettings(prefs: Store): Settings
    requires PortSettingParses(prefs)
  {
    Settings(GetString(prefs, ServerAddressKey, DefaultServerAddress), ReadPort(prefs),
             GetString(prefs, UsernameKey, ""), GetString(prefs, PasswordKey, ""),
             GetString(prefs, MicTopicKey, ""), GetString(prefs, DynTopicKey, ""))
  }

  /**
   * The service after construction: settings read from the store (the address without
   * the "mqtt://" prefix a later change adds), the first client built, and `connect()`
   * called once.
   */
  function Initial(prefs: Store): (s: ServiceState)
    requires PortSettingParses(prefs)
    ensures s.settings.serverId == GetString(prefs, ServerAddressKey, DefaultServerAddress)
    ensures s.settings.serverPort == ReadPort(prefs)
    ensures s.settings.clientId == GetString(prefs, UsernameKey, "")
    ensures s.settings.password == GetString(prefs, PasswordKey, "")
    ensures s.settings.micTopic == GetString(prefs, MicTopicKey, "")
    ensures s.settings.dynTopic == GetString(prefs, DynTopicKey, "")
    ensures s.client.handle == 0 && s.dynamic == None
    ensures s.status == Connecting && s.log == [ConnectReq(0)]
    ensures WellFormed(s)
  {
    var settings := InitialSettings(prefs);
    Connect(ServiceState(
      settings,
      BuildClient(0, settings.serverId, settings.serverPort, settings.clientId, settings.password),
      NotConnected, None, []))
  }

  /**
   * A store that holds no port setting falls back to the default "1883", which parses:
   * the service can be constructed on an empty store, and then uses port 1883.
   */
  lemma EmptyStoreUsesDefaultPort()
    ensures PortSettingParses(map[])
    ensures Initial(map[]).settings.serverPort == 1883
  {
    DefaultPortParses();
  }

  /** The `when (key)` of `onSharedPreferenceChanged`, before the final `connect()`. */
  function Reconfigure(s: ServiceState, key: Option<string>, prefs: Store): (r: ServiceState)
    requires key == Some(PortKey) ==> PortSettingParses(prefs)
    ensures r.status == s.status && r.dynamic == s.dynamic
    ensures WellFormed(s) ==> WellFormed(r)
    ensures RebuildKey(key) ==> r.client.handle == s.client.handle + 1 && r.log == s.log && BoundToSettings(r)
    ensures key == Some(ServerAddressKey) ==>
      r.settings == s.settings.(serverId := UrlPrefix + GetString(prefs, ServerAddressKey, DefaultServerAddress))
    ensures key == Some(PortKey) ==> r.settings == s.settings.(serverPort := ReadPort(prefs))
    ensures key == Some(UsernameKey) ==> r.settings == s.settings.(clientId := GetString(prefs, UsernameKey, ""))
    ensures key == Some(PasswordKey) ==> r.settings == s.settings.(password := GetString(prefs, PasswordKey, ""))
    ensures key == Some(MicTopicKey) ==>
      r.settings == s.settings.(micTopic := GetString(prefs, MicTopicKey, "")) && r.client == s.client && r.log == s.log
    ensures key == Some(DinTopicKey) ==>
      r.settings == s.settings.(dynTopic := GetString(prefs, DynTopicKey, "")) && r.client == s.client
      && r.log == s.log + [Subscribe(s.client.handle, r.settings.dynTopic, ExactlyOnce)]
    ensures !HandledKey(key) ==> r == s
  {
    var settings := s.settings;
    if key == Some(ServerAddressKey) then
      Rebuild(s.(settings := settings.(serverId := UrlPrefix + GetString(prefs, ServerAddressKey, DefaultServerAddress))))
    else if key == Some(PortKey) then
      Rebuild(s.(settings := settings.(serverPort := ReadPort(prefs))))
    else if key == Some(UsernameKey) then
      Rebuild(s.(settings := settings.(clientId := GetString(prefs, UsernameKey, ""))))
    else if key == Some(PasswordKey) then
      Rebuild(s.(settings := settings.(password := GetString(prefs, PasswordKey, ""))))
    else if key == Some(MicTopicKey) then
      s.(settings := settings.(micTopic := GetString(prefs, MicTopicKey, "")))
    else if key == Some(DinTopicKey) then
      SubscribeInbound(s.(settings := settings.(dynTopic := GetString(prefs, DynTopicKey, ""))))
    else
      s
  }

  /**
   * `onSharedPreferenceChanged(prefs, key)`. The four connection keys each change their
   * own setting and replace the client by a new one (the old one is neither unsubscribed
   * nor disconnected); the microphone topic changes with no transport action; the
   * listener's "din_topic_name" reads "dyn_topic_name" and subscribes it on the current
   * client without unsubscribing the old topic; every other key changes nothing. Every
   * change, whatever the key, ends with `connect()` on the client then current.
   */
  function PreferenceChanged(s: ServiceState, key: Option<string>, prefs: Store): (r: ServiceState)
    requires key == Some(PortKey) ==> PortSettingParses(prefs)
    ensures r.status == Connecting && r.dynamic == s.dynamic
    ensures |r.log| > |s.log| && r.log[..|s.log|] == s.log
    ensures Last(r.log) == ConnectReq(r.client.handle)
    ensures forall i | |s.log| <= i < |r.log| :: r.log[i].ConnectReq? || r.log[i].Subscribe?
    ensures WellFormed(s) ==> WellFormed(r)
    ensures RebuildKey(key) ==>
      r.client.handle == s.client.handle + 1 && r.log == s.log + [ConnectReq(r.client.handle)]
      && BoundToSettings(r)
    ensures RebuildKey(key) && HandlesIssued(s) ==>
      forall i | 0 <= i < |s.log| :: s.log[i].handle != r.client.handle
    ensures key == Some(ServerAddressKey) ==>
      r.settings == s.settings.(serverId := UrlPrefix + GetString(prefs, ServerAddressKey, DefaultServerAddress))
    ensures key == Some(PortKey) ==> r.settings == s.settings.(serverPort := ReadPort(prefs))
    ensures key == Some(UsernameKey) ==> r.settings == s.settings.(clientId := GetString(prefs, UsernameKey, ""))
    ensures key == Some(PasswordKey) ==> r.settings == s.settings.(password := GetString(prefs, PasswordKey, ""))
    ensures key == Some(MicTopicKey) ==>
      r.settings == s.settings.(micTopic := GetString(prefs, MicTopicKey, ""))
      && r.client == s.client && r.log == s.log + [ConnectReq(s.client.handle)]
    ensures key == Some(DinTopicKey) ==>
      r.settings == s.settings.(dynTopic := GetString(prefs, DynTopicKey, ""))
      && r.client == s.client
      && r.log == s.log + [Subscribe(s.client.handle, r.settings.dynTopic, ExactlyOnce),
                           ConnectReq(s.client.handle)]
    ensures !HandledKey(key) ==>
      r.settings == s.settings && r.client == s.client && r.log == s.log + [ConnectReq(s.client.handle)]
  {
    Connect(Reconfigure(s, key, prefs))
  }

  /**
   * The completion of `connect()`: the status follows the reason code and, on success
   * only, the inbound topic is subscribed. The client used is the current one, whichever
   * client the acknowledgement came from.
   */
  function ConnAckReceived(s: ServiceState, code: ConnAckReasonCode): (r: ServiceState)
    ensures code == Success ==>
      r.status == Connected
      && r.log == s.log + [Subscribe(s.client.handle, s.settings.dynTopic, ExactlyOnce)]
    ensures code != Success ==> r.status == NotConnected && r.log == s.log
    ensures r.(status := s.status, log := s.log) == s
    ensures WellFormed(s) ==> WellFormed(r)
  {
    var t := s.(status := if code == Success then Connected else NotConnected);
    if code == Success then SubscribeInbound(t) else t
  }

  /** The subscription callback: a message with a payload replaces `dynamic`. */
  function MessageArrived(s: ServiceState, payload: Option<Bytes>): (r: ServiceState)
    ensures payload.Some? ==> r.dynamic == payload
    ensures payload.None? ==> r == s
    ensures r.(dynamic := s.dynamic) == s
    ensures WellFormed(s) ==> WellFormed(r)
  {
    if payload.Some? then s.(dynamic := payload) else s
  }

  /** `send(payload)`: one exactly-once publish on the microphone topic, only when connected. */
  function Send(s: ServiceState, payload: Bytes): (r: ServiceState)
    ensures s.status == Connected ==>
      r.log == s.log + [Publish(s.client.handle, s.settings.micTopic, payload, ExactlyOnce)]
    ensures s.status != Connected ==> r == s
    ensures r.(log := s.log) == s
    ensures WellFormed(s) ==> WellFormed(r)
  {
    if s.status == Connected then
      s.(log := s.log + [Publish(s.client.handle, s.settings.micTopic, payload, ExactlyOnce)])
    else
      s
  }

  /** `shutDown()`: unsubscribe the inbound topic, then disconnect; the status is left as it is. */
  function ShutDown(s: ServiceState): (r: ServiceState)
    ensures r.log == s.log + [Unsubscribe(s.client.handle, s.settings.dynTopic), Disconnect(s.client.handle)]
    ensures r.(log := s.log) == s
    ensures WellFormed(s) ==> WellFormed(r)
  {
    s.(log := s.log + [Unsubscribe(s.client.handle, s.settings.dynTopic), Disconnect(s.client.handle)])
  }
}
