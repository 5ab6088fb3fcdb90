/**
 * `MQTTService` as a class: the mutable fields of the Kotlin class, and one method per
 * operation or callback, each proved to move the fields exactly as the matching function
 * of `MqttModel` says. The ConnAck completion and the subscription callback, which the
 * transport runs later, are methods the environment calls.
 */
module Mqtt {
  import opened Base
  import opened Preferences
  import opened MqttModel

  class MqttService {
    var serverId: string
    var serverPort: int
    var clientId: string
    var password: string
    var micTopic: string
    var dynTopic: string
    var mqttClient: Client
    var connectionStatus: Status
    var dynamic: Option<Bytes>
    /** The actions requested of the transport so far, oldest first. */
    ghost var log: seq<Action>

    ghost function State(): ServiceState
      reads this
    {
      ServiceState(Settings(serverId, serverPort, clientId, password, micTopic, dynTopic),
                   mqttClient, connectionStatus, dynamic, log)
    }

    ghost predicate Valid()
      reads this
    {
      WellFormed(State())
    }

    /** Field initialisers and `init`: read the settings, build the first client, connect. */
    constructor (prefs: Store)
      requires PortSettingParses(prefs)
      ensures Valid() && State() == Initial(prefs)
    {
      var settings := InitialSettings(prefs);
      serverId := settings.serverId;
      serverPort := settings.serverPort;
      clientId := settings.clientId;
      password := settings.password;
      micTopic := settings.micTopic;
      dynTopic := settings.dynTopic;
      mqttClient := BuildClient(0, settings.serverId, settings.serverPort, settings.clientId, settings.password);
      connectionStatus := NotConnected;
      dynamic := None;
      log := [];
      new;
      Connect();
    }

    method Send(payload: Bytes)
      requires Valid()
      modifies this
      ensures Valid() && State() == MqttModel.Send(old(State()), payload)
    {
      if connectionStatus == Connected {
        log := log + [Publish(mqttClient.handle, micTopic, payload, ExactlyOnce)];
      }
    }

    method ShutDown()
      requires Valid()
      modifies this
      ensures Valid() && State() == MqttModel.ShutDown(old(State()))
    {
      log := log + [Unsubscribe(mqttClient.handle, dynTopic)];
      log := log + [Disconnect(mqttClient.handle)];
    }

    /** Build a new client for the current settings and make it the current one. */
    method RebuildClient()
      modifies this`mqttClient
      ensures mqttClient == BuildClient(old(mqttClient.handle) + 1, serverId, serverPort, clientId, password)
    {
      mqttClient := BuildClient(mqttClient.handle + 1, serverId, serverPort, clientId, password);
    }

    method OnSharedPreferenceChanged(key: Option<string>, prefs: Store)
      requires Valid()
      requires key == Some(PortKey) ==> PortSettingParses(prefs)
      modifies this
      ensures Valid() && State() == PreferenceChanged(old(State()), key, prefs)
    {
      if key == Some(ServerAddressKey) {
        serverId := UrlPrefix + GetString(prefs, ServerAddressKey, DefaultServerAddress);
        RebuildClient();
      } else if key == Some(PortKey) {
        serverPort := ReadPort(prefs);
        RebuildClient();
      } else if key == Some(UsernameKey) {
        clientId := GetString(prefs, UsernameKey, "");
        RebuildClient();
      } else if key == Some(PasswordKey) {
        password := GetString(prefs, PasswordKey, "");
        RebuildClient();
      } else if key == Some(MicTopicKey) {
        micTopic := GetString(prefs, MicTopicKey, "");
      } else if key == Some(DinTopicKey) {
        dynTopic := GetString(prefs, DynTopicKey, "");
        SubToAudioInput();
      }
      assert WellFormed(State()) && State() == Reconfigure(old(State()), key, prefs);
      Connect();
    }

    method Connect()
      requires Valid()
      modifies this
      ensures Valid() && State() == MqttModel.Connect(old(State()))
    {
      connectionStatus := Connecting;
      log := log + [ConnectReq(mqttClient.handle)];
    }

    /** The `whenComplete` continuation of `connect()`. */
    method OnConnAck(code: ConnAckReasonCode)
      requires Valid()
      modifies this
      ensures Valid() && State() == ConnAckReceived(old(State()), code)
    {
      connectionStatus := if code == Success then Connected else NotConnected;
      if code == Success {
        SubToAudioInput();
      }
    }

    method SubToAudioInput()
      requires Valid()
      modifies this
      ensures Valid() && State() == SubscribeInbound(old(State()))
    {
      log := log + [Subscribe(mqttClient.handle, dynTopic, ExactlyOnce)];
    }

    /** The subscription callback, run for each message on the inbound topic. */
    method OnMessage(payload: Option<Bytes>)
      requires Valid()
      modifies this
      ensures Valid() && State() == MessageArrived(old(State()), payload)
    {
      if payload.Some? {
        dynamic := payload;
      }
    }
  }
}
