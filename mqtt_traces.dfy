/**
 * What the service does over any sequence of the events it reacts to: preference changes,
 * ConnAck completions, inbound messages, sends from the recorder and the final shutdown.
 */
module MqttTraces {
  import opened Base
  import opened Preferences
  import opened MqttModel

  datatype Event =
    | PreferenceUpdate(key: Option<string>, prefs: Store)
    | ConnAck(client: nat, code: ConnAckReasonCode)
    | Message(payload: Option<Bytes>)
    | SendAudio(audio: Bytes)
    | ShutDownRequest

  /**
   * A ConnAck with reason code SUCCESS. `client` names the client whose connection attempt
   * it answers; the service never looks at it, so any client's acknowledgement counts.
   */
  predicate SucceededAck(e: Event)
  {
    e.ConnAck? && e.code == Success
  }

  /** A change of the port setting is only modelled when the new value parses. */
  predicate Admissible(e: Event)
  {
    e.PreferenceUpdate? && e.key == Some(PortKey) ==> PortSettingParses(e.prefs)
  }

  predicate AllAdmissible(es: seq<Event>)
  {
    forall i | 0 <= i < |es| :: Admissible(es[i])
  }

  function Step(s: ServiceState, e: Event): (r: ServiceState)
    requires Admissible(e)
  {
    match e
    case PreferenceUpdate(key, prefs) => PreferenceChanged(s, key, prefs)
    case ConnAck(_, code) => ConnAckReceived(s, code)
    case Message(payload) => MessageArrived(s, payload)
    case SendAudio(audio) => Send(s, audio)
    case ShutDownRequest => ShutDown(s)
  }

  /** The state after the events `es`, handled in order. */
  function Run(s: ServiceState, es: seq<Event>): ServiceState
    requires AllAdmissible(es)
    decreases |es|
  {
    if es == [] then s else Step(Run(s, AllButLast(es)), Last(es))
  }

  lemma PrefixAdmissible(es: seq<Event>)
    requires AllAdmissible(es) && es != []
    ensures AllAdmissible(AllButLast(es)) && Admissible(Last(es))
  {
    assert forall i | 0 <= i < |es| - 1 :: AllButLast(es)[i] == es[i];
  }

  /** The invariant holds after every run: handles issued, exactly-once QoS, client bound to settings. */
  lemma {:induction false} RunPreservesWellFormed(s: ServiceState, es: seq<Event>)
    requires AllAdmissible(es) && WellFormed(s)
    ensures WellFormed(Run(s, es))
    decreases |es|
  {
    if es != [] {
      PrefixAdmissible(es);
      RunPreservesWellFormed(s, AllButLast(es));
    }
  }

  /** Actions are only ever appended to the log. */
  lemma {:induction false} RunExtendsLog(s: ServiceState, es: seq<Event>)
    requires AllAdmissible(es)
    ensures |s.log| <= |Run(s, es).log| && Run(s, es).log[..|s.log|] == s.log
    decreases |es|
  {
    if es != [] {
      PrefixAdmissible(es);
      RunExtendsLog(s, AllButLast(es));
    }
  }

  /** The number of events that rebuild the client. */
  function Rebuilds(es: seq<Event>): nat
    decreases |es|
  {
    if es == [] then 0
    else Rebuilds(AllButLast(es)) + (if Last(es).PreferenceUpdate? && RebuildKey(Last(es).key) then 1 else 0)
  }

  /** Each rebuild, and nothing else, moves to the next client handle. */
  lemma {:induction false} HandleCountsRebuilds(s: ServiceState, es: seq<Event>)
    requires AllAdmissible(es)
    ensures Run(s, es).client.handle == s.client.handle + Rebuilds(es)
    decreases |es|
  {
    if es != [] {
      PrefixAdmissible(es);
      HandleCountsRebuilds(s, AllButLast(es));
    }
  }

  /** The latest event that sets the status: a preference change or a ConnAck. */
  function LastStatusEvent(es: seq<Event>): (r: Option<Event>)
    ensures r.Some? ==> r.value.PreferenceUpdate? || r.value.ConnAck?
    decreases |es|
  {
    if es == [] then None
    else if Last(es).PreferenceUpdate? || Last(es).ConnAck? then Some(Last(es))
    else LastStatusEvent(AllButLast(es))
  }

  /** The status the latest status-setting event leaves, or `initial` when there is none. */
  function StatusAfter(initial: Status, es: seq<Event>): Status
  {
    match LastStatusEvent(es)
    case None => initial
    case Some(e) =>
      if e.PreferenceUpdate? then Connecting
      else if e.code == Success then Connected
      else NotConnected
  }

  /** The status after any run is the one the latest status-setting event gives. */
  lemma {:induction false} RunStatus(s: ServiceState, es: seq<Event>)
    requires AllAdmissible(es)
    ensures Run(s, es).status == StatusAfter(s.status, es)
    decreases |es|
  {
    if es != [] {
      PrefixAdmissible(es);
      RunStatus(s, AllButLast(es));
    }
  }

  /**
   * The service ends up connected exactly when the latest status-setting event was a
   * successful ConnAck (or there was none and it was connected already). The ConnAck need
   * not belong to the current client: late acknowledgements are not filtered.
   */
  lemma ConnectedIffLatestConnAckSucceeded(s: ServiceState, es: seq<Event>)
    requires AllAdmissible(es)
    ensures Run(s, es).status == Connected <==>
      (LastStatusEvent(es).Some? && SucceededAck(LastStatusEvent(es).value))
      || (LastStatusEvent(es) == None && s.status == Connected)
  {
    RunStatus(s, es);
  }

  predicate NoPublish(log: seq<Action>)
  {
    forall i | 0 <= i < |log| :: !log[i].Publish?
  }

  predicate NoTeardown(log: seq<Action>)
  {
    forall i | 0 <= i < |log| :: !log[i].Unsubscribe? && !log[i].Disconnect?
  }

  /** `c` extends `b`, which extends `a`: what `c` adds to `a` is what `b` added, then what `c` added. */
  lemma AddedInTwoParts(a: seq<Action>, b: seq<Action>, c: seq<Action>)
    requires |a| <= |b| && b[..|a|] == a && |b| <= |c| && c[..|b|] == b
    ensures |a| <= |c| && c[..|a|] == a && c[|a|..] == b[|a|..] + c[|b|..]
  {
    assert c[..|b|][..|a|] == c[..|a|];
  }

  lemma NoPublishInParts(x: seq<Action>, y: seq<Action>)
    requires NoPublish(x) && NoPublish(y)
    ensures NoPublish(x + y)
  {
    assert forall i | 0 <= i < |x + y| :: (x + y)[i] == if i < |x| then x[i] else y[i - |x|];
  }

  lemma NoTeardownInParts(x: seq<Action>, y: seq<Action>)
    requires NoTeardown(x) && NoTeardown(y)
    ensures NoTeardown(x + y)
  {
    assert forall i | 0 <= i < |x + y| :: (x + y)[i] == if i < |x| then x[i] else y[i - |x|];
  }

  /** One event other than a SUCCESS ConnAck, in a state that is not connected. */
  lemma StepNoPublish(s: ServiceState, e: Event)
    requires Admissible(e) && s.status != Connected && !SucceededAck(e)
    ensures Step(s, e).status != Connected
    ensures |s.log| <= |Step(s, e).log| && Step(s, e).log[..|s.log|] == s.log
    ensures NoPublish(Step(s, e).log[|s.log|..])
  {
    var r := Step(s, e);
    match e
    case PreferenceUpdate(key, prefs) =>
      assert forall i | 0 <= i < |r.log| - |s.log| :: r.log[|s.log|..][i] == r.log[|s.log| + i];
    case ConnAck(_, code) =>
    case Message(payload) =>
    case SendAudio(audio) =>
    case ShutDownRequest =>
  }

  /**
   * Until a successful ConnAck arrives, a service that is not connected requests no
   * publish at all, however many sends it is asked for.
   */
  lemma {:induction false} NoPublishBeforeSuccess(s: ServiceState, es: seq<Event>)
    requires AllAdmissible(es) && s.status != Connected
    requires forall i | 0 <= i < |es| :: !SucceededAck(es[i])
    ensures Run(s, es).status != Connected
    ensures |s.log| <= |Run(s, es).log| && Run(s, es).log[..|s.log|] == s.log
    ensures NoPublish(Run(s, es).log[|s.log|..])
    decreases |es|
  {
    if es != [] {
      PrefixAdmissible(es);
      var p := AllButLast(es);
      assert forall i | 0 <= i < |p| :: p[i] == es[i];
      NoPublishBeforeSuccess(s, p);
      var before := Run(s, p);
      StepNoPublish(before, Last(es));
      var after := Step(before, Last(es));
      assert Run(s, es) == after;
      AddedInTwoParts(s.log, before.log, after.log);
      NoPublishInParts(before.log[|s.log|..], after.log[|before.log|..]);
    }
  }

  /** One event other than a shutdown appends no unsubscribe and no disconnect. */
  lemma StepNoTeardown(s: ServiceState, e: Event)
    requires Admissible(e) && !e.ShutDownRequest?
    ensures |s.log| <= |Step(s, e).log| && Step(s, e).log[..|s.log|] == s.log
    ensures NoTeardown(Step(s, e).log[|s.log|..])
  {
    var r := Step(s, e);
    match e
    case PreferenceUpdate(key, prefs) =>
      assert forall i | 0 <= i < |r.log| - |s.log| :: r.log[|s.log|..][i] == r.log[|s.log| + i];
    case ConnAck(_, code) =>
    case Message(payload) =>
    case SendAudio(audio) =>
  }

  /**
   * Only a shutdown unsubscribes or disconnects: neither a rebuild, which abandons the old
   * client, nor a change of the inbound topic, which adds a second subscription, removes
   * anything.
   */
  lemma {:induction false} TeardownOnlyAtShutDown(s: ServiceState, es: seq<Event>)
    requires AllAdmissible(es)
    requires forall i | 0 <= i < |es| :: !es[i].ShutDownRequest?
    ensures |s.log| <= |Run(s, es).log| && Run(s, es).log[..|s.log|] == s.log
    ensures NoTeardown(Run(s, es).log[|s.log|..])
    decreases |es|
  {
    if es != [] {
      PrefixAdmissible(es);
      var p := AllButLast(es);
      assert forall i | 0 <= i < |p| :: p[i] == es[i];
      TeardownOnlyAtShutDown(s, p);
      var before := Run(s, p);
      StepNoTeardown(before, Last(es));
      var after := Step(before, Last(es));
      assert Run(s, es) == after;
      AddedInTwoParts(s.log, before.log, after.log);
      NoTeardownInParts(before.log[|s.log|..], after.log[|before.log|..]);
    }
  }

  /**
   * A change of the microphone topic keeps the client; once the reconnection succeeds,
   * the next send publishes on the new topic through that same client.
   */
  lemma MicRetargetTakesEffectOnNextSend(s: ServiceState, prefs: Store, audio: Bytes)
    ensures var r := Run(s, [PreferenceUpdate(Some(MicTopicKey), prefs), ConnAck(s.client.handle, Success), SendAudio(audio)]);
      r.client == s.client && |r.log| > 0
      && Last(r.log) == Publish(s.client.handle, GetString(prefs, MicTopicKey, ""), audio, ExactlyOnce)
  {
    var e1, e2, e3 := PreferenceUpdate(Some(MicTopicKey), prefs), ConnAck(s.client.handle, Success), SendAudio(audio);
    assert Run(s, [e1]) == Step(Run(s, []), e1);
    assert Run(s, [e1, e2]) == Step(Run(s, [e1]), e2) by { assert AllButLast([e1, e2]) == [e1]; }
    assert Run(s, [e1, e2, e3]) == Step(Run(s, [e1, e2]), e3) by { assert AllButLast([e1, e2, e3]) == [e1, e2]; }
  }

  /**
   * A late acknowledgement of the connection attempt of an abandoned client still marks
   * the service connected, and the subscription then goes to the new client: the ConnAck
   * below answers the client `s.client.handle`, which the address change has replaced.
   */
  lemma LateConnAckIsNotFiltered(s: ServiceState, prefs: Store)
    ensures var r := Run(s, [PreferenceUpdate(Some(ServerAddressKey), prefs), ConnAck(s.client.handle, Success)]);
      r.status == Connected && r.client.handle == s.client.handle + 1 && |r.log| > 0
      && Last(r.log) == Subscribe(s.client.handle + 1, r.settings.dynTopic, ExactlyOnce)
  {
    var e1, e2 := PreferenceUpdate(Some(ServerAddressKey), prefs), ConnAck(s.client.handle, Success);
    assert Run(s, [e1]) == Step(Run(s, []), e1);
    assert Run(s, [e1, e2]) == Step(Run(s, [e1]), e2) by { assert AllButLast([e1, e2]) == [e1]; }
  }
}
