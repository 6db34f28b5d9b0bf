/**
 * The two stateful components: the dashboard session
 * (src/components/Dashboard.jsx) and one agent per mounted device card
 * (src/components/Device.jsx).  The mqtt client is reduced to two logs,
 * `subscriptions` and `outbox`; HTTP responses are method arguments.
 */
module App {
  import opened Wrappers
  import opened Endpoints
  import opened DeviceList
  import opened TopicTable
  import opened Catalog

  /** One call of `client.publish(topic, message, {retain})`. */
  datatype Publication = Publication(topic: string, message: string, retain: bool)

  /** The detail of a device: `sensors_float` may be missing. */
  datatype DeviceDetail = DeviceDetail(sensorsFloat: Option<seq<SensorFloat>>)

  /** `{result, device}` of GET /api/devices/{id}; `device` may be missing. */
  datatype DetailsResponse = DetailsResponse(result: string, device: Option<DeviceDetail>)

  /** The sensors an accepted response asks the device to load. */
  function AcceptedSensors(resp: DetailsResponse): (sensors: seq<SensorFloat>)
    ensures resp.result != "ok" ==> sensors == []
    ensures resp.device.None? || resp.device.value.sensorsFloat.None? ==> sensors == []
  {
    if resp.result == "ok" && resp.device.Some? && resp.device.value.sensorsFloat.Some?
    then resp.device.value.sensorsFloat.value
    else []
  }

  /**
   * What the details effect leaves behind AS WRITTEN when no mqtt client
   * exists yet: the first entry is written, then `client.subscribe` on a
   * null client throws and the rest of the list is never processed.
   */
  function LoadAsWritten(t: Table, id: int, sensors: seq<SensorFloat>, hasClient: bool): (r: Table)
    ensures hasClient ==> r == Load(t, id, sensors)
    ensures !hasClient && sensors != [] ==> r.Keys == t.Keys + {sensors[0].topic}
  {
    if hasClient || sensors == [] then Load(t, id, sensors)
    else t[sensors[0].topic := Entry(id, sensors[0])]
  }

  /** A two-topic device whose details arrive before the broker client loses its second topic. */
  lemma AbortedLoadLosesTopics()
    ensures var sensors := [SensorFloat("home/2/power", 17), SensorFloat("home/2/temp", 0)];
      && "home/2/temp" in Load(map[], 2, sensors)
      && "home/2/temp" !in LoadAsWritten(map[], 2, sensors, false)
  {
    var sensors := [SensorFloat("home/2/power", 17), SensorFloat("home/2/temp", 0)];
    LoadLastOccurrence(map[], 2, sensors, 1);
  }

  class Session {
    /** `handlers`: device id -> the handler that device registered. */
    var handlers: map<int, DeviceAgent>
    /** The ids of `handlers` in enumeration (first registration) order. */
    var order: seq<int>
    /** An mqtt client has been created (broker details arrived). */
    var hasClient: bool
    var connected: bool
    var outbox: seq<Publication>
    var subscriptions: seq<string>
    var devices: seq<Device>
    /** The token in the input field, and the one in local storage. */
    var token: string
    var storedToken: string
    var showModal: bool

    ghost predicate Valid()
      reads this
    {
      && (connected ==> hasClient)
      && (forall j :: 0 <= j < |order| ==> order[j] in handlers)
      && (forall k :: k in handlers ==> k in order)
      && (forall i, j :: 0 <= i < j < |order| ==> order[i] != order[j])
      && (forall k :: k in handlers ==> handlers[k].id == k)
    }

    /** Initial state; `stored` is the persisted token, "" when absent. */
    constructor(stored: string)
      ensures Valid()
      ensures handlers == map[] && devices == [] && outbox == [] && subscriptions == []
      ensures !hasClient && !connected
      ensures token == stored && storedToken == stored
      ensures showModal <==> stored == ""
    {
      handlers := map[];
      order := [];
      hasClient := false;
      connected := false;
      outbox := [];
      subscriptions := [];
      devices := [];
      token := stored;
      storedToken := stored;
      showModal := stored == "";
    }

    /** The token field's onChange. */
    method SetToken(text: string)
      modifies this`token
      ensures token == text
    {
      token := text;
    }

    /** handleSaveToken: a non-empty token is persisted and closes the modal. */
    method SaveToken()
      modifies this`storedToken, this`showModal
      ensures token == "" ==> storedToken == old(storedToken) && showModal == old(showModal)
      ensures token != "" ==> storedToken == token && !showModal
    {
      if token != "" {
        storedToken := token;
        showModal := false;
      }
    }

    /** The modal's onClose. */
    method CloseModal()
      modifies this`showModal
      ensures !showModal
    {
      showModal := false;
    }

    /** fetchDevices' response handler: the list is replaced only on "ok". */
    method OnDevicesResponse(resp: DevicesResponse)
      requires KeysDistinct(resp.devices)
      modifies this`devices
      ensures resp.result == "ok" ==> devices == Flatten(resp.devices)
      ensures resp.result != "ok" ==> devices == old(devices)
      ensures resp.result == "ok" ==> |devices| == |KeySet(resp.devices)|
    {
      if resp.result == "ok" {
        devices := Flatten(resp.devices);
        FlattenOnePerKey(resp.devices);
      }
    }

    /** The broker-details effect creates an mqtt client. */
    method AttachClient()
      requires Valid()
      modifies this`hasClient
      ensures Valid() && hasClient
    {
      hasClient := true;
    }

    /** The client's 'connect' event. */
    method OnConnect()
      requires Valid() && hasClient
      modifies this`connected
      ensures Valid() && connected
    {
      connected := true;
    }

    /** append_mqtt_message_handler: install or replace the handler for `id`. */
    method Register(id: int, agent: DeviceAgent)
      requires Valid() && agent.id == id
      modifies this`handlers, this`order
      ensures Valid()
      ensures order == if id in old(handlers) then old(order) else old(order) + [id]
      ensures handlers == old(handlers)[id := agent]
      ensures id in handlers && handlers[id] == agent
      ensures forall k :: k != id ==> (k in handlers <==> k in old(handlers))
      ensures forall k :: k != id && k in handlers ==> handlers[k] == old(handlers)[k]
    {
      if id !in handlers {
        order := order + [id];
      }
      handlers := handlers[id := agent];
    }

    /**
     * mqtt_subscribe.  With a client the request is logged (mqtt.js queues it
     * until connected); without one `client.subscribe` throws, reported as
     * `ok == false`, and nothing is logged.
     */
    method Subscribe(topic: string) returns (ok: bool)
      modifies this`subscriptions
      ensures ok == hasClient
      ensures subscriptions == old(subscriptions) + (if hasClient then [topic] else [])
    {
      ok := hasClient;
      if hasClient {
        subscriptions := subscriptions + [topic];
      }
    }

    /** mqtt_publish: sends only when a client exists and is connected. */
    method Publish(topic: string, message: string, retain: bool := false)
      modifies this`outbox
      ensures hasClient && connected ==> outbox == old(outbox) + [Publication(topic, message, retain)]
      ensures !(hasClient && connected) ==> outbox == old(outbox)
    {
      if hasClient && connected {
        outbox := outbox + [Publication(topic, message, retain)];
      }
    }

    /**
     * onMessage: every registered handler is invoked exactly once, in key
     * order, with the same topic and payload; each table changes as Deliver
     * says.
     */
    method OnMessage(topic: string, payload: string) returns (invoked: seq<int>)
      requires Valid()
      modifies handlers.Values
      ensures forall k :: k in handlers ==>
        handlers[k].received == old(handlers[k].received) + [(topic, payload)]
      ensures forall k :: k in handlers ==>
        handlers[k].topics == Deliver(old(handlers[k].topics), topic, payload)
      ensures forall k :: k in handlers ==> handlers[k].message == old(handlers[k].message)
      ensures invoked == order
      ensures forall k :: k in invoked <==> k in handlers
      ensures forall i, j :: 0 <= i < j < |invoked| ==> invoked[i] != invoked[j]
    {
      var i := 0;
      invoked := [];
      while i < |order|
        invariant 0 <= i <= |order|
        invariant invoked == order[..i]
        invariant forall j :: 0 <= j < |order| ==> order[j] in handlers
        invariant forall j :: 0 <= j < i ==>
          && handlers[order[j]].received == old(handlers[order[j]].received) + [(topic, payload)]
          && handlers[order[j]].topics == Deliver(old(handlers[order[j]].topics), topic, payload)
        invariant forall j :: i <= j < |order| ==>
          && handlers[order[j]].received == old(handlers[order[j]].received)
          && handlers[order[j]].topics == old(handlers[order[j]].topics)
        invariant forall k :: k in handlers ==> handlers[k].message == old(handlers[k].message)
      {
        var agent := handlers[order[i]];
        agent.HandleMessage(topic, payload);
        invoked := invoked + [order[i]];
        i := i + 1;
      }
      forall k | k in handlers
        ensures handlers[k].received == old(handlers[k].received) + [(topic, payload)]
        ensures handlers[k].topics == Deliver(old(handlers[k].topics), topic, payload)
      {
        var j := IndexOf(order, k);
      }
      assert order[..i] == order;
    }
  }

  /** The position of an element of a sequence. */
  function IndexOf(s: seq<int>, x: int): (i: nat)
    requires x in s
    ensures i < |s| && s[i] == x
  {
    if s[0] == x then 0 else 1 + IndexOf(s[1..], x)
  }

  class DeviceAgent {
    const id: int
    /** The topic table. */
    var topics: Table
    /** The shared input field of the card. */
    var message: string
    /** Every (topic, payload) this device's handler has been called with. */
    ghost var received: seq<(string, string)>

    constructor(id: int)
      ensures this.id == id && topics == map[] && message == "" && received == []
    {
      this.id := id;
      topics := map[];
      message := "";
      received := [];
    }

    /**
     * The mount effect: register this device's handler under its own id,
     * then request its details; the URL requested is returned.
     */
    method Mount(session: Session) returns (detailsUrl: string)
      requires session.Valid()
      modifies session`handlers, session`order
      ensures session.Valid()
      ensures session.handlers == old(session.handlers)[id := this]
      ensures detailsUrl == DetailsUrl(id)
    {
      session.Register(id, this);
      detailsUrl := DetailsUrl(id);
    }

    /** message_handler */
    method HandleMessage(topic: string, msg: string)
      modifies this`topics, this`received
      ensures received == old(received) + [(topic, msg)]
      ensures topics == Deliver(old(topics), topic, msg)
    {
      received := received + [(topic, msg)];
      if topic in topics {
        topics := topics[topic := topics[topic].(value := msg)];
      }
    }

    /**
     * The detail response handler and the details effect: on "ok", one entry
     * and one subscribe call per `sensors_float` element, in order.  Without
     * a client the subscribe call is skipped and the loop goes on.
     */
    method AcceptDetails(resp: DetailsResponse, session: Session)
      modifies this`topics, session`subscriptions
      ensures topics == Load(old(topics), id, AcceptedSensors(resp))
      ensures session.subscriptions == old(session.subscriptions)
        + (if session.hasClient then TopicList(AcceptedSensors(resp)) else [])
    {
      var sensors := AcceptedSensors(resp);
      var i := 0;
      while i < |sensors|
        invariant 0 <= i <= |sensors|
        invariant topics == Load(old(topics), id, sensors[..i])
        invariant session.subscriptions == old(session.subscriptions)
          + (if session.hasClient then TopicList(sensors[..i]) else [])
      {
        assert sensors[..i + 1][..i] == sensors[..i];
        topics := topics[sensors[i].topic := Entry(id, sensors[i])];
        var _ := session.Subscribe(sensors[i].topic);
        i := i + 1;
      }
      assert sensors[..i] == sensors;
    }

    /**
     * The same, as the source has it: a subscribe on a missing client throws
     * out of the loop after the first entry (`threw`).
     */
    method AcceptDetailsAsWritten(resp: DetailsResponse, session: Session) returns (threw: bool)
      modifies this`topics, session`subscriptions
      ensures threw <==> !session.hasClient && AcceptedSensors(resp) != []
      ensures topics == LoadAsWritten(old(topics), id, AcceptedSensors(resp), session.hasClient)
      ensures session.subscriptions == old(session.subscriptions)
        + (if session.hasClient then TopicList(AcceptedSensors(resp)) else [])
    {
      var sensors := AcceptedSensors(resp);
      var i := 0;
      threw := false;
      while i < |sensors| && !threw
        invariant 0 <= i <= |sensors|
        invariant threw <==> !session.hasClient && i > 0
        invariant !threw ==> topics == Load(old(topics), id, sensors[..i])
        invariant threw ==> i == 1 && topics == old(topics)[sensors[0].topic := Entry(id, sensors[0])]
        invariant session.subscriptions == old(session.subscriptions)
          + (if session.hasClient then TopicList(sensors[..i]) else [])
      {
        assert sensors[..i + 1][..i] == sensors[..i];
        topics := topics[sensors[i].topic := Entry(id, sensors[i])];
        var ok := session.Subscribe(sensors[i].topic);
        threw := !ok;
        i := i + 1;
      }
      assert !threw ==> sensors[..i] == sensors;
    }

    /** The input field's onChange. */
    method SetMessage(text: string)
      modifies this`message
      ensures message == text
    {
      message := text;
    }

    /**
     * handle_publish_button: a non-empty message is published once and the
     * input cleared (whether or not the session let it through); an empty
     * one does nothing.
     */
    method PublishButton(session: Session, key: string, msg: string, retain: bool := false)
      modifies this`message, session`outbox
      ensures msg == "" ==> message == old(message) && session.outbox == old(session.outbox)
      ensures msg != "" ==> message == ""
      ensures msg != "" && session.hasClient && session.connected ==>
        session.outbox == old(session.outbox) + [Publication(key, msg, retain)]
      ensures msg != "" && !(session.hasClient && session.connected) ==>
        session.outbox == old(session.outbox)
    {
      if |msg| > 0 {
        session.Publish(key, msg, retain);
        message := "";
      }
    }

    /**
     * The Send button of the entry `key`: the current input, retained.  The
     * button exists only on a shown row of a writable type.
     */
    method Send(session: Session, key: string)
      requires key in Displayed(topics) && Displayed(topics)[key].hasInput
      modifies this`message, session`outbox
      ensures old(message) == "" ==> message == "" && session.outbox == old(session.outbox)
      ensures old(message) != "" && session.hasClient && session.connected ==>
        session.outbox == old(session.outbox) + [Publication(key, old(message), true)]
      ensures !(session.hasClient && session.connected) ==> session.outbox == old(session.outbox)
      ensures message == ""
    {
      PublishButton(session, key, message, true);
    }
  }
}
