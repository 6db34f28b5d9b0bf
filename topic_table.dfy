/**
 * A device's topic table (src/components/Device.jsx): for every topic the
 * device listens on, the owning device id, the sensor type code and the last
 * value received.  `Load` is what the details effect writes (lines 48-62),
 * `Deliver` what `message_handler` does to the table (lines 22-29).
 */
module TopicTable {

  datatype TopicState = TopicState(deviceId: int, typeCode: int, value: string)

  /** One element of the `sensors_float` list of a device detail. */
  datatype SensorFloat = SensorFloat(topic: string, typeCode: int)

  type Table = map<string, TopicState>

  /** The entry the details effect creates: no value received yet. */
  function Entry(id: int, sensor: SensorFloat): (entry: TopicState)
    ensures entry.deviceId == id && entry.typeCode == sensor.typeCode && entry.value == ""
  {
    TopicState(id, sensor.typeCode, "")
  }

  function TopicsOf(sensors: seq<SensorFloat>): (topics: set<string>)
  {
    set i | 0 <= i < |sensors| :: sensors[i].topic
  }

  /** The topics of a list are those of all but its last element, plus the last one's. */
  lemma TopicsOfSnoc(sensors: seq<SensorFloat>)
    requires sensors != []
    ensures TopicsOf(sensors) == TopicsOf(sensors[..|sensors| - 1]) + {sensors[|sensors| - 1].topic}
  {
    var init := sensors[..|sensors| - 1];
    forall k | k in TopicsOf(sensors) ensures k in TopicsOf(init) + {sensors[|sensors| - 1].topic} {
      var i :| 0 <= i < |sensors| && sensors[i].topic == k;
      if i < |sensors| - 1 { assert init[i] == sensors[i]; }
    }
    forall k | k in TopicsOf(init) ensures k in TopicsOf(sensors) {
      var i :| 0 <= i < |init| && init[i].topic == k;
      assert sensors[i] == init[i];
    }
  }

  /** The topics in list order: one subscribe call each. */
  function TopicList(sensors: seq<SensorFloat>): (topics: seq<string>)
    ensures |topics| == |sensors|
    ensures forall i :: 0 <= i < |sensors| ==> topics[i] == sensors[i].topic
  {
    seq(|sensors|, i requires 0 <= i < |sensors| => sensors[i].topic)
  }

  /**
   * The table after the `forEach` over `sensors_float` has written one
   * entry per element, in order; a later element with the same topic
   * overwrites an earlier one.
   */
  function Load(t: Table, id: int, sensors: seq<SensorFloat>): (r: Table)
    ensures r.Keys == t.Keys + TopicsOf(sensors)
    decreases |sensors|
  {
    if sensors == [] then t
    else
      var last := sensors[|sensors| - 1];
      TopicsOfSnoc(sensors);
      Load(t, id, sensors[..|sensors| - 1])[last.topic := Entry(id, last)]
  }

  /** message_handler: overwrite the value of a known topic, else nothing. */
  function Deliver(t: Table, topic: string, msg: string): (r: Table)
    ensures r.Keys == t.Keys
    ensures topic in t ==> r[topic] == t[topic].(value := msg)
    ensures forall k :: k in t && k != topic ==> r[k] == t[k]
  {
    if topic in t then t[topic := t[topic].(value := msg)] else t
  }

  // ---- message delivery ----

  /** A message for a topic the table does not have is ignored. */
  lemma DeliverUnknownTopic(t: Table, topic: string, msg: string)
    requires topic !in t
    ensures Deliver(t, topic, msg) == t
  {
  }

  /** Delivering the same message twice is the same as delivering it once. */
  lemma DeliverIdempotent(t: Table, topic: string, msg: string)
    ensures Deliver(Deliver(t, topic, msg), topic, msg) == Deliver(t, topic, msg)
  {
  }

  /** Delivery keeps the owner and type of every entry; only values move. */
  lemma DeliverKeepsOwnersAndTypes(t: Table, topic: string, msg: string, k: string)
    requires k in t
    ensures Deliver(t, topic, msg)[k].deviceId == t[k].deviceId
    ensures Deliver(t, topic, msg)[k].typeCode == t[k].typeCode
    ensures Deliver(t, topic, msg)[k].value == if k == topic then msg else t[k].value
  {
  }

  // ---- loading the details ----

  /**
   * The entry of a topic is the one created from its LAST occurrence in the
   * list: owned by the device, with that element's type and an empty value.
   */
  lemma {:induction false} LoadLastOccurrence(t: Table, id: int, sensors: seq<SensorFloat>, i: nat)
    requires i < |sensors|
    requires forall j :: i < j < |sensors| ==> sensors[j].topic != sensors[i].topic
    ensures sensors[i].topic in Load(t, id, sensors)
    ensures Load(t, id, sensors)[sensors[i].topic] == Entry(id, sensors[i])
    decreases |sensors|
  {
    if i < |sensors| - 1 {
      var init := sensors[..|sensors| - 1];
      assert init[i] == sensors[i];
      LoadLastOccurrence(t, id, init, i);
    }
  }

  /** Topics outside the list keep whatever the table had for them. */
  lemma {:induction false} LoadKeepsOthers(t: Table, id: int, sensors: seq<SensorFloat>, k: string)
    requires k !in TopicsOf(sensors)
    ensures k in Load(t, id, sensors) <==> k in t
    ensures k in t ==> Load(t, id, sensors)[k] == t[k]
    decreases |sensors|
  {
    if sensors != [] {
      var init := sensors[..|sensors| - 1];
      assert k !in TopicsOf(init) by {
        forall j | 0 <= j < |init| ensures init[j].topic != k {
          assert init[j] == sensors[j];
        }
      }
      LoadKeepsOthers(t, id, init, k);
    }
  }

  /** Loaded into an empty table, every entry belongs to the device and has no value yet. */
  lemma {:induction false} LoadFreshEntries(id: int, sensors: seq<SensorFloat>, k: string)
    requires k in Load(map[], id, sensors)
    ensures Load(map[], id, sensors)[k].deviceId == id
    ensures Load(map[], id, sensors)[k].value == ""
    ensures exists i :: 0 <= i < |sensors| && sensors[i].topic == k
                        && Load(map[], id, sensors)[k].typeCode == sensors[i].typeCode
    decreases |sensors|
  {
    var last := sensors[|sensors| - 1];
    var init := sensors[..|sensors| - 1];
    if k != last.topic {
      LoadFreshEntries(id, init, k);
      var i :| 0 <= i < |init| && init[i].topic == k && Load(map[], id, init)[k].typeCode == init[i].typeCode;
      assert sensors[i] == init[i];
    } else {
      assert sensors[|sensors| - 1] == last;
    }
  }
}
