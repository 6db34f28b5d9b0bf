/**
 * End-to-end runs of the session and a device agent: a reading arriving
 * through the fan-out, and a command sent from a writable entry.
 */
module Scenarios {
  import opened Wrappers
  import opened TopicTable
  import opened Catalog
  import opened App

  /**
   * Device 1 with a temperature sensor on "home/1/temp": after the broker
   * delivers "23.5", its card shows "23.5 °C"; a message for a topic no
   * device has changes no table.
   */
  method TemperatureReading() returns (shown: map<string, Row>, ignored: bool)
    ensures "home/1/temp" in shown && shown["home/1/temp"] == Row("23.5 °C", false)
    ensures ignored
  {
    var session := new Session("token");
    session.AttachClient();
    session.OnConnect();
    var device := new DeviceAgent(1);
    var _ := device.Mount(session);
    assert session.handlers == map[1 := device];
    var sensors := [SensorFloat("home/1/temp", 0)];
    device.AcceptDetails(DetailsResponse("ok", Some(DeviceDetail(Some(sensors)))), session);
    var loaded := device.topics;
    assert loaded == Load(map[], 1, sensors);
    assert TopicsOf(sensors) == {"home/1/temp"} by {
      assert sensors[0].topic == "home/1/temp";
    }
    var _ := session.OnMessage("home/9/other", "1");
    assert 1 in session.handlers && session.handlers[1] == device;
    assert device.topics == Deliver(loaded, "home/9/other", "1");
    DeliverUnknownTopic(loaded, "home/9/other", "1");
    ignored := device.topics == loaded;
    assert device.topics == loaded;
    assert session.handlers == map[1 := device];
    var _ := session.OnMessage("home/1/temp", "23.5");
    assert 1 in session.handlers && session.handlers[1] == device;
    assert device.topics == Deliver(loaded, "home/1/temp", "23.5");
    LoadLastOccurrence(map[], 1, sensors, 0);
    DisplayedAfterDeliver(loaded, "home/1/temp", "23.5");
    shown := Displayed(device.topics);
  }

  /** A power entry of device 2 that receives "40" shows "40 kW" with an input. */
  lemma PowerRow(loaded: Table)
    requires "home/2/power" in loaded && loaded["home/2/power"].typeCode == 17
    ensures var t := Deliver(loaded, "home/2/power", "40");
      "home/2/power" in Displayed(t) && Displayed(t)["home/2/power"] == Row("40 kW", true)
  {
    DisplayedAfterDeliver(loaded, "home/2/power", "40");
    assert UnitText(17) == "kW";
  }

  /**
   * Device 2 with a power setpoint (type 17) on "home/2/power": once a
   * reading "40" has arrived, the card shows "40 kW" with an input; the user
   * types "50" and presses Send; exactly one retained publication goes out
   * and the input is cleared.
   */
  method PowerCommand() returns (row: Row, sent: seq<Publication>, input: string)
    ensures row == Row("40 kW", true)
    ensures sent == [Publication("home/2/power", "50", true)]
    ensures input == ""
  {
    var session := new Session("token");
    session.AttachClient();
    session.OnConnect();
    var device := new DeviceAgent(2);
    var _ := device.Mount(session);
    assert session.handlers == map[2 := device];
    var sensors := [SensorFloat("home/2/power", 17)];
    device.AcceptDetails(DetailsResponse("ok", Some(DeviceDetail(Some(sensors)))), session);
    var loaded := device.topics;
    LoadLastOccurrence(map[], 2, sensors, 0);
    var _ := session.OnMessage("home/2/power", "40");
    assert 2 in session.handlers && session.handlers[2] == device;
    assert device.topics == Deliver(loaded, "home/2/power", "40");
    PowerRow(loaded);
    row := Displayed(device.topics)["home/2/power"];
    device.SetMessage("50");
    device.Send(session, "home/2/power");
    sent := session.outbox;
    input := device.message;
  }
}
