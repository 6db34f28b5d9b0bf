/**
 * The rendering rules of a device card (src/components/Device.jsx): the
 * unit table TYPES_UNITS (lines 6-13), which entries are shown and with what
 * text (lines 88-92), and which shown entries offer an input (line 96).
 */
module Catalog {
  import opened Wrappers
  import opened TopicTable

  /** TYPES_UNITS: the unit of a sensor type code, if it has one. */
  function Unit(typeCode: int): (unit: Option<string>)
    ensures unit.Some? <==> typeCode == 0 || typeCode == 1 || typeCode == 2 || Writable(typeCode)
  {
    match typeCode
    case 20 => Some("m³")
    case 18 => Some("m³")
    case 17 => Some("kW")
    case 0 => Some("°C")
    case 1 => Some("%")
    case 2 => Some("PPM")
    case _ => None
  }

  /** An `undefined` unit renders as nothing. */
  function UnitText(typeCode: int): (text: string)
    ensures text == "" <==> Unit(typeCode).None?
  {
    match Unit(typeCode)
    case Some(u) => u
    case None => ""
  }

  /** Types whose entries offer an input field and a Send button. */
  predicate Writable(typeCode: int)
  {
    typeCode == 17 || typeCode == 18 || typeCode == 20
  }

  /** `{value} {TYPES_UNITS[type]}`: the value, a space, the unit. */
  function Label(s: TopicState): (text: string)
    ensures |text| > |s.value|
    ensures text[..|s.value|] == s.value && text[|s.value|..] == " " + UnitText(s.typeCode)
  {
    s.value + " " + UnitText(s.typeCode)
  }

  /** What the card shows for one entry. */
  datatype Row = Row(text: string, hasInput: bool)

  /** The entries of the table that are shown: those with a non-empty value. */
  function Displayed(t: Table): (rows: map<string, Row>)
    ensures forall k :: k in rows <==> k in t && t[k].value != ""
    ensures forall k :: k in rows ==> rows[k].text == Label(t[k])
  {
    map k | k in t && t[k].value != "" :: Row(Label(t[k]), Writable(t[k].typeCode))
  }

  /** Every writable type has a unit: kW for 17, m³ for 18 and 20. */
  lemma WritableUnits(typeCode: int)
    requires Writable(typeCode)
    ensures Unit(typeCode) == if typeCode == 17 then Some("kW") else Some("m³")
  {
  }

  /**
   * A shown entry's text starts with its value and ends with its unit, and it
   * offers an input iff its type is 17, 18 or 20.
   */
  lemma DisplayedRow(t: Table, k: string)
    ensures k in Displayed(t) <==> k in t && t[k].value != ""
    ensures k in Displayed(t) ==>
      && Displayed(t)[k].text[..|t[k].value|] == t[k].value
      && Displayed(t)[k].text[|t[k].value|..] == " " + UnitText(t[k].typeCode)
      && (Displayed(t)[k].hasInput <==> t[k].typeCode == 17 || t[k].typeCode == 18 || t[k].typeCode == 20)
  {
  }

  /** A freshly loaded table shows nothing until the first message arrives. */
  lemma LoadedTableShowsNothing(id: int, sensors: seq<SensorFloat>)
    ensures Displayed(Load(map[], id, sensors)) == map[]
  {
    forall k | k in Load(map[], id, sensors)
      ensures Load(map[], id, sensors)[k].value == ""
    {
      LoadFreshEntries(id, sensors, k);
    }
  }

  /**
   * After a non-empty message for a known topic, that topic is shown with the
   * message and its unit; the other rows are as before.  An empty message
   * hides the entry again.
   */
  lemma DisplayedAfterDeliver(t: Table, topic: string, msg: string)
    requires topic in t
    ensures msg != "" ==>
      && topic in Displayed(Deliver(t, topic, msg))
      && Displayed(Deliver(t, topic, msg))[topic]
         == Row(msg + " " + UnitText(t[topic].typeCode), Writable(t[topic].typeCode))
    ensures msg == "" ==> topic !in Displayed(Deliver(t, topic, msg))
    ensures forall k :: k != topic ==>
      (k in Displayed(t) <==> k in Displayed(Deliver(t, topic, msg)))
      && (k in Displayed(t) ==> Displayed(Deliver(t, topic, msg))[k] == Displayed(t)[k])
  {
  }

  /**
   * A temperature sensor (type 0) on "home/1/temp" of device 1 that receives
   * "23.5" shows "23.5 °C" and offers no input.
   */
  lemma TemperatureLabel()
    ensures var t := Deliver(Load(map[], 1, [SensorFloat("home/1/temp", 0)]), "home/1/temp", "23.5");
      "home/1/temp" in Displayed(t) && Displayed(t)["home/1/temp"] == Row("23.5 °C", false)
  {
    var t0 := Load(map[], 1, [SensorFloat("home/1/temp", 0)]);
    LoadLastOccurrence(map[], 1, [SensorFloat("home/1/temp", 0)], 0);
    DisplayedAfterDeliver(t0, "home/1/temp", "23.5");
  }
}
