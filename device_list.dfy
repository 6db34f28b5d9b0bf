/**
 * The device-list response of `fetchDevices`
 * (src/components/Dashboard.jsx, lines 50-69).  The backend answers
 * `{result, devices: {key: Device, ...}}`; on "ok" the object is flattened
 * into an array holding one copy of each record, in key order.  A JavaScript
 * object is modelled as the list of its own properties in enumeration order,
 * which never repeats a key.
 */
module DeviceList {

  datatype Device = Device(id: int, typeCode: int, room: string, name: string)

  type JsObject<V> = seq<(string, V)>

  predicate KeysDistinct<V>(o: JsObject<V>)
  {
    forall i, j :: 0 <= i < j < |o| ==> o[i].0 != o[j].0
  }

  /** Object.keys */
  function Keys<V>(o: JsObject<V>): (ks: seq<string>)
    ensures |ks| == |o|
    ensures forall i :: 0 <= i < |o| ==> ks[i] == o[i].0
  {
    if o == [] then [] else [o[0].0] + Keys(o[1..])
  }

  function KeySet<V>(o: JsObject<V>): (keys: set<string>)
  {
    set i | 0 <= i < |o| :: o[i].0
  }

  /** Property access `o[key]` for a key the object has. */
  function Get<V>(o: JsObject<V>, key: string): (v: V)
    requires key in KeySet(o)
    ensures exists i :: 0 <= i < |o| && o[i].0 == key && o[i].1 == v
    decreases |o|
  {
    if o[0].0 == key then o[0].1 else Get(o[1..], key)
  }

  datatype DevicesResponse = DevicesResponse(result: string, devices: JsObject<Device>)

  /** `Object.keys(old).map(key => ({...old[key]}))` */
  function Flatten(o: JsObject<Device>): (list: seq<Device>)
    ensures |list| == |o|
    ensures forall d :: d in list ==> exists i :: 0 <= i < |o| && o[i].1 == d
  {
    var ks := Keys(o);
    seq(|ks|, i requires 0 <= i < |ks| => Get(o, ks[i]))
  }

  lemma {:induction false} GetAt<V>(o: JsObject<V>, i: nat)
    requires KeysDistinct(o) && i < |o|
    ensures o[i].0 in KeySet(o) && Get(o, o[i].0) == o[i].1
    decreases i
  {
    if i > 0 {
      assert o[1..][i - 1] == o[i];
      GetAt(o[1..], i - 1);
    }
  }

  lemma {:induction false} KeySetSize<V>(o: JsObject<V>)
    requires KeysDistinct(o)
    ensures |KeySet(o)| == |o|
    decreases |o|
  {
    if o != [] {
      KeySetSize(o[1..]);
      assert KeySet(o) == {o[0].0} + KeySet(o[1..]) by {
        forall k | k in KeySet(o) ensures k in {o[0].0} + KeySet(o[1..]) {
          var i :| 0 <= i < |o| && o[i].0 == k;
          if i > 0 { assert o[1..][i - 1].0 == k; }
        }
        forall k | k in KeySet(o[1..]) ensures k in KeySet(o) {
          var i :| 0 <= i < |o[1..]| && o[1..][i].0 == k;
          assert o[i + 1].0 == k;
        }
      }
      assert o[0].0 !in KeySet(o[1..]) by {
        forall i | 0 <= i < |o[1..]| ensures o[1..][i].0 != o[0].0 {
          assert o[1..][i] == o[i + 1];
        }
      }
    }
  }

  /**
   * The flattened list has exactly one element per key of the object, and
   * its i-th element is a copy of the record stored under the i-th key.
   */
  lemma FlattenOnePerKey(o: JsObject<Device>)
    requires KeysDistinct(o)
    ensures |Flatten(o)| == |KeySet(o)|
    ensures forall i :: 0 <= i < |o| ==> Flatten(o)[i] == o[i].1
    ensures forall d :: d in Flatten(o) <==> exists i :: 0 <= i < |o| && o[i].1 == d
  {
    KeySetSize(o);
    forall i | 0 <= i < |o| ensures Flatten(o)[i] == o[i].1 {
      GetAt(o, i);
    }
  }
}
