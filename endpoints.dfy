/**
 * The REST endpoints of the dashboard (src/components/Dashboard.jsx,
 * lines 10-22) and the per-device detail URL (src/components/Device.jsx,
 * line 34).  A device id is rendered into the URL in decimal, with no
 * leading zeros and a leading '-' for negative numbers; this agrees with
 * JavaScript's template-literal rendering for ids of magnitude below 10^21,
 * above which JavaScript switches to exponent notation (not modelled).
 * `ParseDetailsUrl` is the inverse used to show that the detail URLs of
 * distinct devices never collide.
 */
module Endpoints {
  import opened Wrappers

  /** When true, endpoints are relative paths served through a dev proxy. */
  const UseProxy := false
  const WqttUrl := "https://dash.wqtt.ru"

  /** CREATE_CONST: prefixes a path with the backend origin unless proxied. */
  function CreateConst(path: string): (url: string)
    ensures url == WqttUrl + path
    ensures |url| == |WqttUrl| + |path| && url[|WqttUrl|..] == path
  {
    (if UseProxy then "" else WqttUrl) + path
  }

  const DevicesPath := "/api/devices"
  const DeviceDetailsPath := "/api/devices/"
  const BrokerPath := "/api/broker"
  const TypesPath := "/api/devices/types"

  const DevicesUrl := CreateConst(DevicesPath)
  const DeviceDetailsUrl := CreateConst(DeviceDetailsPath)
  const BrokerUrl := CreateConst(BrokerPath)
  const TypesUrl := CreateConst(TypesPath)

  /** The detail prefix is the origin plus "/api/devices/", ending in '/'. */
  lemma DeviceDetailsUrlEndsInSlash()
    ensures DeviceDetailsUrl == WqttUrl + "/api/devices/"
    ensures DeviceDetailsUrl[|DeviceDetailsUrl| - 1] == '/'
  {
  }

  /** The path of a URL built by CreateConst, if it has the backend origin. */
  function PathOf(url: string): (path: Option<string>)
  {
    if WqttUrl <= url then Some(url[|WqttUrl|..]) else None
  }

  lemma PathOfCreateConst(path: string)
    ensures PathOf(CreateConst(path)) == Some(path)
  {
  }

  // ---- decimal rendering of an integer, as in `${id}` ----

  predicate IsDigit(c: char) { '0' <= c <= '9' }

  function DigitChar(d: nat): (c: char)
    requires d < 10
    ensures IsDigit(c)
  {
    "0123456789"[d]
  }

  function DigitValue(c: char): (d: nat)
    requires IsDigit(c)
    ensures d < 10
  {
    (c as int) - ('0' as int)
  }

  lemma DigitValueOfChar(d: nat)
    requires d < 10
    ensures DigitValue(DigitChar(d)) == d
  {
  }

  predicate AllDigits(s: string) { forall i :: 0 <= i < |s| ==> IsDigit(s[i]) }

  function NatString(n: nat): (s: string)
    decreases n
  {
    if n < 10 then [DigitChar(n)] else NatString(n / 10) + [DigitChar(n % 10)]
  }

  function IntString(i: int): (s: string)
  {
    if i < 0 then "-" + NatString(-i) else NatString(i)
  }

  /** The value of a non-empty string of decimal digits. */
  function DigitsValue(s: string): (n: nat)
    requires |s| > 0 && AllDigits(s)
    decreases |s|
  {
    if |s| == 1 then DigitValue(s[0])
    else DigitsValue(s[..|s| - 1]) * 10 + DigitValue(s[|s| - 1])
  }

  /** Reads back a string produced by IntString; None for anything else. */
  function ParseInt(s: string): (i: Option<int>)
  {
    if |s| > 1 && s[0] == '-' && AllDigits(s[1..]) then Some(0 - DigitsValue(s[1..]))
    else if |s| > 0 && AllDigits(s) then Some(DigitsValue(s) as int)
    else None
  }

  lemma {:induction false} NatStringDigits(n: nat)
    ensures |NatString(n)| > 0 && AllDigits(NatString(n))
    ensures NatString(n)[0] != '-'
    ensures DigitsValue(NatString(n)) == n
    decreases n
  {
    if n < 10 {
      DigitValueOfChar(n);
    } else {
      NatStringDigits(n / 10);
      var s := NatString(n / 10) + [DigitChar(n % 10)];
      assert s[..|s| - 1] == NatString(n / 10);
      DigitValueOfChar(n % 10);
    }
  }

  lemma ParseNatString(n: nat)
    ensures ParseInt(NatString(n)) == Some(n)
  {
    NatStringDigits(n);
    var s := NatString(n);
    assert !(|s| > 1 && s[0] == '-');
  }

  lemma ParseNegatedNatString(n: nat)
    requires n > 0
    ensures ParseInt("-" + NatString(n)) == Some(0 - n)
  {
    NatStringDigits(n);
    var s := "-" + NatString(n);
    assert s[1..] == NatString(n);
  }

  /** ParseInt inverts IntString on every integer. */
  lemma IntStringRoundTrip(i: int)
    ensures ParseInt(IntString(i)) == Some(i)
  {
    if i < 0 {
      ParseNegatedNatString(-i);
    } else {
      ParseNatString(i);
    }
  }

  /** The detail URL of a device: DEVICE_DETAILS_URL followed by its id. */
  function DetailsUrl(id: int): (url: string)
    ensures DeviceDetailsUrl <= url && url[|DeviceDetailsUrl|..] == IntString(id)
  {
    DeviceDetailsUrl + IntString(id)
  }

  /** Recovers the device id from a detail URL. */
  function ParseDetailsUrl(url: string): (id: Option<int>)
    ensures id.Some? ==> DeviceDetailsUrl <= url
  {
    if DeviceDetailsUrl <= url then ParseInt(url[|DeviceDetailsUrl|..]) else None
  }

  lemma DetailsUrlRoundTrip(id: int)
    ensures ParseDetailsUrl(DetailsUrl(id)) == Some(id)
  {
    var url := DetailsUrl(id);
    assert url[|DeviceDetailsUrl|..] == IntString(id);
    IntStringRoundTrip(id);
  }

  /** Distinct devices fetch distinct detail URLs. */
  lemma DetailsUrlInjective(a: int, b: int)
    ensures DetailsUrl(a) == DetailsUrl(b) <==> a == b
  {
    DetailsUrlRoundTrip(a);
    DetailsUrlRoundTrip(b);
  }

  /** No device's detail URL is the device-types endpoint. */
  lemma DetailsUrlIsNotTypesUrl(id: int)
    ensures DetailsUrl(id) != TypesUrl
  {
    DetailsUrlRoundTrip(id);
    assert TypesUrl[|DeviceDetailsUrl|..] == "types";
    assert !IsDigit("types"[0]);
    assert ParseDetailsUrl(TypesUrl) == None;
  }
}
