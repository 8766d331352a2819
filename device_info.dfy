/** What a session records about the device that opened it
    (server/src/utils/deviceInfo.ts) and what the client shows about a
    session's user agent (client/src/utils/parseDeviceInfo.tsx). The user-agent
    parser and the IP geolocation database are outside the model: they are
    passed in as functions. */
module DeviceInfo {
  import opened Js

  /** The fields of a user-agent parser result the code reads; each may be
      missing. */
  datatype UserAgent = UserAgent(
    browserName: Option<string>,
    browserVersion: Option<string>,
    osName: Option<string>,
    osVersion: Option<string>,
    deviceType: Option<string>)

  /** A geolocation record: the city may be missing, the country is a code. */
  datatype Geo = Geo(city: Option<string>, country: string)

  datatype Device = Device(browser: string, os: string, deviceType: string, ipAddress: string, location: string)

  /** `` `${name || "Unknown"} ${version || ""}`.trim() ``. */
  function Label(name: Option<string>, version: Option<string>): (r: string)
    ensures Clean(r)
  {
    Js.Trim(Or(name, "Unknown") + " " + Or(version, ""))
  }

  /** Without a version the label is the trimmed name, or "Unknown" without
      a name; a name with no white space at its ends is the label as it is. */
  lemma LabelWithoutVersion(name: Option<string>, version: Option<string>)
    requires !Truthy(version)
    ensures Label(name, version) == Js.Trim(Or(name, "Unknown"))
    ensures Clean(Or(name, "Unknown")) ==> Label(name, version) == Or(name, "Unknown")
  {
    var n := Or(name, "Unknown");
    assert Or(version, "") == "";
    assert n + " " + "" == n + " ";
    assert AllWhitespace(" ");
    TrimAppendWhitespace(n, " ");
    if Clean(n) {
      TrimClean(n);
    }
  }

  /** With both parts present and free of surrounding white space the label is
      "name version". */
  lemma LabelWithVersion(name: Option<string>, version: Option<string>)
    requires Truthy(name) && Truthy(version)
    requires Clean(name.value) && Clean(version.value)
    ensures Label(name, version) == name.value + " " + version.value
  {
    var s := name.value + " " + version.value;
    assert s[0] == name.value[0];
    assert s[|s| - 1] == version.value[|version.value| - 1];
    TrimClean(s);
  }

  /** `location`: "city, country" when the address is known, with "Unknown"
      standing in for a missing city. */
  function Location(geo: Option<Geo>): (r: string)
    ensures geo.None? ==> r == "Unknown"
    ensures geo.Some? ==> r == Or(geo.value.city, "Unknown") + ", " + geo.value.country
  {
    if geo.Some? then Or(geo.value.city, "Unknown") + ", " + geo.value.country else "Unknown"
  }

  /** `parseDeviceInfo(userAgent, ip)` on the server. */
  function ParseDeviceInfo(userAgent: string, ip: string, parse: string -> UserAgent, lookup: string -> Option<Geo>): (d: Device)
    ensures d.ipAddress == ip
    ensures d.browser == Label(parse(userAgent).browserName, parse(userAgent).browserVersion)
    ensures d.os == Label(parse(userAgent).osName, parse(userAgent).osVersion)
    ensures Truthy(parse(userAgent).deviceType) ==> d.deviceType == parse(userAgent).deviceType.value
    ensures !Truthy(parse(userAgent).deviceType) ==> d.deviceType == "Desktop"
    ensures d.location == Location(lookup(ip))
    ensures d.deviceType != "" && d.location != ""
  {
    var ua := parse(userAgent);
    Device(
      Label(ua.browserName, ua.browserVersion),
      Label(ua.osName, ua.osVersion),
      Or(ua.deviceType, "Desktop"),
      ip,
      Location(lookup(ip)))
  }

  /** An agent the parser recognises nothing in is recorded as an unknown
      desktop browser on an unknown system. */
  lemma UnrecognisedAgent(userAgent: string, ip: string, parse: string -> UserAgent, lookup: string -> Option<Geo>)
    requires parse(userAgent) == UserAgent(None, None, None, None, None)
    ensures ParseDeviceInfo(userAgent, ip, parse, lookup).browser == "Unknown"
    ensures ParseDeviceInfo(userAgent, ip, parse, lookup).os == "Unknown"
    ensures ParseDeviceInfo(userAgent, ip, parse, lookup).deviceType == "Desktop"
  {
    assert Clean("Unknown");
    LabelWithoutVersion(None, None);
  }

  /** What the client's session list shows; `os` is absent when there is no
      user agent at all. */
  datatype ClientDevice = ClientDevice(device: string, browser: string, os: Option<string>)

  /** `parseDeviceInfo(userAgent)` on the client. */
  function ClientParseDeviceInfo(userAgent: Option<string>, parse: string -> UserAgent): (d: ClientDevice)
    ensures !Truthy(userAgent) ==> d == ClientDevice("Unknown", "Unknown", None)
    ensures Truthy(userAgent) ==>
      && d.device == Or(parse(userAgent.value).deviceType, "desktop")
      && d.browser == Or(parse(userAgent.value).browserName, "Unknown")
      && d.os == Some(Or(parse(userAgent.value).osName, "Unknown"))
    ensures d.device != "" && d.browser != ""
  {
    if !Truthy(userAgent) then ClientDevice("Unknown", "Unknown", None)
    else
      var ua := parse(userAgent.value);
      ClientDevice(Or(ua.deviceType, "desktop"), Or(ua.browserName, "Unknown"), Some(Or(ua.osName, "Unknown")))
  }
}
