/** The legacy single-file platform plugin: the HomeKit characteristic
    handlers of one television, which turn get/set events into Wake-on-LAN
    packets and JointSpace HTTP requests, and the input sources it creates
    for the configured Ambilight styles.

    A handler is modelled as a function from the event (and, for a GET, the
    outcome of the HTTP request) to the effects it causes and the value it
    hands to HomeKit's callback. */
module LegacyPlugin {
  import opened Wrappers
  import opened KeyTables

  /** A JSON value, as far as the request bodies need one. */
  datatype Json = JStr(s: string) | JBool(b: bool)

  /** A JSON object: the fields of a request body. */
  type JsonObject = map<string, Json>

  /** A characteristic value as a handler receives it: `Mute` is a boolean
      characteristic, the others carry unsigned integers. */
  datatype CharValue = Bool(b: bool) | Num(n: int)

  /** JavaScript's loose `v == n` for a number `n`: a boolean compares as 0 or 1. */
  function LooseEquals(v: CharValue, n: int): bool
  {
    match v
    case Bool(b) => (if b then 1 else 0) == n
    case Num(m) => m == n
  }

  /** One entry of the `ambilight_styles` configuration list. */
  datatype Style = Style(name: string, styleType: string, value: string, str: Option<string>)

  /** The platform configuration the handlers read. */
  datatype Config = Config(name: string, ip: string, macAddress: string, ambilightStyles: Option<seq<Style>>)

  /** `config.ambilight_styles || []`. */
  function Styles(cfg: Config): (styles: seq<Style>)
    ensures cfg.ambilightStyles.None? ==> styles == []
    ensures cfg.ambilightStyles.Some? ==> styles == cfg.ambilightStyles.value
  {
    match cfg.ambilightStyles
    case Some(styles) => styles
    case None => []
  }

  /** What a handler makes happen outside the plugin. */
  datatype Effect =
    | Wake(mac: string)                         // a Wake-on-LAN packet
    | Get(url: string)                          // an HTTP GET
    | Post(url: string, body: JsonObject)       // an HTTP POST with a JSON body
    | ReportActive(value: int)                  // `updateCharacteristic(Active, value)`

  /** A handler either calls back (with a value for a GET) after causing its
      effects, or throws before causing any. */
  datatype Reply = Answered(effects: seq<Effect>, value: Option<int>) | Throws

  /** What the GET request helper hands its callback: `false` when the
      request failed, otherwise the body, of which only the parsed
      `powerstate` field is used. */
  datatype GetResult = Failed | Received(powerstate: string)

  const Scheme: string := "http://"
  const PortAndApi: string := ":1925/6/"

  /** `baseURL + endpoint`, where `baseURL = "http://" + ip + ":1925/6/"`. */
  function Url(ip: string, endpoint: string): (url: string)
    ensures |url| == |Scheme| + |ip| + |PortAndApi| + |endpoint|
    ensures url[..7] == Scheme
    ensures url[7..7 + |ip|] == ip
    ensures url[7 + |ip|..15 + |ip|] == PortAndApi
    ensures url[15 + |ip|..] == endpoint
  {
    Scheme + ip + PortAndApi + endpoint
  }

  /** For addresses of equal length, the URL determines both the address
      and the endpoint. Without that condition it does not: address
      "a:1925/6/b" with endpoint "c" and address "a" with endpoint
      "b:1925/6/c" give the same URL. */
  lemma UrlDeterminesParts(ip1: string, e1: string, ip2: string, e2: string)
    requires |ip1| == |ip2| && Url(ip1, e1) == Url(ip2, e2)
    ensures ip1 == ip2 && e1 == e2
  {
    var u := Url(ip1, e1);
    assert ip1 == u[7..7 + |ip1|] == ip2;
    assert e1 == u[15 + |ip1|..] == e2;
  }

  /** `remoteButton(button)`: POST `{"key": button}` to `input/key`. */
  function RemoteButton(cfg: Config, button: string): (e: Effect)
    ensures e.Post? && e.url == Url(cfg.ip, "input/key")
    ensures e.body.Keys == {"key"} && e.body["key"] == JStr(button)
  {
    Post(Url(cfg.ip, "input/key"), map["key" := JStr(button)])
  }

  /** The `Active` set handler: 1 wakes the television over the LAN, any
      other value sends the "Standby" key; either way `Active` is then
      reported as 1. */
  function OnActiveSet(cfg: Config, newValue: int): (r: Reply)
    ensures r.Answered? && r.value.None? && |r.effects| == 2
    ensures r.effects[1] == ReportActive(1)
    ensures newValue == 1 ==> r.effects[0] == Wake(cfg.macAddress)
    ensures newValue != 1 ==> r.effects[0] == RemoteButton(cfg, "Standby")
  {
    var first := if newValue == 1 then Wake(cfg.macAddress) else RemoteButton(cfg, "Standby");
    Answered([first, ReportActive(1)], None)
  }

  /** The decoding in the `Active` get handler: 0 when the request failed,
      otherwise 1 exactly when the television reported "On". */
  function PowerStateOf(result: GetResult): (state: int)
    ensures state == 0 || state == 1
    ensures state == 1 <==> result == Received("On")
  {
    match result
    case Failed => 0
    case Received(powerstate) => if powerstate == "On" then 1 else 0
  }

  /** The `Active` get handler: GET `powerstate`, answer with its decoding. */
  function OnActiveGet(cfg: Config, result: GetResult): (r: Reply)
    ensures r.Answered? && r.effects == [Get(Url(cfg.ip, "powerstate"))]
    ensures r.value.Some? && (r.value.value == 1 <==> result == Received("On"))
    ensures r.value.value == 0 || r.value.value == 1
  {
    Answered([Get(Url(cfg.ip, "powerstate"))], Some(PowerStateOf(result)))
  }

  /** The key names of the `switch`, in RemoteKeyCodes order. */
  const LegacyKeyNames: seq<string> :=
    ["Rewind", "FastForward", "Next", "Previous", "CursorUp", "CursorDown",
     "CursorLeft", "CursorRight", "Confirm", "Back", "Back", "AmbilightOnOff", "Home"]

  /** The cases of the `RemoteKey` set handler's `switch`, in order. */
  function RemoteKeyCases(c: KeyCodes): (cases: seq<(int, string)>)
    ensures |cases| == 13
    ensures forall i :: 0 <= i < 13 ==> cases[i].0 == RemoteKeyCodes(c)[i]
    ensures forall i :: 0 <= i < 13 ==> cases[i].1 == LegacyKeyNames[i]
  {
    Zip(RemoteKeyCodes(c), LegacyKeyNames)
  }

  /** The key the `switch` sends for a RemoteKey value, if any. */
  function RemoteButtonFor(c: KeyCodes, newValue: int): (r: Option<string>)
    ensures r.None? <==> newValue !in RemoteKeyCodes(c)
    ensures r.Some? ==> r.value in LegacyKeyNames
  {
    FirstMatch(RemoteKeyCases(c), newValue)
  }

  /** With distinct RemoteKey constants, each handled key sends its own
      fixed name; a value that is none of the constants sends nothing. */
  lemma RemoteKeySwitch(c: KeyCodes, i: int, other: int)
    requires Distinct(RemoteKeyCodes(c))
    requires 0 <= i < 13
    requires other !in RemoteKeyCodes(c)
    ensures RemoteButtonFor(c, RemoteKeyCodes(c)[i]) == Some(LegacyKeyNames[i])
    ensures RemoteButtonFor(c, other) == None
  {
    var cases := RemoteKeyCases(c);
    assert cases[i].1 == LegacyKeyNames[i];
    FirstEntryDecides(cases, i);
  }

  /** Under HomeKit's constants: PLAY_PAUSE toggles Ambilight, INFORMATION
      goes Home, BACK and EXIT both go Back. */
  lemma HapRemoteKeySwitch()
    ensures RemoteButtonFor(Hap, Hap.playPause) == Some("AmbilightOnOff")
    ensures RemoteButtonFor(Hap, Hap.information) == Some("Home")
    ensures RemoteButtonFor(Hap, Hap.back) == Some("Back")
    ensures RemoteButtonFor(Hap, Hap.exit) == Some("Back")
  {
    HapCodesDistinct();
    RemoteKeySwitch(Hap, 11, -1);
    RemoteKeySwitch(Hap, 12, -1);
    RemoteKeySwitch(Hap, 9, -1);
    RemoteKeySwitch(Hap, 10, -1);
  }

  /** The `RemoteKey` set handler: one key request for a handled value,
      none for any other. */
  function OnRemoteKeySet(cfg: Config, c: KeyCodes, newValue: int): (r: Reply)
    ensures r.Answered? && r.value.None?
    ensures RemoteButtonFor(c, newValue).Some? ==>
      r.effects == [RemoteButton(cfg, RemoteButtonFor(c, newValue).value)]
    ensures RemoteButtonFor(c, newValue).None? ==> r.effects == []
  {
    match RemoteButtonFor(c, newValue)
    case Some(button) => Answered([RemoteButton(cfg, button)], None)
    case None => Answered([], None)
  }

  /** The `VolumeSelector` branch: 0 is volume up, 1 volume down, anything
      else is logged as unknown and sends nothing. */
  function VolumeButtonFor(newValue: int): (r: Option<string>)
    ensures r == Some("VolumeUp") <==> newValue == 0
    ensures r == Some("VolumeDown") <==> newValue == 1
    ensures r.None? <==> newValue != 0 && newValue != 1
  {
    if newValue == 0 then Some("VolumeUp")
    else if newValue == 1 then Some("VolumeDown")
    else None
  }

  /** The `VolumeSelector` set handler. */
  function OnVolumeSelectorSet(cfg: Config, newValue: int): (r: Reply)
    ensures r.Answered? && r.value.None?
    ensures newValue == 0 ==> r.effects == [RemoteButton(cfg, "VolumeUp")]
    ensures newValue == 1 ==> r.effects == [RemoteButton(cfg, "VolumeDown")]
    ensures newValue != 0 && newValue != 1 ==> r.effects == []
  {
    match VolumeButtonFor(newValue)
    case Some(button) => Answered([RemoteButton(cfg, button)], None)
    case None => Answered([], None)
  }

  /** The body of the `Mute` set request: `{"muted": newValue == 1}`, which
      for a boolean value is the value itself. */
  function MuteBody(newValue: CharValue): (body: JsonObject)
    ensures body.Keys == {"muted"}
    ensures newValue.Bool? ==> body["muted"] == JBool(newValue.b)
    ensures newValue.Num? ==> body["muted"] == JBool(newValue.n == 1)
  {
    map["muted" := JBool(LooseEquals(newValue, 1))]
  }

  /** The `Mute` set handler: POST the body to `audio/volume`. */
  function OnMuteSet(cfg: Config, newValue: CharValue): (r: Reply)
    ensures r.Answered? && r.value.None? && |r.effects| == 1 && r.effects[0].Post?
    ensures r.effects[0].url == Url(cfg.ip, "audio/volume")
    ensures r.effects[0].body.Keys == {"muted"}
    ensures r.effects[0].body["muted"] == JBool(true) <==> newValue == Bool(true) || newValue == Num(1)
  {
    Answered([Post(Url(cfg.ip, "audio/volume"), MuteBody(newValue))], None)
  }

  /** The `Mute` get handler answers 0 without asking the television. */
  function OnMuteGet(): (r: Reply)
    ensures r.Answered? && r.effects == [] && r.value == Some(0)
  {
    Answered([], Some(0))
  }

  /** The body `setAmbilight` posts for a style: its type as `styleName`,
      `isExpert` false, and exactly one of `stringValue` (when the style has
      a `str`) or `menuSetting` (its `value`, otherwise). */
  function AmbilightBody(style: Style): (body: JsonObject)
    ensures "styleName" in body && body["styleName"] == JStr(style.styleType)
    ensures "isExpert" in body && body["isExpert"] == JBool(false)
    ensures ("stringValue" in body) <==> style.str.Some?
    ensures ("menuSetting" in body) <==> style.str.None?
    ensures style.str.Some? ==> body["stringValue"] == JStr(style.str.value)
    ensures style.str.None? ==> body["menuSetting"] == JStr(style.value)
    ensures |body.Keys| == 3
  {
    var base := map["styleName" := JStr(style.styleType), "isExpert" := JBool(false)];
    var body := match style.str
      case Some(s) => base["stringValue" := JStr(s)]
      case None => base["menuSetting" := JStr(style.value)];
    assert body.Keys == {"styleName", "isExpert", if style.str.Some? then "stringValue" else "menuSetting"};
    body
  }

  /** `setAmbilight`: build the body field by field, then POST it to
      `ambilight/currentconfiguration`. */
  method SetAmbilight(cfg: Config, style: Style) returns (request: Effect)
    ensures request == Post(Url(cfg.ip, "ambilight/currentconfiguration"), AmbilightBody(style))
  {
    var body: JsonObject := map["styleName" := JStr(style.styleType), "isExpert" := JBool(false)];
    if style.str.Some? {
      body := body["stringValue" := JStr(style.str.value)];
    } else {
      body := body["menuSetting" := JStr(style.value)];
    }
    request := Post(Url(cfg.ip, "ambilight/currentconfiguration"), body);
  }

  /** The `ActiveIdentifier` set handler: identifier k selects the style at
      index k - 1; an identifier with no style there makes the handler throw
      before it posts anything. */
  function OnActiveIdentifierSet(cfg: Config, newValue: int): (r: Reply)
    ensures r.Throws? <==> !(1 <= newValue <= |Styles(cfg)|)
    ensures r.Answered? ==>
      r.value.None? &&
      r.effects == [Post(Url(cfg.ip, "ambilight/currentconfiguration"), AmbilightBody(Styles(cfg)[newValue - 1]))]
  {
    var i := newValue - 1;
    var styles := Styles(cfg);
    if 0 <= i < |styles| then
      Answered([Post(Url(cfg.ip, "ambilight/currentconfiguration"), AmbilightBody(styles[i]))], None)
    else
      Throws
  }

  /** One `InputSource` service created for a style: `addService` takes the
      display name first and the subtype second, so the style's `value` is
      the display name and its `name` the subtype; `configuredName` and the
      `Identifier` characteristic are set on the service afterwards. */
  datatype InputSource = InputSource(identifier: int, displayName: string, subtype: string, configuredName: string)

  /** The `forEach` over the styles: each gets the next identifier, counting
      from 1; the style's value is the display name, its name both the subtype
      and the configured name. */
  method CreateInputSources(styles: seq<Style>) returns (sources: seq<InputSource>)
    ensures |sources| == |styles|
    ensures forall k :: 0 <= k < |sources| ==>
      sources[k].identifier == k + 1 &&
      sources[k].displayName == styles[k].value &&
      sources[k].subtype == styles[k].name &&
      sources[k].configuredName == styles[k].name
  {
    var identifier := 0;
    sources := [];
    var i := 0;
    while i < |styles|
      invariant 0 <= i <= |styles|
      invariant identifier == i && |sources| == i
      invariant forall k :: 0 <= k < i ==>
        sources[k].identifier == k + 1 &&
        sources[k].displayName == styles[k].value &&
        sources[k].subtype == styles[k].name &&
        sources[k].configuredName == styles[k].name
    {
      identifier := identifier + 1;
      sources := sources + [InputSource(identifier, styles[i].value, styles[i].name, styles[i].name)];
      i := i + 1;
    }
  }

  /** Selecting the input source that was given identifier k + 1 applies
      style k: identifier assignment and the handler's index translation
      are inverse on 1..n. */
  lemma IdentifierSelectsStyle(cfg: Config, k: int)
    requires 0 <= k < |Styles(cfg)|
    ensures OnActiveIdentifierSet(cfg, k + 1) ==
      Answered([Post(Url(cfg.ip, "ambilight/currentconfiguration"), AmbilightBody(Styles(cfg)[k]))], None)
  {
  }

  /** For input sources numbered as `CreateInputSources` numbers them, the
      `ActiveIdentifier` handler answers exactly the identifiers some source
      carries, and selecting a source's identifier posts that source's
      style. */
  lemma SourcesSelectTheirStyles(cfg: Config, sources: seq<InputSource>, id: int)
    requires |sources| == |Styles(cfg)|
    requires forall k :: 0 <= k < |sources| ==> sources[k].identifier == k + 1
    ensures OnActiveIdentifierSet(cfg, id).Answered? <==>
      exists k :: 0 <= k < |sources| && sources[k].identifier == id
    ensures forall k :: 0 <= k < |sources| && sources[k].identifier == id ==>
      OnActiveIdentifierSet(cfg, id) ==
        Answered([Post(Url(cfg.ip, "ambilight/currentconfiguration"), AmbilightBody(Styles(cfg)[k]))], None)
  {
    if 1 <= id <= |sources| {
      assert sources[id - 1].identifier == id;
    }
  }
}
