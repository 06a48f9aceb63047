/** The light platform of the Aidot integration: which device records become light
    entities, how an entity derives its manufacturer, model and colour modes from the
    device information, which device commands turning it on or off issues, and what
    its status-polling loop does after each status read. */
module Light {
  import opened Records

  // ---------------------------------------------------------------------------
  // Entity filter (the platform's async_setup_entry)
  // ---------------------------------------------------------------------------

  /** Raised by the filter: indexing the first element of an empty "aesKey" list. */
  datatype EntityError = AesKeyIndexError

  predicate IsLightRecord(d: Device) {
    d.kind == Some("light")
  }

  /** The filter reaches `aesKey[0]` on a light record whose key list is empty. */
  predicate FilterRaises(d: Device) {
    IsLightRecord(d) && d.aesKey.AesKeys? && d.aesKey.keys == []
  }

  /** A light record with an "aesKey" list whose first element is not null. */
  predicate BecomesEntity(d: Device) {
    IsLightRecord(d) && d.aesKey.AesKeys? && |d.aesKey.keys| > 0 && d.aesKey.keys[0].Some?
  }

  /** The device records, in list order, for which a light entity is created. */
  function LightEntities(devices: seq<Device>): (r: Result<seq<Device>, EntityError>)
    ensures r.Err? <==> exists i :: 0 <= i < |devices| && FilterRaises(devices[i])
    ensures r.Ok? ==> forall d :: d in r.value ==> d in devices && BecomesEntity(d)
    ensures r.Ok? ==> forall d :: d in devices && BecomesEntity(d) ==> d in r.value
  {
    if devices == [] then Ok([])
    else if FilterRaises(devices[0]) then Err(AesKeyIndexError)
    else
      match LightEntities(devices[1..])
      case Err(e) => Err(e)
      case Ok(rest) => Ok(if BecomesEntity(devices[0]) then [devices[0]] + rest else rest)
  }

  /** Each record becomes at most one entity: the entities are a sub-multiset of the records. */
  lemma {:induction false} LightEntitiesOnce(devices: seq<Device>)
    ensures LightEntities(devices).Ok? ==> multiset(LightEntities(devices).value) <= multiset(devices)
  {
    if devices != [] && !FilterRaises(devices[0]) {
      LightEntitiesOnce(devices[1..]);
      assert devices == [devices[0]] + devices[1..];
    }
  }

  /** Filtering a concatenation filters each part and keeps their order. */
  lemma {:induction false} LightEntitiesAppend(a: seq<Device>, b: seq<Device>)
    ensures LightEntities(a + b).Ok? <==> LightEntities(a).Ok? && LightEntities(b).Ok?
    ensures LightEntities(a + b).Ok? ==>
      LightEntities(a + b).value == LightEntities(a).value + LightEntities(b).value
  {
    if a == [] {
      assert a + b == b;
    } else {
      assert (a + b)[0] == a[0];
      assert (a + b)[1..] == a[1..] + b;
      LightEntitiesAppend(a[1..], b);
      if !FilterRaises(a[0]) && LightEntities(a[1..]).Ok? && LightEntities(b).Ok? {
        var ra, rb := LightEntities(a[1..]).value, LightEntities(b).value;
        if BecomesEntity(a[0]) {
          assert [a[0]] + ra + rb == [a[0]] + (ra + rb);
        }
      }
    }
  }

  // ---------------------------------------------------------------------------
  // Device information and the entity's derived attributes (AidotLight.__init__)
  // ---------------------------------------------------------------------------

  /** What the device client reports about a device (its `info`). */
  datatype DeviceInfo = DeviceInfo(
    devId: string,
    modelId: string,
    mac: string,
    name: string,
    hwVersion: string,
    enableRgbw: bool,
    enableCct: bool,
    enableDimming: bool
  )

  /** The text of a model id before its first '.', or the whole id when it has none. */
  function Manufacturer(modelId: string): (m: string)
    ensures m <= modelId
    ensures '.' !in m
    ensures |m| < |modelId| ==> modelId[|m|] == '.'
  {
    if modelId == [] || modelId[0] == '.' then []
    else [modelId[0]] + Manufacturer(modelId[1..])
  }

  datatype ModelName = ModelName(manufacturer: string, model: string)

  /** Splits a model id at its first '.' into manufacturer and model; the slice past
      the end of the id is empty, as a Python slice is. */
  function SplitModelId(modelId: string): (r: ModelName)
    ensures '.' !in r.manufacturer
    ensures '.' in modelId ==> r.manufacturer + "." + r.model == modelId
    ensures '.' !in modelId ==> r.manufacturer == modelId && r.model == ""
  {
    var manufacturer := Manufacturer(modelId);
    var model := if |manufacturer| + 1 <= |modelId| then modelId[|manufacturer| + 1..] else "";
    assert |manufacturer| == |modelId| ==> manufacturer == modelId;
    assert '.' in modelId ==> modelId == manufacturer + [modelId[|manufacturer|]] + model;
    ModelName(manufacturer, model)
  }

  datatype ColorMode = Rgbw | ColorTemp | Brightness | OnOff

  /** When the device information makes a colour mode supported. */
  predicate Supports(info: DeviceInfo, m: ColorMode) {
    match m
    case Rgbw => info.enableRgbw
    case ColorTemp => info.enableCct
    case OnOff => !info.enableRgbw && !info.enableCct
    case Brightness => !info.enableRgbw && !info.enableCct && info.enableDimming
  }

  /** Builds the supported colour modes step by step, as the entity's constructor does. */
  method BuildSupportedModes(info: DeviceInfo) returns (modes: set<ColorMode>)
    ensures modes != {}
    ensures forall m :: m in modes <==> Supports(info, m)
  {
    modes := {};
    if info.enableRgbw {
      modes := modes + {Rgbw};
    }
    if info.enableCct {
      modes := modes + {ColorTemp};
    }
    if modes == {} {
      modes := modes + {OnOff};
      if info.enableDimming {
        modes := modes + {Brightness};
      }
    }
  }

  /** Precedence of colour modes: RGBW > COLOR_TEMP > BRIGHTNESS > ONOFF. */
  function Rank(m: ColorMode): nat {
    match m
    case Rgbw => 3
    case ColorTemp => 2
    case Brightness => 1
    case OnOff => 0
  }

  /** The active colour mode: the highest-ranked member of the set, ONOFF otherwise. */
  function ActiveMode(modes: set<ColorMode>): (m: ColorMode)
    ensures m in modes || m == OnOff
    ensures forall x :: x in modes ==> Rank(x) <= Rank(m)
  {
    if Rgbw in modes then Rgbw
    else if ColorTemp in modes then ColorTemp
    else if Brightness in modes then Brightness
    else OnOff
  }

  /** For any device, the active mode is a supported one, and it is the best supported. */
  lemma ActiveModeIsSupported(info: DeviceInfo, modes: set<ColorMode>)
    requires forall m :: m in modes <==> Supports(info, m)
    ensures ActiveMode(modes) in modes
    ensures forall x :: x in modes && x != ActiveMode(modes) ==> Rank(x) < Rank(ActiveMode(modes))
    ensures ActiveMode(modes) ==
      if info.enableRgbw then Rgbw
      else if info.enableCct then ColorTemp
      else if info.enableDimming then Brightness
      else OnOff
  {
  }

  // ---------------------------------------------------------------------------
  // Commands and the polling loop
  // ---------------------------------------------------------------------------

  datatype RgbwColor = RgbwColor(red: int, green: int, blue: int, white: int)

  /** The device client's status snapshot. */
  datatype Status = Status(on: bool, dimming: int, cct: Option<int>, rgbw: Option<RgbwColor>, online: bool)

  /** The keyword arguments a turn-on request may carry. */
  datatype TurnOnArgs = TurnOnArgs(brightness: Option<int>, colorTempKelvin: Option<int>, rgbw: Option<RgbwColor>)

  /** The calls an entity makes on its device client and on the host. */
  datatype Effect =
    | PowerOn                        // device_client.async_turn_on()
    | PowerOff                       // device_client.async_turn_off()
    | SetBrightness(level: int)      // device_client.async_set_brightness(level)
    | SetColorTemp(kelvin: int)      // device_client.async_set_cct(kelvin)
    | SetRgbw(color: RgbwColor)      // device_client.async_set_rgbw(color)
    | ReadStatus                     // device_client.read_status()
    | Login                          // device_client.async_login()
    | WriteState(status: Status)     // async_write_ha_state() publishing the status
    | Sleep(seconds: nat)            // asyncio.sleep(seconds)

  /** Position of a turn-on command in the fixed order; 4 for anything else. */
  function TurnOnRank(e: Effect): nat {
    match e
    case PowerOn => 0
    case SetBrightness(_) => 1
    case SetColorTemp(_) => 2
    case SetRgbw(_) => 3
    case _ => 4
  }

  /** Commands strictly ordered by their position in the turn-on order. */
  predicate StrictlyRanked(s: seq<Effect>) {
    forall i, j :: 0 <= i < j < |s| ==> TurnOnRank(s[i]) < TurnOnRank(s[j])
  }

  /** Appending at most one command ranked above everything so far keeps the order. */
  lemma RankedSnoc(a: seq<Effect>, b: seq<Effect>, k: nat)
    requires StrictlyRanked(a) && forall e :: e in a ==> TurnOnRank(e) < k
    requires |b| <= 1 && forall e :: e in b ==> TurnOnRank(e) == k
    ensures StrictlyRanked(a + b) && forall e :: e in a + b ==> TurnOnRank(e) <= k
  {
  }

  function PowerCommands(isOn: bool): (r: seq<Effect>)
    ensures |r| <= 1 && forall e :: e in r ==> e == PowerOn
    ensures PowerOn in r <==> !isOn
  {
    if isOn then [] else [PowerOn]
  }

  function BrightnessCommands(args: TurnOnArgs): (r: seq<Effect>)
    ensures |r| <= 1 && forall e :: e in r ==> e.SetBrightness? && args.brightness == Some(e.level)
    ensures args.brightness.Some? ==> SetBrightness(args.brightness.value) in r
  {
    if args.brightness.Some? then [SetBrightness(args.brightness.value)] else []
  }

  function ColorTempCommands(args: TurnOnArgs): (r: seq<Effect>)
    ensures |r| <= 1 && forall e :: e in r ==> e.SetColorTemp? && args.colorTempKelvin == Some(e.kelvin)
    ensures args.colorTempKelvin.Some? ==> SetColorTemp(args.colorTempKelvin.value) in r
  {
    if args.colorTempKelvin.Some? then [SetColorTemp(args.colorTempKelvin.value)] else []
  }

  function RgbwCommands(args: TurnOnArgs): (r: seq<Effect>)
    ensures |r| <= 1 && forall e :: e in r ==> e.SetRgbw? && args.rgbw == Some(e.color)
    ensures args.rgbw.Some? ==> SetRgbw(args.rgbw.value) in r
  {
    if args.rgbw.Some? then [SetRgbw(args.rgbw.value)] else []
  }

  /** The commands a turn-on request issues, given whether the light is already on. */
  function TurnOnEffects(isOn: bool, args: TurnOnArgs): (r: seq<Effect>)
    ensures PowerOn in r <==> !isOn
    ensures forall e :: e in r && e.SetBrightness? ==> args.brightness == Some(e.level)
    ensures forall e :: e in r && e.SetColorTemp? ==> args.colorTempKelvin == Some(e.kelvin)
    ensures forall e :: e in r && e.SetRgbw? ==> args.rgbw == Some(e.color)
    ensures args.brightness.Some? ==> SetBrightness(args.brightness.value) in r
    ensures args.colorTempKelvin.Some? ==> SetColorTemp(args.colorTempKelvin.value) in r
    ensures args.rgbw.Some? ==> SetRgbw(args.rgbw.value) in r
  {
    PowerCommands(isOn) + BrightnessCommands(args) + ColorTempCommands(args) + RgbwCommands(args)
  }

  /** The turn-on commands come in the fixed order power-on, brightness, colour
      temperature, RGBW, each at most once, and nothing else is issued. */
  lemma TurnOnOrder(isOn: bool, args: TurnOnArgs)
    ensures StrictlyRanked(TurnOnEffects(isOn, args))
    ensures forall e :: e in TurnOnEffects(isOn, args) ==> TurnOnRank(e) < 4
  {
    var power := PowerCommands(isOn);
    var level := BrightnessCommands(args);
    var kelvin := ColorTempCommands(args);
    var color := RgbwCommands(args);
    RankedSnoc([], power, 0);
    assert [] + power == power;
    RankedSnoc(power, level, 1);
    RankedSnoc(power + level, kelvin, 2);
    RankedSnoc(power + level + kelvin, color, 3);
  }

  /** The outcome of one status read, as the loop sees it. */
  datatype ReadOutcome =
    | StatusRead(status: Status)        // read_status() returned with this status
    | NotLoggedIn(loginRaises: bool)    // read_status() raised AidotNotLogin; whether the re-login raised too
    | ReadRaised                        // read_status() raised any other exception

  /** What the loop does after the status read. */
  function Reaction(o: ReadOutcome): (e: Effect)
    ensures e == Login <==> o.NotLoggedIn?
    ensures e == Sleep(5) <==> o.ReadRaised?
    ensures e.WriteState? <==> o.StatusRead?
    ensures o.StatusRead? ==> e.status == o.status
  {
    match o
    case StatusRead(s) => WriteState(s)
    case NotLoggedIn(_) => Login
    case ReadRaised => Sleep(5)
  }

  /** The only outcome that leaves the loop: a re-login that raises escapes the handler. */
  predicate Escapes(o: ReadOutcome) {
    o.NotLoggedIn? && o.loginRaises
  }

  /** The effects of the polling loop over a run of read outcomes. */
  function LoopEffects(outcomes: seq<ReadOutcome>): (r: seq<Effect>)
    ensures |r| <= 2 * |outcomes|
    ensures outcomes != [] ==> |r| >= 2
  {
    if outcomes == [] then []
    else [ReadStatus, Reaction(outcomes[0])] + (if Escapes(outcomes[0]) then [] else LoopEffects(outcomes[1..]))
  }

  /** The status snapshot after the polling loop over a run of read outcomes. */
  function LoopStatus(s: Status, outcomes: seq<ReadOutcome>): (r: Status)
    ensures r == s || exists i :: 0 <= i < |outcomes| && outcomes[i].StatusRead? && r == outcomes[i].status
    decreases outcomes
  {
    if outcomes == [] then s
    else if Escapes(outcomes[0]) then s
    else LoopStatus(if outcomes[0].StatusRead? then outcomes[0].status else s, outcomes[1..])
  }

  /** Reads that all fail leave the entity's status as it was. */
  lemma {:induction false} LoopStatusUnread(s: Status, outcomes: seq<ReadOutcome>)
    requires forall i :: 0 <= i < |outcomes| ==> !outcomes[i].StatusRead?
    ensures LoopStatus(s, outcomes) == s
  {
    if outcomes != [] {
      LoopStatusUnread(s, outcomes[1..]);
    }
  }

  /** Once the loop has reached the read at j and no later read succeeds, the status is the
      one read at j. */
  lemma {:induction false} LoopStatusIsLastRead(s: Status, outcomes: seq<ReadOutcome>, j: nat)
    requires j < |outcomes| && outcomes[j].StatusRead?
    requires forall i :: 0 <= i < j ==> !Escapes(outcomes[i])
    requires forall i :: j < i < |outcomes| ==> !outcomes[i].StatusRead?
    ensures LoopStatus(s, outcomes) == outcomes[j].status
    decreases j
  {
    if j == 0 {
      LoopStatusUnread(outcomes[0].status, outcomes[1..]);
    } else {
      var next := if outcomes[0].StatusRead? then outcomes[0].status else s;
      assert outcomes[1..][j - 1] == outcomes[j];
      LoopStatusIsLastRead(next, outcomes[1..], j - 1);
    }
  }

  /** A re-login that raises ends the loop: no later read changes the status. */
  lemma {:induction false} LoopStatusStopsAtRaisingLogin(s: Status, outcomes: seq<ReadOutcome>, k: nat)
    requires k < |outcomes| && Escapes(outcomes[k])
    requires forall i :: 0 <= i < k ==> !Escapes(outcomes[i])
    ensures LoopStatus(s, outcomes) == LoopStatus(s, outcomes[..k])
    decreases k
  {
    if k > 0 {
      var next := if outcomes[0].StatusRead? then outcomes[0].status else s;
      LoopStatusStopsAtRaisingLogin(next, outcomes[1..], k - 1);
      assert outcomes[..k][0] == outcomes[0];
      assert outcomes[..k][1..] == outcomes[1..][..k - 1];
    }
  }

  /** Unfolds the loop's effects at position i of the run, as a step after the effects so far. */
  lemma LoopEffectsStep(before: seq<Effect>, outcomes: seq<ReadOutcome>, i: nat)
    requires i < |outcomes|
    ensures before + LoopEffects(outcomes[i..]) ==
      before + [ReadStatus, Reaction(outcomes[i])] + (if Escapes(outcomes[i]) then [] else LoopEffects(outcomes[i + 1..]))
  {
    assert outcomes[i..][0] == outcomes[i] && outcomes[i..][1..] == outcomes[i + 1..];
  }

  /** No read outcome ends the loop: every outcome is read, and each read is followed by
      exactly one reaction. */
  lemma {:induction false} LoopRunsEveryOutcome(outcomes: seq<ReadOutcome>)
    requires forall i :: 0 <= i < |outcomes| ==> !Escapes(outcomes[i])
    ensures |LoopEffects(outcomes)| == 2 * |outcomes|
  {
    if outcomes != [] {
      LoopRunsEveryOutcome(outcomes[1..]);
    }
  }

  /** Unless an earlier re-login raised, iteration k reads the status and then reacts to
      the k-th outcome, at positions 2k and 2k+1 of the loop's effects. */
  lemma {:induction false} LoopIteration(outcomes: seq<ReadOutcome>, k: nat)
    requires k < |outcomes|
    requires forall i :: 0 <= i < k ==> !Escapes(outcomes[i])
    ensures 2 * k + 1 < |LoopEffects(outcomes)|
    ensures LoopEffects(outcomes)[2 * k] == ReadStatus
    ensures LoopEffects(outcomes)[2 * k + 1] == Reaction(outcomes[k])
  {
    if k > 0 {
      LoopIteration(outcomes[1..], k - 1);
      var head := [ReadStatus, Reaction(outcomes[0])];
      var rest := LoopEffects(outcomes[1..]);
      assert LoopEffects(outcomes) == head + rest;
      assert outcomes[1..][k - 1] == outcomes[k];
      assert (head + rest)[2 * k] == rest[2 * (k - 1)];
      assert (head + rest)[2 * k + 1] == rest[2 * (k - 1) + 1];
    }
  }

  /** A re-login that raises ends the loop right after it: nothing later is read. */
  lemma {:induction false} LoopStopsAtRaisingLogin(outcomes: seq<ReadOutcome>, k: nat)
    requires k < |outcomes| && Escapes(outcomes[k])
    requires forall i :: 0 <= i < k ==> !Escapes(outcomes[i])
    ensures LoopEffects(outcomes) == LoopEffects(outcomes[..k + 1])
    ensures |LoopEffects(outcomes)| == 2 * (k + 1)
    ensures LoopEffects(outcomes)[2 * k + 1] == Login
  {
    var head := [ReadStatus, Reaction(outcomes[0])];
    var prefix := outcomes[..k + 1];
    assert prefix[0] == outcomes[0];
    if k == 0 {
      assert LoopEffects(outcomes) == head + [];
      assert LoopEffects(prefix) == head + [];
    } else {
      LoopStopsAtRaisingLogin(outcomes[1..], k - 1);
      assert prefix[1..] == outcomes[1..][..k];
      assert LoopEffects(outcomes) == head + LoopEffects(outcomes[1..]);
      assert LoopEffects(prefix) == head + LoopEffects(prefix[1..]);
    }
  }

  // ---------------------------------------------------------------------------
  // The entity
  // ---------------------------------------------------------------------------

  /** A light entity bound to one device client. */
  class AidotLight {
    const uniqueId: string
    const modelName: ModelName
    const supportedColorModes: set<ColorMode>
    const colorMode: ColorMode
    /** The device client's current status, which the entity's properties pass through. */
    var status: Status
    /** The calls the entity has made so far. */
    var effects: seq<Effect>

    constructor (info: DeviceInfo, initial: Status)
      ensures uniqueId == info.devId
      ensures modelName == SplitModelId(info.modelId)
      ensures forall m :: m in supportedColorModes <==> Supports(info, m)
      ensures colorMode == ActiveMode(supportedColorModes)
      ensures status == initial && effects == []
    {
      uniqueId := info.devId;
      modelName := SplitModelId(info.modelId);
      var modes := BuildSupportedModes(info);
      supportedColorModes := modes;
      colorMode := ActiveMode(modes);
      status := initial;
      effects := [];
    }

    /** Turns the light on, then applies the supplied attributes. */
    method TurnOn(args: TurnOnArgs)
      modifies this`effects
      ensures effects == old(effects) + TurnOnEffects(status.on, args)
    {
      ghost var before := effects;
      if !status.on {
        effects := effects + [PowerOn];
      }
      assert effects == before + PowerCommands(status.on);
      if args.brightness.Some? {
        effects := effects + [SetBrightness(args.brightness.value)];
      }
      assert effects == before + PowerCommands(status.on) + BrightnessCommands(args);
      if args.colorTempKelvin.Some? {
        effects := effects + [SetColorTemp(args.colorTempKelvin.value)];
      }
      assert effects == before + PowerCommands(status.on) + BrightnessCommands(args) + ColorTempCommands(args);
      if args.rgbw.Some? {
        effects := effects + [SetRgbw(args.rgbw.value)];
      }
      assert effects == before + (PowerCommands(status.on) + BrightnessCommands(args) + ColorTempCommands(args) + RgbwCommands(args));
    }

    /** Turns the light off, whatever its state; the keyword arguments are ignored, so none are taken. */
    method TurnOff()
      modifies this`effects
      ensures effects == old(effects) + [PowerOff]
    {
      effects := effects + [PowerOff];
    }

    /** One pass of the polling loop: read the status, then react to the outcome.
        Returns whether the exception of a failed re-login escapes. */
    method PollOnce(o: ReadOutcome) returns (escapes: bool)
      modifies this`status, this`effects
      ensures effects == old(effects) + [ReadStatus, Reaction(o)]
      ensures status == if o.StatusRead? then o.status else old(status)
      ensures escapes == Escapes(o)
    {
      effects := effects + [ReadStatus];
      escapes := false;
      match o {
        case StatusRead(s) =>
          status := s;
          effects := effects + [WriteState(s)];
        case NotLoggedIn(loginRaises) =>
          effects := effects + [Login];
          escapes := loginRaises;
        case ReadRaised =>
          effects := effects + [Sleep(5)];
      }
    }

    /** The polling loop, run over the outcomes of its successive status reads; the host
        cancels the task when the entity is removed, which ends the run of outcomes.
        Returns whether an exception escaped the loop. */
    method UpdateLoop(outcomes: seq<ReadOutcome>) returns (escaped: bool)
      modifies this`status, this`effects
      ensures effects == old(effects) + LoopEffects(outcomes)
      ensures status == LoopStatus(old(status), outcomes)
      ensures escaped <==> exists i :: 0 <= i < |outcomes| && Escapes(outcomes[i])
    {
      var i := 0;
      escaped := false;
      while i < |outcomes| && !escaped
        invariant 0 <= i <= |outcomes|
        invariant !escaped ==> effects + LoopEffects(outcomes[i..]) == old(effects) + LoopEffects(outcomes)
        invariant !escaped ==> LoopStatus(status, outcomes[i..]) == LoopStatus(old(status), outcomes)
        invariant !escaped ==> forall k :: 0 <= k < i ==> !Escapes(outcomes[k])
        invariant escaped ==> effects == old(effects) + LoopEffects(outcomes)
        invariant escaped ==> status == LoopStatus(old(status), outcomes)
        invariant escaped ==> 0 < i && Escapes(outcomes[i - 1])
      {
        ghost var before := effects;
        escaped := PollOnce(outcomes[i]);
        LoopEffectsStep(before, outcomes, i);
        i := i + 1;
      }
    }
  }
}
