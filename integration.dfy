/** Setting up and unloading a config entry of the Aidot integration: the product join
    over the entry's device list, the choice of devices that get a manual IP address,
    and the bookkeeping in the integration's slot of the host's shared data store. */
module Integration {
  import opened Records

  // ---------------------------------------------------------------------------
  // Product join
  // ---------------------------------------------------------------------------

  /** The index of the last product whose "id" equals the given product id. */
  function LastMatch(products: seq<Product>, productId: string): (r: Option<nat>)
    ensures r.Some? ==> r.value < |products| && products[r.value].id == productId
    ensures r.Some? ==> forall k :: r.value < k < |products| ==> products[k].id != productId
    ensures r.None? ==> forall k :: 0 <= k < |products| ==> products[k].id != productId
  {
    if products == [] then None
    else if products[|products| - 1].id == productId then Some(|products| - 1)
    else LastMatch(products[..|products| - 1], productId)
  }

  /** A device after the join: it carries the last matching product, if any. */
  function JoinOne(d: Device, products: seq<Product>): (r: Device)
    ensures r == d.(product := r.product)
    ensures r != d ==> r.product.Some? && r.product.value in products && r.product.value.id == d.productId
  {
    match LastMatch(products, d.productId)
    case Some(k) => d.(product := Some(products[k]))
    case None => d
  }

  /** The device list after the join. */
  function JoinAll(devices: seq<Device>, products: seq<Product>): (r: seq<Device>)
    ensures |r| == |devices|
  {
    seq(|devices|, k requires 0 <= k < |devices| => JoinOne(devices[k], products))
  }

  /** After the join, only the "product" field of a device may differ; a device that no
      product matches is unchanged, and a matched device carries the last matching product. */
  lemma JoinAllSpec(devices: seq<Device>, products: seq<Product>, k: nat)
    requires k < |devices|
    ensures JoinAll(devices, products)[k] == devices[k].(product := JoinAll(devices, products)[k].product)
    ensures (forall j :: 0 <= j < |products| ==> products[j].id != devices[k].productId) ==>
      JoinAll(devices, products)[k] == devices[k]
    ensures forall j :: 0 <= j < |products| ==>
      (products[j].id == devices[k].productId
       && (forall j' :: j < j' < |products| ==> products[j'].id != devices[k].productId)
       ==> JoinAll(devices, products)[k].product == Some(products[j]))
  {
  }

  /** Joining one more product: only the devices it matches change, and they take it. */
  lemma JoinOneSnoc(d: Device, products: seq<Product>, p: Product)
    ensures JoinOne(d, products + [p]) ==
      if d.productId == p.id then JoinOne(d, products).(product := Some(p)) else JoinOne(d, products)
  {
  }

  /** The join is idempotent: joining a joined list against the same products changes nothing. */
  lemma JoinAllIdempotent(devices: seq<Device>, products: seq<Product>)
    ensures JoinAll(JoinAll(devices, products), products) == JoinAll(devices, products)
  {
  }

  /** The inner loop of the join: attaches one more product to every device it matches. */
  method AttachProduct(devices: array<Device>, ghost before: seq<Device>, products: seq<Product>, product: Product)
    requires |before| == devices.Length
    requires forall k :: 0 <= k < devices.Length ==> devices[k] == JoinOne(before[k], products)
    modifies devices
    ensures forall k :: 0 <= k < devices.Length ==> devices[k] == JoinOne(before[k], products + [product])
  {
    var j := 0;
    while j < devices.Length
      invariant 0 <= j <= devices.Length
      invariant forall k :: 0 <= k < j ==> devices[k] == JoinOne(before[k], products + [product])
      invariant forall k :: j <= k < devices.Length ==> devices[k] == JoinOne(before[k], products)
    {
      JoinOneSnoc(before[j], products, product);
      if devices[j].productId == product.id {
        devices[j] := devices[j].(product := Some(product));
      }
      assert devices[j] == JoinOne(before[j], products + [product]);
      j := j + 1;
    }
  }

  /** Attaches to each device the product whose id matches its productId, in place;
      the outer loop runs over the products, so the last matching product wins. */
  method JoinProducts(devices: array<Device>, products: seq<Product>)
    modifies devices
    ensures devices[..] == JoinAll(old(devices[..]), products)
  {
    ghost var before := devices[..];
    var i := 0;
    while i < |products|
      invariant 0 <= i <= |products|
      invariant forall k :: 0 <= k < devices.Length ==> devices[k] == JoinOne(before[k], products[..i])
    {
      assert products[..i + 1] == products[..i] + [products[i]];
      AttachProduct(devices, before, products[..i], products[i]);
      i := i + 1;
    }
    assert products[..i] == products;
  }

  // ---------------------------------------------------------------------------
  // External calls
  // ---------------------------------------------------------------------------

  /** The Aidot client created for a config entry. */
  class AidotClient {
    const login: LoginInfo

    constructor (login: LoginInfo)
      ensures this.login == login
    {
      this.login := login;
    }
  }

  datatype Platform = LightPlatform | SwitchPlatform

  /** The platforms the integration forwards an entry to. */
  const Platforms: seq<Platform> := [LightPlatform, SwitchPlatform]

  /** Calls into the client library and the host, in the order they are made. */
  datatype Event =
    | ManualIp(client: AidotClient, device: Device, ip: string)  // get_device_client(device).update_ip_address(ip, manual=True)
    | StartDiscover(client: AidotClient)                           // client.start_discover()
    | ForwardEntrySetups(entryId: string, platforms: seq<Platform>)
    | UnloadPlatforms(entryId: string, platforms: seq<Platform>)
    | Cleanup(client: AidotClient)                                 // client.cleanup()

  // ---------------------------------------------------------------------------
  // Manual IP overrides
  // ---------------------------------------------------------------------------

  /** The override applied to one device: its id is a key of the map with a non-empty address. */
  function OverrideFor(client: AidotClient, d: Device, ips: map<string, string>): (r: seq<Event>)
    ensures |r| <= 1
    ensures |r| == 1 <==> d.id.Some? && d.id.value in ips && ips[d.id.value] != ""
    ensures |r| == 1 ==> r[0] == ManualIp(client, d, ips[d.id.value])
  {
    if d.id.Some? && d.id.value in ips && ips[d.id.value] != "" then [ManualIp(client, d, ips[d.id.value])]
    else []
  }

  /** The manual IP overrides applied to a device list, in list order. */
  function ManualIpEvents(client: AidotClient, devices: seq<Device>, ips: map<string, string>): (r: seq<Event>)
    ensures |r| <= |devices|
    ensures forall e :: e in r ==>
      && e.ManualIp? && e.client == client && e.device in devices
      && e.device.id.Some? && e.device.id.value in ips
      && e.ip == ips[e.device.id.value] && e.ip != ""
  {
    if devices == [] then []
    else OverrideFor(client, devices[0], ips) + ManualIpEvents(client, devices[1..], ips)
  }

  /** The overrides of a concatenation are those of each part, in order. */
  lemma {:induction false} ManualIpEventsAppend(client: AidotClient, a: seq<Device>, b: seq<Device>, ips: map<string, string>)
    ensures ManualIpEvents(client, a + b, ips) == ManualIpEvents(client, a, ips) + ManualIpEvents(client, b, ips)
  {
    if a == [] {
      assert a + b == b;
    } else {
      assert (a + b)[0] == a[0];
      assert (a + b)[1..] == a[1..] + b;
      ManualIpEventsAppend(client, a[1..], b, ips);
    }
  }

  /** Each device contributes at most one override, at its own position in the list. */
  lemma ManualIpEventsAt(client: AidotClient, devices: seq<Device>, ips: map<string, string>, k: nat)
    requires k < |devices|
    ensures ManualIpEvents(client, devices, ips) ==
      ManualIpEvents(client, devices[..k], ips) + OverrideFor(client, devices[k], ips)
      + ManualIpEvents(client, devices[k + 1..], ips)
  {
    assert devices == devices[..k] + ([devices[k]] + devices[k + 1..]);
    ManualIpEventsAppend(client, devices[..k], [devices[k]] + devices[k + 1..], ips);
    ManualIpEventsAppend(client, [devices[k]], devices[k + 1..], ips);
    assert ManualIpEvents(client, [devices[k]], ips) == OverrideFor(client, devices[k], ips) + [];
  }

  /** Every device whose id maps to a non-empty address gets that address. */
  lemma {:induction false} ManualIpEventsComplete(client: AidotClient, devices: seq<Device>, ips: map<string, string>, d: Device)
    requires d in devices && d.id.Some? && d.id.value in ips && ips[d.id.value] != ""
    ensures ManualIp(client, d, ips[d.id.value]) in ManualIpEvents(client, devices, ips)
  {
    if devices[0] != d {
      ManualIpEventsComplete(client, devices[1..], ips, d);
    }
  }

  /** Without an override map, no device gets a manual address. */
  lemma {:induction false} NoIpsNoOverrides(client: AidotClient, devices: seq<Device>)
    ensures ManualIpEvents(client, devices, map[]) == []
  {
    if devices != [] {
      NoIpsNoOverrides(client, devices[1..]);
    }
  }

  /** The override map the device loop consults: the entry's map, or none at all. */
  function IpsOrEmpty(manualIps: Option<map<string, string>>): (r: map<string, string>)
    ensures forall id :: id in r <==> manualIps.Some? && id in manualIps.value
    ensures forall id :: id in r ==> r[id] == manualIps.value[id]
  {
    if manualIps.Some? then manualIps.value else map[]
  }

  /** Walks the device list and collects the manual IP updates to make. */
  method SelectManualIps(client: AidotClient, devices: array<Device>, manualIps: Option<map<string, string>>)
    returns (events: seq<Event>)
    ensures events == ManualIpEvents(client, devices[..], IpsOrEmpty(manualIps))
  {
    events := [];
    if manualIps.Some? && |manualIps.value| > 0 {
      var ips := manualIps.value;
      var i := 0;
      while i < devices.Length
        invariant 0 <= i <= devices.Length
        invariant events == ManualIpEvents(client, devices[..i], ips)
      {
        var device := devices[i];
        var devId := device.id;
        if devId.Some? && devId.value in ips {
          var ip := ips[devId.value];
          if ip != "" {
            events := events + [ManualIp(client, device, ip)];
          }
        }
        assert devices[..i + 1] == devices[..i] + [device];
        ManualIpEventsAppend(client, devices[..i], [device], ips);
        assert ManualIpEvents(client, [device], ips) == OverrideFor(client, device, ips) + [];
        i := i + 1;
      }
      assert devices[..i] == devices[..];
    } else {
      NoIpsNoOverrides(client, devices[..]);
    }
  }

  // ---------------------------------------------------------------------------
  // The shared data store
  // ---------------------------------------------------------------------------

  /** Keys of the integration's slot in the host's data store. */
  datatype StoreKey = DeviceListKey | LoginInfoKey | ProductListKey | EntryKey(entryId: string)

  datatype StoreValue =
    | DeviceList(devices: array<Device>)
    | StoredLogin(login: LoginInfo)
    | ProductList(products: seq<Product>)
    | EntryData(client: AidotClient, devices: array<Device>)

  /** Each key holds the kind of value setup writes under it. */
  predicate Fits(k: StoreKey, v: StoreValue) {
    match k
    case DeviceListKey => v.DeviceList?
    case LoginInfoKey => v.StoredLogin?
    case ProductListKey => v.ProductList?
    case EntryKey(_) => v.EntryData?
  }

  /** Every key of a slot holds the kind of value setup writes under it. */
  ghost predicate WellTyped(m: map<StoreKey, StoreValue>) {
    forall k :: k in m ==> Fits(k, m[k])
  }

  lemma WellTypedUpdate(m: map<StoreKey, StoreValue>, k: StoreKey, v: StoreValue)
    requires WellTyped(m) && Fits(k, v)
    ensures WellTyped(m[k := v])
  {
  }

  /** A config entry's data; the device list is one list object, shared with the store. */
  datatype ConfigEntry = ConfigEntry(
    entryId: string,
    devices: array<Device>,
    login: LoginInfo,
    products: Option<seq<Product>>,
    manualIps: Option<map<string, string>>
  )

  /** The exceptions that setting up or unloading an entry raises. */
  datatype EntryError =
    | ProductListMissing         // entry.data has no product list
    | DomainMissing              // the integration's slot is not in the store
    | StoreKeyMissing(key: StoreKey)

  /** The store after a successful setup of the entry with the given client. */
  function SetupStore(store: map<StoreKey, StoreValue>, entry: ConfigEntry, products: seq<Product>, client: AidotClient)
    : (r: map<StoreKey, StoreValue>)
    ensures r.Keys == store.Keys + {DeviceListKey, LoginInfoKey, ProductListKey, EntryKey(entry.entryId)}
  {
    store[DeviceListKey := DeviceList(entry.devices)]
      [LoginInfoKey := StoredLogin(entry.login)]
      [ProductListKey := ProductList(products)]
      [EntryKey(entry.entryId) := EntryData(client, entry.devices)]
  }

  /** Setup adds the shared keys and the entry's record, which holds the client and the very
      device array stored under the device-list key; every other key keeps its value. */
  lemma SetupStoreSpec(store: map<StoreKey, StoreValue>, entry: ConfigEntry, products: seq<Product>, client: AidotClient)
    ensures var r := SetupStore(store, entry, products, client);
      && r[EntryKey(entry.entryId)] == EntryData(client, entry.devices)
      && r[DeviceListKey] == DeviceList(entry.devices)
      && r[LoginInfoKey] == StoredLogin(entry.login)
      && r[ProductListKey] == ProductList(products)
      && forall k :: k in store ==>
           (k !in {DeviceListKey, LoginInfoKey, ProductListKey, EntryKey(entry.entryId)} ==> r[k] == store[k])
  {
  }

  /** The store after a successful unload of the entry. */
  function UnloadStore(store: map<StoreKey, StoreValue>, entryId: string): (r: map<StoreKey, StoreValue>)
    ensures r.Keys == store.Keys - {DeviceListKey, LoginInfoKey, ProductListKey, EntryKey(entryId)}
  {
    store - {EntryKey(entryId), DeviceListKey, LoginInfoKey, ProductListKey}
  }

  /** Unload removes the entry's record and the shared keys, and keeps every other key's value. */
  lemma UnloadStoreSpec(store: map<StoreKey, StoreValue>, entryId: string)
    ensures var r := UnloadStore(store, entryId);
      forall k :: k in r ==> r[k] == store[k]
  {
  }

  /** Unloading right after a setup leaves the store as it was, less the entry's and the shared keys. */
  lemma UnloadUndoesSetup(store: map<StoreKey, StoreValue>, entry: ConfigEntry, products: seq<Product>, client: AidotClient)
    ensures UnloadStore(SetupStore(store, entry, products, client), entry.entryId) == UnloadStore(store, entry.entryId)
  {
  }

  /** The host's data store, restricted to this integration's slot, and the calls made. */
  class HassData {
    /** hass.data[DOMAIN]; None until a setup first creates it. */
    var domain: Option<map<StoreKey, StoreValue>>
    var events: seq<Event>

    ghost predicate Valid()
      reads this
    {
      domain.Some? ==> WellTyped(domain.value)
    }

    function Slot(): map<StoreKey, StoreValue>
      reads this
    {
      if domain.Some? then domain.value else map[]
    }

    constructor ()
      ensures Valid() && domain == None && events == []
    {
      domain := None;
      events := [];
    }

    /** Sets up a config entry: stores the shared data, joins products into the devices,
        creates the client, applies manual IP addresses, starts discovery and forwards
        the entry to the platforms. */
    method SetupEntry(entry: ConfigEntry) returns (r: Result<bool, EntryError>)
      requires Valid()
      modifies this, entry.devices
      ensures Valid()
      ensures entry.products.None? ==>
        && r == Err(ProductListMissing)
        && domain == Some(old(Slot())[DeviceListKey := DeviceList(entry.devices)][LoginInfoKey := StoredLogin(entry.login)])
        && entry.devices[..] == old(entry.devices[..])
        && events == old(events)
      ensures entry.products.Some? ==>
        && r == Ok(true)
        && domain.Some? && EntryKey(entry.entryId) in domain.value
        && var client := domain.value[EntryKey(entry.entryId)].client;
        && fresh(client) && client.login == entry.login
        && domain.value == SetupStore(old(Slot()), entry, entry.products.value, client)
        && entry.devices[..] == JoinAll(old(entry.devices[..]), entry.products.value)
        && events == old(events)
          + ManualIpEvents(client, entry.devices[..], IpsOrEmpty(entry.manualIps))
          + [StartDiscover(client), ForwardEntrySetups(entry.entryId, Platforms)]
    {
      var slot := Slot();
      WellTypedUpdate(slot, DeviceListKey, DeviceList(entry.devices));
      slot := slot[DeviceListKey := DeviceList(entry.devices)];
      WellTypedUpdate(slot, LoginInfoKey, StoredLogin(entry.login));
      slot := slot[LoginInfoKey := StoredLogin(entry.login)];
      domain := Some(slot);
      if entry.products.None? {
        return Err(ProductListMissing);
      }
      var products := entry.products.value;
      WellTypedUpdate(slot, ProductListKey, ProductList(products));
      slot := slot[ProductListKey := ProductList(products)];
      domain := Some(slot);

      JoinProducts(entry.devices, products);
      ghost var joined := entry.devices[..];

      var client := new AidotClient(entry.login);
      WellTypedUpdate(slot, EntryKey(entry.entryId), EntryData(client, entry.devices));
      slot := slot[EntryKey(entry.entryId) := EntryData(client, entry.devices)];
      domain := Some(slot);
      assert slot == SetupStore(old(Slot()), entry, products, client);

      var overrides := SelectManualIps(client, entry.devices, entry.manualIps);
      events := events + overrides;
      events := events + [StartDiscover(client)];
      events := events + [ForwardEntrySetups(entry.entryId, Platforms)];
      assert entry.devices[..] == joined;
      assert domain.value[EntryKey(entry.entryId)].client == client;
      return Ok(true);
    }

    /** Unloads a config entry; `platformsUnloaded` is what unloading its platforms returned. */
    method UnloadEntry(entry: ConfigEntry, platformsUnloaded: bool) returns (r: Result<bool, EntryError>)
      requires Valid()
      modifies this
      ensures Valid()
      ensures !platformsUnloaded ==>
        r == Ok(false) && domain == old(domain) && events == old(events) + [UnloadPlatforms(entry.entryId, Platforms)]
      ensures platformsUnloaded && old(domain).None? ==>
        r == Err(DomainMissing) && domain == old(domain) && events == old(events) + [UnloadPlatforms(entry.entryId, Platforms)]
      ensures platformsUnloaded && old(domain).Some? && EntryKey(entry.entryId) !in old(domain).value ==>
        && r == Err(StoreKeyMissing(EntryKey(entry.entryId)))
        && domain == old(domain) && events == old(events) + [UnloadPlatforms(entry.entryId, Platforms)]
      ensures platformsUnloaded && old(domain).Some? && EntryKey(entry.entryId) in old(domain).value ==>
        && r == Ok(true)
        && domain == Some(UnloadStore(old(domain).value, entry.entryId))
        && events == old(events)
          + [UnloadPlatforms(entry.entryId, Platforms), Cleanup(old(domain).value[EntryKey(entry.entryId)].client)]
    {
      events := events + [UnloadPlatforms(entry.entryId, Platforms)];
      if platformsUnloaded {
        if domain.None? {
          return Err(DomainMissing);
        }
        var slot := domain.value;
        var key := EntryKey(entry.entryId);
        if key !in slot {
          return Err(StoreKeyMissing(key));
        }
        var data := slot[key];
        slot := slot - {key};
        domain := Some(slot);
        var client := data.client;
        events := events + [Cleanup(client)];
        domain := Some(domain.value - {DeviceListKey});
        domain := Some(domain.value - {LoginInfoKey});
        domain := Some(domain.value - {ProductListKey});
        assert domain.value == UnloadStore(old(domain).value, entry.entryId);
      }
      return Ok(platformsUnloaded);
    }
  }
}
