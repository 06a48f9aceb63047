# Aidot integration for Home Assistant — a verified model of its own logic

The Aidot integration exposes Wi-Fi lights as Home Assistant entities. Discovery,
login, encryption and the device protocol all live in the external `aidot` client
library. The integration itself adds a few rules, and this project models them in
Dafny and proves their properties.

- **Setting up a config entry** (`Integration.HassData.SetupEntry`). The entry's device list, login
  information and product list go into the integration's slot of the host's shared data store.
  Each device record gets the record of its product attached, in place. A client is created and
  stored under the entry id, together with the device list. A device whose id the manual-IP map
  sends to a non-empty address gets that address. Then discovery starts and the entry is forwarded to the light and
  switch platforms.
- **Unloading a config entry** (`Integration.HassData.UnloadEntry`). If the platforms unloaded,
  the entry's record and the three shared keys are removed and the client is cleaned up.
  Otherwise nothing changes.
- **The light platform** (module `Light`). It decides which device records become light
  entities. Each entity derives its manufacturer and model from the model id, and its supported
  and active colour modes from three capability flags. A turn-on or turn-off request becomes an
  ordered list of device commands. The status-polling loop reacts to each read: it publishes the
  state, logs in again, or sleeps 5 seconds.

Calls into the client library and into the host are not executed. Each becomes an entry in an
event log: `Light.Effect` for an entity, `Integration.Event` for setup and unload. Results the
host or the library supply are parameters: whether the platforms unloaded, the outcome of each
status read, the device information a device client reports.

Three files, one module each:

- `records.dfy` (`Records`): the device, product and login records shared by both modules, plus
  `Option` and `Result`.
- `light.dfy` (`Light`): `custom_components/aidot/light.py`.
- `integration.dfy` (`Integration`): `custom_components/aidot/__init__.py`.

The entry's device list is one list object. Setup stores it under the shared device-list key, joins
products into it in place, and then stores it in the entry's record as well. The model keeps this aliasing: the list
is an `array<Device>`, and the stored values hold the same array. So the join is visible through
the store, as it is in the integration.

### Where the code does not do what one might expect

- **Missing product list.** Line 37 reads the product list with a default of `[]`. But line 34
  has already read it without a default. So an entry with no product list fails setup with a
  `KeyError`, after lines 32-33 have written the device list and login info. The default is never
  used. `SetupEntry` models this: it returns `Err(ProductListMissing)`, the device list is
  unchanged and no client calls are made.
- **Failed re-login.** The polling loop handles "not logged in" by logging in again inside the
  `except` clause. If that login itself raises, the exception is not caught by the sibling
  `except Exception` clause. It leaves the `while True` loop and polling stops. No *read*
  outcome ends the loop (`LoopRunsEveryOutcome`). A re-login that raises does
  (`LoopStopsAtRaisingLogin`).
- **Empty key list.** A record of type `"light"` whose `"aesKey"` list is empty makes the entity
  filter raise `IndexError` (`aesKey[0]`). No entity is added then.

## Model

| member | source | states |
|---|---|---|
| `Light.LightEntities` | custom_components/aidot/light.py:40-46 | Exactly the records of type "light" with an "aesKey" list whose first element is not null become entities. The filter raises exactly when a light record has an empty "aesKey" list. |
| `Light.LightEntitiesOnce` | custom_components/aidot/light.py:40-46 | Each record yields at most one entity: the entities form a sub-multiset of the records. |
| `Light.LightEntitiesAppend` | custom_components/aidot/light.py:40-46 | Filtering a concatenation gives the filtered parts in the same order, so input order is kept. It fails if and only if one of the parts fails. |
| `Light.Manufacturer` | custom_components/aidot/light.py:61 | The manufacturer is a prefix of the model id with no '.' in it. Either it is the whole id, or the next character is '.'. So it is the text before the first '.'. |
| `Light.SplitModelId` | custom_components/aidot/light.py:61-62 | With a '.' in the id, manufacturer + "." + model rebuilds the id. Without one, the manufacturer is the whole id and the model is empty. |
| `Light.BuildSupportedModes` | custom_components/aidot/light.py:73-85 | The set built step by step is never empty. RGBW is in it iff RGBW is enabled, and COLOR_TEMP iff CCT is. ONOFF is in it iff neither is enabled. BRIGHTNESS is in it iff neither is enabled and dimming is. |
| `Light.ActiveMode` | custom_components/aidot/light.py:87-94 | The chosen mode is in the set (or is ONOFF), and no mode in the set ranks higher under RGBW > COLOR_TEMP > BRIGHTNESS > ONOFF. |
| `Light.ActiveModeIsSupported` | custom_components/aidot/light.py:73-94 | For a device's supported set, the active mode is always a member of it. It strictly outranks every other member, and it is decided by the first enabled flag among RGBW, CCT and dimming. |
| `Light.TurnOnEffects` | custom_components/aidot/light.py:155-165 | The power-on command is issued iff the light is off. A setter is issued iff its attribute was supplied, and with exactly the supplied value. |
| `Light.TurnOnOrder` | custom_components/aidot/light.py:155-165 | Commands come in the strict order power-on, brightness, colour temperature, RGBW, each at most once. Nothing else is issued. |
| `Light.Reaction` | custom_components/aidot/light.py:110-118 | After a read: a not-logged-in failure leads to a login and never a sleep. Any other failure leads to a 5-second sleep. A successful read publishes exactly the status that was read. |
| `Light.LoopEffects` | custom_components/aidot/light.py:108-118 | The loop makes at most two calls per read outcome: a read and its reaction. The first read always happens. |
| `Light.LoopStatus` | custom_components/aidot/light.py:110-113 | After the loop, the status is either the initial one or a status that some read returned. |
| `Light.LoopStatusUnread` | custom_components/aidot/light.py:110-118 | If no read succeeds, the status keeps its initial value. |
| `Light.LoopStatusIsLastRead` | custom_components/aidot/light.py:110-113 | If the loop reaches a successful read and no later read succeeds, the status is the one that read returned. |
| `Light.LoopStatusStopsAtRaisingLogin` | custom_components/aidot/light.py:110-118 | A re-login that raises ends the loop, so no later read changes the status. |
| `Light.LoopRunsEveryOutcome` | custom_components/aidot/light.py:108-118 | Unless a re-login raises, no outcome ends the loop: it makes exactly two calls per read outcome. |
| `Light.LoopIteration` | custom_components/aidot/light.py:110-118 | Unless an earlier re-login raised, iteration k reads the status and then makes exactly the reaction to the k-th outcome. |
| `Light.LoopStopsAtRaisingLogin` | custom_components/aidot/light.py:110-115 | A re-login that raises ends the loop right after it. The effects end with that login, and later outcomes are never read. |
| `Light.AidotLight.constructor` | custom_components/aidot/light.py:54-94 | The entity's unique id, manufacturer and model, supported colour modes and active colour mode are derived from the device information as the functions above state. |
| `Light.AidotLight.TurnOn` | custom_components/aidot/light.py:155-165 | A turn-on request appends exactly `TurnOnEffects(current on-state, arguments)` to the entity's calls. |
| `Light.AidotLight.TurnOff` | custom_components/aidot/light.py:167-169 | A turn-off request appends exactly one power-off command, whatever the state. The keyword arguments are ignored, so the method takes none. |
| `Light.AidotLight.PollOnce` | custom_components/aidot/light.py:111-118 | One pass of the loop body: a status read, then the reaction to its outcome. The status becomes the one read, if any. The escaping exception is reported iff the re-login raised. |
| `Light.AidotLight.UpdateLoop` | custom_components/aidot/light.py:108-118 | Over a run of read outcomes, the loop's calls are `LoopEffects` and the status is `LoopStatus`: the last one read before any escape. It reports an escaped exception iff some re-login raised. |
| `Integration.LastMatch` | custom_components/aidot/__init__.py:42-45 | Returns the index of the last product whose id equals the product id, or nothing when no product matches. |
| `Integration.JoinOne` | custom_components/aidot/__init__.py:42-45 | Joining changes at most a device's "product" field. If the device changes, it now carries a product from the list whose id equals its productId. |
| `Integration.JoinAll` | custom_components/aidot/__init__.py:42-45 | The join keeps the length of the device list. |
| `Integration.JoinAllSpec` | custom_components/aidot/__init__.py:42-45 | After the join, only a device's "product" may differ. A device whose productId matches no product is unchanged. A matched device carries the last matching product in list order. |
| `Integration.JoinOneSnoc` | custom_components/aidot/__init__.py:42-45 | One more pass of the outer loop, for product p, attaches p to exactly the devices whose productId equals p's id. It leaves the others as they were. |
| `Integration.JoinAllIdempotent` | custom_components/aidot/__init__.py:42-45 | Running the join again with the same products changes nothing. |
| `Integration.AttachProduct` | custom_components/aidot/__init__.py:43-45 | One pass of the inner loop over the devices attaches the next product to exactly the devices it matches, in place. |
| `Integration.JoinProducts` | custom_components/aidot/__init__.py:42-45 | The in-place nested loop leaves the device array equal to `JoinAll` of its old contents. |
| `Integration.OverrideFor` | custom_components/aidot/__init__.py:59-65 | A device gets at most one override. It gets one iff its id is a key of the map and the mapped address is non-empty, and the address applied is exactly the mapped one. |
| `Integration.ManualIpEvents` | custom_components/aidot/__init__.py:55-65 | There are never more overrides than devices. Every override is for a listed device whose id is in the map, with exactly the mapped non-empty address. |
| `Integration.ManualIpEventsAppend` | custom_components/aidot/__init__.py:58-65 | Overrides follow the device list in order: those of a concatenation are those of each part, in turn. |
| `Integration.ManualIpEventsAt` | custom_components/aidot/__init__.py:58-65 | Each device contributes its own zero or one override, at its position in the list. |
| `Integration.ManualIpEventsComplete` | custom_components/aidot/__init__.py:58-65 | Every listed device whose id maps to a non-empty address receives that address. |
| `Integration.NoIpsNoOverrides` | custom_components/aidot/__init__.py:55-56 | With an absent or empty override map, no device gets an override. |
| `Integration.IpsOrEmpty` | custom_components/aidot/__init__.py:55-56 | The device loop consults the entry's override map when there is one, and no address at all otherwise. |
| `Integration.SelectManualIps` | custom_components/aidot/__init__.py:55-65 | The loop over the devices issues exactly `ManualIpEvents` for the entry's override map. An absent map counts as empty. |
| `Integration.SetupStore` | custom_components/aidot/__init__.py:32-53 | Setup adds exactly the device-list, login-info and product-list keys and the entry's key to the slot. |
| `Integration.SetupStoreSpec` | custom_components/aidot/__init__.py:32-53 | After setup, the slot holds the device list, login info, product list and the entry's record (the client and the same device array). Every other key keeps its value. |
| `Integration.UnloadStore` | custom_components/aidot/__init__.py:78-83 | Unload removes exactly the entry key and the three shared keys, whether or not the shared keys were present. |
| `Integration.UnloadStoreSpec` | custom_components/aidot/__init__.py:78-83 | Every key left after unload keeps its value. |
| `Integration.UnloadUndoesSetup` | custom_components/aidot/__init__.py:32-83 | Unloading right after a setup leaves the slot as it was before the setup, minus the entry key and the shared keys. |
| `Integration.HassData.SetupEntry` | custom_components/aidot/__init__.py:29-71 | Without a product list, setup fails after writing the device list and login info. Otherwise it stores as `SetupStore` states, with a fresh client. The devices are joined in place. The calls are the manual-IP overrides, then start-discovery, then the platform forward, last. |
| `Integration.HassData.UnloadEntry` | custom_components/aidot/__init__.py:74-85 | If the platforms did not unload, the store is unchanged and the result is false. A missing slot or entry record raises. Otherwise the store becomes `UnloadStore` and the stored client is cleaned up. |

## Left out

- Home Assistant machinery is not modelled: entity registration, `DeviceInfo` construction,
  `format_mac`, the unique-id identifiers, and what forwarding and unloading platforms do. These
  are host APIs. Forwarding and unloading appear only as events, and the unload result is a
  parameter.
- The `aidot` client library is not modelled: client construction with a session, login,
  `read_status`, the setters, discovery, `update_ip_address` and `cleanup`. Neither is the
  `helpers` module's `PatchedAidotClient`. These are foreign calls and appear as logged events.
  The client is an object holding the login information.
- How a device client derives its `info` (model id, capability flags) from a device record is
  library code. The entity's constructor takes that `DeviceInfo` as a parameter.
- `get_device_client(device)` followed by `update_ip_address(ip, manual=True)` is one
  `ManualIp` event.
- `async_added_to_hass` and `async_will_remove_from_hass` are not modelled: the initial login,
  creating the polling task and cancelling it (light.py:96-106) are task scheduling. `UpdateLoop`
  runs over a finite run of read outcomes. The end of that run stands for cancellation.
- `Light.AidotLight.UpdateLoop`: the 5-second sleep is an event, not a delay. It does not model
  an exception from `async_write_ha_state` or a cancellation arriving during `read_status` or
  the sleep.
- The property getters (light.py:120-153) are pass-throughs of the client's status and info. The
  entity keeps the status as a field, and the getters themselves are not modelled.
- Logging calls.
- `Light.AidotLight.TurnOn`: every library call is assumed to return normally. In the source, a
  raising power-on or setter call (light.py:157-165) ends the request there, and the later
  commands are not sent.
- `Integration.HassData.SetupEntry`: every library and host call is assumed to return normally.
  In the source, a raising `update_ip_address`, `start_discover` or platform forward
  (__init__.py:65-69) aborts setup after the store has been written.
- `Integration.HassData.UnloadEntry`: `client.cleanup()` is assumed to return normally. In the
  source, a raising cleanup (__init__.py:80) leaves the entry key already removed but the three
  shared keys in place (81-83). The model always removes all four.
- Records always carry "productId" and the products "id", and the entry always carries its device
  list and login info. The integration raises `KeyError` when those are missing, and the model
  does not cover that case. Values are typed: ids and addresses are strings, and the "aesKey"
  entry is absent or a list.
- `Light.LightEntities`: the filter is a lazy generator, so entities built for records before a
  raising one are discarded. The model returns an error with no entities and does not model
  constructing and discarding them.
- Store keys are typed, so an entry id can never equal one of the shared key strings. In the
  integration, both kinds of key are plain strings in one dictionary.
