# wqtt-dashboard: message routing between the broker and the device cards

This project models the live part of a small MQTT dashboard. The dashboard
fetches its device list and the broker credentials over REST. It opens one
MQTT 3.1 client and shows one card per device. Each card loads its device's
`sensors_float` topics, subscribes to each one, and shows the last value
received for it. Cards with writable sensors can send a command back.

The model covers:

- the session (`src/components/Dashboard.jsx`): the handler registry, the
  fan-out of every inbound message, the `connected` flag, the publish gate,
  the token and modal, the device-list flattening and the endpoint URLs;
- the device agent (`src/components/Device.jsx`): the topic table, how the
  detail response fills it, how messages update it, the send rule, and the
  pure display rules (unit table, writable types, shown rows and their text).

Files:

- `endpoints.dfy` (module `Endpoints`): `CREATE_CONST` and the endpoint
  constants. It also renders a device id in decimal and parses it back, so
  that the detail URLs can be proved distinct.
- `device_list.dfy` (module `DeviceList`): the `{result, devices}` response.
  A JavaScript object is modelled as the duplicate-free list of its own
  properties in enumeration order.
- `topic_table.dfy` (module `TopicTable`): `TopicState`, `Deliver` (what
  `message_handler` does to the table) and `Load` (what the details effect
  writes).
- `catalog.dfy` (module `Catalog`): `TYPES_UNITS`, the writable test, and the
  rows a card shows.
- `app.dfy` (module `App`): the classes `Session` and `DeviceAgent`. They
  refer to each other, so they share one module. The mqtt client is reduced
  to two logs: `subscriptions` and `outbox`. HTTP responses are method
  arguments.
- `scenarios.dfy` (module `Scenarios`): two end-to-end runs through the
  classes.
- `wrappers.dfy` (module `Wrappers`): `Option`, for JavaScript properties
  that may be `undefined`.

Two behaviours of the code are worth stating before the table:

- `handle_publish_button` clears the input whenever the message is non-empty.
  This happens even when `mqtt_publish` drops the message because the client
  is not connected. It does not check that the type is writable; only the
  rendering decides whether a Send button exists.
- `mqtt_subscribe` (`src/components/Dashboard.jsx:71-79`) handles a failed
  subscription by logging it in the callback and carrying on. Before the
  broker details arrive, however, it calls `client.subscribe` on a `null`
  client, which throws instead of reaching that callback (see Findings).

## Model

| member | source | states |
|---|---|---|
| `Endpoints.CreateConst` | src/components/Dashboard.jsx:10-17 | with the proxy switched off, an endpoint is the origin `https://dash.wqtt.ru` followed by exactly its path |
| `Endpoints.PathOfCreateConst` | src/components/Dashboard.jsx:15-22 | the path of every endpoint can be read back from its URL |
| `Endpoints.DeviceDetailsUrlEndsInSlash` | src/components/Dashboard.jsx:20 | `DEVICE_DETAILS_URL` is the origin plus `/api/devices/` and ends in `/` |
| `Endpoints.DetailsUrl` | src/components/Device.jsx:34 | a device's detail URL is `DEVICE_DETAILS_URL` followed by the decimal rendering of its id |
| `Endpoints.IntStringRoundTrip` | src/components/Device.jsx:34 | the decimal rendering of an id in the URL parses back to the same integer, negative ids included |
| `Endpoints.DetailsUrlRoundTrip` | src/components/Device.jsx:34 | the device id can be recovered from its detail URL |
| `Endpoints.DetailsUrlInjective` | src/components/Device.jsx:34 | two devices fetch the same detail URL iff they have the same id |
| `Endpoints.DetailsUrlIsNotTypesUrl` | src/components/Dashboard.jsx:20-22 | no device's detail URL equals the device-types endpoint `/api/devices/types` |
| `DeviceList.Flatten` | src/components/Dashboard.jsx:57-60 | the flattened list has one element per property of `devices`, and each element is the value of one of those properties |
| `DeviceList.FlattenOnePerKey` | src/components/Dashboard.jsx:56-60 | the flattened list has exactly one element per key of `devices`, the i-th being the record under the i-th key, and nothing else |
| `App.Session.OnDevicesResponse` | src/components/Dashboard.jsx:54-63 | the device list is replaced by the flattening only when `result` is `"ok"`; otherwise it is unchanged |
| `App.Session.constructor` | src/components/Dashboard.jsx:27-35 | a new session has no handlers, no devices, no client, `connected` false, the stored token in the field, and the modal open iff that token is empty |
| `App.Session.SetToken` | src/components/Dashboard.jsx:211 | typing replaces the token field and nothing else |
| `App.Session.SaveToken` | src/components/Dashboard.jsx:43-48 | an empty token changes nothing; a non-empty one is stored and the modal closes |
| `App.Session.CloseModal` | src/components/Dashboard.jsx:197 | closing the modal hides it without storing the token |
| `App.Session.AttachClient` | src/components/Dashboard.jsx:90-107 | broker details create a client; `connected` is left as it was |
| `App.Session.OnConnect` | src/components/Dashboard.jsx:101-104 | the connect event sets `connected`; no method of the session sets it back to false |
| `App.Session.Register` | src/components/Dashboard.jsx:158-161 | registering id `k` makes `handlers[k]` the new handler, replacing any earlier one; every other id keeps its handler; a new id is enumerated after the existing ones; a handler is registered under its own device's id |
| `App.Session.Subscribe` | src/components/Dashboard.jsx:71-79 | with a client, the topic is appended to the subscription log; without one the call fails and nothing is logged |
| `App.Session.Publish` | src/components/Dashboard.jsx:163-169 | with a client that is connected, exactly one `(topic, message, retain)` is appended to the outbox, `retain` defaulting to false; otherwise the outbox is unchanged |
| `App.Session.OnMessage` | src/components/Dashboard.jsx:81-87 | the ids invoked are exactly the registered ids, each once; every registered handler's log of received messages grows by exactly `(topic, payload)`; each registered device's table becomes `Deliver` of its old table, and its input is untouched |
| `App.DeviceAgent.constructor` | src/components/Device.jsx:17-19 | a new device has an empty topic table and an empty input |
| `App.DeviceAgent.Mount` | src/components/Device.jsx:31-46 | on mount the device registers itself under its own id, then requests its detail URL |
| `App.DeviceAgent.HandleMessage` | src/components/Device.jsx:22-29 | the handler records one receipt of `(topic, message)` and changes the device's table exactly as `Deliver` says |
| `TopicTable.Deliver` | src/components/Device.jsx:22-29 | the key set is unchanged; the entry for a known topic gets the message as its value with the same owner and type; every other entry is unchanged |
| `TopicTable.DeliverUnknownTopic` | src/components/Device.jsx:24 | a message for a topic not in the table leaves the table as it was |
| `TopicTable.DeliverIdempotent` | src/components/Device.jsx:26 | delivering the same message twice has the effect of delivering it once |
| `TopicTable.DeliverKeepsOwnersAndTypes` | src/components/Device.jsx:24-27 | after a delivery every entry keeps its device id and type; only the delivered topic's value changes |
| `App.AcceptedSensors` | src/components/Device.jsx:36-51 | details are used only when `result` is `"ok"`, a device is present and it has `sensors_float`; otherwise nothing is loaded |
| `App.DeviceAgent.AcceptDetails` | src/components/Device.jsx:48-62 | on an accepted response the table becomes `Load` of the old table over `sensors_float`, with one subscribe per element in order; otherwise table and subscriptions are unchanged |
| `TopicTable.Load` | src/components/Device.jsx:51-59 | loading adds exactly the topics of `sensors_float` to the table's keys |
| `TopicTable.LoadLastOccurrence` | src/components/Device.jsx:53-57 | a loaded topic holds `{device_id: id, type, value: ''}` from its last occurrence in the list; later duplicates overwrite earlier ones |
| `TopicTable.LoadKeepsOthers` | src/components/Device.jsx:51-59 | topics outside the list keep their entries, and no other key appears |
| `TopicTable.LoadFreshEntries` | src/components/Device.jsx:53-57 | in a freshly loaded table every entry belongs to the device, has an empty value, and has the type of some list element with its topic |
| `App.DeviceAgent.SetMessage` | src/components/Device.jsx:102 | typing replaces the card's input |
| `App.DeviceAgent.PublishButton` | src/components/Device.jsx:64-69 | an empty message publishes nothing and keeps the input; a non-empty one is handed to the session's publish once, and the input is cleared whether or not the session sent it |
| `App.DeviceAgent.Send` | src/components/Device.jsx:106-112 | the Send button, which exists only on a shown row of a writable type, publishes the current input with `retain` true when connected and leaves the input empty |
| `Catalog.Unit` | src/components/Device.jsx:6-13 | a type has a unit iff it is 0, 1, 2, 17, 18 or 20 |
| `Catalog.UnitText` | src/components/Device.jsx:92 | a unit renders as the empty string exactly when the type has no entry in `TYPES_UNITS` |
| `Catalog.Label` | src/components/Device.jsx:92 | a row's text starts with the value, followed by a space and the unit text |
| `Catalog.Displayed` | src/components/Device.jsx:88-92 | the shown rows are exactly the entries with a non-empty value, each labelled by its value and unit |
| `Catalog.WritableUnits` | src/components/Device.jsx:6-13 | the writable types have units: kW for 17, m³ for 18 and 20 |
| `Catalog.DisplayedRow` | src/components/Device.jsx:88-96 | an entry is shown iff its value is non-empty; its text is the value, a space and the unit (empty if the type has none); it offers an input iff its type is 17, 18 or 20 |
| `Catalog.LoadedTableShowsNothing` | src/components/Device.jsx:89 | right after loading, before any message, a card shows no rows |
| `Catalog.DisplayedAfterDeliver` | src/components/Device.jsx:88-92 | after a non-empty message for a known topic, that row shows the message with its unit; an empty message hides it; every other row is unchanged |
| `Catalog.TemperatureLabel` | src/components/Device.jsx:88-92 | a type-0 sensor that receives `"23.5"` shows `"23.5 °C"` with no input |
| `Scenarios.TemperatureReading` | src/components/Dashboard.jsx:81-87 | through the session's fan-out, a message for an unknown topic changes no table, and `("home/1/temp", "23.5")` makes device 1 show `"23.5 °C"` |
| `Scenarios.PowerCommand` | src/components/Device.jsx:106-112 | after the reading `"40"` a type-17 entry shows `"40 kW"` with an input; pressing Send with `"50"` while connected sends `("home/2/power", "50", retain=true)` exactly once and clears the input |
| `App.DeviceAgent.AcceptDetailsAsWritten` | src/components/Device.jsx:51-58 | as written: without a client, the first entry is written, the subscribe throws and the rest of the list is lost |
| `App.LoadAsWritten` | src/components/Device.jsx:51-58 | as written: with a client the load is `Load`; without one and a non-empty list, only the first topic is added to the table |
| `App.AbortedLoadLosesTopics` | src/components/Device.jsx:51-58 | a concrete two-topic detail loaded without a client keeps only its first topic, where the intended table has both |

## Left out

- React and MUI rendering: layout, the cards, the theme toggle and the modal
  markup. Only the rule for which rows are shown, their text and their input
  is kept, as `Catalog.Displayed`. The type name in a card's title
  (`types?.device[type].name`) comes from the types catalog, which is not
  modelled.
- The HTTP calls made with axios: `fetchBroker`, `fetchTypes`, the
  `fetchDevices` request, the detail request and the `Authorization` header.
  They are network I/O, and their responses are method arguments. The token
  effect that fires these three requests on every token change is left out
  for the same reason.
- mqtt.js: `mqtt.connect`, the subscribe callbacks and publish
  acknowledgements belong to a foreign library. Subscribe and publish become
  append-only logs. The `'MQIsdp'` protocol id, protocol version 3, the
  `wss://` URL and the credentials are wire details and are not modelled.
- `App.Session.AttachClient`: every new set of broker details opens a
  further client without closing the previous one, and `connected` stays
  true even though the new client has not connected yet. The model keeps one
  `hasClient` flag and does not represent several client objects.
- Local storage: the stored token is a field. A missing stored token and an
  empty one both read as `""`.
- `console.log` and `console.error`: logging only.
- `App.Session.OnMessage`: the single `try` around the fan-out is not
  modelled. A handler that throws would stop the remaining handlers; here a
  handler is a total update and cannot throw. The payload's
  `Buffer.toString()` is taken as already done, so payloads are strings.
- `App.Session.OnMessage`: the order of invocation is the order in which ids
  were first registered. `Object.keys` lists non-negative integer keys in
  ascending order instead. The order is not observable here, because each
  handler writes only its own device's table.
- React's asynchronous effect scheduling and closure capture. Each device's
  topic table and the handler registry are single maps updated in place,
  which is what the code does to the underlying objects. The shallow copy
  `setTopics({...topics})` is not modelled.
- `DeviceList.FlattenOnePerKey`: a JavaScript object is modelled as a
  duplicate-free list of properties. Duplicate keys in the JSON text, which
  `JSON.parse` collapses, are outside the model. A response whose `devices`
  property is missing is not modelled either.
- The types catalog (`/api/devices/types`) is only used for a title in the
  rendering, so it is not modelled.

## Findings

| source | as written | input that shows it | evidently intended | confidence | as-written member | corrected member |
|---|---|---|---|---|---|---|
| src/components/Device.jsx:51-58 | the details effect calls `mqtt_subscribe`, which calls `client.subscribe` on the session's client; before the broker details have arrived that client is `null`, so the first call throws a TypeError out of the `forEach`; the first topic's entry is already written, nothing is subscribed, and every later `sensors_float` element is lost (React then also tears down the tree, which is not modelled) | a detail response `{result: "ok", device: {sensors_float: [{topic: "home/2/power", type: 17}, {topic: "home/2/temp", type: 0}]}}` that arrives before the `/api/broker` response | every `sensors_float` element gets its table entry; a subscribe without a client fails without aborting the loop, as `mqtt_subscribe`'s own error callback (src/components/Dashboard.jsx:72-75) treats a failed subscription: it is logged and the caller carries on | high that the call throws on a null client; the timing depends on network order; not executed | `App.DeviceAgent.AcceptDetailsAsWritten`, `App.AbortedLoadLosesTopics` | `App.DeviceAgent.AcceptDetails` |
