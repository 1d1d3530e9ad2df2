# uhome device layer, modelled in Dafny

This project models the device/entity layer of uhome (`uhome/uhome.py`). That layer exposes a
microcontroller's sensors and buttons to a Home Assistant hub over MQTT discovery. The model covers:

- how a device and its entities derive their slugs, unique ids and topics;
- how the device metadata and each entity's discovery configuration are built;
- how entities register on their device and how `discover_all` publishes them in order;
- how a sensor suppresses unchanged state;
- how inbound messages are routed to button actions;
- how the run loop keeps the broker connection alive.

The MQTT client is a class (`MqttClient.Client`) that only records the calls made on it, in
order, in its `trace`. Application actions are opaque ids, and running one appends
`Invoked(action, msg)` to the same trace. The clock is an integer parameter of `Connect` and
`Loop`. Every method contract therefore says which events are appended to the trace and how the
fields change. Apart from `Connect`, which arms the last will, the device and entity methods may
change only the client's trace. So the last-will topic that `connect` set stays in place, and
every entity created later carries it as `avty_t`.

Files and modules:

- `values.dfy` (`Values`): `Option`, configuration values, action ids.
- `naming.dfy` (`Naming`): the slug rule, the topic templates and their properties.
- `config.dfy` (`Config`): device metadata and `make_conf`.
- `keepalive.dfy` (`Keepalive`): the ping rule and what it guarantees over a run of the loop.
- `dedup.dfy` (`Dedup`): what a sensor sends over a run of `publish` calls.
- `routing.dfy` (`Routing`): inbound routing as a function on (topic, action) routes.
- `mqtt_client.dfy` (`MqttClient`): the recording client.
- `uhome.dfy` (`UHome`): the `Device` and `Entity` classes.

`Entity` is one class with a `kind` (`Sensor` or `Button`). It holds a constant reference to its
device rather than inheriting from `Device`. Attributes the source never reassigns after
construction are `const` fields. The sensor's last payload and the button's action are `var`
fields.

Routing follows the code at uhome/uhome.py:28-30:

- **No early exit.** The scan visits every entity and runs the action of each entity whose
  topic matches.
- **A match without an action raises.** A button whose `_action` is still `None` is not
  callable, and a sensor has no `_action` attribute. The model reports this as `ok == false`,
  and the scan stops there.

The model also exhibits two hazards of the code:

- **Templates collide.** The discovery topic of an entity whose slug is "state" is the data topic
  of an entity of the same kind whose slug is "config" (`Naming.DiscoveryAndStateTopicsCanMeet`).
  A sensor named "Config" therefore publishes its state on the discovery topic of an entity
  named "State".
- **An overridden command topic is not routed.** A caller field `cmd_t` changes the topic a
  button subscribes to (uhome/uhome.py:100). The router still compares messages with the derived
  topic (uhome/uhome.py:29). On a device holding only that button, a message on the subscribed
  topic therefore runs nothing (`UHome.OverriddenCommandTopicIsNeverRouted`). A message on the
  derived topic would still run the action.

## Model

| member | source | states |
|---|---|---|
| Naming.ReplaceSpaces | uhome/uhome.py:11 | every space, and only a space, becomes `_`; length is kept |
| Naming.Lower | uhome/uhome.py:11 | each character is ASCII-lower-cased on its own; length is kept |
| Naming.Slug | uhome/uhome.py:11 | the id/slug (also uhome/uhome.py:51) keeps the length and contains no space and no upper-case letter; a space becomes `_`, an upper-case letter its lower-case form, and every other character stays |
| Naming.SlugFixedPoints | uhome/uhome.py:11 | a string is its own slug if and only if it has no space and no upper-case letter |
| Naming.SlugIdempotent | uhome/uhome.py:11 | applying the slug rule twice gives the same result as applying it once |
| Naming.SlugConcat | uhome/uhome.py:51 | the slug of a concatenation is the concatenation of the slugs |
| Naming.AvailabilityTopic | uhome/uhome.py:13 | the availability topic is the prefix, then `/availability/`, then the device id |
| Naming.UniqueId | uhome/uhome.py:52 | the unique id is the device id, then `_`, then the entity slug |
| Naming.TopicPrefix | uhome/uhome.py:53 | the topic prefix is the discovery prefix, `/`, the six-letter kind name, `/`, then the device id |
| Naming.DiscoveryTopic | uhome/uhome.py:54 | the discovery topic is the topic prefix, `/`, the slug, then `/config` |
| Naming.StateTopic | uhome/uhome.py:55 | the data topic is the topic prefix, `/state/`, then the slug |
| Naming.EntityNamesInjective | uhome/uhome.py:52-55 | on one device, two entities of one kind have equal unique ids, and equal data topics, if and only if their slugs are equal |
| Naming.KindsSeparateTopics | uhome/uhome.py:53-55 | no topic under the sensor prefix equals a topic under the button prefix, so a button's command topic is never a sensor's state topic |
| Naming.AvailabilityTopicIsNotAnEntityTopic | uhome/uhome.py:13 | the availability topic `{prefix}/availability/{id}` never equals any entity topic under the same prefix |
| Naming.DiscoveryAndStateTopicsCanMeet | uhome/uhome.py:54-55 | the two templates can overlap: the discovery topic for slug "state" equals the data topic for slug "config" |
| Config.DeviceMetadata | uhome/uhome.py:14-16 | the metadata keys are the caller's keys plus `name` and `ids`; `name` is the device name and `ids` is the id, even if the caller passed those keys; every other caller field is kept unchanged |
| Config.TopicKey | uhome/uhome.py:65-68 | a sensor's data topic key is `stat_t` and a button's is `cmd_t`; the two kinds never share a key |
| Config.MakeConf | uhome/uhome.py:58-71 | the keys are exactly `name`, `dev`, `uniq_id`, `avty_t`, the kind's topic key and the caller keys; every caller field wins; each mandatory field and the kind's key (`stat_t` for a sensor, `cmd_t` for a button) holds its derived value unless the caller overrides it; the other kind's key appears only if the caller supplied it |
| Keepalive.PingInterval | uhome/uhome.py:20 | the interval is four fifths of the keepalive, rounded down, and stays strictly below a positive keepalive |
| Keepalive.PingDue | uhome/uhome.py:35 | a ping is due only when strictly more than the interval has passed: exactly the interval is not enough, one second more is |
| Keepalive.NextLastPing | uhome/uhome.py:35-37 | after a loop step, `last_ping` is either unchanged or `now`; it changes only when the interval was exceeded, and afterwards no ping is due at `now` |
| Keepalive.PingTimes | uhome/uhome.py:32-39 | over a run of loop steps, there are at most as many pings as steps, and a step that finds a ping due pings at that time |
| Keepalive.PingsSpaced | uhome/uhome.py:32-39 | over any run of loop steps, the first ping comes more than one interval after the previous ping, and each later ping more than one interval after the one before it; every ping happens at a step of the run, and there are at most as many pings as steps |
| Keepalive.QuietRunSendsNoPing | uhome/uhome.py:35-37 | a run in which no step is more than one interval after the last ping sends no ping |
| Keepalive.AtMostOnePingPerWindow | uhome/uhome.py:32-39 | however often the loop runs within one window of `ping_interval` seconds, it sends at most one ping |
| Dedup.Sent | uhome/uhome.py:81-85 | over a run of `publish` calls, there are at most as many publishes as calls, and a first value that differs from the last payload is sent first |
| Dedup.SentHasNoRepeats | uhome/uhome.py:81-85 | over a run of `publish` calls, no sent payload equals the one sent just before it (or the last payload before the run); sent payloads are drawn from the values passed, and there are at most as many as calls |
| Dedup.SentEndsWithLatest | uhome/uhome.py:81-85 | no change is lost: the last payload sent (or, if none was sent, the payload already in place) is the last value passed |
| Dedup.RepeatSentOnce | uhome/uhome.py:83-85 | passing the same value twice sends it at most once, and a different value after that is sent |
| Routing.Dispatch | uhome/uhome.py:27-30 | a scan runs at most one action per entity, and every action runs with the received message |
| Routing.Matching | uhome/uhome.py:28-29 | the matching routes all have the message topic and come from the entity list; every route with the topic is among them; there are none exactly when no route has the topic |
| Routing.MatchingAppend | uhome/uhome.py:28-29 | the matches keep list order: one more route adds itself at the end when its topic matches, and adds nothing otherwise |
| Routing.DispatchRunsMatchingActions | uhome/uhome.py:27-30 | routing runs the actions of the matching entities in list order, each with the message; it raises if and only if some matching entity has no action, and then it stops at the first such entity |
| Routing.RaiseEndsScan | uhome/uhome.py:30 | once the scan has raised, the entities after that point change nothing |
| Routing.UnmatchedTopicIsIgnored | uhome/uhome.py:28-30 | a message on a topic that no entity has runs nothing and does not raise |
| Routing.UniqueRouteRunsOnce | uhome/uhome.py:27-30 | when exactly one entity has the topic and it holds action `a`, `a` runs exactly once, with the message |
| UHome.RoutesOf | uhome/uhome.py:28-30 | the routes are each entity's data topic and stored action, in list order |
| UHome.DiscoveryMessages | uhome/uhome.py:41-43 | there is one discovery publish per entity, in registration order, of that entity's configuration to its discovery topic |
| UHome.OverriddenCommandTopicIsNeverRouted | uhome/uhome.py:29 | a button whose `cmd_t` a caller overrides never receives a message on its subscribed topic (shown for a device holding only that button) |
| UHome.Device.constructor | uhome/uhome.py:9-16 | `id` is the slug of the name; `will_topic` is the availability topic; the discovery prefix defaults to "homeassistant"; the metadata is `DeviceMetadata`; the entity list is empty |
| UHome.Device.Connect | uhome/uhome.py:18-25 | binds the client, sets `ping_interval` from its keepalive and `last_ping` to the connect time, and appends exactly last-will(`will_topic`, "offline", retained), set-callback, connect and publish(`will_topic`, "online", retained), in that order; the client's last-will topic becomes `will_topic` |
| UHome.Device.MqttCallback | uhome/uhome.py:27-30 | appends exactly the action runs `Dispatch` gives for the entity list and reports whether the scan raised; changes only the client's trace |
| UHome.Device.Loop | uhome/uhome.py:32-39 | appends one ping and sets `last_ping` to `now` if and only if `now - last_ping > ping_interval` (otherwise `last_ping` is unchanged), then always appends exactly one message check; changes only `last_ping` and the client's trace |
| UHome.Device.DiscoverAll | uhome/uhome.py:41-43 | appends exactly one discovery publish per entity, in registration order; with no client bound there are no entities and nothing happens; the client's last-will topic and the device invariant are kept |
| UHome.Entity.constructor | uhome/uhome.py:47-56 | appends exactly this entity to the end of the device's list and leaves the earlier entries unchanged; sets the slug, `unique_id == id + "_" + slug`, the discovery topic `{prefix}/{kind}/{id}/{slug}/config`, the data topic `{prefix}/{kind}/{id}/state/{slug}`, and the configuration from `MakeConf`, whose `avty_t` is the client's last-will topic, which is the device's `will_topic` unless a caller field overrides it |
| UHome.Entity.DataTopic | uhome/uhome.py:92-93 | the configured data topic (`get_topic`, and the `stat_t` a sensor publishes to) is the derived topic unless a caller field replaced it |
| UHome.Entity.DiscoveryMessage | uhome/uhome.py:74 | the discovery publish carries the entity's whole configuration, goes to its discovery topic and is not retained |
| UHome.Entity.Discover | uhome/uhome.py:73-74 | always appends one publish of the configuration to the discovery topic, with no caching; changes only the client's trace |
| UHome.Entity.Publish | uhome/uhome.py:79-85 | publishes the payload to the configured state topic exactly when it differs from the last payload; the first call always publishes; afterwards the last payload is this one, and an unchanged value leaves the trace unchanged; changes only the last payload and the client's trace |
| UHome.Entity.SetAction | uhome/uhome.py:95-101 | appends exactly one subscription to the configured command topic per call, and replaces the stored action; changes only the action and the client's trace |

## Left out

- The example application (`example/example.py`) is not part of this model. It holds Wi-Fi
  association, package download, pins, a hardware timer and an endless reconnect loop, which
  are all I/O.
- The MQTT transport is not modelled. Framing, broker behaviour, and what `check_msg` receives
  are outside the model. An inbound message arrives as an explicit `MqttCallback(topic, msg)`
  call with already-decoded strings, so the `.decode()` of bytes is not modelled. A failing
  broker connection is not modelled either: the recording client's `Connect` always succeeds.
- `json.dumps` is left out. The discovery payload is `Json(conf)`, which stands for the JSON text
  of the configuration map. The model ignores key order. `json.dumps` writes keys in insertion
  order, so in the source two equal maps built in different orders give different text. This
  does not matter here, because each entity's configuration is built once.
- `time.time()` and the float in `int(keepalive * 0.8)` are left out. Time is an integer
  parameter. `PingInterval` is `keepalive * 4 / 5`. This matches the float expression for
  realistic keepalive values: the double nearest 0.8 is slightly above 0.8, so the product never
  rounds below the exact four fifths.
- `str.lower()` is modelled on ASCII only. There is no Unicode case folding.
- `str(payload)` is left out: `UHome.Entity.Publish` takes the payload's string form.
- Caller-supplied discovery and metadata fields are string-valued in the model. Numbers,
  booleans and nested values are not modelled.
- Actions are opaque ids. What an action does when it runs, including calls back into the
  device, is not modelled.
- The entity list is shared in the source. It is a class attribute, so every `Device` object
  in a program shares it (uhome/uhome.py:7). Here each device owns its own list.
- The concurrency hazard is left out: a timer interrupt may run a sensor's `publish` while
  the main loop runs, both using one client.
- UHome.Entity.constructor requires a connected device. The source instead appends the new
  entity and then raises while reading the last-will topic of a missing client.
- UHome.Entity.Publish requires a sensor, and UHome.Entity.SetAction requires a button. In the
  source each method exists only on its own subclass.
- UHome.Device.Loop requires a bound client. Before `connect` the source raises, because
  `_last_ping`, read first at uhome/uhome.py:35, is set only by `connect` (uhome/uhome.py:21).
- UHome.Device.MqttCallback requires a bound client, because the model records action runs in
  the client's trace. The source installs this callback only on a client.
