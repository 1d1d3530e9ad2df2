/**
 * The device and its entities (uhome/uhome.py:4-101). A `Device` owns the
 * ordered entity list, the availability topic, the client binding and the
 * keepalive clock; an `Entity` is a sensor or a button bound to one device.
 * Attributes the source never reassigns after construction are `const`.
 */
module UHome {
  import opened Values
  import opened Naming
  import opened Config
  import opened Keepalive
  import opened Routing
  import opened MqttClient

  /** The discovery prefix used when the caller gives none. */
  const DefaultDiscoveryPrefix: string := "homeassistant"

  /** The routes the inbound router scans: each entity's data topic and stored action, in list order. */
  ghost function RoutesOf(es: seq<Entity>): (rs: seq<Route>)
    reads es
    ensures |rs| == |es|
    ensures forall i :: 0 <= i < |es| ==> rs[i] == Route(es[i].topic, es[i].action)
    decreases |es|
  {
    if es == [] then []
    else
      var init := es[..|es| - 1];
      RoutesOf(init) + [Route(es[|es| - 1].topic, es[|es| - 1].action)]
  }

  /** The discovery publishes of a run of `discover_all`: one per entity, in list order. */
  function DiscoveryMessages(es: seq<Entity>): (ms: seq<Event>)
    ensures |ms| == |es|
    ensures forall i :: 0 <= i < |es| ==>
      ms[i] == Published(es[i].discoveryTopic, Json(es[i].conf), false)
    decreases |es|
  {
    if es == [] then []
    else DiscoveryMessages(es[..|es| - 1]) + [es[|es| - 1].DiscoveryMessage()]
  }

  /**
   * A button whose command topic a caller field overrides subscribes to the
   * override, but the router compares messages with the derived topic: on a
   * device holding only that button, a message on the subscribed topic runs
   * nothing.
   */
  lemma OverriddenCommandTopicIsNeverRouted(d: Device, b: Entity, msg: string)
    requires d.Valid() && d.entities == [b] && b.kind == Button
    requires "cmd_t" in b.extras && b.extras["cmd_t"] != b.topic
    ensures Dispatch(RoutesOf(d.entities), b.DataTopic(), msg) == Delivery([], true)
  {
  }

  class Device {
    const name: string
    const id: string
    const discoveryPrefix: string
    const willTopic: string
    /** The device descriptor embedded under "dev" in every discovery configuration. */
    const meta: map<string, string>
    /**
     * The entities, in registration order. In the source this list is a
     * class attribute (uhome/uhome.py:7) and so is shared by every Device
     * object of a program; here each device owns its list.
     */
    var entities: seq<Entity>
    var client: Client?
    var pingInterval: nat
    var lastPing: int

    /**
     * Every listed entity belongs to this device and is well formed;
     * entities exist only once connected; a bound client's last will is
     * armed on this device's availability topic.
     */
    ghost predicate Valid()
      reads this, client
    {
      && (forall e :: e in entities ==> e.device == this && e.Wellformed())
      && (entities != [] ==> client != null)
      && (client != null ==> client.lwTopic == Some(willTopic))
    }

    constructor (deviceName: string, discoveryPrefix: string := DefaultDiscoveryPrefix,
                 kwargs: map<string, string> := map[])
      ensures Valid()
      ensures name == deviceName && id == Slug(deviceName)
      ensures this.discoveryPrefix == discoveryPrefix
      ensures willTopic == AvailabilityTopic(discoveryPrefix, id)
      ensures meta == DeviceMetadata(deviceName, id, kwargs)
      ensures entities == [] && client == null
    {
      name := deviceName;
      id := Slug(deviceName);
      this.discoveryPrefix := discoveryPrefix;
      willTopic := AvailabilityTopic(discoveryPrefix, Slug(deviceName));
      meta := DeviceMetadata(deviceName, Slug(deviceName), kwargs);
      entities := [];
      client := null;
      pingInterval := 0;
      lastPing := 0;
    }

    /**
     * Binds the client: derives the ping interval, starts the keepalive
     * clock at `now`, arms the retained "offline" last will, installs the
     * router, connects and announces "online", retained.
     */
    method Connect(mqttc: Client, now: int)
      requires Valid()
      modifies this`client, this`pingInterval, this`lastPing, mqttc
      ensures Valid()
      ensures client == mqttc
      ensures pingInterval == PingInterval(mqttc.keepalive) && lastPing == now
      ensures mqttc.lwTopic == Some(willTopic)
      ensures mqttc.trace == old(mqttc.trace) + [
        LastWill(willTopic, "offline", true),
        CallbackSet,
        Connected,
        Published(willTopic, Plain("online"), true)]
    {
      client := mqttc;
      pingInterval := PingInterval(mqttc.keepalive);
      lastPing := now;
      mqttc.SetLastWill(willTopic, "offline", true);
      mqttc.SetCallback();
      mqttc.Connect();
      mqttc.Publish(willTopic, Plain("online"), true);
    }

    /**
     * The client's message callback: runs, in list order, the action of
     * every entity whose data topic is `topic`. `ok` is false when the
     * source raises on a matching entity that has no action.
     */
    method MqttCallback(topic: string, msg: string) returns (ok: bool)
      requires client != null
      modifies client`trace
      ensures ok == Dispatch(RoutesOf(entities), topic, msg).ok
      ensures client.trace == old(client.trace) + Dispatch(RoutesOf(entities), topic, msg).invoked
    {
      var c, es := client, entities;
      ghost var rs := RoutesOf(es);
      var i := 0;
      while i < |es|
        invariant 0 <= i <= |es|
        invariant Dispatch(rs[..i], topic, msg).ok
        invariant c.trace == old(c.trace) + Dispatch(rs[..i], topic, msg).invoked
      {
        var e := es[i];
        assert rs[..i + 1][..i] == rs[..i];
        if topic == e.topic {
          if e.action.None? {
            RaiseEndsScan(rs, i + 1, topic, msg);
            return false;
          }
          c.RunAction(e.action.value, msg);
        }
        i := i + 1;
      }
      assert rs[..i] == rs;
      ok := true;
    }

    /** One step of the run loop at time `now`: ping when due, then check for messages. */
    method Loop(now: int)
      requires client != null
      modifies this`lastPing, client`trace
      ensures lastPing == NextLastPing(now, old(lastPing), pingInterval)
      ensures client.trace == old(client.trace)
        + (if PingDue(now, old(lastPing), pingInterval) then [Pinged] else [])
        + [Checked]
    {
      if now - lastPing > pingInterval {
        client.Ping();
        lastPing := now;
      }
      client.CheckMsg();
    }

    /** Publishes the discovery configuration of every entity, in registration order. */
    method DiscoverAll()
      requires Valid()
      modifies client
      ensures client != null ==> client.trace == old(client.trace) + DiscoveryMessages(entities)
      ensures client != null ==> client.lwTopic == old(client.lwTopic)
      ensures Valid()
    {
      if client == null {
        return;
      }
      var i := 0;
      while i < |entities|
        invariant 0 <= i <= |entities|
        invariant client.trace == old(client.trace) + DiscoveryMessages(entities[..i])
        invariant client.lwTopic == old(client.lwTopic)
      {
        assert entities[..i + 1][..i] == entities[..i];
        entities[i].Discover();
        i := i + 1;
      }
      assert entities[..i] == entities;
    }
  }

  class Entity {
    const device: Device
    const kind: Kind
    const name: string
    const slug: string
    const uniqueId: string
    const topicPrefix: string
    const discoveryTopic: string
    /** The data topic: the state topic of a sensor, the command topic of a button. */
    const topic: string
    /** The caller's extra discovery fields. */
    const extras: map<string, string>
    const conf: map<string, Value>
    /** Sensor only: the last payload sent, `None` before the first. */
    var lastPayload: Option<string>
    /** Button only: the stored action, `None` until one is set. */
    var action: Option<ActionId>

    /** The configured data topic is a string: the derived topic unless a caller field replaced it. */
    predicate Wellformed() {
      && TopicKey(kind) in conf
      && conf[TopicKey(kind)] == Text(if TopicKey(kind) in extras then extras[TopicKey(kind)] else topic)
    }

    /**
     * Registers a new entity on `device` (appended to the end of its list)
     * and derives its identifiers, topics and discovery configuration.
     */
    constructor (device: Device, kind: Kind, entityName: string, kwargs: map<string, string>)
      requires device.Valid() && device.client != null
      modifies device`entities
      ensures device.Valid()
      ensures device.entities == old(device.entities) + [this]
      ensures this.device == device && this.kind == kind && name == entityName && extras == kwargs
      ensures slug == Slug(entityName)
      ensures uniqueId == UniqueId(device.id, slug)
      ensures topicPrefix == TopicPrefix(device.discoveryPrefix, kind, device.id)
      ensures discoveryTopic == DiscoveryTopic(device.discoveryPrefix, kind, device.id, slug)
      ensures topic == StateTopic(device.discoveryPrefix, kind, device.id, slug)
      ensures conf == MakeConf(kind, entityName, device.meta, uniqueId,
                               AvailabilityValue(device.client.lwTopic), topic, kwargs)
      ensures "avty_t" !in kwargs ==> conf["avty_t"] == Text(device.willTopic)
      ensures Wellformed()
      ensures lastPayload == None && action == None
    {
      var s := Slug(entityName);
      var uid := UniqueId(device.id, s);
      var t := StateTopic(device.discoveryPrefix, kind, device.id, s);
      this.device := device;
      this.kind := kind;
      name := entityName;
      slug := s;
      uniqueId := uid;
      topicPrefix := TopicPrefix(device.discoveryPrefix, kind, device.id);
      discoveryTopic := DiscoveryTopic(device.discoveryPrefix, kind, device.id, s);
      topic := t;
      extras := kwargs;
      conf := MakeConf(kind, entityName, device.meta, uid, AvailabilityValue(device.client.lwTopic), t, kwargs);
      lastPayload := None;
      action := None;
      new;
      device.entities := device.entities + [this];
    }

    /** The data topic as configured (`conf['stat_t']` of a sensor, `get_topic` of a button). */
    function DataTopic(): (t: string)
      requires Wellformed()
      ensures TopicKey(kind) in extras ==> t == extras[TopicKey(kind)]
      ensures TopicKey(kind) !in extras ==> t == topic
    {
      conf[TopicKey(kind)].s
    }

    /** The discovery publish: this entity's whole configuration, to its discovery topic, not retained. */
    function DiscoveryMessage(): (m: Event)
      ensures m.Published? && m.topic == discoveryTopic && !m.retain
      ensures m.payload == Json(conf)
    {
      Published(discoveryTopic, Json(conf), false)
    }

    /** Publishes the discovery configuration, every time it is called. */
    method Discover()
      requires device.client != null
      modifies device.client`trace
      ensures device.client.trace == old(device.client.trace) + [DiscoveryMessage()]
    {
      device.client.Publish(discoveryTopic, Json(conf), false);
    }

    /**
     * Sensor state: sent to the configured state topic only when it differs
     * from the last payload sent; afterwards it is the last payload.
     */
    method Publish(payload: string)
      requires kind == Sensor && Wellformed() && device.client != null
      modifies this`lastPayload, device.client`trace
      ensures lastPayload == Some(payload)
      ensures device.client.trace == old(device.client.trace)
        + (if old(lastPayload) == Some(payload) then [] else [Published(DataTopic(), Plain(payload), false)])
    {
      if lastPayload == Some(payload) {
        return;
      }
      device.client.Publish(DataTopic(), Plain(payload), false);
      lastPayload := Some(payload);
    }

    /** Button: subscribes to the configured command topic (once per call) and stores the action. */
    method SetAction(a: ActionId)
      requires kind == Button && Wellformed() && device.client != null
      modifies this`action, device.client`trace
      ensures action == Some(a)
      ensures device.client.trace == old(device.client.trace) + [Subscribed(DataTopic())]
    {
      device.client.Subscribe(DataTopic());
      action := Some(a);
    }
  }
}
