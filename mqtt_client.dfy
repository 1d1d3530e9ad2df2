/**
 * The MQTT client the application supplies, seen only through the calls
 * the device layer makes on it. Every call is appended to `trace`; so is
 * every invocation of an application action, the only other effect the
 * layer has on the outside world.
 */
module MqttClient {
  import opened Values

  /** A payload as published: plain text, or the JSON rendering of a configuration map. */
  datatype Payload = Plain(text: string) | Json(fields: map<string, Value>)

  /** One recorded effect. */
  datatype Event =
    | LastWill(topic: string, msg: string, retain: bool)
    | CallbackSet
    | Connected
    | Published(topic: string, payload: Payload, retain: bool)
    | Subscribed(topic: string)
    | Pinged
    | Checked
    | Invoked(action: ActionId, msg: string)

  class Client {
    /** The keepalive the client was created with, in seconds. */
    const keepalive: nat
    /** The last-will topic, `None` until one is set. */
    var lwTopic: Option<string>
    var trace: seq<Event>

    constructor (keepalive: nat)
      ensures this.keepalive == keepalive && lwTopic == None && trace == []
    {
      this.keepalive := keepalive;
      lwTopic := None;
      trace := [];
    }

    method SetLastWill(topic: string, msg: string, retain: bool)
      modifies this
      ensures lwTopic == Some(topic)
      ensures trace == old(trace) + [LastWill(topic, msg, retain)]
    {
      lwTopic := Some(topic);
      trace := trace + [LastWill(topic, msg, retain)];
    }

    /** Installs the device's inbound-message router as the message callback. */
    method SetCallback()
      modifies this`trace
      ensures trace == old(trace) + [CallbackSet]
    {
      trace := trace + [CallbackSet];
    }

    method Connect()
      modifies this`trace
      ensures trace == old(trace) + [Connected]
    {
      trace := trace + [Connected];
    }

    method Publish(topic: string, payload: Payload, retain: bool)
      modifies this`trace
      ensures trace == old(trace) + [Published(topic, payload, retain)]
    {
      trace := trace + [Published(topic, payload, retain)];
    }

    method Subscribe(topic: string)
      modifies this`trace
      ensures trace == old(trace) + [Subscribed(topic)]
    {
      trace := trace + [Subscribed(topic)];
    }

    method Ping()
      modifies this`trace
      ensures trace == old(trace) + [Pinged]
    {
      trace := trace + [Pinged];
    }

    /** Non-blocking check for inbound messages; delivery itself is not modelled. */
    method CheckMsg()
      modifies this`trace
      ensures trace == old(trace) + [Checked]
    {
      trace := trace + [Checked];
    }

    /** Runs an application action on a received message. */
    method RunAction(action: ActionId, msg: string)
      modifies this`trace
      ensures trace == old(trace) + [Invoked(action, msg)]
    {
      trace := trace + [Invoked(action, msg)];
    }
  }
}
