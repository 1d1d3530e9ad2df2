/**
 * Device metadata (uhome/uhome.py:14-16) and the discovery configuration of
 * an entity (`make_conf`, uhome/uhome.py:58-71), both as key/value maps.
 * Caller-supplied fields are string-valued here.
 */
module Config {
  import opened Values
  import opened Naming

  /**
   * The device descriptor: the caller's keyword fields, then "name" and
   * "ids" forced to the device's name and id, whatever the caller passed.
   */
  function DeviceMetadata(name: string, id: string, kwargs: map<string, string>): (r: map<string, string>)
    ensures r.Keys == kwargs.Keys + {"name", "ids"}
    ensures r["name"] == name && r["ids"] == id
    ensures forall k :: k in kwargs && k != "name" && k != "ids" ==> r[k] == kwargs[k]
  {
    kwargs["name" := name]["ids" := id]
  }

  /** The key under which an entity's data topic appears in its configuration. */
  function TopicKey(kind: Kind): (key: string)
    ensures key == "stat_t" || key == "cmd_t"
    ensures key == "stat_t" <==> kind == Sensor
  {
    match kind
    case Sensor => "stat_t"
    case Button => "cmd_t"
  }

  /** The client's last-will topic as it lands in "avty_t": Python `None` when never set. */
  function AvailabilityValue(lwTopic: Option<string>): Value {
    match lwTopic
    case None => Null
    case Some(t) => Text(t)
  }

  /**
   * The discovery configuration: the four mandatory fields, then the data
   * topic under the kind's key, then every caller field, which overwrites
   * a field of the same name (mandatory ones included).
   */
  function MakeConf(kind: Kind, name: string, dev: map<string, string>, uniqueId: string,
                    avty: Value, topic: string, kwargs: map<string, string>): (r: map<string, Value>)
    ensures r.Keys == {"name", "dev", "uniq_id", "avty_t", TopicKey(kind)} + kwargs.Keys
    ensures forall k :: k in kwargs ==> r[k] == Text(kwargs[k])
    ensures "name" !in kwargs ==> r["name"] == Text(name)
    ensures "dev" !in kwargs ==> r["dev"] == Dict(dev)
    ensures "uniq_id" !in kwargs ==> r["uniq_id"] == Text(uniqueId)
    ensures "avty_t" !in kwargs ==> r["avty_t"] == avty
    ensures TopicKey(kind) !in kwargs ==> r[TopicKey(kind)] == Text(topic)
    ensures forall other: Kind :: other != kind ==> (TopicKey(other) in r <==> TopicKey(other) in kwargs)
  {
    var base := map["name" := Text(name), "dev" := Dict(dev), "uniq_id" := Text(uniqueId), "avty_t" := avty];
    var typed := base[TopicKey(kind) := Text(topic)];
    typed + map k | k in kwargs :: Text(kwargs[k])
  }
}
