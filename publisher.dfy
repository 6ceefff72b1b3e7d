/**
 * The publisher's deterministic part: turning the operator's answers into
 * its settings (QoS, retain flag, data type, send interval, topic) and
 * building the JSON object it sends once per tick.
 */
module Publisher {
  import opened Wrappers
  import opened Text
  import opened Rounding
  import opened Json
  import opened Settings

  /** The identifier of the on-board unit this publisher speaks for. */
  const ObuId: nat := 1

  /** Number of acceleration components in one ACC reading. */
  const AccComponents: nat := 3

  datatype PubSettings = PubSettings(
    qos: nat,
    retain: bool,
    dataType: DataType,
    interval: real,  // pause in seconds after each confirmed publish
    topic: string)

  /**
   * Seconds the publisher sleeps after each confirmed publish: at most one
   * send a second for BPR, at most 125 a second for ACC.
   */
  function SendInterval(dt: DataType): (r: real)
    ensures r > 0.0
    ensures dt == BPR ==> r == 1.0
    ensures dt == ACC ==> r * 125.0 == 1.0
  {
    if dt == BPR then 1.0 else 1.0 / 125.0
  }

  /** The publisher's settings from its two prompts. */
  function Configure(qosRaw: string, dataRaw: string): (c: PubSettings)
    ensures c.qos <= 2
    ensures c.qos == NormalizeQos(qosRaw)
    ensures Strip(qosRaw) in ["0", "1", "2"] ==> DecimalString(c.qos) == Strip(qosRaw)
    ensures c.retain <==> c.qos > 0
    ensures c.dataType == NormalizeDataType(dataRaw)
    ensures c.interval == SendInterval(c.dataType)
    ensures c.topic == TopicFor(ObuId, c.dataType)
  {
    var qos := NormalizeQos(qosRaw);
    var dt := NormalizeDataType(dataRaw);
    PubSettings(qos, qos > 0, dt, SendInterval(dt), TopicFor(ObuId, dt))
  }

  /** A publisher whose QoS answer is not 0, 1 or 2 sends at QoS 0 and never asks for retention. */
  lemma InvalidQosNeverRetains(qosRaw: string, dataRaw: string)
    requires Strip(qosRaw) !in ["0", "1", "2"]
    ensures Configure(qosRaw, dataRaw).qos == 0
    ensures !Configure(qosRaw, dataRaw).retain
  {
  }

  /** The name of the one data member of a payload. */
  function DataKey(dt: DataType): string {
    if dt == BPR then "bpr" else "acc"
  }

  /** How many values `random.uniform` is asked for per payload. */
  function DrawsUsed(dt: DataType): nat {
    if dt == BPR then 1 else AccComponents
  }

  /** The range `random.uniform` draws one value from, in thousandths. */
  function DrawLow(dt: DataType): int {
    if dt == BPR then 900 else -1500
  }

  function DrawHigh(dt: DataType): int {
    if dt == BPR then 1200 else 1500
  }

  /** A real that is a whole number of thousandths, as `round(x, 3)` yields. */
  predicate IsThousandths(x: real) {
    (x * 1000.0).Floor as real == x * 1000.0
  }

  /** `round(x, 3)` of one drawn value `x`: the nearest whole number of thousandths, as a float. */
  function Reading(x: real): Json {
    JFloat(Thousandths(x) as real / 1000.0)
  }

  /**
   * The payload sent at time `now`: the unit, the timestamp and one data
   * member. `draws` stands for the successive results of `random.uniform`.
   */
  function BuildPayload(obuId: nat, now: real, dt: DataType, draws: seq<real>): (p: Json)
    requires |draws| >= DrawsUsed(dt)
    ensures p.JObject?
    ensures Keys(p.members) == ["obu_id", "timestamp", DataKey(dt)]
    ensures Get(p.members, "obu_id") == Some(JInt(obuId))
    ensures Get(p.members, "timestamp") == Some(JFloat(now))
    ensures dt == BPR ==> Get(p.members, "bpr").Some? && Get(p.members, "bpr").value.JFloat?
    ensures dt == ACC ==> Get(p.members, "acc").Some? && Get(p.members, "acc").value.JArray?
                          && |Get(p.members, "acc").value.items| == AccComponents
  {
    var value :=
      if dt == BPR then Reading(draws[0])
      else JArray(seq(AccComponents, i requires 0 <= i < AccComponents => Reading(draws[i])));
    var members := [("obu_id", JInt(obuId)), ("timestamp", JFloat(now)), (DataKey(dt), value)];
    var key := DataKey(dt);
    assert key != "obu_id" && key != "timestamp" && "obu_id" != "timestamp" by {
      assert key[0] != 'o' && key[0] != 't' && "obu_id"[0] != "timestamp"[0];
    }
    assert members[..2] == [("obu_id", JInt(obuId)), ("timestamp", JFloat(now))];
    assert members[..2][..1] == [("obu_id", JInt(obuId))];
    assert Keys(members) == ["obu_id", "timestamp", key];
    assert Get(members, "obu_id") == Get(members[..2], "obu_id") == Get(members[..2][..1], "obu_id");
    assert Get(members, "timestamp") == Get(members[..2], "timestamp");
    JObject(members)
  }

  /** The single data value of a payload, or each of its components. */
  function DataValues(p: Json, dt: DataType): seq<Json>
    requires p.JObject?
  {
    match Get(p.members, DataKey(dt))
    case Some(JArray(items)) => items
    case Some(v) => [v]
    case None => []
  }

  /**
   * Given draws within `random.uniform`'s range, every data value is a
   * float of three decimals in [0.9, 1.2] (BPR) or [-1.5, 1.5] (ACC), and
   * there is one of them for BPR and three for ACC.
   */
  lemma PayloadValuesInRange(obuId: nat, now: real, dt: DataType, draws: seq<real>)
    requires |draws| >= DrawsUsed(dt)
    requires forall i :: 0 <= i < DrawsUsed(dt) ==>
               DrawLow(dt) as real <= draws[i] * 1000.0 <= DrawHigh(dt) as real
    ensures |DataValues(BuildPayload(obuId, now, dt, draws), dt)| == DrawsUsed(dt)
    ensures forall i :: 0 <= i < DrawsUsed(dt) ==>
              DataValues(BuildPayload(obuId, now, dt, draws), dt)[i] == Reading(draws[i])
    ensures forall v :: v in DataValues(BuildPayload(obuId, now, dt, draws), dt) ==>
              v.JFloat? && IsThousandths(v.f)
              && DrawLow(dt) as real <= v.f * 1000.0 <= DrawHigh(dt) as real
  {
    var p := BuildPayload(obuId, now, dt, draws);
    assert |p.members| == 3 && p.members[2].0 == DataKey(dt);
    assert Get(p.members, DataKey(dt)) == Some(p.members[2].1);
    var vs := DataValues(p, dt);
    forall i | 0 <= i < DrawsUsed(dt)
      ensures vs[i] == Reading(draws[i])
    {
    }
    forall v | v in vs
      ensures v.JFloat? && IsThousandths(v.f) && DrawLow(dt) as real <= v.f * 1000.0 <= DrawHigh(dt) as real
    {
      var i :| 0 <= i < |vs| && vs[i] == v;
      ThousandthsWithin(draws[i], DrawLow(dt), DrawHigh(dt));
      assert v.f * 1000.0 == Thousandths(draws[i]) as real;
    }
  }
}
