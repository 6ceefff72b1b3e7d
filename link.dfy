/**
 * The publisher and the subscriber together: what the subscriber does
 * with the payloads the publisher builds. JSON encoding and decoding are
 * not modelled; a delivery is a message whose decoded value is the
 * published object and whose text, like every `json.dumps` of a dict,
 * opens with a brace.
 */
module Link {
  import opened Wrappers
  import opened Text
  import opened Json
  import opened Settings
  import Publisher
  import opened Subscriber

  /** `m` carries the object `p` as the publisher sent it. */
  predicate IsDelivery(m: Inbound, p: Json) {
    m.payload.Utf8? && m.payload.text != [] && m.payload.text[0] == '{' && m.payload.parsed == Some(p)
  }

  /** The subscriber listens on exactly the topic the publisher of the same data type sends to. */
  lemma SameTopic(qosRaw: string, dataRaw: string)
    ensures Topic(Publisher.Configure(qosRaw, dataRaw).dataType)
            == Publisher.Configure(qosRaw, dataRaw).topic
  {
  }

  /**
   * A published payload is always admitted with its send time: it is never
   * dropped as blank, malformed or missing its timestamp.
   */
  lemma PublishedIsStamped(m: Inbound, now: real, dt: DataType, draws: seq<real>)
    requires |draws| >= Publisher.DrawsUsed(dt)
    requires IsDelivery(m, Publisher.BuildPayload(Publisher.ObuId, now, dt, draws))
    ensures Admit(m) == Stamped(now)
  {
    assert !IsSpace(m.payload.text[0]);
  }

  /**
   * A run that receives n published payloads, each within ten seconds of
   * being sent, records n - 1 latencies: the one-way delay of every
   * payload but the first, in milliseconds.
   */
  lemma PublishedRun(arrivals: seq<Arrival>, sentAt: seq<real>, dt: DataType, draws: seq<seq<real>>)
    requires |arrivals| >= 1 && |sentAt| == |arrivals| && |draws| == |arrivals|
    requires forall i :: 0 <= i < |arrivals| ==> |draws[i]| >= Publisher.DrawsUsed(dt)
    requires forall i :: 0 <= i < |arrivals| ==>
               IsDelivery(arrivals[i].msg, Publisher.BuildPayload(Publisher.ObuId, sentAt[i], dt, draws[i]))
    requires forall i :: 0 <= i < |arrivals| ==>
               LatencyMs(arrivals[i].receivedAt, sentAt[i]) <= LatencyCeilingMs
    ensures |Run(Init, arrivals).latencies| == |arrivals| - 1
    ensures forall k :: 0 <= k < |arrivals| - 1 ==>
              Run(Init, arrivals).latencies[k] == LatencyMs(arrivals[k + 1].receivedAt, sentAt[k + 1])
  {
    forall i | 0 <= i < |arrivals|
      ensures Admit(arrivals[i].msg) == Stamped(sentAt[i])
    {
      PublishedIsStamped(arrivals[i].msg, sentAt[i], dt, draws[i]);
    }
    AllStampedWithinCeiling(arrivals);
  }
}
