/**
 * The subscriber: its settings and output file names, and the handler that
 * turns each inbound message into at most one latency sample. The handler's
 * state (the latency series, the byte and message counters and the one-shot
 * warm-up flag) lives in the class `Subscriber`; `Step` and `Run` state the
 * same rules on values so that lemmas can reason about many messages.
 */
module Subscriber {
  import opened Wrappers
  import opened Text
  import opened Json
  import opened Settings

  // ---------------------------------------------------------------------
  // Settings and file names
  // ---------------------------------------------------------------------

  datatype SubSettings = SubSettings(qos: nat, dataType: DataType, bandwidth: string)

  /** The subscriber's settings from its three prompts. */
  function Configure(qosRaw: string, dataRaw: string, bwRaw: string): (c: SubSettings)
    ensures c.qos <= 2 && IsDigits(c.bandwidth)
    ensures c.qos == NormalizeQos(qosRaw)
    ensures Strip(qosRaw) in ["0", "1", "2"] ==> DecimalString(c.qos) == Strip(qosRaw)
    ensures Strip(qosRaw) !in ["0", "1", "2"] ==> c.qos == 0
    ensures c.dataType == ACC <==> Upper(Strip(dataRaw)) == "ACC"
    ensures IsDigits(Strip(bwRaw)) ==> c.bandwidth == Strip(bwRaw)
    ensures !IsDigits(Strip(bwRaw)) ==> c.bandwidth == "128"
  {
    SubSettings(NormalizeQos(qosRaw), NormalizeDataType(dataRaw), NormalizeBandwidth(bwRaw))
  }

  /** The subscriber listens on unit 1's topic for its data type. */
  function Topic(dt: DataType): (t: string)
    ensures t == TopicFor(1, dt)
  {
    "cbt/obu/1/" + Lower(Name(dt))
  }

  /** The combined latency and backlog table of one run. */
  function CombinedCsvFilename(c: SubSettings): (f: string)
    ensures |f| >= 29 && f[..14] == "latency_queue_" && f[|f| - 4..] == ".csv"
  {
    "latency_queue_" + Name(c.dataType) + "_QoS" + DecimalString(c.qos) + "_BW" + c.bandwidth + ".csv"
  }

  /** The backlog averages of all runs of one data type, appended to run after run. */
  function QueueFilename(dt: DataType): (f: string)
    ensures |f| == 19 && f[12..15] == Name(dt)
    ensures forall c :: f != CombinedCsvFilename(c)
  {
    "queue_count_" + Name(dt) + ".csv"
  }

  /** Where data type, QoS and bandwidth sit inside a combined table's file name. */
  lemma CombinedCsvFilenameParts(c: SubSettings)
    requires c.qos < 10
    ensures var f := CombinedCsvFilename(c);
            |f| == 29 + |c.bandwidth|
            && f[14..17] == Name(c.dataType)
            && f[21..22] == DecimalString(c.qos)
            && f[25..|f| - 4] == c.bandwidth
  {
    var f := CombinedCsvFilename(c);
    var n, q := Name(c.dataType), DecimalString(c.qos);
    assert |n| == 3 && |q| == 1;
    assert f == "latency_queue_" + (n + ("_QoS" + (q + ("_BW" + (c.bandwidth + ".csv")))));
  }

  /** Two runs write the same combined table only when data type, QoS and bandwidth all agree. */
  lemma CombinedCsvFilenameInjective(c1: SubSettings, c2: SubSettings)
    requires c1.qos < 10 && c2.qos < 10
    requires CombinedCsvFilename(c1) == CombinedCsvFilename(c2)
    ensures c1 == c2
  {
    CombinedCsvFilenameParts(c1);
    CombinedCsvFilenameParts(c2);
    assert DecimalValue(DecimalString(c1.qos)) == DecimalValue(DecimalString(c2.qos));
    assert Name(c1.dataType)[0] == Name(c2.dataType)[0];
  }

  // ---------------------------------------------------------------------
  // Inbound messages
  // ---------------------------------------------------------------------

  /** What `msg.payload.decode()` gives: the UTF-8 text and what `json.loads` makes of it. */
  datatype Decoded =
    | NotUtf8
    | Utf8(text: string, parsed: Option<Json>)  // parsed is None when json.loads raises

  /** One inbound message: its size in bytes and its decoded payload. */
  datatype Inbound = Inbound(size: nat, payload: Decoded)

  /** Why a message never reaches the latency computation. */
  datatype DropReason =
    | Blank        // empty or white space only
    | Malformed    // any exception: not UTF-8, not JSON, not an object, timestamp not a number
    | NoTimestamp  // no "timestamp" member, or one holding null

  /** How far a message gets before the warm-up and ceiling rules apply. */
  datatype Admission = Rejected(reason: DropReason) | Stamped(sentAt: real)

  /** What the handler does with one message. */
  datatype Outcome =
    | Dropped(reason: DropReason)
    | WarmUp                        // the first stamped message, discarded
    | OverCeiling(latencyMs: real)  // above the ceiling, discarded
    | Recorded(latencyMs: real)

  /** Latencies above this many milliseconds are treated as anomalies. */
  const LatencyCeilingMs: real := 10000.0

  /** A JSON value Python can subtract from a float: ints, floats and booleans. */
  function Seconds(v: Json): (r: Option<real>)
    ensures r.Some? <==> v.JInt? || v.JFloat? || v.JBool?
    ensures v.JFloat? ==> r == Some(v.f)
    ensures v.JInt? ==> r == Some(v.i as real)
    ensures v.JBool? ==> r == Some(if v.b then 1.0 else 0.0)
  {
    match v
    case JInt(i) => Some(i as real)
    case JFloat(f) => Some(f)
    case JBool(b) => Some(if b then 1.0 else 0.0)
    case _ => None
  }

  /** The decoding steps of the handler, up to the send timestamp. */
  function Admit(m: Inbound): (a: Admission)
    ensures a == Rejected(Blank) <==> m.payload.Utf8? && AllSpace(m.payload.text)
    ensures a == Rejected(NoTimestamp) <==>
              m.payload.Utf8? && !AllSpace(m.payload.text) && m.payload.parsed.Some?
              && m.payload.parsed.value.JObject?
              && (Get(m.payload.parsed.value.members, "timestamp").None?
                  || Get(m.payload.parsed.value.members, "timestamp").value.JNull?)
    ensures a.Stamped? ==>
              m.payload.Utf8? && m.payload.parsed.Some? && m.payload.parsed.value.JObject?
              && Get(m.payload.parsed.value.members, "timestamp").Some?
              && Seconds(Get(m.payload.parsed.value.members, "timestamp").value) == Some(a.sentAt)
    ensures m.payload.Utf8? && !AllSpace(m.payload.text) && m.payload.parsed.Some?
            && m.payload.parsed.value.JObject?
            && Get(m.payload.parsed.value.members, "timestamp").Some?
            && Seconds(Get(m.payload.parsed.value.members, "timestamp").value).Some?
            ==> a == Stamped(Seconds(Get(m.payload.parsed.value.members, "timestamp").value).value)
  {
    match m.payload
    case NotUtf8 => Rejected(Malformed)
    case Utf8(text, parsed) =>
      StripSpec(text);
      if Strip(text) == [] then Rejected(Blank)
      else if parsed.None? || !parsed.value.JObject? then Rejected(Malformed)
      else
        var stamp := Get(parsed.value.members, "timestamp");
        if stamp.None? || stamp.value.JNull? then Rejected(NoTimestamp)
        else if Seconds(stamp.value).None? then Rejected(Malformed)
        else Stamped(Seconds(stamp.value).value)
  }

  /** One-way latency in milliseconds of a message sent at `sentAt` and received at `receivedAt`. */
  function LatencyMs(receivedAt: real, sentAt: real): (r: real)
    ensures r <= LatencyCeilingMs <==> receivedAt - sentAt <= 10.0
    ensures r < 0.0 <==> receivedAt < sentAt
  {
    (receivedAt - sentAt) * 1000.0
  }

  /** The handler's decision for one message, given the warm-up flag. */
  function Classify(skip: bool, m: Inbound, receivedAt: real): (r: Outcome)
    ensures r.Dropped? <==> Admit(m).Rejected?
    ensures r.Dropped? ==> r.reason == Admit(m).reason
    ensures r.WarmUp? <==> Admit(m).Stamped? && skip
    ensures Admit(m).Stamped? && !skip ==> r.Recorded? || r.OverCeiling?
    ensures (r.Recorded? || r.OverCeiling?) ==> r.latencyMs == LatencyMs(receivedAt, Admit(m).sentAt)
    ensures r.Recorded? ==> r.latencyMs <= LatencyCeilingMs
    ensures r.OverCeiling? ==> r.latencyMs > LatencyCeilingMs
  {
    match Admit(m)
    case Rejected(reason) => Dropped(reason)
    case Stamped(sentAt) =>
      var latency := LatencyMs(receivedAt, sentAt);
      if skip then WarmUp
      else if latency > LatencyCeilingMs then OverCeiling(latency)
      else Recorded(latency)
  }

  /** The ceiling is strict: exactly 10000 ms is kept, anything above is not, and there is no floor. */
  lemma CeilingIsStrict(m: Inbound, receivedAt: real)
    requires Admit(m).Stamped?
    ensures LatencyMs(receivedAt, Admit(m).sentAt) <= LatencyCeilingMs <==>
              Classify(false, m, receivedAt) == Recorded(LatencyMs(receivedAt, Admit(m).sentAt))
    ensures receivedAt < Admit(m).sentAt ==> Classify(false, m, receivedAt).Recorded?
  {
  }

  // ---------------------------------------------------------------------
  // Handler state as a value
  // ---------------------------------------------------------------------

  datatype SubState = SubState(
    latencies: seq<real>,
    totalBytesReceived: nat,
    messageCount: nat,
    skipFirstMessage: bool)

  /** The state before any message arrives. */
  const Init := SubState([], 0, 0, true)

  /** The handler's counters agree with its series. */
  predicate Consistent(st: SubState) {
    |st.latencies| == st.messageCount
  }

  /** The state after the handler has reached `outcome` for a message of `size` bytes. */
  function Apply(st: SubState, outcome: Outcome, size: nat): (r: SubState)
    ensures Consistent(st) ==> Consistent(r)
    ensures |st.latencies| <= |r.latencies| && r.latencies[..|st.latencies|] == st.latencies
    ensures r.skipFirstMessage ==> st.skipFirstMessage
    ensures outcome.Recorded? <==> r.latencies != st.latencies
    ensures outcome.Recorded? ==>
              r.latencies[|st.latencies|] == outcome.latencyMs
              && r.totalBytesReceived == st.totalBytesReceived + size
              && r.messageCount == st.messageCount + 1
    ensures outcome.WarmUp? ==> r == st.(skipFirstMessage := false)
    ensures !outcome.WarmUp? ==> r.skipFirstMessage == st.skipFirstMessage
    ensures !outcome.WarmUp? && !outcome.Recorded? ==> r == st
  {
    match outcome
    case WarmUp => st.(skipFirstMessage := false)
    case Recorded(latency) =>
      st.(latencies := st.latencies + [latency],
          totalBytesReceived := st.totalBytesReceived + size,
          messageCount := st.messageCount + 1)
    case _ => st
  }

  /** The state after handling message `m` received at `receivedAt`. */
  function Step(st: SubState, m: Inbound, receivedAt: real): (r: SubState)
    ensures Consistent(st) ==> Consistent(r)
    ensures r.skipFirstMessage <==> st.skipFirstMessage && !Admit(m).Stamped?
    ensures |st.latencies| <= |r.latencies| <= |st.latencies| + 1
    ensures |r.latencies| == |st.latencies| + 1 <==>
              !st.skipFirstMessage && Admit(m).Stamped?
              && LatencyMs(receivedAt, Admit(m).sentAt) <= LatencyCeilingMs
  {
    Apply(st, Classify(st.skipFirstMessage, m, receivedAt), m.size)
  }

  // ---------------------------------------------------------------------
  // The handler as the source writes it: module-level state updated in place
  // ---------------------------------------------------------------------

  class Subscriber {
    var latencies: seq<real>
    var totalBytesReceived: nat
    var messageCount: nat
    var skipFirstMessage: bool
    var startTime: Option<real>

    function State(): SubState
      reads this
    {
      SubState(latencies, totalBytesReceived, messageCount, skipFirstMessage)
    }

    ghost predicate Valid()
      reads this
    {
      Consistent(State())
    }

    constructor ()
      ensures Valid() && State() == Init && startTime == None
    {
      latencies := [];
      totalBytesReceived := 0;
      messageCount := 0;
      skipFirstMessage := true;
      startTime := None;
    }

    /** Connection callback: records the start time on success; the warm-up flag is left alone. */
    method OnConnect(reasonCode: int, now: real)
      modifies this`startTime
      ensures startTime == if reasonCode == 0 then Some(now) else old(startTime)
      ensures State() == old(State())
    {
      if reasonCode == 0 {
        startTime := Some(now);
      }
    }

    /** Message callback: decides what to do with `m` and updates the series and counters. */
    method OnMessage(m: Inbound, receivedAt: real) returns (outcome: Outcome)
      requires Valid()
      modifies this
      ensures Valid()
      ensures outcome == Classify(old(skipFirstMessage), m, receivedAt)
      ensures State() == Apply(old(State()), outcome, m.size)
      ensures startTime == old(startTime)
    {
      match m.payload {
        case NotUtf8 =>
          assert Admit(m) == Rejected(Malformed);
          return Dropped(Malformed);
        case Utf8(text, parsed) =>
          if Strip(text) == [] {
            assert Admit(m) == Rejected(Blank);
            return Dropped(Blank);
          }
          if parsed.None? || !parsed.value.JObject? {
            assert Admit(m) == Rejected(Malformed);
            return Dropped(Malformed);
          }
          var publishTime := Get(parsed.value.members, "timestamp");
          if publishTime.None? || publishTime.value.JNull? {
            assert Admit(m) == Rejected(NoTimestamp);
            return Dropped(NoTimestamp);
          }
          var sentAt := Seconds(publishTime.value);
          if sentAt.None? {
            assert Admit(m) == Rejected(Malformed);
            return Dropped(Malformed);
          }
          assert Admit(m) == Stamped(sentAt.value);
          var latencyMs := (receivedAt - sentAt.value) * 1000.0;
          if skipFirstMessage {
            skipFirstMessage := false;
            return WarmUp;
          }
          if latencyMs > LatencyCeilingMs {
            return OverCeiling(latencyMs);
          }
          latencies := latencies + [latencyMs];
          totalBytesReceived := totalBytesReceived + m.size;
          messageCount := messageCount + 1;
          return Recorded(latencyMs);
      }
    }
  }

  // ---------------------------------------------------------------------
  // Many messages
  // ---------------------------------------------------------------------

  /** A message together with the wall-clock time it was handled at. */
  datatype Arrival = Arrival(msg: Inbound, receivedAt: real)

  /** The state after handling `arrivals` in order. */
  function Run(st: SubState, arrivals: seq<Arrival>): (r: SubState)
    ensures |st.latencies| <= |r.latencies| <= |st.latencies| + |arrivals|
    ensures r.skipFirstMessage ==> st.skipFirstMessage
    decreases |arrivals|
  {
    if arrivals == [] then st
    else Run(Step(st, arrivals[0].msg, arrivals[0].receivedAt), arrivals[1..])
  }

  /** A latency together with the size of the message it came from. */
  datatype Sample = Sample(latencyMs: real, size: nat)

  /** The samples of every message that carries a usable timestamp, in arrival order. */
  function StampedSamples(arrivals: seq<Arrival>): seq<Sample>
    decreases |arrivals|
  {
    if arrivals == [] then [] else SampleOf(arrivals[0]) + StampedSamples(arrivals[1..])
  }

  /** The sample one arrival contributes: none, or its latency and size. */
  function SampleOf(a: Arrival): seq<Sample> {
    match Admit(a.msg)
    case Stamped(sentAt) => [Sample(LatencyMs(a.receivedAt, sentAt), a.msg.size)]
    case Rejected(_) => []
  }

  /** The samples at or below the ceiling. */
  function WithinCeiling(samples: seq<Sample>): seq<Sample>
    decreases |samples|
  {
    if samples == [] then []
    else (if samples[0].latencyMs <= LatencyCeilingMs then [samples[0]] else [])
         + WithinCeiling(samples[1..])
  }

  /** The samples left once the first one is discarded, if the warm-up is still pending. */
  function AfterWarmUp(skip: bool, samples: seq<Sample>): seq<Sample> {
    if skip && samples != [] then samples[1..] else samples
  }

  function LatenciesOf(samples: seq<Sample>): (ls: seq<real>)
    ensures |ls| == |samples|
    ensures forall i :: 0 <= i < |samples| ==> ls[i] == samples[i].latencyMs
    decreases |samples|
  {
    if samples == [] then [] else [samples[0].latencyMs] + LatenciesOf(samples[1..])
  }

  function BytesOf(samples: seq<Sample>): nat
    decreases |samples|
  {
    if samples == [] then 0 else samples[0].size + BytesOf(samples[1..])
  }

  /**
   * The state a run should reach from `st` given the samples of its stamped
   * messages: the first sample is discarded if the warm-up is pending, those
   * above the ceiling are discarded, the rest are appended and counted.
   */
  function Reference(st: SubState, samples: seq<Sample>): SubState {
    var kept := WithinCeiling(AfterWarmUp(st.skipFirstMessage, samples));
    SubState(st.latencies + LatenciesOf(kept),
             st.totalBytesReceived + BytesOf(kept),
             st.messageCount + |kept|,
             st.skipFirstMessage && samples == [])
  }

  /**
   * Handling a sequence of messages records exactly the stamped samples,
   * minus the first one if the warm-up is pending, minus those above the
   * ceiling; the counters grow by their number and their bytes, and the
   * warm-up flag is cleared as soon as one stamped message has arrived.
   */
  lemma {:induction false} RunMatchesReference(st: SubState, arrivals: seq<Arrival>)
    ensures Run(st, arrivals) == Reference(st, StampedSamples(arrivals))
    decreases |arrivals|
  {
    if arrivals != [] {
      var a := arrivals[0];
      var st' := Step(st, a.msg, a.receivedAt);
      RunMatchesReference(st', arrivals[1..]);
      StepThenReference(st, a, StampedSamples(arrivals[1..]));
    }
  }

  /** One step followed by the reference of the remaining samples is the reference of all of them. */
  lemma StepThenReference(st: SubState, a: Arrival, tail: seq<Sample>)
    ensures Reference(Step(st, a.msg, a.receivedAt), tail) == Reference(st, SampleOf(a) + tail)
  {
    if Admit(a.msg).Stamped? {
      var s := SampleOf(a)[0];
      assert SampleOf(a) == [s];
      assert ([s] + tail)[1..] == tail;
      if !st.skipFirstMessage {
        if s.latencyMs <= LatencyCeilingMs {
          RecordedStep(st, a, s, tail);
        } else {
          assert ([s] + tail)[0] == s;
          assert WithinCeiling([s] + tail) == WithinCeiling(tail);
        }
      }
    } else {
      assert SampleOf(a) + tail == tail;
    }
  }

  lemma RecordedStep(st: SubState, a: Arrival, s: Sample, tail: seq<Sample>)
    requires !st.skipFirstMessage
    requires Admit(a.msg).Stamped? && SampleOf(a) == [s] && s.latencyMs <= LatencyCeilingMs
    ensures Reference(Step(st, a.msg, a.receivedAt), tail) == Reference(st, [s] + tail)
  {
    var kept' := WithinCeiling(tail);
    assert ([s] + tail)[0] == s && ([s] + tail)[1..] == tail;
    assert WithinCeiling([s] + tail) == [s] + kept';
    assert ([s] + kept')[0] == s && ([s] + kept')[1..] == kept';
    assert LatenciesOf([s] + kept') == [s.latencyMs] + LatenciesOf(kept');
    assert BytesOf([s] + kept') == s.size + BytesOf(kept');
    assert st.latencies + [s.latencyMs] + LatenciesOf(kept')
        == st.latencies + LatenciesOf([s] + kept');
  }

  /** Over any sequence of messages the counters stay consistent, the series only grows at its end, and the warm-up flag never comes back. */
  lemma RunPreservesInvariants(st: SubState, arrivals: seq<Arrival>)
    requires Consistent(st)
    ensures Consistent(Run(st, arrivals))
    ensures |st.latencies| <= |Run(st, arrivals).latencies|
    ensures Run(st, arrivals).latencies[..|st.latencies|] == st.latencies
    ensures Run(st, arrivals).skipFirstMessage ==> st.skipFirstMessage
  {
    RunMatchesReference(st, arrivals);
    var r := Run(st, arrivals);
    assert r.latencies[..|st.latencies|] == st.latencies;
  }

  /** The first stamped message of a run never reaches the series, even when it is within the ceiling. */
  lemma {:induction false} FirstStampedNeverRecorded(arrivals: seq<Arrival>, k: nat)
    requires k < |arrivals|
    requires Admit(arrivals[k].msg).Stamped?
    requires forall j :: 0 <= j < k ==> Admit(arrivals[j].msg).Rejected?
    ensures Run(Init, arrivals) == Run(Init.(skipFirstMessage := false), arrivals[k + 1..])
    decreases k
  {
    var a := arrivals[0];
    assert Run(Init, arrivals) == Run(Step(Init, a.msg, a.receivedAt), arrivals[1..]);
    if k == 0 {
      assert Classify(true, a.msg, a.receivedAt) == WarmUp;
      assert Step(Init, a.msg, a.receivedAt) == Init.(skipFirstMessage := false);
    } else {
      assert Admit(arrivals[0].msg).Rejected?;
      assert Classify(true, a.msg, a.receivedAt).Dropped?;
      assert Step(Init, a.msg, a.receivedAt) == Init;
      FirstStampedNeverRecorded(arrivals[1..], k - 1);
      assert arrivals[1..][k..] == arrivals[k + 1..];
    }
  }

  /**
   * When every message carries a timestamp within the ceiling, a run of n
   * messages records n - 1 latencies: those of all but the first message.
   */
  lemma AllStampedWithinCeiling(arrivals: seq<Arrival>)
    requires |arrivals| >= 1
    requires forall i :: 0 <= i < |arrivals| ==> Admit(arrivals[i].msg).Stamped?
    requires forall i :: 0 <= i < |arrivals| ==>
               LatencyMs(arrivals[i].receivedAt, Admit(arrivals[i].msg).sentAt) <= LatencyCeilingMs
    ensures |Run(Init, arrivals).latencies| == |arrivals| - 1
    ensures forall k :: 0 <= k < |arrivals| - 1 ==>
              Run(Init, arrivals).latencies[k]
              == LatencyMs(arrivals[k + 1].receivedAt, Admit(arrivals[k + 1].msg).sentAt)
  {
    RunMatchesReference(Init, arrivals);
    StampedAll(arrivals);
    var samples := StampedSamples(arrivals);
    WithinCeilingKeepsAll(samples[1..]);
    assert [] + LatenciesOf(samples[1..]) == LatenciesOf(samples[1..]);
  }

  /** When every message is stamped, there is one sample per message, in order. */
  lemma {:induction false} StampedAll(arrivals: seq<Arrival>)
    requires forall i :: 0 <= i < |arrivals| ==> Admit(arrivals[i].msg).Stamped?
    ensures |StampedSamples(arrivals)| == |arrivals|
    ensures forall i :: 0 <= i < |arrivals| ==>
              StampedSamples(arrivals)[i].latencyMs
              == LatencyMs(arrivals[i].receivedAt, Admit(arrivals[i].msg).sentAt)
    decreases |arrivals|
  {
    if arrivals != [] {
      var rest := arrivals[1..];
      StampedAll(rest);
      var s := SampleOf(arrivals[0]);
      assert |s| == 1;
      assert StampedSamples(arrivals) == s + StampedSamples(rest);
      forall i | 1 <= i < |arrivals|
        ensures StampedSamples(arrivals)[i] == StampedSamples(rest)[i - 1]
      {
      }
    }
  }

  lemma {:induction false} WithinCeilingKeepsAll(samples: seq<Sample>)
    requires forall i :: 0 <= i < |samples| ==> samples[i].latencyMs <= LatencyCeilingMs
    ensures WithinCeiling(samples) == samples
    decreases |samples|
  {
    if samples != [] {
      WithinCeilingKeepsAll(samples[1..]);
    }
  }
}
