/**
 * Normalisation of the operator's answers, written identically in the
 * subscriber and the publisher: an unknown QoS becomes 0, an unknown data
 * type becomes BPR, a bandwidth that is not all digits becomes "128". Also
 * the topic naming scheme both sides share.
 */
module Settings {
  import opened Text

  /** The two kinds of telemetry: a single BPR reading or a 3-axis acceleration (ACC). */
  datatype DataType = BPR | ACC

  /** The upper-case name the operator types and the file names carry. */
  function Name(dt: DataType): string {
    match dt
    case BPR => "BPR"
    case ACC => "ACC"
  }

  /** The QoS answer: the stripped text "0", "1" or "2" as a number, anything else 0. */
  function NormalizeQos(raw: string): (q: nat)
    ensures q <= 2
    ensures Strip(raw) in ["0", "1", "2"] ==> DecimalString(q) == Strip(raw)
    ensures Strip(raw) !in ["0", "1", "2"] ==> q == 0
  {
    var s := Strip(raw);
    if s in ["0", "1", "2"] then
      assert |s| == 1;
      DecimalValue(s)
    else 0
  }

  /** Every valid QoS level, typed as its digit with any surrounding white space, is read back. */
  lemma QosRoundTrip(q: nat, before: string, after: string)
    requires q <= 2
    requires AllSpace(before) && AllSpace(after)
    ensures NormalizeQos(before + DecimalString(q) + after) == q
  {
    StripPadded(before, DecimalString(q), after);
  }

  /** Stripping removes exactly the white space padding around a text that has none of its own. */
  lemma {:induction false} StripPadded(before: string, s: string, after: string)
    requires AllSpace(before) && AllSpace(after)
    requires s != [] && !IsSpace(s[0]) && !IsSpace(s[|s| - 1])
    ensures Strip(before + s + after) == s
  {
    var x := before + s + after;
    assert x == before + (s + after);
    assert TrimStart(x) == s + after by {
      TrimStartPadded(before, s + after);
    }
    assert TrimEnd(s + after) == s by {
      TrimEndPadded(s, after);
    }
  }

  lemma {:induction false} TrimStartPadded(before: string, s: string)
    requires AllSpace(before)
    requires s != [] && !IsSpace(s[0])
    ensures TrimStart(before + s) == s
  {
    if before != [] {
      assert (before + s)[1..] == before[1..] + s;
      TrimStartPadded(before[1..], s);
    }
  }

  lemma {:induction false} TrimEndPadded(s: string, after: string)
    requires AllSpace(after)
    requires s != [] && !IsSpace(s[|s| - 1])
    ensures TrimEnd(s + after) == s
  {
    if after != [] {
      var a' := after[..|after| - 1];
      assert (s + after)[..|s + after| - 1] == s + a';
      TrimEndPadded(s, a');
    }
  }

  /** The data-type answer: stripped and upper-cased, ACC if that reads "ACC", otherwise BPR. */
  function NormalizeDataType(raw: string): (dt: DataType)
    ensures dt == ACC <==> Upper(Strip(raw)) == "ACC"
    ensures Upper(Strip(raw)) in ["BPR", "ACC"] ==> Name(dt) == Upper(Strip(raw))
  {
    var s := Upper(Strip(raw));
    if s !in ["BPR", "ACC"] then BPR
    else if s == "BPR" then BPR
    else ACC
  }

  /** Either data type is recognised whether the operator types it in upper or lower case. */
  lemma DataTypeRoundTrip(dt: DataType)
    ensures NormalizeDataType(Name(dt)) == dt
    ensures NormalizeDataType(Lower(Name(dt))) == dt
  {
    StripStripped(Name(dt));
    StripStripped(Lower(Name(dt)));
  }

  /** The bandwidth answer: the stripped text when it is all digits, otherwise "128". */
  function NormalizeBandwidth(raw: string): (bw: string)
    ensures IsDigits(bw)
    ensures IsDigits(Strip(raw)) ==> bw == Strip(raw)
    ensures !IsDigits(Strip(raw)) ==> bw == "128"
  {
    var s := Strip(raw);
    if !IsDigits(s) then "128" else s
  }

  /** Normalising an already normalised bandwidth changes nothing. */
  lemma BandwidthIdempotent(raw: string)
    ensures NormalizeBandwidth(NormalizeBandwidth(raw)) == NormalizeBandwidth(raw)
  {
    StripStripped(NormalizeBandwidth(raw));
  }

  /** The lower-case data-type segment of a topic. */
  function Segment(dt: DataType): (s: string)
    ensures s == if dt == BPR then "bpr" else "acc"
  {
    Lower(Name(dt))
  }

  /** The topic a unit publishes one kind of reading on: `cbt/obu/<unit>/<kind>`. */
  function TopicFor(obuId: nat, dt: DataType): (t: string)
    ensures |t| > 12 && t[..8] == "cbt/obu/" && t[|t| - 4..] == "/" + Segment(dt)
  {
    "cbt/obu/" + DecimalString(obuId) + "/" + Segment(dt)
  }

  /** Where the unit and the data type sit inside a topic. */
  lemma TopicParts(obuId: nat, dt: DataType)
    ensures var t := TopicFor(obuId, dt);
            |t| == 12 + |DecimalString(obuId)|
            && t[8..|t| - 4] == DecimalString(obuId)
            && t[|t| - 3..] == Segment(dt)
  {
    var n := DecimalString(obuId);
    var t := TopicFor(obuId, dt);
    assert t == "cbt/obu/" + (n + ("/" + Segment(dt)));
  }

  /** Distinct units or data types never share a topic. */
  lemma TopicInjective(o1: nat, d1: DataType, o2: nat, d2: DataType)
    requires TopicFor(o1, d1) == TopicFor(o2, d2)
    ensures o1 == o2 && d1 == d2
  {
    TopicParts(o1, d1);
    TopicParts(o2, d2);
    assert DecimalValue(DecimalString(o1)) == DecimalValue(DecimalString(o2));
    assert Segment(d1)[0] == Segment(d2)[0];
  }
}
