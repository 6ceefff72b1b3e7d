# MQTT latency harness — verified model of its deterministic core

The repository measures one-way latency and subscriber backlog over an MQTT
link whose bandwidth is throttled (an ns-3 bottleneck). A publisher
(`mqtt-system/pub/pub.py`) sends timestamped readings for one on-board unit.
Each payload holds one BPR reading, a value in [0.9, 1.2], or a 3-axis
acceleration (ACC). After each publish has been confirmed, the publisher pauses
for a fixed interval: 1 s for BPR and 8 ms for ACC. So it sends at most once a
second for BPR and at most 125 times a second for ACC. A subscriber (`mqtt-system/sub/sub.py`) handles
each message. It computes `(received - sent) * 1000` ms. It discards the
first timestamped message and every latency above 10000 ms, and records the
rest. At the end it writes a table pairing the latency series with the
backlog samples.

This project models, in Dafny:

- the operator-input normalisation both programs share: QoS, data type,
  bandwidth, and the topic scheme (`settings.dfy`, on `text.dfy`);
- the publisher's settings and its payload (`publisher.dfy`, with
  `rounding.dfy` for `round(x, 3)` and `json.dfy` for decoded JSON values);
- the subscriber's settings and output file names. Also its message handler,
  as the class `Subscriber.Subscriber` whose fields are the handler's
  module-level state, and the same rules on values (`Step`, `Run`)
  (`subscriber.dfy`);
- the row merge of `save_to_csv` as a loop method (`csv_rows.dfy`);
- what the subscriber does with what the publisher sends (`link.dfy`).

Decoded JSON is a value of `Json.Json`. `json.loads`/`json.dumps` are not
modelled: a message states its UTF-8 text and what `json.loads` made of it.
The time a message is handled (`time.time()` in the handler) is a parameter.
So are the values `random.uniform` returns.

Three behaviours of the code are easy to misread. The model follows the code:

- the warm-up discard is one-shot for the whole process. The connection
  callback never resets the flag (`Subscriber.Subscriber.OnConnect`), so
  after a reconnect the first message is recorded;
- a timestamp that is present but `null` goes the "timestamp not found" way.
  A timestamp that is a string, list or object raises inside the handler, so
  the message is dropped as malformed. A JSON boolean is accepted as 1 or 0
  seconds, as Python's arithmetic does;
- no lower bound applies to latencies: a negative latency from clock skew is
  recorded.

## Model

| member | source | states |
|---|---|---|
| Settings.NormalizeQos | mqtt-system/sub/sub.py:19-24 | The level is at most 2. The stripped text "0", "1" or "2" is read as that number. Anything else gives 0. The publisher repeats the same code at mqtt-system/pub/pub.py:14-19. |
| Settings.QosRoundTrip | mqtt-system/sub/sub.py:19-24 | Every valid level, typed as its digit with any white space around it, is read back unchanged. |
| Settings.NormalizeDataType | mqtt-system/sub/sub.py:27-30 | The result is ACC exactly when the stripped, upper-cased answer is "ACC". Otherwise it is BPR, the default. A recognised answer is kept. |
| Settings.DataTypeRoundTrip | mqtt-system/sub/sub.py:27-30 | "BPR" and "ACC" are recognised in upper case and in lower case. |
| Settings.NormalizeBandwidth | mqtt-system/sub/sub.py:33-36 | The result is always a non-empty digit string. It is the stripped answer when that is all digits, otherwise "128". |
| Settings.BandwidthIdempotent | mqtt-system/sub/sub.py:33-36 | Normalising an already normalised bandwidth changes nothing. |
| Settings.Segment | mqtt-system/pub/pub.py:36 | The topic's last segment is the lower-cased data type, "bpr" or "acc". |
| Settings.TopicFor | mqtt-system/pub/pub.py:36 | A topic starts with `cbt/obu/` and ends with `/` and the lower-case data-type segment. |
| Settings.TopicParts | mqtt-system/pub/pub.py:36 | A topic is `cbt/obu/`, then the unit's decimal number, then `/` and the three-letter segment. |
| Settings.TopicInjective | mqtt-system/pub/pub.py:36 | Two topics are equal only for the same unit and the same data type. |
| Text.StripSpec | mqtt-system/sub/sub.py:136 | `strip()` leaves text that neither starts nor ends with white space. The result is empty exactly when the text was all white space, which is the handler's blank test. |
| Text.DecimalString | mqtt-system/pub/pub.py:36 | `f"{n}"` of a natural is a non-empty digit string without leading zeros that reads back as n. It has one digit exactly when n < 10. |
| Rounding.RoundHalfEven | mqtt-system/pub/pub.py:65 | `round` lands within half a unit of its argument, and an exact tie goes to the even neighbour. |
| Rounding.Thousandths | mqtt-system/pub/pub.py:65 | `round(x, 3)`, counted in thousandths, is within half a thousandth of x. The same rounding gives the three-decimal latency cell at mqtt-system/sub/sub.py:71. |
| Rounding.ThousandthsWithin | mqtt-system/pub/pub.py:65 | Rounding to three decimals keeps a value inside a range whose ends are whole thousandths. |
| Publisher.SendInterval | mqtt-system/pub/pub.py:29-33 | The pause after each confirmed publish is positive. It is 1 s for BPR and 1/125 s (8 ms) for ACC. So the rate is at most 1 send/s for BPR and 125/s for ACC. |
| Publisher.Configure | mqtt-system/pub/pub.py:14-36 | QoS is the normalised answer: at most 2, and a valid answer "0", "1" or "2" gives that level. Retain is true exactly when QoS > 0. The data type is the normalised answer. The interval matches the data type. The topic is unit 1's topic for that data type. |
| Publisher.InvalidQosNeverRetains | mqtt-system/pub/pub.py:14-21 | An invalid QoS answer gives QoS 0 and no retention. |
| Publisher.BuildPayload | mqtt-system/pub/pub.py:64-77 | The payload is an object with exactly the keys `obu_id`, `timestamp` and one data key, in that order. It carries the unit and the send time. `bpr` holds one float. `acc` holds a list of exactly 3. |
| Publisher.PayloadValuesInRange | mqtt-system/pub/pub.py:64-77 | Given draws within `random.uniform`'s range, there is one data value for BPR and three for ACC. Value i is draw i rounded to three decimals (`Reading`). Each value is a whole number of thousandths, within [0.9, 1.2] for BPR and within [-1.5, 1.5] for ACC. |
| Json.Get | mqtt-system/sub/sub.py:142 | A value that `payload.get(key)` finds is a member of the object under that key. |
| Json.GetSpec | mqtt-system/sub/sub.py:142 | `get` finds nothing exactly when no member carries the name. Otherwise it finds the value of the last member with that name, as the dict `json.loads` builds keeps the last duplicate. |
| Subscriber.Configure | mqtt-system/sub/sub.py:19-36 | QoS is the normalised answer: a valid answer gives that level, an invalid one gives 0. The data type is ACC exactly when the answer reads "ACC". The bandwidth is the digit answer, else "128". |
| Subscriber.Topic | mqtt-system/sub/sub.py:41 | The subscriber's topic is unit 1's topic for its data type. |
| Subscriber.CombinedCsvFilename | mqtt-system/sub/sub.py:44 | The combined table is a `.csv` file whose name starts with `latency_queue_`. |
| Subscriber.QueueFilename | mqtt-system/sub/sub.py:45 | The averages file carries the data type's name at a fixed position and never has the name of a run's combined table. |
| Subscriber.CombinedCsvFilenameParts | mqtt-system/sub/sub.py:44 | The combined table's name carries the data type, the QoS digit and the bandwidth at fixed positions. |
| Subscriber.CombinedCsvFilenameInjective | mqtt-system/sub/sub.py:44 | Runs with different data type, QoS or bandwidth never write the same combined table. |
| Subscriber.Seconds | mqtt-system/sub/sub.py:148 | Only a JSON int, float or bool can be subtracted from the receive time. An int or a float counts as its own value in seconds. A boolean counts as 1 s for true and 0 s for false, as in Python arithmetic. |
| Subscriber.LatencyMs | mqtt-system/sub/sub.py:148 | The latency is within the 10000 ms ceiling exactly when the message took at most 10 s. It is negative exactly when it was received before its send time. |
| Subscriber.Admit | mqtt-system/sub/sub.py:134-146 | A message is rejected as blank exactly when its text is all white space. It is rejected for a missing timestamp exactly when it decodes to an object whose `timestamp` is absent or null. A non-blank object whose `timestamp` is an int, float or bool is admitted with that value in seconds. Only such messages are admitted. Everything else is malformed. |
| Subscriber.Classify | mqtt-system/sub/sub.py:131-160 | A message is dropped exactly when it is rejected, with the same reason. It is the warm-up discard exactly when it is stamped and the flag is set. Otherwise it is recorded if its latency (received - sent) * 1000 is at most 10000 ms, and discarded if above. |
| Subscriber.CeilingIsStrict | mqtt-system/sub/sub.py:154-158 | After the warm-up, a stamped message is recorded if and only if its latency is at most 10000 ms, so exactly 10000 ms is kept. A message received before its send time is always recorded. |
| Subscriber.Apply | mqtt-system/sub/sub.py:150-160 | Applying an outcome keeps the counters in step with the series. Only a recording changes the series. It appends the latency at the end and leaves earlier entries alone, adding the message's bytes and 1 message. The warm-up outcome clears the flag and changes nothing else. Any other outcome leaves the state as it was, so nothing sets the flag again. |
| Subscriber.Step | mqtt-system/sub/sub.py:131-171 | One message keeps the counters consistent and adds at most one latency. It adds one exactly when the warm-up is over, the message is stamped and its latency is within the ceiling. The flag stays set exactly when it was set and the message was not stamped. |
| Subscriber.Run | mqtt-system/sub/sub.py:131-171 | Over a sequence of messages the series grows by at most one entry per message, and the warm-up flag is never set again. |
| Subscriber.Subscriber.constructor | mqtt-system/sub/sub.py:48-52 | Initially the series is empty, both counters are 0, the warm-up flag is set and no start time is known. |
| Subscriber.Subscriber.OnConnect | mqtt-system/sub/sub.py:120-128 | A successful connection records the start time. Nothing else changes, and in particular the warm-up flag is not reset. |
| Subscriber.Subscriber.OnMessage | mqtt-system/sub/sub.py:131-171 | The handler reaches the outcome `Classify` gives for the old flag. Its new series, counters and flag are those `Apply` gives for that outcome. It keeps the invariant that the message count equals the series length. |
| Subscriber.RunMatchesReference | mqtt-system/sub/sub.py:131-171 | Handling any sequence of messages records exactly the stamped latencies in arrival order. The first is dropped while the warm-up is pending, and those above the ceiling are dropped. The counters grow by their number and their total size, and the flag is cleared once a stamped message has arrived. |
| Subscriber.RunPreservesInvariants | mqtt-system/sub/sub.py:150-160 | Over any sequence of messages the counters stay consistent, the series only grows at its end, and the warm-up flag never comes back. |
| Subscriber.FirstStampedNeverRecorded | mqtt-system/sub/sub.py:150-152 | From the initial state, everything before and including the first stamped message leaves only the cleared flag behind. That message contributes no entry. |
| Subscriber.AllStampedWithinCeiling | mqtt-system/sub/sub.py:148-160 | If all n messages are stamped and within the ceiling, exactly n - 1 latencies are recorded: those of messages 2 to n, in order. |
| Subscriber.StampedAll | mqtt-system/sub/sub.py:140-148 | When every message carries a usable timestamp, each message yields one latency sample, in arrival order. |
| Subscriber.WithinCeilingKeepsAll | mqtt-system/sub/sub.py:154-156 | The ceiling filter drops nothing when every latency is at most 10000 ms. |
| CsvRows.SaveRows | mqtt-system/sub/sub.py:60-73 | Nothing is written exactly when both series are empty. Otherwise the header comes first, then max(len(latencies), len(queue_samples)) rows. Row i is numbered i + 1. Its latency cell is present iff i < len(latencies) and then holds that latency to three decimals. Its queue cell is present iff i < len(queue_samples) and then holds that sample. |
| CsvRows.MergeUnique | mqtt-system/sub/sub.py:69-73 | The row description determines the rows completely. |
| CsvRows.NoBlankRow | mqtt-system/sub/sub.py:69-73 | Every row has at least one filled cell. |
| CsvRows.ColumnsRecovered | mqtt-system/sub/sub.py:69-73 | Reading the table column by column gives back the rounded latency series and the backlog series. |
| Link.SameTopic | mqtt-system/sub/sub.py:41 | The subscriber's topic is the publisher's topic for the same data type (mqtt-system/pub/pub.py:36). |
| Link.PublishedIsStamped | mqtt-system/sub/sub.py:134-146 | A delivered publisher payload is never dropped as blank, malformed or lacking a timestamp. It is admitted with its send time. |
| Link.PublishedRun | mqtt-system/sub/sub.py:142-160 | Receiving n published payloads, each within 10 s of sending, records n - 1 latencies: the delays of payloads 2 to n, in milliseconds. |

## Left out

- MQTT transport (paho): connecting, subscribing, the network loop, `publish`, `wait_for_publish` and `is_published`. The broker address and port are left out too. These are calls into a client library. The model starts where a message has been delivered.
- The backlog sampler thread (`queue_sampler`), its `running` flag and the join at shutdown. This is concurrency, and the count comes from a private attribute of the client library. The backlog series reaches the model only as the input of `CsvRows.SaveRows`.
- Statistics and plots: `save_plot` and `save_queue_average` use numpy mean, scipy standard error, Student-t intervals and matplotlib. These are floating point and library code. `Subscriber.QueueFilename` gives only the name of the averages file.
- File I/O: writing the CSV, the header, `log_to_file`, and the append to the averages file. Printing is left out too. `Subscriber.Classify` returns which branch the handler took instead of the line it logs.
- The publisher's timing loop: the 300-second duration, `time.time()` and `time.sleep(interval)`. This is wall-clock behaviour. Only the interval value is modelled.
- Publisher.SendInterval: gives the pause, not the real send period. The loop waits in `wait_for_publish()` before it sleeps (mqtt-system/pub/pub.py:79-87). So the real period is the pause plus the time the publish takes to be confirmed, which at QoS 1 or 2 is at least one round trip over the link. That time depends on the network and is not modelled.
- `mqtt-system/sub/plot_csv.py` (reads tables back, statistics, plots) and `scratch/mqtt-ns3.cc` (simulator setup) are not part of this model. The file name plot_csv.py looks for (`latency_<type>_QoS<q>_BW<bw>.csv`) differs from the `latency_queue_...` name the subscriber writes.
- JSON text: `json.dumps` and `json.loads` are not modelled. `Link.IsDelivery` assumes that decoding what the publisher encoded gives the same object back, and that the text begins with `{`.
- Floating point: latencies, timestamps and drawn values are exact reals. Rounding errors of float arithmetic are not modelled. Neither are the NaN and infinities that `json.loads` accepts; a NaN timestamp would be recorded by the source because `NaN > 10000` is false. An integer timestamp too large for a float, which raises in Python, is treated as a number.
- Text.Upper, Text.Lower: only ASCII letters change case. Python also maps other letters, though none of them to the letters of "BPR" or "ACC".
- Settings.NormalizeBandwidth: accepts only ASCII digits. Python's `isdigit()` also accepts other Unicode digits, such as superscripts, and would keep them as the bandwidth.
- An exception raised after a message has been recorded (by the logging that follows) does not undo the update, in the source or in the model. The logging itself is left out.
