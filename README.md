# CloudWatch alarm to Slack notifier — a Dafny model

This project models the AWS Lambda handler in `infra/ecs/lambda/index.py`. The handler
receives an SNS record carrying a CloudWatch alarm state change. It turns the alarm
into one Slack attachment and posts it to an incoming webhook.

The model follows the handler step by step:

- `Alarm.Decode` is the message decoding with its fallback record.
- `Alarm.Extract` reads the alarm fields and substitutes a default for each missing one.
- `Alarm.Classify` maps the state to a colour, an emoji and a status text.
- `Alarm.Scan` and `Alarm.SeverityOf` find the severity markers in the description.
- `Slack.Card` builds the attachment: strings, the four-field grid and the optional Metric field.
- `Slack.AppendMetric` is the in-place `append` of the Metric field, written as a method.
- `Handler.Handle` is the entry point: skip, build, post, and report 200 or 500, or let the severity TypeError escape.

Python's behaviour on decoded JSON scalars lives in module `Json`: `str()`, truthiness
and `dict.get`. Substring search and integer rendering live in module `Text`. Each of
them is proved against an independent definition: an occurrence index for `in`, and
reading the numeral back for `str(int)`.

Parameters stand in for the outside world:

- the `SLACK_WEBHOOK_URL` lookup is `webhook: Option<string>`;
- the result of `json.loads` is `decoded: Option<Message>`, where `None` means decoding raised, beside the raw text `raw`;
- the two `datetime.utcnow()` readings are `nowIso` (ISO text) and `nowEpoch` (whole seconds);
- what the HTTP POST does is `delivery`: it returned with some status, or it raised with a text.

The handler returns the POST it issues, so "no send is attempted" is stated as `request == None`.
Its outcome is `Success` of the returned response, or `Failure` with the text of an exception
that leaves the handler uncaught.

Python truthiness applies to the Trigger's values, so a threshold of `0` or an empty metric name
suppresses the Metric field (`Slack.FalsyTriggerAddsNothing`).

A present `AlarmDescription` that is not a string (JSON `null`, a number, a boolean) makes the
severity test at line 54 raise a TypeError outside any `try`. `Handler.Handle` models this as
written: no POST and a `Failure` outcome. `Slack.Card` specifies the attachment with the corrected
severity `Alarm.SeverityOf`, which equals the as-written one wherever the source does not raise
(see Findings).

## Model

| member | source | states |
|---|---|---|
| `Alarm.Fallback` | infra/ecs/lambda/index.py:26-30 | the fallback record has AlarmName "Unknown", NewStateValue "UNKNOWN", the raw text as NewStateReason, no StateChangeTime, Region or AlarmDescription, and no Trigger |
| `Alarm.Decode` | infra/ecs/lambda/index.py:22-30 | a decoded message is used as it is; an undecodable one becomes a record whose reason is the raw text, without a Trigger |
| `Alarm.FallbackFacts` | infra/ecs/lambda/index.py:22-36 | an undecodable message yields name "Unknown", state "UNKNOWN", the raw text as reason, and the defaults for time and region |
| `Alarm.Extract` | infra/ecs/lambda/index.py:32-36 | each of AlarmName, NewStateValue, NewStateReason, StateChangeTime and Region is passed through when present; otherwise it becomes "Unknown Alarm", "UNKNOWN", "No reason provided", the current time or "us-east-2" |
| `Alarm.ExtractEncode` | infra/ecs/lambda/index.py:32-36 | extraction reads back every fact of a message that carries all five keys, whatever the clock says |
| `Alarm.Classify` | infra/ecs/lambda/index.py:39-50 | the colour is red iff the state is "ALARM", green iff "OK", and yellow otherwise; red goes with the siren emoji and "ALARM", green with the check mark and "RESOLVED", yellow with the warning sign and the state itself |
| `Alarm.ClassifyInjective` | infra/ecs/lambda/index.py:39-50 | colour and status text together determine the state: distinct states never look alike |
| `Alarm.Description` | infra/ecs/lambda/index.py:54 | the description is "" when the key is missing and the message's value, of whatever type, when it is present |
| `Alarm.Scan` | infra/ecs/lambda/index.py:53-57 | the severity of a description string is CRITICAL iff the critical marker occurs in it; WARNING iff the warning marker occurs and the critical one does not; INFO iff neither occurs |
| `Alarm.SeverityAsWritten` | infra/ecs/lambda/index.py:53-57 | the severity test succeeds exactly on a string description; on any other value it fails with "argument of type '<type>' is not iterable" |
| `Alarm.NullDescriptionRaises` | infra/ecs/lambda/index.py:54 | as written, a null description makes the containment test raise "argument of type 'NoneType' is not iterable" |
| `Alarm.SeverityOf` | infra/ecs/lambda/index.py:53-57 | the corrected severity is the marker search on a string description and INFO on any other value |
| `Alarm.SeverityOfAgrees` | infra/ecs/lambda/index.py:53-57 | wherever the as-written severity succeeds, it equals the corrected severity |
| `Alarm.MissingDescriptionIsInfo` | infra/ecs/lambda/index.py:53-54 | a message without AlarmDescription has severity INFO |
| `Alarm.SeverityMonotone` | infra/ecs/lambda/index.py:53-57 | putting text before or after a description never lowers its severity |
| `Text.Contains` | infra/ecs/lambda/index.py:54-56 | Python's `pat in s` always finds the empty pattern, never finds a pattern longer than `s`, and finds a pattern that starts `s` |
| `Text.ContainsIffOccurs` | infra/ecs/lambda/index.py:54-56 | Python's `pat in s` holds iff `pat` occurs in `s` at some index |
| `Text.ContainsInContext` | infra/ecs/lambda/index.py:54-56 | a substring found in `s` is still found in any string that contains `s` |
| `Text.NatToDecimal` | infra/ecs/lambda/index.py:104 | `str()` of a natural number is a non-empty string of decimal digits, with no leading zero unless it is "0", that denotes the number |
| `Text.NoLeadingZeroUnique` | infra/ecs/lambda/index.py:104 | two digit strings without a leading zero that denote the same number are the same string |
| `Text.IntToDecimal` | infra/ecs/lambda/index.py:104 | `str()` of an integer is canonical (digits without a leading zero, after '-' exactly when negative, never "-0") and reads back as that integer |
| `Text.CanonicalNumeralUnique` | infra/ecs/lambda/index.py:104 | an integer has exactly one canonical numeral, so the text `str()` writes is determined by the integer |
| `Json.ToStr` | infra/ecs/lambda/index.py:63-65 | the f-strings insert a string as it is, an integer as its canonical numeral, which reads back as it, a boolean as "True" or "False" and null as "None" |
| `Json.Get` | infra/ecs/lambda/index.py:32-36 | `dict.get` reads the key's value when the key is present and the default when it is missing |
| `Json.TypeName` | infra/ecs/lambda/index.py:54 | the type named in the TypeError is "str", "int", "bool" or "NoneType", each exactly for its kind of value |
| `Json.Truthy` | infra/ecs/lambda/index.py:101 | the falsy JSON scalars are exactly "", 0, false and null |
| `Slack.ConsoleLinkRoundTrip` | infra/ecs/lambda/index.py:65 | the console link holds the region and the alarm name in their fixed places; both read back when the region contains no '#' |
| `Slack.Grid` | infra/ecs/lambda/index.py:67-88 | the grid is exactly four short fields: Status with the status text, Severity with the severity name, Region and Time with their values |
| `Slack.BaseCard` | infra/ecs/lambda/index.py:60-93 | the attachment before enrichment has exactly four short fields, the state's colour, the reason as text, the fixed footer and footer icon, and the given ts |
| `Slack.CardStrings` | infra/ecs/lambda/index.py:60-91 | the colour is the state's colour; the title (line 64) is emoji + " " + name; the fallback is the title + " is " + status; the link reads back to region and name when the region has no '#'; the text is the reason; footer, footer icon and ts are the fixed values and the given time |
| `Slack.HasMetric` | infra/ecs/lambda/index.py:96-101 | the Metric field is called for only when the Trigger is present and has both a Threshold and a MetricName key (a missing key reads as None, which is falsy) |
| `Slack.MetricField` | infra/ecs/lambda/index.py:102-106 | the Metric field is wide, titled "Metric", and its text is `str()` of the metric name, then ": ", then `str()` of the threshold, whatever their types |
| `Slack.Card` | infra/ecs/lambda/index.py:60-106 | the field list has 4 or 5 entries; the first four are Status, Severity, Region and Time with their values, all short; there is a fifth, wide Metric field iff the Trigger has a truthy Threshold and MetricName |
| `Slack.AppendMetric` | infra/ecs/lambda/index.py:96-106 | the list grows by exactly one entry, the Metric field, when the Trigger calls for it, and not at all otherwise; the existing entries are unchanged |
| `Slack.MetricOnlyAppends` | infra/ecs/lambda/index.py:96-106 | the Trigger changes nothing in the attachment but the entry it appends to the fields |
| `Slack.FalsyTriggerAddsNothing` | infra/ecs/lambda/index.py:101 | a threshold of 0 or an empty metric name leaves exactly four fields |
| `Slack.MetricFieldText` | infra/ecs/lambda/index.py:102-106 | with a string metric name and an integer threshold, the Metric text is "<name>: " followed by the canonical numeral of the threshold, which reads back as it |
| `Slack.FallbackCard` | infra/ecs/lambda/index.py:22-88 | an undecodable message gives a yellow card titled "⚠️ Unknown", status UNKNOWN, severity INFO, region us-east-2, the raw text as text, and four fields |
| `Slack.HighCpuExample` | infra/ecs/lambda/index.py:32-93 | the HighCPU ALARM message with a critical description gives a red card titled "🚨 HighCPU" with status ALARM, severity CRITICAL, region us-west-2 and no Metric field |
| `Handler.Configured` | infra/ecs/lambda/index.py:12-14 | the handler goes on only when the webhook variable is set and truthy, that is, present and not empty |
| `Handler.Handle` | infra/ecs/lambda/index.py:8-128 | with no or an empty webhook URL: 200, "Slack webhook not configured", and no POST; with a present description that is not a string: the TypeError leaves the handler and there is no POST; otherwise exactly one POST of the attachment to the URL, then 200 whatever the remote status, or 500 with "Error: " and the error text when the POST raised |

## Left out

- The HTTP POST through urllib3 (lines 6 and 111-116) is network I/O; it is the `delivery` parameter.
- The `os.environ` read (line 12) is the `webhook` parameter.
- The JSON grammar of `json.loads` and `json.dumps` is not modelled. The decoded message is a parameter. The attachment is a datatype rather than serialised text. A response body that the source passes through `json.dumps` is marked `JsonString(text)` without spelling out the quoting.
- The clock (lines 35 and 91) is the `nowIso` and `nowEpoch` parameters; the float-to-int truncation of the timestamp happens before the model sees it.
- The `print` logging (lines 15, 118 and 124) is not modelled.
- Only JSON integer literals are modelled. Any number with a fraction or an exponent, `80.0` included, decodes to a Python float, whose `str()` (`"80.0"`) is not modelled.
- Values other than scalars (lists, nested objects) are not modelled under the keys the handler reads. The exception is `Trigger`, which is assumed to be an object.
- The other crashes outside any `try` are not modelled: an event without `Records` (the fallback re-reads it at line 29), a decoded message that is not an object, and a `Trigger` that is not an object (lines 97-99).
- `raw` and `decoded` are independent parameters; the model does not check that `decoded` is what `json.loads(raw)` would give.

## Findings

| source | as written | input that shows it | evidently intended | confidence | as-written member | corrected member |
|---|---|---|---|---|---|---|
| infra/ecs/lambda/index.py:54 | `'🚨 CRITICAL' in message.get('AlarmDescription', '')` raises TypeError when the key is present with value null, outside any `try`, so no notification is sent | a message with `"AlarmDescription": null`, which CloudWatch sends for an alarm that has no description | a null description carries no marker, so the severity is INFO and the card is sent | not executed | `Alarm.NullDescriptionRaises` | `Alarm.SeverityOf`, `Alarm.SeverityOfAgrees` |
