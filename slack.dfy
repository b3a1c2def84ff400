/**
 * The Slack attachment built for one alarm: colour, strings, the four-field
 * grid and the optional Metric field (infra/ecs/lambda/index.py:59-106).
 */
module Slack {
  import opened Wrappers
  import opened Text
  import opened Json
  import opened Alarm

  /** One entry of the attachment's `fields` list. */
  datatype Field = Field(title: string, value: Value, short: bool)

  /** One Slack attachment; `text` and the field values are JSON values as the source passes them. */
  datatype Attachment = Attachment(
    color: string,
    fallback: string,
    title: string,
    titleLink: string,
    text: Value,
    fields: seq<Field>,
    footer: string,
    footerIcon: string,
    ts: int)

  /** The posted payload: `{"attachments": [...]}`. */
  datatype SlackMessage = SlackMessage(attachments: seq<Attachment>)

  const Footer := "AWS CloudWatch"
  const FooterIcon := "https://a0.awsstatic.com/libra-css/images/logos/aws_logo_smile_1200x630.png"
  const LinkPrefix := "https://console.aws.amazon.com/cloudwatch/home?region="
  const LinkAnchor := "#alarmsV2:alarm/"

  /** The CloudWatch console page of the alarm `name` in `region` (see `ConsoleLinkRoundTrip`). */
  function ConsoleLink(region: string, name: string): string {
    LinkPrefix + region + LinkAnchor + name
  }

  /** Reads region and alarm name back out of a console link. */
  function ParseConsoleLink(link: string): Option<(string, string)> {
    if |link| < |LinkPrefix| || link[..|LinkPrefix|] != LinkPrefix then None
    else
      var rest := link[|LinkPrefix|..];
      var k := IndexOf(rest, '#');
      var tail := rest[k..];
      if |tail| < |LinkAnchor| || tail[..|LinkAnchor|] != LinkAnchor then None
      else Some((rest[..k], tail[|LinkAnchor|..]))
  }

  /** The link carries region and name in their places: both read back when the region has no '#'. */
  lemma {:induction false} ConsoleLinkRoundTrip(region: string, name: string)
    requires '#' !in region
    ensures ParseConsoleLink(ConsoleLink(region, name)) == Some((region, name))
  {
    var link := ConsoleLink(region, name);
    assert link[..|LinkPrefix|] == LinkPrefix;
    var rest := link[|LinkPrefix|..];
    assert rest == region + LinkAnchor + name;
    assert rest[|region|] == '#';
    var k := IndexOf(rest, '#');
    assert k == |region|;
    assert rest[..k] == region;
    assert rest[k..] == LinkAnchor + name;
  }

  /** The Status, Severity, Region and Time fields, all short. */
  function Grid(status: Value, severity: Level, region: Value, time: Value): (g: seq<Field>)
    ensures |g| == 4 && forall i :: 0 <= i < 4 ==> g[i].short
    ensures g[0].title == "Status" && g[0].value == status
    ensures g[1].title == "Severity" && g[1].value == Str(severity.Name())
    ensures g[2].title == "Region" && g[2].value == region
    ensures g[3].title == "Time" && g[3].value == time
  {
    [Field("Status", status, true),
     Field("Severity", Str(severity.Name()), true),
     Field("Region", region, true),
     Field("Time", time, true)]
  }

  /** The attachment before the Metric enrichment; `nowEpoch` is the current Unix time in whole seconds. */
  function BaseCard(m: Message, nowIso: string, nowEpoch: int): (c: Attachment)
    ensures |c.fields| == 4 && forall i :: 0 <= i < 4 ==> c.fields[i].short
    ensures c.color == Classify(Extract(m, nowIso).state).color
    ensures c.text == Extract(m, nowIso).reason
    ensures c.footer == Footer && c.footerIcon == FooterIcon && c.ts == nowEpoch
  {
    var info := Extract(m, nowIso);
    var style := Classify(info.state);
    var severity := SeverityOf(Description(m));
    var title := style.emoji + " " + ToStr(info.name);
    Attachment(style.color,
               title + " is " + ToStr(style.status),
               title,
               ConsoleLink(ToStr(info.region), ToStr(info.name)),
               info.reason,
               Grid(style.status, severity, info.region, info.time),
               Footer,
               FooterIcon,
               nowEpoch)
  }

  /**
   * `'Trigger' in message` and both `trigger.get('Threshold')` and `trigger.get('MetricName')`
   * are truthy; a missing key reads as None, which is falsy.
   */
  predicate HasMetric(trigger: Option<map<string, Value>>)
    ensures HasMetric(trigger) ==>
      trigger.Some? && "Threshold" in trigger.value && "MetricName" in trigger.value
  {
    trigger.Some?
    && Truthy(Get(trigger.value, "Threshold", Null))
    && Truthy(Get(trigger.value, "MetricName", Null))
  }

  /** The wide field `"<metric>: <threshold>"`. */
  function MetricField(t: map<string, Value>): (f: Field)
    ensures f.title == "Metric" && !f.short && f.value.Str?
    ensures var name := ToStr(Get(t, "MetricName", Null));
      && |f.value.s| >= |name| + 2 && f.value.s[..|name| + 2] == name + ": "
      && f.value.s[|name| + 2..] == ToStr(Get(t, "Threshold", Null))
  {
    Field("Metric", Str(ToStr(Get(t, "MetricName", Null)) + ": " + ToStr(Get(t, "Threshold", Null))), false)
  }

  /**
   * The whole attachment the handler posts for message `m`. Its field list is the fixed
   * four-field grid, in order and all short, followed by the wide Metric field exactly
   * when the Trigger calls for it; nothing else depends on the Trigger.
   */
  function Card(m: Message, nowIso: string, nowEpoch: int): (c: Attachment)
    ensures var info := Extract(m, nowIso);
      && (|c.fields| == 4 || |c.fields| == 5)
      && (|c.fields| == 5 <==> HasMetric(m.trigger))
      && c.fields[0] == Field("Status", Classify(info.state).status, true)
      && c.fields[1] == Field("Severity", Str(SeverityOf(Description(m)).Name()), true)
      && c.fields[2] == Field("Region", info.region, true)
      && c.fields[3] == Field("Time", info.time, true)
      && (|c.fields| == 5 ==> c.fields[4] == MetricField(m.trigger.value) && !c.fields[4].short)
  {
    var base := BaseCard(m, nowIso, nowEpoch);
    var info := Extract(m, nowIso);
    assert base.fields == Grid(Classify(info.state).status, SeverityOf(Description(m)), info.region, info.time);
    if HasMetric(m.trigger) then base.(fields := base.fields + [MetricField(m.trigger.value)]) else base
  }

  /** The enrichment step: appends the Metric field to `fields` when the Trigger calls for it. */
  method AppendMetric(fields: seq<Field>, trigger: Option<map<string, Value>>) returns (out: seq<Field>)
    ensures |out| == |fields| + (if HasMetric(trigger) then 1 else 0)
    ensures out[..|fields|] == fields
    ensures HasMetric(trigger) ==> out[|fields|] == MetricField(trigger.value)
  {
    out := fields;
    if trigger.Some? {
      var t := trigger.value;
      var threshold := Get(t, "Threshold", Null);
      var metricName := Get(t, "MetricName", Null);
      if Truthy(threshold) && Truthy(metricName) {
        out := out + [Field("Metric", Str(ToStr(metricName) + ": " + ToStr(threshold)), false)];
      }
    }
  }

  /** The Metric field changes nothing but the field list, and only by one entry at its end. */
  lemma MetricOnlyAppends(m: Message, nowIso: string, nowEpoch: int)
    ensures var c := Card(m, nowIso, nowEpoch);
      c.(fields := c.fields[..4]) == Card(m.(trigger := None), nowIso, nowEpoch)
  {
  }

  /** A Trigger with a zero threshold or an empty metric name adds no field. */
  lemma FalsyTriggerAddsNothing(m: Message, nowIso: string, nowEpoch: int)
    requires m.trigger.Some?
    requires Get(m.trigger.value, "Threshold", Null) == Int(0)
          || Get(m.trigger.value, "MetricName", Null) == Str("")
    ensures |Card(m, nowIso, nowEpoch).fields| == 4
  {
  }

  /**
   * The title is the emoji and the alarm name, the fallback extends it with the status,
   * the text is the reason and the link holds region and name in their places.
   */
  lemma CardStrings(m: Message, nowIso: string, nowEpoch: int)
    ensures var c := Card(m, nowIso, nowEpoch);
      var info := Extract(m, nowIso);
      var style := Classify(info.state);
      && c.color == style.color
      && c.title == style.emoji + " " + ToStr(info.name)
      && c.fallback == c.title + " is " + ToStr(style.status)
      && ('#' !in ToStr(info.region) ==>
            ParseConsoleLink(c.titleLink) == Some((ToStr(info.region), ToStr(info.name))))
      && c.text == info.reason
      && c.footer == "AWS CloudWatch"
      && c.footerIcon == "https://a0.awsstatic.com/libra-css/images/logos/aws_logo_smile_1200x630.png"
      && c.ts == nowEpoch
  {
    var info := Extract(m, nowIso);
    if '#' !in ToStr(info.region) {
      ConsoleLinkRoundTrip(ToStr(info.region), ToStr(info.name));
    }
  }

  /** An undecodable message gives a yellow UNKNOWN card of severity INFO that shows the raw text. */
  lemma FallbackCard(raw: string, nowIso: string, nowEpoch: int)
    ensures var c := Card(Decode(raw, None), nowIso, nowEpoch);
      && c.color == "#ffcc00"
      && c.title == "\U{26A0}\U{FE0F} Unknown"
      && c.fallback == "\U{26A0}\U{FE0F} Unknown is UNKNOWN"
      && c.text == Str(raw)
      && c.fields == [Field("Status", Str("UNKNOWN"), true),
                      Field("Severity", Str("INFO"), true),
                      Field("Region", Str("us-east-2"), true),
                      Field("Time", Str(nowIso), true)]
  {
    var m := Decode(raw, None);
    FallbackFacts(raw, nowIso);
    var info := Extract(m, nowIso);
    assert "AlarmDescription" !in m.fields && m.trigger.None?;
    assert SeverityOf(Description(m)) == Info by {
      assert !Contains("", CriticalMarker) && !Contains("", WarningMarker);
    }
    assert Classify(info.state) == Style(Yellow, WarningSign, Str("UNKNOWN"));
  }

  /**
   * With a string metric name and an integer threshold, the Metric text is "<name>: " followed
   * by the canonical numeral of the threshold, the one text `str()` writes for it.
   */
  lemma MetricFieldText(t: map<string, Value>, name: string, n: int)
    requires Get(t, "MetricName", Null) == Str(name)
    requires Get(t, "Threshold", Null) == Int(n)
    ensures var v := MetricField(t).value.s;
      && v[..|name| + 2] == name + ": "
      && CanonicalNumeral(v[|name| + 2..])
      && DecimalValue(v[|name| + 2..]) == Some(n)
  {
    var v := MetricField(t).value.s;
    assert v == name + ": " + IntToDecimal(n);
    assert v[|name| + 2..] == IntToDecimal(n);
  }

  /** The HighCPU alarm: a red CRITICAL card without a Metric field. */
  lemma HighCpuExample(nowIso: string, nowEpoch: int)
    ensures var m := Message(map["AlarmName" := Str("HighCPU"),
                                 "NewStateValue" := Str("ALARM"),
                                 "NewStateReason" := Str("CPU > 90%"),
                                 "Region" := Str("us-west-2"),
                                 "AlarmDescription" := Str("\U{1F6A8} CRITICAL")], None);
      var c := Card(m, nowIso, nowEpoch);
      && c.color == "#ff0000"
      && c.title == "\U{1F6A8} HighCPU"
      && c.fields == [Field("Status", Str("ALARM"), true),
                      Field("Severity", Str("CRITICAL"), true),
                      Field("Region", Str("us-west-2"), true),
                      Field("Time", Str(nowIso), true)]
  {
    var m := Message(map["AlarmName" := Str("HighCPU"),
                         "NewStateValue" := Str("ALARM"),
                         "NewStateReason" := Str("CPU > 90%"),
                         "Region" := Str("us-west-2"),
                         "AlarmDescription" := Str("\U{1F6A8} CRITICAL")], None);
    var info := Extract(m, nowIso);
    assert info == AlarmInfo(Str("HighCPU"), Str("ALARM"), Str("CPU > 90%"), Str(nowIso), Str("us-west-2"));
    assert SeverityOf(Description(m)) == Critical by {
      assert Contains("\U{1F6A8} CRITICAL", CriticalMarker);
    }
    assert Classify(info.state) == Style(Red, Siren, Str("ALARM"));
  }
}
