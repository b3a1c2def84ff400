/**
 * From the SNS message to the alarm's facts: decoding with its fallback record,
 * field extraction with defaults, the state's visual classification and the
 * severity read from the alarm description (infra/ecs/lambda/index.py:21-57).
 */
module Alarm {
  import opened Wrappers
  import opened Text
  import opened Json

  /**
   * A decoded alarm message: its keys with scalar values, and the `Trigger`
   * object when that key is present (a Trigger that is not an object is not modelled).
   */
  datatype Message = Message(fields: map<string, Value>, trigger: Option<map<string, Value>>)

  /** The record used when the SNS message text does not decode as JSON. */
  function Fallback(raw: string): (m: Message)
    ensures "AlarmName" in m.fields && m.fields["AlarmName"] == Str("Unknown")
    ensures "NewStateValue" in m.fields && m.fields["NewStateValue"] == Str("UNKNOWN")
    ensures "NewStateReason" in m.fields && m.fields["NewStateReason"] == Str(raw)
    ensures "StateChangeTime" !in m.fields && "Region" !in m.fields && "AlarmDescription" !in m.fields
    ensures m.trigger.None?
  {
    Message(map["AlarmName" := Str("Unknown"),
                "NewStateValue" := Str("UNKNOWN"),
                "NewStateReason" := Str(raw)], None)
  }

  /**
   * The message the handler works on: `decoded` is what `json.loads(raw)`
   * returned, or None when it raised.
   */
  function Decode(raw: string, decoded: Option<Message>): (m: Message)
    ensures decoded.Some? ==> m == decoded.value
    ensures decoded.None? ==> "NewStateReason" in m.fields && m.fields["NewStateReason"] == Str(raw) && m.trigger.None?
  {
    match decoded
    case Some(m) => m
    case None => Fallback(raw)
  }

  const DefaultName: Value := Str("Unknown Alarm")
  const DefaultState: Value := Str("UNKNOWN")
  const DefaultReason: Value := Str("No reason provided")
  const DefaultRegion: Value := Str("us-east-2")

  /** The five alarm facts the card shows. */
  datatype AlarmInfo = AlarmInfo(name: Value, state: Value, reason: Value, time: Value, region: Value)

  /** Reads the alarm facts, substituting a default for each missing key; `nowIso` is the current UTC time in ISO form. */
  function Extract(m: Message, nowIso: string): (a: AlarmInfo)
    ensures if "AlarmName" in m.fields then a.name == m.fields["AlarmName"] else a.name == Str("Unknown Alarm")
    ensures if "NewStateValue" in m.fields then a.state == m.fields["NewStateValue"] else a.state == Str("UNKNOWN")
    ensures if "NewStateReason" in m.fields then a.reason == m.fields["NewStateReason"] else a.reason == Str("No reason provided")
    ensures if "StateChangeTime" in m.fields then a.time == m.fields["StateChangeTime"] else a.time == Str(nowIso)
    ensures if "Region" in m.fields then a.region == m.fields["Region"] else a.region == Str("us-east-2")
  {
    AlarmInfo(Get(m.fields, "AlarmName", DefaultName),
              Get(m.fields, "NewStateValue", DefaultState),
              Get(m.fields, "NewStateReason", DefaultReason),
              Get(m.fields, "StateChangeTime", Str(nowIso)),
              Get(m.fields, "Region", DefaultRegion))
  }

  /** The message that carries exactly the given facts under their keys. */
  function Encode(a: AlarmInfo): Message {
    Message(map["AlarmName" := a.name,
                "NewStateValue" := a.state,
                "NewStateReason" := a.reason,
                "StateChangeTime" := a.time,
                "Region" := a.region], None)
  }

  /** Extraction reads back every fact that is present, whatever the clock says. */
  lemma ExtractEncode(a: AlarmInfo, nowIso: string)
    ensures Extract(Encode(a), nowIso) == a
  {
  }

  /** The undecodable message becomes "Unknown" / "UNKNOWN" with the raw text as reason. */
  lemma FallbackFacts(raw: string, nowIso: string)
    ensures Extract(Decode(raw, None), nowIso)
         == AlarmInfo(Str("Unknown"), Str("UNKNOWN"), Str(raw), Str(nowIso), Str("us-east-2"))
  {
  }

  const Red := "#ff0000"
  const Green := "#36a64f"
  const Yellow := "#ffcc00"
  /** U+1F6A8 POLICE CARS REVOLVING LIGHT */
  const Siren := "\U{1F6A8}"
  /** U+2705 WHITE HEAVY CHECK MARK */
  const CheckMark := "\U{2705}"
  /** U+26A0 WARNING SIGN followed by U+FE0F VARIATION SELECTOR-16 */
  const WarningSign := "\U{26A0}\U{FE0F}"

  /** How a state is shown: the attachment colour, the title emoji and the status text. */
  datatype Style = Style(color: string, emoji: string, status: Value)

  /** The visual classification of a state; every value gets one. */
  function Classify(state: Value): (st: Style)
    ensures st.color == Red <==> state == Str("ALARM")
    ensures st.color == Green <==> state == Str("OK")
    ensures st.color == Yellow <==> state != Str("ALARM") && state != Str("OK")
    ensures st.color == Red ==> st.emoji == Siren && st.status == Str("ALARM")
    ensures st.color == Green ==> st.emoji == CheckMark && st.status == Str("RESOLVED")
    ensures st.color == Yellow ==> st.emoji == WarningSign && st.status == state
  {
    if state == Str("ALARM") then Style(Red, Siren, Str("ALARM"))
    else if state == Str("OK") then Style(Green, CheckMark, Str("RESOLVED"))
    else Style(Yellow, WarningSign, state)
  }

  /** Recovers the state from its style. */
  function StateOf(st: Style): Value {
    if st.color == Red then Str("ALARM")
    else if st.color == Green then Str("OK")
    else st.status
  }

  /** No two states look alike: colour and status text together determine the state. */
  lemma ClassifyInjective(state: Value)
    ensures StateOf(Classify(state)) == state
  {
  }

  const CriticalMarker := Siren + " CRITICAL"
  const WarningMarker := WarningSign + " WARNING"

  /** The severity levels, ordered by urgency. */
  datatype Level = Info | Warning | Critical {
    function Name(): string {
      match this
      case Info => "INFO"
      case Warning => "WARNING"
      case Critical => "CRITICAL"
    }

    function Rank(): nat {
      match this
      case Info => 0
      case Warning => 1
      case Critical => 2
    }
  }

  /**
   * The marker search over a description string, checking the critical marker first:
   * CRITICAL when it occurs, WARNING when only the warning marker occurs, INFO otherwise.
   */
  function Scan(description: string): (l: Level)
    ensures l == Critical <==> exists i :: OccursAt(description, CriticalMarker, i)
    ensures l == Warning <==>
      (!exists i :: OccursAt(description, CriticalMarker, i)) && exists i :: OccursAt(description, WarningMarker, i)
    ensures l == Info <==>
      (!exists i :: OccursAt(description, CriticalMarker, i)) && !exists i :: OccursAt(description, WarningMarker, i)
  {
    ContainsIffOccurs(description, CriticalMarker);
    ContainsIffOccurs(description, WarningMarker);
    if Contains(description, CriticalMarker) then Critical
    else if Contains(description, WarningMarker) then Warning
    else Info
  }

  /** `message.get('AlarmDescription', '')`: the default applies only when the key is missing. */
  function Description(m: Message): (d: Value)
    ensures "AlarmDescription" !in m.fields ==> d == Str("")
    ensures "AlarmDescription" in m.fields ==> d == m.fields["AlarmDescription"]
  {
    Get(m.fields, "AlarmDescription", Str(""))
  }

  /**
   * Severity as the source computes it: `marker in message.get('AlarmDescription', '')`
   * raises a TypeError when the description is present but not a string (JSON null).
   */
  function SeverityAsWritten(description: Value): (r: Result<Level, string>)
    ensures r.Success? <==> description.Str?
    ensures r.Failure? ==> r.error == "argument of type '" + TypeName(description) + "' is not iterable"
  {
    match description
    case Str(d) => Success(Scan(d))
    case _ => Failure("argument of type '" + TypeName(description) + "' is not iterable")
  }

  /** A null description, which CloudWatch sends for an alarm without one, aborts the handler. */
  lemma NullDescriptionRaises()
    ensures SeverityAsWritten(Null) == Failure("argument of type 'NoneType' is not iterable")
  {
    assert "argument of type '" + "NoneType" + "' is not iterable" == "argument of type 'NoneType' is not iterable";
  }

  /** Severity as intended: a description that is not a string carries no marker. */
  function SeverityOf(description: Value): (l: Level)
    ensures description.Str? ==> l == Scan(description.s)
    ensures !description.Str? ==> l == Info
  {
    Scan(if description.Str? then description.s else "")
  }

  /** The corrected severity is what the source computes wherever the source does not raise. */
  lemma SeverityOfAgrees(description: Value)
    ensures SeverityAsWritten(description).Success? ==> SeverityAsWritten(description).value == SeverityOf(description)
  {
  }

  /** A missing description counts as "" and yields INFO. */
  lemma MissingDescriptionIsInfo(m: Message)
    requires "AlarmDescription" !in m.fields
    ensures SeverityOf(Description(m)) == Info
  {
  }

  /** Adding text around a description never lowers its severity. */
  lemma SeverityMonotone(t: string, d: string, u: string)
    ensures Scan(d).Rank() <= Scan(t + d + u).Rank()
  {
    if Contains(d, CriticalMarker) {
      ContainsInContext(t, d, u, CriticalMarker);
    } else if Contains(d, WarningMarker) {
      ContainsInContext(t, d, u, WarningMarker);
    }
  }
}
