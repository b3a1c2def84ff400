/**
 * The Lambda entry point: skip when no webhook is configured, otherwise build
 * the attachment, hand it to the transport and report the outcome
 * (infra/ecs/lambda/index.py:8-128). The environment lookup, the JSON decoder,
 * the clock and the HTTP POST are parameters.
 */
module Handler {
  import opened Wrappers
  import opened Json
  import opened Alarm
  import opened Slack

  /** What the POST did: it returned (with whatever HTTP status), or it raised with the text `str(e)`. */
  datatype Delivery = Delivered(status: int) | Raised(error: string)

  /** A response body: plain text, or the JSON encoding of a string (`json.dumps(text)`, not spelled out). */
  datatype Body = Plain(text: string) | JsonString(text: string)

  /** The handler's return value: `{'statusCode': ..., 'body': ...}`. */
  datatype Response = Response(statusCode: int, body: Body)

  /** The POST handed to the transport: the webhook URL and the payload it carries. */
  datatype Request = Request(url: string, message: SlackMessage)

  const NotConfigured := "Slack webhook not configured"
  const Sent := "Notification sent to Slack"

  /** `not slack_webhook_url` is false: the variable is set and its value is truthy. */
  predicate Configured(webhook: Option<string>)
    ensures Configured(webhook) <==> webhook.Some? && Truthy(Str(webhook.value))
  {
    webhook.Some? && webhook.value != ""
  }

  /**
   * One invocation. `webhook` is the environment variable, `raw` the SNS message text,
   * `decoded` the result of decoding it (None when decoding raised), `nowIso` and
   * `nowEpoch` the two clock readings, `delivery` what the POST does. `request` is the
   * POST the handler issues, None when it issues none. The outcome is the returned
   * response, or Failure with the text of an exception that leaves the handler: the
   * severity test raises a TypeError, outside any `try`, when AlarmDescription is
   * present but not a string.
   */
  method Handle(webhook: Option<string>, raw: string, decoded: Option<Message>,
                nowIso: string, nowEpoch: int, delivery: Delivery)
    returns (outcome: Result<Response, string>, request: Option<Request>)
    ensures var m := Decode(raw, decoded);
      request.None? <==> !Configured(webhook) || !Description(m).Str?
    ensures !Configured(webhook) ==> outcome == Success(Response(200, Plain(NotConfigured)))
    ensures var m := Decode(raw, decoded);
      outcome.Failure? <==> Configured(webhook) && !Description(m).Str?
    ensures var m := Decode(raw, decoded);
      Configured(webhook) && !Description(m).Str? ==>
        outcome == Failure("argument of type '" + TypeName(Description(m)) + "' is not iterable")
    ensures var m := Decode(raw, decoded);
      Configured(webhook) && Description(m).Str? ==>
        && request == Some(Request(webhook.value, SlackMessage([Card(m, nowIso, nowEpoch)])))
        && outcome == (match delivery
                       case Delivered(_) => Success(Response(200, JsonString(Sent)))
                       case Raised(e) => Success(Response(500, JsonString("Error: " + e))))
  {
    if webhook.None? || webhook.value == "" {
      return Success(Response(200, Plain(NotConfigured))), None;
    }
    var url := webhook.value;

    var message := Decode(raw, decoded);
    var scanned := SeverityAsWritten(Description(message));
    if scanned.Failure? {
      return Failure(scanned.error), None;
    }
    SeverityOfAgrees(Description(message));

    var attachment := BaseCard(message, nowIso, nowEpoch);
    var fields := AppendMetric(attachment.fields, message.trigger);
    assert fields == if HasMetric(message.trigger) then attachment.fields + [MetricField(message.trigger.value)]
                     else attachment.fields;
    attachment := attachment.(fields := fields);

    request := Some(Request(url, SlackMessage([attachment])));
    match delivery
    case Delivered(_) =>
      outcome := Success(Response(200, JsonString(Sent)));
    case Raised(e) =>
      outcome := Success(Response(500, JsonString("Error: " + e)));
  }
}
