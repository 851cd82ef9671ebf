/** The Slack provider: posts a Block Kit message to an incoming webhook. */
module Slack {
  import opened Wrappers
  import opened Types
  import opened Http
  import Text

  const Name := "Slack"
  const ChannelLabel := "Slack"
  const ContextSeparator := " | "

  /** A Block Kit text object: `plain_text` or `mrkdwn`; `emoji` is set on plain text only. */
  datatype TextObject = TextObject(kind: string, text: string, emoji: Option<bool>)

  datatype Block =
    | Header(text: TextObject)
    | Section(text: TextObject)
    | Context(elements: seq<TextObject>)
  {
    /** The block's `type` field. */
    function Kind(): string
    {
      match this
      case Header(_) => "header"
      case Section(_) => "section"
      case Context(_) => "context"
    }
  }

  /** `text` is the fallback shown where blocks are not rendered. */
  datatype Payload = Payload(text: string, blocks: seq<Block>)

  function ContextText(priority: Option<Priority>, timestamp: string): string
  {
    PriorityLine(priority, ContextSeparator, timestamp)
  }

  /** The message payload: header with the title, section with the message, context with the footer. */
  function BuildPayload(m: NotificationMessage, timestamp: string): (p: Payload)
    ensures p.text == m.title
    ensures |p.blocks| == 3
    ensures p.blocks[0] == Header(TextObject("plain_text", m.title, Some(true)))
    ensures p.blocks[1] == Section(TextObject("mrkdwn", m.message, None))
    ensures p.blocks[2] == Context([TextObject("mrkdwn", ContextText(m.priority, timestamp), None)])
  {
    Payload(m.title, [
      Header(TextObject("plain_text", m.title, Some(true))),
      Section(TextObject("mrkdwn", m.message, None)),
      Context([TextObject("mrkdwn", ContextText(m.priority, timestamp), None)])
    ])
  }

  /** What a reader of the Slack message learns: the notification and the timestamp. */
  function ReadPayload(p: Payload): Option<(NotificationMessage, string)>
  {
    if |p.blocks| != 3 || !p.blocks[1].Section? || !p.blocks[2].Context? || |p.blocks[2].elements| != 1 then None
    else
      match ReadPriorityLine(p.blocks[2].elements[0].text, ContextSeparator)
      case None => None
      case Some((priority, timestamp)) =>
        Some((NotificationMessage(p.text, p.blocks[1].text.text, Some(priority)), timestamp))
  }

  /** The message shows the title, the message, the effective priority and the timestamp, all recoverable. */
  lemma ReadBuiltPayload(m: NotificationMessage, timestamp: string)
    ensures ReadPayload(BuildPayload(m, timestamp))
         == Some((m.(priority := Some(EffectivePriority(m.priority))), timestamp))
  {
    ReadPriorityLineRoundTrip(m.priority, ContextSeparator, timestamp);
  }

  /** `fetch(webhookUrl, { method: 'POST', headers: JSON, body: JSON.stringify(payload) })`. */
  function BuildRequest(config: WebhookConfig, m: NotificationMessage, timestamp: string): (r: Request<Payload>)
    ensures r.verb == "POST" && r.url == config.webhookUrl
    ensures r.headers == [("Content-Type", JsonContentType)]
    ensures r.body == BuildPayload(m, timestamp)
    ensures ReadPayload(r.body) == Some((m.(priority := Some(EffectivePriority(m.priority))), timestamp))
  {
    ReadBuiltPayload(m, timestamp);
    Request("POST", config.webhookUrl, [("Content-Type", JsonContentType)], BuildPayload(m, timestamp))
  }

  /** The outcome of a send once the webhook has answered. */
  function SendOutcome(result: FetchResult): (o: Outcome)
    ensures o.Delivered? <==> result.Response? && IsOk(result.status)
    ensures result.Response? && !IsOk(result.status)
        ==> o == Failed(FailureReason(ChannelLabel, result.status, result.text))
    ensures result.Response? && !IsOk(result.status)
        ==> Text.HasPrefix(o.reason, FailurePrefix(ChannelLabel))
            && ReadFailure(ChannelLabel, o.reason) == Some((result.status, result.text))
    ensures result.NetworkError? ==> o == Failed(result.message)
  {
    match result
    case Response(status, text) =>
      ReadFailureReason(ChannelLabel, status, text);
      ResponseOutcome(ChannelLabel, result)
    case NetworkError(_) => ResponseOutcome(ChannelLabel, result)
  }
}
