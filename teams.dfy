/**
 * The Microsoft Teams provider: posts an Adaptive Card (version 1.4) to a
 * Teams Workflows webhook.
 */
module Teams {
  import opened Wrappers
  import opened Types
  import opened Http
  import Text

  const Name := "Microsoft Teams"
  /** The word failure messages start with; it differs from the provider's name. */
  const ChannelLabel := "Teams"
  const CardContentType := "application/vnd.microsoft.card.adaptive"
  const CardSchema := "http://adaptivecards.io/schemas/adaptive-card.json"
  const CardVersion := "1.4"
  const FooterSeparator := " \U{2022} "

  /** An Adaptive Card TextBlock; the options the card leaves out are None. */
  datatype TextBlock = TextBlock(
    kind: string,
    text: string,
    weight: Option<string>,
    size: Option<string>,
    wrap: Option<bool>,
    color: Option<string>,
    spacing: Option<string>,
    isSubtle: Option<bool>)

  datatype AdaptiveCard = AdaptiveCard(schema: string, kind: string, version: string, body: seq<TextBlock>)

  /** `contentUrl` is `null` in the payload: None. */
  datatype Attachment = Attachment(contentType: string, contentUrl: Option<string>, content: AdaptiveCard)

  datatype Payload = Payload(kind: string, attachments: seq<Attachment>)

  /** The card colour of the title: red for high, blue for low, green otherwise. */
  function ColorForPriority(priority: Option<Priority>): (color: string)
    ensures color == "Attention" <==> priority == Some(High)
    ensures color == "Accent" <==> priority == Some(Low)
    ensures color == "Good" <==> priority == None || priority == Some(Normal)
  {
    match priority
    case Some(High) => "Attention"
    case Some(Low) => "Accent"
    case _ => "Good"
  }

  /** The colour tells the effective priorities apart, and an absent priority looks like normal. */
  lemma ColorShowsEffectivePriority(p: Option<Priority>, q: Option<Priority>)
    ensures ColorForPriority(p) == ColorForPriority(q) <==> EffectivePriority(p) == EffectivePriority(q)
  {
  }

  function FooterText(priority: Option<Priority>, timestamp: string): string
  {
    PriorityLine(priority, FooterSeparator, timestamp)
  }

  /** The message payload: one card attachment whose body is title, message and footer. */
  function BuildPayload(m: NotificationMessage, timestamp: string): (p: Payload)
    ensures p.kind == "message" && |p.attachments| == 1
    ensures p.attachments[0].contentType == CardContentType && p.attachments[0].contentUrl == None
    ensures var card := p.attachments[0].content;
      card.schema == CardSchema && card.kind == "AdaptiveCard" && card.version == CardVersion && |card.body| == 3
      && (forall i :: 0 <= i < 3 ==> card.body[i].kind == "TextBlock")
      && card.body[0].wrap == Some(true) && card.body[1].wrap == Some(true) && card.body[2].wrap == None
      && card.body[0].text == m.title && card.body[0].color == Some(ColorForPriority(m.priority))
      && card.body[1].text == m.message
      && card.body[2].text == FooterText(m.priority, timestamp)
  {
    var titleBlock := TextBlock("TextBlock", m.title, Some("Bolder"), Some("Large"), Some(true),
                                Some(ColorForPriority(m.priority)), None, None);
    var messageBlock := TextBlock("TextBlock", m.message, None, None, Some(true), None, Some("Medium"), None);
    var footerBlock := TextBlock("TextBlock", FooterText(m.priority, timestamp), None, Some("Small"), None,
                                 Some("Accent"), Some("Medium"), Some(true));
    var card := AdaptiveCard(CardSchema, "AdaptiveCard", CardVersion, [titleBlock, messageBlock, footerBlock]);
    Payload("message", [Attachment(CardContentType, None, card)])
  }

  /** What a reader of the card learns: the notification it shows and the timestamp in its footer. */
  function ReadPayload(p: Payload): Option<(NotificationMessage, string)>
  {
    if |p.attachments| != 1 || |p.attachments[0].content.body| != 3 then None
    else
      var body := p.attachments[0].content.body;
      match ReadPriorityLine(body[2].text, FooterSeparator)
      case None => None
      case Some((priority, timestamp)) =>
        Some((NotificationMessage(body[0].text, body[1].text, Some(priority)), timestamp))
  }

  /** The card shows the title, the message, the effective priority and the timestamp, all recoverable. */
  lemma ReadBuiltPayload(m: NotificationMessage, timestamp: string)
    ensures ReadPayload(BuildPayload(m, timestamp))
         == Some((m.(priority := Some(EffectivePriority(m.priority))), timestamp))
  {
    ReadPriorityLineRoundTrip(m.priority, FooterSeparator, timestamp);
  }

  /** `fetch(webhookUrl, { method: 'POST', headers: JSON, body: JSON.stringify(payload) })`. */
  function BuildRequest(config: WebhookConfig, m: NotificationMessage, timestamp: string): (r: Request<Payload>)
    ensures r.verb == "POST" && r.url == config.webhookUrl
    ensures r.headers == [("Content-Type", JsonContentType)]
    ensures r.body == BuildPayload(m, timestamp)
    ensures ReadPayload(r.body) == Some((m.(priority := Some(EffectivePriority(m.priority))), timestamp))
  {
    ReadBuiltPayload(m, timestamp);
    Request("POST", config.webhookUrl, [("Content-Type", JsonContentType)], BuildPayload(m, timestamp))
  }

  /** The outcome of a send once the webhook has answered. */
  function SendOutcome(result: FetchResult): (o: Outcome)
    ensures o.Delivered? <==> result.Response? && IsOk(result.status)
    ensures result.Response? && !IsOk(result.status)
        ==> o == Failed(FailureReason(ChannelLabel, result.status, result.text))
    ensures result.Response? && !IsOk(result.status)
        ==> Text.HasPrefix(o.reason, FailurePrefix(ChannelLabel))
            && ReadFailure(ChannelLabel, o.reason) == Some((result.status, result.text))
    ensures result.NetworkError? ==> o == Failed(result.message)
  {
    match result
    case Response(status, text) =>
      ReadFailureReason(ChannelLabel, status, text);
      ResponseOutcome(ChannelLabel, result)
    case NetworkError(_) => ResponseOutcome(ChannelLabel, result)
  }
}
