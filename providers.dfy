/**
 * The provider interface (`name` plus `send`) as a tagged variant with one
 * case per channel. `send` is split in two: what the provider hands to the
 * outside world (Deliver), and how the answer becomes an outcome (Send).
 */
module Providers {
  import opened Wrappers
  import opened Types
  import opened Http
  import Text
  import Teams
  import Slack
  import Sms

  const DesktopName := "Desktop"
  const DesktopLabel := "Desktop"

  datatype Provider =
    | DesktopProvider
    | SmsProvider(sms: SmsConfig)
    | SlackProvider(slack: WebhookConfig)
    | TeamsProvider(teams: WebhookConfig)
  {
    /** The fixed, human-readable name used in reports. */
    function Name(): string
    {
      match this
      case DesktopProvider => DesktopName
      case SmsProvider(_) => Sms.Name
      case SlackProvider(_) => Slack.Name
      case TeamsProvider(_) => Teams.Name
    }

    /** The channel's place in the construction order: Desktop, SMS, Slack, Teams. */
    function Channel(): nat
    {
      match this
      case DesktopProvider => 0
      case SmsProvider(_) => 1
      case SlackProvider(_) => 2
      case TeamsProvider(_) => 3
    }

    /** The word the provider's failure messages start with. */
    function Label(): string
    {
      match this
      case DesktopProvider => DesktopLabel
      case SmsProvider(_) => Sms.ChannelLabel
      case SlackProvider(_) => Slack.ChannelLabel
      case TeamsProvider(_) => Teams.ChannelLabel
    }
  }

  /** Two providers have the same name exactly when they serve the same channel. */
  lemma NameIdentifiesChannel(p: Provider, q: Provider)
    ensures p.Name() == q.Name() <==> p.Channel() == q.Channel()
  {
    assert DesktopName[0] == 'D' && Sms.Name[0] == 'S' && Slack.Name[0] == 'S' && Teams.Name[0] == 'M';
    assert Sms.Name[1] == 'M' && Slack.Name[1] == 'l';
  }

  datatype Body =
    | CardBody(card: Teams.Payload)
    | BlocksBody(blocks: Slack.Payload)
    | FormBody(params: seq<(string, string)>)

  /** What one `send` hands to the outside world: a desktop alert, or one HTTP request. */
  datatype Delivery =
    | DesktopAlert(title: string, message: string, sound: bool, wait: bool)
    | HttpPost(request: Request<Body>)

  /** What the outside world answers: the desktop notifier's callback error, or the result of `fetch`. */
  datatype Reply = Callback(error: Option<string>) | Fetched(result: FetchResult)

  /** The desktop provider is answered by a callback, the others by `fetch`. */
  predicate Fits(p: Provider, reply: Reply)
  {
    p.DesktopProvider? <==> reply.Callback?
  }

  /** Where an HTTP provider posts: the webhook URL, or the Twilio Messages URL. */
  function Endpoint(p: Provider): string
    requires !p.DesktopProvider?
  {
    match p
    case SmsProvider(c) => Sms.MessagesUrl(c)
    case SlackProvider(c) => c.webhookUrl
    case TeamsProvider(c) => c.webhookUrl
  }

  /**
   * What `send(message)` emits: the desktop provider raises an alert with the title and
   * the message; every other provider makes exactly one POST to its own endpoint.
   */
  function Deliver(p: Provider, m: NotificationMessage, timestamp: string): (d: Delivery)
    ensures d.DesktopAlert? <==> p.DesktopProvider?
    ensures d.DesktopAlert? ==> d == DesktopAlert(m.title, m.message, true, false)
    ensures d.HttpPost? ==> d.request.verb == "POST" && d.request.url == Endpoint(p)
    ensures p.SmsProvider? ==>
      d.request.headers == [("Authorization", Sms.AuthorizationValue(p.sms)), ("Content-Type", Sms.FormContentType)]
      && d.request.body == FormBody(Sms.FormParams(p.sms, m))
    ensures p.SlackProvider? ==>
      d.request.headers == [("Content-Type", JsonContentType)] && d.request.body == BlocksBody(Slack.BuildPayload(m, timestamp))
    ensures p.TeamsProvider? ==>
      d.request.headers == [("Content-Type", JsonContentType)] && d.request.body == CardBody(Teams.BuildPayload(m, timestamp))
  {
    match p
    case DesktopProvider => DesktopAlert(m.title, m.message, true, false)
    case SmsProvider(c) =>
      var r := Sms.BuildRequest(c, m);
      HttpPost(Request(r.verb, r.url, r.headers, FormBody(r.body)))
    case SlackProvider(c) =>
      var r := Slack.BuildRequest(c, m, timestamp);
      HttpPost(Request(r.verb, r.url, r.headers, BlocksBody(r.body)))
    case TeamsProvider(c) =>
      var r := Teams.BuildRequest(c, m, timestamp);
      HttpPost(Request(r.verb, r.url, r.headers, CardBody(r.body)))
  }

  /** The answer that counts as delivered: no callback error, or an ok HTTP status. */
  predicate Accepted(reply: Reply)
  {
    reply == Callback(None) || (reply.Fetched? && reply.result.Response? && IsOk(reply.result.status))
  }

  /**
   * How `send` settles: it completes exactly when the answer is accepted; otherwise it fails,
   * with the channel's "notification failed" message unless `fetch` itself was rejected.
   */
  function Send(p: Provider, reply: Reply): (o: Outcome)
    requires Fits(p, reply)
    ensures o.Delivered? <==> Accepted(reply)
    ensures o.Failed? && !(reply.Fetched? && reply.result.NetworkError?)
        ==> Text.HasPrefix(o.reason, FailurePrefix(p.Label()))
    ensures reply.Fetched? && reply.result.NetworkError? ==> o == Failed(reply.result.message)
    ensures reply.Callback? && reply.error.Some? ==> o == Failed(FailurePrefix(DesktopLabel) + reply.error.value)
    ensures reply.Fetched? ==> o == ResponseOutcome(p.Label(), reply.result)
  {
    match reply
    case Callback(error) =>
      if error.None? then Delivered else Failed(FailurePrefix(DesktopLabel) + error.value)
    case Fetched(result) =>
      match p
      case SmsProvider(_) => Sms.SendOutcome(result)
      case SlackProvider(_) => Slack.SendOutcome(result)
      case TeamsProvider(_) => Teams.SendOutcome(result)
  }

  /** `providers.map(p => p.name)`. */
  function Names(ps: seq<Provider>): (names: seq<string>)
    ensures |names| == |ps|
    ensures forall i :: 0 <= i < |ps| ==> names[i] == ps[i].Name()
  {
    if ps == [] then [] else [ps[0].Name()] + Names(ps[1..])
  }

  /** No provider name contains a comma, so a comma-separated list of names can be read back. */
  lemma NamesHaveNoComma(p: Provider)
    ensures ',' !in p.Name()
  {
  }
}
