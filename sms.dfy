/**
 * The SMS provider: one authenticated POST to Twilio's Messages resource,
 * with HTTP Basic credentials (section 2 of RFC 7617) and an
 * `application/x-www-form-urlencoded` body.
 */
module Sms {
  import opened Wrappers
  import opened Types
  import opened Http
  import Text
  import Utf8
  import Base64

  const Name := "SMS"
  const ChannelLabel := "SMS"
  const ApiBase := "https://api.twilio.com/2010-04-01/Accounts/"
  const MessagesSuffix := "/Messages.json"
  const FormContentType := "application/x-www-form-urlencoded"
  const BodySeparator := "\n\n"
  const BasicScheme := "Basic "

  /** The text message: the title, a blank line, the message. */
  function Body(m: NotificationMessage): (body: string)
    ensures |body| == |m.title| + |BodySeparator| + |m.message|
    ensures body[..|m.title|] == m.title && body[|m.title| + |BodySeparator|..] == m.message
    ensures body[|m.title|..|m.title| + |BodySeparator|] == BodySeparator
  {
    m.title + BodySeparator + m.message
  }

  /** Splits a text message at its first blank line into title and message. */
  function ReadBody(body: string): Option<(string, string)>
  {
    match Text.IndexOf(body, BodySeparator)
    case None => None
    case Some(k) => Some((body[..k], body[k + |BodySeparator|..]))
  }

  /**
   * The text message keeps title and message apart when the title is a single line; the
   * priority is not sent. (A title with a blank line in it is indistinguishable from a
   * shorter title whose message starts with the rest: see BodyAmbiguous.)
   */
  lemma ReadBodyOfBody(m: NotificationMessage)
    requires '\n' !in m.title
    ensures ReadBody(Body(m)) == Some((m.title, m.message))
  {
    Text.IndexOfAfter(m.title, BodySeparator, m.message);
    var body := Body(m);
    assert body[..|m.title|] == m.title;
    assert body[|m.title| + |BodySeparator|..] == m.message;
  }

  lemma BodyAmbiguous()
    ensures Body(NotificationMessage("a\n\nb", "c", None)) == Body(NotificationMessage("a", "b\n\nc", None))
  {
  }

  /** `https://api.twilio.com/2010-04-01/Accounts/${accountSid}/Messages.json`. */
  function MessagesUrl(config: SmsConfig): (url: string)
    ensures |url| == |ApiBase| + |config.accountSid| + |MessagesSuffix|
    ensures Text.HasPrefix(url, ApiBase)
    ensures url[|ApiBase|..|url| - |MessagesSuffix|] == config.accountSid
    ensures url[|url| - |MessagesSuffix|..] == MessagesSuffix
  {
    ApiBase + config.accountSid + MessagesSuffix
  }

  /** Different accounts post to different URLs. */
  lemma MessagesUrlInjective(c1: SmsConfig, c2: SmsConfig)
    requires MessagesUrl(c1) == MessagesUrl(c2)
    ensures c1.accountSid == c2.accountSid
  {
  }

  /** The user-pass of RFC 7617: `${accountSid}:${authToken}`. */
  function Credentials(config: SmsConfig): string
  {
    config.accountSid + ":" + config.authToken
  }

  /** `Basic ${Buffer.from(credentials).toString('base64')}`: UTF-8 bytes, then base 64. */
  function AuthorizationValue(config: SmsConfig): (value: string)
    ensures Text.HasPrefix(value, BasicScheme)
    ensures |value| == |BasicScheme| + (|Utf8.Encode(Credentials(config))| + 2) / 3 * 4
  {
    BasicScheme + Base64.Encode(Utf8.Encode(Credentials(config)))
  }

  /** How the server reads Basic credentials: strip the scheme, decode, split at the first colon. */
  function ReadBasicCredentials(value: string): Option<(string, string)>
  {
    if !Text.HasPrefix(value, BasicScheme) then None
    else
      match Base64.Decode(value[|BasicScheme|..])
      case None => None
      case Some(bytes) =>
        match Utf8.Decode(bytes)
        case None => None
        case Some(pass) =>
          match Text.IndexOf(pass, ":")
          case None => None
          case Some(k) => Some((pass[..k], pass[k + 1..]))
  }

  /**
   * The header carries the account SID and the auth token recoverably, as long as the SID
   * has no colon (RFC 7617 forbids a colon in the user-id; the token may contain any).
   */
  lemma ReadAuthorization(config: SmsConfig)
    requires ':' !in config.accountSid
    ensures ReadBasicCredentials(AuthorizationValue(config)) == Some((config.accountSid, config.authToken))
  {
    var pass := Credentials(config);
    var value := AuthorizationValue(config);
    assert value[..|BasicScheme|] == BasicScheme;
    assert value[|BasicScheme|..] == Base64.Encode(Utf8.Encode(pass));
    Base64.DecodeEncode(Utf8.Encode(pass));
    Utf8.DecodeEncode(pass);
    Text.IndexOfAfter(config.accountSid, ":", config.authToken);
    assert pass[..|config.accountSid|] == config.accountSid;
    assert pass[|config.accountSid| + 1..] == config.authToken;
  }

  /** `new URLSearchParams({ To, From, Body })`, in that order. */
  function FormParams(config: SmsConfig, m: NotificationMessage): (params: seq<(string, string)>)
    ensures |params| == 3
    ensures params[0] == ("To", config.toNumber) && params[1] == ("From", config.fromNumber)
    ensures params[2] == ("Body", Body(m))
  {
    [("To", config.toNumber), ("From", config.fromNumber), ("Body", Body(m))]
  }

  function BuildRequest(config: SmsConfig, m: NotificationMessage): (r: Request<seq<(string, string)>>)
    ensures r.verb == "POST" && r.url == MessagesUrl(config)
    ensures r.headers == [("Authorization", AuthorizationValue(config)), ("Content-Type", FormContentType)]
    ensures r.body == FormParams(config, m)
  {
    Request("POST", MessagesUrl(config),
            [("Authorization", AuthorizationValue(config)), ("Content-Type", FormContentType)],
            FormParams(config, m))
  }

  /** The outcome of a send once Twilio has answered. */
  function SendOutcome(result: FetchResult): (o: Outcome)
    ensures o.Delivered? <==> result.Response? && IsOk(result.status)
    ensures result.Response? && !IsOk(result.status)
        ==> o == Failed(FailureReason(ChannelLabel, result.status, result.text))
    ensures result.Response? && !IsOk(result.status)
        ==> Text.HasPrefix(o.reason, FailurePrefix(ChannelLabel))
            && ReadFailure(ChannelLabel, o.reason) == Some((result.status, result.text))
    ensures result.NetworkError? ==> o == Failed(result.message)
  {
    match result
    case Response(status, text) =>
      ReadFailureReason(ChannelLabel, status, text);
      ResponseOutcome(ChannelLabel, result)
    case NetworkError(_) => ResponseOutcome(ChannelLabel, result)
  }
}
