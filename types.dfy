/**
 * The records the whole tool passes around: the message to deliver, its
 * priority, the channel configuration, and what one delivery attempt yields.
 */
module Types {
  import opened Wrappers
  import Text

  /** `'low' | 'normal' | 'high'`. */
  datatype Priority = Low | Normal | High

  function PriorityName(p: Priority): string
  {
    match p
    case Low => "low"
    case Normal => "normal"
    case High => "high"
  }

  /** The priority a name denotes, if it is one of the three the type admits. */
  function ParsePriority(s: string): (p: Option<Priority>)
    ensures p.Some? <==> s == "low" || s == "normal" || s == "high"
    ensures p.Some? ==> PriorityName(p.value) == s
  {
    if s == "low" then Some(Low)
    else if s == "normal" then Some(Normal)
    else if s == "high" then Some(High)
    else None
  }

  lemma ParsePriorityName(p: Priority)
    ensures ParsePriority(PriorityName(p)) == Some(p)
  {
  }

  /** `priority || 'normal'`: an absent priority counts as normal. */
  function EffectivePriority(p: Option<Priority>): (e: Priority)
    ensures p.None? ==> e == Normal
    ensures p.Some? ==> e == p.value
  {
    if p.Some? then p.value else Normal
  }

  function PriorityText(p: Option<Priority>): string
  {
    PriorityName(EffectivePriority(p))
  }

  const PriorityPrefix := "Priority: "

  /**
   * The footer line Slack and Teams put under a message:
   * `Priority: ${priority || 'normal'}<sep><timestamp>`.
   */
  function PriorityLine(p: Option<Priority>, sep: string, timestamp: string): (line: string)
    ensures Text.HasPrefix(line, PriorityPrefix)
    ensures |line| >= |sep| + |timestamp| && line[|line| - |sep| - |timestamp|..] == sep + timestamp
  {
    PriorityPrefix + PriorityText(p) + sep + timestamp
  }

  /** Reads a footer line back into the priority it shows and the timestamp after the separator. */
  function ReadPriorityLine(s: string, sep: string): Option<(Priority, string)>
  {
    if !Text.HasPrefix(s, PriorityPrefix) then None
    else
      var rest := s[|PriorityPrefix|..];
      if Text.HasPrefix(rest, "low" + sep) then Some((Low, rest[|"low" + sep|..]))
      else if Text.HasPrefix(rest, "normal" + sep) then Some((Normal, rest[|"normal" + sep|..]))
      else if Text.HasPrefix(rest, "high" + sep) then Some((High, rest[|"high" + sep|..]))
      else None
  }

  /**
   * A footer line shows the effective priority and the timestamp unambiguously, whatever
   * the timestamp contains; an absent priority reads back as Normal.
   */
  lemma ReadPriorityLineRoundTrip(p: Option<Priority>, sep: string, timestamp: string)
    ensures ReadPriorityLine(PriorityLine(p, sep, timestamp), sep) == Some((EffectivePriority(p), timestamp))
  {
    var s := PriorityLine(p, sep, timestamp);
    var name := PriorityText(p);
    var rest := s[|PriorityPrefix|..];
    assert s[..|PriorityPrefix|] == PriorityPrefix;
    assert rest == name + sep + timestamp;
    assert rest[0] == name[0];
    assert rest[..|name + sep|] == name + sep;
    assert rest[|name + sep|..] == timestamp;
  }

  /** A notification: title and message are always there, only the priority is optional. */
  datatype NotificationMessage = NotificationMessage(title: string, message: string, priority: Option<Priority>)

  /** Twilio credentials and numbers: the SMS block is all-or-nothing. */
  datatype SmsConfig = SmsConfig(accountSid: string, authToken: string, fromNumber: string, toNumber: string)

  /** A Slack or Teams block: exactly one webhook URL. */
  datatype WebhookConfig = WebhookConfig(webhookUrl: string)

  /** Every channel field is optional. */
  datatype NotificationConfig = NotificationConfig(
    desktop: Option<bool>,
    sms: Option<SmsConfig>,
    slack: Option<WebhookConfig>,
    teams: Option<WebhookConfig>)

  /** What one `send` does: it completes, or it fails with an error message; nothing else is observable. */
  datatype Outcome = Delivered | Failed(reason: string)
}
