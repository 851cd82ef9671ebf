# claude-wants-you: notification fan-out, modelled in Dafny

The system is a tool server with two tools. `send_notification` fans one notification
(title, message, optional priority `low` | `normal` | `high`) out to every configured channel:
the desktop, SMS through Twilio, a Slack incoming webhook, and a Microsoft Teams workflow
webhook. It reports an error only when every channel failed. `list_providers` names the
configured channels. The configuration comes from environment variables. Desktop is always on.
Each of the other channels is on exactly when all of its variables are set and non-empty.

The model has one module per source file, plus four helper modules:

- `Types` (`types.dfy`): the message, the priority enum, the configuration record, and the
  outcome of a `send`.
- `Config` (`config.dfy`): `loadConfig` as a total function of an environment map.
- `Notifier` (`notifier.dfy`): `NotificationManager` as a class.
  - Its `providers` sequence is built step by step by `InitializeProviders`.
  - `SendNotification` dispatches once to every provider, settles every attempt in a loop
    (`SettleAll`) and counts the failures (`Failures`, `AllFailed`).
  - It has no `modifies` clause, so the provider list is the same after a dispatch.
- `Providers` (`providers.dfy`): the provider interface as a tagged variant with one case per
  channel.
  - `Deliver` gives what a `send` hands to the outside world.
  - `Send` gives how the answer becomes an outcome.
- `Teams`, `Slack` and `Sms` (`teams.dfy`, `slack.dfy`, `sms.dfy`): each channel's request
  builder and the mapping from its response to an outcome.
  - Teams builds an Adaptive Card 1.4 attachment.
  - Slack builds a Block Kit message.
  - SMS builds the Twilio Messages request with HTTP Basic credentials (section 2 of RFC 7617).
- `Server` (`server.dfy`): the tool list, the tool-call handler, and the startup wiring from
  configuration to manager.
- Helper modules:
  - `Http` (`http.dfy`): the request record, the "ok status" range 200 to 299 of the Fetch
    Standard, and the shared "<channel> notification failed: <status> <text>" message.
  - `Text` (`text.dfy`): join, split and decimal digits, with their inverses.
  - `Utf8` (`utf8.dfy`): UTF-8 encoding (RFC 3629), as `Buffer.from` applies it to a string.
  - `Base64` (`base64.dfy`): base 64 (section 4 of RFC 4648).
  - Both `Utf8` and `Base64` come with decoders and round-trip lemmas.

The outside world enters as parameters:

- The environment is a `map<string, string>`.
- The clock reading `new Date().toLocaleString()` is a `timestamp` string. The Slack and Teams
  providers each read the clock on their own, so a dispatch takes one reading per provider
  (`clock[i]`); Desktop and SMS ignore theirs.
- What each channel answers is a sequence of `Reply` values, one per provider:
  - for the desktop, the notifier callback's error, if any;
  - for the others, the result of `fetch`, which is a status plus body text, or a rejected
    request.

The datatypes capture the constraints of the declared types. An SMS block carries all four
fields or is absent. Each webhook block carries exactly one URL. Every block is optional. A
message always has a title and a message, and only its priority is optional.

## Model

| member | source | states |
|---|---|---|
| Notifier.NotificationManager.constructor | src/notifier.ts:8-12 | a new manager holds exactly the providers the configuration selects |
| Notifier.NotificationManager.InitializeProviders | src/notifier.ts:14-30 | run once on the empty list, it pushes Desktop, SMS, Slack and Teams providers, in that order, each exactly when its block is set, and nothing else |
| Notifier.SelectProviders | src/notifier.ts:14-30 | the four guarded pushes as one list: at most four providers, with Desktop first whenever desktop is on (SelectProvidersOrder and SelectProvidersMembers state its order and membership) |
| Notifier.SelectProvidersOrder | src/notifier.ts:14-30 | the provider list is in strict channel order, so it holds at most one provider per channel; its length is the number of enabled channels, at most four |
| Notifier.SelectProvidersMembers | src/notifier.ts:14-30 | each channel's provider is in the list if and only if its block is set, and it carries exactly that block |
| Notifier.NamesDistinct | src/notifier.ts:14-30 | a list in channel order repeats no provider name |
| Notifier.NotificationManager.SendNotification | src/notifier.ts:32-54 | with no providers, nothing is sent and a single warning is logged; otherwise every provider receives its delivery exactly once, built with its own clock slot, every outcome is the provider's own settlement, one log entry per provider names it with its outcome, and the call fails, with "All notification providers failed", if and only if the list is non-empty and every provider failed; the provider list is unchanged |
| Notifier.Dispatch | src/notifier.ts:38-41 | every provider is handed the same message once, in list order, with its own clock slot, whatever the others do |
| Notifier.EntryFor | src/notifier.ts:42-44 | a log entry names its provider; it is a success line exactly when the send completed, and a failure line carries the error message as its detail |
| Notifier.SettleAll | src/notifier.ts:38-48 | every attempt settles into that provider's outcome, a failure does not stop the others, and each attempt logs exactly one success or failure entry naming its provider |
| Notifier.Failures | src/notifier.ts:50 | the rejected results are never more than the results |
| Notifier.AllFailed | src/notifier.ts:51 | `failures.length === results.length`; it holds for no results at all, which is why the empty list is answered before it (AllFailedIff states its meaning) |
| Notifier.AllFailedIff | src/notifier.ts:50-53 | the count of rejected results equals the count of results if and only if every single result was a failure, so one success keeps the call from failing |
| Notifier.NotificationManager.GetProviderNames | src/notifier.ts:56-58 | one name per provider, in list order |
| Providers.Names | src/notifier.ts:57 | the names of a provider sequence, index by index |
| Providers.NameIdentifiesChannel | src/providers/teams.ts:17 | two providers have the same name exactly when they serve the same channel; the names are "Desktop" (src/providers/desktop.ts:5), "SMS" (src/providers/sms.ts:4), "Slack" (src/providers/slack.ts:4) and "Microsoft Teams" (src/providers/teams.ts:17) |
| Providers.NamesHaveNoComma | src/notifier.ts:57 | no provider name contains a comma |
| Providers.Deliver | src/types.ts:23-26 | a desktop provider raises an alert with the title and the message, sound on and no waiting; every other provider makes exactly one POST to its own endpoint; SMS sends the Basic Authorization and form Content-Type headers with the To/From/Body form; Slack sends a JSON Content-Type header with its Block Kit payload; Teams sends a JSON Content-Type header with its Adaptive Card payload |
| Providers.Send | src/types.ts:23-26 | a send completes exactly when the answer is accepted (no callback error, or an ok status); a desktop callback error fails with "Desktop notification failed: <error>"; a `fetch` answer settles as the channel's response outcome, so a refused status fails with "<channel> notification failed: <status> <text>" and a rejected `fetch` fails with its own message |
| Config.LoadConfig | src/config.ts:6-42 | desktop is always on; `sms` is set if and only if all four Twilio variables are non-empty, and then carries exactly their values; `slack` and `teams` are each set if and only if their URL variable is non-empty, and then carry that URL |
| Config.LoadConfigWellFormed | src/config.ts:13-39 | every block the loader sets has all its fields non-empty |
| Config.ChannelsIndependent | src/config.ts:7-41 | a channel's setting depends only on its own variables, so a partial SMS setup leaves `sms` absent and touches nothing else |
| Config.LoadConfigReachesEveryWellFormed | src/config.ts:6-42 | every configuration with desktop on and no blank field is what some environment loads to |
| Server.StartupProviders | src/index.ts:15-16 | the manager built at startup from the loaded configuration always has Desktop first, so its list is never empty |
| Server.StartupNeverListsNone | src/index.ts:101-113 | with the startup wiring, `list_providers` never answers "No providers configured" |
| Server.ToolsDeclared | src/index.ts:19-53 | there are exactly two tools; `send_notification` requires title and message, and its priority enum admits exactly the three priority names; `list_providers` takes no arguments |
| Server.MessageOf | src/index.ts:85-89 | title and message pass through unchanged; an absent priority becomes normal, and a given one is kept |
| Server.HandleCallTool | src/index.ts:74-136 | there is always one text item; `isError` is set if and only if the tool is unknown or the send failed; on success the text lists the provider names joined with ", "; `list_providers` gets the list text; an unknown name gets "Unknown tool: <name>"; a failure gets "Error: <message>" and does not escape |
| Server.ReadListTextOfListText | src/index.ts:101-113 | the `list_providers` text names exactly the providers, in order, and an empty list reads back as the fixed message, provided no name has a comma |
| Server.ReadSentText | src/index.ts:93-100 | the success text names exactly the providers, in order, when there is at least one provider and no name has a comma |
| Server.SentText | src/index.ts:97 | the success text is the fixed lead followed by the names joined with ", " |
| Server.ListText | src/index.ts:108-110 | the `list_providers` text is the fixed empty-list message exactly when there are no providers; otherwise it is the fixed lead followed by the names joined with ", " |
| Server.ProviderNamesReadable | src/index.ts:102-110 | any provider list, as `list_providers` shows it, can be read back exactly |
| Server.HandleRequest | src/index.ts:78-100 | with the real manager, `send_notification` answers with an error if and only if there is a provider and every provider was refused; the error text is then "Error: All notification providers failed", and otherwise it is the success text; other tools are answered as the handler answers them |
| Types.ParsePriority | src/types.ts:20 | exactly "low", "normal" and "high" are priorities, and each one parses back to its own name |
| Types.ParsePriorityName | src/types.ts:20 | every priority's name parses back to that priority |
| Types.EffectivePriority | src/index.ts:88 | an absent priority counts as normal, and a given one counts as itself |
| Types.PriorityLine | src/providers/slack.ts:35 | the footer line starts with "Priority: " and ends with the separator and the timestamp (ReadPriorityLineRoundTrip shows the effective priority reads back) |
| Types.ReadPriorityLineRoundTrip | src/providers/slack.ts:35 | the "Priority: <p><sep><timestamp>" line gives back the effective priority, which is normal when absent, and the timestamp |
| Teams.ColorForPriority | src/providers/teams.ts:80-90 | "Attention" exactly for high, "Accent" exactly for low, "Good" exactly for normal or absent |
| Teams.ColorShowsEffectivePriority | src/providers/teams.ts:80-90 | two priorities get the same colour if and only if their effective priorities are equal |
| Teams.BuildPayload | src/providers/teams.ts:27-64 | a "message" with exactly one Adaptive Card attachment, with no content URL, schema and version 1.4, and exactly three text blocks: the title, coloured by priority, and the message, both wrapping; and the priority footer, with no wrap setting |
| Teams.ReadBuiltPayload | src/providers/teams.ts:37-60 | from the card one reads back the title, the message, the effective priority and the timestamp |
| Teams.BuildRequest | src/providers/teams.ts:66-72 | a POST to the configured webhook URL, with only a JSON Content-Type header, whose body is exactly the Adaptive Card payload and shows the message |
| Teams.SendOutcome | src/providers/teams.ts:74-77 | delivered if and only if the status is ok; otherwise the failure is exactly "Teams notification failed: <status> <text>", and the status and the text can be read back from it; a rejected `fetch` fails with its own message |
| Slack.BuildPayload | src/providers/slack.ts:12-40 | top-level text is the title; exactly three blocks: a plain_text header with the title and emoji on, a mrkdwn section with the message, and a context whose one mrkdwn element is the priority line |
| Slack.ReadBuiltPayload | src/providers/slack.ts:12-40 | from the top-level text and the blocks one reads back the title, the message, the effective priority and the timestamp |
| Slack.BuildRequest | src/providers/slack.ts:42-48 | a POST to the configured webhook URL, with only a JSON Content-Type header, whose body is exactly the Block Kit payload and shows the message |
| Slack.SendOutcome | src/providers/slack.ts:50-53 | delivered if and only if the status is ok; otherwise the failure is exactly "Slack notification failed: <status> <text>", which can be read back; a rejected `fetch` fails with its own message |
| Sms.Body | src/providers/sms.ts:14 | the text message is the title, then a blank line, then the message |
| Sms.ReadBodyOfBody | src/providers/sms.ts:14 | the text message splits back at its first blank line into the title and the message, when the title is one line |
| Sms.BodyAmbiguous | src/providers/sms.ts:14 | a title that contains a blank line cannot be told apart from a shorter title |
| Sms.MessagesUrl | src/providers/sms.ts:25 | the URL is the Twilio accounts base, then the account SID, then "/Messages.json" |
| Sms.MessagesUrlInjective | src/providers/sms.ts:25 | different account SIDs post to different URLs |
| Sms.ReadAuthorization | src/providers/sms.ts:16 | the Authorization value is "Basic " plus base64 of the UTF-8 bytes of "<sid>:<token>", and decoding it gives back both the SID and the token when the SID has no colon |
| Sms.AuthorizationValue | src/providers/sms.ts:16-29 | the Authorization value starts with "Basic " and carries four base 64 characters per started group of three credential bytes (ReadAuthorization shows it decodes back) |
| Sms.FormParams | src/providers/sms.ts:18-22 | exactly To = toNumber, From = fromNumber and Body = the text message, in that order |
| Sms.BuildRequest | src/providers/sms.ts:24-34 | a POST to the messages URL, with the Basic Authorization header and the form Content-Type header, whose body is those form parameters |
| Sms.SendOutcome | src/providers/sms.ts:36-39 | delivered if and only if the status is ok; otherwise the failure is exactly "SMS notification failed: <status> <text>", which can be read back; a rejected `fetch` fails with its own message |
| Http.ResponseOutcome | src/providers/teams.ts:74-77 | delivered if and only if a response arrived with a status from 200 to 299; a refused status gives the channel's failure text; a rejected `fetch` fails with its own message |
| Http.FailureReason | src/providers/slack.ts:52 | the failure text starts with "<channel> notification failed: " and ends with a space and the whole response body (ReadFailureReason shows the status reads back too) |
| Http.ReadFailureReason | src/providers/slack.ts:52 | the status and the body text can be read back from a failure message |
| Text.SplitJoin | src/index.ts:97 | splitting a `join(', ')` at the separator gives back the items, when no item contains the separator's first character |
| Text.DecimalRoundTrip | src/providers/sms.ts:38 | the status as printed in a failure message reads back as the same number |
| Utf8.Encode | src/providers/sms.ts:16 | a string takes one to four bytes per character, and exactly one per character when it is all ASCII |
| Utf8.DecodeEncode | src/providers/sms.ts:16 | the UTF-8 bytes of the credentials decode back to the same string |
| Base64.DecodeEncode | src/providers/sms.ts:16 | the base 64 text decodes back to exactly the encoded bytes |
| Base64.Encode | src/providers/sms.ts:16 | the encoding takes four characters for every started group of three bytes |

## Left out

- Network I/O. `fetch` and reading the response body are not modelled: each answer is an input,
  a status with its body text, or a rejected request. A rejection while reading the body is not
  represented.
- The desktop notifier library is not part of this model. `src/providers/desktop.ts` is
  modelled only as the alert it is asked to raise, with the callback error as an input.
- Concurrency. `Promise.allSettled` is modelled as a sequential pass in list order. The source
  logs each line when that attempt settles, in completion order. The model logs in list order
  and makes no claim about interleaving.
- Byte encodings. `JSON.stringify` and `URLSearchParams.toString()` are not modelled: payloads
  and form parameters are structured datatypes. UTF-8 and base 64 are modelled, for the
  credentials only.
- The clock. `new Date().toLocaleString()` is a `timestamp` parameter, and its locale format is
  not modelled.
- The environment. The `.env` file read by `dotenv` and `process.env` itself are not modelled:
  the loader takes an environment map.
- Server plumbing. MCP server construction, the tool-listing handler, the stdio transport,
  `main`, console output and `process.exit` are not modelled. The `list_tools` answer is the
  `Server.Tools` constant.
- Server.HandleCallTool: the arguments are taken as typed by the input schema, so it does not
  model the following:
  - a missing title or message;
  - a non-string argument;
  - a priority outside the enum;
  - an empty-string priority, which the source also turns into normal.
- Server.HandleCallTool: the only error it catches is a failed send. A non-`Error` thrown
  value, which the source prints with `String(error)`, is not modelled.
- Strings are sequences of Unicode scalar values. A JavaScript string holding a lone surrogate
  cannot be represented.
- The Teams provider's name is "Microsoft Teams", but its failure message starts with "Teams".
  The model keeps the two apart, as the source does.
