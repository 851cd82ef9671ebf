/**
 * The part of `fetch` the providers see: the request they hand over and the
 * response (or network error) they get back, and how a response becomes an
 * outcome. The ok test is the Fetch Standard's "ok status": 200 to 299.
 */
module Http {
  import opened Wrappers
  import opened Types
  import Text

  datatype Request<B> = Request(verb: string, url: string, headers: seq<(string, string)>, body: B)

  /** What `await fetch(...)` gives: a response with its status and body text, or a rejection. */
  datatype FetchResult = Response(status: nat, text: string) | NetworkError(message: string)

  const JsonContentType := "application/json"

  predicate IsOk(status: int)
  {
    200 <= status <= 299
  }

  function FailurePrefix(channel: string): string
  {
    channel + " notification failed: "
  }

  /** `${channel} notification failed: ${response.status} ${error}`. */
  function FailureReason(channel: string, status: nat, text: string): (reason: string)
    ensures Text.HasPrefix(reason, FailurePrefix(channel))
    ensures |reason| > |text| && reason[|reason| - |text| - 1..] == " " + text
  {
    FailurePrefix(channel) + Text.DecimalString(status) + " " + text
  }

  /**
   * After `fetch`: an ok response completes the send; any other response fails it with the
   * status and body in the message; a rejected `fetch` fails it with its own message.
   */
  function ResponseOutcome(channel: string, result: FetchResult): (o: Outcome)
    ensures o.Delivered? <==> result.Response? && IsOk(result.status)
    ensures result.Response? && !IsOk(result.status) ==> o == Failed(FailureReason(channel, result.status, result.text))
    ensures result.NetworkError? ==> o == Failed(result.message)
  {
    match result
    case Response(status, text) => if IsOk(status) then Delivered else Failed(FailureReason(channel, status, text))
    case NetworkError(message) => Failed(message)
  }

  /** Reads the status and the response body back out of a failure message of `channel`. */
  function ReadFailure(channel: string, reason: string): Option<(nat, string)>
  {
    var prefix := FailurePrefix(channel);
    if !Text.HasPrefix(reason, prefix) then None
    else
      var rest := reason[|prefix|..];
      match Text.IndexOf(rest, " ")
      case None => None
      case Some(k) =>
        if Text.IsDigits(rest[..k]) then Some((Text.DecimalValue(rest[..k]), rest[k + 1..])) else None
  }

  /** A failure message carries the response status and the whole response body, recoverably. */
  lemma ReadFailureReason(channel: string, status: nat, text: string)
    ensures ReadFailure(channel, FailureReason(channel, status, text)) == Some((status, text))
  {
    var prefix := FailurePrefix(channel);
    var digits := Text.DecimalString(status);
    var reason := FailureReason(channel, status, text);
    assert reason == prefix + (digits + " " + text);
    assert reason[..|prefix|] == prefix;
    var rest := reason[|prefix|..];
    assert rest == digits + " " + text;
    Text.IndexOfAfter(digits, " ", text);
    assert rest[..|digits|] == digits;
    assert rest[|digits| + 1..] == text;
    Text.DecimalRoundTrip(status);
  }
}
