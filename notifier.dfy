/**
 * The dispatch manager: builds one provider per configured channel in a fixed
 * order, fans a notification out to all of them, and fails only when every
 * one of them failed.
 */
module Notifier {
  import opened Wrappers
  import opened Types
  import opened Providers

  const AllFailedMessage := "All notification providers failed"

  /** The providers a configuration asks for, in the order Desktop, SMS, Slack, Teams. */
  function SelectProviders(config: NotificationConfig): (ps: seq<Provider>)
    ensures |ps| <= 4
    ensures config.desktop == Some(true) ==> |ps| > 0 && ps[0] == DesktopProvider
  {
    (if config.desktop == Some(true) then [DesktopProvider] else [])
    + (if config.sms.Some? then [SmsProvider(config.sms.value)] else [])
    + (if config.slack.Some? then [SlackProvider(config.slack.value)] else [])
    + (if config.teams.Some? then [TeamsProvider(config.teams.value)] else [])
  }

  /** How many channels a configuration enables. */
  function EnabledCount(config: NotificationConfig): nat
  {
    (if config.desktop == Some(true) then 1 else 0) + (if config.sms.Some? then 1 else 0)
    + (if config.slack.Some? then 1 else 0) + (if config.teams.Some? then 1 else 0)
  }

  /** Channels strictly increase along the list: fixed order, and at most one provider per channel. */
  ghost predicate InChannelOrder(ps: seq<Provider>)
  {
    forall i, j :: 0 <= i < j < |ps| ==> ps[i].Channel() < ps[j].Channel()
  }

  /** The selected list is in channel order, one provider per enabled channel, so at most four. */
  lemma SelectProvidersOrder(config: NotificationConfig)
    ensures InChannelOrder(SelectProviders(config))
    ensures |SelectProviders(config)| == EnabledCount(config) <= 4
  {
  }

  /** Each channel's provider is selected exactly when its block is set, and carries that block. */
  lemma SelectProvidersMembers(config: NotificationConfig)
    ensures DesktopProvider in SelectProviders(config) <==> config.desktop == Some(true)
    ensures forall c :: SmsProvider(c) in SelectProviders(config) <==> config.sms == Some(c)
    ensures forall c :: SlackProvider(c) in SelectProviders(config) <==> config.slack == Some(c)
    ensures forall c :: TeamsProvider(c) in SelectProviders(config) <==> config.teams == Some(c)
  {
  }

  /** In channel order no name repeats. */
  lemma {:induction false} NamesDistinct(ps: seq<Provider>)
    requires InChannelOrder(ps)
    ensures forall i, j :: 0 <= i < j < |ps| ==> Names(ps)[i] != Names(ps)[j]
  {
    forall i, j | 0 <= i < j < |ps|
      ensures Names(ps)[i] != Names(ps)[j]
    {
      NameIdentifiesChannel(ps[i], ps[j]);
    }
  }

  /** `results.filter(r => r.status === 'rejected')`. */
  function Failures(outcomes: seq<Outcome>): (failures: seq<Outcome>)
    ensures |failures| <= |outcomes|
    decreases |outcomes|
  {
    if outcomes == [] then []
    else
      var last := outcomes[|outcomes| - 1];
      Failures(outcomes[..|outcomes| - 1]) + (if last.Failed? then [last] else [])
  }

  /** `failures.length === results.length`. */
  predicate AllFailed(outcomes: seq<Outcome>): (all: bool)
    ensures outcomes == [] ==> all
  {
    |Failures(outcomes)| == |outcomes|
  }

  /** Counting the rejected results finds all of them rejected exactly when each one is. */
  lemma {:induction false} AllFailedIff(outcomes: seq<Outcome>)
    ensures AllFailed(outcomes) <==> forall i :: 0 <= i < |outcomes| ==> outcomes[i].Failed?
    decreases |outcomes|
  {
    if outcomes != [] {
      var init := outcomes[..|outcomes| - 1];
      AllFailedIff(init);
      assert forall i :: 0 <= i < |init| ==> init[i] == outcomes[i];
    }
  }

  /** One console line of a dispatch. */
  datatype LogEntry =
    | Sent(provider: string)
    | SendFailed(provider: string, detail: string)
    | NoProvidersWarning

  /** `✓ Notification sent via ${name}`, or `✗ ${name} failed:` with the error message. */
  function EntryFor(name: string, outcome: Outcome): (entry: LogEntry)
    ensures entry.Sent? <==> outcome.Delivered?
    ensures !entry.NoProvidersWarning? && entry.provider == name
    ensures entry.SendFailed? ==> entry.detail == outcome.reason
  {
    if outcome.Delivered? then Sent(name) else SendFailed(name, outcome.reason)
  }

  class NotificationManager {
    var providers: seq<Provider>

    constructor (config: NotificationConfig)
      ensures providers == SelectProviders(config)
    {
      providers := [];
      new;
      InitializeProviders(config);
    }

    /**
     * Pushes one provider per configured channel, Desktop, SMS, Slack, Teams, onto the empty
     * list; it is private to construction, so it runs once, on a manager with no providers.
     */
    method InitializeProviders(config: NotificationConfig)
      requires providers == []
      modifies this
      ensures providers == SelectProviders(config)
    {
      if config.desktop == Some(true) {
        providers := providers + [DesktopProvider];
      }
      if config.sms.Some? {
        providers := providers + [SmsProvider(config.sms.value)];
      }
      if config.slack.Some? {
        providers := providers + [SlackProvider(config.slack.value)];
      }
      if config.teams.Some? {
        providers := providers + [TeamsProvider(config.teams.value)];
      }
    }

    /** The providers' names in list order. */
    function GetProviderNames(): (names: seq<string>)
      reads this
      ensures |names| == |providers|
      ensures forall i :: 0 <= i < |providers| ==> names[i] == providers[i].Name()
    {
      Names(providers)
    }

    /**
     * Sends `message` through every provider. `clock[i]` is the time slot of provider i: the
     * Slack and Teams providers each read the clock on their own while building their payload,
     * and Desktop and SMS ignore theirs. `replies[i]` is what provider i's channel answers.
     * With no providers nothing is sent and only a warning is logged. Otherwise
     * every provider is attempted once, and the call fails, with "All notification providers
     * failed", exactly when every provider failed. The method has no modifies clause: the
     * provider list is the same afterwards.
     */
    method SendNotification(message: NotificationMessage, clock: seq<string>, replies: seq<Reply>)
      returns (result: Outcome, deliveries: seq<Delivery>, outcomes: seq<Outcome>, log: seq<LogEntry>)
      requires |replies| == |providers| && |clock| == |providers|
      requires forall i :: 0 <= i < |providers| ==> Fits(providers[i], replies[i])
      ensures |deliveries| == |providers|
      ensures forall i :: 0 <= i < |providers| ==> deliveries[i] == Deliver(providers[i], message, clock[i])
      ensures |outcomes| == |providers|
      ensures forall i :: 0 <= i < |providers| ==> outcomes[i] == Send(providers[i], replies[i])
      ensures providers == [] ==> log == [NoProvidersWarning]
      ensures providers != [] ==> |log| == |providers|
      ensures providers != [] ==> forall i :: 0 <= i < |providers| ==> log[i] == EntryFor(providers[i].Name(), outcomes[i])
      ensures result.Failed? <==> providers != [] && forall i :: 0 <= i < |outcomes| ==> outcomes[i].Failed?
      ensures result.Failed? ==> result.reason == AllFailedMessage
    {
      if |providers| == 0 {
        return Delivered, [], [], [NoProvidersWarning];
      }
      deliveries := Dispatch(providers, message, clock);
      outcomes, log := SettleAll(providers, replies);
      var failures := Failures(outcomes);
      AllFailedIff(outcomes);
      result := if |failures| == |outcomes| then Failed(AllFailedMessage) else Delivered;
    }
  }

  /**
   * `providers.map(provider => provider.send(message))`: every provider is handed the same
   * message once, whatever the others do.
   */
  function Dispatch(ps: seq<Provider>, message: NotificationMessage, clock: seq<string>): (deliveries: seq<Delivery>)
    requires |clock| == |ps|
    ensures |deliveries| == |ps|
    ensures forall i :: 0 <= i < |ps| ==> deliveries[i] == Deliver(ps[i], message, clock[i])
  {
    if ps == [] then [] else [Deliver(ps[0], message, clock[0])] + Dispatch(ps[1..], message, clock[1..])
  }

  /** Whether `outcomes` and `log` record the first `n` settlements of `ps`. */
  ghost predicate SettledUpTo(ps: seq<Provider>, replies: seq<Reply>, outcomes: seq<Outcome>, log: seq<LogEntry>, n: nat)
    requires n <= |ps| == |replies| && n <= |outcomes| && n <= |log|
    requires forall i :: 0 <= i < |ps| ==> Fits(ps[i], replies[i])
  {
    forall j :: 0 <= j < n ==> outcomes[j] == Send(ps[j], replies[j]) && log[j] == EntryFor(ps[j].Name(), outcomes[j])
  }

  /**
   * `Promise.allSettled(...)`: each provider's attempt settles into an outcome, a failure is
   * caught instead of stopping the others, and each attempt logs exactly one line. The
   * attempts settle one after another here, in list order.
   */
  method SettleAll(ps: seq<Provider>, replies: seq<Reply>) returns (outcomes: seq<Outcome>, log: seq<LogEntry>)
    requires |replies| == |ps|
    requires forall i :: 0 <= i < |ps| ==> Fits(ps[i], replies[i])
    ensures |outcomes| == |ps| && |log| == |ps|
    ensures forall i :: 0 <= i < |ps| ==> outcomes[i] == Send(ps[i], replies[i])
    ensures forall i :: 0 <= i < |ps| ==> log[i] == EntryFor(ps[i].Name(), outcomes[i])
  {
    outcomes, log := [], [];
    var i := 0;
    while i < |ps|
      invariant 0 <= i <= |ps|
      invariant |outcomes| == i && |log| == i
      invariant SettledUpTo(ps, replies, outcomes, log, i)
    {
      var outcome := Send(ps[i], replies[i]);
      outcomes := outcomes + [outcome];
      log := log + [EntryFor(ps[i].Name(), outcome)];
      i := i + 1;
    }
  }

}
