/**
 * The tool surface the server exposes: the static tool list, the handler
 * for tool calls, and the startup wiring (configuration, then manager).
 */
module Server {
  import opened Wrappers
  import opened Types
  import Text
  import Config
  import opened Providers
  import opened Notifier

  const SendNotificationTool := "send_notification"
  const ListProvidersTool := "list_providers"
  const NamesSeparator := ", "
  const SentPrefix := "Notification sent successfully via: "
  const ListedPrefix := "Configured providers: "
  const NoProvidersText := "No providers configured." + " Check your .env file."
  const UnknownToolPrefix := "Unknown tool: "
  const ErrorPrefix := "Error: "

  /** One property of a tool's input schema; `allowed` is its enum, empty when it has none. */
  datatype PropertySchema = PropertySchema(name: string, kind: string, allowed: seq<string>, description: string)

  datatype InputSchema = InputSchema(kind: string, properties: seq<PropertySchema>, required: seq<string>)

  datatype Tool = Tool(name: string, description: string, inputSchema: InputSchema)

  /** The `TOOLS` list answered to a tool-listing request. */
  const Tools: seq<Tool> := [
    Tool(SendNotificationTool,
         "Send a notification across all configured channels (desktop, SMS, Slack, Teams). "
         + "Use this when Claude is waiting for user input, has completed a task, or needs attention.",
         InputSchema("object", [
           PropertySchema("title", "string", [],
                          "The notification title (e.g., \"Claude Needs Input\", \"Task Complete\")"),
           PropertySchema("message", "string", [], "The detailed notification message"),
           PropertySchema("priority", "string", ["low", "normal", "high"],
                          "Notification priority level (default: normal)")
         ], ["title", "message"])),
    Tool(ListProvidersTool, "List all configured notification providers", InputSchema("object", [], []))
  ]

  /**
   * Two tools; `send_notification` requires title and message and admits as priority
   * exactly the names of the priority type; `list_providers` takes nothing.
   */
  lemma ToolsDeclared()
    ensures |Tools| == 2
    ensures Tools[0].name == SendNotificationTool && Tools[1].name == ListProvidersTool
    ensures Tools[0].inputSchema.required == ["title", "message"]
    ensures |Tools[0].inputSchema.properties| == 3 && Tools[0].inputSchema.properties[2].name == "priority"
    ensures forall s :: s in Tools[0].inputSchema.properties[2].allowed <==> ParsePriority(s).Some?
    ensures Tools[1].inputSchema.properties == [] && Tools[1].inputSchema.required == []
  {
    var allowed := Tools[0].inputSchema.properties[2].allowed;
    assert allowed == ["low", "normal", "high"];
    forall s
      ensures s in allowed <==> ParsePriority(s).Some?
    {
      assert s in allowed <==> s == "low" || s == "normal" || s == "high";
    }
  }

  /** The arguments of a `send_notification` call, typed as its input schema declares them. */
  datatype ToolArguments = ToolArguments(title: string, message: string, priority: Option<Priority>)

  datatype TextContent = TextContent(kind: string, text: string)

  /** A tool result: its content, and `isError`, absent (None) on success. */
  datatype ToolResponse = ToolResponse(content: seq<TextContent>, isError: Option<bool>)

  /** The message a `send_notification` call dispatches: title and message unchanged, priority defaulted. */
  function MessageOf(args: ToolArguments): (m: NotificationMessage)
    ensures m.title == args.title && m.message == args.message
    ensures m.priority.Some? && (args.priority.Some? ==> m.priority == args.priority)
    ensures args.priority.None? ==> m.priority == Some(Normal)
  {
    NotificationMessage(args.title, args.message, Some(EffectivePriority(args.priority)))
  }

  function TextResponse(text: string, isError: Option<bool>): ToolResponse
  {
    ToolResponse([TextContent("text", text)], isError)
  }

  function SentText(names: seq<string>): (text: string)
    ensures Text.HasPrefix(text, SentPrefix)
    ensures text[|SentPrefix|..] == Text.Join(names, NamesSeparator)
  {
    SentPrefix + Text.Join(names, NamesSeparator)
  }

  /** The `list_providers` text: the names joined with ", ", or the fixed message when there are none. */
  function ListText(names: seq<string>): (text: string)
    ensures text == NoProvidersText <==> names == []
    ensures names != [] ==> Text.HasPrefix(text, ListedPrefix) && text[|ListedPrefix|..] == Text.Join(names, NamesSeparator)
  {
    if |names| > 0 then
      var listed := ListedPrefix + Text.Join(names, NamesSeparator);
      assert listed[0] == 'C' && NoProvidersText[0] == 'N';
      listed
    else NoProvidersText
  }

  /**
   * The tool-call handler. `send` stands for `notificationManager.sendNotification`: its
   * outcome for the message it is given. A failure it reports is caught and answered as an
   * error; nothing escapes the handler.
   */
  function HandleCallTool(name: string, args: ToolArguments, providerNames: seq<string>,
                          send: NotificationMessage -> Outcome): (r: ToolResponse)
    ensures |r.content| == 1 && r.content[0].kind == "text"
    ensures r.isError == Some(true) || r.isError == None
    ensures r.isError == Some(true)
        <==> (name != SendNotificationTool && name != ListProvidersTool)
             || (name == SendNotificationTool && send(MessageOf(args)).Failed?)
    ensures name == SendNotificationTool && send(MessageOf(args)).Failed?
        ==> r.content[0].text == ErrorPrefix + send(MessageOf(args)).reason
    ensures name == SendNotificationTool && send(MessageOf(args)).Delivered?
        ==> r.content[0].text == SentText(providerNames)
    ensures name == ListProvidersTool ==> r.content[0].text == ListText(providerNames)
    ensures name != SendNotificationTool && name != ListProvidersTool
        ==> r.content[0].text == UnknownToolPrefix + name
  {
    if name == SendNotificationTool then
      match send(MessageOf(args))
      case Delivered => TextResponse(SentText(providerNames), None)
      case Failed(reason) => TextResponse(ErrorPrefix + reason, Some(true))
    else if name == ListProvidersTool then
      TextResponse(ListText(providerNames), None)
    else
      TextResponse(UnknownToolPrefix + name, Some(true))
  }

  /** How a reader of the `list_providers` text recovers the list of names. */
  function ReadListText(text: string): Option<seq<string>>
  {
    if text == NoProvidersText then Some([])
    else if Text.HasPrefix(text, ListedPrefix) then Some(Text.Split(text[|ListedPrefix|..], NamesSeparator))
    else None
  }

  /**
   * The `list_providers` text names exactly the providers, in order, the empty list
   * included, provided no name contains a comma (no provider name does: NamesHaveNoComma).
   */
  lemma ReadListTextOfListText(names: seq<string>)
    requires forall i :: 0 <= i < |names| ==> ',' !in names[i]
    ensures ReadListText(ListText(names)) == Some(names)
  {
    if |names| > 0 {
      var text := ListText(names);
      assert text[0] == ListedPrefix[0] == 'C';
      assert NoProvidersText[0] == 'N';
      assert text[..|ListedPrefix|] == ListedPrefix;
      assert text[|ListedPrefix|..] == Text.Join(names, NamesSeparator);
      Text.SplitJoin(names, NamesSeparator);
    }
  }

  /** The success text names exactly the providers, in order, when there is at least one. */
  lemma ReadSentText(names: seq<string>)
    requires |names| > 0
    requires forall i :: 0 <= i < |names| ==> ',' !in names[i]
    ensures Text.HasPrefix(SentText(names), SentPrefix)
    ensures Text.Split(SentText(names)[|SentPrefix|..], NamesSeparator) == names
  {
    var text := SentText(names);
    assert text[..|SentPrefix|] == SentPrefix;
    assert text[|SentPrefix|..] == Text.Join(names, NamesSeparator);
    Text.SplitJoin(names, NamesSeparator);
  }

  /** Provider names, as the handler shows them, can always be read back. */
  lemma ProviderNamesReadable(ps: seq<Provider>)
    ensures ReadListText(ListText(Names(ps))) == Some(Names(ps))
  {
    forall i | 0 <= i < |ps|
      ensures ',' !in Names(ps)[i]
    {
      NamesHaveNoComma(ps[i]);
    }
    ReadListTextOfListText(Names(ps));
  }

  /**
   * A call handled with the manager: `send_notification` runs the dispatch and answers with an
   * error exactly when there are providers and every one of them was refused.
   */
  method HandleRequest(manager: NotificationManager, name: string, args: ToolArguments,
                       clock: seq<string>, replies: seq<Reply>) returns (r: ToolResponse)
    requires |replies| == |manager.providers| && |clock| == |manager.providers|
    requires forall i :: 0 <= i < |manager.providers| ==> Fits(manager.providers[i], replies[i])
    ensures |r.content| == 1
    ensures name == SendNotificationTool
        ==> (r.isError == Some(true) <==> manager.providers != [] && forall i :: 0 <= i < |replies| ==> !Accepted(replies[i]))
    ensures name == SendNotificationTool && r.isError == Some(true)
        ==> r.content[0].text == ErrorPrefix + AllFailedMessage
    ensures name == SendNotificationTool && r.isError == None
        ==> r.content[0].text == SentText(manager.GetProviderNames())
    ensures name != SendNotificationTool
        ==> r == HandleCallTool(name, args, manager.GetProviderNames(), _ => Delivered)
  {
    var names := manager.GetProviderNames();
    if name == SendNotificationTool {
      var result, _, _, _ := manager.SendNotification(MessageOf(args), clock, replies);
      r := HandleCallTool(name, args, names, _ => result);
    } else {
      r := HandleCallTool(name, args, names, _ => Delivered);
    }
  }

  /**
   * At startup the manager is built from the loaded configuration, so Desktop always leads the
   * provider list and the list is never empty.
   */
  lemma StartupProviders(env: map<string, string>)
    ensures var ps := SelectProviders(Config.LoadConfig(env));
      |ps| >= 1 && ps[0] == DesktopProvider && Names(ps)[0] == DesktopName
  {
  }

  /** Hence, with the startup wiring, `list_providers` never answers "No providers configured". */
  lemma StartupNeverListsNone(env: map<string, string>, args: ToolArguments, send: NotificationMessage -> Outcome)
    ensures HandleCallTool(ListProvidersTool, args, Names(SelectProviders(Config.LoadConfig(env))), send).content[0].text
         != NoProvidersText
  {
    var names := Names(SelectProviders(Config.LoadConfig(env)));
    StartupProviders(env);
    assert ListText(names)[0] == ListedPrefix[0] == 'C';
    assert NoProvidersText[0] == 'N';
  }
}
