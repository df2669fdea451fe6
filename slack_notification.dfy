/**
 * The Slack event notification: flattening the event context into the
 * template model, rendering the standard alert text, choosing the custom
 * template, assembling the outbound message, and the order in which
 * `execute` does these before handing the message to the client.
 */
module SlackNotification {
  import opened Wrappers
  import opened SlackConfig

  /** Placeholder for every optional context field that is absent. */
  const UNKNOWN: string := "<unknown>"

  // Keys of the template model.
  const EVENT_DEFINITION_ID: string := "event_definition_id"
  const EVENT_DEFINITION_TYPE: string := "event_definition_type"
  const EVENT_DEFINITION_TITLE: string := "event_definition_title"
  const EVENT_DEFINITION_DESCRIPTION: string := "event_definition_description"
  const JOB_DEFINITION_ID: string := "job_definition_id"
  const JOB_TRIGGER_ID: string := "job_trigger_id"
  const EVENT: string := "event"
  const BACKLOG: string := "backlog"

  /** The message of the exception a failed send is wrapped in. */
  const SEND_FAILED: string := "Failed to send message to Slack."

  // ---------------------------------------------------------------------------
  // Host context

  /**
   * The event definition the host resolved; `configType` is the type of its
   * processor config. Each accessor may return null, hence `Option`.
   */
  datatype EventDefinition = EventDefinition(
    id: Option<string>,
    configType: Option<string>,
    title: Option<string>,
    description: Option<string>)

  /** The job trigger that ran the notification; each accessor may return null. */
  datatype JobTrigger = JobTrigger(id: Option<string>, jobDefinitionId: Option<string>)

  /** The event that fired, carried through to the template untouched. */
  datatype Event = Event(fields: map<string, string>)

  /** One backlog message, carried through to the template untouched. */
  datatype MessageSummary = MessageSummary(fields: map<string, string>)

  datatype Context = Context(
    notificationConfig: Config,
    eventDefinition: Option<EventDefinition>,
    jobTrigger: Option<JobTrigger>,
    event: Event)

  // ---------------------------------------------------------------------------
  // Template model

  datatype ModelValue = Text(s: string) | EventValue(e: Event) | BacklogValue(messages: seq<MessageSummary>)

  type Model = map<string, ModelValue>

  /** The template engine: renders a template against a model. */
  type Transformer = (string, Model) -> string

  /** The model keys, each present in every model. */
  function ModelKeys(): set<string> {
    {EVENT_DEFINITION_ID, EVENT_DEFINITION_TYPE, EVENT_DEFINITION_TITLE, EVENT_DEFINITION_DESCRIPTION,
     JOB_DEFINITION_ID, JOB_TRIGGER_ID, EVENT, BACKLOG}
  }

  /**
   * `getModel`: the context flattened under snake_case keys. Each field of the
   * event definition and of the job trigger falls back to UNKNOWN on its own,
   * when the definition or trigger is absent or that accessor returns null
   * (`Optional.map` turns a null result into an empty optional); the event and
   * the backlog are copied through.
   */
  function GetModel(ctx: Context, backlog: seq<MessageSummary>): (m: Model)
    ensures m.Keys == ModelKeys()
    ensures ctx.eventDefinition.Some? ==>
      var d := ctx.eventDefinition.value;
      m[EVENT_DEFINITION_ID] == Text(d.id.OrElse(UNKNOWN)) &&
      m[EVENT_DEFINITION_TYPE] == Text(d.configType.OrElse(UNKNOWN)) &&
      m[EVENT_DEFINITION_TITLE] == Text(d.title.OrElse(UNKNOWN)) &&
      m[EVENT_DEFINITION_DESCRIPTION] == Text(d.description.OrElse(UNKNOWN))
    ensures ctx.eventDefinition.None? ==>
      m[EVENT_DEFINITION_ID] == m[EVENT_DEFINITION_TYPE] == m[EVENT_DEFINITION_TITLE] ==
      m[EVENT_DEFINITION_DESCRIPTION] == Text(UNKNOWN)
    ensures ctx.jobTrigger.Some? ==>
      m[JOB_DEFINITION_ID] == Text(ctx.jobTrigger.value.jobDefinitionId.OrElse(UNKNOWN)) &&
      m[JOB_TRIGGER_ID] == Text(ctx.jobTrigger.value.id.OrElse(UNKNOWN))
    ensures ctx.jobTrigger.None? ==> m[JOB_DEFINITION_ID] == m[JOB_TRIGGER_ID] == Text(UNKNOWN)
    ensures m[EVENT] == EventValue(ctx.event) && m[BACKLOG] == BacklogValue(backlog)
  {
    var definition := ctx.eventDefinition;
    var trigger := ctx.jobTrigger;
    map[EVENT_DEFINITION_ID := Text(if definition.Some? then definition.value.id.OrElse(UNKNOWN) else UNKNOWN),
        EVENT_DEFINITION_TYPE := Text(if definition.Some? then definition.value.configType.OrElse(UNKNOWN) else UNKNOWN),
        EVENT_DEFINITION_TITLE := Text(if definition.Some? then definition.value.title.OrElse(UNKNOWN) else UNKNOWN),
        EVENT_DEFINITION_DESCRIPTION := Text(if definition.Some? then definition.value.description.OrElse(UNKNOWN) else UNKNOWN),
        JOB_DEFINITION_ID := Text(if trigger.Some? then trigger.value.jobDefinitionId.OrElse(UNKNOWN) else UNKNOWN),
        JOB_TRIGGER_ID := Text(if trigger.Some? then trigger.value.id.OrElse(UNKNOWN) else UNKNOWN),
        EVENT := EventValue(ctx.event),
        BACKLOG := BacklogValue(backlog)]
  }

  function DefinitionKeys(): set<string> {
    {EVENT_DEFINITION_ID, EVENT_DEFINITION_TYPE, EVENT_DEFINITION_TITLE, EVENT_DEFINITION_DESCRIPTION}
  }

  /** The event-definition entries depend on the event definition alone, not on the trigger, event or backlog. */
  lemma DefinitionEntriesIndependent(ctx1: Context, ctx2: Context, b1: seq<MessageSummary>, b2: seq<MessageSummary>)
    requires ctx1.eventDefinition == ctx2.eventDefinition
    ensures forall k :: k in DefinitionKeys() ==> GetModel(ctx1, b1)[k] == GetModel(ctx2, b2)[k]
  {
  }

  /** The trigger entries depend on the job trigger alone. */
  lemma TriggerEntriesIndependent(ctx1: Context, ctx2: Context, b1: seq<MessageSummary>, b2: seq<MessageSummary>)
    requires ctx1.jobTrigger == ctx2.jobTrigger
    ensures GetModel(ctx1, b1)[JOB_DEFINITION_ID] == GetModel(ctx2, b2)[JOB_DEFINITION_ID]
    ensures GetModel(ctx1, b1)[JOB_TRIGGER_ID] == GetModel(ctx2, b2)[JOB_TRIGGER_ID]
  {
  }

  /** The title and description the standard text reads are present as text. */
  predicate HasTexts(m: Model) {
    EVENT_DEFINITION_TITLE in m && m[EVENT_DEFINITION_TITLE].Text? &&
    EVENT_DEFINITION_DESCRIPTION in m && m[EVENT_DEFINITION_DESCRIPTION].Text?
  }

  /** What the model holds as the event-definition title for a context. */
  function TitleOf(ctx: Context): string {
    if ctx.eventDefinition.Some? then ctx.eventDefinition.value.title.OrElse(UNKNOWN) else UNKNOWN
  }

  /** What the model holds as the event-definition description for a context. */
  function DescriptionOf(ctx: Context): string {
    if ctx.eventDefinition.Some? then ctx.eventDefinition.value.description.OrElse(UNKNOWN) else UNKNOWN
  }

  // ---------------------------------------------------------------------------
  // Standard text

  /** The mention that pings the whole channel, or nothing. */
  function Audience(notifyChannel: bool): string {
    if notifyChannel then "@channel" else ""
  }

  /** The title: a link opened on the web-interface URL and never closed, or the title in underscores. */
  function Title(graylogUrl: string, title: string): string {
    if graylogUrl != "" then "<" + graylogUrl + "|" + title else "_" + title + "_"
  }

  /** `buildMessage`: the standard alert text. */
  function BuildMessage(c: Config, m: Model): (text: string)
    requires HasTexts(m)
    ensures Audience(c.notifyChannel) + "*Alert for Graylog stream " <= text
    ensures var d := m[EVENT_DEFINITION_DESCRIPTION].s;
      |text| >= |d| + 2 && text[|text| - |d| - 2..] == d + " \n"
  {
    var title := Title(c.graylog2Url, m[EVENT_DEFINITION_TITLE].s);
    var description := m[EVENT_DEFINITION_DESCRIPTION].s;
    Audience(c.notifyChannel) + "*Alert for Graylog stream " + title + "*:\n> " + description + " \n"
  }

  /** Every model `getModel` builds carries the two texts the standard text reads. */
  lemma ModelHasTexts(ctx: Context, backlog: seq<MessageSummary>)
    ensures HasTexts(GetModel(ctx, backlog))
  {
  }

  /** The standard text starts with the channel mention exactly when `notifyChannel` is set. */
  lemma {:induction false} MentionIffNotifyChannel(c: Config, m: Model)
    requires HasTexts(m)
    ensures "@channel" <= BuildMessage(c, m) <==> c.notifyChannel
  {
    var text := BuildMessage(c, m);
    if !c.notifyChannel {
      assert text[0] == '*';
      assert "@channel"[0] == '@';
    }
  }

  /**
   * With a web-interface URL, the text for a context links the event-definition
   * title (or UNKNOWN) and leaves the link unterminated: the title runs straight into `*:`.
   */
  lemma StandardTextLinked(ctx: Context, backlog: seq<MessageSummary>)
    requires ctx.notificationConfig.graylog2Url != ""
    ensures var c := ctx.notificationConfig;
      BuildMessage(c, GetModel(ctx, backlog)) ==
        Audience(c.notifyChannel) + "*Alert for Graylog stream " + ("<" + c.graylog2Url + "|" + TitleOf(ctx)) +
        "*:\n> " + DescriptionOf(ctx) + " \n"
  {
    var c := ctx.notificationConfig;
    var m := GetModel(ctx, backlog);
    assert m[EVENT_DEFINITION_TITLE].s == TitleOf(ctx) && m[EVENT_DEFINITION_DESCRIPTION].s == DescriptionOf(ctx);
  }

  /** Without a web-interface URL, the text for a context italicises the title with underscores. */
  lemma StandardTextItalic(ctx: Context, backlog: seq<MessageSummary>)
    requires ctx.notificationConfig.graylog2Url == ""
    ensures var c := ctx.notificationConfig;
      BuildMessage(c, GetModel(ctx, backlog)) ==
        Audience(c.notifyChannel) + "*Alert for Graylog stream " + ("_" + TitleOf(ctx) + "_") + "*:\n> " +
        DescriptionOf(ctx) + " \n"
  {
    var c := ctx.notificationConfig;
    var m := GetModel(ctx, backlog);
    assert m[EVENT_DEFINITION_TITLE].s == TitleOf(ctx) && m[EVENT_DEFINITION_DESCRIPTION].s == DescriptionOf(ctx);
  }

  /** With no event definition the text names UNKNOWN as title and description, and is still built. */
  lemma StandardTextWithoutDefinition(ctx: Context, backlog: seq<MessageSummary>)
    requires ctx.eventDefinition.None?
    ensures var c := ctx.notificationConfig;
      BuildMessage(c, GetModel(ctx, backlog)) ==
        Audience(c.notifyChannel) + "*Alert for Graylog stream " + Title(c.graylog2Url, UNKNOWN) +
        "*:\n> " + UNKNOWN + " \n"
  {
    var m := GetModel(ctx, backlog);
    assert m[EVENT_DEFINITION_TITLE] == m[EVENT_DEFINITION_DESCRIPTION] == Text(UNKNOWN);
  }

  /** A concrete alert: channel mention, no web-interface URL. */
  lemma StandardTextExample(backlog: seq<MessageSummary>, event: Event)
    ensures var c := Defaults().(webhookUrl := "https://example.org/", channel := "#test",
                                 notifyChannel := true, color := "#FF0000");
      var ctx := Context(c, Some(EventDefinition(Some("id"), Some("aggregation-v1"), Some("CPU High"), Some("CPU > 90%"))), None, event);
      BuildMessage(c, GetModel(ctx, backlog)) == "@channel*Alert for Graylog stream _CPU High_*:\n> CPU > 90% \n"
  {
    var c := Defaults().(webhookUrl := "https://example.org/", channel := "#test",
                         notifyChannel := true, color := "#FF0000");
    var ctx := Context(c, Some(EventDefinition(Some("id"), Some("aggregation-v1"), Some("CPU High"), Some("CPU > 90%"))), None, event);
    StandardTextItalic(ctx, backlog);
    ExampleSpelledOut();
  }

  /** The example's pieces, concatenated, spell out the expected alert text. */
  lemma ExampleSpelledOut()
    ensures "@channel" + "*Alert for Graylog stream " + ("_" + "CPU High" + "_") + "*:\n> " + "CPU > 90%" + " \n"
         == "@channel*Alert for Graylog stream _CPU High_*:\n> CPU > 90% \n"
  {
    var s1 := "@channel" + "*Alert for Graylog stream ";
    assert s1 == "@channel*Alert for Graylog stream ";
    var s2 := s1 + ("_" + "CPU High" + "_");
    assert s2 == "@channel*Alert for Graylog stream _CPU High_";
    var s3 := s2 + "*:\n> ";
    assert s3 == "@channel*Alert for Graylog stream _CPU High_*:\n> ";
    var s4 := s3 + "CPU > 90%";
    assert s4 == "@channel*Alert for Graylog stream _CPU High_*:\n> CPU > 90%";
  }

  // ---------------------------------------------------------------------------
  // Custom text

  /** `buildCustomMessage`'s template choice: the user's template, or the default when it is empty. */
  function Template(c: Config): (t: string)
    ensures t != ""
    ensures c.customMessage != "" ==> t == c.customMessage
    ensures c.customMessage == "" ==> t == DEFAULT_MESSAGE
  {
    if c.customMessage == "" then DEFAULT_MESSAGE else c.customMessage
  }

  /** `buildCustomMessage`: the chosen template rendered against the model. */
  function BuildCustomMessage(c: Config, m: Model, transform: Transformer): (custom: string)
    ensures c.customMessage == "" ==> custom == transform(DEFAULT_MESSAGE, m)
    ensures c.customMessage != "" ==> custom == transform(c.customMessage, m)
  {
    transform(Template(c), m)
  }

  // ---------------------------------------------------------------------------
  // Outbound message

  /** What the client serialises: the display settings, both texts, and whether names are linked. */
  datatype Outbound = Outbound(
    color: string,
    iconEmoji: string,
    iconUrl: string,
    text: string,
    userName: string,
    channel: string,
    linkNames: bool,
    customMessage: Option<string>)

  /**
   * The message as `createSlackMessage` builds it, before any custom message is
   * set: names are linked when either flag asks for it, and the display
   * settings are copied unchanged.
   */
  function Assembled(c: Config, text: string): (o: Outbound)
    ensures o.linkNames <==> c.linksName || c.notifyChannel
    ensures o.text == text && o.customMessage.None?
    ensures o.color == c.color && o.iconEmoji == c.iconEmoji && o.iconUrl == c.iconUrl
    ensures o.userName == c.userName && o.channel == c.channel
  {
    Outbound(c.color, c.iconEmoji, c.iconUrl, text, c.userName, c.channel, c.linksName || c.notifyChannel, None)
  }

  /** A standard text that mentions the channel always goes out with names linked. */
  lemma MentionIsLinked(c: Config, m: Model)
    requires HasTexts(m)
    requires "@channel" <= BuildMessage(c, m)
    ensures Assembled(c, BuildMessage(c, m)).linkNames
  {
    MentionIffNotifyChannel(c, m);
  }

  /** The slack message object: fixed display fields and a custom message set after construction. */
  class SlackMessage {
    const color: string
    const iconEmoji: string
    const iconUrl: string
    const text: string
    const userName: string
    const channel: string
    const linkNames: bool
    var customMessage: Option<string>

    function Value(): Outbound
      reads this
    {
      Outbound(color, iconEmoji, iconUrl, text, userName, channel, linkNames, customMessage)
    }

    constructor (color: string, iconEmoji: string, iconUrl: string, text: string, userName: string,
                 channel: string, linkNames: bool)
      ensures Value() == Outbound(color, iconEmoji, iconUrl, text, userName, channel, linkNames, None)
    {
      this.color := color;
      this.iconEmoji := iconEmoji;
      this.iconUrl := iconUrl;
      this.text := text;
      this.userName := userName;
      this.channel := channel;
      this.linkNames := linkNames;
      this.customMessage := None;
    }

    method SetCustomMessage(custom: string)
      modifies this
      ensures Value() == old(Value()).(customMessage := Some(custom))
    {
      customMessage := Some(custom);
    }
  }

  /** `createSlackMessage`: a new message from the configuration's display settings and the text. */
  method CreateSlackMessage(c: Config, text: string) returns (msg: SlackMessage)
    ensures fresh(msg)
    ensures msg.Value() == Assembled(c, text)
  {
    var linkNames := c.linksName || c.notifyChannel;
    msg := new SlackMessage(c.color, c.iconEmoji, c.iconUrl, text, c.userName, c.channel, linkNames);
  }

  // ---------------------------------------------------------------------------
  // execute

  /** The client's exception. */
  datatype ClientError = ClientError(message: string)

  /** What sending reports: accepted, or the client's exception. */
  datatype SendOutcome = Delivered | SendFailed(error: ClientError)

  /** How `execute` ends: normally, or with a runtime exception wrapping the client's. */
  datatype ExecuteOutcome = Completed | RuntimeException(message: string, cause: ClientError)

  /** The message `execute` hands to the client: one model feeds both texts. */
  function OutboundFor(ctx: Context, backlog: seq<MessageSummary>, transform: Transformer): (o: Outbound)
    ensures "@channel" <= o.text <==> ctx.notificationConfig.notifyChannel
    ensures o.linkNames <==> ctx.notificationConfig.linksName || ctx.notificationConfig.notifyChannel
    ensures o.customMessage == Some(BuildCustomMessage(ctx.notificationConfig, GetModel(ctx, backlog), transform))
  {
    var c := ctx.notificationConfig;
    var m := GetModel(ctx, backlog);
    ModelHasTexts(ctx, backlog);
    MentionIffNotifyChannel(c, m);
    Assembled(c, BuildMessage(c, m)).(customMessage := Some(BuildCustomMessage(c, m, transform)))
  }

  /**
   * What the sent message holds: the standard text and the rendered custom
   * template of the same model, and the display settings of the configuration.
   */
  lemma OutboundContents(ctx: Context, backlog: seq<MessageSummary>, transform: Transformer)
    ensures var c, m, o := ctx.notificationConfig, GetModel(ctx, backlog), OutboundFor(ctx, backlog, transform);
      HasTexts(m) &&
      o.text == BuildMessage(c, m) &&
      o.customMessage == Some(transform(Template(c), m)) &&
      ("@channel" <= o.text <==> c.notifyChannel) &&
      (o.linkNames <==> c.linksName || c.notifyChannel) &&
      o.color == c.color && o.iconEmoji == c.iconEmoji && o.iconUrl == c.iconUrl &&
      o.userName == c.userName && o.channel == c.channel
  {
    var m := GetModel(ctx, backlog);
    ModelHasTexts(ctx, backlog);
    MentionIffNotifyChannel(ctx.notificationConfig, m);
  }

  /** An empty custom message renders the default template; any other renders itself. */
  lemma CustomTextTemplate(ctx: Context, backlog: seq<MessageSummary>, transform: Transformer)
    ensures var c, m := ctx.notificationConfig, GetModel(ctx, backlog);
      OutboundFor(ctx, backlog, transform).customMessage ==
        Some(transform(if c.customMessage == "" then DEFAULT_MESSAGE else c.customMessage, m))
  {
  }

  /**
   * `execute`: build the model once, assemble the message around the standard
   * text, set the custom text on it, then send; a failed send becomes a
   * runtime exception carrying the client's exception as its cause.
   * `send` stands for the client built from the configuration.
   */
  method Execute(ctx: Context, backlog: seq<MessageSummary>, transform: Transformer,
                 send: (Config, Outbound) -> SendOutcome)
    returns (sent: Outbound, outcome: ExecuteOutcome)
    ensures sent == OutboundFor(ctx, backlog, transform)
    ensures send(ctx.notificationConfig, sent).Delivered? ==> outcome == Completed
    ensures send(ctx.notificationConfig, sent).SendFailed? ==>
      outcome == RuntimeException(SEND_FAILED, send(ctx.notificationConfig, sent).error)
  {
    var config := ctx.notificationConfig;
    var model := GetModel(ctx, backlog);
    ModelHasTexts(ctx, backlog);
    var msg := CreateSlackMessage(config, BuildMessage(config, model));
    var customMessage := BuildCustomMessage(config, model, transform);
    msg.SetCustomMessage(customMessage);
    sent := msg.Value();
    match send(config, sent) {
      case Delivered =>
        outcome := Completed;
      case SendFailed(error) =>
        outcome := RuntimeException(SEND_FAILED, error);
    }
  }
}
