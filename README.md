# Slack event notification for Graylog — a Dafny model

This project models the core of a Graylog plugin that posts alert
notifications to a Slack webhook:

- `SlackConfig` (`slack_config.dfy`) — the notification configuration: the
  twelve settings and the JSON keys that name them, the AutoValue builder
  (`create()` defaults, one setter per setting, `build()`), the JSON binding
  that drives that builder (each accessor and its setter carry the same key),
  the `@NotBlank` markers on `color`, `webhook_url` and `channel` (the marker also
  sits on the boolean `notify_channel`; what bean validation does with it is
  not modelled), and the
  manual `validate()`.
- `SlackNotification` (`slack_notification.dfy`) — one delivery: `getModel`
  flattens the event context into a template model with `<unknown>`
  fallbacks, `buildMessage` renders the fixed-format standard text,
  `buildCustomMessage` picks the custom template (or the default) and renders
  it, `createSlackMessage` copies the display settings into the message, and
  `execute` runs these in order and turns a client failure into a runtime
  exception.
- `Wrappers` (`wrappers.dfy`) — `Option`, standing for Java's `Optional` and
  nullable references.

The builder and the Slack message are classes whose setters update fields in
place; `Deserialize` is a loop that calls the builder setters one JSON
property at a time and is proved equal to the declarative binding `FromMap`,
whatever order the properties arrive in. The template engine and the HTTP
client are parameters: `transform: (string, Model) -> string` and
`send: (Config, Outbound) -> SendOutcome`.

The model follows the code as written: `validate()` checks only that the
webhook URL is empty (no URL or proxy syntax checks) and returns null; the
message's `text` is the standard text alone, with the rendered custom
template carried in a separate field; the link form of the title,
`"<" + url + "|" + title`, is left unterminated.

## Model

| member | source | states |
|---|---|---|
| `SlackConfig.Trim` | src/main/java/org/graylog2/plugins/slack/events/notifications/SlackEventNotificationConfig.java:44 | `String.trim()`: the result is empty exactly when every character is at most a space, and otherwise starts and ends above the space |
| `SlackConfig.TrimSlice` | src/main/java/org/graylog2/plugins/slack/events/notifications/SlackEventNotificationConfig.java:44 | what `String.trim()` returns is the slice of the string between its first and last character above the space: everything cut off before and after is at most a space |
| `SlackConfig.IsBlank` | src/main/java/org/graylog2/plugins/slack/events/notifications/SlackEventNotificationConfig.java:44 | blank in the `@NotBlank` sense: every character is at most a space; the empty string is blank |
| `SlackConfig.WellFormed` | src/main/java/org/graylog2/plugins/slack/events/notifications/SlackEventNotificationConfig.java:43-56 | the three string settings marked `@NotBlank` are not blank, so in particular not empty |
| `SlackConfig.DefaultsNotWellFormed` | src/main/java/org/graylog2/plugins/slack/events/notifications/SlackEventNotificationConfig.java:43-56 | the builder's defaults leave color, webhook URL and channel blank, so they never meet the `@NotBlank` markers |
| `SlackConfig.Builder.Create` | src/main/java/org/graylog2/plugins/slack/events/notifications/SlackEventNotificationConfig.java:101-119 | `create()` sets the type name `slack-notification-v3`, every string setting to `""` and both flags off |
| `SlackConfig.Builder.SetType` | src/main/java/org/graylog2/plugins/slack/events/notifications/SlackEventNotificationConfig.java:104 | stores the type name and changes no other setting |
| `SlackConfig.Builder.SetColor` | src/main/java/org/graylog2/plugins/slack/events/notifications/SlackEventNotificationConfig.java:121-122 | stores the color and changes no other setting |
| `SlackConfig.Builder.SetCustomMessage` | src/main/java/org/graylog2/plugins/slack/events/notifications/SlackEventNotificationConfig.java:124-125 | stores the custom message template and changes no other setting |
| `SlackConfig.Builder.SetWebhookUrl` | src/main/java/org/graylog2/plugins/slack/events/notifications/SlackEventNotificationConfig.java:127-128 | stores the webhook URL and changes no other setting |
| `SlackConfig.Builder.SetChannel` | src/main/java/org/graylog2/plugins/slack/events/notifications/SlackEventNotificationConfig.java:130-131 | stores the channel and changes no other setting |
| `SlackConfig.Builder.SetUserName` | src/main/java/org/graylog2/plugins/slack/events/notifications/SlackEventNotificationConfig.java:133-134 | stores the user name and changes no other setting |
| `SlackConfig.Builder.SetAddBacklogItems` | src/main/java/org/graylog2/plugins/slack/events/notifications/SlackEventNotificationConfig.java:136-137 | stores the backlog-items setting and changes no other setting |
| `SlackConfig.Builder.SetNotifyChannel` | src/main/java/org/graylog2/plugins/slack/events/notifications/SlackEventNotificationConfig.java:139-140 | stores the notify-channel flag and changes no other setting |
| `SlackConfig.Builder.SetLinksName` | src/main/java/org/graylog2/plugins/slack/events/notifications/SlackEventNotificationConfig.java:142-143 | stores the link-names flag and changes no other setting |
| `SlackConfig.Builder.SetIconUrl` | src/main/java/org/graylog2/plugins/slack/events/notifications/SlackEventNotificationConfig.java:145-146 | stores the icon URL and changes no other setting |
| `SlackConfig.Builder.SetIconEmoji` | src/main/java/org/graylog2/plugins/slack/events/notifications/SlackEventNotificationConfig.java:148-149 | stores the icon emoji and changes no other setting |
| `SlackConfig.Builder.SetGraylog2Url` | src/main/java/org/graylog2/plugins/slack/events/notifications/SlackEventNotificationConfig.java:151-152 | stores the Graylog web-interface URL and changes no other setting |
| `SlackConfig.Builder.SetProxyAddress` | src/main/java/org/graylog2/plugins/slack/events/notifications/SlackEventNotificationConfig.java:154-155 | stores the proxy address and changes no other setting |
| `SlackConfig.Builder.Build` | src/main/java/org/graylog2/plugins/slack/events/notifications/SlackEventNotificationConfig.java:157 | the built record holds exactly what the setters last stored |
| `SlackConfig.KeyOf` | src/main/java/org/graylog2/plugins/slack/events/notifications/SlackEventNotificationConfig.java:26-37 | a JSON key selects the setting annotated with it, and a key no setting carries selects none |
| `SlackConfig.KeyOfName` | src/main/java/org/graylog2/plugins/slack/events/notifications/SlackEventNotificationConfig.java:26-37 | each setting's key selects that setting back |
| `SlackConfig.NamesDistinct` | src/main/java/org/graylog2/plugins/slack/events/notifications/SlackEventNotificationConfig.java:26-37 | the twelve key constants are pairwise distinct |
| `SlackConfig.KeyNames` | src/main/java/org/graylog2/plugins/slack/events/notifications/SlackEventNotificationConfig.java:26-37 | the set of keys is exactly the strings that select a setting |
| `SlackConfig.Get` | src/main/java/org/graylog2/plugins/slack/events/notifications/SlackEventNotificationConfig.java:43-81 | the two flags serialise as booleans and every other setting as a string |
| `SlackConfig.PutThenGet` | src/main/java/org/graylog2/plugins/slack/events/notifications/SlackEventNotificationConfig.java:121-155 | a setter is read back by the accessor carrying the same key and leaves every other accessor unchanged |
| `SlackConfig.PutOwnValue` | src/main/java/org/graylog2/plugins/slack/events/notifications/SlackEventNotificationConfig.java:43-81 | setting a field to what its accessor returns changes nothing |
| `SlackConfig.ToMap` | src/main/java/org/graylog2/plugins/slack/events/notifications/SlackEventNotificationConfig.java:43-81 | the serialised object has exactly the twelve keys, each holding its accessor's value |
| `SlackConfig.CallSetter` | src/main/java/org/graylog2/plugins/slack/events/notifications/SlackEventNotificationConfig.java:121-155 | the setter annotated with a key changes just the setting that key names |
| `SlackConfig.BoundStep` | src/main/java/org/graylog2/plugins/slack/events/notifications/SlackEventNotificationConfig.java:121-155 | one more present property applied to the builder's record is one `Step` on its value, `Step` being a setter call; `Step` leaves a value of the wrong kind aside by its own convention, since `Deserialize` stops with no result before such a value reaches it |
| `SlackConfig.ReplayAnyOrder` | src/main/java/org/graylog2/plugins/slack/events/notifications/SlackEventNotificationConfig.java:101-155 | the builder's record after any sequence of properties depends only on which keys occurred, not on their order |
| `SlackConfig.FromMap` | src/main/java/org/graylog2/plugins/slack/events/notifications/SlackEventNotificationConfig.java:17-19 | the binding succeeds exactly when every known key holds a value of its setting's kind; then the type name is the builder's, each present key's value is read back by its accessor and each absent setting keeps its `create()` default |
| `SlackConfig.MissingKeyKeepsDefault` | src/main/java/org/graylog2/plugins/slack/events/notifications/SlackEventNotificationConfig.java:101-119 | a setting absent from the JSON object keeps its `create()` default |
| `SlackConfig.RoundTrip` | src/main/java/org/graylog2/plugins/slack/events/notifications/SlackEventNotificationConfig.java:43-81 | serialising a configuration and binding the result gives the configuration back |
| `SlackConfig.PropertyKept` | src/main/java/org/graylog2/plugins/slack/events/notifications/SlackEventNotificationConfig.java:121-155 | a property a setter accepted is what the matching accessor writes back |
| `SlackConfig.ToMapBound` | src/main/java/org/graylog2/plugins/slack/events/notifications/SlackEventNotificationConfig.java:43-81 | binding a complete well-kinded object and serialising the record reproduces the object |
| `SlackConfig.RoundTripFromJson` | src/main/java/org/graylog2/plugins/slack/events/notifications/SlackEventNotificationConfig.java:17-19 | a complete, well-kinded JSON object binds successfully and serialises back to itself |
| `SlackConfig.Deserialize` | src/main/java/org/graylog2/plugins/slack/events/notifications/SlackEventNotificationConfig.java:17-19 | `create()`, one setter per property in any order, then `build()`, yields the declarative binding; a property of the wrong kind fails the binding |
| `SlackConfig.ValidationResult.AddError` | src/main/java/org/graylog2/plugins/slack/events/notifications/SlackEventNotificationConfig.java:164 | the message is appended under the field and every other field's messages are unchanged |
| `SlackConfig.Validate` | src/main/java/org/graylog2/plugins/slack/events/notifications/SlackEventNotificationConfig.java:160-168 | returns null whatever the configuration; the result it built and dropped is `Validated` |
| `SlackConfig.Validated` | src/main/java/org/graylog2/plugins/slack/events/notifications/SlackEventNotificationConfig.java:161-165 | the collected errors are non-empty exactly when the webhook URL is empty, and then hold the one message under `webhook_url` |
| `SlackConfig.ValidateReporting` | src/main/java/org/graylog2/plugins/slack/events/notifications/SlackEventNotificationConfig.java:160-168 | corrected `validate()`: always returns a result, failed exactly when the webhook URL is empty |
| `SlackConfig.DefaultsPassValidate` | src/main/java/org/graylog2/plugins/slack/events/notifications/SlackEventNotificationConfig.java:101-119 | the defaults have an empty webhook URL and an error is collected, yet `validate()` returns nothing |
| `SlackConfig.WellFormedPassesValidation` | src/main/java/org/graylog2/plugins/slack/events/notifications/SlackEventNotificationConfig.java:50-52 | a configuration meeting the `@NotBlank` markers never fails `validate()`'s check |
| `SlackConfig.BlankWebhookSlipsThrough` | src/main/java/org/graylog2/plugins/slack/events/notifications/SlackEventNotificationConfig.java:163 | a whitespace-only webhook URL passes `validate()`'s check while breaking the `@NotBlank` marker |
| `SlackNotification.GetModel` | src/main/java/org/graylog2/plugins/slack/events/notifications/SlackEventNotification.java:65-79 | the model has the eight keys; each definition entry is that accessor's value, or `<unknown>` when the definition is absent or that accessor returns null, on its own; trigger entries likewise; event and backlog are copied |
| `SlackNotification.BuildMessage` | src/main/java/org/graylog2/plugins/slack/events/notifications/SlackEventNotification.java:91-103 | requires the model's title and description to be present as text (`HasTexts`); the text opens with the mention (or nothing) and `*Alert for Graylog stream `, and closes with the description followed by a space and a newline |
| `SlackNotification.DefinitionEntriesIndependent` | src/main/java/org/graylog2/plugins/slack/events/notifications/SlackEventNotification.java:66-72 | the four event-definition entries depend on the event definition alone |
| `SlackNotification.TriggerEntriesIndependent` | src/main/java/org/graylog2/plugins/slack/events/notifications/SlackEventNotification.java:67-74 | the two trigger entries depend on the job trigger alone |
| `SlackNotification.ModelHasTexts` | src/main/java/org/graylog2/plugins/slack/events/notifications/SlackEventNotification.java:71-72 | every model carries the title and description the standard text reads, as text |
| `SlackNotification.MentionIffNotifyChannel` | src/main/java/org/graylog2/plugins/slack/events/notifications/SlackEventNotification.java:100-102 | the standard text starts with `@channel` if and only if `notifyChannel` is set |
| `SlackNotification.StandardTextLinked` | src/main/java/org/graylog2/plugins/slack/events/notifications/SlackEventNotification.java:91-102 | with a Graylog URL the title is `<`, the URL, a vertical bar and the title, left unterminated, inside the fixed format |
| `SlackNotification.StandardTextItalic` | src/main/java/org/graylog2/plugins/slack/events/notifications/SlackEventNotification.java:91-102 | without a Graylog URL the title is `_title_` inside the fixed format |
| `SlackNotification.StandardTextWithoutDefinition` | src/main/java/org/graylog2/plugins/slack/events/notifications/SlackEventNotification.java:32 | with no event definition the text is still built, linked or italic as the Graylog URL decides, naming `<unknown>` as title and description |
| `SlackNotification.StandardTextExample` | src/main/java/org/graylog2/plugins/slack/events/notifications/SlackEventNotification.java:91-102 | a channel-mentioning alert for "CPU High" renders as `@channel*Alert for Graylog stream _CPU High_*:\n> CPU > 90% \n` |
| `SlackNotification.Template` | src/main/java/org/graylog2/plugins/slack/events/notifications/SlackEventNotification.java:105-111 | the template is never empty: the user's when non-empty, otherwise the default message |
| `SlackNotification.Assembled` | src/main/java/org/graylog2/plugins/slack/events/notifications/SlackEventNotification.java:81-89 | names are linked exactly when either flag is set; display settings and text are copied unchanged |
| `SlackNotification.MentionIsLinked` | src/main/java/org/graylog2/plugins/slack/events/notifications/SlackEventNotification.java:87 | a standard text mentioning the channel always goes out with names linked |
| `SlackNotification.SlackMessage.constructor` | src/main/java/org/graylog2/plugins/slack/events/notifications/SlackEventNotification.java:88 | the new message holds the given display fields and no custom message |
| `SlackNotification.SlackMessage.SetCustomMessage` | src/main/java/org/graylog2/plugins/slack/events/notifications/SlackEventNotification.java:55 | sets the custom message and nothing else |
| `SlackNotification.CreateSlackMessage` | src/main/java/org/graylog2/plugins/slack/events/notifications/SlackEventNotification.java:81-89 | a fresh message assembled from the configuration's display settings and the text |
| `SlackNotification.OutboundContents` | src/main/java/org/graylog2/plugins/slack/events/notifications/SlackEventNotification.java:50-55 | the sent message carries the standard text and the rendered template of one and the same model, plus the configuration's display settings |
| `SlackNotification.BuildCustomMessage` | src/main/java/org/graylog2/plugins/slack/events/notifications/SlackEventNotification.java:105-113 | the custom text is the default message rendered against the model when the custom message is empty, and the user's template rendered otherwise |
| `SlackNotification.OutboundFor` | src/main/java/org/graylog2/plugins/slack/events/notifications/SlackEventNotification.java:50-55 | the message handed to the client starts with `@channel` exactly when `notifyChannel` is set, links names when either flag is set, and carries the rendered custom template of the same model |
| `SlackNotification.CustomTextTemplate` | src/main/java/org/graylog2/plugins/slack/events/notifications/SlackEventNotification.java:105-113 | an empty custom message renders the default template; any other renders itself |
| `SlackNotification.Execute` | src/main/java/org/graylog2/plugins/slack/events/notifications/SlackEventNotification.java:46-63 | the message handed to the client is `OutboundFor` the context; delivery completes, a client failure becomes a runtime exception "Failed to send message to Slack." carrying the client's exception |

## Left out

- Sending over HTTP (`SlackClient`, the proxy, the JSON body Slack receives): `send` is a parameter; `SlackClient` is not part of this model.
- The template engine (JMTE): `transform` is a parameter; template syntax and rendering failures are not modelled.
- Fetching the backlog from the notification service: the backlog is an input of `GetModel` and `Execute`.
- Jackson's `convertValue` of the model data: `GetModel` builds the resulting map directly; the event and backlog entries stay opaque values rather than nested maps.
- `SlackNotification.BuildMessage` requires the title and description to be present as text; its only caller passes a model from `getModel`, which always has them (`ModelHasTexts`). Java would print `null` for a missing title and throw on a missing description.
- `SlackConfig.Builder.SetNotifyChannel` and `SlackConfig.Builder.SetLinksName` take booleans and `create()` stores `false`: the source declares these setters with `String` parameters and passes `""` to them while the accessors return `boolean`.
- Unknown JSON keys: `Deserialize` ignores a property whose key no setter carries, as a mapper with `FAIL_ON_UNKNOWN_PROPERTIES` turned off does; Jackson's default would reject it. The host's mapper configuration is not part of this model, so this is an assumption; the web form's `graylog_url`, `proxy_url` and `add_backlog_items` are such keys.
- The `@NotBlank` marker on the boolean `notifyChannel()`: what bean validation does with a string constraint on a boolean is not modelled, and `WellFormed` places no condition on the flag.
- Jackson's type coercion (a string `"true"` for a flag, numbers for strings) and a JSON `null`: `Deserialize` accepts only a boolean for the two flags and a string for the rest, and fails otherwise.
- The `type` property: `Deserialize` leaves the `create()` type name in place and `ToMap` does not write it; the polymorphic type handling around it is not part of this model.
- `toJobTriggerData` and `toContentPackEntity` (the latter returns null): they hand data to the scheduler and content packs and state nothing about the notification.
- The fluent return of each builder setter (the builder itself) is not modelled; the setters are called one after another on the same object.
- The web form, plugin registration and the output tests are outside this core.
- `SlackMessage`'s own JSON layout is not part of this model; `Outbound` holds the values `createSlackMessage` and `setCustomMessage` give it.
- Thread-safety: the model is sequential.

## Findings

| source | as written | input that shows it | evidently intended | confidence | as-written member | corrected member |
|---|---|---|---|---|---|---|
| src/main/java/org/graylog2/plugins/slack/events/notifications/SlackEventNotificationConfig.java:160-168 | `validate()` collects the empty-webhook error in a local result and then returns null, so the error never reaches the caller | the builder's defaults (`webhook_url` is `""`) | return the collected result, which fails exactly when the webhook URL is empty | not executed | `SlackConfig.DefaultsPassValidate` | `SlackConfig.ValidateReporting` |
