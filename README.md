# Discord/Slack notification plugin — Dafny model

This project models the core of a notification plugin for a Q&A application
(Apache Answer): for every notification the host emits, the plugin decides per
recipient whether to post a Markdown line to that user's chat webhook. The
model covers the decision chain of `Notify`, the rendering of the line
(`renderNotification`, `formatMarkdownNotification`, `getUserURL`), the
broadcast query `GetNewQuestionSubscribers` over the user-configuration
cache, and the webhook payload (`WebhookReq`, `Embed`, `NewWebhookReq`,
`AddEmbed`) with the JSON fields its struct tags emit.

Modules:

- `SlackNotification` (slack_notification.dfy): event types as a datatype
  with an `Other` case for type strings the plugin does not name; the user
  settings; the result of the settings lookup (`FetchError`, `NilConfig`,
  `Found`); the category gate; rendering; `Notify` as a pure function from
  (global switch, lookup result, message) to an `Outcome`, which is a skip
  reason or the single `Send(url, body)`; the plugin class `Notification`
  holding the cache as a map, with the subscriber loop.
- `Schema` (schema.dfy): the payload as a value (`WebhookBody`), the
  `WebhookReq` class whose `AddEmbed` appends in place, a JSON tree recording
  which fields are emitted and in which order, and a decoder that reads an
  absent field as Go's zero value.
- `Strings` (strings.dfy): Go's `strings.Split` and `strings.Join` for a
  one-character separator.
- `Wrappers` (wrappers.dfy): `Option`.

Behaviour kept exactly as the code has it:

- `UpdateQuestion` renders "updated answer".
- `UpdateAnswer` has no case in the rendering switch. It passes the inbox gate,
  renders to "" and is dropped at the empty-message guard.
- The tags are reformatted from "a,b" to "a, b" and then discarded:
  `renderNotification` assigns the reformatted tags to its local copy of the
  message and never reads them again (slack_notification.go:163-164). The
  rendered line never contains the tags.

## Model

| member | source | states |
|---|---|---|
| `SlackNotification.Notify` | slack_notification.go:77-134 | a POST happens iff the global switch is on, the lookup found settings, the category flag is set, the webhook URL is non-empty and the type has a phrase; it goes to the user's webhook URL with a body holding the non-empty rendered line and no embeds |
| `SlackNotification.DisabledComesFirst` | slack_notification.go:80-82 | with the global switch off nothing is sent, whatever the settings lookup would return |
| `SlackNotification.FetchFailureSendsNothing` | slack_notification.go:85-93 | a lookup error or a nil configuration stops the pipeline for every event |
| `SlackNotification.CategoryEnabled` | slack_notification.go:96-112 | the category switch of `Notify`; no contract of its own, its table is stated by `CategoryTable` |
| `SlackNotification.CategoryTable` | slack_notification.go:96-112 | NewQuestion is gated by AllNewQuestions, NewQuestionFollowedTag by NewQuestionsForFollowingTags, every other type by InboxNotifications; the webhook URL plays no part |
| `SlackNotification.CategoryBeforeWebhook` | slack_notification.go:96-119 | a switched-off category is reported whatever the webhook URL; with the category on, an empty URL sends nothing |
| `SlackNotification.UnrenderedTypesDropped` | slack_notification.go:121-127 | UpdateAnswer and unrecognised types pass the inbox gate yet are dropped at the empty-message guard |
| `SlackNotification.GetUserURL` | slack_notification.go:175-177 | the profile URL is the fixed profile prefix followed by exactly the escaped name |
| `SlackNotification.FormatMarkdownNotification` | slack_notification.go:170-172 | the line is, at fixed offsets, "[" + name + "](", the profile URL, ") " + action + " [", the title and "](" + url + ")", and its length is the sum of its parts plus the ten punctuation characters |
| `SlackNotification.ReformatTags` | slack_notification.go:162-163 | splitting the tags on "," and joining with ", " replaces each comma by comma-space |
| `SlackNotification.RenderNotification` | slack_notification.go:143-167 | `renderNotification` as written; no contract of its own, its properties are stated by `RenderShape` and `RenderIgnoresReceiverAndTags` |
| `SlackNotification.ActionPhrase` | slack_notification.go:146-164 | the fixed phrase per type, none for UpdateAnswer and unrecognised types; no contract of its own, `RenderShape` proves the rendered line uses exactly this phrase |
| `SlackNotification.RenderShape` | slack_notification.go:143-167 | the line is empty exactly for UpdateAnswer and unrecognised types; otherwise it is the Markdown line with the type's fixed phrase |
| `SlackNotification.RenderIgnoresReceiverAndTags` | slack_notification.go:162-164 | the receiver, the language and the tags do not change the rendered line |
| `SlackNotification.Notification.GetNewQuestionSubscribers` | slack_notification.go:67-74 | the result lists exactly the cached user IDs whose AllNewQuestions is set, each once; a user absent from the cache never appears |
| `Schema.NewWebhookReq` | schema.go:37-41 | the new request carries the given content and emits only the `content` field |
| `Schema.WebhookReq.constructor` | schema.go:37-41 | a fresh request object holds the given content and no embeds |
| `Schema.WebhookReq.AddEmbed` | schema.go:44-49 | the embeds grow by exactly the new embed at the end, earlier embeds and the content are unchanged, and the emitted array gains its encoding at the end |
| `Schema.EncodeEmbed` | schema.go:29-34 | title and description are emitted only when non-empty, color only when non-zero, and no other field is emitted |
| `Schema.EncodeEmbeds` | schema.go:25 | the emitted array encodes each embed in order |
| `Schema.Encode` | schema.go:23-26 | `content` is always emitted first; `embeds` is emitted iff the list is non-empty; no other field is emitted |
| `Schema.EncodeEmbedsAppend` | schema.go:44-49 | appending an embed appends its encoding to the emitted array |
| `Schema.RoundTrip` | schema.go:23-34 | reading the emitted JSON back with zero values for absent fields gives the same request: omitting empty fields loses nothing |
| `Schema.EmbedsRoundTrip` | schema.go:25-34 | the emitted embeds array reads back as the same list of embeds |
| `Strings.Split` | slack_notification.go:163 | splitting yields at least one piece and no piece holds the separator |
| `Strings.Join` | slack_notification.go:163 | `strings.Join`; no contract of its own, `JoinSplit` and `JoinSplitIsReplace` state what it gives on split pieces |
| `Strings.JoinSplit` | slack_notification.go:163 | joining the pieces with the separator itself restores the input |
| `Strings.JoinSplitIsReplace` | slack_notification.go:163 | splitting on a character and joining with a glue string equals replacing that character by the glue |

## Left out

- Plugin registration and metadata (`init`, `plugin.Register`, `Info` with the
  embedded YAML): host glue and file loading.
- The HTTP call through the Resty client and its success or failure logging:
  the model stops at the `Send(url, body)` outcome, which stands for the
  single POST with `Content-Type: application/json`.
- All logging calls: they have no effect on behaviour.
- The translation keys in i18n/translation.go: rendering does not use them
  (the language lookup is commented out in the source).
- `url.PathEscape`: its escaping rules are Go standard-library internals; the
  model takes it as a function parameter (`escape`) and states properties for
  any such function.
- Byte-level JSON encoding: the model records which fields are emitted, in
  which order, and with which values, not the bytes.
- The mapping from the host's type strings to `NotificationType`: the
  constants live in the host's plugin package, which is not part of this
  model. `Other` stands for any string outside the named types.
- `UserConfigCache`, `getUserConfig` and `NotificationConfig` are not part of
  this model (their definitions are not in the modelled files). The cache is
  a plain `map` from user ID to settings. The lookup is an input of kind
  error, nil or settings. Its read-through fill of the cache is not modelled.
- Unsynchronised concurrent access to the cache map: the model is sequential.
- `SlackNotification.Notification.GetNewQuestionSubscribers`: the cache holds
  settings values, so a cached nil entry, which Go would dereference, is not
  modelled.
- Strings are sequences of Unicode characters, so Go strings holding invalid
  UTF-8 are not represented; Go's JSON encoder would rewrite such bytes to
  U+FFFD, so `Schema.RoundTrip` speaks only of valid text.
- The width of Go's `int` for `Embed.color` is not modelled: the color is an
  unbounded integer, which matters nowhere since nothing computes with it.
- The host's type strings are assumed to arrive as their named
  `NotificationType` case; `Other` never carries the string of a named type.
