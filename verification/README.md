# Portal setup wizard — a Dafny model

This project models the `/portal setup` wizard of a Telegram bot
(`portal_handlers.py`). The wizard is a conversation with three states:
`PORTAL_PUBLIC_CHANNEL → PORTAL_PRIVATE_GROUP → PORTAL_WELCOME_MESSAGE → END`.
Each state's handler does three things:

- it reads one message: a message forwarded from a chat, an `@handle`, text
  starting with `-`, other text, or no text;
- it asks the platform about the chat (`get_chat`) and about the bot's
  membership in it (`get_chat_member`);
- it writes the per-user draft `context.user_data['portal_setup']` and
  returns the next state.

The last step hands the draft to an external portal service.

Files:

- `wrappers.dfy`: `Option`, which stands for Python's `None`.
- `pyint.dfy`: Python's `int()` and `str()` on decimal text. The round trip
  `int(str(n)) == n` is proved.
- `telegram.dfy`: the platform values. These are chats, chat types, the
  bot's membership record, messages, and `Call<T>`, the outcome of a
  platform call (`Returned(v)` or `Raised`).
- `portal_handlers.dfy`: one specification function per handler
  (`ChannelStep`, `GroupStep`, `WelcomeStep`). Each maps the draft, the
  message and the platform's answers (`World`) to an `Outcome`: the next
  state, the draft afterwards, the reply kind and the `create_portal` call
  made. The class `PortalSetup` holds the draft and has one method per
  handler. Each method changes the draft in place as the source does and is
  proved equal to its function.
- `portal_conversation.dfy`: the conversation's route table (entry point,
  per-state routes, the `cancel` fallback) and one step of a user's session
  (`Step`) and runs of many steps (`Run`). The invariant `Consistent` says
  that draft fields are filled in step order. It holds in every run, and it
  implies the two preconditions the handlers need. While a user runs one
  conversation at a time, the forwarded-group write at lines 192-193 and
  the unchecked indexing at lines 320-323 cannot fail.
- `portal_properties.dfy`: how the group identifier is normalised, the full
  wizard path, and concrete conversations.

Platform calls and the portal service are not executed. They are oracles in
`World`:

- `getChat: ChatQuery -> Call<Chat>`;
- `getChatMember: int -> Call<ChatMember>`, for the bot's own record;
- `portalService`: absent, or `create_portal` as a function from the
  request to an optional portal id. `None` stands for any falsy result.
  `PortalId` excludes the empty string, which `if portal_id:` (line 327)
  treats as a failure.

Details of the source that the model keeps:

- When the portal service is missing, the welcome step returns END and
  keeps the draft (lines 311-316). Only the paths that call
  `create_portal` pop it (line 342). `WelcomeStep` states that the draft is
  kept on every path that makes no `create_portal` call.
- The draft never holds the owner id or the welcome message. The owner id
  is passed straight to `create_portal` (line 319).
- `portal_setup_start` does not clear an old draft. A stale draft survives
  until a channel step succeeds, which replaces it with exactly the three
  channel keys, or until the user cancels, which removes it (line 348).

## Model

| member | source | states |
|---|---|---|
| `PyInt.ParseInt` | portal_handlers.py:217 | `int()` accepts exactly the strings made of digits, or of a '+' or '-' followed by digits, leading zeros included; the value is the digits' decimal value, negated after '-'; text starting with '-' yields a value <= 0, other text a value >= 0 |
| `PyInt.ParseShowRoundTrip` | portal_handlers.py:215-217 | `int(str(n)) == n` for every integer, and `str(n)` starts with '-' exactly when n < 0 |
| `PortalHandlers.ChannelDraft` | portal_handlers.py:71-75 | the stored channel record has exactly the keys `public_channel_id`, `public_channel_username` and `public_channel_title`, with the channel id under the first |
| `PortalHandlers.ChannelStep` | portal_handlers.py:40-149 | advances to PORTAL_PRIVATE_GROUP iff the candidate (forwarding channel, or lookup of the `@` text) is a channel with the bot as administrator or creator; then the draft is replaced by exactly the three channel keys, and the username is the text without '@', not the platform's; otherwise it stays in PORTAL_PUBLIC_CHANNEL with the draft unchanged; InvalidInput iff the message is neither forwarded from a channel nor `@` text; WrongChatType iff the looked-up chat is not a channel; NotAdmin iff the status is not administrator or creator; never calls `create_portal` |
| `PortalHandlers.GroupQuery` | portal_handlers.py:205-220 | after stripping one '@', an identifier not starting with '-' is looked up as '@' + identifier; one starting with '-' is looked up by the id `int()` reads from it, and no lookup is made when `int()` rejects it; a handle lookup is '@' followed by text not starting with '-', and a lookup by id uses an id <= 0 |
| `PortalHandlers.GroupStep` | portal_handlers.py:152-284 | advances to PORTAL_WELCOME_MESSAGE iff a draft exists and the candidate group (the forwarding group or supergroup, or the lookup result) is a group or supergroup in which the bot is administrator or creator with `can_invite_users`; then it adds only `private_group_id` and `private_group_title` and keeps every other key and value; otherwise it stays in PORTAL_PRIVATE_GROUP with the draft unchanged; the reply names the failed check (wrong type, not admin, no invite permission, invalid input); requires that the forwarded branch never reaches its write without a draft |
| `PortalHandlers.WelcomeStep` | portal_handlers.py:287-343 | always ends; calls `create_portal` iff the draft is present and non-empty and the service exists; a missing or empty draft replies SetupDataLost and a missing service replies ServiceUnavailable, both leaving the draft as it was; the call carries the owner and the draft's channel id, username, group id and title; `/skip` gives `welcome_message = None`, and any other text is passed verbatim; after a call the draft is removed; a returned id, which is never empty, gives the created reply with the channel username and group title, and a falsy answer gives the failure reply |
| `PortalHandlers.PortalSetup.SetupStart` | portal_handlers.py:26-37 | returns PORTAL_PUBLIC_CHANNEL with the setup prompt, equal to `StartStep`, which `Step` also uses; having no modifies clause, it leaves the draft untouched |
| `PortalHandlers.PortalSetup.OnPublicChannel` | portal_handlers.py:40-149 | the in-place handler: new state, reply and draft equal `ChannelStep` of the old draft |
| `PortalHandlers.PortalSetup.OnPrivateGroup` | portal_handlers.py:152-284 | the in-place handler, with two successive key writes as in the source: result equals `GroupStep` of the old draft |
| `PortalHandlers.PortalSetup.OnWelcomeMessage` | portal_handlers.py:287-343 | the in-place handler: state, reply, `create_portal` call and draft equal `WelcomeStep` of the old draft |
| `PortalHandlers.PortalSetup.Cancel` | portal_handlers.py:346-353 | removes the draft and returns END, equal to `CancelStep`, which `Step` also uses |
| `PortalConversation.AdmissibleHandlers` | portal_handlers.py:357-385 | the route table admits only the start handler when no conversation runs; in each state it admits that state's handler and cancel |
| `PortalConversation.Step` | portal_handlers.py:359-382 | one routed update keeps the draft-order invariant; a handler the table does not admit changes nothing; cancel from any active state gives END with no draft; an active conversation never goes back a stage and advances at most one |
| `PortalConversation.Run` | portal_handlers.py:359-382 | every run from a consistent session ends in a consistent session: exactly the channel keys while awaiting the group, and those plus the group keys while awaiting the welcome message |
| `PortalConversation.ReachableHandlersAreSafe` | portal_handlers.py:192-193 | in every session reachable from idle, the group handler's write at lines 192-193 finds a draft and the welcome handler's indexing at lines 320-323 finds every key it reads |
| `PortalConversation.IdleWithoutSetup` | portal_handlers.py:360 | without the setup command an idle user never enters the wizard and the draft is untouched |
| `PortalProperties.GroupQueryStripsOneAt` | portal_handlers.py:208-210 | an identifier with one leading '@' is looked up exactly as without it |
| `PortalProperties.GroupQueryStripsOnlyOneAt` | portal_handlers.py:209-210 | only one '@' is stripped: "@@name" is looked up as "@@name" for every name, including one starting with '-' |
| `PortalProperties.GroupQueryByHandle` | portal_handlers.py:218-220 | a name starting with neither '@' nor '-' is looked up as '@' + name, whether or not it was typed with '@' |
| `PortalProperties.GroupQueryNumericId` | portal_handlers.py:215-217 | a negative chat id typed in its canonical spelling `str(id)`, with or without '@', is looked up by that integer id |
| `PortalProperties.GroupQueryDecimalId` | portal_handlers.py:212-217 | any '-' followed by decimal digits, with or without '@', is looked up by minus the digits' value, leading zeros included ("-00100" by -100, "-0" by 0) |
| `PortalProperties.LeadingZerosScenario` | portal_handlers.py:215-217 | "-007" is looked up by id -7 |
| `PortalProperties.NonNumericIdReprompts` | portal_handlers.py:212-273 | an identifier starting with '-' that `int()` rejects re-prompts PORTAL_PRIVATE_GROUP with the draft unchanged |
| `PortalProperties.WizardHappyPath` | portal_handlers.py:318-325 | after an accepted channel and an accepted group, the welcome step calls `create_portal` with the verified channel's id and username and the verified group's id and title, then removes the draft |
| `PortalProperties.HandleScenario` | portal_handlers.py:86-126 | "@news_channel" resolving to channel -100123 with the bot as administrator stores id -100123 and username "news_channel", whatever username the platform reports, and moves to PORTAL_PRIVATE_GROUP |
| `PortalProperties.ForwardedSupergroupNotAdmin` | portal_handlers.py:156-171 | a message forwarded from a supergroup where the bot is a plain member re-prompts PORTAL_PRIVATE_GROUP with the draft unchanged and the not-admin reply |
| `PortalProperties.WelcomeCreatedScenario` | portal_handlers.py:301-343 | with a complete draft, the service present and `create_portal` answering "pid_42", `/skip` ends the conversation with the pid_42 reply, passes no welcome message and removes the draft |
| `PortalProperties.WelcomeDraftMissingScenario` | portal_handlers.py:292-299 | with no draft the welcome step ends with the start-over reply and makes no `create_portal` call |

## Left out

- Telegram API calls and the portal service are oracles in `World`.
  Replies are recorded as a `Reply` kind; the reply text, Markdown and
  `logger` calls are not modelled.
- `format_portal_setup_message` is not modelled. The `PortalCreated` reply
  records the id, channel username and group title passed to it
  (lines 329-333).
- A failure of `reply_text` is not modelled. In the source, such a failure
  inside a `try` block would turn a success into a re-prompt after the
  draft was already written.
- Exceptions raised by `create_portal` and the `portal_service` import at
  line 308 are not modelled. The portal service module is not part of this
  model.
- The bot id argument of `get_chat_member` is left implicit: every lookup
  asks about the bot itself.
- The library's message filters (`filters.TEXT | filters.FORWARDED`, the
  `^setup$` regex on the entry command) and the order in which the library
  tries routes are not modelled. `Step` admits any handler that the table
  lists for the current state, and only the entry point while idle.
- `async`/`await`, concurrency between users, and persistence of the
  conversation are not modelled.
- One conversation per user is assumed. The conversation handler is built
  without per-chat or per-user options (lines 359-385), so a user can run
  the wizard in several chats at once. Those conversations share the one
  draft in `user_data`. Finishing or cancelling in one chat pops the draft
  (lines 342, 348), and a forwarded group in another chat's
  PORTAL_PRIVATE_GROUP state then fails at line 192.
  `ReachableHandlersAreSafe` does not cover that case, because `Session`
  pairs one conversation state with the draft.
- `PyInt.ParseInt`: does not accept surrounding whitespace, '_' digit
  separators or non-ASCII digits, which Python's `int()` accepts. Such text
  re-prompts in the model; in the source it would be looked up by id.
- Chat types other than private, group, supergroup and channel are
  folded into `Private`. The source only tests for the other three.
