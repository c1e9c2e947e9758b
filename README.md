# Telegram echo bot: the handler state machine

This project models the core of a small webhook-driven Telegram bot (`app.py`). The bot keeps one
process-wide state blob, `bot_data`. It holds a registry of users, keyed by sender id, with each
user's first name and the date of their last `/start`. It also holds a counter, `messages_processed`.
Four command handlers and one plain-text handler each read or update that state and send one reply:

- `/start` greets the sender and records them.
- `/help` sends a fixed list of commands.
- `/stats` reports the number of users and the counter.
- `/echo` echoes its arguments joined by spaces. It counts the message only when the joined text is not empty.
- Plain text gets "You said: ..." and is counted.

The dispatcher's routing table decides which handler an update reaches. An unknown command, or a
message without text, reaches none.

Layout:

- `text.dfy` holds `Wrappers` (Option) and `Text`. `Text` has `' '.join`, its inverse `split`, and
  decimal writing and reading of naturals, each with a round-trip lemma.
- `replies.dfy` (`Replies`) holds the reply texts. It includes the /stats text and a parser that reads the two counts back.
- `routing.dfy` (`Routing`) holds updates as the client library classifies them, the five handlers,
  and the routing function `Route` with its inverse `CommandName`.
- `bot_spec.dfy` (`BotSpec`) is the bot as a state machine on values. It has one function per
  handler, one dispatcher step `Step`, and `Run` over a sequence of updates, plus the lemmas.
- `bot_state.dfy` (`Bot`) is the class `BotState` whose fields the handlers update in place.
  `Dispatch` is proved to agree with `BotSpec.Step`.

Notes on the source:

- `app.py:62` reads `{len(bot_data['users']}`. Its parenthesis is unbalanced, so Python cannot parse
  the file as written. The model follows the evident intent: the number of entries in the user registry.
- `/echo` tests the joined text, not the argument list (`app.py:69-70`). The usage prompt is sent
  exactly when the arguments are `[]` or `[""]`. `["", ""]` joins to `" "`, so it is echoed and counted.
- When `/start` arrives without an effective user, `user.mention_markdown_v2()` at `app.py:38` raises
  before anything is sent or stored. The dispatcher catches handler errors, so the update has no effect.
  The model keeps that case: `sender` is an `Option`.

## Model

| member | source | states |
|---|---|---|
| `Text.JoinEmptyIff` | app.py:69-70 | with a non-empty separator, the joined text is empty exactly when there are no parts or a single empty part |
| `Text.JoinLength` | app.py:69 | the joined text is as long as all parts together plus one separator between each pair of neighbours |
| `Text.SplitJoin` | app.py:69 | splitting the joined text at the separator gives back the parts, provided no part contains the separator |
| `Text.NatToString` | app.py:62-63 | a number is written as a non-empty string of decimal digits with no leading zero |
| `Text.DigitsValueOfNatToString` | app.py:62-63 | reading the decimal numeral of n gives back n |
| `Text.NatToStringOfDigitsValue` | app.py:62-63 | every numeral without a leading zero is the one written for its value, so writing numbers reaches exactly those numerals |
| `Text.DigitRunOfPrefix` | app.py:62-63 | the run of digits at the front of a numeral followed by a non-digit is exactly that numeral |
| `Replies.StatsRoundTrip` | app.py:61-64 | the /stats text carries both counts: parsing it gives back the user count and the message counter |
| `Replies.ParseStatsExact` | app.py:61-64 | a text parses to (users, messages) only if it is exactly the /stats text for those counts; numbers with a leading zero are refused |
| `Replies.StatsTextInjective` | app.py:61-64 | different (users, messages) pairs give different /stats texts |
| `Replies.StatsTextExample` | app.py:61-64 | one user and two messages give "Users: 1", a newline, then "Messages processed: 2" |
| `Replies.RenderNamesCommands` | app.py:50-56 | every command listed in the help entries occurs in their rendering, whatever text precedes it |
| `Replies.HelpListsCommands` | app.py:50-56 | the /help text lists four commands, start, help, stats and echo in that order, and contains each of them with its slash |
| `Routing.Route` | app.py:102-108 | plain text, and only plain text, reaches the message handler; a message without text reaches nothing; any other handler is reached only by a command |
| `Routing.RouteCommandIff` | app.py:102-105 | a command reaches handler h exactly when h is registered under the command's name |
| `Routing.RouteUnknownCommand` | app.py:102-108 | a command reaches no handler exactly when no handler is registered under its name |
| `Routing.CommandNamesDistinct` | app.py:102-105 | no two handlers share a command name, so routing is one-to-one |
| `BotSpec.StartUpserts` | app.py:42-46 | /start replies with a greeting for the sender and sets their record to (first name, date), overwriting any earlier one; other users are unchanged; the user count grows by one only for a new id; the counter is unchanged |
| `BotSpec.StartRepeated` | app.py:42-46 | a second /start from the same id gives the same state as that /start alone: only the latest values are kept and the user count does not change |
| `BotSpec.StartWithoutUser` | app.py:36-38 | a /start update without an effective user is not answered and changes nothing |
| `BotSpec.EchoGuard` | app.py:67-75 | /echo leaves the state unchanged exactly when the arguments are none or one empty one, and then replies with the usage prompt; otherwise it replies "Echo: " + joined text, counts one message and leaves the users unchanged |
| `BotSpec.EchoRepeatsArgs` | app.py:69-74 | for non-empty space-free arguments, the echo reply is "Echo: " + joined text, and that text splits back into exactly the arguments |
| `BotSpec.TextCounted` | app.py:77-81 | plain text is answered "You said: " + text, counts one message and leaves the users unchanged |
| `BotSpec.ReadOnlyUpdates` | app.py:48-65 | /help, /stats and unrouted updates leave the state unchanged; /help replies with the constant help text, /stats with a text that parses to (number of users, counter), an unrouted update with nothing |
| `BotSpec.UnknownCommandIgnored` | app.py:102-108 | a command registered under no handler is not answered and changes nothing |
| `BotSpec.HelpNamesEveryCommand` | app.py:50-56 | the /help text names, with its slash, every command the dispatcher routes |
| `BotSpec.StepEffect` | app.py:43-81 | one update adds one to the counter exactly when it is counted (echo with non-empty text, or plain text) and adds to the registered ids exactly the sender of a /start |
| `BotSpec.RunCounter` | app.py:75-81 | after any sequence of updates, the counter has grown by exactly the number of counted updates in it |
| `BotSpec.RunUsers` | app.py:42-46 | after any sequence of updates, the registered ids are the earlier ones plus the sender of every /start that has one |
| `BotSpec.RunMonotone` | app.py:43-81 | across any sequence of updates the counter never decreases and no registered id disappears |
| `BotSpec.Scenario` | app.py:28-81 | from a fresh state, /start from A, `/echo hi` from A and plain text from B leave exactly A registered and a counter of 2, and /stats then reports 1 user and 2 messages |
| `Bot.BotState.constructor` | app.py:28-31 | the state starts with no users and a counter of 0 |
| `Bot.BotState.Start` | app.py:34-46 | updates the registry in place: the sender's record is replaced by (first name, date) and a greeting is returned; without a sender nothing changes and nothing is returned; the counter never changes |
| `Bot.BotState.Stats` | app.py:59-65 | reads the state only; the reply parses back to (number of users, counter), which by `Replies.ParseStatsExact` fixes the exact text |
| `Bot.BotState.Echo` | app.py:67-75 | for no arguments or one empty one, returns the usage prompt and leaves the counter; otherwise returns "Echo: " + joined text and adds one to the counter; users are never touched |
| `Bot.BotState.HandleMessage` | app.py:77-81 | returns "You said: " + text, adds one to the counter and leaves the users unchanged |
| `Bot.BotState.Dispatch` | app.py:97-108 | runs at most the one handler the routing table selects, and leaves the object holding exactly the state, and returning exactly the reply, of `BotSpec.Step`; the counter never decreases and no user disappears |

## Left out

- The Flask routes `index` and `webhook`, `Update.de_json`, and the constant "ok" response (app.py:84-94) are left out. They are HTTP plumbing around `Dispatch`.
- The bot token, `Bot`, `set_webhook`, environment lookups, logging and `app.run` (app.py:16-25, 112-127) are left out. They are configuration and I/O.
- The MarkdownV2 text of the /start greeting and `mention_markdown_v2` are client-library rendering. The greeting is the value `Greeting(user id, first name)`.
- Sending replies (`reply_text`, `reply_markdown_v2`) is left out. Each handler returns its reply, and sending is assumed to succeed. In the source each handler sends before it updates the state. A send that raised would therefore leave the state unchanged, and the model does not capture that.
- How the client library recognises a command is left out. That covers entity detection, the `@botname` suffix, case folding of the name and splitting the arguments. How it implements `Filters.text & ~Filters.command` is left out too, as are updates whose `message` is absent (edited messages, for one). The model starts from an update already classified as command, plain text, or neither.
- Message dates and first names are opaque values. They are stored and compared, never interpreted.
- Concurrent handling of updates is left out. The dispatcher is built with `workers=0` (app.py:99), and the model processes updates one at a time.
