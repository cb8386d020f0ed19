# Per-channel spam filter

A Dafny model of the spam filter in `SpamFilter.java`, a listener of a Discord bot.
Moderators turn the filter on or off per channel with the `/spamfilter state:<enable|disable>`
command. In a moderated channel the listener keeps, for each author, the times of their recent
messages. An author's first message in a channel only opens their history and is not recorded.
After that, a message is deleted when the author already has two recorded messages within the
last 7000 ms. Its author is warned, unless they were already warned in the last 8000 ms.

The listener's state is two maps:

- `channelRateTimestamps` maps each moderated channel to its authors, and each author to their
  recent message times. A channel is present exactly when it is moderated.
- `userWarnings` maps each warned author to the time of their last warning. A stale entry stays
  until that author's warning is checked again.

## How the model is built

- `filtering.dfy` (module `Filtering`): an order-preserving `Filter` over a sequence, with its
  lemmas. Two parts of the source use this shape: the pruning loop over an author's history, and
  the stream filter that builds autocomplete suggestions.
- `rate_window.dfy` (module `RateWindow`): the window and limit constants, `Prune`, and
  `PruneHistory`. `PruneHistory` is the source's loop (it keeps recent entries and counts them),
  proved equal to `Prune`. `Evaluate` classifies a message as a first message, allowed or
  filtered, and gives the history that is stored afterwards.
- `commands.dfy` (module `Commands`): lower-casing and validation of the `state` argument, the
  reply texts, the loop that builds the "unknown state" reply, and the autocomplete suggestions.
- `moderation.dfy` (module `Moderation`): the listener's state as a value, `State(channels,
  warnings)`. Each handler is a function from the old state to the new one: `SetChannel`,
  `CheckWarning`, `RecordWarning`, `HandleMessage` and `HandleCommand`. The lemmas about these
  functions state the filter's properties. `Run` applies a sequence of events, and
  `RunKeepsHistoriesShort` proves that the history bound holds after any sequence of events.
- `spam_filter.dfy` (module `Listener`): class `SpamFilter`, with the two maps as fields that its
  methods update in place, as the source does. Each method is proved to take the state
  (`Snapshot()`) to the state the matching `Moderation` function gives, and to return the same
  value. Each method also keeps the invariant that every stored history has fewer than 3 entries.
- `scenarios.dfy` (module `Scenarios`): three worked sessions. In the first, messages arrive at 0,
  1000, 2000, 3000 and 4000 ms. The second covers the warning cooldown, and the third a series of
  commands.

Interface choices:

- Time is an integer number of milliseconds. The clock is replaced by a `now` parameter.
- A message's creation time (`messageTime`) is separate from the time it is handled (`now`).
  Pruning compares stored entries with `now`, but the entry appended is `messageTime`.
- Calls into the gateway become returned values. The message handler returns an `Action`:
  `NoAction`, `Delete`, or `DeleteAndWarn(text)`. The command handler returns the reply text, or
  `None` when the command is not `spamfilter`. Autocomplete returns the list of suggestions.
- The author's bot flag and mention string are inputs.

Where the code and its comments differ, the model follows the code:

- The comment at `SpamFilter.java:85` says 5000 ms; the code uses 7000 ms (line 82).
- The comment at line 118 says the warning is deleted after 2 s; the code schedules 5 s.
- The first message from an author only creates an empty history; its time is not recorded
  (lines 74-77). With one message per second, the 2nd and 3rd messages are therefore allowed and
  the 4th is the first one filtered; a reading that counts the first message would filter the
  3rd. `Scenarios.BurstScenario` proves the code's behaviour.
- On the allowed path the source appends the message time to `updated_history` after storing
  that list (lines 98 and 103). The two are one object, so the append reaches the stored history.
  The model stores the appended sequence again, which gives the same final state.

## Model

| member | source | states |
|---|---|---|
| `Filtering.Filter` | src/main/java/me/matqt/discord/listener/SpamFilter.java:86-96 | keeping the entries that pass a test never makes the list longer |
| `Filtering.FilterSound` | src/main/java/me/matqt/discord/listener/SpamFilter.java:89-95 | every kept entry comes from the input and passes the test |
| `Filtering.FilterComplete` | src/main/java/me/matqt/discord/listener/SpamFilter.java:89-95 | every input entry that passes the test is kept |
| `Filtering.FilterMembership` | src/main/java/me/matqt/discord/listener/SpamFilter.java:89-95 | an entry is kept if and only if it is in the input and passes the test |
| `Filtering.FilterAppend` | src/main/java/me/matqt/discord/listener/SpamFilter.java:89-95 | filtering distributes over concatenation, so kept entries keep their relative order |
| `Filtering.FilterAllKept` | src/main/java/me/matqt/discord/listener/SpamFilter.java:89-95 | when every entry passes, the list is kept whole |
| `Filtering.FilterNoneKept` | src/main/java/me/matqt/discord/listener/SpamFilter.java:89-95 | when no entry passes, the result is empty |
| `Filtering.FilterIdempotent` | src/main/java/me/matqt/discord/listener/SpamFilter.java:89-95 | pruning an already pruned list again changes nothing |
| `RateWindow.Prune` | src/main/java/me/matqt/discord/listener/SpamFilter.java:82-96 | every retained timestamp was stored and is at most 7000 ms before `now` |
| `RateWindow.PruneHistory` | src/main/java/me/matqt/discord/listener/SpamFilter.java:86-96 | the loop's list is exactly the in-order pruned history, and its count is 1 plus that list's length |
| `RateWindow.TwoRecentThenFiltered` | src/main/java/me/matqt/discord/listener/SpamFilter.java:86-108 | with two stored messages inside the window, the next message is filtered with count 3 and the history is unchanged |
| `RateWindow.StaleHistoryAllowed` | src/main/java/me/matqt/discord/listener/SpamFilter.java:86-104 | when every stored timestamp has aged out, the message is allowed with count 1 and becomes the only entry |
| `RateWindow.Evaluate` | src/main/java/me/matqt/discord/listener/SpamFilter.java:73-104 | a first message is recognised exactly when there is no history, and stores nothing. An allowed message has a count below 3, and its history ends with the message time and holds count entries. A filtered message has a count of at least 3 and keeps count - 1 entries. Every stored time is the message time or a stored time within 7000 ms of `now` |
| `RateWindow.EvaluateBound` | src/main/java/me/matqt/discord/listener/SpamFilter.java:76-104 | evaluating a message never leaves a history of 3 or more entries |
| `Commands.ToLower` | src/main/java/me/matqt/discord/listener/SpamFilter.java:130 | lower-casing keeps the length, turns each upper-case ASCII letter into its lower-case letter (code point plus 32) and changes nothing else |
| `Commands.ToLowerIdempotent` | src/main/java/me/matqt/discord/listener/SpamFilter.java:130 | lower-casing a lowered value changes nothing |
| `Commands.ToggleReply` | src/main/java/me/matqt/discord/listener/SpamFilter.java:149-156 | the reply to a valid `state` ends in ✅ exactly when the channel changed, and in ❌ otherwise |
| `Commands.ToggleReplyDistinguishesOutcome` | src/main/java/me/matqt/discord/listener/SpamFilter.java:151-156 | the "changed" reply and the "already in that state" reply always differ |
| `Commands.StateOptionLines` | src/main/java/me/matqt/discord/listener/SpamFilter.java:137-138 | the listing in the validation reply names "enable" then "disable", one line each |
| `Commands.UnknownStateMessage` | src/main/java/me/matqt/discord/listener/SpamFilter.java:135-138 | the builder loop produces the header echoing the input, then one line per accepted value |
| `Commands.AutocompleteChoices` | src/main/java/me/matqt/discord/listener/SpamFilter.java:167-178 | there are suggestions iff the command is `spamfilter` and the focused option is `state`, and never more than the accepted values. Their contents are stated by `Commands.AutocompleteExact` |
| `Commands.AutocompleteExact` | src/main/java/me/matqt/discord/listener/SpamFilter.java:169-174 | suggestions are exactly the accepted values that start with the typed text, in option order, with name equal to value |
| `Commands.AutocompleteOtherInteraction` | src/main/java/me/matqt/discord/listener/SpamFilter.java:169-170 | suggestions are given only for the `state` option of the `spamfilter` command |
| `Commands.PrefixFilterOfOptions` | src/main/java/me/matqt/discord/listener/SpamFilter.java:171-174 | the filtered options are "enable" if it has the prefix, followed by "disable" if it has the prefix |
| `Commands.AutocompleteEn` | src/main/java/me/matqt/discord/listener/SpamFilter.java:171-174 | typing "en" suggests only "enable" |
| `Commands.AutocompleteEmpty` | src/main/java/me/matqt/discord/listener/SpamFilter.java:171-174 | typing nothing suggests "enable" then "disable" |
| `Commands.AutocompleteDis` | src/main/java/me/matqt/discord/listener/SpamFilter.java:171-174 | typing "dis" suggests only "disable" |
| `Commands.AutocompleteCaseSensitive` | src/main/java/me/matqt/discord/listener/SpamFilter.java:172 | the typed text is not lower-cased, so "EN" gives no suggestion |
| `Moderation.SetChannel` | src/main/java/me/matqt/discord/listener/SpamFilter.java:48-60 | the state changes exactly when enabling an unmoderated channel or disabling a moderated one. Afterwards the channel is present iff enabled, an enabled channel starts empty, and other channels and the warnings are untouched |
| `Moderation.CheckWarning` | src/main/java/me/matqt/discord/listener/SpamFilter.java:34-46 | true iff an entry exists with `now - stored <= 8000`. A true answer changes nothing, a stale entry does not survive the check, and other authors and the channels are untouched |
| `Moderation.RecordWarning` | src/main/java/me/matqt/discord/listener/SpamFilter.java:30-32 | the author's warning time becomes `now`; other authors' entries and the channels are untouched |
| `Moderation.EnableThenDisable` | src/main/java/me/matqt/discord/listener/SpamFilter.java:48-60 | enabling an unmoderated channel and then disabling it restores the original state |
| `Moderation.SetChannelIdempotent` | src/main/java/me/matqt/discord/listener/SpamFilter.java:49-59 | repeating an enable or disable reports no change and changes nothing |
| `Moderation.ReenableForgetsHistory` | src/main/java/me/matqt/discord/listener/SpamFilter.java:51-54 | disabling discards all histories, so after re-enabling, an author's next message is again a first message |
| `Moderation.IgnoredMessage` | src/main/java/me/matqt/discord/listener/SpamFilter.java:64-71 | messages from bots, or in unmoderated channels, change nothing and produce no action |
| `Moderation.FirstMessageNotFiltered` | src/main/java/me/matqt/discord/listener/SpamFilter.java:73-78 | an author's first message stores an empty history, records no time, is not filtered and leaves warnings alone |
| `Moderation.HandleMessage` | src/main/java/me/matqt/discord/listener/SpamFilter.java:63-116 | only a human author's message in a moderated channel, from an author who already has a history, is acted on. A warning carries the author's mention text, and the set of moderated channels never changes. Its classification and warning rules are stated by `Moderation.MessageClassification` and `Moderation.WarningGate` |
| `Moderation.HandleMessageFrame` | src/main/java/me/matqt/discord/listener/SpamFilter.java:73-112 | only the author's entry in the message's channel, and only the author's warning entry, can change |
| `Moderation.MessageClassification` | src/main/java/me/matqt/discord/listener/SpamFilter.java:86-108 | retained means stored and within 7000 ms of `now`. Below the limit the message is kept, stored as retained plus the message time, and the warnings are unchanged; at the limit it is acted on and only the retained entries are stored |
| `Moderation.WarningGate` | src/main/java/me/matqt/discord/listener/SpamFilter.java:108-116 | a filtered message is always deleted. It is warned, with the warning text and `warnings[author] := now`, iff the author was not warned within 8000 ms; otherwise the warnings are unchanged |
| `Moderation.HandleMessageKeepsValid` | src/main/java/me/matqt/discord/listener/SpamFilter.java:76-104 | handling a message keeps every stored history shorter than 3 |
| `Moderation.HandleCommand` | src/main/java/me/matqt/discord/listener/SpamFilter.java:128-163 | there is a reply iff the command is `spamfilter`; with no reply nothing changes. The warnings and every other channel are untouched. The replies are stated by `Moderation.CommandOutcome` |
| `Moderation.CommandOutcome` | src/main/java/me/matqt/discord/listener/SpamFilter.java:130-162 | an unknown lowered `state` changes nothing, and the reply lists "enable" and "disable". A valid one toggles through `SetChannel`, its reply is the enable or disable text of lines 151-156 for that outcome, and it ends in ✅ iff the state changed and in ❌ iff nothing changed |
| `Moderation.OtherCommandIgnored` | src/main/java/me/matqt/discord/listener/SpamFilter.java:129 | any other command gets no reply and changes nothing |
| `Moderation.HandleCommandKeepsValid` | src/main/java/me/matqt/discord/listener/SpamFilter.java:48-60 | commands keep every stored history shorter than 3 |
| `Moderation.RunKeepsHistoriesShort` | src/main/java/me/matqt/discord/listener/SpamFilter.java:76-104 | starting from an empty listener, after any sequence of messages and commands, every stored history has at most 2 entries |
| `Listener.SpamFilter.constructor` | src/main/java/me/matqt/discord/listener/SpamFilter.java:22-28 | a new listener moderates no channel and has warned nobody |
| `Listener.SpamFilter.UpdateUserWarning` | src/main/java/me/matqt/discord/listener/SpamFilter.java:30-32 | the author's warning time becomes `now`; nothing else changes |
| `Listener.SpamFilter.WasWarnedRecently` | src/main/java/me/matqt/discord/listener/SpamFilter.java:34-46 | the in-place update and result are those of `CheckWarning` |
| `Listener.SpamFilter.SetSpamFilterChannel` | src/main/java/me/matqt/discord/listener/SpamFilter.java:48-60 | the in-place update and result are those of `SetChannel`, and the history bound is kept |
| `Listener.SpamFilter.OnMessageReceived` | src/main/java/me/matqt/discord/listener/SpamFilter.java:63-116 | the in-place update and action are those of `HandleMessage`, and the history bound is kept |
| `Listener.SpamFilter.OnSlashCommandInteraction` | src/main/java/me/matqt/discord/listener/SpamFilter.java:128-163 | the in-place update and reply are those of `HandleCommand`, and the history bound is kept |
| `Scenarios.UnsaturatedPost` | src/main/java/me/matqt/discord/listener/SpamFilter.java:86-104 | when the whole stored history has fewer than two entries, all within 7000 ms of `now`, a message sent at `now` is allowed and `now` is appended to the history |
| `Scenarios.SaturatedPost` | src/main/java/me/matqt/discord/listener/SpamFilter.java:86-112 | with two recent entries, a message is filtered, the history is unchanged, and only the warning gate decides the action |
| `Scenarios.BurstScenario` | src/main/java/me/matqt/discord/listener/SpamFilter.java:73-112 | messages at 0, 1000, 2000, 3000 and 4000 ms give nothing, nothing, nothing, delete-and-warn, delete. Afterwards the history is [1000, 2000] and the warning time is 3000 |
| `Scenarios.CooldownScenario` | src/main/java/me/matqt/discord/listener/SpamFilter.java:30-46 | a warning is recent 7999 ms later. 8001 ms later it is stale, and it is removed |
| `Scenarios.CommandScenario` | src/main/java/me/matqt/discord/listener/SpamFilter.java:128-163 | enable ✅, then "ENABLE" ❌, then "Maybe" gives the validation reply, then "Disable" ✅, then another command gets no reply |

## Left out

- Gateway calls are not modelled: deleting the message, sending the warning, the ephemeral
  command reply and `replyChoices` (lines 108, 119-120, 141, 162 and 177). They are asynchronous
  calls into the chat library, so the handlers return an `Action`, a reply text or the list of
  suggestions instead.
- The deletion of the warning message 5 s after it is sent (lines 119-124) is not modelled. It is
  a task on a thread pool, and `DeleteAndWarn` stands for "post, then delete later".
- Concurrency is not modelled: the maps are plain `HashMap`s used from the library's event
  threads, and the scheduler has 16 threads (`DiscordBot.java:18`). Every event is handled one at
  a time, in the order given.
- The clock is not modelled. `OffsetDateTime.now()` is read up to three times per message (lines
  87, 39 and 31); the model uses one `now` per handled message. Times are whole milliseconds, so
  the sub-millisecond rounding of `Duration.toMillis` does not arise.
- `Commands.ToLower` maps only ASCII `A`-`Z`, while Java's `toLowerCase()` uses the default locale
  and all of Unicode. Under a Turkish locale, for example, "DISABLE" would not lower to
  "disable". Non-ASCII characters echoed in the validation reply are also left as typed.
- Strings are sequences of Unicode scalar values. 🤔 (line 136) and 😮 (line 116) are one
  character each here, where Java's UTF-16 strings hold each as a surrogate pair of two code
  units. ✅ and ❌ (lines 151-156) are a single code unit in Java as well, so `Commands.ToggleReply`'s
  last-character property holds for the Java strings too.
- The inner per-channel `HashMap` objects are not modelled as shared objects: they are map values
  nested in `channelRateTimestamps`. No other reference to them exists in the source.
- The fallback reply "Error while processing command" (lines 157-158) is not modelled. The
  validation just before it makes that branch unreachable, so the model's second branch handles
  "disable".
- The bot flag (`isBot()`) and the author mention (`getAsMention()`) are inputs, not computed.
  Missing options are not modelled either: `state` is a required option (`DiscordBot.java:39`),
  so `getOption("state")` is taken to be present.
- Who may use the command (`MANAGE_CHANNEL`, `DiscordBot.java:40`) is enforced by the chat
  platform and is not modelled.
- `DiscordBot.java` is not part of this model beyond the command name `spamfilter` (line 28).
  It is the bot's startup code: the token, the client builder and the registration of listeners
  and commands. `build.gradle.kts` is build configuration and is not part of this model either.
