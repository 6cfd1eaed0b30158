# King Marketing WhatsApp bot: a Dafny model

The repository holds two near-identical WhatsApp chatbots for a marketing
agency: `bot-baileys.js`, on the Baileys socket library, and `bot.js`, on
whatsapp-web.js. Both run the same menu-driven conversation over a per-sender
`session.step`. The conversation collects two kinds of lead, a quote request
(`cotizacion`) and a meeting request (`reunion`). Each lead is appended to a
JSON file for its type. Both bots also try to reconnect when the transport
drops.

The model has seven modules:

- `JsText` (`text.dfy`): the string built-ins the bots use. These are `trim`,
  `toLowerCase` (Basic Latin and Latin-1 letters), `includes`, and the decimal
  rendering of an integer in a template literal.
- `Choices` (`choices.dfy`): the digit→label tables at the five choice points
  and the lookup `table[userMessage] || messageText`.
- `Leads` (`leads.dfy`): `saveLead`. The file system is a map from file name
  to what `JSON.parse` makes of the file. `LeadStore` is a class whose
  `SaveLead` method is proved against the specification function `Saved`.
- `Conversation` (`conversation.dfy`): the shared transition table `Next`
  over `session.step` (the next session, the one reply kind, and the lead to
  save, if any). It also holds whole conversations (`Converse`) and the
  process-wide world of sessions and lead files.
- `BaileysBot` (`baileys.dfy`): covers `bot-baileys.js`.
  - `getDisconnectReason`.
  - The `connection.update` reconnection policy with its `reconnectAttempts`
    counter.
  - `messages.upsert` and `handleMessage`, as methods of the class `Bot`, which
    holds the file's globals. Each method is proved against a specification
    function.
- `WebClientBot` (`wweb.dfy`): covers `bot.js`.
  - `handleConversation`, `handleMainMenu` and `handleServicesMenu`. Here each
    reply is awaited inside a try block, so the model takes whether the reply
    is delivered as an input.
  - The `message` handler.
  - The `disconnected`/`ready` handlers with the `isReconnecting` flag.
- `Variants` (`variants.dfy`): how the two bots' keyword lists relate.

Reply texts are modelled as reply kinds: `Welcome`, `Services`, `QuoteSummary(...)` and so on. A reply
kind keeps the values the text interpolates. Where the two bots word a reply differently, both
texts are the same kind: the '5' reply `Advisor` of bot.js:286 ends with a note that the bot is a
demonstration, which bot-baileys.js:319 does not have. Anything the code does not
decide is a parameter:

- the clock (`new Date().toISOString()`);
- whether a reply is delivered;
- the values of the library's `DisconnectReason` constants.

Three behaviours are modelled as the code has them, not as a tidier design would:
- "menu" is not a universal way back. In `menu_principal` it is not understood, and in a
  field-collection step it is stored as the answer (`MenuIsNotUniversal`).
- `bot-baileys.js` does not stop a second reconnect timer from being scheduled
  (`TwoTimersPossible`).
- A `startBot` that throws is not retried. The first call exits the process,
  and a call from a reconnect timer only produces a logged unhandled rejection
  (`OnStartFailure`).

## Model

| member | source | states |
|---|---|---|
| JsText.TrimStartShape | bot-baileys.js:225 | `trim` keeps a suffix; everything it drops from the front is whitespace; the result does not start with whitespace |
| JsText.TrimEndShape | bot-baileys.js:225 | `trim` keeps a prefix; everything it drops from the back is whitespace; the result does not end with whitespace |
| JsText.TrimShape | bot-baileys.js:225 | the trimmed token is the infix after the leading whitespace, everything outside it is whitespace, and neither of its ends is whitespace |
| JsText.ToLowerLowers | bot-baileys.js:225 | lower-casing keeps the length, leaves a string no further lower-casing changes, turns each Basic Latin and Latin-1 capital into the small letter the `BasicSmallOf` and `LatinSmallOf` tables give, and leaves every other character as it was |
| JsText.LowerCharFollowsTable | bot-baileys.js:225 | one character is lowered exactly as the `BasicSmallOf` and `LatinSmallOf` tables say: table capitals to their small letters, everything else unchanged |
| JsText.NormalizeIdempotent | bot-baileys.js:225 | normalising the token `toLowerCase().trim()` a second time gives the same token |
| JsText.DecimalRoundTrip | bot-baileys.js:293 | the digits `${code}` renders read back as the number |
| JsText.IntToStringInjective | bot-baileys.js:293 | distinct integers render as distinct texts |
| JsText.HorarioContainsHora | bot.js:292 | a token that contains "horario" contains "hora" |
| Choices.Lookup | bot-baileys.js:361-369 | a recognised digit gives its label; any other token gives the raw, untrimmed text; the result is a label or the raw text |
| Choices.TablesAreDigitMenus | bot-baileys.js:361-430 | the service and budget tables have exactly the keys 1-5; the meeting type, date and time slot tables have exactly 1-3 |
| Choices.ServiceTwoIsDigitalAdvertising | bot-baileys.js:362-369 | '2' at the service choice stores "Publicidad Digital" |
| Choices.LookupAsWritten | bot-baileys.js:369 | JavaScript's lookup also finds members inherited from `Object.prototype`, and keeps the raw text only for other tokens |
| Choices.ConstructorIsNotStoredAsText | bot-baileys.js:369 | the answer "constructor" at the service choice stores the inherited `Object` function, not the text |
| Choices.LookupAgreesOffPrototype | bot-baileys.js:369 | the corrected lookup agrees with the one as written on every token that is not an inherited member, and stores the raw text on those |
| Leads.LeadRecord | bot-baileys.js:22-26 | the record has the data's keys plus `tipo` and `fecha`; data values win; `tipo` and `fecha` hold the arguments when the data lacks them |
| Leads.SaveAppends | bot-baileys.js:28-41 | the list for `tipo` grows by exactly one; prior entries stay in place; the new record is last; a missing or unparseable file yields a one-element list |
| Leads.NotAListLosesTheLead | bot-baileys.js:33-44 | a file holding JSON that is not a list makes `push` throw: nothing is written |
| Leads.OtherTypesUntouched | bot-baileys.js:28 | saving one type never touches another type's file |
| Leads.FileNameInjective | bot-baileys.js:28 | distinct lead types use distinct file names |
| Leads.LeadStore.SaveLead | bot-baileys.js:19-46 | the store after the call is `Saved` of the store before it (identical in bot.js:210-241) |
| Conversation.StartWelcomes | bot-baileys.js:301-304 | from `inicio` or an unlisted step (the `default` at bot-baileys.js:439-441), the reply is Welcome, the step becomes `menu_principal`, data is unchanged |
| Conversation.MainMenuMoves | bot-baileys.js:306-329 | in `menu_principal` the step changes exactly for '1', '2' and '3', to `servicios`, `cotizacion_nombre` and `reunion_tipo`; data is untouched and nothing is saved |
| Conversation.MainMenuReplies | bot-baileys.js:316-328 | '4' gives Cases and '5' Advisor; otherwise price, then hours, then location keywords decide the reply, first match wins, else NotUnderstood, each as an if-and-only-if |
| Conversation.ServicesMenuMoves | bot-baileys.js:331-347 | in `servicios` '1' and '2' start the flows, '3' gives Cases and returns to the menu, '4' or 'menu' gives Welcome and returns, anything else gives InvalidOption and keeps the step |
| Conversation.MentionsTwo | bot-baileys.js:320 | a keyword group matches exactly when one of its words is included in the token |
| Conversation.CollectStepsFollowTable | bot-baileys.js:349-436 | each collect step stores its answer under its own field, through its table when it has one, and moves to its fixed successor |
| Conversation.ChoiceStoresLabelOrRaw | bot-baileys.js:361-430 | at a choice point a recognised digit stores its label and any other token stores the raw text |
| Conversation.LeadsOnlyAtFlowEnds | bot-baileys.js:374-437 | a lead is saved exactly at `cotizacion_presupuesto` ('cotizacion', then `cotizacion_final`) and `reunion_datos` ('reunion', then `menu_principal`), carrying the updated data |
| Conversation.QuoteFinalReturnsToMenu | bot-baileys.js:388-397 | `cotizacion_final` always returns to the menu; only non-'menu' input sets `comentarios`; no lead is saved |
| Conversation.MenuIsNotUniversal | bot-baileys.js:326-350 | "menu" in `menu_principal` is not understood and keeps the step; in `cotizacion_nombre` it is stored as the name |
| Conversation.NextStepKnown | bot-baileys.js:300-442 | every transition lands on a step the switch lists |
| Conversation.DataOnlyGrows | bot-baileys.js:349-437 | no key is ever removed, only the handled step's field changes, and the data keys stay among the flows' field names |
| Conversation.RewriteIsHarmless | bot-baileys.js:349-437 | redoing a transition from its own resulting data at its starting step gives the same outcome |
| Conversation.OneReplyPerMessage | bot-baileys.js:444-450 | a conversation of n messages gets exactly n replies and at most n leads |
| Conversation.ConverseCollect | bot-baileys.js:349-436 | a conversation at a collect step continues from the successor step with the answer stored |
| Conversation.ConverseSnoc | bot-baileys.js:349-436 | one more message continues the conversation from the session the earlier ones left, adding its one reply and its lead, if any |
| Conversation.QuoteFlowSavesOnce | bot-baileys.js:349-386 | name, company, service and budget from `cotizacion_nombre` end in `cotizacion_final` with all four fields and exactly one 'cotizacion' lead |
| Conversation.MeetingFlowSavesOnce | bot-baileys.js:399-437 | type, date, time slot and contact from `reunion_tipo` end in `menu_principal` with exactly one 'reunion' lead |
| Conversation.MeetingFlowTail | bot-baileys.js:421-437 | time slot and contact end the meeting flow with its one lead |
| Conversation.MeetingLeadDateOverridesTimestamp | bot-baileys.js:22-26 | in a meeting lead the chosen date (`data.fecha`, set at bot-baileys.js:416) replaces the timestamp |
| Conversation.LeadTypeIntact | bot-baileys.js:22-26 | with the flows' field names as data keys, the record's `tipo` is the one passed |
| BaileysBot.DisconnectReason | bot-baileys.js:275-294 | a listed code gives its entry's label; any other code gives `Error desconocido (<code>)` |
| BaileysBot.LiteralCodesWin | bot-baileys.js:284-290 | the seven literal codes keep their own labels, whatever the library constants are |
| BaileysBot.TimedOutLabel | bot-baileys.js:277-283 | `timedOut`, the last library entry, keeps its label unless it equals a literal code |
| BaileysBot.RestartRequiredLabel | bot-baileys.js:277-283 | `restartRequired` keeps its label unless it equals a literal code or `timedOut` |
| BaileysBot.LoggedOutLabel | bot-baileys.js:277-283 | `loggedOut` keeps its label unless it equals a literal code or a constant written after it |
| BaileysBot.ConnectionReplacedLabel | bot-baileys.js:277-283 | `connectionReplaced` keeps its label unless it equals a literal code or a constant written after it |
| BaileysBot.ConnectionLostLabel | bot-baileys.js:277-283 | `connectionLost` keeps its label unless it equals a literal code or a constant written after it |
| BaileysBot.ConnectionClosedLabel | bot-baileys.js:277-283 | `connectionClosed` keeps its label unless it equals a literal code or a constant written after it |
| BaileysBot.BadSessionLabel | bot-baileys.js:277-283 | `badSession`, the first entry, keeps its label unless it equals a literal code or any other constant |
| BaileysBot.ShadowedConstantTakesLaterLabel | bot-baileys.js:277-283 | a constant equal to a later one gets the later entry's label: `badSession` equal to `timedOut` reads as `timedOut` |
| BaileysBot.UnknownReasonNamesTheCode | bot-baileys.js:293 | two unlisted codes never get the same text |
| BaileysBot.WaitSeconds | bot-baileys.js:179 | the wait is at most 10 s and at most twice the attempt count, exactly twice it up to 5 attempts |
| BaileysBot.OnUpdate | bot-baileys.js:162-209 | a reconnect is scheduled iff a non-loggedOut close arrives with fewer than 5 prior attempts, after 2000·attempts ms ≤ 10000; exit(1) iff loggedOut or the ceiling is passed; `open` resets the counter; other updates change nothing |
| BaileysBot.LoggedOutIsFatal | bot-baileys.js:167-200 | a loggedOut close exits at once and schedules nothing |
| BaileysBot.OtherClosesCount | bot-baileys.js:163-176 | every other close increments the counter, a non-Boom error with a null code included |
| BaileysBot.BackoffSchedule | bot-baileys.js:175-194 | six drops from a fresh counter wait 2, 4, 6, 8, 10 s and then exit |
| BaileysBot.TwoTimersPossible | bot-baileys.js:175-185 | two drops before any `open` schedule two reconnects, 2 s and 4 s, with no guard against the first still being scheduled |
| BaileysBot.BackoffBounded | bot-baileys.js:175-194 | without `open`, delays never shrink, stay within 2000·(attempts+1)..10000 ms, the counter never falls, and at most 5 − attempts reconnects are scheduled |
| BaileysBot.OpenRestartsSchedule | bot-baileys.js:202-203 | after `open` the next drop waits 2 s again |
| BaileysBot.OnStartFailure | bot-baileys.js:259-271 | a throwing `startBot` is never retried; it is fatal exactly on the first start (bot-baileys.js:467-474) |
| BaileysBot.FailedRestartIsFinal | bot-baileys.js:175-185 | a timer-started `startBot` that throws adds no reconnect to those already scheduled, so the run ends there; at the first start the failure is the exit |
| BaileysBot.FirstMessageCreatesSession | bot-baileys.js:235-246 | a new sender's message creates exactly one session, for that sender, which the welcome moves to `menu_principal` with empty data; others and the files are unchanged |
| BaileysBot.OnlyTheSenderChanges | bot-baileys.js:243-246 | a message touches only its sender's session |
| BaileysBot.IgnoredChangesNothing | bot-baileys.js:219-228 | own messages, empty entries, groups and broadcasts change nothing and get no reply |
| BaileysBot.ReceiveKeys | bot-baileys.js:228-246 | one message adds its sender's session unless skipped, and exactly one reply when handled |
| BaileysBot.SessionsAreSenders | bot-baileys.js:213-251 | after a batch, the sessions are those before plus one per sender of a handled message, and exactly one reply is sent per handled message |
| BaileysBot.OneSenderConverses | bot-baileys.js:213-251 | a batch of handled messages from one sender leaves that sender's session where the engine's conversation over their normalised texts ends, and sends exactly its replies, in order, to that sender |
| BaileysBot.GroupsNeverGetSessions | bot-baileys.js:228 | a group or broadcast id never gets a session |
| BaileysBot.Bot.constructor | bot-baileys.js:9-16 | no sessions and a zero counter at start |
| BaileysBot.Bot.HandleMessage | bot-baileys.js:297-452 | the imperative switch writes back `Next`'s session, saves `Next`'s lead before the reply, and returns `Next`'s reply |
| BaileysBot.Bot.OnMessage | bot-baileys.js:217-246 | the loop body leaves the sessions, files and replies `Receive` specifies |
| BaileysBot.Bot.OnUpsert | bot-baileys.js:213-251 | a non-`notify` batch changes nothing; a `notify` batch, handled in order, gives `ReceiveAll` |
| BaileysBot.Bot.OnConnectionUpdate | bot-baileys.js:150-210 | the counter and the action are those of `OnUpdate` |
| WebClientBot.Attempt | bot.js:83-207 | the first reply is always the transition's; its data writes stay; a delivered reply advances the step and saves the transition's lead; a rejected one keeps the step, saves nothing, and adds the apology |
| WebClientBot.FailedReplyKeepsAnswer | bot.js:101-104 | a rejected reply at a collect step leaves the field written and the step unchanged |
| WebClientBot.DeliveredFlowEndsSave | bot.js:126-140 | a lead is saved exactly when the reply at `cotizacion_presupuesto` or `reunion_datos` is delivered: 'cotizacion' or 'reunion' with the session's data (also bot.js:188-193) |
| WebClientBot.RetryRecovers | bot.js:101-206 | resending the same text after a rejected reply ends exactly where a delivered first attempt would |
| WebClientBot.FirstMessageCreatesSession | bot.js:65-76 | a new sender gets exactly one session: `menu_principal` if the welcome is delivered, `inicio` if not |
| WebClientBot.IgnoredChangesNothing | bot.js:61 | group messages and status updates change nothing |
| WebClientBot.OnClientEvent | bot.js:395-410 | a timer of 5000 ms starts iff a disconnect other than 'LOGOUT' arrives with the flag clear; `ready` clears the flag |
| WebClientBot.AtMostOnePendingTimer | bot.js:398-409 | between `ready` events at most one timer starts, none once the flag is set, all of 5000 ms |
| WebClientBot.LogoutNeverSchedules | bot.js:398 | 'LOGOUT' never starts a timer and leaves the flag |
| WebClientBot.NoCeiling | bot.js:43-47 | n rounds of disconnect and `ready` start n timers: there is no attempt ceiling |
| WebClientBot.HandleMainMenu | bot.js:264-300 | the reply is the main-menu reply; the step moves only when the reply is delivered and the token is '1', '2' or '3' |
| WebClientBot.HandleServicesMenu | bot.js:365-387 | the reply is the services reply; the step moves only when the reply is delivered and the token is '1' to '4' or 'menu' |
| WebClientBot.Bot.constructor | bot.js:29-33 | no sessions and the flag clear at start |
| WebClientBot.Bot.HandleConversation | bot.js:83-207 | the imperative switch leaves the session, files and replies `Attempt` specifies |
| WebClientBot.Bot.OnMessage | bot.js:55-80 | the handler leaves the sessions, files and replies `Receive` specifies |
| WebClientBot.Bot.OnDisconnected | bot.js:395-410 | the flag and the timer are those of `OnClientEvent` |
| WebClientBot.Bot.OnReady | bot.js:43-47 | `ready` clears the flag |
| Variants.KeywordsOnlyMatterInMainMenu | bot.js:289-299 | the keyword lists change only the main-menu reply; sessions and leads are the same for both bots |
| Variants.KeywordRepliesAgree | bot.js:290-298 | without "cuanto", "hora" or "donde" in the token, both bots give the same keyword reply |
| Variants.WebRecognisesMore | bot.js:290-295 | whatever keyword bot-baileys.js recognises bot.js recognises too, and a price match stays a price match |

## Left out

- Socket and client construction, QR rendering, console output, `creds.update`, `SIGINT` and
  `unhandledRejection` handlers: foreign library calls and I/O. `process.exit` is the `Fatal` action.
- Timers, the `delay(1000)` pacing and the sending of messages: a scheduled reconnect is a delay
  value and a reply is a reply kind. What the reconnect timer's `startBot()` / `client.initialize()`
  then does is not modelled beyond `OnStartFailure`.
- The values of `DisconnectReason.*`: they are parameters (`LibraryCodes`).
- Real file I/O and JSON text: the store is a map from file name to the parsed content. A failing
  `writeFileSync` (caught and logged) is not modelled.
- `BaileysBot.Delivered`: records every reply as sent. A rejected `sendMessage` in bot-baileys.js is
  caught per message after the session and any lead are already written, so it changes no modelled state.
- `Conversation.Next`: at the five choice points it uses the corrected `Choices.Lookup`, so on a token
  naming a member inherited from `Object.prototype` that survives lower-casing ("constructor", "__proto__") it
  stores the raw text where bot-baileys.js:369, 382, 405, 416, 427 and bot.js:121-183 store that member.
  The same holds for `BaileysBot.Bot.HandleMessage` and `WebClientBot.Bot.HandleConversation`, which
  follow `Next`. On every other token the two lookups agree (`Choices.LookupAgreesOffPrototype`).
- Interleaving of async handlers: batches and messages are handled one after the other.
- `JsText.LowerChar`: lower-cases only Basic Latin and Latin-1 letters. Other scripts are not
  lower-cased.
- `BaileysBot.DisconnectReason`: drops the `||` test for an empty label, because every label is a non-empty literal.
- `BaileysBot.Inbound`: `remoteJid` is always a string. A missing id, which makes `includes` throw and
  the entry be skipped by the catch, is not modelled.
- `WebClientBot.Attempt`: a rejected apology has no effect on the state, so it is not modelled
  separately. `message.body` is always a string.
- The `getMessage` callback, the `sock.ws` close log, and the logging of `getDisconnectReason` at a
  close: they change no state.
- test-conexion.js and limpiar-sesion.js are not part of this model (network probes and folder
  deletion).

## Findings

| source | as written | input that shows it | evidently intended | confidence | as-written member | corrected member |
|---|---|---|---|---|---|---|
| bot-baileys.js:369 | `servicios[userMessage] \|\| messageText` reads the prototype chain of the object literal (same at bot-baileys.js:382, 405, 416, 427 and bot.js:121-183) | answering "constructor" at `cotizacion_servicio` stores the built-in `Object` function instead of the text ("__proto__" stores `Object.prototype`) | a token that is not a table key stores the raw text | not executed | Choices.LookupAsWritten, Choices.ConstructorIsNotStoredAsText | Choices.Lookup, Choices.LookupAgreesOffPrototype |
