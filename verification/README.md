# Nightlife bot core, modelled in Dafny

This project models the deterministic core of a WhatsApp bot that recommends
clubs and events in London. For each incoming message, the bot:

1. saves the message to the user's chat history in Firebase;
2. asks a language model whether the user wants events, and for which date;
3. then takes one of two paths:
   - **Events.** It matches clubs against a rule table using the stored preference record. It then looks up the `events` table for the asked date and, while fewer than five entries are collected, up to seven following days. It sends the list.
   - **Clubs.** It asks the model to extract preferences and spreads them over the stored record. It saves the result, matches clubs, and looks up details for the first five in the `venues` table. It sends the list.

Any exception ends the turn with one fixed error message. A separate
slot-filling node of the conversation graph asks for a location and a date,
then sends a questionnaire.

Modules, one per source file:

- `Values`: JavaScript values, truthiness, `.length`, template rendering, and the `forEach(… += …)` reply builder.
- `Llm`: `trim`, the `{…}` guard and the parse fallback.
- `Clubs`: `functions/clubs.js`.
- `Gpt`: `functions/gpt.js`.
- `Events`: `functions/events.js`.
- `EventHandler`: `functions/handlers/eventHandler.js`.
- `ClubHandler`: `functions/handlers/clubHandler.js`.
- `Backend`: the Firebase database and the WhatsApp outbox, as a class whose methods update its fields.
- `ResponseProcessor`: `functions/responseProcessor.js`.
- `ProfileContext`: `functions/langgraph/nodes/profileContextNode.js`.

The model treats the bot's collaborators as follows:

- **Language model.** Its reply is a parameter: `Threw` or `Replied(text)`.
- **`JSON.parse`.** A parameter from text to an optional value.
- **Supabase tables.** Parameters: a function from (club, date) to the rows, or an error, for `events`; a function from a batch of names for `venues`.
- **Rule table.** `clubs.json` is a `seq<Rule>` parameter.
- **Date arithmetic.** `new Date(d)`, `setDate` and `toISOString` are one parameter, `addDays(date, i)`.
- **Firebase.** Modelled by the `Backend.World` class. Its fields are per-user chat histories and preference records, plus a flag saying whether the database is reachable during the turn.
- **WhatsApp sends.** Appended to the `outbox` field of `Backend.World`.

## Model

| member | source | states |
|---|---|---|
| Values.AppendBlocks | functions/handlers/clubHandler.js:16-27 | the `forEach` that appends one block per element returns the header followed by the blocks of all elements, in order |
| Values.BlocksAppend | functions/handlers/eventHandler.js:22 | the blocks of a concatenated list are the blocks of the first part followed by those of the second |
| Values.Blocks | functions/handlers/eventHandler.js:32-39 | the text `forEach(x => text += block(x))` adds: one block per element, in order |
| Values.Truthy | functions/handlers/eventHandler.js:7 | JavaScript truthiness: `undefined`, `null`, `false`, `0` and `""` are falsy, arrays are truthy |
| Values.OrElse | functions/clubs.js:65-72 | `v \|\| fallback` is `v` when truthy and the fallback otherwise |
| Values.RenderOr | functions/handlers/eventHandler.js:34-38 | `${v \|\| fallback}` shows the fallback for a falsy value and a truthy string as stored |
| Values.Render | functions/handlers/eventHandler.js:31-38 | `${v}`: `undefined` shows as `undefined`, other values as `RenderValue` shows them |
| Values.RenderValue | functions/handlers/clubHandler.js:19 | `String(v)`: `null`, `true`/`false`, decimal numbers with a leading `-` when negative, strings as stored, arrays through `JoinItems` |
| Values.JoinItems | functions/handlers/clubHandler.js:19 | an array shows as its elements joined by commas, with `null` elements shown empty |
| Values.HasLength | functions/handlers/eventHandler.js:7 | reading `.length` throws exactly for `undefined` and `null`; it is truthy only for a non-empty string or array |
| Llm.Trim | functions/events.js:30 | `trim()` gives a prefix of what remains after the leading white space goes; everything cut after it is white space; the result neither starts nor ends with white space |
| Llm.ParseOr | functions/events.js:30-40 | the result is the parsed reply exactly when the call returned, the trimmed text is `{…}`-delimited and the parse succeeds; a throwing call, an undelimited text or a failed parse gives the fallback |
| Llm.Braced | functions/gpt.js:74 | `startsWith("{") && endsWith("}")` |
| Llm.UnbracedReplyFallsBack | functions/gpt.js:72-84 | a reply that does not start with `{` once trimmed gives the fallback, whatever the parser would make of it |
| Clubs.FindRule | functions/clubs.js:8-34 | `rules.find` gives the index of a rule whose four tests hold and before which no rule's tests hold; none only when no rule's tests hold |
| Clubs.Hits | functions/clubs.js:15-17 | `some(pref => pool.includes(pref))`: some user tag is a string in the pool |
| Clubs.Grouped | functions/clubs.js:13 | grouped mode: the rule's music is an object with `group_a`, `group_b` and a truthy `match_mode` |
| Clubs.FlatPool | functions/clubs.js:25 | the flat pool: both groups' tags when the rule is an object, its own tags when it is an array |
| Clubs.MusicMatches | functions/clubs.js:13-27 | grouped mode needs a hit in each group; otherwise a hit in the flat pool |
| Clubs.RuleMatches | functions/clubs.js:9-33 | the four tests: music, strict-equal budget, a shared vibe tag, and gender listed |
| Clubs.MatchClubs | functions/clubs.js:36-40 | the result is the winning rule's `clubs` list unchanged, or `[]` when no rule wins |
| Clubs.ProfileOf | functions/clubs.js:15-30 | a rule's tests can be evaluated exactly when the user's `music_preferences` and `vibe` are both arrays |
| Clubs.GetMatchingClubs | functions/clubs.js:7-41 | an empty table gives `[]`; otherwise the call throws exactly when music or vibe is not an array, and otherwise returns the first matching rule's clubs |
| Clubs.FirstSatisfyingRuleWins | functions/clubs.js:8-38 | when rule `i` is the first whose tests hold, the result is rule `i`'s clubs; no later rule and no union of rules is returned |
| Clubs.NoSatisfyingRuleGivesNothing | functions/clubs.js:36-40 | when no rule's tests hold, the result is `[]` |
| Clubs.GroupedNeedsBothGroups | functions/clubs.js:13-21 | in grouped mode music matches exactly when some user tag is in `group_a` and some user tag is in `group_b`; hitting only `group_a` fails |
| Clubs.FlatModePool | functions/clubs.js:22-26 | in flat mode an array rule matches on its own tags; an object rule matches only through `group_a` or `group_b` |
| Clubs.OtherTests | functions/clubs.js:29-31 | a matching rule has a budget equal to the user's, shares a vibe tag with the user, and lists the user's gender |
| Clubs.EmptyMusicOrVibeMatchesNothing | functions/clubs.js:15-30 | a user with no music tags or no vibe tags matches no rule and gets `[]` |
| Clubs.DetailOf | functions/clubs.js:65-72 | a record keeps the venue name as stored; every other field keeps a truthy value and replaces a falsy one with `'N/A'`, so no field but the name is falsy |
| Clubs.DetailsOf | functions/clubs.js:57-75 | one record per returned row, in row order; none on a query error |
| Clubs.GetClubDetails | functions/clubs.js:43-76 | the loop that pushes one record per row returns exactly `DetailsOf` of the answer |
| Gpt.MatchAt | functions/gpt.js:98 | `(\d+)-(\d+)` matches at a position exactly when a non-empty digit run starts there and is followed by `-` and a digit; the groups are that whole run and the whole digit run after the `-` |
| Gpt.DecimalValue | functions/gpt.js:100-101 | `parseInt(digits, 10)`: the decimal value of a digit string |
| Gpt.RunLen | functions/gpt.js:98 | greedy `\d+`: the run of digits from a position stays in the text, holds only digits, and stops at a non-digit or the end |
| Gpt.AtMost | functions/gpt.js:114-117 | `value <= bound` for an integer bound, on the integer part and whether a fractional part is non-zero |
| Gpt.FirstRange | functions/gpt.js:98 | the search returns the match at the leftmost matching position, no earlier position matching; none only when no position matches |
| Gpt.MatchAtRange | functions/gpt.js:98 | a digit run, a dash and a digit run that ends the text or is followed by a non-digit match, with the two whole runs as the groups |
| Gpt.PrefixSkipped | functions/gpt.js:98 | when no match starts before position `n`, the search from the start finds what the search from `n` finds |
| Gpt.Stripped | functions/gpt.js:110 | `replace(/[^0-9.]/g, "")` leaves only digits and dots, each taken from the input |
| Gpt.StrippedConcat | functions/gpt.js:110 | stripping distributes over concatenation |
| Gpt.StrippedKeepsDigits | functions/gpt.js:110 | stripping leaves a string of digits unchanged |
| Gpt.StrippedDropsText | functions/gpt.js:110 | stripping removes a text without digits or dots entirely |
| Gpt.ParseAmount | functions/gpt.js:110-113 | `parseFloat` gives NaN exactly when the stripped text starts neither with a digit nor with `.` and a digit; otherwise the integer part is the value of the leading digit run, and a number with no `.` after its digits has no fractional part |
| Gpt.Bucket | functions/gpt.js:113-118 | the amount falls in exactly one of the four labels, each bucket closed at the top: at most 30, above 30 up to 60, above 60 up to 100, above 100 |
| Gpt.MapBudgetToRange | functions/gpt.js:96-122 | the result is always one of the four labels or `""` |
| Gpt.BucketMonotone | functions/gpt.js:113-118 | a larger amount never lands in a cheaper bucket |
| Gpt.BucketBoundaries | functions/gpt.js:103-106 | for whole numbers: ≤30, 31–60, 61–100 and ≥101 give the four labels, both directions |
| Gpt.RangeAfterText | functions/gpt.js:98-101 | after text without digits, `lower-upper` is the first match with exactly those groups, whatever text follows as long as it does not start with a digit |
| Gpt.RangeUpperBoundDecides | functions/gpt.js:98-107 | after text without digits, the first range is bucketed by its upper bound alone, whatever the lower bound and whatever follows it, later ranges and numbers included |
| Gpt.RangeThenText | functions/gpt.js:98-105 | `"30-60 quid"` maps to `"£30-60"` |
| Gpt.TwoRanges | functions/gpt.js:98-104 | `"10-20 or 70-80"` maps to `"Up to £30"`: only the first range counts |
| Gpt.NoRangeWithoutDash | functions/gpt.js:98 | an input without `-` has no range match |
| Gpt.SingleAmountDecides | functions/gpt.js:109-118 | a whole number surrounded by text without digits, dots or dashes is bucketed as that number |
| Gpt.NoDigitsGivesEmpty | functions/gpt.js:110-121 | an input without a digit maps to `""` |
| Gpt.BareNumber | functions/gpt.js:110-118 | a bare number is bucketed as that number |
| Gpt.LowerBoundaryExamples | functions/gpt.js:114-115 | `"30"` maps to `"Up to £30"` and `"60"` maps to `"£30-60"` |
| Gpt.UpperBoundaryExamples | functions/gpt.js:116-117 | `"100"` maps to `"£60-100"` and `"101"` maps to `"£100+"` |
| Gpt.LowestLabelIsFixed | functions/gpt.js:109-114 | `"Up to £30"` maps to itself |
| Gpt.SecondLabelIsFixed | functions/gpt.js:98-104 | `"£30-60"` maps to itself |
| Gpt.ThirdLabelIsFixed | functions/gpt.js:98-105 | `"£60-100"` maps to itself |
| Gpt.LabelRange | functions/gpt.js:98-107 | a label `£lower-upper` is bucketed by its upper bound |
| Gpt.TopLabelIsNotFixed | functions/gpt.js:110-116 | `"£100+"` maps to `"£60-100"`, so the mapping is not idempotent on its own outputs |
| Gpt.ExtractPreferences | functions/gpt.js:72-93 | a throwing call, an undelimited reply or a failed parse gives `{gender:"", music_preferences:[], budget:"", vibe:[]}`; otherwise the parsed reply |
| Gpt.FormatHistory | functions/gpt.js:12-21 | one turn per history item, in order, with its content; the role is `"user"` exactly when the sender is `"user"`, `"assistant"` otherwise; the new message comes last as the user's |
| Gpt.ProcessMessageWithGpt | functions/gpt.js:5-28 | a throwing call gives the fixed error text; an empty reply gives the fixed apology; a non-empty reply is returned as it is |
| Events.ExtractEventQuery | functions/events.js:14-40 | a throwing call, an undelimited reply or a failed parse gives `{wants_events:false, date:""}`; otherwise the parsed reply |
| Events.EntryFor | functions/events.js:54-64 | a club's entry takes `tickets_link` and `date` from the first row only; no rows or a query error give a null entry |
| Events.EventsOn | functions/events.js:44-68 | one entry per club, in club order, none dropped, each built from that club's own query |
| Events.GetEventsForClubs | functions/events.js:44-68 | the loop that pushes one entry per club, continuing after an error, returns exactly `EventsOn` |
| EventHandler.SlotMissing | functions/handlers/eventHandler.js:7 | falsy gender gives "missing"; "present" exactly when gender and budget are truthy and music and vibe have a non-zero length; a throw comes only from reading `.length` of an absent or null list |
| EventHandler.SlotMissingCases | functions/handlers/eventHandler.js:7 | each of the four empty slots gives "missing", read in the order gender, music, budget, vibe; an absent music list throws |
| EventHandler.MissingSlotShortCircuits | functions/handlers/eventHandler.js:7-9 | a missing slot gives the fixed refusal, with no matching and no lookup |
| EventHandler.NoClubsNoLookup | functions/handlers/eventHandler.js:11-14 | no matched club gives "No clubs match your preferences." with no lookup |
| EventHandler.Collected | functions/handlers/eventHandler.js:16-22 | looking up `n` days collects exactly `n` × (number of clubs) entries |
| EventHandler.DaysFrom | functions/handlers/eventHandler.js:17-24 | at most eight days are looked up; lookups stop at the first day count that reaches five entries, or after seven extra days |
| EventHandler.CollectEvents | functions/handlers/eventHandler.js:16-25 | the anchor, then extra days in increasing order, each once, while fewer than five entries exist; the entries are those of exactly those days |
| EventHandler.FormatEvents | functions/handlers/eventHandler.js:31-39 | the reply is the date header followed by one block per entry, in list order |
| EventHandler.HandleEventQuery | functions/handlers/eventHandler.js:6-42 | the reply (or throw) and the days looked up are those of the decision: a refusal, "no clubs", or the listed entries of the days looked up |
| EventHandler.DaysForClubs | functions/handlers/eventHandler.js:16-25 | with `k ≥ 1` clubs, the number of days looked up is the least `d` with `d·k ≥ 5`, at most five; the seven-day bound never stops the loop |
| EventHandler.ListedWindow | functions/handlers/eventHandler.js:16-41 | once clubs match, 1 to 5 days are looked up and at least five entries are collected, so the "No events found" reply is unreachable; the reply is the header and the blocks |
| EventHandler.CollectedByDay | functions/handlers/eventHandler.js:16-22 | entry `d·k + c` of the collected list is club `c`'s entry for day `d` of the window |
| EventHandler.BlocksByDay | functions/handlers/eventHandler.js:21-22 | after `events.concat(nextDayEvents)` the listing is the earlier days' blocks followed by the new day's blocks |
| EventHandler.EventBlock | functions/handlers/eventHandler.js:33-38 | one event's block: name, venue, date, minimum age and tickets, each with its own fallback |
| EventHandler.Decide | functions/handlers/eventHandler.js:6-29 | the handler's decision: the refusal, "no clubs", or the collected entries with the number of days looked up |
| EventHandler.EventsHeader | functions/handlers/eventHandler.js:31 | the header naming the asked date |
| EventHandler.ReplyFor | functions/handlers/eventHandler.js:27-41 | a refusal as it is; no entries give "No events found…"; otherwise the header and one block per entry |
| EventHandler.EventReply | functions/handlers/eventHandler.js:6-42 | the reply `handleEventQuery` gives for a decision, or the throw |
| ClubHandler.Batch | functions/handlers/clubHandler.js:13 | `slice(0, 5)` is a prefix of at most five clubs, all of them when there are at most five |
| ClubHandler.ClubBlock | functions/handlers/clubHandler.js:18-24 | one club's block: its name as stored, then five fields, each `N/A` when falsy |
| ClubHandler.ClubReply | functions/handlers/clubHandler.js:6-28 | the throw when matching throws, "Sorry, no matching clubs found." for no club, otherwise the header and one block per record of the first five clubs |
| ClubHandler.HandleClubRecommendations | functions/handlers/clubHandler.js:6-28 | it throws exactly when matching throws; no match gives "Sorry, no matching clubs found." and no lookup; otherwise only the first five clubs are looked up and the reply is the header plus one block per returned record |
| ClubHandler.FieldShownOrNA | functions/handlers/clubHandler.js:20-24 | a falsy venue field shows as `N/A` and a non-empty string shows as stored |
| Backend.World.StoredPreferences | functions/responseProcessor.js:14 | the stored record, `{}` when none is stored |
| Backend.World.GetChatHistory | functions/firebase.js:27-31 | throws exactly when the database is unreachable; otherwise returns the user's history |
| Backend.World.GetPreferences | functions/firebase.js:39-43 | throws exactly when the database is unreachable; otherwise returns the stored record or `{}` |
| Backend.World.SaveChatMessage | functions/firebase.js:14-24 | appends one `{role, content}` record to that user's history and changes nothing else |
| Backend.World.SavePreferences | functions/firebase.js:34-36 | replaces that user's record and changes nothing else |
| Backend.World.Send | functions/metaApi.js:6-26 | appends the message to the outbox; it never throws |
| Backend.Merge | functions/responseProcessor.js:28-31 | the merged keys are the union; every extracted key takes its extracted value, even `""` or `[]`; other stored keys are kept |
| Backend.MergeTwice | functions/responseProcessor.js:28-31 | merging two extractions in turn is merging their right-biased union |
| Backend.MergeStoredIsIdentity | functions/responseProcessor.js:28-31 | merging values that are already stored changes nothing |
| ResponseProcessor.ProcessAndSendResponse | functions/responseProcessor.js:11-40 | exactly one message is sent, to the sender. With the database up, the user message is first appended to the history. The event path replies from the stored record and leaves it unchanged. The club path saves the merged record and replies from it. A throw or an unreachable database gives the fixed error message |
| ResponseProcessor.TurnReply | functions/responseProcessor.js:11-40 | the one message a turn sends: the event reply from the stored record, the club reply from the merged record, or the error text |
| ResponseProcessor.FallbackErasesSlots | functions/responseProcessor.js:27-32 | merging the all-empty fallback sets gender, budget, music and vibe to empty values and keeps other keys |
| ResponseProcessor.FallbackFindsNoClubs | functions/responseProcessor.js:27-35 | after the all-empty fallback is merged, the club reply is "Sorry, no matching clubs found." |
| ResponseProcessor.FallbackRefusesEvents | functions/responseProcessor.js:20-22 | after the all-empty fallback has been saved, an event request gets the refusal for missing preferences |
| ProfileContext.MissingDetails | functions/langgraph/nodes/profileContextNode.js:44-46 | `"location (area)"` is listed exactly when location is falsy, `"date"` exactly when date is falsy; location always comes first |
| ProfileContext.CollectMissing | functions/langgraph/nodes/profileContextNode.js:44-46 | the two pushes build exactly `MissingDetails` |
| ProfileContext.Join | functions/langgraph/nodes/profileContextNode.js:49 | `join` of one item is that item; of two items it is both with the separator between |
| ProfileContext.MissingPrompt | functions/langgraph/nodes/profileContextNode.js:49 | the prompt naming the missing slots |
| ProfileContext.NodeReply | functions/langgraph/nodes/profileContextNode.js:33-77 | the one message the node sends: the failure text, the not-understood text, the prompt for missing slots, or the questionnaire |
| ProfileContext.ProfileContextNode | functions/langgraph/nodes/profileContextNode.js:5-78 | exactly one message is sent and `next` is always `"profileContext"`. The record is saved, as the parsed reply spread over the stored one, only when the reply parses and the database is up; otherwise nothing is saved |
| ProfileContext.PromptForLocation | functions/langgraph/nodes/profileContextNode.js:48-49 | the prompt for a missing location alone |
| ProfileContext.PromptForDate | functions/langgraph/nodes/profileContextNode.js:48-49 | the prompt for a missing date alone |
| ProfileContext.PromptForBoth | functions/langgraph/nodes/profileContextNode.js:48-49 | the prompt for both, location first and joined with " and " |
| ProfileContext.QuestionnaireOnlyWhenComplete | functions/langgraph/nodes/profileContextNode.js:44-71 | the questionnaire is sent exactly when the reply parses and the merged record has a truthy location and a truthy date |

## Left out

- Transport is not modelled: the webhook, the verify-token check, payload unwrapping and the detached promise in `functions/index.js`.
- The prompt texts sent to the language model are not modelled. The model and `JSON.parse` are parameters.
- `initChatModel` failing is merged with the call throwing. In `extractEventQuery`, `extractPreferencesFromMessage` and `processMessageWithGPT` it happens outside the `try`. The model turns it into the fallback or the fixed error text, where the source rejects the promise.
- A parse result is taken to be already of the expected shape. Parsed JSON whose `wants_events` is a truthy non-boolean, or whose `date` is absent, is not modelled. For the slot-filling node, a parse result that is `null` or a number is taken as `{}`, because spreading either adds no key.
- Date arithmetic (`new Date`, `setDate`, `toISOString`) is a parameter. Time zones and invalid dates are not modelled. The days looked up are recorded as offsets from the anchor date.
- Gpt.ParseAmount: keeps only the integer part and whether any fractional digit is non-zero. That decides every comparison with 30, 60 and 100 exactly, but the rounding of `parseFloat` on very long decimals is not modelled.
- Numbers in stored records are integers; floating point is not modelled.
- Backend.World: the database is either reachable for the whole turn or throws on its first call. A database that fails part-way through a turn is not modelled, e.g. one where the history write succeeds and the preference write then fails. Timestamps on history records are not modelled.
- Backend.World.Send: delivery failures are caught inside `sendWhatsAppMessage`, so a send is recorded as an outbox entry whether or not it is delivered. The slot-filling node imports its send and store helpers from `functions/services/`, which is not part of this model; they are assumed to behave like `functions/metaApi.js` and `functions/firebase.js`.
- The assistant's replies are never written to the chat history by this code, and the model writes none.
- `getChatHistory` is read and its value discarded; the model only reproduces its failure.
- `processMessageWithGPT` is called nowhere in the repository. It is modelled as a function over the history and a model parameter. It reads each history item's `sender`, while `saveChatMessage` writes `role`.
- Logging (`console.log`, `console.error`) is not modelled.
- `functions/langgraph/mainGraph.js`, `functions/langgraph/nodes/welcomeNode.js`, `functions/firstMessage.js` and `testLangChain.js` are not part of this model.
- These files have no pagination cursor, no ticket-link filtering and no more-info or general-chat routing, so none is modelled.
