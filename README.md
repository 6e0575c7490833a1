# MicroSim Family — a verified model of the simulation core

MicroSim Family simulates a household of five characters. The user types
events, and a language model answers with a narrative and a new world state
in JSON. This project models the server's simulation core and a few display
rules of the web client:

- **Reply parser** (`server/ai.js`). The model's reply is split at two
  marker lines, `=== 📝 敘事推演 ===` and `=== 💾 當前世界狀態庫 (JSON) ===`.
  An optional Markdown code fence is stripped from the state section, and
  the rest is handed to `JSON.parse`. The parser falls back to a fixed
  placeholder narrative and to the initial state.
- **Completion call** (`callOpenRouter`). The endpoint's reply, or the
  error `fetch` rejects with, is an input. A rejected `fetch`, a failure
  status, and an ok body that is not JSON or is `null` each become an error.
  Otherwise the message content is returned, or `(no response)` when there
  is none. A content that is not a string makes the parser throw.
- **Single-row store** (`server/db.js`). The class `Db.SimulationStore`
  holds the row's presence and its three columns. Its methods read, replace
  and reset the row. Each method is proved against the functions `ReadState`,
  `ReadHistory`, `Saved`, `Reset` and `Seeded`.
- **Routes** (`server/index.js`). The class `Server.Server` keeps the API
  key and model in memory. Its methods are status, init, action and config.
  `Act` is proved equal to the pure function `Server.Action`: validate the
  input and key, read the store, build the prompt (system turn, seed
  exchange or history, new user turn), call the model, parse, and write once.
- **Fixed data** (`server/constants.js`, `src/types.ts`). The world types,
  the initial state, the opening narrative and the system instruction that
  carries the two markers.
- **Client rules**:
  - the floor plan's room table, room membership, mood dot and floor switch;
  - the character card's mood colour;
  - the model picker's search filter and selected-model label.

`JSON.stringify` and `JSON.parse` are kept abstract as a `Json.Codec` pair.
The lemmas that need them take `Json.Sound(codec)` as a precondition:
parsing what was stringified gives it back, stringified text is never
empty, never padded with whitespace and never starts with a backtick, and
`'[]'` parses to the empty array. JavaScript whitespace (`\s`, `trim()`) is
the exact ECMAScript WhiteSpace and LineTerminator set (`Text.IsWs`).

These quirks of the code are kept as written:

- A narrative marker followed only by whitespace before the state marker
  gives the placeholder, not an empty string. The regular expression's
  capture is empty, and an empty capture is falsy (server/ai.js:48).
- A narrative marker with no state marker after it gives the placeholder.
  The narrative is not extracted on its own, because the narrative
  expression requires the state marker (server/ai.js:38-40).
- A reply whose JSON does not parse yields the initial state, never the
  previous state (server/ai.js:46).
- Any parsed JSON value becomes the state, with no check that it is a
  world state (server/ai.js:59; see `Ai.NoShapeCheck`).

## Model

| member | source | states |
|---|---|---|
| Common.Filter | server/index.js:36-37 | the result holds only elements of the input that pass the test, every element that passes is in it, and it is no longer than the input |
| Common.FilterAppend | src/components/FloorPlan.tsx:27-29 | filtering distributes over concatenation, so the filtered list keeps the input's order |
| Common.FilterSubsequence | src/components/ModelSelector.tsx:126-130 | a filtered list is a subsequence of its input |
| Text.TrimStart | server/ai.js:42 | the leading `\s*`: drops a blank prefix and stops at a non-whitespace character, empty exactly for blank text |
| Text.Trim | server/ai.js:49 | `trim()`: the result has no whitespace at either end, is empty exactly when the input is blank, and is a contiguous slice of the input |
| Text.TrimPadded | server/ai.js:54-59 | trimming removes exactly the surrounding whitespace of an already trimmed text |
| Text.TrimOfTrimmed | server/ai.js:59 | `trim()` leaves a text without surrounding whitespace unchanged |
| Text.TrimStartSplits | server/ai.js:42 | the text after the leading `\s*` is the trimmed text followed by a blank tail |
| Text.TrimAfterTrimStart | server/ai.js:42-54 | trimming the capture that `\s*` already stripped in front gives the same text as trimming the whole section |
| Text.DropSuffix | server/ai.js:56 | `replace(/```$/, "")` removes one trailing fence if present and otherwise changes nothing |
| Text.IndexOf | server/ai.js:38-43 | the position where a regular expression starting with a literal marker first finds it, or none when the marker does not occur from there on |
| Text.IndexOfFinds | server/ai.js:38-43 | the search returns the first occurrence, whichever it is |
| Text.FirstAfterPrefix | server/ai.js:38-43 | a marker placed after text that lacks one of its characters is found exactly there |
| Text.Includes | src/components/CharacterCard.tsx:12 | `includes` is true exactly when the pattern occurs somewhere |
| Json.Member | server/index.js:37 | reading `obj.key` finds a member with that key exactly when one exists, and with duplicate keys it is the last one, as `JSON.parse` keeps it |
| Json.CompactIsBare | server/index.js:82 | stringified JSON never starts with a code fence |
| Chat.HistoryToJson | server/db.js:47 | a history becomes a JSON array with one element per turn |
| Chat.TurnRoundTrip | server/db.js:39 | a stored turn reads back as the same `{ role, content }` |
| Chat.HistoryRoundTrip | server/db.js:37-47 | a stored history reads back as the same turns |
| Chat.TurnsRoundTrip | server/db.js:37-47 | the same for the array's elements, by induction on the history |
| Types.CharacterToJson | src/types.ts:1-8 | a character has five required fields, plus `notes` only when it is present |
| Types.WorldStateToJson | src/types.ts:10-18 | a world state is a JSON object |
| Constants.InitialStateShape | server/constants.js:4-18 | time `07:00`; five characters with distinct names and no notes; weather 晴朗, temperature 24°C and the morning note |
| Constants.InitialLocationsAreRooms | server/constants.js:7-11 | every initial location is one of the six rooms the instruction lists on line 29 |
| Constants.ClientAgreesWithServer | src/types.ts:25-69 | the client's initial state equals the server's, field by field |
| Constants.InstructionCarriesMarkers | server/constants.js:35-38 | the system instruction holds the narrative marker and, after it, the state marker, both identical to the parser's |
| Constants.MarkerFacts | server/ai.js:39-42 | the two markers differ at their fifth character, and the state marker's emoji occurs neither in the narrative marker nor in the opening narrative |
| Ai.Decimal | server/ai.js:25 | a status code prints as a non-empty string of digits whose value is the status |
| Ai.Field | server/ai.js:29 | `?.key` yields a member only of an object, and then exactly the object's member |
| Ai.First | server/ai.js:29 | `?.[0]` yields an array's first element, `undefined` for an empty array, and `undefined` for `null`, numbers and booleans |
| Ai.ContentOf | server/ai.js:29 | the content read from a decoded body is never `null`: `?? "(no response)"` replaces `null` and `undefined` |
| Ai.CallOpenRouter | server/ai.js:11-29 | a rejected `fetch` passes its error on; a failure status is the error `OpenRouter <status>: <body>`; an ok body that is not JSON, or is `null`, is the error `res.json` or `data.choices` throws; it succeeds exactly when none of these happens, and then never with `null` |
| Ai.CompletionContent | server/ai.js:28-29 | an ok reply in the endpoint's `choices[0].message.content` shape yields that content (`(no response)` for `null`), and an object without `choices` yields `(no response)` |
| Ai.RawText | server/ai.js:37-40 | a content that is not a string makes `text.match` throw; a string content is the reply text |
| Ai.NarrativeOf | server/ai.js:38-49 | the narrative is the placeholder or a non-empty trimmed piece of the reply |
| Ai.NarrativeBody | server/ai.js:48-49 | the placeholder, or a non-empty trimmed piece of the reply (its exact text is stated by `Ai.NarrativeBetweenMarkers`) |
| Ai.StateSection | server/ai.js:41-43 | the state section, when present, is non-empty and starts with a non-whitespace character |
| Ai.Unfence | server/ai.js:54-58 | text without a leading fence is unchanged; after "```json" (or else "```") the rest is kept, with exactly one trailing fence dropped when it ends with one and unchanged when it does not |
| Ai.Payload | server/ai.js:52-59 | the text handed to `JSON.parse` is trimmed, and is the trimmed section itself when that has no fence |
| Ai.ParseResponse | server/ai.js:37-66 | the narrative is the placeholder or a non-empty trimmed piece of the reply, and the state is the initial state or a value the decoder returns |
| Ai.StateOf | server/ai.js:46-62 | the state is the initial state or a value the decoder returns for some text |
| Ai.NarrativeBetweenMarkers | server/ai.js:38-49 | with a narrative marker and a state marker after it, the narrative is the trimmed text between the first of each, or the placeholder if that text is blank |
| Ai.NarrativeWithoutMarker | server/ai.js:38-48 | no narrative marker gives the placeholder |
| Ai.NarrativeWithoutStateMarker | server/ai.js:38-48 | a narrative marker with no state marker after it gives the placeholder |
| Ai.NarrativeIgnoresJson | server/ai.js:48-63 | the narrative does not depend on the JSON decoder |
| Ai.StateWithoutMarker | server/ai.js:41-52 | no state marker gives the initial state |
| Ai.StateAfterMarker | server/ai.js:41-62 | after the first state marker, a blank rest gives the initial state; otherwise the state is the decoded payload, or the initial state (never the previous one) when decoding fails |
| Ai.BarePayload | server/ai.js:54-59 | an unfenced trimmed payload reaches `JSON.parse` unchanged |
| Ai.UnfenceJson | server/ai.js:55-56 | a leading "```json" and one trailing fence are removed |
| Ai.UnfencePlain | server/ai.js:57-58 | a leading "```" not followed by `j` and one trailing fence are removed |
| Ai.JsonFencedPayload | server/ai.js:54-59 | a "```json" fence with any whitespace around it and inside it decodes exactly as the bare payload |
| Ai.PlainFencedPayload | server/ai.js:54-59 | the same for a plain "```" fence |
| Ai.MarkersPlaced | server/ai.js:38-43 | in a reply in the instructed format, both markers are found where they were written |
| Ai.WellFormedReply | server/ai.js:37-66 | a reply in the instructed format parses to its narrative and to the decoded payload |
| Ai.WhitespaceThenPayload | server/ai.js:42-59 | whitespace between the state marker and the payload is not passed to `JSON.parse` |
| Ai.NoShapeCheck | server/ai.js:59 | a payload that parses to `null` becomes the state, which is no world state at all |
| Db.Parse | server/db.js:34 | `JSON.parse` succeeds exactly when the decoder does, with the decoder's value |
| Db.Seeded | server/db.js:23-29 | after opening there is a row; an existing row is kept; a new one holds an empty history and the current time |
| Db.ReadState | server/db.js:32-35 | without a row, the initial state; with one, it succeeds exactly when `world_state` parses, with the parsed value |
| Db.ReadHistory | server/db.js:37-40 | without a row, `[]`; with one, it succeeds exactly when `chat_history` parses, with the parsed value |
| Db.Saved | server/db.js:42-48 | an update never creates or deletes the row, and stamps the row it changes with the current time |
| Db.Reset | server/db.js:50-56 | the same, and the reset row holds the history `'[]'` |
| Db.SeedKeepsRow | server/db.js:23-29 | opening never overwrites a stored row, and opening twice is opening once |
| Db.ReadAfterSeed | server/db.js:23-40 | a freshly seeded row reads as the initial state and an empty history |
| Db.ReadAfterSave | server/db.js:32-48 | after a save the reads return the saved state and exactly the saved turns |
| Db.ReadAfterReset | server/db.js:32-56 | after a reset the reads return the initial state and an empty history, whatever was there |
| Db.ResetIdempotent | server/db.js:50-56 | resetting twice is resetting once, and a reset row equals a freshly seeded one |
| Db.MissingRow | server/db.js:32-56 | without a row, saves and resets change nothing and the reads fall back to the initial state and `[]` |
| Db.SimulationStore.Open | server/db.js:10-29 | the table after opening is the stored one, seeded if it was empty |
| Db.SimulationStore.GetState | server/db.js:32-35 | returns the parsed `world_state`, or the initial state without a row |
| Db.SimulationStore.GetChatHistory | server/db.js:37-40 | returns the parsed `chat_history`, or `[]` without a row |
| Db.SimulationStore.SaveSimulation | server/db.js:42-48 | replaces the state, the history and the timestamp together, and nothing else |
| Db.SimulationStore.ResetSimulation | server/db.js:50-56 | sets the initial state, `'[]'` and the timestamp, and nothing else |
| Server.UserMessage | server/index.js:72 | the user turn carries the stringified state and the input verbatim after their labels, and ends with the request for the next step |
| Server.Context | server/index.js:76-85 | the earlier conversation is never empty: the stored history when there is one, otherwise two seed turns ending with the assistant's |
| Server.BuildMessages | server/index.js:74-87 | the request starts with the system instruction, ends with the new user turn, and carries a non-empty history verbatim between them |
| Server.NewHistory | server/index.js:93-105 | the saved history keeps a non-empty old history as its prefix and ends with the user turn and the raw reply |
| Server.StatusOf | server/index.js:32-44 | the status succeeds exactly when both columns parse and the history is a list of turns; it then shows the stored state and the narrative view of the stored turns |
| Server.Action | server/index.js:60-114 | the action never creates or deletes the row, and its 400 and 401 carry the source's messages |
| Server.Exchange | server/index.js:89-109 | after the checks and the reads, a failed call leaves the table as it was, and no outcome creates or deletes the row |
| Server.CallFailures | server/index.js:89-113 | once the input, the key and the reads pass, a rejected `fetch`, a failure status, a body that is not JSON or is `null`, and a content that is not a string each give a 500 with that error's message and leave the table as it was |
| Server.SeedTurns | server/index.js:77-84 | the seed exchange is one user turn followed by one assistant turn |
| Server.AssistantNarratives | server/index.js:36-38 | one narrative per assistant turn, in order, each the narrative parsed from that turn's content |
| Server.AssistantNarrativesAppend | server/index.js:36-38 | the narratives of two histories joined are those of the first followed by those of the second |
| Server.NarrativeHistory | server/index.js:42 | the view is the assistant narratives when there are any, and `[INITIAL_NARRATIVE]` otherwise |
| Server.ViewAfterAction | server/index.js:36-105 | an action appends its reply's narrative to the view; a non-empty history with no assistant turn had the opening narrative as its view, which the new narrative replaces |
| Server.StatusAfterAction | server/index.js:32-109 | after any successful action on a stored history of turns, the status shows the returned state and the old view followed by the new narrative |
| Server.PromptShape | server/index.js:72-87 | the prompt is the system turn, the history verbatim (or the seed pair), then one user turn: length 1 + (2 if the history is empty, else its length) + 1 |
| Server.HistoryGrows | server/index.js:74-105 | the saved history is the prompt without its system turn plus the raw reply; the old history is its prefix; its length is the old length + 2, or 4 on a fresh start |
| Server.SeedParses | server/index.js:82 | the seed assistant turn parses back to the opening narrative and the initial state |
| Server.NarrativesOfNewHistory | server/index.js:93-105 | each saved reply adds its narrative at the end of the narrative view |
| Server.SeedNarratives | server/index.js:36-38 | the seed exchange contributes exactly the opening narrative |
| Server.FirstNarratives | server/index.js:36-42 | after the first action from a fresh start the view is the opening narrative, then the new one |
| Server.Rejections | server/index.js:61-65 | a missing or blank input is a 400 and an empty key a 401, whatever the store and the endpoint, and neither touches the store |
| Server.FailureKeepsTable | server/index.js:67-113 | any failure leaves the store unchanged |
| Server.SuccessPersists | server/index.js:89-109 | a success returns the parsed reply, and the store then reads back as that state and the extended history |
| Server.StatusAfterInit | server/index.js:50-53 | right after init the status is the initial state and the opening narrative alone |
| Server.StatusAfterFirstAction | server/index.js:32-109 | after init and one successful action the status is that action's state and two narratives |
| Server.Server.constructor | server/index.js:19-20 | the key comes from the environment (empty without one) and the model is `google/gemini-2.5-flash` |
| Server.Server.Status | server/index.js:32-44 | `GET /api/state` equals the status of the current table |
| Server.Server.Init | server/index.js:50-53 | resets the store and answers with the opening narrative and the initial state |
| Server.Server.Act | server/index.js:60-114 | the reply and the new table are those of `Action` on the old table |
| Server.Server.Configure | server/index.js:121-126 | each given setting replaces the current one, each missing one is kept, and `hasApiKey` reports a non-empty key |
| FloorPlan.Rooms | src/components/FloorPlan.tsx:11-22 | each floor has three rooms, each keyed by its own name |
| FloorPlan.RoomTable | src/components/FloorPlan.tsx:11-22 | every room's id is its name; 1F is 廚房, 浴廁, 客廳 and 2F is 書房, 兒童房, 主臥室 |
| FloorPlan.RoomsDistinct | src/components/FloorPlan.tsx:11-22 | the six room names are pairwise distinct |
| FloorPlan.RoomsAreInstructionRooms | src/components/FloorPlan.tsx:11-22 | the drawn rooms are exactly the rooms the system instruction lists |
| FloorPlan.CharactersInRoom | src/components/FloorPlan.tsx:27-29 | exactly the characters whose location is the room's name |
| FloorPlan.CharactersInRoomInOrder | src/components/FloorPlan.tsx:27-29 | the room's characters keep the order of the character list |
| FloorPlan.DrawnInOneRoom | src/components/FloorPlan.tsx:74-75 | a character is drawn in a room exactly when its location is that room, so in at most one room per floor, and in none when its location names no room there |
| FloorPlan.MoodIndicator | src/components/FloorPlan.tsx:114-116 | the dot is emerald, rose or amber |
| FloorPlan.MoodIndicatorRules | src/components/FloorPlan.tsx:114-116 | a mood with 開心 or 平靜 is emerald; otherwise one with 生氣 or 煩躁 is rose; otherwise amber |
| FloorPlan.FloorView.constructor | src/components/FloorPlan.tsx:25 | the view opens on 1F |
| FloorPlan.FloorView.Select | src/components/FloorPlan.tsx:39-56 | a floor button shows its own floor's rooms (`ROOMS[currentFloor]`, line 74) and makes its button the only active one |
| CharacterCard.MoodColor | src/components/CharacterCard.tsx:11-16 | the colour is one of four classes |
| CharacterCard.MoodColorRules | src/components/CharacterCard.tsx:11-16 | the rules in order: 開心 or 平靜 gives emerald, then 煩躁 or 生氣 gives red, then 疲憊 gives amber, anything else blue; a mood that is both happy and angry is emerald |
| CharacterCard.AgreesWithFloorPlan | src/components/CharacterCard.tsx:11-16 | the card is emerald exactly when the floor-plan dot is, red exactly when the dot is rose, and amber or blue exactly when the dot is amber |
| ModelSelector.Filtered | src/components/ModelSelector.tsx:125-131 | the shown list is no longer than the model list and holds only its models |
| ModelSelector.SelectedName | src/components/ModelSelector.tsx:133-134 | the label is the selected id or the name of a model with that id |
| ModelSelector.FilteredSpec | src/components/ModelSelector.tsx:125-131 | an empty query keeps every model; otherwise the result is an order-preserving subsequence holding exactly the models whose lowered name or id contains the lowered query |
| ModelSelector.SelectedNameSpec | src/components/ModelSelector.tsx:133-134 | the label is the name of the first model with the selected id, or the selected id itself when no model has it |

## Left out

- The HTTP transport is left out: Express routing, CORS, JSON bodies and status codes. The routes are methods, and their answers are datatypes: `Server.Reply` and `Server.StatusView`.
- The `fetch` call in `callOpenRouter` is left out: the URL, the headers and the request body. The endpoint is a function parameter (`Server.Transport`) that gives the reply or the error `fetch` rejects with, and `Ai.CallOpenRouter` models how that outcome is read.
- Ai.CallOpenRouter: a failure of `res.text()` on a failure status is not modelled; the body text is given. The message `res.json()` throws for a body that is not JSON is the fixed `Json.ParseFailure`, not the runtime's wording.
- Ai.First: a string's first character is taken as a code point, not a UTF-16 unit; the result only ever has `.message` read from it, which is `undefined` either way.
- `/api/models` and its `localeCompare` sort are left out. So are the client services and `App.tsx`: they are network calls and rendering.
- SQLite, the SQL text and the schema are left out. `datetime('now')` is a timestamp string passed by the caller.
- `JSON.stringify` and `JSON.parse` have no implementation here: they are the abstract `Json.Codec`, with `Json.Sound` as a stated assumption. JSON numbers are integers only.
- Db.Parse: the text of the error `JSON.parse` throws is not modelled. It is the fixed message `Json.ParseFailure`.
- Server.Action, Server.StatusOf, Server.Server.Status and Server.Server.Act: a stored `chat_history` that parses but is not a list of `{ role, content }` strings is treated as an error (`Server.NotAHistory`). The source goes on with JavaScript's loose typing instead: for example `GET /api/state` on a stored `[1, 2]` filters out every element and answers `[INITIAL_NARRATIVE]` (server/index.js:36-42), and the action route sends such a history to the endpoint as it is.
- Server.Action: an `input` that is present but is not a string is not modelled. In the source `trim` would throw outside the `try`.
- Server.Server.Configure: keys and models that are not strings are not modelled. In particular, a `null` key, which the source would report as no key.
- Server.Server.Status: when `JSON.parse` throws on `GET /api/state`, Express's default error answer is not modelled. The model returns the error.
- Concurrency is left out: the model is sequential. Two overlapping actions that both read before either writes are not modelled.
- Strings are sequences of code points, whereas JavaScript strings are UTF-16. The markers and the fences are well-formed, so searches find the same first match either way.
- React rendering, animation, tooltips and the `cn` class joining are left out.
- ModelSelector: component state (`models`, `keyStatus`, `keyDraft`), debouncing, `localStorage`, key validation and `formatCtx` are left out. `toLowerCase` is an abstract parameter.
- `vite.config.ts` is build configuration only.
