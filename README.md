# Conversation memory of a character chat client

This project models, in Dafny, the conversation memory of a React chat client
in which a user talks to one character at a time:

- the **character store's chat histories**: a map from character id to an
  append-only list of message records, written through to local storage on
  every change (`addMessage`, `getMessages`, `clearChat`);
- the **hierarchical summarization pass** of the chat screen
  (`triggerSummaryIfNeeded`): a chunk tier every 7 raw messages, a chapter
  tier over the first 10 chunk summaries and a global tier over the first 10
  chapter summaries, guarded by a `summarizing` flag;
- the screen's handling of an **inbound socket message** and of the user's
  **send**, with their text normalization;
- the **last-message actions**: saving an edit of the last user message and
  regenerating the last assistant reply.

The summary service is an oracle `summarize: (Level, Request) -> Reply`. It is
given the calling tier (chunk, chapter or global) and the request body. Its
reply is an ok response (with or without a `summary` string), a response that
is not ok, or an exception. The socket is an `open` flag plus a ghost list of the
texts sent on it. Persistent storage is a ghost copy of the map.

Modules, one per source file plus four helpers:

| module | file | models |
|---|---|---|
| `Wrappers` | wrappers.dfy | optional properties (`Option`) |
| `Lists` | lists.dfy | `filter`, `slice().reverse()`, `find`, and a last-index reference definition |
| `JsString` | js_string.dfy | `String.prototype.trim` |
| `Messages` | messages.dfy | the message record and its `{ ...m, removed: true }` copy |
| `CharacterStore` | character_store.dfy | `src/store/characterStore.js` (chat histories only) |
| `Chat` | chat.dfy | `src/Chat.jsx`: constants, summarization pass, inbound and outbound messages |
| `LastMessageActions` | last_message_actions.dfy | `src/components/LastMessageActions.jsx` |

The code is modelled as written. These behaviours of the code are proved rather
than corrected:

- The chunk tier is never due. The candidate chunk holds `|raw| mod 7`
  messages, so it never holds exactly 7 (`Chat.ChunkTierNeverDue`).
- Removal never changes a record. It appends a copy with `removed` set.
- The chapter and global tiers count summaries whether or not they are
  removed. So once the chapter tier is due in a snapshot, every later pass
  over a snapshot that extends it sends the same request and consumes the
  same ten chunk summaries (`Chat.ChapterTierStaysDue`). Those are the passes
  the socket handler and `sendMessage` start. An edit's pass runs over the
  edited list, whose texts may differ. A regenerate's pass never sends a
  request.
- The socket handler and `sendMessage` pass the pass a snapshot that holds
  the new message twice (`Chat.SnapshotCountsNewMessageTwice`).
- Ids are optional, and `===` makes two missing ids equal
  (`LastMessageActions.EditWithoutId`).

Further facts about the code that the model keeps:

- The `summarizing` flag is one per chat screen, and a chat screen serves one
  character. Choosing another character unmounts it.
- Nothing assigns ids, and nothing updates a record in place. Edits and
  removals append records.
- `addMessage` appends to the character's history and starts one when there
  is none. `clearChat` sets the history to the empty list. Neither checks the
  id or reports an error. Their only way to fail is a throwing
  `localStorage.setItem`, which is listed under Left out.
- The tiers filter by role and summary type only.
- A regenerate's pass runs over user and assistant records only, so it never
  sends a summary request (`LastMessageActions.RegeneratePassIsEmpty`).

## Model

| member | source | states |
|---|---|---|
| `Lists.Filter` | src/Chat.jsx:116-118 | the result is no longer than the input, every element of it is an input element that satisfies the predicate, and every input element that satisfies it is kept |
| `Lists.FilterConcat` | src/Chat.jsx:143-145 | filtering a history followed by later records gives the filtered history followed by the filtered later records, so filtering keeps the input order |
| `Lists.FilterNone` | src/Chat.jsx:175-177 | a filter that no element satisfies yields the empty list |
| `Lists.Reverse` | src/components/LastMessageActions.jsx:45-47 | the reversed copy has the same length and holds element n-1-i at position i |
| `Lists.Find` | src/components/LastMessageActions.jsx:48 | `find` gives nothing exactly when no element satisfies the predicate, and otherwise the first element of the list that satisfies it: no element before it does |
| `Lists.LastIndex` | src/components/LastMessageActions.jsx:45-48 | reference definition: the position of an element satisfying the predicate with none after it, or nothing exactly when none satisfies it |
| `Lists.FindReversedIsLast` | src/components/LastMessageActions.jsx:45-48 | reverse-then-find returns exactly the element at the last matching position |
| `Lists.FindReversedAfterFilter` | src/components/LastMessageActions.jsx:56-63 | filtering by p and then searching backwards for q finds the same element as searching the whole list backwards for p-and-q |
| `JsString.Trim` | src/Chat.jsx:92 | the trimmed text is the slice of the input after its leading white space, it has no white space at either end, everything after it is white space, and it is empty exactly when the input is all white space |
| `JsString.TrimIdempotent` | src/Chat.jsx:217 | trimming an already trimmed text changes nothing |
| `Messages.Tombstone` | src/Chat.jsx:169 | the removed copy has `removed` set and equals the original in every other field |
| `Messages.Tombstones` | src/Chat.jsx:168-170 | one removed copy per record, same length and same order, each equal to its original except for `removed` |
| `CharacterStore.History` | src/store/characterStore.js:41-44 | a character id that was never written has the empty history |
| `CharacterStore.WithMessages` | src/store/characterStore.js:32-35 | appending puts the new records after that character's whole earlier history (a one-record history for a new id), leaves every other character's history unchanged, and appending nothing changes nothing |
| `CharacterStore.Cleared` | src/store/characterStore.js:49 | clearing leaves the character with an empty history and every other character's history unchanged |
| `CharacterStore.AppendingIsAppendOnly` | src/store/characterStore.js:30-38 | after an append every earlier history is still present as a prefix: nothing is removed or reordered |
| `CharacterStore.Store.constructor` | src/store/characterStore.js:12 | the store starts with the saved histories, or none when nothing was saved, and agrees with storage |
| `CharacterStore.Store.GetMessages` | src/store/characterStore.js:41-44 | the history of a character is its stored list, and the empty list for a character that was never written |
| `CharacterStore.Store.AddMessage` | src/store/characterStore.js:30-38 | the history grows by exactly the message at its end, other histories are unchanged, all histories stay append-only, and storage equals memory afterwards |
| `CharacterStore.Store.ClearChat` | src/store/characterStore.js:47-52 | the history becomes empty, other histories are unchanged, and storage equals memory afterwards |
| `CharacterStore.AddEach` | src/components/LastMessageActions.jsx:26 | the `forEach` of `addMessage` calls appends the whole list in order and keeps storage equal to memory |
| `Chat.SameTextsSameTurns` | src/Chat.jsx:153 | a request carries only the texts of the summaries it rolls up: two lists of summaries with the same texts in the same order give the same request turns |
| `Chat.ChapterAndGlobalBodiesCoincide` | src/Chat.jsx:149-156 | when the first 10 chunk summaries have the same texts as the first 10 chapter summaries, the chapter and global tiers send the same request body, which is why the oracle is also told the calling tier |
| `Chat.ChunkTier` | src/Chat.jsx:120-124 | the chunk tier is due exactly when the candidate chunk holds 7 raw messages; it then sends them whole to the local service, indexes its summary by the number of complete chunks and tombstones nothing |
| `Chat.ChapterRequest` | src/Chat.jsx:148-156 | the chapter request goes to the hosted service for this character and carries, in order, the texts of the first 10 chunk summaries (fewer if there are fewer) |
| `Chat.ChapterTier` | src/Chat.jsx:143-148 | the chapter tier is due exactly when the snapshot holds at least 10 chunk summaries; it consumes the first 10 of them and indexes its summary by the first one's index |
| `Chat.GlobalRequest` | src/Chat.jsx:180-188 | the global request goes to the hosted service for this character and carries, in order, the texts of the first 10 chapter summaries (fewer if there are fewer) |
| `Chat.GlobalTier` | src/Chat.jsx:175-180 | the global tier is due exactly when the snapshot holds at least 10 chapter summaries; it consumes the first 10 of them and writes its summary without an index |
| `Chat.TierStep` | src/Chat.jsx:147-171 | a due tier sends exactly its one request; only an ok reply appends, and then the summary record followed by a removed copy of each consumed record; only an exception ends the pass |
| `Chat.Pass` | src/Chat.jsx:114-203 | a pass sends the chapter request when that tier is due, then the global request when that tier is due and the chapter call did not throw, and ends in an exception exactly when one of its calls threw |
| `Chat.ChunkCandidateLength` | src/Chat.jsx:116-124 | the candidate chunk holds the number of raw messages mod 7, always fewer than 7 |
| `Chat.ChunkTierNeverDue` | src/Chat.jsx:120-140 | as written, the chunk tier is never due, whatever the snapshot |
| `Chat.ChapterIndex` | src/Chat.jsx:162 | the chapter index n satisfies 10n <= first chunk index < 10(n+1) (floor division); a missing or NaN index gives NaN |
| `Chat.SummaryText` | src/Chat.jsx:136 | the summary text is never empty and has no surrounding white space; it is the trimmed summary when that is non-empty and `No summary.` when the summary is missing or blank |
| `Chat.PassIsUpperTiers` | src/Chat.jsx:114-203 | because the chunk tier never fires, a pass is the chapter tier followed (unless it threw) by the global tier |
| `Chat.ChapterRollup` | src/Chat.jsx:143-171 | with at least 10 chunk summaries in the snapshot and an ok reply, the pass first appends the chapter summary with index floor(first index / 10) and the returned text, then removed copies of the first 10 chunk summaries in their order |
| `Chat.GlobalRollup` | src/Chat.jsx:175-202 | with at least 10 chapter summaries, no exception in the chapter tier and an ok reply, the pass ends with a global summary without index and then removed copies of the first 10 chapter summaries in order, after exactly what the chapter tier appended |
| `Chat.ChapterThrowEndsPass` | src/Chat.jsx:149-156 | an exception in the chapter tier ends the pass with nothing appended and the global tier never asked |
| `Chat.ChapterNotOkContinues` | src/Chat.jsx:157-179 | a chapter response that is not ok appends nothing, and the global tier is still evaluated and its result is the pass's |
| `Chat.TiersReadTheSnapshot` | src/Chat.jsx:175-179 | with 9 chapter summaries in the snapshot, a successful chapter tier brings the history to 10, yet the global tier is not asked in the same pass |
| `Chat.ChapterTierStaysDue` | src/Chat.jsx:143-148 | once the chapter tier is due in a snapshot, a pass over any snapshot that extends it (appended records and tombstones included, as in the passes the socket handler and `sendMessage` start) finds the same tier with the same request and the same ten chunk summaries; an edit's pass runs over a rewritten list and is not covered |
| `Chat.SnapshotCountsNewMessageTwice` | src/Chat.jsx:95-96 | the snapshot the callers pass counts a new raw message twice: two more raw messages than the history before it |
| `Chat.Normalize` | src/Chat.jsx:90-93 | the stored role is the given one, or `assistant` when missing or empty; the stored text is the trimmed text, or empty when missing; no other field is set |
| `Chat.Incoming` | src/Chat.jsx:82-93 | a JSON null stores nothing; a payload that is not JSON becomes an assistant message with the trimmed raw text; a JSON payload becomes the normalized record of its role and parts; every stored inbound record has a role and trimmed text |
| `Chat.Outgoing` | src/Chat.jsx:213-217 | blank input yields no message; other input yields a user message whose text is the non-empty trimmed input |
| `Chat.ChatSession.constructor` | src/Chat.jsx:51-52 | a new chat screen is not summarizing and has sent nothing |
| `Chat.ChatSession.Send` | src/Chat.jsx:221 | a send on an open socket adds exactly that text to what was sent |
| `Chat.ChatSession.RunTier` | src/Chat.jsx:147-171 | one tier appends to the character's history exactly what the tier specification says for the oracle's reply, and nothing else changes |
| `Chat.ChatSession.TriggerSummaryIfNeeded` | src/Chat.jsx:109-211 | a pass that finds the flag set does nothing; otherwise it sends the requests and appends the records of the pass specification over the snapshot to the current history, and the flag is clear again afterwards whatever the replies |
| `Chat.ChatSession.OnMessage` | src/Chat.jsx:82-97 | an inbound message is stored once, then a pass runs over the earlier history plus that record twice; a JSON null changes nothing |
| `Chat.ChatSession.SendMessage` | src/Chat.jsx:213-222 | blank input or a closed socket changes nothing; otherwise the trimmed user message is stored, a pass runs over the history plus it twice, and the trimmed text is sent |
| `LastMessageActions.Edited` | src/components/LastMessageActions.jsx:23-25 | the edited list has the history's length and order; records whose id equals the target get the new text, all their other fields and all other records are unchanged |
| `LastMessageActions.Dependents` | src/components/LastMessageActions.jsx:29-30 | the dependents are exactly the edited records whose `parentUserId` equals the target |
| `LastMessageActions.EditAppends` | src/components/LastMessageActions.jsx:26-31 | an edit appends the whole edited list first, and every record after it is removed, replies to the target, and equals the removed copy of the edited form of some record that replied to the target |
| `LastMessageActions.EditTailAppend` | src/components/LastMessageActions.jsx:29-31 | one more record in the history adds one removed copy of its edited form at the end of the edit's tail exactly when it replies to the target, so the tail holds one copy per reply, duplicates included, in history order |
| `LastMessageActions.EditAppendsNothingToEmpty` | src/components/LastMessageActions.jsx:21-31 | an edit of the empty history appends nothing, the base case of the tail's count |
| `LastMessageActions.EditTombstonesExactlyTheReplies` | src/components/LastMessageActions.jsx:26-31 | an edit appends the whole edited list, then the removed copy of the edited form of every record replying to the target, and every appended copy is such a copy; count and order are `EditTailAppend`'s |
| `LastMessageActions.EditWithoutId` | src/components/LastMessageActions.jsx:23-31 | with no id on the edited message, every id-less record gets the new text and every record without `parentUserId` gets a removed copy |
| `LastMessageActions.LastAssistant` | src/components/LastMessageActions.jsx:45-48 | regenerate's target is a live assistant record of the history, and there is none exactly when the history holds no live assistant record |
| `LastMessageActions.Context` | src/components/LastMessageActions.jsx:56-58 | the context holds history records that are live user or assistant records, and every such record of the history is in it |
| `LastMessageActions.LastUser` | src/components/LastMessageActions.jsx:60-63 | the re-sent record is a user record of the context, and there is none exactly when the context holds no user record |
| `LastMessageActions.RegeneratePassIsEmpty` | src/components/LastMessageActions.jsx:56-69 | the pass over the context finds no tier due: it appends nothing, sends no summary request and does not throw |
| `LastMessageActions.LastAssistantIsLast` | src/components/LastMessageActions.jsx:45-50 | regenerate finds nothing exactly when there is no live assistant record, and otherwise the live assistant record with none after it |
| `LastMessageActions.ContextHoldsRegeneratedReply` | src/components/LastMessageActions.jsx:44-58 | the context, read before the tombstone is appended, still holds the reply being regenerated |
| `LastMessageActions.ResentIsLastLiveUser` | src/components/LastMessageActions.jsx:56-63 | the re-sent record is the last user record of the history that is not removed |
| `LastMessageActions.HandleEditSave` | src/components/LastMessageActions.jsx:20-40 | the history grows by the edited list, the removed copies of the replies, and the pass over the edited list (not a fresh read); the trimmed text is sent only on an open socket |
| `LastMessageActions.HandleRegenerate` | src/components/LastMessageActions.jsx:43-70 | with no live assistant reply nothing changes; otherwise the history grows by exactly one record, the removed copy of the last live assistant reply, no summary request is sent, and the trimmed text of the context's last user record is sent only on an open socket |

## Left out

- The catalog part of the store (`characters`, `selectedCharacter`, `loading`, `error`, `fetchCharacters`, `selectCharacter`) and the character-selection screen: network fetch and UI state.
- Rendering (`MessageBubble`, Markdown, layout), React state (`messages`, `inputMessage`, `status`, `isEditing`) and the 300 ms polling of the store: presentation only.
- The WebSocket lifecycle (opening, closing, status callbacks). The socket is an `open` flag and a ghost list of sent texts. Nothing in the model opens or closes the socket, so the flag is fixed for a chat screen. A socket that closes between two handler calls is not modelled.
- `fetch`, the request headers and JSON encoding of the summary requests and replies. These are foreign calls, replaced by the oracle. The oracle answers a given tier and request body the same way every time. So two passes that send the same request from the same tier get the same reply, where the real service may answer them differently. Within one pass the chapter and global calls are told apart by their tier, even when their bodies coincide (`Chat.ChapterAndGlobalBodiesCoincide`).
- `localStorage` and the JSON round trip of the histories. Storage is a ghost copy of the map. A failing write (quota) is not modelled.
- Asynchrony. A pass runs to completion when it is called. So appends of a pass land before anything the caller does after starting it, while in the code they land after each `await`. The flag is plain state, so in this sequential model a pass never finds it set unless the state says so.
- Inbound JSON whose `role` is not a string or whose `parts` is neither a string nor missing. The payload's `role` and `parts` are optional strings.
- Non-integer or `null` summary indexes. An index is a whole number or NaN. That a NaN index becomes `null` after a reload is not modelled.
- Character ids that name `Object.prototype` properties (`constructor`, `toString`, `__proto__`, …). The object lookup in `getMessages` and `addMessage` resolves these through the prototype, so `getMessages` returns a function and `addMessage` throws when it spreads it. The model's map treats every id as an ordinary key.
