# DocAmy client store and request validators, in Dafny

This project models two small parts of the DocAmy web application, which fronts the Tavus
conversational-video API.

1. **`LocalStorageManager`** (`src/utils/storage.ts`). It is the browser-side store that keeps one
   JSON document under the `localStorage` key `tavus_app_data`. The document holds a config
   (version, last update), user preferences, Tavus settings, a list of conversations and a list of
   recent messages, newest first. A conversation or message put in front of its list cuts the list
   to 50 or 200 entries. A record replaced in place and an imported document keep their lists as
   long as they are. Every read except `init`'s goes through `getState`. That function parses the
   blob, falls back to the defaults when it cannot, and merges what it read onto the defaults
   section by section. `init` parses the blob itself. The mutators read, change a local copy and write it back through `saveState`, which
   stamps `config.lastUpdated`. There are two exceptions: `updateConversation` with an
   unknown id writes nothing, and `addMessage` saves only what `updateConversation` re-reads. `init` also writes the defaults when the blob is missing or bad, and
   migrates (re-tags) a stored document with another version.
2. **The request models** (`fastapi-server/models.py`). These are the pydantic field bounds and
   validators on ids, message text, `max_duration`, e-mail and password.

Layout:

- `wrappers.dfy`: `Option` and `Result`.
- `app_state.dfy` (module `AppStateModel`): the typed state. It also holds the partial shapes a
  parsed blob or an update payload has, the object spread `{...base, ...patch}` per section, the
  defaults (`DefaultState`), `validateAndMergeState` (`ValidateAndMerge`), the migration re-tag and
  the save stamp.
- `history.dfy` (module `History`): the list operations of the mutators (`findIndex`, `unshift`
  then `slice(0, cap)`, index assignment, `filter`) and lemmas about sequences of insertions.
- `storage_spec.dfy` (module `StorageSpec`): each operation as a function from the stored blob to
  the new blob (and result), with the lemmas that relate them. Reading what a write left is one
  such lemma.
- `storage_manager.dfy` (module `StorageManager`): the class `LocalStorageManager`. Its field
  `blob` is the `localStorage` entry. Its methods are imperative, in the source's order of steps.
  Each one that has a `StorageSpec` function is proved to leave exactly the blob that function
  describes. `ClearAll` and `ClearAllData` have none: the first is stated as removing the entry,
  the second by the state it returns and the state a read then sees.
  `getState`, `getConversationMessages`, `exportData` and `getStorageInfo` only read, so they are
  functions of the class that delegate to the `StorageSpec` functions carrying the contracts.
- `request_models.dfy` (module `RequestModels`): the validators.

Parameters instead of effects:

- The clock (`new Date().toISOString()`) is the `now` argument of every operation that writes.
- `defaultState` is built once, when the store is created, from the `createdAt` time.
- `JSON.parse`, `JSON.stringify(state)` and `JSON.stringify(state, null, 2)` are the three
  functions of a `Codec`. The model relies only on the laws in `StorageSpec.Lawful`:
  - parsing a serialised state gives back an object carrying all of its keys;
  - the compact text is never empty.
- A parsed value is `null` or an object. Any other JSON value has no keys and is treated as the
  empty object, as property reads on it give `undefined`.

Behaviour of the code that the model keeps, though it is easy to misread:

- `addMessage` does not store the message while the blob is readable (see Findings; for an absent or unreadable blob, see Aliasing under Left out).
- `importData` also returns `false` for text that parses to `null`, because merging `null` throws.
- `init` writes the defaults not only when parsing fails but also when the stored object has no
  `config`, because reading `config.version` throws inside the same `try`.
- `init` returns the state without the new stamp while it stores the stamped copy.
- An update to a conversation keeps its position in the list. So the 50 entries kept are the 50
  most recently *inserted*, not the most recently updated.

## Model

| member | source | states |
|---|---|---|
| AppStateModel.DefaultState | src/utils/storage.ts:55-79 | a fresh store has the current version, `lastUpdated` from its creation, no conversations or messages, no API key and no remembered conversation |
| AppStateModel.OverrideConfig | src/utils/storage.ts:254 | each config key is the raw object's when it has the key, the default's otherwise |
| AppStateModel.OverridePreferences | src/utils/storage.ts:137-141 | spreading a preferences patch: every key the patch carries wins, every other key keeps its old value |
| AppStateModel.OverrideTavusSettings | src/utils/storage.ts:143-147 | the same for Tavus settings, including the optional `lastUsedConversationId` |
| AppStateModel.OverrideConversation | src/utils/storage.ts:172 | the same for a conversation record; the update may change its id too |
| AppStateModel.ValidateAndMerge | src/utils/storage.ts:252-260 | a missing section gives the default section; a present one is overridden key by key; each list is taken verbatim or becomes empty |
| AppStateModel.Retagged | src/utils/storage.ts:265 | migration sets the version to 1.0.0 and changes nothing else |
| AppStateModel.Stamped | src/utils/storage.ts:123-129 | the saved copy carries the write time as `lastUpdated`; nothing else differs |
| AppStateModel.MergeOfCompleteState | src/utils/storage.ts:252-260 | a raw object carrying every key of a state merges back to that very state |
| AppStateModel.MergeIdempotent | src/utils/storage.ts:252-260 | merging a merged state again gives the same state |
| AppStateModel.MergeOfEmpty | src/utils/storage.ts:252-260 | an object without keys merges to the defaults with empty lists |
| AppStateModel.OverrideIdempotent | src/utils/storage.ts:137-147 | applying the same partial update twice equals applying it once |
| History.Take | src/utils/storage.ts:159-161 | the cut keeps the first min(length, cap) entries, in order |
| History.Filter | src/utils/storage.ts:179-180 | the filter keeps exactly the entries that pass, and is no longer than its input |
| History.FilterConcat | src/utils/storage.ts:179-180 | filtering a concatenation is concatenating the filtered parts: kept entries keep their order |
| History.FilterKeepsAll | src/utils/storage.ts:179-180 | a filter that every entry passes returns the list unchanged |
| History.IndexOf | src/utils/storage.ts:152 | `findIndex`: the first index whose id matches, or -1 exactly when no entry matches |
| History.WithConversation | src/utils/storage.ts:150-165 | a known id is replaced at its index with the length unchanged; a new record goes first with the rest a prefix of the old list cut to 50; a list within 50 stays within 50 |
| History.WithConversationUpdated | src/utils/storage.ts:167-175 | only the first record with the id is spread-merged; every other record, and the whole list for an unknown id, is unchanged |
| History.WithoutConversation | src/utils/storage.ts:179 | a record is kept exactly when it was there and its id differs |
| History.WithoutMessagesOf | src/utils/storage.ts:180 | a message is kept exactly when it was there and belongs to another conversation |
| History.MessagesOf | src/utils/storage.ts:204 | the messages kept are exactly those of the conversation |
| History.PushMessage | src/utils/storage.ts:193-199 | the message goes first, the rest is a prefix of the old list, the whole cut to 200 |
| History.DeleteKeepsOrder | src/utils/storage.ts:177-182 | both deletions distribute over concatenation, so what is left keeps its order |
| History.DeleteUnknownChangesNothing | src/utils/storage.ts:177-182 | deleting an id nothing carries leaves both lists equal |
| History.AddDistinctKeepsNewest | src/utils/storage.ts:150-165 | N records with distinct ids added to an empty list give the newest first, only the 50 most recent, length min(N, 50) |
| History.PushAllKeepsNewest | src/utils/storage.ts:193-199 | N messages pushed onto a history within the cap give the newest first, at most the 200 most recent |
| StorageSpec.GetState | src/utils/storage.ts:107-118 | an absent, empty, unparseable or `null` blob reads as the defaults |
| StorageSpec.Saved | src/utils/storage.ts:121-134 | a save always writes; the text is never read as absent and parses back to every key of the stamped state |
| StorageSpec.ReadAfterSave | src/utils/storage.ts:121-134 | reading after a save gives the saved state with the new `lastUpdated` |
| StorageSpec.GetStateNeverMigrates | src/utils/storage.ts:107-118 | a read returns the stored version as stored; it never re-tags |
| StorageSpec.Migrate | src/utils/storage.ts:262-268 | the result is the merged state with version 1.0.0 and its merged `lastUpdated` kept; the blob holds it, saved |
| StorageSpec.Init | src/utils/storage.ts:82-104 | the result always has version 1.0.0; a current document is merged and not written; anything else is written; an unreadable blob or one without `config` yields the defaults; an old version yields the merged, re-tagged state |
| StorageSpec.InitThenGetState | src/utils/storage.ts:82-104 | after `init` a read sees version 1.0.0 and what `init` returned, stamped when it wrote |
| StorageSpec.ClearThenInit | src/hooks/useAppState.ts:81-84 | after clearing, `init` returns the defaults and a read sees them stamped |
| StorageSpec.UpdateUserPreferences | src/utils/storage.ts:137-141 | always writes, and the stored preferences are the whole spread section, every key present |
| StorageSpec.UpdateTavusSettings | src/utils/storage.ts:143-147 | always writes, and the stored settings are the whole spread section, every key present |
| StorageSpec.UpdateSectionsStored | src/utils/storage.ts:137-147 | after a section update a read sees that section spread with the patch and all else unchanged but the stamp |
| StorageSpec.AddConversation | src/utils/storage.ts:150-165 | always writes, and a read afterwards holds the record |
| StorageSpec.AddConversationStored | src/utils/storage.ts:150-165 | after `addConversation` a read sees the list changed as in WithConversation and all else unchanged but the stamp; a list within 50 stays within 50 |
| StorageSpec.UpdateConversation | src/utils/storage.ts:167-175 | an unknown id leaves the blob exactly as it was |
| StorageSpec.UpdateConversationStored | src/utils/storage.ts:167-175 | for a known id a read sees the list changed as in WithConversationUpdated and all else unchanged but the stamp |
| StorageSpec.DeleteConversation | src/utils/storage.ts:177-182 | always writes, and afterwards no stored record or message carries the id |
| StorageSpec.DeleteConversationCascades | src/utils/storage.ts:177-182 | after deletion no record and no message of the id remain, the rest is the filtered lists, and the state is rewritten even when nothing matched |
| StorageSpec.AddMessage | src/utils/storage.ts:185-206 | as written: the stored messages after the call are the stored messages before it |
| StorageSpec.AddMessageStored | src/utils/storage.ts:185-206 | the owning conversation gets the message time and the count from the local list; the whole state is otherwise the old one, stamped, so stored messages, other records and other sections are unchanged; an unknown conversation writes nothing |
| StorageSpec.AddMessageIntended | src/utils/storage.ts:193-205 | corrected: the stored messages after the call are the old ones with the message pushed in front, cut to 200 |
| StorageSpec.AddMessageDropsTheMessage | src/utils/storage.ts:193-205 | on an empty store, adding c1 and then a message for it stores count 1 and time T1 but no message |
| StorageSpec.AddMessageIntendedStored | src/utils/storage.ts:193-205 | with the message saved, the stored history starts with it, stays within 200, and the count equals the stored messages of the conversation |
| StorageSpec.AddMessageIntendedStoresTheMessage | src/utils/storage.ts:193-205 | with the message saved, the same session stores exactly that message |
| StorageSpec.ConversationMessages | src/utils/storage.ts:208-211 | every returned message belongs to the conversation and is stored, and every stored message of it is returned |
| StorageSpec.Export | src/utils/storage.ts:214-217 | the exported text parses back to every key of the current state |
| StorageSpec.Import | src/utils/storage.ts:219-229 | it fails exactly when the text does not parse or parses to null, and then leaves the blob as it is; otherwise it stores the merged object, stamped |
| StorageSpec.ImportExportRoundTrip | src/utils/storage.ts:214-229 | importing the exported text succeeds and a read sees the same state, restamped |
| StorageSpec.Utf8Size | src/utils/storage.ts:239 | the UTF-8 size lies between the length and four times the length, and equals the length for ASCII |
| StorageSpec.RoundedKB | src/utils/storage.ts:246 | the nearest number of KiB, halves rounded up |
| StorageSpec.Info | src/utils/storage.ts:237-249 | `hasApiKey` holds exactly when the key is non-empty; counts are the list lengths; the size is the rounded UTF-8 size of the compact text |
| StorageManager.LocalStorageManager.constructor | src/utils/storage.ts:51-79 | a store over existing storage, with defaults stamped at creation |
| StorageManager.LocalStorageManager.GetState | src/utils/storage.ts:107-118 | when the blob cannot be read, the state returned is the store's `defaultState` |
| StorageManager.LocalStorageManager.SaveState | src/utils/storage.ts:121-134 | writes the stamped state; a read then returns it |
| StorageManager.LocalStorageManager.Init | src/utils/storage.ts:82-104 | leaves the blob and returns the state that StorageSpec.Init gives; version 1.0.0 returned and stored |
| StorageManager.LocalStorageManager.MigrateData | src/utils/storage.ts:262-268 | as StorageSpec.Migrate; a read then returns the result, stamped |
| StorageManager.LocalStorageManager.UpdateUserPreferences | src/utils/storage.ts:137-141 | writes the state with the preferences spread-merged |
| StorageManager.LocalStorageManager.UpdateTavusSettings | src/utils/storage.ts:143-147 | writes the state with the settings spread-merged |
| StorageManager.LocalStorageManager.AddConversation | src/utils/storage.ts:150-165 | writes the state whose list is WithConversation of the old one |
| StorageManager.LocalStorageManager.UpdateConversation | src/utils/storage.ts:167-175 | an unknown id writes nothing; a known one writes the merged record |
| StorageManager.LocalStorageManager.DeleteConversation | src/utils/storage.ts:177-182 | afterwards no record and no message of the id is stored |
| StorageManager.LocalStorageManager.AddMessage | src/utils/storage.ts:185-206 | as StorageSpec.AddMessage; the stored messages are unchanged |
| StorageManager.LocalStorageManager.GetConversationMessages | src/utils/storage.ts:208-211 | every returned message is a stored one of the conversation, and every stored one of it is returned |
| StorageManager.LocalStorageManager.ExportData | src/utils/storage.ts:214-217 | the text parses back to every key of the state a read returns |
| StorageManager.LocalStorageManager.ImportData | src/utils/storage.ts:219-229 | as StorageSpec.Import; a refused import leaves the blob untouched |
| StorageManager.LocalStorageManager.ClearAll | src/utils/storage.ts:232-234 | removes the entry |
| StorageManager.LocalStorageManager.ClearAllData | src/hooks/useAppState.ts:81-84 | returns the defaults and leaves them stored, stamped |
| StorageManager.LocalStorageManager.GetStorageInfo | src/utils/storage.ts:237-249 | `hasApiKey` holds exactly when the key is non-empty; the counts, version and `lastUpdated` are those of the read state |
| StorageManager.ExportThenImport | src/utils/storage.ts:214-229 | export then import on one store succeeds and restores its state, restamped |
| RequestModels.ValidateIds | fastapi-server/models.py:34-38 | an id is accepted exactly when it has at least 5 characters, and is returned unchanged, not stripped |
| RequestModels.Strip | fastapi-server/models.py:47 | the input is a run of whitespace, then the result, then a run of whitespace; the result neither starts nor ends with whitespace |
| RequestModels.StripIdempotent | fastapi-server/models.py:47 | stripping twice is stripping once |
| RequestModels.StripEmptyIffBlank | fastapi-server/models.py:45 | the stripped text is empty exactly when the text is all whitespace |
| RequestModels.ValidateText | fastapi-server/models.py:43-47 | blank text is refused; other text is accepted as its non-empty stripped form |
| RequestModels.AcceptMessageText | fastapi-server/models.py:41-47 | accepted exactly when the raw text has 1 to 2000 characters and is not blank; the value is the stripped text; each refusal names its own reason: too short, too long, or blank within the bounds |
| RequestModels.LongPaddedTextRefused | fastapi-server/models.py:41 | a 2001-character text is refused although its stripped form would pass the validator |
| RequestModels.AcceptMaxDuration | fastapi-server/models.py:22 | omitted gives 30, null gives none, a given duration is accepted exactly when 5 ≤ d ≤ 300; a refusal is `DurationOutOfRange` |
| RequestModels.IsEmailMatchesPattern | fastapi-server/models.py:95 | the direct check accepts exactly the strings matching `^[^@]+@[^@]+\.[^@]+$` |
| RequestModels.AcceptEmail | fastapi-server/models.py:95 | accepted exactly when the pattern matches: one `@`, non-empty local part, domain with a `.` neither first nor last; a refusal is `EmailMismatch` |
| RequestModels.AcceptPassword | fastapi-server/models.py:96 | accepted exactly when at least 8 characters long; a refusal is `PasswordTooShort` |
| RequestModels.AcceptConversationRequest | fastapi-server/models.py:21-38 | accepted exactly when both ids pass and any given duration is in range; each short id and an out-of-range duration is reported; a failure reports nothing else, one error per failing field; omitted properties give duration 30, `null` ones none, given ones their checked duration |
| RequestModels.AcceptMessageRequest | fastapi-server/models.py:40-47 | accepted exactly when the text bounds and the blank check pass; the body holds the stripped text; a failure is the one `text` error with the reason of AcceptMessageText |
| RequestModels.AcceptUserCreate | fastapi-server/models.py:94-97 | accepted exactly when the e-mail matches and the password is long enough; a failure reports the e-mail error exactly when the pattern fails and the password error exactly when it is too short |

## Left out

- Browser storage failures and quota: `saveState` swallows them and logs, so it is modelled as a write that always succeeds. The console logging is left out.
- JSON values of the wrong type (a string where a flag belongs), keys set to `null` inside a section, and unknown keys inside a section are not modelled; the sections are typed records. Top-level unknown keys are dropped by the merge in the source too.
- JavaScript numbers (`maxDuration`, `messageCount`) are unbounded integers here.
- Aliasing: `getState` returns `defaultState` itself for an absent, unreadable or `null` blob (src/utils/storage.ts:110, 114-116), and `init` does too (lines 87, 102). On such a store, `unshift` and the section assignments of the mutators therefore change the in-memory defaults. Those changed defaults are then what later reads of an unreadable blob return, the base that every later merge of a partial blob spreads over (lines 254-256), and what `init` writes after `clearAll` (line 86). The model uses values and does not reproduce this.
- Concurrent callers and lost updates between two read-modify-write sequences: every operation runs to completion here.
- The cross-tab `storage` event listener and the React state of `useAppState`; of the hook, only `clearAllData` is modelled. The `useStorage` wrapper only forwards calls.
- The download, file reading and drag-and-drop around export and import (`StorageManager.tsx`).
- An update payload whose key is present with the value `undefined`: the spread copies it and `JSON.stringify` drops it. For preferences and Tavus settings the next read then falls back to the default for that key, since their merge spreads over the defaults. For a conversation the list is read verbatim, so the stored record simply lacks the key and no default fills it in. In the model an unset key keeps the old value. No caller in the source passes such a payload.
- pydantic's "field required" error for an omitted `replica_id`, `persona_id`, `text`, `email` or `password`: the model's inputs are plain strings, always present.
- pydantic's type coercion (a numeric string for `max_duration`, for one), the error message texts, and the fields without constraints (`name`, `language`, `enable_streaming`, `video_chat_enabled`, `callback_url`, `full_name`).
- History.AddDistinctKeepsNewest: stated for records with distinct ids added to an empty list. With repeated ids an update keeps its position, so the surviving records are not the most recently touched ones.
- History.PushAllKeepsNewest: stated for a history already within the cap. An imported history of over 200 messages is cut at the first push.
- StorageManager.LocalStorageManager.AddMessage: keeps the source's behaviour, so the message is not stored. The corrected operation is StorageSpec.AddMessageIntended, defined and proved beside it; no class method uses it.

## Findings

| source | as written | input that shows it | evidently intended | confidence | as-written member | corrected member |
|---|---|---|---|---|---|---|
| src/utils/storage.ts:193-205 | `addMessage` prepends the message to a local copy and cuts it to 200. It then calls `updateConversation`, which re-reads the store and saves only the conversation change, so the message is never stored while the blob is readable (for an absent or unreadable blob, see Aliasing under Left out). | On an empty store, add conversation `c1`, then message `m1` for it. The first save makes the blob readable, so `m1` goes into a fresh parsed copy. The stored `c1` gets `messageCount` 1 and `lastMessageAt` T1, but the stored `recentMessages` stays empty (StorageSpec.AddMessageDropsTheMessage). | The stored history starts with the message and is cut to 200, as the comment at line 196 says. `messageCount` then counts stored messages (StorageSpec.AddMessageIntendedStored, StorageSpec.AddMessageIntendedStoresTheMessage). | high; not executed | StorageSpec.AddMessage | StorageSpec.AddMessageIntended |
