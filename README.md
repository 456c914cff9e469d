# Entity stores of the community app, in Dafny

This project models the client-side entity stores of the community web app
(`apps/community/app/stores`). Each store is a Pinia store over a few refs. The
plugins, knowledge and characters stores hold a cached list. The user store
holds one profile. Every store has a `loading` flag, and the list stores also
hold one or two realtime channel handles. Every operation calls a remote
procedure and then applies one fixed effect to the cache:

- keep the cache when the call fails;
- replace the list wholesale when the call succeeds;
- patch the first cached record with a given id (like and subscribe flags);
- filter out records by id (plugin delete);
- refetch the whole list (knowledge mutations, character delete).

Realtime handles open at most once and close idempotently.

Layout, one module per file:

- `wrappers.dfy` (`Wrappers`): `Option` and `Result`.
- `remote.dfy` (`Remote`): the remote call as an input.
  - `Reply<T>` is `Failure` or `Success` with an optional payload. `Ack` is for calls whose payload is ignored.
  - `Nullable<T>` tells JavaScript's `null` from `undefined`.
  - `Refreshed` is the list-cache effect of one fetch. The lemmas cover a sequence of fetches.
- `realtime.dfy` (`Realtime`): a channel is a topic, a table, an event filter and an optional row filter. `Live` counts the channels in a handle slot.
- `plugins.dfy`, `knowledge.dfy`, `characters.dfy`, `user.dfy`: one class per store. Its fields are the store's refs, plus two ghost fields:
  - `liveChannels` counts the channels the store opened and has not removed. `Valid()` ties it to the handle slots.
  - `requests` logs the remote calls the store issued.

  Each method declares the fields it may change with a field-level `modifies`
  clause. So "never touches the cache" is part of the method's frame. The
  pure parts of these stores are functions with lemmas: `find`, the in-place
  patch, `filter`, `mapCharacter` and the query builder.

Every remote call is an input of the operation that issues it. A mutation
that refetches on success also takes the reply of that refetch as an input.
Operations are atomic, and each modelled operation is one resolved call.

Five behaviours of the stores shape the model:

- The like and subscribe patches are applied after the call succeeds, never before it.
- `createPlugin`, `updatePlugin` and the knowledge mutations return a failure value; they do not rethrow.
- `deletePlugin` filters the cache locally; it does not refetch.
- `fetchCharacters` keeps the cache when a successful reply has no list to map (the TypeError is caught).
- The knowledge file channel has one slot that is not keyed by knowledge base.

## Model

| member | source | states |
|---|---|---|
| `Remote.Refreshed` | apps/community/app/stores/plugins.ts:43-48 | one list fetch: a failure keeps the cached list, a success with a list replaces the cache with that list, and a success without one empties it |
| `Remote.FailedFetchesKeepCache` | apps/community/app/stores/plugins.ts:43-50 | any run of failed list fetches leaves the cached list exactly as it was, so a failed fetch never empties the cache |
| `Remote.LastResolvedWins` | apps/community/app/stores/plugins.ts:43-48 | after several fetches, applied in the order their replies resolved, the cache holds the payload of the last successful reply (or `[]` if that reply had none). Earlier replies do not matter |
| `Plugins.FindIndex` | apps/community/app/stores/plugins.ts:154 | `find` by id returns the first index holding that id; no index means no record has it |
| `Plugins.PatchFirst` | apps/community/app/stores/plugins.ts:154-158 | an in-place patch after `find` changes exactly the first record with the id, through `f`. Every other record and the length stay unchanged. An absent id changes nothing |
| `Plugins.Like` | apps/community/app/stores/plugins.ts:156-157 | the like patch sets `isLiked` to true and adds one to `liked`; every other field is unchanged |
| `Plugins.Unlike` | apps/community/app/stores/plugins.ts:176-177 | the unlike patch sets `isLiked` to false and subtracts one from `liked`, with no lower bound; every other field is unchanged |
| `Plugins.MarkSubscribed` | apps/community/app/stores/plugins.ts:87 | the subscribe patch sets `isSubscribed` to true and changes no other field |
| `Plugins.MarkUnsubscribed` | apps/community/app/stores/plugins.ts:109 | the unsubscribe patch sets `isSubscribed` to false and changes no other field |
| `Plugins.PatchKeepsFirst` | apps/community/app/stores/plugins.ts:154-158 | a patch that keeps ids (like/unlike/subscribe flags) does not move the first match, so a later `find` finds the same record |
| `Plugins.LikeThenUnlikeRestoresCount` | apps/community/app/stores/plugins.ts:154-177 | like then unlike of the same id restores every `liked` count. The only difference from the original list is `isLiked = false` on the first record with that id |
| `Plugins.Without` | apps/community/app/stores/plugins.ts:230 | the filtered list holds exactly the records of the original whose id differs, and is no longer |
| `Plugins.WithoutKeepsOrder` | apps/community/app/stores/plugins.ts:230 | filtering distributes over concatenation, so the kept records keep their original relative order |
| `Plugins.WithoutAbsent` | apps/community/app/stores/plugins.ts:230 | deleting an id no cached record has leaves the list identical |
| `Plugins.WithoutIdempotent` | apps/community/app/stores/plugins.ts:230 | a second local delete of the same id removes nothing more |
| `Plugins.PluginsStore.constructor` | apps/community/app/stores/plugins.ts:24-25 | the store starts with no plugins, not loading, no channel and no calls |
| `Plugins.PluginsStore.FetchPlugins` | apps/community/app/stores/plugins.ts:28-54 | an error keeps `plugins`; success replaces it with the returned list, or with `[]` when the payload has none. `loading` is false afterwards. One GET is issued with the filter |
| `Plugins.PluginsStore.GetPluginById` | apps/community/app/stores/plugins.ts:56-72 | returns the plugin of a successful reply, else null. The cache and `loading` are outside its frame |
| `Plugins.PluginsStore.SubscribePlugin` | apps/community/app/stores/plugins.ts:74-94 | returns true iff the call succeeded. Only then is `isSubscribed = true` set on the first record with the id; on failure the cache is unchanged |
| `Plugins.PluginsStore.UnsubscribePlugin` | apps/community/app/stores/plugins.ts:96-116 | as subscribe, with `isSubscribed = false` and a DELETE call |
| `Plugins.PluginsStore.CreatePlugin` | apps/community/app/stores/plugins.ts:118-144 | returns `{success:false, error}` on failure and `{success:true, data}` otherwise. `plugins` is outside its frame; `loading` is false afterwards |
| `Plugins.PluginsStore.LikePlugin` | apps/community/app/stores/plugins.ts:146-164 | returns true iff the call succeeded. Only then the first record with the id gets `isLiked = true` and `liked + 1`; on failure the cache is unchanged |
| `Plugins.PluginsStore.UnlikePlugin` | apps/community/app/stores/plugins.ts:166-184 | as like, with `isLiked = false` and `liked - 1` (no lower bound) |
| `Plugins.PluginsStore.UpdatePlugin` | apps/community/app/stores/plugins.ts:186-215 | as create, with a PUT on the item. `plugins` is never modified; `loading` is false afterwards |
| `Plugins.PluginsStore.DeletePlugin` | apps/community/app/stores/plugins.ts:217-239 | success removes every record with the id and returns `{success:true}`. Failure keeps the list and returns `{success:false, error}`. `loading` is false afterwards |
| `Plugins.PluginsStore.SubscribeToChanges` | apps/community/app/stores/plugins.ts:241-255 | a no-op while a handle exists; otherwise it opens the `public:plugins` channel. The live-channel count grows only from none to one |
| `Plugins.PluginsStore.UnsubscribeFromChanges` | apps/community/app/stores/plugins.ts:257-262 | clears the handle and closes the live channel if there is one; idempotent |
| `Plugins.PluginsStore.OnPluginsChange` | apps/community/app/stores/plugins.ts:247-253 | any change event on the live channel triggers one unfiltered fetch |
| `Plugins.SubscribeTwiceOpensOne` | apps/community/app/stores/plugins.ts:241-255 | two subscribes in a row, from no handle, leave the `public:plugins` handle set and exactly one live channel |
| `Plugins.UnsubscribeTwiceLeavesNone` | apps/community/app/stores/plugins.ts:257-262 | two unsubscribes in a row, from any state, leave no handle and no live channel |
| `Knowledge.KnowledgeStore.constructor` | apps/community/app/stores/knowledge.ts:30-31 | the store starts with no knowledge bases, not loading, and both slots empty |
| `Knowledge.KnowledgeStore.FetchKnowledgeBases` | apps/community/app/stores/knowledge.ts:34-61 | an error keeps `knowledgeBases`; success replaces it with the returned list or `[]`. `loading` is false afterwards |
| `Knowledge.KnowledgeStore.GetKnowledgeBaseById` | apps/community/app/stores/knowledge.ts:63-77 | returns null when the call fails, and the payload's knowledge base when it succeeds. A success whose payload has no knowledge base returns `undefined`; in the code a payload field that is JSON `null` also yields null, but the model reads null and missing payload fields alike as missing (see "Left out"), so its null result is exactly the failed call. The list and `loading` are outside its frame |
| `Knowledge.KnowledgeStore.FetchKnowledgeFiles` | apps/community/app/stores/knowledge.ts:79-93 | returns `[]` on failure and the returned files (possibly `undefined`) on success. The list and `loading` are outside its frame |
| `Knowledge.KnowledgeStore.CreateKnowledgeBase` | apps/community/app/stores/knowledge.ts:119-138 | on success, exactly one unfiltered refetch follows the POST and the created record is returned (`undefined` when the payload has none; a JSON `null` field, which the code would return as null, is read as missing). On failure it returns null, with no refetch and no change to the list or `loading` |
| `Knowledge.KnowledgeStore.UpdateKnowledgeBase` | apps/community/app/stores/knowledge.ts:140-161 | as create, with a PATCH on the item, and the same reading of a JSON `null` payload field |
| `Knowledge.KnowledgeStore.DeleteKnowledgeBase` | apps/community/app/stores/knowledge.ts:181-195 | returns true iff the call succeeded, and then issues exactly one refetch. On failure it returns false and changes nothing else |
| `Knowledge.KnowledgeStore.SubscribeToChanges` | apps/community/app/stores/knowledge.ts:197-212 | opens `public:knowledge_bases` only when no handle exists, so at most one such channel is live |
| `Knowledge.KnowledgeStore.UnsubscribeFromChanges` | apps/community/app/stores/knowledge.ts:214-219 | clears the handle and closes its channel if live; idempotent |
| `Knowledge.KnowledgeStore.OnKnowledgeBasesChange` | apps/community/app/stores/knowledge.ts:204-210 | any change event on the live channel triggers one unfiltered fetch |
| `Knowledge.KnowledgeStore.SubscribeToFileChanges` | apps/community/app/stores/knowledge.ts:221-241 | the single file slot is not keyed by `kbId`: while it is taken, subscribing for any knowledge base is a no-op. Otherwise it opens the channel for `kbId` with the row filter `knowledge_base_id=eq.<kbId>` |
| `Knowledge.KnowledgeStore.UnsubscribeFromFileChanges` | apps/community/app/stores/knowledge.ts:243-248 | clears the file handle and closes its channel if live; idempotent |
| `Knowledge.FileSlotIsNotKeyed` | apps/community/app/stores/knowledge.ts:221-241 | from an empty file slot, subscribing for one knowledge base and then for another leaves the first one's channel in the slot and opens exactly one channel |
| `Characters.MapCharacter` | apps/community/app/stores/characters.ts:37-56 | keeps `id`, `name`, `isPublic`, `authorId` and the timestamps. Each field falls back on truthiness: `signature` = `bio`, else `signature`, else `""`; `persona` = `originPrompt`, else `persona`, else `""`; `avatarUrl` = `avatar`, else `avatarUrl`, else null; `creatorId` = `creatorId`, else `authorId`. `author` is present iff the input has one, with the same fields |
| `Characters.MapCharacterIdempotent` | apps/community/app/stores/characters.ts:37-56 | mapping a record already in store shape gives it back unchanged |
| `Characters.MapCharacters` | apps/community/app/stores/characters.ts:77 | the mapped list has the length of the server's list, and each position holds `MapCharacter` of the record at that position |
| `Characters.CharacterQuery` | apps/community/app/stores/characters.ts:63-66 | the query holds `page`, `limit` and `search` in that order, each iff its value is truthy, so page 0, limit 0 and the empty search are left out |
| `Characters.BodyRoundTrip` | apps/community/app/stores/characters.ts:106-116 | a server record built from the create/update body maps back to the sent `signature`, `persona` and `avatarUrl`, with `""`/null for missing or empty values |
| `Characters.RequestBody` | apps/community/app/stores/characters.ts:106-112 | the create/update body renames the store's fields to the server's: `signature` is sent as `bio`, `persona` as `originPrompt` and `avatarUrl` as `avatar`; `name` and `isPublic` keep their names and values |
| `Characters.Saved` | apps/community/app/stores/characters.ts:115-119 | the outcome of a create or update is a record exactly when the call succeeds with a payload, and it is the mapped payload. A failed call gives the call's error; a success without a payload gives the malformed-reply error (the TypeError the code rethrows) |
| `Characters.CharacterStore.constructor` | apps/community/app/stores/characters.ts:32-36 | the store starts with no characters, no pagination, not loading and both channels closed |
| `Characters.CharacterStore.FetchCharacters` | apps/community/app/stores/characters.ts:58-84 | a reply with a list replaces `characters` with the mapped list and sets `pagination`. An error, or a reply without a list, keeps both. `loading` is false afterwards, and the GET carries `CharacterQuery(params)` |
| `Characters.CharacterStore.GetCharacter` | apps/community/app/stores/characters.ts:86-100 | returns the mapped record, or null on an error or a missing payload; the cache is outside its frame |
| `Characters.CharacterStore.CreateCharacter` | apps/community/app/stores/characters.ts:102-121 | returns the mapped record, or the error it rethrows (the call's error, or the TypeError of a missing payload). The body is sent under the server's field names, and the cache is outside its frame |
| `Characters.CharacterStore.UpdateCharacter` | apps/community/app/stores/characters.ts:123-145 | as create, with a PUT on the item |
| `Characters.CharacterStore.DeleteCharacter` | apps/community/app/stores/characters.ts:147-159 | on success, one refetch with the default (empty) query follows. On failure it rethrows without a refetch and leaves the cache, pagination and `loading` as they were |
| `Characters.CharacterStore.SubscribeToChanges` | apps/community/app/stores/characters.ts:163-191 | opens each of its two channels (`characters`, profile updates) only when that handle is empty, independently |
| `Characters.CharacterStore.UnsubscribeFromChanges` | apps/community/app/stores/characters.ts:193-202 | closes both channels that are live and clears both handles; idempotent |
| `Characters.CharacterStore.OnCharactersChange` | apps/community/app/stores/characters.ts:167-173 | an event of any kind on the `characters` table refetches with the default query |
| `Characters.CharacterStore.OnProfilesUpdate` | apps/community/app/stores/characters.ts:177-188 | a profile UPDATE refetches with the default query only when characters are cached. With an empty cache nothing happens at all: no call, and no change to any ref |
| `User.UserStore.constructor` | apps/community/app/stores/user.ts:4-7 | the store starts with no profile, not loading and no calls |
| `User.UserStore.FetchProfile` | apps/community/app/stores/user.ts:9-35 | with no session it sets the profile to null, makes no call and leaves `loading` alone. With a session it issues one call with that session's token: an error keeps the profile, success sets it to the payload or null, and `loading` ends false |
| `User.UserStore.ClearProfile` | apps/community/app/stores/user.ts:37-39 | the profile is null afterwards, whatever it was, so clearing is idempotent |
| `User.UserStore.OnSessionChange` | apps/community/app/stores/user.ts:41-45 | a session that becomes absent clears the profile; a new session leaves it as it was |
| `User.SignOutThenFetch` | apps/community/app/stores/user.ts:9-13 | after sign-out, a fetch leaves the profile null, issues no call and leaves `loading` as it was |

## Left out

- Request encoding: the `URLSearchParams` encoding is not modelled. Filters and queries are recorded as values in the request log.
- Request bodies: bodies are not recorded, except for characters, where the field renaming is the modelled behaviour.
- The time spent awaiting a call is not modelled. Every operation is atomic, so `loading = true` during the call and races between overlapping fetches are not visible. `Remote.LastResolvedWins` states the outcome of fetches applied in resolution order.
- Errors thrown by the transport and errors returned in the envelope have the same effect in every store, so both are one `Failure` reply.
- Realtime transport: `client.channel`, `.on`, `.subscribe` and `removeChannel` are foreign calls. A channel is a value, and the ghost `liveChannels` counts open channels.
- Event delivery: a change event is a method that requires a live channel and one of its registered event kinds.
- `subscribeToFileChanges`: the caller's `onUpdate` callback is caller code and is not modelled. Only the slot and the channel it opens are.
- `uploadDocument` and `searchKnowledge` are not modelled. The first builds FormData and the second is a pass-through call.
- Console logging is not modelled.
- Aliasing: a caller holding a reference to a cached plugin object would see the like and subscribe patches. Records here are values replaced at their index, so that aliasing is not modelled.
- `Plugins.Plugin.liked`: `liked` is a JavaScript number. It is modelled as an unbounded integer, so floating-point rounding is not modelled.
- `Characters.CharacterQuery`: page and limit are modelled as integers. A NaN page or limit, which is also falsy, is not modelled.
- `null` and `undefined`: payload fields are `Option`, so where the stores do not tell the two apart, the model conflates them. The places where a store does return one or the other are kept apart with `Nullable`.
- Fields typed `any`: the plugin `schema` is modelled as its JSON text, and the user profile as a record of id, username and avatar.
- The profile-update coordinator that refreshes sibling stores and the streaming chat reader are not part of these stores and are not modelled.
