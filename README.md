# Chat mock backend: fixture store

This project models the fixture store of the chat mock backend in
`src/mocks/chat/chatHandler.ts`. That file is a small in-memory stand-in for
the chat server. It holds three module-level collections:

- `chatData`: the ordered list of parent/child message pairs.
- `noticeData`: the single announced message, or `null`.
- `archivedData`: the ordered list of archived message snapshots.

Read handlers compute views over these collections. The `onSuccess` callbacks
and the socket "create chat" listener replace them with new values.

Layout:

- `seqs.dfy` (`Seqs`): order-preserving `filter` and `map`, with the facts the store relies on.
- `chat_types.dfy` (`Wrappers`, `ChatTypes`): the message, notice, archive and photo records.
- `lookup.dfy` (`ChatLookup`): `findChatData`, and the index of the first match as its reference definition.
- `pagination.dfy` (`Pagination`): `getPartialChat`, JavaScript's `slice` on integers, and the query defaults.
- `views.dfy` (`ChatViews`): the photo feed `findImageChat` and the photo detail.
- `mutations.dfy` (`ChatMutations`): every update as a function from old value to new value, with lemmas.
- `store.dfy` (`ChatStore`): the `Store` class. Its fields are the three collections. Each handler is a method.

Each `Store` method states its new state as a `ChatMutations` function of the
old state. It also states that the other two collections do not change.
The read methods have no `modifies` clause, so they cannot change the store.

Two details of the code shape what is proved:

- **Pagination window.** The slice end is `startIndex + limit`, computed from
  the start before it is clamped to zero. A page is therefore
  `[max(0, N-base-limit), N-base)`. Pages fetched with `base` stepping by `limit`
  never overlap. With 10 messages, `base=8, limit=8` gives indices 0..1
  (`Pagination.TenMessages`, `Pagination.ScrolledIsRunProduct`).
- **Fold.** Folding rebuilds the notice from `noticeId`'s message. Only the
  flag comes from the old notice (`ChatMutations.Fold`).

## Model

| member | source | states |
|---|---|---|
| `ChatLookup.FirstIndex` | src/mocks/chat/chatHandler.ts:29-30 | the position of the first entry whose parent id matches; no earlier entry matches |
| `ChatLookup.FindChat` | src/mocks/chat/chatHandler.ts:29-30 | `filter(...)[0].parentChatting` is the parent of the first matching entry and carries the asked id; a missing id is a precondition violation, as the source crashes on it |
| `ChatLookup.FindChatAppend` | src/mocks/chat/chatHandler.ts:29-30 | entries appended after a match do not change what an id finds |
| `ChatLookup.FindChatAt` | src/mocks/chat/chatHandler.ts:29-30 | the entry at `k` with no earlier match is exactly what the lookup returns |
| `Pagination.SliceIndex` | src/mocks/chat/chatHandler.ts:115 | `slice` keeps an index already in `[0, len]`, turns one past the end into `len`, counts a negative one back from the end, and turns one before `-len` into `0` |
| `Pagination.PartialChatExhausted` | src/mocks/chat/chatHandler.ts:111-114 | the page is empty whenever `N <= base` |
| `Pagination.PartialChatWindow` | src/mocks/chat/chatHandler.ts:111-115 | for `0 <= base < N` and `limit > 0` the page is exactly `chatData[max(0, N-base-limit) .. N-base]`, of length `min(limit, N-base)` |
| `Pagination.PartialChatContiguous` | src/mocks/chat/chatHandler.ts:107-116 | for any integers, the page is one contiguous run of the list, in order, that never reaches into the last `base` items |
| `Pagination.PageBounds` | src/mocks/chat/chatHandler.ts:111-115 | for `base >= 0` and `limit > 0`, exhausted or not, the page is the slice `[max(0, N-base-limit), max(0, N-base))` |
| `Pagination.ConsecutivePages` | src/mocks/chat/chatHandler.ts:111-115 | the page for `base + limit` followed by the page for `base` is one contiguous run: they are adjacent and disjoint |
| `Pagination.ScrolledIsRun` | src/mocks/chat/chatHandler.ts:107-116 | after `pages` requests with `base` stepping by `limit`, the client holds exactly the items `[max(0, N-base-pages*limit), N-base)`, in order, with no overlap and no gap |
| `Pagination.ScrolledIsRunProduct` | src/mocks/chat/chatHandler.ts:107-116 | the same run written with `pages * limit`: after `pages` requests the client holds exactly `chatData[max(0, N-base-pages*limit) .. max(0, N-base)]` |
| `Pagination.TenMessages` | src/mocks/chat/chatHandler.ts:111-115 | with ten messages, `base=0, limit=8` gives indices 2..9 and `base=8, limit=8` gives indices 0..1 |
| `Pagination.ChatRequestOf` | src/mocks/chat/chatHandler.ts:126-129 | JavaScript `Number(x) or d`: each parameter keeps a given non-zero number and otherwise takes its default (base 0, limit 8, offset 0); the limit is never zero |
| `Pagination.OffsetIgnored` | src/mocks/chat/chatHandler.ts:129-131 | `offset` is parsed but never changes the page |
| `Pagination.DefaultPage` | src/mocks/chat/chatHandler.ts:126-131 | with no usable `base` or `limit`, the handler returns the last eight messages (all of them when there are fewer than eight) |
| `ChatViews.PhotoLinesAppend` | src/mocks/chat/chatHandler.ts:334-357 | the photo feed of a concatenation is the concatenation of the feeds: lines come in store order |
| `ChatViews.PhotoLinesSingleton` | src/mocks/chat/chatHandler.ts:336-340 | one message gives one line when it has an image or a video, and none otherwise |
| `ChatViews.PhotoLineAt` | src/mocks/chat/chatHandler.ts:341-356 | every line stands for a message with media: its id, caption `''`, and either its image urls with `t` null, or its video thumbnails with the first video's `time` |
| `ChatViews.PhotoDetailOf` | src/mocks/chat/chatHandler.ts:388-400 | the detail of the first match: its id, writer name and date, one photo per image url paired with the supplied id, and the first video only, absent exactly when there is no video |
| `ChatMutations.RemoveChatSpec` | src/mocks/chat/chatHandler.ts:151-153 | after a delete no entry has that id; every copy of every other entry survives; survivors keep their order, because the delete distributes over concatenation |
| `ChatMutations.RemoveChatAbsent` | src/mocks/chat/chatHandler.ts:151-153 | deleting an absent id leaves the list unchanged |
| `ChatMutations.RemoveChatIdempotent` | src/mocks/chat/chatHandler.ts:151-153 | deleting the same id twice is deleting it once |
| `ChatMutations.FindChatAfterRemove` | src/mocks/chat/chatHandler.ts:151-153 | a delete does not change what any other id finds |
| `ChatMutations.PhotoLinesAfterRemove` | src/mocks/chat/chatHandler.ts:151-153 | after a delete, the photo feed is the old feed without that message's line |
| `ChatMutations.Notify` | src/mocks/chat/chatHandler.ts:194-200 | the notice is the announced message's snapshot (id, content or `''`, writer name) with `isFolden` false |
| `ChatMutations.Fold` | src/mocks/chat/chatHandler.ts:220-228 | the snapshot is rebuilt from `noticeId`'s message; `isFolden` is the negation of the old flag, and true when there was no notice |
| `ChatMutations.FoldAfterNotify` | src/mocks/chat/chatHandler.ts:194-228 | folding a freshly posted notice gives the same snapshot folded, and folding again restores it |
| `ChatMutations.FoldTwice` | src/mocks/chat/chatHandler.ts:220-228 | two folds with one id restore the flag; an absent notice ends up unfolded |
| `ChatMutations.Archive` | src/mocks/chat/chatHandler.ts:300-311 | the archive grows by one entry at the end; earlier entries are unchanged; the new entry snapshots the first matching message with the fixed `archivedAt` |
| `ChatMutations.UnarchiveSpec` | src/mocks/chat/chatHandler.ts:325-329 | un-archiving removes every entry with that id, duplicates included; it keeps every copy of the others, in order |
| `ChatMutations.UnarchiveAfterArchive` | src/mocks/chat/chatHandler.ts:300-329 | un-archiving an id undoes any archiving of that id |
| `ChatMutations.ArchiveTwiceUnarchiveOnce` | src/mocks/chat/chatHandler.ts:300-329 | archiving one message twice adds two entries, and one un-archive removes both |
| `ChatMutations.AppendChatSpec` | src/mocks/chat/chatHandler.ts:46-64 | creating a chat appends one `{parentChatting, childChatting: null}` entry and leaves the prefix unchanged. The new entry has the given content, one default image per image id, no videos or voice messages, `isMine` true and writer id `'1'` |
| `ChatMutations.FindAfterAppend` | src/mocks/chat/chatHandler.ts:49-64 | the fresh id finds the created message, and every id already present finds what it found before |
| `ChatMutations.PhotoLinesAfterAppend` | src/mocks/chat/chatHandler.ts:49-64 | a created chat with images adds one placeholder line to the end of the feed; without images the feed is unchanged |
| `ChatStore.Store.constructor` | src/mocks/chat/chatHandler.ts:158-265 | module load: the seed list, a notice on message `'1'`, and snapshots of `'1'` and `'2'` in the archive; the seed must hold both ids |
| `ChatStore.Store.GetChats` | src/mocks/chat/chatHandler.ts:118-138 | the handler's page is the window over the current list, and the store is untouched |
| `ChatStore.Store.GetNotice` | src/mocks/chat/chatHandler.ts:169-180 | returns the current notice, null once hidden, without changing the store |
| `ChatStore.Store.GetArchived` | src/mocks/chat/chatHandler.ts:271-282 | returns the archive without changing the store |
| `ChatStore.Store.GetPhotos` | src/mocks/chat/chatHandler.ts:363-374 | returns the photo feed of the current list without changing the store |
| `ChatStore.Store.GetPhotoDetail` | src/mocks/chat/chatHandler.ts:381-407 | returns the photo detail of the message without changing the store |
| `ChatStore.Store.DeleteOurChat` | src/mocks/chat/chatHandler.ts:151-153 | replaces `chatData` by its filtered value; notice and archive unchanged |
| `ChatStore.Store.PostNotice` | src/mocks/chat/chatHandler.ts:194-200 | sets the notice to the message's snapshot; list and archive unchanged |
| `ChatStore.Store.FoldNotice` | src/mocks/chat/chatHandler.ts:220-228 | replaces the notice by its folded rebuild; list and archive unchanged |
| `ChatStore.Store.HideNotice` | src/mocks/chat/chatHandler.ts:243-245 | clears the notice whatever id is given; list and archive unchanged |
| `ChatStore.Store.ArchiveChat` | src/mocks/chat/chatHandler.ts:300-311 | appends the snapshot to the archive; list and notice unchanged |
| `ChatStore.Store.DeleteArchived` | src/mocks/chat/chatHandler.ts:325-329 | replaces the archive by its filtered value; list and notice unchanged |
| `ChatStore.Store.CreateChat` | src/mocks/chat/chatHandler.ts:46-66 | appends the created message and returns it as the `GET_CHAT` payload; notice and archive unchanged |

## Left out

- The `socket.io-mock` transport: connection and disconnection events, `on`/`off`/`emit` forwarding, and asynchronous delivery. It is a foreign library. Only the store update of the `CREATE_CHAT` listener is modelled. The `GET_CHAT` broadcast is only the value `CreateChat` returns.
- `createApiHandler`, `getSearchParams` and the rule for when `onSuccess` runs. They live in `mocks/createApiHandler`, which is not part of this model. Each `onSuccess` body is a direct `Store` method. Every `400` slot is `null`, so each read method returns only its `200` payload.
- `uuidv4()`, `new Date()` and the seed data `./data/chatData`. They become parameters (`freshId`, `now`, `photoIds`, `videoId`, `seed`). The `ImgDefaultProfile` asset becomes the `defaultImage` field.
- `createdAt.toISOString()` in the photo detail. The detail keeps the `Date` value (milliseconds) and does not model the string formatting.
- `ChatMutations.ARCHIVED_AT`: `new Date('2024.02.14')` is read in the host's time zone. The model fixes it at midnight UTC.
- The conversion of query-string text by `Number(...)` is abstract. Its result is given as `NaN` or an integer, and an absent parameter is `Number(null)`, which is 0. Fractional numbers and `Infinity` are not modelled. Neither is `slice` truncating a fractional index.
- The record types come from `models/chat`, which is not part of this model. The fields are the ones the handlers use. A video is `url`, `thumbnailUrl` and `time`. The photo detail's `{id, ...rest}` is modelled on the assumption that a video record has no `id` field of its own, which would otherwise override the synthesised one.
- Sharing by reference: `chatData` starts as the imported `originData` array, and a photo line's `u` is the message's own `imageUrls` array. The model works on values, so this aliasing is not captured.
- The notice and archive hold snapshots, not references. A notice whose message was later deleted is allowed. `Notify`, `Fold` and `Archive` then require the id to be present, because the source crashes on a missing one. No store invariant ties the notice to the list.
- Constant-response handlers (put-gallery, upload URL, create photo) and all `console.log` calls. They hold no logic.
