# clipclap clip store, modelled in Dafny

This project models the in-memory clip store of the clipclap clipboard-history manager, plus the
clipboard poll that feeds its main process.

- **`ClipHistory`** (`history.dfy`, module `History`): a most-recent-first queue of clip ids.
  - A membership set is kept beside the queue. The queue never holds an id twice.
  - The queue is bounded by an optional `max`. With no `max`, the queue is unbounded, because a
    comparison with `undefined` is always false.
  - `add` first evicts the oldest id when the queue is full. Only then does it check for a
    duplicate. So re-adding an id that is already present to a full queue still drops the oldest id,
    and the queue shrinks by one.
  - With `max = 0` the queue can still hold one id. The bound the model proves is therefore
    `Limit(max)`, which is 1 when `max` is 0 and `max` otherwise.
- **`Clipboard`** (`clipboard.dfy`, module `ClipStore`): a JavaScript `Map` from id to clip, plus a
  `ClipHistory` with the same capacity.
  - The map is modelled as `ClipMap`: its entries plus the order in which its keys were inserted.
  - When the map is full, `addClip` drops the map's *first-inserted* key. It then files the clip
    under the clip's own id, or under a key derived from the clip's data, and writes that id back
    into the clip. It promotes the id in the history and sets the map entry. Setting overwrites any
    earlier record, and a key already present keeps its position.
  - The map evicts by insertion order, and the history evicts by recency. So the two can hold
    different ids. `MapAndHistoryDiverge` proves that with capacity 3, adding 1, 2, 1, 3, 4 leaves
    the history at `[4, 3, 1]` and the map at `{2, 3, 4}`. `getClips` then returns
    `[clip4, clip3, absent]`. This is why `getClips` returns `Option<Clip>` entries.
  - An id-to-record bijection between map and history, and "no eviction on a repeat", would be the
    natural design for such a store. The code does neither, and the model follows the code.
- **Poll step** (`watcher.dfy`, module `Watcher`): one tick of the interval callback in
  `src/index.ts`.
  - Text that is empty, or equal to the last text seen, is skipped.
  - Any other text becomes the last text seen. A new clip holding that text is put at the front of a
    module-level history capped at 30 clips. The poll does not deduplicate.

Each class (`ClipHistory`, `Clipboard`, `ClipboardWatcher`) works as follows:
- It keeps its fields and an invariant `Valid()`.
- Its mutating methods have `modifies` clauses, and each one's `ensures` ties the new state to a pure
  function of the old state: `Added`, `AddClipStep`, `UpdatedMap`, `PollStep`.
- The properties of those functions are proved as lemmas.

The test `test/history.test.ts:34-42` expects tags set by `updateClip` to survive a later `addClip`
of the same clip. The code at `src/history.ts:29` overwrites the stored record with the re-added
clip. The model follows the code, and `ReAddOverwritesTags` proves that the tags are lost.

The declared `Clip` type in `src/clip.ts:1-7` has a numeric, required `id`. `src/history.ts` and
`src/index.ts` use clips whose string `id` may be missing. The model's `Clip` follows that use:
- `id: Option<string>`
- `date`: never inspected
- `data`
- `tags`, where absent tags are `[]`

## Model

| member | source | states |
|---|---|---|
| `History.Limit` | src/history.ts:81-88 | The longest queue a bound allows is at least 1 and at least the bound, and equals the bound when the bound is 1 or more. |
| `History.WithinMax` | src/history.ts:80-89 | The bound the queue keeps: with no maximum every length is within it, and with a maximum of 1 or more exactly the lengths up to that maximum are. |
| `History.Full` | src/history.ts:81 | The test `length >= max`: never true without a maximum. A queue within its bound that is not full stays within it after growing by one, and a full queue within its bound sits exactly at a maximum of 1 or more. |
| `History.Without` | src/history.ts:85 | The `filter` that drops every occurrence of the key: the result no longer holds the key and is never longer than the queue. |
| `History.Popped` | src/history.ts:101 | The queue after array `pop()`: empty stays empty, and on a non-empty queue appending the removed last id gives back the queue. |
| `History.Kept` | src/history.ts:81-83 | The queue after the eviction step of add: a prefix of the queue, equal to it when not full, and one id shorter when full and non-empty. |
| `History.Added` | src/history.ts:80-89 | The queue after add(k): k is at the front, the length is at most what eviction left plus one, and when k was not among the kept ids it is simply put in front of them. |
| `History.WithoutRemoves` | src/history.ts:85 | Filtering a key out removes exactly that key from the queue's elements, keeps a duplicate-free queue duplicate-free, never lengthens the queue, and changes nothing when the key is absent. |
| `History.WithoutDeletesAt` | src/history.ts:85 | In a duplicate-free queue, filtering out the id at position i deletes exactly that position: every other id keeps its relative order. |
| `History.PoppedElems` | src/history.ts:100-105 | Dropping the last id of a duplicate-free queue keeps it duplicate-free and removes exactly that id from its elements. |
| `History.AddedKeepsInvariant` | src/history.ts:80-89 | After add(k), k is at the front and the queue has no duplicates. Its elements are those left after eviction, plus k. A queue within its bound stays within it. |
| `History.AddedWhenFullEvictsOldest` | src/history.ts:81-83 | On a full queue, add evicts the last (oldest) id: the result's elements are the rest of the queue plus k, and the oldest id is gone unless it is k itself. |
| `History.RepeatWhenFullShrinks` | src/history.ts:81-87 | On a full queue, re-adding an id present in the older part still pops the oldest first, so the length drops by one, and the id ends up in front. |
| `History.RepeatWhenNotFullMovesToFront` | src/history.ts:84-88 | When the queue is not full, re-adding the id at position i moves it to the front. The other ids keep their order and the length is unchanged. |
| `History.FreshWhenNotFullPrepends` | src/history.ts:84-88 | Adding a new id to a queue that is not full prepends it to the whole queue. |
| `History.HistoryTestScenarios` | test/history.test.ts:66-131 | The ClipHistory tests' expected queues on an unbounded history: order of adds, no duplicate on a repeat, pop of the first added id, re-adding after a pop. |
| `History.ClipHistory.constructor` | src/history.ts:71-78 | A new history is empty, its set is empty, it keeps the given optional maximum, and it satisfies the invariant. |
| `History.ClipHistory.Add` | src/history.ts:80-89 | Keeps the invariant (no duplicates, set equals the queue's ids, bound). The new queue is Added(old queue, max, key). The set is the ids kept after eviction plus key, and peek returns key. |
| `History.ClipHistory.Clear` | src/history.ts:91-94 | Empties both the queue and the set, keeping the invariant. |
| `History.ClipHistory.All` | src/history.ts:96-98 | The ids are duplicate-free, exactly the members of the set, and within the bound. |
| `History.ClipHistory.Pop` | src/history.ts:100-106 | On a non-empty queue, removes and returns the last (oldest) id and deletes it from the set. On an empty queue, returns absent and changes nothing. |
| `History.ClipHistory.Peek` | src/history.ts:108-110 | Absent exactly when the history is empty. Otherwise a member of the history. |
| `History.ClipHistory.Length` | src/history.ts:112-114 | The queue length equals the size of the membership set and respects the bound. |
| `ClipStore.ClipMap.Get` | src/history.ts:45 | Computes `Map.get`: the record stored under the id, or absent when the id is not a key. Its properties under update and deletion are stated by SetSpec and DeleteFirstSpec. |
| `ClipStore.ClipMap.Set` | src/history.ts:29 | Computes `Map.set`: a present key keeps its position with the new record, and a new key is appended to the insertion order. Its contract is stated by SetSpec. |
| `ClipStore.ClipMap.DeleteFirst` | src/history.ts:39-42 | Computes the deletion of the first key of the insertion order, leaving an empty map as it is. Its contract is stated by DeleteFirstSpec. |
| `ClipStore.ClipMap.Size` | src/history.ts:17 | In a well-formed map, the length of the insertion order equals the number of entries. |
| `ClipStore.SetSpec` | src/history.ts:29 | Map.set stores the record under the id. A present key keeps its position and a new key goes last. Other records are untouched, and well-formedness is kept. |
| `ClipStore.DeleteFirstSpec` | src/history.ts:39-42 | Dropping the first-inserted key removes exactly that key and its record, shifts the order by one, reduces the size by one, and is a no-op on an empty map. |
| `ClipStore.EmptyMap` | src/history.ts:11 | The empty map is well-formed, has size 0 and holds no record. |
| `ClipStore.AssignedId` | src/history.ts:21-27 | Computes the id addClip files a clip under: the clip's own id when it has one, else the key derived from its data. |
| `ClipStore.Stamped` | src/history.ts:21-27 | The stored clip carries the assigned id: its own id when present, unchanged, else the derived key. Date, data and tags are kept. |
| `ClipStore.Lookup` | src/history.ts:48-51 | Mapping Map.get over the ids gives one entry per id, in order, each the record under that id or absent. |
| `ClipStore.MapAdded` | src/history.ts:16-29 | Computes the map after addClip: when the size has reached the capacity the first-inserted entry is deleted, then the record is set under the id. Its contract is stated by MapAddedKeepsInvariant and AddClipMapEviction. |
| `ClipStore.Snapshot.Clips` | src/history.ts:48-51 | getClips on a state: one entry per id of the history. Lookup states each entry. |
| `ClipStore.AddClipStep` | src/history.ts:16-30 | Computes the whole state after addClip: the map after MapAdded with the stamped clip, and the history after add of the assigned id. Its contract is stated by AddClipStepSpec. |
| `ClipStore.UpdatedMap` | src/history.ts:32-37 | An update fails exactly when the clip has no id or its id is not stored. Otherwise it replaces that record only and leaves the key order unchanged. |
| `ClipStore.MapAddedKeepsInvariant` | src/history.ts:16-29 | The map after addClip is well-formed, stores every record under its own id, stays within Limit(capacity), and holds the new clip under its id. |
| `ClipStore.EvictionMakesRoom` | src/history.ts:17-19 | The eviction step of addClip leaves a well-formed map whose records carry their own ids and whose size is below Limit(capacity), so one more entry fits. |
| `ClipStore.AddClipStepSpec` | src/history.ts:16-30 | addClip keeps the store invariant. It makes the assigned id the newest in the history, and the map then returns the clip with that id written back, overwriting any earlier record. |
| `ClipStore.AddClipMapEviction` | src/history.ts:16-29 | When the map is full, the key removed is the first-inserted one, whether or not it is the least recent. Otherwise only the new id is added. Every other record is untouched. |
| `ClipStore.AddNewNotFull` | src/history.ts:16-29 | A new id added with room to spare goes last in the map order and first in the history. |
| `ClipStore.AddPresentNotFull` | src/history.ts:16-29 | A stored id re-added with room to spare keeps its map position with the new record and moves to the front of the history. |
| `ClipStore.AddNewWhenFull` | src/history.ts:16-29 | A new id added to a full store drops the map's first key and the history's last id, which may differ. |
| `ClipStore.StoreTestAddOne` | test/history.test.ts:22-25 | Adding one clip lists exactly that clip with its id written back. |
| `ClipStore.StoreTestRepeatToTop` | test/history.test.ts:27-32 | With capacity 3, adding 1, 2, 1 lists clip 1 then clip 2. |
| `ClipStore.StoreTestNotExceedMax` | test/history.test.ts:50-56 | With capacity 3, adding 1, 2, 3, 4 lists clips 4, 3, 2. |
| `ClipStore.MapAndHistoryDiverge` | src/history.ts:16-51 | With capacity 3, adding 1, 2, 1, 3, 4 leaves history [4, 3, 1], map keys {2, 3, 4}, and getClips [clip4, clip3, absent]. |
| `ClipStore.ReAddOverwritesTags` | test/history.test.ts:34-42 | Adding 1, tagging it by update, adding 2, then re-adding 1 lists the untagged clip 1, not the tagged record the test expects. |
| `ClipStore.Clipboard.constructor` | src/history.ts:10-14 | A new store has an empty map and an empty history bounded by the given capacity, 30 when none is given, and satisfies the invariant. |
| `ClipStore.Clipboard.AddClip` | src/history.ts:16-30 | Returns the assigned id. The new map and history are AddClipStep of the old ones, and the invariant is kept. The id is the newest in the history, and getClip returns the clip with the id written back. |
| `ClipStore.Clipboard.UpdateClip` | src/history.ts:32-37 | Fails with NotFound and changes nothing when the id is absent or not stored. Otherwise replaces that record. Never changes the key order or the history. |
| `ClipStore.Clipboard.DropOldestClip` | src/history.ts:39-42 | The map loses its first-inserted entry, the history is untouched, and the invariant is kept. |
| `ClipStore.Clipboard.GetClip` | src/history.ts:44-46 | Present exactly when the id is stored, and the record returned carries that id. |
| `ClipStore.Clipboard.GetClips` | src/history.ts:48-51 | One entry per id of the history, most recent first. Each entry is the record under that id, or absent where the map has dropped it. |
| `ClipStore.Clipboard.ClearClips` | src/history.ts:53-56 | Empties both map and history, after which getClips is empty. |
| `ClipStore.Clipboard.GetClipboardSize` | src/history.ts:58-60 | The number of stored records, which is at most Limit(capacity). |
| `Watcher.IsNewText` | src/index.ts:55 | Decides whether a tick records: the text is non-empty and differs from the last text seen. |
| `Watcher.PolledClip` | src/index.ts:59 | Computes the clip a tick records: no id, the tick's time, the text, no tags. |
| `Watcher.Recorded` | src/index.ts:60-63 | The history after unshift and, past 30 clips, one pop: the new clip first, the earlier clips after it in order, and a history within 30 clips stays within 30. |
| `Watcher.PollStep` | src/index.ts:53-63 | Computes one tick: new text becomes the last text seen and is recorded, anything else leaves the state as it was. Its contract is stated by PollSkips, PollRecords, PollBounded, PollOverflowDropsOldest and PollKeepsOrder. |
| `Watcher.PollSkips` | src/index.ts:53-55 | A tick with empty text, or with the last text seen, leaves the last-seen text and the history unchanged. |
| `Watcher.PollRecords` | src/index.ts:55-60 | A tick with new non-empty text sets the last-seen text to it and puts a new clip with that data at index 0. |
| `Watcher.PollBounded` | src/index.ts:60-63 | After any tick the history holds at most 30 clips. A recording tick grows it by one up to that cap. |
| `Watcher.PollOverflowDropsOldest` | src/index.ts:60-63 | On a full history, a recording tick drops exactly the last (oldest) clip. |
| `Watcher.PollKeepsOrder` | src/index.ts:60-63 | Behind the new clip, the earlier clips keep their relative order, with at most the last one missing. |
| `Watcher.PollRepeatsEarlierText` | src/index.ts:55-60 | Text seen before, but not just before, is recorded again: a, b, a gives three new clips, two of them with data a. |
| `Watcher.ClipboardWatcher.constructor` | src/index.ts:19-49 | Watching starts with an empty history and the clipboard's current text as the last text seen. |
| `Watcher.ClipboardWatcher.Poll` | src/index.ts:52-64 | The new state is PollStep of the old state, the polled text and the time, and the history stays within 30 clips. |

## Left out

- SHA-256 inside `generateKey` (`src/history.ts:62-67`, which uses Node's `crypto`). The store
  takes the key derivation as a function-valued constructor argument. Only its determinism is used;
  collision resistance is not modelled.
- Object aliasing. `all()` returns the internal array, and `addClip` writes the id into the caller's
  clip object. The model returns sequences and the assigned id, and stores the clip with its id
  written back.
- A clip object whose `id` property exists but holds `undefined` counts as having an id in
  `'id' in clip`. The model treats every missing id as absent.
- `Date` values are opaque. The poll's `new Date` is a parameter of `Poll`.
- Capacities are natural numbers. Negative or fractional JavaScript numbers passed as a maximum are
  not modelled.
- The Electron parts of `src/index.ts`: the app lifecycle, window creation, `setInterval` timing,
  `webContents.send` and logging. `clipboard.readText` becomes the text parameter of `Poll` and of
  the constructor.
- Several pollers on one history. `createWindow` (`src/index.ts:45`) calls `watchClipboard` on
  `ready` and again on every `activate` that finds no window (`src/index.ts:88-93`). Each call
  starts a new `setInterval` with its own `lastClipboardText` (`src/index.ts:49-52`), and no
  interval is ever cleared. After a re-activation two or more pollers feed the one module-level
  `clipboardHistory`, so each new text is recorded once per running poller. The model has a
  single poller: `ClipboardWatcher` owns both the last-seen text and the history.
- `src/search.ts`, the Fuse.js fuzzy search: ranking is library logic.
  `src/settings.ts`, file and schema loading: I/O and library code.
  `src/renderer/script/editor.ts`, the editor widget.
  `src/llm.ts`, a network call.
- The renderer, preload, IPC event names and logger files: UI and transport only.
