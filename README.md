# Window manager of the multi-window pong game

This project models the `WindowManager` class of the multi-window pong game. The game opens one browser window per player. Each window's manager keeps a shared registry of the open windows in `localStorage`. A registry record holds the window's id, its shape (position and size) and free-form metadata.

- `init` joins the registry. It takes the stored counter plus one as the window's id, stores the counter back, and appends the window's own record.
- `update` republishes the own record when the shape or the supplied metadata changed. It then calls the shape-change callback and writes the registry.
- `setThisWindowMetaData` spreads new metadata over the cached metadata and calls `update`.
- A `storage` event from another window replaces the cached registry. It fires the windows-change callback when the ids differ position by position.
- `beforeunload` removes the element at the index of the own id and writes the registry.

The model is split into five modules:

- `Metadata` (metadata.dfy) models a metadata object as its keys in insertion order plus a key-to-JSON-text map. Every property holds a JSON value, and for such objects two serialise to the same JSON text exactly when these parts are equal. Object spread is `Overlay`.
- `Registry` (registry.dfy) holds the records, the last-match index search, republishing one entry, and `splice(index, 1)` with JavaScript's normalisation of a negative start.
- `Storage` (storage.dfy) models the two keys of `localStorage` as a `Store` class. It includes what a sequence of joins does to them.
- `WindowManagement` (window_manager.dfy) is the `WindowManager` class itself. Its fields are the private fields of the source, and the browser events are the methods `OnStorage` and `OnBeforeUnload`. Everything the manager does that can be seen from outside is appended to an `events` trace, in order: callback calls and store writes.
- `Scenario` (scenario.dfy) drives two managers over one store in the order of the game page's calls (pong.js). Each page load clears the store, then registers both callbacks and joins with `{start: false}`. There are two runs. In `TwoWindows`, both pages clear before either window joins. In `LateSecondWindow`, the second page loads after the first window has joined.

## Model

| member | source | states |
|---|---|---|
| Registry.LastIndexOf | WindowManager.js:75-83 | -1 exactly when no record carries the id; otherwise an index in bounds whose record carries the id, with no later record carrying it (the last match wins) |
| WindowManagement.WindowManager.GetWindowIndexFromId | WindowManager.js:75-83 | the loop's result over the cached registry is the last-match index `LastIndexOf` |
| Registry.LastIndexOfByIds | WindowManager.js:75-83 | two registries with the same id sequence give the same index for every id |
| WindowManagement.WindowManager.DidWindowsChange | WindowManager.js:37-49 | true exactly when the two id sequences differ: always true for different lengths, and for equal lengths true exactly when some position holds different ids |
| WindowManagement.WindowManager.OnStorage | WindowManager.js:13-24 | keys other than `windows` change nothing; for `windows`, the cached registry becomes the new one, and the windows-change callback (if set) is called exactly when the id sequences differ |
| Registry.Republished | WindowManager.js:105-109 | same length and same ids; the entry at the last index of the own id becomes the own id with the new shape and metadata; every other entry is unchanged, and all are unchanged when the id is missing |
| Registry.RepublishIsSilent | WindowManager.js:105-109 | republishing never changes the id sequence, so a peer's `storage` handler sees no membership change |
| Registry.RepublishIdempotent | WindowManager.js:105-109 | republishing the same shape and metadata a second time gives the same registry as once |
| WindowManagement.UpdateIsIdempotent | WindowManager.js:95-109 | after a publish, calling `update` with the same shape and metadata fails the change test; republishing them again would not change the registry |
| WindowManagement.WindowManager.Update | WindowManager.js:89-115 | when no shape field differs and no new metadata was passed, nothing changes. Otherwise the cached record takes the shape and the argument, the registry entry with the own id takes the same, the shape-change callback runs, and then the registry is written |
| Metadata.Overlay | WindowManager.js:130-133 | the spread result maps every key of the new object to its new value and keeps every other cached key; cached keys keep their order and new keys follow in their own order |
| Metadata.CopyKeys | WindowManager.js:130-133 | copying the listed properties one by one: the resulting key set, the value under each key, and the resulting key order |
| Metadata.SpreadIsIdentityIff | WindowManager.js:130-133 | the spread gives back the cached object exactly when every property passed already stands in it with the same value |
| WindowManagement.WindowManager.SetThisWindowMetaData | WindowManager.js:129-134 | it behaves as `update` with the spread of the argument over the cached metadata; when the shape is unchanged, cached metadata exists, and every passed property already stands in it with the same value, nothing is written and no callback runs. Without cached metadata even `{}` is published, because `JSON.stringify(undefined)` never equals an object's text |
| WindowManagement.WindowManager.Init | WindowManager.js:52-64 | the id is the stored counter plus one (the counter starts at 0); the own record is appended to the stored registry (which starts empty); the store holds the new counter and registry, written in that order |
| Storage.JoinAppendsFreshRecord | WindowManager.js:52-64 | one join raises the counter by one and appends exactly one record carrying the new counter as its id |
| Storage.SequentialJoins | WindowManager.js:52-64 | n joins one after another raise the counter by n, append the ids counter+1 to counter+n, and keep a consistent store consistent (unique ids, none above the counter) |
| Storage.JoinsFromClearedStore | WindowManager.js:52-64 | windows that join one after another on a cleared store get the ids 1, 2, ..., n, all distinct |
| WindowManagement.WindowManager.UpdateWindowsLocalStorage | WindowManager.js:85-87 | the store's `windows` key holds the cached registry; the counter key is untouched |
| WindowManagement.WindowManager.OnBeforeUnload | WindowManager.js:27-33 | the cached registry becomes `splice(index, 1)` of itself, with index the last-match index of the own id; it is then written to the store |
| Registry.UnloadRemovesLastMatch | WindowManager.js:27-33 | when the own id is present, exactly its last occurrence is removed: one record fewer, and the id multiset loses one copy of the own id |
| Registry.UnloadWithoutOwnRecordDropsLast | WindowManager.js:28-31 | when the own id is missing, the index is -1 and `splice(-1, 1)` removes the last window's record (nothing when the registry is empty) |
| Registry.UnloadWithUniqueIds | WindowManager.js:27-33 | in a registry with unique ids, unloading removes exactly the own record, keeps every other one, and keeps the ids unique |
| Registry.UnloadUndoesJoin | WindowManager.js:27-33 | a window that unloads right after appending its own record leaves the registry it joined |
| WindowManagement.WindowManager.SetWinShapeChangeCallback | WindowManager.js:117-119 | the shape-change callback becomes the argument |
| WindowManagement.WindowManager.SetWinChangeCallback | WindowManager.js:121-123 | the windows-change callback becomes the argument |
| WindowManagement.WindowManager.GetWindows | WindowManager.js:125-127 | the cached registry once joined, undefined before |
| WindowManagement.WindowManager.GetThisWindowData | WindowManager.js:136-138 | the cached own record, carrying the own id, once joined; undefined before |
| WindowManagement.WindowManager.constructor | WindowManager.js:9-34 | a new manager has not joined, has no callbacks and has done nothing observable |
| Storage.Store.Clear | pong.js:258-259 | `localStorage.clear()` removes both the counter and the registry |
| Scenario.SetupWindowManager | pong.js:292-301 | a new manager gets its shape-change callback, then its windows-change callback, then joins with `{start: false}`: it takes the stored counter plus one as its id and appends its record to the stored registry |
| Scenario.OpenTwo | pong.js:258-301 | when both pages clear the store before either window joins, the windows take the ids 1 and 2, and the store and the second window hold both records |
| Scenario.StartGame | pong.js:286-288 | clicking in the first window publishes `{start: true}` over `{start: false}`. The first window's trace gains: membership callback (for the earlier join), shape-change callback, registry write. The second window sees the new metadata with no callback |
| Scenario.TwoWindows | pong.js:258-301 | both pages clear the store, then two windows join with `{start: false}` and get the ids 1 and 2. The first window learns of the second, starts the game and publishes `{start: true}`. The second window closes. After both windows joined, the first window's trace is exactly: membership callback, shape-change callback, registry write, membership callback. So the membership callback fires for the join and the close but not for the metadata change. Both views end with the first window alone |
| Scenario.LateSecondWindow | pong.js:258-301 | when the second page loads after the first window has joined, its clear resets the counter. Both windows take the id 1. The first window's view becomes the second window's record alone, and no membership callback fires |

## Left out

- JSON encoding and decoding: the registry travels as values. In the source, malformed `newValue` text makes `JSON.parse` throw. A `null` `newValue` parses to `null`, and the handler then throws at `nWins.length`. The model has neither case.
- The counter is stored as a string and incremented through JavaScript's coercion; the model keeps it as a natural number.
- Shapes are integers. Browser coordinates can be fractional, and `!==` on doubles is not modelled.
- `getWinShape` reads `window.screenLeft`, `screenTop`, `innerWidth` and `innerHeight`; the model takes the shape as a parameter of `Init`, `Update` and `SetThisWindowMetaData`.
- Registering the two event listeners is not modelled; the browser's delivery of `storage` and `beforeunload` events is a call of `OnStorage` or `OnBeforeUnload`.
- Callbacks are opaque handles. Calling one appends an event to the trace; what the page's callbacks do is not modelled.
- Concurrency between windows: two windows that read the counter or the registry at the same time can both take the same id, or lose each other's writes. The model delivers every event by hand, one at a time.
- Object keys that look like array indices come first in JavaScript's property order; the model uses plain insertion order for all keys. Metadata values are their JSON text.
- Metadata properties holding `undefined` (or a function) are not modelled. `JSON.stringify` omits them, so in the source `{start: false, x: undefined}` and `{start: false}` serialise to the same text, and the change test of `update` treats them as equal; the spread copies such a property all the same.
- `init` stores its record object both in the registry and as the cached own record, and `update` mutates both through separate paths. The model keeps them as two values, updated as the source updates each of them.
- `update` writes a falsy metadata argument as is into the cached record and `undefined` into the registry entry. Until a `storage` event replaces the registry, these are the same object, so the cached record also ends up holding `undefined`. The model uses the absent value `None` for all of these.
- WindowManagement.WindowManager.Update: requires `init` to have run, because the source reads `this.#winData.shape` and throws before that; the same holds for `SetThisWindowMetaData`, `OnBeforeUnload` and a `windows` storage event (`this.#windows.length`). `GetWindowIndexFromId` also requires `init`, because before it the source throws on `this.#windows.length`. `UpdateWindowsLocalStorage` requires `init` too: before it, the source stores the text `undefined` under `windows`, and every later `init` throws parsing it.
- pong.js (the game itself) is not part of this model. The exceptions are its store clear on page load and its calls into the manager, which the scenarios replay; they leave out the page's own direct call of its windows-change callback after `init`, and the per-frame `update()` calls, which publish nothing while the shape stays the same.
- The `storage` events raised by `localStorage.clear()` (key `null`) and by the counter write (key `count`) are ignored by the handler; the scenarios do not deliver them.
