# EchoHypno media store — Dafny model

This project models the in-memory media store of the EchoHypno admin front end
(`src/store/resonanceStore.ts`). The store holds three fields: the list of media
assets `media`, the flag `loading`, and the message `error`. It has three operations:

- `load` marks the store as loading, queries the `media_assets` table, and then either
  records the query's error message or replaces `media` with the rows it got back.
- `updateLocal(path, patch)` merges a partial asset into every asset with that path.
- `save` posts the whole list to the admin API and raises an alert. It never writes
  the store.

The model has three modules:

- `Wrappers` (`wrappers.dfy`): `Option`, standing for `null` and for an absent object key.
- `Media` (`media.dfy`): the pure part. It holds the `MediaAsset` record with its three
  enumerations (`Category`, `Climate`, `Role`). It holds the `Patch` record, one optional
  field per asset field, `path` included, as `Partial<MediaAsset>` allows. `Apply` is the
  object spread `{ ...m, ...patch }`, and `UpdateLocal` is the `Array.map` over the list.
  The lemmas say what the merge does to the list.
- `ResonanceStore` (`resonance_store.dfy`): the class `MediaStore` with the fields `media`,
  `loading` and `error`. Each `set` call of the source is one method. `Load` runs the two
  stages of `load` in order. How the query ends and how the HTTP call ends are parameters.
  `Valid()` is the invariant every method keeps: while `loading` holds, `error` is null.

Three details of the code are modelled as written:

- The success branch of `load` (`set({ media: data || [], loading: false })`) does not
  touch `error`. `LoadOk` therefore keeps `error` as it was. A resolved `Load` still ends with no
  error, because its first stage cleared it.
- `load` has no `try`/`catch`. If the awaited query rejects instead of resolving,
  `load` stops after its first stage and the store keeps `loading` set with no error.
  `Load` models that outcome as `Rejected`.
- In `save`, a non-ok response whose body cannot be read makes `await res.text()` reject.
  Control then reaches the `catch` block, which raises the network-error alert, not the
  API-error alert.

## Model

| member | source | states |
|---|---|---|
| `Media.Apply` | src/store/resonanceStore.ts:65 | the spread `{ ...m, ...patch }`: each field the patch carries takes the patch's value, each absent field keeps the asset's |
| `Media.UpdateLocal` | src/store/resonanceStore.ts:62-68 | the updated list has exactly as many assets as the old one |
| `Media.UpdateLocalAt` | src/store/resonanceStore.ts:63-67 | index i of the result comes from index i of the input: merged with the patch if its path equals the argument, unchanged otherwise (order and shape preserved) |
| `Media.UpdateLocalKeepsOthers` | src/store/resonanceStore.ts:65 | every asset whose path differs from the argument is returned unchanged |
| `Media.UpdateLocalMerges` | src/store/resonanceStore.ts:64-65 | in every matching asset, not only the first, each field present in the patch takes the patch's value and each absent field keeps its old value |
| `Media.UpdateLocalUnchangedIff` | src/store/resonanceStore.ts:64-66 | the list comes back equal to its input if and only if every matching asset already agrees with the patch |
| `Media.UpdateLocalNoMatch` | src/store/resonanceStore.ts:64-66 | when no asset has the given path the list comes back equal to its input |
| `Media.UpdateLocalNoChange` | src/store/resonanceStore.ts:62-68 | updating with the empty patch `{}` leaves the list equal to its input |
| `Media.UpdateLocalIdempotent` | src/store/resonanceStore.ts:65 | applying the same update twice equals applying it once, also when the patch rewrites `path` |
| `Media.UpdateLocalRenameClears` | src/store/resonanceStore.ts:65 | a patch that gives a new path leaves no asset carrying the old path |
| `Media.UpdateLocalThen` | src/store/resonanceStore.ts:62-68 | two edits of one path, the first keeping the path, equal one edit with the combined patch whose later keys win |
| `Media.UpdateLocalCommute` | src/store/resonanceStore.ts:62-68 | edits of two different paths that do not rename can be applied in either order |
| `Media.ApplyNoChange` | src/store/resonanceStore.ts:65 | spreading an empty patch returns the asset unchanged |
| `Media.ApplyIdempotent` | src/store/resonanceStore.ts:65 | spreading the same patch twice equals spreading it once |
| `Media.Then` | src/store/resonanceStore.ts:65 | the patch spread over a patch, later keys winning: spreading the first and then the second over any asset equals one spread of the combined patch |
| `ResonanceStore.MediaStore.Valid` | src/store/resonanceStore.ts:40-56 | the invariant every state reachable through the store keeps: while `loading` is set, `error` is null |
| `ResonanceStore.MediaStore.constructor` | src/store/resonanceStore.ts:31-34 | the store starts with no media, not loading and no error |
| `ResonanceStore.MediaStore.LoadStart` | src/store/resonanceStore.ts:41 | sets `loading` and clears `error`; `media` is kept |
| `ResonanceStore.MediaStore.LoadFail` | src/store/resonanceStore.ts:49-52 | clears `loading`, records the message as `error`; `media` is kept |
| `ResonanceStore.MediaStore.LoadOk` | src/store/resonanceStore.ts:55 | `media` becomes the data, or the empty list when data is null; `loading` is cleared; `error` is left as it was |
| `ResonanceStore.MediaStore.Load` | src/store/resonanceStore.ts:40-56 | on a query error: not loading, `error` is the message, `media` as before; on a resolved query without error: not loading, no error, `media` is the data or the empty list; on a rejected query: still loading, no error, `media` as before |
| `ResonanceStore.MediaStore.UpdateLocal` | src/store/resonanceStore.ts:62-68 | `media` becomes the merged list; `loading` and `error` are unchanged |
| `ResonanceStore.MediaStore.Save` | src/store/resonanceStore.ts:74-98 | posts exactly the current `media`; success alert iff the response is ok; API-error alert iff it is not ok and its body is readable; network alert iff the call throws or the body cannot be read; it writes no store field on any path |

## Left out

- The Supabase query itself, its column list and its ordering by category and path (lines 43-47): how the query ends is a parameter of `Load`.
- The `fetch` POST, its URL, headers and JSON serialisation (lines 78-85): the outcome is a parameter of `Save`.
- `console.error` and the browser `alert` dialogs: `Save` returns which alert is raised, and `AlertText` holds its words. Nothing is logged.
- The numeric meaning of `energy`, a JavaScript number meant to lie in 0..1: the store only copies it, so it is a `real` with no arithmetic.
- A patch key that is present but holds `undefined`, which a spread would copy: the model treats a key as either absent or holding a value of the field's type.
- Rows whose shape does not match `MediaAsset`: the query result is trusted as the source trusts it.
- Object identity: `map` always builds a new array, and every matching asset becomes a new object even for `{}`. The model compares lists and assets by value, and nothing in the store relies on identity.
- Zustand subscriptions and the scheduling of `async`/`await`: each `set` is one atomic step, and the two stages of a load do not interleave with other calls.
- `src/App.tsx`, `src/lib/supabase.ts` and `src/types.ts`: the page rendering, the database client and unused type declarations are not part of this model.
