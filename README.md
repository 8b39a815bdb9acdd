# Visual editing: turbo-charged live queries, documents on page, and data wrapping

This project models three parts of the Sanity visual-editing repository and
proves properties of them.

**The presentation loader's turbo-charging engine**
(`packages/presentation/src/loader/LoaderQueries.tsx`). Live query results
stay fresh because the engine patches cached source documents instead of
re-running queries.
- The *scope* is the ids of the documents on the page, each once, cut down
  to the cache's capacity.
- The *batch coordinator* picks scope ids that are neither cached nor
  already batched. It keeps a sliding window of batches.
- The *mutation reconciler* handles listener events. A `disappear` deletes
  the document from the cache. An update with mendoza effects patches the
  cached copy, without its `_rev`, and stores the result.
- The *batch fetch* requests the missing ids of a batch and stores each
  returned document under its `_id`.
- The *substitution callbacks* feed the client's source-document pass. The
  resolver skips cross-dataset documents and warns once. It prefers the
  displayed document and falls back to the cache. The value mapper turns a
  number into a string where the previous value was a string. A memo runs
  the pass only once the cache has changed and the result has a source map.

The cache is a least-recently-used map (`Lru.LruCache`). Its abstract state
is a map of entries plus a recency order; `order[0]` is the next to evict.
The loader's shared state is `Loader.LiveLoader`: the cache, the batch list,
the cache's last-updated counter and the one-time warning flag. Each React
effect becomes a method, called one after another. Every method is proved
against a pure function of the old state (`NextBatches`, `Reconcile`,
`StoreAll`, `ResolveDocument`, `WarnStep`). The lemmas about those functions
carry the properties.

**The overlay layer's documents on page**
(`packages/visual-editing/src/ui/Overlays.tsx`). It covers the set equality
test, the one-record-per-id report, which is sent only when the id set
changes, and the filter choosing which element overlays to draw. A
JavaScript `Set` is `Overlays.IdSet`. It is a class so that `a === b` is
object identity, and it lists its elements in insertion order (`Distinct`).

**The annotate mode of `wrapData`** (`packages/csm/src/wrap/wrapData.test.ts`).
Each leaf of a query result that the content source map traces to a
document field becomes `{ value, $$type$$: 'sanity', source }`. The
`source` holds the context, the document's id and type, and the dotted
field path. The rest of the tree keeps its shape.

Files:
- `wrappers.dfy`: `Option` and `Result`.
- `seqs.dfy`: duplicate-freedom, `Distinct` (JavaScript `Set` insertion
  order), `Filter`, `Remove`.
- `json.dfy`: JSON values, JavaScript truthiness, and integer-to-string
  conversion with its parse-back round trip.
- `lru.dfy`: the LRU cache.
- `loader.dfy`: the turbo-charging engine.
- `overlays.dfy`: the documents-on-page report and the render filter.
- `csm.dfy`: source maps and `wrapData`.

## Model

| member | source | states |
|---|---|---|
| Lru.LruCache.constructor | packages/presentation/src/loader/LoaderQueries.tsx:41-43 | a new cache is empty, has the given capacity, and is well formed (no duplicate keys in the recency order, the order lists exactly the keys, at most `capacity` of them) |
| Lru.LruCache.Get | packages/presentation/src/loader/LoaderQueries.tsx:440 | `get` returns the cached value or nothing and keeps the cache well formed; the new state is `GetState` of the old one |
| Lru.LruCache.Set | packages/presentation/src/loader/LoaderQueries.tsx:181 | `set` keeps the cache well formed; the new state is `PutState` of the old one |
| Lru.LruCache.Delete | packages/presentation/src/loader/LoaderQueries.tsx:167 | `delete` keeps the cache well formed, reports whether it removed something, and the new state is `DeleteState` of the old one |
| Lru.PutWellFormed | packages/presentation/src/loader/LoaderQueries.tsx:181 | `set` never leaves more than `capacity` entries, never duplicates a key, and keeps the order and the entries in step |
| Lru.PutStores | packages/presentation/src/loader/LoaderQueries.tsx:216 | after `set` the key holds the new value and is the most recently used |
| Lru.PutEvictsOnlyLeastRecent | packages/presentation/src/loader/LoaderQueries.tsx:216 | `set` changes no other entry; an entry is dropped exactly when the cache was full and the key new, and the dropped entry is the least recently used |
| Lru.PutKeepsRecentLast | packages/presentation/src/loader/LoaderQueries.tsx:216 | when the keys of a set smaller than the capacity are the most recently used, `set` keeps them so with the stored key added, and never evicts one of them |
| Lru.PutKeepsOtherOrder | packages/presentation/src/loader/LoaderQueries.tsx:181 | `set` keeps the relative recency of every other key, minus the evicted one |
| Lru.GetPromotes | packages/presentation/src/loader/LoaderQueries.tsx:440 | `get` returns what `peek` would, changes no entry and makes the key the most recently used while every other key keeps its relative recency; on a missing key nothing changes |
| Lru.DeleteRemoves | packages/presentation/src/loader/LoaderQueries.tsx:167 | `delete` returns true exactly when the key was cached, removes it, changes no other entry, leaves the other keys in their recency order, and changes nothing for a missing key |
| Lru.LruCache.Has | packages/presentation/src/loader/LoaderQueries.tsx:139 | `has` is true exactly when `peek` finds the key; it reads the cache and changes nothing |
| Lru.LruCache.Peek | packages/presentation/src/loader/LoaderQueries.tsx:175 | `peek` finds a value exactly when the key is cached, and the value is the cached one; it does not promote |
| Seqs.RemoveAppend | packages/presentation/src/loader/LoaderQueries.tsx:167 | removing a key from a recency order keeps the other keys in order: removal distributes over concatenation |
| Seqs.DistinctFirstOccurrenceOrder | packages/presentation/src/loader/LoaderQueries.tsx:66-67 | a `Set` built from a list iterates its elements in the order of their first occurrence |
| Loader.TurboIds | packages/presentation/src/loader/LoaderQueries.tsx:64-73 | the scope has no duplicates, only ids of documents on the page, at most `capacity` ids, in first-occurrence order; when the page has no more distinct ids than the capacity, every page id is kept |
| Loader.FlattenContains | packages/presentation/src/loader/LoaderQueries.tsx:136 | an id is in `batch.flat()` exactly when it is in one of the batches |
| Loader.NewBatchProperties | packages/presentation/src/loader/LoaderQueries.tsx:136-144 | a new batch holds only scope ids that are in no earlier batch and not cached, each once, at most `batchSize` of them; it is empty exactly when nothing is pending or the batch size is zero |
| Loader.BatchWindow | packages/presentation/src/loader/LoaderQueries.tsx:143-148 | without a new batch the batch list is unchanged; with one, the list is the last `batchSize` earlier batches followed by the new batch, so it has at most `batchSize + 1` entries |
| Loader.LiveLoader.PendingIds | packages/presentation/src/loader/LoaderQueries.tsx:136-142 | the loop collects exactly the scope ids that are in no batch and not cached (`has` does not promote), each once, in scope order |
| Loader.LiveLoader.ScheduleBatch | packages/presentation/src/loader/LoaderQueries.tsx:135-149 | the batch effect sets the batch list to `NextBatches` of the old one and keeps the window bound |
| Loader.LiveLoader.constructor | packages/presentation/src/loader/LoaderQueries.tsx:41-43 | the loader starts with an empty fresh cache of the given size, no batches, counter 0 and no warning given |
| Loader.ReconcileDisappear | packages/presentation/src/loader/LoaderQueries.tsx:166-170 | a `disappear` removes the id and changes no other entry; the counter advances exactly when a cached document was removed; for an id that is not cached nothing changes |
| Loader.ReconcilePatch | packages/presentation/src/loader/LoaderQueries.tsx:172-183 | an update with effects to a cached id stores `applyPatch(cached document without _rev, effects)` under that id, makes it the most recent, changes no other entry and advances the counter; an id that is not cached, or a patch that throws, changes nothing |
| Loader.ReconcileWithoutEffects | packages/presentation/src/loader/LoaderQueries.tsx:172 | a non-mutation event, or an update without effects, changes neither the cache nor the counter |
| Loader.ReconcileWellFormed | packages/presentation/src/loader/LoaderQueries.tsx:165-184 | handling any event keeps the cache well formed and never moves the counter back |
| Loader.LiveLoader.OnListenEvent | packages/presentation/src/loader/LoaderQueries.tsx:165-184 | the listen handler leaves the cache and counter at `Reconcile` of the old ones |
| Loader.LiveLoader.MissingIds | packages/presentation/src/loader/LoaderQueries.tsx:211-212 | the request is exactly the batch's uncached ids, in batch order; there is no request exactly when every id is cached |
| Loader.LiveLoader.ReceiveDocuments | packages/presentation/src/loader/LoaderQueries.tsx:213-219 | the fetch completion leaves the cache at `StoreAll` of the old one, and the counter advances once per stored document |
| Loader.StoreAllWellFormed | packages/presentation/src/loader/LoaderQueries.tsx:214-219 | storing fetched documents keeps the cache well formed and adds at most one entry per stored document |
| Loader.StoreAllChangesOnlyFetched | packages/presentation/src/loader/LoaderQueries.tsx:214-219 | an entry whose id no fetched document has is never changed; at most it is evicted |
| Loader.FetchedIds | packages/presentation/src/loader/LoaderQueries.tsx:214-218 | the ids fetched documents are stored under are exactly those with a returned document carrying that `_id`, at most one per stored document |
| Loader.StoreAllKeepsFetched | packages/presentation/src/loader/LoaderQueries.tsx:213-219 | when no more documents are stored than the cache holds, even into a full cache, every returned id is cached with the last document returned for it (documents without `_id` are skipped), and the fetched ids are the most recently used keys |
| Loader.StoreAllWithinCapacity | packages/presentation/src/loader/LoaderQueries.tsx:214-219 | when the cache has room for every stored document, no earlier entry is lost |
| Loader.ResolveDocument | packages/presentation/src/loader/LoaderQueries.tsx:419-441 | a cross-dataset document resolves to nothing; otherwise a displayed document with the same published id wins; otherwise the result is exactly the cached document, or nothing when the id is not cached |
| Loader.WarnsAtMostOnce | packages/presentation/src/loader/LoaderQueries.tsx:403-431 | over any run of resolutions at most one warning is logged; one is logged exactly when none was before and some source document is cross-dataset |
| Loader.LiveLoader.ResolveSourceDocument | packages/presentation/src/loader/LoaderQueries.tsx:419-441 | the resolver returns `ResolveDocument` of the cache before the call, sets the flag and the warning by `WarnStep`, and promotes the id in the cache only when it falls back to `get` |
| Json.IntToStringRoundTrip | packages/presentation/src/loader/LoaderQueries.tsx:449 | the string form of an integer parses back to that integer |
| Json.CanonicalIntUnique | packages/presentation/src/loader/LoaderQueries.tsx:449 | a canonical integer string (optional minus, no leading zero) is the string form of the integer it parses to, so the string form is the only canonical string for its value |
| Loader.MapChangedValue | packages/presentation/src/loader/LoaderQueries.tsx:443-452 | a number replacing a string becomes a canonical integer string (no leading zero) that parses back to that number; every other changed value passes through unchanged |
| Loader.TurboChargeResultIfSourceMap | packages/presentation/src/loader/LoaderQueries.tsx:404-455 | the raw perspective fails; any other perspective returns the source-document pass run with the resolver over the given cache entries and displayed document (`ResolveDocument`) and with `MapChangedValue` |
| Loader.QuerySnapshot | packages/presentation/src/loader/LoaderQueries.tsx:386-400 | with counter 0, or without a snapshot or source map, the snapshot is returned as it is; otherwise raw fails, and any other perspective gives the pass's result over the snapshot's result with the resolver over the cache and the displayed document, keeping the source map |
| Loader.FetchThenResolve | packages/presentation/src/loader/LoaderQueries.tsx:213-219 | after a document is fetched into an empty cache, the memo runs the substitution pass, and the resolver that pass receives returns the fetched document for its source document |
| Loader.PatchThenResolve | packages/presentation/src/loader/LoaderQueries.tsx:175-182 | after a patch to a cached document, the memo runs the substitution pass, and the resolver that pass receives returns the patched document |
| Overlays.IsEqualSets | packages/visual-editing/src/ui/Overlays.tsx:61-66 | the identity, size and membership checks together return true exactly when the two sets hold the same elements |
| Overlays.IdSet.constructor | packages/visual-editing/src/ui/Overlays.tsx:131 | `new Set(ids)` holds each id once, in first-occurrence order |
| Overlays.Nodes | packages/visual-editing/src/ui/Overlays.tsx:127-129 | only resolved nodes, which carry an `id`, are kept, and every resolved node of an element is kept |
| Overlays.FirstNodeWithId | packages/visual-editing/src/ui/Overlays.tsx:137-141 | `find` returns a resolved node with the id, the one at the first index with that id |
| Overlays.RecordOf | packages/visual-editing/src/ui/Overlays.tsx:136-144 | a record has the node's id and type; it carries `_projectId` and `_dataset` together, exactly when both are non-empty on the node |
| Overlays.DocumentsOnPageProperties | packages/visual-editing/src/ui/Overlays.tsx:124-145 | the report has one record per id of the id set, in its order, with no id twice; the ids are exactly those of the resolved nodes on the page; each record comes from the first node with its id |
| Overlays.ReportOnlyOnChange | packages/visual-editing/src/ui/Overlays.tsx:133-147 | once a page's ids are reported, reporting a page with the same id set sends nothing and keeps the stored set, which makes reporting idempotent |
| Overlays.ReportOnChange | packages/visual-editing/src/ui/Overlays.tsx:133 | a report is sent exactly when some node id is new or some stored id has no node any more |
| Overlays.Reporter.constructor | packages/visual-editing/src/ui/Overlays.tsx:112 | the stored id set starts as a new, empty set |
| Overlays.Reporter.ReportDocuments | packages/visual-editing/src/ui/Overlays.tsx:124-149 | the effect returns the report and the new stored id set given by `Report`; when nothing is sent the stored set object is kept |
| Overlays.ElementsToRender | packages/visual-editing/src/ui/Overlays.tsx:265-270 | nothing is drawn without a channel or while an in-frame channel is not connected; otherwise exactly the activated or focused elements are drawn |
| Overlays.ElementsToRenderKeepsOrder | packages/visual-editing/src/ui/Overlays.tsx:269 | the render filter keeps page order: it distributes over concatenation |
| Csm.WrapData | packages/csm/src/wrap/wrapData.test.ts:15-16 | without a source map the result is returned unchanged; wrapping fails exactly when the source map has an index out of range |
| Csm.WrapAt | packages/csm/src/wrap/wrapData.test.ts:18 | the node at a path of the wrapped tree is the node at that path of the original, wrapped |
| Csm.WrapMappedLeaf | packages/csm/src/wrap/wrapData.test.ts:20-28 | a mapped leaf becomes an object with the original `value`, `$$type$$` `sanity`, and a `source` holding the context fields, the document id and type and the dotted path |
| Csm.WrapUnmappedLeaf | packages/csm/src/wrap/wrapData.test.ts:19 | an unmapped leaf such as `_id` keeps its plain value |
| Csm.WrapKeepsShape | packages/csm/src/wrap/wrapData.test.ts:18-20 | arrays stay arrays of the same length, and objects stay objects with the same keys |
| Csm.WrapKeepsPaths | packages/csm/src/wrap/wrapData.test.ts:45 | every path of the original tree is still a path of the wrapped tree |
| Csm.WrappedLeafWithoutToolOrWorkspace | packages/csm/src/wrap/wrapData.test.ts:7-13 | with `tool` and `workspace` undefined, the wrapped leaf is exactly the object the tests compare with |
| Csm.WrapArrayOfDocuments | packages/csm/src/wrap/wrapData.test.ts:6-31 | element 0 of the wrapped array is `_id` plus a wrapped `title` with type `shoe` and path `title` |
| Csm.SeoOgTitlePath | packages/csm/src/wrap/wrapData.test.ts:50 | the field path `seo`, `og`, `title` is written `seo.og.title` |
| Csm.WrapDeepTarget | packages/csm/src/wrap/wrapData.test.ts:33-55 | the leaf at `seo.og.title` is wrapped with type `screen` and path `seo.og.title` |

## Left out

- React machinery (`useState`, `useEffect`, `useMemo`, `memo`, JSX): the effects are methods called one after another.
- `Date.now()`: the last-updated value is a counter that each cache change advances by one, so only "non-zero" and "advanced" are modelled, not wall-clock values.
- `client.listen` subscription setup and teardown, `client.getDocuments`' promise and `console.error`, and `client.fetch` with its abort and refresh plumbing: network and asynchrony. The fetched documents and listener events are method parameters.
- `channel.send` in the loader and the overlays: cross-frame messaging. The overlay report is returned instead of sent.
- `console.warn`: the warning is the `warning` result of `Loader.LiveLoader.ResolveSourceDocument`.
- The mendoza `applyPatch`, the client's `applySourceDocuments` and `getPublishedId` are function parameters, since their code is not part of this model.
- mnemonist's LRU cache: its code is not part of this model. It is modelled by its observable contract (`has`, `peek`, `get`, `set`, `delete`, `capacity`). Its constructor needs a positive capacity, hence `requires cacheSize > 0`.
- `../constants` is not part of this model: `LIVE_QUERY_CACHE_SIZE` and `LIVE_QUERY_CACHE_BATCH_SIZE` are constructor parameters of `Loader.LiveLoader`.
- Loader.TurboChargeResultIfSourceMap: the source-document pass is a parameter, so nothing is proved about the tree it returns; the contract fixes its inputs (result, source map, the resolver over the cache entries as they are when the memo runs, `MapChangedValue` and the perspective). The recency promotions the resolver's `get` makes during the pass are modelled only by `Loader.LiveLoader.ResolveSourceDocument`, not inside the pure resolver.
- Loader.Reconcile: a throwing `applyPatch` is modelled as `None`, leaving the cache and the counter as they were after the `disappear` step; the error escaping the listener callback is not modelled.
- Loader.LiveLoader.ResolveSourceDocument: it models one callback invocation; the module-level flag shared by every loader instance is a field of one `LiveLoader`.
- JSON numbers are integers; floating-point values and their string forms are not modelled.
- Json.IntToString: it is JavaScript's `${n}` only for integers below 1e21 in magnitude; larger numbers, which JavaScript prints in exponent form and cannot hold exactly beyond 2^53, are not modelled.
- `wrapData`'s own source, `./wrapData` and `./__fixtures__/responses`, are not part of this model. It is modelled from the test assertions: mappings are looked up by exact result path only, with no prefix resolution. The two fixtures are reconstructed from what the assertions show. A source map whose indices point outside its tables is reported as a `Failure`.
- Csm.WrappedLeafWithoutToolOrWorkspace: `tool` and `workspace` are undefined in the tests and `toEqual` ignores undefined keys, so an absent (`None`) field is omitted from `source`, not stored as `undefined`.
- Overlays.ElementsToRender: only the filter is modelled, not the overlay components it renders.
- Overlay UI code (DOM and keyboard handlers, the flash animation, styled components, the theme, `useController`, history adapters): UI, timers and event plumbing.
- `packages/preview-url-secret/src/types.ts`, `apps/next/src/components/sanity.ssr.ts` and `apps/next-no-cache/src/lib/client.ts`: type declarations and client configuration, with no behaviour of the modelled core.
