/** The loader's "turbo-charging" engine: it keeps live query results fresh by
    patching cached source documents instead of re-running the queries.
    Its parts are the scope of ids worth caching, the batch coordinator that
    picks ids to fetch, the mutation reconciler, the batch fetch completion,
    and the callbacks and gating of the substitution pass. React's effects
    become methods called one after another; `Date.now()` becomes a counter
    that each cache change advances. */
module Loader {
  import opened Wrappers
  import opened Seqs
  import opened Json
  import opened Lru
  import opened Csm

  /** A Sanity document: a JSON object. */
  type Document = map<string, Json>

  /** A mendoza patch: a JSON array of operations, applied by a function the loader is given. */
  type Patch = seq<Json>

  /** mendoza's `applyPatch`: the patched document, or `None` when it throws. */
  type ApplyPatch = (Document, Patch) -> Option<Document>

  datatype DocumentOnPage = DocumentOnPage(id: string, type_: string)

  datatype Perspective = Published | PreviewDrafts | Raw

  datatype Transition = Appear | Update | Disappear

  /** An event of the listener: a mutation with its mendoza effects (`effects.apply`),
      or one of the events that carry no mutation. */
  datatype ListenEvent =
    | Mutation(documentId: string, transition: Transition, effects: Option<Patch>)
    | Welcome
    | Reconnect

  function Min(a: nat, b: nat): nat {
    if a < b then a else b
  }

  /** The document's `_id` when it is a non-empty string (`doc?._id` is truthy). */
  function DocumentId(doc: Document): Option<string> {
    if "_id" in doc && doc["_id"].Str? && Truthy(doc["_id"]) then Some(doc["_id"].s) else None
  }

  // ---------------------------------------------------------------------------
  // Scope: `turboIds`

  /** `documentsOnPage.map(({ _id }) => _id)` */
  function PageIds(documentsOnPage: seq<DocumentOnPage>): (ids: seq<string>)
    ensures |ids| == |documentsOnPage|
    ensures forall i :: 0 <= i < |ids| ==> ids[i] == documentsOnPage[i].id
  {
    seq(|documentsOnPage|, i requires 0 <= i < |documentsOnPage| => documentsOnPage[i].id)
  }

  /** The ids of the documents on the page, each once, in order of first
      appearance, cut down to the cache's capacity. */
  method TurboIds(documentsOnPage: seq<DocumentOnPage>, capacity: nat) returns (ids: seq<string>)
    ensures var all := Distinct(PageIds(documentsOnPage)); ids == all[..Min(|all|, capacity)]
    ensures NoDuplicates(ids)
    ensures |ids| <= capacity
    ensures forall id :: id in ids ==> id in PageIds(documentsOnPage)
    ensures forall i, j :: 0 <= i < j < |ids| ==>
      FirstIndex(PageIds(documentsOnPage), ids[i]) < FirstIndex(PageIds(documentsOnPage), ids[j])
    ensures |Distinct(PageIds(documentsOnPage))| <= capacity ==>
      forall d :: d in documentsOnPage ==> d.id in ids
  {
    var documentsActuallyInUse := PageIds(documentsOnPage);
    ids := Distinct(documentsActuallyInUse);
    DistinctElements(documentsActuallyInUse);
    DistinctNoDuplicates(documentsActuallyInUse);
    DistinctFirstOccurrenceOrder(documentsActuallyInUse);
    ghost var all := ids;
    var max := capacity;
    if |ids| >= max {
      ids := ids[..max];
    }
    assert ids == all[..|ids|];
    forall d | d in documentsOnPage && |all| <= capacity ensures d.id in ids {
      var i :| 0 <= i < |documentsOnPage| && documentsOnPage[i] == d;
      assert documentsActuallyInUse[i] == d.id;
      assert d.id in all;
      assert all[..|all|] == all;
    }
  }

  // ---------------------------------------------------------------------------
  // Batch coordinator

  /** `batch.flat()` */
  function Flatten(batches: seq<seq<string>>): seq<string> {
    if batches == [] then [] else Flatten(batches[..|batches| - 1]) + batches[|batches| - 1]
  }

  /** An id is in the flattened batches exactly when it is in one of them. */
  lemma {:induction false} FlattenContains(batches: seq<seq<string>>, id: string)
    ensures id in Flatten(batches) <==> exists j :: 0 <= j < |batches| && id in batches[j]
  {
    if batches != [] {
      var init := batches[..|batches| - 1];
      FlattenContains(init, id);
      if id in Flatten(batches) && id !in batches[|batches| - 1] {
        var j :| 0 <= j < |init| && id in init[j];
        assert batches[j] == init[j];
      }
      if exists j :: 0 <= j < |batches| && id in batches[j] {
        var j :| 0 <= j < |batches| && id in batches[j];
        if j < |init| {
          assert init[j] == batches[j];
        }
      }
    }
  }

  /** The turbo ids that are in no batch and not cached, each once, in order. */
  function Pending(turboIds: seq<string>, batched: seq<string>, cached: set<string>): seq<string> {
    Distinct(Filter(turboIds, Unscheduled(batched, cached)))
  }

  /** An id is worth fetching when it is in no batch and not cached. */
  function Unscheduled(batched: seq<string>, cached: set<string>): string -> bool {
    id => id !in batched && id !in cached
  }

  /** The new batch: the pending ids cut down to the batch size. */
  function NewBatch(batch: seq<seq<string>>, turboIds: seq<string>, cached: set<string>, batchSize: nat): seq<string> {
    var pending := Pending(turboIds, Flatten(batch), cached);
    pending[..Min(batchSize, |pending|)]
  }

  /** JavaScript's `s.slice(-n)`: the last `n` elements; `slice(-0)` is the whole array. */
  function TakeLast<T>(s: seq<T>, n: nat): seq<T> {
    if n == 0 then s else s[|s| - Min(n, |s|)..]
  }

  /** The batch list after the coordinator runs: unchanged when there is no new
      batch, otherwise the last `batchSize` earlier batches and then the new one. */
  function NextBatches(batch: seq<seq<string>>, turboIds: seq<string>, cached: set<string>, batchSize: nat): seq<seq<string>> {
    var slice := NewBatch(batch, turboIds, cached, batchSize);
    if |slice| == 0 then batch else TakeLast(batch, batchSize) + [slice]
  }

  /** A new batch holds only turbo ids that are in no earlier batch and not
      cached, each once and at most `batchSize` of them; it is empty only when
      nothing is pending (or the batch size is zero). */
  lemma NewBatchProperties(batch: seq<seq<string>>, turboIds: seq<string>, cached: set<string>, batchSize: nat)
    ensures var s := NewBatch(batch, turboIds, cached, batchSize);
      && |s| <= batchSize
      && NoDuplicates(s)
      && (forall id :: id in s ==>
            id in turboIds && id !in cached && forall j :: 0 <= j < |batch| ==> id !in batch[j])
      && (s == [] <==> batchSize == 0 || forall id :: id in turboIds ==> id in cached || id in Flatten(batch))
  {
    var batched := Flatten(batch);
    var filtered := Filter(turboIds, Unscheduled(batched, cached));
    var pending := Pending(turboIds, batched, cached);
    var s := NewBatch(batch, turboIds, cached, batchSize);
    DistinctElements(filtered);
    DistinctNoDuplicates(filtered);
    assert s == pending[..|s|];
    forall id | id in s
      ensures id in turboIds && id !in cached && id !in batched
      ensures forall j :: 0 <= j < |batch| ==> id !in batch[j]
    {
      FlattenContains(batch, id);
    }
    if s != [] {
      assert s[0] in s;
    }
    if s == [] && batchSize > 0 {
      assert |pending| == 0;
      forall id | id in turboIds ensures id in cached || id in batched {
        assert id !in pending;
      }
    }
    if batchSize > 0 && (exists id :: id in turboIds && id !in cached && id !in batched) {
      var id :| id in turboIds && id !in cached && id !in batched;
      assert id in pending;
      assert s[0] == pending[0];
    }
  }

  /** After the coordinator runs, the batch list ends with the new batch, keeps
      at most `batchSize` earlier ones, and so has at most `batchSize + 1` entries;
      without a new batch it is unchanged. */
  lemma BatchWindow(batch: seq<seq<string>>, turboIds: seq<string>, cached: set<string>, batchSize: nat)
    ensures var next := NextBatches(batch, turboIds, cached, batchSize);
      var s := NewBatch(batch, turboIds, cached, batchSize);
      && (s == [] ==> next == batch)
      && (s != [] ==>
            && |next| <= batchSize + 1
            && next[|next| - 1] == s
            && next[..|next| - 1] == batch[|batch| - Min(batchSize, |batch|)..])
  {
    NewBatchProperties(batch, turboIds, cached, batchSize);
  }

  // ---------------------------------------------------------------------------
  // Mutation reconciler

  /** `update.effects?.apply?.length` is truthy. */
  predicate HasEffects(event: ListenEvent) {
    event.Mutation? && event.effects.Some? && |event.effects.value| > 0
  }

  /** The cache and the last-updated counter after the listener handles `event`. */
  function Reconcile(s: LruState<Document>, capacity: nat, lastUpdated: nat, event: ListenEvent,
                     applyPatch: ApplyPatch): (LruState<Document>, nat)
  {
    var afterDisappear :=
      if event.Mutation? && event.transition == Disappear then
        var deleted := DeleteState(s, event.documentId);
        (deleted.0, if deleted.1 then lastUpdated + 1 else lastUpdated)
      else (s, lastUpdated);
    if !HasEffects(event) then afterDisappear
    else match PeekState(afterDisappear.0, event.documentId)
      case None => afterDisappear
      case Some(cached) =>
        match applyPatch(cached - {"_rev"}, event.effects.value)
        case None => afterDisappear
        case Some(patched) => (PutState(afterDisappear.0, capacity, event.documentId, patched), afterDisappear.1 + 1)
  }

  /** A `disappear` removes the document and leaves every other entry alone; the
      counter advances exactly when a cached document was removed, and for an
      id that is not cached nothing changes at all. */
  lemma ReconcileDisappear(s: LruState<Document>, capacity: nat, lastUpdated: nat, id: string,
                           effects: Option<Patch>, applyPatch: ApplyPatch)
    requires WellFormed(s, capacity) && capacity > 0
    ensures var r := Reconcile(s, capacity, lastUpdated, Mutation(id, Disappear, effects), applyPatch);
      && id !in r.0.entries
      && (forall k :: k != id ==> PeekState(r.0, k) == PeekState(s, k))
      && WellFormed(r.0, capacity)
      && (r.1 > lastUpdated <==> id in s.entries)
      && (id !in s.entries ==> r == (s, lastUpdated))
  {
    DeleteRemoves(s, capacity, id);
  }

  /** An update with effects to a cached document stores the patch applied to
      the document without its `_rev`, makes it the most recently used entry,
      changes no other entry and advances the counter; for a document that is
      not cached, or a patch that throws, nothing changes. */
  lemma ReconcilePatch(s: LruState<Document>, capacity: nat, lastUpdated: nat, id: string,
                       transition: Transition, patch: Patch, applyPatch: ApplyPatch)
    requires WellFormed(s, capacity) && capacity > 0
    requires transition != Disappear && |patch| > 0
    ensures var r := Reconcile(s, capacity, lastUpdated, Mutation(id, transition, Some(patch)), applyPatch);
      && WellFormed(r.0, capacity)
      && (id in s.entries && applyPatch(s.entries[id] - {"_rev"}, patch).Some? ==>
            && r.0.entries == s.entries[id := applyPatch(s.entries[id] - {"_rev"}, patch).value]
            && Last(r.0.order) == id
            && r.1 == lastUpdated + 1)
      && (id !in s.entries || applyPatch(s.entries[id] - {"_rev"}, patch).None? ==> r == (s, lastUpdated))
  {
    if id in s.entries && applyPatch(s.entries[id] - {"_rev"}, patch).Some? {
      var patched := applyPatch(s.entries[id] - {"_rev"}, patch).value;
      PutWellFormed(s, capacity, id, patched);
      PutStores(s, capacity, id, patched);
    }
  }

  /** Events that are not mutations, and updates without effects, change nothing. */
  lemma ReconcileWithoutEffects(s: LruState<Document>, capacity: nat, lastUpdated: nat, event: ListenEvent,
                                applyPatch: ApplyPatch)
    requires !HasEffects(event) && !(event.Mutation? && event.transition == Disappear)
    ensures Reconcile(s, capacity, lastUpdated, event, applyPatch) == (s, lastUpdated)
  {
  }

  /** Handling an event keeps the cache well formed and never moves the counter back. */
  lemma ReconcileWellFormed(s: LruState<Document>, capacity: nat, lastUpdated: nat, event: ListenEvent,
                            applyPatch: ApplyPatch)
    requires WellFormed(s, capacity) && capacity > 0
    ensures WellFormed(Reconcile(s, capacity, lastUpdated, event, applyPatch).0, capacity)
    ensures Reconcile(s, capacity, lastUpdated, event, applyPatch).1 >= lastUpdated
  {
    if event.Mutation? {
      DeleteRemoves(s, capacity, event.documentId);
    }
    var afterDisappear := if event.Mutation? && event.transition == Disappear then DeleteState(s, event.documentId).0 else s;
    if HasEffects(event) {
      match PeekState(afterDisappear, event.documentId)
      case None =>
      case Some(cached) =>
        match applyPatch(cached - {"_rev"}, event.effects.value)
        case None =>
        case Some(patched) => PutWellFormed(afterDisappear, capacity, event.documentId, patched);
    }
  }

  // ---------------------------------------------------------------------------
  // Batch fetch completion

  /** The cache after storing one fetched document, skipped when it is null or has no `_id`. */
  function StoreDocument(s: LruState<Document>, capacity: nat, document: Option<Document>): LruState<Document> {
    if document.Some? && DocumentId(document.value).Some? then
      PutState(s, capacity, DocumentId(document.value).value, document.value)
    else s
  }

  /** The cache after storing the fetched documents one after another. */
  function StoreAll(s: LruState<Document>, capacity: nat, documents: seq<Option<Document>>): LruState<Document> {
    if documents == [] then s
    else StoreDocument(StoreAll(s, capacity, documents[..|documents| - 1]), capacity, documents[|documents| - 1])
  }

  /** How many fetched documents are stored (non-null, with an `_id`). */
  function CountStored(documents: seq<Option<Document>>): nat {
    if documents == [] then 0
    else
      var last := documents[|documents| - 1];
      CountStored(documents[..|documents| - 1]) + if last.Some? && DocumentId(last.value).Some? then 1 else 0
  }

  /** The last fetched document whose `_id` is `id`. */
  function LastWithId(documents: seq<Option<Document>>, id: string): Option<Document> {
    if documents == [] then None
    else
      var last := documents[|documents| - 1];
      if last.Some? && DocumentId(last.value) == Some(id) then last
      else LastWithId(documents[..|documents| - 1], id)
  }

  /** Storing fetched documents keeps the cache well formed and grows it by at
      most one entry per stored document. */
  lemma {:induction false} StoreAllWellFormed(s: LruState<Document>, capacity: nat, documents: seq<Option<Document>>)
    requires WellFormed(s, capacity) && capacity > 0
    ensures WellFormed(StoreAll(s, capacity, documents), capacity)
    ensures |StoreAll(s, capacity, documents).order| <= |s.order| + CountStored(documents)
  {
    if documents != [] {
      var init := documents[..|documents| - 1];
      var last := documents[|documents| - 1];
      StoreAllWellFormed(s, capacity, init);
      var prev := StoreAll(s, capacity, init);
      if last.Some? && DocumentId(last.value).Some? {
        var id := DocumentId(last.value).value;
        PutWellFormed(prev, capacity, id, last.value);
        if id in prev.entries {
          NoDuplicatesAppend(Remove(prev.order, id), id);
        }
      }
    }
  }

  /** An entry whose id no fetched document has is never changed; at most it is evicted. */
  lemma {:induction false} StoreAllChangesOnlyFetched(s: LruState<Document>, capacity: nat, documents: seq<Option<Document>>, k: string)
    requires WellFormed(s, capacity) && capacity > 0 && LastWithId(documents, k).None?
    ensures k in StoreAll(s, capacity, documents).entries ==>
      k in s.entries && StoreAll(s, capacity, documents).entries[k] == s.entries[k]
  {
    if documents != [] {
      var init := documents[..|documents| - 1];
      var last := documents[|documents| - 1];
      StoreAllChangesOnlyFetched(s, capacity, init, k);
      StoreAllWellFormed(s, capacity, init);
      var prev := StoreAll(s, capacity, init);
      if last.Some? && DocumentId(last.value).Some? {
        PutEvictsOnlyLeastRecent(prev, capacity, DocumentId(last.value).value, last.value, k);
      }
    }
  }

  /** The ids the fetched documents are stored under: at most one per stored document. */
  function FetchedIds(documents: seq<Option<Document>>): (ids: set<string>)
    ensures forall id :: id in ids <==> LastWithId(documents, id).Some?
    ensures |ids| <= CountStored(documents)
  {
    if documents == [] then {}
    else
      var last := documents[|documents| - 1];
      var earlier := FetchedIds(documents[..|documents| - 1]);
      if last.Some? && DocumentId(last.value).Some? then earlier + {DocumentId(last.value).value} else earlier
  }

  /** Storing no more documents than the cache holds, even into a full cache,
      leaves every fetched id cached with the last document returned for it.
      The fetched ids are then the most recently used keys: they are the keys
      of the recency order from position `n` on. */
  lemma {:induction false} StoreAllKeepsFetched(s: LruState<Document>, capacity: nat, documents: seq<Option<Document>>)
    returns (n: nat)
    requires WellFormed(s, capacity) && capacity > 0 && CountStored(documents) <= capacity
    ensures var t := StoreAll(s, capacity, documents);
      && (forall id :: LastWithId(documents, id).Some? ==> id in t.entries && t.entries[id] == LastWithId(documents, id).value)
      && RecentFrom(t.order, n, FetchedIds(documents))
  {
    if documents == [] {
      n := |s.order|;
    } else {
      var init := documents[..|documents| - 1];
      var m := StoreAllKeepsFetched(s, capacity, init);
      StoreAllWellFormed(s, capacity, init);
      assert documents == init + [documents[|documents| - 1]];
      n := StoreDocumentKeepsFetched(StoreAll(s, capacity, init), capacity, init, documents[|documents| - 1], m);
    }
  }

  /** One step of `StoreAllKeepsFetched`: storing the next document. */
  lemma StoreDocumentKeepsFetched(prev: LruState<Document>, capacity: nat, init: seq<Option<Document>>,
                                  last: Option<Document>, m: nat) returns (n: nat)
    requires WellFormed(prev, capacity) && capacity > 0 && CountStored(init + [last]) <= capacity
    requires forall id :: LastWithId(init, id).Some? ==> id in prev.entries && prev.entries[id] == LastWithId(init, id).value
    requires RecentFrom(prev.order, m, FetchedIds(init))
    ensures var t := StoreDocument(prev, capacity, last);
      && (forall id :: LastWithId(init + [last], id).Some? ==>
            id in t.entries && t.entries[id] == LastWithId(init + [last], id).value)
      && RecentFrom(t.order, n, FetchedIds(init + [last]))
  {
    var documents := init + [last];
    assert documents[..|documents| - 1] == init;
    if !(last.Some? && DocumentId(last.value).Some?) {
      n := m;
    } else {
      var key := DocumentId(last.value).value;
      n := PutKeepsRecentLast(prev, capacity, key, last.value, FetchedIds(init), m);
      assert FetchedIds(init) + {key} == FetchedIds(documents);
      PutStores(prev, capacity, key, last.value);
      forall id | LastWithId(documents, id).Some? && id != key
        ensures id in StoreDocument(prev, capacity, last).entries
        ensures StoreDocument(prev, capacity, last).entries[id] == LastWithId(documents, id).value
      {
        PutEvictsOnlyLeastRecent(prev, capacity, key, last.value, id);
      }
    }
  }

  /** When the cache has room for every stored document, no earlier entry is lost. */
  lemma {:induction false} StoreAllWithinCapacity(s: LruState<Document>, capacity: nat, documents: seq<Option<Document>>)
    requires WellFormed(s, capacity) && capacity > 0
    requires |s.order| + CountStored(documents) <= capacity
    ensures s.entries.Keys <= StoreAll(s, capacity, documents).entries.Keys
  {
    if documents != [] {
      var init := documents[..|documents| - 1];
      var last := documents[|documents| - 1];
      StoreAllWithinCapacity(s, capacity, init);
      StoreAllWellFormed(s, capacity, init);
      var prev := StoreAll(s, capacity, init);
      if last.Some? && DocumentId(last.value).Some? {
        var key := DocumentId(last.value).value;
        assert !Evicts(prev, capacity, key);
        forall k | k in s.entries ensures k in StoreAll(s, capacity, documents).entries {
          if k != key {
            PutEvictsOnlyLeastRecent(prev, capacity, key, last.value, k);
          }
        }
      }
    }
  }

  // ---------------------------------------------------------------------------
  // Substitution callbacks

  /** `sourceDocument._projectId` is truthy: a document of another dataset. */
  predicate IsCrossDataset(sourceDocument: SourceDocument) {
    sourceDocument.projectId.Some? && sourceDocument.projectId.value != ""
  }

  /** The displayed document has an `_id` whose published id is the source document's. */
  predicate LiveDocumentMatches(liveDocument: Option<Document>, sourceDocument: SourceDocument, publishedId: string -> string) {
    liveDocument.Some? && DocumentId(liveDocument.value).Some? &&
    publishedId(DocumentId(liveDocument.value).value) == publishedId(sourceDocument.id)
  }

  /** The document the resolver callback hands back for a source document:
      nothing for another dataset, else the displayed document when its published
      id matches, else the cached one. */
  function ResolveDocument(entries: map<string, Document>, liveDocument: Option<Document>,
                           sourceDocument: SourceDocument, publishedId: string -> string): (r: Option<Document>)
    ensures IsCrossDataset(sourceDocument) ==> r.None?
    ensures !IsCrossDataset(sourceDocument) && LiveDocumentMatches(liveDocument, sourceDocument, publishedId) ==>
      r == liveDocument
    ensures !IsCrossDataset(sourceDocument) && !LiveDocumentMatches(liveDocument, sourceDocument, publishedId) ==>
      r == (if sourceDocument.id in entries then Some(entries[sourceDocument.id]) else None)
    ensures r.Some? ==> r == liveDocument || (sourceDocument.id in entries && r.value == entries[sourceDocument.id])
  {
    if IsCrossDataset(sourceDocument) then None
    else if LiveDocumentMatches(liveDocument, sourceDocument, publishedId) then liveDocument
    else if sourceDocument.id in entries then Some(entries[sourceDocument.id])
    else None
  }

  /** The one-time warning flag: the new flag and whether this call warns. */
  function WarnStep(warned: bool, sourceDocument: SourceDocument): (bool, bool) {
    if IsCrossDataset(sourceDocument) && !warned then (true, true) else (warned, false)
  }

  /** How many warnings a run of resolutions logs, starting from flag `warned`. */
  function Warnings(warned: bool, sourceDocuments: seq<SourceDocument>): nat
    decreases sourceDocuments
  {
    if sourceDocuments == [] then 0
    else
      var step := WarnStep(warned, sourceDocuments[0]);
      (if step.1 then 1 else 0) + Warnings(step.0, sourceDocuments[1..])
  }

  /** Across any number of resolutions at most one warning is logged, and one is
      logged exactly when none was before and some document is of another dataset. */
  lemma {:induction false} WarnsAtMostOnce(warned: bool, sourceDocuments: seq<SourceDocument>)
    ensures Warnings(warned, sourceDocuments) <= 1
    ensures Warnings(warned, sourceDocuments) == 1 <==>
      !warned && exists i :: 0 <= i < |sourceDocuments| && IsCrossDataset(sourceDocuments[i])
    ensures warned ==> Warnings(warned, sourceDocuments) == 0
    decreases sourceDocuments
  {
    if sourceDocuments != [] {
      var step := WarnStep(warned, sourceDocuments[0]);
      WarnsAtMostOnce(step.0, sourceDocuments[1..]);
      if exists i :: 0 <= i < |sourceDocuments| && IsCrossDataset(sourceDocuments[i]) {
        var i :| 0 <= i < |sourceDocuments| && IsCrossDataset(sourceDocuments[i]);
        if i > 0 {
          assert sourceDocuments[1..][i - 1] == sourceDocuments[i];
        }
      }
      if exists i :: 0 <= i < |sourceDocuments[1..]| && IsCrossDataset(sourceDocuments[1..][i]) {
        var i :| 0 <= i < |sourceDocuments[1..]| && IsCrossDataset(sourceDocuments[1..][i]);
        assert sourceDocuments[i + 1] == sourceDocuments[1..][i];
      }
    }
  }

  /** The value-mapper callback: a number replacing a string becomes its canonical
      string form; every other changed value passes through. */
  function MapChangedValue(changedValue: Json, previousValue: Json): (r: Json)
    ensures changedValue.Num? && previousValue.Str? ==>
      r.Str? && IsCanonicalInt(r.s) && ParseInt(r.s) == Some(changedValue.n)
    ensures !(changedValue.Num? && previousValue.Str?) ==> r == changedValue
  {
    if changedValue.Num? && previousValue.Str? then
      IntToStringRoundTrip(changedValue.n);
      Str(IntToString(changedValue.n))
    else changedValue
  }

  // ---------------------------------------------------------------------------
  // Substitution pass and its gating

  /** `applySourceDocuments(result, sourceMap, resolve, mapValue, perspective)`, a
      function of the client library the loader is given. */
  type ApplySourceDocuments = (Json, Option<SourceMap>, SourceDocument -> Option<Document>, (Json, Json) -> Json, Perspective) -> Json

  /** The resolver callback over the cache's entries and the displayed document. */
  function Resolver(entries: map<string, Document>, liveDocument: Option<Document>, publishedId: string -> string): (resolve: SourceDocument -> Option<Document>)
    ensures forall sourceDocument :: resolve(sourceDocument) == ResolveDocument(entries, liveDocument, sourceDocument, publishedId)
  {
    sourceDocument => ResolveDocument(entries, liveDocument, sourceDocument, publishedId)
  }

  /** `turboChargeResultIfSourceMap(cache, liveDocument, result, perspective, resultSourceMap)`:
      the raw perspective is refused; otherwise the source documents are applied
      with the resolver over the cache and the displayed document, and the value mapper. */
  function TurboChargeResultIfSourceMap(entries: map<string, Document>, liveDocument: Option<Document>, publishedId: string -> string,
                                        result: Json, perspective: Perspective, resultSourceMap: Option<SourceMap>,
                                        applySourceDocuments: ApplySourceDocuments): (r: Result<Json, string>)
    ensures r.Failure? <==> perspective == Raw
    ensures r.Success? ==>
      r.value == applySourceDocuments(result, resultSourceMap, Resolver(entries, liveDocument, publishedId), MapChangedValue, perspective)
  {
    if perspective == Raw then Failure("turboChargeResultIfSourceMap does not support raw perspective")
    else Success(applySourceDocuments(result, resultSourceMap, Resolver(entries, liveDocument, publishedId), MapChangedValue, perspective))
  }

  /** A query's last fetched result and its source map. */
  datatype Snapshot = Snapshot(result: Json, resultSourceMap: Option<SourceMap>)

  /** True when the memo substitutes: the cache has changed at least once and the snapshot has a source map. */
  predicate ShouldTurboCharge(documentsCacheLastUpdated: nat, snapshot: Option<Snapshot>) {
    documentsCacheLastUpdated != 0 && snapshot.Some? && snapshot.value.resultSourceMap.Some?
  }

  /** The query subscription's memo: the snapshot as fetched, or with its result
      turbo-charged over the cache once the cache has changed and a source map is present. */
  function QuerySnapshot(documentsCacheLastUpdated: nat, snapshot: Option<Snapshot>, entries: map<string, Document>,
                         liveDocument: Option<Document>, publishedId: string -> string, perspective: Perspective,
                         applySourceDocuments: ApplySourceDocuments): (r: Result<Option<Snapshot>, string>)
    ensures !ShouldTurboCharge(documentsCacheLastUpdated, snapshot) ==> r == Success(snapshot)
    ensures ShouldTurboCharge(documentsCacheLastUpdated, snapshot) ==>
      && (r.Failure? <==> perspective == Raw)
      && (r.Success? ==> r.value == Some(Snapshot(
            applySourceDocuments(snapshot.value.result, snapshot.value.resultSourceMap,
                                 Resolver(entries, liveDocument, publishedId), MapChangedValue, perspective),
            snapshot.value.resultSourceMap)))
  {
    if ShouldTurboCharge(documentsCacheLastUpdated, snapshot) then
      match TurboChargeResultIfSourceMap(entries, liveDocument, publishedId, snapshot.value.result, perspective,
                                         snapshot.value.resultSourceMap, applySourceDocuments)
      case Success(result) => Success(Some(Snapshot(result, snapshot.value.resultSourceMap)))
      case Failure(e) => Failure(e)
    else Success(snapshot)
  }

  // ---------------------------------------------------------------------------
  // The loader's state

  /** The state the loader's components share: the document cache, the batch
      list, the cache's last-updated counter, and the cross-dataset warning flag. */
  class LiveLoader {
    const cache: LruCache<Document>
    const batchSize: nat
    var batch: seq<seq<string>>
    var cacheLastUpdated: nat
    var warnedAboutCrossDatasetReference: bool

    ghost predicate Valid()
      reads this, cache
    {
      cache.Valid() && |batch| <= batchSize + 1
    }

    constructor (cacheSize: nat, batchSize: nat)
      requires cacheSize > 0
      ensures Valid() && fresh(cache)
      ensures cache.capacity == cacheSize && cache.State() == LruState(map[], [])
      ensures this.batchSize == batchSize && batch == [] && cacheLastUpdated == 0
      ensures !warnedAboutCrossDatasetReference
    {
      cache := new LruCache(cacheSize);
      this.batchSize := batchSize;
      batch := [];
      cacheLastUpdated := 0;
      warnedAboutCrossDatasetReference := false;
    }

    /** The first half of the batch effect: the turbo ids that are in no batch
        and not cached (`has`, which does not promote), each once, in order. */
    method PendingIds(turboIds: seq<string>) returns (nextBatch: seq<string>)
      requires Valid()
      ensures nextBatch == Pending(turboIds, Flatten(batch), cache.entries.Keys)
      ensures NoDuplicates(nextBatch)
      ensures forall id :: id in nextBatch <==> id in turboIds && id !in Flatten(batch) && !cache.Has(id)
    {
      var batchSet := Flatten(batch);
      ghost var cached := cache.entries.Keys;
      ghost var keep := Unscheduled(batchSet, cached);
      nextBatch := [];
      for i := 0 to |turboIds|
        invariant nextBatch == Pending(turboIds[..i], batchSet, cached)
      {
        var turboId := turboIds[i];
        assert turboIds[..i + 1] == turboIds[..i] + [turboId];
        ghost var f := Filter(turboIds[..i], keep);
        FilterAppend(turboIds[..i], [turboId], keep);
        assert [turboId][1..] == [];
        if keep(turboId) {
          assert Filter(turboIds[..i + 1], keep) == f + [turboId];
          assert (f + [turboId])[..|f|] == f;
        } else {
          assert Filter(turboIds[..i + 1], keep) == f;
        }
        if turboId !in batchSet && !cache.Has(turboId) {
          if turboId !in nextBatch {
            nextBatch := nextBatch + [turboId];
          }
        }
      }
      assert turboIds[..|turboIds|] == turboIds;
      DistinctElements(Filter(turboIds, keep));
      DistinctNoDuplicates(Filter(turboIds, keep));
    }

    /** The batch effect: append the new batch to a window of the earlier ones,
        or leave the batch list alone when nothing is pending. */
    method ScheduleBatch(turboIds: seq<string>)
      requires Valid()
      modifies this`batch
      ensures Valid()
      ensures batch == NextBatches(old(batch), turboIds, cache.entries.Keys, batchSize)
    {
      BatchWindow(batch, turboIds, cache.entries.Keys, batchSize);
      var nextBatch := PendingIds(turboIds);
      var nextBatchSlice := nextBatch[..Min(batchSize, |nextBatch|)];
      if |nextBatchSlice| == 0 {
        return;
      }
      batch := TakeLast(batch, batchSize) + [nextBatchSlice];
    }

    /** The listener's handler for one event. */
    method OnListenEvent(event: ListenEvent, applyPatch: ApplyPatch)
      requires Valid()
      modifies this`cacheLastUpdated, cache
      ensures Valid()
      ensures (cache.State(), cacheLastUpdated) ==
        Reconcile(old(cache.State()), cache.capacity, old(cacheLastUpdated), event, applyPatch)
    {
      if event.Mutation? && event.transition == Disappear {
        var removed := cache.Delete(event.documentId);
        if removed {
          cacheLastUpdated := cacheLastUpdated + 1;
        }
      }
      if !HasEffects(event) {
        return;
      }
      var cachedDocument := cache.Peek(event.documentId);
      if cachedDocument.Some? {
        var patchDoc := cachedDocument.value - {"_rev"};
        var patchedDocument := applyPatch(patchDoc, event.effects.value);
        if patchedDocument.Some? {
          cache.Set(event.documentId, patchedDocument.value);
          cacheLastUpdated := cacheLastUpdated + 1;
        }
      }
    }

    /** The first half of `GetDocuments`' effect: the ids of the batch that are
        not cached, or no request at all when every one of them is. */
    method MissingIds(ids: seq<string>) returns (request: Option<seq<string>>)
      requires Valid()
      ensures request.None? <==> forall id :: id in ids ==> cache.Has(id)
      ensures request.Some? ==> forall id :: id in request.value <==> id in ids && !cache.Has(id)
      ensures var cached := cache.entries.Keys; request.Some? ==> request.value == Filter(ids, id => id !in cached)
    {
      var cached := cache.entries.Keys;
      var missingIds := Filter(ids, id => id !in cached);
      if |missingIds| == 0 {
        return None;
      }
      assert missingIds[0] in missingIds;
      return Some(missingIds);
    }

    /** The completion of `GetDocuments`' fetch: each returned document with an
        `_id` is stored under that id, and each store advances the counter. */
    method ReceiveDocuments(documents: seq<Option<Document>>)
      requires Valid()
      modifies this`cacheLastUpdated, cache
      ensures Valid()
      ensures cache.State() == StoreAll(old(cache.State()), cache.capacity, documents)
      ensures cacheLastUpdated == old(cacheLastUpdated) + CountStored(documents)
    {
      for i := 0 to |documents|
        invariant Valid()
        invariant cache.State() == StoreAll(old(cache.State()), cache.capacity, documents[..i])
        invariant cacheLastUpdated == old(cacheLastUpdated) + CountStored(documents[..i])
      {
        var doc := documents[i];
        assert documents[..i + 1][..i] == documents[..i];
        if doc.Some? && DocumentId(doc.value).Some? {
          cache.Set(DocumentId(doc.value).value, doc.value);
          cacheLastUpdated := cacheLastUpdated + 1;
        }
      }
      assert documents[..|documents|] == documents;
    }

    /** The resolver callback as the loader runs it: it may log the cross-dataset
        warning once, and reading the cache with `get` promotes the document. */
    method ResolveSourceDocument(sourceDocument: SourceDocument, liveDocument: Option<Document>, publishedId: string -> string)
      returns (document: Option<Document>, warning: bool)
      requires Valid()
      modifies this`warnedAboutCrossDatasetReference, cache
      ensures Valid()
      ensures document == ResolveDocument(old(cache.entries), liveDocument, sourceDocument, publishedId)
      ensures (warnedAboutCrossDatasetReference, warning) == WarnStep(old(warnedAboutCrossDatasetReference), sourceDocument)
      ensures cache.State() ==
        if IsCrossDataset(sourceDocument) || LiveDocumentMatches(liveDocument, sourceDocument, publishedId)
        then old(cache.State()) else GetState(old(cache.State()), sourceDocument.id).0
    {
      warning := false;
      if sourceDocument.projectId.Some? && sourceDocument.projectId.value != "" {
        if !warnedAboutCrossDatasetReference {
          warning := true;
          warnedAboutCrossDatasetReference := true;
        }
        return None, warning;
      }
      if liveDocument.Some? && DocumentId(liveDocument.value).Some? &&
         publishedId(DocumentId(liveDocument.value).value) == publishedId(sourceDocument.id) {
        return liveDocument, warning;
      }
      document := cache.Get(sourceDocument.id);
    }
  }

  // ---------------------------------------------------------------------------
  // End to end

  /** The memo's substitution pass, with its resolver over `entries`. */
  function Substituted(snapshot: Snapshot, entries: map<string, Document>, liveDocument: Option<Document>,
                       publishedId: string -> string, perspective: Perspective, applySourceDocuments: ApplySourceDocuments): Snapshot
  {
    Snapshot(applySourceDocuments(snapshot.result, snapshot.resultSourceMap, Resolver(entries, liveDocument, publishedId),
                                  MapChangedValue, perspective),
             snapshot.resultSourceMap)
  }

  /** Fetching a document into an empty cache switches the substitution pass on,
      and the resolver the pass is given hands back the fetched document. */
  lemma FetchThenResolve(capacity: nat, doc: Document, sourceDocument: SourceDocument, publishedId: string -> string,
                         snapshot: Snapshot, perspective: Perspective, applySourceDocuments: ApplySourceDocuments)
    requires capacity > 0
    requires DocumentId(doc) == Some(sourceDocument.id) && !IsCrossDataset(sourceDocument)
    requires snapshot.resultSourceMap.Some? && perspective != Raw
    ensures var stored := StoreAll(LruState(map[], []), capacity, [Some(doc)]);
      && Resolver(stored.entries, None, publishedId)(sourceDocument) == Some(doc)
      && QuerySnapshot(0 + CountStored([Some(doc)]), Some(snapshot), stored.entries, None, publishedId, perspective, applySourceDocuments)
         == Success(Some(Substituted(snapshot, stored.entries, None, publishedId, perspective, applySourceDocuments)))
  {
    var empty: seq<Option<Document>> := [];
    assert [Some(doc)][..0] == empty;
  }

  /** After a patch to a cached document the counter is non-zero, so the memo
      runs the substitution pass, and its resolver hands back the patched document. */
  lemma PatchThenResolve(s: LruState<Document>, capacity: nat, lastUpdated: nat, sourceDocument: SourceDocument,
                         patch: Patch, applyPatch: ApplyPatch, publishedId: string -> string,
                         snapshot: Snapshot, perspective: Perspective, applySourceDocuments: ApplySourceDocuments)
    requires WellFormed(s, capacity) && capacity > 0
    requires sourceDocument.id in s.entries && !IsCrossDataset(sourceDocument) && |patch| > 0
    requires applyPatch(s.entries[sourceDocument.id] - {"_rev"}, patch).Some?
    requires snapshot.resultSourceMap.Some? && perspective != Raw
    ensures var r := Reconcile(s, capacity, lastUpdated, Mutation(sourceDocument.id, Update, Some(patch)), applyPatch);
      && Resolver(r.0.entries, None, publishedId)(sourceDocument) ==
           applyPatch(s.entries[sourceDocument.id] - {"_rev"}, patch)
      && QuerySnapshot(r.1, Some(snapshot), r.0.entries, None, publishedId, perspective, applySourceDocuments)
         == Success(Some(Substituted(snapshot, r.0.entries, None, publishedId, perspective, applySourceDocuments)))
  {
    ReconcilePatch(s, capacity, lastUpdated, sourceDocument.id, Update, patch, applyPatch);
  }
}
