/** EXPORT: which rows exist only in the live file, and the bundle they are copied into. */
module Drain {
  import opened Options
  import opened BrollIndex
  import opened Cursors

  /** `keys` names every video of the source file; the other tables hold the drained rows.
      A table the source lacks is an empty one here: the merge treats the two alike. */
  datatype Bundle = Bundle(
    keys: map<Id, Key>,
    videos: map<Id, Video>,
    children: PerChild<map<Id, Child>>,
    embeddings: map<Source, Embedding>,
    roots: map<string, Root>,
    batches: map<string, Batch>,
    items: map<string, Item>)

  datatype DrainAnswer = NoLive | PredatesIngest | Taken(bundle: Bundle)

  function ItemVideos(db: Db): set<Id> {
    set u | u in db.items && db.items[u].video.Some? :: db.items[u].video.value
  }

  function BatchShares(db: Db): set<string> {
    set u | u in db.batches :: db.batches[u].share
  }

  function ShareVideos(db: Db): set<Id> {
    set id | id in db.videos.at && db.videos.at[id].key.share in BatchShares(db)
  }

  function DrainIds(db: Db): set<Id> {
    ItemVideos(db) + ShareVideos(db)
  }

  function ChildrenOf(rows: Rows<Child>, ids: set<Id>): map<Id, Child> {
    map c | c in rows.at && rows.at[c].video in ids :: rows.at[c]
  }

  function CopyOut(db: Db, ids: set<Id>): Bundle {
    Bundle(
      map id | id in db.videos.at :: db.videos.at[id].key,
      map id | id in db.videos.at && id in ids :: db.videos.at[id],
      PerChild(ChildrenOf(db.children.segments, ids), ChildrenOf(db.children.transcripts, ids),
               ChildrenOf(db.children.themes, ids), ChildrenOf(db.children.flags, ids)),
      map s | s in db.embeddings && db.embeddings[s].video in ids :: db.embeddings[s],
      map s | s in db.roots && (s in BatchShares(db) || db.roots[s].collection.Some?) :: db.roots[s],
      db.batches,
      db.items)
  }

  function ExportOf(db: Db): Bundle {
    CopyOut(db, DrainIds(db))
  }

  /** First source: every clip an item still points at. */
  method CollectItemVideos(db: Db) returns (ids: set<Id>)
    ensures ids == ItemVideos(db)
  {
    ids := {};
    var items := db.items.Keys;
    while items != {}
      invariant items <= db.items.Keys
      invariant ids == set u | u in db.items.Keys - items && db.items[u].video.Some? :: db.items[u].video.value
      decreases |items|
    {
      var u := Next(items);
      items := items - {u};
      if db.items[u].video.Some? {
        ids := ids + {db.items[u].video.value};
      }
    }
  }

  /** Second source: every clip of a share some batch archived into. */
  method CollectShareVideos(db: Db) returns (ids: set<Id>)
    ensures ids == ShareVideos(db)
  {
    ids := {};
    var rest := db.videos.at.Keys;
    while rest != {}
      invariant rest <= db.videos.at.Keys
      invariant ids == ShareVideos(db) - rest
      decreases |rest|
    {
      var id := Next(rest);
      rest := rest - {id};
      if db.videos.at[id].key.share in BatchShares(db) {
        ids := ids + {id};
      }
    }
  }

  /** The two cursors that collect the ids, then the copies. */
  method TakeDrain(live: Option<Db>) returns (answer: DrainAnswer)
    ensures answer == if live.None? then NoLive
                      else if BatchT !in live.value.schema || ItemT !in live.value.schema then PredatesIngest
                      else Taken(ExportOf(live.value))
  {
    if live.None? {
      return NoLive;
    }
    var db := live.value;
    if !db.HasIngest() {
      return PredatesIngest;
    }
    var pointed := CollectItemVideos(db);
    var shared := CollectShareVideos(db);
    var ids := pointed + shared;
    answer := Taken(CopyOut(db, ids));
  }

  ghost predicate KeysInjective(keys: map<Id, Key>) {
    forall i, j :: i in keys && j in keys && keys[i] == keys[j] ==> i == j
  }

  ghost predicate KeysCovered(b: Bundle) {
    && KeysInjective(b.keys)
    && (forall id :: id in b.videos ==> id in b.keys && b.keys[id] == b.videos[id].key)
  }

  ghost predicate DuplicateNamed(b: Bundle, id: Id) {
    id in b.videos ==> Refers(b.videos[id].dup, b.keys.Keys)
  }

  ghost predicate BundleEmbeddingsHold(b: Bundle) {
    forall s :: s in b.embeddings ==>
      && s.child in b.children.At(TableOf(s.kind))
      && b.children.At(TableOf(s.kind))[s.child].video == b.embeddings[s].video
  }

  /** What every bundle the export writes satisfies. */
  ghost predicate Coherent(b: Bundle) {
    && KeysCovered(b)
    && (forall id :: DuplicateNamed(b, id))
    && (forall t: ChildTable, c :: c in b.children.At(t) ==> b.children.At(t)[c].video in b.videos)
    && BundleEmbeddingsHold(b)
    && (forall u :: u in b.items ==>
          && b.items[u].batch in b.batches
          && Refers(b.items[u].video, b.videos.Keys)
          && Refers(b.items[u].dup, b.keys.Keys))
  }

  lemma DrainedItemsPointInside(db: Db, u: string)
    requires ItemsHold(db.items, db.batches.Keys, db.videos.at.Keys) && u in db.items
    ensures Refers(db.items[u].video, ExportOf(db).videos.Keys)
    ensures Refers(db.items[u].dup, ExportOf(db).keys.Keys)
  {
    if db.items[u].video.Some? {
      assert db.items[u].video.value in ItemVideos(db);
    }
  }

  lemma DrainedChildrenBelong(db: Db, t: ChildTable)
    requires ChildrenHold(db.children.At(t), db.videos.at.Keys)
    ensures ExportOf(db).children.At(t) == ChildrenOf(db.children.At(t), DrainIds(db))
    ensures forall c :: c in ExportOf(db).children.At(t) ==> ExportOf(db).children.At(t)[c].video in ExportOf(db).videos
  {
  }

  lemma DrainedVectorsBelong(db: Db)
    requires EmbeddingsHold(db.embeddings, db.children)
    ensures BundleEmbeddingsHold(ExportOf(db))
  {
    var b := ExportOf(db);
    forall s | s in b.embeddings
      ensures s.child in b.children.At(TableOf(s.kind))
      ensures b.children.At(TableOf(s.kind))[s.child].video == b.embeddings[s].video
    {
      assert b.children.At(TableOf(s.kind)) == ChildrenOf(db.children.At(TableOf(s.kind)), DrainIds(db));
    }
  }

  // ---- the bundle, from the rows alone ----

  /** A clip exists only in the live file when an item points at it or a batch archived into its share: the
      bundle has exactly those, as they are, and the key of every clip. */
  lemma ExportHoldsExactly(db: Db, id: Id)
    ensures id in ExportOf(db).videos <==>
            && id in db.videos.at
            && (|| (exists u :: u in db.items && db.items[u].video == Some(id))
                || (exists u :: u in db.batches && db.batches[u].share == db.videos.at[id].key.share))
    ensures id in ExportOf(db).videos ==> ExportOf(db).videos[id] == db.videos.at[id]
    ensures id in ExportOf(db).keys <==> id in db.videos.at
    ensures id in ExportOf(db).keys ==> ExportOf(db).keys[id] == db.videos.at[id].key
  {
    if u :| u in db.items && db.items[u].video == Some(id) {
      assert db.items[u].video.value in ItemVideos(db);
    }
    if id in db.videos.at {
      if u :| u in db.batches && db.batches[u].share == db.videos.at[id].key.share {
        assert db.batches[u].share in BatchShares(db);
      }
    }
  }

  /** Of each table that hangs off the clips: exactly the rows of the clips in the bundle. */
  ghost predicate RowsOf(rows: Rows<Child>, videos: map<Id, Video>, taken: map<Id, Child>) {
    && (forall c :: c in taken <==> c in rows.at && rows.at[c].video in videos)
    && (forall c :: c in taken ==> taken[c] == rows.at[c])
  }

  lemma ExportedChildrenExactly(db: Db)
    requires Valid(db)
    ensures var b := ExportOf(db);
            && RowsOf(db.children.segments, b.videos, b.children.segments)
            && RowsOf(db.children.transcripts, b.videos, b.children.transcripts)
            && RowsOf(db.children.themes, b.videos, b.children.themes)
            && RowsOf(db.children.flags, b.videos, b.children.flags)
  {
    TakenRows(db, Segments);
    TakenRows(db, Transcripts);
    TakenRows(db, Themes);
    TakenRows(db, Flags);
  }

  lemma TakenRows(db: Db, t: ChildTable)
    requires ChildrenHold(db.children.At(t), db.videos.at.Keys)
    ensures RowsOf(db.children.At(t), ExportOf(db).videos, ExportOf(db).children.At(t))
  {
    DrainedChildrenBelong(db, t);
  }

  /** The vectors of the clips in the bundle, the roots of the shares archived into or filed under a
      collection, and both ledgers whole. */
  lemma ExportedRestExactly(db: Db)
    requires Valid(db)
    ensures var b := ExportOf(db);
            && (forall s :: s in b.embeddings <==> s in db.embeddings && db.embeddings[s].video in b.videos)
            && (forall s :: s in b.embeddings ==> b.embeddings[s] == db.embeddings[s])
            && b.batches == db.batches && b.items == db.items
    ensures forall s :: s in ExportOf(db).roots <==>
              && s in db.roots
              && (db.roots[s].collection.Some? || exists u :: u in db.batches && db.batches[u].share == s)
    ensures forall s :: s in ExportOf(db).roots ==> ExportOf(db).roots[s] == db.roots[s]
  {
    forall s | s in db.embeddings
      ensures db.embeddings[s].video in db.videos.at
    {
      assert db.children.At(TableOf(s.kind)).at[s.child].video == db.embeddings[s].video;
    }
  }

  /** The drain is closed over every pointer that matters: a drained item's clip is drained,
      a drained row's clip is drained, a drained vector's own row is drained. */
  lemma ExportIsCoherent(db: Db)
    requires Valid(db)
    ensures Coherent(ExportOf(db))
  {
    var b := ExportOf(db);
    forall id
      ensures DuplicateNamed(b, id)
    {
      assert DuplicateHolds(db.videos, id);
    }
    forall u | u in b.items
      ensures Refers(b.items[u].video, b.videos.Keys) && Refers(b.items[u].dup, b.keys.Keys)
    {
      DrainedItemsPointInside(db, u);
    }
    forall t: ChildTable, c | c in b.children.At(t)
      ensures b.children.At(t)[c].video in b.videos
    {
      DrainedChildrenBelong(db, t);
    }
    DrainedVectorsBelong(db);
  }
}
