/** The promises of the drain: what was in the live file before the swap, followed through
    export, an arbitrary replacement, and any number of merge attempts. */
module Conservation {
  import opened Options
  import opened BrollIndex
  import opened Drain
  import opened MergeSpec
  import opened MergeTheorems

  /** Two pointers, each read in its own file, name the same clip. */
  ghost predicate SameClip(before: Videos, ref: Option<Id>, after: Videos, ref': Option<Id>) {
    && ref.Some? == ref'.Some?
    && (ref.Some? ==>
          && ref.value in before.at && ref'.value in after.at
          && before.at[ref.value].key == after.at[ref'.value].key)
  }

  /** The same, except that a clip the new file does not have is NULL. */
  ghost predicate SameClipOrGone(before: Videos, ref: Option<Id>, after: Videos, ref': Option<Id>) {
    if ref.Some? && ref.value in before.at && before.at[ref.value].key in after.index
    then SameClip(before, ref, after, ref')
    else ref' == None
  }

  lemma ResolvedTarget(live0: Db, live1: Db, m: IdMap, cmaps: PerChild<IdMap>, live2: Db, ref: Option<Id>)
    requires Valid(live0) && Indexed(live1.videos) && Merged(live1, ExportOf(live0), m, cmaps, live2)
    requires Refers(ref, live0.videos.at.Keys)
    ensures SameClipOrGone(live0.videos, ref, live2.videos, Target(m.to, ref))
    ensures ref.Some? && ref.value in DrainIds(live0) ==> SameClip(live0.videos, ref, live2.videos, Target(m.to, ref))
  {
    if ref.Some? {
      var b, defaults := ExportOf(live0), DefaultsIn(live1.schema, VideoT);
      ExportIsCoherent(live0);
      MapIsComplete(live1.videos, b, defaults, m, live2.videos, ref.value);
      if ref.value in m.to {
        MapKeepsKeys(live1.videos, b, defaults, m, live2.videos, ref.value);
      } else {
        assert ref.value !in b.videos;
      }
    }
  }

  /** A clip that an item points at, or that lies on a share some batch archived into. */
  ghost predicate Drained(db: Db, id: Id) {
    && id in db.videos.at
    && (|| (exists u :: u in db.items && db.items[u].video == Some(id))
        || (exists u :: u in db.batches && db.batches[u].share == db.videos.at[id].key.share))
  }

  /** Some row of the file has this (share, rel_path). */
  ghost predicate Published(db: Db, key: Key) {
    exists j :: j in db.videos.at && db.videos.at[j].key == key
  }

  /** The columns of a row carried into a table: exactly the table's; the old value where both have the
      column, the table's default where only the table does. */
  ghost predicate Landed(before: Cols, table: Cols, after: Cols) {
    && (forall c :: c in after <==> c in table)
    && (forall c :: c in before && c in table ==> after[c] == before[c])
    && (forall c :: c !in before && c in table ==> after[c] == table[c])
  }

  lemma ConformLands(before: Cols, table: Cols)
    ensures Landed(before, table, Conform(before, table))
  {
  }

  /** Inserted is what was drained and has no row of its key in the published file. */
  lemma InsertedMeans(live0: Db, live1: Db, id: Id)
    requires Valid(live0) && Indexed(live1.videos)
    ensures id in Missing(live1.videos, ExportOf(live0)) <==>
            Drained(live0, id) && !Published(live1, live0.videos.at[id].key)
  {
    ExportHoldsExactly(live0, id);
    if id in live0.videos.at && live0.videos.at[id].key in live1.videos.index {
      assert live1.videos.index[live0.videos.at[id].key] in live1.videos.at;
    }
  }

  /** Every drained clip is in the merged file, under its own (share, rel_path). */
  lemma DrainedClipsSurvive(live0: Db, live1: Db, m: IdMap, cmaps: PerChild<IdMap>, live2: Db, id: Id)
    requires Valid(live0) && Indexed(live1.videos) && Merged(live1, ExportOf(live0), m, cmaps, live2)
    requires Drained(live0, id)
    ensures id in m.to && m.to[id] in live2.videos.at && live2.videos.at[m.to[id]].key == live0.videos.at[id].key
  {
    ExportIsCoherent(live0);
    ExportHoldsExactly(live0, id);
    MapKeepsKeys(live1.videos, ExportOf(live0), DefaultsIn(live1.schema, VideoT), m, live2.videos, id);
  }

  /** A drained clip the published file lacks lands under a new id with its own columns; one it has keeps
      the published row. */
  lemma DrainedClipsLand(live0: Db, live1: Db, m: IdMap, cmaps: PerChild<IdMap>, live2: Db, id: Id)
    requires Valid(live0) && Valid(live1) && Merged(live1, ExportOf(live0), m, cmaps, live2)
    requires Drained(live0, id)
    ensures id in m.to && m.to[id] in live2.videos.at
    ensures m.to[id] in live1.videos.at <==> Published(live1, live0.videos.at[id].key)
    ensures if m.to[id] in live1.videos.at then live2.videos.at[m.to[id]] == live1.videos.at[m.to[id]]
            else Landed(live0.videos.at[id].cols, live1.schema[VideoT], live2.videos.at[m.to[id]].cols)
  {
    InsertedMeans(live0, live1, id);
    DrainedClipsSurvive(live0, live1, m, cmaps, live2, id);
    if id in Missing(live1.videos, ExportOf(live0)) {
      ExportHoldsExactly(live0, id);
      assert LandedAs(ExportOf(live0), live1.schema[VideoT], m.to, live2.videos.at, id);
      ConformLands(live0.videos.at[id].cols, live1.schema[VideoT]);
    } else {
      ExportHoldsExactly(live0, id);
      assert id in Matched(live1.videos, ExportOf(live0));
      assert MatchedAs(live1.videos, ExportOf(live0), m.to, id);
    }
  }

  /** Every batch and item is there afterwards, and an item's clip is the clip it had: an item
      pointer is never nulled, because the drain carried the clip it names. */
  lemma LedgerSurvives(live0: Db, live1: Db, m: IdMap, cmaps: PerChild<IdMap>, live2: Db, u: string)
    requires Valid(live0) && Indexed(live1.videos) && Merged(live1, ExportOf(live0), m, cmaps, live2)
    requires BatchT in live1.schema && ItemT in live1.schema && u in live0.items
    ensures u in live2.items
    ensures live2.items[u].batch == live0.items[u].batch && live0.items[u].batch in live2.batches
    ensures Landed(live0.items[u].cols, live1.schema[ItemT], live2.items[u].cols)
    ensures SameClip(live0.videos, live0.items[u].video, live2.videos, live2.items[u].video)
    ensures SameClipOrGone(live0.videos, live0.items[u].dup, live2.videos, live2.items[u].dup)
  {
    ResolvedTarget(live0, live1, m, cmaps, live2, live0.items[u].video);
    ResolvedTarget(live0, live1, m, cmaps, live2, live0.items[u].dup);
    hide VideosMerged, AllChildrenMerged, VectorsMerged, Indexed;
    assert live0.items[u].video.Some? ==> live0.items[u].video.value in ItemVideos(live0);
    ConformLands(live0.items[u].cols, live1.schema[ItemT]);
  }

  /** The ledgers afterwards, row by row: the old file's batches and items with their columns, and of the
      published ones those whose uid the old file did not have, as they were. */
  lemma LedgersHoldExactly(live0: Db, live1: Db, m: IdMap, cmaps: PerChild<IdMap>, live2: Db)
    requires Merged(live1, ExportOf(live0), m, cmaps, live2) && BatchT in live1.schema && ItemT in live1.schema
    ensures forall u :: u in live2.batches <==> u in live0.batches || u in live1.batches
    ensures forall u :: u in live0.batches ==>
              && live2.batches[u].share == live0.batches[u].share
              && Landed(live0.batches[u].cols, live1.schema[BatchT], live2.batches[u].cols)
    ensures forall u :: u in live1.batches && u !in live0.batches ==> live2.batches[u] == live1.batches[u]
    ensures forall u :: u in live2.items <==> u in live0.items || u in live1.items
    ensures forall u :: u in live1.items && u !in live0.items ==> live2.items[u] == live1.items[u]
  {
    hide VideosMerged, AllChildrenMerged, VectorsMerged;
    forall u | u in live0.batches
      ensures Landed(live0.batches[u].cols, live1.schema[BatchT], live2.batches[u].cols)
    {
      ConformLands(live0.batches[u].cols, live1.schema[BatchT]);
    }
  }

  /** The search generation moves by one exactly when a clip is inserted and the file keeps one. */
  lemma GenerationCountsMerges(live0: Db, live1: Db, m: IdMap, cmaps: PerChild<IdMap>, live2: Db)
    requires Valid(live0) && Indexed(live1.videos) && Merged(live1, ExportOf(live0), m, cmaps, live2)
    ensures live2.generation ==
            if MetaT in live1.schema && exists id :: Drained(live0, id) && !Published(live1, live0.videos.at[id].key)
            then Some(if live1.generation == None then 1 else live1.generation.value + 1)
            else live1.generation
  {
    hide VideosMerged, AllChildrenMerged, VectorsMerged, LedgersMerged, Missing, Published;
    forall id
      ensures id in Missing(live1.videos, ExportOf(live0)) <==>
              Drained(live0, id) && !Published(live1, live0.videos.at[id].key)
    {
      InsertedMeans(live0, live1, id);
    }
  }

  /** The exact condition: a published file that predates the ingest tables takes no ledger at
      all, and the merge still commits. */
  lemma LedgerSurvivesExactlyWhenThereIsOne(live0: Db, live1: Db, m: IdMap, cmaps: PerChild<IdMap>, live2: Db)
    requires AbsentEmpty(live1) && Merged(live1, ExportOf(live0), m, cmaps, live2)
    ensures live0.items.Keys <= live2.items.Keys <==> ItemT in live1.schema || live0.items == map[]
    ensures live0.batches.Keys <= live2.batches.Keys <==> BatchT in live1.schema || live0.batches == map[]
  {
    hide VideosMerged, AllChildrenMerged, VectorsMerged;
    if ItemT !in live1.schema && live0.items != map[] {
      var u :| u in live0.items;
      assert u !in live2.items;
    }
    if BatchT !in live1.schema && live0.batches != map[] {
      var u :| u in live0.batches;
      assert u !in live2.batches;
    }
  }

  /** A share that was archived into has a root afterwards exactly when the published file has a table for
      one; without a root its clips lead to no original. The published root wins where there is one. So for
      every share filed under a collection. */
  lemma ArchivedSharesKeepARoot(live0: Db, live1: Db, m: IdMap, cmaps: PerChild<IdMap>, live2: Db, share: string)
    requires AbsentEmpty(live1) && Merged(live1, ExportOf(live0), m, cmaps, live2) && share in live0.roots
    requires live0.roots[share].collection.Some? || exists u :: u in live0.batches && live0.batches[u].share == share
    ensures share in live2.roots <==> RootT in live1.schema
    ensures share in live2.roots ==>
              if share in live1.roots then live2.roots[share] == live1.roots[share]
              else
                && live2.roots[share].collection == live0.roots[share].collection
                && Landed(live0.roots[share].cols, live1.schema[RootT], live2.roots[share].cols)
  {
    hide VideosMerged, AllChildrenMerged, VectorsMerged;
    assert share in ExportOf(live0).roots;
    if RootT in live1.schema {
      ConformLands(live0.roots[share].cols, live1.schema[RootT]);
    }
  }

  /** The roots afterwards: the published ones, and where the table exists those of the shares archived into
      or filed under a collection. */
  lemma RootsHoldExactly(live0: Db, live1: Db, m: IdMap, cmaps: PerChild<IdMap>, live2: Db, share: string)
    requires Merged(live1, ExportOf(live0), m, cmaps, live2)
    ensures share in live2.roots <==>
            || share in live1.roots
            || (&& RootT in live1.schema && share in live0.roots
                && (|| live0.roots[share].collection.Some?
                    || exists u :: u in live0.batches && live0.batches[u].share == share))
  {
    hide VideosMerged, AllChildrenMerged, VectorsMerged;
    assert share in BatchShares(live0) <==> exists u :: u in live0.batches && live0.batches[u].share == share;
  }

  /** A clip the published file did not have is there for one drained clip that it lacked, and for no other. */
  lemma NewClipsAreDrained(live0: Db, live1: Db, m: IdMap, cmaps: PerChild<IdMap>, live2: Db, j: Id)
    requires Valid(live0) && Valid(live1) && Merged(live1, ExportOf(live0), m, cmaps, live2)
    requires j in live2.videos.at && j !in live1.videos.at
    ensures j in m.back && Drained(live0, m.back[j]) && !Published(live1, live0.videos.at[m.back[j]].key)
    ensures m.back[j] in m.to && m.to[m.back[j]] == j
    ensures forall i :: i in m.to && m.to[i] == j ==> i == m.back[j]
  {
    var b, defaults := ExportOf(live0), DefaultsIn(live1.schema, VideoT);
    InsertedMeans(live0, live1, m.back[j]);
    ExportIsCoherent(live0);
    forall i | i in m.to && m.to[i] == j
      ensures i == m.back[j]
    {
      MapIsInjective(live1.videos, b, defaults, m, live2.videos, i, m.back[j]);
    }
  }

  /** A vector the published file did not have is the copy of one drained vector of an inserted clip. */
  lemma NewVectorsAreDrained(live0: Db, live1: Db, m: IdMap, cmaps: PerChild<IdMap>, live2: Db, s: Source)
    requires Valid(live0) && Valid(live1) && Merged(live1, ExportOf(live0), m, cmaps, live2)
    requires s in live2.embeddings && s !in live1.embeddings
    ensures s.child in cmaps.At(TableOf(s.kind)).back
    ensures var origin := Source(s.kind, cmaps.At(TableOf(s.kind)).back[s.child]);
            && origin in live0.embeddings && Drained(live0, live0.embeddings[origin].video)
            && !Published(live1, live0.videos.at[live0.embeddings[origin].video].key)
  {
    var b, missing := ExportOf(live0), Missing(live1.videos, ExportOf(live0));
    hide VideosMerged, AllChildrenMerged, LedgersMerged;
    assert MovedFrom(cmaps, Travelling(b, missing, cmaps), s);
    var origin := Source(s.kind, cmaps.At(TableOf(s.kind)).back[s.child]);
    InsertedMeans(live0, live1, live0.embeddings[origin].video);
  }

  /** An inserted clip's duplicate pointer is the live id of the clip L0 pointed at, or NULL when the
      merged file has no such clip; never a stale id. */
  lemma DuplicatesAreResolved(live0: Db, live1: Db, m: IdMap, cmaps: PerChild<IdMap>, live2: Db, id: Id)
    requires Valid(live0) && Indexed(live1.videos) && Merged(live1, ExportOf(live0), m, cmaps, live2)
    requires Drained(live0, id) && !Published(live1, live0.videos.at[id].key)
    ensures id in m.to && m.to[id] in live2.videos.at && m.to[id] !in live1.videos.at
    ensures SameClipOrGone(live0.videos, live0.videos.at[id].dup, live2.videos, live2.videos.at[m.to[id]].dup)
  {
    InsertedMeans(live0, live1, id);
    assert LandedAs(ExportOf(live0), DefaultsIn(live1.schema, VideoT), m.to, live2.videos.at, id);
    assert DuplicateHolds(live0.videos, id);
    ResolvedTarget(live0, live1, m, cmaps, live2, live0.videos.at[id].dup);
  }

  function ChildIds(rows: Rows<Child>, clip: Id): set<Id> {
    set c | c in rows.at && rows.at[c].video == clip
  }

  /** In the merged file `clip'` has exactly the children `clip` had before, each once, with the columns
      of its original. */
  ghost predicate ExactCopies(before: Rows<Child>, clip: Id, defaults: Cols, m: IdMap, after: Rows<Child>, clip': Id) {
    && (forall c :: c in ChildIds(before, clip) ==>
          && c in m.to && m.to[c] in ChildIds(after, clip') && m.to[c] in m.back && m.back[m.to[c]] == c
          && Landed(before.at[c].cols, defaults, after.at[m.to[c]].cols))
    && (forall c' :: c' in ChildIds(after, clip') ==> c' in m.back && m.back[c'] in ChildIds(before, clip))
  }

  /** An inserted clip ends with precisely its own children, in every child table the new file has. */
  lemma InsertedClipHasItsChildren(live0: Db, live1: Db, m: IdMap, cmaps: PerChild<IdMap>, live2: Db, id: Id,
      t: ChildTable)
    requires Valid(live0) && Valid(live1) && Merged(live1, ExportOf(live0), m, cmaps, live2)
    requires Drained(live0, id) && !Published(live1, live0.videos.at[id].key) && ChildT(t) in live1.schema
    ensures id in m.to
    ensures ExactCopies(live0.children.At(t), id, live1.schema[ChildT(t)], cmaps.At(t), live2.children.At(t), m.to[id])
  {
    var b, missing := ExportOf(live0), Missing(live1.videos, ExportOf(live0));
    InsertedMeans(live0, live1, id);
    assert LandedAs(b, DefaultsIn(live1.schema, VideoT), m.to, live2.videos.at, id);
    assert m.to[id] !in live1.videos.at;
    DrainedChildrenBelong(live0, t);
    assert TableMerged(live1.schema, live1.children, b, m.to, missing, cmaps, live2.children, t);
    ChildrenAreCopied(live0.children.At(t), DrainIds(live0), live1.schema, t, missing, m, id, live1.children.At(t),
        cmaps.At(t),
                      live2.children.At(t), live1.videos.at.Keys);
  }

  lemma ChildrenAreCopied(before: Rows<Child>, drained: set<Id>, schema: map<TableName, Cols>, t: ChildTable,
      missing: set<Id>, m: IdMap, id: Id,
                          pre: Rows<Child>, cm: IdMap, post: Rows<Child>, known: set<Id>)
    requires ChildT(t) in schema && missing <= drained && id in missing && id in m.to && m.to[id] !in known
    requires Traced(m, missing) && ChildrenHold(pre, known)
    requires ChildrenMerged(pre, ChildrenOf(before, drained), schema[ChildT(t)], m.to,
                            Carried(schema, t, ChildrenOf(before, drained), missing), cm, post)
    ensures ExactCopies(before, id, schema[ChildT(t)], cm, post, m.to[id])
  {
    var rows := ChildrenOf(before, drained);
    var carried := Carried(schema, t, rows, missing);
    forall c | c in ChildIds(before, id)
      ensures c in cm.to && cm.to[c] in ChildIds(post, m.to[id]) && cm.to[c] in cm.back && cm.back[cm.to[c]] == c
      ensures Landed(before.at[c].cols, schema[ChildT(t)], post.at[cm.to[c]].cols)
    {
      assert c in carried;
      assert ChildLandedAs(rows, schema[ChildT(t)], m.to, cm.to, post.at, c);
      ConformLands(before.at[c].cols, schema[ChildT(t)]);
    }
    forall c' | c' in ChildIds(post, m.to[id])
      ensures c' in cm.back && cm.back[c'] in ChildIds(before, id)
    {
      var c := cm.back[c'];
      assert ChildLandedAs(rows, schema[ChildT(t)], m.to, cm.to, post.at, c);
      assert m.back[m.to[rows[c].video]] == m.back[m.to[id]];
    }
  }

  /** A clip the published index already had keeps precisely its own children: nothing is doubled. */
  lemma PublishedClipKeepsItsChildren(live1: Db, b: Bundle, m: IdMap, cmaps: PerChild<IdMap>, live2: Db, clip: Id,
      t: ChildTable)
    requires Valid(live1) && Merged(live1, b, m, cmaps, live2) && clip in live1.videos.at
    ensures ChildIds(live2.children.At(t), clip) == ChildIds(live1.children.At(t), clip)
    ensures forall c :: c in ChildIds(live1.children.At(t), clip) ==>
            live2.children.At(t).at[c] == live1.children.At(t).at[c]
  {
    var rows := b.children.At(t);
    var missing := Missing(live1.videos, b);
    assert TableMerged(live1.schema, live1.children, b, m.to, missing, cmaps, live2.children, t);
    forall c | c in ChildIds(live2.children.At(t), clip)
      ensures c in live1.children.At(t).at
    {
      if c !in live1.children.At(t).at {
        MintedRowOfMintedClip(live1, b, m, cmaps, live2, t, c);
      }
    }
  }

  lemma MintedRowOfMintedClip(live1: Db, b: Bundle, m: IdMap, cmaps: PerChild<IdMap>, live2: Db, t: ChildTable, c: Id)
    requires Merged(live1, b, m, cmaps, live2)
    requires c in live2.children.At(t).at && c !in live1.children.At(t).at
    ensures live2.children.At(t).at[c].video !in live1.videos.at
  {
    var rows, missing := b.children.At(t), Missing(live1.videos, b);
    assert TableMerged(live1.schema, live1.children, b, m.to, missing, cmaps, live2.children, t);
    var src := cmaps.At(t).back[c];
    assert ChildLandedAs(rows, DefaultsIn(live1.schema, ChildT(t)), m.to, cmaps.At(t).to, live2.children.At(t).at, src);
    assert rows[src].video in missing;
  }

  /** A drained vector of an inserted clip is in the merged file exactly when the published one has the
      embeddings table and the table of the vector's own row; then it lands on the copy of that row, on the
      same clip, under a key nothing had. */
  lemma VectorsFollowTheirRows(live0: Db, live1: Db, m: IdMap, cmaps: PerChild<IdMap>, live2: Db, s: Source)
    requires Valid(live0) && Valid(live1) && Merged(live1, ExportOf(live0), m, cmaps, live2)
    requires s in live0.embeddings && Drained(live0, live0.embeddings[s].video)
    requires !Published(live1, live0.videos.at[live0.embeddings[s].video].key)
    ensures (s.child in cmaps.At(TableOf(s.kind)).to && Moved(cmaps, s) in live2.embeddings) <==>
            EmbeddingT in live1.schema && ChildT(TableOf(s.kind)) in live1.schema
    ensures s.child in cmaps.At(TableOf(s.kind)).to && Moved(cmaps, s) in live2.embeddings ==>
              var t := TableOf(s.kind);
              && Moved(cmaps, s).kind == s.kind && Moved(cmaps, s) !in live1.embeddings
              && Landed(live0.embeddings[s].cols, live1.schema[EmbeddingT], live2.embeddings[Moved(cmaps, s)].cols)
              && live0.embeddings[s].video in m.to
              && live2.embeddings[Moved(cmaps, s)].video == m.to[live0.embeddings[s].video]
              && s.child in live0.children.At(t).at && Moved(cmaps, s).child in live2.children.At(t).at
              && live2.children.At(t).at[Moved(cmaps, s).child].video == m.to[live0.embeddings[s].video]
              && Landed(live0.children.At(t).at[s.child].cols, live1.schema[ChildT(t)],
                        live2.children.At(t).at[Moved(cmaps, s).child].cols)
  {
    var b, t := ExportOf(live0), TableOf(s.kind);
    InsertedMeans(live0, live1, live0.embeddings[s].video);
    assert s in b.embeddings;
    DrainedChildrenBelong(live0, t);
    assert s.child in b.children.At(t);
    if EmbeddingT in live1.schema {
      VectorLands(live1, b, m, cmaps, live2, s);
      ConformLands(live0.embeddings[s].cols, live1.schema[EmbeddingT]);
      if ChildT(t) in live1.schema {
        ConformLands(live0.children.At(t).at[s.child].cols, live1.schema[ChildT(t)]);
      }
    } else {
      NoTableNoVector(live1, b, m, cmaps, live2);
    }
  }

  /** The source word names the table: `segment` is segments, any other word transcript_segments. */
  lemma VectorsPointByTheirWord(db: Db, s: Source)
    requires Valid(db) && s in db.embeddings
    ensures var rows := if s.kind == "segment" then db.children.segments else db.children.transcripts;
            s.child in rows.at && rows.at[s.child].video == db.embeddings[s].video
  {
  }

  lemma NoTableNoVector(live1: Db, b: Bundle, m: IdMap, cmaps: PerChild<IdMap>, live2: Db)
    requires AbsentEmpty(live1) && Merged(live1, b, m, cmaps, live2) && EmbeddingT !in live1.schema
    ensures live2.embeddings == map[]
  {
    hide VideosMerged, AllChildrenMerged;
  }

  lemma VectorLands(live1: Db, b: Bundle, m: IdMap, cmaps: PerChild<IdMap>, live2: Db, s: Source)
    requires Merged(live1, b, m, cmaps, live2) && EmbeddingT in live1.schema
    requires s in b.embeddings && b.embeddings[s].video in Missing(live1.videos, b)
    requires s.child in b.children.At(TableOf(s.kind))
             && b.children.At(TableOf(s.kind))[s.child].video == b.embeddings[s].video
    ensures s.child in cmaps.At(TableOf(s.kind)).to <==> ChildT(TableOf(s.kind)) in live1.schema
    ensures s.child in cmaps.At(TableOf(s.kind)).to ==>
              && VectorLandedAs(live1.embeddings, b, live1.schema[EmbeddingT], m.to, cmaps, live2.embeddings, s)
              && ChildLandedAs(b.children.At(TableOf(s.kind)), DefaultsIn(live1.schema, ChildT(TableOf(s.kind))), m.to,
                               cmaps.At(TableOf(s.kind)).to, live2.children.At(TableOf(s.kind)).at, s.child)
  {
    var t, missing := TableOf(s.kind), Missing(live1.videos, b);
    assert TableMerged(live1.schema, live1.children, b, m.to, missing, cmaps, live2.children, t);
    if s.child in cmaps.At(t).to {
      assert s in Travelling(b, missing, cmaps);
    }
  }

  /** Every row carries exactly the columns its table has. */
  ghost predicate ColumnsFit(db: Db) {
    && (forall u :: u in db.batches ==> db.batches[u].cols.Keys == DefaultsIn(db.schema, BatchT).Keys)
    && (forall u :: u in db.items ==> db.items[u].cols.Keys == DefaultsIn(db.schema, ItemT).Keys)
  }

  lemma ConformFits(cols: Cols, defaults: Cols)
    requires cols.Keys == defaults.Keys
    ensures Conform(cols, defaults) == cols
  {
  }

  lemma OwnBatchesUnchanged(batches: map<string, Batch>, defaults: Cols)
    requires forall u :: u in batches ==> batches[u].cols.Keys == defaults.Keys
    ensures BatchesMerged(batches, batches, defaults) == batches
  {
    forall u | u in batches
      ensures ConformBatch(batches[u], defaults) == batches[u]
    {
      ConformFits(batches[u].cols, defaults);
    }
  }

  lemma OwnItemsUnchanged(items: map<string, Item>, vmap: map<Id, Id>, ids: set<Id>, defaults: Cols)
    requires forall u :: u in items ==> items[u].cols.Keys == defaults.Keys
    requires forall u :: u in items ==> Refers(items[u].video, ids) && Refers(items[u].dup, ids)
    requires forall id :: id in ids ==> id in vmap && vmap[id] == id
    ensures ItemsMerged(items, items, vmap, defaults) == items
  {
    forall u | u in items
      ensures RemapItem(items[u], vmap, defaults) == items[u]
    {
      ConformFits(items[u].cols, defaults);
    }
  }

  lemma OwnRootsUnchanged(db: Db)
    ensures RootsMerged(db.roots, ExportOf(db).roots, DefaultsIn(db.schema, RootT)) == db.roots
  {
  }

  /** Export then apply to the file the drain came from (the swap never happened): nothing changes. */
  lemma ExportThenApplyIsIdentity(db: Db, m: IdMap, cmaps: PerChild<IdMap>, post: Db)
    requires Valid(db) && ColumnsFit(db) && Merged(db, ExportOf(db), m, cmaps, post)
    ensures post == db
  {
    var b := ExportOf(db);
    OwnIdsUnchanged(db, DefaultsIn(db.schema, VideoT), m, post.videos);
    OwnRootsUnchanged(db);
    OwnBatchesUnchanged(db.batches, DefaultsIn(db.schema, BatchT));
    OwnItemsUnchanged(db.items, m.to, db.videos.at.Keys, DefaultsIn(db.schema, ItemT));
    hide RootsMerged, BatchesMerged, ItemsMerged, AllChildrenMerged, VectorsMerged, VideosMerged, EmbeddingsHold,
        Conform, Missing;
    SecondMergeAddsNoVideo(db.videos, b, DefaultsIn(db.schema, VideoT), m, post.videos);
    SecondMergeAddsNoChildren(db, b, m.to, cmaps, post);
    SecondMergeAddsNoVector(db, b, m.to, cmaps, post);
  }

  lemma OwnIdsUnchanged(db: Db, defaults: Cols, m: IdMap, post: Videos)
    requires Indexed(db.videos) && VideosMerged(db.videos, ExportOf(db), defaults, m, post)
    ensures Missing(db.videos, ExportOf(db)) == {}
    ensures forall id :: id in db.videos.at ==> id in m.to && m.to[id] == id
  {
    forall id | id in db.videos.at
      ensures id in m.to && m.to[id] == id && id in Matched(db.videos, ExportOf(db))
    {
      assert id in Matched(db.videos, ExportOf(db));
      assert MatchedAs(db.videos, ExportOf(db), m.to, id);
    }
  }

  datatype Attempt = RolledBackAttempt | CommittedAttempt | CommittedUnreported

  ghost predicate MergedOnce(pre: Db, b: Bundle, post: Db) {
    exists m, cmaps :: Merged(pre, b, m, cmaps, post)
  }

  ghost predicate Attempted(a: Attempt, b: Bundle, pre: Db, post: Db) {
    if a.RolledBackAttempt? then post == pre else MergedOnce(pre, b, post)
  }

  /** `states` is what the live file held before, between and after these merge attempts. */
  ghost predicate History(attempts: seq<Attempt>, b: Bundle, states: seq<Db>) {
    && |states| == |attempts| + 1
    && (forall i :: 0 <= i < |attempts| ==> Attempted(attempts[i], b, states[i], states[i + 1]))
  }

  lemma MergedTwice(pre: Db, b: Bundle, mid: Db, post: Db)
    requires Indexed(pre.videos) && Coherent(b) && MergedOnce(pre, b, mid) && MergedOnce(mid, b, post)
    ensures post == mid
  {
    assert KeysCovered(b);
    hide Merged, Coherent, Indexed, KeysCovered;
    var m, cmaps :| Merged(pre, b, m, cmaps, mid);
    var n, dmaps :| Merged(mid, b, n, dmaps, post);
    MergeIsIdempotent(pre, b, m, cmaps, mid, n, dmaps, post);
  }

  /** However often the merge is retried, and whatever its attempts reported: with no commit the file
      is untouched, with at least one it equals exactly one application of the bundle. */
  lemma {:induction false} RetriesAmountToOneMerge(attempts: seq<Attempt>, b: Bundle, states: seq<Db>)
    requires Coherent(b) && History(attempts, b, states) && Indexed(states[0].videos)
    ensures (forall i :: 0 <= i < |attempts| ==> attempts[i].RolledBackAttempt?) ==> states[|attempts|] == states[0]
    ensures (exists i :: 0 <= i < |attempts| && !attempts[i].RolledBackAttempt?) ==>
            MergedOnce(states[0], b, states[|attempts|])
    decreases |attempts|
  {
    hide MergedOnce, Coherent, Indexed;
    if |attempts| > 0 {
      var n := |attempts| - 1;
      var before := attempts[..n];
      assert History(before, b, states[..n + 1]);
      RetriesAmountToOneMerge(before, b, states[..n + 1]);
      assert Attempted(attempts[n], b, states[n], states[n + 1]);
      if exists i :: 0 <= i < n && !before[i].RolledBackAttempt? {
        var i :| 0 <= i < n && !before[i].RolledBackAttempt?;
        assert !attempts[i].RolledBackAttempt?;
        if !attempts[n].RolledBackAttempt? {
          MergedTwice(states[0], b, states[n], states[n + 1]);
        }
      } else {
        assert forall i :: 0 <= i < n ==> attempts[i] == before[i];
      }
    }
  }

  /** Any run of attempts keeps every published row outside the two ledgers as it was. */
  lemma PublishedRowsSurvive(attempts: seq<Attempt>, b: Bundle, states: seq<Db>)
    requires Coherent(b) && History(attempts, b, states) && Indexed(states[0].videos)
    ensures OutsideLedgersKept(states[0], states[|attempts|])
  {
    hide Coherent, Indexed, Merged, OutsideLedgersKept;
    RetriesAmountToOneMerge(attempts, b, states);
    if exists i :: 0 <= i < |attempts| && !attempts[i].RolledBackAttempt? {
      var m, cmaps :| Merged(states[0], b, m, cmaps, states[|attempts|]);
      OneMergeKeepsTheRest(states[0], b, m, cmaps, states[|attempts|]);
    } else {
      NothingLost(states[0]);
    }
  }

  ghost predicate OutsideLedgersKept(pre: Db, post: Db) {
    && (forall id :: id in pre.videos.at ==> id in post.videos.at && post.videos.at[id] == pre.videos.at[id])
    && (forall t: ChildTable, c :: c in pre.children.At(t).at ==>
          c in post.children.At(t).at && post.children.At(t).at[c] == pre.children.At(t).at[c])
    && (forall s :: s in pre.embeddings ==> s in post.embeddings && post.embeddings[s] == pre.embeddings[s])
    && (forall s :: s in pre.roots ==> s in post.roots && post.roots[s] == pre.roots[s])
  }

  lemma NothingLost(db: Db)
    ensures OutsideLedgersKept(db, db)
  {
  }

  lemma OneMergeKeepsTheRest(pre: Db, b: Bundle, m: IdMap, cmaps: PerChild<IdMap>, post: Db)
    requires Merged(pre, b, m, cmaps, post)
    ensures OutsideLedgersKept(pre, post)
  {
    forall t: ChildTable, c | c in pre.children.At(t).at
      ensures c in post.children.At(t).at && post.children.At(t).at[c] == pre.children.At(t).at[c]
    {
      assert TableMerged(pre.schema, pre.children, b, m.to, Missing(pre.videos, b), cmaps, post.children, t);
    }
  }
}
