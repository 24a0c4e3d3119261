/** What follows from one merge, and from any number of them. */
module MergeTheorems {
  import opened Options
  import opened BrollIndex
  import opened Drain
  import opened MergeSpec

  /** Every bundle id that got a live id got the one filed under its key. */
  lemma MapKeepsKeys(pre: Videos, b: Bundle, defaults: Cols, m: IdMap, post: Videos, id: Id)
    requires Indexed(pre) && KeysCovered(b) && VideosMerged(pre, b, defaults, m, post)
    requires id in m.to
    ensures id in b.keys && m.to[id] in post.at && post.at[m.to[id]].key == b.keys[id]
    ensures b.keys[id] in post.index && post.index[b.keys[id]] == m.to[id]
  {
    if id in Matched(pre, b) {
      assert MatchedAs(pre, b, m.to, id);
      assert post.at[m.to[id]] == pre.at[m.to[id]];
    } else {
      assert LandedAs(b, defaults, m.to, post.at, id);
    }
  }

  /** The map is injective on every id it contains, inserted or matched. */
  lemma MapIsInjective(pre: Videos, b: Bundle, defaults: Cols, m: IdMap, post: Videos, i: Id, j: Id)
    requires Indexed(pre) && KeysCovered(b) && VideosMerged(pre, b, defaults, m, post)
    requires i in m.to && j in m.to && m.to[i] == m.to[j]
    ensures i == j
  {
    MapKeepsKeys(pre, b, defaults, m, post, i);
    MapKeepsKeys(pre, b, defaults, m, post, j);
  }

  /** The map has an entry for exactly the bundle keys that are live once the merge is done. */
  lemma MapIsComplete(pre: Videos, b: Bundle, defaults: Cols, m: IdMap, post: Videos, id: Id)
    requires Indexed(pre) && KeysCovered(b) && VideosMerged(pre, b, defaults, m, post)
    ensures id in m.to <==> id in b.keys && b.keys[id] in post.index
  {
    if id in m.to {
      MapKeepsKeys(pre, b, defaults, m, post, id);
    }
    if id in b.keys && b.keys[id] in post.index {
      var live := post.index[b.keys[id]];
      if live in pre.at {
        assert pre.at[live] == post.at[live];
        assert id in Matched(pre, b);
      } else {
        var src := m.back[live];
        assert LandedAs(b, defaults, m.to, post.at, src);
        assert src == id;
      }
    }
  }

  lemma DuplicatesStayResolved(pre: Videos, b: Bundle, defaults: Cols, m: IdMap, post: Videos)
    requires Indexed(pre) && DuplicatesHold(pre) && KeysCovered(b) && VideosMerged(pre, b, defaults, m, post)
    ensures DuplicatesHold(post)
  {
    forall id
      ensures DuplicateHolds(post, id)
    {
      if id in pre.at {
        assert DuplicateHolds(pre, id);
      } else if id in post.at {
        var src := m.back[id];
        assert LandedAs(b, defaults, m.to, post.at, src);
        var dup := b.videos[src].dup;
        if dup.Some? && dup.value in m.to {
          MapKeepsKeys(pre, b, defaults, m, post, dup.value);
        }
      }
    }
  }

  lemma ChildrenStayAttached(pre: Rows<Child>, rows: map<Id, Child>, defaults: Cols, vmap: map<Id, Id>,
                             carried: set<Id>, m: IdMap, post: Rows<Child>, before: set<Id>, after: set<Id>)
    requires ChildrenHold(pre, before) && before <= after
    requires ChildrenMerged(pre, rows, defaults, vmap, carried, m, post)
    requires forall id :: id in vmap ==> vmap[id] in after
    ensures ChildrenHold(post, after)
  {
    forall c | c in post.at
      ensures post.at[c].video in after
    {
      if c !in pre.at {
        assert ChildLandedAs(rows, defaults, vmap, m.to, post.at, m.back[c]);
      }
    }
  }

  lemma ChildTableStaysSound(pre: Db, b: Bundle, vmap: map<Id, Id>, cmaps: PerChild<IdMap>, post: Db, t: ChildTable)
    requires ChildrenHold(pre.children.At(t), pre.videos.at.Keys)
    requires ChildT(t) !in pre.schema ==> pre.children.At(t).at == map[]
    requires TableMerged(pre.schema, pre.children, b, vmap, Missing(pre.videos, b), cmaps, post.children, t)
    requires pre.videos.at.Keys <= post.videos.at.Keys
    requires forall id :: id in vmap ==> vmap[id] in post.videos.at
    ensures ChildrenHold(post.children.At(t), post.videos.at.Keys)
    ensures Minted(post.children.At(t).at, post.children.At(t).next)
    ensures ChildT(t) !in pre.schema ==> post.children.At(t).at == map[]
  {
    var carried := Carried(pre.schema, t, b.children.At(t), Missing(pre.videos, b));
    ChildrenStayAttached(pre.children.At(t), b.children.At(t), DefaultsIn(pre.schema, ChildT(t)), vmap, carried,
        cmaps.At(t),
                         post.children.At(t), pre.videos.at.Keys, post.videos.at.Keys);
    if ChildT(t) !in pre.schema {
      assert carried == {};
      assert post.children.At(t).at.Keys == {};
    }
  }

  lemma EmbeddingAttached(pre: Db, b: Bundle, vmap: map<Id, Id>, cmaps: PerChild<IdMap>, post: Db, s: Source)
    requires EmbeddingsHold(pre.embeddings, pre.children) && BundleEmbeddingsHold(b)
    requires TableMerged(pre.schema, pre.children, b, vmap, Missing(pre.videos, b), cmaps, post.children,
             TableOf(s.kind))
    requires VectorsMerged(pre, b, vmap, cmaps, post)
    requires s in post.embeddings
    ensures s.child in post.children.At(TableOf(s.kind)).at
    ensures post.children.At(TableOf(s.kind)).at[s.child].video == post.embeddings[s].video
  {
    if s !in pre.embeddings {
      var t := TableOf(s.kind);
      var src := Source(s.kind, cmaps.At(t).back[s.child]);
      var defaults := DefaultsIn(pre.schema, EmbeddingT);
      assert MovedFrom(cmaps, Travelling(b, Missing(pre.videos, b), cmaps), s);
      assert VectorLandedAs(pre.embeddings, b, defaults, vmap, cmaps, post.embeddings, src);
      assert ChildLandedAs(b.children.At(t), DefaultsIn(pre.schema, ChildT(t)), vmap, cmaps.At(t).to,
          post.children.At(t).at, src.child);
    }
  }

  lemma EmbeddingsStayAttached(pre: Db, b: Bundle, vmap: map<Id, Id>, cmaps: PerChild<IdMap>, post: Db)
    requires EmbeddingsHold(pre.embeddings, pre.children) && BundleEmbeddingsHold(b)
    requires AllChildrenMerged(pre, b, vmap, cmaps, post) && VectorsMerged(pre, b, vmap, cmaps, post)
    ensures EmbeddingsHold(post.embeddings, post.children)
  {
    hide TableMerged, VectorsMerged;
    forall s | s in post.embeddings
      ensures s.child in post.children.At(TableOf(s.kind)).at
      ensures post.children.At(TableOf(s.kind)).at[s.child].video == post.embeddings[s].video
    {
      EmbeddingAttached(pre, b, vmap, cmaps, post, s);
    }
  }

  lemma TargetRefers(vmap: map<Id, Id>, ref: Option<Id>, ids: set<Id>)
    requires forall id :: id in vmap ==> vmap[id] in ids
    ensures Refers(Target(vmap, ref), ids)
  {
  }

  lemma ItemsStayAttached(pre: Db, b: Bundle, vmap: map<Id, Id>, post: Db)
    requires ItemsHold(pre.items, pre.batches.Keys, pre.videos.at.Keys)
    requires forall u :: u in b.items ==> b.items[u].batch in b.batches
    requires ItemT in pre.schema ==> BatchT in pre.schema
    requires LedgersMerged(pre, b, vmap, post)
    requires pre.videos.at.Keys <= post.videos.at.Keys
    requires forall id :: id in vmap ==> vmap[id] in post.videos.at
    ensures ItemsHold(post.items, post.batches.Keys, post.videos.at.Keys)
  {
    forall u | u in post.items
      ensures post.items[u].batch in post.batches
      ensures Refers(post.items[u].video, post.videos.at.Keys)
      ensures Refers(post.items[u].dup, post.videos.at.Keys)
    {
      if u in b.items && ItemT in pre.schema {
        TargetRefers(vmap, b.items[u].video, post.videos.at.Keys);
        TargetRefers(vmap, b.items[u].dup, post.videos.at.Keys);
      }
    }
  }

  lemma VideosStaySound(pre: Videos, b: Bundle, defaults: Cols, m: IdMap, post: Videos)
    requires Indexed(pre) && DuplicatesHold(pre) && KeysCovered(b) && VideosMerged(pre, b, defaults, m, post)
    ensures Indexed(post) && DuplicatesHold(post) && Minted(post.at, post.next)
    ensures pre.at.Keys <= post.at.Keys
    ensures forall id :: id in m.to ==> m.to[id] in post.at
  {
    DuplicatesStayResolved(pre, b, defaults, m, post);
    forall id | id in m.to
      ensures m.to[id] in post.at
    {
      MapKeepsKeys(pre, b, defaults, m, post, id);
    }
  }

  // ---- the schema at COMMIT, part by part ----

  /** A database that keeps its schema, a bundle that is closed, and one merge of the two. */
  ghost predicate SoundMerge(pre: Db, b: Bundle, m: IdMap, cmaps: PerChild<IdMap>, post: Db) {
    Valid(pre) && Coherent(b) && Merged(pre, b, m, cmaps, post)
  }

  lemma VideosPart(pre: Db, b: Bundle, m: IdMap, cmaps: PerChild<IdMap>, post: Db)
    requires SoundMerge(pre, b, m, cmaps, post)
    ensures Indexed(post.videos) && DuplicatesHold(post.videos) && Minted(post.videos.at, post.videos.next)
    ensures pre.videos.at.Keys <= post.videos.at.Keys
    ensures forall id :: id in m.to ==> m.to[id] in post.videos.at
  {
    hide EmbeddingsHold, ItemsHold, AllChildrenMerged, VectorsMerged, LedgersMerged;
    VideosStaySound(pre.videos, b, DefaultsIn(pre.schema, VideoT), m, post.videos);
  }

  lemma ChildPart(pre: Db, b: Bundle, m: IdMap, cmaps: PerChild<IdMap>, post: Db, t: ChildTable)
    requires SoundMerge(pre, b, m, cmaps, post)
    ensures ChildrenHold(post.children.At(t), post.videos.at.Keys)
    ensures Minted(post.children.At(t).at, post.children.At(t).next)
    ensures ChildT(t) !in post.schema ==> post.children.At(t).at == map[]
  {
    hide TableMerged, Indexed, DuplicatesHold, EmbeddingsHold, ItemsHold, VideosMerged, VectorsMerged, LedgersMerged;
    VideosPart(pre, b, m, cmaps, post);
    ChildTableStaysSound(pre, b, m.to, cmaps, post, t);
  }

  lemma VectorPart(pre: Db, b: Bundle, m: IdMap, cmaps: PerChild<IdMap>, post: Db)
    requires SoundMerge(pre, b, m, cmaps, post)
    ensures EmbeddingsHold(post.embeddings, post.children)
  {
    hide VideosMerged, LedgersMerged, AllChildrenMerged, VectorsMerged, EmbeddingsHold, BundleEmbeddingsHold;
    EmbeddingsStayAttached(pre, b, m.to, cmaps, post);
  }

  lemma LedgerPart(pre: Db, b: Bundle, m: IdMap, cmaps: PerChild<IdMap>, post: Db)
    requires SoundMerge(pre, b, m, cmaps, post)
    ensures ItemsHold(post.items, post.batches.Keys, post.videos.at.Keys)
  {
    hide VideosMerged, LedgersMerged, AllChildrenMerged, VectorsMerged, EmbeddingsHold, ItemsHold;
    VideosPart(pre, b, m, cmaps, post);
    ItemsStayAttached(pre, b, m.to, post);
  }

  lemma AbsentPart(pre: Db, b: Bundle, m: IdMap, cmaps: PerChild<IdMap>, post: Db)
    requires SoundMerge(pre, b, m, cmaps, post)
    ensures TablesWellFormed(post) && AbsentEmpty(post)
  {
    hide VideosMerged, AllChildrenMerged, EmbeddingsHold, ItemsHold, Minted, DuplicatesHold, Indexed, ChildrenHold;
    VideosPart(pre, b, m, cmaps, post);
    forall t: ChildTable
      ensures Minted(post.children.At(t).at, post.children.At(t).next)
      ensures ChildT(t) !in post.schema ==> post.children.At(t).at == map[]
    {
      ChildPart(pre, b, m, cmaps, post, t);
    }
  }

  /** "Correct at COMMIT": with the foreign keys switched off during the merge, every one of
      them, and every UNIQUE key, holds again when it ends. */
  lemma MergeKeepsTheSchema(pre: Db, b: Bundle, m: IdMap, cmaps: PerChild<IdMap>, post: Db)
    requires Valid(pre) && Coherent(b) && Merged(pre, b, m, cmaps, post)
    ensures Valid(post)
  {
    assert SoundMerge(pre, b, m, cmaps, post);
    hide SoundMerge, Merged, Coherent, Indexed, DuplicatesHold, ChildrenHold, EmbeddingsHold, ItemsHold;
    hide TablesWellFormed, AbsentEmpty;
    VideosPart(pre, b, m, cmaps, post);
    VectorPart(pre, b, m, cmaps, post);
    LedgerPart(pre, b, m, cmaps, post);
    AbsentPart(pre, b, m, cmaps, post);
    forall t: ChildTable
      ensures ChildrenHold(post.children.At(t), post.videos.at.Keys)
    {
      ChildPart(pre, b, m, cmaps, post, t);
    }
  }

  lemma AllMatchedAfterwards(pre: Videos, b: Bundle, defaults: Cols, m: IdMap, mid: Videos)
    requires Indexed(pre) && KeysCovered(b) && VideosMerged(pre, b, defaults, m, mid)
    ensures Matched(mid, b) == m.to.Keys
    ensures Missing(mid, b) == {}
  {
    forall id
      ensures id in m.to <==> id in Matched(mid, b)
      ensures id in b.videos ==> id in m.to
    {
      MapIsComplete(pre, b, defaults, m, mid, id);
      assert id in b.videos ==> id in Matched(pre, b) || id in Missing(pre, b);
    }
    SetsAgree(m.to.Keys, Matched(mid, b), b.videos.Keys);
  }

  lemma SetsAgree(known: set<Id>, matched: set<Id>, drained: set<Id>)
    requires forall id :: id in known <==> id in matched
    requires forall id :: id in drained ==> id in known
    ensures matched == known && drained - matched == {}
  {
  }

  lemma MapsAgree(m: map<Id, Id>, n: map<Id, Id>)
    requires n.Keys == m.Keys
    requires forall id :: id in m ==> n[id] == m[id]
    ensures n == m
  {
  }

  lemma MapDomain(mid: Videos, b: Bundle, defaults: Cols, n: IdMap, post: Videos)
    requires VideosMerged(mid, b, defaults, n, post)
    ensures n.to.Keys == Matched(mid, b) + Missing(mid, b)
  {
  }

  lemma SameEntry(mid: Videos, b: Bundle, defaults: Cols, n: IdMap, post: Videos, id: Id)
    requires VideosMerged(mid, b, defaults, n, post) && id in b.keys && b.keys[id] in mid.index
    ensures id in n.to && n.to[id] == mid.index[b.keys[id]]
  {
    assert id in Matched(mid, b);
    assert MatchedAs(mid, b, n.to, id);
  }

  /** Rebuilt from keys alone, the second run's id map is the first run's. */
  lemma SecondMapIsTheFirst(pre: Videos, b: Bundle, defaults: Cols, m: IdMap, mid: Videos, n: IdMap, post: Videos)
    requires Indexed(pre) && KeysCovered(b)
    requires VideosMerged(pre, b, defaults, m, mid) && VideosMerged(mid, b, defaults, n, post)
    ensures n.to == m.to
  {
    hide VideosMerged, Indexed, KeysCovered;
    AllMatchedAfterwards(pre, b, defaults, m, mid);
    MapDomain(mid, b, defaults, n, post);
    forall id | id in m.to
      ensures id in n.to && n.to[id] == m.to[id]
    {
      MapKeepsKeys(pre, b, defaults, m, mid, id);
      SameEntry(mid, b, defaults, n, post, id);
    }
    MapsAgree(m.to, n.to);
  }

  lemma NothingGrown<T>(pre: map<Id, T>, preNext: int, post: map<Id, T>, postNext: int)
    requires Grown(pre, preNext, {}, post, postNext)
    ensures post == pre && postNext == preNext
  {
    assert post.Keys == pre.Keys;
  }

  lemma OneIndex(v: Videos, w: Videos)
    requires Indexed(v) && Indexed(w) && v.at == w.at
    ensures v.index == w.index
  {
  }

  lemma SecondMergeAddsNoVideo(mid: Videos, b: Bundle, defaults: Cols, m: IdMap, post: Videos)
    requires Indexed(mid) && VideosMerged(mid, b, defaults, m, post) && Missing(mid, b) == {}
    ensures post == mid
  {
    assert m.back == map[];
    NothingGrown(mid.at, mid.next, post.at, post.next);
    OneIndex(mid, post);
  }

  lemma SecondMergeAddsNoChild(mid: Db, b: Bundle, vmap: map<Id, Id>, cmaps: PerChild<IdMap>, post: Db, t: ChildTable)
    requires AllChildrenMerged(mid, b, vmap, cmaps, post) && Missing(mid.videos, b) == {}
    ensures post.children.At(t) == mid.children.At(t)
  {
    var carried := Carried(mid.schema, t, b.children.At(t), Missing(mid.videos, b));
    assert carried == {};
    assert TableMerged(mid.schema, mid.children, b, vmap, Missing(mid.videos, b), cmaps, post.children, t);
    assert cmaps.At(t).back == map[];
    NothingGrown(mid.children.At(t).at, mid.children.At(t).next, post.children.At(t).at, post.children.At(t).next);
  }

  lemma SecondMergeAddsNoChildren(mid: Db, b: Bundle, vmap: map<Id, Id>, cmaps: PerChild<IdMap>, post: Db)
    requires AllChildrenMerged(mid, b, vmap, cmaps, post) && Missing(mid.videos, b) == {}
    ensures post.children == mid.children
  {
    SecondMergeAddsNoChild(mid, b, vmap, cmaps, post, Segments);
    SecondMergeAddsNoChild(mid, b, vmap, cmaps, post, Transcripts);
    SecondMergeAddsNoChild(mid, b, vmap, cmaps, post, Themes);
    SecondMergeAddsNoChild(mid, b, vmap, cmaps, post, Flags);
  }

  lemma SecondMergeAddsNoVector(mid: Db, b: Bundle, vmap: map<Id, Id>, cmaps: PerChild<IdMap>, post: Db)
    requires VectorsMerged(mid, b, vmap, cmaps, post) && Missing(mid.videos, b) == {}
    ensures post.embeddings == mid.embeddings
  {
    assert Travelling(b, Missing(mid.videos, b), cmaps) == {};
    assert post.embeddings.Keys == mid.embeddings.Keys;
  }

  lemma SecondMergeKeepsTheLedgers(pre: Db, b: Bundle, vmap: map<Id, Id>, mid: Db, post: Db)
    requires LedgersMerged(pre, b, vmap, mid) && LedgersMerged(mid, b, vmap, post) && mid.schema == pre.schema
    ensures post.roots == mid.roots && post.batches == mid.batches && post.items == mid.items
  {
    RootsSettle(pre.roots, b.roots, DefaultsIn(pre.schema, RootT));
    BatchesSettle(pre.batches, b.batches, DefaultsIn(pre.schema, BatchT));
    ItemsSettle(pre.items, b.items, vmap, DefaultsIn(pre.schema, ItemT));
    hide RootsMerged, BatchesMerged, ItemsMerged;
  }

  lemma RootsSettle(pre: map<string, Root>, b: map<string, Root>, defaults: Cols)
    ensures RootsMerged(RootsMerged(pre, b, defaults), b, defaults) == RootsMerged(pre, b, defaults)
  {
  }

  lemma BatchesSettle(pre: map<string, Batch>, b: map<string, Batch>, defaults: Cols)
    ensures BatchesMerged(BatchesMerged(pre, b, defaults), b, defaults) == BatchesMerged(pre, b, defaults)
  {
  }

  lemma ItemsSettle(pre: map<string, Item>, b: map<string, Item>, vmap: map<Id, Id>, defaults: Cols)
    ensures ItemsMerged(ItemsMerged(pre, b, vmap, defaults), b, vmap, defaults) == ItemsMerged(pre, b, vmap, defaults)
  {
  }

  /** Applying the bundle a second time changes no row, no counter and no `search_generation`. */
  lemma MergeIsIdempotent(pre: Db, b: Bundle, m: IdMap, cmaps: PerChild<IdMap>, mid: Db,
                          n: IdMap, dmaps: PerChild<IdMap>, post: Db)
    requires Indexed(pre.videos) && KeysCovered(b)
    requires Merged(pre, b, m, cmaps, mid) && Merged(mid, b, n, dmaps, post)
    ensures post == mid && n.to == m.to
  {
    var defaults := DefaultsIn(pre.schema, VideoT);
    AllMatchedAfterwards(pre.videos, b, defaults, m, mid.videos);
    SecondMapIsTheFirst(pre.videos, b, defaults, m, mid.videos, n, post.videos);
    SecondMergeAddsNoVideo(mid.videos, b, defaults, n, post.videos);
    hide VideosMerged, AllChildrenMerged, VectorsMerged, LedgersMerged;
    SecondMergeAddsNoChildren(mid, b, n.to, dmaps, post);
    SecondMergeAddsNoVector(mid, b, n.to, dmaps, post);
    SecondMergeKeepsTheLedgers(pre, b, m.to, mid, post);
  }
}
