/** The report of a merge, as numbers of rows. */
module MergeReport {
  import opened BrollIndex
  import opened Drain
  import opened LiveFile
  import opened MergeSpec
  import opened MergeSteps

  /** Two finite maps that undo each other are of one size. */
  lemma {:induction false} SameSize<A, B>(to: map<A, B>, back: map<B, A>)
    requires forall a :: a in to ==> to[a] in back && back[to[a]] == a
    requires forall b :: b in back ==> back[b] in to && to[back[b]] == b
    ensures |to| == |back|
    decreases |to|
  {
    if to == map[] {
      assert back.Keys == {};
      assert |back| == |back.Keys|;
    } else {
      var a :| a in to;
      var to', back' := to - {a}, back - {to[a]};
      assert to'.Keys == to.Keys - {a} && back'.Keys == back.Keys - {to[a]};
      assert |to'| == |to'.Keys| == |to.Keys| - 1 && |back'| == |back'.Keys| == |back.Keys| - 1;
      SameSize(to', back');
    }
  }

  lemma TracedSize(m: IdMap, inserted: set<Id>)
    requires Traced(m, inserted)
    ensures |m.back| == |inserted|
  {
    var to := map id | id in inserted :: m.to[id];
    assert to.Keys == inserted && |to| == |to.Keys|;
    SameSize(to, m.back);
  }

  lemma GrownSize<T>(pre: map<Id, T>, preNext: int, m: IdMap, post: map<Id, T>, postNext: int)
    requires Grown(pre, preNext, m.back.Keys, post, postNext)
    ensures |post| == |pre| + |m.back|
  {
    assert |post| == |post.Keys| && |pre| == |pre.Keys| && |m.back| == |m.back.Keys|;
  }

  lemma ChildTableGrew(pre: Db, b: Bundle, m: IdMap, cmaps: PerChild<IdMap>, post: Db, t: ChildTable)
    requires Merged(pre, b, m, cmaps, post)
    ensures |post.children.At(t).at| == |pre.children.At(t).at| + |cmaps.At(t).to|
  {
    hide VideosMerged, VectorsMerged, LedgersMerged, TableMerged;
    assert TableMerged(pre.schema, pre.children, b, m.to, Missing(pre.videos, b), cmaps, post.children, t);
    TableGrew(pre, b, m.to, cmaps, post, t);
  }

  lemma TableGrew(pre: Db, b: Bundle, vmap: map<Id, Id>, cmaps: PerChild<IdMap>, post: Db, t: ChildTable)
    requires TableMerged(pre.schema, pre.children, b, vmap, Missing(pre.videos, b), cmaps, post.children, t)
    ensures |post.children.At(t).at| == |pre.children.At(t).at| + |cmaps.At(t).to|
  {
    var carried := Carried(pre.schema, t, b.children.At(t), Missing(pre.videos, b));
    TracedSize(cmaps.At(t), carried);
    GrownSize(pre.children.At(t).at, pre.children.At(t).next, cmaps.At(t), post.children.At(t).at,
              post.children.At(t).next);
    assert |cmaps.At(t).to| == |cmaps.At(t).to.Keys|;
  }

  lemma ClipsGrew(pre: Db, b: Bundle, m: IdMap, cmaps: PerChild<IdMap>, post: Db)
    requires Merged(pre, b, m, cmaps, post)
    ensures |post.videos.at| == |pre.videos.at| + |Missing(pre.videos, b)|
  {
    hide AllChildrenMerged, VectorsMerged, LedgersMerged;
    TracedSize(m, Missing(pre.videos, b));
    GrownSize(pre.videos.at, pre.videos.next, m, post.videos.at, post.videos.next);
  }

  /** Every child map is undone by its way back, for the rows that travelled. */
  ghost predicate Undone(cmaps: PerChild<IdMap>) {
    forall t: ChildTable ::
      && (forall c :: c in cmaps.At(t).to ==>
            cmaps.At(t).to[c] in cmaps.At(t).back && cmaps.At(t).back[cmaps.At(t).to[c]] == c)
      && (forall c :: c in cmaps.At(t).back ==>
            cmaps.At(t).back[c] in cmaps.At(t).to && cmaps.At(t).to[cmaps.At(t).back[c]] == c)
  }

  lemma MergeIsUndone(pre: Db, b: Bundle, m: IdMap, cmaps: PerChild<IdMap>, post: Db)
    requires Merged(pre, b, m, cmaps, post)
    ensures Undone(cmaps)
  {
    hide VideosMerged, VectorsMerged, LedgersMerged, TableMerged;
    forall t: ChildTable
      ensures forall c :: c in cmaps.At(t).to ==>
                cmaps.At(t).to[c] in cmaps.At(t).back && cmaps.At(t).back[cmaps.At(t).to[c]] == c
      ensures forall c :: c in cmaps.At(t).back ==>
                cmaps.At(t).back[c] in cmaps.At(t).to && cmaps.At(t).to[cmaps.At(t).back[c]] == c
    {
      assert TableMerged(pre.schema, pre.children, b, m.to, Missing(pre.videos, b), cmaps, post.children, t);
      TableIsUndone(pre, b, m.to, cmaps, post, t);
    }
  }

  lemma TableIsUndone(pre: Db, b: Bundle, vmap: map<Id, Id>, cmaps: PerChild<IdMap>, post: Db, t: ChildTable)
    requires TableMerged(pre.schema, pre.children, b, vmap, Missing(pre.videos, b), cmaps, post.children, t)
    ensures forall c :: c in cmaps.At(t).to ==>
              cmaps.At(t).to[c] in cmaps.At(t).back && cmaps.At(t).back[cmaps.At(t).to[c]] == c
    ensures forall c :: c in cmaps.At(t).back ==>
              cmaps.At(t).back[c] in cmaps.At(t).to && cmaps.At(t).to[cmaps.At(t).back[c]] == c
  {
    hide Carried, Grown;
  }

  function Original(cmaps: PerChild<IdMap>, s: Source): Source
    requires s.child in cmaps.At(TableOf(s.kind)).back
  {
    Source(s.kind, cmaps.At(TableOf(s.kind)).back[s.child])
  }

  lemma ThereAndBack(cmaps: PerChild<IdMap>, s: Source)
    requires Undone(cmaps) && s.child in cmaps.At(TableOf(s.kind)).to
    ensures var moved := Moved(cmaps, s);
            moved.child in cmaps.At(TableOf(moved.kind)).back && Original(cmaps, moved) == s
  {
  }

  lemma BackAndThere(cmaps: PerChild<IdMap>, s: Source)
    requires Undone(cmaps) && s.child in cmaps.At(TableOf(s.kind)).back
    ensures var origin := Original(cmaps, s);
            origin.child in cmaps.At(TableOf(origin.kind)).to && Moved(cmaps, origin) == s
  {
  }

  /** The vectors that are new, and the ones they were made from, are in one-to-one correspondence. */
  lemma VectorsGrew(pre: map<Source, Embedding>, b: Bundle, defaults: Cols, vmap: map<Id, Id>, moving: set<Source>,
                    cmaps: PerChild<IdMap>, post: map<Source, Embedding>)
    requires Undone(cmaps) && EmbeddingsMerged(pre, b, defaults, vmap, moving, cmaps, post)
    requires forall s :: s in moving ==> s.child in cmaps.At(TableOf(s.kind)).to
    ensures |post| == |pre| + |moving|
  {
    hide Undone;
    var arrived := post.Keys - pre.Keys;
    forall s | s in arrived
      ensures s.child in cmaps.At(TableOf(s.kind)).back && Original(cmaps, s) in moving
    {
      assert MovedFrom(cmaps, moving, s);
    }
    forall s | s in moving
      ensures Moved(cmaps, s) in arrived
    {
      assert VectorLandedAs(pre, b, defaults, vmap, cmaps, post, s);
    }
    Correspond(cmaps, moving, arrived);
    NewOnes(pre, post, arrived);
  }

  lemma Correspond(cmaps: PerChild<IdMap>, moving: set<Source>, arrived: set<Source>)
    requires Undone(cmaps)
    requires forall s :: s in moving ==> s.child in cmaps.At(TableOf(s.kind)).to && Moved(cmaps, s) in arrived
    requires forall s :: s in arrived ==> s.child in cmaps.At(TableOf(s.kind)).back && Original(cmaps, s) in moving
    ensures |moving| == |arrived|
  {
    hide Undone, Moved, Original;
    var to := map s | s in moving :: Moved(cmaps, s);
    var back := map s | s in arrived :: Original(cmaps, s);
    forall s | s in moving
      ensures to[s] in back && back[to[s]] == s
    {
      ThereAndBack(cmaps, s);
    }
    forall s | s in arrived
      ensures back[s] in to && to[back[s]] == s
    {
      BackAndThere(cmaps, s);
    }
    SameSize(to, back);
    assert to.Keys == moving && back.Keys == arrived;
    assert |to| == |to.Keys| && |back| == |back.Keys|;
  }

  lemma NewOnes<K, V>(pre: map<K, V>, post: map<K, V>, added: set<K>)
    requires forall k :: k in pre ==> k in post
    requires forall k :: k in added <==> k in post && k !in pre
    ensures |post| == |pre| + |added|
  {
    assert post.Keys == pre.Keys + added;
    assert |post| == |post.Keys| && |pre| == |pre.Keys|;
  }

  lemma VectorPart(pre: Db, b: Bundle, m: IdMap, cmaps: PerChild<IdMap>, post: Db)
    requires Merged(pre, b, m, cmaps, post)
    ensures |post.embeddings| == |pre.embeddings| +
              (if EmbeddingT in pre.schema then |Travelling(b, Missing(pre.videos, b), cmaps)| else 0)
  {
    MergeIsUndone(pre, b, m, cmaps, post);
    hide Undone, VideosMerged, AllChildrenMerged, LedgersMerged, EmbeddingsMerged, Missing;
    if EmbeddingT in pre.schema {
      VectorsGrew(pre.embeddings, b, DefaultsIn(pre.schema, EmbeddingT), m.to,
                  Travelling(b, Missing(pre.videos, b), cmaps), cmaps, post.embeddings);
    }
  }

  /** What the printed report says is how many rows each table has more than before; for the two ledgers,
      whose rows are replaced, how many were written. */
  lemma ReportCountsRows(pre: Db, b: Bundle, m: IdMap, cmaps: PerChild<IdMap>, post: Db, r: Report)
    requires Merged(pre, b, m, cmaps, post) && Reports(pre, b, cmaps, post, r)
    ensures r.videosInserted == |post.videos.at| - |pre.videos.at|
    ensures r.videosInserted + r.videosAlreadyThere == |b.videos|
    ensures r.children ==
            |post.children.segments.at| - |pre.children.segments.at|
            + |post.children.transcripts.at| - |pre.children.transcripts.at|
            + |post.children.themes.at| - |pre.children.themes.at|
            + |post.children.flags.at| - |pre.children.flags.at|
    ensures r.embeddings == |post.embeddings| - |pre.embeddings|
    ensures r.shareRoots == |post.roots| - |pre.roots|
    ensures BatchT in pre.schema ==> r.batches == |b.batches|
    ensures ItemT in pre.schema ==> r.items == |b.items|
  {
    hide Merged, Travelling, Missing;
    ClipsGrew(pre, b, m, cmaps, post);
    ChildTableGrew(pre, b, m, cmaps, post, Segments);
    ChildTableGrew(pre, b, m, cmaps, post, Transcripts);
    ChildTableGrew(pre, b, m, cmaps, post, Themes);
    ChildTableGrew(pre, b, m, cmaps, post, Flags);
    VectorPart(pre, b, m, cmaps, post);
  }
}
