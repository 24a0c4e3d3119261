/** What one committed APPLY does to the live file, said without its loops: which ids are
    minted, what each inserted row holds, and that everything else stays. */
module MergeSpec {
  import opened Options
  import opened BrollIndex
  import opened Drain

  /** `to` takes bundle ids to live ids. `back` takes a minted live id to the bundle row it was minted for. */
  datatype IdMap = IdMap(to: map<Id, Id>, back: map<Id, Id>)

  /** The columns both sides know keep their value; a column only the live file has gets its default. */
  function Conform(cols: Cols, defaults: Cols): Cols {
    map c | c in defaults :: if c in cols then cols[c] else defaults[c]
  }

  function Target(vmap: map<Id, Id>, ref: Option<Id>): Option<Id> {
    if ref.Some? && ref.value in vmap then Some(vmap[ref.value]) else None
  }

  function Matched(pre: Videos, b: Bundle): set<Id> {
    set id | id in b.keys && b.keys[id] in pre.index
  }

  /** The drained clips the published index lacks. */
  function Missing(pre: Videos, b: Bundle): set<Id> {
    b.videos.Keys - Matched(pre, b)
  }

  /** The minted ids are in one-to-one correspondence with the inserted bundle rows. */
  ghost predicate Traced(m: IdMap, inserted: set<Id>) {
    && (forall id {:trigger id in inserted} :: id in inserted ==>
        id in m.to && m.to[id] in m.back && m.back[m.to[id]] == id)
    && (forall live :: live in m.back ==>
        m.back[live] in inserted && m.back[live] in m.to && m.to[m.back[live]] == live)
  }

  /** A table that only gained rows, under the ids in `added`; with none gained it did not change at all. */
  ghost predicate Grown<T>(pre: map<Id, T>, preNext: int, added: set<Id>, post: map<Id, T>, postNext: int) {
    && post.Keys == pre.Keys + added
    && added !! pre.Keys
    && (forall id :: id in pre ==> id in post && post[id] == pre[id])
    && preNext <= postNext
    && (added == {} ==> postNext == preNext)
    && Minted(post, postNext)
  }

  /** A bundle id the published index already has keeps that index's id for its key. */
  ghost predicate MatchedAs(pre: Videos, b: Bundle, vmap: map<Id, Id>, id: Id) {
    id in vmap && id in b.keys && b.keys[id] in pre.index && vmap[id] == pre.index[b.keys[id]]
  }

  /** An inserted clip: its own key and columns, and a duplicate pointer said in live ids. */
  ghost predicate LandedAs(b: Bundle, defaults: Cols, vmap: map<Id, Id>, at: map<Id, Video>, id: Id) {
    && id in vmap && id in b.videos
    && vmap[id] in at
    && at[vmap[id]] == Video(b.videos[id].key, Target(vmap, b.videos[id].dup), Conform(b.videos[id].cols, defaults))
  }

  ghost predicate VideosMerged(pre: Videos, b: Bundle, defaults: Cols, m: IdMap, post: Videos) {
    && m.to.Keys == Matched(pre, b) + Missing(pre, b)
    && Traced(m, Missing(pre, b))
    && Grown(pre.at, pre.next, m.back.Keys, post.at, post.next)
    && Indexed(post)
    && (forall id :: id in Matched(pre, b) ==> MatchedAs(pre, b, m.to, id))
    && (forall id :: id in Missing(pre, b) ==> LandedAs(b, defaults, m.to, post.at, id))
  }

  /** The drained children of the inserted clips; none when the live file has no such table. */
  function Carried(schema: map<TableName, Cols>, t: ChildTable, rows: map<Id, Child>, missing: set<Id>): set<Id> {
    set c | c in rows && ChildT(t) in schema && rows[c].video in missing
  }

  ghost predicate ChildLandedAs(rows: map<Id, Child>, defaults: Cols, vmap: map<Id, Id>, cmap: map<Id, Id>,
      at: map<Id, Child>, c: Id) {
    && c in cmap && c in rows
    && rows[c].video in vmap
    && cmap[c] in at
    && at[cmap[c]] == Child(vmap[rows[c].video], Conform(rows[c].cols, defaults))
  }

  ghost predicate ChildrenMerged(pre: Rows<Child>, rows: map<Id, Child>, defaults: Cols, vmap: map<Id, Id>,
                                 carried: set<Id>, m: IdMap, post: Rows<Child>)
  {
    && m.to.Keys == carried
    && Traced(m, carried)
    && Grown(pre.at, pre.next, m.back.Keys, post.at, post.next)
    && (forall c :: c in carried ==> ChildLandedAs(rows, defaults, vmap, m.to, post.at, c))
  }

  /** The drained vectors of inserted clips whose own row came across. */
  function Travelling(b: Bundle, missing: set<Id>, cmaps: PerChild<IdMap>): set<Source> {
    set s | s in b.embeddings && b.embeddings[s].video in missing && s.child in cmaps.At(TableOf(s.kind)).to
  }

  function Moved(cmaps: PerChild<IdMap>, s: Source): Source
    requires s.child in cmaps.At(TableOf(s.kind)).to
  {
    Source(s.kind, cmaps.At(TableOf(s.kind)).to[s.child])
  }

  ghost predicate VectorLandedAs(pre: map<Source, Embedding>, b: Bundle, defaults: Cols, vmap: map<Id, Id>,
                                 cmaps: PerChild<IdMap>, post: map<Source, Embedding>, src: Source)
  {
    && src in b.embeddings
    && src.child in cmaps.At(TableOf(src.kind)).to
    && b.embeddings[src].video in vmap
    && Moved(cmaps, src) !in pre
    && Moved(cmaps, src) in post
    && post[Moved(cmaps, src)] == Embedding(vmap[b.embeddings[src].video], Conform(b.embeddings[src].cols, defaults))
  }

  /** A vector the file did not have before belongs to a minted row, whose bundle row's vector travelled. */
  ghost predicate MovedFrom(cmaps: PerChild<IdMap>, moving: set<Source>, s: Source) {
    && s.child in cmaps.At(TableOf(s.kind)).back
    && Source(s.kind, cmaps.At(TableOf(s.kind)).back[s.child]) in moving
  }

  ghost predicate EmbeddingsMerged(pre: map<Source, Embedding>, b: Bundle, defaults: Cols, vmap: map<Id, Id>,
                                   moving: set<Source>, cmaps: PerChild<IdMap>, post: map<Source, Embedding>)
  {
    && (forall s :: s in pre ==> s in post && post[s] == pre[s])
    && (forall s :: s in post && s !in pre ==> MovedFrom(cmaps, moving, s))
    && (forall src :: src in moving ==> VectorLandedAs(pre, b, defaults, vmap, cmaps, post, src))
  }

  function ConformRoot(r: Root, defaults: Cols): Root {
    Root(r.collection, Conform(r.cols, defaults))
  }

  function ConformBatch(r: Batch, defaults: Cols): Batch {
    Batch(r.share, Conform(r.cols, defaults))
  }

  function RemapItem(r: Item, vmap: map<Id, Id>, defaults: Cols): Item {
    Item(r.batch, Target(vmap, r.video), Target(vmap, r.dup), Conform(r.cols, defaults))
  }

  /** INSERT OR IGNORE: the published row wins. */
  function RootsMerged(pre: map<string, Root>, b: map<string, Root>, defaults: Cols): map<string, Root> {
    map s | s in b.Keys + pre.Keys :: if s in pre then pre[s] else ConformRoot(b[s], defaults)
  }

  /** INSERT OR REPLACE: the drained row wins. */
  function BatchesMerged(pre: map<string, Batch>, b: map<string, Batch>, defaults: Cols): map<string, Batch> {
    map u | u in pre.Keys + b.Keys :: if u in b then ConformBatch(b[u], defaults) else pre[u]
  }

  function ItemsMerged(pre: map<string, Item>, b: map<string, Item>, vmap: map<Id, Id>,
      defaults: Cols): map<string, Item> {
    map u | u in pre.Keys + b.Keys :: if u in b then RemapItem(b[u], vmap, defaults) else pre[u]
  }

  function Bumped(generation: Option<int>): Option<int> {
    Some(if generation.Some? then generation.value + 1 else 1)
  }

  function DefaultsIn(schema: map<TableName, Cols>, t: TableName): Cols {
    if t in schema then schema[t] else map[]
  }

  ghost predicate TableMerged(schema: map<TableName, Cols>, pre: PerChild<Rows<Child>>, b: Bundle, vmap: map<Id, Id>,
                              missing: set<Id>, cmaps: PerChild<IdMap>, post: PerChild<Rows<Child>>, t: ChildTable)
  {
    ChildrenMerged(pre.At(t), b.children.At(t), DefaultsIn(schema, ChildT(t)), vmap,
                   Carried(schema, t, b.children.At(t), missing), cmaps.At(t), post.At(t))
  }

  ghost predicate AllTablesMerged(schema: map<TableName, Cols>, pre: PerChild<Rows<Child>>, b: Bundle,
      vmap: map<Id, Id>,
                                  missing: set<Id>, cmaps: PerChild<IdMap>, post: PerChild<Rows<Child>>)
  {
    forall t: ChildTable :: TableMerged(schema, pre, b, vmap, missing, cmaps, post, t)
  }

  ghost predicate AllChildrenMerged(pre: Db, b: Bundle, vmap: map<Id, Id>, cmaps: PerChild<IdMap>, post: Db) {
    AllTablesMerged(pre.schema, pre.children, b, vmap, Missing(pre.videos, b), cmaps, post.children)
  }

  ghost predicate VectorsMerged(pre: Db, b: Bundle, vmap: map<Id, Id>, cmaps: PerChild<IdMap>, post: Db) {
    if EmbeddingT in pre.schema
    then EmbeddingsMerged(pre.embeddings, b, DefaultsIn(pre.schema, EmbeddingT), vmap,
                          Travelling(b, Missing(pre.videos, b), cmaps), cmaps, post.embeddings)
    else post.embeddings == pre.embeddings
  }

  ghost predicate LedgersMerged(pre: Db, b: Bundle, vmap: map<Id, Id>, post: Db) {
    && post.roots == (if RootT in pre.schema then RootsMerged(pre.roots, b.roots, DefaultsIn(pre.schema, RootT))
        else pre.roots)
    && post.batches == (if BatchT in pre.schema then
        BatchesMerged(pre.batches, b.batches, DefaultsIn(pre.schema, BatchT)) else pre.batches)
    && post.items == (if ItemT in pre.schema then
        ItemsMerged(pre.items, b.items, vmap, DefaultsIn(pre.schema, ItemT)) else pre.items)
  }

  /** `post` is `pre` with the bundle merged into it once, under these id maps. */
  ghost predicate Merged(pre: Db, b: Bundle, m: IdMap, cmaps: PerChild<IdMap>, post: Db) {
    && post.schema == pre.schema
    && VideosMerged(pre.videos, b, DefaultsIn(pre.schema, VideoT), m, post.videos)
    && AllChildrenMerged(pre, b, m.to, cmaps, post)
    && VectorsMerged(pre, b, m.to, cmaps, post)
    && LedgersMerged(pre, b, m.to, post)
    && post.generation == (if Missing(pre.videos, b) != {} && MetaT in pre.schema then Bumped(pre.generation)
        else pre.generation)
  }
}
