/** One statement of the merge at a time: what a loop has done so far, and that one more
    insert or update keeps it so. */
module MergeSteps {
  import opened Options
  import opened BrollIndex
  import opened Drain
  import opened MergeSpec

  function Inserted<T>(cur: Rows<T>, row: T): Rows<T> {
    Rows(cur.at[Rowid(cur.next) := row], cur.next + 1)
  }

  /** INSERT into `videos`: the row goes in under the next id, and the UNIQUE index learns its key. */
  function InsertedVideo(cur: Videos, row: Video): Videos {
    Videos(cur.at[Rowid(cur.next) := row], cur.next + 1, cur.index[row.key := Rowid(cur.next)])
  }

  function Noted(m: IdMap, id: Id, live: Id): IdMap {
    IdMap(m.to[id := live], m.back[live := id])
  }

  lemma GrowOne<T>(pre: map<Id, T>, preNext: int, added: set<Id>, cur: map<Id, T>, next: int, row: T)
    requires Grown(pre, preNext, added, cur, next) && Minted(pre, preNext)
    ensures Rowid(next) !in cur && Rowid(next) !in added && Minted(cur, next)
    ensures Grown(pre, preNext, added + {Rowid(next)}, cur[Rowid(next) := row], next + 1)
  {
  }

  lemma TraceOne(m: IdMap, inserted: set<Id>, id: Id, live: Id)
    requires Traced(m, inserted) && id !in inserted && live !in m.back
    ensures Traced(Noted(m, id, live), inserted + {id})
    ensures Noted(m, id, live).back.Keys == m.back.Keys + {live}
  {
  }

  lemma IndexOne(cur: Videos, row: Video)
    requires Indexed(cur) && Minted(cur.at, cur.next) && row.key !in cur.index
    ensures Indexed(InsertedVideo(cur, row))
  {
  }

  /** Between the two passes over `videos`: the row is in, but its pointer is still a bundle id. */
  ghost predicate StagedAs(b: Bundle, defaults: Cols, vmap: map<Id, Id>, at: map<Id, Video>, id: Id) {
    && id in vmap && id in b.videos
    && vmap[id] in at
    && at[vmap[id]] == StaleRow(b.videos[id], defaults)
  }

  function StaleRow(v: Video, defaults: Cols): Video {
    Video(v.key, v.dup, Conform(v.cols, defaults))
  }

  /** Every bundle id seen so far has a live id: the one found under its key, or a minted one. */
  ghost predicate Minting(pre: Videos, inserted: set<Id>, found: map<Id, Id>, m: IdMap, cur: Videos) {
    && m.to.Keys == found.Keys + inserted
    && found.Keys !! inserted
    && (forall id :: id in found ==> id in m.to && m.to[id] == found[id])
    && Traced(m, inserted)
    && Grown(pre.at, pre.next, m.back.Keys, cur.at, cur.next)
    && Indexed(cur)
  }

  /** `pointed` is how far the second pass has got: those rows hold live pointers, the others bundle ids. */
  ghost predicate Pointed(b: Bundle, defaults: Cols, inserted: set<Id>, pointed: set<Id>, m: IdMap, cur: Videos) {
    && (forall id :: id in inserted && id in pointed ==> LandedAs(b, defaults, m.to, cur.at, id))
    && (forall id :: id in inserted && id !in pointed ==> StagedAs(b, defaults, m.to, cur.at, id))
  }

  /** Both records of an insert at once: the table grew by the row, and the map knows whose it is. */
  lemma NoteInsert<T>(pre: map<Id, T>, preNext: int, m: IdMap, inserted: set<Id>, cur: map<Id, T>, next: int,
                       id: Id, row: T, post: map<Id, T>, postNext: int)
    requires Minted(pre, preNext) && Traced(m, inserted) && id !in inserted
    requires Grown(pre, preNext, m.back.Keys, cur, next)
    requires post == cur[Rowid(next) := row] && postNext == next + 1
    ensures Rowid(next) !in cur && Minted(cur, next)
    ensures Traced(Noted(m, id, Rowid(next)), inserted + {id})
    ensures Grown(pre, preNext, Noted(m, id, Rowid(next)).back.Keys, post, postNext)
  {
    hide Traced;
    GrowOne(pre, preNext, m.back.Keys, cur, next, row);
    TraceOne(m, inserted, id, Rowid(next));
  }

  lemma MintOne(pre: Videos, inserted: set<Id>, found: map<Id, Id>, m: IdMap, cur: Videos, id: Id, row: Video)
    requires Minted(pre.at, pre.next) && Minting(pre, inserted, found, m, cur)
    requires id !in m.to && row.key !in cur.index
    ensures Rowid(cur.next) !in cur.at
    ensures Minting(pre, inserted + {id}, found, Noted(m, id, Rowid(cur.next)), InsertedVideo(cur, row))
  {
    hide Traced, Indexed, Grown, Minted;
    NoteInsert(pre.at, pre.next, m, inserted, cur.at, cur.next, id, row, InsertedVideo(cur, row).at,
        InsertedVideo(cur, row).next);
    IndexOne(cur, row);
  }

  lemma StageOne(b: Bundle, defaults: Cols, inserted: set<Id>, m: IdMap, cur: Videos, id: Id)
    requires Pointed(b, defaults, inserted, {}, m, cur)
    requires id in b.videos && id !in m.to && Rowid(cur.next) !in cur.at
    ensures Pointed(b, defaults, inserted + {id}, {}, Noted(m, id, Rowid(cur.next)),
            InsertedVideo(cur, StaleRow(b.videos[id], defaults)))
  {
    var next := InsertedVideo(cur, StaleRow(b.videos[id], defaults));
    forall i | i in inserted + {id}
      ensures StagedAs(b, defaults, m.to[id := Rowid(cur.next)], next.at, i)
    {
      if i != id {
        assert StagedAs(b, defaults, m.to, cur.at, i);
      }
    }
  }

  /** A key already in the file belongs to a bundle id the map already has. */
  lemma LiveKeyIsMapped(pre: Videos, b: Bundle, defaults: Cols, inserted: set<Id>, found: map<Id, Id>, m: IdMap,
      cur: Videos, id: Id)
    requires Indexed(pre) && KeysCovered(b) && found.Keys == Matched(pre, b)
    requires Minting(pre, inserted, found, m, cur) && Pointed(b, defaults, inserted, {}, m, cur)
    requires id in b.keys && b.keys[id] in cur.index
    ensures id in m.to
  {
    var live := cur.index[b.keys[id]];
    if live in pre.at {
      assert pre.at[live] == cur.at[live];
    } else {
      assert StagedAs(b, defaults, m.to, cur.at, m.back[live]);
      assert m.back[live] == id;
    }
  }

  function SetDup(cur: Videos, live: Id, dup: Option<Id>): Videos
    requires live in cur.at
  {
    cur.(at := cur.at[live := cur.at[live].(dup := dup)])
  }

  lemma SetDupKeepsIndexed(cur: Videos, live: Id, dup: Option<Id>)
    requires Indexed(cur) && live in cur.at
    ensures Indexed(SetDup(cur, live, dup))
  {
  }

  lemma SetDupKeepsGrown(pre: Videos, minted: set<Id>, cur: Videos, live: Id, dup: Option<Id>)
    requires Grown(pre.at, pre.next, minted, cur.at, cur.next) && live in minted && live in cur.at
    ensures Grown(pre.at, pre.next, minted, SetDup(cur, live, dup).at, cur.next)
  {
    assert SetDup(cur, live, dup).at.Keys == cur.at.Keys;
  }

  lemma SetDupKeepsMinting(pre: Videos, inserted: set<Id>, found: map<Id, Id>, m: IdMap, cur: Videos, live: Id,
      dup: Option<Id>)
    requires Minting(pre, inserted, found, m, cur) && live in m.back && live in cur.at
    ensures Minting(pre, inserted, found, m, SetDup(cur, live, dup))
  {
    hide Traced, Indexed, Grown;
    SetDupKeepsIndexed(cur, live, dup);
    SetDupKeepsGrown(pre, m.back.Keys, cur, live, dup);
  }

  lemma RepointRow(b: Bundle, defaults: Cols, vmap: map<Id, Id>, cur: Videos, id: Id, i: Id, dup: Option<Id>)
    requires id in vmap && i in vmap && vmap[id] in cur.at
    requires i != id ==> vmap[i] != vmap[id]
    ensures i != id && LandedAs(b, defaults, vmap, cur.at, i) ==>
            LandedAs(b, defaults, vmap, SetDup(cur, vmap[id], dup).at, i)
    ensures i != id && StagedAs(b, defaults, vmap, cur.at, i) ==>
            StagedAs(b, defaults, vmap, SetDup(cur, vmap[id], dup).at, i)
    ensures i == id && StagedAs(b, defaults, vmap, cur.at, i) && dup == Target(vmap, b.videos[i].dup) ==>
              LandedAs(b, defaults, vmap, SetDup(cur, vmap[id], dup).at, i)
  {
  }

  /** One step of the second pass: that row's pointer becomes a live one, and no other row, published or
      inserted, changes. */
  lemma RepointOne(b: Bundle, defaults: Cols, inserted: set<Id>, pointed: set<Id>, m: IdMap, cur: Videos, id: Id)
    requires Traced(m, inserted) && Pointed(b, defaults, inserted, pointed, m, cur)
    requires id in inserted && id in b.videos && id !in pointed
    ensures m.to[id] in m.back && m.to[id] in cur.at
    ensures Pointed(b, defaults, inserted, pointed + {id}, m, SetDup(cur, m.to[id], Target(m.to, b.videos[id].dup)))
    ensures var next := SetDup(cur, m.to[id], Target(m.to, b.videos[id].dup));
            && next.at.Keys == cur.at.Keys && next.index == cur.index && next.next == cur.next
            && forall live :: live in cur.at && live != m.to[id] ==> next.at[live] == cur.at[live]
  {
    assert StagedAs(b, defaults, m.to, cur.at, id);
    var dup := Target(m.to, b.videos[id].dup);
    forall i | i in inserted
      ensures i in pointed + {id} ==> LandedAs(b, defaults, m.to, SetDup(cur, m.to[id], dup).at, i)
      ensures i !in pointed + {id} ==> StagedAs(b, defaults, m.to, SetDup(cur, m.to[id], dup).at, i)
    {
      assert m.to[i] == m.to[id] ==> m.back[m.to[i]] == m.back[m.to[id]];
      RepointRow(b, defaults, m.to, cur, id, i, dup);
    }
  }

  /** When both passes are over no stale pointer is left. */
  lemma PointedMeansMerged(pre: Videos, b: Bundle, defaults: Cols, found: map<Id, Id>, pointed: set<Id>, m: IdMap,
      cur: Videos)
    requires found.Keys == Matched(pre, b)
    requires forall id :: id in found ==> MatchedAs(pre, b, found, id)
    requires forall id :: id in b.videos && b.videos[id].dup.Some? ==> id in pointed
    requires Minting(pre, Missing(pre, b), found, m, cur)
    requires Pointed(b, defaults, Missing(pre, b), pointed, m, cur)
    ensures VideosMerged(pre, b, defaults, m, cur)
  {
    hide Traced, Grown, Indexed;
    forall id | id in Matched(pre, b)
      ensures MatchedAs(pre, b, m.to, id)
    {
      assert MatchedAs(pre, b, found, id);
    }
    forall id | id in Missing(pre, b)
      ensures LandedAs(b, defaults, m.to, cur.at, id)
    {
      if id !in pointed {
        assert StagedAs(b, defaults, m.to, cur.at, id);
      }
    }
  }

  /** How the program tells an inserted clip: its live id is one this merge minted. */
  ghost predicate Tells(m: IdMap, missing: set<Id>) {
    forall id :: id in m.to && m.to[id] in m.back <==> id in missing
  }

  lemma MintedTells(pre: Videos, b: Bundle, found: map<Id, Id>, m: IdMap, cur: Videos)
    requires Indexed(pre) && Minting(pre, Missing(pre, b), found, m, cur)
    requires forall i :: i in found ==> MatchedAs(pre, b, found, i)
    ensures Tells(m, Missing(pre, b))
  {
    forall id | id in m.to && id !in Missing(pre, b)
      ensures m.to[id] !in m.back
    {
      assert MatchedAs(pre, b, found, id);
    }
  }

  function CarriedRow(rows: map<Id, Child>, defaults: Cols, vmap: map<Id, Id>, c: Id): Child
    requires c in rows && rows[c].video in vmap
  {
    Child(vmap[rows[c].video], Conform(rows[c].cols, defaults))
  }

  lemma CarryOne(pre: Rows<Child>, rows: map<Id, Child>, defaults: Cols, vmap: map<Id, Id>, carried: set<Id>,
                 m: IdMap, cur: Rows<Child>, c: Id)
    requires Minted(pre.at, pre.next) && ChildrenMerged(pre, rows, defaults, vmap, carried, m, cur)
    requires c in rows && c !in carried && rows[c].video in vmap
    ensures ChildrenMerged(pre, rows, defaults, vmap, carried + {c}, Noted(m, c, Rowid(cur.next)),
                           Inserted(cur, CarriedRow(rows, defaults, vmap, c)))
  {
    hide Traced, Grown, Minted, ChildLandedAs;
    var row := CarriedRow(rows, defaults, vmap, c);
    NoteInsert(pre.at, pre.next, m, carried, cur.at, cur.next, c, row, Inserted(cur, row).at, Inserted(cur, row).next);
    CarryRows(rows, defaults, vmap, carried, m.to, cur, c);
  }

  lemma CarryRows(rows: map<Id, Child>, defaults: Cols, vmap: map<Id, Id>, carried: set<Id>, cmap: map<Id, Id>,
      cur: Rows<Child>, c: Id)
    requires c in rows && rows[c].video in vmap && Rowid(cur.next) !in cur.at
    requires forall i :: i in carried ==> ChildLandedAs(rows, defaults, vmap, cmap, cur.at, i)
    ensures forall i :: i in carried + {c} ==>
              ChildLandedAs(rows, defaults, vmap, cmap[c := Rowid(cur.next)],
                  Inserted(cur, CarriedRow(rows, defaults, vmap, c)).at, i)
  {
    forall i | i in carried + {c}
      ensures ChildLandedAs(rows, defaults, vmap, cmap[c := Rowid(cur.next)],
              Inserted(cur, CarriedRow(rows, defaults, vmap, c)).at, i)
    {
      assert i != c ==> ChildLandedAs(rows, defaults, vmap, cmap, cur.at, i);
    }
  }

  lemma NothingCarried(pre: Rows<Child>, rows: map<Id, Child>, defaults: Cols, vmap: map<Id, Id>)
    requires Minted(pre.at, pre.next)
    ensures ChildrenMerged(pre, rows, defaults, vmap, {}, IdMap(map[], map[]), pre)
  {
  }

  /** The tables in `done` are merged, the others as they were. */
  ghost predicate TablesSoFar(schema: map<TableName, Cols>, pre: PerChild<Rows<Child>>, b: Bundle, vmap: map<Id, Id>,
      missing: set<Id>,
                              done: set<ChildTable>, cmaps: PerChild<IdMap>, cur: PerChild<Rows<Child>>)
  {
    && (forall t :: t in done ==> TableMerged(schema, pre, b, vmap, missing, cmaps, cur, t))
    && (forall t: ChildTable :: t !in done ==> cur.At(t) == pre.At(t))
  }

  lemma PutOne<T>(all: PerChild<T>, t: ChildTable, v: T)
    ensures all.Put(t, v).At(t) == v
    ensures forall u: ChildTable :: u != t ==> all.Put(t, v).At(u) == all.At(u)
  {
  }

  lemma TableStaysMerged(schema: map<TableName, Cols>, pre: PerChild<Rows<Child>>, b: Bundle, vmap: map<Id, Id>,
                         missing: set<Id>, known: PerChild<IdMap>, before: PerChild<Rows<Child>>,
                         cmaps: PerChild<IdMap>, after: PerChild<Rows<Child>>, t: ChildTable)
    requires TableMerged(schema, pre, b, vmap, missing, known, before, t)
    requires after.At(t) == before.At(t) && cmaps.At(t) == known.At(t)
    ensures TableMerged(schema, pre, b, vmap, missing, cmaps, after, t)
  {
  }

  lemma OneMoreTable(schema: map<TableName, Cols>, pre: PerChild<Rows<Child>>, b: Bundle, vmap: map<Id, Id>,
      missing: set<Id>,
                     done: set<ChildTable>, known: PerChild<IdMap>, before: PerChild<Rows<Child>>,
                     t: ChildTable, m: IdMap, after: PerChild<Rows<Child>>)
    requires TablesSoFar(schema, pre, b, vmap, missing, done, known, before)
    requires forall u: ChildTable :: u != t ==> after.At(u) == before.At(u)
    requires ChildrenMerged(pre.At(t), b.children.At(t), DefaultsIn(schema, ChildT(t)), vmap,
                            Carried(schema, t, b.children.At(t), missing), m, after.At(t))
    ensures TablesSoFar(schema, pre, b, vmap, missing, done + {t}, known.Put(t, m), after)
  {
    hide ChildrenMerged;
    PutOne(known, t, m);
    forall u | u in done + {t}
      ensures TableMerged(schema, pre, b, vmap, missing, known.Put(t, m), after, u)
    {
      if u != t {
        TableStaysMerged(schema, pre, b, vmap, missing, known, before, known.Put(t, m), after, u);
      }
    }
  }

  lemma NoTableYet(schema: map<TableName, Cols>, pre: PerChild<Rows<Child>>, b: Bundle, vmap: map<Id, Id>,
      missing: set<Id>,
                   cmaps: PerChild<IdMap>)
    ensures TablesSoFar(schema, pre, b, vmap, missing, {}, cmaps, pre)
  {
  }

  lemma UndoneTable(schema: map<TableName, Cols>, pre: PerChild<Rows<Child>>, b: Bundle, vmap: map<Id, Id>,
      missing: set<Id>,
                    done: set<ChildTable>, cmaps: PerChild<IdMap>, cur: PerChild<Rows<Child>>, t: ChildTable)
    requires TablesSoFar(schema, pre, b, vmap, missing, done, cmaps, cur) && t !in done
    ensures cur.At(t) == pre.At(t)
  {
  }

  lemma EveryTableMerged(schema: map<TableName, Cols>, pre: PerChild<Rows<Child>>, b: Bundle, vmap: map<Id, Id>,
      missing: set<Id>,
                         done: set<ChildTable>, cmaps: PerChild<IdMap>, cur: PerChild<Rows<Child>>)
    requires TablesSoFar(schema, pre, b, vmap, missing, done, cmaps, cur)
    requires forall t: ChildTable :: t in done
    ensures AllTablesMerged(schema, pre, b, vmap, missing, cmaps, cur)
  {
    hide ChildrenMerged;
  }

  function CarriedCount(cmaps: PerChild<IdMap>): nat {
    |cmaps.segments.to| + |cmaps.transcripts.to| + |cmaps.themes.to| + |cmaps.flags.to|
  }

  lemma CountOneTable(cmaps: PerChild<IdMap>, t: ChildTable, m: IdMap)
    requires cmaps.At(t).to == map[]
    ensures CarriedCount(cmaps.Put(t, m)) == CarriedCount(cmaps) + |m.to|
  {
  }

  lemma NoVectorYet(pre: map<Source, Embedding>, b: Bundle, defaults: Cols, vmap: map<Id, Id>, cmaps: PerChild<IdMap>)
    ensures EmbeddingsMerged(pre, b, defaults, vmap, {}, cmaps, pre)
  {
  }

  ghost predicate Unused(pre: map<Source, Embedding>, cmaps: PerChild<IdMap>) {
    forall kind: string, c :: c in cmaps.At(TableOf(kind)).to ==> Source(kind, cmaps.At(TableOf(kind)).to[c]) !in pre
  }

  ghost predicate Invertible(cmaps: PerChild<IdMap>) {
    forall t: ChildTable, c :: c in cmaps.At(t).to ==>
      cmaps.At(t).to[c] in cmaps.At(t).back && cmaps.At(t).back[cmaps.At(t).to[c]] == c
  }

  /** The ids minted for child rows are named by no vector: a vector names a row of its own file. */
  lemma MintedChildrenAreUnused(pre: Db, b: Bundle, vmap: map<Id, Id>, cmaps: PerChild<IdMap>,
      post: PerChild<Rows<Child>>)
    requires EmbeddingsHold(pre.embeddings, pre.children)
    requires AllTablesMerged(pre.schema, pre.children, b, vmap, Missing(pre.videos, b), cmaps, post)
    ensures Unused(pre.embeddings, cmaps) && Invertible(cmaps)
  {
    forall kind: string, c | c in cmaps.At(TableOf(kind)).to
      ensures Source(kind, cmaps.At(TableOf(kind)).to[c]) !in pre.embeddings
    {
      MintedChildIsNew(pre.schema, pre.children, b, vmap, Missing(pre.videos, b), cmaps, post, TableOf(kind), c);
    }
    forall t: ChildTable, c | c in cmaps.At(t).to
      ensures cmaps.At(t).to[c] in cmaps.At(t).back && cmaps.At(t).back[cmaps.At(t).to[c]] == c
    {
      MintedChildIsNew(pre.schema, pre.children, b, vmap, Missing(pre.videos, b), cmaps, post, t, c);
    }
  }

  lemma MintedChildIsNew(schema: map<TableName, Cols>, pre: PerChild<Rows<Child>>, b: Bundle, vmap: map<Id, Id>,
      missing: set<Id>,
                         cmaps: PerChild<IdMap>, post: PerChild<Rows<Child>>, t: ChildTable, c: Id)
    requires TableMerged(schema, pre, b, vmap, missing, cmaps, post, t) && c in cmaps.At(t).to
    ensures cmaps.At(t).to[c] !in pre.At(t).at
    ensures cmaps.At(t).to[c] in cmaps.At(t).back && cmaps.At(t).back[cmaps.At(t).to[c]] == c
  {
  }

  function MovedRow(b: Bundle, defaults: Cols, vmap: map<Id, Id>, src: Source): Embedding
    requires src in b.embeddings && b.embeddings[src].video in vmap
  {
    Embedding(vmap[b.embeddings[src].video], Conform(b.embeddings[src].cols, defaults))
  }

  lemma TakenKeyWasMoved(pre: map<Source, Embedding>, b: Bundle, defaults: Cols, vmap: map<Id, Id>, moving: set<Source>,
                         cmaps: PerChild<IdMap>, cur: map<Source, Embedding>, src: Source)
    requires Invertible(cmaps) && EmbeddingsMerged(pre, b, defaults, vmap, moving, cmaps, cur)
    requires src.child in cmaps.At(TableOf(src.kind)).to
    requires Moved(cmaps, src) in cur && Moved(cmaps, src) !in pre
    ensures src in moving
  {
    assert MovedFrom(cmaps, moving, Moved(cmaps, src));
  }

  /** INSERT OR REPLACE never replaces here: the key it writes was free. */
  lemma MoveOne(pre: map<Source, Embedding>, b: Bundle, defaults: Cols, vmap: map<Id, Id>, moving: set<Source>,
                cmaps: PerChild<IdMap>, cur: map<Source, Embedding>, src: Source)
    requires Unused(pre, cmaps) && Invertible(cmaps)
    requires EmbeddingsMerged(pre, b, defaults, vmap, moving, cmaps, cur)
    requires src in b.embeddings && src !in moving
    requires src.child in cmaps.At(TableOf(src.kind)).to && b.embeddings[src].video in vmap
    ensures Moved(cmaps, src) !in cur
    ensures EmbeddingsMerged(pre, b, defaults, vmap, moving + {src}, cmaps,
            cur[Moved(cmaps, src) := MovedRow(b, defaults, vmap, src)])
  {
    var key := Moved(cmaps, src);
    if key in cur {
      TakenKeyWasMoved(pre, b, defaults, vmap, moving, cmaps, cur, src);
    }
    var next := cur[key := MovedRow(b, defaults, vmap, src)];
    forall s | s in next && s !in pre
      ensures MovedFrom(cmaps, moving + {src}, s)
    {
      if s != key {
        assert MovedFrom(cmaps, moving, s);
      }
    }
    forall i | i in moving + {src}
      ensures VectorLandedAs(pre, b, defaults, vmap, cmaps, next, i)
    {
      if i != src {
        assert VectorLandedAs(pre, b, defaults, vmap, cmaps, cur, i);
      }
    }
  }

  /** The part of a table the cursor has passed. */
  function Seen<V>(m: map<string, V>, rest: set<string>): map<string, V> {
    map k | k in m && k !in rest :: m[k]
  }

  lemma RootStep(pre: map<string, Root>, b: map<string, Root>, defaults: Cols, rest: set<string>, s: string)
    requires s in b && s in rest
    ensures var cur := RootsMerged(pre, Seen(b, rest), defaults);
            && (s in cur <==> s in pre)
            && RootsMerged(pre, Seen(b, rest - {s}), defaults) == if s in cur then cur
                else cur[s := ConformRoot(b[s], defaults)]
  {
    var cur, next := RootsMerged(pre, Seen(b, rest), defaults), RootsMerged(pre, Seen(b, rest - {s}), defaults);
    if s !in pre {
      assert next == cur[s := ConformRoot(b[s], defaults)];
    } else {
      assert next == cur;
    }
  }

  lemma BatchStep(pre: map<string, Batch>, b: map<string, Batch>, defaults: Cols, rest: set<string>, u: string)
    requires u in b && u in rest
    ensures BatchesMerged(pre, Seen(b, rest - {u}), defaults) ==
            BatchesMerged(pre, Seen(b, rest), defaults)[u := ConformBatch(b[u], defaults)]
  {
    hide ConformBatch;
  }

  lemma ItemStep(pre: map<string, Item>, b: map<string, Item>, vmap: map<Id, Id>, defaults: Cols, rest: set<string>,
      u: string)
    requires u in b && u in rest
    ensures ItemsMerged(pre, Seen(b, rest - {u}), vmap, defaults) ==
            ItemsMerged(pre, Seen(b, rest), vmap, defaults)[u := RemapItem(b[u], vmap, defaults)]
  {
    hide RemapItem;
  }

  lemma NothingSeen<V>(m: map<string, V>)
    ensures Seen(m, m.Keys) == map[]
  {
  }

  lemma AllSeen<V>(m: map<string, V>, rest: set<string>)
    requires rest == {}
    ensures Seen(m, rest) == m
  {
  }
}
