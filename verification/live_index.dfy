/** APPLY: the merge as the container runs it against the live file, one statement after
    another inside one transaction. */
module LiveFile {
  import opened Options
  import opened Cursors
  import opened BrollIndex
  import opened Drain
  import opened MergeSpec
  import opened MergeSteps

  datatype Report = Report(videosInserted: nat, videosAlreadyThere: nat, children: nat, embeddings: nat,
                           shareRoots: nat, batches: nat, items: nat)

  datatype Outcome = Committed(report: Report) | RolledBack

  /** What the printed report counts. */
  ghost predicate Reports(pre: Db, b: Bundle, cmaps: PerChild<IdMap>, post: Db, r: Report) {
    && r.videosInserted == |Missing(pre.videos, b)|
    && r.videosInserted + r.videosAlreadyThere == |b.videos|
    && r.children == CarriedCount(cmaps)
    && r.embeddings == (if EmbeddingT in pre.schema then |Travelling(b, Missing(pre.videos, b), cmaps)| else 0)
    && r.shareRoots == |post.roots| - |pre.roots|
    && r.batches == (if BatchT in pre.schema then |b.batches| else 0)
    && r.items == (if ItemT in pre.schema then |b.items| else 0)
  }

  const CHILD_TABLES: seq<ChildTable> := [Segments, Transcripts, Themes, Flags]

  predicate Distinct(rest: seq<ChildTable>) {
    forall i, j :: 0 <= i < j < |rest| ==> rest[i] != rest[j]
  }

  lemma DropFirst(rest: seq<ChildTable>)
    requires rest != [] && Distinct(rest)
    ensures Distinct(rest[1..])
    ensures forall t: ChildTable :: t in rest[1..] <==> t in rest && t != rest[0]
  {
    assert rest == [rest[0]] + rest[1..];
  }

  lemma AllTablesListed()
    ensures forall t: ChildTable :: t in CHILD_TABLES
    ensures Distinct(CHILD_TABLES)
  {
    forall t: ChildTable
      ensures t in CHILD_TABLES
    {
      assert CHILD_TABLES[0] == Segments && CHILD_TABLES[1] == Transcripts && CHILD_TABLES[2] == Themes
          && CHILD_TABLES[3] == Flags;
      match t case Segments => case Transcripts => case Themes => case Flags =>
    }
  }

  /** Moving the cursor past one row: `wanted - rest` is what it has passed of the wanted rows. */
  lemma Advance<T>(rest: set<T>, wanted: set<T>, row: T)
    requires row in rest
    ensures row in wanted ==>
            wanted - (rest - {row}) == wanted - rest + {row} && |wanted - rest + {row}| == |wanted - rest| + 1
    ensures row !in wanted ==> wanted - (rest - {row}) == wanted - rest
    ensures |rest - {row}| == |rest| - 1
  {
  }

  lemma AllPassed<T>(rest: set<T>, wanted: set<T>)
    requires rest == {}
    ensures wanted - rest == wanted
  {
  }

  lemma NonePassed<T>(rest: set<T>, wanted: set<T>)
    requires wanted <= rest
    ensures wanted - rest == {}
  {
  }

  lemma MintingStart(pre: Videos, b: Bundle, defaults: Cols, found: map<Id, Id>)
    requires Minted(pre.at, pre.next) && Indexed(pre)
    ensures Minting(pre, {}, found, IdMap(found, map[]), pre)
    ensures Pointed(b, defaults, {}, {}, IdMap(found, map[]), pre)
  {
  }

  lemma TravelsWhenMoved(b: Bundle, m: IdMap, cmaps: PerChild<IdMap>, missing: set<Id>, s: Source)
    requires Tells(m, missing) && s in b.embeddings
    ensures s in Travelling(b, missing, cmaps) <==>
            b.embeddings[s].video in m.to && m.to[b.embeddings[s].video] in m.back
                && s.child in cmaps.At(TableOf(s.kind)).to
  {
  }

  /** The rows the loop over a child table picks: those whose clip has a freshly minted id. */
  lemma CarriedWhenMinted(schema: map<TableName, Cols>, t: ChildTable, rows: map<Id, Child>, m: IdMap,
      missing: set<Id>, c: Id)
    requires Tells(m, missing) && c in rows && ChildT(t) in schema
    ensures c in Carried(schema, t, rows, missing) <==> rows[c].video in m.to && m.to[rows[c].video] in m.back
  {
  }

  class LiveIndex {
    const schema: map<TableName, Cols>
    var videos: Videos
    var children: PerChild<Rows<Child>>
    var embeddings: map<Source, Embedding>
    var roots: map<string, Root>
    var batches: map<string, Batch>
    var items: map<string, Item>
    var generation: Option<int>

    function Contents(): Db
      reads this
    {
      Db(schema, videos, children, embeddings, roots, batches, items, generation)
    }

    function Defaults(t: TableName): Cols {
      DefaultsIn(schema, t)
    }

    constructor Open(db: Db)
      ensures Contents() == db
    {
      schema := db.schema;
      videos := db.videos;
      children := db.children;
      embeddings := db.embeddings;
      roots := db.roots;
      batches := db.batches;
      items := db.items;
      generation := db.generation;
    }

    /** The id map before anything is inserted: bundle ids whose key the live file already has. */
    method MatchKeys(b: Bundle) returns (found: map<Id, Id>)
      ensures found.Keys == Matched(videos, b)
      ensures forall id :: id in found ==> MatchedAs(videos, b, found, id)
    {
      found := map[];
      var rest := b.keys.Keys;
      while rest != {}
        invariant rest <= b.keys.Keys
        invariant found.Keys == Matched(videos, b) - rest
        invariant forall id :: id in found ==> MatchedAs(videos, b, found, id)
        decreases |rest|
      {
        var id := Next(rest);
        rest := rest - {id};
        ghost var before := found;
        if b.keys[id] in videos.index {
          found := found[id := videos.index[b.keys[id]]];
        }
        assert forall i :: i in before ==> MatchedAs(videos, b, before, i);
      }
    }

    /** One bundle row: counted when its clip is known, refused when its key would clash, else inserted.
        A write raises when the fuse has burnt down to 0; a negative fuse never does. That stands for a
        locked file, a full disk, or a CHECK the live schema added. */
    method InsertVideo(b: Bundle, id: Id, m: IdMap, there: nat, fuse: int,
                       ghost pre: Videos, ghost rest: set<Id>, ghost found: map<Id, Id>)
      returns (m': IdMap, there': nat, left: int, raised: bool)
      requires id in b.videos && id in rest
      requires Minted(pre.at, pre.next) && Indexed(pre) && found.Keys == Matched(pre, b)
      requires Minting(pre, Missing(pre, b) - rest, found, m, videos)
      requires Pointed(b, Defaults(VideoT), Missing(pre, b) - rest, {}, m, videos)
      modifies this`videos
      ensures !raised ==> Minting(pre, Missing(pre, b) - (rest - {id}), found, m', videos)
      ensures !raised ==> Pointed(b, Defaults(VideoT), Missing(pre, b) - (rest - {id}), {}, m', videos)
      ensures !raised ==> there' + |Missing(pre, b) - (rest - {id})| == there + |Missing(pre, b) - rest| + 1
      ensures fuse < 0 ==> left < 0
      ensures fuse < 0 && KeysCovered(b) ==> !raised
    {
      hide Traced, Grown, Minted, LandedAs, StagedAs;
      m', there', left, raised := m, there, fuse, false;
      Advance(rest, Missing(pre, b), id);
      if id in m.to {
        there' := there + 1;
        return;
      }
      var row := StaleRow(b.videos[id], Defaults(VideoT));
      if row.key in videos.index || fuse == 0 {
        if fuse < 0 && KeysCovered(b) {
          LiveKeyIsMapped(pre, b, Defaults(VideoT), Missing(pre, b) - rest, found, m, videos, id);
        }
        raised := true;
        return;
      }
      left := fuse - 1;
      hide Indexed, Pointed;
      MintOne(pre, Missing(pre, b) - rest, found, m, videos, id, row);
      StageOne(b, Defaults(VideoT), Missing(pre, b) - rest, m, videos, id);
      m' := Noted(m, id, Rowid(videos.next));
      videos := InsertedVideo(videos, row);
    }

    /** Clips the live file lacks go in under new ids, with the pointers they came with. */
    method InsertVideos(b: Bundle, found: map<Id, Id>, fuse: int)
      returns (m: IdMap, there: nat, left: int, raised: bool)
      requires Minted(videos.at, videos.next) && Indexed(videos)
      requires found.Keys == Matched(videos, b)
      modifies this`videos
      ensures !raised ==> Minting(old(videos), Missing(old(videos), b), found, m, videos)
      ensures !raised ==> Pointed(b, Defaults(VideoT), Missing(old(videos), b), {}, m, videos)
      ensures !raised ==> there + |Missing(old(videos), b)| == |b.videos|
      ensures fuse < 0 ==> left < 0
      ensures fuse < 0 && KeysCovered(b) ==> !raised
    {
      hide Minting, Pointed, Indexed, Minted;
      m, there, left, raised := IdMap(found, map[]), 0, fuse, false;
      ghost var pre := videos;
      MintingStart(videos, b, Defaults(VideoT), found);
      var rest := b.videos.Keys;
      NonePassed(rest, Missing(pre, b));
      while rest != {}
        invariant rest <= b.videos.Keys
        invariant Minting(pre, Missing(pre, b) - rest, found, m, videos)
        invariant Pointed(b, Defaults(VideoT), Missing(pre, b) - rest, {}, m, videos)
        invariant there + |Missing(pre, b) - rest| + |rest| == |b.videos|
        invariant fuse < 0 ==> left < 0
        decreases |rest|
      {
        var id := Next(rest);
        m, there, left, raised := InsertVideo(b, id, m, there, left, pre, rest, found);
        if raised {
          return;
        }
        rest := rest - {id};
      }
      AllPassed(rest, Missing(pre, b));
    }

    /** UPDATE videos SET duplicate_of: one row of the second pass. */
    method RepointVideo(b: Bundle, id: Id, m: IdMap, fuse: int,
                        ghost pre: Videos, ghost found: map<Id, Id>, ghost pointed: set<Id>)
      returns (left: int, raised: bool)
      requires id in b.videos && id !in pointed
      requires Tells(m, Missing(pre, b)) && Minting(pre, Missing(pre, b), found, m, videos)
      requires Pointed(b, Defaults(VideoT), Missing(pre, b), pointed, m, videos)
      modifies this`videos
      ensures !raised ==> Minting(pre, Missing(pre, b), found, m, videos)
      ensures !raised ==> Pointed(b, Defaults(VideoT), Missing(pre, b), pointed + {id}, m, videos)
      ensures fuse < 0 ==> left < 0 && !raised
    {
      hide Indexed, Grown, LandedAs, StagedAs;
      left, raised := fuse, false;
      if id in m.to && m.to[id] in m.back {
        if fuse == 0 {
          raised := true;
          return;
        }
        left := fuse - 1;
        RepointOne(b, Defaults(VideoT), Missing(pre, b), pointed, m, videos, id);
        SetDupKeepsMinting(pre, Missing(pre, b), found, m, videos, m.to[id], Target(m.to, b.videos[id].dup));
        videos := SetDup(videos, m.to[id], Target(m.to, b.videos[id].dup));
      }
    }

    /** The second pass over the bundle's videos: stale pointers become live ids. */
    method RepointVideos(b: Bundle, m: IdMap, fuse: int, ghost pre: Videos, ghost found: map<Id, Id>)
      returns (left: int, raised: bool)
      requires found.Keys == Matched(pre, b) && Tells(m, Missing(pre, b))
      requires forall i :: i in found ==> MatchedAs(pre, b, found, i)
      requires Minting(pre, Missing(pre, b), found, m, videos)
      requires Pointed(b, Defaults(VideoT), Missing(pre, b), {}, m, videos)
      modifies this`videos
      ensures !raised ==> VideosMerged(pre, b, Defaults(VideoT), m, videos)
      ensures fuse < 0 ==> left < 0 && !raised
    {
      hide Minting, Pointed, Tells, VideosMerged, MatchedAs;
      left, raised := fuse, false;
      var pointing := set id | id in b.videos && b.videos[id].dup.Some?;
      var rest := pointing;
      NonePassed(rest, pointing);
      while rest != {}
        invariant rest <= pointing
        invariant Minting(pre, Missing(pre, b), found, m, videos)
        invariant Pointed(b, Defaults(VideoT), Missing(pre, b), pointing - rest, m, videos)
        invariant fuse < 0 ==> left < 0
        decreases |rest|
      {
        var id := Next(rest);
        left, raised := RepointVideo(b, id, m, left, pre, found, pointing - rest);
        if raised {
          return;
        }
        Advance(rest, pointing, id);
        rest := rest - {id};
      }
      AllPassed(rest, pointing);
      PointedMeansMerged(pre, b, Defaults(VideoT), found, pointing, m, videos);
    }

    /** Everything the merge does to `videos`. */
    method MergeVideos(b: Bundle, fuse: int) returns (m: IdMap, there: nat, left: int, raised: bool)
      requires Minted(videos.at, videos.next) && Indexed(videos)
      modifies this`videos
      ensures !raised ==> VideosMerged(old(videos), b, Defaults(VideoT), m, videos)
      ensures !raised ==> Tells(m, Missing(old(videos), b))
      ensures !raised ==> there + |Missing(old(videos), b)| == |b.videos|
      ensures fuse < 0 ==> left < 0
      ensures fuse < 0 && KeysCovered(b) ==> !raised
    {
      hide Minting, Pointed, VideosMerged, Tells, Indexed, Minted, MatchedAs;
      ghost var pre := videos;
      var found := MatchKeys(b);
      m, there, left, raised := InsertVideos(b, found, fuse);
      if raised {
        return;
      }
      MintedTells(pre, b, found, m, videos);
      left, raised := RepointVideos(b, m, left, pre, found);
    }

    /** One row of a child table: carried when its clip was inserted, left behind otherwise. */
    method InsertChild(t: ChildTable, rows: map<Id, Child>, c: Id, m: IdMap, known: IdMap, fuse: int,
                       ghost pre: Rows<Child>, ghost missing: set<Id>, ghost rest: set<Id>)
      returns (known': IdMap, left: int, raised: bool)
      requires ChildT(t) in schema && c in rows && c in rest && Minted(pre.at, pre.next) && Tells(m, missing)
      requires ChildrenMerged(pre, rows, Defaults(ChildT(t)), m.to, Carried(schema, t, rows, missing) - rest, known,
               children.At(t))
      modifies this`children
      ensures forall u: ChildTable :: u != t ==> children.At(u) == old(children.At(u))
      ensures !raised ==>
              ChildrenMerged(pre, rows, Defaults(ChildT(t)), m.to, Carried(schema, t, rows, missing) - (rest - {c}),
                                         known', children.At(t))
      ensures fuse < 0 ==> left < 0 && !raised
    {
      hide ChildrenMerged, Minted, Tells;
      known', left, raised := known, fuse, false;
      CarriedWhenMinted(schema, t, rows, m, missing, c);
      Advance(rest, Carried(schema, t, rows, missing), c);
      if rows[c].video in m.to && m.to[rows[c].video] in m.back {
        if fuse == 0 {
          raised := true;
          return;
        }
        left := fuse - 1;
        var cur := children.At(t);
        CarryOne(pre, rows, Defaults(ChildT(t)), m.to, Carried(schema, t, rows, missing) - rest, known, cur, c);
        PutOne(children, t, Inserted(cur, CarriedRow(rows, Defaults(ChildT(t)), m.to, c)));
        known' := Noted(known, c, Rowid(cur.next));
        children := children.Put(t, Inserted(cur, CarriedRow(rows, Defaults(ChildT(t)), m.to, c)));
      }
    }

    /** A whole child table; one the live file lacks is skipped. Its rows go with a clip that was
        inserted, never with one already there. */
    method MergeChildTable(t: ChildTable, b: Bundle, m: IdMap, fuse: int, ghost missing: set<Id>)
      returns (known: IdMap, left: int, raised: bool)
      requires Minted(children.At(t).at, children.At(t).next) && Tells(m, missing)
      modifies this`children
      ensures forall u: ChildTable :: u != t ==> children.At(u) == old(children.At(u))
      ensures !raised ==> ChildrenMerged(old(children.At(t)), b.children.At(t), Defaults(ChildT(t)), m.to,
                                         Carried(schema, t, b.children.At(t), missing), known, children.At(t))
      ensures fuse < 0 ==> left < 0 && !raised
    {
      hide ChildrenMerged, Minted, Tells;
      known, left, raised := IdMap(map[], map[]), fuse, false;
      var rows := b.children.At(t);
      ghost var pre, carried := children.At(t), Carried(schema, t, rows, missing);
      NothingCarried(pre, rows, Defaults(ChildT(t)), m.to);
      if ChildT(t) !in schema {
        assert carried == {};
        return;
      }
      var rest := rows.Keys;
      NonePassed(rest, carried);
      while rest != {}
        invariant rest <= rows.Keys
        invariant forall u: ChildTable :: u != t ==> children.At(u) == old(children.At(u))
        invariant ChildrenMerged(pre, rows, Defaults(ChildT(t)), m.to, carried - rest, known, children.At(t))
        invariant fuse < 0 ==> left < 0
        decreases |rest|
      {
        var c := Next(rest);
        known, left, raised := InsertChild(t, rows, c, m, known, left, pre, missing, rest);
        if raised {
          return;
        }
        rest := rest - {c};
      }
      AllPassed(rest, carried);
    }

    /** The four child tables in turn, and the child id maps the vectors are re-pointed with. */
    method MergeChildren(b: Bundle, m: IdMap, fuse: int, ghost missing: set<Id>)
      returns (cmaps: PerChild<IdMap>, count: nat, left: int, raised: bool)
      requires forall t: ChildTable :: Minted(children.At(t).at, children.At(t).next)
      requires Tells(m, missing)
      modifies this`children
      ensures !raised ==> AllTablesMerged(schema, old(children), b, m.to, missing, cmaps, children)
      ensures !raised ==> count == CarriedCount(cmaps)
      ensures fuse < 0 ==> left < 0 && !raised
    {
      hide TablesSoFar, ChildrenMerged, AllTablesMerged, Tells, Minted;
      var none := IdMap(map[], map[]);
      cmaps, count, left, raised := PerChild(none, none, none, none), 0, fuse, false;
      ghost var pre, done: set<ChildTable> := children, {};
      AllTablesListed();
      NoTableYet(schema, pre, b, m.to, missing, cmaps);
      var rest := CHILD_TABLES;
      while rest != []
        invariant forall t: ChildTable :: t in done <==> t !in rest
        invariant Distinct(rest)
        invariant TablesSoFar(schema, pre, b, m.to, missing, done, cmaps, children)
        invariant count == CarriedCount(cmaps)
        invariant forall t :: t in rest ==> cmaps.At(t).to == map[]
        invariant fuse < 0 ==> left < 0
        decreases |rest|
      {
        var t := rest[0];
        UndoneTable(schema, pre, b, m.to, missing, done, cmaps, children, t);
        ghost var before := children;
        var known;
        known, left, raised := MergeChildTable(t, b, m, left, missing);
        if raised {
          return;
        }
        CountOneTable(cmaps, t, known);
        PutOne(cmaps, t, known);
        OneMoreTable(schema, pre, b, m.to, missing, done, cmaps, before, t, known, children);
        cmaps := cmaps.Put(t, known);
        count := count + |known.to|;
        DropFirst(rest);
        done := done + {t};
        rest := rest[1..];
      }
      EveryTableMerged(schema, pre, b, m.to, missing, done, cmaps, children);
    }

    /** One vector: it travels when its clip was inserted and its own row came across. */
    method InsertEmbedding(b: Bundle, s: Source, m: IdMap, cmaps: PerChild<IdMap>, count: nat, fuse: int,
                           ghost pre: map<Source, Embedding>, ghost missing: set<Id>, ghost rest: set<Source>)
      returns (count': nat, left: int, raised: bool)
      requires s in b.embeddings && s in rest && Tells(m, missing)
      requires Unused(pre, cmaps) && Invertible(cmaps)
      requires EmbeddingsMerged(pre, b, Defaults(EmbeddingT), m.to, Travelling(b, missing, cmaps) - rest, cmaps,
               embeddings)
      modifies this`embeddings
      ensures !raised ==>
              EmbeddingsMerged(pre, b, Defaults(EmbeddingT), m.to, Travelling(b, missing, cmaps) - (rest - {s}),
              cmaps, embeddings)
      ensures !raised ==>
              count' + |Travelling(b, missing, cmaps) - rest| == count + |Travelling(b, missing, cmaps) - (rest - {s})|
      ensures fuse < 0 ==> left < 0 && !raised
    {
      hide EmbeddingsMerged, Unused, Invertible, Tells;
      count', left, raised := count, fuse, false;
      TravelsWhenMoved(b, m, cmaps, missing, s);
      Advance(rest, Travelling(b, missing, cmaps), s);
      var video := b.embeddings[s].video;
      if video in m.to && m.to[video] in m.back && s.child in cmaps.At(TableOf(s.kind)).to {
        if fuse == 0 {
          raised := true;
          return;
        }
        left := fuse - 1;
        MoveOne(pre, b, Defaults(EmbeddingT), m.to, Travelling(b, missing, cmaps) - rest, cmaps, embeddings, s);
        embeddings := embeddings[Moved(cmaps, s) := MovedRow(b, Defaults(EmbeddingT), m.to, s)];
        count' := count + 1;
      }
    }

    method MergeEmbeddings(b: Bundle, m: IdMap, cmaps: PerChild<IdMap>, fuse: int, ghost missing: set<Id>)
      returns (count: nat, left: int, raised: bool)
      requires Tells(m, missing) && Unused(embeddings, cmaps) && Invertible(cmaps)
      modifies this`embeddings
      ensures !raised ==> if EmbeddingT in schema
                          then EmbeddingsMerged(old(embeddings), b, Defaults(EmbeddingT), m.to,
                              Travelling(b, missing, cmaps), cmaps, embeddings)
                          else embeddings == old(embeddings)
      ensures !raised ==> count == if EmbeddingT in schema then |Travelling(b, missing, cmaps)| else 0
      ensures fuse < 0 ==> left < 0 && !raised
    {
      hide EmbeddingsMerged, Unused, Invertible, Tells;
      count, left, raised := 0, fuse, false;
      if EmbeddingT in schema {
        ghost var pre, moving := embeddings, Travelling(b, missing, cmaps);
        var rest := b.embeddings.Keys;
        NonePassed(rest, moving);
        NoVectorYet(pre, b, Defaults(EmbeddingT), m.to, cmaps);
        while rest != {}
          invariant rest <= b.embeddings.Keys
          invariant EmbeddingsMerged(pre, b, Defaults(EmbeddingT), m.to, moving - rest, cmaps, embeddings)
          invariant count == |moving - rest|
          invariant fuse < 0 ==> left < 0
          decreases |rest|
        {
          var s := Next(rest);
          count, left, raised := InsertEmbedding(b, s, m, cmaps, count, left, pre, missing, rest);
          if raised {
            return;
          }
          rest := rest - {s};
        }
        AllPassed(rest, moving);
      }
    }

    method MergeRoots(b: Bundle, fuse: int) returns (count: nat, left: int, raised: bool)
      modifies this`roots
      ensures !raised ==>
              roots == if RootT in schema then RootsMerged(old(roots), b.roots, Defaults(RootT)) else old(roots)
      ensures fuse < 0 ==> left < 0 && !raised
      ensures !raised ==> count == |roots| - |old(roots)|
    {
      count, left, raised := 0, fuse, false;
      if RootT in schema {
        ghost var pre := roots;
        var rest := b.roots.Keys;
        NothingSeen(b.roots);
        while rest != {}
          invariant rest <= b.roots.Keys
          invariant roots == RootsMerged(pre, Seen(b.roots, rest), Defaults(RootT))
          invariant count == |roots| - |pre|
          invariant fuse < 0 ==> left < 0
          decreases |rest|
        {
          var s := Next(rest);
          if left == 0 {
            raised := true;
            return;
          }
          left := left - 1;
          RootStep(pre, b.roots, Defaults(RootT), rest, s);
          if s !in roots {
            roots := roots[s := ConformRoot(b.roots[s], Defaults(RootT))];
            count := count + 1;
          }
          rest := rest - {s};
        }
        AllSeen(b.roots, rest);
      }
    }

    method MergeBatches(b: Bundle, fuse: int) returns (count: nat, left: int, raised: bool)
      modifies this`batches
      ensures !raised ==>
              batches == if BatchT in schema then BatchesMerged(old(batches), b.batches, Defaults(BatchT))
              else old(batches)
      ensures !raised ==> count == if BatchT in schema then |b.batches| else 0
      ensures fuse < 0 ==> left < 0 && !raised
    {
      count, left, raised := 0, fuse, false;
      if BatchT in schema {
        ghost var pre := batches;
        var rest := b.batches.Keys;
        NothingSeen(b.batches);
        while rest != {}
          invariant rest <= b.batches.Keys
          invariant batches == BatchesMerged(pre, Seen(b.batches, rest), Defaults(BatchT))
          invariant count + |rest| == |b.batches|
          invariant fuse < 0 ==> left < 0
          decreases |rest|
        {
          var u := Next(rest);
          if left == 0 {
            raised := true;
            return;
          }
          left := left - 1;
          BatchStep(pre, b.batches, Defaults(BatchT), rest, u);
          batches := batches[u := ConformBatch(b.batches[u], Defaults(BatchT))];
          count := count + 1;
          rest := rest - {u};
        }
        AllSeen(b.batches, rest);
      }
    }

    method MergeItems(b: Bundle, vmap: map<Id, Id>, fuse: int) returns (count: nat, left: int, raised: bool)
      modifies this`items
      ensures !raised ==>
              items == if ItemT in schema then ItemsMerged(old(items), b.items, vmap, Defaults(ItemT)) else old(items)
      ensures !raised ==> count == if ItemT in schema then |b.items| else 0
      ensures fuse < 0 ==> left < 0 && !raised
    {
      count, left, raised := 0, fuse, false;
      if ItemT in schema {
        ghost var pre := items;
        var rest := b.items.Keys;
        NothingSeen(b.items);
        while rest != {}
          invariant rest <= b.items.Keys
          invariant items == ItemsMerged(pre, Seen(b.items, rest), vmap, Defaults(ItemT))
          invariant count + |rest| == |b.items|
          invariant fuse < 0 ==> left < 0
          decreases |rest|
        {
          var u := Next(rest);
          if left == 0 {
            raised := true;
            return;
          }
          left := left - 1;
          ItemStep(pre, b.items, vmap, Defaults(ItemT), rest, u);
          items := items[u := RemapItem(b.items[u], vmap, Defaults(ItemT))];
          count := count + 1;
          rest := rest - {u};
        }
        AllSeen(b.items, rest);
      }
    }

    /** ROLLBACK: the file is what it was at BEGIN. */
    method Restore(snapshot: Db)
      requires snapshot.schema == schema
      modifies this
      ensures Contents() == snapshot
    {
      videos := snapshot.videos;
      children := snapshot.children;
      embeddings := snapshot.embeddings;
      roots := snapshot.roots;
      batches := snapshot.batches;
      items := snapshot.items;
      generation := snapshot.generation;
    }

    /** Clips, then their children, then their vectors. */
    method MergeClips(b: Bundle, fuse: int)
      returns (m: IdMap, cmaps: PerChild<IdMap>, there: nat, count: nat, vectors: nat, left: int, raised: bool)
      requires TablesWellFormed(Contents()) && Indexed(videos) && EmbeddingsHold(embeddings, children)
      modifies this`videos, this`children, this`embeddings
      ensures !raised ==> VideosMerged(old(videos), b, Defaults(VideoT), m, videos)
      ensures !raised ==> AllTablesMerged(schema, old(children), b, m.to, Missing(old(videos), b), cmaps, children)
      ensures !raised ==> VectorsMerged(old(Contents()), b, m.to, cmaps, Contents())
      ensures !raised ==> there + |Missing(old(videos), b)| == |b.videos|
      ensures !raised ==> count == CarriedCount(cmaps)
      ensures !raised ==> vectors == if EmbeddingT in schema then |Travelling(b, Missing(old(videos), b), cmaps)| else 0
      ensures fuse < 0 ==> left < 0
      ensures fuse < 0 && KeysCovered(b) ==> !raised
    {
      hide VideosMerged, AllTablesMerged, EmbeddingsMerged, Tells, Indexed, Minted, Unused, Invertible, CarriedCount,
          Travelling;
      ghost var pre := Contents();
      var none := IdMap(map[], map[]);
      cmaps, count, vectors := PerChild(none, none, none, none), 0, 0;
      m, there, left, raised := MergeVideos(b, fuse);
      if raised {
        return;
      }
      cmaps, count, left, raised := MergeChildren(b, m, left, Missing(pre.videos, b));
      if raised {
        return;
      }
      MintedChildrenAreUnused(pre, b, m.to, cmaps, children);
      vectors, left, raised := MergeEmbeddings(b, m, cmaps, left, Missing(pre.videos, b));
    }

    /** Share roots, batches and items. */
    method MergeLedgers(b: Bundle, vmap: map<Id, Id>, fuse: int)
        returns (added: nat, ledger: nat, rows: nat, left: int, raised: bool)
      modifies this`roots, this`batches, this`items
      ensures !raised ==> LedgersMerged(old(Contents()), b, vmap, Contents())
      ensures !raised ==> added == |roots| - |old(roots)|
      ensures !raised ==> ledger == if BatchT in schema then |b.batches| else 0
      ensures !raised ==> rows == if ItemT in schema then |b.items| else 0
      ensures fuse < 0 ==> left < 0 && !raised
    {
      hide RootsMerged, BatchesMerged, ItemsMerged;
      added, ledger, rows := 0, 0, 0;
      added, left, raised := MergeRoots(b, fuse);
      if raised {
        return;
      }
      ledger, left, raised := MergeBatches(b, left);
      if raised {
        return;
      }
      rows, left, raised := MergeItems(b, vmap, left);
    }

    /** The statements between BEGIN and COMMIT. */
    method RunMerge(b: Bundle, fuse: int) returns (m: IdMap, cmaps: PerChild<IdMap>, report: Report, raised: bool)
      requires TablesWellFormed(Contents()) && Indexed(videos) && EmbeddingsHold(embeddings, children)
      modifies this
      ensures !raised ==> Merged(old(Contents()), b, m, cmaps, Contents())
      ensures !raised ==> Reports(old(Contents()), b, cmaps, Contents(), report)
      ensures fuse < 0 && KeysCovered(b) ==> !raised
    {
      hide VideosMerged, AllTablesMerged, EmbeddingsMerged, RootsMerged, BatchesMerged, ItemsMerged;
      hide Indexed, TablesWellFormed, EmbeddingsHold, KeysCovered;
      hide CarriedCount, Travelling, Missing;
      report := Report(0, 0, 0, 0, 0, 0, 0);
      var there, count, vectors, added, ledger, rows, left;
      m, cmaps, there, count, vectors, left, raised := MergeClips(b, fuse);
      if raised {
        return;
      }
      added, ledger, rows, left, raised := MergeLedgers(b, m.to, left);
      if raised {
        return;
      }
      var inserted := |b.videos| - there;
      assert inserted != 0 <==> Missing(old(videos), b) != {};
      if inserted != 0 && MetaT in schema {
        if left == 0 {
          raised := true;
          return;
        }
        generation := Bumped(generation);
      }
      report := Report(inserted, there, count, vectors, added, ledger, rows);
    }

    /** BEGIN IMMEDIATE ... COMMIT, with ROLLBACK on any exception: all of the merge or none of it. */
    method Apply(b: Bundle, fuse: int) returns (outcome: Outcome)
      requires TablesWellFormed(Contents()) && Indexed(videos) && EmbeddingsHold(embeddings, children)
      modifies this
      ensures outcome.RolledBack? ==> Contents() == old(Contents())
      ensures outcome.Committed? ==> exists m, cmaps ::
                Merged(old(Contents()), b, m, cmaps, Contents())
                    && Reports(old(Contents()), b, cmaps, Contents(), outcome.report)
      ensures fuse < 0 && KeysCovered(b) ==> outcome.Committed?
    {
      hide Merged, Reports;
      var snapshot := Contents();
      var m, cmaps, report, raised := RunMerge(b, fuse);
      if raised {
        Restore(snapshot);
        return RolledBack;
      }
      outcome := Committed(report);
    }
  }
}
