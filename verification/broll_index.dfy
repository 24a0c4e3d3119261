/** The b-roll index as a value: the tables the publish drain touches, the rows in
    them, and what a database that obeys its own schema looks like. */
module Options {
  datatype Option<+T> = None | Some(value: T)
}

/** Reading a table with no ORDER BY: the cursor may hand out the remaining rows in any order. */
module Cursors {
  method Next<T(==)>(rest: set<T>) returns (row: T)
    requires rest != {}
    ensures row in rest
  {
    row :| row in rest;
  }
}

module BrollIndex {
  import opened Options

  /** A rowid. It means something inside one database file and nothing outside it. */
  datatype Id = Rowid(n: int)

  /** A row's plain columns by name. The columns other rows refer to are fields of their own. */
  type Cols = map<string, string>

  /** What UNIQUE (share, rel_path) ranges over. */
  datatype Key = Key(share: string, rel: string)

  datatype Video = Video(key: Key, dup: Option<Id>, cols: Cols)
  datatype Child = Child(video: Id, cols: Cols)
  datatype Embedding = Embedding(video: Id, cols: Cols)
  datatype Root = Root(collection: Option<string>, cols: Cols)
  datatype Batch = Batch(share: string, cols: Cols)
  datatype Item = Item(batch: string, video: Option<Id>, dup: Option<Id>, cols: Cols)

  /** Primary key of `embeddings`: the source word, and the child row it was made from. */
  datatype Source = Source(kind: string, child: Id)

  datatype ChildTable = Segments | Transcripts | Themes | Flags

  datatype TableName = VideoT | ChildT(child: ChildTable) | EmbeddingT | RootT | BatchT | ItemT | MetaT

  /** `videos` also carries the index that enforces UNIQUE (share, rel_path). */
  datatype Videos = Videos(at: map<Id, Video>, next: int, index: map<Key, Id>)

  /** A rowid table: its rows by id, and the number the next insert is given. */
  datatype Rows<T> = Rows(at: map<Id, T>, next: int)

  /** One value for each of the four tables that hang off `videos`. */
  datatype PerChild<T> = PerChild(segments: T, transcripts: T, themes: T, flags: T) {
    function At(t: ChildTable): T {
      match t
      case Segments => segments
      case Transcripts => transcripts
      case Themes => themes
      case Flags => flags
    }

    function Put(t: ChildTable, v: T): PerChild<T> {
      match t
      case Segments => this.(segments := v)
      case Transcripts => this.(transcripts := v)
      case Themes => this.(themes := v)
      case Flags => this.(flags := v)
    }
  }

  /** `schema` lists the tables the file has, each with its plain columns and their defaults. */
  datatype Db = Db(
    schema: map<TableName, Cols>,
    videos: Videos,
    children: PerChild<Rows<Child>>,
    embeddings: map<Source, Embedding>,
    roots: map<string, Root>,
    batches: map<string, Batch>,
    items: map<string, Item>,
    generation: Option<int>)
  {

    predicate HasIngest() {
      BatchT in schema && ItemT in schema
    }
  }

  /** The table an embedding's `source` word points into. */
  function TableOf(kind: string): ChildTable {
    if kind == "segment" then Segments else Transcripts
  }

  ghost predicate Minted<T>(at: map<Id, T>, next: int) {
    forall id :: id in at ==> id.n < next
  }

  /** The index lists every row under its key, and nothing else: no two rows share a key. */
  ghost predicate Indexed(videos: Videos) {
    && (forall id :: id in videos.at ==> videos.at[id].key in videos.index && videos.index[videos.at[id].key] == id)
    && (forall k :: k in videos.index ==> videos.index[k] in videos.at && videos.at[videos.index[k]].key == k)
  }

  ghost predicate Refers(ref: Option<Id>, ids: set<Id>) {
    ref.Some? ==> ref.value in ids
  }

  ghost predicate DuplicateHolds(videos: Videos, id: Id) {
    id in videos.at ==> Refers(videos.at[id].dup, videos.at.Keys)
  }

  ghost predicate DuplicatesHold(videos: Videos) {
    forall id :: DuplicateHolds(videos, id)
  }

  ghost predicate ChildrenHold(rows: Rows<Child>, ids: set<Id>) {
    forall c :: c in rows.at ==> rows.at[c].video in ids
  }

  /** Every vector belongs to an existing row of its own clip. */
  ghost predicate EmbeddingsHold(embeddings: map<Source, Embedding>, children: PerChild<Rows<Child>>) {
    forall s :: s in embeddings ==>
      && s.child in children.At(TableOf(s.kind)).at
      && children.At(TableOf(s.kind)).at[s.child].video == embeddings[s].video
  }

  ghost predicate ItemsHold(items: map<string, Item>, batches: set<string>, ids: set<Id>) {
    forall u :: u in items ==>
      && items[u].batch in batches
      && Refers(items[u].video, ids)
      && Refers(items[u].dup, ids)
  }

  /** What is true of any file: ids handed out are below the next one. */
  ghost predicate TablesWellFormed(db: Db) {
    && VideoT in db.schema
    && (ItemT in db.schema ==> BatchT in db.schema)
    && Minted(db.videos.at, db.videos.next)
    && (forall t: ChildTable :: Minted(db.children.At(t).at, db.children.At(t).next))
  }

  /** A table the file does not have holds no row. */
  ghost predicate AbsentEmpty(db: Db) {
    && (forall t: ChildTable :: ChildT(t) !in db.schema ==> db.children.At(t).at == map[])
    && (EmbeddingT !in db.schema ==> db.embeddings == map[])
    && (RootT !in db.schema ==> db.roots == map[])
    && (BatchT !in db.schema ==> db.batches == map[])
    && (ItemT !in db.schema ==> db.items == map[])
    && (MetaT !in db.schema ==> db.generation == None)
  }

  /** The constraints of the schema: UNIQUE keys and every foreign key. */
  ghost predicate Valid(db: Db) {
    && TablesWellFormed(db)
    && AbsentEmpty(db)
    && Indexed(db.videos)
    && DuplicatesHold(db.videos)
    && (forall t: ChildTable :: ChildrenHold(db.children.At(t), db.videos.at.Keys))
    && EmbeddingsHold(db.embeddings, db.children)
    && ItemsHold(db.items, db.batches.Keys, db.videos.at.Keys)
  }
}
