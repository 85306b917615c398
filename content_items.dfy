/** `Boombera::ContentItem`: one addressable piece of content, or a pointer
    that aliases one path to another, stored as a document whose id is its
    path. */
module ContentItems {
  import opened Common
  import opened Documents

  /** What a content item holds: a body (nil for an item created only to be
      mapped), or the path it points to. */
  datatype Item = Content(body: Option<string>) | Pointer(target: string)

  const BODY_FIELD := "body"
  const POINTER_FIELD := "pointer"

  /** The fields of the document an item is saved as. */
  function Encode(item: Item): map<string, string>
  {
    match item
    case Content(None) => map[]
    case Content(Some(body)) => map[BODY_FIELD := body]
    case Pointer(target) => map[POINTER_FIELD := target]
  }

  /** The item a loaded document holds; a pointer field wins over a body. */
  function Decode(fields: map<string, string>): Item
  {
    if POINTER_FIELD in fields then Pointer(fields[POINTER_FIELD])
    else if BODY_FIELD in fields then Content(Some(fields[BODY_FIELD]))
    else Content(None)
  }

  /** Loading a saved item gives back the item that was saved. */
  lemma DecodeEncode(item: Item)
    ensures Decode(Encode(item)) == item
  {
  }

  /** A content item as the database gives it back: its path, what it holds
      and its revision. */
  datatype Loaded = Loaded(path: string, item: Item, rev: Option<Rev>)

  /** `ContentItem.get_pointer(path, db)`: the item stored at `path`, a
      pointer left unfollowed; None when nothing is stored there. */
  function LoadPointer(docs: map<string, Doc>, path: string): Option<Loaded>
  {
    match Get(docs, path)
    case None => None
    case Some(doc) => Some(Loaded(path, Decode(doc.fields), doc.rev))
  }

  /** `ContentItem.get(path, db)`: the item at `path`, or, when that is a
      pointer, the item at its target, one hop only. */
  function Resolve(docs: map<string, Doc>, path: string): (r: Option<Loaded>)
    ensures path !in docs ==> r == None
    ensures path in docs && !Decode(docs[path].fields).Pointer? ==> r == LoadPointer(docs, path)
    ensures path in docs && Decode(docs[path].fields).Pointer? ==>
              r == LoadPointer(docs, Decode(docs[path].fields).target)
  {
    match LoadPointer(docs, path)
    case None => None
    case Some(found) =>
      if found.item.Pointer? then LoadPointer(docs, found.item.target) else Some(found)
  }

  /** The document `save` writes for an item: all of it, under its path,
      carrying the revision it was loaded with. */
  function ItemDoc(l: Loaded): Doc
  {
    Doc(l.path, l.rev, Encode(l.item))
  }

  /** What `put` and `map` leave in the database: `item` saved at `path` over
      whatever was there, carrying the revision it had. */
  function Upsert(docs: map<string, Doc>, path: string, item: Item): map<string, Doc>
  {
    Saved(docs, ItemDoc(Loaded(path, item, CurrentRev(docs, path))))
  }

  /** Every pointer's target is stored. `map` never writes a pointer to a
      missing path and nothing is ever deleted, so `put`, `map` and install
      preserve it; a database handed in without it may break it. */
  ghost predicate Closed(docs: map<string, Doc>)
  {
    forall id | id in docs && Decode(docs[id].fields).Pointer? :: Decode(docs[id].fields).target in docs
  }

  /** The create-or-update write is always accepted, and it replaces the item
      at `path` and nothing else: updating an existing path keeps the set of
      stored paths, so no second item is created. */
  lemma UpsertWrites(docs: map<string, Doc>, path: string, item: Item)
    ensures Accepts(docs, ItemDoc(Loaded(path, item, CurrentRev(docs, path))))
    ensures Upsert(docs, path, item).Keys == docs.Keys + {path}
    ensures path in docs ==> Upsert(docs, path, item).Keys == docs.Keys
    ensures forall id | id in docs && id != path :: Upsert(docs, path, item)[id] == docs[id]
    ensures LoadPointer(Upsert(docs, path, item), path) == Some(Loaded(path, item, Some(NextRev(CurrentRev(docs, path)))))
  {
  }

  /** After `put(path, body)`, `get(path)` returns an item holding `body`. */
  lemma GetAfterPut(docs: map<string, Doc>, path: string, body: string)
    ensures Resolve(Upsert(docs, path, Content(Some(body))), path)
            == Some(Loaded(path, Content(Some(body)), Some(NextRev(CurrentRev(docs, path)))))
  {
  }

  /** After `map(path, target)`, `get(path)` returns the item stored at
      `target`, as it was before the mapping. */
  lemma GetAfterMap(docs: map<string, Doc>, path: string, target: string)
    requires target in docs && target != path
    ensures Resolve(Upsert(docs, path, Pointer(target)), path) == LoadPointer(docs, target)
    ensures Resolve(Upsert(docs, path, Pointer(target)), path).Some?
  {
  }

  /** `map(path, path)` on a stored path is accepted and makes the item a
      pointer to itself; `get(path)` then returns that pointer, not the item
      stored there before. */
  lemma GetAfterSelfMap(docs: map<string, Doc>, path: string)
    requires path in docs
    ensures Resolve(Upsert(docs, path, Pointer(path)), path)
            == Some(Loaded(path, Pointer(path), Some(NextRev(CurrentRev(docs, path)))))
  {
  }

  /** Under `Closed`, `get` finds something exactly where something is stored. */
  lemma ResolveFindsStored(docs: map<string, Doc>, path: string)
    requires Closed(docs)
    ensures Resolve(docs, path).Some? <==> path in docs
  {
  }

  /** Writing a body, or a pointer to a stored path, keeps `Closed`. */
  lemma UpsertKeepsClosed(docs: map<string, Doc>, path: string, item: Item)
    requires Closed(docs)
    requires item.Pointer? ==> item.target in docs
    ensures Closed(Upsert(docs, path, item))
  {
  }

  /** A `Boombera::ContentItem` object: an item held in memory with the
      database it is loaded from and saved to. */
  class ContentItem {
    const path: string
    const database: Database
    var item: Item
    var rev: Option<Rev>

    /** The item as the database would give it back once saved. */
    function State(): Loaded
      reads this
    {
      Loaded(path, item, rev)
    }

    /** `ContentItem.new(path, body, db)`: a new item, not yet saved. */
    constructor (path: string, body: Option<string>, database: Database)
      ensures State() == Loaded(path, Content(body), None)
      ensures this.database == database
    {
      this.path := path;
      this.database := database;
      item := Content(body);
      rev := None;
    }

    /** `ContentItem.get_pointer(path, db)`: loads the item stored at `path`
        without following a pointer. */
    static method GetPointer(path: string, database: Database) returns (r: Option<ContentItem>)
      ensures r.None? <==> LoadPointer(database.docs, path).None?
      ensures r.Some? ==> fresh(r.value) && r.value.database == database
      ensures r.Some? ==> LoadPointer(database.docs, path) == Some(r.value.State())
    {
      match Documents.Get(database.docs, path)
      case None =>
        r := None;
      case Some(doc) =>
        var loaded := new ContentItem(path, None, database);
        loaded.item := Decode(doc.fields);
        loaded.rev := doc.rev;
        r := Some(loaded);
    }

    /** `ContentItem.get(path, db)`: loads the item at `path`, and when it is
        a pointer loads its target instead (one hop). */
    static method Get(path: string, database: Database) returns (r: Option<ContentItem>)
      ensures r.None? <==> Resolve(database.docs, path).None?
      ensures r.Some? ==> fresh(r.value) && r.value.database == database
      ensures r.Some? ==> Resolve(database.docs, path) == Some(r.value.State())
    {
      r := GetPointer(path, database);
      if r.Some? && r.value.item.Pointer? {
        r := GetPointer(r.value.item.target, database);
      }
    }

    /** `body=`: the item now holds `body`; a pointer it held is dropped. */
    method SetBody(body: string)
      modifies this
      ensures State() == old(State()).(item := Content(Some(body)))
    {
      item := Content(Some(body));
    }

    /** `map_to(target)`: turns the item into a pointer to `target`, or raises
        `InvalidMapping`, changing nothing, when nothing is stored there. */
    method MapTo(target: string) returns (o: Outcome)
      modifies this
      ensures o == if target in database.docs then Pass else Fail(InvalidMapping)
      ensures State() == if o.Pass? then old(State()).(item := Pointer(target)) else old(State())
    {
      if target in database.docs {
        item := Pointer(target);
        o := Pass;
      } else {
        o := Fail(InvalidMapping);
      }
    }

    /** `save`: writes the whole item under its path with the revision it
        carries, and takes the new revision when the write is accepted. */
    method Save() returns (ok: bool)
      modifies this, database
      ensures ok == Accepts(old(database.docs), ItemDoc(old(State())))
      ensures database.docs == if ok then Saved(old(database.docs), ItemDoc(old(State()))) else old(database.docs)
      ensures State() == if ok then old(State()).(rev := Some(NextRev(old(rev)))) else old(State())
    {
      var saved := database.SaveDoc(ItemDoc(State()));
      ok := saved.Some?;
      if ok {
        rev := saved;
      }
    }
  }
}
