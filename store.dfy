/** `Boombera`, the store callers use: constructed for a database once the
    version gate passes, then `get`, `put` and `map` by path. */
module Store {
  import opened Common
  import opened Documents
  import opened ContentItems
  import opened Schema
  import opened VersionGate

  class Boombera {
    /** `boombera.database`: the handle the store was constructed with. */
    const database: Database

    /** Completes `Boombera.new` once the gate has passed; `New` is the way
        in for callers. */
    constructor (database: Database, clientVersion: string)
      requires CheckVersion(clientVersion, DatabaseVersion(database.docs)) == Pass
      ensures this.database == database
    {
      this.database := database;
    }

    /** `Boombera.new(name)`: given the handle `CouchRest.database!(name)`
        returns and the client's version `Boombera.version`, a store holding
        that handle, or the gate's `VersionMismatch`, raised unchanged. */
    static method New(database: Database, clientVersion: string) returns (r: Result<Boombera>)
      ensures r.Ok? <==> DatabaseVersion(database.docs) == Some(clientVersion)
      ensures r.Ok? ==> fresh(r.value) && r.value.database == database
      ensures r.Err? ==> Fail(r.error) == CheckVersion(clientVersion, DatabaseVersion(database.docs))
    {
      var gate := CheckVersion(clientVersion, DatabaseVersion(database.docs));
      if gate.Fail? {
        r := Err(gate.error);
      } else {
        var store := new Boombera(database, clientVersion);
        r := Ok(store);
      }
    }

    /** `get(path)`: whatever `ContentItem.get(path, database)` returns. */
    method Get(path: string) returns (r: Option<ContentItem>)
      ensures r.None? <==> Resolve(database.docs, path).None?
      ensures r.Some? ==> fresh(r.value) && Resolve(database.docs, path) == Some(r.value.State())
    {
      r := ContentItem.Get(path, database);
    }

    /** `put(path, body)`: sets the body of the item found by
        `get_pointer(path)` and saves it, or creates and saves a new item
        when there is none; returns the result of the save, which is true
        because the write carries the current revision. */
    method Put(path: string, body: string) returns (ok: bool)
      modifies database
      ensures ok
      ensures database.docs == Upsert(old(database.docs), path, Content(Some(body)))
      ensures Valid(old(database.docs)) ==> Valid(database.docs)
      ensures Closed(old(database.docs)) ==> Closed(database.docs)
    {
      var existing := ContentItem.GetPointer(path, database);
      var contentItem: ContentItem;
      if existing.Some? {
        contentItem := existing.value;
        contentItem.SetBody(body);
      } else {
        contentItem := new ContentItem(path, Some(body), database);
      }
      UpsertWrites(database.docs, path, Content(Some(body)));
      if Closed(database.docs) {
        UpsertKeepsClosed(database.docs, path, Content(Some(body)));
      }
      ok := contentItem.Save();
    }

    /** `map(path, target)`: turns the item found by `get_pointer(path)`, or
        a new item with a nil body, into a pointer to `target` and saves it,
        returning the result of the save; `map_to`'s `InvalidMapping` is
        raised before anything is saved when nothing is stored at `target`. */
    method Map(path: string, target: string) returns (r: Result<bool>)
      modifies database
      ensures r == if target in old(database.docs) then Ok(true) else Err(InvalidMapping)
      ensures database.docs == if r.Ok? then Upsert(old(database.docs), path, Pointer(target)) else old(database.docs)
      ensures Valid(old(database.docs)) ==> Valid(database.docs)
      ensures Closed(old(database.docs)) ==> Closed(database.docs)
    {
      var existing := ContentItem.GetPointer(path, database);
      var contentItem: ContentItem;
      if existing.Some? {
        contentItem := existing.value;
      } else {
        contentItem := new ContentItem(path, None, database);
      }
      var mapped := contentItem.MapTo(target);
      if mapped.Fail? {
        r := Err(mapped.error);
        return;
      }
      UpsertWrites(database.docs, path, Pointer(target));
      if Closed(database.docs) {
        UpsertKeepsClosed(database.docs, path, Pointer(target));
      }
      var ok := contentItem.Save();
      r := Ok(ok);
    }
  }

  /** A fresh database provisioned by `install_design_doc!` for 1.2.3
      admits a 1.2.3 client only, and the refusal names 1.2.3. */
  method ProvisionedDatabaseScenario()
  {
    var database := new Database(map[]);
    var saved := InstallDesignDoc(database, "1.2.3");
    InstalledVersion(map[], "1.2.3");
    var accepted := Boombera.New(database, "1.2.3");
    assert accepted.Ok?;
    var refused := Boombera.New(database, "1.2.2");
    assert refused == Err(VersionMismatch(EXPECTED_VERSION_PREFIX + "1.2.3"));
  }

  /** A database with no design document is refused with the other message. */
  method UnprovisionedDatabaseScenario()
  {
    var database := new Database(map[]);
    var refused := Boombera.New(database, "1.2.3");
    assert refused == Err(VersionMismatch("Database does not specify a Boombera version"));
  }

  /** `put`, `get` and `map` on a store, using only their contracts. */
  method StoreScenario(store: Boombera)
    requires "/missing" !in store.database.docs
    modifies store.database
  {
    var before := store.database.docs;
    var ok := store.Put("/foo", "bar");
    assert ok;
    GetAfterPut(before, "/foo", "bar");
    var got := store.Get("/foo");
    assert got.Some? && got.value.item == Content(Some("bar"));

    before := store.database.docs;
    var mapped := store.Map("/alias", "/foo");
    assert mapped == Ok(true);
    GetAfterMap(before, "/alias", "/foo");
    got := store.Get("/alias");
    assert got.Some? && got.value.item == Content(Some("bar"));

    before := store.database.docs;
    mapped := store.Map("/alias", "/missing");
    assert mapped == Err(InvalidMapping) && store.database.docs == before;
  }
}
