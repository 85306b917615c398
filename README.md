# Boombera in Dafny

Boombera is a small content store on top of a CouchDB database. Callers
address content by path. `put` stores a body at a path, `map` makes a path a
pointer (an alias) to another path, and `get` returns the content at a path,
following a pointer one hop. `Boombera.new` refuses a database whose design
document `_design/boombera` records a different Boombera version than the
client's. `Boombera.install_design_doc!` creates or updates that design
document.

The behaviour is taken from the RSpec suite `spec/lib/boombera_spec.rb`. That
suite stubs `ContentItem` and the database, so the model states what the
stubs describe: which lookup is made, what is mutated, what is saved and what
is returned. The database is a map from document id to document, and every
save follows CouchDB's revision rule.

Modules, one per part of the system:

- `Common` (`common.dfy`): `Option` (Ruby's nil), `Result`, `Outcome` and the
  two exceptions, `VersionMismatch(message)` and `InvalidMapping`.
- `Documents` (`documents.dfy`): the boundary to CouchDB. A `Doc` has an id,
  an optional revision and string fields. `Accepts` is the
  optimistic-concurrency rule: a write must carry the stored revision, or no
  revision when the id is new. `Saved` gives the documents after an accepted
  write. The class `Database` is the CouchRest handle; its `SaveDoc` changes
  its `docs` map.
- `ContentItems` (`content_items.dfy`): `Item = Content(body) | Pointer(target)`,
  saved as a document with a `body` or `pointer` field.
  - `LoadPointer` is `get_pointer`, which does not follow pointers.
  - `Resolve` is `get`, which follows a pointer one hop.
  - `Upsert` is the create-or-update write shared by `put` and `map`.
  - The class `ContentItem` holds an item in memory, with `SetBody` (`body=`),
    `MapTo` and `Save`.
- `Schema` (`schema.dfy`): the design document, `DatabaseVersion` and the
  installer.
- `VersionGate` (`version_gate.dfy`): `CheckVersion` and its two exact
  messages.
- `Store` (`store.dfy`): the class `Boombera`, with `New`, `Get`, `Put` and
  `Map`, plus three client methods that call the operations and are verified
  using only their contracts.

Inputs that come from outside the model are parameters. `Boombera.version`
(read from the VERSION file) is the `clientVersion` string. The handle that
`CouchRest.database!(name)` returns is a `Database` object passed in.

## Model

| member | source | states |
|---|---|---|
| VersionGate.CheckVersion | spec/lib/boombera_spec.rb:13-37 | the gate passes exactly when the database records the client's version; every failure is a `VersionMismatch` |
| VersionGate.MismatchMessages | spec/lib/boombera_spec.rb:27-37 | "Database does not specify a Boombera version" is raised exactly when no version is recorded; otherwise the message is "Database expects Boombera " followed by the database's version |
| VersionGate.MismatchNamesDatabaseVersion | spec/lib/boombera_spec.rb:27-31 | the mismatch message names the database's version, not the client's: equal messages imply equal database versions, whatever the client versions |
| Schema.DatabaseVersion | spec/lib/boombera_spec.rb:159-171 | nil when `_design/boombera` is not found; otherwise the document's `gem_version` field |
| Store.Boombera.New | spec/lib/boombera_spec.rb:18-37 | construction succeeds exactly when the versions match, and the new store holds the given database handle; otherwise it raises the gate's error unchanged |
| Store.Boombera.constructor | spec/lib/boombera_spec.rb:19-25 | a store can only be built for a database that passes the gate, and it holds that database |
| Store.Boombera.Put | spec/lib/boombera_spec.rb:40-62 | `put` returns true and leaves the database as the create-or-update write of `Content(body)` at the path; it keeps the `Valid` and `Closed` invariants |
| Store.Boombera.Get | spec/lib/boombera_spec.rb:64-71 | `get` returns exactly what the item lookup `Resolve` gives for the path, including not-found |
| Store.Boombera.Map | spec/lib/boombera_spec.rb:73-113 | `map` returns true when something is stored at the target, and the database then holds a pointer at the path; otherwise it raises `InvalidMapping` and nothing is saved; it keeps `Valid` and `Closed` |
| ContentItems.ContentItem.GetPointer | spec/lib/boombera_spec.rb:43-45 | the lookup `put` and `map` make: the item stored at the path with its revision, pointer not followed; none when nothing is stored |
| ContentItems.ContentItem.Get | spec/lib/boombera_spec.rb:66-68 | the lookup `get` delegates to: the item at the path, or its target when it is a pointer (one hop) |
| ContentItems.ContentItem.constructor | spec/lib/boombera_spec.rb:55-57 | `ContentItem.new(path, body, db)` holds exactly that path and body, tied to that database, with no revision |
| ContentItems.ContentItem.SetBody | spec/lib/boombera_spec.rb:46 | `body=` replaces what the item holds with the body and changes nothing else |
| ContentItems.ContentItem.MapTo | spec/lib/boombera_spec.rb:83-91 | `map_to(target)` makes the item a pointer to the target when something is stored there; otherwise it raises `InvalidMapping` and leaves the item as it was |
| ContentItems.ContentItem.Save | spec/lib/boombera_spec.rb:47 | `save` writes the whole item under its path with its revision; it succeeds exactly when that revision is current, and on success it takes the new revision |
| ContentItems.Resolve | spec/lib/boombera_spec.rb:64-70 | not found when nothing is stored at the path; the stored item when it is not a pointer; the item at the pointer's target when it is |
| ContentItems.UpsertWrites | spec/lib/boombera_spec.rb:41-61 | the create-or-update write is always accepted; it replaces only the path's item; on an existing path no new document is created |
| ContentItems.GetAfterPut | spec/lib/boombera_spec.rb:52-70 | after `put(path, body)`, `get(path)` returns an item holding exactly that body |
| ContentItems.GetAfterMap | spec/lib/boombera_spec.rb:73-86 | after `map(path, target)` with the target stored and the target not the path itself, `get(path)` returns the item stored at the target |
| ContentItems.GetAfterSelfMap | spec/lib/boombera_spec.rb:95-106 | `map(path, path)` on a stored path makes a pointer to itself, and `get(path)` then returns that pointer |
| ContentItems.ResolveFindsStored | spec/lib/boombera_spec.rb:88-91 | when every pointer's target is stored, `get` finds something exactly where something is stored |
| ContentItems.UpsertKeepsClosed | spec/lib/boombera_spec.rb:88-112 | writing a body, or a pointer to a stored path, keeps every pointer's target stored |
| Documents.Saved | spec/lib/boombera_spec.rb:125-126 | a save replaces exactly the written document, with the fields given and a new revision, and keeps the other documents |
| Documents.SavedRevisionIsCurrent | spec/lib/boombera_spec.rb:136-139 | after a save, a write is accepted exactly when it carries the new revision; a repeated write with the old revision is refused |
| Documents.Database.SaveDoc | spec/lib/boombera_spec.rb:125-126 | `save_doc` returns the new revision and applies `Saved` when the revision is current; otherwise it fails and changes nothing |
| Schema.InstallWrites | spec/lib/boombera_spec.rb:116-142 | install is never refused; it stores exactly the design document's fields under `_design/boombera` and leaves every other document alone |
| Schema.InstalledVersion | spec/lib/boombera_spec.rb:116-128 | after install, `database_version` is the installing client's version |
| Schema.InstallIdempotent | spec/lib/boombera_spec.rb:131-142 | a second install is accepted too, and it leaves every document's content as the first install left it |
| Schema.UnmergedReinstallConflicts | spec/lib/boombera_spec.rb:136-139 | saving the design document without merging the stored `_rev` over an existing one is refused; this is why the merge is needed |
| Schema.InstallKeepsClosed | spec/lib/boombera_spec.rb:116-142 | install keeps every pointer's target stored |
| Schema.PutOverDesignDocErasesVersion | spec/lib/boombera_spec.rb:159-171 | a `put` at `_design/boombera` replaces the design document, so `database_version` becomes nil |
| Schema.GetDesignDocAsItem | spec/lib/boombera_spec.rb:64-70 | `get("_design/boombera")` returns the design document as a content item with a nil body |
| Schema.MapOntoDesignDoc | spec/lib/boombera_spec.rb:88-91 | `map_to` accepts `_design/boombera` as a target, and `get` through the pointer returns the design document as a nil-body item |
| Schema.InstallDesignDoc | spec/lib/boombera_spec.rb:116-142 | `install_design_doc!` saves the design document, merged with the stored `_rev` when one is stored; the save succeeds; the result is `Installed`, and `Valid` and `Closed` are kept |

## Left out

- Opening or creating the named database (`CouchRest.database!`), HTTP and
  RestClient all belong to the transport. The store and the installer take
  the database handle as a parameter.
- `Boombera.version` reads the VERSION file. That is file I/O, so the version
  is a string parameter.
- The view definitions inside `Boombera.design_doc` are not visible. One
  opaque constant string stands for them. The design document's
  `gem_version` field is taken to be the installing client's version.
- Revision tokens are a counter advanced by every accepted save. How CouchDB
  generates its tokens is not modelled. Document fields are strings, not
  arbitrary JSON.
- Pointer chains and cycles are not followed: `get` makes one hop, as the
  source exercises. A pointer to a pointer gives back the second pointer.
  `map(p, p)` on a stored `p` makes `p` point to itself, and `get(p)` then
  returns that pointer (`ContentItems.GetAfterSelfMap`).
- Content paths and the design document's id `_design/boombera` share one
  key space; nothing reserves the design document's id. Three effects follow,
  each stated as a lemma:
  - a `put` at that id erases the recorded version, and every later
    `Boombera.New` fails (`Schema.PutOverDesignDocErasesVersion`);
  - `get` of that id returns the design document as a nil-body content item,
    not not-found (`Schema.GetDesignDocAsItem`);
  - `map_to` accepts that id as a target, even though the document there is
    not a content item (`Schema.MapOntoDesignDoc`).
- A save refused for a stale revision returns false here. The Ruby client
  would raise instead. Neither can happen inside one sequential `put`, `map`
  or install, because each writes with the revision it has just read.
  Concurrent writers are not modelled.
- `Schema.DatabaseVersion` also returns nil for a design document that has no
  `gem_version` field. That is how a Ruby hash lookup of a missing key
  behaves; the suite does not test this case.
- The RSpec stubbing and expectation machinery is not modelled.
