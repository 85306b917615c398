/** The design document `_design/boombera`: it records the Boombera version a
    database was provisioned for, and `Boombera.install_design_doc!` installs
    or updates it. */
module Schema {
  import opened Common
  import opened Documents
  import opened ContentItems

  const DESIGN_DOC_ID := "_design/boombera"
  const VERSION_FIELD := "gem_version"
  const VIEWS_FIELD := "views"
  /** Stands for the view definitions, whose contents this model does not look into. */
  const VIEW_DEFINITIONS := "boombera views"

  /** `Boombera.design_doc` for a client of version `version`. */
  function DesignDoc(version: string): Doc
  {
    Doc(DESIGN_DOC_ID, None, map[VERSION_FIELD := version, VIEWS_FIELD := VIEW_DEFINITIONS])
  }

  /** `Boombera.database_version(db)`: the `gem_version` field of the design
      document, nil when that document is not found (or has no such field). */
  function DatabaseVersion(docs: map<string, Doc>): (v: Option<string>)
    ensures DESIGN_DOC_ID !in docs ==> v == None
    ensures DESIGN_DOC_ID in docs && VERSION_FIELD in docs[DESIGN_DOC_ID].fields ==>
              v == Some(docs[DESIGN_DOC_ID].fields[VERSION_FIELD])
  {
    match Get(docs, DESIGN_DOC_ID)
    case None => None
    case Some(doc) => if VERSION_FIELD in doc.fields then Some(doc.fields[VERSION_FIELD]) else None
  }

  /** The document `install_design_doc!` saves: the design document as it is
      when none is stored, merged with the stored `_rev` otherwise. */
  function InstallRequest(docs: map<string, Doc>, version: string): Doc
  {
    match Get(docs, DESIGN_DOC_ID)
    case None => DesignDoc(version)
    case Some(existing) => DesignDoc(version).(rev := existing.rev)
  }

  /** The documents after `install_design_doc!`. */
  function Installed(docs: map<string, Doc>, version: string): map<string, Doc>
  {
    Saved(docs, InstallRequest(docs, version))
  }

  /** Installing never conflicts, stores exactly the design document's fields
      and leaves every other document alone. */
  lemma InstallWrites(docs: map<string, Doc>, version: string)
    ensures Accepts(docs, InstallRequest(docs, version))
    ensures DESIGN_DOC_ID in Installed(docs, version)
    ensures Installed(docs, version)[DESIGN_DOC_ID].fields == DesignDoc(version).fields
    ensures Installed(docs, version).Keys == docs.Keys + {DESIGN_DOC_ID}
    ensures forall id | id in docs && id != DESIGN_DOC_ID :: Installed(docs, version)[id] == docs[id]
  {
  }

  /** A database the design document was installed into records the
      installing client's version. */
  lemma InstalledVersion(docs: map<string, Doc>, version: string)
    ensures DatabaseVersion(Installed(docs, version)) == Some(version)
  {
  }

  /** Installing twice converges: the second install is accepted as well,
      and leaves every document's content as the first left it; only the
      design document's revision moves on. */
  lemma InstallIdempotent(docs: map<string, Doc>, version: string)
    ensures Accepts(Installed(docs, version), InstallRequest(Installed(docs, version), version))
    ensures Installed(Installed(docs, version), version).Keys == Installed(docs, version).Keys
    ensures forall id | id in Installed(docs, version) ::
              Installed(Installed(docs, version), version)[id].fields == Installed(docs, version)[id].fields
  {
  }

  /** Why the stored `_rev` is merged in: saving the bare design document over
      an installed one is refused as a conflict. */
  lemma UnmergedReinstallConflicts(docs: map<string, Doc>, version: string)
    requires Valid(docs) && DESIGN_DOC_ID in docs
    ensures !Accepts(docs, DesignDoc(version))
  {
  }

  /** Installing writes no pointer and removes nothing, so it keeps every
      content item's pointer target stored. */
  lemma InstallKeepsClosed(docs: map<string, Doc>, version: string)
    requires Closed(docs)
    ensures Closed(Installed(docs, version))
  {
  }

  /** Content paths and the design document's id share one key space. So
      `put("_design/boombera", body)` replaces the design document with a
      content item, and the database no longer records a version. */
  lemma PutOverDesignDocErasesVersion(docs: map<string, Doc>, version: string, body: string)
    ensures DatabaseVersion(Upsert(Installed(docs, version), DESIGN_DOC_ID, Content(Some(body)))) == None
  {
  }

  /** `get("_design/boombera")` finds the design document and gives it back
      as a content item with a nil body, not as not-found. */
  lemma GetDesignDocAsItem(docs: map<string, Doc>, version: string)
    ensures Resolve(Installed(docs, version), DESIGN_DOC_ID)
            == Some(Loaded(DESIGN_DOC_ID, Content(None), Installed(docs, version)[DESIGN_DOC_ID].rev))
  {
  }

  /** `map(path, "_design/boombera")` passes `map_to`'s check, which asks
      only that something is stored at the target, and `get(path)` then
      returns the design document as a content item with a nil body. */
  lemma MapOntoDesignDoc(docs: map<string, Doc>, version: string, path: string)
    requires path != DESIGN_DOC_ID
    ensures DESIGN_DOC_ID in Installed(docs, version)
    ensures Resolve(Upsert(Installed(docs, version), path, Pointer(DESIGN_DOC_ID)), path)
            == Some(Loaded(DESIGN_DOC_ID, Content(None), Installed(docs, version)[DESIGN_DOC_ID].rev))
  {
  }

  /** `Boombera.install_design_doc!`: reads the design document and saves the
      current one, merged with the stored `_rev` when there is one. Opening
      the named database is left to the caller, who passes its handle. */
  method InstallDesignDoc(database: Database, version: string) returns (saved: Option<Rev>)
    modifies database
    ensures saved.Some?
    ensures database.docs == Installed(old(database.docs), version)
    ensures Valid(old(database.docs)) ==> Valid(database.docs)
    ensures Closed(old(database.docs)) ==> Closed(database.docs)
  {
    var doc := DesignDoc(version);
    var existing := Get(database.docs, DESIGN_DOC_ID);
    if existing.Some? {
      doc := doc.(rev := existing.value.rev);
    }
    InstallWrites(database.docs, version);
    if Closed(database.docs) {
      InstallKeepsClosed(database.docs, version);
    }
    saved := database.SaveDoc(doc);
  }
}
