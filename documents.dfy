/** The document database Boombera stores into (a CouchDB database reached
    through CouchRest), seen only at its boundary: `get` by id and `save_doc`. */
module Documents {
  import opened Common

  /** A revision token. CouchDB's are opaque strings; here a counter that a
      save advances. */
  type Rev = nat

  /** A document: its `_id`, the `_rev` it carries (none for a document that
      was never saved) and its other fields, a JSON object of strings. */
  datatype Doc = Doc(id: string, rev: Option<Rev>, fields: map<string, string>)

  /** Every stored document is filed under its own id and carries a revision. */
  ghost predicate Valid(docs: map<string, Doc>)
  {
    forall id | id in docs :: docs[id].id == id && docs[id].rev.Some?
  }

  /** `db.get(id)`: the stored document, or None where CouchRest raises
      `RestClient::ResourceNotFound`. */
  function Get(docs: map<string, Doc>, id: string): Option<Doc>
  {
    if id in docs then Some(docs[id]) else None
  }

  /** The revision now stored under `id`, none if nothing is stored there. */
  function CurrentRev(docs: map<string, Doc>, id: string): Option<Rev>
  {
    if id in docs then docs[id].rev else None
  }

  /** The revision an accepted write of a document carrying `rev` receives. */
  function NextRev(rev: Option<Rev>): (r: Rev)
    ensures rev.Some? ==> rev.value < r
  {
    match rev
    case None => 1
    case Some(n) => n + 1
  }

  /** Optimistic concurrency: a write is accepted exactly when it carries the
      revision currently stored under its id (none, for a new id). */
  predicate Accepts(docs: map<string, Doc>, doc: Doc)
  {
    doc.rev == CurrentRev(docs, doc.id)
  }

  /** The documents after an accepted write of `doc`: the whole document is
      replaced, with a new revision, and nothing else changes. */
  function Saved(docs: map<string, Doc>, doc: Doc): (r: map<string, Doc>)
    ensures r.Keys == docs.Keys + {doc.id}
    ensures forall id | id in docs && id != doc.id :: r[id] == docs[id]
    ensures r[doc.id].id == doc.id
    ensures r[doc.id].fields == doc.fields
    ensures r[doc.id].rev == Some(NextRev(doc.rev))
    ensures Valid(docs) ==> Valid(r)
  {
    docs[doc.id := doc.(rev := Some(NextRev(doc.rev)))]
  }

  /** After an accepted write, writing again with the revision it returned is
      accepted too, and a write with the revision it replaced is not. */
  lemma SavedRevisionIsCurrent(docs: map<string, Doc>, doc: Doc, next: Doc)
    requires Accepts(docs, doc)
    requires next.id == doc.id
    ensures Accepts(Saved(docs, doc), next) <==> next.rev == Some(NextRev(doc.rev))
    ensures !Accepts(Saved(docs, doc), doc)
  {
  }

  /** A CouchRest database handle. Its documents are the state that saves
      change. */
  class Database {
    var docs: map<string, Doc>

    constructor (docs: map<string, Doc>)
      ensures this.docs == docs
    {
      this.docs := docs;
    }

    /** `save_doc`: the new revision when the write is accepted, None on a
        revision conflict (which leaves the documents as they were). */
    method SaveDoc(doc: Doc) returns (saved: Option<Rev>)
      modifies this
      ensures saved.Some? <==> Accepts(old(docs), doc)
      ensures saved.Some? ==> saved.value == NextRev(doc.rev)
      ensures docs == if saved.Some? then Saved(old(docs), doc) else old(docs)
    {
      if doc.rev == CurrentRev(docs, doc.id) {
        docs := Saved(docs, doc);
        saved := Some(NextRev(doc.rev));
      } else {
        saved := None;
      }
    }
  }
}
