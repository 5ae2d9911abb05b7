/** The document database as the engine's objects see it through `get_field` and
    `set_field`: every document, named by its id ("collection/key"), is a map from
    field name to JSON value. */
module Documents {
  import opened JsonData

  /** The whole database: document id to document. */
  type Docs = map<string, Doc>

  /** `get_field(name, default)` on document `id`. */
  function FieldOf(docs: Docs, id: string, name: string, default: Json): Json {
    if id in docs && name in docs[id] then docs[id][name] else default
  }

  /** The database after `set_field(name, value)` on document `id`: that one field
      is written, every other field of every document keeps its value. */
  function WithField(docs: Docs, id: string, name: string, value: Json): (r: Docs)
    ensures r.Keys == docs.Keys + {id}
    ensures FieldOf(r, id, name, JNull) == value
  {
    docs[id := (if id in docs then docs[id] else map[])[name := value]]
  }

  /** Writing a field changes what `get_field` reads for that field of that
      document and for nothing else. */
  lemma WithFieldReads(docs: Docs, id: string, name: string, value: Json, id2: string, name2: string, default: Json)
    ensures FieldOf(WithField(docs, id, name, value), id2, name2, default)
      == if id2 == id && name2 == name then value else FieldOf(docs, id2, name2, default)
  {
    if id2 == id && name2 != name && id !in docs {
      assert name2 !in WithField(docs, id, name, value)[id];
    }
  }

  /** The store the document proxies read and write. */
  class DocumentStore {
    var docs: Docs

    constructor (docs: Docs)
      ensures this.docs == docs
    {
      this.docs := docs;
    }

    /** `set_field(name, value)`. */
    method SetField(id: string, name: string, value: Json)
      modifies this
      ensures docs == WithField(old(docs), id, name, value)
    {
      docs := WithField(docs, id, name, value);
    }
  }
}
