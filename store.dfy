/**
 * The document store as the handlers see it: one collection, an id -> document
 * map, and the four driver operations the handlers call (FindId(..).One,
 * Insert, UpdateId, RemoveId). Each operation is atomic and either succeeds or
 * reports an error and leaves the collection as it was.
 */
module Store {
  import opened Wrappers

  /** A document identifier, as it arrives in the `:id` path parameter. "" means absent. */
  type Id = string

  /** A JSON/BSON value. Numbers are integers here. */
  datatype Value =
    | Null
    | Bool(b: bool)
    | Num(n: int)
    | Str(s: string)
    | Arr(elems: seq<Value>)
    | Obj(members: map<string, Value>)

  /** A stored document: its fields other than the identifier. */
  type Doc = map<string, Value>

  /** The name of the identifier field in the store. */
  const IdField: string := "_id"

  /**
   * A record instance: the identifier (empty when not set, so that it is
   * omitted when the record is written) and the other fields.
   */
  datatype Record = Record(id: Id, fields: Doc)

  /** The identifier an insert uses: the record's own, or the one the server assigns. */
  function InsertedId(rec: Record, serverId: Id): (id: Id)
    ensures rec.id != "" ==> id == rec.id
    ensures rec.id == "" ==> id == serverId
  {
    if rec.id == "" then serverId else rec.id
  }

  /** A replacement may omit the identifier or repeat it, but not change it. */
  predicate KeepsId(id: Id, rec: Record)
  {
    rec.id == "" || rec.id == id
  }

  /** A `$set` may not give the identifier field a new value. */
  predicate SetKeepsId(id: Id, data: Doc)
  {
    IdField !in data || data[IdField] == Str(id)
  }

  /**
   * The document after `{"$set": data}`: every key of `data` takes the new
   * value, every other key keeps its old one. The identifier lives outside
   * the stored fields, so an `_id` key in `data` is not stored as a field.
   */
  function SetFields(doc: Doc, data: Doc): (r: Doc)
    ensures r.Keys == doc.Keys + (data.Keys - {IdField})
    ensures forall k :: k in data && k != IdField ==> r[k] == data[k]
    ensures forall k :: k in doc && k !in data ==> r[k] == doc[k]
    ensures IdField in doc ==> r[IdField] == doc[IdField]
  {
    doc + (data - {IdField})
  }

  /** Setting the same fields twice is the same as setting them once. */
  lemma SetFieldsIdempotent(doc: Doc, data: Doc)
    ensures SetFields(SetFields(doc, data), data) == SetFields(doc, data)
  {
  }

  /** Two `$set`s in a row equal one `$set` of both, the later one winning. */
  lemma SetFieldsCompose(doc: Doc, a: Doc, b: Doc)
    ensures SetFields(SetFields(doc, a), b) == SetFields(doc, a + b)
  {
  }

  /** One collection of the document store. */
  class Collection {
    var docs: map<Id, Doc>

    constructor ()
      ensures docs == map[]
    {
      docs := map[];
    }

    /** `FindId(id).One`: the document, or the driver's not-found error. */
    method FindId(id: Id) returns (r: Option<Doc>)
      ensures r == if id in docs then Some(docs[id]) else None
    {
      r := if id in docs then Some(docs[id]) else None;
    }

    /** `Insert`: stores the record under its id; a duplicate id is an error. */
    method Insert(rec: Record, serverId: Id) returns (ok: bool, id: Id)
      modifies this
      ensures id == InsertedId(rec, serverId)
      ensures ok == (id !in old(docs))
      ensures docs == if ok then old(docs)[id := rec.fields] else old(docs)
    {
      id := InsertedId(rec, serverId);
      ok := id !in docs;
      if ok {
        docs := docs[id := rec.fields];
      }
    }

    /** `UpdateId(id, rec)`: replaces the whole document; a missing id is an error. */
    method UpdateId(id: Id, rec: Record) returns (ok: bool)
      modifies this
      ensures ok == (id in old(docs) && KeepsId(id, rec))
      ensures docs == if ok then old(docs)[id := rec.fields] else old(docs)
    {
      ok := id in docs && KeepsId(id, rec);
      if ok {
        docs := docs[id := rec.fields];
      }
    }

    /** `UpdateId(id, {"$set": data})`: overwrites the given fields only. */
    method SetId(id: Id, data: Doc) returns (ok: bool)
      modifies this
      ensures ok == (id in old(docs) && SetKeepsId(id, data))
      ensures docs == if ok then old(docs)[id := SetFields(old(docs)[id], data)] else old(docs)
    {
      ok := id in docs && SetKeepsId(id, data);
      if ok {
        docs := docs[id := SetFields(docs[id], data)];
      }
    }

    /** `RemoveId`: deletes the document; a missing id is an error. */
    method RemoveId(id: Id) returns (ok: bool)
      modifies this
      ensures ok == (id in old(docs))
      ensures docs == old(docs) - {id}
    {
      ok := id in docs;
      docs := docs - {id};
    }
  }
}
