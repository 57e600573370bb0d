/**
 * The persistence gateway (`database.py`, which is not part of this model
 * beyond its use by the handlers): a document store holding, per collection
 * name, an ordered sequence of documents. A query keeps the documents that
 * hold every field of the filter with the same value; an insert appends the
 * record with a fresh `_id`; `update_one` with `$set` merges fields into the
 * first matching document. A failing store call is an input (`fault`).
 */
module Store {
  import opened Wrappers
  import opened Values

  /** `d` holds every field of `filter` with the same value. */
  predicate Matches(d: Document, filter: Document) {
    forall k :: k in filter ==> k in d && d[k] == filter[k]
  }

  /** The documents of `docs` that match `filter`, in store order. */
  function Select(docs: seq<Document>, filter: Document): (r: seq<Document>)
    ensures |r| <= |docs|
    ensures forall d :: d in r ==> d in docs && Matches(d, filter)
  {
    if docs == [] then []
    else if Matches(docs[0], filter) then [docs[0]] + Select(docs[1..], filter)
    else Select(docs[1..], filter)
  }

  /** Every matching document is selected. */
  lemma {:induction false} SelectKeepsMatches(docs: seq<Document>, filter: Document, d: Document)
    requires d in docs && Matches(d, filter)
    ensures d in Select(docs, filter)
  {
    if docs[0] != d {
      assert d in docs[1..];
      SelectKeepsMatches(docs[1..], filter, d);
    }
  }

  /** The empty filter selects the whole collection, in order. */
  lemma {:induction false} SelectEverything(docs: seq<Document>)
    ensures Select(docs, map[]) == docs
  {
    if docs != [] {
      SelectEverything(docs[1..]);
      assert docs == [docs[0]] + docs[1..];
    }
  }

  /** The stored form of an inserted record: its fields plus the store-assigned `_id`. */
  function Stored(record: Document, id: nat): (d: Document)
    ensures d.Keys == record.Keys + {"_id"} && d["_id"] == ObjectId(id)
    ensures forall k :: k in record && k != "_id" ==> d[k] == record[k]
  {
    record["_id" := ObjectId(id)]
  }

  /** `$set`: the fields of `fields` overwrite those of `d`; every other field is kept. */
  function SetFields(d: Document, fields: Document): (r: Document)
    ensures r.Keys == d.Keys + fields.Keys
    ensures forall k :: k in fields ==> r[k] == fields[k]
    ensures forall k :: k in d && k !in fields ==> r[k] == d[k]
  {
    d + fields
  }

  /** `update_one(filter, {"$set": fields})`: the first matching document takes `fields`; no other changes. */
  function SetFirst(docs: seq<Document>, filter: Document, fields: Document): (r: seq<Document>)
    ensures |r| == |docs|
    ensures docs != [] && Matches(docs[0], filter) ==> r[0] == SetFields(docs[0], fields) && r[1..] == docs[1..]
    ensures (forall i :: 0 <= i < |docs| ==> !Matches(docs[i], filter)) ==> r == docs
    ensures forall i :: 0 <= i < |docs| && Matches(docs[i], filter) && (forall j :: 0 <= j < i ==> !Matches(docs[j], filter))
              ==> r == docs[i := SetFields(docs[i], fields)]
  {
    if docs == [] then []
    else if Matches(docs[0], filter) then [SetFields(docs[0], fields)] + docs[1..]
    else [docs[0]] + SetFirst(docs[1..], filter, fields)
  }

  class DocumentStore {
    /** Collection name to its documents in store order; a missing name is an empty collection. */
    var collections: map<string, seq<Document>>
    /** The identifier the next insert assigns. */
    var nextId: nat

    constructor ()
      ensures collections == map[] && nextId == 0
    {
      collections := map[];
      nextId := 0;
    }

    /** The documents of collection `name`. */
    function Collection(name: string): seq<Document>
      reads this
    {
      if name in collections then collections[name] else []
    }

    /** `get_documents(name, filter)`: the matching documents, or the store's error. */
    method GetDocuments(name: string, filter: Document, fault: Option<string>)
      returns (r: Result<seq<Document>, string>)
      ensures r == if fault.Some? then Failure(fault.value) else Success(Select(Collection(name), filter))
    {
      if fault.Some? {
        r := Failure(fault.value);
      } else {
        r := Success(Select(Collection(name), filter));
      }
    }

    /** `create_document(name, record)`: appends the record with a fresh `_id` and returns that id. */
    method CreateDocument(name: string, record: Document, fault: Option<string>)
      returns (r: Result<nat, string>)
      modifies this
      ensures fault.Some? ==> r == Failure(fault.value) && collections == old(collections) && nextId == old(nextId)
      ensures fault.None? ==>
        && r == Success(old(nextId))
        && nextId == old(nextId) + 1
        && collections == old(collections)[name := old(Collection(name)) + [Stored(record, old(nextId))]]
    {
      if fault.Some? {
        r := Failure(fault.value);
        return;
      }
      collections := collections[name := Collection(name) + [Stored(record, nextId)]];
      r := Success(nextId);
      nextId := nextId + 1;
    }

    /** `update_one(filter, {"$set": fields})` on collection `name`. */
    method UpdateOne(name: string, filter: Document, fields: Document, fault: Option<string>)
      returns (r: Outcome<string>)
      modifies this
      ensures nextId == old(nextId)
      ensures fault.Some? ==> r == Fail(fault.value) && collections == old(collections)
      ensures fault.None? ==>
        r == Pass && collections == old(collections)[name := SetFirst(old(Collection(name)), filter, fields)]
    {
      if fault.Some? {
        r := Fail(fault.value);
        return;
      }
      collections := collections[name := SetFirst(Collection(name), filter, fields)];
      r := Pass;
    }
  }
}
