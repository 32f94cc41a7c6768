/**
 * The API's record store: named collections of id-keyed records, held in memory
 * and written out as one document after every change.
 */
module Db {
  import opened Wrappers
  import opened Json

  /** A document of collections, e.g. `users`, `products`, `categories`, `transactions`. */
  type Document = map<string, seq<Record>>

  /** `list.findIndex(item => item.id === id)`, with `None` for -1. */
  function FindIndex(list: seq<Record>, id: Value): (r: Option<nat>)
    ensures r.Some? ==> r.value < |list| && HasId(list[r.value], id)
  {
    FindIndexFrom(list, id, 0)
  }

  /** The scan of `findIndex` from position `from` on. */
  function FindIndexFrom(list: seq<Record>, id: Value, from: nat): (r: Option<nat>)
    requires from <= |list|
    ensures r.Some? ==> from <= r.value < |list| && HasId(list[r.value], id)
    decreases |list| - from
  {
    if from == |list| then None
    else if HasId(list[from], id) then Some(from)
    else FindIndexFrom(list, id, from + 1)
  }

  /** The scan finds the FIRST record with the id at or after `from`, and nothing only when there is none. */
  lemma {:induction false} FindIndexFromIsFirst(list: seq<Record>, id: Value, from: nat)
    requires from <= |list|
    ensures FindIndexFrom(list, id, from).Some? ==>
              forall j :: from <= j < FindIndexFrom(list, id, from).value ==> !HasId(list[j], id)
    ensures FindIndexFrom(list, id, from).None? ==> forall j :: from <= j < |list| ==> !HasId(list[j], id)
    decreases |list| - from
  {
    if from < |list| && !HasId(list[from], id) {
      FindIndexFromIsFirst(list, id, from + 1);
    }
  }

  /** `FindIndex` finds the FIRST record with the id, and finds nothing only when no record has it. */
  lemma FindIndexIsFirst(list: seq<Record>, id: Value)
    ensures FindIndex(list, id).Some? ==> forall j :: 0 <= j < FindIndex(list, id).value ==> !HasId(list[j], id)
    ensures FindIndex(list, id).None? ==> forall j :: 0 <= j < |list| ==> !HasId(list[j], id)
  {
    FindIndexFromIsFirst(list, id, 0);
  }

  /** Only the ids of the records decide what the scan finds. */
  lemma {:induction false} FindIndexFromSameIds(a: seq<Record>, b: seq<Record>, id: Value, from: nat)
    requires from <= |a| == |b|
    requires forall j :: 0 <= j < |a| ==> Field(a[j], "id") == Field(b[j], "id")
    ensures FindIndexFrom(a, id, from) == FindIndexFrom(b, id, from)
    decreases |a| - from
  {
    if from < |a| {
      FindIndexFromSameIds(a, b, id, from + 1);
    }
  }

  /** Only the ids of the records decide what `FindIndex` finds. */
  lemma FindIndexSameIds(a: seq<Record>, b: seq<Record>, id: Value)
    requires |a| == |b|
    requires forall j :: 0 <= j < |a| ==> Field(a[j], "id") == Field(b[j], "id")
    ensures FindIndex(a, id) == FindIndex(b, id)
  {
    FindIndexFromSameIds(a, b, id, 0);
  }

  /** `list.find(item => item.id === id)` */
  function Find(list: seq<Record>, id: Value): (r: Option<Record>)
    ensures r.Some? <==> exists j :: 0 <= j < |list| && HasId(list[j], id)
    ensures r.Some? ==> HasId(r.value, id) && r.value in list
  {
    FindIndexIsFirst(list, id);
    match FindIndex(list, id)
    case None => None
    case Some(k) => Some(list[k])
  }

  /** What the document file held when the store was constructed. */
  datatype StoredFile =
    | Missing                  // no file: the empty document is written out
    | Parsed(doc: Document)    // the file was read and parsed
    | Unreadable               // reading or parsing threw: the error is logged, the empty document stays

  /** The four empty collections the store starts from. */
  const EmptyDocument: Document :=
    map["users" := [], "products" := [], "categories" := [], "transactions" := []]

  class JsonDb {
    /** `this.data` */
    var data: Document
    /** The document most recently handed to `save()`; file I/O itself is not modelled. */
    ghost var Saved: Option<Document>

    constructor (file: StoredFile)
      ensures file.Parsed? ==> data == file.doc && Saved == None
      ensures file.Missing? ==> data == EmptyDocument && Saved == Some(EmptyDocument)
      ensures file.Unreadable? ==> data == EmptyDocument && Saved == None
    {
      data := EmptyDocument;
      Saved := None;
      match file
      case Parsed(doc) =>
        data := doc;
      case Missing =>
        Saved := Some(data);
      case Unreadable =>
    }

    /** `get`: the collection, or [] if there is none. */
    method Get(collection: string) returns (r: seq<Record>)
      ensures collection in data ==> r == data[collection]
      ensures collection !in data ==> r == []
    {
      r := if collection in data then data[collection] else [];
    }

    /** `findById`: the first record of the collection with that id. */
    method FindById(collection: string, id: Value) returns (r: Option<Record>)
      ensures collection !in data ==> r.None?
      ensures collection in data ==> r == Find(data[collection], id)
      ensures r.None? ==> collection !in data || FindIndex(data[collection], id).None?
      ensures r.Some? ==> collection in data && FindIndex(data[collection], id).Some?
                          && r.value == data[collection][FindIndex(data[collection], id).value]
    {
      if collection in data {
        r := Find(data[collection], id);
      } else {
        r := None;
      }
    }

    /** `add`: creates a missing collection, appends the record and saves. */
    method Add(collection: string, item: Record) returns (r: Record)
      modifies this
      ensures r == item
      ensures data == old(data)[collection := (if collection in old(data) then old(data)[collection] else []) + [item]]
      ensures Saved == Some(data)
    {
      if collection !in data {
        data := data[collection := []];
      }
      data := data[collection := data[collection] + [item]];
      Saved := Some(data);
      r := item;
    }

    /** `update`: shallow-merges `updates` into the first record with that id and saves. */
    method Update(collection: string, id: Value, updates: Record) returns (r: Option<Record>)
      requires collection in data
      modifies this
      ensures FindIndex(old(data)[collection], id).None? ==>
                r.None? && data == old(data) && Saved == old(Saved)
      ensures FindIndex(old(data)[collection], id).Some? ==>
                var k := FindIndex(old(data)[collection], id).value;
                var merged := Merge(old(data)[collection][k], updates);
                && r == Some(merged)
                && data == old(data)[collection := old(data)[collection][k := merged]]
                && Saved == Some(data)
    {
      var list := data[collection];
      var index := FindIndex(list, id);
      if index.Some? {
        var merged := Merge(list[index.value], updates);
        data := data[collection := list[index.value := merged]];
        Saved := Some(data);
        r := Some(merged);
      } else {
        r := None;
      }
    }

    /** `remove`: splices out the first record with that id, saves, and returns it. */
    method Remove(collection: string, id: Value) returns (r: Option<Record>)
      requires collection in data
      modifies this
      ensures FindIndex(old(data)[collection], id).None? ==>
                r.None? && data == old(data) && Saved == old(Saved)
      ensures FindIndex(old(data)[collection], id).Some? ==>
                var list := old(data)[collection];
                var k := FindIndex(list, id).value;
                && r == Some(list[k])
                && data == old(data)[collection := list[..k] + list[k + 1..]]
                && |data[collection]| == |list| - 1
                && Saved == Some(data)
    {
      var list := data[collection];
      var index := FindIndex(list, id);
      if index.Some? {
        var k := index.value;
        data := data[collection := list[..k] + list[k + 1..]];
        Saved := Some(data);
        r := Some(list[k]);
      } else {
        r := None;
      }
    }
  }
}
