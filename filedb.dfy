/**
 * The flat-file document store used when no database server is reachable.
 * Each collection is one JSON file holding an array of documents; every
 * operation reads the whole file, works on the array and writes it back.
 * Files are modelled as a map from collection name to what the file holds.
 */
module FileDb {
  import opened Base
  import opened Js

  /** A stored document: field name to JSON value. */
  type Doc = map<string, Value>

  /** A query object: every key must be strictly equal on a matching document. */
  type Query = map<string, Value>

  /** What a collection file holds: a parsed array, or text `JSON.parse` rejects. */
  datatype StoredFile = Parsed(docs: seq<Doc>) | Unparsable

  /** `item[key]`: a missing field reads as `undefined`. */
  function Field(item: Doc, key: string): Value
  {
    if key in item then item[key] else Undefined
  }

  /** Every key of the query holds a strictly equal value in the document. */
  predicate Matches(item: Doc, query: Query)
  {
    forall key :: key in query ==> StrictEquals(Field(item, key), query[key])
  }

  /** The documents that match, in stored order. */
  function Filter(data: seq<Doc>, query: Query): (r: seq<Doc>)
    ensures |r| <= |data|
    ensures forall d :: d in r <==> d in data && Matches(d, query)
  {
    if data == [] then []
    else (if Matches(data[0], query) then [data[0]] else []) + Filter(data[1..], query)
  }

  /** The documents that do not match, in stored order: what `delete` keeps. */
  function Reject(data: seq<Doc>, query: Query): (r: seq<Doc>)
    ensures |r| <= |data|
    ensures forall d :: d in r <==> d in data && !Matches(d, query)
  {
    if data == [] then []
    else (if Matches(data[0], query) then [] else [data[0]]) + Reject(data[1..], query)
  }

  /** Position of the first matching document, or -1. */
  function FindIndex(data: seq<Doc>, query: Query): (r: int)
    ensures -1 <= r < |data|
    ensures r == -1 <==> forall i :: 0 <= i < |data| ==> !Matches(data[i], query)
    ensures r >= 0 ==> Matches(data[r], query)
    ensures r >= 0 ==> forall i :: 0 <= i < r ==> !Matches(data[i], query)
  {
    if data == [] then -1
    else if Matches(data[0], query) then 0
    else
      var k := FindIndex(data[1..], query);
      if k == -1 then -1 else k + 1
  }

  /** Filtering distributes over concatenation: matches keep their original order. */
  lemma {:induction false} FilterConcat(a: seq<Doc>, b: seq<Doc>, query: Query)
    ensures Filter(a + b, query) == Filter(a, query) + Filter(b, query)
  {
    if a != [] {
      assert (a + b)[0] == a[0] && (a + b)[1..] == a[1..] + b;
      FilterConcat(a[1..], b, query);
    } else {
      assert a + b == b;
    }
  }

  /** A query every item matches (the empty query in particular) filters nothing out. */
  lemma {:induction false} FilterAllMatching(data: seq<Doc>, query: Query)
    requires forall i :: 0 <= i < |data| ==> Matches(data[i], query)
    ensures Filter(data, query) == data
  {
    if data != [] {
      assert Matches(data[0], query);
      FilterAllMatching(data[1..], query);
    }
  }

  /** The empty query matches every document. */
  lemma EmptyQueryMatches(item: Doc)
    ensures Matches(item, map[])
  {
  }

  /** Every document lands in exactly one of `Filter` and `Reject`. */
  lemma {:induction false} PartitionSizes(data: seq<Doc>, query: Query)
    ensures |Filter(data, query)| + |Reject(data, query)| == |data|
  {
    if data != [] {
      PartitionSizes(data[1..], query);
    }
  }

  /** `delete` removes something exactly when some document matches. */
  lemma {:induction false} RejectShrinksIffMatch(data: seq<Doc>, query: Query)
    ensures |Reject(data, query)| != |data| <==> FindIndex(data, query) != -1
  {
    PartitionSizes(data, query);
    FilterHeadIsFirstMatch(data, query);
  }

  /** The first element of `Filter` is the document `FindIndex` points at. */
  lemma {:induction false} FilterHeadIsFirstMatch(data: seq<Doc>, query: Query)
    ensures Filter(data, query) != [] <==> FindIndex(data, query) != -1
    ensures Filter(data, query) != [] ==> Filter(data, query)[0] == data[FindIndex(data, query)]
  {
    if data != [] && !Matches(data[0], query) {
      FilterHeadIsFirstMatch(data[1..], query);
    }
  }

  /** Object spread of the stored document and the update, then a fresh `updatedAt`: later sources override earlier ones. */
  function Overlay(base: Doc, upd: Doc, stamp: string): (r: Doc)
    ensures r.Keys == base.Keys + upd.Keys + {"updatedAt"}
    ensures r["updatedAt"] == Str(stamp)
    ensures forall k :: k in upd && k != "updatedAt" ==> r[k] == upd[k]
    ensures forall k :: k in base && k !in upd && k != "updatedAt" ==> r[k] == base[k]
  {
    base + upd + map["updatedAt" := Str(stamp)]
  }

  class FileDB {
    /** The data directory: collection name to the content of its JSON file. */
    var files: map<string, StoredFile>

    constructor (initial: map<string, StoredFile>)
      ensures files == initial
    {
      files := initial;
    }

    /** `readCollection`: a missing or unparsable file reads as an empty collection. */
    function ReadCollection(collection: string): (data: seq<Doc>)
      reads this
      ensures collection !in files ==> data == []
      ensures collection in files && files[collection].Unparsable? ==> data == []
      ensures collection in files && files[collection].Parsed? ==> data == files[collection].docs
    {
      if collection in files && files[collection].Parsed? then files[collection].docs else []
    }

    /** `find`: with an empty query the whole collection, else the matches in order. */
    function Find(collection: string, query: Query): (r: seq<Doc>)
      reads this
      ensures r == Filter(ReadCollection(collection), query)
      ensures |query| == 0 ==> r == ReadCollection(collection)
    {
      if |query| == 0 then
        var data := ReadCollection(collection);
        FilterAllMatching(data, query);
        data
      else
        Filter(ReadCollection(collection), query)
    }

    /** `findOne`: the first match, or `null` when nothing matches. */
    function FindOne(collection: string, query: Query): (r: Option<Doc>)
      reads this
      ensures r.None? <==> FindIndex(ReadCollection(collection), query) == -1
      ensures r.Some? ==> r.value == ReadCollection(collection)[FindIndex(ReadCollection(collection), query)]
    {
      FilterHeadIsFirstMatch(ReadCollection(collection), query);
      var results := Find(collection, query);
      if |results| > 0 then Some(results[0]) else None
    }

    /**
     * `insert`: stamps the document with a fresh id and creation time and
     * appends it.  An unparsable file is read as empty, so it is overwritten.
     */
    method Insert(collection: string, doc: Doc, id: string, stamp: string) returns (saved: Doc)
      modifies this
      ensures saved == doc["_id" := Str(id)]["createdAt" := Str(stamp)]
      ensures files == old(files)[collection := Parsed(old(ReadCollection(collection)) + [saved])]
    {
      var data := ReadCollection(collection);
      saved := doc["_id" := Str(id)]["createdAt" := Str(stamp)];
      data := data + [saved];
      files := files[collection := Parsed(data)];
    }

    /**
     * `update`: overlays the first matching document with the update fields and
     * a fresh `updatedAt`; with no match nothing is written and `null` returned.
     */
    method Update(collection: string, query: Query, upd: Doc, stamp: string) returns (r: Option<Doc>)
      modifies this
      ensures var i := FindIndex(old(ReadCollection(collection)), query);
              i == -1 ==> r.None? && files == old(files)
      ensures var data := old(ReadCollection(collection));
              var i := FindIndex(data, query);
              i != -1 ==> && r == Some(Overlay(data[i], upd, stamp))
                          && files == old(files)[collection := Parsed(data[i := r.value])]
    {
      var data := ReadCollection(collection);
      var index := FindIndex(data, query);
      if index != -1 {
        var merged := Overlay(data[index], upd, stamp);
        data := data[index := merged];
        files := files[collection := Parsed(data)];
        r := Some(merged);
      } else {
        r := None;
      }
    }

    /**
     * `delete`: removes every matching document, keeping the rest in order;
     * writes and answers true only when something was removed.
     */
    method Delete(collection: string, query: Query) returns (removed: bool)
      modifies this
      ensures var data := old(ReadCollection(collection));
              && (removed <==> FindIndex(data, query) != -1)
              && files == if removed then old(files)[collection := Parsed(Reject(data, query))]
                          else old(files)
    {
      var data := ReadCollection(collection);
      var newData := Reject(data, query);
      RejectShrinksIffMatch(data, query);
      if |newData| != |data| {
        files := files[collection := Parsed(newData)];
        removed := true;
      } else {
        removed := false;
      }
    }
  }

  /** `update({})` on a non-empty collection rewrites its first document. */
  lemma EmptyQueryUpdateHitsFirst(data: seq<Doc>)
    requires data != []
    ensures FindIndex(data, map[]) == 0
  {
  }

  /** `delete({})` empties the collection. */
  lemma {:induction false} EmptyQueryDeleteEmpties(data: seq<Doc>)
    ensures Reject(data, map[]) == []
  {
    if data != [] {
      EmptyQueryDeleteEmpties(data[1..]);
    }
  }
}
