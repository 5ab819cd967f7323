/**
  The dataset stash: a typed view of the dataset partition with a lookup by
  name (a one-key query answered by `query_one`) and an `update` that
  type-checks its payload before handing it to the base stash.
 */
module DatasetStash {
  import opened Common

  /** The type a collection key declares for its values. */
  datatype KeyType = StrType | IntType

  /** CollectionKey(key=..., type_=...) */
  datatype CollectionKey = CollectionKey(key: string, keyType: KeyType)

  /** A collection key bound to a value (`CollectionKey.with_obj`). */
  datatype QueryKey = QueryKey(collectionKey: CollectionKey, value: string)

  /** The key the stash looks datasets up by: "name", of type str. */
  const NameCollectionKey := CollectionKey("name", StrType)

  /** A stored Dataset: its UID, its name, and its other searchable fields. */
  datatype Dataset = Dataset(id: nat, name: string, otherFields: map<string, string>)

  /** What `update` may be handed: a DatasetUpdate, or an object of another type. */
  datatype UpdatePayload = DatasetUpdatePayload(changes: map<string, string>) | ForeignPayload(typeName: string)

  datatype StoreError =
    | TypeMismatch(typeName: string)  // check_type: payload of the wrong type
    | ReadFailed(reason: string)      // the query could not be answered
    | AmbiguousResult                 // query_one: more than one record matched

  /** The value a dataset holds under a field name. */
  function FieldValue(d: Dataset, field: string): Option<string>
  {
    if field == "name" then Some(d.name)
    else if field in d.otherFields then Some(d.otherFields[field])
    else None
  }

  /** A dataset answers a query when every key's field holds the key's value. */
  predicate Matches(d: Dataset, qks: seq<QueryKey>)
  {
    forall k :: 0 <= k < |qks| ==> FieldValue(d, qks[k].collectionKey.key) == Some(qks[k].value)
  }

  /** The datasets that answer a query, in storage order. */
  function Matching(records: seq<Dataset>, qks: seq<QueryKey>): (m: seq<Dataset>)
    ensures forall d :: d in m <==> d in records && Matches(d, qks)
  {
    if records == [] then []
    else
      var front := records[..|records| - 1];
      assert records == front + [records[|records| - 1]];
      Matching(front, qks) + (if Matches(records[|records| - 1], qks) then [records[|records| - 1]] else [])
  }

  /** The base store's `query_one`: none, exactly one, or an ambiguity error. */
  function QueryOne(records: seq<Dataset>, readError: Option<string>, qks: seq<QueryKey>): Result<Option<Dataset>, StoreError>
  {
    if readError.Some? then Err(ReadFailed(readError.value))
    else
      var m := Matching(records, qks);
      if |m| == 0 then Ok(None)
      else if |m| == 1 then Ok(Some(m[0]))
      else Err(AmbiguousResult)
  }

  /** The query `get_by_name` builds. */
  function NameQuery(name: string): seq<QueryKey>
  {
    [QueryKey(NameCollectionKey, name)]
  }

  /** `get_by_name`: a read failure is passed on; otherwise the only error is an ambiguous name. */
  function GetByName(records: seq<Dataset>, readError: Option<string>, name: string): (r: Result<Option<Dataset>, StoreError>)
    ensures readError.Some? ==> r == Err(ReadFailed(readError.value))
    ensures readError.None? && r.Err? ==> r.error == AmbiguousResult
  {
    QueryOne(records, readError, NameQuery(name))
  }

  /**
    `update`: the type check, then the base stash's update. A DatasetUpdate
    reaches the base update unchanged, and its answer is returned unchanged.
   */
  function Update(payload: UpdatePayload, baseUpdate: map<string, string> -> Result<Dataset, StoreError>): (r: Result<Dataset, StoreError>)
    ensures payload.ForeignPayload? ==> r == Err(TypeMismatch(payload.typeName))
    ensures payload.DatasetUpdatePayload? ==> r == baseUpdate(payload.changes)
  {
    match payload
    case ForeignPayload(t) => Err(TypeMismatch(t))
    case DatasetUpdatePayload(changes) => baseUpdate(changes)
  }

  // ---------------------------------------------------------------------------

  lemma NameQueryMatches(d: Dataset, name: string)
    ensures Matches(d, NameQuery(name)) <==> d.name == name
  {
    var qks := NameQuery(name);
    assert Matches(d, qks) <==> FieldValue(d, qks[0].collectionKey.key) == Some(name);
  }

  /** A dataset found by name is stored and carries that name. */
  lemma GetByNameFound(records: seq<Dataset>, readError: Option<string>, name: string)
    requires GetByName(records, readError, name).Ok? && GetByName(records, readError, name).value.Some?
    ensures var d := GetByName(records, readError, name).value.value;
      d in records && d.name == name
  {
    var m := Matching(records, NameQuery(name));
    NameQueryMatches(m[0], name);
  }

  /** When the store can be read, `get_by_name` finds nothing exactly when no stored dataset has the name. */
  lemma GetByNameAbsent(records: seq<Dataset>, name: string)
    ensures GetByName(records, None, name) == Ok(None) <==> forall d :: d in records ==> d.name != name
  {
    var m := Matching(records, NameQuery(name));
    forall d | d in records
      ensures d in m <==> d.name == name
    {
      NameQueryMatches(d, name);
    }
    if m != [] {
      assert m[0] in m;
    }
  }

  /**
    Two stored datasets with the same name make `get_by_name` fail. This
    follows from the base stash's `query_one` contract as this model states it
    (more than one match is an error), not from code in dataset_stash.py.
   */
  lemma GetByNameAmbiguous(records: seq<Dataset>, name: string, i: nat, j: nat)
    requires i < j < |records| && records[i].name == name && records[j].name == name
    ensures GetByName(records, None, name) == Err(AmbiguousResult)
  {
    NameQueryMatches(records[i], name);
    NameQueryMatches(records[j], name);
    MatchingKeepsBoth(records, NameQuery(name), i, j);
  }

  /** Two matching records at distinct positions give at least two matches. */
  lemma {:induction false} MatchingKeepsBoth(records: seq<Dataset>, qks: seq<QueryKey>, i: nat, j: nat)
    requires i < j < |records| && Matches(records[i], qks) && Matches(records[j], qks)
    ensures |Matching(records, qks)| >= 2
  {
    var front := records[..|records| - 1];
    if j < |records| - 1 {
      assert front[i] == records[i] && front[j] == records[j];
      MatchingKeepsBoth(front, qks, i, j);
    } else {
      assert front[i] == records[i];
      assert records[i] in Matching(front, qks);
    }
  }
}
