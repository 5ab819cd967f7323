/**
  The stash of Twin API endpoints: a typed view of one document-store
  partition. `get_by_path` filters the partition's records by path;
  `update` replaces the first endpoint stored under the new endpoint's path
  (delete by UID, then insert with duplicates ignored).

  The partition itself belongs to the document store, which is not part of
  this model; its `get_all`, `delete_by_uid` and `set` are modelled on a
  sequence of records in insertion order, one unique index (the UID), a
  read failure and a write permission.
 */
module ApiStash {
  import opened Common

  /** A TwinAPIEndpoint as the stash sees it: its UID, its path, and the rest of its fields. */
  datatype Endpoint = Endpoint(id: nat, path: string, definition: string)

  /** What `update` may be handed: an endpoint, or an object of another type (named by its type). */
  datatype Payload = EndpointPayload(endpoint: Endpoint) | ForeignPayload(typeName: string)

  datatype StoreError =
    | TypeMismatch(typeName: string)  // check_type: payload is not a TwinAPIEndpoint
    | ReadFailed(reason: string)      // get_all failed
    | PermissionDenied                // no write capability on the partition
    | NotFound                        // delete_by_uid: no record with that UID
    | DuplicateKey                    // set without ignore_duplicates: UID already stored

  // ---------------------------------------------------------------------------
  // Records of a partition

  /** The UIDs stored in `all`. */
  function Ids(all: seq<Endpoint>): set<nat>
  {
    set x | x in all :: x.id
  }

  /** No two records share a UID (the unique index of the partition). */
  predicate UniqueIds(all: seq<Endpoint>)
  {
    forall i, j :: 0 <= i < j < |all| ==> all[i].id != all[j].id
  }

  /** No two records share a path. */
  predicate UniquePaths(all: seq<Endpoint>)
  {
    forall i, j :: 0 <= i < j < |all| ==> all[i].path != all[j].path
  }

  /** The records stored under `path`, in storage order. */
  function Filter(all: seq<Endpoint>, path: string): seq<Endpoint>
  {
    if all == [] then []
    else Filter(all[..|all| - 1], path) + (if all[|all| - 1].path == path then [all[|all| - 1]] else [])
  }

  /** The records without the one(s) carrying `uid`. */
  function RemoveId(all: seq<Endpoint>, uid: nat): seq<Endpoint>
  {
    if all == [] then []
    else RemoveId(all[..|all| - 1], uid) + (if all[|all| - 1].id != uid then [all[|all| - 1]] else [])
  }

  /** The first record carrying `uid`: it is stored, and no record before it carries `uid`. */
  function FirstWithId(all: seq<Endpoint>, uid: nat): (r: Endpoint)
    requires uid in Ids(all)
    ensures r in all && r.id == uid
    ensures exists i :: 0 <= i < |all| && all[i] == r && forall k :: 0 <= k < i ==> all[k].id != uid
  {
    if all[0].id == uid then all[0]
    else
      var r := FirstWithId(all[1..], uid);
      assert exists i :: 0 <= i < |all| && all[i] == r && forall k :: 0 <= k < i ==> all[k].id != uid by {
        var j :| 0 <= j < |all[1..]| && all[1..][j] == r && forall k :: 0 <= k < j ==> all[1..][k].id != uid;
        assert all[j + 1] == r;
        forall k | 0 <= k < j + 1
          ensures all[k].id != uid
        {
          if k > 0 { assert all[k] == all[1..][k - 1]; }
        }
      }
      r
  }

  /** `get_all`: the records, or the failure of the read. */
  function AllRecords(all: seq<Endpoint>, readError: Option<string>): Result<seq<Endpoint>, StoreError>
  {
    match readError
    case Some(reason) => Err(ReadFailed(reason))
    case None => Ok(all)
  }

  /** `get_by_path` as a function of the partition. */
  function PathLookup(all: seq<Endpoint>, readError: Option<string>, path: string): Result<seq<Endpoint>, StoreError>
  {
    match readError
    case Some(reason) => Err(ReadFailed(reason))
    case None => Ok(Filter(all, path))
  }

  /** The records `delete_by_uid` leaves behind. */
  function AfterDelete(all: seq<Endpoint>, canWrite: bool, uid: nat): seq<Endpoint>
  {
    if canWrite && uid in Ids(all) then RemoveId(all, uid) else all
  }

  /** The records `set` leaves behind: an insert at the end, unless refused or the UID is taken. */
  function AfterSet(all: seq<Endpoint>, canWrite: bool, obj: Endpoint): seq<Endpoint>
  {
    if canWrite && obj.id !in Ids(all) then all + [obj] else all
  }

  /** What `set` answers. */
  function SetReply(all: seq<Endpoint>, canWrite: bool, obj: Endpoint, ignoreDuplicates: bool): Result<Endpoint, StoreError>
  {
    if !canWrite then Err(PermissionDenied)
    else if obj.id !in Ids(all) then Ok(obj)
    else if ignoreDuplicates then Ok(FirstWithId(all, obj.id))
    else Err(DuplicateKey)
  }

  // ---------------------------------------------------------------------------
  // update, as a function of the partition

  /** The stored endpoint `update` compares with: the first one under the same path, when the lookup succeeds. */
  function Displaced(all: seq<Endpoint>, readError: Option<string>, e: Endpoint): Option<Endpoint>
  {
    var found := PathLookup(all, readError, e.path);
    if found.Ok? && |found.value| > 0 then Some(found.value[0]) else None
  }

  /** The records after the displaced endpoint (if any, and if different) was deleted. */
  function AfterDisplace(all: seq<Endpoint>, readError: Option<string>, canWrite: bool, e: Endpoint): seq<Endpoint>
  {
    match Displaced(all, readError, e)
    case Some(o) => AfterDelete(all, canWrite, o.id)
    case None => all
  }

  /** The records after `update(payload)`. */
  function UpdatedRecords(all: seq<Endpoint>, readError: Option<string>, canWrite: bool, payload: Payload): seq<Endpoint>
  {
    match payload
    case ForeignPayload(_) => all
    case EndpointPayload(e) =>
      if Displaced(all, readError, e) == Some(e) then all
      else AfterSet(AfterDisplace(all, readError, canWrite, e), canWrite, e)
  }

  /** What `update(payload)` answers. */
  function UpdateReply(all: seq<Endpoint>, readError: Option<string>, canWrite: bool, payload: Payload): Result<Endpoint, StoreError>
  {
    match payload
    case ForeignPayload(t) => Err(TypeMismatch(t))
    case EndpointPayload(e) =>
      if Displaced(all, readError, e) == Some(e) then Ok(e)
      else SetReply(AfterDisplace(all, readError, canWrite, e), canWrite, e, true)
  }

  // ---------------------------------------------------------------------------
  // Lemmas about the records

  lemma {:induction false} FilterMembers(all: seq<Endpoint>, path: string, x: Endpoint)
    ensures x in Filter(all, path) <==> x in all && x.path == path
  {
    if all != [] {
      FilterMembers(all[..|all| - 1], path, x);
      assert all == all[..|all| - 1] + [all[|all| - 1]];
    }
  }

  /** get_by_path keeps storage order: the records of a longer partition come after those of its prefix. */
  lemma {:induction false} FilterAppend(a: seq<Endpoint>, b: seq<Endpoint>, path: string)
    ensures Filter(a + b, path) == Filter(a, path) + Filter(b, path)
    decreases |b|
  {
    if b == [] {
      assert a + b == a;
    } else {
      assert (a + b)[..|a + b| - 1] == a + b[..|b| - 1];
      FilterAppend(a, b[..|b| - 1], path);
    }
  }

  /** The first record of get_by_path is the first stored record with that path. */
  lemma {:induction false} FilterFirst(all: seq<Endpoint>, path: string)
    requires Filter(all, path) != []
    ensures exists i :: 0 <= i < |all| && all[i] == Filter(all, path)[0]
                        && all[i].path == path
                        && forall k :: 0 <= k < i ==> all[k].path != path
  {
    var front, last := all[..|all| - 1], all[|all| - 1];
    var tail := if last.path == path then [last] else [];
    assert Filter(all, path) == Filter(front, path) + tail;
    if Filter(front, path) != [] {
      FilterFirst(front, path);
      var i :| 0 <= i < |front| && front[i] == Filter(front, path)[0]
               && front[i].path == path
               && forall k :: 0 <= k < i ==> front[k].path != path;
      assert Filter(all, path)[0] == Filter(front, path)[0];
      assert forall k :: 0 <= k < i ==> all[k] == front[k];
      assert 0 <= i < |all| && all[i] == Filter(all, path)[0] && all[i].path == path
             && forall k :: 0 <= k < i ==> all[k].path != path;
    } else {
      forall k | 0 <= k < |front|
        ensures all[k].path != path
      {
        FilterMembers(front, path, front[k]);
      }
      assert Filter(all, path) == [last];
      var i := |all| - 1;
      assert 0 <= i < |all| && all[i] == Filter(all, path)[0] && all[i].path == path
             && forall k :: 0 <= k < i ==> all[k].path != path;
    }
  }

  lemma {:induction false} RemoveIdMembers(all: seq<Endpoint>, uid: nat, x: Endpoint)
    ensures x in RemoveId(all, uid) <==> x in all && x.id != uid
  {
    if all != [] {
      RemoveIdMembers(all[..|all| - 1], uid, x);
      assert all == all[..|all| - 1] + [all[|all| - 1]];
    }
  }

  lemma {:induction false} RemoveIdUnique(all: seq<Endpoint>, uid: nat)
    requires UniqueIds(all)
    ensures UniqueIds(RemoveId(all, uid))
  {
    if all != [] {
      var front := all[..|all| - 1];
      var last := all[|all| - 1];
      RemoveIdUnique(front, uid);
      var r := RemoveId(front, uid);
      if last.id != uid {
        forall k | 0 <= k < |r|
          ensures r[k].id != last.id
        {
          RemoveIdMembers(front, uid, r[k]);
          var i :| 0 <= i < |front| && front[i] == r[k];
          assert all[i] == r[k];
        }
      }
    }
  }

  lemma {:induction false} RemoveIdPaths(all: seq<Endpoint>, uid: nat)
    requires UniquePaths(all)
    ensures UniquePaths(RemoveId(all, uid))
  {
    if all != [] {
      var front := all[..|all| - 1];
      var last := all[|all| - 1];
      RemoveIdPaths(front, uid);
      var r := RemoveId(front, uid);
      if last.id != uid {
        forall k | 0 <= k < |r|
          ensures r[k].path != last.path
        {
          RemoveIdMembers(front, uid, r[k]);
          var i :| 0 <= i < |front| && front[i] == r[k];
          assert all[i] == r[k];
        }
      }
    }
  }

  // ---------------------------------------------------------------------------
  // Lemmas about update

  /** A payload of another type is refused before the partition is touched. */
  lemma UpdateRejectsForeign(all: seq<Endpoint>, readError: Option<string>, canWrite: bool, t: string)
    ensures UpdatedRecords(all, readError, canWrite, ForeignPayload(t)) == all
    ensures UpdateReply(all, readError, canWrite, ForeignPayload(t)) == Err(TypeMismatch(t))
  {
  }

  /** If the first endpoint stored under the path equals the new one, nothing changes and the new one is returned. */
  lemma UpdateUnchangedWhenEqual(all: seq<Endpoint>, canWrite: bool, e: Endpoint)
    requires Filter(all, e.path) != [] && Filter(all, e.path)[0] == e
    ensures UpdatedRecords(all, None, canWrite, EndpointPayload(e)) == all
    ensures UpdateReply(all, None, canWrite, EndpointPayload(e)) == Ok(e)
  {
  }

  /** A failed path lookup is ignored: the endpoint is still inserted. */
  lemma UpdateAfterFailedRead(all: seq<Endpoint>, reason: string, canWrite: bool, e: Endpoint)
    ensures UpdatedRecords(all, Some(reason), canWrite, EndpointPayload(e)) == AfterSet(all, canWrite, e)
    ensures UpdateReply(all, Some(reason), canWrite, EndpointPayload(e)) == SetReply(all, canWrite, e, true)
  {
  }

  /**
    Nothing but the first endpoint under the path is removed, and nothing but
    the new endpoint is added.
   */
  lemma UpdateFrame(all: seq<Endpoint>, readError: Option<string>, canWrite: bool, e: Endpoint, x: Endpoint)
    ensures x in all && (Displaced(all, readError, e).None? || x.id != Displaced(all, readError, e).value.id)
            ==> x in UpdatedRecords(all, readError, canWrite, EndpointPayload(e))
    ensures x in UpdatedRecords(all, readError, canWrite, EndpointPayload(e)) ==> x in all || x == e
  {
    match Displaced(all, readError, e)
    case None =>
    case Some(o) =>
      RemoveIdMembers(all, o.id, x);
  }

  /** With write permission, the new endpoint is stored whenever its UID is free once the displaced endpoint is gone. */
  lemma UpdateStores(all: seq<Endpoint>, readError: Option<string>, e: Endpoint)
    requires e.id !in Ids(AfterDisplace(all, readError, true, e))
    ensures e in UpdatedRecords(all, readError, true, EndpointPayload(e))
    ensures UpdateReply(all, readError, true, EndpointPayload(e)) == Ok(e)
  {
    var d := Displaced(all, readError, e);
    if d == Some(e) {
      assert readError.None?;
      assert e in Filter(all, e.path);
      FilterMembers(all, e.path, e);
    }
  }

  /** The unique index survives an update. */
  lemma UpdateKeepsIdsUnique(all: seq<Endpoint>, readError: Option<string>, canWrite: bool, payload: Payload)
    requires UniqueIds(all)
    ensures UniqueIds(UpdatedRecords(all, readError, canWrite, payload))
  {
    if payload.EndpointPayload? {
      var e := payload.endpoint;
      match Displaced(all, readError, e)
      case None =>
      case Some(o) =>
        RemoveIdUnique(all, o.id);
    }
  }

  /** Helper: with distinct paths, the record update deletes was the only one under the path. */
  lemma DisplacedWasAlone(all: seq<Endpoint>, e: Endpoint, o: Endpoint, canWrite: bool)
    requires UniquePaths(all) && Displaced(all, None, e) == Some(o)
    ensures Filter(AfterDelete(all, canWrite, o.id), e.path) == [] || !canWrite
  {
    if canWrite {
      FilterFirst(all, e.path);
      var i :| 0 <= i < |all| && all[i] == o && all[i].path == e.path
               && forall k :: 0 <= k < i ==> all[k].path != e.path;
      var rest := RemoveId(all, o.id);
      forall k | 0 <= k < |rest|
        ensures rest[k].path != e.path
      {
        RemoveIdMembers(all, o.id, rest[k]);
        var j :| 0 <= j < |all| && all[j] == rest[k];
        assert all[j].path == e.path ==> j == i;
      }
      FilterNone(rest, e.path);
    }
  }

  /** The new endpoint's path holds nothing but possibly the new endpoint afterwards. */
  lemma UpdateSettlesPath(all: seq<Endpoint>, readError: Option<string>, canWrite: bool, e: Endpoint)
    requires UniquePaths(all)
    ensures var s1 := UpdatedRecords(all, readError, canWrite, EndpointPayload(e));
      Filter(s1, e.path) == [e] || (Filter(s1, e.path) == [] && e.id in Ids(s1)) || !canWrite || readError.Some?
  {
    if canWrite && readError.None? {
      var d := Displaced(all, None, e);
      var mid := AfterDisplace(all, None, canWrite, e);
      if d == Some(e) {
        assert Filter(all, e.path)[0] == e;
        FilterFirst(all, e.path);
        assert Filter(all, e.path) == [e] by {
          FilterSingle(all, e.path, e);
        }
      } else {
        if d.Some? {
          DisplacedWasAlone(all, e, d.value, canWrite);
        }
        assert Filter(mid, e.path) == [];
        if e.id !in Ids(mid) {
          FilterAppend(mid, [e], e.path);
          assert [e][..0] == [];
        }
      }
    }
  }

  /** Helper: with distinct paths, a record found under a path is the only one there. */
  lemma FilterSingle(all: seq<Endpoint>, path: string, e: Endpoint)
    requires UniquePaths(all) && Filter(all, path) != [] && Filter(all, path)[0] == e
    ensures Filter(all, path) == [e]
  {
    var f := Filter(all, path);
    if |f| > 1 {
      FilterMembers(all, path, f[1]);
      FilterMembers(all, path, f[0]);
      FilterDistinct(all, path);
      assert false;
    }
  }

  /** Helper: with distinct paths, get_by_path finds at most one record. */
  lemma {:induction false} FilterDistinct(all: seq<Endpoint>, path: string)
    requires UniquePaths(all)
    ensures |Filter(all, path)| <= 1
  {
    if all != [] {
      var front := all[..|all| - 1];
      assert UniquePaths(front);
      FilterDistinct(front, path);
      if all[|all| - 1].path == path {
        forall k | 0 <= k < |front|
          ensures front[k].path != path
        {
          assert all[k] == front[k];
        }
        FilterNone(front, path);
      }
    }
  }

  lemma {:induction false} FilterNone(all: seq<Endpoint>, path: string)
    requires forall k :: 0 <= k < |all| ==> all[k].path != path
    ensures Filter(all, path) == []
  {
    if all != [] {
      FilterNone(all[..|all| - 1], path);
    }
  }

  /** Distinct paths survive an update whose path lookup succeeds. */
  lemma UpdateKeepsPathsUnique(all: seq<Endpoint>, canWrite: bool, payload: Payload)
    requires UniquePaths(all)
    ensures UniquePaths(UpdatedRecords(all, None, canWrite, payload))
  {
    if payload.EndpointPayload? {
      var e := payload.endpoint;
      var d := Displaced(all, None, e);
      var mid := AfterDisplace(all, None, canWrite, e);
      if d != Some(e) {
        if d.Some? {
          RemoveIdPaths(all, d.value.id);
          DisplacedWasAlone(all, e, d.value, canWrite);
        }
        if canWrite && e.id !in Ids(mid) {
          assert Filter(mid, e.path) == [];
          forall k | 0 <= k < |mid|
            ensures mid[k].path != e.path
          {
            FilterMembers(mid, e.path, mid[k]);
          }
        }
      }
    }
  }

  /**
    A failed lookup can store a second endpoint under a path: the insert does
    not look at paths. This follows from the base stash's `get_all` and `set`
    contracts as this model states them (a read failure is an error value, and
    `set` checks only the UID), not from code in api_stash.py.
   */
  lemma FailedReadMayDuplicatePath(x: Endpoint, e: Endpoint)
    requires x.path == e.path && x.id != e.id
    ensures UpdatedRecords([x], Some("unreadable"), true, EndpointPayload(e)) == [x, e]
    ensures !UniquePaths([x, e])
  {
    assert Ids([x]) == {x.id};
    assert [x, e][0].path == [x, e][1].path;
  }

  /** Updating twice with the same endpoint is the same as updating once, when paths are distinct. */
  lemma UpdateIdempotent(all: seq<Endpoint>, readError: Option<string>, canWrite: bool, e: Endpoint)
    requires UniquePaths(all)
    ensures var s1 := UpdatedRecords(all, readError, canWrite, EndpointPayload(e));
      UpdatedRecords(s1, readError, canWrite, EndpointPayload(e)) == s1
  {
    var s1 := UpdatedRecords(all, readError, canWrite, EndpointPayload(e));
    if canWrite && readError.None? {
      UpdateSettlesPath(all, readError, canWrite, e);
    }
  }

  // ---------------------------------------------------------------------------
  // The stash

  class EndpointStash {
    /** The partition's records, in the order get_all returns them. */
    var records: seq<Endpoint>
    /** Set when get_all fails for the caller's credentials. */
    const readError: Option<string>
    /** Whether the caller's credentials may write to the partition. */
    const canWrite: bool

    ghost predicate Valid()
      reads this
    {
      UniqueIds(records)
    }

    constructor(readError: Option<string>, canWrite: bool)
      ensures records == [] && this.readError == readError && this.canWrite == canWrite
      ensures Valid()
    {
      this.records := [];
      this.readError := readError;
      this.canWrite := canWrite;
    }

    /** `get_all` */
    function GetAll(): Result<seq<Endpoint>, StoreError>
      reads this
    {
      AllRecords(records, readError)
    }

    /** `get_by_path`: the stored endpoints under `path`, in storage order, or the read failure. */
    method GetByPath(path: string) returns (r: Result<seq<Endpoint>, StoreError>)
      ensures r == PathLookup(records, readError, path)
    {
      var results := GetAll();
      if results.Ok? && |results.value| > 0 {
        var all := results.value;
        var items := [];
        for i := 0 to |all|
          invariant items == Filter(all[..i], path)
        {
          if all[i].path == path {
            items := items + [all[i]];
          }
          assert all[..i + 1][..i] == all[..i];
        }
        assert all[..|all|] == all;
        return Ok(items);
      } else {
        return results;
      }
    }

    /** The base stash's `delete_by_uid`. */
    method DeleteByUid(uid: nat) returns (r: Result<(), StoreError>)
      modifies this`records
      ensures records == AfterDelete(old(records), canWrite, uid)
      ensures r == (if !canWrite then Err(PermissionDenied) else if uid !in Ids(old(records)) then Err(NotFound) else Ok(()))
      ensures old(Valid()) ==> Valid()
    {
      if !canWrite {
        return Err(PermissionDenied);
      }
      if uid !in Ids(records) {
        return Err(NotFound);
      }
      if UniqueIds(records) {
        RemoveIdUnique(records, uid);
      }
      records := RemoveId(records, uid);
      r := Ok(());
    }

    /** The base stash's `set`. */
    method Set(obj: Endpoint, ignoreDuplicates: bool) returns (r: Result<Endpoint, StoreError>)
      modifies this`records
      ensures records == AfterSet(old(records), canWrite, obj)
      ensures r == SetReply(old(records), canWrite, obj, ignoreDuplicates)
      ensures old(Valid()) ==> Valid()
    {
      if !canWrite {
        return Err(PermissionDenied);
      }
      if obj.id in Ids(records) {
        if ignoreDuplicates {
          return Ok(FirstWithId(records, obj.id));
        }
        return Err(DuplicateKey);
      }
      records := records + [obj];
      r := Ok(obj);
    }

    /** `update`: replace the first endpoint stored under the new endpoint's path. */
    method Update(payload: Payload) returns (r: Result<Endpoint, StoreError>)
      modifies this`records
      ensures records == UpdatedRecords(old(records), readError, canWrite, payload)
      ensures r == UpdateReply(old(records), readError, canWrite, payload)
      ensures old(Valid()) ==> Valid()
    {
      ghost var before := records;
      if payload.ForeignPayload? {
        return Err(TypeMismatch(payload.typeName));
      }
      var endpoint := payload.endpoint;
      var oldEndpoint := GetByPath(endpoint.path);
      if oldEndpoint.Ok? && |oldEndpoint.value| > 0 {
        var first := oldEndpoint.value[0];
        if first == endpoint {
          return Ok(endpoint);
        } else {
          var _ := DeleteByUid(first.id);
        }
      }
      r := Set(endpoint, true);
      if UniqueIds(before) {
        UpdateKeepsIdsUnique(before, readError, canWrite, payload);
      }
    }
  }
}
