/**
  A pointer to an object stored on a remote node. The pointer keeps three
  flags: whether the remote object has already been fetched and deleted
  (exhausted), whether dropping the pointer should hand it to the client's
  garbage collector (gc enabled), and whether others may find the remote
  object (pointable). The messages the pointer sends to its client are
  recorded in order, so that "before any remote call" can be stated.
 */
module Pointers {
  import opened Common

  /** The kind of the pointer's client: a bare Address, a node (AbstractNode), or a remote client. */
  datatype ClientKind = AddressClient | NodeClient | RemoteClient

  datatype RequestStatus = Pending | Accepted | Rejected

  /** A client's verify key, by its text. */
  type VerifyKey = string

  /** The messages a pointer sends to its client. */
  datatype Message =
    | GetObject(deleteObj: bool)                           // GetObjectAction
    | ObjectDelete                                         // ObjectDeleteMessage, after a deleting fetch
    | RequestAccess(timeoutSecs: Option<int>)              // RequestMessage
    | RequestAnswer                                        // RequestAnswerMessage, one per poll of a blocking request
    | SearchPermissionUpdate(addInsteadOfRemove: bool, target: Option<VerifyKey>)  // ObjectSearchPermissionUpdateMessage

  /**
    The client's answer to a GetObjectAction: whether the stored object is a
    proxy, the data it carries, and what downloading the proxied data from its
    presigned URL gives (the object, or the failing HTTP status code).
   */
  datatype FetchReply = FetchReply(isProxy: bool, data: Option<string>, download: Result<string, int>)

  datatype PointerError =
    | ReferenceError              // get on an exhausted pointer
    | RemoteError(reason: string) // the client raised on the object request (a permission refusal, say)
    | DatasetDownloadError(status: int)  // the presigned-URL download failed

  // ---------------------------------------------------------------------------
  // _get, as functions of its arguments and the client's reply

  /** Whether `_get` downloads the real data behind a proxy. */
  predicate Downloads(proxyOnly: bool, reply: FetchReply)
  {
    !proxyOnly && reply.isProxy
  }

  /**
    What `_get` returns, given what the client's object request gives: its
    reply, or the reason of the exception it raised.
   */
  function FetchResult(deleteObj: bool, proxyOnly: bool, reply: Result<FetchReply, string>): Result<Option<string>, PointerError>
  {
    match reply
    case Err(reason) => Err(RemoteError(reason))
    case Ok(got) =>
      if Downloads(proxyOnly, got) then
        match got.download
        case Err(code) => Err(DatasetDownloadError(code))
        case Ok(content) => Ok(Some(content))
      else Ok(got.data)
  }

  /** The messages `_get` sends: the fetch, then the delete when the object was obtained and is to be deleted. */
  function FetchMessages(deleteObj: bool, proxyOnly: bool, reply: Result<FetchReply, string>): seq<Message>
  {
    [GetObject(deleteObj)] + (if deleteObj && FetchResult(deleteObj, proxyOnly, reply).Ok? then [ObjectDelete] else [])
  }

  /** The timeout the access request carries: a non-blocking request without one asks for -1 (forever). */
  function SentTimeout(block: bool, timeoutSecs: Option<int>): Option<int>
  {
    if timeoutSecs.None? && !block then Some(-1) else timeoutSecs
  }

  /** How long a blocking request waits for its answer: 30 seconds unless a timeout was given. */
  function WaitSecs(timeoutSecs: Option<int>): int
  {
    match timeoutSecs
    case None => 30
    case Some(t) => t
  }

  /**
    How many times the wait loop of a blocking request polls, given the
    answers the polls made before the deadline would receive: it stops at the
    first answer that is no longer Pending.
   */
  function PollsMade(answers: seq<RequestStatus>): (n: nat)
    ensures n <= |answers|
    ensures answers != [] ==> 0 < n
    ensures forall k :: 0 <= k < n - 1 ==> answers[k] == Pending
    ensures n < |answers| ==> answers[n - 1] != Pending
  {
    if answers == [] then 0
    else if answers[0] != Pending then 1
    else 1 + PollsMade(answers[1..])
  }

  /** The status the wait loop returns: the last answer received, or None when it never polled. */
  function WaitOutcome(answers: seq<RequestStatus>): Option<RequestStatus>
  {
    if PollsMade(answers) == 0 then None else Some(answers[PollsMade(answers) - 1])
  }

  /** The poll messages of a wait loop that polled `n` times. */
  function Polls(n: nat): seq<Message>
  {
    seq(n, _ => RequestAnswer)
  }

  /** Whether `get` deletes the remote object: `proxy_only` overrides `delete_obj`. */
  function EffectiveDelete(deleteObj: bool, proxyOnly: bool): bool
  {
    deleteObj && !proxyOnly
  }

  // ---------------------------------------------------------------------------

  /** A delete message is sent exactly when deletion was asked for and the object was obtained. */
  lemma FetchDeletesOnlyWhatItGot(deleteObj: bool, proxyOnly: bool, reply: Result<FetchReply, string>)
    ensures ObjectDelete in FetchMessages(deleteObj, proxyOnly, reply)
            <==> deleteObj && FetchResult(deleteObj, proxyOnly, reply).Ok?
    ensures FetchMessages(deleteObj, proxyOnly, reply)[0] == GetObject(deleteObj)
  {
  }

  /** A proxy-only fetch never downloads: it returns the data the reply carries. */
  lemma ProxyOnlyReturnsReplyData(deleteObj: bool, reply: FetchReply)
    ensures FetchResult(deleteObj, true, Ok(reply)) == Ok(reply.data)
  {
  }

  /**
    Only a raising object request or a failed download of proxied data makes
    `_get` fail; a raising request leaves nothing sent after it.
   */
  lemma FetchFailsOnlyOnRequestOrDownload(deleteObj: bool, proxyOnly: bool, reply: Result<FetchReply, string>)
    ensures FetchResult(deleteObj, proxyOnly, reply).Err?
            <==> reply.Err? || (!proxyOnly && reply.value.isProxy && reply.value.download.Err?)
    ensures reply.Err? ==> FetchResult(deleteObj, proxyOnly, reply) == Err(RemoteError(reply.error))
                           && FetchMessages(deleteObj, proxyOnly, reply) == [GetObject(deleteObj)]
  {
  }

  /** The timeout defaults of `request`. */
  lemma RequestTimeoutDefaults(timeoutSecs: Option<int>)
    ensures SentTimeout(false, None) == Some(-1)
    ensures SentTimeout(true, None) == None && WaitSecs(None) == 30
    ensures timeoutSecs.Some? ==> SentTimeout(false, timeoutSecs) == SentTimeout(true, timeoutSecs) == timeoutSecs
    ensures timeoutSecs.Some? ==> WaitSecs(timeoutSecs) == timeoutSecs.value
  {
  }

  /**
    A blocking request is granted exactly when some poll is answered Accepted
    and every earlier poll was answered Pending.
   */
  lemma {:induction false} WaitAccepted(answers: seq<RequestStatus>)
    ensures WaitOutcome(answers) == Some(Accepted)
            <==> exists i :: 0 <= i < |answers| && answers[i] == Accepted && forall k :: 0 <= k < i ==> answers[k] == Pending
  {
    var n := PollsMade(answers);
    if WaitOutcome(answers) == Some(Accepted) {
      assert answers[n - 1] == Accepted;
    }
    if exists i :: 0 <= i < |answers| && answers[i] == Accepted && forall k :: 0 <= k < i ==> answers[k] == Pending {
      var i :| 0 <= i < |answers| && answers[i] == Accepted && forall k :: 0 <= k < i ==> answers[k] == Pending;
      assert n == i + 1;
    }
  }

  /** The wait loop ends still Pending exactly when every poll before the deadline was answered Pending. */
  lemma WaitTimesOut(answers: seq<RequestStatus>)
    ensures WaitOutcome(answers) == Some(Pending)
            <==> answers != [] && forall k :: 0 <= k < |answers| ==> answers[k] == Pending
  {
    if answers != [] && forall k :: 0 <= k < |answers| ==> answers[k] == Pending {
      assert answers[PollsMade(answers) - 1] == Pending;
    }
  }

  /** A proxy-only get never deletes, whatever `delete_obj` says. */
  lemma ProxyOnlyNeverDeletes(deleteObj: bool)
    ensures !EffectiveDelete(deleteObj, true)
    ensures EffectiveDelete(deleteObj, false) == deleteObj
  {
  }

  // ---------------------------------------------------------------------------

  class Pointer {
    const client: ClientKind
    /** Set once the remote object has been fetched with deletion. */
    var exhausted: bool
    /** Whether dropping the pointer hands it to the client's garbage collector. */
    var gcEnabled: bool
    /** Whether the remote object may be found by others. */
    var pointable: bool
    /** The messages sent to the client so far, oldest first. */
    var sent: seq<Message>

    /** An exhausted pointer is never garbage-collected again. */
    ghost predicate Valid()
      reads this
    {
      exhausted ==> !gcEnabled
    }

    /** `__init__`: a fresh pointer is live, collectable and not pointable. */
    constructor(client: ClientKind)
      ensures this.client == client
      ensures !exhausted && gcEnabled && !pointable && sent == []
      ensures Valid()
    {
      this.client := client;
      exhausted := false;
      gcEnabled := true;
      pointable := false;
      sent := [];
    }

    /** `_get`: fetch the object, download it if it is proxied, delete it remotely if asked. */
    method Fetch(deleteObj: bool, proxyOnly: bool, reply: Result<FetchReply, string>)
      returns (r: Result<Option<string>, PointerError>)
      modifies this`sent
      ensures r == FetchResult(deleteObj, proxyOnly, reply)
      ensures sent == old(sent) + FetchMessages(deleteObj, proxyOnly, reply)
    {
      sent := sent + [GetObject(deleteObj)];
      if reply.Err? {
        return Err(RemoteError(reply.error));
      }
      var got := reply.value;
      var obj: Option<string>;
      if !proxyOnly && got.isProxy {
        if got.download.Err? {
          return Err(DatasetDownloadError(got.download.error));
        }
        obj := Some(got.download.value);
      } else {
        obj := got.data;
      }
      if deleteObj {
        sent := sent + [ObjectDelete];
      }
      r := Ok(obj);
    }

    /**
      `request`: send an access request; when blocking, poll for the answer
      until it is no longer Pending or the deadline passes. `answers` are the
      answers the polls made before the deadline receive (the clock decides how
      many there are); `waitSecs` is the deadline the wait loop uses.
     */
    method Request(block: bool, timeoutSecs: Option<int>, answers: seq<RequestStatus>)
      returns (status: Option<RequestStatus>, waitSecs: Option<int>)
      modifies this`sent
      ensures !block ==> sent == old(sent) + [RequestAccess(SentTimeout(block, timeoutSecs))]
      ensures !block ==> status.None? && waitSecs.None?
      ensures block ==> sent == old(sent) + [RequestAccess(SentTimeout(block, timeoutSecs))] + Polls(PollsMade(answers))
      ensures block ==> status == WaitOutcome(answers) && waitSecs == Some(WaitSecs(timeoutSecs))
    {
      var timeout := timeoutSecs;
      if timeout.None? && !block {
        timeout := Some(-1);
      }
      sent := sent + [RequestAccess(timeout)];
      if !block {
        return None, None;
      }
      if timeout.None? {
        timeout := Some(30);
      }
      waitSecs := timeout;
      status := None;
      var i := 0;
      assert Polls(0) == [];
      while i < |answers|
        invariant i <= |answers|
        invariant forall k :: 0 <= k < i ==> answers[k] == Pending
        invariant status == (if i == 0 then None else Some(Pending))
        invariant sent == old(sent) + [RequestAccess(timeoutSecs)] + Polls(i)
      {
        assert Polls(i) + [RequestAnswer] == Polls(i + 1);
        sent := sent + [RequestAnswer];
        status := Some(answers[i]);
        if answers[i] != Pending {
          assert PollsMade(answers) == i + 1;
          return;
        }
        i := i + 1;
      }
      assert PollsMade(answers) == |answers|;
    }

    /**
      `get`: refuse on an exhausted pointer; otherwise fetch, directly or after a
      blocking access request, and exhaust the pointer when a deleting fetch
      returned an object.
     */
    method Get(requestBlock: bool, timeoutSecs: int, deleteObj: bool, proxyOnly: bool,
               answers: seq<RequestStatus>, reply: Result<FetchReply, string>)
      returns (r: Result<Option<string>, PointerError>)
      modifies this`sent, this`exhausted, this`gcEnabled
      ensures old(exhausted) ==> r == Err(ReferenceError) && sent == old(sent)
      ensures !old(exhausted) && !requestBlock ==>
        && r == FetchResult(EffectiveDelete(deleteObj, proxyOnly), proxyOnly, reply)
        && sent == old(sent) + FetchMessages(EffectiveDelete(deleteObj, proxyOnly), proxyOnly, reply)
      ensures !old(exhausted) && requestBlock && WaitOutcome(answers) == Some(Accepted) ==>
        && r == FetchResult(EffectiveDelete(deleteObj, proxyOnly), false, reply)
        && sent == old(sent) + [RequestAccess(Some(timeoutSecs))] + Polls(PollsMade(answers))
                             + FetchMessages(EffectiveDelete(deleteObj, proxyOnly), false, reply)
      ensures !old(exhausted) && requestBlock && WaitOutcome(answers) != Some(Accepted) ==>
        r == Ok(None) && sent == old(sent) + [RequestAccess(Some(timeoutSecs))] + Polls(PollsMade(answers))
      ensures !old(exhausted) && reply.Err? && (!requestBlock || WaitOutcome(answers) == Some(Accepted)) ==>
        && r == Err(RemoteError(reply.error))
        && exhausted == old(exhausted) && gcEnabled == old(gcEnabled)
      ensures var consumed := EffectiveDelete(deleteObj, proxyOnly) && r.Ok? && r.value.Some?;
        && exhausted == (old(exhausted) || consumed)
        && gcEnabled == (old(gcEnabled) && !consumed)
      ensures old(Valid()) ==> Valid()
    {
      var delete := deleteObj;
      if proxyOnly && delete {
        delete := false;
      }
      if exhausted {
        return Err(ReferenceError);
      }
      var result;
      if !requestBlock {
        result := Fetch(delete, proxyOnly, reply);
      } else {
        var status, _ := Request(true, Some(timeoutSecs), answers);
        if status.Some? && status.value == Accepted {
          result := Fetch(delete, false, reply);
        } else {
          return Ok(None);
        }
      }
      if result.Ok? && result.value.Some? && delete {
        gcEnabled := false;
        exhausted := true;
      }
      r := result;
    }

    /**
      `get_copy`: a get with `delete_obj` off (and `proxy_only` at its default,
      off), so it never deletes and never exhausts the pointer.
     */
    method GetCopy(requestBlock: bool, timeoutSecs: int, answers: seq<RequestStatus>, reply: Result<FetchReply, string>)
      returns (r: Result<Option<string>, PointerError>)
      modifies this`sent, this`exhausted, this`gcEnabled
      ensures old(exhausted) ==> r == Err(ReferenceError) && sent == old(sent)
      ensures !old(exhausted) && !requestBlock ==>
        r == FetchResult(false, false, reply) && sent == old(sent) + [GetObject(false)]
      ensures !old(exhausted) && requestBlock && WaitOutcome(answers) == Some(Accepted) ==>
        && r == FetchResult(false, false, reply)
        && sent == old(sent) + [RequestAccess(Some(timeoutSecs))] + Polls(PollsMade(answers)) + [GetObject(false)]
      ensures !old(exhausted) && requestBlock && WaitOutcome(answers) != Some(Accepted) ==>
        r == Ok(None) && sent == old(sent) + [RequestAccess(Some(timeoutSecs))] + Polls(PollsMade(answers))
      ensures exhausted == old(exhausted) && gcEnabled == old(gcEnabled)
      ensures old(sent) <= sent && ObjectDelete !in sent[|old(sent)|..]
    {
      r := Get(requestBlock, timeoutSecs, false, false, answers, reply);
    }

    /**
      `update_searchability`: a non-None `searchable` overrides `pointable`; the
      flag and the remote permission follow, for `target` only or, when it is
      None, for everyone.
     */
    method UpdateSearchability(pointable: bool, target: Option<VerifyKey>, searchable: Option<bool>)
      modifies this`pointable, this`sent
      ensures this.pointable == (if searchable.Some? then searchable.value else pointable)
      ensures sent == old(sent) + [SearchPermissionUpdate(this.pointable, target)]
    {
      var value := pointable;
      if searchable.Some? {
        value := searchable.value;
      }
      this.pointable := value;
      sent := sent + [SearchPermissionUpdate(value, target)];
    }

    /** The `pointable` setter: nothing happens unless the value changes. */
    method SetPointable(value: bool)
      modifies this`pointable, this`sent
      ensures pointable == value
      ensures value == old(pointable) ==> sent == old(sent)
      ensures value != old(pointable) ==> sent == old(sent) + [SearchPermissionUpdate(value, None)]
    {
      if value != pointable {
        UpdateSearchability(!pointable, None, None);
      }
    }

    /** The deprecated `searchable` setter: the same as the `pointable` setter. */
    method SetSearchable(value: bool)
      modifies this`pointable, this`sent
      ensures pointable == value
      ensures value == old(pointable) ==> sent == old(sent)
      ensures value != old(pointable) ==> sent == old(sent) + [SearchPermissionUpdate(value, None)]
    {
      SetPointable(value);
    }

    /** `__del__`: whether the pointer is handed to the client's garbage collector. */
    method Finalize() returns (collected: bool)
      ensures collected <==> gcEnabled && client == RemoteClient
    {
      if client == AddressClient || client == NodeClient {
        return false;
      }
      collected := gcEnabled;
    }
  }

  /** A blocking get ignores `proxy_only` when it fetches: the proxied data is downloaded. */
  lemma BlockingGetDownloads(deleteObj: bool, reply: FetchReply)
    requires reply.isProxy
    ensures Downloads(false, reply) && !Downloads(true, reply)
    ensures FetchResult(EffectiveDelete(deleteObj, true), false, Ok(reply)).Ok?
            ==> FetchResult(EffectiveDelete(deleteObj, true), false, Ok(reply)) == Ok(Some(reply.download.value))
  {
  }
}
