/**
 * The cluster as the engine's client sees it: every call is answered by the
 * next reply of a script, and every call is logged. A successful Create,
 * Get or Update writes the server's copy of the object into the caller's
 * object, as the client library does.
 */
module Cluster {
  import opened Wrappers
  import opened Objects

  /** API errors the engine tells apart: not found, no kind match (the kind is unknown to the cluster), and any other. */
  datatype ApiError = NotFound | NoKindMatch | Other(message: string)

  type Reply = Result<Unstructured, ApiError>

  const NoReply: string := "no reply"

  /** The next reply; a script that has run out answers with an error. */
  function Answer(replies: seq<Reply>): Reply {
    if replies == [] then Failure(Other(NoReply)) else replies[0]
  }

  function Rest(replies: seq<Reply>): seq<Reply> {
    if replies == [] then [] else replies[1..]
  }

  /** The script after n calls. */
  function Drop(replies: seq<Reply>, n: nat): seq<Reply> {
    if n == 0 then replies else Drop(Rest(replies), n - 1)
  }

  /** After n calls the script is its suffix from n on, or empty once it has run out. */
  lemma {:induction false} DropIsSuffix(replies: seq<Reply>, n: nat)
    ensures Drop(replies, n) == if n <= |replies| then replies[n..] else []
  {
    if n > 0 {
      DropIsSuffix(Rest(replies), n - 1);
      if replies != [] && n <= |replies| {
        assert replies[1..][n - 1..] == replies[n..];
      }
    }
  }

  datatype Verb = CreateCall | GetCall | UpdateCall | DeleteCall

  /** A logged call: what was asked, for which key, and the object sent with it. */
  datatype Call = Call(verb: Verb, key: ObjectKey, sent: Option<Unstructured>)

  function Gets(key: ObjectKey, n: nat): (r: seq<Call>)
    ensures |r| == n && forall i :: 0 <= i < n ==> r[i] == Call(GetCall, key, None)
  {
    if n == 0 then [] else Gets(key, n - 1) + [Call(GetCall, key, None)]
  }

  /** A caller-owned object that calls write into. */
  class ObjectRef {
    var value: Unstructured

    constructor (value: Unstructured)
      ensures this.value == value
    {
      this.value := value;
    }
  }

  class Client {
    var replies: seq<Reply>
    var calls: seq<Call>

    constructor (replies: seq<Reply>)
      ensures this.replies == replies && calls == []
    {
      this.replies := replies;
      calls := [];
    }

    /** Takes the next reply off the script. */
    method Next() returns (reply: Reply)
      modifies this
      ensures reply == Answer(old(replies)) && replies == Rest(old(replies)) && calls == old(calls)
    {
      if replies == [] {
        reply := Failure(Other(NoReply));
      } else {
        reply := replies[0];
        replies := replies[1..];
      }
    }

    method Get(key: ObjectKey, into: ObjectRef) returns (err: Option<ApiError>)
      modifies this, into
      ensures replies == Rest(old(replies)) && calls == old(calls) + [Call(GetCall, key, None)]
      ensures Answer(old(replies)).Success? ==> err == None && into.value == Answer(old(replies)).value
      ensures Answer(old(replies)).Failure? ==> err == Some(Answer(old(replies)).error) && into.value == old(into.value)
    {
      var reply := Next();
      calls := calls + [Call(GetCall, key, None)];
      if reply.Success? {
        into.value := reply.value;
        err := None;
      } else {
        err := Some(reply.error);
      }
    }

    method Create(obj: ObjectRef) returns (err: Option<ApiError>)
      modifies this, obj
      ensures replies == Rest(old(replies)) && calls == old(calls) + [Call(CreateCall, KeyOf(old(obj.value)), Some(old(obj.value)))]
      ensures Answer(old(replies)).Success? ==> err == None && obj.value == Answer(old(replies)).value
      ensures Answer(old(replies)).Failure? ==> err == Some(Answer(old(replies)).error) && obj.value == old(obj.value)
    {
      var reply := Next();
      calls := calls + [Call(CreateCall, KeyOf(obj.value), Some(obj.value))];
      if reply.Success? {
        obj.value := reply.value;
        err := None;
      } else {
        err := Some(reply.error);
      }
    }

    method Update(obj: ObjectRef) returns (err: Option<ApiError>)
      modifies this, obj
      ensures replies == Rest(old(replies)) && calls == old(calls) + [Call(UpdateCall, KeyOf(old(obj.value)), Some(old(obj.value)))]
      ensures Answer(old(replies)).Success? ==> err == None && obj.value == Answer(old(replies)).value
      ensures Answer(old(replies)).Failure? ==> err == Some(Answer(old(replies)).error) && obj.value == old(obj.value)
    {
      var reply := Next();
      calls := calls + [Call(UpdateCall, KeyOf(obj.value), Some(obj.value))];
      if reply.Success? {
        obj.value := reply.value;
        err := None;
      } else {
        err := Some(reply.error);
      }
    }

    method Delete(obj: ObjectRef) returns (err: Option<ApiError>)
      modifies this
      ensures replies == Rest(old(replies)) && calls == old(calls) + [Call(DeleteCall, KeyOf(obj.value), Some(obj.value))]
      ensures err == (if Answer(old(replies)).Success? then None else Some(Answer(old(replies)).error))
    {
      var reply := Next();
      calls := calls + [Call(DeleteCall, KeyOf(obj.value), Some(obj.value))];
      err := if reply.Success? then None else Some(reply.error);
    }
  }
}
