/**
 * The per-object lifecycle of a component's cluster objects: Create, Read,
 * Update and Delete against the cluster client, each Create and Update
 * followed by the readiness wait and each Delete by the deletion wait.
 * Each operation is a method over the scripted client, proved against a
 * function that says, from the script of replies, which calls it makes and
 * how it ends.
 */
module Lifecycle {
  import opened Wrappers
  import opened Objects
  import opened Foreign
  import opened Cluster
  import opened Readiness
  import opened Polling
  import opened ComponentObjects

  /** The Terraform resource's state: only its id is touched here. */
  class ResourceData {
    var id: string

    constructor (id: string)
      ensures this.id == id
    {
      this.id := id;
    }
  }

  /** What the wait was for, as the wrapped wait error names it. */
  const CreatedGoal: string := "created"
  const DeletedGoal: string := "deleted"

  datatype LifecycleError =
    | ApiFailed(api: ApiError)
    | WaitFailed(id: string, goal: string, cause: WaitError)
    | Unmarshal(message: string)

  /** How an operation ends, the calls it makes, and how many script replies it consumes. */
  datatype Run = Run(err: Option<LifecycleError>, calls: seq<Call>, consumed: nat)

  /** The readiness wait on the object with the given key, as waitForReadyStatus wraps its failure. */
  function ReadyWait(lib: Library, replies: seq<Reply>, key: ObjectKey, id: string, budget: nat): (r: Run)
    ensures r.consumed <= budget && r.calls == Gets(key, r.consumed)
    ensures r.err.Some? ==> r.err.value.WaitFailed? && r.err.value.id == id && r.err.value.goal == CreatedGoal
  {
    var w := Waited(ReadyConf, ReadyCheck(lib), replies, budget, 0, "");
    Run(if w.outcome.None? then None else Some(WaitFailed(id, CreatedGoal, w.outcome.value)), Gets(key, w.polls), w.polls)
  }

  /** waitForReadyStatus: the readiness wait on the object, keyed by the object as it stands. */
  method WaitForReadyStatus(lib: Library, d: ResourceData, c: Client, obj: ObjectRef, budget: nat) returns (err: Option<LifecycleError>)
    modifies c, obj
    ensures var run := ReadyWait(lib, old(c.replies), KeyOf(old(obj.value)), d.id, budget);
      err == run.err && c.calls == old(c.calls) + run.calls && c.replies == Drop(old(c.replies), run.consumed) &&
      obj.value == Fetched(old(c.replies), run.consumed, old(obj.value))
  {
    var key := KeyOf(obj.value);
    var w := WaitForState(ReadyConf, ReadyCheck(lib), c, obj, key, budget);
    err := if w.None? then None else Some(WaitFailed(d.id, CreatedGoal, w.value));
  }

  // ---------------------------------------------------------------------
  // Create, and the submission Update shares with it

  /**
   * Submitting an object (Create, or Update once the live version is
   * known): a failed call ends the operation before any wait; otherwise the
   * readiness wait polls the object the cluster returned.
   */
  function Submitted(lib: Library, verb: Verb, replies: seq<Reply>, o: Unstructured, id: string, budget: nat): (r: Run)
    ensures |r.calls| == r.consumed >= 1 && r.calls[0] == Call(verb, KeyOf(o), Some(o))
    ensures Answer(replies).Failure? ==> r == Run(Some(ApiFailed(Answer(replies).error)), r.calls, 1)
    ensures Answer(replies).Success? ==>
      r.consumed <= budget + 1 &&
      forall i :: 1 <= i < |r.calls| ==> r.calls[i] == Call(GetCall, KeyOf(Answer(replies).value), None)
    ensures r.err.Some? && !r.err.value.ApiFailed? ==> r.err.value.WaitFailed? && r.err.value.id == id && r.err.value.goal == CreatedGoal
  {
    var submit := Call(verb, KeyOf(o), Some(o));
    var first := Answer(replies);
    if first.Failure? then Run(Some(ApiFailed(first.error)), [submit], 1)
    else
      var w := ReadyWait(lib, Rest(replies), KeyOf(first.value), id, budget);
      Run(w.err, [submit] + w.calls, 1 + w.consumed)
  }

  /**
   * The caller's object after a submission that consumed n replies: as it
   * was when the call failed, otherwise the cluster's copy, overwritten by
   * every object a poll fetched.
   */
  function AfterSubmit(replies: seq<Reply>, o: Unstructured, n: nat): Unstructured {
    if Answer(replies).Failure? || n == 0 then o else Fetched(Rest(replies), n - 1, Answer(replies).value)
  }

  /** A submission whose wait succeeded leaves behind an object the readiness refresh finds ready. */
  lemma SubmittedLeavesReady(lib: Library, verb: Verb, replies: seq<Reply>, o: Unstructured, id: string, budget: nat)
    requires Submitted(lib, verb, replies, o, id, budget).err.None?
    ensures Answer(replies).Success?
    ensures ReadyRefresh(lib, Success(AfterSubmit(replies, o, Submitted(lib, verb, replies, o, id, budget).consumed))) == Found(Ready)
  {
    var rest := Rest(replies);
    var w := Waited(ReadyConf, ReadyCheck(lib), rest, budget, 0, "");
    SuccessSawTarget(ReadyConf, ReadyCheck(lib), rest, budget, 0, "");
    var got := Answer(Drop(rest, w.polls - 1));
    assert ReadyCheck(lib)(got) == ReadyRefresh(lib, got);
    FetchedLast(rest, w.polls, Answer(replies).value);
  }

  /** Submit the object with a Create or an Update call; on success wait for the returned object to be ready. */
  method SubmitAndWait(lib: Library, verb: Verb, d: ResourceData, c: Client, obj: ObjectRef, budget: nat) returns (err: Option<LifecycleError>)
    requires verb == CreateCall || verb == UpdateCall
    modifies c, obj
    ensures var run := Submitted(lib, verb, old(c.replies), old(obj.value), d.id, budget);
      err == run.err && c.calls == old(c.calls) + run.calls && c.replies == Drop(old(c.replies), run.consumed) &&
      obj.value == AfterSubmit(old(c.replies), old(obj.value), run.consumed)
  {
    var e;
    if verb == CreateCall {
      e := c.Create(obj);
    } else {
      e := c.Update(obj);
    }
    if e.Some? {
      return Some(ApiFailed(e.value));
    }
    err := WaitForReadyStatus(lib, d, c, obj, budget);
  }

  /** resourceK8sManifestCreate: create the component object's cluster object and wait for it to be ready. */
  method Create(lib: Library, d: ResourceData, c: Client, co: ComponentObject, budget: nat) returns (err: Option<LifecycleError>)
    modifies c
    ensures var run := Submitted(lib, CreateCall, old(c.replies), co.unstructured, d.id, budget);
      err == run.err && c.calls == old(c.calls) + run.calls && c.replies == Drop(old(c.replies), run.consumed)
  {
    var obj := new ObjectRef(co.unstructured);
    err := SubmitAndWait(lib, CreateCall, d, c, obj, budget);
  }

  // ---------------------------------------------------------------------
  // Read

  datatype ReadVerdict = Present | Gone | ReadFailed(api: ApiError)

  /** Read's decision on the Get reply: a missing object or kind is not an error, it clears the id. */
  function ReadDecision(got: Reply): (v: ReadVerdict)
    ensures v.Present? <==> got.Success?
    ensures v.Gone? <==> got.Failure? && (got.error.NotFound? || got.error.NoKindMatch?)
    ensures v.ReadFailed? ==> got.Failure? && v.api == got.error && !got.error.NotFound? && !got.error.NoKindMatch?
  {
    match got
    case Success(_) => Present
    case Failure(NotFound) => Gone
    case Failure(NoKindMatch) => Gone
    case Failure(e) => ReadFailed(e)
  }

  /**
   * resourceK8sManifestRead: fetch the object by its key; clear the id when
   * it is gone. `o` is the component object's cluster object.
   */
  method Read(d: ResourceData, c: Client, o: Unstructured) returns (err: Option<LifecycleError>)
    modifies c, d
    ensures var v := ReadDecision(Answer(old(c.replies)));
      c.calls == old(c.calls) + [Call(GetCall, KeyOf(o), None)] && c.replies == Rest(old(c.replies)) &&
      d.id == (if v.Gone? then "" else old(d.id)) &&
      err == (if v.ReadFailed? then Some(ApiFailed(v.api)) else None)
  {
    var obj := new ObjectRef(o);
    var key := KeyOf(obj.value);
    var e := c.Get(key, obj);
    var got: Reply := if e.None? then Success(obj.value) else Failure(e.value);
    var v := ReadDecision(got);
    if v.Gone? {
      d.id := "";
    } else if v.ReadFailed? {
      err := Some(ApiFailed(v.api));
      return;
    }
    err := None;
  }

  // ---------------------------------------------------------------------
  // Update

  /** The object Update submits: the caller's object stamped with the live resourceVersion. */
  function Stamped(o: Unstructured, live: Unstructured): (s: Unstructured)
    ensures s.metadata.resourceVersion == live.metadata.resourceVersion
    ensures KeyOf(s) == KeyOf(o)
    ensures s.(metadata := s.metadata.(resourceVersion := o.metadata.resourceVersion)) == o
  {
    WithResourceVersion(o, live.metadata.resourceVersion)
  }

  /**
   * Update reads the live object first and stops if that fails; otherwise
   * it submits the object stamped with the live resourceVersion.
   */
  function Updated(lib: Library, replies: seq<Reply>, o: Unstructured, id: string, budget: nat): (r: Run)
    ensures |r.calls| == r.consumed >= 1 && r.calls[0] == Call(GetCall, KeyOf(o), None)
    ensures Answer(replies).Failure? ==> r == Run(Some(ApiFailed(Answer(replies).error)), r.calls, 1)
    ensures Answer(replies).Success? ==>
      r.consumed >= 2 && r.calls[1] == Call(UpdateCall, KeyOf(o), Some(Stamped(o, Answer(replies).value)))
  {
    var read := Call(GetCall, KeyOf(o), None);
    var live := Answer(replies);
    if live.Failure? then Run(Some(ApiFailed(live.error)), [read], 1)
    else
      var s := Submitted(lib, UpdateCall, Rest(replies), Stamped(o, live.value), id, budget);
      Run(s.err, [read] + s.calls, 1 + s.consumed)
  }

  /** resourceK8sManifestUpdate: stamp the live resourceVersion on the object, submit it, wait for ready. */
  method Update(lib: Library, d: ResourceData, c: Client, obj: ObjectRef, budget: nat) returns (err: Option<LifecycleError>)
    modifies c, obj
    ensures var run := Updated(lib, old(c.replies), old(obj.value), d.id, budget);
      err == run.err && c.calls == old(c.calls) + run.calls && c.replies == Drop(old(c.replies), run.consumed) &&
      obj.value == if Answer(old(c.replies)).Failure? then old(obj.value)
        else AfterSubmit(Rest(old(c.replies)), Stamped(old(obj.value), Answer(old(c.replies)).value), run.consumed - 1)
  {
    var key := KeyOf(obj.value);
    var copy := new ObjectRef(obj.value);
    var e := c.Get(key, copy);
    if e.Some? {
      return Some(ApiFailed(e.value));
    }
    obj.value := Stamped(obj.value, copy.value);
    ghost var submitted := Submitted(lib, UpdateCall, c.replies, obj.value, d.id, budget);
    assert Drop(c.replies, submitted.consumed) == Drop(old(c.replies), 1 + submitted.consumed);
    err := SubmitAndWait(lib, UpdateCall, d, c, obj, budget);
  }

  // ---------------------------------------------------------------------
  // Delete

  /**
   * Delete asks for deletion; a failed Delete ends the operation before any
   * poll; otherwise the deletion wait polls the key the object had.
   */
  function Deleted(replies: seq<Reply>, o: Unstructured, id: string, budget: nat): (r: Run)
    ensures |r.calls| == r.consumed >= 1 && r.calls[0] == Call(DeleteCall, KeyOf(o), Some(o))
    ensures Answer(replies).Failure? ==> r == Run(Some(ApiFailed(Answer(replies).error)), r.calls, 1)
    ensures Answer(replies).Success? ==>
      r.consumed <= budget + 1 &&
      (forall i :: 1 <= i < |r.calls| ==> r.calls[i] == Call(GetCall, KeyOf(o), None)) &&
      (r.err.Some? ==> r.err.value.WaitFailed? && r.err.value.id == id && r.err.value.goal == DeletedGoal)
  {
    var delete := Call(DeleteCall, KeyOf(o), Some(o));
    var first := Answer(replies);
    if first.Failure? then Run(Some(ApiFailed(first.error)), [delete], 1)
    else
      var w := Waited(DeleteConf, DeleteRefresh, Rest(replies), budget, 0, "");
      var err := if w.outcome.None? then None else Some(WaitFailed(id, DeletedGoal, w.outcome.value));
      Run(err, [delete] + Gets(KeyOf(o), w.polls), 1 + w.polls)
  }

  /** resourceK8sManifestDelete: delete the component object's cluster object and wait for it to be gone. */
  method Delete(d: ResourceData, c: Client, co: ComponentObject, budget: nat) returns (err: Option<LifecycleError>)
    modifies c
    ensures var run := Deleted(old(c.replies), co.unstructured, d.id, budget);
      err == run.err && c.calls == old(c.calls) + run.calls && c.replies == Drop(old(c.replies), run.consumed)
  {
    var obj := new ObjectRef(co.unstructured);
    var key := KeyOf(obj.value);
    var e := c.Delete(obj);
    if e.Some? {
      return Some(ApiFailed(e.value));
    }
    var w := WaitForState(DeleteConf, DeleteRefresh, c, obj, key, budget);
    err := if w.None? then None else Some(WaitFailed(d.id, DeletedGoal, w.value));
  }

  // ---------------------------------------------------------------------
  // What the operations promise together.

  /** An object already gone when first polled after Delete is deleted with one poll. */
  lemma DeleteGoneAtFirstPoll(replies: seq<Reply>, o: Unstructured, id: string, budget: nat)
    requires budget > 0 && Answer(replies).Success? && Answer(Rest(replies)) == Failure(NotFound)
    ensures Deleted(replies, o, id, budget) ==
      Run(None, [Call(DeleteCall, KeyOf(o), Some(o)), Call(GetCall, KeyOf(o), None)], 2)
  {
    assert Gets(KeyOf(o), 1) == [Call(GetCall, KeyOf(o), None)];
  }

  /** A Get error while waiting for deletion fails Delete with that error, after one poll. */
  lemma DeletePollError(replies: seq<Reply>, o: Unstructured, id: string, budget: nat)
    requires budget > 0 && Answer(replies).Success?
    requires Answer(Rest(replies)).Failure? && !Answer(Rest(replies)).error.NotFound?
    ensures Deleted(replies, o, id, budget).err ==
      Some(WaitFailed(id, DeletedGoal, RefreshFailed(ApiFault(Answer(Rest(replies)).error))))
    ensures Deleted(replies, o, id, budget).consumed == 2
  {
  }

  /** Update's wait is the readiness wait, so its failure is reported as a wait to be created. */
  lemma UpdateWaitNamesCreated(lib: Library, replies: seq<Reply>, o: Unstructured, id: string, budget: nat)
    requires Updated(lib, replies, o, id, budget).err.Some?
    requires !Updated(lib, replies, o, id, budget).err.value.ApiFailed?
    ensures var e := Updated(lib, replies, o, id, budget).err.value;
      e.WaitFailed? && e.id == id && e.goal == CreatedGoal
  {
  }
}
